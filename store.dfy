/** The Firestore database the services share (src/lib/firebase.ts is not part
    of this model). Each collection is a map from document id to record; the
    `messages` collection is an append-only log in insertion order; `clock` is
    the abstract server clock behind `serverTimestamp()`, advanced once for
    every write that stores a timestamp. */
module Store {
  import opened Types

  /** Messages are logged in timestamp order, none later than the clock. */
  predicate Chronological(ms: seq<Message>, clock: Time) {
    (forall i, j :: 0 <= i < j < |ms| ==> ms[i].timestamp <= ms[j].timestamp)
    && (forall i :: 0 <= i < |ms| ==> ms[i].timestamp <= clock)
  }

  /** What every stored order satisfies: a positive amount (creation refuses
      any other), a validation date once it has been paid, and a claim date
      while a payment claim is pending. */
  predicate CommandeInvariant(c: Commande) {
    && c.final_amount > 0
    && ((c.status == Payee || c.status == Expediee || c.status == Livree) ==> c.validated_at.Some?)
    && (c.payment_validation_requested ==> c.validation_requested_at.Some?)
  }

  /** An escalated conversation records why it was escalated. */
  predicate ConversationInvariant(c: Conversation) {
    c.status == Escalade ==> c.escalation_reason.Some?
  }

  predicate CommandesWellFormed(cs: map<Id, Commande>) {
    forall id :: id in cs ==> CommandeInvariant(cs[id])
  }

  predicate ConversationsWellFormed(cs: map<Id, Conversation>) {
    forall id :: id in cs ==> ConversationInvariant(cs[id])
  }

  class Database {
    var boutiques: map<Id, Boutique>
    var products: map<Id, Product>
    var clients: map<Id, Client>
    var relations: map<Id, ClientBoutique>
    var conversations: map<Id, Conversation>
    var messages: seq<Message>
    var commandes: map<Id, Commande>
    var clock: Time

    predicate Valid()
      reads this`messages, this`clock, this`commandes, this`conversations
    {
      && Chronological(messages, clock)
      && CommandesWellFormed(commandes)
      && ConversationsWellFormed(conversations)
    }

    constructor ()
      ensures Valid()
      ensures boutiques == map[] && products == map[] && clients == map[]
      ensures relations == map[] && conversations == map[] && commandes == map[]
      ensures messages == [] && clock == 0
    {
      boutiques := map[];
      products := map[];
      clients := map[];
      relations := map[];
      conversations := map[];
      messages := [];
      commandes := map[];
      clock := 0;
    }

    /** `serverTimestamp()`: a time strictly later than every earlier one. */
    method Tick() returns (t: Time)
      modifies this`clock
      ensures clock == old(clock) + 1 && t == clock
    {
      clock := clock + 1;
      t := clock;
    }
  }

  /** Appending a message stamped at the current clock keeps the log in order. */
  lemma ChronologicalAppend(ms: seq<Message>, clock: Time, m: Message)
    requires Chronological(ms, clock)
    requires m.timestamp == clock
    ensures Chronological(ms + [m], clock)
  {
  }

  /** A later clock bounds the same log. */
  lemma ChronologicalLater(ms: seq<Message>, clock: Time, later: Time)
    requires Chronological(ms, clock) && clock <= later
    ensures Chronological(ms, later)
  {
  }

  /** No two documents of `m` share the same `key`: the property a
      create-if-absent lookup by `key` maintains. */
  ghost predicate UniqueBy<T, K>(m: map<Id, T>, key: T -> K) {
    forall i, j | i in m && j in m :: key(m[i]) == key(m[j]) ==> i == j
  }

  /** Inserting a document whose key is not yet taken keeps keys unique. */
  lemma UniqueByInsert<T, K>(m: map<Id, T>, key: T -> K, id: Id, v: T)
    requires UniqueBy(m, key) && id !in m
    requires forall i | i in m :: key(m[i]) != key(v)
    ensures UniqueBy(m[id := v], key)
  {
  }

  /** Rewriting a document without changing its key keeps keys unique. */
  lemma UniqueByUpdate<T, K>(m: map<Id, T>, key: T -> K, id: Id, v: T)
    requires UniqueBy(m, key) && id in m
    requires key(v) == key(m[id])
    ensures UniqueBy(m[id := v], key)
  {
  }
}
