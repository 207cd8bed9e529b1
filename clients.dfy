/** The client and client-boutique registries (src/lib/services/clientService.ts):
    WhatsApp number cleaning, create-if-absent lookups keyed by the cleaned
    number and by the (client, boutique) pair, counter increments, and the
    top-client and most-loyal-client selections. */
module Clients {
  import opened Types
  import opened JsText
  import opened Seqs
  import opened Store

  // ---------------------------------------------------------------- numbers

  /** The characters `replace(/[\s\-\+]/g, '')` deletes. */
  predicate Removed(c: char) {
    IsSpace(c) || c == '-' || c == '+'
  }

  /** The WhatsApp number as it is stored and looked up. */
  function CleanNumber(s: string): (r: string)
    ensures forall i :: 0 <= i < |r| ==> !Removed(r[i])
    ensures |r| <= |s|
    ensures (forall i :: 0 <= i < |s| ==> !Removed(s[i])) ==> r == s
  {
    if s == [] then []
    else if Removed(s[0]) then CleanNumber(s[1..])
    else [s[0]] + CleanNumber(s[1..])
  }

  /** Cleaning a cleaned number changes nothing, so looking up an already
      cleaned number cleans it a second time harmlessly. */
  lemma CleanIdempotent(s: string)
    ensures CleanNumber(CleanNumber(s)) == CleanNumber(s)
  {
  }

  /** Cleaning works character by character. */
  lemma {:induction false} CleanAppend(a: string, b: string)
    ensures CleanNumber(a + b) == CleanNumber(a) + CleanNumber(b)
  {
    if a == [] {
      assert a + b == b;
    } else {
      assert (a + b)[0] == a[0] && (a + b)[1..] == a[1..] + b;
      CleanAppend(a[1..], b);
    }
  }

  /** Cleaning keeps exactly the characters that are not removed, in order. */
  lemma {:induction false} CleanIsFilter(s: string)
    ensures CleanNumber(s) == Filter(s, (c: char) => !Removed(c))
  {
    if s != [] {
      CleanIsFilter(s[1..]);
    }
  }

  // ---------------------------------------------------------------- clients

  /** The outcome of a create-if-absent lookup: the document, its id, and whether
      it was created by this call. */
  datatype Found<T> = Found(id: Id, record: T, created: bool)

  function NumberOf(c: Client): string {
    c.numero_whatsapp
  }

  predicate HoldsNumber(cs: map<Id, Client>, id: Id, number: string) {
    id in cs && cs[id].numero_whatsapp == number
  }

  predicate NumberKnown(cs: map<Id, Client>, number: string) {
    exists id | id in cs :: HoldsNumber(cs, id, number)
  }

  /** `nom && nom !== current`: a supplied, non-empty name that differs. */
  predicate Renames(nom: Option<string>, current: Option<string>) {
    Truthy(nom) && nom != current
  }

  /** `nom || undefined`: an empty name is not stored. */
  function KeptName(nom: Option<string>): Option<string> {
    if Truthy(nom) then nom else None
  }

  /** `getClientByWhatsApp`: the client stored under the cleaned number. */
  method GetClientByWhatsApp(db: Database, number: string) returns (res: ApiResponse<(Id, Client)>)
    ensures res.Success? ==>
      HoldsNumber(db.clients, res.data.0, CleanNumber(number)) && res.data.1 == db.clients[res.data.0]
    ensures res.Failure? <==> !NumberKnown(db.clients, CleanNumber(number))
    ensures res.Failure? ==> res.error == NotFound
  {
    var cn := CleanNumber(number);
    if NumberKnown(db.clients, cn) {
      var id :| id in db.clients && HoldsNumber(db.clients, id, cn);
      res := Success((id, db.clients[id]));
    } else {
      res := Failure(NotFound);
    }
  }

  /** `getOrCreateClient`: the client registered under the cleaned number,
      renamed when a different non-empty name is supplied; otherwise a new
      client with no purchase. Cleaned numbers stay unique. */
  method GetOrCreateClient(db: Database, number: string, nom: Option<string>, newId: Id)
    returns (r: Found<Client>)
    requires newId !in db.clients
    modifies db`clients, db`clock
    ensures r.id in db.clients && db.clients[r.id] == r.record
    ensures r.record.numero_whatsapp == CleanNumber(number)
    ensures NumberKnown(old(db.clients), CleanNumber(number)) ==>
      && !r.created && r.id in old(db.clients) && db.clock == old(db.clock)
      && var c := old(db.clients)[r.id];
         && c.numero_whatsapp == CleanNumber(number)
         && r.record == (if Renames(nom, c.nom) then c.(nom := nom) else c)
         && db.clients == old(db.clients)[r.id := r.record]
    ensures !NumberKnown(old(db.clients), CleanNumber(number)) ==>
      && r.created && r.id == newId && db.clock == old(db.clock) + 1
      && r.record == Client(CleanNumber(number), KeptName(nom), db.clock, 0, 0)
      && db.clients == old(db.clients)[newId := r.record]
    ensures UniqueBy(old(db.clients), NumberOf) ==> UniqueBy(db.clients, NumberOf)
  {
    var cn := CleanNumber(number);
    CleanIdempotent(number);
    var existing := GetClientByWhatsApp(db, cn);
    if existing.Success? {
      var (id, c) := existing.data;
      var record := if Renames(nom, c.nom) then c.(nom := nom) else c;
      if UniqueBy(db.clients, NumberOf) {
        UniqueByUpdate(db.clients, NumberOf, id, record);
      }
      db.clients := db.clients[id := record];
      return Found(id, record, false);
    }
    var t := db.Tick();
    var c := Client(cn, KeptName(nom), t, 0, 0);
    if UniqueBy(db.clients, NumberOf) {
      UniqueByInsert(db.clients, NumberOf, newId, c);
    }
    db.clients := db.clients[newId := c];
    r := Found(newId, c, true);
  }

  // ---------------------------------------------------------------- relations

  function PairOf(r: ClientBoutique): (Id, Id) {
    (r.client_id, r.boutique_id)
  }

  predicate HoldsPair(rs: map<Id, ClientBoutique>, id: Id, clientId: Id, boutiqueId: Id) {
    id in rs && rs[id].client_id == clientId && rs[id].boutique_id == boutiqueId
  }

  predicate PairKnown(rs: map<Id, ClientBoutique>, clientId: Id, boutiqueId: Id) {
    exists id | id in rs :: HoldsPair(rs, id, clientId, boutiqueId)
  }

  /** `getOrCreateClientBoutique`: the relation of the client with the boutique,
      renamed when a different non-empty name is supplied; otherwise a new
      relation with no purchase. Each pair has at most one relation. */
  method GetOrCreateClientBoutique(db: Database, clientId: Id, boutiqueId: Id, nomClient: Option<string>, newId: Id)
    returns (r: Found<ClientBoutique>)
    requires newId !in db.relations
    modifies db`relations, db`clock
    ensures HoldsPair(db.relations, r.id, clientId, boutiqueId) && db.relations[r.id] == r.record
    ensures PairKnown(old(db.relations), clientId, boutiqueId) ==>
      && !r.created && HoldsPair(old(db.relations), r.id, clientId, boutiqueId) && db.clock == old(db.clock)
      && var c := old(db.relations)[r.id];
         && r.record == (if Renames(nomClient, c.nom_client) then c.(nom_client := nomClient) else c)
         && db.relations == old(db.relations)[r.id := r.record]
    ensures !PairKnown(old(db.relations), clientId, boutiqueId) ==>
      && r.created && r.id == newId && db.clock == old(db.clock) + 1
      && r.record == ClientBoutique(clientId, boutiqueId, KeptName(nomClient), 0, None, db.clock)
      && db.relations == old(db.relations)[newId := r.record]
    ensures UniqueBy(old(db.relations), PairOf) ==> UniqueBy(db.relations, PairOf)
  {
    if PairKnown(db.relations, clientId, boutiqueId) {
      var id :| id in db.relations && HoldsPair(db.relations, id, clientId, boutiqueId);
      var c := db.relations[id];
      var record := if Renames(nomClient, c.nom_client) then c.(nom_client := nomClient) else c;
      if UniqueBy(db.relations, PairOf) {
        UniqueByUpdate(db.relations, PairOf, id, record);
      }
      db.relations := db.relations[id := record];
      return Found(id, record, false);
    }
    var t := db.Tick();
    var c := ClientBoutique(clientId, boutiqueId, KeptName(nomClient), 0, None, t);
    if UniqueBy(db.relations, PairOf) {
      UniqueByInsert(db.relations, PairOf, newId, c);
    }
    db.relations := db.relations[newId := c];
    r := Found(newId, c, true);
  }

  datatype ClientMessage = ClientMessage(
    clientId: Id,
    client: Client,
    relationId: Id,
    clientBoutique: ClientBoutique,
    isNewClient: bool,
    isNewRelation: bool)

  /** How many records registering the sender created. */
  function Created(m: ClientMessage): (n: nat)
    ensures n <= 2 && (n == 0 <==> !m.isNewClient && !m.isNewRelation)
  {
    (if m.isNewClient then 1 else 0) + (if m.isNewRelation then 1 else 0)
  }

  /** The client and relation tables `cs`, `rs` after registering `number`
      with boutique `b`, starting from `cs0`, `rs0` at time `t0`: the record
      found by number (or by pair) is renamed as `getOrCreate*` renames it,
      and a missing one is created under the fresh id; nothing else changes. */
  ghost predicate Registered(cs0: map<Id, Client>, rs0: map<Id, ClientBoutique>, t0: Time,
                             cs: map<Id, Client>, rs: map<Id, ClientBoutique>,
                             number: string, b: Id, nom: Option<string>,
                             newClientId: Id, newRelationId: Id, m: ClientMessage)
  {
    && (m.isNewClient <==> !NumberKnown(cs0, CleanNumber(number)))
    && (m.isNewRelation <==> !PairKnown(rs0, m.clientId, b))
    && cs == cs0[m.clientId := m.client]
    && rs == rs0[m.relationId := m.clientBoutique]
    && (!m.isNewClient ==>
          && m.clientId in cs0 && cs0[m.clientId].numero_whatsapp == CleanNumber(number)
          && m.client == (if Renames(nom, cs0[m.clientId].nom) then cs0[m.clientId].(nom := nom) else cs0[m.clientId]))
    && (m.isNewClient ==>
          m.clientId == newClientId && m.client == Client(CleanNumber(number), KeptName(nom), t0 + 1, 0, 0))
    && (!m.isNewRelation ==>
          && HoldsPair(rs0, m.relationId, m.clientId, b)
          && var c := rs0[m.relationId];
             m.clientBoutique == (if Renames(nom, c.nom_client) then c.(nom_client := nom) else c))
    && (m.isNewRelation ==>
          && m.relationId == newRelationId
          && m.clientBoutique == ClientBoutique(m.clientId, b, KeptName(nom), 0, None, t0 + Created(m)))
  }

  /** `handleClientMessage`: registers the sender globally and with the boutique;
      each flag is set exactly when that record did not exist before. */
  method HandleClientMessage(db: Database, number: string, boutiqueId: Id, nom: Option<string>,
                             newClientId: Id, newRelationId: Id)
    returns (m: ClientMessage)
    requires newClientId !in db.clients && newRelationId !in db.relations
    modifies db`clients, db`relations, db`clock
    ensures Registered(old(db.clients), old(db.relations), old(db.clock), db.clients, db.relations,
                       number, boutiqueId, nom, newClientId, newRelationId, m)
    ensures HoldsNumber(db.clients, m.clientId, CleanNumber(number)) && db.clients[m.clientId] == m.client
    ensures HoldsPair(db.relations, m.relationId, m.clientId, boutiqueId)
    ensures db.relations[m.relationId] == m.clientBoutique
    ensures db.clock == old(db.clock) + Created(m)
  {
    var c := GetOrCreateClient(db, number, nom, newClientId);
    var r := GetOrCreateClientBoutique(db, c.id, boutiqueId, nom, newRelationId);
    m := ClientMessage(c.id, c.record, r.id, r.record, c.created, r.created);
  }

  // ---------------------------------------------------------------- counters

  /** The client table after `updateClientStats`: both counters grow by their
      delta; a missing client changes nothing. */
  function ClientStatsAdded(cs: map<Id, Client>, id: Id, commandes: int, achats: int): (r: map<Id, Client>)
    ensures r.Keys == cs.Keys
    ensures forall k | k in cs && k != id :: r[k] == cs[k]
    ensures id in cs ==> r[id].total_commandes - cs[id].total_commandes == commandes
    ensures id in cs ==> r[id].total_achats - cs[id].total_achats == achats
    ensures id in cs ==> r[id].(total_commandes := 0, total_achats := 0) == cs[id].(total_commandes := 0, total_achats := 0)
  {
    if id !in cs then cs
    else
      var c := cs[id];
      cs[id := c.(total_commandes := c.total_commandes + commandes, total_achats := c.total_achats + achats)]
  }

  /** Increments accumulate: two updates are one update by the sum of the deltas. */
  lemma ClientStatsAccumulate(cs: map<Id, Client>, id: Id, c1: int, a1: int, c2: int, a2: int)
    ensures ClientStatsAdded(ClientStatsAdded(cs, id, c1, a1), id, c2, a2)
         == ClientStatsAdded(cs, id, c1 + c2, a1 + a2)
  {
  }

  /** `updateClientStats`: a missing client makes the write fail. */
  method UpdateClientStats(db: Database, id: Id, commandes: Option<int>, achats: Option<int>)
    returns (res: ApiResponse<()>)
    modifies db`clients
    ensures res == if id in old(db.clients) then Success(()) else Failure(NotFound)
    ensures db.clients == ClientStatsAdded(old(db.clients), id, OrZero(commandes), OrZero(achats))
  {
    if id !in db.clients {
      return Failure(NotFound);
    }
    db.clients := ClientStatsAdded(db.clients, id, OrZero(commandes), OrZero(achats));
    res := Success(());
  }

  /** The relation table after `updateClientBoutiqueStats`: the purchase count
      grows by its delta, and the last purchase date becomes `stamp` when one
      is written. */
  function RelationStatsAdded(rs: map<Id, ClientBoutique>, id: Id, achats: int, stamp: Option<Time>)
    : (r: map<Id, ClientBoutique>)
    ensures r.Keys == rs.Keys
    ensures forall k | k in rs && k != id :: r[k] == rs[k]
    ensures id in rs ==> r[id].historique_achats - rs[id].historique_achats == achats
    ensures id in rs ==> r[id].dernier_achat == if stamp.Some? then stamp else rs[id].dernier_achat
    ensures id in rs ==> PairOf(r[id]) == PairOf(rs[id])
  {
    if id !in rs then rs
    else
      var c := rs[id];
      rs[id := c.(historique_achats := c.historique_achats + achats,
                  dernier_achat := Overwrite(c.dernier_achat, stamp))]
  }

  /** Recording purchases never merges or splits relations. */
  lemma RelationStatsKeepUnique(rs: map<Id, ClientBoutique>, id: Id, achats: int, stamp: Option<Time>)
    requires UniqueBy(rs, PairOf)
    ensures UniqueBy(RelationStatsAdded(rs, id, achats, stamp), PairOf)
  {
    if id in rs {
      UniqueByUpdate(rs, PairOf, id, RelationStatsAdded(rs, id, achats, stamp)[id]);
    }
  }

  /** `updateClientBoutiqueStats`: `stampLast` stands for `dernier_achat: true`,
      which writes the server time; a missing relation makes the write fail. */
  method UpdateClientBoutiqueStats(db: Database, id: Id, achats: Option<int>, stampLast: bool)
    returns (res: ApiResponse<()>)
    modifies db`relations, db`clock
    ensures res == if id in old(db.relations) then Success(()) else Failure(NotFound)
    ensures db.clock == old(db.clock) + (if id in old(db.relations) && stampLast then 1 else 0)
    ensures db.relations == RelationStatsAdded(old(db.relations), id, OrZero(achats),
                                               if stampLast then Some(db.clock) else None)
  {
    if id !in db.relations {
      return Failure(NotFound);
    }
    var stamp := None;
    if stampLast {
      var t := db.Tick();
      stamp := Some(t);
    }
    db.relations := RelationStatsAdded(db.relations, id, OrZero(achats), stamp);
    res := Success(());
  }

  // ---------------------------------------------------------------- rankings

  function Achats(r: ClientBoutique): int {
    r.historique_achats
  }

  predicate HasBought(r: ClientBoutique) {
    r.historique_achats > 0
  }

  /** Everything after the first `n` elements of a descending sequence ranks
      no higher than anything among the first `n`. */
  lemma {:induction false} SortedPrefixDominates<T>(s: seq<T>, f: T -> int, n: nat)
    requires SortedDesc(s, f) && n <= |s|
    ensures forall x, y :: x in s[..n] && y in multiset(s) - multiset(s[..n]) ==> f(x) >= f(y)
  {
    assert s == s[..n] + s[n..];
    assert multiset(s) - multiset(s[..n]) == multiset(s[n..]);
    forall x, y | x in s[..n] && y in multiset(s) - multiset(s[..n])
      ensures f(x) >= f(y)
    {
      assert y in s[n..];
      var i :| 0 <= i < n && s[i] == x;
      var j :| n <= j < |s| && s[j] == y;
    }
  }

  /** `getTopClients` over the boutique's relations: those with a purchase,
      most purchases first, at most `limit` of them (`slice(0, limit)`). */
  function TopClients(rs: seq<ClientBoutique>, limit: int): (r: seq<ClientBoutique>)
    ensures forall i :: 0 <= i < |r| ==> HasBought(r[i])
    ensures SortedDesc(r, Achats)
    ensures multiset(r) <= multiset(rs)
    ensures 0 <= limit ==> |r| == if limit < Count(rs, HasBought) then limit else Count(rs, HasBought)
  {
    var bought := Filter(rs, HasBought);
    var sorted := SortDesc(bought, Achats);
    PrefixOfBought(bought, sorted, limit);
    SliceTo(sorted, limit)
  }

  /** A prefix of a permutation of `bought` keeps its order and its elements. */
  lemma PrefixOfBought(bought: seq<ClientBoutique>, sorted: seq<ClientBoutique>, limit: int)
    requires forall i :: 0 <= i < |bought| ==> HasBought(bought[i])
    requires multiset(sorted) == multiset(bought)
    ensures forall i :: 0 <= i < |SliceTo(sorted, limit)| ==> HasBought(SliceTo(sorted, limit)[i])
    ensures multiset(SliceTo(sorted, limit)) <= multiset(sorted)
  {
    var r := SliceTo(sorted, limit);
    assert sorted == r + sorted[|r|..];
    forall i | 0 <= i < |r| ensures HasBought(r[i]) {
      assert r[i] in multiset(bought);
    }
  }

  /** No relation with a purchase that is left out of the top ranks above one
      that is kept. */
  lemma TopClientsDominate(rs: seq<ClientBoutique>, limit: int)
    ensures var r := TopClients(rs, limit);
      forall x, y :: x in r && y in multiset(Filter(rs, HasBought)) - multiset(r) ==> Achats(x) >= Achats(y)
  {
    var sorted := SortDesc(Filter(rs, HasBought), Achats);
    var r := TopClients(rs, limit);
    assert r == sorted[..|r|];
    SortedPrefixDominates(sorted, Achats, |r|);
  }

  /** The most loyal client: the first relation with the largest purchase
      count, reported only when that count is positive. */
  function MostLoyal(rs: seq<ClientBoutique>): (r: Option<ClientBoutique>)
    ensures r.Some? ==>
      exists k :: 0 <= k < |rs| && rs[k] == r.value
        && (forall j :: 0 <= j < |rs| ==> Achats(rs[j]) <= Achats(r.value))
        && (forall j :: 0 <= j < k ==> Achats(rs[j]) < Achats(r.value))
    ensures r.Some? ==> HasBought(r.value)
    ensures r.None? <==> forall j :: 0 <= j < |rs| ==> !HasBought(rs[j])
  {
    if rs == [] then None
    else
      var k := FirstMaxIndex(rs, Achats);
      if HasBought(rs[k]) then Some(rs[k]) else None
  }

  /** The most loyal client is the top client, when there is one. */
  lemma MostLoyalHeadsTop(rs: seq<ClientBoutique>)
    requires MostLoyal(rs).Some?
    ensures TopClients(rs, 1) != []
    ensures Achats(TopClients(rs, 1)[0]) == Achats(MostLoyal(rs).value)
  {
    var m := MostLoyal(rs).value;
    var k :| 0 <= k < |rs| && rs[k] == m;
    assert m in rs && HasBought(m);
    assert m in Filter(rs, HasBought);
    CountPositive(rs, k);
    var top := TopClients(rs, 1);
    assert top[0] in multiset(rs);
    TopClientsDominate(rs, 1);
    if m !in multiset(top) {
      assert m in multiset(Filter(rs, HasBought)) - multiset(top);
    }
  }

  /** A sequence with an element satisfying `HasBought` counts at least one. */
  lemma {:induction false} CountPositive(rs: seq<ClientBoutique>, k: nat)
    requires k < |rs| && HasBought(rs[k])
    ensures Count(rs, HasBought) >= 1
  {
    if k > 0 {
      CountPositive(rs[1..], k - 1);
    }
  }

  // ---------------------------------------------------------------- purchase key

  /** `s.split(sep)[0]`: the text before the first separator. */
  function SplitHead(s: string, sep: char): (r: string)
    ensures |r| <= |s| && r == s[..|r|]
    ensures sep !in r
    ensures sep !in s ==> r == s
    ensures |r| < |s| ==> s[|r|] == sep
  {
    if s == [] then []
    else if s[0] == sep then []
    else [s[0]] + SplitHead(s[1..], sep)
  }

  /** The document `validatePayment` credits as the client:
      `client_boutique_id.split('_')[0]`. */
  function ClientKeyAsWritten(relationId: Id): (k: Id)
    ensures '_' !in k && |k| <= |relationId| && k == relationId[..|k|]
    ensures '_' !in relationId ==> k == relationId
  {
    SplitHead(relationId, '_')
  }

  /** The client of a relation, as the relation record stores it. */
  function ClientOf(rs: map<Id, ClientBoutique>, relationId: Id): (r: Option<Id>)
    ensures r.Some? <==> relationId in rs
    ensures r.Some? ==> PairOf(rs[relationId]).0 == r.value
  {
    if relationId in rs then Some(rs[relationId].client_id) else None
  }

  /** Relation ids are store-generated and carry no `_`, so the key computed as
      written is the relation id itself: it names the client only if the
      relation and the client happen to share their id. With a relation
      "r1" of client "c1", the update is sent to "r1", which is no client,
      fails, and the failure is ignored: the client's totals never move. */
  lemma ClientKeyMissesClient(relationId: Id, rs: map<Id, ClientBoutique>, cs: map<Id, Client>)
    requires '_' !in relationId && relationId in rs
    ensures ClientKeyAsWritten(relationId) == relationId
    ensures ClientKeyAsWritten(relationId) == ClientOf(rs, relationId).value <==> rs[relationId].client_id == relationId
    ensures relationId !in cs ==> ClientStatsAdded(cs, ClientKeyAsWritten(relationId), 1, 1) == cs
  {
  }

  /** The same, on a concrete store. */
  lemma ClientKeyCounterexample()
    ensures var rs := map["r1" := ClientBoutique("c1", "b1", None, 0, None, 0)];
            var cs := map["c1" := Client("224620000000", None, 0, 0, 0)];
            && ClientOf(rs, "r1") == Some("c1")
            && ClientKeyAsWritten("r1") != "c1"
            && ClientStatsAdded(cs, ClientKeyAsWritten("r1"), 1, 5000) == cs
            && ClientStatsAdded(cs, ClientOf(rs, "r1").value, 1, 5000)["c1"].total_achats == 5000
  {
    var rs := map["r1" := ClientBoutique("c1", "b1", None, 0, None, 0)];
    ClientKeyMissesClient("r1", rs, map["c1" := Client("224620000000", None, 0, 0, 0)]);
  }
}
