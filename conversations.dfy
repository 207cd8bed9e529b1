/** Conversations and messages (src/lib/services/conversationService.ts): the
    keyword classifier that decides escalation, the conversation states
    `bot`/`escalade`/`resolu`/`ferme`, the message log and the statistics. */
module Conversations {
  import opened Types
  import opened JsText
  import opened Seqs
  import opened Store
  import opened Clients

  // ---------------------------------------------------------------- classifier

  const RemiseKeywords: seq<string> := ["remise", "reduction", "prix", "moins cher", "discount", "promo"]
  const LivraisonKeywords: seq<string> := ["livraison", "livrer", "recevoir", "quand", "o\U{F9}", "adresse"]
  const ProblemeKeywords: seq<string> := ["probleme", "defaut", "casse", "abime", "retour", "rembourse"]

  /** `keywords.some(k => message.includes(k))`. */
  predicate MentionsAny(message: string, keywords: seq<string>) {
    exists i | 0 <= i < |keywords| :: Contains(message, keywords[i])
  }

  /** A long message (over 200 characters) or one with more than two `?`. */
  predicate IsComplex(message: string) {
    |message| > 200 || CountChar(message, '?') > 2
  }

  datatype Escalation = Escalation(shouldEscalate: bool, reason: Option<EscalationReason>)

  /** `analyzeForEscalation`: the first keyword family found in the lower-cased
      message decides, in the order discount, delivery, product problem; a
      message with none of them is escalated only when it is complex. */
  function AnalyzeForEscalation(messageContent: string): (r: Escalation)
    ensures r.shouldEscalate <==> r.reason.Some?
    ensures r.reason != Some(Other)
  {
    var message := Lower(messageContent);
    if MentionsAny(message, RemiseKeywords) then Escalation(true, Some(Remise))
    else if MentionsAny(message, LivraisonKeywords) then Escalation(true, Some(Livraison))
    else if MentionsAny(message, ProblemeKeywords) then Escalation(true, Some(ProblemeProduit))
    else if IsComplex(message) then Escalation(true, Some(Complexe))
    else Escalation(false, None)
  }

  /** Each reason in terms of which families the message mentions: a family
      wins exactly when it matches and no earlier family does. */
  lemma ClassifierPriority(text: string)
    ensures var m := Lower(text); var r := AnalyzeForEscalation(text).reason;
      && (r == Some(Remise) <==> MentionsAny(m, RemiseKeywords))
      && (r == Some(Livraison) <==> !MentionsAny(m, RemiseKeywords) && MentionsAny(m, LivraisonKeywords))
      && (r == Some(ProblemeProduit) <==>
            !MentionsAny(m, RemiseKeywords) && !MentionsAny(m, LivraisonKeywords) && MentionsAny(m, ProblemeKeywords))
      && (r == Some(Complexe) <==>
            !MentionsAny(m, RemiseKeywords) && !MentionsAny(m, LivraisonKeywords)
            && !MentionsAny(m, ProblemeKeywords) && IsComplex(m))
      && (r == None <==>
            !MentionsAny(m, RemiseKeywords) && !MentionsAny(m, LivraisonKeywords)
            && !MentionsAny(m, ProblemeKeywords) && !IsComplex(m))
  {
  }

  /** The classifier ignores case: it sees the message only lower-cased. */
  lemma ClassifierIgnoresCase(text: string)
    ensures AnalyzeForEscalation(Lower(text)) == AnalyzeForEscalation(text)
  {
    LowerIdempotent(text);
  }

  /** Text without capitals is its own lower case. */
  lemma LowerOfLowercase(s: string)
    requires forall i :: 0 <= i < |s| ==> ('a' <= s[i] <= 'z' || s[i] == ' ')
    ensures Lower(s) == s
  {
    assert forall i :: 0 <= i < |s| ==> Lower(s)[i] == s[i];
  }

  /** A message that starts with `prix` mentions a discount keyword. */
  lemma MentionsPrix(m: string)
    requires |m| >= 4 && m[..4] == "prix"
    ensures MentionsAny(m, RemiseKeywords)
  {
    assert Contains(m, RemiseKeywords[2]);
  }

  /** A message asking both about the price and a refund is a discount request. */
  lemma PriceBeatsRefund()
    ensures MentionsAny("prix rembourse", ProblemeKeywords)
    ensures AnalyzeForEscalation("prix rembourse") == Escalation(true, Some(Remise))
  {
    var m := "prix rembourse";
    LowerOfLowercase(m);
    MentionsPrix(m);
    assert OccursAt(m, ProblemeKeywords[5], 5);
    ContainsIffOccurs(m, ProblemeKeywords[5]);
  }

  // ---------------------------------------------------------------- conversations

  predicate IsActive(c: Conversation) {
    c.status == Bot || c.status == Escalade
  }

  /** An active conversation of the relation. */
  predicate ActiveFor(cs: map<Id, Conversation>, id: Id, relationId: Id) {
    id in cs && cs[id].client_boutique_id == relationId && IsActive(cs[id])
  }

  /** The active conversation of the relation with the latest activity. */
  predicate LatestActive(cs: map<Id, Conversation>, id: Id, relationId: Id) {
    ActiveFor(cs, id, relationId)
    && forall k | k in cs && ActiveFor(cs, k, relationId) :: cs[k].derniere_activite <= cs[id].derniere_activite
  }

  predicate HasActive(cs: map<Id, Conversation>, relationId: Id) {
    exists id | id in cs :: ActiveFor(cs, id, relationId)
  }

  /** `m` is an active conversation of the relation among `ks`, and none in `ks` is later. */
  predicate LatestAmong(cs: map<Id, Conversation>, ks: set<Id>, m: Id, relationId: Id)
    requires ks <= cs.Keys
  {
    m in ks && ActiveFor(cs, m, relationId)
    && forall k | k in ks && ActiveFor(cs, k, relationId) :: cs[k].derniere_activite <= cs[m].derniere_activite
  }

  /** Among finitely many active conversations one has the latest activity. */
  lemma {:induction false} LatestActiveExists(cs: map<Id, Conversation>, relationId: Id, ks: set<Id>)
    returns (m: Id)
    requires ks <= cs.Keys
    requires exists id | id in ks :: ActiveFor(cs, id, relationId)
    ensures LatestAmong(cs, ks, m, relationId)
    decreases ks
  {
    var x :| x in ks && ActiveFor(cs, x, relationId);
    var rest := ks - {x};
    if exists id | id in rest :: ActiveFor(cs, id, relationId) {
      var m' := LatestActiveExists(cs, relationId, rest);
      if cs[x].derniere_activite <= cs[m'].derniere_activite {
        m := m';
      } else {
        m := x;
      }
    } else {
      m := x;
    }
  }

  /** `getActiveConversation`: the relation's `bot` or `escalade` conversation
      with the latest activity. */
  method GetActiveConversation(db: Database, relationId: Id) returns (res: ApiResponse<(Id, Conversation)>)
    ensures res.Success? ==> LatestActive(db.conversations, res.data.0, relationId)
    ensures res.Success? ==> res.data.1 == db.conversations[res.data.0]
    ensures res.Failure? <==> !HasActive(db.conversations, relationId)
    ensures res.Failure? ==> res.error == NotFound
  {
    if HasActive(db.conversations, relationId) {
      ghost var latest := LatestActiveExists(db.conversations, relationId, db.conversations.Keys);
      assert LatestActive(db.conversations, latest, relationId);
      var id :| id in db.conversations && LatestActive(db.conversations, id, relationId);
      res := Success((id, db.conversations[id]));
    } else {
      res := Failure(NotFound);
    }
  }

  /** `getOrCreateConversation`: the latest active conversation of the relation,
      or a new one handled by the bot with no message yet. */
  method GetOrCreateConversation(db: Database, relationId: Id, newId: Id) returns (r: Found<Conversation>)
    requires newId !in db.conversations
    modifies db`conversations, db`clock
    ensures r.id in db.conversations && db.conversations[r.id] == r.record
    ensures r.record.client_boutique_id == relationId && IsActive(r.record)
    ensures HasActive(old(db.conversations), relationId) ==>
      && !r.created && LatestActive(old(db.conversations), r.id, relationId)
      && db.conversations == old(db.conversations) && db.clock == old(db.clock)
    ensures !HasActive(old(db.conversations), relationId) ==>
      && r.created && r.id == newId && db.clock == old(db.clock) + 1
      && r.record == Conversation(relationId, Bot, None, None, None, None, None, None,
                                  db.clock, Counter(0), true, db.clock)
      && db.conversations == old(db.conversations)[newId := r.record]
    ensures ConversationsWellFormed(old(db.conversations)) ==> ConversationsWellFormed(db.conversations)
  {
    var active := GetActiveConversation(db, relationId);
    if active.Success? {
      return Found(active.data.0, active.data.1, false);
    }
    var t := db.Tick();
    var c := Conversation(relationId, Bot, None, None, None, None, None, None, t, Counter(0), true, t);
    db.conversations := db.conversations[newId := c];
    r := Found(newId, c, true);
  }

  /** The record `escalateConversation` writes: escalated for `reason`,
      whatever the status and the reason were before. */
  function Escalated(c: Conversation, reason: EscalationReason, notes: Option<string>, t: Time): (r: Conversation)
    ensures r.status == Escalade && r.escalation_reason == Some(reason) && ConversationInvariant(r)
  {
    c.(status := Escalade, escalation_reason := Some(reason),
       notes_escalation := Overwrite(c.notes_escalation, notes), escalated_at := Some(t))
  }

  /** A second escalation replaces the first one's reason. */
  lemma EscalationOverwritesReason(c: Conversation, r1: EscalationReason, n1: Option<string>, t1: Time,
                                   r2: EscalationReason, n2: Option<string>, t2: Time)
    ensures Escalated(Escalated(c, r1, n1, t1), r2, n2, t2).escalation_reason == Some(r2)
    ensures n2.Some? ==> Escalated(Escalated(c, r1, n1, t1), r2, n2, t2).notes_escalation == n2
    ensures Escalated(Escalated(c, r1, n1, t1), r2, n2, t2).escalated_at == Some(t2)
  {
  }

  /** `escalateConversation`: no precondition on the status; a missing
      conversation makes the write fail. */
  method EscalateConversation(db: Database, id: Id, reason: EscalationReason, notes: Option<string>)
    returns (res: ApiResponse<()>)
    modifies db`conversations, db`clock
    ensures id !in old(db.conversations) ==>
      res == Failure(NotFound) && db.conversations == old(db.conversations) && db.clock == old(db.clock)
    ensures id in old(db.conversations) ==>
      && res == Success(()) && db.clock == old(db.clock) + 1
      && db.conversations == old(db.conversations)[id := Escalated(old(db.conversations)[id], reason, notes, db.clock)]
    ensures ConversationsWellFormed(old(db.conversations)) ==> ConversationsWellFormed(db.conversations)
  {
    if id !in db.conversations {
      return Failure(NotFound);
    }
    var t := db.Tick();
    db.conversations := db.conversations[id := Escalated(db.conversations[id], reason, notes, t)];
    res := Success(());
  }

  /** The record `resolveConversation` writes. */
  function Resolved(c: Conversation, notes: Option<string>, t: Time): (r: Conversation)
    ensures r.status == Resolu && r.resolved_at == Some(t) && ConversationInvariant(r)
    ensures r.escalation_reason == c.escalation_reason
  {
    c.(status := Resolu, resolution_notes := Overwrite(c.resolution_notes, notes), resolved_at := Some(t))
  }

  /** `resolveConversation`: from any status. */
  method ResolveConversation(db: Database, id: Id, notes: Option<string>) returns (res: ApiResponse<()>)
    modifies db`conversations, db`clock
    ensures id !in old(db.conversations) ==>
      res == Failure(NotFound) && db.conversations == old(db.conversations) && db.clock == old(db.clock)
    ensures id in old(db.conversations) ==>
      && res == Success(()) && db.clock == old(db.clock) + 1
      && db.conversations == old(db.conversations)[id := Resolved(old(db.conversations)[id], notes, db.clock)]
    ensures ConversationsWellFormed(old(db.conversations)) ==> ConversationsWellFormed(db.conversations)
  {
    if id !in db.conversations {
      return Failure(NotFound);
    }
    var t := db.Tick();
    db.conversations := db.conversations[id := Resolved(db.conversations[id], notes, t)];
    res := Success(());
  }

  /** The record `closeConversation` writes. */
  function Closed(c: Conversation, t: Time): (r: Conversation)
    ensures r.status == Ferme && r.closed_at == Some(t) && ConversationInvariant(r)
    ensures r.escalation_reason == c.escalation_reason && r.resolved_at == c.resolved_at
  {
    c.(status := Ferme, closed_at := Some(t))
  }

  /** `closeConversation`: from any status. */
  method CloseConversation(db: Database, id: Id) returns (res: ApiResponse<()>)
    modifies db`conversations, db`clock
    ensures id !in old(db.conversations) ==>
      res == Failure(NotFound) && db.conversations == old(db.conversations) && db.clock == old(db.clock)
    ensures id in old(db.conversations) ==>
      && res == Success(()) && db.clock == old(db.clock) + 1
      && db.conversations == old(db.conversations)[id := Closed(old(db.conversations)[id], db.clock)]
    ensures ConversationsWellFormed(old(db.conversations)) ==> ConversationsWellFormed(db.conversations)
  {
    if id !in db.conversations {
      return Failure(NotFound);
    }
    var t := db.Tick();
    db.conversations := db.conversations[id := Closed(db.conversations[id], t)];
    res := Success(());
  }

  /** Resolving or closing takes a conversation out of the active ones, so the
      next message of the relation opens a new conversation. */
  lemma EndedIsNotActive(c: Conversation, notes: Option<string>, t: Time)
    ensures !IsActive(Resolved(c, notes, t)) && !IsActive(Closed(c, t))
    ensures IsActive(Escalated(c, Other, notes, t))
  {
  }

  // ---------------------------------------------------------------- messages

  /** The conversation table after a message is logged into conversation `id`
      at time `t`: its last activity and its message stamp move to `t`, every
      other field and every other conversation stays; an unknown id changes
      nothing. */
  function Touched(cs: map<Id, Conversation>, id: Id, t: Time): (r: map<Id, Conversation>)
    ensures r.Keys == cs.Keys
    ensures forall k | k in cs && k != id :: r[k] == cs[k]
    ensures id in cs ==> r[id].derniere_activite == t && r[id].messages_count == Stamped(t)
    ensures id in cs ==> r[id].(derniere_activite := cs[id].derniere_activite, messages_count := cs[id].messages_count) == cs[id]
  {
    if id in cs then cs[id := cs[id].(derniere_activite := t, messages_count := Stamped(t))] else cs
  }

  /** `addMessage`: the message is logged whether or not the conversation
      exists; an existing conversation then records the activity, and its
      `messages_count` receives the time stamp `addMessage` writes there. */
  method AddMessage(db: Database, conversationId: Id, content: Content, sender: Sender, kind: MessageKind,
                    botProcessed: bool, commandeId: Option<Id>)
    returns (m: Message)
    modifies db`messages, db`conversations, db`clock
    ensures m == Message(conversationId, sender, content, kind, botProcessed, commandeId, old(db.clock) + 1)
    ensures db.messages == old(db.messages) + [m]
    ensures db.clock == old(db.clock) + (if conversationId in old(db.conversations) then 2 else 1)
    ensures db.conversations == Touched(old(db.conversations), conversationId, db.clock)
    ensures old(db.Valid()) ==> db.Valid()
  {
    ghost var wasValid := db.Valid();
    var t := db.Tick();
    m := Message(conversationId, sender, content, kind, botProcessed, commandeId, t);
    if wasValid {
      ChronologicalLater(db.messages, t - 1, t);
      ChronologicalAppend(db.messages, t, m);
    }
    db.messages := db.messages + [m];
    if conversationId in db.conversations {
      var t2 := db.Tick();
      if wasValid {
        ChronologicalLater(db.messages, t, t2);
      }
      var c := db.conversations[conversationId];
      db.conversations := db.conversations[conversationId := c.(derniere_activite := t2, messages_count := Stamped(t2))];
    }
  }

  function Timestamp(m: Message): int {
    m.timestamp
  }

  /** The messages of one conversation, in log order. */
  function MessagesOf(msgs: seq<Message>, conversationId: Id): (r: seq<Message>)
    ensures forall i :: 0 <= i < |r| ==> r[i].conversation_id == conversationId
  {
    Filter(msgs, (m: Message) => m.conversation_id == conversationId)
  }

  /** `getRecentMessages`: the conversation's messages newest first, at most
      `count` of them, turned back to oldest first. The store refuses a limit
      that is not positive. */
  function RecentMessages(msgs: seq<Message>, conversationId: Id, count: int): (r: ApiResponse<seq<Message>>)
    ensures r.Failure? <==> count <= 0
    ensures r.Failure? ==> r.error == InvalidLimit
    ensures r.Success? ==> r.data == LastN(MessagesOf(msgs, conversationId), count)
  {
    if count <= 0 then Failure(InvalidLimit)
    else
      var newestFirst := Reverse(MessagesOf(msgs, conversationId));
      ReverseTakeReverse(MessagesOf(msgs, conversationId), count);
      Success(Reverse(SliceTo(newestFirst, count)))
  }

  /** On a chronological log the recent messages come oldest first, and they
      are the latest of the conversation. */
  lemma RecentMessagesChronological(msgs: seq<Message>, clock: Time, conversationId: Id, count: int)
    requires Chronological(msgs, clock) && count > 0
    ensures var r := RecentMessages(msgs, conversationId, count).data;
      && SortedAsc(r, Timestamp)
      && forall i, j :: 0 <= i < |MessagesOf(msgs, conversationId)| - |r| <= j < |MessagesOf(msgs, conversationId)|
           ==> MessagesOf(msgs, conversationId)[i].timestamp <= MessagesOf(msgs, conversationId)[j].timestamp
  {
    assert SortedAsc(msgs, Timestamp);
    var all := MessagesOf(msgs, conversationId);
    FilterSorted(msgs, (m: Message) => m.conversation_id == conversationId, Timestamp);
    assert SortedAsc(all, Timestamp);
    var r := RecentMessages(msgs, conversationId, count).data;
    assert r == all[|all| - |r|..];
    forall i, j | 0 <= i < j < |r| ensures Timestamp(r[i]) <= Timestamp(r[j]) {
      assert r[i] == all[|all| - |r| + i] && r[j] == all[|all| - |r| + j];
    }
  }

  // ---------------------------------------------------------------- statistics

  datatype ConversationStats = ConversationStats(
    total_conversations: nat,
    conversations_actives: nat,
    escalations_en_attente: nat,
    taux_resolution_bot: int)

  predicate EndedByBot(c: Conversation) {
    c.traite_par_bot && (c.status == Resolu || c.status == Ferme)
  }

  /** `getConversationStats` over the boutique's conversations: the escalations
      waiting are among the active ones, and the bot's resolution rate is a
      rounded percentage. */
  function ConversationStatsOf(cs: seq<Conversation>): (r: ConversationStats)
    ensures r.total_conversations == |cs|
    ensures r.conversations_actives == Count(cs, IsActive)
    ensures r.escalations_en_attente == Count(cs, (c: Conversation) => c.status == Escalade)
    ensures r.escalations_en_attente <= r.conversations_actives
    ensures 0 <= r.taux_resolution_bot <= 100
    ensures cs == [] ==> r.taux_resolution_bot == 0
    ensures cs != [] ==>
      var ended := Count(cs, EndedByBot);
      2 * |cs| * r.taux_resolution_bot - |cs| <= 200 * ended < 2 * |cs| * r.taux_resolution_bot + |cs|
  {
    var escal := (c: Conversation) => c.status == Escalade;
    CountMonotone(cs, escal, IsActive);
    var ended := Count(cs, EndedByBot);
    var rate := if |cs| > 0 then Percent(ended, |cs|) else 0;
    ConversationStats(|cs|, Count(cs, IsActive), Count(cs, escal), rate)
  }

  // ---------------------------------------------------------------- bot workflow

  datatype BotMessage = BotMessage(
    conversationId: Id,
    conversation: Conversation,
    message: Message,
    shouldEscalate: bool,
    escalationReason: Option<EscalationReason>)

  /** `handleBotMessage`: registers the sender, finds or opens the relation's
      conversation, logs the text and reports the classifier's verdict; it
      escalates nothing itself. */
  method HandleBotMessage(db: Database, number: string, boutiqueId: Id, text: string, nom: Option<string>,
                          newClientId: Id, newRelationId: Id, newConversationId: Id)
    returns (r: BotMessage, ghost sender: ClientMessage)
    requires newClientId !in db.clients && newRelationId !in db.relations
    requires newConversationId !in db.conversations
    modifies db`clients, db`relations, db`conversations, db`messages, db`clock
    ensures Registered(old(db.clients), old(db.relations), old(db.clock), db.clients, db.relations,
                       number, boutiqueId, nom, newClientId, newRelationId, sender)
    ensures r.conversation.client_boutique_id == sender.relationId
    ensures HasActive(old(db.conversations), sender.relationId) ==>
      && LatestActive(old(db.conversations), r.conversationId, sender.relationId)
      && r.conversation == old(db.conversations)[r.conversationId]
      && db.clock == old(db.clock) + Created(sender) + 2
    ensures !HasActive(old(db.conversations), sender.relationId) ==>
      && var t := old(db.clock) + Created(sender) + 1;
         && r.conversationId == newConversationId
         && r.conversation == Conversation(sender.relationId, Bot, None, None, None, None, None, None,
                                           t, Counter(0), true, t)
         && db.clock == t + 2
    ensures r.message.timestamp == db.clock - 1
    ensures db.conversations == Touched(old(db.conversations)[r.conversationId := r.conversation], r.conversationId, db.clock)
    ensures Escalation(r.shouldEscalate, r.escalationReason) == AnalyzeForEscalation(text)
    ensures r.message.conversation_id == r.conversationId && r.message.content == Text(text)
    ensures r.message.sender == FromClient && r.message.kind == TextKind
    ensures db.messages == old(db.messages) + [r.message]
    ensures r.conversationId in db.conversations && IsActive(r.conversation)
    ensures var rel := r.conversation.client_boutique_id;
      rel in db.relations && db.relations[rel].boutique_id == boutiqueId
      && HoldsNumber(db.clients, db.relations[rel].client_id, CleanNumber(number))
    ensures old(db.Valid()) ==> db.Valid()
  {
    ghost var wasValid := db.Valid();
    var registered := HandleClientMessage(db, number, boutiqueId, nom, newClientId, newRelationId);
    sender := registered;
    if wasValid {
      ChronologicalLater(db.messages, old(db.clock), db.clock);
    }
    ghost var clock1 := db.clock;
    var conv := GetOrCreateConversation(db, registered.relationId, newConversationId);
    if wasValid {
      ChronologicalLater(db.messages, clock1, db.clock);
    }
    assert HoldsPair(db.relations, registered.relationId, registered.clientId, boutiqueId);
    var m := AddMessage(db, conv.id, Text(text), FromClient, TextKind, false, None);
    var analysis := AnalyzeForEscalation(text);
    r := BotMessage(conv.id, conv.record, m, analysis.shouldEscalate, analysis.reason);
  }
}
