/** The order lifecycle and the payment handshake
    (src/lib/services/commandeService.ts). An order is created `en_attente`
    from validated lines; the client claims a payment, the seller confirms it
    (which commits the stock and bumps the counters) or rejects the claim;
    a paid order ships and is delivered; a problem can be reported at any
    time; cancelling gives paid stock back. */
module Commandes {
  import opened Types
  import opened Seqs
  import opened Store
  import opened Products
  import opened Clients
  import opened Boutiques
  import opened Conversations

  // ---------------------------------------------------------------- line validation

  /** A requested line can be ordered: its product exists, belongs to the
      boutique, is on sale and has at least the requested quantity in stock. */
  predicate Orderable(ps: map<Id, Product>, l: CommandeProduit, b: Id) {
    && l.product_id in ps
    && ps[l.product_id].boutique_id == b
    && ps[l.product_id].status == Available
    && l.quantite <= ps[l.product_id].stock_quantity
  }

  /** The error the checks of one line report, in the order `validateProducts` makes
      them; none exactly when the line can be ordered. */
  function LineError(ps: map<Id, Product>, l: CommandeProduit, b: Id): (r: Option<Err>)
    ensures r.None? <==> Orderable(ps, l, b)
    ensures l.product_id !in ps ==> r == Some(ProductNotFound(l.product_id))
    ensures l.product_id in ps && ps[l.product_id].boutique_id != b ==> r == Some(ForeignProduct(ps[l.product_id].nom))
  {
    if l.product_id !in ps then Some(ProductNotFound(l.product_id))
    else
      var p := ps[l.product_id];
      if p.boutique_id != b then Some(ForeignProduct(p.nom))
      else if p.status != Available then Some(ProductUnavailable(p.nom))
      else if p.stock_quantity < l.quantite then Some(InsufficientStock(p.nom, p.stock_quantity))
      else None
  }

  /** The error of the first line that cannot be ordered, if any. */
  function FirstLineError(ps: map<Id, Product>, lines: seq<CommandeProduit>, b: Id): (r: Option<Err>)
    ensures r.None? <==> forall i :: 0 <= i < |lines| ==> Orderable(ps, lines[i], b)
  {
    if lines == [] then None
    else if LineError(ps, lines[0], b).Some? then LineError(ps, lines[0], b)
    else
      assert forall i :: 1 <= i < |lines| ==> lines[i] == lines[1..][i - 1];
      FirstLineError(ps, lines[1..], b)
  }

  /** Checking stops at the first line that fails: its error is the one reported. */
  lemma {:induction false} FirstLineErrorAt(ps: map<Id, Product>, lines: seq<CommandeProduit>, b: Id, k: nat)
    requires k < |lines| && !Orderable(ps, lines[k], b)
    requires forall j :: 0 <= j < k ==> Orderable(ps, lines[j], b)
    ensures FirstLineError(ps, lines, b) == LineError(ps, lines[k], b)
  {
    if k > 0 {
      assert Orderable(ps, lines[0], b);
      assert forall j :: 0 <= j < k - 1 ==> lines[1..][j] == lines[j + 1];
      FirstLineErrorAt(ps, lines[1..], b, k - 1);
    }
  }

  /** The line the order stores: the product's current name, the price and
      quantity as requested, and their product as the line total. */
  function ValidatedLine(p: Product, l: CommandeProduit): (v: CommandeProduit)
    ensures v.product_id == l.product_id && v.nom_produit == p.nom
    ensures v.prix_unitaire == l.prix_unitaire && v.quantite == l.quantite
  {
    CommandeProduit(l.product_id, p.nom, l.prix_unitaire, l.quantite, l.prix_unitaire * l.quantite)
  }

  predicate AllKnown(ps: map<Id, Product>, lines: seq<CommandeProduit>) {
    forall i :: 0 <= i < |lines| ==> lines[i].product_id in ps
  }

  /** Every requested line, validated against the catalogue. */
  function ValidatedLines(ps: map<Id, Product>, lines: seq<CommandeProduit>): (r: seq<CommandeProduit>)
    requires AllKnown(ps, lines)
    ensures |r| == |lines|
    ensures forall i :: 0 <= i < |lines| ==> r[i] == ValidatedLine(ps[lines[i].product_id], lines[i])
  {
    if lines == [] then []
    else ValidatedLines(ps, lines[..|lines| - 1]) + [ValidatedLine(ps[lines[|lines| - 1].product_id], lines[|lines| - 1])]
  }

  function LineTotal(l: CommandeProduit): int { l.total }

  /** What the caller asked for on a line: price times quantity. */
  function RequestedTotal(l: CommandeProduit): int { l.prix_unitaire * l.quantite }

  /** The order total is the sum, over the requested lines, of price times
      quantity: the line totals the caller supplied play no part. */
  lemma {:induction false} ValidatedTotal(ps: map<Id, Product>, lines: seq<CommandeProduit>)
    requires AllKnown(ps, lines)
    ensures Sum(ValidatedLines(ps, lines), LineTotal) == Sum(lines, RequestedTotal)
  {
    if lines != [] {
      var n := |lines| - 1;
      var init := lines[..n];
      ValidatedTotal(ps, init);
      SumAppend(ValidatedLines(ps, init), [ValidatedLine(ps[lines[n].product_id], lines[n])], LineTotal);
      assert lines == init + [lines[n]];
      SumAppend(init, [lines[n]], RequestedTotal);
    }
  }

  /** `{ total_amount, validated_produits }`. */
  datatype Priced = Priced(total_amount: int, validated_produits: seq<CommandeProduit>)

  /** `validateProductsAndCalculateTotal`. */
  function Validation(ps: map<Id, Product>, lines: seq<CommandeProduit>, b: Id): (r: ApiResponse<Priced>)
    ensures r.Success? <==> |lines| > 0 && forall i :: 0 <= i < |lines| ==> Orderable(ps, lines[i], b)
    ensures lines == [] ==> r == Failure(EmptyOrder)
    ensures r.Success? ==> |r.data.validated_produits| == |lines|
    ensures r.Success? ==> forall i :: 0 <= i < |lines| ==>
      r.data.validated_produits[i] == ValidatedLine(ps[lines[i].product_id], lines[i])
    ensures r.Success? ==> r.data.total_amount == Sum(lines, RequestedTotal)
  {
    if |lines| == 0 then Failure(EmptyOrder)
    else if FirstLineError(ps, lines, b).Some? then Failure(FirstLineError(ps, lines, b).value)
    else
      var v := ValidatedLines(ps, lines);
      ValidatedTotal(ps, lines);
      Success(Priced(Sum(v, LineTotal), v))
  }

  /** The validation loop: each line is looked up and checked in turn, and
      the first failing check ends the validation. */
  method ValidateLines(db: Database, lines: seq<CommandeProduit>, b: Id) returns (res: ApiResponse<Priced>)
    ensures res == Validation(db.products, lines, b)
  {
    if |lines| == 0 {
      return Failure(EmptyOrder);
    }
    var total := 0;
    var validated: seq<CommandeProduit> := [];
    var i := 0;
    while i < |lines|
      invariant 0 <= i <= |lines|
      invariant forall j :: 0 <= j < i ==> Orderable(db.products, lines[j], b)
      invariant validated == ValidatedLines(db.products, lines[..i])
      invariant total == Sum(validated, LineTotal)
    {
      var l := lines[i];
      if l.product_id !in db.products {
        FirstLineErrorAt(db.products, lines, b, i);
        return Failure(ProductNotFound(l.product_id));
      }
      var p := db.products[l.product_id];
      if p.boutique_id != b {
        FirstLineErrorAt(db.products, lines, b, i);
        return Failure(ForeignProduct(p.nom));
      }
      if p.status != Available {
        FirstLineErrorAt(db.products, lines, b, i);
        return Failure(ProductUnavailable(p.nom));
      }
      if p.stock_quantity < l.quantite {
        FirstLineErrorAt(db.products, lines, b, i);
        return Failure(InsufficientStock(p.nom, p.stock_quantity));
      }
      var v := CommandeProduit(l.product_id, p.nom, l.prix_unitaire, l.quantite, l.prix_unitaire * l.quantite);
      SumAppend(validated, [v], LineTotal);
      assert lines[..i + 1][..i] == lines[..i];
      validated := validated + [v];
      total := total + v.total;
      i := i + 1;
    }
    assert lines[..i] == lines;
    res := Success(Priced(total, validated));
  }

  /** Each line is checked against the whole stock, not against what the
      earlier lines already claim: two lines of one unit each pass on a
      product with a single unit in stock. */
  lemma DuplicateLinesPassValidation(p: Product, l: CommandeProduit)
    requires p.boutique_id == "b" && p.status == Available && p.stock_quantity == 1
    requires l.product_id == "p" && l.quantite == 1
    ensures Validation(map["p" := p], [l, l], "b").Success?
  {
  }

  // ---------------------------------------------------------------- creation

  /** `reduction ? total_amount - reduction : total_amount`: a missing or
      zero reduction leaves the total as it is. */
  function FinalAmount(total: int, reduction: Option<int>): (r: int)
    ensures reduction.Some? && reduction.value != 0 ==> r == total - reduction.value
    ensures reduction.None? || reduction.value == 0 ==> r == total
  {
    if reduction.Some? && reduction.value != 0 then total - reduction.value else total
  }

  /** The record `createCommande` stores: waiting for payment, nothing claimed,
      rejected, validated or shipped yet. */
  function NewCommande(relationId: Id, b: Id, conversationId: Option<Id>, priced: Priced,
                       reduction: Option<int>, t: Time): (c: Commande)
    ensures c.status == EnAttente && c.created_at == t
    ensures c.final_amount == FinalAmount(priced.total_amount, reduction)
    ensures c.produits == priced.validated_produits && c.total_amount == priced.total_amount
    ensures !c.payment_validation_requested && !c.payment_rejected && c.validated_at.None?
    ensures c.final_amount > 0 ==> CommandeInvariant(c)
  {
    Commande(relationId, b, conversationId, priced.validated_produits, priced.total_amount, reduction,
             FinalAmount(priced.total_amount, reduction), None, None, None, false, None, None,
             false, None, None, None, EnAttente, None, None, None, None, None, t, None, None)
  }

  /** The messages logged by posting `notice` about order `commandeId` into
      conversation `conversationId`: one bot system message when the
      conversation id is non-empty, none otherwise. */
  predicate NoticePosted(before: seq<Message>, after: seq<Message>, conversationId: Option<Id>,
                         commandeId: Id, notice: Notice) {
    if Truthy(conversationId) then
      && |after| == |before| + 1 && after[..|before|] == before
      && var m := after[|before|];
         m == Message(conversationId.value, FromBot, SystemNotice(notice), SystemKind, false, Some(commandeId), m.timestamp)
    else after == before
  }

  /** The conversation table after a notice is posted into `conversationId`
      at time `t`: the conversation is touched when the id is non-empty. */
  function Noticed(cs: map<Id, Conversation>, conversationId: Option<Id>, t: Time): (r: map<Id, Conversation>)
    ensures !Truthy(conversationId) ==> r == cs
    ensures Truthy(conversationId) ==> r == Touched(cs, conversationId.value, t)
  {
    if Truthy(conversationId) then Touched(cs, conversationId.value, t) else cs
  }

  /** The conversation table after the conversation `conversationId` is
      escalated at time `t`, when the id is non-empty and known. */
  function EscalatedIn(cs: map<Id, Conversation>, conversationId: Option<Id>, reason: EscalationReason,
                       notes: Option<string>, t: Time): (r: map<Id, Conversation>)
    ensures r.Keys == cs.Keys
    ensures forall k | k in cs && (!Truthy(conversationId) || k != conversationId.value) :: r[k] == cs[k]
    ensures Truthy(conversationId) && conversationId.value in cs ==>
      r[conversationId.value] == Escalated(cs[conversationId.value], reason, notes, t)
  {
    if Truthy(conversationId) && conversationId.value in cs
    then cs[conversationId.value := Escalated(cs[conversationId.value], reason, notes, t)]
    else cs
  }

  /** `conversationService.addMessage(conversation_id, ..., 'bot', 'system',
      { commande_id })` behind `if (conversation_id)`. */
  method PostNotice(db: Database, conversationId: Option<Id>, commandeId: Id, notice: Notice)
    modifies db`messages, db`conversations, db`clock
    ensures NoticePosted(old(db.messages), db.messages, conversationId, commandeId, notice)
    ensures db.conversations == Noticed(old(db.conversations), conversationId, db.clock)
    ensures !Truthy(conversationId) ==> db.clock == old(db.clock)
    ensures Truthy(conversationId) ==>
      && db.messages[|old(db.messages)|].timestamp == old(db.clock) + 1
      && db.clock == old(db.clock) + (if conversationId.value in old(db.conversations) then 2 else 1)
    ensures db.conversations.Keys == old(db.conversations).Keys
    ensures forall k | k in old(db.conversations) :: db.conversations[k].status == old(db.conversations)[k].status
    ensures old(db.clock) <= db.clock
    ensures old(db.Valid()) ==> db.Valid()
  {
    if Truthy(conversationId) {
      var m := AddMessage(db, conversationId.value, SystemNotice(notice), FromBot, SystemKind, false, Some(commandeId));
      assert db.messages[..|old(db.messages)|] == old(db.messages);
    }
  }

  /** `createCommande`: validates the lines, applies the reduction, refuses a
      final amount that is not positive, stores the order `en_attente` and
      posts a notice into the conversation. No stock is touched: the product
      table is not even in the frame. */
  method CreateCommande(db: Database, relationId: Id, b: Id, lines: seq<CommandeProduit>,
                        conversationId: Option<Id>, reduction: Option<int>, newId: Id)
    returns (res: ApiResponse<Commande>)
    requires newId !in db.commandes
    modifies db`commandes, db`messages, db`conversations, db`clock
    ensures var v := Validation(old(db.products), lines, b);
      v.Failure? ==> res == Failure(v.error) && unchanged(db)
    ensures var v := Validation(old(db.products), lines, b);
      v.Success? && FinalAmount(v.data.total_amount, reduction) <= 0 ==>
        res == Failure(NonPositiveAmount) && unchanged(db)
    ensures var v := Validation(old(db.products), lines, b);
      v.Success? && FinalAmount(v.data.total_amount, reduction) > 0 ==>
        && res == Success(NewCommande(relationId, b, conversationId, v.data, reduction, old(db.clock) + 1))
        && db.commandes == old(db.commandes)[newId := res.data]
        && NoticePosted(old(db.messages), db.messages, conversationId, newId,
                        OrderCreated(|v.data.validated_produits|, res.data.final_amount))
        && db.conversations == Noticed(old(db.conversations), conversationId, db.clock)
    ensures old(db.Valid()) ==> db.Valid()
  {
    var validation := ValidateLines(db, lines, b);
    if validation.Failure? {
      return Failure(validation.error);
    }
    var priced := validation.data;
    var finalAmount := FinalAmount(priced.total_amount, reduction);
    if finalAmount <= 0 {
      return Failure(NonPositiveAmount);
    }
    ghost var wasValid := db.Valid();
    var t := db.Tick();
    var c := NewCommande(relationId, b, conversationId, priced, reduction, t);
    db.commandes := db.commandes[newId := c];
    if wasValid {
      ChronologicalLater(db.messages, t - 1, t);
    }
    PostNotice(db, conversationId, newId, OrderCreated(|priced.validated_produits|, finalAmount));
    res := Success(c);
  }

  /** The single line `createQuickCommande` orders: the product at its
      displayed price. */
  function QuickLine(p: Product, productId: Id, quantite: int): (l: CommandeProduit)
    ensures l.product_id == productId && l.nom_produit == p.nom && l.quantite == quantite
    ensures l.prix_unitaire == p.prix_affichage && l.total == l.prix_unitaire * l.quantite
  {
    CommandeProduit(productId, p.nom, p.prix_affichage, quantite, p.prix_affichage * quantite)
  }

  /** `createQuickCommande`: registers the sender, checks the product exists
      and has the quantity, and orders it at its displayed price with no
      reduction. The full line validation then runs again inside
      `createCommande`. */
  method CreateQuickCommande(db: Database, number: string, b: Id, productId: Id, quantite: int,
                             conversationId: Option<Id>, nom: Option<string>,
                             newClientId: Id, newRelationId: Id, newId: Id)
    returns (res: ApiResponse<Commande>, ghost sender: ClientMessage)
    requires newClientId !in db.clients && newRelationId !in db.relations && newId !in db.commandes
    modifies db`clients, db`relations, db`commandes, db`messages, db`conversations, db`clock
    ensures Registered(old(db.clients), old(db.relations), old(db.clock), db.clients, db.relations,
                       number, b, nom, newClientId, newRelationId, sender)
    ensures res.Failure? ==>
      db.commandes == old(db.commandes) && db.messages == old(db.messages) && db.conversations == old(db.conversations)
    ensures res.Success? ==>
      && res.data.client_boutique_id == sender.relationId
      && res.data.created_at == old(db.clock) + Created(sender) + 1
      && NoticePosted(old(db.messages), db.messages, conversationId, newId, OrderCreated(1, res.data.final_amount))
      && db.conversations == Noticed(old(db.conversations), conversationId, db.clock)
    ensures productId !in db.products ==> res == Failure(NotFound) && db.commandes == old(db.commandes)
    ensures productId in db.products && db.products[productId].stock_quantity < quantite ==>
      res == Failure(QuickInsufficientStock(db.products[productId].stock_quantity)) && db.commandes == old(db.commandes)
    ensures productId in db.products && db.products[productId].stock_quantity >= quantite ==>
      var v := Validation(db.products, [QuickLine(db.products[productId], productId, quantite)], b);
      && (v.Failure? ==> res == Failure(v.error) && db.commandes == old(db.commandes))
      && (v.Success? && FinalAmount(v.data.total_amount, None) <= 0 ==>
            res == Failure(NonPositiveAmount) && db.commandes == old(db.commandes))
      && (v.Success? && FinalAmount(v.data.total_amount, None) > 0 ==>
            && res.Success?
            && res.data == NewCommande(res.data.client_boutique_id, b, conversationId, v.data, None, res.data.created_at))
    ensures res.Success? ==>
      && productId in db.products
      && var p := db.products[productId];
         && res.data.produits == [QuickLine(p, productId, quantite)]
         && res.data.final_amount == p.prix_affichage * quantite
         && res.data.status == EnAttente && res.data.reduction.None?
         && res.data.client_boutique_id in db.relations
         && db.relations[res.data.client_boutique_id].boutique_id == b
         && HoldsNumber(db.clients, db.relations[res.data.client_boutique_id].client_id, CleanNumber(number))
         && db.commandes == old(db.commandes)[newId := res.data]
    ensures old(db.Valid()) ==> db.Valid()
  {
    ghost var wasValid := db.Valid();
    var registered := HandleClientMessage(db, number, b, nom, newClientId, newRelationId);
    sender := registered;
    if wasValid {
      ChronologicalLater(db.messages, old(db.clock), db.clock);
    }
    if productId !in db.products {
      res := Failure(NotFound);
      return;
    }
    var p := db.products[productId];
    if p.stock_quantity < quantite {
      res := Failure(QuickInsufficientStock(p.stock_quantity));
      return;
    }
    var line := QuickLine(p, productId, quantite);
    assert Sum([line], RequestedTotal) == p.prix_affichage * quantite;
    res := CreateCommande(db, registered.relationId, b, [line], conversationId, None, newId);
  }

  // ---------------------------------------------------------------- the records each step writes

  /** The claim `requestPaymentValidation` records; the status is left alone. */
  function Claimed(c: Commande, clientRef: Option<string>, message: Option<string>, t: Time): (r: Commande)
    ensures r.status == c.status && r.payment_validation_requested && r.validation_requested_at == Some(t)
    ensures clientRef.Some? ==> r.client_provided_ref == clientRef
    ensures clientRef.None? ==> r.client_provided_ref == c.client_provided_ref
    ensures r.produits == c.produits && r.final_amount == c.final_amount
    ensures CommandeInvariant(c) ==> CommandeInvariant(r)
  {
    c.(payment_validation_requested := true,
       client_provided_ref := Overwrite(c.client_provided_ref, clientRef),
       client_payment_message := Overwrite(c.client_payment_message, message),
       validation_requested_at := Some(t))
  }

  /** The refusal `rejectPaymentValidation` records; the status is left alone. */
  function Rejected(c: Commande, raison: Option<string>, rejectedBy: Option<Id>, t: Time): (r: Commande)
    ensures r.status == c.status && !r.payment_validation_requested && r.payment_rejected
    ensures r.rejected_at == Some(t)
    ensures raison.Some? ==> r.payment_rejection_reason == raison
    ensures r.produits == c.produits && r.final_amount == c.final_amount
    ensures CommandeInvariant(c) ==> CommandeInvariant(r)
  {
    c.(payment_validation_requested := false, payment_rejected := true,
       payment_rejection_reason := Overwrite(c.payment_rejection_reason, raison),
       rejected_by := Overwrite(c.rejected_by, rejectedBy),
       rejected_at := Some(t))
  }

  /** The confirmation `validatePayment` records. */
  function Paid(c: Commande, pm: PaymentMethod, reference: Option<string>, clientRef: Option<string>,
                validatedBy: Option<Id>, t: Time): (r: Commande)
    ensures r.status == Payee && r.payment_method == Some(pm) && r.validated_at == Some(t)
    ensures reference.Some? ==> r.reference_paiement == reference
    ensures r.produits == c.produits && r.final_amount == c.final_amount
    ensures r.client_boutique_id == c.client_boutique_id && r.boutique_id == c.boutique_id
    ensures CommandeInvariant(c) ==> CommandeInvariant(r)
  {
    c.(status := Payee, payment_method := Some(pm),
       reference_paiement := Overwrite(c.reference_paiement, reference),
       client_provided_ref := Overwrite(c.client_provided_ref, clientRef),
       validated_at := Some(t),
       validated_by := Overwrite(c.validated_by, validatedBy))
  }

  /** The shipment `markAsShipped` records: an empty address is not written. */
  function ShippedRecord(c: Commande, adresse: Option<string>, livraisonPrevue: Option<Time>): (r: Commande)
    ensures r.status == Expediee && r.validated_at == c.validated_at
    ensures r.adresse_livraison == (if Truthy(adresse) then adresse else c.adresse_livraison)
    ensures r.date_livraison_prevue == Overwrite(c.date_livraison_prevue, livraisonPrevue)
    ensures CommandeInvariant(c) && c.status == Payee ==> CommandeInvariant(r)
  {
    c.(status := Expediee,
       adresse_livraison := if Truthy(adresse) then adresse else c.adresse_livraison,
       date_livraison_prevue := Overwrite(c.date_livraison_prevue, livraisonPrevue))
  }

  /** The delivery `markAsDelivered` records. */
  function DeliveredRecord(c: Commande, t: Time): (r: Commande)
    ensures r.status == Livree && r.date_livraison_reelle == Some(t) && r.validated_at == c.validated_at
    ensures CommandeInvariant(c) && c.status == Expediee ==> CommandeInvariant(r)
  {
    c.(status := Livree, date_livraison_reelle := Some(t))
  }

  /** The problem `reportProblem` records, whatever the status was. */
  function ProblemRecord(c: Commande, description: string, notes: Option<string>): (r: Commande)
    ensures r.status == Probleme && r.probleme_description == Some(description)
    ensures r.notes_vendeuse == Overwrite(c.notes_vendeuse, notes)
    ensures CommandeInvariant(c) ==> CommandeInvariant(r)
  {
    c.(status := Probleme, probleme_description := Some(description),
       notes_vendeuse := Overwrite(c.notes_vendeuse, notes))
  }

  /** The cancellation `cancelCommande` records; the reason goes into the
      seller's notes. */
  function CancelledRecord(c: Commande, raison: Option<string>): (r: Commande)
    ensures r.status == Annulee && r.notes_vendeuse == Overwrite(c.notes_vendeuse, raison)
    ensures CommandeInvariant(c) ==> CommandeInvariant(r)
  {
    c.(status := Annulee, notes_vendeuse := Overwrite(c.notes_vendeuse, raison))
  }

  /** Cancelling gives the stock back only from the statuses in which
      `validatePayment` took it: `payee` and `expediee`. */
  predicate RestockDue(s: CommandeStatus) {
    s == Payee || s == Expediee
  }

  // ---------------------------------------------------------------- the stock ledger of an order

  /** One line of `validatePayment`'s loop: `updateStock(product_id, -quantite)`,
      whose failure is ignored, then `total_ventes += quantite`. */
  function SaleStep(ps: map<Id, Product>, l: CommandeProduit): map<Id, Product> {
    ProductStatsAdded(StockStep(ps, l.product_id, -l.quantite), l.product_id, l.quantite, 0)
  }

  /** The product table after `validatePayment`'s loop over `lines`. */
  function Sold(ps: map<Id, Product>, lines: seq<CommandeProduit>): (r: map<Id, Product>)
    ensures r.Keys == ps.Keys
  {
    if lines == [] then ps else SaleStep(Sold(ps, lines[..|lines| - 1]), lines[|lines| - 1])
  }

  /** The product table after `cancelCommande`'s loop: `updateStock(product_id,
      +quantite)` for every line. */
  function Restocked(ps: map<Id, Product>, lines: seq<CommandeProduit>): (r: map<Id, Product>)
    ensures r.Keys == ps.Keys
  {
    if lines == [] then ps
    else var l := lines[|lines| - 1];
         StockStep(Restocked(ps, lines[..|lines| - 1]), l.product_id, l.quantite)
  }

  function DemandOn(id: Id): CommandeProduit -> int {
    (l: CommandeProduit) => if l.product_id == id then l.quantite else 0
  }

  /** The quantity of product `id` the lines ask for, all lines together. */
  function Demand(lines: seq<CommandeProduit>, id: Id): int {
    Sum(lines, DemandOn(id))
  }

  lemma DemandSnoc(lines: seq<CommandeProduit>, id: Id)
    requires lines != []
    ensures Demand(lines, id) == Demand(lines[..|lines| - 1], id) + DemandOn(id)(lines[|lines| - 1])
  {
    assert lines == lines[..|lines| - 1] + [lines[|lines| - 1]];
    SumAppend(lines[..|lines| - 1], [lines[|lines| - 1]], DemandOn(id));
  }

  predicate NonNegativeQuantities(lines: seq<CommandeProduit>) {
    forall i :: 0 <= i < |lines| ==> lines[i].quantite >= 0
  }

  lemma DemandNonNegative(lines: seq<CommandeProduit>, id: Id)
    requires NonNegativeQuantities(lines)
    ensures Demand(lines, id) >= 0
  {
    SumNonNegative(lines, DemandOn(id));
  }

  /** Confirming a payment counts every unit ordered as sold, whether or not
      the stock could be decremented. */
  lemma {:induction false} SoldCountsEveryUnit(ps: map<Id, Product>, lines: seq<CommandeProduit>, id: Id)
    requires id in ps
    ensures Sold(ps, lines)[id].total_ventes == ps[id].total_ventes + Demand(lines, id)
  {
    if lines != [] {
      var init := lines[..|lines| - 1];
      SoldCountsEveryUnit(ps, init, id);
      DemandSnoc(lines, id);
    }
  }

  /** When the stock covers the whole demand, confirming takes exactly the
      demand out of it. */
  lemma {:induction false} SoldTakesDemand(ps: map<Id, Product>, lines: seq<CommandeProduit>, id: Id)
    requires id in ps && NonNegativeQuantities(lines)
    requires Demand(lines, id) <= ps[id].stock_quantity
    ensures Sold(ps, lines)[id].stock_quantity == ps[id].stock_quantity - Demand(lines, id)
  {
    if lines != [] {
      var init := lines[..|lines| - 1];
      var l := lines[|lines| - 1];
      DemandSnoc(lines, id);
      assert NonNegativeQuantities(init) by {
        forall i | 0 <= i < |init| ensures init[i].quantite >= 0 {
          assert init[i] == lines[i];
        }
      }
      assert DemandOn(id)(l) >= 0;
      SoldTakesDemand(ps, init, id);
    }
  }

  /** `updateStock` refuses to go below zero, so confirming never leaves a
      negative stock behind, whatever was ordered. */
  lemma {:induction false} SoldKeepsStockNonNegative(ps: map<Id, Product>, lines: seq<CommandeProduit>)
    requires forall k | k in ps :: ps[k].stock_quantity >= 0
    ensures forall k | k in Sold(ps, lines) :: Sold(ps, lines)[k].stock_quantity >= 0
  {
    if lines != [] {
      SoldKeepsStockNonNegative(ps, lines[..|lines| - 1]);
    }
  }

  /** Giving the stock back adds exactly the demand when the quantities are
      non-negative and the stock was. */
  lemma {:induction false} RestockAddsDemand(ps: map<Id, Product>, lines: seq<CommandeProduit>, id: Id)
    requires id in ps && NonNegativeQuantities(lines) && ps[id].stock_quantity >= 0
    ensures Restocked(ps, lines)[id].stock_quantity == ps[id].stock_quantity + Demand(lines, id)
  {
    if lines != [] {
      var init := lines[..|lines| - 1];
      DemandSnoc(lines, id);
      assert NonNegativeQuantities(init) by {
        forall i | 0 <= i < |init| ensures init[i].quantite >= 0 {
          assert init[i] == lines[i];
        }
      }
      DemandNonNegative(init, id);
      RestockAddsDemand(ps, init, id);
    }
  }

  /** Cancelling a paid order gives back exactly what confirming took, when
      the stock covered the order. */
  lemma SellThenCancelRestores(ps: map<Id, Product>, lines: seq<CommandeProduit>, id: Id)
    requires id in ps && NonNegativeQuantities(lines)
    requires 0 <= Demand(lines, id) <= ps[id].stock_quantity
    ensures Restocked(Sold(ps, lines), lines)[id].stock_quantity == ps[id].stock_quantity
  {
    SoldTakesDemand(ps, lines, id);
    RestockAddsDemand(Sold(ps, lines), lines, id);
  }

  /** Because a failed decrement is ignored, cancelling after it creates
      stock: one unit in stock, two ordered, confirmed (the decrement fails,
      two sales are counted) and cancelled leaves three units. */
  lemma FailedSaleThenCancelInflates(p: Product, l: CommandeProduit)
    requires p.stock_quantity == 1 && p.total_ventes == 0
    requires l.product_id == "p" && l.quantite == 2
    ensures Sold(map["p" := p], [l])["p"].stock_quantity == 1
    ensures Sold(map["p" := p], [l])["p"].total_ventes == 2
    ensures Restocked(Sold(map["p" := p], [l]), [l])["p"].stock_quantity == 3
  {
    assert [l][..0] == [];
  }

  /** Two lines of one unit each on a product with a single unit: both pass
      validation, the second decrement fails and is ignored, and the stock
      ends at zero with two units counted as sold. */
  lemma DuplicateLinesOversell(p: Product, l: CommandeProduit)
    requires p.boutique_id == "b" && p.status == Available && p.stock_quantity == 1 && p.total_ventes == 0
    requires l.product_id == "p" && l.quantite == 1
    ensures Validation(map["p" := p], [l, l], "b").Success?
    ensures Sold(map["p" := p], [l, l])["p"].stock_quantity == 0
    ensures Sold(map["p" := p], [l, l])["p"].total_ventes == 2
  {
    var ps := map["p" := p];
    assert [l, l][..1] == [l];
    assert [l][..0] == [];
    assert Sold(ps, [l][..0]) == ps;
    var once := Sold(ps, [l]);
    assert once == SaleStep(ps, l);
    assert once["p"].stock_quantity == 0 && once["p"].total_ventes == 1;
    assert Sold(ps, [l, l]) == SaleStep(once, l);
  }

  /** `validatePayment`'s loop over the lines. */
  method ApplySales(db: Database, lines: seq<CommandeProduit>)
    modifies db`products
    ensures db.products == Sold(old(db.products), lines)
  {
    var i := 0;
    while i < |lines|
      invariant 0 <= i <= |lines|
      invariant db.products == Sold(old(db.products), lines[..i])
    {
      var l := lines[i];
      var _ := UpdateStock(db, l.product_id, -l.quantite);
      var _ := UpdateProductStats(db, l.product_id, Some(l.quantite), None);
      assert lines[..i + 1][..i] == lines[..i];
      assert db.products == SaleStep(Sold(old(db.products), lines[..i]), l);
      i := i + 1;
    }
    assert lines[..i] == lines;
  }

  /** `cancelCommande`'s loop over the lines. */
  method Restock(db: Database, lines: seq<CommandeProduit>)
    modifies db`products
    ensures db.products == Restocked(old(db.products), lines)
  {
    var i := 0;
    while i < |lines|
      invariant 0 <= i <= |lines|
      invariant db.products == Restocked(old(db.products), lines[..i])
    {
      var l := lines[i];
      var _ := UpdateStock(db, l.product_id, l.quantite);
      assert lines[..i + 1][..i] == lines[..i];
      i := i + 1;
    }
    assert lines[..i] == lines;
  }

  // ---------------------------------------------------------------- the payment handshake

  /** The note a payment claim escalates the conversation with. */
  const PaymentCheckNote: string := "Validation paiement requise"

  /** `requestPaymentValidation`: accepted only while the order waits for
      payment; the order is marked as claimed with its status unchanged, a
      notice is posted and the conversation is escalated for the seller. */
  method RequestPaymentValidation(db: Database, id: Id, clientRef: Option<string>, message: Option<string>)
    returns (res: ApiResponse<()>)
    modifies db`commandes, db`messages, db`conversations, db`clock
    ensures id !in old(db.commandes) ==> res == Failure(NotFound) && unchanged(db)
    ensures id in old(db.commandes) && old(db.commandes)[id].status != EnAttente ==>
      res == Failure(NotPending) && unchanged(db)
    ensures id in old(db.commandes) && old(db.commandes)[id].status == EnAttente ==>
      var c := old(db.commandes)[id];
      && res == Success(())
      && db.commandes == old(db.commandes)[id := Claimed(c, clientRef, message, old(db.clock) + 1)]
      && NoticePosted(old(db.messages), db.messages, c.conversation_id, id, PaymentClaimed(KeptName(clientRef)))
      && db.conversations == EscalatedIn(Noticed(old(db.conversations), c.conversation_id, old(db.clock) + 3),
                                         c.conversation_id, Other, Some(PaymentCheckNote), old(db.clock) + 4)
      && (Truthy(c.conversation_id) && c.conversation_id.value in old(db.conversations) ==>
            && c.conversation_id.value in db.conversations
            && var conv := db.conversations[c.conversation_id.value];
            conv.status == Escalade && conv.escalation_reason == Some(Other)
            && conv.notes_escalation == Some(PaymentCheckNote))
    ensures id in old(db.commandes) ==>
      db.commandes == old(db.commandes)[id := After(old(db.commandes)[id], Claim(clientRef, message), old(db.clock) + 1)]
    ensures old(db.Valid()) ==> db.Valid()
  {
    if id !in db.commandes {
      return Failure(NotFound);
    }
    var c := db.commandes[id];
    if c.status != EnAttente {
      return Failure(NotPending);
    }
    ghost var wasValid := db.Valid();
    var t := db.Tick();
    db.commandes := db.commandes[id := Claimed(c, clientRef, message, t)];
    if wasValid {
      ChronologicalLater(db.messages, t - 1, t);
    }
    PostNotice(db, c.conversation_id, id, PaymentClaimed(KeptName(clientRef)));
    if Truthy(c.conversation_id) {
      ghost var before := db.clock;
      var _ := EscalateConversation(db, c.conversation_id.value, Other, Some(PaymentCheckNote));
      if wasValid {
        ChronologicalLater(db.messages, before, db.clock);
      }
    }
    res := Success(());
  }

  /** `rejectPaymentValidation`: no condition on the status; the claim is
      cleared and the rejection recorded, while the status and the stock stay
      as they are (the product table is not in the frame). */
  method RejectPaymentValidation(db: Database, id: Id, raison: Option<string>, rejectedBy: Option<Id>)
    returns (res: ApiResponse<()>)
    modifies db`commandes, db`messages, db`conversations, db`clock
    ensures id !in old(db.commandes) ==> res == Failure(NotFound) && unchanged(db)
    ensures id in old(db.commandes) ==>
      var c := old(db.commandes)[id];
      && res == Success(())
      && db.commandes == old(db.commandes)[id := Rejected(c, raison, rejectedBy, old(db.clock) + 1)]
      && NoticePosted(old(db.messages), db.messages, c.conversation_id, id, PaymentNotReceived(KeptName(raison)))
      && db.conversations == Noticed(old(db.conversations), c.conversation_id, db.clock)
    ensures id in old(db.commandes) ==>
      db.commandes == old(db.commandes)[id := After(old(db.commandes)[id], Reject(raison, rejectedBy), old(db.clock) + 1)]
    ensures old(db.Valid()) ==> db.Valid()
  {
    if id !in db.commandes {
      return Failure(NotFound);
    }
    ghost var wasValid := db.Valid();
    var t := db.Tick();
    var c := Rejected(db.commandes[id], raison, rejectedBy, t);
    db.commandes := db.commandes[id := c];
    if wasValid {
      ChronologicalLater(db.messages, t - 1, t);
    }
    PostNotice(db, c.conversation_id, id, PaymentNotReceived(KeptName(raison)));
    res := Success(());
  }

  /** The client table after a confirmed payment of `amount`: the relation's
      client gets one more order and `amount` more purchases. */
  function ClientSaleRecorded(cs: map<Id, Client>, rs: map<Id, ClientBoutique>, relationId: Id, amount: int)
    : (r: map<Id, Client>)
    ensures relationId !in rs ==> r == cs
    ensures relationId in rs ==> r == ClientStatsAdded(cs, rs[relationId].client_id, 1, amount)
  {
    var client := ClientOf(rs, relationId);
    if client.Some? then ClientStatsAdded(cs, client.value, 1, amount) else cs
  }

  /** The boutique table after a confirmed payment of `amount`: one more sale
      and `amount` more turnover, both written as new values. */
  function BoutiqueSaleRecorded(bs: map<Id, Boutique>, b: Id, amount: int): (r: map<Id, Boutique>)
    ensures r.Keys == bs.Keys
    ensures forall k | k in bs && k != b :: r[k] == bs[k]
    ensures b in bs ==> r[b].total_ventes == bs[b].total_ventes + 1
    ensures b in bs ==> r[b].chiffre_affaires == bs[b].chiffre_affaires + amount
    ensures b in bs ==> r[b].(total_ventes := 0, chiffre_affaires := 0) == bs[b].(total_ventes := 0, chiffre_affaires := 0)
  {
    if b in bs
    then bs[b := OverwriteStats(bs[b], None, Some(bs[b].total_ventes + 1), Some(bs[b].chiffre_affaires + amount))]
    else bs
  }

  /** The counters `validatePayment` bumps after the stock: the client's
      totals, the relation's purchases and last purchase date, the boutique's
      sales and turnover. Each failed update is ignored. */
  method RecordSale(db: Database, relationId: Id, b: Id, amount: int)
    modifies db`clients, db`relations, db`boutiques, db`clock
    ensures db.clients == ClientSaleRecorded(old(db.clients), old(db.relations), relationId, amount)
    ensures db.relations == RelationStatsAdded(old(db.relations), relationId, 1, Some(old(db.clock) + 1))
    ensures db.boutiques == BoutiqueSaleRecorded(old(db.boutiques), b, amount)
    ensures old(db.clock) <= db.clock
  {
    var client := ClientOf(db.relations, relationId);
    if client.Some? {
      var _ := UpdateClientStats(db, client.value, Some(1), Some(amount));
    }
    var _ := UpdateClientBoutiqueStats(db, relationId, Some(1), true);
    if b in db.boutiques {
      var shop := db.boutiques[b];
      var _ := UpdateBoutiqueStats(db, b, None, Some(shop.total_ventes + 1), Some(shop.chiffre_affaires + amount));
    }
  }

  /** The writes of the `validatePayment` transaction before the order itself:
      the stock and sales of every line, the counters of the sale, and the
      confirmation notice. The order table is not touched. */
  method ConfirmationWrites(db: Database, id: Id, c: Commande)
    modifies db`products, db`clients, db`relations, db`boutiques, db`messages, db`conversations, db`clock
    ensures db.products == Sold(old(db.products), c.produits)
    ensures db.clients == ClientSaleRecorded(old(db.clients), old(db.relations), c.client_boutique_id, c.final_amount)
    ensures db.relations == RelationStatsAdded(old(db.relations), c.client_boutique_id, 1, Some(old(db.clock) + 1))
    ensures db.boutiques == BoutiqueSaleRecorded(old(db.boutiques), c.boutique_id, c.final_amount)
    ensures NoticePosted(old(db.messages), db.messages, c.conversation_id, id, PaymentConfirmed(SliceTo(id, 8)))
    ensures db.conversations == Noticed(old(db.conversations), c.conversation_id, db.clock)
    ensures old(db.clock) <= db.clock
    ensures old(db.Valid()) ==> db.Valid()
  {
    ghost var wasValid := db.Valid();
    ApplySales(db, c.produits);
    RecordSale(db, c.client_boutique_id, c.boutique_id, c.final_amount);
    if wasValid {
      ChronologicalLater(db.messages, old(db.clock), db.clock);
    }
    PostNotice(db, c.conversation_id, id, PaymentConfirmed(SliceTo(id, 8)));
  }

  /** `validatePayment`: accepted only while the order waits for payment.
      Every line is taken out of stock (a refused decrement is ignored) and
      counted as sold; the client, the relation and the boutique record the
      sale; a notice is posted; the order becomes `payee` when the
      transaction commits, after the other writes. */
  method ValidatePayment(db: Database, id: Id, pm: PaymentMethod, reference: Option<string>,
                         clientRef: Option<string>, validatedBy: Option<Id>)
    returns (res: ApiResponse<Commande>)
    modifies db`commandes, db`products, db`clients, db`relations, db`boutiques
    modifies db`messages, db`conversations, db`clock
    ensures id !in old(db.commandes) ==> res == Failure(NotFound) && unchanged(db)
    ensures id in old(db.commandes) && old(db.commandes)[id].status != EnAttente ==>
      res == Failure(NotPending) && unchanged(db)
    ensures id in old(db.commandes) && old(db.commandes)[id].status == EnAttente ==>
      var c := old(db.commandes)[id];
      && res == Success(Paid(c, pm, reference, clientRef, validatedBy, db.clock))
      && res.data == After(c, Confirm(pm, reference, clientRef, validatedBy), db.clock)
      && db.commandes == old(db.commandes)[id := res.data]
      && db.products == Sold(old(db.products), c.produits)
      && db.clients == ClientSaleRecorded(old(db.clients), old(db.relations), c.client_boutique_id, c.final_amount)
      && db.relations == RelationStatsAdded(old(db.relations), c.client_boutique_id, 1, Some(old(db.clock) + 1))
      && db.boutiques == BoutiqueSaleRecorded(old(db.boutiques), c.boutique_id, c.final_amount)
      && NoticePosted(old(db.messages), db.messages, c.conversation_id, id, PaymentConfirmed(SliceTo(id, 8)))
      && old(db.clock) < db.clock && db.conversations == Noticed(old(db.conversations), c.conversation_id, db.clock - 1)
    ensures old(db.Valid()) ==> db.Valid()
  {
    if id !in db.commandes {
      return Failure(NotFound);
    }
    var c := db.commandes[id];
    if c.status != EnAttente {
      return Failure(NotPending);
    }
    ghost var wasValid := db.Valid();
    ConfirmationWrites(db, id, c);
    ghost var beforeCommit := db.clock;
    var t := db.Tick();
    if wasValid {
      ChronologicalLater(db.messages, beforeCommit, t);
    }
    var paid := Paid(c, pm, reference, clientRef, validatedBy, t);
    ConfirmStep(c, pm, reference, clientRef, validatedBy, t);
    db.commandes := db.commandes[id := paid];
    res := Success(paid);
  }

  // ---------------------------------------------------------------- delivery, problems, cancellation

  /** `markAsShipped`: only a paid order ships. */
  method MarkAsShipped(db: Database, id: Id, adresse: Option<string>, livraisonPrevue: Option<Time>)
    returns (res: ApiResponse<()>)
    modifies db`commandes, db`messages, db`conversations, db`clock
    ensures id !in old(db.commandes) ==> res == Failure(NotFound) && unchanged(db)
    ensures id in old(db.commandes) && old(db.commandes)[id].status != Payee ==>
      res == Failure(NotPaid) && unchanged(db)
    ensures id in old(db.commandes) && old(db.commandes)[id].status == Payee ==>
      var c := old(db.commandes)[id];
      && res == Success(())
      && db.commandes == old(db.commandes)[id := ShippedRecord(c, adresse, livraisonPrevue)]
      && NoticePosted(old(db.messages), db.messages, c.conversation_id, id, Shipped(livraisonPrevue))
      && db.conversations == Noticed(old(db.conversations), c.conversation_id, db.clock)
    ensures id in old(db.commandes) ==>
      db.commandes == old(db.commandes)[id := After(old(db.commandes)[id], Ship(adresse, livraisonPrevue), old(db.clock) + 1)]
    ensures old(db.Valid()) ==> db.Valid()
  {
    if id !in db.commandes {
      return Failure(NotFound);
    }
    var c := db.commandes[id];
    if c.status != Payee {
      return Failure(NotPaid);
    }
    db.commandes := db.commandes[id := ShippedRecord(c, adresse, livraisonPrevue)];
    PostNotice(db, c.conversation_id, id, Shipped(livraisonPrevue));
    res := Success(());
  }

  /** `markAsDelivered`: only a shipped order is delivered. */
  method MarkAsDelivered(db: Database, id: Id) returns (res: ApiResponse<()>)
    modifies db`commandes, db`messages, db`conversations, db`clock
    ensures id !in old(db.commandes) ==> res == Failure(NotFound) && unchanged(db)
    ensures id in old(db.commandes) && old(db.commandes)[id].status != Expediee ==>
      res == Failure(NotShipped) && unchanged(db)
    ensures id in old(db.commandes) && old(db.commandes)[id].status == Expediee ==>
      var c := old(db.commandes)[id];
      && res == Success(())
      && db.commandes == old(db.commandes)[id := DeliveredRecord(c, old(db.clock) + 1)]
      && NoticePosted(old(db.messages), db.messages, c.conversation_id, id, Delivered)
      && db.conversations == Noticed(old(db.conversations), c.conversation_id, db.clock)
    ensures id in old(db.commandes) ==>
      db.commandes == old(db.commandes)[id := After(old(db.commandes)[id], Deliver, old(db.clock) + 1)]
    ensures old(db.Valid()) ==> db.Valid()
  {
    if id !in db.commandes {
      return Failure(NotFound);
    }
    var c := db.commandes[id];
    if c.status != Expediee {
      return Failure(NotShipped);
    }
    ghost var wasValid := db.Valid();
    var t := db.Tick();
    db.commandes := db.commandes[id := DeliveredRecord(c, t)];
    if wasValid {
      ChronologicalLater(db.messages, t - 1, t);
    }
    PostNotice(db, c.conversation_id, id, Delivered);
    res := Success(());
  }

  /** `reportProblem`: from any status; the conversation is escalated as a
      product problem with the description as its note. */
  method ReportProblem(db: Database, id: Id, description: string, notes: Option<string>)
    returns (res: ApiResponse<()>)
    modifies db`commandes, db`messages, db`conversations, db`clock
    ensures id !in old(db.commandes) ==> res == Failure(NotFound) && unchanged(db)
    ensures id in old(db.commandes) ==>
      var c := old(db.commandes)[id];
      && res == Success(())
      && db.commandes == old(db.commandes)[id := ProblemRecord(c, description, notes)]
      && NoticePosted(old(db.messages), db.messages, c.conversation_id, id, ProblemReported(description))
      && db.conversations == EscalatedIn(Noticed(old(db.conversations), c.conversation_id, old(db.clock) + 2),
                                         c.conversation_id, ProblemeProduit, Some(description), old(db.clock) + 3)
      && (Truthy(c.conversation_id) && c.conversation_id.value in old(db.conversations) ==>
            && c.conversation_id.value in db.conversations
            && var conv := db.conversations[c.conversation_id.value];
            conv.status == Escalade && conv.escalation_reason == Some(ProblemeProduit)
            && conv.notes_escalation == Some(description))
    ensures id in old(db.commandes) ==>
      db.commandes == old(db.commandes)[id := After(old(db.commandes)[id], Report(description, notes), old(db.clock) + 1)]
    ensures old(db.Valid()) ==> db.Valid()
  {
    if id !in db.commandes {
      return Failure(NotFound);
    }
    ghost var wasValid := db.Valid();
    var c := ProblemRecord(db.commandes[id], description, notes);
    db.commandes := db.commandes[id := c];
    PostNotice(db, c.conversation_id, id, ProblemReported(description));
    if Truthy(c.conversation_id) {
      ghost var before := db.clock;
      var _ := EscalateConversation(db, c.conversation_id.value, ProblemeProduit, Some(description));
      if wasValid {
        ChronologicalLater(db.messages, before, db.clock);
      }
    }
    res := Success(());
  }

  /** `cancelCommande`: refused once delivered; the stock comes back only
      from `payee` or `expediee`, so cancelling from `probleme` gives nothing
      back. */
  method CancelCommande(db: Database, id: Id, raison: Option<string>) returns (res: ApiResponse<()>)
    modifies db`commandes, db`products, db`messages, db`conversations, db`clock
    ensures id !in old(db.commandes) ==> res == Failure(NotFound) && unchanged(db)
    ensures id in old(db.commandes) && old(db.commandes)[id].status == Livree ==>
      res == Failure(AlreadyDelivered) && unchanged(db)
    ensures id in old(db.commandes) && old(db.commandes)[id].status != Livree ==>
      var c := old(db.commandes)[id];
      && res == Success(())
      && db.commandes == old(db.commandes)[id := CancelledRecord(c, raison)]
      && db.products == (if RestockDue(c.status) then Restocked(old(db.products), c.produits) else old(db.products))
      && NoticePosted(old(db.messages), db.messages, c.conversation_id, id, Cancelled(KeptName(raison)))
      && db.conversations == Noticed(old(db.conversations), c.conversation_id, db.clock)
    ensures id in old(db.commandes) ==>
      db.commandes == old(db.commandes)[id := After(old(db.commandes)[id], Cancel(raison), old(db.clock) + 1)]
    ensures old(db.Valid()) ==> db.Valid()
  {
    if id !in db.commandes {
      return Failure(NotFound);
    }
    var c := db.commandes[id];
    if c.status == Livree {
      return Failure(AlreadyDelivered);
    }
    if RestockDue(c.status) {
      Restock(db, c.produits);
    }
    db.commandes := db.commandes[id := CancelledRecord(c, raison)];
    PostNotice(db, c.conversation_id, id, Cancelled(KeptName(raison)));
    res := Success(());
  }

  // ---------------------------------------------------------------- the life of one order

  /** The operations that change an order, with their arguments. */
  datatype Step =
    | Claim(clientRef: Option<string>, message: Option<string>)
    | Reject(raison: Option<string>, rejectedBy: Option<Id>)
    | Confirm(pm: PaymentMethod, reference: Option<string>, confirmedRef: Option<string>, validatedBy: Option<Id>)
    | Ship(adresse: Option<string>, livraisonPrevue: Option<Time>)
    | Deliver
    | Report(description: string, notes: Option<string>)
    | Cancel(cancelReason: Option<string>)

  /** The record a step writes at time `t`, or none when its guard refuses
      it: the same guards and records as the operations above. */
  function Apply(c: Commande, step: Step, t: Time): Option<Commande> {
    match step
    case Claim(r, m) => if c.status == EnAttente then Some(Claimed(c, r, m, t)) else None
    case Reject(r, who) => Some(Rejected(c, r, who, t))
    case Confirm(pm, r, cr, who) => if c.status == EnAttente then Some(Paid(c, pm, r, cr, who, t)) else None
    case Ship(a, d) => if c.status == Payee then Some(ShippedRecord(c, a, d)) else None
    case Deliver => if c.status == Expediee then Some(DeliveredRecord(c, t)) else None
    case Report(d, n) => Some(ProblemRecord(c, d, n))
    case Cancel(r) => if c.status != Livree then Some(CancelledRecord(c, r)) else None
  }

  /** The record after `step`: a refused step leaves it as it was. */
  function After(c: Commande, step: Step, t: Time): Commande {
    var next := Apply(c, step, t);
    if next.Some? then next.value else c
  }

  /** An accepted confirmation writes the `Paid` record: with the success
      clause of `ValidatePayment`, the record it stores is the one the
      `Confirm` step writes. */
  lemma ConfirmStep(c: Commande, pm: PaymentMethod, reference: Option<string>, clientRef: Option<string>,
                    validatedBy: Option<Id>, t: Time)
    requires c.status == EnAttente
    ensures After(c, Confirm(pm, reference, clientRef, validatedBy), t) == Paid(c, pm, reference, clientRef, validatedBy, t)
  {
  }

  /** The record after the steps, taken one clock tick apart. */
  function Run(c: Commande, steps: seq<Step>, t: Time): Commande
    decreases |steps|
  {
    if steps == [] then c else Run(After(c, steps[0], t), steps[1..], t + 1)
  }

  /** How many steps of the run take the order's stock: accepted confirmations. */
  function Takes(c: Commande, steps: seq<Step>, t: Time): nat
    decreases |steps|
  {
    if steps == [] then 0
    else (if steps[0].Confirm? && Apply(c, steps[0], t).Some? then 1 else 0)
         + Takes(After(c, steps[0], t), steps[1..], t + 1)
  }

  /** How many steps of the run give the stock back: accepted cancellations
      from a status that restocks. */
  function GivesBack(c: Commande, steps: seq<Step>, t: Time): nat
    decreases |steps|
  {
    if steps == [] then 0
    else (if steps[0].Cancel? && Apply(c, steps[0], t).Some? && RestockDue(c.status) then 1 else 0)
         + GivesBack(After(c, steps[0], t), steps[1..], t + 1)
  }

  /** The stock an order holds: one pass of its lines while paid or shipped. */
  function Holding(s: CommandeStatus): nat {
    if RestockDue(s) then 1 else 0
  }

  /** No step returns an order to `en_attente`. */
  lemma {:induction false} NeverPendingAgain(c: Commande, steps: seq<Step>, t: Time)
    requires c.status != EnAttente
    ensures Run(c, steps, t).status != EnAttente && Takes(c, steps, t) == 0
    decreases |steps|
  {
    if steps != [] {
      NeverPendingAgain(After(c, steps[0], t), steps[1..], t + 1);
    }
  }

  /** Whatever operations follow, an order's stock is taken at most once, and
      given back at most as often as it was taken: every give-back matches a
      confirmation (or the holding the order started with), and a delivered
      order holds nothing any more. */
  lemma {:induction false} StockTakenOnceGivenBackOnce(c: Commande, steps: seq<Step>, t: Time)
    ensures Takes(c, steps, t) <= 1
    ensures GivesBack(c, steps, t) + Holding(Run(c, steps, t).status) <= Holding(c.status) + Takes(c, steps, t)
    decreases |steps|
  {
    if steps != [] {
      var next := After(c, steps[0], t);
      StockTakenOnceGivenBackOnce(next, steps[1..], t + 1);
      if steps[0].Confirm? && Apply(c, steps[0], t).Some? {
        NeverPendingAgain(next, steps[1..], t + 1);
      }
    }
  }

  /** For a new order: the stock is given back at most as often as it was
      taken, and taken at most once. */
  lemma NewOrderLedger(c: Commande, steps: seq<Step>, t: Time)
    requires c.status == EnAttente
    ensures GivesBack(c, steps, t) <= Takes(c, steps, t) <= 1
  {
    StockTakenOnceGivenBackOnce(c, steps, t);
  }

  // ---------------------------------------------------------------- statistics

  datatype CommandeStats = CommandeStats(
    total_commandes: nat,
    commandes_en_attente: nat,
    commandes_payees: nat,
    chiffre_affaires_total: int,
    panier_moyen: int)

  predicate IsPending(c: Commande) { c.status == EnAttente }

  /** Paid, shipped or delivered: the orders that count as sales. */
  predicate IsPaid(c: Commande) { c.status == Payee || c.status == Expediee || c.status == Livree }

  function FinalAmountOf(c: Commande): int { c.final_amount }

  /** Every order's amount when it counts as a sale, zero otherwise. */
  function SaleAmount(c: Commande): int { if IsPaid(c) then c.final_amount else 0 }

  /** `getCommandeStats` over a boutique's orders (this month's turnover is
      not part of the model). */
  function CommandeStatsOf(cs: seq<Commande>): (r: CommandeStats)
    ensures r.total_commandes == |cs|
    ensures r.commandes_en_attente == Count(cs, IsPending)
    ensures r.commandes_payees == Count(cs, IsPaid)
    ensures r.commandes_en_attente + r.commandes_payees <= r.total_commandes
    ensures r.chiffre_affaires_total == Sum(cs, SaleAmount)
    ensures r.commandes_payees == 0 ==> r.panier_moyen == 0
    ensures r.commandes_payees > 0 ==>
      var n := r.commandes_payees;
      2 * n * r.panier_moyen - n <= 2 * r.chiffre_affaires_total < 2 * n * r.panier_moyen + n
    ensures (forall i :: 0 <= i < |cs| ==> CommandeInvariant(cs[i])) && r.commandes_payees > 0 ==>
      r.panier_moyen >= 1
  {
    var paid := Filter(cs, IsPaid);
    var n := |paid|;
    var ca := Sum(paid, FinalAmountOf);
    SumFilter(cs, IsPaid, FinalAmountOf, SaleAmount);
    CountDisjoint(cs, IsPending, IsPaid);
    AverageBasketPositive(cs);
    CommandeStats(|cs|, Count(cs, IsPending), n, ca, if n > 0 then RoundDiv(ca, n) else 0)
  }

  /** Stored orders have positive amounts, so a positive number of sales
      averages to at least one franc. */
  lemma AverageBasketPositive(cs: seq<Commande>)
    ensures (forall i :: 0 <= i < |cs| ==> CommandeInvariant(cs[i])) && |Filter(cs, IsPaid)| > 0 ==>
      RoundDiv(Sum(Filter(cs, IsPaid), FinalAmountOf), |Filter(cs, IsPaid)|) >= 1
  {
    if (forall i :: 0 <= i < |cs| ==> CommandeInvariant(cs[i])) && |Filter(cs, IsPaid)| > 0 {
      PaidAmountsPositive(cs);
      SumAtLeastLength(Filter(cs, IsPaid), FinalAmountOf);
      RoundDivAtLeastOne(Sum(Filter(cs, IsPaid), FinalAmountOf), |Filter(cs, IsPaid)|);
    }
  }

  lemma PaidAmountsPositive(cs: seq<Commande>)
    requires forall i :: 0 <= i < |cs| ==> CommandeInvariant(cs[i])
    ensures forall i :: 0 <= i < |Filter(cs, IsPaid)| ==> FinalAmountOf(Filter(cs, IsPaid)[i]) >= 1
  {
    var paid := Filter(cs, IsPaid);
    forall i | 0 <= i < |paid| ensures FinalAmountOf(paid[i]) >= 1 {
      assert paid[i] in multiset(cs);
    }
  }
}
