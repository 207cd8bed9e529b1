# Warket core, modelled in Dafny

Warket is a WhatsApp selling platform for boutiques in Guinea. A seller
(the "vendeuse") lists products. Clients write to the boutique's WhatsApp
number and a bot answers them. Orders (`commandes`) move through a payment
handshake:

1. The client claims to have paid.
2. The seller confirms or rejects the claim.
3. A confirmed order is shipped, then delivered.

An order can also be cancelled or flagged as a problem. The services under
`src/lib/services` keep the Firestore collections up to date. These are
boutiques, products, clients, client–boutique relations, conversations,
messages and orders.

This project models that core:

- the order, payment and stock ledger;
- the escalation classifier and the conversation states;
- the client, relation and boutique registries;
- the statistics computed over them;
- the route guard in front of the pages;
- the uptime text of the bot panel;
- the two form validators of the admin and seller zones.

## Modules

- `Types`: the records and enumerations of `src/lib/types/index.ts`, and the `ApiResponse` envelope with an error datatype.
- `JsText`: the JavaScript string primitives the code relies on. These are `trim`, `\s`, `toLowerCase`, `includes`, `startsWith` and decimal rendering.
- `Seqs`: `filter(...).length`, `reduce` sums and maxima, stable descending `sort`, `slice` and `Math.round` of a ratio.
- `Store`: a `Database` class. Each Firestore collection is a `map` field and the message log is a `seq` field. `serverTimestamp()` is a monotone clock that ticks once per timestamp written. `Valid()` ties them together:
  - the log is chronological;
  - every stored order has a positive amount;
  - a paid order has a validation date;
  - an escalated conversation has a reason.
- `Products`, `Boutiques`, `Clients`, `Conversations`, `Commandes`: one module per service. A read-modify-write becomes a method on the `Database` with a field-granular `modifies` clause. Its `ensures` ties the new table to a pure function of the old one, and the properties are proved as lemmas about those functions. Pure filters and reductions are functions.
- `Middleware`: `src/middleware.ts`.
- `Bot`: `formatUptime`.
- `BoutiqueForm`: the new-boutique page.
- `ProductForm`: the new-product page.

Quirks of the code that the model keeps as written:

- `validatePayment` ignores a failed stock update but still counts the sale.
- Rejecting a payment claim has no status precondition.
- A second escalation overwrites the first reason.
- The keyword families are tried in the order discount, delivery, product problem.
- `updateStock` turns a discontinued product into out-of-stock at zero.
- Cancelling an order in `probleme` gives no stock back.
- The same product on two lines passes validation line by line, so it can oversell.
- A sale whose stock update failed, followed by a cancellation, inflates the stock.
- The WhatsApp auto-formatter turns a nine-digit local number that starts with `224` into a number the submit check refuses.

## Model

| member | source | states |
|---|---|---|
| Types.ParseCommandeStatus | src/lib/types/index.ts:115 | A string parses to an order status exactly when it is that status's stored name, and then to that status. |
| Types.CommandeStatusRoundTrip | src/lib/types/index.ts:115 | Each order status parses back from its stored name: the six names are distinct. |
| Types.ParseConversationStatus | src/lib/types/index.ts:89 | A string parses to a conversation status exactly when it is that conversation status's stored name, and then to that conversation status. |
| Types.ConversationStatusRoundTrip | src/lib/types/index.ts:89 | Each conversation status parses back from its stored name, so the names are distinct. |
| Types.ParseEscalationReason | src/lib/types/index.ts:90 | A string parses to a escalation reason exactly when it is that escalation reason's stored name, and then to that escalation reason. |
| Types.EscalationReasonRoundTrip | src/lib/types/index.ts:90 | Each escalation reason parses back from its stored name, so the names are distinct. |
| Types.ParseProductStatus | src/lib/types/index.ts:50 | A string parses to a product status exactly when it is that product status's stored name, and then to that product status. |
| Types.ProductStatusRoundTrip | src/lib/types/index.ts:50 | Each product status parses back from its stored name, so the names are distinct. |
| Types.ParsePaymentMethod | src/lib/types/index.ts:116 | A string parses to a payment method exactly when it is that payment method's stored name, and then to that payment method. |
| Types.PaymentMethodRoundTrip | src/lib/types/index.ts:116 | Each payment method parses back from its stored name, so the names are distinct. |
| Types.Overwrite | src/lib/services/productService.ts:305-308 | An `undefined` field of an update leaves the stored value. A supplied field replaces it. |
| JsText.BlankIffAllSpace | src/app/admin/boutiques/nouvelle/page.tsx:46 | `!s.trim()` holds exactly when every character is white space. |
| JsText.TrimIdempotent | src/app/admin/boutiques/nouvelle/page.tsx:46-59 | Trimming twice is trimming once. So the blank checks of the boutique and product forms (`!x.trim()`) ask the same of a value whether or not it was trimmed before. |
| JsText.LowerIdempotent | src/lib/services/productService.ts:220-248 | Lower-casing twice is lower-casing once. |
| JsText.ContainsIffOccurs | src/lib/services/conversationService.ts:620-650 | `includes` holds exactly when the pattern occurs at some position. |
| JsText.NatToStringRoundTrip | src/lib/services/botService.ts:166-182 | The decimal text of a number reads back as that number. |
| JsText.NatToStringInjective | src/lib/services/botService.ts:166-182 | Different numbers have different decimal texts. |
| Store.Database.Tick | src/lib/services/commandeService.ts:77 | `serverTimestamp()`: the clock moves forward by one and the new time is returned. |
| Store.ChronologicalAppend | src/lib/services/conversationService.ts:319-366 | Appending a message stamped with the current time keeps the log chronological. |
| Store.UniqueByInsert | src/lib/services/clientService.ts:36-84 | Inserting a record whose key is not yet taken keeps keys unique. |
| Store.UniqueByUpdate | src/lib/services/clientService.ts:223-268 | Updating a record without changing its key keeps keys unique. |
| Products.StatusForStock | src/lib/services/productService.ts:365-369 | The status is out-of-stock at zero. A positive quantity on an out-of-stock product makes it available. Otherwise the status is kept, including discontinued. |
| Products.AdjustStock | src/lib/services/productService.ts:341-383 | A change that would make the stock negative is refused. Otherwise the quantity moves by the change and only the quantity and the status change. |
| Products.StockStep | src/lib/services/productService.ts:341-383 | A failed update writes nothing. A successful one changes only the product's stock, by the change. |
| Products.UpdateStock | src/lib/services/productService.ts:341-383 | Returns NotFound, StockInsufficient or success. The table becomes `StockStep` of the old table. |
| Products.StockRoundTrip | src/lib/services/productService.ts:341-383 | Taking `q` then giving `q` back restores the product except its status. An available product with stock stays available. |
| Products.DiscontinuedComesBackAvailable | src/lib/services/productService.ts:365-369 | A discontinued product sold out becomes out-of-stock, and restocking it makes it available. |
| Products.NewProduct | src/lib/services/productService.ts:60-67 | A new product is available, with zero sales and demand, and the stock supplied. |
| Products.ProductsOfInsert | src/lib/services/productService.ts:71-72 | Adding a product raises its boutique's product count by one and no other boutique's count. |
| Products.CreateProduct | src/lib/services/productService.ts:41-91 | The call is refused when the boutique is missing or inactive, or when `prix_min > prix_affichage`; nothing changes then. Otherwise the product is stored and the boutique's `total_produits` is recounted. |
| Products.PatchedStatus | src/lib/services/productService.ts:311-318 | A supplied stock of 0 forces out-of-stock. A positive stock on an out-of-stock product forces available. Otherwise the supplied status, or the old one. |
| Products.ApplyPatch | src/lib/services/productService.ts:305-318 | The record `updateProduct` writes: each supplied field replaces the stored one and the status is `PatchedStatus`. Its properties are stated by `ApplyPatchKeeps`. |
| Products.ApplyPatchKeeps | src/lib/services/productService.ts:289-336 | An update never changes the owner, category, creation date or sales counters. It writes a supplied stock as given. |
| Products.UpdateProductAcceptsNegativeStock | src/lib/services/productService.ts:297-318 | `updateProduct` has no stock check: a negative stock is stored. |
| Products.UpdateProduct | src/lib/services/productService.ts:289-336 | Returns NotFound, or PriceRule when both prices are supplied and non-zero with the minimum above. Otherwise the product becomes the patched record. |
| Products.ProductStatsAdded | src/lib/services/productService.ts:388-421 | Only the product's `total_ventes` and `total_demandes` move, by the given deltas. Every other record and field is kept. |
| Products.ProductStatsAccumulate | src/lib/services/productService.ts:388-421 | Two stat increments add up to one increment by the sums. |
| Products.UpdateProductStats | src/lib/services/productService.ts:388-421 | Returns NotFound for a missing product. The table becomes `ProductStatsAdded`, with absent deltas counted as 0. |
| Products.BestBy | src/lib/services/productService.ts:526-528 | The `reduce` choice is the first product with the largest value. It is kept only when that value is non-zero. |
| Products.BoutiqueProductStats | src/lib/services/productService.ts:500-552 | Counts the products, the on-sale ones and the ones with exactly zero stock; on-sale plus sold-out never exceeds the total. The stock value is the sum of price × stock. The best seller and the most requested product are `BestBy` sales and `BestBy` demand. |
| Products.StockValueNonNegative | src/lib/services/productService.ts:521-524 | With non-negative prices and stocks, the stock value is non-negative. |
| Products.OfferedPlusUnavailable | src/lib/services/productService.ts:517 | Products on sale plus products not on sale make up the whole list. |
| Products.SearchProducts | src/lib/services/productService.ts:220-248 | The result is exactly the boutique's on-sale products whose name, category label or description contains the lower-cased term, taken from the list. |
| Products.SearchIgnoresCase | src/lib/services/productService.ts:220-248 | Searching for a term or its lower-case form gives the same result. |
| Boutiques.GetBoutiqueByWhatsApp | src/lib/services/boutiqueService.ts:166-199 | Finds an active boutique with that number, and fails with NotFound exactly when there is none. |
| Boutiques.NewBoutique | src/lib/services/boutiqueService.ts:48-57 | A new boutique is active, with zero counters, created by the admin at the current time. |
| Boutiques.CreateBoutique | src/lib/services/boutiqueService.ts:37-78 | A number already used by an active boutique is refused and nothing changes. Otherwise the boutique is inserted under a new id. |
| Boutiques.CreateKeepsNumbersUnique | src/lib/services/boutiqueService.ts:40-47 | The creation check keeps active numbers unique. |
| Boutiques.ReactivationDuplicatesNumber | src/lib/services/boutiqueService.ts:274-292 | Reactivating an inactive boutique whose number was reused breaks uniqueness, because the status update has no check. |
| Boutiques.UpdateBoutiqueStatus | src/lib/services/boutiqueService.ts:274-292 | Returns NotFound, or overwrites only the status. |
| Boutiques.OverwriteStatsIdempotent | src/lib/services/boutiqueService.ts:297-321 | `updateBoutiqueStats` overwrites counters rather than adding: writing the same values twice equals writing them once. |
| Boutiques.UpdateBoutiqueStats | src/lib/services/boutiqueService.ts:297-321 | Returns NotFound, or overwrites the supplied counters only. |
| Boutiques.BoutiquesStatsOf | src/lib/services/boutiqueService.ts:362-407 | The total, active and inactive counts. Active plus inactive is the total. |
| Clients.CleanNumber | src/lib/services/clientService.ts:39 | The stored number has no spaces, dashes or `+`, and is unchanged when it had none. |
| Clients.CleanIdempotent | src/lib/services/clientService.ts:91 | Cleaning an already cleaned number changes nothing. |
| Clients.CleanAppend | src/lib/services/clientService.ts:39 | Cleaning works character by character: it distributes over concatenation. |
| Clients.CleanIsFilter | src/lib/services/clientService.ts:39 | Cleaning keeps exactly the characters that are not removed, in order. |
| Clients.GetClientByWhatsApp | src/lib/services/clientService.ts:89-123 | Finds the client stored under the cleaned number, and fails exactly when there is none. |
| Clients.GetOrCreateClient | src/lib/services/clientService.ts:36-84 | An existing client is returned, renamed when a different non-empty name is given. Otherwise a client with zero counters is created. Numbers stay unique. |
| Clients.GetOrCreateClientBoutique | src/lib/services/clientService.ts:223-268 | Same as `GetOrCreateClient` for the client–boutique pair: found, or created with no purchase. Each pair keeps at most one relation. |
| Clients.HandleClientMessage | src/lib/services/clientService.ts:469-517 | Reports whether the client and the relation are new. The client table changes only at the sender's record, which is the one found by number (renamed as `getOrCreateClient` renames) or a new one under the fresh id. The relation table changes likewise, only at the relation of that client with the boutique. The clock moves once per created record. |
| Clients.Created | src/lib/services/clientService.ts:469-517 | At most two records are created, and none exactly when neither the client nor the relation is new. |
| Clients.ClientStatsAdded | src/lib/services/clientService.ts:183-216 | Only the client's `total_commandes` and `total_achats` move, by the deltas. |
| Clients.ClientStatsAccumulate | src/lib/services/clientService.ts:183-216 | Two increments add up to one increment by the sums. |
| Clients.UpdateClientStats | src/lib/services/clientService.ts:183-216 | Returns NotFound, or applies `ClientStatsAdded` with absent deltas counted as 0. |
| Clients.RelationStatsAdded | src/lib/services/clientService.ts:429-462 | `historique_achats` moves by the delta. `dernier_achat` is stamped when asked. The pair is kept. |
| Clients.RelationStatsKeepUnique | src/lib/services/clientService.ts:429-462 | Updating relation stats keeps one relation per pair. |
| Clients.UpdateClientBoutiqueStats | src/lib/services/clientService.ts:429-462 | Returns NotFound, or applies `RelationStatsAdded`. The clock ticks only for a stamp. |
| Clients.TopClients | src/lib/services/clientService.ts:584-609 | Only clients who bought, sorted by purchases in descending order. The length is the limit, or the number of buyers when fewer. |
| Clients.TopClientsDominate | src/lib/services/clientService.ts:584-609 | Every client kept has bought at least as much as every buyer left out. |
| Clients.MostLoyal | src/lib/services/clientService.ts:560-570 | The first relation with the most purchases. It is none exactly when nobody has bought. |
| Clients.MostLoyalHeadsTop | src/lib/services/clientService.ts:560-609 | The most loyal client has as many purchases as the head of the top list. |
| Clients.ClientOf | src/lib/types/index.ts:79-82 | The client of a relation, as the relation record stores it, exactly when the relation exists. |
| Clients.SplitHead | src/lib/services/commandeService.ts:416 | `split(sep)[0]`: the longest prefix without the separator, the whole string when it has none. |
| Clients.ClientKeyAsWritten | src/lib/services/commandeService.ts:416 | The key `validatePayment` credits as written: a prefix of the relation id with no `_`, and the relation id itself when it has no `_`. |
| Clients.ClientKeyMissesClient | src/lib/services/commandeService.ts:416 | For a relation id without `_`, the as-written key is the relation id itself. It names the client only if the two ids coincide, and an unknown key updates nobody. |
| Clients.ClientKeyCounterexample | src/lib/services/commandeService.ts:416 | On a concrete relation `r1` of client `c1`, the as-written update leaves every client unchanged. The corrected one credits `c1`. |
| Conversations.AnalyzeForEscalation | src/lib/services/conversationService.ts:620-650 | A message is escalated exactly when a reason is given, and the reason is never `autre`. |
| Conversations.ClassifierPriority | src/lib/services/conversationService.ts:620-650 | Each reason holds exactly when its keyword family matches the lower-cased text and no earlier family does. Complexity is the last resort. |
| Conversations.ClassifierIgnoresCase | src/lib/services/conversationService.ts:624 | Classifying a text or its lower-case form gives the same answer. |
| Conversations.PriceBeatsRefund | src/lib/services/conversationService.ts:624-642 | A message mentioning both a price and a refund is escalated for `remise`, not `probleme_produit`. |
| Conversations.LatestActiveExists | src/lib/services/conversationService.ts:85-120 | Among conversations holding an active one, one with the latest activity exists. |
| Conversations.GetActiveConversation | src/lib/services/conversationService.ts:85-120 | Returns the relation's active conversation with the latest activity, and fails exactly when there is none. |
| Conversations.GetOrCreateConversation | src/lib/services/conversationService.ts:39-80 | Returns the latest active conversation without writing. Otherwise it creates a `bot` conversation. Conversations stay well formed. |
| Conversations.Escalated | src/lib/services/conversationService.ts:233-261 | An escalated conversation is `escalade` with the given reason. |
| Conversations.EscalationOverwritesReason | src/lib/services/conversationService.ts:241-247 | A second escalation replaces the reason, the notes and the escalation date. |
| Conversations.EscalateConversation | src/lib/services/conversationService.ts:233-261 | Returns NotFound, or stores `Escalated` at the next time. Conversations stay well formed. |
| Conversations.Resolved | src/lib/services/conversationService.ts:266-287 | Resolution sets `resolu` and the date, and keeps the reason. |
| Conversations.ResolveConversation | src/lib/services/conversationService.ts:266-287 | Returns NotFound, or stores `Resolved`. |
| Conversations.Closed | src/lib/services/conversationService.ts:292-312 | Closing sets `ferme` and the date, and keeps the reason and the resolution date. |
| Conversations.CloseConversation | src/lib/services/conversationService.ts:292-312 | Returns NotFound, or stores `Closed`. |
| Conversations.EndedIsNotActive | src/lib/services/conversationService.ts:85-120 | A resolved or closed conversation is no longer active. An escalated one still is. |
| Conversations.AddMessage | src/lib/services/conversationService.ts:319-366 | The message is appended, stamped with the next time. The conversation table is `Touched` at the conversation: its activity is stamped after the message, and nothing else changes. The store stays valid. |
| Conversations.Touched | src/lib/services/conversationService.ts:604-615 | Only the given conversation changes, and only its last activity and message stamp, both set to the given time. An unknown id changes nothing, as the failed update is caught. |
| Conversations.RecentMessages | src/lib/services/conversationService.ts:411-441 | A non-positive limit is refused. Otherwise the result is the conversation's last `count` messages. |
| Conversations.RecentMessagesChronological | src/lib/services/conversationService.ts:411-441 | On a chronological log the recent messages come oldest first and are the latest ones. |
| Conversations.ConversationStatsOf | src/lib/services/conversationService.ts:547-597 | Counts the active conversations and the waiting escalations, which are among the active ones. The bot resolution rate is a rounded percentage between 0 and 100. |
| Conversations.HandleBotMessage | src/lib/services/conversationService.ts:448-511 | The sender is `Registered` as in `handleClientMessage`. The message goes to the latest active conversation of that relation, or to a new `bot` conversation under the fresh id when there is none. The conversation table is `Touched` there and changes nowhere else. The escalation verdict is `AnalyzeForEscalation` of the text. |
| Commandes.LineError | src/lib/services/commandeService.ts:881-912 | A line has no error exactly when it can be ordered. A missing product and a foreign product give their own errors. |
| Commandes.FirstLineError | src/lib/services/commandeService.ts:871-912 | No error exactly when every line can be ordered. |
| Commandes.FirstLineErrorAt | src/lib/services/commandeService.ts:871-912 | The error reported is that of the first line that cannot be ordered. |
| Commandes.ValidatedLine | src/lib/services/commandeService.ts:914-921 | A validated line takes the catalogue name and keeps the caller's price and quantity. |
| Commandes.ValidatedLines | src/lib/services/commandeService.ts:914-921 | Every line is validated, in order. |
| Commandes.ValidatedTotal | src/lib/services/commandeService.ts:915-924 | The total of the validated lines is the sum of price × quantity over the requested ones. |
| Commandes.Validation | src/lib/services/commandeService.ts:863-940 | Succeeds exactly when the list is non-empty and every line can be ordered, and an empty list is an error. The lines and the total are as above. |
| Commandes.ValidateLines | src/lib/services/commandeService.ts:863-940 | The loop returns exactly `Validation`. |
| Commandes.DuplicateLinesPassValidation | src/lib/services/commandeService.ts:881-912 | Two lines of one product with stock 1 each pass the per-line checks. |
| Commandes.FinalAmount | src/lib/services/commandeService.ts:59 | The final amount is the total less a non-zero reduction, or the total. |
| Commandes.QuickLine | src/lib/services/commandeService.ts:153-159 | The line of a quick order: the product at its display price, with total price × quantity. |
| Commandes.NewCommande | src/lib/services/commandeService.ts:68-78 | A new order is `en_attente`, unclaimed and unpaid, with the validated lines and amounts. |
| Commandes.PostNotice | src/lib/services/commandeService.ts:82-91 | With a conversation id, exactly one bot system message is appended. Without one, nothing is appended. The conversation table is `Noticed`: only the named conversation is touched, and only when it exists. |
| Commandes.Noticed | src/lib/services/commandeService.ts:82-91 | Without a conversation id the table is unchanged. With one, it is `Touched` at that conversation. |
| Commandes.EscalatedIn | src/lib/services/commandeService.ts:210-230 | The named conversation, when it exists, becomes `Escalated` with the reason and note. The keys and every other conversation are kept. |
| Commandes.CreateCommande | src/lib/services/commandeService.ts:42-110 | A validation failure or a non-positive amount changes nothing. Otherwise the new order is stored and announced, the conversation table is `Noticed`, and no stock changes. |
| Commandes.CreateQuickCommande | src/lib/services/commandeService.ts:115-174 | The sender is `Registered` whatever the outcome. A missing product or short stock is then refused, with no order, message or conversation change. Otherwise the outcome is that of `createCommande` on the one line at the display price with no reduction: refused with the validation error (foreign or unavailable product) or for a non-positive amount, or a `NewCommande` on the sender's relation with this boutique, announced with the conversation table `Noticed`. |
| Commandes.Claimed | src/lib/services/commandeService.ts:199-207 | A claim sets the pending flag and date and keeps the status, lines and amount. |
| Commandes.RequestPaymentValidation | src/lib/services/commandeService.ts:179-244 | Only an `en_attente` order accepts a claim. Any other status changes nothing. The claim is announced. The conversation table is `Noticed`, then the conversation is `EscalatedIn` for `autre` with the payment-check note, and no other conversation changes. The stored record is `After` the `Claim` step, which `NeverPendingAgain` and `StockTakenOnceGivenBackOnce` are about. |
| Commandes.Rejected | src/lib/services/commandeService.ts:336-343 | A rejection clears the pending flag, sets `payment_rejected`, and keeps status, lines and amount. |
| Commandes.RejectPaymentValidation | src/lib/services/commandeService.ts:329-367 | Any existing order can be rejected, whatever its status, and stock is not touched. The rejection is announced and the conversation table is `Noticed`. The stored record is `After` the `Reject` step, which `NeverPendingAgain` and `StockTakenOnceGivenBackOnce` are about. |
| Commandes.Paid | src/lib/services/commandeService.ts:399-407 | Confirmation sets `payee`, the method and the validation date. |
| Commandes.Sold | src/lib/services/commandeService.ts:410-413 | The product table after the sale loop keeps its keys. |
| Commandes.SoldCountsEveryUnit | src/lib/services/commandeService.ts:410-413 | Every ordered unit is added to `total_ventes`, whether or not the stock update succeeded. |
| Commandes.SoldTakesDemand | src/lib/services/commandeService.ts:410-413 | With enough stock, each product loses exactly the quantity the lines ask for. |
| Commandes.SoldKeepsStockNonNegative | src/lib/services/commandeService.ts:410-413 | The sale never makes a stock negative. |
| Commandes.ApplySales | src/lib/services/commandeService.ts:410-413 | The loop leaves the table as `Sold`. |
| Commandes.Restocked | src/lib/services/commandeService.ts:651-656 | The product table after the restock loop keeps its keys. |
| Commandes.RestockAddsDemand | src/lib/services/commandeService.ts:651-656 | A cancellation gives back exactly the quantity the lines ask for. |
| Commandes.Restock | src/lib/services/commandeService.ts:651-656 | The loop leaves the table as `Restocked`. |
| Commandes.SellThenCancelRestores | src/lib/services/commandeService.ts:410-413 | Selling then cancelling restores the stock when there was enough. |
| Commandes.FailedSaleThenCancelInflates | src/lib/services/commandeService.ts:410-413 | Ordering 2 of a product with stock 1: the sale fails silently, still counts 2 sales, and a cancellation brings the stock to 3. |
| Commandes.DuplicateLinesOversell | src/lib/services/commandeService.ts:881-912 | Two lines of one unit each on stock 1 are validated, and the sale counts 2 while the stock reaches 0. |
| Commandes.ClientSaleRecorded | src/lib/services/commandeService.ts:416-419 | The sale is credited to the client of the order's relation, and to nobody when the relation is missing. |
| Commandes.BoutiqueSaleRecorded | src/lib/services/commandeService.ts:427-435 | The boutique gains one sale and the amount in turnover, and nothing else changes. |
| Commandes.RecordSale | src/lib/services/commandeService.ts:415-435 | The relation and boutique counters move as the source writes them. The client counters move for the relation's own client, the corrected key of the finding below. |
| Commandes.ConfirmationWrites | src/lib/services/commandeService.ts:409-446 | The writes of the payment transaction before the order record: the stock becomes `Sold`, the sale is recorded as in `RecordSale`, the confirmation notice is posted, and the conversation table is `Noticed`. The store stays valid. |
| Commandes.ValidatePayment | src/lib/services/commandeService.ts:372-471 | Only an `en_attente` order can be confirmed, so a second confirmation fails and changes nothing. The order becomes `Paid`, the record is `After` the `Confirm` step, and the stock becomes `Sold`. The relation and boutique counters move, and the client counters move for the relation's client (the corrected key). The confirmation is announced and the conversation table is `Noticed`. |
| Commandes.ConfirmStep | src/lib/services/commandeService.ts:399-407 | An accepted `Confirm` step writes exactly the `Paid` record. |
| Commandes.ShippedRecord | src/lib/services/commandeService.ts:489-500 | Shipping sets `expediee`. A truthy address replaces the stored one. |
| Commandes.MarkAsShipped | src/lib/services/commandeService.ts:476-533 | Only a `payee` order ships. Any other status changes nothing. The shipment is announced and the conversation table is `Noticed`. The stored record is `After` the `Ship` step, which `NeverPendingAgain` and `StockTakenOnceGivenBackOnce` are about. |
| Commandes.DeliveredRecord | src/lib/services/commandeService.ts:547-559 | Delivery sets `livree` and the delivery date. |
| Commandes.MarkAsDelivered | src/lib/services/commandeService.ts:538-582 | Only an `expediee` order is delivered. The delivery is announced and the conversation table is `Noticed`. The stored record is `After` the `Deliver` step, which `NeverPendingAgain` and `StockTakenOnceGivenBackOnce` are about. |
| Commandes.ProblemRecord | src/lib/services/commandeService.ts:594-599 | A problem sets `probleme` and the description, from any status. |
| Commandes.ReportProblem | src/lib/services/commandeService.ts:587-630 | Any existing order can be flagged. The problem is announced. The conversation table is `Noticed`, then the conversation is `EscalatedIn` for `probleme_produit` with the description as note, and no other conversation changes. The stored record is `After` the `Report` step, which `NeverPendingAgain` and `StockTakenOnceGivenBackOnce` are about. |
| Commandes.CancelledRecord | src/lib/services/commandeService.ts:658-663 | Cancelling sets `annulee`. |
| Commandes.CancelCommande | src/lib/services/commandeService.ts:635-686 | A delivered order is refused. Otherwise the order is cancelled, and stock is given back only from `payee` or `expediee`. The cancellation is announced and the conversation table is `Noticed`. The stored record is `After` the `Cancel` step, which `NeverPendingAgain` and `StockTakenOnceGivenBackOnce` are about. |
| Commandes.NeverPendingAgain | src/lib/services/commandeService.ts:387-407 | Once out of `en_attente`, no sequence of operations brings an order back, so none confirms it again. |
| Commandes.StockTakenOnceGivenBackOnce | src/lib/services/commandeService.ts:372-686 | Over any sequence of operations, the stock is taken at most once. Gives-back plus the order's final holding never exceed the holding at start plus takes. |
| Commandes.NewOrderLedger | src/lib/services/commandeService.ts:372-686 | For a new order, stock is given back at most as often as it was taken, and taken at most once. |
| Commandes.CommandeStatsOf | src/lib/services/commandeService.ts:797-856 | Counts pending and paid orders, which are disjoint. Turnover is the sum of paid amounts. The average basket is their rounded mean, and at least 1 when any order is paid. |
| Commandes.PaidAmountsPositive | src/lib/services/commandeService.ts:818-821 | Under the store invariant, every paid amount is at least 1. |
| Middleware.ExtensionScanIsPattern | src/middleware.ts:11 | Scanning word characters from the end decides exactly `/\.[\w]+$/`. |
| Middleware.IsAssetPath | src/middleware.ts:4-13 | `isAssetPath`: the five prefixes or a trailing extension. `ExtensionScanIsPattern` shows the extension test is the regular expression. |
| Middleware.Route | src/middleware.ts:22-64 | Assets pass unmarked. A redirect goes to the login page with `next` set to the path and query, or sends a signed-in visitor from `/` to `/admin` or `/dashboard`. A `no-store` pass is a zone page. `RouteDecision` gives both directions. |
| Middleware.RedirectWithNext | src/middleware.ts:15-20 | Redirects to the target with `next` set to the path followed by the query. |
| Middleware.AssetsPass | src/middleware.ts:25-27 | Asset paths always pass, and are never marked `no-store`. |
| Middleware.AdminZoneGuarded | src/middleware.ts:42-44 | A non-asset admin page without an admin session goes to the login page. |
| Middleware.BoutiqueZoneGuarded | src/middleware.ts:45-47 | A non-asset seller page without a seller session goes to the login page. |
| Middleware.SignedInRootRedirects | src/middleware.ts:53-57 | A signed-in visitor at `/` goes to `/admin` with the admin role, and to `/dashboard` otherwise. |
| Middleware.RouteDecision | src/middleware.ts:22-64 | A request is redirected exactly for a zone the session may not enter, or for a signed-in root. It is marked `no-store` exactly when it is a zone page that passes. |
| Middleware.LoginPageReachable | src/middleware.ts:36-50 | The login page is never redirected. |
| Bot.UptimeParts | src/lib/services/botService.ts:166-182 | Under a minute exactly when below 60000 ms. Otherwise days and hours, hours and minutes, or minutes, each within range, bracketing the uptime within one unit of the last field. |
| Bot.FormatUptime | src/lib/services/botService.ts:166-182 | The text is the rendering of `UptimeParts`. |
| Bot.RenderInjective | src/lib/services/botService.ts:173-181 | Different readings give different texts. |
| Bot.DigitRun | src/lib/services/botService.ts:166-182 | The length of the leading run of digits: every character before it is a digit, and the next one, if any, is not. |
| Bot.SameTextSameReading | src/lib/services/botService.ts:166-182 | Two uptimes show the same text exactly when they have the same reading. |
| BoutiqueForm.GuineaNumberShape | src/app/admin/boutiques/nouvelle/page.tsx:62-63 | An accepted number is 8 to 13 characters, all digits except a leading `+` that starts `+224`. |
| BoutiqueForm.GuineaNumber | src/app/admin/boutiques/nouvelle/page.tsx:63 | The number pattern: eight or nine digits, optionally behind the country code `224` or `+224`. |
| BoutiqueForm.AutoFormat | src/app/admin/boutiques/nouvelle/page.tsx:85-93 | The formatted number starts with `+`, holds only digits and `+`, and is the kept characters with `+`, `+224` or nothing in front, as the branches say. |
| BoutiqueForm.AutoFormatIdempotent | src/app/admin/boutiques/nouvelle/page.tsx:85-93 | Formatting a formatted number changes nothing. |
| BoutiqueForm.FormattedHasNoSeparator | src/app/admin/boutiques/nouvelle/page.tsx:62 | A formatted number loses nothing to the submit check's space and dash removal. |
| BoutiqueForm.AutoFormatKeepsAccepted | src/app/admin/boutiques/nouvelle/page.tsx:85-93 | Typing an accepted number gives an accepted formatted number, except a nine-digit local number starting with `224`. |
| BoutiqueForm.AutoFormatLocal224 | src/app/admin/boutiques/nouvelle/page.tsx:87-88 | That exception: accepted as typed, refused once formatted. |
| BoutiqueForm.EmailShapeIff | src/app/admin/boutiques/nouvelle/page.tsx:68 | The email pattern holds exactly when there is no white space, exactly one `@` not in first place, and a dot after it that is neither adjacent to it nor last. |
| BoutiqueForm.EmailShape | src/app/admin/boutiques/nouvelle/page.tsx:68 | `/^[^\s@]+@[^\s@]+\.[^\s@]+$/` as a split into local part, domain and suffix. `EmailShapeIff` characterises it. |
| BoutiqueForm.FieldMessage | src/app/admin/boutiques/nouvelle/page.tsx:46-70 | The message each field gets on submit. A message is never the cleared empty one, and the address and deposit number never get one. |
| BoutiqueForm.ValidateBoutique | src/app/admin/boutiques/nouvelle/page.tsx:43-74 | A field is recorded exactly when it has a message, and with that message. |
| BoutiqueForm.NoMessageIsValid | src/app/admin/boutiques/nouvelle/page.tsx:72-73 | The form is valid exactly when no field has a message. |
| BoutiqueForm.BoutiqueFormValidIff | src/app/admin/boutiques/nouvelle/page.tsx:43-74 | Valid exactly when the three names and the number are not blank, the number without separators is Guinean, and any email has the address shape. |
| BoutiqueForm.ChangeBoutiqueField | src/app/admin/boutiques/nouvelle/page.tsx:76-94 | Stores the value, formatted for the number, and leaves other fields alone. The field's shown message is cleared and the keys are kept. |
| BoutiqueForm.TypedNumberNeverBlank | src/app/admin/boutiques/nouvelle/page.tsx:58-59 | After typing in the number field, the number is never reported as missing. |
| ProductForm.ValidateProduct | src/app/dashboard/produits/nouveau/page.tsx:85-114 | A field is recorded exactly when it has a message, and with that message. |
| ProductForm.FieldMessage | src/app/dashboard/produits/nouveau/page.tsx:88-110 | The message each field gets on submit. A message is never the cleared empty one, and the description and category never get one. |
| ProductForm.ProductFormValidIff | src/app/dashboard/produits/nouveau/page.tsx:85-114 | Valid exactly when the name is not blank, `0 < prix_min <= prix_affichage`, the stock is not negative, and `Autre` comes with a non-blank category name. |
| ProductForm.AboveReplacesNotPositive | src/app/dashboard/produits/nouveau/page.tsx:96-102 | A minimum both non-positive and above the display price shows the "above" message. |
| ProductForm.ChangeProductField | src/app/dashboard/produits/nouveau/page.tsx:57-83 | Stores the value. After a price edit, `prix_min` is flagged exactly when the minimum exceeds a positive display price. The edited field's shown message is cleared. Every other message is kept, including a `prix_min` message across an edit that is not a price edit. |
| ProductForm.LiveCheckAgreesWithSubmit | src/app/dashboard/produits/nouveau/page.tsx:66-81 | After a price edit, the live flag is shown exactly when submitting would report the minimum above a positive display price. |
| ProductForm.LiveCheckMissesNonPositive | src/app/dashboard/produits/nouveau/page.tsx:66-81 | A non-positive price passes the live check but the form is not valid on submit. |

## Findings

| source | as written | input that shows it | evidently intended | confidence | as-written member | corrected member |
|---|---|---|---|---|---|---|
| src/lib/services/commandeService.ts:416 | `validatePayment` credits the client `client_boutique_id.split('_')[0]`. Relation ids are generated document ids with no `_`, so this is the relation id, never the client. `updateClientStats` then fails with NotFound and the client's `total_commandes` and `total_achats` never move. | Relation `r1` of client `c1`, order amount 5000: the key is `r1`, so no client is updated. | Credit the relation's `client_id`. | not executed | Clients.ClientKeyCounterexample | Commandes.ClientSaleRecorded |

`Clients.ClientKeyAsWritten` is the key as the code computes it. `Clients.ClientKeyMissesClient` shows it equals the relation id for every relation id without `_`. `Clients.ClientOf` is the corrected key, which `Commandes.RecordSale` and `Commandes.ValidatePayment` use.

## Left out

- Commandes.ValidatePayment: the client counters are credited to the relation's `client_id`, the corrected key of the finding above. As written, `updateClientStats` gets the relation id, fails with NotFound, and the failure is ignored, so no client counter moves. `Clients.ClientKeyCounterexample` states that as-written outcome.
- Commandes.RecordSale: same correction as `ValidatePayment`. The relation and boutique updates are as written.
- Firestore is assumed to skip `undefined` field values (the `ignoreUndefinedProperties` setting). The Firebase set-up file is not part of this model, so whether the setting is on is not known. Without it, every write that passes an absent optional value would throw, and the operation would return a failure. These writes are the escalation (conversationService.ts:241-247), the claim, rejection, payment, problem and cancellation records (commandeService.ts:201-207, 336-343, 399-407, 594-599, 658-663), a new order without a conversation or reduction (68-78), a message without metadata (conversationService.ts:331-341), and a new client or relation without a name (clientService.ts:57-63, 241-247). `Types.Overwrite` and the `None` fields stand for the skipped values.
- Firebase plumbing is not modelled. This covers queries, `orderBy`/`limit`, the ten-element `in` cap, batch deletes and server-side `increment()`. Collections are maps, an increment is `+`, and a generated document id is a parameter required to be fresh.
- `runTransaction` in `validatePayment` is not modelled: no isolation and no retries. The writes are sequential, with the order record written last.
- `updated_at` fields are not modelled. Each meaningful timestamp is one tick of the clock.
- Wall-clock statistics are left out. This covers "ce mois", "30 derniers jours", monthly turnover and the activity dates in the boutique and client statistics.
- Conversations.ConversationStatsOf: the bot resolution rate is computed on exact rationals and rounded half up. The source divides floating-point numbers, which can differ at an exact half.
- Display text is opaque. The message of each system notice is a datatype naming its content, and form messages are datatype constructors. Currency formatting is left out.
- `handleClientPaymentClaim` (src/lib/services/commandeService.ts:249-324) is not modelled. It is an alternative entry point that finds the pending order of a conversation and calls `requestPaymentValidation`, which is modelled.
- String lengths count characters, not UTF-16 code units. This matters for the 200-character complexity rule on text outside the Basic Multilingual Plane.
- `toLowerCase` is modelled on ASCII and Latin-1 letters only.
- Middleware.RedirectWithNext: the other query parameters a redirect keeps are not modelled. Only the target and `next` are.
- Middleware.Route: the `matcher` configuration is not modelled. It limits the guard to `/`, `/auth/login`, `/admin/...` and `/dashboard/...`, and the model decides for any path.
- `messages_count`: `updateConversationActivity` writes a timestamp into it, and the model records it as such rather than as a counter.
- Edits to fields that no check reads are not modelled in `ProductForm.ChangeProductField`. These are `images` and `status`.
- Authentication, storage uploads, the bot's network calls and polling, and the statistics service are outside this model.
