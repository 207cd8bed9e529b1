/** Records, enumerations and the response envelope shared by every service
    (src/lib/types/index.ts). Firestore documents become datatypes without their
    id: each collection is a map from document id to record. */
module Types {

  type Id = string

  /** A value of the abstract, monotone clock that stands for `serverTimestamp()`. */
  type Time = nat

  datatype Option<+T> = None | Some(value: T)

  /** JavaScript truthiness of an optional string: present and non-empty. */
  predicate Truthy(s: Option<string>) {
    s.Some? && s.value != ""
  }

  /** An `updateDoc` field whose value may be `undefined`: an absent value is not
      written, so the stored value stays as it was. */
  function Overwrite<T>(stored: Option<T>, written: Option<T>): (r: Option<T>)
    ensures written.Some? ==> r == written
    ensures written.None? ==> r == stored
  {
    if written.Some? then written else stored
  }

  /** A counter delta that may be `undefined`: an absent delta adds nothing. */
  function OrZero(o: Option<int>): int {
    if o.Some? then o.value else 0
  }

  // ---------------------------------------------------------------- errors

  /** The failures the services report. The French message texts are left out;
      each constructor stands for one message the services write. */
  datatype Err =
    | NotFound                                   // the document does not exist
    | EmptyOrder                                 // an order with no line
    | ProductNotFound(productId: Id)
    | ForeignProduct(nom: string)                // product of another boutique
    | ProductUnavailable(nom: string)            // status is not `available`
    | InsufficientStock(nom: string, available: int)
    | QuickInsufficientStock(available: int)     // createQuickCommande's own check
    | StockInsufficient                          // updateStock would go negative
    | NonPositiveAmount                          // final amount <= 0
    | NotPending                                 // only `en_attente` orders
    | NotPaid                                    // only `payee` orders ship
    | NotShipped                                 // only `expediee` orders are delivered
    | AlreadyDelivered                           // a `livree` order cannot be cancelled
    | PriceRule                                  // prix_min > prix_affichage
    | BoutiqueUnavailable                        // boutique missing or not active
    | NumberInUse                                // an active boutique has the number
    | InvalidLimit                               // the store refuses a non-positive limit

  /** `ApiResponse<T>`: `success: true` with data, or `success: false` with an error. */
  datatype ApiResponse<+T> = Success(data: T) | Failure(error: Err)

  // ---------------------------------------------------------------- enumerations

  datatype BoutiqueStatus = Active | Inactive | Suspended

  datatype ProductCategory =
    | Vetements | Chaussures | SacsAccessoires | TelephonesElectronique
    | CosmetiquesBeaute | Bijoux | ProduitsAlimentaires | ArticlesMenagers | Autre

  /** The category's stored label. */
  function CategoryLabel(c: ProductCategory): string {
    match c
    case Vetements => "V\U{EA}tements"
    case Chaussures => "Chaussures"
    case SacsAccessoires => "Sacs & Accessoires"
    case TelephonesElectronique => "T\U{E9}l\U{E9}phones & \U{C9}lectronique"
    case CosmetiquesBeaute => "Cosm\U{E9}tiques & Beaut\U{E9}"
    case Bijoux => "Bijoux"
    case ProduitsAlimentaires => "Produits alimentaires"
    case ArticlesMenagers => "Articles m\U{E9}nagers"
    case Autre => "Autre"
  }

  datatype ProductStatus = Available | OutOfStock | Discontinued

  datatype ConversationStatus = Bot | Escalade | Resolu | Ferme

  datatype EscalationReason = Remise | Livraison | ProblemeProduit | Complexe | Other

  datatype CommandeStatus = EnAttente | Payee | Expediee | Livree | Probleme | Annulee

  datatype PaymentMethod = OrangeMoney | MtnMoney | Cash

  /** The string each order status is stored as. */
  function CommandeStatusName(s: CommandeStatus): string {
    match s
    case EnAttente => "en_attente"
    case Payee => "payee"
    case Expediee => "expediee"
    case Livree => "livree"
    case Probleme => "probleme"
    case Annulee => "annulee"
  }

  /** Reading a stored order status back; any other string is not a status. */
  function ParseCommandeStatus(s: string): (r: Option<CommandeStatus>)
    ensures r.Some? ==> CommandeStatusName(r.value) == s
    ensures forall x :: CommandeStatusName(x) == s ==> r == Some(x)
  {
    if s == "en_attente" then Some(EnAttente)
    else if s == "payee" then Some(Payee)
    else if s == "expediee" then Some(Expediee)
    else if s == "livree" then Some(Livree)
    else if s == "probleme" then Some(Probleme)
    else if s == "annulee" then Some(Annulee)
    else None
  }

  lemma CommandeStatusRoundTrip(s: CommandeStatus)
    ensures ParseCommandeStatus(CommandeStatusName(s)) == Some(s)
  {
  }

  /** The string each conversation status is stored as. */
  function ConversationStatusName(s: ConversationStatus): string {
    match s
    case Bot => "bot"
    case Escalade => "escalade"
    case Resolu => "resolu"
    case Ferme => "ferme"
  }

  function ParseConversationStatus(s: string): (r: Option<ConversationStatus>)
    ensures r.Some? ==> ConversationStatusName(r.value) == s
    ensures forall x :: ConversationStatusName(x) == s ==> r == Some(x)
  {
    if s == "bot" then Some(Bot)
    else if s == "escalade" then Some(Escalade)
    else if s == "resolu" then Some(Resolu)
    else if s == "ferme" then Some(Ferme)
    else None
  }

  lemma ConversationStatusRoundTrip(x: ConversationStatus)
    ensures ParseConversationStatus(ConversationStatusName(x)) == Some(x)
  {
  }

  /** The string each escalation reason is stored as. */
  function EscalationReasonName(r: EscalationReason): string {
    match r
    case Remise => "remise"
    case Livraison => "livraison"
    case ProblemeProduit => "probleme_produit"
    case Complexe => "complexe"
    case Other => "autre"
  }

  function ParseEscalationReason(s: string): (r: Option<EscalationReason>)
    ensures r.Some? ==> EscalationReasonName(r.value) == s
    ensures forall x :: EscalationReasonName(x) == s ==> r == Some(x)
  {
    if s == "remise" then Some(Remise)
    else if s == "livraison" then Some(Livraison)
    else if s == "probleme_produit" then Some(ProblemeProduit)
    else if s == "complexe" then Some(Complexe)
    else if s == "autre" then Some(Other)
    else None
  }

  lemma EscalationReasonRoundTrip(x: EscalationReason)
    ensures ParseEscalationReason(EscalationReasonName(x)) == Some(x)
  {
  }

  /** The string each product status is stored as. */
  function ProductStatusName(s: ProductStatus): string {
    match s
    case Available => "available"
    case OutOfStock => "out_of_stock"
    case Discontinued => "discontinued"
  }

  function ParseProductStatus(s: string): (r: Option<ProductStatus>)
    ensures r.Some? ==> ProductStatusName(r.value) == s
    ensures forall x :: ProductStatusName(x) == s ==> r == Some(x)
  {
    if s == "available" then Some(Available)
    else if s == "out_of_stock" then Some(OutOfStock)
    else if s == "discontinued" then Some(Discontinued)
    else None
  }

  lemma ProductStatusRoundTrip(x: ProductStatus)
    ensures ParseProductStatus(ProductStatusName(x)) == Some(x)
  {
  }

  /** The string each payment method is stored as. */
  function PaymentMethodName(m: PaymentMethod): string {
    match m
    case OrangeMoney => "orange_money"
    case MtnMoney => "mtn_money"
    case Cash => "cash"
  }

  function ParsePaymentMethod(s: string): (r: Option<PaymentMethod>)
    ensures r.Some? ==> PaymentMethodName(r.value) == s
    ensures forall x :: PaymentMethodName(x) == s ==> r == Some(x)
  {
    if s == "orange_money" then Some(OrangeMoney)
    else if s == "mtn_money" then Some(MtnMoney)
    else if s == "cash" then Some(Cash)
    else None
  }

  lemma PaymentMethodRoundTrip(x: PaymentMethod)
    ensures ParsePaymentMethod(PaymentMethodName(x)) == Some(x)
  {
  }

  // ---------------------------------------------------------------- records

  datatype Boutique = Boutique(
    nom_boutique: string,
    nom_vendeuse: string,
    prenom_vendeuse: string,
    numero_whatsapp: string,
    email: Option<string>,
    adresse: Option<string>,
    numero_depot: Option<string>,
    created_by: Id,
    status: BoutiqueStatus,
    created_at: Time,
    total_produits: int,
    total_ventes: int,
    chiffre_affaires: int)

  datatype Product = Product(
    boutique_id: Id,
    nom: string,
    description: Option<string>,
    category: ProductCategory,
    category_custom: Option<string>,
    prix_affichage: int,
    prix_min: int,
    stock_quantity: int,
    images: seq<string>,
    status: ProductStatus,
    created_at: Time,
    total_ventes: int,
    total_demandes: int)

  datatype Client = Client(
    numero_whatsapp: string,
    nom: Option<string>,
    created_at: Time,
    total_commandes: int,
    total_achats: int)

  datatype ClientBoutique = ClientBoutique(
    client_id: Id,
    boutique_id: Id,
    nom_client: Option<string>,
    historique_achats: int,
    dernier_achat: Option<Time>,
    created_at: Time)

  /** `messages_count` starts as the number 0, and every message written to the
      conversation overwrites it with a server timestamp. */
  datatype MessageCount = Counter(n: int) | Stamped(t: Time)

  datatype Conversation = Conversation(
    client_boutique_id: Id,
    status: ConversationStatus,
    escalation_reason: Option<EscalationReason>,
    notes_escalation: Option<string>,
    escalated_at: Option<Time>,
    resolution_notes: Option<string>,
    resolved_at: Option<Time>,
    closed_at: Option<Time>,
    derniere_activite: Time,
    messages_count: MessageCount,
    traite_par_bot: bool,
    created_at: Time)

  datatype Sender = FromClient | FromBot | FromVendeuse | FromSystem

  datatype MessageKind = TextKind | ImageKind | AudioKind | SystemKind

  /** The system notices the order workflow posts into a conversation; their
      display text is left out. */
  datatype Notice =
    | OrderCreated(items: nat, amount: int)
    | PaymentClaimed(reference: Option<string>)
    | PaymentNotReceived(reason: Option<string>)
    | PaymentConfirmed(orderPrefix: string)
    | Shipped(plannedDelivery: Option<Time>)
    | Delivered
    | ProblemReported(description: string)
    | Cancelled(reason: Option<string>)

  datatype Content = Text(text: string) | SystemNotice(notice: Notice)

  datatype Message = Message(
    conversation_id: Id,
    sender: Sender,
    content: Content,
    kind: MessageKind,
    bot_processed: bool,
    commande_id: Option<Id>,
    timestamp: Time)

  datatype CommandeProduit = CommandeProduit(
    product_id: Id,
    nom_produit: string,
    prix_unitaire: int,
    quantite: int,
    total: int)

  datatype Commande = Commande(
    client_boutique_id: Id,
    boutique_id: Id,
    conversation_id: Option<Id>,
    produits: seq<CommandeProduit>,
    total_amount: int,
    reduction: Option<int>,
    final_amount: int,
    payment_method: Option<PaymentMethod>,
    reference_paiement: Option<string>,
    client_provided_ref: Option<string>,
    payment_validation_requested: bool,
    client_payment_message: Option<string>,
    validation_requested_at: Option<Time>,
    payment_rejected: bool,
    payment_rejection_reason: Option<string>,
    rejected_by: Option<Id>,
    rejected_at: Option<Time>,
    status: CommandeStatus,
    notes_vendeuse: Option<string>,
    probleme_description: Option<string>,
    adresse_livraison: Option<string>,
    date_livraison_prevue: Option<Time>,
    date_livraison_reelle: Option<Time>,
    created_at: Time,
    validated_at: Option<Time>,
    validated_by: Option<Id>)
}
