/** The new-product form of the seller zone
    (src/app/dashboard/produits/nouveau/page.tsx): the checks run on submit
    and the price check run as a price is typed. Prices and the stock come
    from `parseInt(...) || 0`, so they are integers. */
module ProductForm {
  import opened Types
  import opened JsText

  /** The fields of the form the checks read or the inputs edit. */
  datatype ProductFormData = ProductFormData(
    nom: string,
    description: string,
    category: ProductCategory,
    category_custom: Option<string>,
    prix_affichage: int,
    prix_min: int,
    stock_quantity: int)

  datatype ProductField = Nom | Description | Category | CategoryCustom | PrixAffichage | PrixMin | StockQuantity

  /** Which message a field shows; the wording itself is display text.
      `NoMessage` is the empty string a cleared error is set to. */
  datatype Message =
    | NomRequired | PrixAffichageNotPositive | PrixMinNotPositive | PrixMinAbovePrixAffichage
    | StockNegative | CategoryUnspecified | NoMessage

  // ---------------------------------------------------------------- submit

  /** The message `validateForm` records for one field, if any. The second
      `prix_min` check runs after the first and overwrites its message. */
  function FieldMessage(f: ProductFormData, field: ProductField): (m: Option<Message>)
    ensures m.Some? ==> m.value != NoMessage
    ensures field == Description || field == Category ==> m.None?
  {
    match field
    case Nom => if IsBlank(f.nom) then Some(NomRequired) else None
    case PrixAffichage => if f.prix_affichage <= 0 then Some(PrixAffichageNotPositive) else None
    case PrixMin =>
      if f.prix_min > f.prix_affichage then Some(PrixMinAbovePrixAffichage)
      else if f.prix_min <= 0 then Some(PrixMinNotPositive)
      else None
    case StockQuantity => if f.stock_quantity < 0 then Some(StockNegative) else None
    case CategoryCustom =>
      if f.category == Autre && (f.category_custom.None? || IsBlank(f.category_custom.value))
      then Some(CategoryUnspecified) else None
    case Description => None
    case Category => None
  }

  const AllFields: set<ProductField> := {Nom, Description, Category, CategoryCustom, PrixAffichage, PrixMin, StockQuantity}

  /** `validateForm`: the messages recorded, by field. */
  function ValidateProduct(f: ProductFormData): (errors: map<ProductField, Message>)
    ensures forall k :: k in errors <==> FieldMessage(f, k).Some?
    ensures forall k :: k in errors ==> errors[k] == FieldMessage(f, k).value
  {
    map k | k in AllFields && FieldMessage(f, k).Some? :: FieldMessage(f, k).value
  }

  /** The value `validateForm` returns: no error key was recorded. */
  predicate ProductFormValid(f: ProductFormData) {
    ValidateProduct(f).Keys == {}
  }

  /** The form is accepted exactly when the name is not blank, both prices
      are positive with the minimum at most the display price, the stock is
      not negative, and the category "Autre" comes with a non-blank name. */
  lemma ProductFormValidIff(f: ProductFormData)
    ensures ProductFormValid(f) <==>
      && !IsBlank(f.nom)
      && 0 < f.prix_min <= f.prix_affichage
      && f.stock_quantity >= 0
      && (f.category == Autre ==> f.category_custom.Some? && !IsBlank(f.category_custom.value))
  {
    var errors := ValidateProduct(f);
    if errors.Keys != {} {
      var k :| k in errors;
      assert FieldMessage(f, k).Some?;
    }
    if && FieldMessage(f, Nom).None? && FieldMessage(f, PrixAffichage).None?
       && FieldMessage(f, PrixMin).None? && FieldMessage(f, StockQuantity).None?
       && FieldMessage(f, CategoryCustom).None?
    {
      forall k ensures FieldMessage(f, k).None? {
      }
      assert errors.Keys == {};
    } else {
      assert exists k :: k in errors;
    }
  }

  /** A minimum price above the display price is reported as such even when
      it is also not positive: the second message replaces the first. */
  lemma AboveReplacesNotPositive(f: ProductFormData)
    requires f.prix_min <= 0 && f.prix_min > f.prix_affichage
    ensures ValidateProduct(f)[PrixMin] == PrixMinAbovePrixAffichage
    ensures PrixAffichage in ValidateProduct(f)
  {
  }

  // ---------------------------------------------------------------- typing

  datatype ProductFormState = ProductFormState(data: ProductFormData, errors: map<ProductField, Message>)

  /** One `handleInputChange(field, value)` call, with the value's type fixed
      by the field. */
  datatype ProductEdit =
    | EditNom(nom: string)
    | EditDescription(description: string)
    | EditCategory(category: ProductCategory)
    | EditCategoryCustom(custom: string)
    | EditPrixAffichage(prix_affichage: int)
    | EditPrixMin(prix_min: int)
    | EditStock(stock: int)

  function FieldOf(e: ProductEdit): ProductField {
    match e
    case EditNom(_) => Nom
    case EditDescription(_) => Description
    case EditCategory(_) => Category
    case EditCategoryCustom(_) => CategoryCustom
    case EditPrixAffichage(_) => PrixAffichage
    case EditPrixMin(_) => PrixMin
    case EditStock(_) => StockQuantity
  }

  /** `{ ...prev, [field]: value }`. */
  function Applied(d: ProductFormData, e: ProductEdit): ProductFormData {
    match e
    case EditNom(v) => d.(nom := v)
    case EditDescription(v) => d.(description := v)
    case EditCategory(v) => d.(category := v)
    case EditCategoryCustom(v) => d.(category_custom := Some(v))
    case EditPrixAffichage(v) => d.(prix_affichage := v)
    case EditPrixMin(v) => d.(prix_min := v)
    case EditStock(v) => d.(stock_quantity := v)
  }

  predicate IsPriceEdit(e: ProductEdit) {
    e.EditPrixAffichage? || e.EditPrixMin?
  }

  /** `errors[field]` is truthy: recorded with a non-empty message. */
  predicate Shown(errors: map<ProductField, Message>, field: ProductField) {
    field in errors && errors[field] != NoMessage
  }

  /** `handleInputChange(field, value)`: store the value, clear the field's
      message if one is shown, and after a price edit flag or remove the
      `prix_min` message by comparing the two prices. */
  function ChangeProductField(st: ProductFormState, e: ProductEdit): (r: ProductFormState)
    ensures r.data == Applied(st.data, e)
    ensures !IsPriceEdit(e) ==> r.errors.Keys == st.errors.Keys && !Shown(r.errors, FieldOf(e))
    ensures IsPriceEdit(e) ==>
      (PrixMin in r.errors <==> r.data.prix_min > r.data.prix_affichage > 0)
    ensures IsPriceEdit(e) && PrixMin in r.errors ==> r.errors[PrixMin] == PrixMinAbovePrixAffichage
    ensures IsPriceEdit(e) ==> FieldOf(e) !in r.errors || r.errors[FieldOf(e)] == NoMessage || FieldOf(e) == PrixMin
    ensures forall g :: g != FieldOf(e) && g != PrixMin && g in st.errors ==> g in r.errors && r.errors[g] == st.errors[g]
    ensures forall g :: g != PrixMin && g in r.errors ==> g in st.errors
    ensures !IsPriceEdit(e) && PrixMin in st.errors ==>
      PrixMin in r.errors && r.errors[PrixMin] == st.errors[PrixMin]
  {
    var data := Applied(st.data, e);
    var field := FieldOf(e);
    var cleared := if Shown(st.errors, field) then st.errors[field := NoMessage] else st.errors;
    if IsPriceEdit(e) then
      if data.prix_min > data.prix_affichage && data.prix_affichage > 0 then
        ProductFormState(data, cleared[PrixMin := PrixMinAbovePrixAffichage])
      else
        ProductFormState(data, cleared - {PrixMin})
    else
      ProductFormState(data, cleared)
  }

  /** After a price edit, the live check shows a `prix_min` message exactly
      when submitting would report the minimum as above a positive display
      price; it never shows the "not positive" message. */
  lemma LiveCheckAgreesWithSubmit(st: ProductFormState, e: ProductEdit)
    requires IsPriceEdit(e)
    ensures var r := ChangeProductField(st, e);
      PrixMin in r.errors <==>
        (PrixMin in ValidateProduct(r.data)
         && ValidateProduct(r.data)[PrixMin] == PrixMinAbovePrixAffichage
         && r.data.prix_affichage > 0)
  {
  }

  /** The live check is weaker than the submit check: a minimum price that
      is not positive, or one above a display price that is not, passes
      while typing and is only reported on submit. */
  lemma LiveCheckMissesNonPositive(st: ProductFormState, e: ProductEdit)
    requires IsPriceEdit(e)
    requires var d := Applied(st.data, e); d.prix_min <= 0 || d.prix_affichage <= 0
    ensures var r := ChangeProductField(st, e);
      PrixMin !in r.errors && !ProductFormValid(r.data)
  {
    var r := ChangeProductField(st, e);
    ProductFormValidIff(r.data);
  }
}
