/** The product catalogue and its stock ledger (src/lib/services/productService.ts). */
module Products {
  import opened Types
  import opened JsText
  import opened Seqs
  import opened Store

  // ---------------------------------------------------------------- stock ledger

  /** The status a product takes when its stock becomes `q`: sold out at zero
      (even a discontinued product), back on sale when stock returns to an
      out-of-stock product, unchanged otherwise. */
  function StatusForStock(current: ProductStatus, q: int): (s: ProductStatus)
    ensures q == 0 ==> s == OutOfStock
    ensures q > 0 && current == OutOfStock ==> s == Available
    ensures q != 0 && !(q > 0 && current == OutOfStock) ==> s == current
  {
    if q == 0 then OutOfStock
    else if q > 0 && current == OutOfStock then Available
    else current
  }

  /** `updateStock` on one product: `None` when the new quantity would be
      negative, otherwise the product with its new quantity and status. */
  function AdjustStock(p: Product, change: int): (r: Option<Product>)
    ensures r.None? <==> p.stock_quantity + change < 0
    ensures r.Some? ==> r.value.stock_quantity == p.stock_quantity + change
    ensures r.Some? ==> r.value == p.(stock_quantity := r.value.stock_quantity, status := r.value.status)
    ensures r.Some? && r.value.stock_quantity == 0 ==> r.value.status == OutOfStock
    ensures r.Some? && r.value.stock_quantity > 0 ==>
      r.value.status == (if p.status == OutOfStock then Available else p.status)
  {
    var q := p.stock_quantity + change;
    if q < 0 then None else Some(p.(stock_quantity := q, status := StatusForStock(p.status, q)))
  }

  /** The outcome `updateStock(id, change)` reports. */
  function StockOutcome(ps: map<Id, Product>, id: Id, change: int): ApiResponse<()> {
    if id !in ps then Failure(NotFound)
    else if AdjustStock(ps[id], change).None? then Failure(StockInsufficient)
    else Success(())
  }

  /** The product table after `updateStock(id, change)`: a failed update writes nothing. */
  function StockStep(ps: map<Id, Product>, id: Id, change: int): (r: map<Id, Product>)
    ensures r.Keys == ps.Keys
    ensures forall k :: k in ps && k != id ==> r[k] == ps[k]
    ensures StockOutcome(ps, id, change).Failure? ==> r == ps
    ensures StockOutcome(ps, id, change).Success? ==> r[id].stock_quantity == ps[id].stock_quantity + change
  {
    if id in ps && AdjustStock(ps[id], change).Some? then ps[id := AdjustStock(ps[id], change).value] else ps
  }

  /** `updateStock`: reads the product, refuses a negative result, writes the
      new quantity and the status it implies. */
  method UpdateStock(db: Database, id: Id, change: int) returns (res: ApiResponse<()>)
    modifies db`products
    ensures res == StockOutcome(old(db.products), id, change)
    ensures db.products == StockStep(old(db.products), id, change)
  {
    res := StockOutcome(db.products, id, change);
    db.products := StockStep(db.products, id, change);
  }

  /** Taking `q` units out of a non-negative stock and putting them back
      restores the quantity and every field but the status; the status comes back to `available` when the product
      was on sale with stock left. */
  lemma {:induction false} StockRoundTrip(p: Product, q: int)
    requires p.stock_quantity >= 0 && AdjustStock(p, -q).Some?
    ensures AdjustStock(AdjustStock(p, -q).value, q).Some?
    ensures var r := AdjustStock(AdjustStock(p, -q).value, q).value;
      r == p.(status := r.status)
      && (p.status == Available && p.stock_quantity > 0 ==> r.status == Available)
      && (p.stock_quantity > 0 && p.status == OutOfStock ==> r.status == Available)
  {
    var m := AdjustStock(p, -q).value;
    assert m.stock_quantity + q == p.stock_quantity >= 0;
    var r := AdjustStock(m, q).value;
    assert r.stock_quantity == p.stock_quantity;
    if p.stock_quantity > 0 && p.status != Discontinued {
      assert m.status == Available || m.status == OutOfStock;
    }
  }

  /** Selling a discontinued product down to zero makes it `out_of_stock`, and
      putting the units back then puts it on sale: the round trip does not
      restore `discontinued`. */
  lemma DiscontinuedComesBackAvailable(p: Product)
    requires p.status == Discontinued && p.stock_quantity > 0
    ensures AdjustStock(p, -p.stock_quantity).value.status == OutOfStock
    ensures AdjustStock(AdjustStock(p, -p.stock_quantity).value, p.stock_quantity).value.status == Available
  {
  }

  // ---------------------------------------------------------------- creation

  /** `CreateProductData`: the fields the caller supplies. */
  datatype ProductDraft = ProductDraft(
    boutique_id: Id,
    nom: string,
    description: Option<string>,
    category: ProductCategory,
    category_custom: Option<string>,
    prix_affichage: int,
    prix_min: int,
    stock_quantity: int,
    images: seq<string>)

  /** The stored record of a new product: on sale, with no sales and no requests yet. */
  function NewProduct(d: ProductDraft, t: Time): (p: Product)
    ensures p.status == Available && p.total_ventes == 0 && p.total_demandes == 0
    ensures p.created_at == t && p.boutique_id == d.boutique_id
    ensures p.stock_quantity == d.stock_quantity
  {
    Product(d.boutique_id, d.nom, d.description, d.category, d.category_custom,
            d.prix_affichage, d.prix_min, d.stock_quantity, d.images, Available, t, 0, 0)
  }

  /** The products of boutique `b` in the table. */
  function ProductsOf(ps: map<Id, Product>, b: Id): set<Id> {
    set id | id in ps && ps[id].boutique_id == b
  }

  /** Adding a product of `b` under a fresh id raises the boutique's count by one
      and leaves other boutiques' counts alone. */
  lemma ProductsOfInsert(ps: map<Id, Product>, id: Id, p: Product, b: Id)
    requires id !in ps
    ensures p.boutique_id == b ==> ProductsOf(ps[id := p], b) == ProductsOf(ps, b) + {id}
    ensures p.boutique_id == b ==> |ProductsOf(ps[id := p], b)| == |ProductsOf(ps, b)| + 1
    ensures p.boutique_id != b ==> ProductsOf(ps[id := p], b) == ProductsOf(ps, b)
  {
    if p.boutique_id == b {
      assert ProductsOf(ps[id := p], b) == ProductsOf(ps, b) + {id};
    } else {
      assert ProductsOf(ps[id := p], b) == ProductsOf(ps, b);
    }
  }

  /** `createProduct`: the boutique must exist and be active, the minimum price
      may not exceed the display price; the product is stored on sale and the
      boutique's `total_produits` is overwritten with its number of products. */
  method CreateProduct(db: Database, d: ProductDraft, newId: Id) returns (res: ApiResponse<Product>)
    requires newId !in db.products
    modifies db`products, db`boutiques, db`clock
    ensures var b := d.boutique_id;
      if b !in old(db.boutiques) || old(db.boutiques)[b].status != Active then
        res == Failure(BoutiqueUnavailable) && db.products == old(db.products)
        && db.boutiques == old(db.boutiques) && db.clock == old(db.clock)
      else if d.prix_min > d.prix_affichage then
        res == Failure(PriceRule) && db.products == old(db.products)
        && db.boutiques == old(db.boutiques) && db.clock == old(db.clock)
      else
        && db.clock == old(db.clock) + 1
        && res == Success(NewProduct(d, db.clock))
        && db.products == old(db.products)[newId := NewProduct(d, db.clock)]
        && db.boutiques == old(db.boutiques)[b := old(db.boutiques)[b].(total_produits := |ProductsOf(db.products, b)|)]
  {
    var b := d.boutique_id;
    if b !in db.boutiques || db.boutiques[b].status != Active {
      return Failure(BoutiqueUnavailable);
    }
    if d.prix_min > d.prix_affichage {
      return Failure(PriceRule);
    }
    var t := db.Tick();
    var p := NewProduct(d, t);
    db.products := db.products[newId := p];
    db.boutiques := db.boutiques[b := db.boutiques[b].(total_produits := |ProductsOf(db.products, b)|)];
    res := Success(p);
  }

  // ---------------------------------------------------------------- update

  /** `UpdateProductData`: every field optional. */
  datatype ProductPatch = ProductPatch(
    nom: Option<string>,
    description: Option<string>,
    prix_affichage: Option<int>,
    prix_min: Option<int>,
    stock_quantity: Option<int>,
    status: Option<ProductStatus>,
    images: Option<seq<string>>)

  /** The price rule `updateProduct` enforces: only when both prices are supplied
      and non-zero (JavaScript truthiness) is a minimum above the display price refused. */
  predicate PriceConflict(d: ProductPatch) {
    && d.prix_min.Some? && d.prix_min.value != 0
    && d.prix_affichage.Some? && d.prix_affichage.value != 0
    && d.prix_min.value > d.prix_affichage.value
  }

  /** The status an update stores: derived from a supplied stock when it is zero,
      or positive on an out-of-stock product; otherwise the supplied status, if any. */
  function PatchedStatus(current: ProductStatus, d: ProductPatch): (s: ProductStatus)
    ensures d.stock_quantity == Some(0) ==> s == OutOfStock
    ensures d.stock_quantity.Some? && d.stock_quantity.value > 0 && current == OutOfStock ==> s == Available
    ensures !(d.stock_quantity == Some(0))
            && !(d.stock_quantity.Some? && d.stock_quantity.value > 0 && current == OutOfStock) ==>
            s == (if d.status.Some? then d.status.value else current)
  {
    if d.stock_quantity.Some? && d.stock_quantity.value == 0 then OutOfStock
    else if d.stock_quantity.Some? && d.stock_quantity.value > 0 && current == OutOfStock then Available
    else Overwrite(Some(current), d.status).value
  }

  function ApplyPatch(p: Product, d: ProductPatch): Product {
    p.(nom := Overwrite(Some(p.nom), d.nom).value,
       description := Overwrite(p.description, d.description),
       prix_affichage := Overwrite(Some(p.prix_affichage), d.prix_affichage).value,
       prix_min := Overwrite(Some(p.prix_min), d.prix_min).value,
       stock_quantity := Overwrite(Some(p.stock_quantity), d.stock_quantity).value,
       images := Overwrite(Some(p.images), d.images).value,
       status := PatchedStatus(p.status, d))
  }

  /** An update writes only the supplied fields and the derived status: the owner,
      the category, the creation date and the sales counters never change. */
  lemma ApplyPatchKeeps(p: Product, d: ProductPatch)
    ensures var r := ApplyPatch(p, d);
      && r.boutique_id == p.boutique_id && r.category == p.category
      && r.category_custom == p.category_custom && r.created_at == p.created_at
      && r.total_ventes == p.total_ventes && r.total_demandes == p.total_demandes
      && (d.stock_quantity.None? && d.status.None? ==> r.status == p.status)
      && (d.stock_quantity.Some? ==> r.stock_quantity == d.stock_quantity.value)
  {
  }

  /** `updateProduct` has no stock check: a negative stock is stored as given. */
  lemma UpdateProductAcceptsNegativeStock(p: Product)
    ensures var d := ProductPatch(None, None, None, None, Some(-1), None, None);
      !PriceConflict(d) && ApplyPatch(p, d).stock_quantity == -1
  {
  }

  /** `updateProduct`: the product must exist; the price rule is checked when
      both prices are supplied; the supplied fields are written with the derived status. */
  method UpdateProduct(db: Database, id: Id, d: ProductPatch) returns (res: ApiResponse<Product>)
    modifies db`products
    ensures id !in old(db.products) ==> res == Failure(NotFound) && db.products == old(db.products)
    ensures id in old(db.products) && PriceConflict(d) ==>
      res == Failure(PriceRule) && db.products == old(db.products)
    ensures id in old(db.products) && !PriceConflict(d) ==>
      && db.products == old(db.products)[id := ApplyPatch(old(db.products)[id], d)]
      && res == Success(db.products[id])
  {
    if id !in db.products {
      return Failure(NotFound);
    }
    if PriceConflict(d) {
      return Failure(PriceRule);
    }
    db.products := db.products[id := ApplyPatch(db.products[id], d)];
    res := Success(db.products[id]);
  }

  /** The product table after `updateProductStats`: both counters grow by
      their delta, nothing else changes; a missing product changes nothing. */
  function ProductStatsAdded(ps: map<Id, Product>, id: Id, ventes: int, demandes: int): (r: map<Id, Product>)
    ensures r.Keys == ps.Keys
    ensures forall k | k in ps && k != id :: r[k] == ps[k]
    ensures id in ps ==> r[id].total_ventes - ps[id].total_ventes == ventes
    ensures id in ps ==> r[id].total_demandes - ps[id].total_demandes == demandes
    ensures id in ps ==> r[id].(total_ventes := 0, total_demandes := 0) == ps[id].(total_ventes := 0, total_demandes := 0)
  {
    if id !in ps then ps
    else
      var p := ps[id];
      ps[id := p.(total_ventes := p.total_ventes + ventes, total_demandes := p.total_demandes + demandes)]
  }

  /** Increments accumulate: two updates are one update by the sums of the deltas. */
  lemma ProductStatsAccumulate(ps: map<Id, Product>, id: Id, v1: int, d1: int, v2: int, d2: int)
    ensures ProductStatsAdded(ProductStatsAdded(ps, id, v1, d1), id, v2, d2)
         == ProductStatsAdded(ps, id, v1 + v2, d1 + d2)
  {
  }

  /** `updateProductStats`: adds the supplied deltas; a missing product makes
      the write fail. */
  method UpdateProductStats(db: Database, id: Id, ventes: Option<int>, demandes: Option<int>)
    returns (res: ApiResponse<()>)
    modifies db`products
    ensures res == if id in old(db.products) then Success(()) else Failure(NotFound)
    ensures db.products == ProductStatsAdded(old(db.products), id, OrZero(ventes), OrZero(demandes))
  {
    if id !in db.products {
      return Failure(NotFound);
    }
    db.products := ProductStatsAdded(db.products, id, OrZero(ventes), OrZero(demandes));
    res := Success(());
  }

  // ---------------------------------------------------------------- queries

  predicate OnSale(p: Product) {
    p.status == Available && p.stock_quantity > 0
  }

  /** Counted as sold out by the statistics: exactly zero in stock. */
  predicate SoldOut(p: Product) {
    p.stock_quantity == 0
  }

  function Ventes(p: Product): int { p.total_ventes }
  function Demandes(p: Product): int { p.total_demandes }
  function StockValue(p: Product): int { p.prix_affichage * p.stock_quantity }

  /** The `reduce` choice of a best product by `f`, kept only when its value is truthy. */
  function BestBy(ps: seq<Product>, f: Product -> int): (r: Option<Product>)
    ensures r.Some? ==>
      exists k :: 0 <= k < |ps| && ps[k] == r.value
        && (forall j :: 0 <= j < |ps| ==> f(ps[j]) <= f(r.value))
        && (forall j :: 0 <= j < k ==> f(ps[j]) < f(r.value))
    ensures r.Some? ==> f(r.value) != 0
    ensures r.None? && ps != [] ==>
      exists k :: 0 <= k < |ps| && f(ps[k]) == 0 && forall j :: 0 <= j < |ps| ==> f(ps[j]) <= 0
  {
    if ps == [] then None
    else
      var k := FirstMaxIndex(ps, f);
      if f(ps[k]) != 0 then Some(ps[k]) else None
  }

  datatype ProductStats = ProductStats(
    total_produits: nat,
    produits_disponibles: nat,
    produits_rupture: nat,
    valeur_stock_total: int,
    produit_plus_vendu: Option<Product>,
    produit_plus_demande: Option<Product>)

  /** `getBoutiqueProductStats` over the boutique's products as listed. */
  function BoutiqueProductStats(ps: seq<Product>): (r: ProductStats)
    ensures r.total_produits == |ps|
    ensures r.produits_disponibles + r.produits_rupture <= r.total_produits
    ensures r.valeur_stock_total == Sum(ps, StockValue)
    ensures r.produits_disponibles == Count(ps, OnSale)
    ensures r.produits_rupture == Count(ps, SoldOut)
    ensures r.produit_plus_vendu == BestBy(ps, Ventes)
    ensures r.produit_plus_demande == BestBy(ps, Demandes)
  {
    CountDisjoint(ps, OnSale, SoldOut);
    ProductStats(
      |ps|,
      Count(ps, OnSale),
      Count(ps, SoldOut),
      Sum(ps, StockValue),
      BestBy(ps, Ventes),
      BestBy(ps, Demandes))
  }

  /** With no negative price and no negative stock, the stock is worth at least nothing. */
  lemma StockValueNonNegative(ps: seq<Product>)
    requires forall i :: 0 <= i < |ps| ==> ps[i].prix_affichage >= 0 && ps[i].stock_quantity >= 0
    ensures BoutiqueProductStats(ps).valeur_stock_total >= 0
  {
    SumNonNegative(ps, StockValue);
  }

  /** Every product is either offered or not: the two counts add up to the total. */
  lemma OfferedPlusUnavailable(ps: seq<Product>)
    ensures BoutiqueProductStats(ps).produits_disponibles + Count(ps, (p: Product) => !OnSale(p)) == |ps|
  {
    CountComplement(ps, OnSale, (p: Product) => !OnSale(p));
  }

  /** `p` is offered to the bot for boutique `b`: the query of `getAvailableProducts`. */
  predicate OfferedBy(p: Product, b: Id) {
    p.boutique_id == b && OnSale(p)
  }

  /** A lower-cased search term matches the name, the category label or a
      non-empty description, each lower-cased. */
  predicate Matches(p: Product, lowered: string) {
    || Contains(Lower(p.nom), lowered)
    || Contains(Lower(CategoryLabel(p.category)), lowered)
    || (Truthy(p.description) && Contains(Lower(p.description.value), lowered))
  }

  /** `searchProducts(b, term)` over the listed products. */
  function SearchProducts(ps: seq<Product>, b: Id, term: string): (r: seq<Product>)
    ensures forall i :: 0 <= i < |r| ==> OfferedBy(r[i], b) && Matches(r[i], Lower(term))
    ensures forall p :: p in ps && OfferedBy(p, b) && Matches(p, Lower(term)) ==> p in r
    ensures multiset(r) <= multiset(ps)
  {
    Filter(ps, (p: Product) => OfferedBy(p, b) && Matches(p, Lower(term)))
  }

  /** The search ignores the case of the term. */
  lemma SearchIgnoresCase(ps: seq<Product>, b: Id, term: string)
    ensures SearchProducts(ps, b, term) == SearchProducts(ps, b, Lower(term))
  {
    LowerIdempotent(term);
  }
}
