/** The `Product` document: field constraints, defaults, sku uniqueness and
    the unchecked `$inc` stock update. */
module ProductModel {
  import opened Wrappers
  import opened Text

  datatype Variant = Variant(name: string, value: string, price: Option<int>, stock: int, sku: Option<string>)

  datatype Product = Product(
    title: string,
    description: string,
    price: int,
    images: seq<string>,
    variants: seq<Variant>,
    stock: int,
    sku: string,
    isActive: bool)

  /** A variant as supplied, before defaults are applied. */
  datatype VariantInput = VariantInput(name: string, value: string, price: Option<int>, stock: Option<int>, sku: Option<string>)

  /** A product as supplied: `stock` and `isActive` may be left out. */
  datatype ProductInput = ProductInput(
    title: string,
    description: string,
    price: int,
    images: seq<string>,
    variants: seq<VariantInput>,
    stock: Option<int>,
    sku: string,
    isActive: Option<bool>)

  /** Name and value required (non-empty), price optional and not negative,
      stock not negative. */
  predicate VariantOk(v: Variant) {
    v.name != "" && v.value != "" && (v.price.Some? ==> v.price.value >= 0) && v.stock >= 0
  }

  /** Every constraint of the schema except the stock minimum, which `$inc`
      does not check. */
  predicate ProductFieldsOk(p: Product) {
    && p.title != "" && p.description != ""
    && p.price >= 0
    && (forall i :: 0 <= i < |p.images| ==> p.images[i] != "")
    && (forall i :: 0 <= i < |p.variants| ==> VariantOk(p.variants[i]))
    && p.sku != ""
  }

  predicate ProductOk(p: Product) {
    ProductFieldsOk(p) && p.stock >= 0
  }

  function CastVariant(v: VariantInput): (r: Variant)
    ensures r.name == v.name && r.value == v.value && r.price == v.price && r.sku == v.sku
    ensures r.stock == (if v.stock.Some? then v.stock.value else 0)
  {
    Variant(v.name, v.value, v.price, match v.stock case Some(n) => n case None => 0, v.sku)
  }

  /** Title and description are trimmed; stock defaults to 0 and isActive to true. */
  function Cast(p: ProductInput): (r: Product)
    ensures r.title == Trim(p.title) && r.description == Trim(p.description)
    ensures r.price == p.price && r.images == p.images && r.sku == p.sku
    ensures |r.variants| == |p.variants| && forall i :: 0 <= i < |p.variants| ==> r.variants[i] == CastVariant(p.variants[i])
    ensures r.stock == (if p.stock.Some? then p.stock.value else 0)
    ensures r.isActive == (p.isActive != Some(false))
  {
    Product(Trim(p.title), Trim(p.description), p.price, p.images,
      seq(|p.variants|, i requires 0 <= i < |p.variants| => CastVariant(p.variants[i])),
      match p.stock case Some(n) => n case None => 0, p.sku,
      match p.isActive case Some(b) => b case None => true)
  }

  /** No two stored products share a sku. */
  predicate SkusUnique(products: map<string, Product>) {
    forall a, b :: a in products && b in products && a != b ==> products[a].sku != products[b].sku
  }

  /** Saving a new product under a fresh id: validation, then the unique sku index. */
  function Insert(products: map<string, Product>, id: string, p: ProductInput): (r: Result<map<string, Product>, Error>)
    requires id !in products
    ensures r.Ok? <==> ProductOk(Cast(p)) && forall k :: k in products ==> products[k].sku != p.sku
    ensures r.Ok? ==> r.value == products[id := Cast(p)]
  {
    var q := Cast(p);
    if !ProductOk(q) then Err(Invalid("Product validation failed"))
    else if exists k :: k in products && products[k].sku == q.sku then Err(Invalid("duplicate key: sku"))
    else Ok(products[id := q])
  }

  /** Inserting keeps skus unique and every stored product valid. */
  lemma InsertKeepsInvariant(products: map<string, Product>, id: string, p: ProductInput)
    requires id !in products
    requires SkusUnique(products) && forall k :: k in products ==> ProductOk(products[k])
    requires Insert(products, id, p).Ok?
    ensures SkusUnique(Insert(products, id, p).value)
    ensures forall k :: k in Insert(products, id, p).value ==> ProductOk(Insert(products, id, p).value[k])
  {
  }

  /** `findByIdAndUpdate(id, {$inc: {stock: delta}})`: runs no validators and
      does nothing when the id is unknown. */
  function IncStock(products: map<string, Product>, id: string, delta: int): (r: map<string, Product>)
    ensures r.Keys == products.Keys
    ensures id in products ==> r[id] == products[id].(stock := products[id].stock + delta)
    ensures forall k :: k in products && k != id ==> r[k] == products[k]
  {
    if id in products then products[id := products[id].(stock := products[id].stock + delta)] else products
  }

  /** The update can take a valid product's stock below zero. */
  lemma IncStockIgnoresBound(products: map<string, Product>, id: string, delta: int)
    requires id in products && ProductOk(products[id]) && products[id].stock + delta < 0
    ensures !ProductOk(IncStock(products, id, delta)[id])
  {
  }
}
