/** The product document: its per-size inventory, the schema's validators and
    defaults, the save hook that fills an empty description, and the query hook
    that hides products whose isShow flag is false. */
module ProductModel {
  import opened Common

  type ProductId = string

  /** One entry of a product's inventory: the stock and the sold count of one size. */
  datatype InventoryEntry = InventoryEntry(size: string, stock: int, soldAmount: int)

  /** A stored product. Reference fields (the category) are ids as strings. */
  datatype Product = Product(
    id: ProductId,
    name: string,
    sku: string,
    description: string,
    price: int,
    discount: int,
    color: string,
    inventory: seq<InventoryEntry>,
    coverImage: string,
    parentCategory: string,
    isShow: bool,
    category: string)

  /** The values the parent category may take, and its default, which is not
      one of them. */
  const ParentCategories: set<string> := {"pants", "shirts", "none"}
  const DefaultParentCategory: string := "Khác"

  /** The default description, used when none is given. */
  const DefaultDescription: string := "Sản phẩm chưa có mô tả"

  /** The notice that the save hook puts in place of an empty description. */
  const EmptyDescriptionNotice: string :=
    "Do màn hình và điều kiện ánh sáng khác nhau, màu sắc thực tế của sản phẩm có thể chênh lệch khoảng 3-5%"

  predicate ValidEntry(e: InventoryEntry) {
    e.size != "" && e.stock >= 0 && e.soldAmount >= 0
  }

  predicate ValidInventory(inv: seq<InventoryEntry>) {
    forall i :: 0 <= i < |inv| ==> ValidEntry(inv[i])
  }

  /** The discount is a percentage between 0 and 90. */
  predicate ValidDiscount(d: int) {
    0 <= d <= 90
  }

  predicate IsLowerAscii(c: char) {
    'a' <= c <= 'z'
  }

  /** No character of s is a lower-case letter. */
  predicate IsUpperCase(s: string) {
    forall i :: 0 <= i < |s| ==> !IsLowerAscii(s[i])
  }

  /** The schema-level validity of a stored product. */
  predicate ValidProduct(p: Product) {
    p.name != "" && p.sku != "" && IsUpperCase(p.sku) && p.description != "" &&
    ValidDiscount(p.discount) && p.color != "" && ValidInventory(p.inventory) &&
    p.coverImage != "" && p.parentCategory in ParentCategories && p.category != ""
  }

  /** The sku is unique among the stored products. */
  predicate UniqueSkus(products: map<ProductId, Product>) {
    forall a, b :: a in products && b in products && products[a].sku == products[b].sku ==> a == b
  }

  function UpperChar(c: char): (r: char)
    ensures !IsLowerAscii(r)
    ensures !IsLowerAscii(c) ==> r == c
  {
    if IsLowerAscii(c) then (c as int - 32) as char else c
  }

  /** The `uppercase: true` setter of the sku path (ASCII letters only). */
  function ToUpper(s: string): (r: string)
    ensures |r| == |s|
    ensures IsUpperCase(r)
    ensures forall i :: 0 <= i < |s| ==> r[i] == UpperChar(s[i])
  {
    if s == [] then [] else [UpperChar(s[0])] + ToUpper(s[1..])
  }

  lemma {:induction false} ToUpperIdempotent(s: string)
    ensures ToUpper(ToUpper(s)) == ToUpper(s)
  {
    assert forall i :: 0 <= i < |s| ==> UpperChar(UpperChar(s[i])) == UpperChar(s[i]);
  }

  /** An inventory entry as a request gives it: stock and soldAmount may be missing. */
  datatype EntryRequest = EntryRequest(size: string, stock: Option<int>, soldAmount: Option<int>)

  /** A product as a create request gives it; a missing required string is "". */
  datatype ProductRequest = ProductRequest(
    name: string,
    sku: string,
    description: Option<string>,
    price: Option<int>,
    discount: Option<int>,
    color: string,
    inventory: seq<EntryRequest>,
    coverImage: string,
    parentCategory: Option<string>,
    isShow: Option<bool>,
    category: string)

  datatype ProductError = InvalidProduct | DuplicateSku

  /** Defaults of an inventory entry: stock and soldAmount are 0 when missing. */
  function EntryWithDefaults(e: EntryRequest): InventoryEntry {
    InventoryEntry(e.size, e.stock.GetOr(0), e.soldAmount.GetOr(0))
  }

  function EntriesWithDefaults(es: seq<EntryRequest>): (r: seq<InventoryEntry>)
    ensures |r| == |es|
    ensures forall i :: 0 <= i < |es| ==> r[i] == EntryWithDefaults(es[i])
  {
    seq(|es|, i requires 0 <= i < |es| => EntryWithDefaults(es[i]))
  }

  /** The pre-save hook on the description: an empty description becomes the notice. */
  function DescriptionHook(d: string): (r: string)
    ensures r != ""
    ensures d != "" ==> r == d
    ensures d == "" ==> r == EmptyDescriptionNotice
  {
    if d == "" then EmptyDescriptionNotice else d
  }

  /** Saving a new product: defaults are applied, the sku is upper-cased, the
      validators run, and only then the pre-save hooks (the slug hook is not
      modelled). */
  function SaveProduct(id: ProductId, req: ProductRequest): (r: Result<Product, ProductError>)
    ensures r.Ok? ==> ValidProduct(r.value) && r.value.id == id
    ensures r.Ok? <==>
      req.name != "" && req.sku != "" && req.price.Some? &&
      req.description.GetOr(DefaultDescription) != "" &&
      ValidDiscount(req.discount.GetOr(0)) && req.color != "" &&
      ValidInventory(EntriesWithDefaults(req.inventory)) && req.coverImage != "" &&
      req.parentCategory.GetOr(DefaultParentCategory) in ParentCategories && req.category != ""
    ensures r.Ok? ==> r.value.isShow == req.isShow.GetOr(true)
    ensures r.Ok? ==> r.value.sku == ToUpper(req.sku)
    ensures r.Ok? ==> r.value.inventory == EntriesWithDefaults(req.inventory)
    ensures r.Ok? ==> r.value.discount == req.discount.GetOr(0)
    ensures r.Ok? ==>
      r.value.name == req.name && r.value.price == req.price.value &&
      r.value.description == req.description.GetOr(DefaultDescription) &&
      r.value.color == req.color && r.value.coverImage == req.coverImage &&
      r.value.parentCategory == req.parentCategory.GetOr(DefaultParentCategory) &&
      r.value.category == req.category
  {
    var description := req.description.GetOr(DefaultDescription);
    var inventory := EntriesWithDefaults(req.inventory);
    var discount := req.discount.GetOr(0);
    var parent := req.parentCategory.GetOr(DefaultParentCategory);
    if req.name == "" || req.sku == "" || req.price.None? || description == "" ||
       !ValidDiscount(discount) || req.color == "" || !ValidInventory(inventory) ||
       req.coverImage == "" || parent !in ParentCategories || req.category == ""
    then Err(InvalidProduct)
    else Ok(Product(id, req.name, ToUpper(req.sku), DescriptionHook(description),
                    req.price.value, discount, req.color, inventory, req.coverImage,
                    parent, req.isShow.GetOr(true), req.category))
  }

  /** Because validation runs before the hook, an empty description is rejected
      by the required validator, and the notice is never stored by a save. */
  lemma {:induction false} EmptyDescriptionRejected(id: ProductId, req: ProductRequest)
    requires req.description == Some("")
    ensures SaveProduct(id, req).Err?
  {
  }

  /** A missing description takes the default text. */
  lemma {:induction false} MissingDescriptionDefaults(id: ProductId, req: ProductRequest)
    requires req.description.None?
    requires SaveProduct(id, req).Ok?
    ensures SaveProduct(id, req).value.description == DefaultDescription
  {
  }

  /** The parent category's default is outside its own enumeration, so a
      product created without a parent category fails validation. */
  lemma {:induction false} MissingParentCategoryRejected(id: ProductId, req: ProductRequest)
    requires req.parentCategory.None?
    ensures SaveProduct(id, req).Err?
  {
  }

  /** Storing a saved product: the unique index on sku refuses a sku that
      another product already has. */
  function InsertProduct(products: map<ProductId, Product>, p: Product): (r: Result<map<ProductId, Product>, ProductError>)
    requires p.id !in products
    ensures r.Err? <==> exists other :: other in products && products[other].sku == p.sku
    ensures r.Ok? ==> r.value == products[p.id := p]
  {
    if exists other :: other in products && products[other].sku == p.sku then Err(DuplicateSku)
    else Ok(products[p.id := p])
  }

  /** Every insertion keeps the skus unique. */
  lemma {:induction false} InsertKeepsSkusUnique(products: map<ProductId, Product>, p: Product)
    requires UniqueSkus(products) && p.id !in products
    requires InsertProduct(products, p).Ok?
    ensures UniqueSkus(InsertProduct(products, p).value)
  {
  }

  /** The sku is upper-cased before the index sees it, so two requests whose
      skus differ only in letter case collide. */
  lemma {:induction false} SkuCaseCollides(products: map<ProductId, Product>, id: ProductId, req: ProductRequest, other: ProductId)
    requires other in products && products[other].sku == ToUpper(req.sku)
    requires id !in products && SaveProduct(id, req).Ok?
    ensures InsertProduct(products, SaveProduct(id, req).value) == Err(DuplicateSku)
  {
  }

  /** The query middleware of every find-style query adds `isShow != false`. */
  predicate Visible(p: Product) {
    p.isShow
  }

  /** findById as the query hooks make it: a hidden product is not found. */
  function FindById(products: map<ProductId, Product>, id: ProductId): (r: Option<Product>)
    ensures r.Some? <==> id in products && products[id].isShow
    ensures r.Some? ==> r.value == products[id]
  {
    if id in products && Visible(products[id]) then Some(products[id]) else None
  }
}
