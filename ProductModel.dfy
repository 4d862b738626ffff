/** The product schema: its defaults, its validation, the `pre("save")`
    hook that derives `status` from `quantity` and `lowStockThreshold`, and
    the two ways a product document is produced from a request body
    (`new Product(body)` on create, `Object.assign(product, body)` on update). */
module ProductModel {
  import opened Seqs
  import opened Entities

  const DefaultQuantity: int := 0
  const DefaultLowStockThreshold: int := 10
  const DefaultStatus: Status := InStock

  /** The three-way classification the save hook assigns to `status`. */
  function DeriveStatus(quantity: int, lowStockThreshold: int): Status
  {
    if quantity <= 0 then OutOfStock
    else if quantity <= lowStockThreshold then LowStock
    else InStock
  }

  /** A document after the save hook has run. */
  function Saved(p: Product): Product
  {
    p.(status := DeriveStatus(p.quantity, p.lowStockThreshold))
  }

  /** The status a stored product carries agrees with its quantity and
      threshold. */
  predicate StatusConsistent(p: Product)
  {
    p.status == DeriveStatus(p.quantity, p.lowStockThreshold)
  }

  /** What schema validation guarantees of every stored product, together
      with the hook's derived status. */
  predicate Persistable(p: Product)
  {
    p.name != "" && p.sku != "" && StatusConsistent(p)
  }

  /** Each status in terms of quantity and threshold; the three cases are
      exhaustive and exclusive, and In Stock needs a positive quantity as well
      as one above the threshold. */
  lemma DeriveStatusCases(quantity: int, lowStockThreshold: int)
    ensures DeriveStatus(quantity, lowStockThreshold) == OutOfStock <==> quantity <= 0
    ensures DeriveStatus(quantity, lowStockThreshold) == LowStock <==> 0 < quantity <= lowStockThreshold
    ensures DeriveStatus(quantity, lowStockThreshold) == InStock <==> 0 < quantity && lowStockThreshold < quantity
  {
  }

  /** The boundary is inclusive: a quantity equal to a positive threshold is Low Stock. */
  lemma ThresholdIsLowStock(lowStockThreshold: int)
    requires lowStockThreshold > 0
    ensures DeriveStatus(lowStockThreshold, lowStockThreshold) == LowStock
  {
  }

  /** Out of Stock < Low Stock < In Stock. */
  function Rank(s: Status): nat
  {
    match s
    case OutOfStock => 0
    case LowStock => 1
    case InStock => 2
  }

  /** For a fixed threshold, more stock never gives a worse status. */
  lemma DeriveStatusMonotone(q1: int, q2: int, lowStockThreshold: int)
    requires q1 <= q2
    ensures Rank(DeriveStatus(q1, lowStockThreshold)) <= Rank(DeriveStatus(q2, lowStockThreshold))
  {
  }

  /** Saving leaves a consistent status, ignores whatever status the document
      carried, changes no other field, and saving again changes nothing. */
  lemma SavedSpec(p: Product, s: Status)
    ensures StatusConsistent(Saved(p))
    ensures Saved(p.(status := s)) == Saved(p)
    ensures Saved(p).(status := p.status) == p
    ensures Saved(Saved(p)) == Saved(p)
  {
  }

  /** A request body: each schema path either given or absent. `status` is
      the raw string, since the enum validator sees the caller's value. */
  datatype ProductBody = ProductBody(
    name: Option<string>,
    sku: Option<string>,
    category: Option<nat>,
    supplier: Option<nat>,
    quantity: Option<int>,
    price: Option<int>,
    lowStockThreshold: Option<int>,
    status: Option<string>)

  /** A body that carries a quantity and nothing else. */
  function QuantityOnly(q: int): ProductBody
  {
    ProductBody(None, None, None, None, Some(q), None, None, None)
  }

  /** A required string path: present and non-empty. */
  predicate Given(s: Option<string>)
  {
    s.Some? && s.value != ""
  }

  /** The enum validator accepts an absent status or one of the enum strings. */
  predicate StatusAccepted(s: Option<string>)
  {
    s.None? || ParseStatus(s.value).Some?
  }

  /** Whether `new Product(body)` passes validation: name, sku, category,
      supplier and price are required, and status must be in the enum. */
  predicate CreatableFrom(b: ProductBody)
  {
    Given(b.name) && Given(b.sku) && b.category.Some? && b.supplier.Some? && b.price.Some?
    && StatusAccepted(b.status)
  }

  /** `new Product(body)`: absent optional paths take the schema defaults. */
  function NewDocument(id: nat, createdAt: int, b: ProductBody): Product
    requires CreatableFrom(b)
  {
    Product(id, b.name.value, b.sku.value, b.category.value, b.supplier.value,
            b.quantity.GetOr(DefaultQuantity), b.price.value,
            b.lowStockThreshold.GetOr(DefaultLowStockThreshold),
            if b.status.Some? then ParseStatus(b.status.value).value else DefaultStatus,
            createdAt)
  }

  /** A product created without quantity and threshold saves as Out of Stock,
      whatever status the body asked for. */
  lemma DefaultsSaveOutOfStock(id: nat, createdAt: int, b: ProductBody)
    requires CreatableFrom(b) && b.quantity.None? && b.lowStockThreshold.None?
    ensures Saved(NewDocument(id, createdAt, b)).status == OutOfStock
    ensures Saved(NewDocument(id, createdAt, b)).lowStockThreshold == 10
  {
  }

  /** `Object.assign(product, body)`: every path given in the body overwrites
      the document's, the others are kept. An invalid status string leaves
      the enum path unchanged here; validation rejects that body anyway. */
  function Assign(p: Product, b: ProductBody): Product
  {
    Product(p.id, b.name.GetOr(p.name), b.sku.GetOr(p.sku), b.category.GetOr(p.category),
            b.supplier.GetOr(p.supplier), b.quantity.GetOr(p.quantity), b.price.GetOr(p.price),
            b.lowStockThreshold.GetOr(p.lowStockThreshold),
            if b.status.Some? && ParseStatus(b.status.value).Some?
            then ParseStatus(b.status.value).value else p.status,
            p.createdAt)
  }

  /** Whether the merged document passes validation on save. */
  predicate UpdatableWith(p: Product, b: ProductBody)
  {
    Assign(p, b).name != "" && Assign(p, b).sku != "" && StatusAccepted(b.status)
  }

  /** A merged and saved document: the identity and creation time are the
      stored ones, each path is the body's when given and the stored one
      otherwise, and the status is derived from the resulting quantity and
      threshold, never taken from the body. */
  lemma AssignThenSave(p: Product, b: ProductBody)
    ensures var r := Saved(Assign(p, b));
      && r.id == p.id && r.createdAt == p.createdAt
      && (b.name.Some? ==> r.name == b.name.value) && (b.name.None? ==> r.name == p.name)
      && (b.sku.Some? ==> r.sku == b.sku.value) && (b.sku.None? ==> r.sku == p.sku)
      && (b.category.Some? ==> r.category == b.category.value) && (b.category.None? ==> r.category == p.category)
      && (b.supplier.Some? ==> r.supplier == b.supplier.value) && (b.supplier.None? ==> r.supplier == p.supplier)
      && (b.price.Some? ==> r.price == b.price.value) && (b.price.None? ==> r.price == p.price)
      && (b.quantity.Some? ==> r.quantity == b.quantity.value) && (b.quantity.None? ==> r.quantity == p.quantity)
      && (b.lowStockThreshold.Some? ==> r.lowStockThreshold == b.lowStockThreshold.value)
      && (b.lowStockThreshold.None? ==> r.lowStockThreshold == p.lowStockThreshold)
      && r.status == DeriveStatus(r.quantity, r.lowStockThreshold)
  {
  }

  /** An empty body changes nothing about a stored, consistent product. */
  lemma EmptyAssignIsIdentity(p: Product)
    requires StatusConsistent(p)
    ensures Saved(Assign(p, ProductBody(None, None, None, None, None, None, None, None))) == p
  {
  }
}
