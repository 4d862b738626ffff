/** The four document collections of the inventory store (users,
    categories, suppliers, products) as value types, the status enum of the
    product schema, the orders the controllers sort by, and the reply shape
    the controllers answer with.

    Identifiers are `nat` (server-assigned and unique per collection),
    creation timestamps are `int`, and prices are integer minor units. */
module Entities {
  import opened Seqs
  import opened Text

  datatype Role = Admin | Staff

  datatype Status = InStock | LowStock | OutOfStock

  /** The strings of the product schema's `status` enum. */
  function StatusName(s: Status): string
  {
    match s
    case InStock => "In Stock"
    case LowStock => "Low Stock"
    case OutOfStock => "Out of Stock"
  }

  /** Enum validation of the `status` path: a string is accepted exactly when
      it is one of the three enum strings. */
  function ParseStatus(name: string): (r: Option<Status>)
    ensures r.Some? ==> StatusName(r.value) == name
    ensures r.None? ==> forall s: Status :: StatusName(s) != name
  {
    if name == "In Stock" then Some(InStock)
    else if name == "Low Stock" then Some(LowStock)
    else if name == "Out of Stock" then Some(OutOfStock)
    else None
  }

  /** Distinct statuses have distinct names, and every name parses back. */
  lemma StatusNameRoundTrip(s: Status, t: Status)
    ensures ParseStatus(StatusName(s)) == Some(s)
    ensures StatusName(s) == StatusName(t) ==> s == t
  {
  }

  datatype Product = Product(
    id: nat,
    name: string,
    sku: string,
    category: nat,
    supplier: nat,
    quantity: int,
    price: int,
    lowStockThreshold: int,
    status: Status,
    createdAt: int)

  datatype Category = Category(
    id: nat,
    name: string,
    description: Option<string>,
    createdAt: int)

  datatype Supplier = Supplier(
    id: nat,
    name: string,
    contactPerson: Option<string>,
    email: string,
    phone: Option<string>,
    address: Option<string>,
    createdAt: int)

  datatype User = User(
    id: nat,
    name: string,
    email: string,
    password: string,
    role: Role,
    createdAt: int)

  /** A user as the user-management listing returns it: without `password`. */
  datatype PublicUser = PublicUser(
    id: nat,
    name: string,
    email: string,
    role: Role,
    createdAt: int)

  function WithoutPassword(u: User): PublicUser
  {
    PublicUser(u.id, u.name, u.email, u.role, u.createdAt)
  }

  /** A referenced document reduced to its id and name (what `populate(..., "name")`
      and the report's `$lookup` keep of it). */
  datatype Ref = Ref(id: nat, name: string)

  /** What a controller answers: 200 with a value, 201 with a value, 404,
      400, 500, or the error handed to the framework's `next(error)`. */
  datatype Reply<T> =
    | Ok(value: T)
    | Created(value: T)
    | NotFound
    | BadRequest
    | ServerError
    | Forwarded
  {
    /** The HTTP status code, when the controller itself sets one. */
    function Code(): Option<nat>
    {
      match this
      case Ok(_) => Some(200)
      case Created(_) => Some(201)
      case NotFound => Some(404)
      case BadRequest => Some(400)
      case ServerError => Some(500)
      case Forwarded => None
    }
  }

  // Keys the collections are unique by.

  function ProductId(p: Product): nat { p.id }
  function ProductSku(p: Product): string { p.sku }
  function CategoryId(c: Category): nat { c.id }
  function CategoryName(c: Category): string { c.name }
  function SupplierId(s: Supplier): nat { s.id }
  function SupplierName(s: Supplier): string { s.name }
  function UserId(u: User): nat { u.id }

  // Lookup by id (`findById`, `findOne({_id})`).

  function ProductIndex(ps: seq<Product>, id: nat): Option<nat>
  {
    IndexWhere(ps, (p: Product) => p.id == id)
  }

  function CategoryIndex(cs: seq<Category>, id: nat): Option<nat>
  {
    IndexWhere(cs, (c: Category) => c.id == id)
  }

  function SupplierIndex(ss: seq<Supplier>, id: nat): Option<nat>
  {
    IndexWhere(ss, (s: Supplier) => s.id == id)
  }

  function UserIndex(us: seq<User>, id: nat): Option<nat>
  {
    IndexWhere(us, (u: User) => u.id == id)
  }

  /** The category with that id, reduced to id and name; None when the
      reference dangles. */
  function CategoryRef(cs: seq<Category>, id: nat): (r: Option<Ref>)
    ensures r.Some? ==> r.value.id == id
    ensures r.Some? ==>
      exists i :: 0 <= i < |cs| && cs[i].id == id && cs[i].name == r.value.name && (forall j :: 0 <= j < i ==> cs[j].id != id)
    ensures r.None? <==> forall c :: c in cs ==> c.id != id
  {
    match CategoryIndex(cs, id)
    case None => None
    case Some(i) => Some(Ref(cs[i].id, cs[i].name))
  }

  function SupplierRef(ss: seq<Supplier>, id: nat): (r: Option<Ref>)
    ensures r.Some? ==> r.value.id == id
    ensures r.Some? ==>
      exists i :: 0 <= i < |ss| && ss[i].id == id && ss[i].name == r.value.name && (forall j :: 0 <= j < i ==> ss[j].id != id)
    ensures r.None? <==> forall s :: s in ss ==> s.id != id
  {
    match SupplierIndex(ss, id)
    case None => None
    case Some(i) => Some(Ref(ss[i].id, ss[i].name))
  }

  // Removal by id (`findByIdAndDelete`).

  function WithoutProduct(ps: seq<Product>, id: nat): seq<Product>
  {
    Filter(ps, (p: Product) => p.id != id)
  }

  function WithoutCategoryRecord(cs: seq<Category>, id: nat): seq<Category>
  {
    Filter(cs, (c: Category) => c.id != id)
  }

  function WithoutSupplierRecord(ss: seq<Supplier>, id: nat): seq<Supplier>
  {
    Filter(ss, (s: Supplier) => s.id != id)
  }

  function WithoutUser(us: seq<User>, id: nat): seq<User>
  {
    Filter(us, (u: User) => u.id != id)
  }

  // The orders of the controllers' `sort` calls.

  /** `sort({ createdAt: -1 })` on products. */
  predicate ProductNewerFirst(a: Product, b: Product) { a.createdAt >= b.createdAt }

  /** `sort({ createdAt: -1 })` on categories. */
  predicate CategoryNewerFirst(a: Category, b: Category) { a.createdAt >= b.createdAt }

  /** `sort({ createdAt: -1 })` on users. */
  predicate UserNewerFirst(a: PublicUser, b: PublicUser) { a.createdAt >= b.createdAt }

  /** `sort({ name: 1 })` on suppliers. */
  predicate SupplierNameFirst(a: Supplier, b: Supplier) { LexLe(a.name, b.name) }

  lemma OrdersAreTotal()
    ensures Total(ProductNewerFirst)
    ensures Total(CategoryNewerFirst)
    ensures Total(UserNewerFirst)
    ensures Total(SupplierNameFirst)
  {
    forall a: Supplier, b: Supplier ensures SupplierNameFirst(a, b) || SupplierNameFirst(b, a) {
      LexLeTotal(a.name, b.name);
    }
  }
}
