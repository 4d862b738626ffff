/** The entity store and the server's controllers over it.

    The class holds the four collections; its methods are the controller
    functions of the product, category, supplier and user controllers, and
    the `pre("findOneAndDelete")` hooks of the category and supplier models
    that those controllers' deletes trigger. What the store itself decides
    (a duplicate unique key, a missing document) is modelled; a failure of
    the product purge inside a delete hook is an input, `purgeFails`. The
    clock that stamps `createdAt` is the input `now`. */
module Store {
  import opened Seqs
  import opened Text
  import opened Entities
  import opened ProductModel
  import opened References

  // ---------------------------------------------------------------------
  // The product listing query (product.controller.js, getProducts)

  /** The Mongo filter `getProducts` builds: a path is constrained only when
      its query parameter is present and non-empty. */
  datatype ProductQuery = ProductQuery(name: Option<string>, category: Option<nat>, status: Option<string>)

  function BuildQuery(search: string, category: Option<nat>, status: string): ProductQuery
  {
    ProductQuery(if search != "" then Some(search) else None,
                 category,
                 if status != "" then Some(status) else None)
  }

  /** A product matches when every constrained path matches: the name by a
      case-insensitive substring test, category and status by equality. */
  predicate Matches(q: ProductQuery, p: Product)
  {
    && (q.name.None? || ContainsIgnoreCase(p.name, q.name.value))
    && (q.category.None? || p.category == q.category.value)
    && (q.status.None? || StatusName(p.status) == q.status.value)
  }

  function FindProducts(ps: seq<Product>, q: ProductQuery): seq<Product>
  {
    Filter(ps, (p: Product) => Matches(q, p))
  }

  /** The listing keeps exactly the products that satisfy every given
      parameter; the search text is tested against the name only. */
  lemma FindProductsSpec(ps: seq<Product>, search: string, category: Option<nat>, status: string, p: Product)
    ensures p in FindProducts(ps, BuildQuery(search, category, status)) <==>
      && p in ps
      && (search == "" || ContainsIgnoreCase(p.name, search))
      && (category.None? || p.category == category.value)
      && (status == "" || StatusName(p.status) == status)
  {
  }

  /** Without parameters the listing holds every product, in store order
      before sorting. */
  lemma NoParametersFindAll(ps: seq<Product>)
    ensures FindProducts(ps, BuildQuery("", None, "")) == ps
  {
    FilterKeepsAll(ps, (p: Product) => Matches(BuildQuery("", None, ""), p));
  }

  /** A product as `populate("category", "name").populate("supplier", "name")`
      returns it: each reference resolved to id and name, or null when the
      referenced document does not exist. */
  datatype Listing = Listing(product: Product, category: Option<Ref>, supplier: Option<Ref>)

  function Populate(p: Product, cs: seq<Category>, ss: seq<Supplier>): Listing
  {
    Listing(p, CategoryRef(cs, p.category), SupplierRef(ss, p.supplier))
  }

  function PopulateAll(ps: seq<Product>, cs: seq<Category>, ss: seq<Supplier>): (r: seq<Listing>)
    ensures |r| == |ps|
  {
    seq(|ps|, i requires 0 <= i < |ps| => Populate(ps[i], cs, ss))
  }

  function ProductsOf(ls: seq<Listing>): (r: seq<Product>)
    ensures |r| == |ls|
  {
    seq(|ls|, i requires 0 <= i < |ls| => ls[i].product)
  }

  // ---------------------------------------------------------------------
  // Uniqueness checks the store's unique indexes perform

  /** Another product (one with a different id) already has this sku. */
  predicate SkuTaken(ps: seq<Product>, sku: string, id: nat)
  {
    exists i :: 0 <= i < |ps| && ps[i].sku == sku && ps[i].id != id
  }

  /** Another category already has this name. */
  predicate CategoryNameTaken(cs: seq<Category>, name: string, id: nat)
  {
    exists i :: 0 <= i < |cs| && cs[i].name == name && cs[i].id != id
  }

  predicate SupplierNameTaken(ss: seq<Supplier>, name: string)
  {
    exists i :: 0 <= i < |ss| && ss[i].name == name
  }

  /** A supplier request body. */
  datatype SupplierBody = SupplierBody(
    name: Option<string>,
    contactPerson: Option<string>,
    email: Option<string>,
    phone: Option<string>,
    address: Option<string>)

  function PublicAll(us: seq<User>): (r: seq<PublicUser>)
    ensures |r| == |us|
  {
    seq(|us|, i requires 0 <= i < |us| => WithoutPassword(us[i]))
  }

  /** The contents of a store at one moment. */
  datatype Inventory = Inventory(
    products: seq<Product>,
    categories: seq<Category>,
    suppliers: seq<Supplier>,
    users: seq<User>,
    nextId: nat)

  class Store {
    var products: seq<Product>
    var categories: seq<Category>
    var suppliers: seq<Supplier>
    var users: seq<User>
    /** The next server-assigned identifier; every stored id is below it. */
    var nextId: nat

    /** Unique ids per collection, the unique indexes on sku and on the
        category and supplier names, the required paths, and the status
        invariant the product save hook maintains. */
    function Contents(): Inventory
      reads this
    {
      Inventory(products, categories, suppliers, users, nextId)
    }

    ghost predicate Valid()
      reads this
    {
      && UniqueBy(products, ProductId) && UniqueBy(products, ProductSku)
      && UniqueBy(categories, CategoryId) && UniqueBy(categories, CategoryName)
      && UniqueBy(suppliers, SupplierId) && UniqueBy(suppliers, SupplierName)
      && UniqueBy(users, UserId)
      && (forall p :: p in products ==> Persistable(p) && p.id < nextId)
      && (forall c :: c in categories ==> c.name != "" && c.id < nextId)
      && (forall s :: s in suppliers ==> s.name != "" && s.email != "" && s.id < nextId)
    }

    /** An empty inventory; users come from registration, which is outside
        this model. */
    constructor (registered: seq<User>)
      requires UniqueBy(registered, UserId)
      ensures Valid()
      ensures products == [] && categories == [] && suppliers == [] && users == registered && nextId == 0
    {
      products, categories, suppliers, users := [], [], [], registered;
      nextId := 0;
    }

    // -------------------------------------------------------------------
    // product.controller.js

    /** `getProducts`: the products matching the query, newest first, with
        their references populated. Reads the store only. */
    method GetProducts(search: string, category: Option<nat>, status: string) returns (r: seq<Listing>)
      ensures multiset(ProductsOf(r)) == multiset(FindProducts(products, BuildQuery(search, category, status)))
      ensures SortedBy(ProductsOf(r), ProductNewerFirst)
      ensures forall i :: 0 <= i < |r| ==> r[i] == Populate(r[i].product, categories, suppliers)
    {
      var found := FindProducts(products, BuildQuery(search, category, status));
      var sorted := Sort(found, ProductNewerFirst);
      OrdersAreTotal();
      r := PopulateAll(sorted, categories, suppliers);
      assert ProductsOf(r) == sorted;
    }

    /** `createProduct`: a valid body with a fresh sku is stored with the
        next id, its status derived by the save hook, and answered populated
        with 201; any validation or duplicate-key error goes to `next(error)`
        and stores nothing. */
    method CreateProduct(b: ProductBody, now: int) returns (r: Reply<Listing>)
      requires Valid()
      modifies this
      ensures Valid()
      ensures !CreatableFrom(b) ==> r == Forwarded && unchanged(this)
      ensures CreatableFrom(b) && SkuTaken(old(products), b.sku.value, old(nextId)) ==>
        r == Forwarded && unchanged(this)
      ensures CreatableFrom(b) && !SkuTaken(old(products), b.sku.value, old(nextId)) ==>
        var p := Saved(NewDocument(old(nextId), now, b));
        && products == old(products) + [p]
        && r == Created(Populate(p, categories, suppliers))
        && nextId == old(nextId) + 1
        && categories == old(categories) && suppliers == old(suppliers) && users == old(users)
    {
      if !CreatableFrom(b) {
        return Forwarded;
      }
      var doc := Saved(NewDocument(nextId, now, b));
      if SkuTaken(products, doc.sku, nextId) {
        return Forwarded;
      }
      forall i | 0 <= i < |products| ensures products[i].id != doc.id && products[i].sku != doc.sku {
        assert products[i] in products;
      }
      AppendKeepsUniqueBy(products, doc, ProductId);
      AppendKeepsUniqueBy(products, doc, ProductSku);
      products := products + [doc];
      nextId := nextId + 1;
      r := Created(Populate(doc, categories, suppliers));
    }

    /** `updateProduct`: an unknown id is 404; otherwise the body is merged
        into the stored product and saved, which re-derives the status; a
        merge that fails validation or collides on sku is 400. Nothing but
        that one product changes. */
    method UpdateProduct(id: nat, b: ProductBody) returns (r: Reply<Product>)
      requires Valid()
      modifies this
      ensures Valid()
      ensures ProductIndex(old(products), id).None? ==> r == NotFound && unchanged(this)
      ensures ProductIndex(old(products), id).Some? ==>
        var i := ProductIndex(old(products), id).value;
        var merged := Assign(old(products)[i], b);
        if UpdatableWith(old(products)[i], b) && !SkuTaken(old(products), merged.sku, id) then
          && products == old(products)[i := Saved(merged)]
          && r == Ok(Saved(merged))
          && categories == old(categories) && suppliers == old(suppliers)
          && users == old(users) && nextId == old(nextId)
        else
          r == BadRequest && unchanged(this)
    {
      var found := ProductIndex(products, id);
      if found.None? {
        return NotFound;
      }
      var i := found.value;
      var merged := Assign(products[i], b);
      if !UpdatableWith(products[i], b) || SkuTaken(products, merged.sku, id) {
        return BadRequest;
      }
      var doc := Saved(merged);
      assert products[i] in products;
      forall j | 0 <= j < |products| && j != i
        ensures products[j].id != doc.id && products[j].sku != doc.sku
      {
        assert ProductId(products[j]) != ProductId(products[i]) by {
          if j < i { } else { }
        }
      }
      ReplaceKeepsUniqueBy(products, i, doc, ProductId);
      ReplaceKeepsUniqueBy(products, i, doc, ProductSku);
      ghost var before := products;
      products := products[i := doc];
      forall p | p in products ensures Persistable(p) && p.id < nextId {
        var k :| 0 <= k < |products| && products[k] == p;
        if k != i { assert before[k] in before; }
      }
      r := Ok(doc);
    }

    /** `deleteProduct`: removes the product with that id, if any, and
        reports success either way. */
    method DeleteProduct(id: nat) returns (r: Reply<()>)
      requires Valid()
      modifies this
      ensures Valid()
      ensures r == Ok(())
      ensures products == WithoutProduct(old(products), id)
      ensures categories == old(categories) && suppliers == old(suppliers)
      ensures users == old(users) && nextId == old(nextId)
    {
      FilterKeepsUniqueBy(products, (p: Product) => p.id != id, ProductId);
      FilterKeepsUniqueBy(products, (p: Product) => p.id != id, ProductSku);
      products := WithoutProduct(products, id);
      r := Ok(());
    }

    // -------------------------------------------------------------------
    // category.model.js and category.controller.js

    /** The category model's `pre("findOneAndDelete")` hook: when a category
        with that id exists, purge every product that references it; a
        failing purge rejects the delete. When none exists nothing is
        purged. */
    method CategoryDeleteHook(id: nat, purgeFails: bool) returns (proceed: bool)
      requires Valid()
      modifies this`products
      ensures Valid()
      ensures CategoryIndex(categories, id).None? ==> proceed && products == old(products)
      ensures CategoryIndex(categories, id).Some? ==>
        proceed == !purgeFails &&
        products == (if purgeFails then old(products) else WithoutCategory(old(products), id))
    {
      var doc := CategoryIndex(categories, id);
      if doc.Some? {
        if purgeFails {
          return false;
        }
        FilterKeepsUniqueBy(products, (p: Product) => p.category != id, ProductId);
        FilterKeepsUniqueBy(products, (p: Product) => p.category != id, ProductSku);
        products := WithoutCategory(products, id);
      }
      return true;
    }

    /** `getCategories`: every category, newest first. */
    method GetCategories() returns (r: seq<Category>)
      ensures multiset(r) == multiset(categories)
      ensures SortedBy(r, CategoryNewerFirst)
    {
      OrdersAreTotal();
      r := Sort(categories, CategoryNewerFirst);
    }

    /** `createCategory`: a missing or empty name, or one another category
        already has, is 400 and stores nothing; otherwise the category is
        stored with the next id and answered with 201. */
    method CreateCategory(name: Option<string>, description: Option<string>, now: int)
      returns (r: Reply<Category>)
      requires Valid()
      modifies this
      ensures Valid()
      ensures !Given(name) || CategoryNameTaken(old(categories), name.value, old(nextId)) ==>
        r == BadRequest && unchanged(this)
      ensures Given(name) && !CategoryNameTaken(old(categories), name.value, old(nextId)) ==>
        var c := Category(old(nextId), name.value, description, now);
        && categories == old(categories) + [c] && r == Created(c)
        && nextId == old(nextId) + 1
        && products == old(products) && suppliers == old(suppliers) && users == old(users)
    {
      if !Given(name) || CategoryNameTaken(categories, name.value, nextId) {
        return BadRequest;
      }
      var c := Category(nextId, name.value, description, now);
      forall i | 0 <= i < |categories| ensures categories[i].id != c.id && categories[i].name != c.name {
        assert categories[i] in categories;
      }
      AppendKeepsUniqueBy(categories, c, CategoryId);
      AppendKeepsUniqueBy(categories, c, CategoryName);
      categories := categories + [c];
      nextId := nextId + 1;
      r := Created(c);
    }

    /** `updateCategory`: only name and description can change, and only
        those given. The update validators run first, so an empty name is 400
        even for an unknown id; then an unknown id is 404, and a name another
        category has is 400. */
    method UpdateCategory(id: nat, name: Option<string>, description: Option<string>)
      returns (r: Reply<Category>)
      requires Valid()
      modifies this
      ensures Valid()
      ensures name == Some("") ==> r == BadRequest && unchanged(this)
      ensures name != Some("") && CategoryIndex(old(categories), id).None? ==>
        r == NotFound && unchanged(this)
      ensures name != Some("") && CategoryIndex(old(categories), id).Some? ==>
        var i := CategoryIndex(old(categories), id).value;
        if name.Some? && CategoryNameTaken(old(categories), name.value, id) then
          r == BadRequest && unchanged(this)
        else
          var c := old(categories)[i].(name := name.GetOr(old(categories)[i].name),
                                      description := if description.Some? then description
                                                     else old(categories)[i].description);
          && categories == old(categories)[i := c] && r == Ok(c)
          && products == old(products) && suppliers == old(suppliers)
          && users == old(users) && nextId == old(nextId)
    {
      if name == Some("") {
        return BadRequest;
      }
      var found := CategoryIndex(categories, id);
      if found.None? {
        return NotFound;
      }
      var i := found.value;
      if name.Some? && CategoryNameTaken(categories, name.value, id) {
        return BadRequest;
      }
      var c := categories[i].(name := name.GetOr(categories[i].name),
                              description := if description.Some? then description
                                             else categories[i].description);
      assert categories[i] in categories;
      forall j | 0 <= j < |categories| && j != i
        ensures categories[j].id != c.id && categories[j].name != c.name
      {
        assert CategoryId(categories[j]) != CategoryId(categories[i]) by {
          if j < i { } else { }
        }
        assert CategoryName(categories[j]) != CategoryName(categories[i]) by {
          if j < i { } else { }
        }
      }
      ReplaceKeepsUniqueBy(categories, i, c, CategoryId);
      ReplaceKeepsUniqueBy(categories, i, c, CategoryName);
      ghost var before := categories;
      categories := categories[i := c];
      forall x | x in categories ensures x.name != "" && x.id < nextId {
        var k :| 0 <= k < |categories| && categories[k] == x;
        if k != i { assert before[k] in before; }
      }
      r := Ok(c);
    }

    /** `deleteCategory`: an unknown id is 404 and deletes nothing; a failing
        purge is 500 and deletes nothing; otherwise the category and every
        product linked to it are gone, and nothing else changes. */
    method DeleteCategory(id: nat, purgeFails: bool) returns (r: Reply<()>)
      requires Valid()
      modifies this
      ensures Valid()
      ensures CategoryIndex(old(categories), id).None? ==> r == NotFound && unchanged(this)
      ensures CategoryIndex(old(categories), id).Some? && purgeFails ==>
        r == ServerError && unchanged(this)
      ensures CategoryIndex(old(categories), id).Some? && !purgeFails ==>
        && r == Ok(())
        && products == WithoutCategory(old(products), id)
        && categories == WithoutCategoryRecord(old(categories), id)
        && (forall p :: p in products ==> p.category != id)
        && (forall c :: c in categories ==> c.id != id)
        && suppliers == old(suppliers) && users == old(users) && nextId == old(nextId)
    {
      var proceed := CategoryDeleteHook(id, purgeFails);
      if !proceed {
        return ServerError;
      }
      var found := CategoryIndex(categories, id);
      if found.None? {
        return NotFound;
      }
      FilterKeepsUniqueBy(categories, (c: Category) => c.id != id, CategoryId);
      FilterKeepsUniqueBy(categories, (c: Category) => c.id != id, CategoryName);
      categories := WithoutCategoryRecord(categories, id);
      r := Ok(());
    }

    // -------------------------------------------------------------------
    // supplier.model.js and supplier.controller.js

    /** The supplier model's `pre("findOneAndDelete")` hook: purge every
        product that references the id in the query, whether or not such a
        supplier exists; a failing purge is passed to `next(error)`, which
        rejects the delete. */
    method SupplierDeleteHook(id: nat, purgeFails: bool) returns (proceed: bool)
      requires Valid()
      modifies this`products
      ensures Valid()
      ensures proceed == !purgeFails
      ensures products == (if purgeFails then old(products) else WithoutSupplier(old(products), id))
    {
      if purgeFails {
        return false;
      }
      FilterKeepsUniqueBy(products, (p: Product) => p.supplier != id, ProductId);
      FilterKeepsUniqueBy(products, (p: Product) => p.supplier != id, ProductSku);
      products := WithoutSupplier(products, id);
      return true;
    }

    /** `getSuppliers`: every supplier, by name ascending. */
    method GetSuppliers() returns (r: seq<Supplier>)
      ensures multiset(r) == multiset(suppliers)
      ensures SortedBy(r, SupplierNameFirst)
    {
      OrdersAreTotal();
      r := Sort(suppliers, SupplierNameFirst);
    }

    /** `createSupplier`: name and email are required and the name is
        unique; a body violating that is 400 and stores nothing. */
    method CreateSupplier(b: SupplierBody, now: int) returns (r: Reply<Supplier>)
      requires Valid()
      modifies this
      ensures Valid()
      ensures !Given(b.name) || !Given(b.email) || SupplierNameTaken(old(suppliers), b.name.value) ==>
        r == BadRequest && unchanged(this)
      ensures Given(b.name) && Given(b.email) && !SupplierNameTaken(old(suppliers), b.name.value) ==>
        var s := Supplier(old(nextId), b.name.value, b.contactPerson, b.email.value, b.phone, b.address, now);
        && suppliers == old(suppliers) + [s] && r == Created(s)
        && nextId == old(nextId) + 1
        && products == old(products) && categories == old(categories) && users == old(users)
    {
      if !Given(b.name) || !Given(b.email) || SupplierNameTaken(suppliers, b.name.value) {
        return BadRequest;
      }
      var s := Supplier(nextId, b.name.value, b.contactPerson, b.email.value, b.phone, b.address, now);
      forall i | 0 <= i < |suppliers| ensures suppliers[i].id != s.id && suppliers[i].name != s.name {
        assert suppliers[i] in suppliers;
      }
      AppendKeepsUniqueBy(suppliers, s, SupplierId);
      AppendKeepsUniqueBy(suppliers, s, SupplierName);
      suppliers := suppliers + [s];
      nextId := nextId + 1;
      r := Created(s);
    }

    /** `deleteSupplier`: the hook's purge runs first, so a failing purge is
        500 with nothing deleted. After a successful purge an unknown id is
        404 (the products that referenced it are gone all the same); a known
        one removes the supplier as well. */
    method DeleteSupplier(id: nat, purgeFails: bool) returns (r: Reply<()>)
      requires Valid()
      modifies this
      ensures Valid()
      ensures purgeFails ==> r == ServerError && unchanged(this)
      ensures !purgeFails ==>
        && products == WithoutSupplier(old(products), id)
        && (forall p :: p in products ==> p.supplier != id)
        && categories == old(categories) && users == old(users) && nextId == old(nextId)
      ensures !purgeFails && SupplierIndex(old(suppliers), id).None? ==>
        r == NotFound && suppliers == old(suppliers)
      ensures !purgeFails && SupplierIndex(old(suppliers), id).Some? ==>
        r == Ok(()) && suppliers == WithoutSupplierRecord(old(suppliers), id)
    {
      var proceed := SupplierDeleteHook(id, purgeFails);
      if !proceed {
        return ServerError;
      }
      var found := SupplierIndex(suppliers, id);
      if found.None? {
        return NotFound;
      }
      FilterKeepsUniqueBy(suppliers, (s: Supplier) => s.id != id, SupplierId);
      FilterKeepsUniqueBy(suppliers, (s: Supplier) => s.id != id, SupplierName);
      suppliers := WithoutSupplierRecord(suppliers, id);
      r := Ok(());
    }

    // -------------------------------------------------------------------
    // user.controller.js

    /** `getUsers`: every user without the password, newest first. */
    method GetUsers() returns (r: seq<PublicUser>)
      ensures multiset(r) == multiset(PublicAll(users))
      ensures SortedBy(r, UserNewerFirst)
    {
      OrdersAreTotal();
      r := Sort(PublicAll(users), UserNewerFirst);
    }

    /** `updateUserRole`: an unknown id is 404; otherwise only the role
        changes (and only when one is given), answered without the
        password. */
    method UpdateUserRole(id: nat, role: Option<Role>) returns (r: Reply<PublicUser>)
      requires Valid()
      modifies this
      ensures Valid()
      ensures UserIndex(old(users), id).None? ==> r == NotFound && unchanged(this)
      ensures UserIndex(old(users), id).Some? ==>
        var i := UserIndex(old(users), id).value;
        var u := old(users)[i].(role := role.GetOr(old(users)[i].role));
        && users == old(users)[i := u] && r == Ok(WithoutPassword(u))
        && products == old(products) && categories == old(categories)
        && suppliers == old(suppliers) && nextId == old(nextId)
    {
      var found := UserIndex(users, id);
      if found.None? {
        return NotFound;
      }
      var i := found.value;
      var u := users[i].(role := role.GetOr(users[i].role));
      forall j | 0 <= j < |users| && j != i ensures users[j].id != u.id {
        assert UserId(users[j]) != UserId(users[i]) by {
          if j < i { } else { }
        }
      }
      ReplaceKeepsUniqueBy(users, i, u, UserId);
      users := users[i := u];
      r := Ok(WithoutPassword(u));
    }

    /** `deleteUser`: an unknown id is 404; otherwise exactly the user with
        that id is removed. */
    method DeleteUser(id: nat) returns (r: Reply<()>)
      requires Valid()
      modifies this
      ensures Valid()
      ensures UserIndex(old(users), id).None? ==> r == NotFound && unchanged(this)
      ensures UserIndex(old(users), id).Some? ==>
        && r == Ok(()) && users == WithoutUser(old(users), id)
        && products == old(products) && categories == old(categories)
        && suppliers == old(suppliers) && nextId == old(nextId)
    {
      var found := UserIndex(users, id);
      if found.None? {
        return NotFound;
      }
      FilterKeepsUniqueBy(users, (u: User) => u.id != id, UserId);
      users := WithoutUser(users, id);
      r := Ok(());
    }
  }
}
