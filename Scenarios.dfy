/** A run of the controllers on a fresh store: the life of one product
    through create, stock update and the cascade of its category. */
module Scenarios {
  import opened Seqs
  import opened Entities
  import opened ProductModel
  import opened References
  import opened Store

  function Beverages(): Category { Category(0, "Beverages", None, 1) }

  function S1(): Supplier { Supplier(1, "S1", None, "s1@example.com", None, None, 2) }

  /** A fresh store holding category "Beverages" and supplier "S1". */
  method SetUp() returns (s: Store)
    ensures fresh(s) && s.Valid()
    ensures s.categories == [Beverages()] && s.suppliers == [S1()] && s.products == [] && s.nextId == 2
  {
    s := new Store([]);
    var cat := s.CreateCategory(Some("Beverages"), None, 1);
    assert s.categories == [Beverages()] && s.nextId == 1 && s.products == [];
    var sup := s.CreateSupplier(SupplierBody(Some("S1"), None, Some("s1@example.com"), None, None), 2);
  }

  function ColaBody(): ProductBody
  {
    ProductBody(Some("Cola"), Some("COLA-1"), Some(0), Some(1), Some(5), Some(200), Some(10), None)
  }

  function Cola(): Product { Saved(NewDocument(2, 3, ColaBody())) }

  function EmptyCola(): Product { Saved(Assign(Cola(), QuantityOnly(0))) }

  /** Creating Cola with 5 units and a threshold of 10 stores it Low Stock. */
  method AddCola(s: Store) returns (created: Reply<Listing>)
    requires s.Valid()
    requires s.categories == [Beverages()] && s.suppliers == [S1()] && s.products == [] && s.nextId == 2
    modifies s
    ensures s.Valid() && s.categories == [Beverages()] && s.products == [Cola()]
    ensures created.Created? && created.value.product.status == LowStock
    ensures created.value.category == Some(Ref(0, "Beverages"))
  {
    assert Cola().status == LowStock;
    created := s.CreateProduct(ColaBody(), 3);
    assert CategoryIndex([Beverages()], 0) == Some(0);
  }

  /** Setting its quantity to 0 makes it Out of Stock. */
  method DrainCola(s: Store) returns (updated: Reply<Product>)
    requires s.Valid() && s.categories == [Beverages()] && s.products == [Cola()]
    modifies s
    ensures s.Valid() && s.categories == [Beverages()] && s.products == [EmptyCola()]
    ensures updated.Ok? && updated.value.status == OutOfStock && updated.value.quantity == 0
  {
    assert ProductIndex([Cola()], 2) == Some(0);
    updated := s.UpdateProduct(2, QuantityOnly(0));
  }

  /** Deleting Beverages takes Cola with it. */
  method DropBeverages(s: Store) returns (deleted: Reply<()>)
    requires s.Valid() && s.categories == [Beverages()] && s.products == [EmptyCola()]
    modifies s
    ensures s.Valid() && s.products == []
    ensures deleted == Ok(())
  {
    assert CategoryIndex([Beverages()], 0) == Some(0);
    deleted := s.DeleteCategory(0, false);
    assert s.products == [] by {
      assert s.products == WithoutCategory([EmptyCola()], 0);
      assert EmptyCola().category == 0;
    }
  }

  /** Product "Cola" with 5 units and a threshold of 10: it is created Low
      Stock, becomes Out of Stock when its quantity is set to 0, and is gone
      once its category is deleted. */
  method BeveragesScenario() returns (created: Reply<Listing>, updated: Reply<Product>, afterDelete: Reply<Product>)
    ensures created.Created? && created.value.product.status == LowStock
    ensures created.value.category == Some(Ref(0, "Beverages"))
    ensures updated.Ok? && updated.value.status == OutOfStock && updated.value.quantity == 0
    ensures afterDelete == NotFound
  {
    var s := SetUp();
    created := AddCola(s);
    updated := DrainCola(s);
    var _ := DropBeverages(s);
    afterDelete := s.UpdateProduct(2, QuantityOnly(1));
  }
}
