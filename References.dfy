/** The product-to-category and product-to-supplier references: the
    products that point at a parent, and the purge both models' delete hooks
    run (`Product.deleteMany({ category: id })`, `{ supplier: id }`). */
module References {
  import opened Seqs
  import opened Entities

  function ProductsOfCategory(ps: seq<Product>, id: nat): seq<Product>
  {
    Filter(ps, (p: Product) => p.category == id)
  }

  function ProductsOfSupplier(ps: seq<Product>, id: nat): seq<Product>
  {
    Filter(ps, (p: Product) => p.supplier == id)
  }

  /** The products left after purging those of category `id`. */
  function WithoutCategory(ps: seq<Product>, id: nat): seq<Product>
  {
    Filter(ps, (p: Product) => p.category != id)
  }

  /** The products left after purging those of supplier `id`. */
  function WithoutSupplier(ps: seq<Product>, id: nat): seq<Product>
  {
    Filter(ps, (p: Product) => p.supplier != id)
  }

  /** After the category purge no product references the category; every
      other product survives, in order; exactly the linked products are gone;
      a category nothing references loses no product; and a second purge
      finds nothing more to delete. */
  lemma CategoryPurgeSpec(ps: seq<Product>, id: nat)
    ensures forall p :: p in WithoutCategory(ps, id) ==> p.category != id
    ensures forall p :: p in ps && p.category != id ==> p in WithoutCategory(ps, id)
    ensures IsSubsequence(WithoutCategory(ps, id), ps)
    ensures |WithoutCategory(ps, id)| == |ps| - |ProductsOfCategory(ps, id)|
    ensures ProductsOfCategory(ps, id) == [] ==> WithoutCategory(ps, id) == ps
    ensures ProductsOfCategory(WithoutCategory(ps, id), id) == []
    ensures WithoutCategory(WithoutCategory(ps, id), id) == WithoutCategory(ps, id)
  {
    FilterIsSubsequence(ps, (p: Product) => p.category != id);
    CategoryPartition(ps, id);
    if ProductsOfCategory(ps, id) == [] {
      FilterKeepsAll(ps, (p: Product) => p.category != id);
    }
    var rest := WithoutCategory(ps, id);
    FilterDropsAll(rest, (p: Product) => p.category == id);
    FilterKeepsAll(rest, (p: Product) => p.category != id);
  }

  /** The same facts for the supplier purge. */
  lemma SupplierPurgeSpec(ps: seq<Product>, id: nat)
    ensures forall p :: p in WithoutSupplier(ps, id) ==> p.supplier != id
    ensures forall p :: p in ps && p.supplier != id ==> p in WithoutSupplier(ps, id)
    ensures IsSubsequence(WithoutSupplier(ps, id), ps)
    ensures |WithoutSupplier(ps, id)| == |ps| - |ProductsOfSupplier(ps, id)|
    ensures ProductsOfSupplier(ps, id) == [] ==> WithoutSupplier(ps, id) == ps
    ensures ProductsOfSupplier(WithoutSupplier(ps, id), id) == []
    ensures WithoutSupplier(WithoutSupplier(ps, id), id) == WithoutSupplier(ps, id)
  {
    FilterIsSubsequence(ps, (p: Product) => p.supplier != id);
    SupplierPartition(ps, id);
    if ProductsOfSupplier(ps, id) == [] {
      FilterKeepsAll(ps, (p: Product) => p.supplier != id);
    }
    var rest := WithoutSupplier(ps, id);
    FilterDropsAll(rest, (p: Product) => p.supplier == id);
    FilterKeepsAll(rest, (p: Product) => p.supplier != id);
  }

  lemma {:induction false} CategoryPartition(ps: seq<Product>, id: nat)
    ensures |WithoutCategory(ps, id)| + |ProductsOfCategory(ps, id)| == |ps|
  {
    if ps != [] {
      CategoryPartition(ps[1..], id);
    }
  }

  lemma {:induction false} SupplierPartition(ps: seq<Product>, id: nat)
    ensures |WithoutSupplier(ps, id)| + |ProductsOfSupplier(ps, id)| == |ps|
  {
    if ps != [] {
      SupplierPartition(ps[1..], id);
    }
  }
}
