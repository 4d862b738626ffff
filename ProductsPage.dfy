/** The products page of the client: the four-way filter over the loaded
    product listings, the filter panel and its reset, the stock buttons and
    the colour of a status chip. */
module ProductsPage {
  import opened Seqs
  import opened Text
  import opened Entities
  import opened ProductModel
  import opened Store

  /** A select box: "All", or one chosen value. */
  datatype Pick<T> = All | Only(value: T)

  datatype FilterState = FilterState(
    search: string,
    category: Pick<nat>,
    supplier: Pick<nat>,
    status: Pick<string>)

  /** The state the page starts in and returns to on reset. */
  function Cleared(): FilterState
  {
    FilterState("", All, All, All)
  }

  /** The search text occurs in the name or in the sku, ignoring case. */
  predicate MatchesSearch(search: string, item: Listing)
  {
    ContainsIgnoreCase(item.product.name, search) || ContainsIgnoreCase(item.product.sku, search)
  }

  /** A populated reference matches the chosen id; a missing one never does. */
  predicate MatchesRef(pick: Pick<nat>, ref: Option<Ref>)
  {
    pick.All? || (ref.Some? && ref.value.id == pick.value)
  }

  predicate MatchesStatus(pick: Pick<string>, item: Listing)
  {
    pick.All? || StatusName(item.product.status) == pick.value
  }

  /** The predicate `filteredProducts` applies to each listing. */
  predicate Keeps(f: FilterState, item: Listing)
  {
    && MatchesSearch(f.search, item)
    && MatchesRef(f.category, item.category)
    && MatchesRef(f.supplier, item.supplier)
    && MatchesStatus(f.status, item)
  }

  function FilteredProducts(items: seq<Listing>, f: FilterState): seq<Listing>
  {
    Filter(items, (item: Listing) => Keeps(f, item))
  }

  /** The filtered list keeps the loaded order and drops only listings that
      fail one of the four tests; a listing is shown exactly when it passes
      all four. */
  lemma FilteredProductsSpec(items: seq<Listing>, f: FilterState)
    ensures IsSubsequence(FilteredProducts(items, f), items)
    ensures forall item :: item in FilteredProducts(items, f) <==>
      && item in items
      && MatchesSearch(f.search, item)
      && MatchesRef(f.category, item.category)
      && MatchesRef(f.supplier, item.supplier)
      && MatchesStatus(f.status, item)
    ensures |FilteredProducts(items, f)| <= |items|
  {
    FilterIsSubsequence(items, (item: Listing) => Keeps(f, item));
  }

  /** An empty search matches every listing, and "All" switches off the
      category, supplier and status tests. */
  lemma NeutralChoices(f: FilterState, item: Listing)
    ensures MatchesSearch("", item)
    ensures Keeps(f.(category := All), item) <==>
      MatchesSearch(f.search, item) && MatchesRef(f.supplier, item.supplier) && MatchesStatus(f.status, item)
    ensures Keeps(f.(supplier := All), item) <==>
      MatchesSearch(f.search, item) && MatchesRef(f.category, item.category) && MatchesStatus(f.status, item)
    ensures Keeps(f.(status := All), item) <==>
      MatchesSearch(f.search, item) && MatchesRef(f.category, item.category) && MatchesRef(f.supplier, item.supplier)
  {
    EmptyIsContained(item.product.name);
  }

  /** With the filters cleared, every loaded listing is shown, in order. */
  lemma ClearedKeepsAll(items: seq<Listing>)
    ensures FilteredProducts(items, Cleared()) == items
  {
    forall i | 0 <= i < |items| ensures Keeps(Cleared(), items[i]) {
      NeutralChoices(Cleared(), items[i]);
    }
    FilterKeepsAll(items, (item: Listing) => Keeps(Cleared(), item));
  }

  /** The filter controls of the page. */
  class FilterPanel {
    var search: string
    var category: Pick<nat>
    var supplier: Pick<nat>
    var status: Pick<string>

    function State(): FilterState
      reads this
    {
      FilterState(search, category, supplier, status)
    }

    constructor ()
      ensures State() == Cleared()
    {
      search, category, supplier, status := "", All, All, All;
    }

    /** `handleResetFilters`. */
    method Reset()
      modifies this
      ensures State() == Cleared()
    {
      search := "";
      category := All;
      supplier := All;
      status := All;
    }
  }

  // ---------------------------------------------------------------------
  // Stock buttons

  /** What `adjustStock` does: warn and send nothing, or send an update of
      the quantity alone. */
  datatype StockAction = Warn | Send(id: nat, body: ProductBody)

  /** A new quantity below zero is refused on the page; any other is sent
      to the product's update route carrying only the new quantity. */
  function AdjustStock(id: nat, currentQty: int, amount: int): (r: StockAction)
    ensures r.Warn? <==> currentQty + amount < 0
    ensures r.Send? ==> r.id == id && r.body.quantity == Some(currentQty + amount) && r.body.quantity.value >= 0
    ensures r.Send? ==> r.body == QuantityOnly(r.body.quantity.value)
  {
    var newQty := currentQty + amount;
    if newQty < 0 then Warn else Send(id, QuantityOnly(newQty))
  }

  /** An adjustment the server accepts changes the stored product's quantity
      to the adjusted, non-negative value, re-derives the status from it and
      keeps every other field. */
  lemma AdjustThenUpdate(p: Product, amount: int)
    requires AdjustStock(p.id, p.quantity, amount).Send?
    ensures var b := AdjustStock(p.id, p.quantity, amount).body;
      var r := Saved(Assign(p, b));
      && UpdatableWith(p, b) == (p.name != "" && p.sku != "")
      && r == p.(quantity := p.quantity + amount, status := DeriveStatus(p.quantity + amount, p.lowStockThreshold))
      && r.quantity >= 0
      && (r.status == OutOfStock <==> p.quantity + amount == 0)
  {
  }

  // ---------------------------------------------------------------------
  // Status chip

  datatype Color = Success | Warning | Error

  /** `getStatusColor`. */
  function StatusColor(status: string): (r: Color)
    ensures r == Success <==> status == StatusName(InStock)
    ensures r == Warning <==> status == StatusName(LowStock)
    ensures ParseStatus(status).None? ==> r == Error
  {
    if status == "In Stock" then Success
    else if status == "Low Stock" then Warning
    else Error
  }

  /** The chip of a saved product shows green above the threshold, amber in
      the low-stock band and red with no stock left. */
  lemma StatusColorOfSaved(p: Product)
    ensures StatusColor(StatusName(Saved(p).status)) == Error <==> p.quantity <= 0
    ensures StatusColor(StatusName(Saved(p).status)) == Warning <==> 0 < p.quantity <= p.lowStockThreshold
    ensures StatusColor(StatusName(Saved(p).status)) == Success <==> 0 < p.quantity && p.lowStockThreshold < p.quantity
  {
    DeriveStatusCases(p.quantity, p.lowStockThreshold);
  }
}
