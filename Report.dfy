/** The dashboard statistics of the report service and the category
    distribution of the report controller: read-only aggregations over the
    product collection, joined against the category and supplier
    collections. */
module Report {
  import opened Seqs
  import opened Entities
  import opened ProductModel
  import opened References

  // ---------------------------------------------------------------------
  // Counts by status: `countDocuments({ status })`

  function CountStatus(ps: seq<Product>, s: Status): nat
  {
    if ps == [] then 0
    else (if ps[0].status == s then 1 else 0) + CountStatus(ps[1..], s)
  }

  /** Every product is counted under exactly one status, so the low-stock
      and out-of-stock counts together never exceed the product count. */
  lemma {:induction false} StatusCountsPartition(ps: seq<Product>)
    ensures CountStatus(ps, InStock) + CountStatus(ps, LowStock) + CountStatus(ps, OutOfStock) == |ps|
  {
    if ps != [] {
      StatusCountsPartition(ps[1..]);
    }
  }

  /** A product whose quantity lies in the low-stock band (0, threshold]. */
  predicate InLowBand(p: Product)
  {
    0 < p.quantity <= p.lowStockThreshold
  }

  /** A product with no stock left. */
  predicate Exhausted(p: Product)
  {
    p.quantity <= 0
  }

  /** On a store whose statuses the save hook derived, the status counts are
      the numbers of products in the corresponding quantity bands. */
  lemma {:induction false} StatusCountsFollowQuantities(ps: seq<Product>)
    requires forall p :: p in ps ==> StatusConsistent(p)
    ensures CountStatus(ps, LowStock) == |Filter(ps, InLowBand)|
    ensures CountStatus(ps, OutOfStock) == |Filter(ps, Exhausted)|
  {
    if ps != [] {
      assert ps[0] in ps;
      StatusCountsFollowQuantities(ps[1..]);
    }
  }

  // ---------------------------------------------------------------------
  // Total inventory value: `products.reduce((acc, item) => acc + item.price * item.quantity, 0)`

  /** The left fold the service runs, with its accumulator. */
  function ValueFold(ps: seq<Product>, acc: int): int
  {
    if ps == [] then acc else ValueFold(ps[1..], acc + ps[0].price * ps[0].quantity)
  }

  function TotalValue(ps: seq<Product>): int
  {
    ValueFold(ps, 0)
  }

  /** The independent definition: the sum of price times quantity, from the
      last product backwards. */
  function InventoryValue(ps: seq<Product>): int
  {
    if ps == [] then 0
    else InventoryValue(ps[..|ps| - 1]) + ps[|ps| - 1].price * ps[|ps| - 1].quantity
  }

  lemma {:induction false} InventoryValueCons(p: Product, ps: seq<Product>)
    ensures InventoryValue([p] + ps) == p.price * p.quantity + InventoryValue(ps)
    decreases |ps|
  {
    if ps != [] {
      var last := ps[|ps| - 1];
      assert ([p] + ps)[..|ps|] == [p] + ps[..|ps| - 1];
      InventoryValueCons(p, ps[..|ps| - 1]);
    }
  }

  lemma {:induction false} ValueFoldIsSum(ps: seq<Product>, acc: int)
    ensures ValueFold(ps, acc) == acc + InventoryValue(ps)
  {
    if ps != [] {
      ValueFoldIsSum(ps[1..], acc + ps[0].price * ps[0].quantity);
      InventoryValueCons(ps[0], ps[1..]);
      assert [ps[0]] + ps[1..] == ps;
    }
  }

  /** The reported value equals the sum over all products, 0 for none, and
      it adds up over any split of the product list. */
  lemma TotalValueSpec(ps: seq<Product>, qs: seq<Product>)
    ensures TotalValue(ps) == InventoryValue(ps)
    ensures TotalValue([]) == 0
    ensures TotalValue(ps + qs) == TotalValue(ps) + TotalValue(qs)
  {
    ValueFoldIsSum(ps, 0);
    ValueFoldIsSum(qs, 0);
    ValueFoldIsSum(ps + qs, 0);
    ValueFoldIsSum(qs, ValueFold(ps, 0));
    FoldAppend(ps, qs, 0);
  }

  lemma {:induction false} FoldAppend(ps: seq<Product>, qs: seq<Product>, acc: int)
    ensures ValueFold(ps + qs, acc) == ValueFold(qs, ValueFold(ps, acc))
  {
    if ps != [] {
      assert (ps + qs)[1..] == ps[1..] + qs;
      FoldAppend(ps[1..], qs, acc + ps[0].price * ps[0].quantity);
    } else {
      assert ps + qs == qs;
    }
  }

  // ---------------------------------------------------------------------
  // Breakdowns: `$group` by reference, `$lookup` of the parent,
  // `$unwind` (which drops groups without a parent), `$project`

  /** One `$group` output document: a reference value and how often it occurs. */
  datatype Group = Group(key: nat, count: nat)

  function GroupKey(g: Group): nat { g.key }

  /** The count of the group with key `k`, 0 when there is none. */
  function CountOf(gs: seq<Group>, k: nat): nat
  {
    if gs == [] then 0
    else (if gs[0].key == k then gs[0].count else 0) + CountOf(gs[1..], k)
  }

  function SumCounts(gs: seq<Group>): nat
  {
    if gs == [] then 0 else gs[0].count + SumCounts(gs[1..])
  }

  function Keys(gs: seq<Group>): set<nat>
  {
    set g | g in gs :: g.key
  }

  /** Adds one occurrence of `x`: its group's count goes up, or a new group
      with count 1 is added. */
  function Bump(gs: seq<Group>, x: nat): seq<Group>
  {
    if gs == [] then [Group(x, 1)]
    else if gs[0].key == x then [Group(x, gs[0].count + 1)] + gs[1..]
    else [gs[0]] + Bump(gs[1..], x)
  }

  /** `{ $group: { _id: ref, count: { $sum: 1 } } }`. */
  function GroupRefs(refs: seq<nat>): seq<Group>
  {
    if refs == [] then [] else Bump(GroupRefs(refs[1..]), refs[0])
  }

  /** Bumping adds one occurrence of `x` and leaves every other count. */
  lemma {:induction false} BumpCounts(gs: seq<Group>, x: nat)
    ensures forall k :: CountOf(Bump(gs, x), k) == CountOf(gs, k) + (if k == x then 1 else 0)
    ensures SumCounts(Bump(gs, x)) == SumCounts(gs) + 1
  {
    if gs != [] && gs[0].key != x {
      BumpCounts(gs[1..], x);
      assert Bump(gs, x)[1..] == Bump(gs[1..], x);
    } else if gs != [] {
      assert Bump(gs, x)[1..] == gs[1..];
    }
  }

  /** Bumping adds `x` to the keys. */
  lemma {:induction false} BumpKeys(gs: seq<Group>, x: nat)
    ensures Keys(Bump(gs, x)) == Keys(gs) + {x}
  {
    if gs != [] {
      var tail := gs[1..];
      assert forall g :: g in gs <==> g == gs[0] || g in tail by {
        assert gs == [gs[0]] + tail;
      }
      if gs[0].key == x {
        var h := Group(x, gs[0].count + 1);
        assert forall g :: g in [h] + tail <==> g == h || g in tail;
      } else {
        BumpKeys(tail, x);
        var b := Bump(tail, x);
        assert forall g :: g in [gs[0]] + b <==> g == gs[0] || g in b;
        assert Keys([gs[0]] + b) == {gs[0].key} + Keys(b);
        assert Keys(gs) == {gs[0].key} + Keys(tail);
      }
    }
  }

  /** Bumping a grouping with distinct keys keeps them distinct. */
  lemma {:induction false} BumpUnique(gs: seq<Group>, x: nat)
    requires UniqueBy(gs, GroupKey)
    ensures UniqueBy(Bump(gs, x), GroupKey)
  {
    if gs != [] {
      var tail := gs[1..];
      TailKeepsUniqueBy(gs, GroupKey);
      if gs[0].key == x {
        ConsKeepsUniqueBy(Group(x, gs[0].count + 1), tail, GroupKey);
      } else {
        BumpUnique(tail, x);
        BumpKeys(tail, x);
        var b := Bump(tail, x);
        forall j | 0 <= j < |b| ensures GroupKey(gs[0]) != GroupKey(b[j]) {
          assert b[j] in b;
          assert b[j].key in Keys(b);
          if b[j].key != x {
            var g :| g in tail && g.key == b[j].key;
          }
        }
        ConsKeepsUniqueBy(gs[0], b, GroupKey);
      }
    }
  }

  /** The grouping has one group per distinct reference, each counting that
      reference's occurrences, and the counts add up to the number of
      references. */
  lemma {:induction false} GroupRefsSpec(refs: seq<nat>)
    ensures UniqueBy(GroupRefs(refs), GroupKey)
    ensures Keys(GroupRefs(refs)) == set r | r in refs
    ensures forall k :: CountOf(GroupRefs(refs), k) == multiset(refs)[k]
    ensures SumCounts(GroupRefs(refs)) == |refs|
  {
    if refs != [] {
      GroupRefsSpec(refs[1..]);
      BumpCounts(GroupRefs(refs[1..]), refs[0]);
      BumpKeys(GroupRefs(refs[1..]), refs[0]);
      BumpUnique(GroupRefs(refs[1..]), refs[0]);
      assert refs == [refs[0]] + refs[1..];
      assert (set r | r in refs) == (set r | r in refs[1..]) + {refs[0]};
      forall k ensures CountOf(GroupRefs(refs), k) == multiset(refs)[k] {
        assert multiset(refs) == multiset{refs[0]} + multiset(refs[1..]);
      }
    }
  }

  /** A key no group carries counts 0. */
  lemma {:induction false} CountOfAbsent(gs: seq<Group>, k: nat)
    requires forall g :: g in gs ==> g.key != k
    ensures CountOf(gs, k) == 0
  {
    if gs != [] {
      assert gs[0] in gs;
      CountOfAbsent(gs[1..], k);
    }
  }

  /** In a unique grouping, a group's count is the count recorded for its key. */
  lemma {:induction false} CountOfMember(gs: seq<Group>, g: Group)
    requires UniqueBy(gs, GroupKey) && g in gs
    ensures CountOf(gs, g.key) == g.count
  {
    TailKeepsUniqueBy(gs, GroupKey);
    if gs[0] == g {
      CountOfAbsent(gs[1..], g.key);
    } else {
      assert g in gs[1..];
      CountOfMember(gs[1..], g);
    }
  }

  /** One breakdown entry: the parent's id and name and its product count. */
  datatype Entry = Entry(id: nat, name: string, count: nat)

  function EntryId(e: Entry): nat { e.id }

  function EntryIds(es: seq<Entry>): set<nat>
  {
    set e | e in es :: e.id
  }

  function SumEntries(es: seq<Entry>): nat
  {
    if es == [] then 0 else es[0].count + SumEntries(es[1..])
  }

  /** The name of the first parent with that id, if any. */
  function LookupName(parents: seq<Ref>, id: nat): (r: Option<string>)
    ensures r.Some? ==> exists i :: 0 <= i < |parents| && parents[i] == Ref(id, r.value)
    ensures r.None? <==> forall i :: 0 <= i < |parents| ==> parents[i].id != id
  {
    match IndexWhere(parents, (x: Ref) => x.id == id)
    case None => None
    case Some(i) => Some(parents[i].name)
  }

  /** `$lookup` + `$unwind` + `$project`: keep the groups whose key names an
      existing parent, with that parent's name. */
  function Join(gs: seq<Group>, parents: seq<Ref>): seq<Entry>
  {
    if gs == [] then []
    else
      (match LookupName(parents, gs[0].key)
       case None => []
       case Some(n) => [Entry(gs[0].key, n, gs[0].count)])
      + Join(gs[1..], parents)
  }

  lemma {:induction false} JoinSpec(gs: seq<Group>, parents: seq<Ref>)
    requires UniqueBy(gs, GroupKey)
    ensures UniqueBy(Join(gs, parents), EntryId)
    ensures forall e :: e in Join(gs, parents) ==>
      Group(e.id, e.count) in gs && LookupName(parents, e.id) == Some(e.name)
    ensures forall k :: k in EntryIds(Join(gs, parents)) <==> k in Keys(gs) && LookupName(parents, k).Some?
    ensures SumEntries(Join(gs, parents)) <= SumCounts(gs)
    ensures (forall k :: k in Keys(gs) ==> LookupName(parents, k).Some?) ==>
      SumEntries(Join(gs, parents)) == SumCounts(gs)
  {
    if gs != [] {
      var tail := gs[1..];
      TailKeepsUniqueBy(gs, GroupKey);
      JoinSpec(tail, parents);
      JoinHead(gs, parents);
    }
  }

  /** The inductive step of `JoinSpec`, with the tail's facts as premises. */
  lemma JoinHead(gs: seq<Group>, parents: seq<Ref>)
    requires gs != [] && UniqueBy(gs[1..], GroupKey)
    requires forall g :: g in gs[1..] ==> g.key != gs[0].key
    requires UniqueBy(Join(gs[1..], parents), EntryId)
    requires forall e :: e in Join(gs[1..], parents) ==>
      Group(e.id, e.count) in gs[1..] && LookupName(parents, e.id) == Some(e.name)
    requires forall k :: k in EntryIds(Join(gs[1..], parents)) <==> k in Keys(gs[1..]) && LookupName(parents, k).Some?
    requires SumEntries(Join(gs[1..], parents)) <= SumCounts(gs[1..])
    requires (forall k :: k in Keys(gs[1..]) ==> LookupName(parents, k).Some?) ==>
      SumEntries(Join(gs[1..], parents)) == SumCounts(gs[1..])
    ensures UniqueBy(Join(gs, parents), EntryId)
    ensures forall e :: e in Join(gs, parents) ==>
      Group(e.id, e.count) in gs && LookupName(parents, e.id) == Some(e.name)
    ensures forall k :: k in EntryIds(Join(gs, parents)) <==> k in Keys(gs) && LookupName(parents, k).Some?
    ensures SumEntries(Join(gs, parents)) <= SumCounts(gs)
    ensures (forall k :: k in Keys(gs) ==> LookupName(parents, k).Some?) ==>
      SumEntries(Join(gs, parents)) == SumCounts(gs)
  {
    var tail := gs[1..];
    var rest := Join(tail, parents);
    assert gs == [gs[0]] + tail;
    assert forall g :: g in gs <==> g == gs[0] || g in tail;
    assert Keys(gs) == {gs[0].key} + Keys(tail);
    match LookupName(parents, gs[0].key)
    case None =>
      assert Join(gs, parents) == rest;
    case Some(n) =>
      var e := Entry(gs[0].key, n, gs[0].count);
      assert Join(gs, parents) == [e] + rest;
      ConsEntry(e, rest);
  }

  /** Adding an entry whose id no other entry has. */
  lemma ConsEntry(e: Entry, rest: seq<Entry>)
    requires UniqueBy(rest, EntryId) && e.id !in EntryIds(rest)
    ensures UniqueBy([e] + rest, EntryId)
    ensures EntryIds([e] + rest) == {e.id} + EntryIds(rest)
    ensures forall x :: x in [e] + rest <==> x == e || x in rest
    ensures SumEntries([e] + rest) == e.count + SumEntries(rest)
  {
    assert forall x :: x in [e] + rest <==> x == e || x in rest;
    forall j | 0 <= j < |rest| ensures EntryId(e) != EntryId(rest[j]) {
      assert rest[j] in rest;
    }
    ConsKeepsUniqueBy(e, rest, EntryId);
    assert ([e] + rest)[1..] == rest;
  }

  /** A breakdown: group the references, then join against the parents. */
  function Breakdown(refs: seq<nat>, parents: seq<Ref>): seq<Entry>
  {
    Join(GroupRefs(refs), parents)
  }

  /** One entry per distinct reference that names an existing parent, no
      other entry; each with that parent's name and its number of
      occurrences; the counts sum to at most the number of references, and
      to exactly that when no reference dangles. */
  lemma BreakdownSpec(refs: seq<nat>, parents: seq<Ref>)
    ensures UniqueBy(Breakdown(refs, parents), EntryId)
    ensures forall e :: e in Breakdown(refs, parents) ==>
      e.count == multiset(refs)[e.id] && e.count > 0 && LookupName(parents, e.id) == Some(e.name)
    ensures forall k :: k in EntryIds(Breakdown(refs, parents)) <==> k in refs && LookupName(parents, k).Some?
    ensures SumEntries(Breakdown(refs, parents)) <= |refs|
    ensures (forall k :: k in refs ==> LookupName(parents, k).Some?) ==>
      SumEntries(Breakdown(refs, parents)) == |refs|
  {
    var gs := GroupRefs(refs);
    GroupRefsSpec(refs);
    JoinSpec(gs, parents);
    forall e | e in Breakdown(refs, parents)
      ensures e.count == multiset(refs)[e.id] && e.count > 0
    {
      CountOfMember(gs, Group(e.id, e.count));
      assert e.id in Keys(gs);
    }
    forall k ensures k in Keys(gs) <==> k in refs {
      assert k in Keys(gs) <==> k in (set r | r in refs);
    }
  }

  // ---------------------------------------------------------------------
  // The category and supplier breakdowns

  function CategoryRefs(ps: seq<Product>): seq<nat>
  {
    if ps == [] then [] else [ps[0].category] + CategoryRefs(ps[1..])
  }

  function SupplierRefs(ps: seq<Product>): seq<nat>
  {
    if ps == [] then [] else [ps[0].supplier] + SupplierRefs(ps[1..])
  }

  function CategoryParents(cs: seq<Category>): seq<Ref>
  {
    seq(|cs|, i requires 0 <= i < |cs| => Ref(cs[i].id, cs[i].name))
  }

  function SupplierParents(ss: seq<Supplier>): seq<Ref>
  {
    seq(|ss|, i requires 0 <= i < |ss| => Ref(ss[i].id, ss[i].name))
  }

  /** A category's occurrences among the references are its linked products. */
  lemma {:induction false} CategoryRefsCount(ps: seq<Product>, id: nat)
    ensures multiset(CategoryRefs(ps))[id] == |ProductsOfCategory(ps, id)|
    ensures id in CategoryRefs(ps) <==> exists p :: p in ps && p.category == id
  {
    if ps != [] {
      CategoryRefsCount(ps[1..], id);
      assert multiset(CategoryRefs(ps)) == multiset{ps[0].category} + multiset(CategoryRefs(ps[1..]));
      assert forall p :: p in ps <==> p == ps[0] || p in ps[1..] by {
        assert ps == [ps[0]] + ps[1..];
      }
    }
  }

  lemma {:induction false} SupplierRefsCount(ps: seq<Product>, id: nat)
    ensures multiset(SupplierRefs(ps))[id] == |ProductsOfSupplier(ps, id)|
    ensures id in SupplierRefs(ps) <==> exists p :: p in ps && p.supplier == id
  {
    if ps != [] {
      SupplierRefsCount(ps[1..], id);
      assert multiset(SupplierRefs(ps)) == multiset{ps[0].supplier} + multiset(SupplierRefs(ps[1..]));
      assert forall p :: p in ps <==> p == ps[0] || p in ps[1..] by {
        assert ps == [ps[0]] + ps[1..];
      }
    }
  }

  lemma {:induction false} CategoryRefsLength(ps: seq<Product>)
    ensures |CategoryRefs(ps)| == |ps|
  {
    if ps != [] { CategoryRefsLength(ps[1..]); }
  }

  lemma {:induction false} SupplierRefsLength(ps: seq<Product>)
    ensures |SupplierRefs(ps)| == |ps|
  {
    if ps != [] { SupplierRefsLength(ps[1..]); }
  }

  /** `categoryStats` (also the controller's `categoryDistribution`). */
  function CategoryStats(ps: seq<Product>, cs: seq<Category>): seq<Entry>
  {
    Breakdown(CategoryRefs(ps), CategoryParents(cs))
  }

  /** `supplierStats`. */
  function SupplierStats(ps: seq<Product>, ss: seq<Supplier>): seq<Entry>
  {
    Breakdown(SupplierRefs(ps), SupplierParents(ss))
  }

  /** A category is in the breakdown exactly when some product references
      it and it exists, under its own name and with its product count;
      categories without products and products whose category is missing
      contribute nothing; the counts sum to at most the product count, and
      to exactly it when every product's category exists. */
  lemma CategoryStatsSpec(ps: seq<Product>, cs: seq<Category>)
    ensures UniqueBy(CategoryStats(ps, cs), EntryId)
    ensures forall e :: e in CategoryStats(ps, cs) ==>
      && e.count == |ProductsOfCategory(ps, e.id)| && e.count > 0
      && exists c :: c in cs && c.id == e.id && c.name == e.name
    ensures forall k :: k in EntryIds(CategoryStats(ps, cs)) <==>
      (exists p :: p in ps && p.category == k) && (exists c :: c in cs && c.id == k)
    ensures SumEntries(CategoryStats(ps, cs)) <= |ps|
    ensures (forall p :: p in ps ==> exists c :: c in cs && c.id == p.category) ==>
      SumEntries(CategoryStats(ps, cs)) == |ps|
  {
    var refs := CategoryRefs(ps);
    var parents := CategoryParents(cs);
    BreakdownSpec(refs, parents);
    CategoryRefsLength(ps);
    forall k ensures (LookupName(parents, k).Some? <==> exists c :: c in cs && c.id == k)
      && (k in refs <==> exists p :: p in ps && p.category == k)
      && multiset(refs)[k] == |ProductsOfCategory(ps, k)|
    {
      CategoryParentsSpec(cs, k);
      CategoryRefsCount(ps, k);
    }
    forall e | e in CategoryStats(ps, cs) ensures exists c :: c in cs && c.id == e.id && c.name == e.name {
      CategoryParentsSpec(cs, e.id);
    }
  }

  /** A category id has a parent entry exactly when the category exists,
      under that category's name. */
  lemma CategoryParentsSpec(cs: seq<Category>, k: nat)
    ensures LookupName(CategoryParents(cs), k).Some? <==> exists c :: c in cs && c.id == k
    ensures LookupName(CategoryParents(cs), k).Some? ==>
      exists c :: c in cs && c.id == k && c.name == LookupName(CategoryParents(cs), k).value
  {
    var parents := CategoryParents(cs);
    if LookupName(parents, k).None? {
      forall c | c in cs ensures c.id != k {
        var i :| 0 <= i < |cs| && cs[i] == c;
        assert parents[i].id == c.id;
      }
    } else {
      var i :| 0 <= i < |parents| && parents[i] == Ref(k, LookupName(parents, k).value);
      assert cs[i] in cs;
    }
  }

  /** Supplier counterpart of `CategoryStatsSpec`. */
  lemma SupplierStatsSpec(ps: seq<Product>, ss: seq<Supplier>)
    ensures UniqueBy(SupplierStats(ps, ss), EntryId)
    ensures forall e :: e in SupplierStats(ps, ss) ==>
      && e.count == |ProductsOfSupplier(ps, e.id)| && e.count > 0
      && exists s :: s in ss && s.id == e.id && s.name == e.name
    ensures forall k :: k in EntryIds(SupplierStats(ps, ss)) <==>
      (exists p :: p in ps && p.supplier == k) && (exists s :: s in ss && s.id == k)
    ensures SumEntries(SupplierStats(ps, ss)) <= |ps|
    ensures (forall p :: p in ps ==> exists s :: s in ss && s.id == p.supplier) ==>
      SumEntries(SupplierStats(ps, ss)) == |ps|
  {
    var refs := SupplierRefs(ps);
    var parents := SupplierParents(ss);
    BreakdownSpec(refs, parents);
    SupplierRefsLength(ps);
    forall k ensures (LookupName(parents, k).Some? <==> exists s :: s in ss && s.id == k)
      && (k in refs <==> exists p :: p in ps && p.supplier == k)
      && multiset(refs)[k] == |ProductsOfSupplier(ps, k)|
    {
      SupplierParentsSpec(ss, k);
      SupplierRefsCount(ps, k);
    }
    forall e | e in SupplierStats(ps, ss) ensures exists s :: s in ss && s.id == e.id && s.name == e.name {
      SupplierParentsSpec(ss, e.id);
    }
  }

  /** A supplier id has a parent entry exactly when the supplier exists,
      under that supplier's name. */
  lemma SupplierParentsSpec(ss: seq<Supplier>, k: nat)
    ensures LookupName(SupplierParents(ss), k).Some? <==> exists s :: s in ss && s.id == k
    ensures LookupName(SupplierParents(ss), k).Some? ==>
      exists s :: s in ss && s.id == k && s.name == LookupName(SupplierParents(ss), k).value
  {
    var parents := SupplierParents(ss);
    if LookupName(parents, k).None? {
      forall s | s in ss ensures s.id != k {
        var i :| 0 <= i < |ss| && ss[i] == s;
        assert parents[i].id == s.id;
      }
    } else {
      var i :| 0 <= i < |parents| && parents[i] == Ref(k, LookupName(parents, k).value);
      assert ss[i] in ss;
    }
  }

  // ---------------------------------------------------------------------
  // The two entry points

  datatype DashboardStats = DashboardStats(
    totalProducts: nat,
    lowStockItems: nat,
    outOfStockItems: nat,
    totalValue: int,
    categoryStats: seq<Entry>,
    supplierStats: seq<Entry>)

  /** `getDashboardStats`: the report over the current collections. */
  function GetDashboardStats(ps: seq<Product>, cs: seq<Category>, ss: seq<Supplier>): DashboardStats
  {
    DashboardStats(|ps|, CountStatus(ps, LowStock), CountStatus(ps, OutOfStock), TotalValue(ps),
                   CategoryStats(ps, cs), SupplierStats(ps, ss))
  }

  /** The counts agree with each other and with the quantity bands, the value
      is the sum of price times quantity, and each breakdown accounts for at
      most every product. */
  lemma DashboardStatsSpec(ps: seq<Product>, cs: seq<Category>, ss: seq<Supplier>)
    ensures var r := GetDashboardStats(ps, cs, ss);
      && r.totalProducts == |ps|
      && r.lowStockItems + r.outOfStockItems <= r.totalProducts
      && r.totalValue == InventoryValue(ps)
      && (ps == [] ==> r.totalValue == 0 && r.categoryStats == [] && r.supplierStats == [])
      && SumEntries(r.categoryStats) <= r.totalProducts
      && SumEntries(r.supplierStats) <= r.totalProducts
      && ((forall p :: p in ps ==> StatusConsistent(p)) ==>
            r.lowStockItems == |Filter(ps, InLowBand)| && r.outOfStockItems == |Filter(ps, Exhausted)|)
  {
    StatusCountsPartition(ps);
    TotalValueSpec(ps, []);
    CategoryStatsSpec(ps, cs);
    SupplierStatsSpec(ps, ss);
    if forall p :: p in ps ==> StatusConsistent(p) {
      StatusCountsFollowQuantities(ps);
    }
  }

  /** `getAnalytics`: the category distribution, or 500 when the aggregation
      fails (`fails` stands for the store's failure). */
  function GetAnalytics(ps: seq<Product>, cs: seq<Category>, fails: bool): (r: Reply<seq<Entry>>)
    ensures fails ==> r == ServerError
    ensures !fails ==> r.Ok?
    ensures r.Ok? ==> SumEntries(r.value) <= |ps| && UniqueBy(r.value, EntryId)
    ensures r.Ok? ==> forall e :: e in r.value ==>
      e.count == |ProductsOfCategory(ps, e.id)| && e.count > 0
    ensures r.Ok? ==> forall k :: k in EntryIds(r.value) <==>
      (exists p :: p in ps && p.category == k) && (exists c :: c in cs && c.id == k)
  {
    if fails then ServerError
    else
      CategoryStatsSpec(ps, cs);
      Ok(CategoryStats(ps, cs))
  }

  /** Two products of supplier A (price 10 times 2, price 5 times 4) and one
      out-of-stock product of supplier B. */
  function ScenarioProducts(): seq<Product>
  {
    [Product(10, "P1", "S-1", 7, 1, 2, 10, 10, LowStock, 0),
     Product(11, "P2", "S-2", 7, 1, 4, 5, 10, LowStock, 0),
     Product(12, "P3", "S-3", 7, 2, 0, 3, 10, OutOfStock, 0)]
  }

  function ScenarioSuppliers(): seq<Supplier>
  {
    [Supplier(1, "A", None, "a@example.com", None, None, 0),
     Supplier(2, "B", None, "b@example.com", None, None, 0)]
  }

  /** The supplier breakdown is A with 2 products and B with 1, the value is
      10*2 + 5*4 = 40, and with no category records the category breakdown is
      empty. */
  lemma SupplierScenario()
    ensures var r := GetDashboardStats(ScenarioProducts(), [], ScenarioSuppliers());
      && r.totalValue == 40
      && multiset(r.supplierStats) == multiset{Entry(1, "A", 2), Entry(2, "B", 1)}
      && r.categoryStats == []
      && r.lowStockItems == 2 && r.outOfStockItems == 1
  {
    ScenarioSupplierStats();
    ScenarioCategoryStats();
    ScenarioTotals();
  }

  lemma ScenarioSupplierStats()
    ensures SupplierStats(ScenarioProducts(), ScenarioSuppliers()) == [Entry(2, "B", 1), Entry(1, "A", 2)]
  {
    var ps := ScenarioProducts();
    var parents := SupplierParents(ScenarioSuppliers());
    assert ps[1..][1..] == [ps[2]] && ps[2..][1..] == [];
    assert SupplierRefs(ps) == [1, 1, 2];
    var refs: seq<nat> := [1, 1, 2];
    assert refs[1..] == [1, 2] && refs[1..][1..] == [2] && [2][1..] == [];
    assert GroupRefs([2]) == [Group(2, 1)];
    assert GroupRefs([1, 2]) == [Group(2, 1), Group(1, 1)];
    assert Bump([Group(2, 1), Group(1, 1)], 1) == [Group(2, 1), Group(1, 2)];
    assert GroupRefs(refs) == [Group(2, 1), Group(1, 2)];
    assert parents == [Ref(1, "A"), Ref(2, "B")];
    assert LookupName(parents, 2) == Some("B");
    assert LookupName(parents, 1) == Some("A");
    var gs := [Group(2, 1), Group(1, 2)];
    assert gs[1..] == [Group(1, 2)] && gs[1..][1..] == [];
    assert Join(gs, parents) == [Entry(2, "B", 1), Entry(1, "A", 2)];
  }

  lemma ScenarioCategoryStats()
    ensures CategoryStats(ScenarioProducts(), []) == []
  {
    var ps := ScenarioProducts();
    assert ps[1..][1..] == [ps[2]] && ps[2..][1..] == [];
    assert CategoryRefs(ps) == [7, 7, 7];
    var refs: seq<nat> := [7, 7, 7];
    assert refs[1..] == [7, 7] && refs[1..][1..] == [7] && [7][1..] == [];
    assert GroupRefs(refs) == [Group(7, 3)];
    assert LookupName([], 7) == None;
  }

  lemma ScenarioTotals()
    ensures TotalValue(ScenarioProducts()) == 40
    ensures CountStatus(ScenarioProducts(), LowStock) == 2
    ensures CountStatus(ScenarioProducts(), OutOfStock) == 1
  {
    var ps := ScenarioProducts();
    assert ps[1..][1..] == [ps[2]] && ps[2..][1..] == [];
    assert ValueFold(ps, 0) == ValueFold(ps[1..], 20);
    assert ValueFold(ps[1..], 20) == ValueFold([ps[2]], 40);
    assert ValueFold([ps[2]], 40) == ValueFold([], 40);
  }
}
