/** `OrderService.recommend`: counts the ordered units, expands the catalog products
    into one entry per unit, takes the frozen ones out, runs `seperateBox` on the
    rest with the paper boxes and on the frozen ones with the styrofoam boxes, and
    turns the packed boxes into output records. */
module OrderService {
  import opened Collections
  import opened Entities
  import opened WeightPartition
  import opened BoxSelection
  import opened RetryPacking

  // ---------------------------------------------------------------------------
  // Boxes by texture (lines 69-77)

  method SplitBoxesByTexture(boxList: seq<Box>) returns (styrofoamBox: seq<Box>, paperBox: seq<Box>)
    ensures styrofoamBox == Filter(boxList, IsStyrofoamBox)
    ensures paperBox == Filter(boxList, IsPaperBox)
  {
    styrofoamBox, paperBox := [], [];
    for i := 0 to |boxList|
      invariant styrofoamBox == Filter(boxList[..i], IsStyrofoamBox)
      invariant paperBox == Filter(boxList[..i], IsPaperBox)
    {
      assert boxList[..i + 1][..i] == boxList[..i];
      var b := boxList[i];
      if b.texture == Styrofoam {
        styrofoamBox := styrofoamBox + [b];
      } else {
        paperBox := paperBox + [b];
      }
    }
    assert boxList[..|boxList|] == boxList;
  }

  /** Every box is in exactly one of the two lists. */
  lemma BoxTexturesPartition(boxList: seq<Box>)
    ensures multiset(Filter(boxList, IsStyrofoamBox)) + multiset(Filter(boxList, IsPaperBox)) == multiset(boxList)
  {
    FilterPartition(boxList, IsStyrofoamBox, IsPaperBox);
  }

  // ---------------------------------------------------------------------------
  // Unit counts (lines 89-96)

  /** The `productCount` map: a later line for the same product replaces the count
      of an earlier one (`HashMap.put`). */
  function CountByProduct(opList: seq<OrderLine>): map<string, int>
  {
    if opList == [] then map[]
    else
      var op := opList[|opList| - 1];
      CountByProduct(opList[..|opList| - 1])[op.productId := op.count]
  }

  method CountProducts(opList: seq<OrderLine>) returns (productCount: map<string, int>)
    ensures productCount == CountByProduct(opList)
  {
    productCount := map[];
    for i := 0 to |opList|
      invariant productCount == CountByProduct(opList[..i])
    {
      assert opList[..i + 1][..i] == opList[..i];
      var op := opList[i];
      productCount := productCount[op.productId := op.count];
    }
    assert opList[..|opList|] == opList;
  }

  /** The map has a key for exactly the products that have an order line. */
  lemma {:induction false} CountKeys(opList: seq<OrderLine>, id: string)
    ensures id in CountByProduct(opList) <==> exists i :: 0 <= i < |opList| && opList[i].productId == id
  {
    if opList != [] {
      var init := opList[..|opList| - 1];
      CountKeys(init, id);
      if id in CountByProduct(init) {
        var i :| 0 <= i < |init| && init[i].productId == id;
        assert opList[i].productId == id;
      }
      if exists i :: 0 <= i < |opList| && opList[i].productId == id {
        var i :| 0 <= i < |opList| && opList[i].productId == id;
        if i < |init| {
          assert init[i].productId == id;
        }
      }
    }
  }

  /** The count of a product is that of its last order line. */
  lemma {:induction false} CountLastWins(opList: seq<OrderLine>, j: nat)
    requires j < |opList|
    requires forall m :: j < m < |opList| ==> opList[m].productId != opList[j].productId
    ensures opList[j].productId in CountByProduct(opList)
    ensures CountByProduct(opList)[opList[j].productId] == opList[j].count
  {
    if j < |opList| - 1 {
      CountLastWins(opList[..|opList| - 1], j);
    }
  }

  // ---------------------------------------------------------------------------
  // One entry per ordered unit (lines 115-124)

  /** Every catalog product has a count. */
  predicate Counted(ps: seq<Product>, counts: map<string, int>)
  {
    forall p :: p in ps ==> p.id in counts
  }

  /** The copies added for a product ordered `count` times: none unless the count
      is above 1. */
  function ExtraCopies(count: int): nat
  {
    if count > 1 then count - 1 else 0
  }

  /** The copies appended after the catalog list, product by product. */
  function Extras(ps: seq<Product>, counts: map<string, int>): seq<Product>
    requires Counted(ps, counts)
  {
    if ps == [] then []
    else
      var p := ps[|ps| - 1];
      Extras(ps[..|ps| - 1], counts) + Repeat(p, ExtraCopies(counts[p.id]))
  }

  function Expand(ps: seq<Product>, counts: map<string, int>): seq<Product>
    requires Counted(ps, counts)
  {
    ps + Extras(ps, counts)
  }

  /** The expansion loop: for each of the catalog products (only those present
      before the loop), `count - 1` more copies are appended. */
  method ExpandOrder(products: seq<Product>, productCount: map<string, int>) returns (expanded: seq<Product>)
    requires Counted(products, productCount)
    ensures expanded == Expand(products, productCount)
  {
    expanded := products;
    var size := |products|;
    for i := 0 to size
      invariant expanded == products + Extras(products[..i], productCount)
    {
      assert products[..i + 1][..i] == products[..i];
      var productId := expanded[i].id;
      if productCount[productId] > 1 {
        var count := productCount[productId];
        for j := 0 to count - 1
          invariant expanded == products + Extras(products[..i], productCount) + Repeat(products[i], j)
        {
          expanded := expanded + [expanded[i]];
        }
      }
    }
    assert products[..|products|] == products;
  }

  lemma {:induction false} ExtrasMembers(ps: seq<Product>, counts: map<string, int>)
    requires Counted(ps, counts)
    ensures forall x :: x in Extras(ps, counts) ==> x in ps
  {
    if ps != [] {
      var init := ps[..|ps| - 1];
      var p := ps[|ps| - 1];
      ExtrasMembers(init, counts);
      assert ps == init + [p];
      forall x | x in Extras(ps, counts) ensures x in ps {
        var copies := Repeat(p, ExtraCopies(counts[p.id]));
        if x in copies {
          assert x in multiset(copies);
          RepeatCount(p, ExtraCopies(counts[p.id]), x);
        } else {
          assert x in Extras(init, counts);
        }
      }
    }
  }

  /** Expansion adds only copies of catalog products. */
  lemma ExpandMembers(ps: seq<Product>, counts: map<string, int>)
    requires Counted(ps, counts)
    ensures forall x :: x in Expand(ps, counts) <==> x in ps
    ensures WeightsInRange(ps) ==> WeightsInRange(Expand(ps, counts))
  {
    ExtrasMembers(ps, counts);
  }

  predicate DistinctIds(ps: seq<Product>)
  {
    forall i, j :: 0 <= i < j < |ps| ==> ps[i].id != ps[j].id
  }

  lemma {:induction false} ExtrasCount(ps: seq<Product>, counts: map<string, int>, x: Product)
    requires Counted(ps, counts) && DistinctIds(ps)
    ensures multiset(Extras(ps, counts))[x] == if x in ps then ExtraCopies(counts[x.id]) else 0
  {
    if ps != [] {
      var init := ps[..|ps| - 1];
      var p := ps[|ps| - 1];
      assert ps == init + [p];
      assert Counted(init, counts) && DistinctIds(init) by {
        forall q | q in init ensures q.id in counts {
          assert q in ps;
        }
      }
      ExtrasCount(init, counts, x);
      var copies := Repeat(p, ExtraCopies(counts[p.id]));
      RepeatCount(p, ExtraCopies(counts[p.id]), x);
      assert multiset(Extras(ps, counts)) == multiset(Extras(init, counts)) + multiset(copies);
      if x == p {
        forall i | 0 <= i < |init| ensures init[i] != p {
          assert ps[i].id != ps[|ps| - 1].id;
        }
        assert x !in init;
      } else {
        assert x in ps <==> x in init;
      }
    }
  }

  lemma {:induction false} DistinctCount(ps: seq<Product>, x: Product)
    requires DistinctIds(ps) && x in ps
    ensures multiset(ps)[x] == 1
  {
    var init := ps[..|ps| - 1];
    var p := ps[|ps| - 1];
    assert ps == init + [p];
    forall i | 0 <= i < |init| ensures init[i] != p {
      assert ps[i].id != ps[|ps| - 1].id;
    }
    if x != p {
      DistinctCount(init, x);
    }
  }

  /** With one catalog record per product, each product appears as many times as
      it was ordered, and once when its count is 1 or less. */
  lemma ExpandMultiplicity(ps: seq<Product>, counts: map<string, int>, i: nat)
    requires Counted(ps, counts) && DistinctIds(ps) && i < |ps|
    ensures multiset(Expand(ps, counts))[ps[i]] == if counts[ps[i].id] > 1 then counts[ps[i].id] else 1
  {
    ExtrasCount(ps, counts, ps[i]);
    DistinctCount(ps, ps[i]);
  }

  // ---------------------------------------------------------------------------
  // Frozen products out (lines 127-133)

  /** `frozen.add(products.remove(i--))`: frozen products are removed in place and
      collected; the index steps back so the product moved into the gap is seen. */
  method ExtractFrozen(products: seq<Product>) returns (rest: seq<Product>, frozen: seq<Product>)
    ensures rest == Filter(products, NotFrozen)
    ensures frozen == Filter(products, IsFrozen)
  {
    rest := products;
    frozen := [];
    var i := 0;
    ghost var seen := 0;
    while i < |rest|
      invariant ExtractInv(products, rest, frozen, i, seen)
      decreases |rest| - i
    {
      ExtractStep(products, rest, frozen, i, seen);
      if rest[i].storage == Frozen {
        frozen := frozen + [rest[i]];
        rest := rest[..i] + rest[i + 1..];
        i := i - 1;
      }
      i := i + 1;
      seen := seen + 1;
    }
    assert products[..seen] == products;
    assert rest[..i] == rest;
  }

  /** After `seen` products of the input: `rest` keeps the non-frozen ones before
      index `i` and the unseen ones from `i` on, and `frozen` holds the frozen ones. */
  predicate ExtractInv(products: seq<Product>, rest: seq<Product>, frozen: seq<Product>, i: int, seen: int)
  {
    && 0 <= i <= seen <= |products| && i <= |rest|
    && rest[i..] == products[seen..]
    && rest[..i] == Filter(products[..seen], NotFrozen)
    && frozen == Filter(products[..seen], IsFrozen)
  }

  lemma ExtractStep(products: seq<Product>, rest: seq<Product>, frozen: seq<Product>, i: int, seen: int)
    requires ExtractInv(products, rest, frozen, i, seen) && i < |rest|
    ensures rest[i].storage == Frozen ==> ExtractInv(products, rest[..i] + rest[i + 1..], frozen + [rest[i]], i, seen + 1)
    ensures rest[i].storage != Frozen ==> ExtractInv(products, rest, frozen, i + 1, seen + 1)
  {
    if rest[i].storage == Frozen {
      RemoveStep(products, rest, frozen, i, seen);
    } else {
      KeepStep(products, rest, frozen, i, seen);
    }
  }

  /** A frozen product is removed from `rest` and appended to `frozen`. */
  lemma RemoveStep(products: seq<Product>, rest: seq<Product>, frozen: seq<Product>, i: int, seen: int)
    requires ExtractInv(products, rest, frozen, i, seen) && i < |rest| && rest[i].storage == Frozen
    ensures ExtractInv(products, rest[..i] + rest[i + 1..], frozen + [rest[i]], i, seen + 1)
  {
    assert products[seen] == rest[i];
    assert rest[..i] == Filter(products[..seen + 1], NotFrozen) by {
      FilterStep(products, seen, NotFrozen);
    }
    assert frozen + [rest[i]] == Filter(products[..seen + 1], IsFrozen) by {
      FilterStep(products, seen, IsFrozen);
    }
    var next := rest[..i] + rest[i + 1..];
    assert next[..i] == rest[..i];
    assert next[i..] == rest[i + 1..];
    assert rest[i + 1..] == products[seen + 1..];
  }

  /** A product that is not frozen stays, and the scan moves past it. */
  lemma KeepStep(products: seq<Product>, rest: seq<Product>, frozen: seq<Product>, i: int, seen: int)
    requires ExtractInv(products, rest, frozen, i, seen) && i < |rest| && rest[i].storage != Frozen
    ensures ExtractInv(products, rest, frozen, i + 1, seen + 1)
  {
    assert products[seen] == rest[i];
    assert rest[..i + 1] == Filter(products[..seen + 1], NotFrozen) by {
      FilterStep(products, seen, NotFrozen);
      assert rest[..i + 1] == rest[..i] + [rest[i]];
    }
    assert frozen == Filter(products[..seen + 1], IsFrozen) by {
      FilterStep(products, seen, IsFrozen);
    }
    assert rest[i + 1..] == products[seen + 1..];
  }

  lemma FilterStep(s: seq<Product>, n: nat, keep: Product -> bool)
    requires n < |s|
    ensures Filter(s[..n + 1], keep) == Filter(s[..n], keep) + (if keep(s[n]) then [s[n]] else [])
  {
    assert s[..n + 1][..n] == s[..n];
  }

  /** Every product lands in exactly one of the two lists. */
  lemma FrozenPartition(products: seq<Product>)
    ensures multiset(Filter(products, NotFrozen)) + multiset(Filter(products, IsFrozen)) == multiset(products)
  {
    FilterPartition(products, NotFrozen, IsFrozen);
  }

  // ---------------------------------------------------------------------------
  // seperateBox (lines 173-284)

  /** The packed boxes for `products`: the weight worklist drained, then the retry
      worklist run over the boxes sorted largest first. */
  function SeparateBoxSpec(products: seq<Product>, boxList: seq<Box>, rates: map<string, Option<real>>, k: Packer, fuel: nat): Run<seq<PackedBox>>
    requires WeightsInRange(products)
  {
    RetryRun(RetryState(Partition(Worklists([products], [])), []), BoxContext(SortDesc(boxList, BoxVolume), rates, k), fuel)
  }

  method SeparateBox(products: seq<Product>, boxList: seq<Box>, rates: map<string, Option<real>>, k: Packer, fuel: nat)
    returns (recommends: Run<seq<PackedBox>>)
    requires WeightsInRange(products)
    ensures recommends == SeparateBoxSpec(products, boxList, rates, k, fuel)
  {
    var queue := SeparateByWeight(products);
    var boxes := SortDesc(boxList, BoxVolume);
    recommends := PackWithRetry(queue, boxes, rates, k, fuel);
  }

  lemma FlattenMember<T>(ss: seq<seq<T>>, l: seq<T>, x: T)
    requires l in ss && x in l
    ensures x in Flatten(ss)
  {
    var i :| 0 <= i < |ss| && ss[i] == l;
    assert ss == ss[..i] + [l] + ss[i + 1..];
    FlattenAppend(ss[..i] + [l], ss[i + 1..]);
    FlattenAppend(ss[..i], [l]);
    assert Flatten([l]) == Flatten([]) + l;
  }

  lemma AllProductsMember(gs: seq<PackedBox>, g: PackedBox, x: Product)
    requires g in gs && x in g.products
    ensures x in AllProducts(gs)
    decreases |gs|
  {
    if gs[|gs| - 1] != g {
      assert gs == gs[..|gs| - 1] + [gs[|gs| - 1]];
      AllProductsMember(gs[..|gs| - 1], g, x);
    }
  }

  lemma {:induction false} AllProductsAppend(a: seq<PackedBox>, b: seq<PackedBox>)
    ensures AllProducts(a + b) == AllProducts(a) + AllProducts(b)
    decreases |b|
  {
    if b == [] {
      assert a + b == a;
    } else {
      var init := b[..|b| - 1];
      assert (a + b)[..|a + b| - 1] == a + init;
      assert AllProducts(a + b) == AllProducts(a + init) + b[|b| - 1].products;
      assert AllProducts(a + init) == AllProducts(a) + AllProducts(init) by {
        AllProductsAppend(a, init);
      }
    }
  }

  lemma PartitionWeightsInRange(products: seq<Product>)
    requires WeightsInRange(products)
    ensures AllWeightsInRange(Partition(Worklists([products], [])))
    ensures WithinLimit(Partition(Worklists([products], [])))
    ensures multiset(Flatten(Partition(Worklists([products], [])))) == multiset(products)
  {
    var w := Worklists([products], []);
    PartitionSound(w);
    FlattenCons(products, []);
    assert Flatten(w.queue) == [];
    forall l | l in Partition(w) ensures WeightsInRange(l) {
      forall x | x in l ensures 0 <= x.weight <= WeightLimit {
        FlattenMember(Partition(w), l, x);
        assert x in multiset(Flatten(Partition(w)));
      }
    }
  }

  /** When `seperateBox` finishes, its boxes hold exactly the products it was given,
      each box is one of the candidates, passes the prefilter for its products and
      carries at most 20 kg. */
  lemma SeparateBoxSound(products: seq<Product>, boxList: seq<Box>, rates: map<string, Option<real>>, k: Packer, fuel: nat)
    requires WeightsInRange(products)
    ensures var r := SeparateBoxSpec(products, boxList, rates, k, fuel);
      r.Finished? ==>
        && multiset(AllProducts(r.value)) == multiset(products)
        && (forall g :: g in r.value ==> g.box in boxList && Passes(g.box, MaxWidth(g.products), TotalVolume(g.products)))
        && (forall g :: g in r.value ==> TotalWeight(g.products) <= WeightLimit)
        && (forall g, p :: g in r.value && p in g.products ==> p in products)
  {
    var c := BoxContext(SortDesc(boxList, BoxVolume), rates, k);
    var s := RetryState(Partition(Worklists([products], [])), []);
    PartitionWeightsInRange(products);
    RetryRunSound(s, c, fuel);
    var r := SeparateBoxSpec(products, boxList, rates, k, fuel);
    if r.Finished? {
      forall g | g in r.value ensures g.box in boxList {
        assert g.box in multiset(SortDesc(boxList, BoxVolume));
      }
      forall g, p | g in r.value && p in g.products ensures p in products {
        AllProductsMember(r.value, g, p);
        assert p in multiset(AllProducts(r.value));
      }
    }
  }

  lemma EmptyPartition()
    ensures Partition(Worklists([[]], [])) == [[]]
  {
    var w := Worklists([[]], []);
    assert CappedWeight([]) == 0;
    assert WeightStep(w) == Worklists([], [[]]);
  }

  /** A list with nothing in it goes into the smallest box that passes the
      prefilter (any box with positive width and volume), and with no such box the
      worklist never drains. */
  lemma EmptyListGetsSmallestBox(boxList: seq<Box>, rates: map<string, Option<real>>, k: Packer, fuel: nat)
    requires fuel >= 1
    ensures var boxes := SortDesc(boxList, BoxVolume);
      SeparateBoxSpec([], boxList, rates, k, fuel)
        == match LastPassing(boxes, None, 0, 0)
           case Some(b) => Finished([PackedBox(b, [])])
           case None => OutOfFuel
  {
    EmptyPartition();
    var c := BoxContext(SortDesc(boxList, BoxVolume), rates, k);
    var s := RetryState([[]], []);
    ScanOnEmptyList(c.boxes, None, 0, 0, k);
    assert ChooseBox(c.boxes, [], rates, k) == LastPassing(c.boxes, None, 0, 0);
    match ChooseBox(c.boxes, [], rates, k)
    case None =>
      StuckListNeverDrains(s, c, fuel);
    case Some(b) =>
      assert s.queue[1..] == [];
      assert RetryStep(s, c) == RetryState([], [PackedBox(b, [])]);
      assert SeparateBoxSpec([], boxList, rates, k, fuel) == RetryRun(s, c, fuel);
      assert RetryRun(s, c, fuel) == RetryRun(RetryStep(s, c), c, fuel - 1);
  }

  // ---------------------------------------------------------------------------
  // Output records (lines 323-333)

  function PackingOf(p: Product): ProductPacking
  {
    ProductPacking(p.id, p.name, p.materialName, p.materialQuantity)
  }

  function PackingsOf(ps: seq<Product>): seq<ProductPacking>
  {
    if ps == [] then [] else PackingsOf(ps[..|ps| - 1]) + [PackingOf(ps[|ps| - 1])]
  }

  function RecordOf(pb: PackedBox): RecommendRecord
  {
    RecommendRecord(pb.box.name, PackingsOf(pb.products))
  }

  function Records(gs: seq<PackedBox>): seq<RecommendRecord>
  {
    if gs == [] then [] else Records(gs[..|gs| - 1]) + [RecordOf(gs[|gs| - 1])]
  }

  /** One product line per product, in order, carrying its id, name, packaging
      material and material quantity. */
  lemma {:induction false} PackingsFaithful(ps: seq<Product>)
    ensures |PackingsOf(ps)| == |ps|
    ensures forall j :: 0 <= j < |ps| ==>
      && PackingsOf(ps)[j].productId == ps[j].id
      && PackingsOf(ps)[j].productName == ps[j].name
      && PackingsOf(ps)[j].materialName == ps[j].materialName
      && PackingsOf(ps)[j].materialQuantity == ps[j].materialQuantity
  {
    if ps != [] {
      PackingsFaithful(ps[..|ps| - 1]);
    }
  }

  /** One record per packed box, in order, named after the box. */
  lemma {:induction false} RecordsFaithful(gs: seq<PackedBox>)
    ensures |Records(gs)| == |gs|
    ensures forall i :: 0 <= i < |gs| ==> Records(gs)[i] == RecommendRecord(gs[i].box.name, PackingsOf(gs[i].products))
  {
    if gs != [] {
      RecordsFaithful(gs[..|gs| - 1]);
    }
  }

  lemma {:induction false} RecordsAppend(a: seq<PackedBox>, b: seq<PackedBox>)
    ensures Records(a + b) == Records(a) + Records(b)
    decreases |b|
  {
    if b == [] {
      assert a + b == a;
    } else {
      RecordsAppend(a, b[..|b| - 1]);
      assert (a + b)[..|a + b| - 1] == a + b[..|b| - 1];
    }
  }

  /** The inner loop of `orderToDto`. */
  method PackingList(products: seq<Product>) returns (pprList: seq<ProductPacking>)
    ensures pprList == PackingsOf(products)
  {
    pprList := [];
    for j := 0 to |products|
      invariant pprList == PackingsOf(products[..j])
    {
      assert products[..j + 1][..j] == products[..j];
      pprList := pprList + [PackingOf(products[j])];
    }
    assert products[..|products|] == products;
  }

  /** The `result` list `recommend` fills and returns. */
  class RecordList {
    var records: seq<RecommendRecord>

    constructor ()
      ensures records == []
    {
      records := [];
    }

    /** `orderToDto`: one record per packed box is appended. */
    method OrderToDto(recommends: seq<PackedBox>)
      modifies this
      ensures records == old(records) + Records(recommends)
    {
      for i := 0 to |recommends|
        invariant records == old(records) + Records(recommends[..i])
      {
        assert recommends[..i + 1][..i] == recommends[..i];
        var pb := recommends[i];
        var pprList := PackingList(pb.products);
        records := records + [RecommendRecord(pb.box.name, pprList)];
      }
      assert recommends[..|recommends|] == recommends;
    }
  }

  // ---------------------------------------------------------------------------
  // recommend (lines 58-171)

  /** One entry per ordered unit, catalog order first. */
  function OrderedProducts(opList: seq<OrderLine>, catalog: seq<Product>): seq<Product>
    requires Counted(catalog, CountByProduct(opList))
  {
    Expand(catalog, CountByProduct(opList))
  }

  lemma OrderParts(opList: seq<OrderLine>, catalog: seq<Product>)
    requires Counted(catalog, CountByProduct(opList)) && WeightsInRange(catalog)
    ensures WeightsInRange(OrderedProducts(opList, catalog))
    ensures WeightsInRange(SortDesc(Filter(OrderedProducts(opList, catalog), NotFrozen), Weight))
    ensures WeightsInRange(Filter(OrderedProducts(opList, catalog), IsFrozen))
  {
    var ps := OrderedProducts(opList, catalog);
    ExpandMembers(catalog, CountByProduct(opList));
    var common := Filter(ps, NotFrozen);
    forall x | x in SortDesc(common, Weight) ensures x in common {
      assert x in multiset(SortDesc(common, Weight));
    }
  }

  /** The two `seperateBox` runs combined: a common run out of fuel ends the
      order; without frozen products the common boxes are the answer. */
  function MergeRuns(common: Run<seq<PackedBox>>, hasFrozen: bool, frozen: Run<seq<PackedBox>>): Run<seq<PackedBox>>
  {
    match common
    case OutOfFuel => OutOfFuel
    case Finished(a) =>
      if !hasFrozen then common
      else
        match frozen
        case OutOfFuel => OutOfFuel
        case Finished(b) => Finished(a + b)
  }

  /** The packed boxes of the whole order: the chilled and ambient products sorted
      by weight with the paper boxes, then, if any, the frozen products with the
      styrofoam boxes. */
  function PackOrder(opList: seq<OrderLine>, catalog: seq<Product>, boxList: seq<Box>, rates: map<string, Option<real>>, k: Packer, fuel: nat): Run<seq<PackedBox>>
    requires Counted(catalog, CountByProduct(opList)) && WeightsInRange(catalog)
  {
    MergeRuns(PaperRun(opList, catalog, boxList, rates, k, fuel),
              |Filter(OrderedProducts(opList, catalog), IsFrozen)| > 0,
              FrozenRun(opList, catalog, boxList, rates, k, fuel))
  }

  /** The stream of lines 163-164: the chilled and ambient units, heaviest first,
      packed into paper boxes. */
  function PaperRun(opList: seq<OrderLine>, catalog: seq<Product>, boxList: seq<Box>, rates: map<string, Option<real>>, k: Packer, fuel: nat): Run<seq<PackedBox>>
    requires Counted(catalog, CountByProduct(opList)) && WeightsInRange(catalog)
  {
    OrderParts(opList, catalog);
    SeparateBoxSpec(SortDesc(Filter(OrderedProducts(opList, catalog), NotFrozen), Weight), Filter(boxList, IsPaperBox), rates, k, fuel)
  }

  /** The stream of line 166: the frozen units packed into styrofoam boxes. */
  function FrozenRun(opList: seq<OrderLine>, catalog: seq<Product>, boxList: seq<Box>, rates: map<string, Option<real>>, k: Packer, fuel: nat): Run<seq<PackedBox>>
    requires Counted(catalog, CountByProduct(opList)) && WeightsInRange(catalog)
  {
    OrderParts(opList, catalog);
    SeparateBoxSpec(Filter(OrderedProducts(opList, catalog), IsFrozen), Filter(boxList, IsStyrofoamBox), rates, k, fuel)
  }

  function RecommendSpec(opList: seq<OrderLine>, catalog: seq<Product>, boxList: seq<Box>, rates: map<string, Option<real>>, k: Packer, fuel: nat): Run<seq<RecommendRecord>>
    requires Counted(catalog, CountByProduct(opList)) && WeightsInRange(catalog)
  {
    match PackOrder(opList, catalog, boxList, rates, k, fuel)
    case OutOfFuel => OutOfFuel
    case Finished(gs) => Finished(Records(gs))
  }

  /** Lines 89-149: one entry per ordered unit, the frozen ones taken out and the
      rest sorted by weight, heaviest first. */
  method PrepareOrder(opList: seq<OrderLine>, catalog: seq<Product>) returns (products: seq<Product>, frozen: seq<Product>)
    requires Counted(catalog, CountByProduct(opList))
    ensures products == SortDesc(Filter(OrderedProducts(opList, catalog), NotFrozen), Weight)
    ensures frozen == Filter(OrderedProducts(opList, catalog), IsFrozen)
  {
    var productCount := CountProducts(opList);
    products := ExpandOrder(catalog, productCount);
    products, frozen := ExtractFrozen(products);
    products := SortDesc(products, Weight);
  }

  /** `recommend` for one order, given what the repositories return: the order
      lines, the catalog records of the ordered products, every box and the error
      rate of each category. Each worklist of `seperateBox` runs at most `fuel`
      rounds. */
  method Recommend(opList: seq<OrderLine>, catalog: seq<Product>, boxList: seq<Box>, rates: map<string, Option<real>>, k: Packer, fuel: nat)
    returns (result: Run<seq<RecommendRecord>>)
    requires Counted(catalog, CountByProduct(opList)) && WeightsInRange(catalog)
    ensures result == RecommendSpec(opList, catalog, boxList, rates, k, fuel)
  {
    OrderParts(opList, catalog);
    var styrofoamBox, paperBox := SplitBoxesByTexture(boxList);
    var products, frozen := PrepareOrder(opList, catalog);
    ghost var common := SeparateBoxSpec(products, paperBox, rates, k, fuel);
    ghost var frozenRun := SeparateBoxSpec(frozen, styrofoamBox, rates, k, fuel);
    assert PackOrder(opList, catalog, boxList, rates, k, fuel) == MergeRuns(common, |frozen| > 0, frozenRun);
    var resultList := new RecordList();
    var commonRecommends := SeparateBox(products, paperBox, rates, k, fuel);
    if commonRecommends == OutOfFuel {
      return OutOfFuel;
    }
    resultList.OrderToDto(commonRecommends.value);
    assert resultList.records == Records(commonRecommends.value);
    if |frozen| > 0 {
      var frozenRecommends := SeparateBox(frozen, styrofoamBox, rates, k, fuel);
      if frozenRecommends == OutOfFuel {
        return OutOfFuel;
      }
      resultList.OrderToDto(frozenRecommends.value);
      RecordsAppend(commonRecommends.value, frozenRecommends.value);
      assert resultList.records == Records(commonRecommends.value + frozenRecommends.value);
    }
    result := Finished(resultList.records);
  }

  /** A box is styrofoam exactly when it holds frozen products: every box of a
      finished recommendation is either a paper box with no frozen product or a
      styrofoam box with only frozen products. */
  predicate TemperatureMatches(g: PackedBox)
  {
    || (IsPaperBox(g.box) && forall p :: p in g.products ==> NotFrozen(p))
    || (IsStyrofoamBox(g.box) && forall p :: p in g.products ==> IsFrozen(p))
  }

  /** What every box of a finished recommendation satisfies. */
  predicate GoodBox(g: PackedBox, boxList: seq<Box>)
  {
    && g.box in boxList && Passes(g.box, MaxWidth(g.products), TotalVolume(g.products))
    && TotalWeight(g.products) <= WeightLimit && TemperatureMatches(g)
  }

  predicate Delivers(r: Run<seq<PackedBox>>, items: multiset<Product>, boxList: seq<Box>)
  {
    r.Finished? ==> multiset(AllProducts(r.value)) == items && forall g :: g in r.value ==> GoodBox(g, boxList)
  }

  lemma MergeRunsSound(common: Run<seq<PackedBox>>, hasFrozen: bool, frozen: Run<seq<PackedBox>>,
                       commonItems: multiset<Product>, frozenItems: multiset<Product>, boxList: seq<Box>)
    requires Delivers(common, commonItems, boxList) && Delivers(frozen, frozenItems, boxList)
    requires !hasFrozen ==> frozenItems == multiset{}
    ensures Delivers(MergeRuns(common, hasFrozen, frozen), commonItems + frozenItems, boxList)
  {
    if common.Finished? && hasFrozen && frozen.Finished? {
      AllProductsAppend(common.value, frozen.value);
    }
  }

  lemma CommonSound(ps: seq<Product>, boxList: seq<Box>, rates: map<string, Option<real>>, k: Packer, fuel: nat)
    requires WeightsInRange(SortDesc(Filter(ps, NotFrozen), Weight))
    ensures var r := SeparateBoxSpec(SortDesc(Filter(ps, NotFrozen), Weight), Filter(boxList, IsPaperBox), rates, k, fuel);
      r.Finished? ==>
        && multiset(AllProducts(r.value)) == multiset(Filter(ps, NotFrozen))
        && forall g :: g in r.value ==>
             && g.box in boxList && Passes(g.box, MaxWidth(g.products), TotalVolume(g.products))
             && TotalWeight(g.products) <= WeightLimit
             && IsPaperBox(g.box) && (forall p :: p in g.products ==> NotFrozen(p))
  {
    var common := Filter(ps, NotFrozen);
    var sorted := SortDesc(common, Weight);
    SeparateBoxSound(sorted, Filter(boxList, IsPaperBox), rates, k, fuel);
    forall x | x in sorted ensures x in common {
      assert x in multiset(sorted);
    }
  }

  lemma FrozenSound(ps: seq<Product>, boxList: seq<Box>, rates: map<string, Option<real>>, k: Packer, fuel: nat)
    requires WeightsInRange(Filter(ps, IsFrozen))
    ensures var r := SeparateBoxSpec(Filter(ps, IsFrozen), Filter(boxList, IsStyrofoamBox), rates, k, fuel);
      r.Finished? ==>
        && multiset(AllProducts(r.value)) == multiset(Filter(ps, IsFrozen))
        && forall g :: g in r.value ==>
             && g.box in boxList && Passes(g.box, MaxWidth(g.products), TotalVolume(g.products))
             && TotalWeight(g.products) <= WeightLimit
             && IsStyrofoamBox(g.box) && (forall p :: p in g.products ==> IsFrozen(p))
  {
    SeparateBoxSound(Filter(ps, IsFrozen), Filter(boxList, IsStyrofoamBox), rates, k, fuel);
  }

  /** A finished recommendation packs every ordered unit exactly once, uses only
      listed boxes that pass the prefilter for their contents, keeps each box within
      20 kg, and puts frozen products only, and always, in styrofoam boxes. */
  lemma RecommendSound(opList: seq<OrderLine>, catalog: seq<Product>, boxList: seq<Box>, rates: map<string, Option<real>>, k: Packer, fuel: nat)
    requires Counted(catalog, CountByProduct(opList)) && WeightsInRange(catalog)
    ensures Delivers(PackOrder(opList, catalog, boxList, rates, k, fuel), multiset(OrderedProducts(opList, catalog)), boxList)
  {
    OrderParts(opList, catalog);
    var ps := OrderedProducts(opList, catalog);
    var frozen := Filter(ps, IsFrozen);
    var common := SeparateBoxSpec(SortDesc(Filter(ps, NotFrozen), Weight), Filter(boxList, IsPaperBox), rates, k, fuel);
    var fr := SeparateBoxSpec(frozen, Filter(boxList, IsStyrofoamBox), rates, k, fuel);
    assert PackOrder(opList, catalog, boxList, rates, k, fuel) == MergeRuns(common, |frozen| > 0, fr);
    FrozenPartition(ps);
    CommonSound(ps, boxList, rates, k, fuel);
    FrozenSound(ps, boxList, rates, k, fuel);
    assert Delivers(common, multiset(Filter(ps, NotFrozen)), boxList);
    assert Delivers(fr, multiset(frozen), boxList);
    MergeRunsSound(common, |frozen| > 0, fr, multiset(Filter(ps, NotFrozen)), multiset(frozen), boxList);
  }

  /** Output order: the paper-box records come first and the styrofoam-box records
      after them, so once a styrofoam box appears every later box is styrofoam. */
  lemma PaperStreamFirst(opList: seq<OrderLine>, catalog: seq<Product>, boxList: seq<Box>, rates: map<string, Option<real>>, k: Packer, fuel: nat)
    requires Counted(catalog, CountByProduct(opList)) && WeightsInRange(catalog)
    ensures var r := PackOrder(opList, catalog, boxList, rates, k, fuel);
      r.Finished? ==> forall i, j :: 0 <= i < j < |r.value| && IsStyrofoamBox(r.value[i].box) ==> IsStyrofoamBox(r.value[j].box)
  {
    OrderParts(opList, catalog);
    var ps := OrderedProducts(opList, catalog);
    CommonSound(ps, boxList, rates, k, fuel);
    FrozenSound(ps, boxList, rates, k, fuel);
    var common := SeparateBoxSpec(SortDesc(Filter(ps, NotFrozen), Weight), Filter(boxList, IsPaperBox), rates, k, fuel);
    var fr := SeparateBoxSpec(Filter(ps, IsFrozen), Filter(boxList, IsStyrofoamBox), rates, k, fuel);
    var r := PackOrder(opList, catalog, boxList, rates, k, fuel);
    if r.Finished? {
      if |Filter(ps, IsFrozen)| > 0 {
        var all := common.value + fr.value;
        assert r.value == all;
        forall m | 0 <= m < |common.value| ensures !IsStyrofoamBox(all[m].box) {
          assert all[m] in common.value;
        }
        forall m | |common.value| <= m < |all| ensures IsStyrofoamBox(all[m].box) {
          assert all[m] in fr.value;
        }
      } else {
        forall m | 0 <= m < |r.value| ensures !IsStyrofoamBox(r.value[m].box) {
          assert r.value[m] in common.value;
        }
      }
    }
  }

  /** The guard of line 165: an order without frozen units runs only the paper
      stream, so every box of a finished recommendation is a paper box. */
  lemma NoFrozenPaperOnly(opList: seq<OrderLine>, catalog: seq<Product>, boxList: seq<Box>, rates: map<string, Option<real>>, k: Packer, fuel: nat)
    requires Counted(catalog, CountByProduct(opList)) && WeightsInRange(catalog)
    requires Filter(OrderedProducts(opList, catalog), IsFrozen) == []
    ensures var r := PackOrder(opList, catalog, boxList, rates, k, fuel);
      && r == PaperRun(opList, catalog, boxList, rates, k, fuel)
      && (r.Finished? ==> forall g :: g in r.value ==> IsPaperBox(g.box))
  {
    OrderParts(opList, catalog);
    CommonSound(OrderedProducts(opList, catalog), boxList, rates, k, fuel);
  }

  /** Lines 163-164 run the paper stream unconditionally: an order with no
      chilled or ambient unit (all frozen, or empty) still asks for a paper box
      for the empty list, and gets the smallest paper box that passes the
      prefilter as an empty first record; with no such box it never finishes. */
  lemma NoCommonGetsEmptyPaperBox(opList: seq<OrderLine>, catalog: seq<Product>, boxList: seq<Box>, rates: map<string, Option<real>>, k: Packer, fuel: nat)
    requires Counted(catalog, CountByProduct(opList)) && WeightsInRange(catalog)
    requires Filter(OrderedProducts(opList, catalog), NotFrozen) == [] && fuel >= 1
    ensures var r := PackOrder(opList, catalog, boxList, rates, k, fuel);
      match LastPassing(SortDesc(Filter(boxList, IsPaperBox), BoxVolume), None, 0, 0)
      case None => r == OutOfFuel
      case Some(b) =>
        && (r.Finished? ==> |r.value| >= 1 && r.value[0] == PackedBox(b, []))
        && (Filter(OrderedProducts(opList, catalog), IsFrozen) == [] ==> r == Finished([PackedBox(b, [])]))
  {
    OrderParts(opList, catalog);
    var paper := Filter(boxList, IsPaperBox);
    assert SortDesc(Filter(OrderedProducts(opList, catalog), NotFrozen), Weight) == [];
    EmptyListGetsSmallestBox(paper, rates, k, fuel);
  }
}
