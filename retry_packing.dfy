/** The second worklist of `seperateBox`: each list is taken from the front of
    `queue` and offered to box selection; a list with a box is recorded, and a list
    without one is sorted by weight, split in two by the assigning balance rule and
    both halves go to the back. */
module RetryPacking {
  import opened Collections
  import opened Entities
  import opened WeightPartition
  import opened BoxSelection

  // ---------------------------------------------------------------------------
  // The second split

  /** The retry split: an item goes to the right list when `lWeight > rWeight` and
      to the left list otherwise, and the side's weight is then SET to that item's
      weight (`=`, where the first split adds with `+=`). */
  function Assign(s: seq<Product>): SplitState
  {
    if s == [] then SplitState([], [], 0, 0)
    else
      var st := Assign(s[..|s| - 1]);
      var p := s[|s| - 1];
      if st.lWeight > st.rWeight then SplitState(st.left, st.right + [p], st.lWeight, p.weight)
      else SplitState(st.left + [p], st.right, p.weight, st.rWeight)
  }

  /** The splitting loop of lines 260-271. */
  method SplitAssigning(pList: seq<Product>) returns (pList1: seq<Product>, pList2: seq<Product>)
    ensures pList1 == Assign(pList).left && pList2 == Assign(pList).right
  {
    pList1, pList2 := [], [];
    var lWeight, rWeight := 0, 0;
    for i := 0 to |pList|
      invariant Assign(pList[..i]) == SplitState(pList1, pList2, lWeight, rWeight)
    {
      assert pList[..i + 1][..i] == pList[..i];
      if lWeight > rWeight {
        rWeight := pList[i].weight;
        pList2 := pList2 + [pList[i]];
      } else {
        lWeight := pList[i].weight;
        pList1 := pList1 + [pList[i]];
      }
    }
    assert pList[..|pList|] == pList;
  }

  /** The split loses and invents nothing. */
  lemma {:induction false} AssignPermutes(s: seq<Product>)
    ensures multiset(Assign(s).left) + multiset(Assign(s).right) == multiset(s)
  {
    if s != [] {
      AssignPermutes(s[..|s| - 1]);
      assert s == s[..|s| - 1] + [s[|s| - 1]];
    }
  }

  /** The weights the loop holds are those of the last item sent to each side
      (0 before any). */
  lemma {:induction false} AssignWeights(s: seq<Product>)
    ensures Assign(s).lWeight == (if Assign(s).left == [] then 0 else Assign(s).left[|Assign(s).left| - 1].weight)
    ensures Assign(s).rWeight == (if Assign(s).right == [] then 0 else Assign(s).right[|Assign(s).right| - 1].weight)
  {
    if s != [] {
      AssignWeights(s[..|s| - 1]);
    }
  }

  /** On a list sorted by weight whose first item is strictly the heaviest and
      positive, the retry split peels off that item: it goes left alone and all
      the others go right. */
  lemma {:induction false} AssignPeelsHeaviest(s: seq<Product>)
    requires |s| >= 1 && s[0].weight > 0
    requires forall i :: 1 <= i < |s| ==> s[i].weight < s[0].weight
    ensures Assign(s).left == [s[0]] && Assign(s).right == s[1..]
    ensures Assign(s).lWeight == s[0].weight
  {
    if |s| > 1 {
      var init := s[..|s| - 1];
      AssignPeelsHeaviest(init);
      AssignWeights(init);
      assert init[1..] + [s[|s| - 1]] == s[1..];
    }
  }

  /** The first item always goes left. */
  lemma {:induction false} AssignKeepsFirst(s: seq<Product>)
    requires |s| >= 1
    ensures Assign(s).left != [] && Assign(s).left[0] == s[0]
  {
    if |s| > 1 {
      AssignKeepsFirst(s[..|s| - 1]);
    } else {
      assert s[..0] == [];
    }
  }

  /** The retry split of a sorted list puts a heaviest product first on the left. */
  lemma RetrySplitHeaviestLeft(pList: seq<Product>)
    requires pList != []
    ensures var st := Assign(SortDesc(pList, Weight));
      st.left != [] && st.left[0] in pList && forall x :: x in pList ==> x.weight <= st.left[0].weight
  {
    var sorted := SortDesc(pList, Weight);
    AssignKeepsFirst(sorted);
    assert sorted[0] in multiset(pList);
    forall x | x in pList ensures x.weight <= sorted[0].weight {
      assert x in multiset(sorted);
      var i :| 0 <= i < |sorted| && sorted[i] == x;
      if i > 0 {
        assert Weight(sorted[0]) >= Weight(sorted[i]);
      }
    }
  }

  /** A one-item list stays whole on the left, with nothing on the right; an empty
      list splits into two empty lists. */
  lemma AssignShortList(s: seq<Product>)
    requires |s| <= 1
    ensures Assign(s).left == s && Assign(s).right == []
  {
    if |s| == 1 {
      assert s[..0] == [];
    }
  }

  /** On a list of two or more items whose first weight is positive, both sides are
      non-empty, so each is strictly shorter than the list. */
  lemma {:induction false} AssignSplitsBoth(s: seq<Product>)
    requires |s| >= 2 && s[0].weight > 0
    ensures Assign(s).left != [] && Assign(s).right != []
    ensures |Assign(s).left| < |s| && |Assign(s).right| < |s|
  {
    AssignFirstTwo(s);
    AssignPermutes(s);
    assert |multiset(s)| == |s|;
  }

  lemma {:induction false} AssignFirstTwo(s: seq<Product>)
    requires |s| >= 2 && s[0].weight > 0
    ensures Assign(s).left != [] && Assign(s).right != []
    decreases |s|
  {
    if |s| == 2 {
      assert s[..1] == [s[0]] && s[..1][..0] == [];
      assert Assign(s[..1]) == SplitState([s[0]], [], s[0].weight, 0);
    } else {
      AssignFirstTwo(s[..|s| - 1]);
    }
  }

  /** With every weight 0, the retry split sends everything left. */
  lemma {:induction false} AssignAllWeightless(s: seq<Product>)
    requires forall i :: 0 <= i < |s| ==> s[i].weight == 0
    ensures Assign(s) == SplitState(s, [], 0, 0)
  {
    if s != [] {
      var init := s[..|s| - 1];
      var last := s[|s| - 1];
      assert Assign(init) == SplitState(init, [], 0, 0) by {
        AssignAllWeightless(init);
      }
      assert last.weight == 0;
      assert init + [last] == s;
    }
  }

  /** The two splits differ: weights 10, 6, 5, 4 give [10, 4] and [6, 5] when the
      weights accumulate, but [10] and [6, 5, 4] when they are assigned. */
  lemma SplitsDiffer(a: Product, b: Product, c: Product, d: Product)
    requires a.weight == 10 && b.weight == 6 && c.weight == 5 && d.weight == 4
    ensures Accumulate([a, b, c, d]).left == [a, d] && Accumulate([a, b, c, d]).right == [b, c]
    ensures Assign([a, b, c, d]).left == [a] && Assign([a, b, c, d]).right == [b, c, d]
  {
    assert [a, b, c, d][..3] == [a, b, c];
    assert [a, b, c][..2] == [a, b];
    assert [a, b][..1] == [a];
    assert [a][..0] == [];
    assert Accumulate([a]) == SplitState([a], [], 10, 0);
    assert Accumulate([a, b]) == SplitState([a], [b], 10, 6);
    assert Accumulate([a, b, c]) == SplitState([a], [b, c], 10, 11);
    assert Assign([a]) == SplitState([a], [], 10, 0);
    assert Assign([a, b]) == SplitState([a], [b], 10, 6);
    assert Assign([a, b, c]) == SplitState([a], [b, c], 10, 5);
  }

  /** Either part of a split of a list within the ceiling is within the ceiling. */
  lemma SubListWithinLimit(whole: seq<Product>, a: seq<Product>, b: seq<Product>)
    requires WeightsInRange(whole) && TotalWeight(whole) <= WeightLimit
    requires multiset(a) + multiset(b) == multiset(whole)
    ensures WeightsInRange(a) && WeightsInRange(b)
    ensures TotalWeight(a) <= WeightLimit && TotalWeight(b) <= WeightLimit
  {
    SubListWeightsInRange(whole, a, b);
    SumOfPermutation(a + b, whole, Weight);
    SumOfAppend(a, b, Weight);
    SumOfNonNegative(a, Weight);
    SumOfNonNegative(b, Weight);
  }

  // ---------------------------------------------------------------------------
  // The worklist

  datatype RetryState = RetryState(queue: seq<seq<Product>>, packed: seq<PackedBox>)

  /** What box selection sees besides the products: the boxes largest first, the
      error rates of the categories and the packing DTOs' behaviour. */
  datatype BoxContext = BoxContext(boxes: seq<Box>, rates: map<string, Option<real>>, packer: Packer)

  /** One round of the `while (!queue.isEmpty())` loop. */
  function RetryStep(s: RetryState, c: BoxContext): RetryState
    requires s.queue != []
  {
    var pList := s.queue[0];
    match ChooseBox(c.boxes, pList, c.rates, c.packer)
    case None =>
      var st := Assign(SortDesc(pList, Weight));
      RetryState(s.queue[1..] + [st.left, st.right], s.packed)
    case Some(b) =>
      RetryState(s.queue[1..], s.packed + [PackedBox(b, pList)])
  }

  /** The loop run for at most `fuel` rounds. */
  function RetryRun(s: RetryState, c: BoxContext, fuel: nat): Run<seq<PackedBox>>
    decreases fuel
  {
    if s.queue == [] then Finished(s.packed)
    else if fuel == 0 then OutOfFuel
    else RetryRun(RetryStep(s, c), c, fuel - 1)
  }

  /** The loop of lines 245-280, cut off after `fuel` rounds (the source has no
      bound; see StuckListNeverDrains). */
  method PackWithRetry(lists: seq<seq<Product>>, boxList: seq<Box>, rates: map<string, Option<real>>, k: Packer, fuel: nat)
    returns (result: Run<seq<PackedBox>>)
    ensures result == RetryRun(RetryState(lists, []), BoxContext(boxList, rates, k), fuel)
  {
    var c := BoxContext(boxList, rates, k);
    var queue := lists;
    var recommends: seq<PackedBox> := [];
    var rounds := 0;
    while queue != [] && rounds < fuel
      invariant 0 <= rounds <= fuel
      invariant RetryRun(RetryState(queue, recommends), c, fuel - rounds) == RetryRun(RetryState(lists, []), c, fuel)
      decreases fuel - rounds
    {
      queue, recommends := RetryRound(queue, recommends, boxList, rates, k);
      rounds := rounds + 1;
    }
    if queue == [] {
      result := Finished(recommends);
    } else {
      result := OutOfFuel;
    }
  }

  /** One round of the loop: the front list gets a box or is split. */
  method RetryRound(queue: seq<seq<Product>>, recommends: seq<PackedBox>, boxList: seq<Box>, rates: map<string, Option<real>>, k: Packer)
    returns (queue': seq<seq<Product>>, recommends': seq<PackedBox>)
    requires queue != []
    ensures RetryState(queue', recommends') == RetryStep(RetryState(queue, recommends), BoxContext(boxList, rates, k))
  {
    var pList := queue[0];
    queue' := queue[1..];
    recommends' := recommends;
    var recommendedBox := RecommendBox(boxList, pList, rates, k);
    if recommendedBox == None {
      var sorted := SortDesc(pList, Weight);
      var pList1, pList2 := SplitAssigning(sorted);
      queue' := queue' + [pList1, pList2];
    } else {
      recommends' := recommends' + [PackedBox(recommendedBox.value, pList)];
    }
  }

  // ---------------------------------------------------------------------------
  // What a drained worklist delivers

  /** A recorded box is a candidate that passes the prefilter for its products,
      and those products are within the weight ceiling. */
  predicate Fits(pb: PackedBox, boxes: seq<Box>)
  {
    && pb.box in boxes
    && Passes(pb.box, MaxWidth(pb.products), TotalVolume(pb.products))
    && TotalWeight(pb.products) <= WeightLimit
  }

  predicate AllFit(packed: seq<PackedBox>, boxes: seq<Box>)
  {
    forall pb :: pb in packed ==> Fits(pb, boxes)
  }

  /** Every product held by the worklist and by the recorded boxes. */
  function Holds(s: RetryState): multiset<Product>
  {
    multiset(AllProducts(s.packed)) + multiset(Flatten(s.queue))
  }

  predicate Sound(s: RetryState, c: BoxContext)
  {
    AllWeightsInRange(s.queue) && WithinLimit(s.queue) && AllFit(s.packed, c.boxes)
  }

  lemma AllProductsAppendOne(gs: seq<PackedBox>, g: PackedBox)
    ensures AllProducts(gs + [g]) == AllProducts(gs) + g.products
  {
    assert (gs + [g])[..|gs|] == gs;
  }

  lemma RetryStepSound(s: RetryState, c: BoxContext)
    requires s.queue != [] && Sound(s, c)
    ensures Sound(RetryStep(s, c), c)
    ensures Holds(RetryStep(s, c)) == Holds(s)
  {
    if ChooseBox(c.boxes, s.queue[0], c.rates, c.packer) == None {
      ResplitSound(s, c);
    } else {
      RecordSound(s, c);
    }
  }

  /** A list that gets no box is split again; its halves join the worklist. */
  lemma ResplitSound(s: RetryState, c: BoxContext)
    requires s.queue != [] && Sound(s, c) && ChooseBox(c.boxes, s.queue[0], c.rates, c.packer) == None
    ensures Sound(RetryStep(s, c), c)
    ensures Holds(RetryStep(s, c)) == Holds(s)
  {
    var pList := s.queue[0];
    var rest := s.queue[1..];
    var sorted := SortDesc(pList, Weight);
    var st := Assign(sorted);
    assert RetryStep(s, c) == RetryState(rest + [st.left, st.right], s.packed);
    assert s.queue == [pList] + rest;
    FlattenCons(pList, rest);
    AssignPermutes(sorted);
    SumOfPermutation(sorted, pList, Weight);
    SubListWeightsInRange(pList, sorted, []);
    SubListWithinLimit(sorted, st.left, st.right);
    QueueAppendSound(rest, st.left, st.right);
    FlattenAppend(rest, [st.left, st.right]);
    FlattenCons(st.left, [st.right]);
    FlattenCons(st.right, []);
  }

  lemma QueueAppendSound(rest: seq<seq<Product>>, l: seq<Product>, r: seq<Product>)
    requires AllWeightsInRange(rest) && WithinLimit(rest)
    requires WeightsInRange(l) && WeightsInRange(r) && TotalWeight(l) <= WeightLimit && TotalWeight(r) <= WeightLimit
    ensures AllWeightsInRange(rest + [l, r]) && WithinLimit(rest + [l, r])
  {
  }

  /** A list that gets a box is recorded with it and leaves the worklist. */
  lemma RecordSound(s: RetryState, c: BoxContext)
    requires s.queue != [] && Sound(s, c) && ChooseBox(c.boxes, s.queue[0], c.rates, c.packer).Some?
    ensures Sound(RetryStep(s, c), c)
    ensures Holds(RetryStep(s, c)) == Holds(s)
  {
    var pList := s.queue[0];
    var rest := s.queue[1..];
    var b := ChooseBox(c.boxes, pList, c.rates, c.packer).value;
    assert RetryStep(s, c) == RetryState(rest, s.packed + [PackedBox(b, pList)]);
    assert s.queue == [pList] + rest;
    FlattenCons(pList, rest);
    ChooseBoxSound(c.boxes, pList, c.rates, c.packer);
    AllProductsAppendOne(s.packed, PackedBox(b, pList));
  }

  /** When the worklist drains, every product it held is in exactly one recorded
      box, and every recorded box is a candidate that passes the prefilter and
      carries at most 20 kg. */
  lemma {:induction false} RetryRunSound(s: RetryState, c: BoxContext, fuel: nat)
    requires Sound(s, c)
    ensures RetryRun(s, c, fuel).Finished? ==>
      && AllFit(RetryRun(s, c, fuel).value, c.boxes)
      && multiset(AllProducts(RetryRun(s, c, fuel).value)) == Holds(s)
    decreases fuel
  {
    if s.queue == [] {
      assert Flatten(s.queue) == [];
    } else if fuel > 0 {
      var next := RetryStep(s, c);
      assert Sound(next, c) && Holds(next) == Holds(s) by {
        RetryStepSound(s, c);
      }
      RetryRunSound(next, c, fuel - 1);
      assert RetryRun(s, c, fuel) == RetryRun(next, c, fuel - 1);
    }
  }

  // ---------------------------------------------------------------------------
  // Divergence

  /** A list the loop can never get rid of: no box is recommended for it, and the
      retry split gives it back whole (with an empty partner), as it does for a
      list of at most one product and for a list whose weights are all 0. */
  predicate Stuck(l: seq<Product>, c: BoxContext)
  {
    && (|l| <= 1 || forall i :: 0 <= i < |l| ==> l[i].weight == 0)
    && ChooseBox(c.boxes, l, c.rates, c.packer) == None
  }

  lemma StuckStep(s: RetryState, c: BoxContext, i: nat) returns (j: nat)
    requires i < |s.queue| && Stuck(s.queue[i], c)
    ensures j < |RetryStep(s, c).queue| && Stuck(RetryStep(s, c).queue[j], c)
  {
    if i == 0 {
      StuckHeadReturns(s, c);
      j := |RetryStep(s, c).queue| - 2;
    } else {
      j := i - 1;
      assert RetryStep(s, c).queue[j] == s.queue[i];
    }
  }

  /** The stuck list at the head of the worklist comes back, whole, second to last. */
  lemma StuckHeadReturns(s: RetryState, c: BoxContext)
    requires s.queue != [] && Stuck(s.queue[0], c)
    ensures RetryStep(s, c).queue == s.queue[1..] + [s.queue[0], []]
  {
    var l := s.queue[0];
    if |l| <= 1 {
      ShortListSorted(l);
      AssignShortList(l);
    } else {
      WeightlessSorted(l);
      AssignAllWeightless(l);
    }
  }

  /** Equal weights leave the stable sort nothing to reorder. */
  lemma WeightlessSorted(l: seq<Product>)
    requires forall i :: 0 <= i < |l| ==> l[i].weight == 0
    ensures SortDesc(l, Weight) == l
  {
    var zero := (p: Product) => p.weight == 0;
    SortDescStable(l, Weight, 0, zero);
    FilterAll(l, zero);
    var r := SortDesc(l, Weight);
    forall i | 0 <= i < |r| ensures zero(r[i]) {
      assert r[i] in multiset(l);
    }
    FilterAll(r, zero);
  }

  lemma ShortListSorted(l: seq<Product>)
    requires |l| <= 1
    ensures SortDesc(l, Weight) == l
  {
    if |l| == 1 {
      assert multiset(SortDesc(l, Weight)) == multiset{l[0]};
      assert SortDesc(l, Weight)[0] in multiset(SortDesc(l, Weight));
    }
  }

  lemma {:induction false} StuckAtNeverDrains(s: RetryState, c: BoxContext, fuel: nat, i: nat)
    requires i < |s.queue| && Stuck(s.queue[i], c)
    ensures RetryRun(s, c, fuel) == OutOfFuel
    decreases fuel
  {
    if fuel > 0 {
      var j := StuckStep(s, c, i);
      StuckAtNeverDrains(RetryStep(s, c), c, fuel - 1, j);
      assert RetryRun(s, c, fuel) == RetryRun(RetryStep(s, c), c, fuel - 1);
    }
  }

  /** A list of at most one product for which no box is recommended (a product
      wider than every box, say) keeps the loop running for ever: no number of
      rounds drains it. */
  lemma StuckListNeverDrains(s: RetryState, c: BoxContext, fuel: nat)
    requires exists i :: 0 <= i < |s.queue| && Stuck(s.queue[i], c)
    ensures RetryRun(s, c, fuel) == OutOfFuel
  {
    var i :| 0 <= i < |s.queue| && Stuck(s.queue[i], c);
    StuckAtNeverDrains(s, c, fuel, i);
  }
}
