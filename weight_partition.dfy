/** The first worklist of `seperateBox`: lists of products are taken from the front
    of `unCheckedProduct`; a list whose running weight passes the ceiling is sorted
    by weight, split in two by the accumulating balance rule and both halves go to
    the back; any other list goes to `queue`. */
module WeightPartition {
  import opened Collections
  import opened Entities

  // ---------------------------------------------------------------------------
  // The running total with its early `break`

  /** The running weight from `acc`, stopped at the first item that takes it past
      the ceiling. */
  function CappedWeightFrom(s: seq<Product>, acc: int): int
    decreases |s|
  {
    if s == [] then acc
    else if acc + s[0].weight > WeightLimit then acc + s[0].weight
    else CappedWeightFrom(s[1..], acc + s[0].weight)
  }

  function CappedWeight(s: seq<Product>): int
  {
    CappedWeightFrom(s, 0)
  }

  /** The `totalWeight` loop with its `break` once the total passes 20000. */
  method CappedTotal(pList: seq<Product>) returns (totalWeight: int)
    ensures totalWeight == CappedWeight(pList)
  {
    totalWeight := 0;
    var i := 0;
    while i < |pList|
      invariant 0 <= i <= |pList|
      invariant totalWeight <= WeightLimit
      invariant CappedWeightFrom(pList[i..], totalWeight) == CappedWeight(pList)
    {
      assert pList[i..][0] == pList[i] && pList[i..][1..] == pList[i + 1..];
      totalWeight := totalWeight + pList[i].weight;
      if totalWeight > WeightLimit {
        break;
      }
      i := i + 1;
    }
  }

  lemma {:induction false} CappedWeightFromTotal(s: seq<Product>, acc: int)
    ensures CappedWeightFrom(s, acc) <= WeightLimit ==> CappedWeightFrom(s, acc) == acc + TotalWeight(s)
    ensures NonNegative(s) ==> (CappedWeightFrom(s, acc) > WeightLimit <==> acc + TotalWeight(s) > WeightLimit)
    decreases |s|
  {
    if s != [] {
      assert s == [s[0]] + s[1..];
      SumOfAppend([s[0]], s[1..], Weight);
      assert SumOf([s[0]], Weight) == s[0].weight;
      CappedWeightFromTotal(s[1..], acc + s[0].weight);
      if NonNegative(s) {
        SumOfNonNegative(s[1..], Weight);
      }
    }
  }

  /** A total that stays within the ceiling is the full sum; with no negative
      weight, stopping early never changes whether the list is over the ceiling. */
  lemma BreakKeepsDecision(s: seq<Product>)
    ensures CappedWeight(s) <= WeightLimit ==> CappedWeight(s) == TotalWeight(s)
    ensures NonNegative(s) ==> (CappedWeight(s) > WeightLimit <==> TotalWeight(s) > WeightLimit)
  {
    CappedWeightFromTotal(s, 0);
  }

  // ---------------------------------------------------------------------------
  // The two-way split

  /** The two lists and the two weights of a split in progress. */
  datatype SplitState = SplitState(left: seq<Product>, right: seq<Product>, lWeight: int, rWeight: int)

  /** The first split: an item goes to the right list when `lWeight > rWeight` and
      to the left list otherwise (ties go left); both weights grow with `+=`. */
  function Accumulate(s: seq<Product>): SplitState
  {
    if s == [] then SplitState([], [], 0, 0)
    else
      var st := Accumulate(s[..|s| - 1]);
      var p := s[|s| - 1];
      if st.lWeight > st.rWeight then SplitState(st.left, st.right + [p], st.lWeight, st.rWeight + p.weight)
      else SplitState(st.left + [p], st.right, st.lWeight + p.weight, st.rWeight)
  }

  method SplitAccumulating(pList: seq<Product>) returns (pList1: seq<Product>, pList2: seq<Product>)
    ensures pList1 == Accumulate(pList).left && pList2 == Accumulate(pList).right
  {
    pList1, pList2 := [], [];
    var lWeight, rWeight := 0, 0;
    for i := 0 to |pList|
      invariant Accumulate(pList[..i]) == SplitState(pList1, pList2, lWeight, rWeight)
    {
      assert pList[..i + 1][..i] == pList[..i];
      if lWeight > rWeight {
        rWeight := rWeight + pList[i].weight;
        pList2 := pList2 + [pList[i]];
      } else {
        lWeight := lWeight + pList[i].weight;
        pList1 := pList1 + [pList[i]];
      }
    }
    assert pList[..|pList|] == pList;
  }

  /** The split loses and invents nothing. */
  lemma {:induction false} AccumulatePermutes(s: seq<Product>)
    ensures multiset(Accumulate(s).left) + multiset(Accumulate(s).right) == multiset(s)
  {
    if s != [] {
      var prefix, p := s[..|s| - 1], s[|s| - 1];
      AccumulatePermutes(prefix);
      assert s == prefix + [p];
    }
  }

  /** The two running weights are the totals of the two lists. */
  lemma {:induction false} AccumulateWeights(s: seq<Product>)
    ensures Accumulate(s).lWeight == TotalWeight(Accumulate(s).left)
    ensures Accumulate(s).rWeight == TotalWeight(Accumulate(s).right)
  {
    if s != [] {
      var prefix, p := s[..|s| - 1], s[|s| - 1];
      AccumulateWeights(prefix);
      var st := Accumulate(prefix);
      if st.lWeight > st.rWeight {
        assert (st.right + [p])[..|st.right|] == st.right;
      } else {
        assert (st.left + [p])[..|st.left|] == st.left;
      }
    }
  }

  /** The first item always goes left; when it weighs something, the second goes
      right. A single item is split into itself and an empty list. */
  lemma {:induction false} AccumulateFront(s: seq<Product>)
    requires |s| >= 1
    ensures |Accumulate(s).left| >= 1 && Accumulate(s).left[0] == s[0]
    ensures |s| >= 2 && s[0].weight > 0 ==> |Accumulate(s).right| >= 1 && Accumulate(s).right[0] == s[1]
    ensures |s| == 1 ==> Accumulate(s).left == s && Accumulate(s).right == []
  {
    if |s| > 1 {
      AccumulateFront(s[..|s| - 1]);
      assert s[..|s| - 1][0] == s[0];
      if |s| > 2 {
        assert s[..|s| - 1][1] == s[1];
      } else {
        assert s[..1] == [s[0]];
      }
    }
  }

  /** The greedy rule keeps the two sides within one (largest) item of each other. */
  lemma {:induction false} AccumulateBalanced(s: seq<Product>, bound: int)
    requires bound >= 0
    requires forall p :: p in s ==> 0 <= p.weight <= bound
    ensures -bound <= Accumulate(s).lWeight - Accumulate(s).rWeight <= bound
  {
    if s != [] {
      assert s[|s| - 1] in s;
      forall p | p in s[..|s| - 1] ensures 0 <= p.weight <= bound {
        assert p in s;
      }
      AccumulateBalanced(s[..|s| - 1], bound);
    }
  }

  /** A list that is over the ceiling although each item is within it is split into
      two non-empty, strictly shorter lists that together hold its items. */
  lemma SplitShrinks(pList: seq<Product>)
    requires WeightsInRange(pList) && TotalWeight(pList) > WeightLimit
    ensures var st := Accumulate(SortDesc(pList, Weight));
      && multiset(st.left) + multiset(st.right) == multiset(pList)
      && 0 < |st.left| < |pList| && 0 < |st.right| < |pList|
  {
    var sorted := SortDesc(pList, Weight);
    AccumulatePermutes(sorted);
    AtLeastTwoItems(pList);
    SumOfPermutation(sorted, pList, Weight);
    HeaviestIsPositive(sorted);
    AccumulateFront(sorted);
    var st := Accumulate(sorted);
    assert |multiset(st.left)| + |multiset(st.right)| == |multiset(pList)|;
  }

  lemma AtLeastTwoItems(pList: seq<Product>)
    requires WeightsInRange(pList) && TotalWeight(pList) > WeightLimit
    ensures |pList| >= 2
  {
    ShortListWithinLimit(pList);
  }

  lemma ShortListWithinLimit(pList: seq<Product>)
    requires WeightsInRange(pList)
    ensures |pList| <= 1 ==> TotalWeight(pList) <= WeightLimit
  {
    if |pList| == 1 {
      assert pList[0] in pList;
      assert pList[..0] == [];
      assert SumOf(pList, Weight) == SumOf(pList[..0], Weight) + Weight(pList[0]);
    }
  }

  lemma HeaviestIsPositive(s: seq<Product>)
    requires SortedDesc(s, Weight) && TotalWeight(s) > 0
    ensures |s| > 0 && s[0].weight > 0
  {
    if s[0].weight <= 0 {
      forall p | p in s ensures Weight(p) <= 0 {
        var m :| 0 <= m < |s| && s[m] == p;
        if m > 0 {
          assert Weight(s[0]) >= Weight(s[m]);
        }
      }
      SumOfNonPositive(s, Weight);
    }
  }

  // ---------------------------------------------------------------------------
  // The worklist

  datatype Worklists = Worklists(unchecked: seq<seq<Product>>, queue: seq<seq<Product>>)

  /** One round of the `while (!unCheckedProduct.isEmpty())` loop. */
  function WeightStep(w: Worklists): Worklists
    requires w.unchecked != []
  {
    var pList := w.unchecked[0];
    if CappedWeight(pList) > WeightLimit then
      var st := Accumulate(SortDesc(pList, Weight));
      Worklists(w.unchecked[1..] + [st.left, st.right], w.queue)
    else
      Worklists(w.unchecked[1..], w.queue + [pList])
  }

  /** All products held by the two worklists. */
  function Items(w: Worklists): multiset<Product>
  {
    multiset(Flatten(w.unchecked)) + multiset(Flatten(w.queue))
  }

  predicate AllWeightsInRange(ws: seq<seq<Product>>)
  {
    forall l :: l in ws ==> WeightsInRange(l)
  }

  predicate WithinLimit(ws: seq<seq<Product>>)
  {
    forall l :: l in ws ==> TotalWeight(l) <= WeightLimit
  }

  lemma FlattenCons(l: seq<Product>, rest: seq<seq<Product>>)
    ensures Flatten([l] + rest) == l + Flatten(rest)
  {
    FlattenAppend([l], rest);
    assert Flatten([l]) == Flatten([l][..0]) + l;
  }

  /** A round moves products between lists and never loses or adds one. */
  lemma WeightStepKeepsItems(w: Worklists)
    requires w.unchecked != []
    ensures Items(WeightStep(w)) == Items(w)
  {
    var pList := w.unchecked[0];
    var rest := w.unchecked[1..];
    assert multiset(Flatten(w.unchecked)) == multiset(Flatten(rest)) + multiset(pList) by {
      assert w.unchecked == [pList] + rest;
      FlattenCons(pList, rest);
    }
    if CappedWeight(pList) > WeightLimit {
      SplitKeepsItems(pList, rest, w.queue);
    } else {
      assert Flatten(w.queue + [pList]) == Flatten(w.queue) + pList;
    }
  }

  /** The two halves of a split list replace it in the unchecked worklist. */
  lemma SplitKeepsItems(pList: seq<Product>, rest: seq<seq<Product>>, queue: seq<seq<Product>>)
    ensures var st := Accumulate(SortDesc(pList, Weight));
      Items(Worklists(rest + [st.left, st.right], queue)) == multiset(Flatten(rest)) + multiset(pList) + multiset(Flatten(queue))
  {
    var st := Accumulate(SortDesc(pList, Weight));
    AccumulatePermutes(SortDesc(pList, Weight));
    ReplaceKeepsItems(pList, st.left, st.right, rest, queue);
  }

  lemma ReplaceKeepsItems(pList: seq<Product>, l: seq<Product>, r: seq<Product>, rest: seq<seq<Product>>, queue: seq<seq<Product>>)
    requires multiset(l) + multiset(r) == multiset(pList)
    ensures Items(Worklists(rest + [l, r], queue)) == multiset(Flatten(rest)) + multiset(pList) + multiset(Flatten(queue))
  {
    var f, q := multiset(Flatten(rest)), multiset(Flatten(queue));
    calc {
      Items(Worklists(rest + [l, r], queue));
      multiset(Flatten(rest + [l, r])) + q;
      { FlattenAppend(rest, [l, r]); FlattenCons(l, [r]); FlattenCons(r, []); }
      multiset(Flatten(rest) + l + r) + q;
      f + multiset(l) + multiset(r) + q;
      f + multiset(pList) + q;
    }
  }

  /** Only lists within the ceiling are ever pushed to `queue`. */
  lemma WeightStepKeepsQueueWithinLimit(w: Worklists)
    requires w.unchecked != [] && WithinLimit(w.queue)
    ensures WithinLimit(WeightStep(w).queue)
  {
    BreakKeepsDecision(w.unchecked[0]);
  }

  function ListCost(l: seq<Product>): nat
  {
    if l == [] then 1 else 2 * |l| - 1
  }

  /** The termination measure of the worklist: splitting a list of n >= 2 items
      into two non-empty lists trades 2n - 1 for 2n - 2. */
  function Cost(ws: seq<seq<Product>>): nat
  {
    if ws == [] then 0 else ListCost(ws[0]) + Cost(ws[1..])
  }

  lemma {:induction false} CostAppend(a: seq<seq<Product>>, b: seq<seq<Product>>)
    ensures Cost(a + b) == Cost(a) + Cost(b)
  {
    if a == [] {
      assert a + b == b;
    } else {
      CostAppend(a[1..], b);
      assert (a + b)[1..] == a[1..] + b;
    }
  }

  /** With every weight in [0, 20000], every round lowers the measure. */
  lemma WeightStepShrinks(w: Worklists)
    requires w.unchecked != [] && AllWeightsInRange(w.unchecked)
    ensures AllWeightsInRange(WeightStep(w).unchecked)
    ensures Cost(WeightStep(w).unchecked) < Cost(w.unchecked)
  {
    var pList := w.unchecked[0];
    var rest := w.unchecked[1..];
    assert pList in w.unchecked;
    forall l | l in rest ensures WeightsInRange(l) {
      assert l in w.unchecked;
    }
    if CappedWeight(pList) > WeightLimit {
      BreakKeepsDecision(pList);
      var st := Accumulate(SortDesc(pList, Weight));
      SplitCost(pList);
      CostAppend(rest, [st.left, st.right]);
    }
  }

  lemma SplitCost(pList: seq<Product>)
    requires WeightsInRange(pList) && TotalWeight(pList) > WeightLimit
    ensures var st := Accumulate(SortDesc(pList, Weight));
      && Cost([st.left, st.right]) < ListCost(pList)
      && WeightsInRange(st.left) && WeightsInRange(st.right)
  {
    SplitShrinks(pList);
    var st := Accumulate(SortDesc(pList, Weight));
    CostPair(st.left, st.right);
    assert |multiset(st.left)| + |multiset(st.right)| == |multiset(pList)|;
    SubListWeightsInRange(pList, st.left, st.right);
  }

  lemma CostPair(a: seq<Product>, b: seq<Product>)
    ensures Cost([a, b]) == ListCost(a) + ListCost(b)
  {
    assert [a, b][1..] == [b];
    assert [b][1..] == [];
    assert Cost([b]) == ListCost(b) + Cost([]);
    assert Cost([a, b]) == ListCost(a) + Cost([b]);
  }

  lemma SubListWeightsInRange(whole: seq<Product>, a: seq<Product>, b: seq<Product>)
    requires WeightsInRange(whole) && multiset(a) + multiset(b) == multiset(whole)
    ensures WeightsInRange(a) && WeightsInRange(b)
  {
    forall p | p in a || p in b ensures 0 <= p.weight <= WeightLimit {
      assert p in multiset(whole);
    }
  }

  /** The lists `seperateBox` passes on to box selection: the worklist drained. */
  function Partition(w: Worklists): seq<seq<Product>>
    requires AllWeightsInRange(w.unchecked)
    decreases Cost(w.unchecked)
  {
    if w.unchecked == [] then w.queue
    else
      WeightStepShrinks(w);
      Partition(WeightStep(w))
  }

  /** Draining the worklist leaves only lists within the ceiling that together hold
      exactly the products the worklists held. */
  lemma {:induction false} PartitionSound(w: Worklists)
    requires AllWeightsInRange(w.unchecked) && WithinLimit(w.queue)
    ensures WithinLimit(Partition(w))
    ensures multiset(Flatten(Partition(w))) == Items(w)
    decreases Cost(w.unchecked)
  {
    if w.unchecked == [] {
      assert Flatten(w.unchecked) == [];
    } else {
      WeightStepShrinks(w);
      WeightStepKeepsItems(w);
      WeightStepKeepsQueueWithinLimit(w);
      PartitionSound(WeightStep(w));
    }
  }

  /** The worklist loop of lines 189-227, for products whose weights lie in
      [0, 20000] (with a heavier item the source never leaves the loop; see
      HeavyItemNeverDrains). */
  method SeparateByWeight(products: seq<Product>) returns (queue: seq<seq<Product>>)
    requires WeightsInRange(products)
    ensures queue == Partition(Worklists([products], []))
    ensures WithinLimit(queue)
    ensures multiset(Flatten(queue)) == multiset(products)
  {
    var unCheckedProduct := [products];
    queue := [];
    while unCheckedProduct != []
      invariant AllWeightsInRange(unCheckedProduct)
      invariant Partition(Worklists(unCheckedProduct, queue)) == Partition(Worklists([products], []))
      decreases Cost(unCheckedProduct)
    {
      ghost var before := Worklists(unCheckedProduct, queue);
      WeightStepShrinks(before);
      var pList := unCheckedProduct[0];
      unCheckedProduct := unCheckedProduct[1..];
      var totalWeight := CappedTotal(pList);
      if totalWeight > WeightLimit {
        var sorted := SortDesc(pList, Weight);
        var pList1, pList2 := SplitAccumulating(sorted);
        unCheckedProduct := unCheckedProduct + [pList1, pList2];
      } else {
        queue := queue + [pList];
      }
      assert Worklists(unCheckedProduct, queue) == WeightStep(before);
    }
    var start := Worklists([products], []);
    PartitionSound(start);
    FlattenCons(products, []);
  }

  // ---------------------------------------------------------------------------
  // Divergence on an item heavier than the ceiling

  /** `n` rounds of the loop, or fewer if the worklist drains first. */
  function Iterate(w: Worklists, n: nat): Worklists
    decreases n
  {
    if n == 0 || w.unchecked == [] then w else Iterate(WeightStep(w), n - 1)
  }

  predicate Overweight(l: seq<Product>)
  {
    exists p :: p in l && p.weight > WeightLimit
  }

  predicate AllNonNegative(ws: seq<seq<Product>>)
  {
    forall l :: l in ws ==> NonNegative(l)
  }

  lemma HeavyStep(w: Worklists)
    requires w.unchecked != [] && AllNonNegative(w.unchecked)
    requires exists l :: l in w.unchecked && Overweight(l)
    ensures AllNonNegative(WeightStep(w).unchecked)
    ensures exists l :: l in WeightStep(w).unchecked && Overweight(l)
  {
    var pList := w.unchecked[0];
    var rest := w.unchecked[1..];
    assert w.unchecked == [pList] + rest;
    var heavy :| heavy in w.unchecked && Overweight(heavy);
    assert pList in w.unchecked;
    if CappedWeight(pList) > WeightLimit {
      var st := Accumulate(SortDesc(pList, Weight));
      AccumulatePermutes(SortDesc(pList, Weight));
      var next := rest + [st.left, st.right];
      assert st.left in next && st.right in next;
      forall l | l in next ensures NonNegative(l) {
        if l in rest {
          assert l in w.unchecked;
        } else {
          forall p | p in l ensures p.weight >= 0 {
            assert p in multiset(pList);
          }
        }
      }
      if heavy == pList {
        var p :| p in pList && p.weight > WeightLimit;
        assert p in multiset(st.left) + multiset(st.right);
        assert Overweight(st.left) || Overweight(st.right);
      } else {
        assert heavy in next;
      }
    } else {
      forall l | l in rest ensures NonNegative(l) {
        assert l in w.unchecked;
      }
      if heavy == pList {
        var p :| p in pList && p.weight > WeightLimit;
        SumOfAtLeastTerm(pList, Weight, p);
        BreakKeepsDecision(pList);
        assert false;
      }
      assert heavy in rest;
    }
  }

  /** With no negative weight, once some list holds an item heavier than 20000 the
      worklist is never empty again: the loop of lines 189-227 does not end. */
  lemma {:induction false} HeavyItemNeverDrains(w: Worklists, n: nat)
    requires AllNonNegative(w.unchecked)
    requires exists l :: l in w.unchecked && Overweight(l)
    ensures Iterate(w, n).unchecked != []
    decreases n
  {
    if n > 0 {
      HeavyStep(w);
      HeavyItemNeverDrains(WeightStep(w), n - 1);
    }
  }
}
