/** Box selection: `recommendBox` scans the candidate boxes largest first and asks
    `canPutAllProducts` about each one that passes a size prefilter. Both share one
    list of pending products, which the packing check sorts, hands to `put` and
    shrinks in place. */
module BoxSelection {
  import opened Collections
  import opened Entities

  /** The `ArrayList<ProductRecommendDto>` that `recommendBox` builds once and then
      passes to the packing check of every candidate box. */
  class ProductRecommendList {
    var items: seq<ProductRecommend>

    constructor ()
      ensures items == []
    {
      items := [];
    }
  }

  /** `BoxRecommendDto`: the interior of one candidate box and the products placed
      in it so far. */
  class BoxRecommend {
    const dims: BoxDims
    var arranged: seq<ProductRecommend>

    constructor (maxWidth: int, maxHeight: int, maxHigh: int)
      ensures dims == BoxDims(maxWidth, maxHeight, maxHigh) && arranged == []
    {
      dims := BoxDims(maxWidth, maxHeight, maxHigh);
      arranged := [];
    }

    /** `put`, whose code is not part of this model: the products it places move,
        in order, from the pending list to `arranged`; the rest stay pending. */
    method Put(prdList: ProductRecommendList, k: Packer)
      modifies this, prdList
      ensures arranged == old(arranged) + Placed(old(prdList.items), k.put(dims, old(prdList.items)))
      ensures prdList.items == Unplaced(old(prdList.items), k.put(dims, old(prdList.items)))
    {
      var mask := k.put(dims, prdList.items);
      arranged := arranged + Placed(prdList.items, mask);
      prdList.items := Unplaced(prdList.items, mask);
    }
  }

  predicate Marked(mask: seq<bool>, i: int)
  {
    0 <= i < |mask| && mask[i]
  }

  /** The products at the positions `mask` marks, in order. */
  function Placed<T>(s: seq<T>, mask: seq<bool>): seq<T>
  {
    if s == [] then []
    else Placed(s[..|s| - 1], mask) + (if Marked(mask, |s| - 1) then [s[|s| - 1]] else [])
  }

  /** The products at the positions `mask` does not mark, in order. */
  function Unplaced<T>(s: seq<T>, mask: seq<bool>): seq<T>
  {
    if s == [] then []
    else Unplaced(s[..|s| - 1], mask) + (if Marked(mask, |s| - 1) then [] else [s[|s| - 1]])
  }

  lemma {:induction false} PlacedUnplacedPermutes<T>(s: seq<T>, mask: seq<bool>)
    ensures multiset(Placed(s, mask)) + multiset(Unplaced(s, mask)) == multiset(s)
  {
    if s != [] {
      PlacedUnplacedPermutes(s[..|s| - 1], mask);
      assert s == s[..|s| - 1] + [s[|s| - 1]];
    }
  }

  // ---------------------------------------------------------------------------
  // The packing check

  function Capacity(b: BoxDims): int
  {
    b.width * b.height * b.high
  }

  function MinVolumeSum(s: seq<ProductRecommend>, k: Packer): int
  {
    SumOf(s, k.minVolume)
  }

  /** `0.8 * capacity - realVolume > itemMin`, multiplied through by 5. */
  predicate AdmitsResidual(b: BoxDims, realVolume: int, itemMin: int)
  {
    4 * Capacity(b) - 5 * realVolume > 5 * itemMin
  }

  /** The integer form decides the same as the source's comparison over the reals
      (rounding of the `double` aside). */
  lemma AdmitsResidualExact(b: BoxDims, realVolume: int, itemMin: int)
    ensures AdmitsResidual(b, realVolume, itemMin)
        <==> (Capacity(b) as real) * 0.8 - realVolume as real > itemMin as real
  {
  }

  datatype PutResult = PutResult(placed: seq<ProductRecommend>, unplaced: seq<ProductRecommend>)

  /** The pending list sorted by largest volume, then split by `put`. */
  function PutSorted(items: seq<ProductRecommend>, b: BoxDims, k: Packer): PutResult
  {
    var sorted := SortDesc(items, k.maxVolume);
    var mask := k.put(b, sorted);
    PutResult(Placed(sorted, mask), Unplaced(sorted, mask))
  }

  /** Whether a box holding `arranged` takes the single product still `pending`. */
  predicate RescuesLast(b: BoxDims, arranged: seq<ProductRecommend>, pending: seq<ProductRecommend>, k: Packer)
  {
    |pending| == 1 && AdmitsResidual(b, MinVolumeSum(arranged, k), k.minVolume(pending[0]))
  }

  /** Whether the check places the one product `put` left over. */
  predicate Admitted(items: seq<ProductRecommend>, b: BoxDims, prior: seq<ProductRecommend>, k: Packer)
  {
    var r := PutSorted(items, b, k);
    RescuesLast(b, prior + r.placed, r.unplaced, k)
  }

  /** The pending list after `canPutAllProducts` (`prior` is what the box held). */
  function Residue(items: seq<ProductRecommend>, b: BoxDims, prior: seq<ProductRecommend>, k: Packer): seq<ProductRecommend>
  {
    if Admitted(items, b, prior, k) then [] else PutSorted(items, b, k).unplaced
  }

  /** The box's contents after `canPutAllProducts`. */
  function Arranged(items: seq<ProductRecommend>, b: BoxDims, prior: seq<ProductRecommend>, k: Packer): seq<ProductRecommend>
  {
    var r := PutSorted(items, b, k);
    prior + r.placed + (if Admitted(items, b, prior, k) then r.unplaced else [])
  }

  /** `canPutAllProducts` (lines 350-380): sort, `put`, then a single left-over
      product is admitted when the box's 80% capacity minus the compressed volume
      already placed exceeds its compressed volume. */
  method CanPutAllProducts(prdList: ProductRecommendList, brd: BoxRecommend, k: Packer) returns (ok: bool)
    modifies prdList, brd
    ensures prdList.items == Residue(old(prdList.items), brd.dims, old(brd.arranged), k)
    ensures brd.arranged == Arranged(old(prdList.items), brd.dims, old(brd.arranged), k)
    ensures ok <==> prdList.items == []
  {
    prdList.items := SortDesc(prdList.items, k.maxVolume);
    brd.Put(prdList, k);
    RescueLast(prdList, brd, k);
    ok := !(|prdList.items| > 0);
  }

  /** The tail of `canPutAllProducts` (lines 362-374): with exactly one product
      pending, it is moved into the box when the box admits it. */
  method RescueLast(prdList: ProductRecommendList, brd: BoxRecommend, k: Packer)
    modifies prdList, brd
    ensures RescuesLast(brd.dims, old(brd.arranged), old(prdList.items), k)
      ==> brd.arranged == old(brd.arranged) + old(prdList.items) && prdList.items == []
    ensures !RescuesLast(brd.dims, old(brd.arranged), old(prdList.items), k)
      ==> brd.arranged == old(brd.arranged) && prdList.items == old(prdList.items)
  {
    if |prdList.items| == 1 {
      var realVolume := SummedMinVolume(brd.arranged, k);
      var capacity := brd.dims.width * brd.dims.height * brd.dims.high;
      if 4 * capacity - 5 * realVolume > 5 * k.minVolume(prdList.items[0]) {
        brd.arranged := brd.arranged + [prdList.items[0]];
        prdList.items := prdList.items[1..];
      }
    }
  }

  /** The loop of `canPutAllProducts` that adds up the smallest volumes of the
      products already in the box. */
  method SummedMinVolume(arranged: seq<ProductRecommend>, k: Packer) returns (realVolume: int)
    ensures realVolume == MinVolumeSum(arranged, k)
  {
    realVolume := 0;
    for i := 0 to |arranged|
      invariant realVolume == MinVolumeSum(arranged[..i], k)
    {
      assert arranged[..i + 1][..i] == arranged[..i];
      realVolume := realVolume + k.minVolume(arranged[i]);
    }
    assert arranged[..|arranged|] == arranged;
  }

  /** The check only moves products: what stays pending and what the box holds
      are together what was pending and what the box held before. */
  lemma CheckOnlyMoves(items: seq<ProductRecommend>, b: BoxDims, prior: seq<ProductRecommend>, k: Packer)
    ensures multiset(Residue(items, b, prior, k)) + multiset(Arranged(items, b, prior, k))
         == multiset(items) + multiset(prior)
  {
    var sorted := SortDesc(items, k.maxVolume);
    PlacedUnplacedPermutes(sorted, k.put(b, sorted));
  }

  /** Only the case of exactly one product left by `put` can be rescued: two or
      more left over always fail, and an empty list always passes. */
  lemma SingleResidualOnly(items: seq<ProductRecommend>, b: BoxDims, prior: seq<ProductRecommend>, k: Packer)
    ensures |PutSorted(items, b, k).unplaced| >= 2 ==> Residue(items, b, prior, k) != []
    ensures |PutSorted(items, b, k).unplaced| == 0 ==> Residue(items, b, prior, k) == []
    ensures items == [] ==> Residue(items, b, prior, k) == []
  {
  }

  // ---------------------------------------------------------------------------
  // The scan over the boxes

  function RateOf(rates: map<string, Option<real>>, categoryType: string): Option<real>
  {
    if categoryType in rates then rates[categoryType] else None
  }

  function RecommendOf(p: Product, rates: map<string, Option<real>>): ProductRecommend
  {
    ProductRecommend(p.width, p.height, p.high, RateOf(rates, p.categoryType))
  }

  /** The DTO list built by the first loop of `recommendBox`. */
  function Recommends(ps: seq<Product>, rates: map<string, Option<real>>): seq<ProductRecommend>
  {
    if ps == [] then [] else Recommends(ps[..|ps| - 1], rates) + [RecommendOf(ps[|ps| - 1], rates)]
  }

  /** The size prefilter: wider than the widest product, larger than the summed
      product volumes. */
  predicate Passes(b: Box, maxWi: int, totalVolume: int)
  {
    b.width > maxWi && b.volume > totalVolume
  }

  /** The second loop of `recommendBox` from `best` on, with the shared pending
      list `prd`: at a passing box the check runs; a rejection ends the scan with
      the best box so far, an acceptance makes this box the best. */
  function Scan(boxes: seq<Box>, prd: seq<ProductRecommend>, best: Option<Box>, maxWi: int, totalVolume: int, k: Packer): Option<Box>
    decreases |boxes|
  {
    if boxes == [] then best
    else
      var b := boxes[0];
      if Passes(b, maxWi, totalVolume) then
        var rest := Residue(prd, BoxDims(b.width, b.height, b.high), [], k);
        if rest != [] then best else Scan(boxes[1..], rest, Some(b), maxWi, totalVolume, k)
      else Scan(boxes[1..], prd, best, maxWi, totalVolume, k)
  }

  function ChooseBox(boxes: seq<Box>, products: seq<Product>, rates: map<string, Option<real>>, k: Packer): Option<Box>
  {
    Scan(boxes, Recommends(products, rates), None, MaxWidth(products), TotalVolume(products), k)
  }

  /** `recommendBox` (lines 286-321). */
  method RecommendBox(boxList: seq<Box>, products: seq<Product>, rates: map<string, Option<real>>, k: Packer)
    returns (recommendBox: Option<Box>)
    ensures recommendBox == ChooseBox(boxList, products, rates, k)
    ensures recommendBox.Some? ==> recommendBox.value in boxList && Passes(recommendBox.value, MaxWidth(products), TotalVolume(products))
  {
    ChooseBoxSound(boxList, products, rates, k);
    var maxWi := 0;
    var productTotalVolume := 0;
    var prdList := new ProductRecommendList();
    for i := 0 to |products|
      invariant maxWi == MaxWidth(products[..i])
      invariant productTotalVolume == TotalVolume(products[..i])
      invariant prdList.items == Recommends(products[..i], rates)
    {
      assert products[..i + 1][..i] == products[..i];
      var p := products[i];
      maxWi := if maxWi > p.width then maxWi else p.width;
      prdList.items := prdList.items + [RecommendOf(p, rates)];
      productTotalVolume := productTotalVolume + p.volume;
    }
    assert products[..|products|] == products;
    recommendBox := None;
    for i := 0 to |boxList|
      invariant Scan(boxList[i..], prdList.items, recommendBox, maxWi, productTotalVolume, k) == ChooseBox(boxList, products, rates, k)
    {
      assert boxList[i..][0] == boxList[i] && boxList[i..][1..] == boxList[i + 1..];
      var b := boxList[i];
      if b.width > maxWi && b.volume > productTotalVolume {
        var brd := new BoxRecommend(b.width, b.height, b.high);
        var ok := CanPutAllProducts(prdList, brd, k);
        if !ok {
          return;
        }
        recommendBox := Some(b);
      }
    }
  }

  // ---------------------------------------------------------------------------
  // What the scan returns

  lemma {:induction false} ScanSound(boxes: seq<Box>, prd: seq<ProductRecommend>, best: Option<Box>, maxWi: int, totalVolume: int, k: Packer)
    ensures var r := Scan(boxes, prd, best, maxWi, totalVolume, k);
      r == best || (r.Some? && r.value in boxes && Passes(r.value, maxWi, totalVolume))
    decreases |boxes|
  {
    if boxes != [] {
      var b := boxes[0];
      if Passes(b, maxWi, totalVolume) {
        var rest := Residue(prd, BoxDims(b.width, b.height, b.high), [], k);
        if rest == [] {
          ScanSound(boxes[1..], rest, Some(b), maxWi, totalVolume, k);
        }
      } else {
        ScanSound(boxes[1..], prd, best, maxWi, totalVolume, k);
      }
    }
  }

  lemma {:induction false} MaxWidthBound(ps: seq<Product>)
    ensures forall p :: p in ps ==> p.width <= MaxWidth(ps)
    ensures MaxWidth(ps) >= 0
  {
    if ps != [] {
      MaxWidthBound(ps[..|ps| - 1]);
      assert ps == ps[..|ps| - 1] + [ps[|ps| - 1]];
    }
  }

  /** A recommended box is one of the candidates, wider than every product (the
      width is the only dimension compared) and larger than their summed volume. */
  lemma ChooseBoxSound(boxes: seq<Box>, products: seq<Product>, rates: map<string, Option<real>>, k: Packer)
    ensures var r := ChooseBox(boxes, products, rates, k);
      r.Some? ==> && r.value in boxes && Passes(r.value, MaxWidth(products), TotalVolume(products))
                  && (forall p :: p in products ==> r.value.width > p.width)
  {
    ScanSound(boxes, Recommends(products, rates), None, MaxWidth(products), TotalVolume(products), k);
    MaxWidthBound(products);
  }

  /** The last box in `boxes` that passes the prefilter, or `best` if none does. */
  function LastPassing(boxes: seq<Box>, best: Option<Box>, maxWi: int, totalVolume: int): Option<Box>
    decreases |boxes|
  {
    if boxes == [] then best
    else LastPassing(boxes[1..], if Passes(boxes[0], maxWi, totalVolume) then Some(boxes[0]) else best, maxWi, totalVolume)
  }

  /** Once the shared list is empty every later check accepts, so the scan ends on
      the last box that passes the prefilter. */
  lemma {:induction false} ScanOnEmptyList(boxes: seq<Box>, best: Option<Box>, maxWi: int, totalVolume: int, k: Packer)
    ensures Scan(boxes, [], best, maxWi, totalVolume, k) == LastPassing(boxes, best, maxWi, totalVolume)
    decreases |boxes|
  {
    if boxes != [] {
      var b := boxes[0];
      SingleResidualOnly([], BoxDims(b.width, b.height, b.high), [], k);
      if Passes(b, maxWi, totalVolume) {
        ScanOnEmptyList(boxes[1..], Some(b), maxWi, totalVolume, k);
      } else {
        ScanOnEmptyList(boxes[1..], best, maxWi, totalVolume, k);
      }
    }
  }

  lemma {:induction false} LastPassingAt(boxes: seq<Box>, best: Option<Box>, maxWi: int, totalVolume: int, j: int)
    requires -1 <= j < |boxes|
    requires j >= 0 ==> Passes(boxes[j], maxWi, totalVolume)
    requires forall m :: j < m < |boxes| ==> !Passes(boxes[m], maxWi, totalVolume)
    ensures LastPassing(boxes, best, maxWi, totalVolume) == if j >= 0 then Some(boxes[j]) else best
    decreases |boxes|
  {
    if boxes != [] {
      var next := if Passes(boxes[0], maxWi, totalVolume) then Some(boxes[0]) else best;
      LastPassingAt(boxes[1..], next, maxWi, totalVolume, if j >= 0 then j - 1 else -1);
    }
  }

  lemma {:induction false} ScanSkipsFailing(boxes: seq<Box>, prd: seq<ProductRecommend>, best: Option<Box>, maxWi: int, totalVolume: int, k: Packer, i: nat)
    requires i <= |boxes|
    requires forall m :: 0 <= m < i ==> !Passes(boxes[m], maxWi, totalVolume)
    ensures Scan(boxes, prd, best, maxWi, totalVolume, k) == Scan(boxes[i..], prd, best, maxWi, totalVolume, k)
    decreases i
  {
    if i > 0 {
      ScanSkipsFailing(boxes[1..], prd, best, maxWi, totalVolume, k, i - 1);
      assert boxes[1..][i - 1..] == boxes[i..];
    }
  }

  /** When the first box that passes the prefilter (index `i`) is accepted, the
      shared list is empty from then on and `recommendBox` returns the last box
      that passes the prefilter (index `j`), whatever the packing check would say
      about it. */
  lemma FirstAcceptedPicksLastPassing(boxes: seq<Box>, products: seq<Product>, rates: map<string, Option<real>>, k: Packer, i: nat, j: nat)
    requires i <= j < |boxes|
    requires Passes(boxes[i], MaxWidth(products), TotalVolume(products))
    requires Passes(boxes[j], MaxWidth(products), TotalVolume(products))
    requires forall m :: 0 <= m < i ==> !Passes(boxes[m], MaxWidth(products), TotalVolume(products))
    requires forall m :: j < m < |boxes| ==> !Passes(boxes[m], MaxWidth(products), TotalVolume(products))
    requires Residue(Recommends(products, rates), BoxDims(boxes[i].width, boxes[i].height, boxes[i].high), [], k) == []
    ensures ChooseBox(boxes, products, rates, k) == Some(boxes[j])
  {
    var maxWi, total := MaxWidth(products), TotalVolume(products);
    var prd := Recommends(products, rates);
    ScanSkipsFailing(boxes, prd, None, maxWi, total, k, i);
    assert boxes[i..][0] == boxes[i] && boxes[i..][1..] == boxes[i + 1..];
    ScanOnEmptyList(boxes[i + 1..], Some(boxes[i]), maxWi, total, k);
    LastPassingAt(boxes[i + 1..], Some(boxes[i]), maxWi, total, j - i - 1);
  }

  /** When the first box that passes the prefilter is rejected, no box is
      recommended, however many smaller boxes would pass. */
  lemma FirstRejectedGivesNone(boxes: seq<Box>, products: seq<Product>, rates: map<string, Option<real>>, k: Packer, i: nat)
    requires i < |boxes|
    requires Passes(boxes[i], MaxWidth(products), TotalVolume(products))
    requires forall m :: 0 <= m < i ==> !Passes(boxes[m], MaxWidth(products), TotalVolume(products))
    requires Residue(Recommends(products, rates), BoxDims(boxes[i].width, boxes[i].height, boxes[i].high), [], k) != []
    ensures ChooseBox(boxes, products, rates, k) == None
  {
    ScanSkipsFailing(boxes, Recommends(products, rates), None, MaxWidth(products), TotalVolume(products), k, i);
    assert boxes[i..][0] == boxes[i];
  }

  /** With no box passing the prefilter, no box is recommended. */
  lemma NonePassingGivesNone(boxes: seq<Box>, products: seq<Product>, rates: map<string, Option<real>>, k: Packer)
    requires forall m :: 0 <= m < |boxes| ==> !Passes(boxes[m], MaxWidth(products), TotalVolume(products))
    ensures ChooseBox(boxes, products, rates, k) == None
  {
    ScanSkipsFailing(boxes, Recommends(products, rates), None, MaxWidth(products), TotalVolume(products), k, |boxes|);
  }
}
