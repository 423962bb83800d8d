# Box recommendation engine of eco-packing, in Dafny

This project models the recommendation engine in `OrderService` and proves properties about the model. For one order, the engine does the following:

- It counts the ordered units per product and expands the catalog products into one entry per unit.
- It takes the frozen products out of that list and sorts the rest by weight.
- It sends each stream through `seperateBox`:
  - the chilled and ambient products go with the paper boxes;
  - the frozen products go with the styrofoam boxes.
- `seperateBox` runs two worklists:
  - The first worklist splits product lists by weight until each list is at most 20 kg.
  - The second worklist asks `recommendBox` for a box for each list. A list that gets no box is re-split.
- `recommendBox` scans the boxes from largest to smallest. For each box that passes a size prefilter, it calls the admission test `canPutAllProducts`.
- `orderToDto` turns each packed box into an output record.

The modules follow that structure:

- `Collections` (collections.dfy) holds the java.util behaviour the engine relies on:
  - order-preserving filtering;
  - sums;
  - the stable descending `Collections.sort` used with `o2.key - o1.key` comparators;
  - concatenation.
- `Entities` (entities.dfy) holds the records: products, boxes, order lines, the recommendation DTOs and the packed boxes.
- `WeightPartition` (weight_partition.dfy) holds the weight worklist.
- `BoxSelection` (box_selection.dfy) holds `recommendBox` and `canPutAllProducts`. Two classes model the state these change in place:
  - `ProductRecommendList` is the pending `prdList`, shared across all the candidate boxes of one scan.
  - `BoxRecommend` is `BoxRecommendDto` and its `arranged` list.
- `RetryPacking` (retry_packing.dfy) holds the retry worklist.
- `OrderService` (order_service.dfy) holds `recommend`, `seperateBox` and `orderToDto`. The class `RecordList` is the `result` list that `orderToDto` appends to.

Each loop of the source is a method with a loop. The method is proved equal to a specification function, and the properties are lemmas about that function.

The two unbounded worklists are modelled as follows:

- The weight worklist is proved to terminate when every weight lies in [0, 20000]. With a heavier product it never drains, and a lemma proves that.
- The retry worklist runs for at most `fuel` rounds and then answers `OutOfFuel`. A lemma proves that some lists keep it running for ever.

## Behaviour of the code worth knowing

The model follows the code as written, including these behaviours:

- **Admission test.** `canPutAllProducts` admits at most one product left over by `put`. It admits that product only when `0.8 * capacity - placed > its minimal volume`, a strict comparison (lines 362-374). Two or more leftovers always fail.
- **Shared pending list.** `recommendBox` passes the same `prdList` for every candidate box (line 312), and an accepted check empties it. Every later box that passes the prefilter is then checked against an empty list and accepted. So when the first box that passes the prefilter is accepted, the answer is the last box that passes it (`FirstAcceptedPicksLastPassing`).
- **Termination.** The weight worklist (lines 189-227) loops for ever on a product heavier than 20000. The retry worklist (lines 245-280) loops for ever on a list that gets no box and that its split gives back whole. This happens for a list of at most one product, and for a list whose weights are all 0.
- **Retry split.** The first split adds each weight to its side (`+=`, lines 214 and 217). The comment at line 216 asks whether `+=` rather than `=` is meant. The retry split still sets the side's weight to the last product's weight (`=`, lines 265 and 268). The two splits differ (`SplitsDiffer`).
- **Prefilter.** `recommendBox` compares only the box width with the widest product, and the box volume with the sum of the products' `volume` fields (line 311).
- **Stream guard.** The frozen stream runs only when there are frozen units (line 165). The paper stream runs unconditionally (lines 163-164). An order with no chilled or ambient unit therefore still gets a first record: the smallest paper box that passes the prefilter, holding no product (`NoCommonGetsEmptyPaperBox`).

## Model

| member | source | states |
|---|---|---|
| OrderService.SplitBoxesByTexture | src/main/java/com/eco/packing/service/OrderService.java:69-77 | the styrofoam list is exactly the styrofoam boxes and the paper list exactly the other boxes, each in catalog order |
| OrderService.BoxTexturesPartition | src/main/java/com/eco/packing/service/OrderService.java:71-77 | every box lands in exactly one of the two lists |
| OrderService.CountProducts | src/main/java/com/eco/packing/service/OrderService.java:90-96 | the loop builds the `productCount` map of the order lines |
| OrderService.CountKeys | src/main/java/com/eco/packing/service/OrderService.java:93-98 | the map has a key for exactly the products that have an order line |
| OrderService.CountLastWins | src/main/java/com/eco/packing/service/OrderService.java:93-96 | when a product has several order lines, its count is that of the last one (`HashMap.put` replaces) |
| OrderService.ExpandOrder | src/main/java/com/eco/packing/service/OrderService.java:115-124 | the first `size` entries are unchanged; after them come `count - 1` copies of each catalog product whose count exceeds 1, in catalog order |
| OrderService.ExpandMembers | src/main/java/com/eco/packing/service/OrderService.java:115-124 | expansion adds only copies of catalog products, so weights stay in range |
| OrderService.ExpandMultiplicity | src/main/java/com/eco/packing/service/OrderService.java:115-124 | with one catalog record per product, each product appears `count` times, and once when its count is 1 or less |
| OrderService.ExtractFrozen | src/main/java/com/eco/packing/service/OrderService.java:127-133 | the in-place `remove(i--)` scan leaves exactly the non-frozen products in their original order and collects exactly the frozen ones in their original order |
| OrderService.FrozenPartition | src/main/java/com/eco/packing/service/OrderService.java:127-133 | every product lands in exactly one of the two lists |
| OrderService.PrepareOrder | src/main/java/com/eco/packing/service/OrderService.java:89-149 | the common list is the expanded order's non-frozen products sorted heaviest first, and the frozen list holds its frozen products |
| Collections.SortDescStable | src/main/java/com/eco/packing/service/OrderService.java:144-149 | the weight sort (and every other descending sort) is stable: the products of any one weight keep their input order |
| WeightPartition.CappedTotal | src/main/java/com/eco/packing/service/OrderService.java:191-196 | the running total with its early `break` equals the capped weight of the list |
| WeightPartition.BreakKeepsDecision | src/main/java/com/eco/packing/service/OrderService.java:191-198 | a capped total within 20000 is the full total, and for non-negative weights the `break` never changes the over-limit decision |
| WeightPartition.SplitAccumulating | src/main/java/com/eco/packing/service/OrderService.java:209-220 | the first split: a product goes right when `lWeight > rWeight`, otherwise left (so ties go left), and both weights accumulate |
| WeightPartition.AccumulatePermutes | src/main/java/com/eco/packing/service/OrderService.java:212-220 | the two lists of the first split together are a permutation of the input |
| WeightPartition.AccumulateWeights | src/main/java/com/eco/packing/service/OrderService.java:209-220 | `lWeight` and `rWeight` are the total weights of the two lists |
| WeightPartition.AccumulateFront | src/main/java/com/eco/packing/service/OrderService.java:212-220 | the first product goes left and, when its weight is positive, the second goes right; a singleton yields `([x], [])` |
| WeightPartition.AccumulateBalanced | src/main/java/com/eco/packing/service/OrderService.java:212-220 | the two totals differ by at most the largest weight |
| WeightPartition.SplitShrinks | src/main/java/com/eco/packing/service/OrderService.java:198-223 | splitting an overweight list with weights in [0, 20000] gives two non-empty, strictly shorter lists that together are a permutation of it |
| WeightPartition.WeightStepKeepsItems | src/main/java/com/eco/packing/service/OrderService.java:189-227 | one round of the weight worklist loses and invents no product |
| WeightPartition.WeightStepShrinks | src/main/java/com/eco/packing/service/OrderService.java:189-227 | with weights in [0, 20000], each round strictly decreases a size measure of the unchecked lists (termination) |
| WeightPartition.PartitionSound | src/main/java/com/eco/packing/service/OrderService.java:189-227 | when the worklist drains, every list in `queue` weighs at most 20000 and the lists together hold exactly the input products |
| WeightPartition.SeparateByWeight | src/main/java/com/eco/packing/service/OrderService.java:183-227 | the loop terminates for weights in [0, 20000]; its `queue` is the drained worklist, each list is at most 20000, and the multiset union equals the input |
| WeightPartition.HeavyItemNeverDrains | src/main/java/com/eco/packing/service/OrderService.java:189-227 | with a product heavier than 20000, the unchecked worklist is non-empty after any number of rounds |
| BoxSelection.BoxRecommend.Put | src/main/java/com/eco/packing/service/OrderService.java:360 | `put` only moves products, in order, from the pending list to `arranged` |
| BoxSelection.PlacedUnplacedPermutes | src/main/java/com/eco/packing/service/OrderService.java:360 | placed and unplaced products together are exactly the products given to `put` |
| BoxSelection.SummedMinVolume | src/main/java/com/eco/packing/service/OrderService.java:363-367 | `realVolume` is the summed minimal volume of the arranged products |
| BoxSelection.RescueLast | src/main/java/com/eco/packing/service/OrderService.java:362-374 | a single pending product moves into the box exactly when `4 * capacity - 5 * realVolume > 5 * minVolume`; otherwise nothing changes |
| BoxSelection.AdmitsResidualExact | src/main/java/com/eco/packing/service/OrderService.java:369 | the integer test decides the same as `capacity * 0.8 - realVolume > minVolume` over the reals |
| BoxSelection.CanPutAllProducts | src/main/java/com/eco/packing/service/OrderService.java:350-380 | sort by maximal volume, `put`, rescue a single leftover product; the new pending list and box contents are those of the specification, and the result is true iff the pending list is now empty |
| BoxSelection.CheckOnlyMoves | src/main/java/com/eco/packing/service/OrderService.java:353-374 | the check never loses or adds a product: what is pending plus what the box holds is unchanged |
| BoxSelection.SingleResidualOnly | src/main/java/com/eco/packing/service/OrderService.java:362-379 | two or more leftover products always fail, no leftover always passes, and an empty pending list always passes |
| BoxSelection.RecommendBox | src/main/java/com/eco/packing/service/OrderService.java:286-321 | the two loops compute the box-scan specification over one shared pending list; a result is a listed box that passes the prefilter |
| BoxSelection.ChooseBoxSound | src/main/java/com/eco/packing/service/OrderService.java:297-316 | a recommended box is a candidate, wider than every product (width only), and larger than the products' summed volume |
| BoxSelection.FirstRejectedGivesNone | src/main/java/com/eco/packing/service/OrderService.java:311-314 | if the first box that passes the prefilter is rejected, the result is null, however many smaller boxes would pass |
| BoxSelection.ScanOnEmptyList | src/main/java/com/eco/packing/service/OrderService.java:304-318 | once the shared list is empty, every later box that passes the prefilter is accepted, so the scan ends on the last one |
| BoxSelection.FirstAcceptedPicksLastPassing | src/main/java/com/eco/packing/service/OrderService.java:304-318 | if the first box that passes the prefilter is accepted, the result is the last box in scan order that passes the prefilter |
| BoxSelection.NonePassingGivesNone | src/main/java/com/eco/packing/service/OrderService.java:303-320 | with no box passing the prefilter, the result is null |
| RetryPacking.SplitAssigning | src/main/java/com/eco/packing/service/OrderService.java:260-271 | the retry split: same routing test as the first split, but each side's weight is set to its latest product's weight |
| RetryPacking.AssignPermutes | src/main/java/com/eco/packing/service/OrderService.java:263-271 | the two lists of the retry split together are a permutation of the input |
| RetryPacking.AssignWeights | src/main/java/com/eco/packing/service/OrderService.java:263-271 | `lWeight` and `rWeight` hold the weight of the last product sent to each side (0 before any) |
| RetryPacking.AssignKeepsFirst | src/main/java/com/eco/packing/service/OrderService.java:263-271 | the first product always goes left |
| RetryPacking.RetrySplitHeaviestLeft | src/main/java/com/eco/packing/service/OrderService.java:253-271 | after the weight sort, a heaviest product of the list heads `pList1` |
| RetryPacking.AssignPeelsHeaviest | src/main/java/com/eco/packing/service/OrderService.java:263-271 | when the first product is strictly heaviest and positive, it goes left alone and all others go right |
| RetryPacking.AssignSplitsBoth | src/main/java/com/eco/packing/service/OrderService.java:263-271 | for two or more products with a positive first weight, both lists are non-empty and strictly shorter |
| RetryPacking.AssignShortList | src/main/java/com/eco/packing/service/OrderService.java:263-274 | a singleton splits into `[x]` and `[]`, and an empty list into two empty lists |
| RetryPacking.AssignAllWeightless | src/main/java/com/eco/packing/service/OrderService.java:263-271 | when every weight is 0, everything goes left |
| RetryPacking.SplitsDiffer | src/main/java/com/eco/packing/service/OrderService.java:263-271 | for weights 10, 6, 5, 4 the first split gives [10, 4] / [6, 5] and the retry split gives [10] / [6, 5, 4] |
| RetryPacking.SubListWithinLimit | src/main/java/com/eco/packing/service/OrderService.java:250-274 | both halves of a re-split list within 20000 are within 20000 |
| RetryPacking.RetryRound | src/main/java/com/eco/packing/service/OrderService.java:246-279 | one round of the retry worklist is the specification's step |
| RetryPacking.PackWithRetry | src/main/java/com/eco/packing/service/OrderService.java:245-280 | the retry loop, cut off after `fuel` rounds, equals the specification's run |
| RetryPacking.RetryStepSound | src/main/java/com/eco/packing/service/OrderService.java:245-280 | each round keeps every product exactly once (in the worklist or in a recorded box), keeps listed lists within 20000, and records only listed boxes that pass the prefilter |
| RetryPacking.RetryRunSound | src/main/java/com/eco/packing/service/OrderService.java:245-283 | a drained worklist delivers boxes that hold exactly its products; each box is listed, passes the prefilter for its products and carries at most 20000 |
| RetryPacking.StuckListNeverDrains | src/main/java/com/eco/packing/service/OrderService.java:245-280 | a list that gets no box and has at most one product, or only products of weight 0, keeps the loop running for ever: every fuel bound is exhausted |
| OrderService.SeparateBox | src/main/java/com/eco/packing/service/OrderService.java:173-284 | weight worklist, then box sort by volume (largest first), then the retry worklist, as the specification composes them |
| OrderService.SeparateBoxSound | src/main/java/com/eco/packing/service/OrderService.java:173-284 | finished boxes hold exactly the given products; each box is from the given list, passes the prefilter for its products, and weighs at most 20000 |
| OrderService.EmptyListGetsSmallestBox | src/main/java/com/eco/packing/service/OrderService.java:186-280 | an empty product list is packed into the last box (in volume-sorted order) that passes the prefilter; with no such box the worklist never drains |
| OrderService.PackingList | src/main/java/com/eco/packing/service/OrderService.java:326-330 | the inner loop builds the product lines of one packed box |
| OrderService.PackingsFaithful | src/main/java/com/eco/packing/service/OrderService.java:326-330 | one product line per product, in order, carrying its id, name, material name and material quantity |
| OrderService.RecordsFaithful | src/main/java/com/eco/packing/service/OrderService.java:324-333 | one record per packed box, in order, named after the box, with that box's product lines |
| OrderService.RecordList.OrderToDto | src/main/java/com/eco/packing/service/OrderService.java:323-333 | the records of the packed boxes are appended after the earlier entries of `result`, which are left untouched |
| OrderService.Recommend | src/main/java/com/eco/packing/service/OrderService.java:56-171 | the whole pipeline equals the specification: common stream with paper boxes first, frozen stream with styrofoam boxes only when there are frozen products |
| OrderService.CommonSound | src/main/java/com/eco/packing/service/OrderService.java:163 | every box for the common stream is a paper box holding no frozen product, and the boxes hold exactly that stream |
| OrderService.FrozenSound | src/main/java/com/eco/packing/service/OrderService.java:166 | every box for the frozen stream is a styrofoam box holding only frozen products, and the boxes hold exactly that stream |
| OrderService.RecommendSound | src/main/java/com/eco/packing/service/OrderService.java:115-168 | a finished recommendation packs every ordered unit exactly once. Every box is listed, passes the prefilter, is within 20000 and has the right temperature class |
| OrderService.PaperStreamFirst | src/main/java/com/eco/packing/service/OrderService.java:163-168 | the paper-box records come first: once a styrofoam box appears, every later box is styrofoam |
| OrderService.NoFrozenPaperOnly | src/main/java/com/eco/packing/service/OrderService.java:163-168 | without frozen units the frozen stream does not run: the answer is the paper stream alone, and every box of a finished answer is a paper box |
| OrderService.NoCommonGetsEmptyPaperBox | src/main/java/com/eco/packing/service/OrderService.java:163-164 | with no chilled or ambient unit the paper stream still runs on the empty list: a finished answer starts with the smallest paper box that passes the prefilter, holding nothing (and is only that box when nothing is frozen); with no such box the answer never finishes |

## Left out

- Repositories: `findAll`, `getProductFromOrder`, `findByIdIn` and `findByTypeIn` are left out. `Recommend` takes their answers as parameters: the order lines, the catalog records of the ordered products, every box and the rate map.
- The category error-rate map (lines 103-112) is taken as a finished input. It only travels inside `ProductRecommendDto`, and a missing or null rate is `None`.
- `BoxRecommendDto.put` and the `ProductRecommendDto` volume getters are not part of this model. They are function fields of `Packer`, and `put` answers with a mask over the pending list, so it can only move products, in order, into the box.
- `Collections.sort` is a stable sort, so it has one possible result. The model computes that same order with an insertion sort, proved stable by `SortDescStable`.
- Sorting in place is modelled as a new sorted value. Nothing reads the caller's box or product list after `seperateBox` sorts it, so no aliasing is lost.
- WeightPartition.SeparateByWeight: requires every weight in [0, 20000]. The source loop has no such guard. HeavyItemNeverDrains states what happens above 20000. A negative weight is not covered.
- OrderService.Recommend: requires catalog weights in [0, 20000], for the same reason.
- OrderService.Recommend: requires a count for every catalog product, because the source dereferences `productCount.get` unchecked.
- RetryPacking.PackWithRetry: runs at most `fuel` rounds and then answers `OutOfFuel`, because the source loop has no bound. StuckListNeverDrains shows lists for which no bound is enough.
- OrderService.SeparateBox and OrderService.Recommend inherit the `fuel` bound of PackWithRetry.
- Floating point: the `0.8` factor is the exact integer comparison `4 * capacity - 5 * realVolume > 5 * minVolume`. Rounding of the `double` is not modelled.
- Java `int` overflow in the comparators, in `w * h * hi` and in the running sums is not modelled. Integers are unbounded.
- `Integer.toString` of the material quantity: the record keeps the integer.
- Packaging material and category objects appear only as the names and types the engine reads.
- FeedbackService.java is not part of this model. It is persistence glue outside the engine.
