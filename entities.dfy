/** The records the recommendation engine reads and produces: catalog products and
    boxes, order lines, the recommendation DTOs and the packed groups. All of them
    are read-only snapshots inside one request, so they are values. */
module Entities {
  import opened Collections

  /** The weight ceiling of one box (grams). */
  const WeightLimit: int := 20000

  datatype Option<T> = None | Some(value: T)

  /** The outcome of a worklist that the source drains with an unbounded `while`:
      either it drained, or it was still running after the given number of rounds. */
  datatype Run<T> = Finished(value: T) | OutOfFuel

  datatype StorageType = Frozen | Refrigerated | Ambient

  datatype Texture = Styrofoam | Paper

  datatype Product = Product(
    id: string,
    name: string,
    weight: int,
    width: int,
    height: int,
    high: int,
    volume: int,
    storage: StorageType,
    categoryType: string,
    materialName: string,
    materialQuantity: int)

  datatype Box = Box(name: string, width: int, height: int, high: int, volume: int, texture: Texture)

  /** One line of an order: a product id and how many units were ordered. */
  datatype OrderLine = OrderLine(productId: string, count: int)

  /** A box together with the products recommended for it. */
  datatype PackedBox = PackedBox(box: Box, products: seq<Product>)

  /** The interior of a candidate box as handed to the packing check. */
  datatype BoxDims = BoxDims(width: int, height: int, high: int)

  /** A product as the packing check sees it: its three dimensions and the error
      rate of its category (null when the category has no record). */
  datatype ProductRecommend = ProductRecommend(width: int, height: int, high: int, errorRate: Option<real>)

  /** The behaviour of the packing DTOs whose code is not part of this model: the
      largest and the smallest volume a product can take, and `put`, which places
      products into a box. `put` answers, for each position of the list it is
      given, whether that product was placed; so it can only move products from
      the pending list into the box and never adds any. */
  datatype Packer = Packer(
    maxVolume: ProductRecommend -> int,
    minVolume: ProductRecommend -> int,
    put: (BoxDims, seq<ProductRecommend>) -> seq<bool>)

  /** The product lines of one output record. */
  datatype ProductPacking = ProductPacking(productId: string, productName: string, materialName: string, materialQuantity: int)

  /** One output record: a box name and what goes into it. */
  datatype RecommendRecord = RecommendRecord(boxName: string, products: seq<ProductPacking>)

  function Weight(p: Product): int { p.weight }

  function Volume(p: Product): int { p.volume }

  function BoxVolume(b: Box): int { b.volume }

  function TotalWeight(ps: seq<Product>): int { SumOf(ps, Weight) }

  function TotalVolume(ps: seq<Product>): int { SumOf(ps, Volume) }

  /** The largest product width, and 0 for no products (`Math.max` from 0). */
  function MaxWidth(ps: seq<Product>): int
  {
    if ps == [] then 0
    else
      var m := MaxWidth(ps[..|ps| - 1]);
      if ps[|ps| - 1].width > m then ps[|ps| - 1].width else m
  }

  /** Every weight lies in [0, WeightLimit]. */
  predicate WeightsInRange(ps: seq<Product>)
  {
    forall p :: p in ps ==> 0 <= p.weight <= WeightLimit
  }

  predicate NonNegative(ps: seq<Product>)
  {
    forall p :: p in ps ==> p.weight >= 0
  }

  predicate IsFrozen(p: Product) { p.storage == Frozen }

  predicate NotFrozen(p: Product) { p.storage != Frozen }

  predicate IsStyrofoamBox(b: Box) { b.texture == Styrofoam }

  predicate IsPaperBox(b: Box) { b.texture != Styrofoam }

  /** All products of a list of packed boxes, box by box. */
  function AllProducts(gs: seq<PackedBox>): seq<Product>
  {
    if gs == [] then [] else AllProducts(gs[..|gs| - 1]) + gs[|gs| - 1].products
  }
}
