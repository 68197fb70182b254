/** The feature encoder: a product or a user becomes a vector of length
    `dimensions` laid out as `[price, age, category one-hot..., colour
    one-hot...]`, each segment multiplied by its weight. */
module FeatureEncoder {
  // `{:induction false}` switches off Dafny's automatic induction: the
  // lemmas that carry it state their inductive steps, if any, themselves.
  import opened Wrappers
  import opened Records
  import opened Normalization
  import opened Vectors
  import opened EncodingContext

  /** The feature weights (`WEIGHTS`); they add up to 1. */
  const CategoryWeight: real := 0.4
  const ColorWeight: real := 0.3
  const PriceWeight: real := 0.2
  const AgeWeight: real := 0.1

  /** A tensor operation that throws: reshaping `size` values to a shape
      whose element count differs, building a 2-D tensor from an empty list
      of rows (its inferred shape has rank 1), feeding rows of width
      `actual` to a network built for rows of width `expected`, or asking
      `tf.oneHot` for fewer than two classes. */
  datatype TensorError =
    | ShapeMismatch(size: nat, width: Option<nat>)
    | EmptyTensor2d
    | InputWidthMismatch(expected: nat, actual: nat)
    | OneHotDepth(depth: nat)

  /** `t.reshape([1, width])` of a tensor holding the values `v`. tfjs checks
      that the requested shape holds exactly as many elements as `v`; a shape
      whose width is `undefined` never passes that check, so that reshape
      always throws. */
  function ReshapeRow(v: seq<real>, width: Option<nat>): (r: Result<seq<real>, TensorError>)
    ensures r.Ok? <==> width == Some(|v|)
    ensures r.Ok? ==> r.value == v
    ensures r.Err? ==> r.error == ShapeMismatch(|v|, width)
  {
    match width
    case Some(w) => if w == |v| then Ok(v) else Err(ShapeMismatch(|v|, width))
    case None => Err(ShapeMismatch(|v|, width))
  }

  /** The values of a weighted one-hot vector: `length` slots, all zero but
      the one at `index`, which holds `weight`. */
  function OneHot(index: nat, length: nat, weight: real): seq<real>
  {
    seq(length, k => if k == index then weight else 0.0)
  }

  /** `tf.oneHot(index, length).cast('float32').mul(weight)` (lines 90-91).
      `tf.oneHot` rejects a depth below 2, so a segment of zero or one class
      throws. */
  function OneHotWeighted(index: nat, length: nat, weight: real): (r: Result<seq<real>, TensorError>)
    ensures r.Ok? <==> length >= 2
    ensures r.Err? ==> r.error == OneHotDepth(length)
    ensures r.Ok? ==> |r.value| == length
    ensures r.Ok? && index < length ==> r.value[index] == weight
    ensures r.Ok? ==> forall k :: 0 <= k < length && k != index ==> r.value[k] == 0.0
  {
    if length < 2 then Err(OneHotDepth(length)) else Ok(OneHot(index, length, weight))
  }

  /** Both one-hot segments of the context have at least two classes, so
      `encodeProduct` does not throw. */
  predicate DepthsOk(ctx: Context)
  {
    ctx.numCategories >= 2 && ctx.numColors >= 2
  }

  /** The error of the first one-hot that throws: the category one-hot
      (line 97) is built before the colour one-hot (line 98). */
  function DepthError(ctx: Context): TensorError
  {
    OneHotDepth(if ctx.numCategories < 2 then ctx.numCategories else ctx.numColors)
  }

  function Zeros(n: nat): seq<real>
  {
    seq(n, _ => 0.0)
  }

  /** The encoders look the category and colour up without a check; a value
      the context never saw is outside what they handle. */
  predicate Known(ctx: Context, p: Product)
  {
    p.category in ctx.categoriesIndex && p.color in ctx.colorsIndex
  }

  ghost predicate AllKnown(ctx: Context, ps: seq<Product>)
  {
    forall k :: 0 <= k < |ps| ==> Known(ctx, ps[k])
  }

  /** The age slot of a product (line 96). The expression
      `productAvgAgeNorm[name] ?? 0.5 * WEIGHTS.age` parses as
      `a ?? (0.5 * 0.1)`: a product in the age map gets its normalised age
      UNWEIGHTED, and only the fallback is weighted, giving 0.05. */
  function AgeSlot(p: Product, ctx: Context): (a: real)
    ensures p.name in ctx.productAvgAgeNorm ==> a == ctx.productAvgAgeNorm[p.name]
    ensures p.name !in ctx.productAvgAgeNorm ==> a == 0.05
  {
    if p.name in ctx.productAvgAgeNorm then ctx.productAvgAgeNorm[p.name] else 0.5 * AgeWeight
  }

  /** The vector `encodeProduct(product, context)` returns when it does not
      throw. */
  function ProductFeatures(p: Product, ctx: Context): (v: seq<real>)
    requires WellFormed(ctx) && Known(ctx, p)
    ensures |v| == ctx.dimensions
    ensures v[0] == Normalize(p.price, ctx.minPrice, ctx.maxPrice) * PriceWeight
    ensures v[1] == AgeSlot(p, ctx)
    ensures forall k :: 2 <= k < 2 + ctx.numCategories ==>
      v[k] == (if k - 2 == ctx.categoriesIndex[p.category] then CategoryWeight else 0.0)
    ensures forall k :: 2 + ctx.numCategories <= k < ctx.dimensions ==>
      v[k] == (if k - 2 - ctx.numCategories == ctx.colorsIndex[p.color] then ColorWeight else 0.0)
  {
    [Normalize(p.price, ctx.minPrice, ctx.maxPrice) * PriceWeight]
      + [AgeSlot(p, ctx)]
      + OneHot(ctx.categoriesIndex[p.category], ctx.numCategories, CategoryWeight)
      + OneHot(ctx.colorsIndex[p.color], ctx.numColors, ColorWeight)
  }

  /** `encodeProduct(product, context)`: the price and age slots, then the
      two weighted one-hot segments, concatenated. It throws exactly when a
      segment has fewer than two classes, whatever the product. */
  function EncodeProduct(p: Product, ctx: Context): (r: Result<seq<real>, TensorError>)
    requires WellFormed(ctx) && Known(ctx, p)
    ensures r.Ok? <==> DepthsOk(ctx)
    ensures r.Ok? ==> r.value == ProductFeatures(p, ctx)
    ensures r.Err? ==> r.error == DepthError(ctx)
  {
    var price := [Normalize(p.price, ctx.minPrice, ctx.maxPrice) * PriceWeight];
    var age := [AgeSlot(p, ctx)];
    match OneHotWeighted(ctx.categoriesIndex[p.category], ctx.numCategories, CategoryWeight)
    case Err(e) => Err(e)
    case Ok(category) =>
      match OneHotWeighted(ctx.colorsIndex[p.color], ctx.numColors, ColorWeight)
      case Err(e) => Err(e)
      case Ok(color) => Ok(price + age + category + color)
  }

  function CategorySegment(v: seq<real>, ctx: Context): seq<real>
    requires WellFormed(ctx) && |v| == ctx.dimensions
  {
    v[2..2 + ctx.numCategories]
  }

  function ColorSegment(v: seq<real>, ctx: Context): seq<real>
    requires WellFormed(ctx) && |v| == ctx.dimensions
  {
    v[2 + ctx.numCategories..]
  }

  /** Two products share a category segment exactly when they share a
      category, and a colour segment exactly when they share a colour: the
      encoding neither merges nor splits categorical values. */
  lemma {:induction false} EncodingSeparatesCategoricalValues(p: Product, q: Product, ctx: Context)
    requires WellFormed(ctx) && Known(ctx, p) && Known(ctx, q)
    ensures CategorySegment(ProductFeatures(p, ctx), ctx) == CategorySegment(ProductFeatures(q, ctx), ctx)
        <==> p.category == q.category
    ensures ColorSegment(ProductFeatures(p, ctx), ctx) == ColorSegment(ProductFeatures(q, ctx), ctx)
        <==> p.color == q.color
  {
    var vp, vq := ProductFeatures(p, ctx), ProductFeatures(q, ctx);
    var nc := ctx.numCategories;
    if p.category != q.category {
      var i := ctx.categoriesIndex[p.category];
      assert CategorySegment(vp, ctx)[i] == vp[2 + i] == CategoryWeight;
      assert CategorySegment(vq, ctx)[i] == vq[2 + i] == 0.0;
    } else {
      assert CategorySegment(vp, ctx) == CategorySegment(vq, ctx);
    }
    if p.color != q.color {
      var i := ctx.colorsIndex[p.color];
      assert ColorSegment(vp, ctx)[i] == vp[2 + nc + i] == ColorWeight;
      assert ColorSegment(vq, ctx)[i] == vq[2 + nc + i] == 0.0;
    } else {
      assert ColorSegment(vp, ctx) == ColorSegment(vq, ctx);
    }
  }

  /** The vectors of the purchased products, in purchase order. */
  function PurchaseVectors(ps: seq<Product>, ctx: Context): (vs: seq<seq<real>>)
    requires WellFormed(ctx) && AllKnown(ctx, ps)
    ensures |vs| == |ps| && AllOfLength(vs, ctx.dimensions)
    ensures forall k {:trigger vs[k]} :: 0 <= k < |ps| ==> vs[k] == ProductFeatures(ps[k], ctx)
  {
    seq(|ps|, k requires 0 <= k < |ps| => ProductFeatures(ps[k], ctx))
  }

  /** The vector `encodeUser(user, context)` returns for a user with
      purchases when it does not throw: the element-wise mean of the
      purchase vectors, column by column. */
  function UserFeatures(u: User, ctx: Context): (v: seq<real>)
    requires WellFormed(ctx) && AllKnown(ctx, u.purchases) && |u.purchases| > 0
    ensures |v| == ctx.dimensions
    ensures forall j :: 0 <= j < ctx.dimensions ==>
      v[j] * |u.purchases| as real == ColumnSum(PurchaseVectors(u.purchases, ctx), j)
  {
    Mean(PurchaseVectors(u.purchases, ctx), ctx.dimensions)
  }

  /** The neutral vector of a user without purchases (lines 118-128): zero
      price, the user's own weighted age, zero categories and colours. */
  function ColdStartVector(u: User, ctx: Context): (v: seq<real>)
    ensures |v| == 2 + ctx.numCategories + ctx.numColors
    ensures v[1] == Normalize(u.age, ctx.minAge, ctx.maxAge) * AgeWeight
    ensures forall k :: 0 <= k < |v| && k != 1 ==> v[k] == 0.0
  {
    Zeros(1) + [Normalize(u.age, ctx.minAge, ctx.maxAge) * AgeWeight] + Zeros(ctx.numCategories) + Zeros(ctx.numColors)
  }

  /** `encodeUser(user, context)`. A user with purchases gets the element-wise
      mean of the vectors of the products bought, reshaped to
      `[1, dimensions]`; encoding the first purchase throws when a one-hot
      segment has fewer than two classes, and then every purchase would. A
      user without purchases gets `ColdStartVector`, but line 129 reshapes it
      to `[1, context.dimentions]`: the misspelt key reads `undefined`, and
      the reshape throws. */
  function EncodeUser(u: User, ctx: Context): (r: Result<seq<real>, TensorError>)
    requires WellFormed(ctx) && AllKnown(ctx, u.purchases)
    ensures r.Ok? <==> |u.purchases| > 0 && DepthsOk(ctx)
    ensures |u.purchases| > 0 && !DepthsOk(ctx) ==> r == Err(DepthError(ctx))
    ensures r.Ok? ==> r.value == UserFeatures(u, ctx)
  {
    if |u.purchases| > 0 then
      match EncodeProduct(u.purchases[0], ctx)
      case Err(e) => Err(e)
      case Ok(_) => ReshapeRow(UserFeatures(u, ctx), ctx.NumericField("dimensions"))
    else
      ReshapeRow(ColdStartVector(u, ctx), ctx.NumericField("dimentions"))
  }

  /** A successful encoding is the element-wise mean of the purchase
      vectors in every slot, price and age included. */
  lemma {:induction false} EncodeUserIsColumnMean(u: User, ctx: Context)
    requires WellFormed(ctx) && AllKnown(ctx, u.purchases)
    ensures EncodeUser(u, ctx).Ok? ==> |EncodeUser(u, ctx).value| == ctx.dimensions
    ensures EncodeUser(u, ctx).Ok? ==> forall j :: 0 <= j < ctx.dimensions ==>
      EncodeUser(u, ctx).value[j] * |u.purchases| as real == ColumnSum(PurchaseVectors(u.purchases, ctx), j)
  {
    if EncodeUser(u, ctx).Ok? {
      var v := UserFeatures(u, ctx);
      assert EncodeUser(u, ctx).value == v;
    }
  }

  /** A user who bought one product, once or several times, is encoded
      exactly as that product. */
  lemma {:induction false} RepeatedPurchaseEncodesAsProduct(age: real, p: Product, n: nat, ctx: Context)
    requires WellFormed(ctx) && Known(ctx, p) && n > 0
    ensures AllKnown(ctx, seq(n, _ => p))
    ensures EncodeUser(User(age, seq(n, _ => p)), ctx) == EncodeProduct(p, ctx)
  {
    var ps := seq(n, _ => p);
    var v := ProductFeatures(p, ctx);
    assert PurchaseVectors(ps, ctx) == seq(n, _ => v);
    MeanOfCopies(v, n);
  }

  /** How many of `ps` are in category `c`. */
  function CountCategory(ps: seq<Product>, c: string): nat
  {
    if ps == [] then 0
    else CountCategory(ps[..|ps| - 1], c) + (if ps[|ps| - 1].category == c then 1 else 0)
  }

  /** How many of `ps` have colour `c`. */
  function CountColor(ps: seq<Product>, c: string): nat
  {
    if ps == [] then 0
    else CountColor(ps[..|ps| - 1], c) + (if ps[|ps| - 1].color == c then 1 else 0)
  }

  lemma {:induction false} CategoryColumnCounts(ps: seq<Product>, ctx: Context, c: string)
    requires WellFormed(ctx) && AllKnown(ctx, ps) && c in ctx.categoriesIndex
    ensures ColumnSum(PurchaseVectors(ps, ctx), 2 + ctx.categoriesIndex[c]) == CategoryWeight * CountCategory(ps, c) as real
  {
    if ps != [] {
      var prefix := ps[..|ps| - 1];
      assert PurchaseVectors(ps, ctx)[..|ps| - 1] == PurchaseVectors(prefix, ctx);
      CategoryColumnCounts(prefix, ctx, c);
    }
  }

  lemma {:induction false} ColorColumnCounts(ps: seq<Product>, ctx: Context, c: string)
    requires WellFormed(ctx) && AllKnown(ctx, ps) && c in ctx.colorsIndex
    ensures ColumnSum(PurchaseVectors(ps, ctx), 2 + ctx.numCategories + ctx.colorsIndex[c])
      == ColorWeight * CountColor(ps, c) as real
  {
    if ps != [] {
      var prefix := ps[..|ps| - 1];
      assert PurchaseVectors(ps, ctx)[..|ps| - 1] == PurchaseVectors(prefix, ctx);
      ColorColumnCounts(prefix, ctx, c);
    }
  }

  /** A user's vector is the centroid of their purchases: the slot of a
      category holds the category weight times the share of purchases in
      that category, and likewise for colours. */
  lemma {:induction false} UserVectorIsPurchaseShare(u: User, ctx: Context, category: string, color: string)
    requires WellFormed(ctx) && AllKnown(ctx, u.purchases) && |u.purchases| > 0
    requires category in ctx.categoriesIndex && color in ctx.colorsIndex
    ensures UserFeatures(u, ctx)[2 + ctx.categoriesIndex[category]]
      == CategoryWeight * CountCategory(u.purchases, category) as real / |u.purchases| as real
    ensures UserFeatures(u, ctx)[2 + ctx.numCategories + ctx.colorsIndex[color]]
      == ColorWeight * CountColor(u.purchases, color) as real / |u.purchases| as real
  {
    CategoryColumnCounts(u.purchases, ctx, category);
    ColorColumnCounts(u.purchases, ctx, color);
  }

  /** As written, encoding a user without purchases always fails: the
      reshape target is read from the misspelt key, which is `undefined`. */
  lemma {:induction false} ColdStartReshapeFails(u: User, ctx: Context)
    requires WellFormed(ctx) && |u.purchases| == 0
    ensures EncodeUser(u, ctx) == Err(ShapeMismatch(ctx.dimensions, None))
  {
    assert ctx.NumericField("dimentions") == None;
  }

  /** A cold-start user at the midpoint age of a non-degenerate range gets
      exactly half the age weight in the age slot. */
  lemma {:induction false} ColdStartAtMidpointAge(u: User, ctx: Context)
    requires ctx.minAge < ctx.maxAge && u.age == (ctx.minAge + ctx.maxAge) / 2.0
    ensures ColdStartVector(u, ctx)[1] == 0.5 * AgeWeight
  {
    MidpointIsHalf(ctx.minAge, ctx.maxAge);
  }
}
