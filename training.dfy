/** The training set: every (user with purchases, catalogue product) pair
    becomes one input row, the user's vector followed by the product's, with
    label 1 when the user bought a product of that name and 0 otherwise. */
module TrainingData {
  // `{:induction false}` switches off Dafny's automatic induction: the
  // lemmas that carry it state their inductive steps, if any, themselves.
  import opened Wrappers
  import opened Records
  import opened EncodingContext
  import opened FeatureEncoder

  /** `{xs, ys, inpuDimension}`: the input rows, the labels (one per row;
      the source shapes them `[labels.length, 1]`) and the row width. */
  datatype TrainingSet = TrainingSet(xs: seq<seq<real>>, ys: seq<real>, inputDimension: nat)

  /** The encoders can run over the whole corpus: every catalogue product
      and every purchase has a category and a colour the context indexed. */
  ghost predicate CorpusKnown(ctx: Context)
  {
    && AllKnown(ctx, ctx.products)
    && forall u :: u in ctx.users ==> AllKnown(ctx, u.purchases)
  }

  /** `users.filter(u => u.purchases.length)`: the users with at least one
      purchase, each as often as it occurs (`WarmUsersCounts`), in their
      original order (`WarmUsersKeepOrder`, `WarmUsersPosition`), and no
      others (`WarmUsersLength`). */
  function WarmUsers(users: seq<User>): (warm: seq<User>)
    ensures forall u :: u in warm <==> u in users && |u.purchases| > 0
  {
    if users == [] then []
    else
      var last := users[|users| - 1];
      WarmUsers(users[..|users| - 1]) + (if |last.purchases| > 0 then [last] else [])
  }

  /** Without a user who bought something, the filter leaves nothing. */
  lemma {:induction false} NoWarmUsers(users: seq<User>)
    requires forall u :: u in users ==> |u.purchases| == 0
    ensures WarmUsers(users) == []
  {
    if WarmUsers(users) != [] {
      assert WarmUsers(users)[0] in WarmUsers(users);
    }
  }

  /** The filter drops every user without purchases and keeps every other
      user as many times as it occurs. */
  lemma {:induction false} WarmUsersCounts(users: seq<User>, u: User)
    ensures multiset(WarmUsers(users))[u] == if |u.purchases| > 0 then multiset(users)[u] else 0
  {
    if users != [] {
      var prefix, last := users[..|users| - 1], users[|users| - 1];
      WarmUsersCounts(prefix, u);
      assert users == prefix + [last];
      assert WarmUsers(users) == WarmUsers(prefix) + (if |last.purchases| > 0 then [last] else []);
    }
  }

  /** The filter keeps the relative order of the users it keeps: any two
      kept users come from positions of `users` in the same order. */
  lemma {:induction false} WarmUsersKeepOrder(users: seq<User>, i: nat, j: nat) returns (i': nat, j': nat)
    requires i < j < |WarmUsers(users)|
    ensures i' < j' < |users|
    ensures users[i'] == WarmUsers(users)[i] && users[j'] == WarmUsers(users)[j]
  {
    var n := |users| - 1;
    var prefix := users[..n];
    var warm := WarmUsers(prefix);
    var added := if |users[n].purchases| > 0 then [users[n]] else [];
    assert WarmUsers(users) == warm + added;
    if j < |warm| {
      i', j' := WarmUsersKeepOrder(prefix, i, j);
    } else {
      assert WarmUsers(users)[i] == warm[i] && warm[i] in prefix;
      var k :| 0 <= k < n && prefix[k] == warm[i];
      i', j' := k, n;
    }
  }

  /** The filter puts the `i`-th user, when it has a purchase, right after
      the users with purchases that come before it: at position
      `|WarmUsers(users[..i])|`. */
  lemma {:induction false} WarmUsersPosition(users: seq<User>, i: nat)
    requires i < |users| && |users[i].purchases| > 0
    ensures |WarmUsers(users[..i])| < |WarmUsers(users)|
    ensures WarmUsers(users)[|WarmUsers(users[..i])|] == users[i]
  {
    var n := |users| - 1;
    var prefix := users[..n];
    var added := if |users[n].purchases| > 0 then [users[n]] else [];
    assert WarmUsers(users) == WarmUsers(prefix) + added;
    if i < n {
      assert prefix[..i] == users[..i];
      WarmUsersPosition(prefix, i);
    } else {
      assert users[..i] == prefix;
    }
  }

  /** The positions of the users with purchases. */
  ghost function WarmPositions(users: seq<User>): set<int>
  {
    set i | 0 <= i < |users| && |users[i].purchases| > 0
  }

  /** The filter keeps exactly as many users as have a purchase. */
  lemma {:induction false} WarmUsersLength(users: seq<User>)
    ensures |WarmUsers(users)| == |WarmPositions(users)|
  {
    if users != [] {
      var n := |users| - 1;
      WarmUsersLength(users[..n]);
      WarmPositionsStep(users);
      assert WarmUsers(users) == WarmUsers(users[..n]) + (if |users[n].purchases| > 0 then [users[n]] else []);
    }
  }

  lemma WarmPositionsStep(users: seq<User>)
    requires users != []
    ensures var n := |users| - 1;
      |WarmPositions(users)| == |WarmPositions(users[..n])| + (if |users[n].purchases| > 0 then 1 else 0)
  {
    var n := |users| - 1;
    var prefix := users[..n];
    var added: set<int> := if |users[n].purchases| > 0 then {n} else {};
    forall i ensures i in WarmPositions(users) <==> i in WarmPositions(prefix) + added {
      if 0 <= i < n {
        assert prefix[i] == users[i];
      }
    }
    assert WarmPositions(users) == WarmPositions(prefix) + added;
    assert n !in WarmPositions(prefix);
  }

  /** `purchases.some(p => p.name === name)`, scanning from the front. */
  function Bought(purchases: seq<Product>, name: string): (b: bool)
    ensures b <==> exists k :: 0 <= k < |purchases| && purchases[k].name == name
  {
    if purchases == [] then false
    else purchases[0].name == name || Bought(purchases[1..], name)
  }

  /** The label of the pair (u, p): `1` when u bought a product named like p. */
  function Label(u: User, p: Product): (target: real)
    ensures target == 0.0 || target == 1.0
    ensures target == 1.0 <==> exists k :: 0 <= k < |u.purchases| && u.purchases[k].name == p.name
  {
    if Bought(u.purchases, p.name) then 1.0 else 0.0
  }

  ghost predicate Encodable(ctx: Context, users: seq<User>)
  {
    forall u :: u in users ==> |u.purchases| > 0 && AllKnown(ctx, u.purchases)
  }

  /** The rows `[...userVector, ...productVector]` for one user, one per product. */
  function PairRows(uv: seq<real>, ps: seq<Product>, ctx: Context): (rows: seq<seq<real>>)
    requires WellFormed(ctx) && AllKnown(ctx, ps)
    ensures |rows| == |ps|
  {
    if ps == [] then []
    else PairRows(uv, ps[..|ps| - 1], ctx) + [uv + ProductFeatures(ps[|ps| - 1], ctx)]
  }

  /** The labels for one user, one per product. */
  function PairLabels(u: User, ps: seq<Product>): (labels: seq<real>)
    ensures |labels| == |ps|
  {
    if ps == [] then [] else PairLabels(u, ps[..|ps| - 1]) + [Label(u, ps[|ps| - 1])]
  }

  /** All input rows, user by user. */
  function Inputs(users: seq<User>, ctx: Context): seq<seq<real>>
    requires WellFormed(ctx) && AllKnown(ctx, ctx.products) && Encodable(ctx, users)
  {
    if users == [] then []
    else
      var last := users[|users| - 1];
      Inputs(users[..|users| - 1], ctx) + PairRows(UserFeatures(last, ctx), ctx.products, ctx)
  }

  /** All labels, user by user. */
  function Labels(users: seq<User>, products: seq<Product>): seq<real>
  {
    if users == [] then []
    else Labels(users[..|users| - 1], products) + PairLabels(users[|users| - 1], products)
  }

  /** The rows, labels and row width `createTrainingData(context)` collects. */
  function TrainingSetOf(ctx: Context): TrainingSet
    requires WellFormed(ctx) && CorpusKnown(ctx)
  {
    var warm := WarmUsers(ctx.users);
    TrainingSet(Inputs(warm, ctx), Labels(warm, ctx.products), ctx.dimensions * 2)
  }

  /** What `createTrainingData(context)` returns: the collected set; or the
      one-hot error `encodeUser` throws for the first user with purchases
      (line 140); or, when no row was collected, the error
      `tf.tensor2d(inputs)` throws (line 151). */
  function TrainingDataOf(ctx: Context): (r: Result<TrainingSet, TensorError>)
    requires WellFormed(ctx) && CorpusKnown(ctx)
    ensures WarmUsers(ctx.users) != [] && !DepthsOk(ctx) ==> r == Err(DepthError(ctx))
    ensures WarmUsers(ctx.users) == [] || DepthsOk(ctx) ==>
      (r.Err? <==> TrainingSetOf(ctx).xs == []) && (r.Err? ==> r.error == EmptyTensor2d)
    ensures r.Ok? ==> r.value == TrainingSetOf(ctx) && r.value.xs != [] && DepthsOk(ctx)
  {
    var warm := WarmUsers(ctx.users);
    if warm != [] && !DepthsOk(ctx) then Err(DepthError(ctx))
    else
      var data := TrainingSetOf(ctx);
      if data.xs == [] then Err(EmptyTensor2d) else Ok(data)
  }

  /** Building the training set throws exactly when there is no pair to
      learn from (no user has a purchase, or the catalogue is empty) or a
      one-hot segment has fewer than two classes. */
  lemma {:induction false} TrainingDataFailsWithoutPairs(ctx: Context)
    requires WellFormed(ctx) && CorpusKnown(ctx)
    ensures TrainingDataOf(ctx).Err? <==> |WarmUsers(ctx.users)| == 0 || |ctx.products| == 0 || !DepthsOk(ctx)
  {
    var warm := WarmUsers(ctx.users);
    InputsLength(warm, ctx);
    if |warm| > 0 && |ctx.products| > 0 {
      assert |warm| * |ctx.products| >= |ctx.products|;
    }
  }

  /** `createTrainingData(context)`: for each user with purchases, push that
      user's rows and labels, then build the tensors. */
  method CreateTrainingData(ctx: Context) returns (data: Result<TrainingSet, TensorError>)
    requires WellFormed(ctx) && CorpusKnown(ctx)
    ensures data == TrainingDataOf(ctx)
  {
    var inputs: seq<seq<real>> := [];
    var labels: seq<real> := [];
    var warm := WarmUsers(ctx.users);
    var i := 0;
    while i < |warm|
      invariant 0 <= i <= |warm|
      invariant i > 0 ==> DepthsOk(ctx)
      invariant inputs == Inputs(warm[..i], ctx)
      invariant labels == Labels(warm[..i], ctx.products)
    {
      UserStep(warm, ctx, i);
      var encoded := EncodeUser(warm[i], ctx);
      if encoded.Err? {
        return Err(encoded.error);
      }
      inputs, labels := PushUserPairs(ctx, warm[i], encoded.value, inputs, labels);
      i := i + 1;
    }
    assert warm[..i] == warm;
    if inputs == [] {
      return Err(EmptyTensor2d);
    }
    data := Ok(TrainingSet(inputs, labels, ctx.dimensions * 2));
  }

  /** The `forEach` callback of `createTrainingData` for one user with
      purchases, once the user is encoded: push one row and one label per
      catalogue product, in catalogue order. Encoding the user succeeded, so
      both one-hot segments have two classes or more and no product
      encoding throws. */
  method PushUserPairs(ctx: Context, user: User, userVector: seq<real>, inputs: seq<seq<real>>, labels: seq<real>)
    returns (inputs': seq<seq<real>>, labels': seq<real>)
    requires WellFormed(ctx) && AllKnown(ctx, ctx.products) && DepthsOk(ctx)
    requires |user.purchases| > 0 && AllKnown(ctx, user.purchases)
    ensures inputs' == inputs + PairRows(userVector, ctx.products, ctx)
    ensures labels' == labels + PairLabels(user, ctx.products)
  {
    var rows: seq<seq<real>> := [];
    var targets: seq<real> := [];
    var j := 0;
    while j < |ctx.products|
      invariant 0 <= j <= |ctx.products|
      invariant rows == PairRows(userVector, ctx.products[..j], ctx)
      invariant targets == PairLabels(user, ctx.products[..j])
    {
      var product := ctx.products[j];
      var productVector := EncodeProduct(product, ctx).value;
      var target := if Bought(user.purchases, product.name) then 1.0 else 0.0;
      PairStep(userVector, user, ctx.products, ctx, j);
      rows := rows + [userVector + productVector];
      targets := targets + [target];
      j := j + 1;
    }
    assert ctx.products[..j] == ctx.products;
    inputs', labels' := inputs + rows, labels + targets;
  }

  /** One more product extends a user's rows and labels by that product's pair. */
  lemma PairStep(uv: seq<real>, u: User, ps: seq<Product>, ctx: Context, j: nat)
    requires WellFormed(ctx) && AllKnown(ctx, ps) && j < |ps|
    ensures PairRows(uv, ps[..j + 1], ctx) == PairRows(uv, ps[..j], ctx) + [uv + ProductFeatures(ps[j], ctx)]
    ensures PairLabels(u, ps[..j + 1]) == PairLabels(u, ps[..j]) + [Label(u, ps[j])]
  {
    assert ps[..j + 1][..j] == ps[..j];
  }

  /** One more user with purchases extends the rows and labels by that
      user's pairs. */
  lemma UserStep(warm: seq<User>, ctx: Context, i: nat)
    requires WellFormed(ctx) && AllKnown(ctx, ctx.products) && Encodable(ctx, warm) && i < |warm|
    ensures Encodable(ctx, warm[..i]) && Encodable(ctx, warm[..i + 1])
    ensures warm[i] in warm
    ensures Inputs(warm[..i + 1], ctx)
         == Inputs(warm[..i], ctx) + PairRows(UserFeatures(warm[i], ctx), ctx.products, ctx)
    ensures Labels(warm[..i + 1], ctx.products) == Labels(warm[..i], ctx.products) + PairLabels(warm[i], ctx.products)
  {
    assert warm[..i + 1][..i] == warm[..i];
  }

  lemma {:induction false} InputsLength(users: seq<User>, ctx: Context)
    requires WellFormed(ctx) && AllKnown(ctx, ctx.products) && Encodable(ctx, users)
    ensures |Inputs(users, ctx)| == |users| * |ctx.products|
  {
    if users != [] {
      var n := |users|;
      InputsLength(users[..n - 1], ctx);
      assert n * |ctx.products| == (n - 1) * |ctx.products| + |ctx.products|;
    }
  }

  lemma {:induction false} LabelsLength(users: seq<User>, products: seq<Product>)
    ensures |Labels(users, products)| == |users| * |products|
  {
    if users != [] {
      var n := |users|;
      LabelsLength(users[..n - 1], products);
      assert n * |products| == (n - 1) * |products| + |products|;
    }
  }

  lemma {:induction false} PairRowsAt(uv: seq<real>, ps: seq<Product>, ctx: Context, j: nat)
    requires WellFormed(ctx) && AllKnown(ctx, ps) && j < |ps|
    ensures PairRows(uv, ps, ctx)[j] == uv + ProductFeatures(ps[j], ctx)
  {
    if j < |ps| - 1 {
      PairRowsAt(uv, ps[..|ps| - 1], ctx, j);
    }
  }

  lemma {:induction false} PairLabelsAt(u: User, ps: seq<Product>, j: nat)
    requires j < |ps|
    ensures PairLabels(u, ps)[j] == Label(u, ps[j])
  {
    if j < |ps| - 1 {
      PairLabelsAt(u, ps[..|ps| - 1], j);
    }
  }

  /** Rows `i * |products|` up to `(i + 1) * |products|` belong to user `i`. */
  lemma RowOfEarlierUser(i: nat, j: nat, n: nat, width: nat)
    requires i < n && j < width
    ensures i * width + j < n * width
  {
    assert (i + 1) * width <= n * width;
  }

  /** Row `k` of `n` blocks of `width` rows is row `j` of block `i`. */
  lemma SplitRowIndex(k: nat, n: nat, width: nat) returns (i: nat, j: nat)
    requires k < n * width
    ensures i < n && j < width && k == i * width + j
  {
    i, j := k / width, k % width;
  }

  lemma {:induction false} InputsAt(users: seq<User>, ctx: Context, i: nat, j: nat)
    requires WellFormed(ctx) && AllKnown(ctx, ctx.products) && Encodable(ctx, users)
    requires i < |users| && j < |ctx.products|
    ensures i * |ctx.products| + j < |Inputs(users, ctx)|
    ensures Inputs(users, ctx)[i * |ctx.products| + j] == UserFeatures(users[i], ctx) + ProductFeatures(ctx.products[j], ctx)
  {
    var n, width := |users|, |ctx.products|;
    var prefix := users[..n - 1];
    assert Encodable(ctx, prefix) by {
      forall u | u in prefix ensures u in users { }
    }
    var tail := PairRows(UserFeatures(users[n - 1], ctx), ctx.products, ctx);
    assert Inputs(users, ctx) == Inputs(prefix, ctx) + tail;
    RowOfEarlierUser(i, j, n, width);
    InputsLength(users, ctx);
    InputsLength(prefix, ctx);
    if i < n - 1 {
      RowOfEarlierUser(i, j, n - 1, width);
      InputsAt(prefix, ctx, i, j);
    } else {
      assert |Inputs(prefix, ctx)| == i * width;
      PairRowsAt(UserFeatures(users[i], ctx), ctx.products, ctx, j);
    }
  }

  lemma {:induction false} LabelsAt(users: seq<User>, products: seq<Product>, i: nat, j: nat)
    requires i < |users| && j < |products|
    ensures i * |products| + j < |Labels(users, products)|
    ensures Labels(users, products)[i * |products| + j] == Label(users[i], products[j])
  {
    var n, width := |users|, |products|;
    var prefix := users[..n - 1];
    RowOfEarlierUser(i, j, n, width);
    LabelsLength(users, products);
    LabelsLength(prefix, products);
    if i < n - 1 {
      RowOfEarlierUser(i, j, n - 1, width);
      LabelsAt(prefix, products, i, j);
    } else {
      assert |Labels(prefix, products)| == i * width;
      PairLabelsAt(users[i], products, j);
    }
  }

  /** The training set has one row and one label per (user with purchases,
      product) pair, and every row is `2 * dimensions` wide. */
  lemma {:induction false} TrainingSetShape(ctx: Context)
    requires WellFormed(ctx) && CorpusKnown(ctx)
    ensures var data := TrainingSetOf(ctx);
      && |data.xs| == |data.ys| == |WarmUsers(ctx.users)| * |ctx.products|
      && data.inputDimension == 2 * ctx.dimensions
      && (forall k :: 0 <= k < |data.xs| ==> |data.xs[k]| == data.inputDimension)
      && (forall k :: 0 <= k < |data.ys| ==> data.ys[k] == 0.0 || data.ys[k] == 1.0)
  {
    var data := TrainingSetOf(ctx);
    var warm, width := WarmUsers(ctx.users), |ctx.products|;
    InputsLength(warm, ctx);
    LabelsLength(warm, ctx.products);
    forall k | 0 <= k < |data.xs|
      ensures |data.xs[k]| == data.inputDimension
      ensures data.ys[k] == 0.0 || data.ys[k] == 1.0
    {
      RowShapeAt(ctx, warm, k);
    }
  }

  lemma RowShapeAt(ctx: Context, warm: seq<User>, k: nat)
    requires WellFormed(ctx) && CorpusKnown(ctx) && warm == WarmUsers(ctx.users)
    requires k < |warm| * |ctx.products|
    ensures k < |Inputs(warm, ctx)| && |Inputs(warm, ctx)[k]| == 2 * ctx.dimensions
    ensures k < |Labels(warm, ctx.products)|
    ensures Labels(warm, ctx.products)[k] == 0.0 || Labels(warm, ctx.products)[k] == 1.0
  {
    var i, j := SplitRowIndex(k, |warm|, |ctx.products|);
    InputsAt(warm, ctx, i, j);
    LabelsAt(warm, ctx.products, i, j);
  }

  /** Row `i * |products| + j` pairs the `i`-th user with purchases with the
      `j`-th catalogue product (user-major order): it is the user's vector
      followed by the product's vector, and its label is that pair's label. */
  lemma {:induction false} TrainingRowAt(ctx: Context, i: nat, j: nat)
    requires WellFormed(ctx) && CorpusKnown(ctx)
    requires i < |WarmUsers(ctx.users)| && j < |ctx.products|
    ensures var data, u := TrainingSetOf(ctx), WarmUsers(ctx.users)[i];
      var k := i * |ctx.products| + j;
      && k < |data.xs| && k < |data.ys|
      && data.xs[k] == UserFeatures(u, ctx) + ProductFeatures(ctx.products[j], ctx)
      && data.ys[k] == Label(u, ctx.products[j])
  {
    var warm := WarmUsers(ctx.users);
    InputsAt(warm, ctx, i, j);
    LabelsAt(warm, ctx.products, i, j);
  }

  /** The label of a pair is 1 exactly when one of the user's purchases
      carries the product's name, and 0 exactly when none does. */
  lemma {:induction false} LabelMeansBought(u: User, p: Product)
    ensures Label(u, p) == 1.0 <==> exists q :: q in u.purchases && q.name == p.name
    ensures Label(u, p) == 0.0 <==> !exists q :: q in u.purchases && q.name == p.name
  {
    if exists q :: q in u.purchases && q.name == p.name {
      var q :| q in u.purchases && q.name == p.name;
      var k :| 0 <= k < |u.purchases| && u.purchases[k] == q;
    }
  }

  /** A label is 1 exactly when the user's purchase count for the product's
      name (the tally the context builder keeps) is positive. */
  lemma {:induction false} LabelCountsPurchases(u: User, p: Product)
    ensures Label(u, p) == 1.0 <==> CountNamed(u.purchases, p.name) > 0
  {
    CountedIffBought(u.purchases, p.name);
  }

  lemma {:induction false} CountedIffBought(purchases: seq<Product>, name: string)
    ensures CountNamed(purchases, name) > 0 <==> exists k :: 0 <= k < |purchases| && purchases[k].name == name
  {
    if purchases != [] {
      var n := |purchases| - 1;
      CountedIffBought(purchases[..n], name);
      if purchases[n].name != name && CountNamed(purchases, name) == 0 {
        assert forall k :: 0 <= k < n ==> purchases[..n][k] == purchases[k];
      }
    }
  }
}
