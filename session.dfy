/** The worker's session: the module-level `_globalCtx` and `_model` that
    training sets and `recommend` reads. Training is split at the `await` of
    line 210: `BeginTraining` is everything up to the network fit (the
    context, the product vectors and the training set, with `_globalCtx`
    replaced in between), `CompleteTraining` is the assignment of the fitted
    network. When encoding the product vectors throws, `trainModel` stops
    before `_globalCtx` is replaced; when building the training set throws,
    it stops after. In both cases `CompleteTraining` never happens.
    Between the two, `recommend` sees the new context with the previous
    network. */
module Session {
  // `{:induction false}` switches off Dafny's automatic induction: the
  // lemmas that carry it state their inductive steps, if any, themselves.
  import opened Wrappers
  import opened Sequences
  import opened Records
  import opened EncodingContext
  import opened FeatureEncoder
  import opened TrainingData
  import opened Ranking

  /** An entry of `context.productVectors`: `{name, meta: {...product}, vector}`. */
  datatype ProductVector = ProductVector(name: string, meta: Product, vector: seq<real>)

  /** What `_globalCtx` holds: the context `makeContext` built, extended
      with the product vectors. */
  datatype TrainedContext = TrainedContext(ctx: Context, productVectors: seq<ProductVector>)

  /** The fitted network's `predict`: one score per input row. Its layers,
      weights and activations are not modelled. */
  type Predictor = f: seq<seq<real>> -> seq<real> | forall rows :: |f(rows)| == |rows|
    witness rows => seq(|rows|, _ => 0.5)

  /** `_model`: a network built for input rows of width `inputDimension`. */
  datatype TrainedModel = TrainedModel(inputDimension: nat, predict: Predictor)

  /** The outcome of `recommend`: nothing when no network is trained yet
      (`return;`), a thrown tensor error, or the ranked recommendations it
      posts back. */
  datatype RecommendResult = NotReady | Failed(error: TensorError) | Ranked(items: seq<Recommendation>)

  /** The list `products.map(product => ({name, meta: {...product}, vector}))`
      yields when no product encoding throws. */
  function ProductVectors(products: seq<Product>, ctx: Context): (pvs: seq<ProductVector>)
    requires WellFormed(ctx) && AllKnown(ctx, products)
    ensures |pvs| == |products|
    ensures forall i :: 0 <= i < |products| ==>
      pvs[i].name == products[i].name && pvs[i].meta == products[i] && pvs[i].vector == ProductFeatures(products[i], ctx)
  {
    seq(|products|, i requires 0 <= i < |products| =>
      ProductVector(products[i].name, products[i], ProductFeatures(products[i], ctx)))
  }

  /** Lines 200-206: the `map` throws at the first product whose encoding
      throws, and otherwise yields `ProductVectors`. */
  function EncodeCatalogue(products: seq<Product>, ctx: Context): (r: Result<seq<ProductVector>, TensorError>)
    requires WellFormed(ctx) && AllKnown(ctx, products)
    ensures r.Err? <==> exists i :: 0 <= i < |products| && EncodeProduct(products[i], ctx).Err?
    ensures r.Err? ==> |products| > 0 && r.error == EncodeProduct(products[0], ctx).error
    ensures r.Ok? ==> r.value == ProductVectors(products, ctx)
  {
    if products != [] && !DepthsOk(ctx) then
      assert EncodeProduct(products[0], ctx).Err?;
      Err(DepthError(ctx))
    else
      Ok(ProductVectors(products, ctx))
  }

  /** A context `_globalCtx` can hold once training has started: the
      product vectors of a non-empty catalogue were encoded, so both one-hot
      segments have at least two classes. */
  ghost predicate Trained(tc: TrainedContext)
  {
    && WellFormed(tc.ctx)
    && CorpusKnown(tc.ctx)
    && |tc.ctx.products| > 0
    && DepthsOk(tc.ctx)
    && tc.productVectors == ProductVectors(tc.ctx.products, tc.ctx)
  }

  /** `[...userVector, ...vector]` for every product vector, in catalogue order. */
  function RankingInputs(userVector: seq<real>, pvs: seq<ProductVector>): (rows: seq<seq<real>>)
    ensures |rows| == |pvs|
    ensures forall i :: 0 <= i < |pvs| ==>
      |rows[i]| == |userVector| + |pvs[i].vector|
      && rows[i][..|userVector|] == userVector && rows[i][|userVector|..] == pvs[i].vector
  {
    seq(|pvs|, i requires 0 <= i < |pvs| => userVector + pvs[i].vector)
  }

  /** `{...product.meta, name: product.name, score: scores[index]}` for every
      product vector, in catalogue order. */
  function Scored(pvs: seq<ProductVector>, scores: seq<real>): (recs: seq<Recommendation>)
    requires |scores| == |pvs|
    ensures |recs| == |pvs|
    ensures forall i :: 0 <= i < |pvs| ==>
      && recs[i].score == scores[i]
      && recs[i].product.name == pvs[i].name
      && recs[i].product.price == pvs[i].meta.price
      && recs[i].product.category == pvs[i].meta.category
      && recs[i].product.color == pvs[i].meta.color
  {
    seq(|pvs|, i requires 0 <= i < |pvs| => Recommendation(pvs[i].meta.(name := pvs[i].name), scores[i]))
  }

  /** What `recommend({user})` produces for a session holding `state` and `model`. */
  function RecommendFor(state: Option<TrainedContext>, model: Option<TrainedModel>, user: User): (r: RecommendResult)
    requires model.Some? ==> state.Some? && Trained(state.value) && AllKnown(state.value.ctx, user.purchases)
    ensures r.NotReady? <==> model.None?
    ensures model.Some? && |user.purchases| == 0 ==> r == Failed(ShapeMismatch(state.value.ctx.dimensions, None))
    ensures r.Ranked? <==>
      model.Some? && |user.purchases| > 0 && model.value.inputDimension == 2 * state.value.ctx.dimensions
    ensures r.Ranked? ==> |r.items| == |state.value.ctx.products|
  {
    if model.None? then NotReady
    else
      var tc, m := state.value, model.value;
      match EncodeUser(user, tc.ctx)
      case Err(e) => Failed(e)
      case Ok(userVector) =>
        if m.inputDimension != 2 * tc.ctx.dimensions
        then Failed(InputWidthMismatch(m.inputDimension, 2 * tc.ctx.dimensions))
        else
          var inputs := RankingInputs(userVector, tc.productVectors);
          Ranked(StableSortDesc(Scored(tc.productVectors, m.predict(inputs))))
  }

  /** The catalogue's categories and colours cover every purchase. */
  ghost predicate PurchasesIndexed(products: seq<Product>, users: seq<User>)
  {
    forall u, p :: u in users && p in u.purchases ==> p.category in Categories(products) && p.color in Colors(products)
  }

  /** The context built from a catalogue knows every catalogue product and
      every purchase whose category and colour occur in the catalogue. */
  lemma {:induction false} ContextKnowsCorpus(products: seq<Product>, users: seq<User>)
    requires |products| > 0 && |users| > 0 && PurchasesIndexed(products, users)
    ensures CorpusKnown(ContextOf(products, users))
  {
    var ctx := ContextOf(products, users);
    forall k | 0 <= k < |products| ensures Known(ctx, products[k]) {
      assert Categories(products)[k] == products[k].category;
      assert Colors(products)[k] == products[k].color;
    }
    forall u | u in users ensures AllKnown(ctx, u.purchases) {
      forall k | 0 <= k < |u.purchases| ensures Known(ctx, u.purchases[k]) {
        assert u.purchases[k] in u.purchases;
      }
    }
  }

  /** The context `trainModel` publishes (lines 199-206): `makeContext`'s
      result with the product vectors attached, or the error encoding them
      throws when the catalogue has fewer than two categories or colours. */
  function TrainedOn(products: seq<Product>, users: seq<User>): (r: Result<TrainedContext, TensorError>)
    requires |products| > 0 && |users| > 0 && PurchasesIndexed(products, users)
    ensures r.Ok? <==> DepthsOk(ContextOf(products, users))
    ensures r.Err? ==> r.error == DepthError(ContextOf(products, users))
    ensures r.Ok? ==> Trained(r.value) && r.value.ctx == ContextOf(products, users)
    ensures r.Ok? ==> r.value.ctx.products == products && r.value.ctx.users == users
  {
    ContextKnowsCorpus(products, users);
    var ctx := ContextOf(products, users);
    match EncodeCatalogue(products, ctx)
    case Err(e) => Err(e)
    case Ok(pvs) => Ok(TrainedContext(ctx, pvs))
  }

  /** Lines 199-206: build the context, then encode the catalogue. */
  method PrepareContext(products: seq<Product>, users: seq<User>) returns (trained: Result<TrainedContext, TensorError>)
    requires |products| > 0 && |users| > 0 && PurchasesIndexed(products, users)
    ensures trained == TrainedOn(products, users)
  {
    var ctx := MakeContext(products, users);
    ContextKnowsCorpus(products, users);
    var pvs := EncodeCatalogue(products, ctx);
    if pvs.Err? {
      return Err(pvs.error);
    }
    trained := Ok(TrainedContext(ctx, pvs.value));
  }

  /** Training stops at the product vectors exactly when the catalogue has
      fewer than two distinct categories or fewer than two distinct
      colours. */
  lemma {:induction false} TrainingNeedsTwoClasses(products: seq<Product>, users: seq<User>)
    requires |products| > 0 && |users| > 0 && PurchasesIndexed(products, users)
    ensures TrainedOn(products, users).Err?
      <==> |Distinct(Categories(products))| < 2 || |Distinct(Colors(products))| < 2
  {
    var ctx := ContextOf(products, users);
    assert ctx.numCategories == |Distinct(Categories(products))|;
    assert ctx.numColors == |Distinct(Colors(products))|;
  }

  /** A catalogue whose products share one category (a single product, say)
      makes training throw at the category one-hot, whose depth is 1. */
  lemma {:induction false} SingleCategoryCatalogueFails(products: seq<Product>, users: seq<User>)
    requires |products| > 0 && |users| > 0 && PurchasesIndexed(products, users)
    requires forall i :: 0 <= i < |products| ==> products[i].category == products[0].category
    ensures TrainedOn(products, users) == Err(OneHotDepth(1))
  {
    var ctx := ContextOf(products, users);
    var c := products[0].category;
    var d := Distinct(Categories(products));
    assert Categories(products)[0] == c;
    forall y | y in d ensures y == c {
      var i :| 0 <= i < |Categories(products)| && Categories(products)[i] == y;
      assert y == products[i].category;
    }
    OnlyValue(d, c);
    assert ctx.numCategories == |d|;
  }

  /** A list without duplicates that holds `x` and nothing else is `[x]`. */
  lemma OnlyValue(d: seq<string>, x: string)
    requires NoDuplicates(d) && x in d
    requires forall y :: y in d ==> y == x
    ensures |d| == 1
  {
    // The first and the last entry are both `x`, so they are one entry.
    assert d[0] in d && d[|d| - 1] in d;
  }

  /** The worker's module state. */
  class Worker {
    /** `_globalCtx`. */
    var globalCtx: Option<TrainedContext>
    /** `_model`. */
    var model: Option<TrainedModel>

    /** A network is only ever assigned after the context it was trained
        on, and a stored context is well formed, indexes its own corpus and
        carries the product vectors of its non-empty catalogue, whose
        one-hot segments have at least two classes each. That it is `makeContext`'s
        context is what `BeginTraining` states. */
    ghost predicate Valid()
      reads this
    {
      && (globalCtx.Some? ==> Trained(globalCtx.value))
      && (model.Some? ==> globalCtx.Some?)
    }

    /** Before any training both `_globalCtx` and `_model` are unset. */
    constructor()
      ensures Valid() && globalCtx.None? && model.None?
    {
      globalCtx := None;
      model := None;
    }

    /** `trainModel` up to the `await` of line 210: build the context from
        the fetched catalogue and the users and attach the product vectors,
        which throws before `_globalCtx` is replaced when a one-hot segment
        has fewer than two classes; otherwise publish it as `_globalCtx` and
        build the training set, which throws when there is no pair to learn
        from. `_model` is not touched. */
    method BeginTraining(products: seq<Product>, users: seq<User>) returns (data: Result<TrainingSet, TensorError>)
      requires Valid()
      requires |products| > 0 && |users| > 0 && PurchasesIndexed(products, users)
      modifies this`globalCtx
      ensures Valid()
      ensures unchanged(this`model)
      ensures TrainedOn(products, users).Err? ==>
        unchanged(this`globalCtx) && data == Err(TrainedOn(products, users).error)
      ensures TrainedOn(products, users).Ok? ==>
        && globalCtx == Some(TrainedOn(products, users).value)
        && data == TrainingDataOf(TrainedOn(products, users).value.ctx)
    {
      var trained := PrepareContext(products, users);
      if trained.Err? {
        return Err(trained.error);
      }
      globalCtx := Some(trained.value);
      data := CreateTrainingData(trained.value.ctx);
    }

    /** `trainModel` after its `await`: `_model` becomes the network fitted on
        `data`, whose input layer takes rows of width `data.inputDimension`. */
    method CompleteTraining(data: TrainingSet, fitted: Predictor)
      requires Valid() && globalCtx.Some?
      modifies this`model
      ensures Valid()
      ensures unchanged(this`globalCtx)
      ensures model == Some(TrainedModel(data.inputDimension, fitted))
    {
      model := Some(TrainedModel(data.inputDimension, fitted));
    }

    /** `recommend({user})`: nothing before the first network is trained;
        otherwise encode the user, pair the user's vector with every product
        vector, score the pairs and sort them by descending score. */
    method Recommend(user: User) returns (r: RecommendResult)
      requires Valid()
      requires model.Some? ==> AllKnown(globalCtx.value.ctx, user.purchases)
      ensures r == RecommendFor(globalCtx, model, user)
    {
      if model.None? {
        return NotReady;
      }
      var tc, m := globalCtx.value, model.value;
      var encoded := EncodeUser(user, tc.ctx);
      if encoded.Err? {
        return Failed(encoded.error);
      }
      var userVector := encoded.value;
      if m.inputDimension != 2 * tc.ctx.dimensions {
        return Failed(InputWidthMismatch(m.inputDimension, 2 * tc.ctx.dimensions));
      }
      var inputs := RankingInputs(userVector, tc.productVectors);
      var scores := m.predict(inputs);
      var recommendations := Scored(tc.productVectors, scores);
      var sorted := new Recommendation[|recommendations|](i requires 0 <= i < |recommendations| => recommendations[i]);
      assert sorted[..] == recommendations;
      SortByScoreDescending(sorted);
      r := Ranked(sorted[..]);
    }
  }

  /** When no user has a purchase and the product vectors were encoded,
      building the training set throws: `_globalCtx` has already been
      replaced, and no network is fitted. */
  lemma {:induction false} TrainingWithoutPurchasesFails(products: seq<Product>, users: seq<User>)
    requires |products| > 0 && |users| > 0 && PurchasesIndexed(products, users)
    requires forall u :: u in users ==> |u.purchases| == 0
    ensures TrainedOn(products, users).Ok? ==> TrainingDataOf(TrainedOn(products, users).value.ctx) == Err(EmptyTensor2d)
  {
    if TrainedOn(products, users).Err? {
      return;
    }
    var ctx := TrainedOn(products, users).value.ctx;
    assert ctx.users == users;
    NoWarmUsers(users);
    TrainingDataFailsWithoutPairs(ctx);
  }

  /** Until a network has been trained, `recommend` yields nothing. */
  lemma {:induction false} NoModelNoRecommendations(state: Option<TrainedContext>, user: User)
    ensures RecommendFor(state, None, user) == NotReady
  {
  }

  /** As written, a user without purchases never gets recommendations from a
      trained session: encoding the user throws. */
  lemma {:induction false} ColdStartRecommendFails(tc: TrainedContext, m: TrainedModel, user: User)
    requires Trained(tc) && |user.purchases| == 0
    ensures RecommendFor(Some(tc), Some(m), user) == Failed(ShapeMismatch(tc.ctx.dimensions, None))
  {
    ColdStartReshapeFails(user, tc.ctx);
  }

  /** During retraining, between `BeginTraining` and `CompleteTraining`, the
      new context is served with the previous network: when the new catalogue
      changes the vector width, `recommend` fails on the width check. */
  lemma {:induction false} StaleModelFails(tc: TrainedContext, m: TrainedModel, user: User)
    requires Trained(tc) && AllKnown(tc.ctx, user.purchases) && |user.purchases| > 0
    requires m.inputDimension != 2 * tc.ctx.dimensions
    ensures RecommendFor(Some(tc), Some(m), user) == Failed(InputWidthMismatch(m.inputDimension, 2 * tc.ctx.dimensions))
  {
  }

  /** With the network fitted on the session's own training set, a user with
      purchases gets every catalogue product exactly once, each carrying the
      score the network gave its row; the list is ordered by descending
      score, and products with equal scores keep their catalogue order. */
  lemma {:induction false} RecommendRanksCatalogue(tc: TrainedContext, fitted: Predictor, user: User)
    requires Trained(tc) && AllKnown(tc.ctx, user.purchases) && |user.purchases| > 0
    ensures var m := TrainedModel(TrainingSetOf(tc.ctx).inputDimension, fitted);
      var pvs := tc.productVectors;
      var scores := fitted(RankingInputs(UserFeatures(user, tc.ctx), pvs));
      var r := RecommendFor(Some(tc), Some(m), user);
      && r.Ranked?
      && |r.items| == |tc.ctx.products|
      && SortedByScoreDesc(r.items)
      && multiset(r.items) == multiset(Scored(pvs, scores))
      && (forall score :: ScoreClass(r.items, score) == ScoreClass(Scored(pvs, scores), score))
  {
    var pvs := tc.productVectors;
    var scores := fitted(RankingInputs(UserFeatures(user, tc.ctx), pvs));
    StableSortDescIsSorted(Scored(pvs, scores));
    StableSortDescPermutes(Scored(pvs, scores));
    forall score ensures ScoreClass(StableSortDesc(Scored(pvs, scores)), score) == ScoreClass(Scored(pvs, scores), score) {
      StableSortDescIsStable(Scored(pvs, scores), score);
    }
  }

  /** Row `i` of the ranking input is the user's vector followed by the
      vector of the `i`-th catalogue product, and the `i`-th scored entry is
      that product with the `i`-th score: scores are matched to products by
      position. */
  lemma {:induction false} ScoresFollowCatalogueOrder(tc: TrainedContext, userVector: seq<real>, scores: seq<real>, i: nat)
    requires Trained(tc) && |scores| == |tc.productVectors| && i < |tc.ctx.products|
    ensures RankingInputs(userVector, tc.productVectors)[i] == userVector + ProductFeatures(tc.ctx.products[i], tc.ctx)
    ensures Scored(tc.productVectors, scores)[i] == Recommendation(tc.ctx.products[i], scores[i])
  {
  }
}
