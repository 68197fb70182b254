/** The encoding context: everything `makeContext` derives from one scan of
    the product catalogue and the users (value ranges, first-seen category
    and colour indices, and each product's normalised average purchaser
    age). Training and recommendation must encode with the same context. */
module EncodingContext {
  // `{:induction false}` switches off Dafny's automatic induction: the
  // lemmas that carry it state their inductive steps, if any, themselves.
  import opened Wrappers
  import opened Records
  import opened Normalization
  import opened Sequences

  datatype Context = Context(
    products: seq<Product>,
    users: seq<User>,
    colorsIndex: map<string, nat>,
    categoriesIndex: map<string, nat>,
    productAvgAgeNorm: map<string, real>,
    minAge: real,
    maxAge: real,
    minPrice: real,
    maxPrice: real,
    numCategories: nat,
    numColors: nat,
    dimensions: nat)
  {
    /** Reading a numeric property of the context object by its key; a key
        the object does not have reads as `undefined`. */
    function NumericField(key: string): Option<nat>
    {
      if key == "numCategories" then Some(numCategories)
      else if key == "numColors" then Some(numColors)
      else if key == "dimensions" then Some(dimensions)
      else None
    }
  }

  /** What the encoders rely on: the vector layout adds up, and the category
      and colour indices are distinct slots inside their segments. */
  ghost predicate WellFormed(ctx: Context)
  {
    && ctx.dimensions == 2 + ctx.numCategories + ctx.numColors
    && (forall c :: c in ctx.categoriesIndex ==> ctx.categoriesIndex[c] < ctx.numCategories)
    && (forall c, c' :: c in ctx.categoriesIndex && c' in ctx.categoriesIndex && c != c'
          ==> ctx.categoriesIndex[c] != ctx.categoriesIndex[c'])
    && (forall c :: c in ctx.colorsIndex ==> ctx.colorsIndex[c] < ctx.numColors)
    && (forall c, c' :: c in ctx.colorsIndex && c' in ctx.colorsIndex && c != c'
          ==> ctx.colorsIndex[c] != ctx.colorsIndex[c'])
  }

  /** How many of `purchases` carry the product name `name`. */
  function CountNamed(purchases: seq<Product>, name: string): nat
  {
    if purchases == [] then 0
    else
      var last := purchases[|purchases| - 1];
      CountNamed(purchases[..|purchases| - 1], name) + (if last.name == name then 1 else 0)
  }

  /** `age` added once for every purchase in `purchases` named `name`. */
  function AgeSumNamed(age: real, purchases: seq<Product>, name: string): real
  {
    if purchases == [] then 0.0
    else
      var last := purchases[|purchases| - 1];
      AgeSumNamed(age, purchases[..|purchases| - 1], name) + (if last.name == name then age else 0.0)
  }

  /** Number of purchases of `name` over all users (a user who bought it
      twice counts twice). */
  function PurchaseCount(users: seq<User>, name: string): nat
  {
    if users == [] then 0
    else PurchaseCount(users[..|users| - 1], name) + CountNamed(users[|users| - 1].purchases, name)
  }

  /** Sum of purchaser ages over all purchases of `name`. */
  function PurchaserAgeSum(users: seq<User>, name: string): real
  {
    if users == [] then 0.0
    else
      var last := users[|users| - 1];
      PurchaserAgeSum(users[..|users| - 1], name) + AgeSumNamed(last.age, last.purchases, name)
  }

  /** The average purchaser age of `name`, or `midAge` when nobody bought it. */
  function MeanPurchaserAge(users: seq<User>, name: string, midAge: real): real
  {
    if PurchaseCount(users, name) > 0
    then PurchaserAgeSum(users, name) / PurchaseCount(users, name) as real
    else midAge
  }

  /** The per-product map the context stores: one entry per catalogue name. */
  function AvgAgeNormSpec(products: seq<Product>, users: seq<User>, minAge: real, maxAge: real): map<string, real>
  {
    map p | p in products
      :: p.name := Normalize(MeanPurchaserAge(users, p.name, (minAge + maxAge) / 2.0), minAge, maxAge)
  }

  /** The context record of `makeContext`, given the per-product age map. */
  function Assemble(products: seq<Product>, users: seq<User>, avgAgeNorm: map<string, real>): (ctx: Context)
    requires |products| > 0 && |users| > 0
    ensures WellFormed(ctx)
  {
    var colors := Distinct(Colors(products));
    var categories := Distinct(Categories(products));
    Context(
      products, users,
      IndexMap(colors), IndexMap(categories), avgAgeNorm,
      Min(Ages(users)), Max(Ages(users)), Min(Prices(products)), Max(Prices(products)),
      |categories|, |colors|,
      2 + |categories| + |colors|)
  }

  /** The context `makeContext(products, users)` returns. An empty catalogue
      or user list is not checked by the source (`Math.min()` of nothing is
      `Infinity`), so both are required to be non-empty. */
  function ContextOf(products: seq<Product>, users: seq<User>): (ctx: Context)
    requires |products| > 0 && |users| > 0
    ensures WellFormed(ctx)
    ensures ctx.products == products && ctx.users == users
    ensures forall c :: c in ctx.categoriesIndex <==> c in Categories(products)
    ensures forall c :: c in ctx.colorsIndex <==> c in Colors(products)
    ensures forall p :: p in products ==> p.name in ctx.productAvgAgeNorm
    ensures forall n :: n in ctx.productAvgAgeNorm ==> exists p :: p in products && p.name == n
  {
    var minAge, maxAge := Min(Ages(users)), Max(Ages(users));
    Assemble(products, users, AvgAgeNormSpec(products, users, minAge, maxAge))
  }

  /** An age in the list of ages is the age of some user. */
  lemma {:induction false} AgeAttained(users: seq<User>, a: real)
    requires a in Ages(users)
    ensures exists u :: u in users && u.age == a
  {
    var i :| 0 <= i < |Ages(users)| && Ages(users)[i] == a;
    assert users[i] in users;
  }

  /** A price in the list of prices is the price of some product. */
  lemma {:induction false} PriceAttained(products: seq<Product>, c: real)
    requires c in Prices(products)
    ensures exists p :: p in products && p.price == c
  {
    var i :| 0 <= i < |Prices(products)| && Prices(products)[i] == c;
    assert products[i] in products;
  }

  /** The context's age range is the least range holding every user's age,
      and its price range the least holding every catalogue price: each
      bound is the age of some user or the price of some product. */
  lemma {:induction false} RangesCoverCorpus(products: seq<Product>, users: seq<User>)
    requires |products| > 0 && |users| > 0
    ensures forall u :: u in users ==> ContextOf(products, users).minAge <= u.age <= ContextOf(products, users).maxAge
    ensures forall p :: p in products ==> ContextOf(products, users).minPrice <= p.price <= ContextOf(products, users).maxPrice
    ensures exists u :: u in users && u.age == ContextOf(products, users).minAge
    ensures exists u :: u in users && u.age == ContextOf(products, users).maxAge
    ensures exists p :: p in products && p.price == ContextOf(products, users).minPrice
    ensures exists p :: p in products && p.price == ContextOf(products, users).maxPrice
  {
    AgeAttained(users, Min(Ages(users)));
    AgeAttained(users, Max(Ages(users)));
    PriceAttained(products, Min(Prices(products)));
    PriceAttained(products, Max(Prices(products)));
    forall u | u in users ensures u.age in Ages(users) {
      var i :| 0 <= i < |users| && users[i] == u;
      assert Ages(users)[i] == u.age;
    }
    forall p | p in products ensures p.price in Prices(products) {
      var i :| 0 <= i < |products| && products[i] == p;
      assert Prices(products)[i] == p.price;
    }
  }

  /** Line 56: `ageSums[name] = (ageSums[name] || 0) + age`. A stored 0 is
      falsy too, but replacing it by 0 changes nothing. */
  function AddAge(ageSums: map<string, real>, name: string, age: real): (sums: map<string, real>)
    ensures name in sums && sums[name] == (if name in ageSums then ageSums[name] else 0.0) + age
    ensures forall n :: n != name ==> (n in sums <==> n in ageSums) && (n in ageSums ==> sums[n] == ageSums[n])
  {
    ageSums[name := (if name in ageSums then ageSums[name] else 0.0) + age]
  }

  /** Line 57: `ageCounts[name] = (ageCounts[name] || 0) + 1`. */
  function AddOne(ageCounts: map<string, nat>, name: string): (counts: map<string, nat>)
    ensures name in counts && counts[name] == (if name in ageCounts then ageCounts[name] else 0) + 1
    ensures forall n :: n != name ==> (n in counts <==> n in ageCounts) && (n in ageCounts ==> counts[n] == ageCounts[n])
  {
    ageCounts[name := (if name in ageCounts then ageCounts[name] else 0) + 1]
  }

  /** The two dictionaries hold, for every name bought by `users`, the
      purchase count and the purchaser age sum, and nothing else. */
  ghost predicate Tallies(ageSums: map<string, real>, ageCounts: map<string, nat>, users: seq<User>)
  {
    && (forall name :: name in ageSums <==> name in ageCounts)
    && (forall name :: name in ageCounts <==> PurchaseCount(users, name) > 0)
    && (forall name :: name in ageCounts ==>
          ageCounts[name] == PurchaseCount(users, name) && ageSums[name] == PurchaserAgeSum(users, name))
  }

  /** A user with no purchases leaves the tallies as they are. */
  lemma {:induction false} TalliesIgnoreEmptyUser(ageSums: map<string, real>, ageCounts: map<string, nat>, users: seq<User>, age: real)
    requires Tallies(ageSums, ageCounts, users)
    ensures Tallies(ageSums, ageCounts, users + [User(age, [])])
  {
    assert (users + [User(age, [])])[..|users|] == users;
  }

  /** One more purchase of `p` by the last user adds one to the count of
      `p.name` and the user's age to its age sum, and changes no other name. */
  lemma {:induction false} PurchaseExtendsTotals(users: seq<User>, u: User, p: Product, name: string)
    ensures PurchaseCount(users + [User(u.age, u.purchases + [p])], name)
      == PurchaseCount(users + [u], name) + (if name == p.name then 1 else 0)
    ensures PurchaserAgeSum(users + [User(u.age, u.purchases + [p])], name)
      == PurchaserAgeSum(users + [u], name) + (if name == p.name then u.age else 0.0)
  {
    var u' := User(u.age, u.purchases + [p]);
    assert (users + [u])[..|users|] == users;
    assert (users + [u'])[..|users|] == users;
    assert (u.purchases + [p])[..|u.purchases|] == u.purchases;
    assert CountNamed(u'.purchases, name) == CountNamed(u.purchases, name) + (if name == p.name then 1 else 0);
    assert AgeSumNamed(u.age, u'.purchases, name) == AgeSumNamed(u.age, u.purchases, name) + (if name == p.name then u.age else 0.0);
  }

  /** A name nobody bought has an age sum of zero. */
  lemma {:induction false} UnboughtHasZeroAgeSum(users: seq<User>, name: string)
    requires PurchaseCount(users, name) == 0
    ensures PurchaserAgeSum(users, name) == 0.0
  {
    if users != [] {
      var last := users[|users| - 1];
      UnboughtHasZeroAgeSum(users[..|users| - 1], name);
      NoneNamedHasZeroAgeSum(last.age, last.purchases, name);
    }
  }

  lemma {:induction false} NoneNamedHasZeroAgeSum(age: real, purchases: seq<Product>, name: string)
    requires CountNamed(purchases, name) == 0
    ensures AgeSumNamed(age, purchases, name) == 0.0
  {
    if purchases != [] {
      NoneNamedHasZeroAgeSum(age, purchases[..|purchases| - 1], name);
    }
  }

  /** Recording one more purchase `p` by the last user updates the tallies
      exactly as lines 56-57 do. */
  lemma {:induction false} TalliesAddPurchase(ageSums: map<string, real>, ageCounts: map<string, nat>, users: seq<User>, u: User, p: Product)
    requires Tallies(ageSums, ageCounts, users + [u])
    ensures Tallies(AddAge(ageSums, p.name, u.age), AddOne(ageCounts, p.name), users + [User(u.age, u.purchases + [p])])
  {
    var after := users + [User(u.age, u.purchases + [p])];
    var sums, counts := AddAge(ageSums, p.name, u.age), AddOne(ageCounts, p.name);
    forall name
      ensures name in counts <==> PurchaseCount(after, name) > 0
      ensures name in counts ==> counts[name] == PurchaseCount(after, name) && sums[name] == PurchaserAgeSum(after, name)
    {
      PurchaseExtendsTotals(users, u, p, name);
      if name !in ageCounts {
        UnboughtHasZeroAgeSum(users + [u], name);
      }
    }
  }

  /** The loop of `makeContext` (lines 54-59) that walks every purchase of
      every user and accumulates, per purchased product name, the sum of
      purchaser ages and the number of purchases. */
  method AccumulatePurchaserAges(users: seq<User>) returns (ageSums: map<string, real>, ageCounts: map<string, nat>)
    ensures forall name :: name in ageCounts <==> PurchaseCount(users, name) > 0
    ensures forall name :: name in ageSums <==> name in ageCounts
    ensures forall name :: name in ageCounts ==>
      ageCounts[name] == PurchaseCount(users, name) && ageSums[name] == PurchaserAgeSum(users, name)
    ensures Tallies(ageSums, ageCounts, users)
  {
    ageSums, ageCounts := map[], map[];
    var i := 0;
    while i < |users|
      invariant 0 <= i <= |users|
      invariant Tallies(ageSums, ageCounts, users[..i])
    {
      ageSums, ageCounts := RecordPurchases(ageSums, ageCounts, users[..i], users[i]);
      assert users[..i + 1] == users[..i] + [users[i]];
      i := i + 1;
    }
    assert users[..i] == users;
  }

  /** The inner loop of lines 55-58: every purchase of `user`, in order,
      adds the user's age and one purchase to the tallies of its name. */
  method RecordPurchases(ageSums: map<string, real>, ageCounts: map<string, nat>, done: seq<User>, user: User)
    returns (ageSums': map<string, real>, ageCounts': map<string, nat>)
    requires Tallies(ageSums, ageCounts, done)
    ensures Tallies(ageSums', ageCounts', done + [user])
  {
    TalliesIgnoreEmptyUser(ageSums, ageCounts, done, user.age);
    assert user.purchases[..0] == [];
    ageSums', ageCounts' := ageSums, ageCounts;
    var j := 0;
    while j < |user.purchases|
      invariant 0 <= j <= |user.purchases|
      invariant Tallies(ageSums', ageCounts', done + [User(user.age, user.purchases[..j])])
    {
      var p := user.purchases[j];
      TalliesAddPurchase(ageSums', ageCounts', done, User(user.age, user.purchases[..j]), p);
      assert user.purchases[..j] + [p] == user.purchases[..j + 1];
      ageSums' := AddAge(ageSums', p.name, user.age);
      ageCounts' := AddOne(ageCounts', p.name);
      j := j + 1;
    }
    assert user.purchases[..j] == user.purchases;
    assert User(user.age, user.purchases[..j]) == user;
  }

  /** Lines 62-70: each catalogue name mapped to its normalised mean
      purchaser age, read off the two dictionaries. `ageCounts[name] ?` is
      falsy both for a missing entry and for 0. */
  function AvgAgeNormFrom(products: seq<Product>, ageSums: map<string, real>, ageCounts: map<string, nat>,
                          minAge: real, maxAge: real): (avgAgeNorm: map<string, real>)
    ensures forall p :: p in products ==> p.name in avgAgeNorm
    ensures forall n :: n in avgAgeNorm ==> exists p :: p in products && p.name == n
  {
    var midAge := (minAge + maxAge) / 2.0;
    map p | p in products
      :: p.name := Normalize(
           if p.name in ageCounts && ageCounts[p.name] != 0 && p.name in ageSums
           then ageSums[p.name] / ageCounts[p.name] as real
           else midAge,
           minAge, maxAge)
  }

  lemma {:induction false} AvgAgeNormFromTallies(products: seq<Product>, users: seq<User>,
                              ageSums: map<string, real>, ageCounts: map<string, nat>, minAge: real, maxAge: real)
    requires Tallies(ageSums, ageCounts, users)
    ensures AvgAgeNormFrom(products, ageSums, ageCounts, minAge, maxAge) == AvgAgeNormSpec(products, users, minAge, maxAge)
  {
    var midAge := (minAge + maxAge) / 2.0;
    forall p | p in products
      ensures (if p.name in ageCounts && ageCounts[p.name] != 0 && p.name in ageSums
               then ageSums[p.name] / ageCounts[p.name] as real else midAge)
           == MeanPurchaserAge(users, p.name, midAge)
    {
    }
  }

  /** `makeContext`: scans the corpus once and returns the encoding context. */
  method MakeContext(products: seq<Product>, users: seq<User>) returns (ctx: Context)
    requires |products| > 0 && |users| > 0
    ensures ctx == ContextOf(products, users)
  {
    var minAge, maxAge := Min(Ages(users)), Max(Ages(users));
    var ageSums, ageCounts := AccumulatePurchaserAges(users);
    var productAvgAgeNorm := AvgAgeNormFrom(products, ageSums, ageCounts, minAge, maxAge);
    AvgAgeNormFromTallies(products, users, ageSums, ageCounts, minAge, maxAge);
    ctx := Assemble(products, users, productAvgAgeNorm);
  }
}

/** Properties of the context `makeContext` builds. */
module ContextProperties {
  // `{:induction false}` switches off Dafny's automatic induction: the
  // lemmas that carry it state their inductive steps, if any, themselves.
  import opened Records
  import opened Normalization
  import opened Sequences
  import opened EncodingContext

  /** Category and colour indices are handed out in the order in which the
      values first appear in the catalogue, and every slot below
      `numCategories` (`numColors`) belongs to exactly one category (colour). */
  lemma {:induction false} IndicesFollowFirstSeen(products: seq<Product>, users: seq<User>, p: Product, q: Product)
    requires |products| > 0 && |users| > 0
    requires p in products && q in products
    ensures p.category in Categories(products) && q.category in Categories(products)
    ensures p.color in Colors(products) && q.color in Colors(products)
    ensures ContextOf(products, users).categoriesIndex[p.category] < ContextOf(products, users).categoriesIndex[q.category]
        <==> FirstIndex(Categories(products), p.category) < FirstIndex(Categories(products), q.category)
    ensures ContextOf(products, users).colorsIndex[p.color] < ContextOf(products, users).colorsIndex[q.color]
        <==> FirstIndex(Colors(products), p.color) < FirstIndex(Colors(products), q.color)
  {
    var i :| 0 <= i < |products| && products[i] == p;
    var j :| 0 <= j < |products| && products[j] == q;
    assert Categories(products)[i] == p.category && Categories(products)[j] == q.category;
    assert Colors(products)[i] == p.color && Colors(products)[j] == q.color;
    IndexFollowsFirstSeen(Categories(products), p.category, q.category);
    IndexFollowsFirstSeen(Colors(products), p.color, q.color);
  }

  /** Every slot of the category (colour) segment is the index of some
      category (colour) of the catalogue: the index maps are one-to-one onto
      `[0, numCategories)` and `[0, numColors)`. */
  lemma {:induction false} IndicesCoverSegments(products: seq<Product>, users: seq<User>, k: nat)
    requires |products| > 0 && |users| > 0
    ensures k < ContextOf(products, users).numCategories ==>
      exists c :: c in Categories(products) && ContextOf(products, users).categoriesIndex[c] == k
    ensures k < ContextOf(products, users).numColors ==>
      exists c :: c in Colors(products) && ContextOf(products, users).colorsIndex[c] == k
  {
    var categories, colors := Distinct(Categories(products)), Distinct(Colors(products));
    if k < |categories| {
      assert categories[k] in Categories(products);
    }
    if k < |colors| {
      assert colors[k] in Colors(products);
    }
  }

  /** The ages a purchase list contributes for `name`: the buyer's age once
      per purchase of that name. */
  function BuyerAges(age: real, purchases: seq<Product>, name: string): seq<real>
  {
    if purchases == [] then []
    else
      var last := purchases[|purchases| - 1];
      BuyerAges(age, purchases[..|purchases| - 1], name) + (if last.name == name then [age] else [])
  }

  /** The age of the buyer of every purchase of `name`, user by user. */
  function AgesOfBuyers(users: seq<User>, name: string): seq<real>
  {
    if users == [] then []
    else
      var last := users[|users| - 1];
      AgesOfBuyers(users[..|users| - 1], name) + BuyerAges(last.age, last.purchases, name)
  }

  function Sum(s: seq<real>): real
  {
    if s == [] then 0.0 else Sum(s[..|s| - 1]) + s[|s| - 1]
  }

  lemma {:induction false} SumConcat(a: seq<real>, b: seq<real>)
    ensures Sum(a + b) == Sum(a) + Sum(b)
  {
    if b == [] {
      assert a + b == a;
    } else {
      assert (a + b)[..|a + b| - 1] == a + b[..|b| - 1];
      SumConcat(a, b[..|b| - 1]);
    }
  }

  lemma {:induction false} BuyerAgesTotals(age: real, purchases: seq<Product>, name: string)
    ensures |BuyerAges(age, purchases, name)| == CountNamed(purchases, name)
    ensures Sum(BuyerAges(age, purchases, name)) == AgeSumNamed(age, purchases, name)
  {
    if purchases != [] {
      var prefix, last := purchases[..|purchases| - 1], purchases[|purchases| - 1];
      BuyerAgesTotals(age, prefix, name);
      var extra := if last.name == name then [age] else [];
      SumConcat(BuyerAges(age, prefix, name), extra);
      assert Sum(extra) == if last.name == name then age else 0.0;
    }
  }

  /** The tallies of the accumulation loop are the length and the sum of the
      list of buyer ages. */
  lemma {:induction false} AgesOfBuyersCount(users: seq<User>, name: string)
    ensures |AgesOfBuyers(users, name)| == PurchaseCount(users, name)
  {
    if users != [] {
      var prefix, last := users[..|users| - 1], users[|users| - 1];
      AgesOfBuyersCount(prefix, name);
      BuyerAgesTotals(last.age, last.purchases, name);
    }
  }

  lemma {:induction false} AgesOfBuyersSum(users: seq<User>, name: string)
    ensures Sum(AgesOfBuyers(users, name)) == PurchaserAgeSum(users, name)
  {
    if users != [] {
      var prefix, last := users[..|users| - 1], users[|users| - 1];
      var before, added := AgesOfBuyers(prefix, name), BuyerAges(last.age, last.purchases, name);
      assert AgesOfBuyers(users, name) == before + added;
      AgesOfBuyersSum(prefix, name);
      BuyerAgesTotals(last.age, last.purchases, name);
      SumConcat(before, added);
    }
  }

  function Average(s: seq<real>): real
    requires |s| > 0
  {
    Sum(s) / |s| as real
  }

  /** The age feature of a catalogue product, as `makeContext` computes it. */
  lemma {:induction false} AvgAgeNormEntry(products: seq<Product>, users: seq<User>, p: Product)
    requires |products| > 0 && |users| > 0
    requires p in products
    ensures var ctx := ContextOf(products, users);
      && p.name in ctx.productAvgAgeNorm
      && ctx.productAvgAgeNorm[p.name]
         == Normalize(MeanPurchaserAge(users, p.name, (ctx.minAge + ctx.maxAge) / 2.0), ctx.minAge, ctx.maxAge)
  {
  }

  /** A catalogue product's age feature is the normalised arithmetic mean of
      the ages of its buyers (one entry per purchase); a product nobody
      bought gets the normalised midpoint age. */
  lemma {:induction false} AvgAgeNormIsMeanBuyerAge(products: seq<Product>, users: seq<User>, p: Product)
    requires |products| > 0 && |users| > 0
    requires p in products
    ensures p.name in ContextOf(products, users).productAvgAgeNorm
    ensures var ctx := ContextOf(products, users);
      AgesOfBuyers(users, p.name) != [] ==>
        ctx.productAvgAgeNorm[p.name] == Normalize(Average(AgesOfBuyers(users, p.name)), ctx.minAge, ctx.maxAge)
    ensures var ctx := ContextOf(products, users);
      AgesOfBuyers(users, p.name) == [] ==>
        ctx.productAvgAgeNorm[p.name] == Normalize((ctx.minAge + ctx.maxAge) / 2.0, ctx.minAge, ctx.maxAge)
  {
    var ctx := ContextOf(products, users);
    var mid := (ctx.minAge + ctx.maxAge) / 2.0;
    AvgAgeNormEntry(products, users, p);
    AgesOfBuyersCount(users, p.name);
    AgesOfBuyersSum(users, p.name);
    if AgesOfBuyers(users, p.name) == [] {
      assert MeanPurchaserAge(users, p.name, mid) == mid;
    } else {
      assert MeanPurchaserAge(users, p.name, mid) == Average(AgesOfBuyers(users, p.name));
    }
  }

  /** A catalogue product nobody bought has age feature exactly 0.5 when the
      users' ages are not all equal. */
  lemma {:induction false} UnboughtProductAgeIsHalf(products: seq<Product>, users: seq<User>, p: Product)
    requires |products| > 0 && |users| > 0
    requires p in products && PurchaseCount(users, p.name) == 0
    requires ContextOf(products, users).minAge < ContextOf(products, users).maxAge
    ensures ContextOf(products, users).productAvgAgeNorm[p.name] == 0.5
  {
    var ctx := ContextOf(products, users);
    AvgAgeNormEntry(products, users, p);
    var mid := (ctx.minAge + ctx.maxAge) / 2.0;
    assert MeanPurchaserAge(users, p.name, mid) == mid;
    MidpointIsHalf(ctx.minAge, ctx.maxAge);
  }

  /** Every buyer age is the age of one of the users, so it lies in any
      range that holds all user ages. */
  lemma {:induction false} BuyerAgesWithin(users: seq<User>, name: string, lo: real, hi: real)
    requires forall u :: u in users ==> lo <= u.age <= hi
    ensures forall k :: 0 <= k < |AgesOfBuyers(users, name)| ==> lo <= AgesOfBuyers(users, name)[k] <= hi
  {
    if users != [] {
      var prefix, last := users[..|users| - 1], users[|users| - 1];
      assert forall u :: u in prefix ==> u in users;
      BuyerAgesWithin(prefix, name, lo, hi);
      var before, added := AgesOfBuyers(prefix, name), BuyerAges(last.age, last.purchases, name);
      forall k | 0 <= k < |added| ensures added[k] == last.age {
        BuyerAgesAllEqual(last.age, last.purchases, name, k);
      }
      assert AgesOfBuyers(users, name) == before + added;
    }
  }

  lemma {:induction false} BuyerAgesAllEqual(age: real, purchases: seq<Product>, name: string, k: nat)
    requires k < |BuyerAges(age, purchases, name)|
    ensures BuyerAges(age, purchases, name)[k] == age
  {
    var prefix := purchases[..|purchases| - 1];
    if k < |BuyerAges(age, prefix, name)| {
      BuyerAgesAllEqual(age, prefix, name, k);
    }
  }

  /** A sum of `|s|` values inside `[lo, hi]` lies between `|s|` times each bound. */
  lemma {:induction false} SumBounds(s: seq<real>, lo: real, hi: real)
    requires forall k :: 0 <= k < |s| ==> lo <= s[k] <= hi
    ensures |s| as real * lo <= Sum(s) <= |s| as real * hi
  {
    if s != [] {
      var n := |s| - 1;
      SumBounds(s[..n], lo, hi);
      assert (n + 1) as real * lo == n as real * lo + lo;
      assert (n + 1) as real * hi == n as real * hi + hi;
    }
  }

  lemma MeanWithin(total: real, n: real, lo: real, hi: real)
    requires n > 0.0 && n * lo <= total <= n * hi
    ensures lo <= total / n <= hi
  {
    assert total / n * n == total;
  }

  /** The average of values inside `[lo, hi]` lies inside `[lo, hi]`. */
  lemma {:induction false} AverageWithin(s: seq<real>, lo: real, hi: real)
    requires |s| > 0
    requires forall k :: 0 <= k < |s| ==> lo <= s[k] <= hi
    ensures lo <= Average(s) <= hi
  {
    SumBounds(s, lo, hi);
    MeanWithin(Sum(s), |s| as real, lo, hi);
  }

  /** When every user's age lies in `[lo, hi]`, so does the mean age of the
      buyers of any product that was bought. */
  lemma {:induction false} MeanBuyerAgeInRange(users: seq<User>, name: string, lo: real, hi: real)
    requires forall u :: u in users ==> lo <= u.age <= hi
    requires AgesOfBuyers(users, name) != []
    ensures lo <= Average(AgesOfBuyers(users, name)) <= hi
  {
    BuyerAgesWithin(users, name, lo, hi);
    AverageWithin(AgesOfBuyers(users, name), lo, hi);
  }

  /** When the users' ages are not all equal, every age feature of the
      context lies in `[0, 1]`. */
  lemma {:induction false} AvgAgeNormInUnitInterval(products: seq<Product>, users: seq<User>, p: Product)
    requires |products| > 0 && |users| > 0
    requires p in products
    requires ContextOf(products, users).minAge < ContextOf(products, users).maxAge
    ensures 0.0 <= ContextOf(products, users).productAvgAgeNorm[p.name] <= 1.0
  {
    var ctx := ContextOf(products, users);
    var ages := AgesOfBuyers(users, p.name);
    AvgAgeNormIsMeanBuyerAge(products, users, p);
    if ages != [] {
      RangesCoverCorpus(products, users);
      MeanBuyerAgeInRange(users, p.name, ctx.minAge, ctx.maxAge);
      NormalizeInUnitInterval(Average(ages), ctx.minAge, ctx.maxAge);
    } else {
      MidpointIsHalf(ctx.minAge, ctx.maxAge);
    }
  }
}
