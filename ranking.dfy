/** Ranking the scored catalogue: `recommendations.sort((a, b) => b.score -
    a.score)`. `Array.prototype.sort` is stable, so entries with equal
    scores keep their catalogue order, and the comparator puts higher
    scores first. */
module Ranking {
  // `{:induction false}` switches off Dafny's automatic induction: the
  // lemmas that carry it state their inductive steps, if any, themselves.
  import opened Records

  /** `{...product.meta, name: product.name, score}`. */
  datatype Recommendation = Recommendation(product: Product, score: real)

  /** Non-increasing scores from front to back. */
  predicate SortedByScoreDesc(s: seq<Recommendation>)
  {
    forall i, j :: 0 <= i < j < |s| ==> s[i].score >= s[j].score
  }

  /** The entries of `s` whose score is `score`, in their order in `s`. A
      stable sort keeps every such subsequence as it was. */
  function ScoreClass(s: seq<Recommendation>, score: real): (c: seq<Recommendation>)
    ensures forall k :: 0 <= k < |c| ==> c[k] in s && c[k].score == score
  {
    if s == [] then []
    else
      var last := s[|s| - 1];
      ScoreClass(s[..|s| - 1], score) + (if last.score == score then [last] else [])
  }

  /** `x` inserted into `s` after every entry whose score is at least
      `x.score` at the back of `s`: the entries scoring less than `x` move
      behind it, equal scores stay ahead of it. */
  function Insert(s: seq<Recommendation>, x: Recommendation): (r: seq<Recommendation>)
    ensures |r| == |s| + 1
  {
    if s == [] || s[|s| - 1].score >= x.score then s + [x]
    else Insert(s[..|s| - 1], x) + [s[|s| - 1]]
  }

  /** The stable descending sort of `s`, built by inserting its entries one
      by one from the front. */
  function StableSortDesc(s: seq<Recommendation>): (r: seq<Recommendation>)
    ensures |r| == |s|
  {
    if s == [] then [] else Insert(StableSortDesc(s[..|s| - 1]), s[|s| - 1])
  }

  lemma {:induction false} InsertKeepsSorted(s: seq<Recommendation>, x: Recommendation)
    requires SortedByScoreDesc(s)
    ensures SortedByScoreDesc(Insert(s, x))
    ensures forall k :: 0 <= k < |Insert(s, x)| ==> Insert(s, x)[k] == x || Insert(s, x)[k] in s
  {
    if s != [] && s[|s| - 1].score < x.score {
      var n := |s| - 1;
      var prefix, last := s[..n], s[n];
      InsertKeepsSorted(prefix, x);
      var r := Insert(prefix, x);
      forall k | 0 <= k < |r| ensures r[k].score >= last.score {
        if r[k] != x {
          var m :| 0 <= m < n && prefix[m] == r[k];
        }
      }
    }
  }

  lemma {:induction false} InsertPermutes(s: seq<Recommendation>, x: Recommendation)
    ensures multiset(Insert(s, x)) == multiset(s) + multiset{x}
  {
    if s != [] && s[|s| - 1].score < x.score {
      var n := |s| - 1;
      InsertPermutes(s[..n], x);
      assert s == s[..n] + [s[n]];
    }
  }

  lemma {:induction false} InsertKeepsClasses(s: seq<Recommendation>, x: Recommendation, score: real)
    ensures ScoreClass(Insert(s, x), score) == ScoreClass(s, score) + (if x.score == score then [x] else [])
  {
    var r := Insert(s, x);
    if s == [] || s[|s| - 1].score >= x.score {
      assert r[..|r| - 1] == s;
    } else {
      var n := |s| - 1;
      InsertKeepsClasses(s[..n], x, score);
      assert r[..|r| - 1] == Insert(s[..n], x);
    }
  }

  /** The sorted result is ordered by descending score. */
  lemma {:induction false} StableSortDescIsSorted(s: seq<Recommendation>)
    ensures SortedByScoreDesc(StableSortDesc(s))
  {
    if s != [] {
      StableSortDescIsSorted(s[..|s| - 1]);
      InsertKeepsSorted(StableSortDesc(s[..|s| - 1]), s[|s| - 1]);
    }
  }

  /** The sorted result holds the same entries, as often as the input. */
  lemma {:induction false} StableSortDescPermutes(s: seq<Recommendation>)
    ensures multiset(StableSortDesc(s)) == multiset(s)
  {
    if s != [] {
      var n := |s| - 1;
      StableSortDescPermutes(s[..n]);
      InsertPermutes(StableSortDesc(s[..n]), s[n]);
      assert s == s[..n] + [s[n]];
    }
  }

  /** Stability: for every score, the entries with that score appear in the
      result in the order they had in the input. */
  lemma {:induction false} StableSortDescIsStable(s: seq<Recommendation>, score: real)
    ensures ScoreClass(StableSortDesc(s), score) == ScoreClass(s, score)
  {
    if s != [] {
      var n := |s| - 1;
      StableSortDescIsStable(s[..n], score);
      InsertKeepsClasses(StableSortDesc(s[..n]), s[n], score);
    }
  }

  /** Sortedness and stability determine the result: any sequence ordered by
      descending score whose score classes are those of `s` is
      `StableSortDesc(s)`, whichever stable algorithm produced it. */
  lemma StableSortIsUnique(s: seq<Recommendation>, r: seq<Recommendation>)
    requires SortedByScoreDesc(r)
    requires forall score :: ScoreClass(r, score) == ScoreClass(s, score)
    ensures r == StableSortDesc(s)
  {
    var t := StableSortDesc(s);
    StableSortDescIsSorted(s);
    forall score ensures ScoreClass(t, score) == ScoreClass(r, score) {
      StableSortDescIsStable(s, score);
    }
    SameClassesSameSorted(r, t);
  }

  lemma {:induction false} SameClassesSameSorted(a: seq<Recommendation>, b: seq<Recommendation>)
    requires SortedByScoreDesc(a) && SortedByScoreDesc(b)
    requires forall score :: ScoreClass(a, score) == ScoreClass(b, score)
    ensures a == b
  {
    if a == [] && b == [] {
      return;
    }
    if a == [] {
      NonEmptyClass(b);
      assert false;
    }
    if b == [] {
      NonEmptyClass(a);
      assert false;
    }
    var x, y := a[|a| - 1], b[|b| - 1];
    var a', b' := a[..|a| - 1], b[..|b| - 1];
    LastHasLowestScore(a, b);
    LastHasLowestScore(b, a);
    LastOfClass(a);
    LastOfClass(b);
    assert x == y by {
      var c := ScoreClass(a, x.score);
      assert c == ScoreClass(b, y.score);
      assert c[|c| - 1] == x && c[|c| - 1] == y;
    }
    forall score ensures ScoreClass(a', score) == ScoreClass(b', score) {
      ClassOfPrefix(a, score);
      ClassOfPrefix(b, score);
      CancelSuffix(ScoreClass(a', score), ScoreClass(b', score), if x.score == score then [x] else []);
    }
    SameClassesSameSorted(a', b');
    assert a == a' + [x] && b == b' + [y];
  }

  lemma ClassOfPrefix(s: seq<Recommendation>, score: real)
    requires s != []
    ensures var x := s[|s| - 1];
      ScoreClass(s, score) == ScoreClass(s[..|s| - 1], score) + (if x.score == score then [x] else [])
  {
  }

  lemma LastOfClass(s: seq<Recommendation>)
    requires s != []
    ensures var x := s[|s| - 1];
      ScoreClass(s, x.score) == ScoreClass(s[..|s| - 1], x.score) + [x]
  {
  }

  lemma CancelSuffix(p: seq<Recommendation>, q: seq<Recommendation>, t: seq<Recommendation>)
    requires p + t == q + t
    ensures p == q
  {
    assert |p| == |q|;
    forall k | 0 <= k < |p| ensures p[k] == q[k] {
      assert (p + t)[k] == (q + t)[k];
    }
  }

  lemma NonEmptyClass(s: seq<Recommendation>)
    requires s != []
    ensures ScoreClass(s, s[|s| - 1].score) != []
  {
  }

  /** When both have the same score classes, the last entry of a sorted `a`
      scores at least as much as the last entry of a sorted `b`. */
  lemma LastHasLowestScore(a: seq<Recommendation>, b: seq<Recommendation>)
    requires a != [] && b != [] && SortedByScoreDesc(b)
    requires forall score :: ScoreClass(a, score) == ScoreClass(b, score)
    ensures a[|a| - 1].score >= b[|b| - 1].score
  {
    var x := a[|a| - 1];
    NonEmptyClass(a);
    var c := ScoreClass(b, x.score);
    assert c != [];
    assert c[0] in b && c[0].score == x.score;
  }

  /** Sorts `a` in place, descending by score and stably: each entry in
      turn is moved towards the front past the entries scoring strictly
      less. */
  method SortByScoreDescending(a: array<Recommendation>)
    modifies a
    ensures a[..] == StableSortDesc(old(a[..]))
  {
    ghost var input := a[..];
    var i := 0;
    while i < a.Length
      invariant 0 <= i <= a.Length
      invariant a[..i] == StableSortDesc(input[..i])
      invariant a[i..] == input[i..]
    {
      ghost var before := a[..];
      assert before[..i] == a[..i];
      MoveForward(a, i);
      SortStep(input, before, a[..], i);
      i := i + 1;
    }
    assert a[..] == a[..i] && input == input[..i];
  }

  lemma SortStep(input: seq<Recommendation>, before: seq<Recommendation>, after: seq<Recommendation>, i: nat)
    requires i < |input| == |before| == |after|
    requires before[..i] == StableSortDesc(input[..i]) && before[i..] == input[i..]
    requires after[..i + 1] == Insert(before[..i], before[i]) && after[i + 1..] == before[i + 1..]
    ensures after[..i + 1] == StableSortDesc(input[..i + 1]) && after[i + 1..] == input[i + 1..]
  {
    assert input[..i + 1][..i] == input[..i];
    assert before[i] == before[i..][0] == input[i];
    assert before[i + 1..] == before[i..][1..];
  }

  /** Moves `a[i]` forward into the prefix `a[..i]`: the entries before it
      that score strictly less shift one place back, and it takes the place
      they leave. */
  method MoveForward(a: array<Recommendation>, i: nat)
    requires i < a.Length
    modifies a
    ensures a[..i + 1] == Insert(old(a[..i]), old(a[i]))
    ensures a[i + 1..] == old(a[i + 1..])
  {
    ghost var sorted := a[..i];
    var x := a[i];
    var j := OpenSlot(a, i, x, sorted);
    a[j] := x;
    InsertAt(sorted, x, j);
    Placed(a[..], sorted, x, i, j);
  }

  /** Shifts the entries of the prefix `sorted` (held in `a[..i]`) that
      score strictly less than `x`, at its back, one place towards the back,
      overwriting `a[i]`, and returns the index of the place they left. */
  method OpenSlot(a: array<Recommendation>, i: nat, x: Recommendation, ghost sorted: seq<Recommendation>)
    returns (j: nat)
    requires i < a.Length && |sorted| == i
    requires forall k :: 0 <= k < i ==> a[k] == sorted[k]
    modifies a
    ensures j <= i
    ensures forall k :: 0 <= k < j ==> a[k] == sorted[k]
    ensures forall k :: j < k <= i ==> a[k] == sorted[k - 1]
    ensures forall k :: i < k < a.Length ==> a[k] == old(a[k])
    ensures j == 0 || sorted[j - 1].score >= x.score
    ensures forall k :: j <= k < i ==> sorted[k].score < x.score
  {
    j := i;
    while j > 0 && a[j - 1].score < x.score
      invariant 0 <= j <= i
      invariant forall k :: 0 <= k < j ==> a[k] == sorted[k]
      invariant forall k :: j < k <= i ==> a[k] == sorted[k - 1]
      invariant forall k :: i < k < a.Length ==> a[k] == old(a[k])
      invariant forall k :: j <= k < i ==> sorted[k].score < x.score
    {
      a[j] := a[j - 1];
      j := j - 1;
    }
  }

  /** Inserting `x` into a sequence whose entries from `j` on score less
      than `x`, and whose entry before `j` scores at least as much, places
      `x` at index `j`. */
  lemma {:induction false} InsertAt(sorted: seq<Recommendation>, x: Recommendation, j: nat)
    requires j <= |sorted|
    requires j == 0 || sorted[j - 1].score >= x.score
    requires forall k :: j <= k < |sorted| ==> sorted[k].score < x.score
    ensures Insert(sorted, x) == sorted[..j] + [x] + sorted[j..]
  {
    if j < |sorted| {
      var n := |sorted| - 1;
      var prefix := sorted[..n];
      assert forall k :: j <= k < |prefix| ==> prefix[k] == sorted[k];
      InsertAt(prefix, x, j);
      assert prefix[..j] == sorted[..j];
      assert prefix[j..] + [sorted[n]] == sorted[j..];
    }
  }

  lemma Placed(s: seq<Recommendation>, sorted: seq<Recommendation>, x: Recommendation, i: nat, j: nat)
    requires j <= i == |sorted| < |s| && s[j] == x
    requires forall k :: 0 <= k < j ==> s[k] == sorted[k]
    requires forall k :: j < k <= i ==> s[k] == sorted[k - 1]
    ensures s[..i + 1] == sorted[..j] + [x] + sorted[j..]
  {
  }
}
