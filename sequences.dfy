/** Sequence helpers behind the context builder: `Math.min`/`Math.max` over
    a spread array, de-duplication in first-seen order (what spreading a
    JavaScript `Set` yields, since a `Set` iterates in insertion order), and
    the value-to-position maps built with `Object.fromEntries`. */
module Sequences {
  // `{:induction false}` switches off Dafny's automatic induction: the
  // lemmas that carry it state their inductive steps, if any, themselves.
  /** `Math.min(...s)` for a non-empty `s`. */
  function Min(s: seq<real>): (m: real)
    requires |s| > 0
    ensures m in s
    ensures forall x :: x in s ==> m <= x
  {
    if |s| == 1 then s[0]
    else
      var rest := Min(s[1..]);
      assert s == [s[0]] + s[1..];
      if s[0] <= rest then s[0] else rest
  }

  /** `Math.max(...s)` for a non-empty `s`. */
  function Max(s: seq<real>): (m: real)
    requires |s| > 0
    ensures m in s
    ensures forall x :: x in s ==> x <= m
  {
    if |s| == 1 then s[0]
    else
      var rest := Max(s[1..]);
      assert s == [s[0]] + s[1..];
      if s[0] >= rest then s[0] else rest
  }

  ghost predicate NoDuplicates<T>(s: seq<T>)
  {
    forall i, j :: 0 <= i < j < |s| ==> s[i] != s[j]
  }

  /** The position at which `x` first occurs in `s`. */
  function FirstIndex(s: seq<string>, x: string): (i: nat)
    requires x in s
    ensures i < |s| && s[i] == x
    ensures forall k :: 0 <= k < i ==> s[k] != x
  {
    if s[0] == x then 0 else 1 + FirstIndex(s[1..], x)
  }

  /** The distinct values of `s`, each kept where it is first seen. */
  function Distinct(s: seq<string>): (d: seq<string>)
    ensures forall x :: x in d <==> x in s
    ensures NoDuplicates(d)
  {
    if s == [] then []
    else
      var d := Distinct(s[..|s| - 1]);
      if s[|s| - 1] in d then d else d + [s[|s| - 1]]
  }

  /** Maps every value of `d` to its position in `d`, as
      `Object.fromEntries(d.map((x, i) => [x, i]))` does. */
  function IndexMap(d: seq<string>): (m: map<string, nat>)
    requires NoDuplicates(d)
    ensures forall x :: x in m <==> x in d
    ensures forall x :: x in m ==> m[x] < |d| && d[m[x]] == x
    ensures forall i :: 0 <= i < |d| ==> d[i] in m && m[d[i]] == i
  {
    map x | x in d :: FirstIndex(d, x)
  }

  /** Appending a value does not move the first occurrence of a value
      already present. */
  lemma {:induction false} FirstIndexOfPrefix(p: seq<string>, y: string, x: string)
    requires x in p
    ensures x in p + [y] && FirstIndex(p + [y], x) == FirstIndex(p, x)
  {
    var i, i' := FirstIndex(p, x), FirstIndex(p + [y], x);
    assert (p + [y])[i] == x;
    assert i' <= i;
    assert p[i'] == x;
  }

  /** `Distinct` lists values in the order of their first occurrence in the
      input: an earlier position in the result means an earlier first
      occurrence. */
  lemma {:induction false} DistinctKeepsFirstSeenOrder(s: seq<string>, i: nat, j: nat)
    requires i < j < |Distinct(s)|
    ensures Distinct(s)[i] in s && Distinct(s)[j] in s
    ensures FirstIndex(s, Distinct(s)[i]) < FirstIndex(s, Distinct(s)[j])
  {
    var n := |s|;
    var p, last := s[..n - 1], s[n - 1];
    assert s == p + [last];
    var d := Distinct(p);
    var x, y := Distinct(s)[i], Distinct(s)[j];
    if j < |d| {
      assert x == d[i] && y == d[j];
      DistinctKeepsFirstSeenOrder(p, i, j);
      FirstIndexOfPrefix(p, last, x);
      FirstIndexOfPrefix(p, last, y);
    } else {
      assert last !in d && x == d[i] && y == last;
      assert last !in p;
      FirstIndexOfPrefix(p, last, x);
      assert FirstIndex(s, y) == n - 1;
    }
  }

  /** Positions assigned by `IndexMap(Distinct(s))` follow first-seen order,
      in both directions. */
  lemma {:induction false} IndexFollowsFirstSeen(s: seq<string>, x: string, y: string)
    requires x in s && y in s
    ensures x in IndexMap(Distinct(s)) && y in IndexMap(Distinct(s))
    ensures IndexMap(Distinct(s))[x] < IndexMap(Distinct(s))[y]
        <==> FirstIndex(s, x) < FirstIndex(s, y)
  {
    var d := Distinct(s);
    var m := IndexMap(d);
    var i, j := m[x], m[y];
    if i < j {
      DistinctKeepsFirstSeenOrder(s, i, j);
    } else if j < i {
      DistinctKeepsFirstSeenOrder(s, j, i);
    }
  }
}
