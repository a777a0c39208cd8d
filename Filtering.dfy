/** `Array.prototype.filter` with a pure callback, and what it keeps: the elements the callback
    accepts, in their original order. */
module Filtering {

  /** `s.filter(p)` once the callback has seen the first `n` elements. */
  function FilterUpTo<T>(s: seq<T>, p: T -> bool, n: nat): (r: seq<T>)
    requires n <= |s|
    ensures |r| <= n
  {
    if n == 0 then [] else FilterUpTo(s, p, n - 1) + (if p(s[n - 1]) then [s[n - 1]] else [])
  }

  function Filter<T>(s: seq<T>, p: T -> bool): (r: seq<T>)
    ensures |r| <= |s|
  {
    FilterUpTo(s, p, |s|)
  }

  /** The positions, among the first `n`, of the elements the callback accepts. */
  function KeptUpTo<T>(s: seq<T>, p: T -> bool, n: nat): seq<nat>
    requires n <= |s|
  {
    if n == 0 then [] else KeptUpTo(s, p, n - 1) + (if p(s[n - 1]) then [n - 1] else [])
  }

  function Kept<T>(s: seq<T>, p: T -> bool): seq<nat> {
    KeptUpTo(s, p, |s|)
  }

  predicate Increasing(ix: seq<nat>) {
    forall a, b :: 0 <= a < b < |ix| ==> ix[a] < ix[b]
  }

  lemma {:induction false} KeptUpToMeaning<T>(s: seq<T>, p: T -> bool, n: nat)
    requires n <= |s|
    ensures var ix, r := KeptUpTo(s, p, n), FilterUpTo(s, p, n);
      && |r| == |ix| <= n
      && Increasing(ix)
      && (forall j :: 0 <= j < |ix| ==> ix[j] < n && r[j] == s[ix[j]])
      && (forall i :: 0 <= i < n ==> (p(s[i]) <==> i in ix))
  {
    if n > 0 {
      KeptUpToMeaning(s, p, n - 1);
      var ix := KeptUpTo(s, p, n - 1);
      if p(s[n - 1]) {
        assert KeptUpTo(s, p, n) == ix + [n - 1];
        assert FilterUpTo(s, p, n) == FilterUpTo(s, p, n - 1) + [s[n - 1]];
      } else {
        assert KeptUpTo(s, p, n) == ix;
        assert FilterUpTo(s, p, n) == FilterUpTo(s, p, n - 1);
      }
    }
  }

  /** The filtered sequence is the subsequence of `s` at the increasing positions `Kept(s, p)`,
      and a position is kept exactly when the callback accepts its element. */
  lemma FilterMeaning<T>(s: seq<T>, p: T -> bool)
    ensures var ix, r := Kept(s, p), Filter(s, p);
      && |r| == |ix| <= |s|
      && Increasing(ix)
      && (forall j :: 0 <= j < |ix| ==> ix[j] < |s| && r[j] == s[ix[j]])
      && (forall i :: 0 <= i < |s| ==> (p(s[i]) <==> i in ix))
  {
    KeptUpToMeaning(s, p, |s|);
  }

  lemma {:induction false} FilterUpToCongruent<T>(s: seq<T>, p: T -> bool, q: T -> bool, n: nat)
    requires n <= |s|
    requires forall i :: 0 <= i < |s| ==> p(s[i]) == q(s[i])
    ensures FilterUpTo(s, p, n) == FilterUpTo(s, q, n)
  {
    if n > 0 {
      FilterUpToCongruent(s, p, q, n - 1);
    }
  }

  /** Two callbacks that agree on every element filter alike. */
  lemma FilterCongruent<T>(s: seq<T>, p: T -> bool, q: T -> bool)
    requires forall i :: 0 <= i < |s| ==> p(s[i]) == q(s[i])
    ensures Filter(s, p) == Filter(s, q)
  {
    FilterUpToCongruent(s, p, q, |s|);
  }
}
