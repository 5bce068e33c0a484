/** Go's `sort.Slice` with a "greater score first" comparison. It is not stable, so ties come out in any order. */
module Sorting {

  ghost predicate Descending<T>(s: seq<T>, score: T -> real) {
    forall i, j :: 0 <= i < j < |s| ==> score(s[i]) >= score(s[j])
  }

  predicate Best<T>(s: seq<T>, score: T -> real, n: nat, i: nat) {
    i < n <= |s| && forall j :: 0 <= j < n ==> score(s[i]) >= score(s[j])
  }

  lemma {:induction false} BestExists<T>(s: seq<T>, score: T -> real, n: nat) returns (i: nat)
    requires 0 < n <= |s|
    ensures Best(s, score, n, i)
  {
    if n == 1 {
      i := 0;
    } else {
      i := BestExists(s, score, n - 1);
      i := if score(s[n - 1]) > score(s[i]) then n - 1 else i;
    }
  }

  predicate AllBelow<T>(s: seq<T>, score: T -> real, top: real) {
    forall j :: 0 <= j < |s| ==> top >= score(s[j])
  }

  function RemoveAt<T>(s: seq<T>, i: nat): (r: seq<T>)
    requires i < |s|
    ensures |r| == |s| - 1
    ensures forall j :: 0 <= j < |r| ==> r[j] == if j < i then s[j] else s[j + 1]
    ensures multiset(r) == multiset(s) - multiset{s[i]}
  {
    assert s == s[..i] + [s[i]] + s[i + 1..];
    s[..i] + s[i + 1..]
  }

  lemma TakeBest<T>(out: seq<T>, rest: seq<T>, score: T -> real, i: nat)
    requires Best(rest, score, |rest|, i) && Descending(out, score)
    requires forall k :: 0 <= k < |out| ==> AllBelow(rest, score, score(out[k]))
    ensures Descending(out + [rest[i]], score)
    ensures forall k :: 0 <= k <= |out| ==> AllBelow(RemoveAt(rest, i), score, score((out + [rest[i]])[k]))
  {
  }

  /** A permutation in descending order; any best remaining item may come next. */
  method SortDescending<T(==)>(items: seq<T>, score: T -> real) returns (out: seq<T>)
    ensures multiset(out) == multiset(items) && Descending(out, score)
  {
    out := [];
    var rest := items;
    while rest != []
      invariant multiset(out) + multiset(rest) == multiset(items)
      invariant Descending(out, score)
      invariant forall i :: 0 <= i < |out| ==> AllBelow(rest, score, score(out[i]))
      decreases |rest|
    {
      ghost var w := BestExists(rest, score, |rest|);
      var i: nat :| i < |rest| && Best(rest, score, |rest|, i);
      TakeBest(out, rest, score, i);
      out, rest := out + [rest[i]], RemoveAt(rest, i);
    }
  }
}
