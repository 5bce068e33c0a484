/** Stable bucket partition of a sequence by a rank. */
module Partition {

  /** The first n parts, one after the other. */
  function Joined<T>(part: nat -> seq<T>, n: nat): seq<T> {
    if n == 0 then [] else Joined(part, n - 1) + part(n - 1)
  }

  /** The elements of one rank, in their original order. */
  function Bucket<T>(s: seq<T>, rank: T -> nat, r: nat): seq<T> {
    if s == [] then [] else
      var v := s[|s| - 1];
      Bucket(s[..|s| - 1], rank, r) + (if rank(v) == r then [v] else [])
  }

  function BucketOf<T>(s: seq<T>, rank: T -> nat): nat -> seq<T> {
    (r: nat) => Bucket(s, rank, r)
  }

  /** The first n buckets. */
  function Buckets<T>(s: seq<T>, rank: T -> nat, n: nat): seq<T> {
    Joined(BucketOf(s, rank), n)
  }

  // ---- Members ----

  lemma InSnoc<T>(s: seq<T>, v: T)
    requires s != []
    ensures v in s <==> v in s[..|s| - 1] || v == s[|s| - 1]
  {
  }

  lemma InConcat<T>(a: seq<T>, b: seq<T>, v: T)
    ensures v in a + b <==> v in a || v in b
  {
  }

  lemma {:induction false} BucketMembers<T>(s: seq<T>, rank: T -> nat, r: nat, v: T)
    ensures v in Bucket(s, rank, r) <==> v in s && rank(v) == r
  {
    if s != [] {
      BucketMembers(s[..|s| - 1], rank, r, v);
      InSnoc(s, v);
    }
  }

  lemma {:induction false} JoinedMembers<T>(part: nat -> seq<T>, n: nat, v: T, there: bool, k: nat)
    requires forall r: nat :: v in part(r) <==> there && k == r
    ensures v in Joined(part, n) <==> there && k < n
  {
    if n > 0 {
      JoinedMembers(part, n - 1, v, there, k);
      InConcat(Joined(part, n - 1), part(n - 1), v);
    }
  }

  lemma BucketsMembers<T>(s: seq<T>, rank: T -> nat, n: nat, v: T)
    ensures v in Buckets(s, rank, n) <==> v in s && rank(v) < n
  {
    forall r: nat
      ensures v in BucketOf(s, rank)(r) <==> v in s && rank(v) == r
    {
      BucketMembers(s, rank, r, v);
    }
    JoinedMembers(BucketOf(s, rank), n, v, v in s, rank(v));
  }

  lemma BucketSnoc<T>(s: seq<T>, v: T, rank: T -> nat, r: nat)
    ensures Bucket(s + [v], rank, r) == if rank(v) == r then Bucket(s, rank, r) + [v] else Bucket(s, rank, r)
  {
  }

  // ---- Leaving elements out ----

  /** The elements that are not dropped, in their original order. */
  function Without<T>(s: seq<T>, drop: T -> bool): seq<T> {
    if s == [] then [] else
      var v := s[|s| - 1];
      Without(s[..|s| - 1], drop) + (if drop(v) then [] else [v])
  }

  lemma {:induction false} WithoutMembers<T>(s: seq<T>, drop: T -> bool, v: T)
    ensures v in Without(s, drop) <==> v in s && !drop(v)
  {
    if s != [] {
      WithoutMembers(s[..|s| - 1], drop, v);
      InSnoc(s, v);
    }
  }

  lemma {:induction false} WithoutConcat<T>(a: seq<T>, b: seq<T>, drop: T -> bool)
    ensures Without(a + b, drop) == Without(a, drop) + Without(b, drop)
  {
    if b == [] {
      assert a + b == a;
    } else {
      var n := |b| - 1;
      WithoutConcat(a, b[..n], drop);
      assert (a + b)[..|a| + n] == a + b[..n];
    }
  }

  lemma {:induction false} WithoutSame<T>(s: seq<T>, f: T -> bool, g: T -> bool)
    requires forall v :: v in s ==> f(v) == g(v)
    ensures Without(s, f) == Without(s, g)
  {
    if s != [] {
      WithoutSame(s[..|s| - 1], f, g);
    }
  }

  lemma {:induction false} WithoutNone<T>(s: seq<T>, drop: T -> bool)
    requires forall v :: v in s ==> !drop(v)
    ensures Without(s, drop) == s
  {
    if s != [] {
      var n := |s| - 1;
      assert s == s[..n] + [s[n]] && s[n] in s;
      WithoutNone(s[..n], drop);
    }
  }

  // ---- A permutation ----

  lemma MoreInFront<T>(a: seq<T>, b: seq<T>, a': seq<T>, v: T)
    requires multiset(a') == multiset(a) + multiset{v}
    ensures multiset(a' + b) == multiset(a + b) + multiset{v}
  {
  }

  lemma MoreBehind<T>(a: seq<T>, b: seq<T>, a': seq<T>, v: T)
    requires multiset(a') == multiset(a)
    ensures multiset(a' + (b + [v])) == multiset(a + b) + multiset{v} && multiset(a' + b) == multiset(a + b)
  {
  }

  /** One element more in one of the parts. */
  lemma {:induction false} JoinedGrows<T>(part: nat -> seq<T>, grown: nat -> seq<T>, n: nat, k: nat, v: T)
    requires forall r: nat :: grown(r) == if r == k then part(r) + [v] else part(r)
    ensures multiset(Joined(grown, n))
         == if k < n then multiset(Joined(part, n)) + multiset{v} else multiset(Joined(part, n))
  {
    if n > 0 {
      JoinedGrows(part, grown, n - 1, k, v);
      var a, b, a' := Joined(part, n - 1), part(n - 1), Joined(grown, n - 1);
      if k < n - 1 {
        MoreInFront(a, b, a', v);
      } else {
        MoreBehind(a, b, a', v);
      }
    }
  }

  lemma {:induction false} IsPermutation<T>(s: seq<T>, rank: T -> nat, n: nat)
    requires forall v :: v in s ==> rank(v) < n
    ensures multiset(Buckets(s, rank, n)) == multiset(s)
  {
    if s == [] {
      NothingJoined(BucketOf(s, rank), n);
    } else {
      var front, v := s[..|s| - 1], s[|s| - 1];
      assert s == front + [v] && v in s && forall w :: w in front ==> w in s;
      IsPermutation(front, rank, n);
      forall r: nat
        ensures BucketOf(s, rank)(r)
             == if r == rank(v) then BucketOf(front, rank)(r) + [v] else BucketOf(front, rank)(r)
      {
        BucketSnoc(front, v, rank, r);
      }
      JoinedGrows(BucketOf(front, rank), BucketOf(s, rank), n, rank(v), v);
    }
  }

  lemma {:induction false} NothingJoined<T>(part: nat -> seq<T>, n: nat)
    requires forall r: nat :: part(r) == []
    ensures Joined(part, n) == []
  {
    if n > 0 {
      NothingJoined(part, n - 1);
    }
  }

  // ---- Order ----

  /** v comes before w: by rank and, within one rank, by position in the input. */
  ghost predicate InOrder<T>(s: seq<T>, rank: T -> nat, v: T, w: T) {
    exists i, j :: 0 <= i < |s| && 0 <= j < |s| && s[i] == v && s[j] == w
      && (rank(v) < rank(w) || (rank(v) == rank(w) && i < j))
  }

  lemma {:induction false} BucketInOrder<T>(s: seq<T>, k: nat, rank: T -> nat, r: nat, a: nat, b: nat)
    requires k <= |s| && a < b < |Bucket(s[..k], rank, r)|
    ensures InOrder(s, rank, Bucket(s[..k], rank, r)[a], Bucket(s[..k], rank, r)[b])
  {
    if k > 0 {
      assert s[..k][..k - 1] == s[..k - 1];
      var front := Bucket(s[..k - 1], rank, r);
      if b < |front| {
        BucketInOrder(s, k - 1, rank, r, a, b);
      } else {
        assert front[a] in front;
        BucketMembers(s[..k - 1], rank, r, front[a]);
        var i :| 0 <= i < k - 1 && s[i] == front[a];
        assert s[k - 1] == Bucket(s[..k], rank, r)[b];
      }
    }
  }

  /** Where an element of the joined parts comes from. */
  lemma {:induction false} Where<T>(part: nat -> seq<T>, n: nat, a: nat, b: nat)
    returns (ra: nat, ia: nat, rb: nat, ib: nat)
    requires a < b < |Joined(part, n)|
    ensures ia < |part(ra)| && Joined(part, n)[a] == part(ra)[ia] && ra < n
    ensures ib < |part(rb)| && Joined(part, n)[b] == part(rb)[ib] && rb < n
    ensures ra < rb || (ra == rb && ia < ib)
  {
    var front := Joined(part, n - 1);
    if b < |front| {
      ra, ia, rb, ib := Where(part, n - 1, a, b);
    } else {
      rb, ib := n - 1, b - |front|;
      if a < |front| {
        ra, ia := WhereOne(part, n - 1, a);
      } else {
        ra, ia := n - 1, a - |front|;
      }
    }
  }

  lemma {:induction false} WhereOne<T>(part: nat -> seq<T>, n: nat, a: nat) returns (r: nat, i: nat)
    requires a < |Joined(part, n)|
    ensures i < |part(r)| && Joined(part, n)[a] == part(r)[i] && r < n
  {
    var front := Joined(part, n - 1);
    if a < |front| {
      r, i := WhereOne(part, n - 1, a);
    } else {
      r, i := n - 1, a - |front|;
    }
  }

  lemma AcrossBuckets<T>(s: seq<T>, rank: T -> nat, r: nat, q: nat, v: T, w: T)
    requires r < q && v in Bucket(s, rank, r) && w in Bucket(s, rank, q)
    ensures InOrder(s, rank, v, w)
  {
    BucketMembers(s, rank, r, v);
    BucketMembers(s, rank, q, w);
    var i :| 0 <= i < |s| && s[i] == v;
    var j :| 0 <= j < |s| && s[j] == w;
  }

  lemma BucketsInOrder<T>(s: seq<T>, rank: T -> nat, n: nat, a: nat, b: nat)
    requires a < b < |Buckets(s, rank, n)|
    ensures InOrder(s, rank, Buckets(s, rank, n)[a], Buckets(s, rank, n)[b])
  {
    var ra, ia, rb, ib := Where(BucketOf(s, rank), n, a, b);
    if ra < rb {
      AcrossBuckets(s, rank, ra, rb, Bucket(s, rank, ra)[ia], Bucket(s, rank, rb)[ib]);
    } else {
      assert s[..|s|] == s;
      BucketInOrder(s, |s|, rank, ra, ia, ib);
    }
  }

  /** All buckets together are a permutation of the input, ordered by rank and then by position in the input. */
  lemma StablePartition<T>(s: seq<T>, rank: T -> nat, n: nat)
    requires forall v :: v in s ==> rank(v) < n
    ensures multiset(Buckets(s, rank, n)) == multiset(s)
    ensures var p := Buckets(s, rank, n);
      forall a, b :: 0 <= a < b < |p| ==> InOrder(s, rank, p[a], p[b])
  {
    IsPermutation(s, rank, n);
    var p := Buckets(s, rank, n);
    forall a, b | 0 <= a < b < |p|
      ensures InOrder(s, rank, p[a], p[b])
    {
      BucketsInOrder(s, rank, n, a, b);
    }
  }
}
