/** Aggregation of one probe round (daemon/internal/probe/probe.go). Durations are nanoseconds. */
module Probe {

  datatype ErrType = ErrNone | ErrTimeout | ErrRST | ErrTLSHandshake | ErrHTTPReject | ErrDNS | ErrOther

  datatype Result = Result(success: bool, rtt: nat, errType: ErrType)

  datatype AggResult = AggResult(success: bool, avgRTT: nat, packetLoss: real, dominantErrType: ErrType)

  /** Successes among the first n results. */
  function Successes(rs: seq<Result>, n: nat): (k: nat)
    requires n <= |rs|
    ensures k <= n
  {
    if n == 0 then 0 else Successes(rs, n - 1) + (if rs[n - 1].success then 1 else 0)
  }

  function TotalRTT(rs: seq<Result>, n: nat): nat
    requires n <= |rs|
  {
    if n == 0 then 0 else TotalRTT(rs, n - 1) + (if rs[n - 1].success then rs[n - 1].rtt else 0)
  }

  /** Failures of kind e among the first n results. */
  function ErrCount(rs: seq<Result>, n: nat, e: ErrType): nat
    requires n <= |rs|
  {
    if n == 0 then 0 else
      ErrCount(rs, n - 1, e) + (if !rs[n - 1].success && rs[n - 1].errType == e then 1 else 0)
  }

  ghost predicate FastestUpTo(rs: seq<Result>, n: nat, i: nat) {
    i < n <= |rs| && rs[i].success && forall k :: 0 <= k < n && rs[k].success ==> rs[i].rtt <= rs[k].rtt
  }

  ghost predicate SlowestUpTo(rs: seq<Result>, n: nat, j: nat) {
    j < n <= |rs| && rs[j].success && forall k :: 0 <= k < n && rs[k].success ==> rs[k].rtt <= rs[j].rtt
  }

  /** The total lies between the fastest and the slowest success, each times the number of successes. */
  lemma {:induction false} TotalBetween(rs: seq<Result>, n: nat) returns (i: nat, j: nat)
    requires n <= |rs| && Successes(rs, n) > 0
    ensures FastestUpTo(rs, n, i) && SlowestUpTo(rs, n, j)
    ensures rs[i].rtt * Successes(rs, n) <= TotalRTT(rs, n) <= rs[j].rtt * Successes(rs, n)
  {
    var m := Successes(rs, n - 1);
    if m == 0 {
      NoneBefore(rs, n - 1);
      i, j := n - 1, n - 1;
    } else {
      i, j := TotalBetween(rs, n - 1);
      if rs[n - 1].success {
        var x := rs[n - 1].rtt;
        MulMono(x, rs[i].rtt, m);
        MulMono(rs[j].rtt, x, m);
        i := if x < rs[i].rtt then n - 1 else i;
        j := if x > rs[j].rtt then n - 1 else j;
        MulSucc(rs[i].rtt, m);
        MulSucc(rs[j].rtt, m);
      }
    }
  }

  lemma MulMono(a: int, b: int, m: nat)
    ensures a <= b ==> a * m <= b * m
  {
  }

  lemma MulSucc(a: int, m: int)
    ensures a * (m + 1) == a * m + a
  {
  }

  lemma {:induction false} NoneBefore(rs: seq<Result>, n: nat)
    requires n <= |rs| && Successes(rs, n) == 0
    ensures TotalRTT(rs, n) == 0
    ensures forall k :: 0 <= k < n ==> !rs[k].success
  {
    if n > 0 {
      NoneBefore(rs, n - 1);
    }
  }

  lemma {:induction false} SomeErr(rs: seq<Result>, n: nat) returns (e: ErrType)
    requires n <= |rs| && Successes(rs, n) < n
    ensures ErrCount(rs, n, e) > 0
  {
    if rs[n - 1].success {
      e := SomeErr(rs, n - 1);
    } else {
      e := rs[n - 1].errType;
    }
  }

  lemma DivideBetween(lo: nat, hi: nat, n: nat, total: nat)
    requires n > 0 && lo * n <= total <= hi * n
    ensures lo <= total / n <= hi
  {
    var q := total / n;
    MulSucc(n, q);
    MulMono(q + 1, lo, n);
    MulMono(hi + 1, q, n);
    MulSucc(n, hi);
  }

  /** The average over all successes lies between two of them. */
  ghost predicate AverageBetween(rs: seq<Result>, avg: nat) {
    exists i: nat, j: nat ::
      FastestUpTo(rs, |rs|, i) && SlowestUpTo(rs, |rs|, j) && rs[i].rtt <= avg <= rs[j].rtt
  }

  lemma AverageIsBetween(rs: seq<Result>)
    requires Successes(rs, |rs|) > 0
    ensures AverageBetween(rs, TotalRTT(rs, |rs|) / Successes(rs, |rs|))
  {
    var i, j := TotalBetween(rs, |rs|);
    DivideBetween(rs[i].rtt, rs[j].rtt, Successes(rs, |rs|), TotalRTT(rs, |rs|));
  }

  /** A most frequent error, whichever way the map is walked; `ErrOther` for no error at all. */
  method DominantError(errCounts: map<ErrType, nat>) returns (dominant: ErrType)
    requires forall e :: e in errCounts ==> errCounts[e] > 0
    ensures errCounts == map[] ==> dominant == ErrOther
    ensures errCounts != map[] ==>
      dominant in errCounts && forall e :: e in errCounts ==> errCounts[e] <= errCounts[dominant]
  {
    var maxCount: nat := 0;
    dominant := ErrOther;
    var rest := errCounts.Keys;
    while rest != {}
      invariant rest <= errCounts.Keys
      invariant forall e :: e in errCounts && e !in rest ==> errCounts[e] <= maxCount
      invariant maxCount == 0 ==> rest == errCounts.Keys && dominant == ErrOther
      invariant maxCount > 0 ==> dominant in errCounts && errCounts[dominant] == maxCount
    {
      var et :| et in rest;
      rest := rest - {et};
      if errCounts[et] > maxCount {
        maxCount, dominant := errCounts[et], et;
      }
    }
  }

  method Tally(results: seq<Result>) returns (success: nat, totalRTT: nat, errCounts: map<ErrType, nat>)
    ensures success == Successes(results, |results|)
    ensures totalRTT == TotalRTT(results, |results|)
    ensures forall e :: ErrCount(results, |results|, e) == if e in errCounts then errCounts[e] else 0
    ensures forall e :: e in errCounts ==> errCounts[e] > 0
  {
    success, totalRTT, errCounts := 0, 0, map[];
    for n := 0 to |results|
      invariant success == Successes(results, n)
      invariant totalRTT == TotalRTT(results, n)
      invariant forall e :: ErrCount(results, n, e) == if e in errCounts then errCounts[e] else 0
      invariant forall e :: e in errCounts ==> errCounts[e] > 0
    {
      var r := results[n];
      if r.success {
        success := success + 1;
        totalRTT := totalRTT + r.rtt;
      } else {
        errCounts := errCounts[r.errType := (if r.errType in errCounts then errCounts[r.errType] else 0) + 1];
      }
    }
  }

  function Share(part: nat, whole: nat): real
    requires whole > 0
  {
    part as real / whole as real
  }

  /**
  Loss is the fraction of failures, a round succeeds exactly when loss is below one half, the
  average lies between the fastest and the slowest success, and the dominant error has a maximal
  count, in whatever order the error map is walked.
  */
  method Aggregate(results: seq<Result>) returns (agg: AggResult)
    ensures results == [] ==> agg == AggResult(false, 0, 1.0, ErrNone)
    ensures results != [] ==> agg.packetLoss == Share(|results| - Successes(results, |results|), |results|)
    ensures 0.0 <= agg.packetLoss <= 1.0
    ensures agg.success <==> agg.packetLoss < 0.5
    ensures agg.success <==> 2 * Successes(results, |results|) > |results|
    ensures Successes(results, |results|) == 0 ==> agg.avgRTT == 0
    ensures Successes(results, |results|) > 0 ==> AverageBetween(results, agg.avgRTT)
    ensures Successes(results, |results|) == |results| ==> agg.dominantErrType == ErrNone
    ensures Successes(results, |results|) < |results| ==>
      && ErrCount(results, |results|, agg.dominantErrType) > 0
      && forall e :: ErrCount(results, |results|, e) <= ErrCount(results, |results|, agg.dominantErrType)
  {
    if |results| == 0 {
      return AggResult(false, 0, 1.0, ErrNone);
    }
    var success, totalRTT, errCounts := Tally(results);
    var loss, ok := Ratios(success, |results|);
    var avgRTT := AverageRTT(results, success, totalRTT);
    var dominant := Dominant(results, success, errCounts);
    agg := AggResult(ok, avgRTT, loss, dominant);
  }

  method AverageRTT(results: seq<Result>, success: nat, totalRTT: nat) returns (avg: nat)
    requires success == Successes(results, |results|) && totalRTT == TotalRTT(results, |results|)
    ensures success == 0 ==> avg == 0
    ensures success > 0 ==> AverageBetween(results, avg)
  {
    avg := 0;
    if success > 0 {
      AverageIsBetween(results);
      avg := totalRTT / success;
    }
  }

  method Dominant(results: seq<Result>, success: nat, errCounts: map<ErrType, nat>) returns (dominant: ErrType)
    requires success == Successes(results, |results|)
    requires forall e :: ErrCount(results, |results|, e) == if e in errCounts then errCounts[e] else 0
    requires forall e :: e in errCounts ==> errCounts[e] > 0
    ensures success == |results| ==> dominant == ErrNone
    ensures success < |results| ==>
      && ErrCount(results, |results|, dominant) > 0
      && forall e :: ErrCount(results, |results|, e) <= ErrCount(results, |results|, dominant)
  {
    dominant := DominantError(errCounts);
    if success == |results| {
      dominant := ErrNone;
    } else {
      ghost var e := SomeErr(results, |results|);
      assert e in errCounts;
    }
  }

  lemma Halves(k: nat, n: nat)
    requires k <= n && n > 0
    ensures var loss := (n - k) as real / n as real;
      0.0 <= loss <= 1.0 && loss * n as real == (n - k) as real
      && (k as real / n as real > 0.5 <==> loss < 0.5)
  {
    var x, loss := k as real / n as real, (n - k) as real / n as real;
    assert x * n as real == k as real;
    assert loss * n as real == (n - k) as real;
    Cancel(x + loss, n as real);
    DivNonNegative(k as real, n as real);
    DivNonNegative((n - k) as real, n as real);
  }

  lemma Majority(k: nat, n: nat)
    requires n > 0
    ensures k as real / n as real > 0.5 <==> 2 * k > n
  {
    HalfOf(k as real / n as real, n as real, k as real);
    Doubled(k, n);
  }

  lemma Doubled(k: int, n: int)
    ensures 2.0 * (k as real) > n as real <==> 2 * k > n
  {
    assert 2.0 * (k as real) == (2 * k) as real;
  }

  /** The arithmetic of a round with at least one result. */
  method Ratios(success: nat, len: nat) returns (loss: real, ok: bool)
    requires success <= len && len > 0
    ensures 0.0 <= loss <= 1.0 && loss == Share(len - success, len)
    ensures ok <==> loss < 0.5
    ensures ok <==> 2 * success > len
  {
    loss := (len - success) as real / len as real;
    ok := success as real / len as real > 0.5;
    Halves(success, len);
    Majority(success, len);
  }

  lemma HalfOf(x: real, n: real, p: real)
    requires n > 0.0 && p == x * n
    ensures x > 0.5 <==> 2.0 * p > n
  {
    var d := x - 0.5;
    assert 2.0 * p == n + 2.0 * (d * n);
    if d > 0.0 {
      assert d * n > 0.0;
    } else {
      assert d * n <= 0.0;
    }
  }

  lemma DivNonNegative(x: real, n: real)
    requires x >= 0.0 && n > 0.0
    ensures x / n >= 0.0
  {
  }

  lemma Cancel(x: real, n: real)
    requires n > 0.0
    ensures x * n == n ==> x == 1.0
  {
  }
}
