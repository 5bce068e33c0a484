/**
The scoring database (daemon/internal/scoring/scoring.go), with reals for floats and
exp(-n/6) as q^n for an arbitrary 0 < q < 1.
*/
module Scoring {
  import opened Options
  import opened Config
  import Probe
  import Sorting
  import Store

  const ALPHA := 0.3

  datatype Session = Session(configID: string, startedAt: int, success: bool)

  datatype Entry = Entry(configID: string, ewmaRTT: real, ewmaLoss: real, sessionSuccess: real,
                         lastUsed: Option<int>, sessions: nat, dpiBypassSuccess: real, lastBlockType: string)

  function NewEntry(id: string): Entry {
    Entry(id, 0.0, 0.0, 0.5, None, 0, 0.0, "")
  }

  // ---- Updates of one entry ----

  function Smooth(sample: real, old_: real): real {
    ALPHA * sample + (1.0 - ALPHA) * old_
  }

  /** The round-trip sample in whole milliseconds; zero counts as five seconds. */
  function SampleRTT(avgRTT: nat): (ms: real)
    ensures ms >= 1.0
  {
    var ms := avgRTT / 1_000_000;
    if ms <= 0 then 5000.0 else ms as real
  }

  function ProbeUpdate(e: Entry, res: Probe.AggResult): Entry {
    var ms := SampleRTT(res.avgRTT);
    if e.ewmaRTT == 0.0 then
      e.(ewmaRTT := ms, ewmaLoss := res.packetLoss)
    else
      e.(ewmaRTT := Smooth(ms, e.ewmaRTT), ewmaLoss := Smooth(res.packetLoss, e.ewmaLoss))
  }

  function Outcome(success: bool): real {
    if success then 1.0 else 0.0
  }

  function SessionUpdate(e: Entry, success: bool, at: int): Entry {
    e.(sessionSuccess := Smooth(Outcome(success), e.sessionSuccess), sessions := e.sessions + 1,
       lastUsed := Some(at))
  }

  function DPIUpdate(e: Entry, blockType: string, success: bool): Entry {
    e.(lastBlockType := blockType, dpiBypassSuccess := Smooth(Outcome(success), e.dpiBypassSuccess))
  }

  // ---- The composite score ----

  function Pow(q: real, n: nat): real {
    if n == 0 then 1.0 else q * Pow(q, n - 1)
  }

  function Clamp01(v: real): real {
    if v < 0.0 then 0.0 else if v > 1.0 then 1.0 else v
  }

  function ProtocolSecurity(tc: Tunnel): (s: real)
    ensures 0.6 <= s <= 0.95
  {
    match tc.protocol
    case AmneziaWGProto => 0.92
    case WireGuardProto => 0.88
    case VLESSProto =>
      if tc.vless.None? then 0.70
      else if tc.vless.value.fixed.security == "reality" then 0.95
      else if tc.vless.value.fixed.security == "tls" then 0.85
      else 0.65
    case OtherProto(_) => 0.6
  }

  function SessionWeight(e: Entry): real {
    if e.sessionSuccess <= 0.0 then 0.5 else e.sessionSuccess
  }

  function Performance(ewmaRTT: real, ewmaLoss: real): real {
    var rttMs := if ewmaRTT <= 0.0 then 1000.0 else ewmaRTT;
    Clamp01((1.0 - Clamp01(ewmaLoss)) * (1.0 / (1.0 + rttMs / 120.0)))
  }

  function Availability(e: Entry): real {
    var dpi := if e.lastBlockType == "" && e.dpiBypassSuccess == 0.0 then 0.5 else e.dpiBypassSuccess;
    Clamp01(0.6 * dpi + 0.4 * SessionWeight(e))
  }

  function Reliability(q: real, session: real, sessions: nat): real {
    var sampleConf := 1.0 - Pow(q, sessions);
    Clamp01(session * sampleConf + 0.5 * (1.0 - sampleConf))
  }

  function CompositeScore(q: real, e: Entry, tc: Tunnel): real {
    100.0 * (0.40 * Availability(e) + 0.35 * Performance(e.ewmaRTT, e.ewmaLoss) +
             0.15 * ProtocolSecurity(tc) + 0.10 * Reliability(q, SessionWeight(e), e.sessions))
  }

  // ---- Reachable entries ----

  datatype EntryOp =
    | ProbeOp(res: Probe.AggResult)
    | SessionOp(success: bool, at: int)
    | DPIOp(blockType: string, bypassed: bool)

  /** What callers pass: a loss in [0,1] (see `Probe.Aggregate`) and the name of a block type. */
  ghost predicate ValidOp(op: EntryOp) {
    match op
    case ProbeOp(res) => 0.0 <= res.packetLoss <= 1.0
    case SessionOp(_, _) => true
    case DPIOp(b, _) => b != ""
  }

  function Update(e: Entry, op: EntryOp): Entry {
    match op
    case ProbeOp(res) => ProbeUpdate(e, res)
    case SessionOp(success, at) => SessionUpdate(e, success, at)
    case DPIOp(b, success) => DPIUpdate(e, b, success)
  }

  function Replay(e: Entry, ops: seq<EntryOp>): Entry {
    if ops == [] then e else Update(Replay(e, ops[..|ops| - 1]), ops[|ops| - 1])
  }

  ghost predicate Sane(e: Entry) {
    && (e.ewmaRTT == 0.0 || e.ewmaRTT >= 1.0)
    && 0.0 <= e.ewmaLoss <= 1.0
    && 0.0 < e.sessionSuccess < 1.0
    && (e.sessions == 0 ==> e.sessionSuccess == 0.5)
    && 0.0 <= e.dpiBypassSuccess < 1.0
    && (e.lastBlockType == "" ==> e.dpiBypassSuccess == 0.0)
  }

  ghost predicate AllSane(entries: map<string, Entry>) {
    forall id :: id in entries ==> Sane(entries[id])
  }

  function EntryID(e: Entry): string {
    e.configID
  }

  /** What every run keeps of the database: averages in range, and every entry under its own ID. */
  ghost predicate Sound(entries: map<string, Entry>) {
    AllSane(entries) && Store.Keyed(entries, EntryID)
  }

  /** Every entry any run can build keeps its averages in range. */
  lemma {:induction false} ReachableIsSane(id: string, ops: seq<EntryOp>)
    requires forall i :: 0 <= i < |ops| ==> ValidOp(ops[i])
    ensures Sane(Replay(NewEntry(id), ops))
  {
    if ops != [] {
      ReachableIsSane(id, ops[..|ops| - 1]);
      assert ValidOp(ops[|ops| - 1]);
    }
  }

  lemma PowUnfold(q: real, n: nat, p: real)
    requires p == Pow(q, n)
    ensures Pow(q, n + 1) == q * p
  {
  }

  lemma {:induction false} PowBounds(q: real, n: nat)
    requires 0.0 < q < 1.0
    ensures 0.0 < Pow(q, n) <= 1.0
    ensures n > 0 ==> Pow(q, n) <= q
  {
    if n > 0 {
      PowBounds(q, n - 1);
      var p := Pow(q, n - 1);
      PowUnfold(q, n - 1, p);
      Shrink(q, p);
      Product(p, q);
      Commute(p, q);
    }
  }

  lemma Commute(a: real, b: real)
    ensures a * b == b * a
  {
  }

  lemma Shrink(q: real, p: real)
    requires 0.0 < q < 1.0 && 0.0 < p
    ensures 0.0 < q * p < p
  {
    assert p - q * p == (1.0 - q) * p;
  }

  lemma MulLe(a: real, b: real, m: real)
    requires m >= 0.0
    ensures a <= b ==> a * m <= b * m && m * a <= m * b
  {
    if a <= b {
      assert (b - a) * m >= 0.0;
    }
  }

  /** A product against the constants 0, 1/2 and 1. */
  lemma Product(s: real, p: real)
    requires p >= 0.0
    ensures s >= 0.0 ==> s * p >= 0.0
    ensures s >= 0.5 ==> s * p >= 0.5 * p
    ensures s <= 0.5 ==> s * p <= 0.5 * p
    ensures s <= 1.0 ==> s * p <= p
  {
    if s >= 0.5 {
      assert (s - 0.5) * p >= 0.0;
    }
    if s <= 0.5 {
      var h := 0.5 - s;
      assert h * p >= 0.0;
      assert h * p == 0.5 * p - s * p;
    }
    if s <= 1.0 {
      var h := 1.0 - s;
      assert h * p >= 0.0;
    }
  }

  lemma Doubling(q: real, p: real)
    requires 0.0 < q < 1.0 && 0.0 < p <= q
    ensures 1.0 - q * p <= 2.0 * (1.0 - p)
  {
    MulLe(p, q, p);
    OneMinusSquared(p);
  }

  lemma OneMinusSquared(x: real)
    ensures 1.0 - 2.0 * x + x * x >= 0.0
  {
    var y := 1.0 - x;
    assert y * y >= 0.0;
    assert y * y == 1.0 - 2.0 * x + x * x;
  }

  /** One more session at most doubles the sample confidence, and never lowers it. */
  lemma ConfidenceGrowth(q: real, n: nat)
    requires 0.0 < q < 1.0
    ensures 0.0 <= 1.0 - Pow(q, n) <= 1.0 - Pow(q, n + 1)
    ensures n >= 1 ==> 1.0 - Pow(q, n + 1) <= 2.0 * (1.0 - Pow(q, n))
  {
    var p := Pow(q, n);
    PowBounds(q, n);
    PowUnfold(q, n, p);
    Shrink(q, p);
    if n >= 1 {
      Doubling(q, p);
    }
  }

  // ---- Direction of the updates ----

  lemma WeightedStep(s: real, s': real, c: real, c': real)
    requires 0.0 <= c <= c' <= 2.0 * c || (s == 0.5 && 0.0 <= c <= c')
    requires s' - 0.5 >= 0.5 * (s - 0.5) && s' >= s
    ensures s * c + 0.5 * (1.0 - c) <= s' * c' + 0.5 * (1.0 - c')
  {
    var d, d' := s - 0.5, s' - 0.5;
    assert s * c + 0.5 * (1.0 - c) == 0.5 + d * c;
    assert s' * c' + 0.5 * (1.0 - c') == 0.5 + d' * c';
    if d >= 0.0 {
      MulLe(c, c', d);
      MulLe(d, d', c');
    } else {
      MulLe(c', 2.0 * c, -0.5 * d);
      MulLe(0.5 * d, d', c');
      assert d * c <= 0.5 * d * c';
    }
  }

  lemma ReliabilityUp(q: real, s: real, n: nat)
    requires 0.0 < q < 1.0 && 0.0 < s < 1.0 && (n == 0 ==> s == 0.5)
    ensures Reliability(q, s, n) <= Reliability(q, Smooth(1.0, s), n + 1)
  {
    ConfidenceGrowth(q, n);
    WeightedStep(s, Smooth(1.0, s), 1.0 - Pow(q, n), 1.0 - Pow(q, n + 1));
  }

  lemma ReliabilityDown(q: real, s: real, n: nat)
    requires 0.0 < q < 1.0 && 0.0 < s < 1.0 && (n == 0 ==> s == 0.5)
    ensures Reliability(q, Smooth(0.0, s), n + 1) <= Reliability(q, s, n)
  {
    ConfidenceGrowth(q, n);
    var c, c', s' := 1.0 - Pow(q, n), 1.0 - Pow(q, n + 1), Smooth(0.0, s);
    WeightedStep(1.0 - s, 1.0 - s', c, c');
    assert (1.0 - s) * c + 0.5 * (1.0 - c) == 1.0 - (s * c + 0.5 * (1.0 - c));
    assert (1.0 - s') * c' + 0.5 * (1.0 - c') == 1.0 - (s' * c' + 0.5 * (1.0 - c'));
  }

  /**
  A recorded session moves the score the right way on every reachable entry, although the
  confidence weight changes with it: a success never lowers it, a failure never raises it.
  */
  lemma SessionDirection(q: real, e: Entry, success: bool, at: int, tc: Tunnel)
    requires 0.0 < q < 1.0 && Sane(e)
    ensures success ==> CompositeScore(q, e, tc) <= CompositeScore(q, SessionUpdate(e, success, at), tc)
    ensures !success ==> CompositeScore(q, SessionUpdate(e, success, at), tc) <= CompositeScore(q, e, tc)
  {
    if success {
      ReliabilityUp(q, e.sessionSuccess, e.sessions);
    } else {
      ReliabilityDown(q, e.sessionSuccess, e.sessions);
    }
  }

  /**
  A recorded DPI bypass raises the score (or keeps it) exactly when the entry already has DPI
  history: the first success replaces the neutral 0.5 by 0.3 and lowers it.
  */
  lemma DPISuccessDirection(q: real, e: Entry, blockType: string, tc: Tunnel)
    requires Sane(e) && blockType != ""
    ensures CompositeScore(q, e, tc) <= CompositeScore(q, DPIUpdate(e, blockType, true), tc)
       <==> e.lastBlockType != ""
  {
  }

  /** A failed DPI bypass never raises the score. */
  lemma DPIFailureDirection(q: real, e: Entry, blockType: string, tc: Tunnel)
    requires Sane(e) && blockType != ""
    ensures CompositeScore(q, DPIUpdate(e, blockType, false), tc) <= CompositeScore(q, e, tc)
  {
  }

  /** What an attempt does to an entry: one session, and one DPI result if a block was detected. */
  function AttemptUpdate(e: Entry, success: bool, at: int, hint: BlockType): Entry {
    var e' := SessionUpdate(e, success, at);
    if hint == BlockNone then e' else DPIUpdate(e', BlockName(hint), success)
  }

  /**
  A failed attempt never raises the score, and a verified one never lowers it once the entry has DPI history or
  when no block was detected.
  */
  lemma AttemptDirection(q: real, e: Entry, success: bool, at: int, hint: BlockType, tc: Tunnel)
    requires 0.0 < q < 1.0 && Sane(e)
    ensures !success ==> CompositeScore(q, AttemptUpdate(e, success, at, hint), tc) <= CompositeScore(q, e, tc)
    ensures success && (hint == BlockNone || e.lastBlockType != "") ==>
      CompositeScore(q, e, tc) <= CompositeScore(q, AttemptUpdate(e, success, at, hint), tc)
  {
    var e' := SessionUpdate(e, success, at);
    SessionDirection(q, e, success, at, tc);
    if hint != BlockNone {
      if success {
        DPISuccessDirection(q, e', BlockName(hint), tc);
      } else {
        DPIFailureDirection(q, e', BlockName(hint), tc);
      }
    }
  }

  /** How much a verified attempt adds to the reliability. */
  function ReliabilityGain(q: real, e: Entry): real {
    Reliability(q, Smooth(1.0, e.sessionSuccess), e.sessions + 1) - Reliability(q, e.sessionSuccess, e.sessions)
  }

  /**
  The first verified attempt under a block lowers the score exactly when the reliability gains less than 0.48 times
  the old session average. On a configuration without any session it always does.
  */
  lemma FirstSuccessLowersIff(q: real, e: Entry, at: int, hint: BlockType, tc: Tunnel)
    requires 0.0 < q < 1.0 && Sane(e) && e.lastBlockType == "" && hint != BlockNone
    ensures CompositeScore(q, AttemptUpdate(e, true, at, hint), tc) < CompositeScore(q, e, tc)
       <==> ReliabilityGain(q, e) < 0.48 * e.sessionSuccess
    ensures e.sessions == 0 ==> ReliabilityGain(q, e) < 0.48 * e.sessionSuccess
  {
    if e.sessions == 0 {
      PowBounds(q, 1);
      assert Pow(q, 0) == 1.0;
      FirstReliability(1.0 - Pow(q, 1));
    }
  }

  lemma FirstReliability(c: real)
    requires 0.0 <= c < 1.0
    ensures 0.5 <= 0.65 * c + 0.5 * (1.0 - c) < 0.65
  {
  }

  /** Every reachable entry scores strictly between 9 and 99.25. */
  lemma ScoreBounds(q: real, e: Entry, tc: Tunnel)
    requires 0.0 < q < 1.0 && Sane(e)
    ensures 9.0 < CompositeScore(q, e, tc) < 99.25
  {
    PowBounds(q, e.sessions);
    Blend(e.sessionSuccess, 1.0 - Pow(q, e.sessions));
    var rttMs := if e.ewmaRTT <= 0.0 then 1000.0 else e.ewmaRTT;
    var d := 1.0 + rttMs / 120.0;
    Reciprocal(d);
    MulLe(1.0 - e.ewmaLoss, 1.0, 1.0 / d);
    MulLe(0.0, 1.0 - e.ewmaLoss, 1.0 / d);
    assert 0.0 <= Performance(e.ewmaRTT, e.ewmaLoss) < 1.0;
  }

  lemma Reciprocal(d: real)
    requires d > 1.0
    ensures 0.0 < 1.0 / d < 1.0
  {
    var r := 1.0 / d;
    assert r * d == 1.0;
    if r >= 1.0 {
      MulLe(1.0, r, d);
    }
  }

  /** A blend of a weight in (0,1) with 1/2 stays in (0,1). */
  lemma Blend(s: real, c: real)
    requires 0.0 < s < 1.0 && 0.0 <= c < 1.0
    ensures 0.0 < s * c + 0.5 * (1.0 - c) < 1.0
  {
    Product(s, c);
    assert 0.0 <= s * c <= c;
  }

  // ---- Averages over runs ----

  ghost predicate Sampled(ops: seq<EntryOp>) {
    exists i :: 0 <= i < |ops| && ops[i].ProbeOp?
  }

  ghost predicate SamplesWithin(ops: seq<EntryOp>, lo: real, hi: real) {
    forall i :: 0 <= i < |ops| && ops[i].ProbeOp? ==> lo <= SampleRTT(ops[i].res.avgRTT) <= hi
  }

  /** The average round-trip time lies between the extremes of its samples, and is 0 only without one. */
  lemma {:induction false} RTTBetweenSamples(id: string, ops: seq<EntryOp>, lo: real, hi: real)
    requires SamplesWithin(ops, lo, hi)
    ensures var r := Replay(NewEntry(id), ops).ewmaRTT;
      if Sampled(ops) then lo <= r <= hi && r >= 1.0 else r == 0.0
  {
    if ops != [] {
      var n := |ops| - 1;
      RTTBetweenSamples(id, ops[..n], lo, hi);
      if Sampled(ops[..n]) {
        assert Sampled(ops);
      } else if ops[n].ProbeOp? {
        assert Sampled(ops);
      }
    }
  }

  function Repeat(op: EntryOp, k: nat): (ops: seq<EntryOp>)
    ensures |ops| == k
  {
    if k == 0 then [] else Repeat(op, k - 1) + [op]
  }

  lemma SmoothGap(x: real, v0: real, v: real, g: real)
    requires v - x == g * (v0 - x)
    ensures Smooth(x, v) - x == ((1.0 - ALPHA) * g) * (v0 - x)
  {
    assert Smooth(x, v) - x == (1.0 - ALPHA) * (v - x);
    assert (1.0 - ALPHA) * (g * (v0 - x)) == ((1.0 - ALPHA) * g) * (v0 - x);
  }

  /** v is x plus the old gap shrunk k times. */
  ghost predicate GapAfter(k: nat, x: real, v0: real, v: real) {
    v - x == Pow(1.0 - ALPHA, k) * (v0 - x)
  }

  /** The average this operation moves, and where it pulls it. */
  ghost predicate Gaps(e: Entry, op: EntryOp, k: nat, e': Entry) {
    match op
    case ProbeOp(res) => e.ewmaRTT != 0.0 ==>
      && GapAfter(k, SampleRTT(res.avgRTT), e.ewmaRTT, e'.ewmaRTT)
      && GapAfter(k, res.packetLoss, e.ewmaLoss, e'.ewmaLoss)
    case SessionOp(success, _) => GapAfter(k, Outcome(success), e.sessionSuccess, e'.sessionSuccess)
    case DPIOp(_, success) => GapAfter(k, Outcome(success), e.dpiBypassSuccess, e'.dpiBypassSuccess)
  }

  lemma GapStep(e: Entry, op: EntryOp, k: nat, e': Entry)
    requires Gaps(e, op, k, e') && (e.ewmaRTT != 0.0 ==> e'.ewmaRTT != 0.0)
    ensures Gaps(e, op, k + 1, Update(e', op))
  {
    var g := Pow(1.0 - ALPHA, k);
    match op {
      case ProbeOp(res) =>
        if e.ewmaRTT != 0.0 {
          SmoothGap(SampleRTT(res.avgRTT), e.ewmaRTT, e'.ewmaRTT, g);
          SmoothGap(res.packetLoss, e.ewmaLoss, e'.ewmaLoss, g);
        }
      case SessionOp(success, _) => SmoothGap(Outcome(success), e.sessionSuccess, e'.sessionSuccess, g);
      case DPIOp(_, success) => SmoothGap(Outcome(success), e.dpiBypassSuccess, e'.dpiBypassSuccess, g);
    }
  }

  /** After k equal outcomes every average has closed its gap to exactly 0.7^k of the old one. */
  lemma {:induction false} GapShrinks(e: Entry, op: EntryOp, k: nat)
    requires Sane(e)
    ensures Gaps(e, op, k, Replay(e, Repeat(op, k)))
    ensures e.ewmaRTT != 0.0 ==> Replay(e, Repeat(op, k)).ewmaRTT >= 1.0
  {
    if k > 0 {
      GapShrinks(e, op, k - 1);
      assert Repeat(op, k)[..k - 1] == Repeat(op, k - 1);
      GapStep(e, op, k - 1, Replay(e, Repeat(op, k - 1)));
    }
  }

  // ---- Ranking ----

  function EntryOrDefault(entries: map<string, Entry>, id: string): Entry {
    if id in entries then entries[id] else NewEntry(id)
  }

  function ScoreOf(q: real, entries: map<string, Entry>, tc: Tunnel): real {
    CompositeScore(q, EntryOrDefault(entries, tc.id), tc)
  }

  /** The same configurations, by descending score; ties in any order. */
  ghost predicate IsRanking(q: real, entries: map<string, Entry>, out: seq<Tunnel>, configs: seq<Tunnel>) {
    && multiset(out) == multiset(configs)
    && forall i, j :: 0 <= i < j < |out| ==> ScoreOf(q, entries, out[i]) >= ScoreOf(q, entries, out[j])
  }

  datatype Scored = Scored(tc: Tunnel, score: real)

  function Tunnels(items: seq<Scored>): (out: seq<Tunnel>)
    ensures |out| == |items| && forall i :: 0 <= i < |out| ==> out[i] == items[i].tc
  {
    seq(|items|, i requires 0 <= i < |items| => items[i].tc)
  }

  lemma {:induction false} SamePermutation(a: seq<Scored>, b: seq<Scored>)
    requires multiset(a) == multiset(b)
    ensures multiset(Tunnels(a)) == multiset(Tunnels(b))
    decreases |a|
  {
    assert |a| == |multiset(a)| == |multiset(b)| == |b|;
    if a != [] {
      assert a[0] in multiset(b);
      var i :| 0 <= i < |b| && b[i] == a[0];
      SamePermutation(Sorting.RemoveAt(a, 0), Sorting.RemoveAt(b, i));
      TunnelsRemoveAt(a, 0);
      TunnelsRemoveAt(b, i);
    }
  }

  lemma TunnelsRemoveAt(b: seq<Scored>, i: nat)
    requires i < |b|
    ensures multiset(Tunnels(b)) == multiset(Tunnels(Sorting.RemoveAt(b, i))) + multiset{b[i].tc}
  {
    var t := Tunnels(b);
    assert t == t[..i] + [b[i].tc] + t[i + 1..];
    assert Tunnels(Sorting.RemoveAt(b, i)) == t[..i] + t[i + 1..];
  }

  class DB {
    var entries: map<string, Entry>

    constructor ()
      ensures entries == map[]
    {
      entries := map[];
    }

    method RecordProbeResult(configID: string, res: Probe.AggResult)
      modifies this
      ensures entries == old(entries)[configID := ProbeUpdate(EntryOrDefault(old(entries), configID), res)]
    {
      var e := EntryOrDefault(entries, configID);
      var rttMs := (res.avgRTT / 1_000_000) as real;
      if rttMs <= 0.0 {
        rttMs := 5000.0;
      }
      if e.ewmaRTT == 0.0 {
        e := e.(ewmaRTT := rttMs, ewmaLoss := res.packetLoss);
      } else {
        e := e.(ewmaRTT := ALPHA * rttMs + (1.0 - ALPHA) * e.ewmaRTT,
                ewmaLoss := ALPHA * res.packetLoss + (1.0 - ALPHA) * e.ewmaLoss);
      }
      entries := entries[configID := e];
    }

    method RecordSession(sess: Session)
      modifies this
      ensures entries == old(entries)[sess.configID :=
        SessionUpdate(EntryOrDefault(old(entries), sess.configID), sess.success, sess.startedAt)]
    {
      var e := EntryOrDefault(entries, sess.configID);
      var success := if sess.success then 1.0 else 0.0;
      e := e.(sessionSuccess := ALPHA * success + (1.0 - ALPHA) * e.sessionSuccess,
              sessions := e.sessions + 1, lastUsed := Some(sess.startedAt));
      entries := entries[sess.configID := e];
    }

    method RecordDPIResult(configID: string, blockType: string, succeeded: bool)
      modifies this
      ensures entries == old(entries)[configID :=
        DPIUpdate(EntryOrDefault(old(entries), configID), blockType, succeeded)]
    {
      var e := EntryOrDefault(entries, configID);
      var val := if succeeded then 1.0 else 0.0;
      e := e.(lastBlockType := blockType,
              dpiBypassSuccess := ALPHA * val + (1.0 - ALPHA) * e.dpiBypassSuccess);
      entries := entries[configID := e];
    }

    /** Ranking reads the database and leaves it alone: unknown IDs score as new entries. */
    method Rank(q: real, configs: seq<Tunnel>) returns (out: seq<Tunnel>)
      ensures IsRanking(q, entries, out, configs)
    {
      var items: seq<Scored> := [];
      for i := 0 to |configs|
        invariant |items| == i
        invariant forall k :: 0 <= k < i ==> items[k] == Scored(configs[k], ScoreOf(q, entries, configs[k]))
      {
        var tc := configs[i];
        items := items + [Scored(tc, CompositeScore(q, EntryOrDefault(entries, tc.id), tc))];
      }
      var sorted := Sorting.SortDescending(items, (s: Scored) => s.score);
      out := [];
      for i := 0 to |sorted|
        invariant |out| == i && forall k :: 0 <= k < i ==> out[k] == sorted[k].tc
      {
        out := out + [sorted[i].tc];
      }
      assert Tunnels(items) == configs && Tunnels(sorted) == out;
      SamePermutation(sorted, items);
      ScoresKept(q, entries, sorted, items);
    }
  }

  lemma ScoresKept(q: real, entries: map<string, Entry>, sorted: seq<Scored>, items: seq<Scored>)
    requires multiset(sorted) == multiset(items)
    requires forall k :: 0 <= k < |items| ==> items[k].score == ScoreOf(q, entries, items[k].tc)
    ensures forall k :: 0 <= k < |sorted| ==> sorted[k].score == ScoreOf(q, entries, sorted[k].tc)
  {
    forall k | 0 <= k < |sorted|
      ensures sorted[k].score == ScoreOf(q, entries, sorted[k].tc)
    {
      assert sorted[k] in multiset(items);
      var j :| 0 <= j < |items| && items[j] == sorted[k];
    }
  }

  /** scores.json read back gives the database back. */
  lemma ScoresSurviveRestart(list: seq<Entry>, entries: map<string, Entry>)
    requires Store.Keyed(entries, EntryID) && Store.Lists(list, entries, EntryID)
    ensures Store.Load(list, EntryID) == entries
  {
    Store.SaveLoadIdentity(list, entries, EntryID);
  }
}
