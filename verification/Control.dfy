/**
Whole runs of the watchdog: ticks, the attempts of one switch, and a crash followed by a restart
at any operation boundary, as a labelled step system over the state machine.

The configuration is fixed during a run, the clock never runs backwards, and every outcome of a
probe, of bringing a tunnel up and of verifying it is a free choice of the run.
*/
module Control {
  import opened Options
  import opened StateMachine

  datatype Cfg = Cfg(degraded: int, probing: int, maxAttempts: int, cooldown: int)

  ghost predicate Proper(c: Cfg) {
    c.degraded >= 1 && c.probing >= 1
  }

  /** The configured number of attempts, three if there is none. */
  function AllowedAttempts(configured: int): (m: nat)
    ensures m >= 1
  {
    if configured <= 0 then 3 else configured
  }

  function EffectiveMax(c: Cfg): (m: nat)
    ensures m >= 1
  {
    AllowedAttempts(c.maxAttempts)
  }

  /** Where the event loop is: between ticks, or inside the attempt loop of a switch. */
  datatype Phase =
    | Idle
    | Trying(left: nat)                 // about to try the next candidate, `left` attempts allowed
    | Applying(left: nat, id: string)   // a candidate is being brought up and verified

  /** `dpiDone` says that DPI detection has run in this PROBING episode; it lives in memory only. */
  datatype Sys = Sys(img: Image, dpiDone: bool, phase: Phase, clock: int)

  datatype Event =
    | Skip(at: int)          // a tick that does nothing
    | ProbeOk(at: int)       // a tick whose probe succeeds
    | ProbeFail(at: int)     // a tick whose probe fails
    | Start(viable: nat)     // a PROBING tick: detection if due, parallel probe, ranking
    | Enter(id: string)      // the next candidate is tried
    | Fail                   // it did not come up, or was not verified
    | Succeed(at: int)       // it came up and was verified
    | Finish                 // no candidate left, or no attempt left
    | Restart                // crash, then a new process over the same state file

  function Boot(disk: Option<Persisted>, clock: int): Sys {
    Sys(Image(Restore(disk), disk), false, Idle, clock)
  }

  predicate CanProbe(c: Cfg, s: Sys, at: int) {
    && s.phase.Idle? && at >= s.clock
    && (s.img.mem.current == Degraded
        || (s.img.mem.current == Healthy && !InCooldownAt(s.img.mem, c.cooldown, at)))
  }

  predicate Enabled(c: Cfg, s: Sys, e: Event) {
    match e
    case Skip(at) =>
      && s.phase.Idle? && at >= s.clock
      && s.img.mem.current != Degraded
      && (s.img.mem.current == Healthy ==> InCooldownAt(s.img.mem, c.cooldown, at))
    case ProbeOk(at) => CanProbe(c, s, at)
    case ProbeFail(at) => CanProbe(c, s, at)
    case Start(_) => s.phase.Idle? && s.img.mem.current == Probing
    case Enter(_) => s.phase.Trying? && s.phase.left > 0
    case Fail => s.phase.Applying?
    case Succeed(at) => s.phase.Applying? && at >= s.clock
    case Finish => s.phase.Trying? && s.phase.left == 0
    case Restart => true
  }

  function Next(c: Cfg, s: Sys, e: Event): Sys
    requires Enabled(c, s, e)
  {
    match e
    case Skip(at) => s.(clock := at)
    case ProbeOk(at) => Sys(AfterSuccess(s.img), false, Idle, at)
    case ProbeFail(at) => s.(img := AfterFailure(s.img, c.degraded, c.probing), clock := at)
    case Start(viable) =>
      s.(dpiDone := true, phase := Trying(if viable < EffectiveMax(c) then viable else EffectiveMax(c)))
    case Enter(id) => s.(img := AfterEnter(s.img), phase := Applying(s.phase.left - 1, id))
    case Fail => s.(img := AfterSwitchFailed(s.img, EffectiveMax(c)), phase := Trying(s.phase.left))
    case Succeed(at) => Sys(AfterSwitchSucceeded(s.img, s.phase.id, at), false, Idle, at)
    case Finish => s.(phase := Idle)
    case Restart => Boot(s.img.disk, s.clock)
  }

  /** A run: its events, the state before each of them, and the state at the end. */
  datatype Run = Run(st: seq<Sys>, ev: seq<Event>)

  ghost predicate Step(c: Cfg, s: Sys, e: Event, s': Sys) {
    Enabled(c, s, e) && s' == Next(c, s, e)
  }

  ghost predicate StepAt(c: Cfg, r: Run, k: nat)
    requires k < |r.ev| && k + 1 < |r.st|
  {
    Step(c, r.st[k], r.ev[k], r.st[k + 1])
  }

  ghost predicate ValidRun(c: Cfg, r: Run) {
    && |r.st| == |r.ev| + 1
    && forall k :: 0 <= k < |r.ev| ==> StepAt(c, r, k)
  }

  /** These events lead from s to s'. */
  ghost predicate Reaches(c: Cfg, s: Sys, ev: seq<Event>, s': Sys) {
    exists r: Run :: ValidRun(c, r) && r.ev == ev && r.st[0] == s && r.st[|ev|] == s'
  }

  lemma ReachesNothing(c: Cfg, s: Sys)
    ensures Reaches(c, s, [], s)
  {
    assert ValidRun(c, Run([s], []));
  }

  lemma ReachesOne(c: Cfg, s: Sys, ev: seq<Event>, m: Sys, e: Event, s': Sys)
    requires Reaches(c, s, ev, m) && Step(c, m, e, s')
    ensures Reaches(c, s, ev + [e], s')
  {
    var r: Run :| ValidRun(c, r) && r.ev == ev && r.st[0] == s && r.st[|ev|] == m;
    var r' := Run(r.st + [s'], ev + [e]);
    forall k: nat | k < |r'.ev|
      ensures StepAt(c, r', k)
    {
      if k < |ev| {
        assert StepAt(c, r, k);
      }
    }
    assert ValidRun(c, r');
  }

  lemma ReachesConcat(c: Cfg, s: Sys, a: seq<Event>, m: Sys, b: seq<Event>, s': Sys)
    requires Reaches(c, s, a, m) && Reaches(c, m, b, s')
    ensures Reaches(c, s, a + b, s')
  {
    var r: Run :| ValidRun(c, r) && r.ev == a && r.st[0] == s && r.st[|a|] == m;
    var t: Run :| ValidRun(c, t) && t.ev == b && t.st[0] == m && t.st[|b|] == s';
    var u := Run(r.st[..|a|] + t.st, a + b);
    forall k: nat | k < |u.ev|
      ensures StepAt(c, u, k)
    {
      if k < |a| {
        assert StepAt(c, r, k);
      } else {
        assert StepAt(c, t, k - |a|);
      }
    }
    assert ValidRun(c, u);
  }

  /** The attempt loop runs in PROBING, and a candidate is on trial exactly in SWITCHING. */
  ghost predicate PhaseOk(s: Sys) {
    && (s.phase.Trying? ==> s.img.mem.current == Probing)
    && (s.phase.Applying? ==> s.img.mem.current == Switching)
  }

  // ---- The state file ----

  /**
  The state file equals the projection of memory after every run, so a restart reproduces the
  state, the active ID and the last switch, with both counters at zero.
  */
  lemma {:induction false} RestartReproduces(c: Cfg, r: Run, k: nat)
    requires ValidRun(c, r) && Synced(r.st[0].img) && k <= |r.ev|
    ensures Synced(r.st[k].img)
    ensures Boot(r.st[k].img.disk, r.st[k].clock).img.mem
         == r.st[k].img.mem.(consecutiveFails := 0, switchAttempts := 0)
  {
    if k > 0 {
      RestartReproduces(c, r, k - 1);
      assert StepAt(c, r, k - 1);
    }
  }

  // ---- Anti-flapping ----

  /** An event that does not interrupt a row of failed probes, all of them at time t or later. */
  predicate InRow(e: Event, t: int) {
    !e.ProbeOk? && !e.Succeed? && !e.Restart? && (e.ProbeFail? ==> e.at >= t)
  }

  function FailedProbes(ev: seq<Event>, a: nat, b: nat): nat
    requires a <= b <= |ev|
  {
    if a == b then 0 else FailedProbes(ev, a, b - 1) + (if ev[b - 1].ProbeFail? then 1 else 0)
  }

  /** ev[a..b] holds n failed probes in a row, none of them before time t. */
  ghost predicate FailRow(ev: seq<Event>, a: int, b: int, n: int, t: int) {
    && 0 <= a <= b <= |ev|
    && FailedProbes(ev, a, b) == n
    && (forall k :: a <= k < b ==> InRow(ev[k], t))
  }

  /** Between positions i and j there is a row of n failed probes, none of them before time t. */
  ghost predicate RowBetween(ev: seq<Event>, i: int, j: int, n: int, t: int) {
    exists a, b :: i < a <= b <= j && FailRow(ev, a, b, n, t)
  }

  /** A row of n failed probes after position i that reaches up to position k. */
  ghost predicate RowUpTo(ev: seq<Event>, i: int, k: int, n: int, t: int) {
    exists a :: i < a <= k && FailRow(ev, a, k, n, t)
  }

  /** What holds at position k when the last switch was at position i. */
  ghost predicate SinceSwitch(c: Cfg, ev: seq<Event>, i: nat, k: nat, s: Sys)
    requires i < |ev| && ev[i].Succeed?
  {
    var m, t := s.img.mem, ev[i].at + c.cooldown;
    && m.lastSwitch == Some(ev[i].at) && Synced(s.img) && PhaseOk(s)
    && match m.current
       case Healthy => m.consecutiveFails < c.degraded && RowUpTo(ev, i, k, m.consecutiveFails, t)
       case Degraded => && s.clock >= t && m.consecutiveFails < c.degraded + c.probing
                        && RowUpTo(ev, i, k, m.consecutiveFails, t)
       case _ => RowBetween(ev, i, k, c.degraded + c.probing, t)
  }

  lemma ExtendRow(ev: seq<Event>, i: int, k: nat, n: int, t: int)
    requires k < |ev| && RowUpTo(ev, i, k, n, t) && InRow(ev[k], t)
    ensures RowUpTo(ev, i, k + 1, if ev[k].ProbeFail? then n + 1 else n, t)
  {
    var a :| i < a <= k && FailRow(ev, a, k, n, t);
    assert FailRow(ev, a, k + 1, if ev[k].ProbeFail? then n + 1 else n, t);
  }

  lemma EmptyRow(ev: seq<Event>, i: int, k: nat, t: int)
    requires i < k <= |ev|
    ensures RowUpTo(ev, i, k, 0, t)
  {
    assert FailRow(ev, k, k, 0, t);
  }

  lemma BetweenStays(ev: seq<Event>, i: int, k: nat, n: int, t: int)
    requires k < |ev| && RowBetween(ev, i, k, n, t)
    ensures RowBetween(ev, i, k + 1, n, t)
  {
  }

  lemma RowIsBetween(ev: seq<Event>, i: int, k: nat, n: int, t: int)
    requires k <= |ev| && RowUpTo(ev, i, k, n, t)
    ensures RowBetween(ev, i, k, n, t)
  {
  }

  /** One event further, without another success. */
  lemma SinceSwitchStep(c: Cfg, ev: seq<Event>, i: nat, k: nat, s: Sys, s': Sys)
    requires Proper(c) && i < k < |ev| && ev[i].Succeed? && !ev[k].Succeed?
    requires SinceSwitch(c, ev, i, k, s) && Step(c, s, ev[k], s')
    ensures SinceSwitch(c, ev, i, k + 1, s')
  {
    var t, n := ev[i].at + c.cooldown, c.degraded + c.probing;
    if s.img.mem.current in {Probing, Switching} {
      BetweenStays(ev, i, k, n, t);
    } else if ev[k].ProbeFail? || ev[k].Skip? {
      ExtendRow(ev, i, k, s.img.mem.consecutiveFails, t);
      if s'.img.mem.current == Probing {
        RowIsBetween(ev, i, k + 1, n, t);
      }
    } else {
      EmptyRow(ev, i, k + 1, t);
    }
  }

  lemma {:induction false} SinceSwitchHolds(c: Cfg, r: Run, i: nat, k: nat)
    requires Proper(c) && ValidRun(c, r)
    requires i < k <= |r.ev| && r.ev[i].Succeed?
    requires forall m :: i < m < k ==> !r.ev[m].Succeed?
    ensures SinceSwitch(c, r.ev, i, k, r.st[k])
    decreases k
  {
    assert StepAt(c, r, k - 1);
    if k == i + 1 {
      EmptyRow(r.ev, i, k, r.ev[i].at + c.cooldown);
    } else {
      SinceSwitchHolds(c, r, i, k - 1);
      SinceSwitchStep(c, r.ev, i, k - 1, r.st[k - 1], r.st[k]);
    }
  }

  /**
  No flapping: between two successful switches there is a row of D + P failed probes that no
  successful probe, switch or restart interrupts, and none of them ran before the cooldown of
  the first switch was over. Crashes and restarts may happen anywhere in the run.
  */
  lemma {:induction false} AntiFlapping(c: Cfg, r: Run, i: nat, j: nat)
    requires Proper(c) && ValidRun(c, r)
    requires i < j < |r.ev| && r.ev[i].Succeed? && r.ev[j].Succeed?
    ensures RowBetween(r.ev, i, j, c.degraded + c.probing, r.ev[i].at + c.cooldown)
    decreases j
  {
    if m: nat :| i < m < j && r.ev[m].Succeed? {
      AntiFlapping(c, r, i, m);
      var a, b :| i < a <= b <= m && FailRow(r.ev, a, b, c.degraded + c.probing, r.ev[i].at + c.cooldown);
      assert i < a <= b <= j && FailRow(r.ev, a, b, c.degraded + c.probing, r.ev[i].at + c.cooldown);
    } else {
      SinceSwitchHolds(c, r, i, j);
      assert StepAt(c, r, j);
    }
  }

  /** The row is also enough: n failed probes in a row take a healthy machine exactly this far. */
  lemma {:induction false} FailureRowAdvances(c: Cfg, r: Run, n: nat)
    requires Proper(c) && ValidRun(c, r) && n <= |r.ev|
    requires r.st[0].img.mem.current == Healthy && r.st[0].img.mem.consecutiveFails == 0
    requires forall k :: 0 <= k < n ==> r.ev[k].ProbeFail?
    ensures n <= c.degraded + c.probing
    ensures r.st[n].img.mem.current
         == if n < c.degraded then Healthy else if n < c.degraded + c.probing then Degraded else Probing
    ensures r.st[n].img.mem.consecutiveFails == if n < c.degraded + c.probing then n else 0
  {
    if n > 0 {
      FailureRowAdvances(c, r, n - 1);
      assert StepAt(c, r, n - 1);
    }
  }

  // ---- Tick boundaries ----

  /** A crash while a candidate is on trial leaves SWITCHING in the state file. */
  ghost predicate CrashOnTrial(c: Cfg, r: Run, k: nat)
    requires k < |r.ev| && k < |r.st|
  {
    r.ev[k].Restart? && r.st[k].phase.Applying?
  }

  ghost predicate Calm(s: Sys) {
    && PhaseOk(s) && Synced(s.img)
    && (s.phase.Idle? ==> s.img.mem.current != Switching)
    && (s.img.mem.current in {Healthy, Degraded} ==> !s.dpiDone && s.phase.Idle?)
  }

  /**
  Between ticks the machine is never in SWITCHING, and the DPI-done flag is false in HEALTHY and
  DEGRADED, as long as no crash hit a candidate on trial.
  */
  lemma {:induction false} CalmHolds(c: Cfg, r: Run, k: nat)
    requires ValidRun(c, r) && Calm(r.st[0]) && k <= |r.ev|
    requires forall m :: 0 <= m < k ==> !CrashOnTrial(c, r, m)
    ensures Calm(r.st[k])
  {
    if k > 0 {
      CalmHolds(c, r, k - 1);
      assert StepAt(c, r, k - 1);
      assert !CrashOnTrial(c, r, k - 1);
    }
  }

  /** Between ticks, in SWITCHING, with SWITCHING in the state file. */
  ghost predicate Stuck(s: Sys) {
    s.phase.Idle? && s.img.mem.current == Switching && Synced(s.img)
  }

  /** A run that is in SWITCHING between ticks never leaves it, not even by restarting. */
  lemma {:induction false} StuckForever(c: Cfg, r: Run, i: nat, k: nat)
    requires ValidRun(c, r) && i <= k <= |r.ev| && Stuck(r.st[i])
    ensures Stuck(r.st[k])
    ensures r.st[k].img.mem.activeConfigID == r.st[i].img.mem.activeConfigID
    ensures forall m :: i <= m < k ==> r.ev[m].Skip? || r.ev[m].Restart?
    decreases k
  {
    if k > i {
      StuckForever(c, r, i, k - 1);
      assert StepAt(c, r, k - 1);
    }
  }

  /** Exactly when a tick meets SWITCHING: a crash hit a candidate on trial earlier in the run. */
  lemma SwitchingSeenIff(c: Cfg, r: Run, k: nat)
    requires ValidRun(c, r) && Calm(r.st[0]) && k <= |r.ev|
    ensures Stuck(r.st[k]) <==> exists m :: 0 <= m < k && CrashOnTrial(c, r, m)
  {
    if m :| 0 <= m < k && CrashOnTrial(c, r, m) {
      var first := FirstCrash(c, r, m);
      CalmHolds(c, r, first);
      assert StepAt(c, r, first);
      assert Stuck(r.st[first + 1]);
      StuckForever(c, r, first + 1, k);
    } else {
      CalmHolds(c, r, k);
    }
  }

  lemma FirstCrash(c: Cfg, r: Run, m: nat) returns (first: nat)
    requires m < |r.ev| < |r.st| && CrashOnTrial(c, r, m)
    ensures first <= m && CrashOnTrial(c, r, first)
    ensures forall n :: 0 <= n < first ==> !CrashOnTrial(c, r, n)
  {
    first := 0;
    while !CrashOnTrial(c, r, first)
      invariant first <= m
      invariant forall n :: 0 <= n < first ==> !CrashOnTrial(c, r, n)
      decreases m - first
    {
      first := first + 1;
    }
  }

  function FailedProbesAt(n: nat, at: int): seq<Event> {
    seq(n, _ => ProbeFail(at))
  }

  /** The first n failed probes of a first process. */
  lemma {:induction false} FailuresFromBoot(c: Cfg, at: int, n: nat) returns (s: Sys)
    requires Proper(c) && n <= c.degraded + c.probing
    ensures Reaches(c, Boot(None, at), FailedProbesAt(n, at), s)
    ensures s.phase.Idle? && s.clock == at && s.img.mem.lastSwitch.None?
    ensures s.img.mem.current
         == if n < c.degraded then Healthy else if n < c.degraded + c.probing then Degraded else Probing
    ensures n < c.degraded + c.probing ==> s.img.mem.consecutiveFails == n
  {
    s := Boot(None, at);
    if n == 0 {
      ReachesNothing(c, s);
    } else {
      var m := FailuresFromBoot(c, at, n - 1);
      s := Next(c, m, ProbeFail(at));
      ReachesOne(c, Boot(None, at), FailedProbesAt(n - 1, at), m, ProbeFail(at), s);
      assert FailedProbesAt(n, at) == FailedProbesAt(n - 1, at) + [ProbeFail(at)];
    }
  }

  /** Whatever the thresholds, a first process can get stuck: D + P failed probes, then a crash in the first attempt. */
  lemma StuckIsReachable(c: Cfg, at: int, id: string) returns (s: Sys)
    requires Proper(c)
    ensures Reaches(c, Boot(None, at),
                    FailedProbesAt(c.degraded + c.probing, at) + [Start(1)] + [Enter(id)] + [Restart], s)
    ensures Stuck(s)
  {
    var ev := FailedProbesAt(c.degraded + c.probing, at);
    var m := FailuresFromBoot(c, at, c.degraded + c.probing);
    var m1 := Next(c, m, Start(1));
    ReachesOne(c, Boot(None, at), ev, m, Start(1), m1);
    var m2 := Next(c, m1, Enter(id));
    ReachesOne(c, Boot(None, at), ev + [Start(1)], m1, Enter(id), m2);
    s := Next(c, m2, Restart);
    ReachesOne(c, Boot(None, at), ev + [Start(1)] + [Enter(id)], m2, Restart, s);
  }

  /** DPI detection runs at this event. */
  predicate Detects(s: Sys, e: Event) {
    e.Start? && !s.dpiDone
  }

  /** DPI detection runs at most once per PROBING episode: twice only around a successful switch or a restart. */
  lemma DetectOnce(c: Cfg, r: Run, i: nat, j: nat)
    requires ValidRun(c, r) && Calm(r.st[0])
    requires i < j < |r.ev| && Detects(r.st[i], r.ev[i]) && Detects(r.st[j], r.ev[j])
    ensures exists m :: i < m < j && (r.ev[m].Succeed? || r.ev[m].Restart?)
  {
    if !exists m :: i < m < j && (r.ev[m].Succeed? || r.ev[m].Restart?) {
      assert StepAt(c, r, i);
      DoneStays(c, r, i + 1, j);
      assert false;
    }
  }

  lemma {:induction false} DoneStays(c: Cfg, r: Run, a: nat, k: nat)
    requires ValidRun(c, r) && a <= k <= |r.ev|
    requires var s := r.st[a]; s.dpiDone && s.img.mem.current in {Probing, Switching}
    requires forall m :: a <= m < k ==> !r.ev[m].Succeed? && !r.ev[m].Restart?
    ensures r.st[k].dpiDone && r.st[k].img.mem.current in {Probing, Switching}
    decreases k
  {
    if k > a {
      DoneStays(c, r, a, k - 1);
      assert StepAt(c, r, k - 1);
    }
  }

  // ---- The attempt counter ----

  function FailedSwitches(ev: seq<Event>, a: nat, b: nat): nat
    requires a <= b <= |ev|
  {
    if a == b then 0 else FailedSwitches(ev, a, b - 1) + (if ev[b - 1].Fail? then 1 else 0)
  }

  /** No candidate on trial and no attempt counted, as after a switch, a restart or on entering PROBING. */
  ghost predicate FreshEpisode(s: Sys) {
    && s.img.mem.switchAttempts == 0 && PhaseOk(s) && !s.phase.Applying?
    && (s.img.mem.current in {Healthy, Degraded} ==> s.phase.Idle?)
  }

  /** n failed switches are counted modulo m, and the attempt on trial on top. */
  ghost predicate Counts(s: Sys, n: nat, m: nat)
    requires m >= 1
  {
    && PhaseOk(s)
    && s.img.mem.switchAttempts == n % m + (if s.phase.Applying? then 1 else 0)
    && (s.img.mem.current in {Healthy, Degraded} ==> n == 0 && s.phase.Idle? && s.img.mem.switchAttempts == 0)
  }

  lemma CountsStep(c: Cfg, s: Sys, e: Event, n: nat)
    requires Enabled(c, s, e) && !e.Succeed? && !e.Restart? && Counts(s, n, EffectiveMax(c))
    ensures Counts(Next(c, s, e), if e.Fail? then n + 1 else n, EffectiveMax(c))
  {
    var m := EffectiveMax(c);
    SuccMod(n, m);
    if n == 0 {
      SmallMod(n, m);
    }
  }

  lemma SmallMod(n: nat, m: nat)
    requires n < m
    ensures n % m == n
  {
  }

  lemma {:induction false} CountsHold(c: Cfg, r: Run, a: nat, k: nat)
    requires ValidRun(c, r) && a <= k <= |r.ev| && FreshEpisode(r.st[a])
    requires forall m :: a <= m < k ==> !r.ev[m].Succeed? && !r.ev[m].Restart?
    ensures Counts(r.st[k], FailedSwitches(r.ev, a, k), EffectiveMax(c))
    decreases k
  {
    if k > a {
      CountsHold(c, r, a, k - 1);
      assert StepAt(c, r, k - 1);
      CountsStep(c, r.st[k - 1], r.ev[k - 1], FailedSwitches(r.ev, a, k - 1));
    } else {
      SmallMod(0, EffectiveMax(c));
    }
  }

  /**
  The attempt counter counts failed switches modulo the maximum, across any number of ticks:
  after n failures it is n mod max (one more while a candidate is on trial, so 1..max in
  SWITCHING), it is zero in HEALTHY and DEGRADED, and `SwitchFailed` says "give up" exactly on
  every max-th failure.
  */
  lemma AttemptsCycle(c: Cfg, r: Run, a: nat, k: nat)
    requires ValidRun(c, r) && a <= k <= |r.ev| && FreshEpisode(r.st[a])
    requires forall m :: a <= m < k ==> !r.ev[m].Succeed? && !r.ev[m].Restart?
    ensures var s, n := r.st[k], FailedSwitches(r.ev, a, k);
      && s.img.mem.switchAttempts == n % EffectiveMax(c) + (if s.phase.Applying? then 1 else 0)
      && (s.phase.Applying? <==> s.img.mem.current == Switching && !s.phase.Idle?)
      && (s.phase.Applying? ==> 1 <= s.img.mem.switchAttempts <= EffectiveMax(c))
      && (s.phase.Applying? ==>
            (s.img.mem.switchAttempts < EffectiveMax(c) <==> (n + 1) % EffectiveMax(c) != 0))
      && (s.img.mem.current in {Healthy, Degraded} ==> n == 0 && s.img.mem.switchAttempts == 0)
  {
    CountsHold(c, r, a, k);
    SuccMod(FailedSwitches(r.ev, a, k), EffectiveMax(c));
  }

  lemma SuccMod(n: nat, m: nat)
    requires m >= 1
    ensures 0 <= n % m < m
    ensures (n + 1) % m == if n % m + 1 == m then 0 else n % m + 1
  {
    var q, r := n / m, n % m;
    assert n == m * q + r;
    if r + 1 == m {
      assert n + 1 == m * (q + 1) + 0;
      DivMod(n + 1, m, q + 1, 0);
    } else {
      DivMod(n + 1, m, q, r + 1);
    }
  }

  lemma DivMod(x: int, m: int, q: int, r: int)
    requires 0 <= r < m && x == m * q + r
    ensures x % m == r
  {
    var d := x / m - q;
    assert m * d == r - x % m;
    MulBounds(m, d);
  }

  lemma MulBounds(m: int, d: int)
    requires m >= 1
    ensures d >= 1 ==> m * d >= m
    ensures d <= -1 ==> m * d <= -m
  {
  }
}
