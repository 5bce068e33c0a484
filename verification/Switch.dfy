/**
The switch engine (daemon/internal/switch/switch.go): probe the pool, rank what answered, and try one after the
other. The AI advisor is disabled.
*/
module Switch {
  import opened Options
  import opened Config
  import opened StateMachine
  import opened Scoring
  import opened Attempts
  import opened ParallelProbe
  import opened Pool
  import Control
  import Learned
  import Probe
  import Store

  /** The pool, what the probe found, the viable candidates by rank, and what was up after the tear-down. */
  datatype SwitchRun = SwitchRun(pool: seq<Tunnel>, results: seq<ProbeResult>, ranked: seq<Tunnel>, idle: set<string>)

  /**
  Every candidate was probed. The active tunnel and all outside the pool are as before, and what is up besides was up
  before or was left up by a failed probe.
  */
  ghost predicate IsProbe(pool: seq<Tunnel>, results: seq<ProbeResult>, activeID: string, before: set<string>,
                          idle: set<string>) {
    && |results| == |pool|
    && (forall i :: 0 <= i < |pool| ==> WellProbed(pool[i], activeID, results[i]))
    && idle <= before + LeftUp(results, activeID)
    && (forall id :: id in LeftUp(results, activeID) ==> id in idle || MayDrop(results, id))
    && Untouched(pool, activeID, before, idle)
  }

  /** The books before a switch, or after it. */
  datatype Ledger = Ledger(books: Books, learned: map<string, Learned.LearnedEntry>)

  /** The scores once all probe results are recorded. */
  function ScoresAfterProbe(before: Ledger, run: SwitchRun): map<string, Entry> {
    ProbesRecorded(before.books.entries, run.results, |run.results|)
  }

  /**
  The simple specification: probe the pool, rank the viable candidates by the scores after all probe results
  are recorded, take the first of the allowed attempts that works, and book exactly those attempts.
  */
  ghost predicate IsSwitch(cfg: EngineCfg, req: Request, before: Ledger, after: Ledger, run: SwitchRun,
                           appliedID: string) {
    var max := Control.AllowedAttempts(cfg.maxAttempts);
    var limit := Limit(run.ranked, max);
    var n := Tried(req.outcome, limit);
    && IsPool(cfg, req, before.learned, run.pool)
    && IsProbe(run.pool, run.results, req.activeID, before.books.up, run.idle)
    && IsRanking(req.q, ScoresAfterProbe(before, run), run.ranked, Viable(run.results, |run.results|))
    && appliedID == WinnerID(run.ranked, req.outcome, limit)
    && after.books.img == ImgAfter(before.books.img, run.ranked, req.outcome, n, max)
    && after.books.entries == WithLog(ScoresAfterProbe(before, run), Log(run.ranked, req.outcome, n), req.hint)
    && after.books.up == UpAfter(run.idle, run.ranked, req.outcome, n)
    && after.learned == Taught(before.learned, run.ranked, req.outcome, limit)
  }

  /** How many attempts a switch makes. */
  function AttemptsMade(cfg: EngineCfg, req: Request, run: SwitchRun): (n: nat)
    ensures n <= |run.ranked|
  {
    Tried(req.outcome, Limit(run.ranked, Control.AllowedAttempts(cfg.maxAttempts)))
  }

  /** Only allowed tunnels are up, or also the returned one, which is. */
  predicate UpWithin(allowed: set<string>, up: set<string>, appliedID: string) {
    up <= allowed || (up <= allowed + {appliedID} && appliedID in up)
  }

  lemma AttemptsWithin(allowed: set<string>, idle: set<string>, ranked: seq<Tunnel>, outcome: nat -> Outcome,
                       limit: nat)
    requires idle <= allowed && limit <= |ranked|
    ensures UpWithin(allowed, UpAfter(idle, ranked, outcome, Tried(outcome, limit)), WinnerID(ranked, outcome, limit))
  {
    SwitchLeavesUp(idle, ranked, outcome, limit);
  }

  class Engine {
    const cfg: EngineCfg
    const machine: Machine
    const db: DB
    // IDs of the tunnels that are up.
    var up: set<string>

    constructor (cfg: EngineCfg, db: DB, machine: Machine, up: set<string>)
      ensures this.cfg == cfg && this.db == db && this.machine == machine && this.up == up
    {
      this.cfg, this.db, this.machine, this.up := cfg, db, machine, up;
    }

    /** The next step of one goroutine of `probeConfig`: bring up, settle, measure. */
    method Advance(config: Tunnel, activeID: string, p: Phase) returns (p': Phase, r: ProbeResult)
      requires !p.Finished? && InPhase(config, activeID, p)
      modifies this`up
      ensures GoStep(config, activeID, p, old(up), p', r, up)
    {
      var tc := Renamed(config, activeID);
      r := ProbeResult(tc, Probe.AggResult(false, 0, 1.0, Probe.ErrNone), Unsupported);
      match p {
        case Ready =>
          if tc.protocol.OtherProto? {
            p' := Finished;             // tunnel.ForConfig
          } else if tc.id == activeID {
            p' := Measuring;            // already running
          } else {
            var ok: bool, leaves: bool, drops: bool := *, *, *;
            if ok {
              up := up + {tc.id};
              p' := Settling;
            } else {
              if leaves {
                up := up + {tc.id};
              } else if drops {
                up := up - {tc.id};
              }
              r := r.(err := UpFailed(leaves));
              p' := Finished;
            }
          }
        case Settling =>
          var expired: bool := *;
          if expired {
            r := r.(err := Expired);    // the Down runs on the expired context: nothing goes down
            p' := Finished;
          } else {
            p' := Measuring;
          }
        case Measuring =>
          var outcomes: seq<Probe.Result> := *;
          var res := Probe.Aggregate(outcomes);
          r := ProbeResult(tc, res, NoErr);
          p' := Finished;
      }
    }

    /**
    All candidates are probed concurrently, with the steps of the goroutines in any order. The active
    tunnel is not touched, and every other tunnel that ends up being up was up before or belongs to
    a candidate whose probe did not fail, or left it up.
    */
    method ParallelProbe(configs: seq<Tunnel>, activeID: string) returns (results: seq<ProbeResult>)
      modifies this`up
      ensures |results| == |configs|
      ensures forall i :: 0 <= i < |configs| ==> WellProbed(configs[i], activeID, results[i])
      ensures Untouched(configs, activeID, old(up), up)
      ensures forall id :: id in up ==> id in old(up) || (id != activeID && BroughtUp(results, id))
      ensures forall r :: r in results && Leaves(r.err) ==> r.tc.id in up || MayDrop(results, r.tc.id)
    {
      var nothing := Probe.AggResult(false, 0, 1.0, Probe.ErrNone);
      results := seq(|configs|, i requires 0 <= i < |configs| => ProbeResult(configs[i], nothing, Unsupported));
      var phase := seq(|configs|, _ => Ready);
      ghost var before := up;
      while exists i :: 0 <= i < |configs| && !phase[i].Finished?
        invariant ProbeInv(configs, activeID, phase, results, before, up)
        decreases TotalLeft(phase)
      {
        var i: nat :| i < |configs| && !phase[i].Finished?;
        label Next:
        var p, r := Advance(configs[i], activeID, phase[i]);
        StepKeepsInv(configs, activeID, phase, results, before, old@Next(up), i, p, r, up);
        phase, results := phase[i := p], results[i := r];
      }
      forall id | id in up && id !in before
        ensures id != activeID && BroughtUp(results, id)
      {
        var i :| 0 <= i < |configs| && configs[i].id == id && Holds(configs, activeID, phase, results, i);
        assert phase[i].Finished? && WellProbed(configs[i], activeID, results[i]);
      }
      forall r | r in results && Leaves(r.err)
        ensures r.tc.id in up || MayDrop(results, r.tc.id)
      {
        var i :| 0 <= i < |configs| && results[i] == r;
        assert phase[i].Finished? && WellProbed(configs[i], activeID, results[i]);
        assert Holds(configs, activeID, phase, results, i);
        if configs[i].id !in up {
          var j :| 0 <= j < |configs| && configs[j].id == configs[i].id && phase[j].Finished?
                   && results[j].err == UpFailed(false);
          assert WellProbed(configs[j], activeID, results[j]);
        }
      }
    }

    /** Every tunnel that was brought up for the probe is taken down again, except the active one. */
    method TearDown(results: seq<ProbeResult>, activeID: string)
      modifies this`up
      ensures up == old(up) - Temporary(results, activeID)
    {
      for i := 0 to |results|
        invariant up == old(up) - Temporary(results[..i], activeID)
      {
        assert results[..i + 1] == results[..i] + [results[i]];
        if results[i].err.NoErr? && results[i].tc.id != activeID {
          up := up - {results[i].tc.id};
        }
      }
      assert results[..|results|] == results;
    }

    method RecordProbes(results: seq<ProbeResult>)
      modifies db
      ensures db.entries == ProbesRecorded(old(db.entries), results, |results|)
    {
      for i := 0 to |results|
        invariant db.entries == ProbesRecorded(old(db.entries), results, i)
      {
        if results[i].err.NoErr? {
          db.RecordProbeResult(results[i].tc.id, results[i].res);
        }
      }
    }

    method CollectViable(results: seq<ProbeResult>) returns (viable: seq<Tunnel>)
      ensures viable == Viable(results, |results|)
    {
      viable := [];
      for i := 0 to |results|
        invariant viable == Viable(results, i)
      {
        if results[i].err.NoErr? && results[i].res.success {
          viable := viable + [results[i].tc];
        }
      }
    }

    method RecordOutcome(id: string, start: int, success: bool, hint: BlockType)
      modifies db
      ensures db.entries == WithOutcome(old(db.entries), Session(id, start, success), hint)
    {
      db.RecordSession(Session(id, start, success));
      if hint != BlockNone {
        db.RecordDPIResult(id, BlockName(hint), success);
      }
    }

    ghost function Now(): Books
      reads this, machine, db
    {
      Books(machine.Img(), db.entries, up)
    }

    /** An attempt that fails: SWITCHING is entered, and left again for PROBING. */
    method FailedAttempt(tc: Tunnel, o: Outcome, hint: BlockType, maxAttempts: int)
      requires !o.Works?
      modifies this`up, machine, db
      ensures Now() == Attempted(old(Now()), tc, o, hint, maxAttempts)
    {
      machine.EnterSwitching(tc.id);
      match o {
        case ApplyFails(start, drops) =>
          if drops {
            up := up - {tc.id};
          }
          RecordOutcome(tc.id, start, false, hint);
          var _ := machine.SwitchFailed(maxAttempts);
        case VerifyFails(start) =>
          up := up + {tc.id};
          up := up - {tc.id};
          RecordOutcome(tc.id, start, false, hint);
          var _ := machine.SwitchFailed(maxAttempts);
      }
    }

    /** An attempt that works: a variant is learned, and the machine is HEALTHY with the new configuration. */
    method WorkingAttempt(tc: Tunnel, o: Outcome, hint: BlockType, maxAttempts: int, learnedDB: Learned.LearnedDB)
      requires o.Works?
      modifies this`up, machine, db, learnedDB
      ensures Now() == Attempted(old(Now()), tc, o, hint, maxAttempts)
      ensures learnedDB.entries == Learned.Recorded(old(learnedDB.entries), tc, o.noted)
    {
      machine.EnterSwitching(tc.id);
      up := up + {tc.id};
      RecordOutcome(tc.id, o.start, true, hint);
      if tc.isVariant {
        var runtimeOk: bool, persistentOk: bool := *, *;
        learnedDB.RecordSuccess(tc, o.noted, runtimeOk, persistentOk);
      }
      machine.SwitchSucceeded(tc.id, o.at);
    }

    /** The attempts before the first one that works, or all that are allowed. */
    method FailingAttempts(ranked: seq<Tunnel>, maxAttempts: int, hint: BlockType, outcome: nat -> Outcome)
      returns (i: nat)
      requires maxAttempts >= 1
      modifies this`up, machine, db
      ensures i == FirstGood(outcome, Limit(ranked, maxAttempts))
      ensures Now() == AfterAttempts(old(Now()), ranked, outcome, i, hint, maxAttempts)
    {
      ghost var before := Now();
      i := 0;
      while i < |ranked| && i < maxAttempts && !outcome(i).Works?
        invariant i <= FirstGood(outcome, Limit(ranked, maxAttempts))
        invariant Now() == AfterAttempts(before, ranked, outcome, i, hint, maxAttempts)
        decreases |ranked| - i
      {
        FailedAttempt(ranked[i], outcome(i), hint, maxAttempts);
        i := i + 1;
      }
    }

    /** After the failing attempts: the one that works, if there is one left within the limit. */
    method Conclude(ranked: seq<Tunnel>, i: nat, limit: nat, hint: BlockType, outcome: nat -> Outcome, maxAttempts: int,
                    learnedDB: Learned.LearnedDB)
      returns (appliedID: string)
      requires limit <= |ranked| && i == FirstGood(outcome, limit)
      modifies this`up, machine, db, learnedDB
      ensures appliedID == WinnerID(ranked, outcome, limit)
      ensures Now() == if i < limit then Attempted(old(Now()), ranked[i], outcome(i), hint, maxAttempts) else old(Now())
      ensures learnedDB.entries == Taught(old(learnedDB.entries), ranked, outcome, limit)
    {
      appliedID := "";
      if i < limit {
        WorkingAttempt(ranked[i], outcome(i), hint, maxAttempts, learnedDB);
        appliedID := ranked[i].id;
      }
    }

    /**
    The attempt loop: stops at the first candidate that comes up and is verified, or after the allowed
    number of attempts, and returns its ID, or "".
    */
    method ApplyBest(ranked: seq<Tunnel>, hint: BlockType, outcome: nat -> Outcome, learnedDB: Learned.LearnedDB)
      returns (appliedID: string)
      modifies this`up, machine, db, learnedDB
      ensures var max := Control.AllowedAttempts(cfg.maxAttempts); var limit := Limit(ranked, max);
        && appliedID == WinnerID(ranked, outcome, limit)
        && Now() == AfterAttempts(old(Now()), ranked, outcome, Tried(outcome, limit), hint, max)
        && learnedDB.entries == Taught(old(learnedDB.entries), ranked, outcome, limit)
    {
      var maxAttempts := cfg.maxAttempts;
      if maxAttempts <= 0 {
        maxAttempts := 3;
      }
      ghost var before := Now();
      var i := FailingAttempts(ranked, maxAttempts, hint, outcome);
      LastAttempt(before, ranked, outcome, Limit(ranked, maxAttempts), hint, maxAttempts);
      appliedID := Conclude(ranked, i, Limit(ranked, maxAttempts), hint, outcome, maxAttempts, learnedDB);
    }

    ghost function Everything(learnedDB: Learned.LearnedDB): Ledger
      reads this, machine, db, learnedDB
    {
      Ledger(Now(), learnedDB.entries)
    }

    /** Build the pool, probe it, tear down, record the results, and keep the viable candidates. */
    method ProbePool(req: Request, learnedDB: Learned.LearnedDB) returns (viable: seq<Tunnel>, ghost run: SwitchRun)
      modifies this`up, db
      ensures IsPool(cfg, req, learnedDB.entries, run.pool)
      ensures IsProbe(run.pool, run.results, req.activeID, old(up), run.idle) && run.ranked == [] && run.idle == up
      ensures viable == Viable(run.results, |run.results|)
      ensures db.entries == ScoresAfterProbe(old(Everything(learnedDB)), run)
    {
      var pool := BuildPool(cfg, req, learnedDB);
      var results := ParallelProbe(pool, req.activeID);
      ghost var probed := up;
      TearDown(results, req.activeID);
      TearDownLeaves(pool, results, req.activeID, old(up), probed);
      RecordProbes(results);
      viable := CollectViable(results);
      run := SwitchRun(pool, results, [], up);
    }

    /**
    With the outcome of every probe, Up, apply and verify left open, and the goroutines interleaved in
    any way, this is the simple specification `IsSwitch`. No tunnel is up that was not up before, except the
    returned one and those that failed probes left up.
    */
    method ProbeAndSwitch(req: Request, learnedDB: Learned.LearnedDB) returns (appliedID: string, ghost run: SwitchRun)
      modifies this`up, machine, db, learnedDB
      ensures req.bases == [] ==> appliedID == "" && Everything(learnedDB) == old(Everything(learnedDB))
      ensures req.bases != [] ==>
        IsSwitch(cfg, req, old(Everything(learnedDB)), Everything(learnedDB), run, appliedID)
      ensures UpWithin(old(up) + LeftUp(run.results, req.activeID), up, appliedID)
    {
      run := SwitchRun([], [], [], up);
      if |req.bases| == 0 {
        return "", run;
      }
      var viable;
      viable, run := ProbePool(req, learnedDB);
      if |viable| == 0 {
        NothingRanked(req.q, db.entries);
        return "", run;
      }
      var ranked := db.Rank(req.q, viable);
      run := run.(ranked := ranked);
      ghost var limit := Limit(ranked, Control.AllowedAttempts(cfg.maxAttempts));
      AttemptsWithin(old(up) + LeftUp(run.results, req.activeID), up, ranked, req.outcome, limit);
      BooksBalance(Now(), ranked, req.outcome, Tried(req.outcome, limit), req.hint,
                   Control.AllowedAttempts(cfg.maxAttempts));
      appliedID := ApplyBest(ranked, req.hint, req.outcome, learnedDB);
    }
  }

  lemma LastAttempt(b: Books, ranked: seq<Tunnel>, outcome: nat -> Outcome, limit: nat, hint: BlockType,
                    maxAttempts: int)
    requires limit <= |ranked|
    ensures var g := FirstGood(outcome, limit);
      var failed := AfterAttempts(b, ranked, outcome, g, hint, maxAttempts);
      AfterAttempts(b, ranked, outcome, Tried(outcome, limit), hint, maxAttempts)
      == if g < limit then Attempted(failed, ranked[g], outcome(g), hint, maxAttempts) else failed
  {
  }

  lemma NothingRanked(q: real, entries: map<string, Entry>)
    ensures IsRanking(q, entries, [], [])
  {
  }

  // ---- What follows from the specification ----

  /** After a switch only those are up that were, that failed probes left up, and the returned one, which is. */
  lemma SwitchUpSet(cfg: EngineCfg, req: Request, before: Ledger, after: Ledger, run: SwitchRun, appliedID: string)
    requires IsSwitch(cfg, req, before, after, run, appliedID)
    ensures var win := Winner(run.ranked, req.outcome, Limit(run.ranked, Control.AllowedAttempts(cfg.maxAttempts)));
      var allowed := before.books.up + LeftUp(run.results, req.activeID);
      if win.Some? then appliedID in after.books.up && after.books.up <= allowed + {appliedID}
      else after.books.up <= allowed
  {
    SwitchLeavesUp(run.idle, run.ranked, req.outcome, Limit(run.ranked, Control.AllowedAttempts(cfg.maxAttempts)));
  }

  /** The attempts are about the active tunnel and those that were taken down after their probe. */
  lemma RankedWasProbed(run: SwitchRun, activeID: string, tc: Tunnel)
    requires multiset(run.ranked) == multiset(Viable(run.results, |run.results|)) && tc in run.ranked
    ensures tc.id == activeID || tc.id in Temporary(run.results, activeID)
  {
    assert tc in multiset(run.ranked);
    assert tc in multiset(Viable(run.results, |run.results|));
    ViableMembers(run.results, |run.results|, tc);
    var i :| 0 <= i < |run.results| && run.results[i].tc == tc && run.results[i].err.NoErr?;
    assert run.results[i] in run.results;
  }

  /** The attempts do not reach what failed probes left up. */
  lemma LeftStaysUp(cfg: EngineCfg, req: Request, before: Ledger, after: Ledger, run: SwitchRun, appliedID: string,
                    id: string)
    requires IsSwitch(cfg, req, before, after, run, appliedID) && id in LeftUp(run.results, req.activeID)
    ensures (id in after.books.up <==> id in run.idle) && forall tc :: tc in run.ranked ==> tc.id != id
  {
    var r :| r in run.results && Leaves(r.err) && r.tc.id == id;
    var i :| 0 <= i < |run.results| && run.results[i] == r;
    assert WellProbed(run.pool[i], req.activeID, r);
    forall tc | tc in run.ranked
      ensures tc.id != id
    {
      RankedWasProbed(run, req.activeID, tc);
    }
    UpElsewhere(run.idle, run.ranked, req.outcome, AttemptsMade(cfg, req, run), id);
  }

  /** What failed probes left up and is up after the tear-down: all of it, but for failing Ups of the same tunnels. */
  function StillUp(run: SwitchRun, activeID: string): set<string> {
    LeftUp(run.results, activeID) * run.idle
  }

  /**
  Nothing but the returned tunnel is up that was not up before exactly when what failed probes left up was up before.
  All they left up is, unless a failing Up of the same tunnel interfered.
  */
  lemma NothingLeftIff(cfg: EngineCfg, req: Request, before: Ledger, after: Ledger, run: SwitchRun, appliedID: string)
    requires IsSwitch(cfg, req, before, after, run, appliedID)
    ensures var win := Winner(run.ranked, req.outcome, Limit(run.ranked, Control.AllowedAttempts(cfg.maxAttempts)));
      after.books.up <= before.books.up + (if win.Some? then {appliedID} else {})
      <==> StillUp(run, req.activeID) <= before.books.up
    ensures forall id :: id in LeftUp(run.results, req.activeID) && !MayDrop(run.results, id) ==>
      id in StillUp(run, req.activeID)
  {
    var limit := Limit(run.ranked, Control.AllowedAttempts(cfg.maxAttempts));
    var win := Winner(run.ranked, req.outcome, limit);
    SwitchLeavesUp(run.idle, run.ranked, req.outcome, limit);
    forall id | id in StillUp(run, req.activeID)
      ensures id in after.books.up && (win.Some? ==> id != appliedID)
    {
      LeftStaysUp(cfg, req, before, after, run, appliedID, id);
      if win.Some? {
        assert win.value in run.ranked;
      }
    }
  }

  /** Whatever is ranked comes from the pool. */
  lemma RankedFromPool(run: SwitchRun, activeID: string, before: set<string>, tc: Tunnel) returns (i: nat)
    requires IsProbe(run.pool, run.results, activeID, before, run.idle)
    requires multiset(run.ranked) == multiset(Viable(run.results, |run.results|))
    requires tc in run.ranked
    ensures i < |run.pool| && tc == Renamed(run.pool[i], activeID)
  {
    assert tc in multiset(run.ranked);
    assert tc in multiset(Viable(run.results, |run.results|));
    ViableMembers(run.results, |run.results|, tc);
    i :| i < |run.results| && run.results[i].tc == tc;
    assert WellProbed(run.pool[i], activeID, run.results[i]);
  }

  /** What is learned from a switch keeps every record under its own key, so the database survives a restart. */
  lemma LearnedStaysKeyed(cfg: EngineCfg, req: Request, before: Ledger, after: Ledger, run: SwitchRun,
                          appliedID: string)
    requires IsSwitch(cfg, req, before, after, run, appliedID)
    requires Store.Keyed(before.learned, Learned.EntryKey) && forall bc :: bc in req.bases ==> !bc.isVariant
    ensures Store.Keyed(after.learned, Learned.EntryKey)
  {
    var limit := Limit(run.ranked, Control.AllowedAttempts(cfg.maxAttempts));
    var win := Winner(run.ranked, req.outcome, limit);
    if win.Some? && win.value.isVariant {
      var i := RankedFromPool(run, req.activeID, before.books.up, win.value);
      PoolNames(cfg, req, before.learned, run.pool, run.pool[i]);
      Learned.KeyedAfterIff(before.learned, win.value, req.outcome(FirstGood(req.outcome, limit)).noted);
    }
  }

  /** "" is returned exactly when nothing worked, as no configuration has an empty ID. */
  lemma WinnerHasID(cfg: EngineCfg, req: Request, before: Ledger, after: Ledger, run: SwitchRun, appliedID: string)
    requires IsSwitch(cfg, req, before, after, run, appliedID) && forall bc :: bc in req.bases ==> bc.id != ""
    ensures var limit := Limit(run.ranked, Control.AllowedAttempts(cfg.maxAttempts));
      appliedID == "" <==> Winner(run.ranked, req.outcome, limit).None?
  {
    var win := Winner(run.ranked, req.outcome, Limit(run.ranked, Control.AllowedAttempts(cfg.maxAttempts)));
    if win.Some? {
      var i := RankedFromPool(run, req.activeID, before.books.up, win.value);
      PoolNames(cfg, req, before.learned, run.pool, run.pool[i]);
    }
  }

  // ---- The scores ----

  /** Every viable configuration that was not tried scores no higher than any that was. */
  lemma UntriedScoreNoHigher(cfg: EngineCfg, req: Request, before: Ledger, after: Ledger, run: SwitchRun,
                             appliedID: string, v: Tunnel, i: nat)
    requires IsSwitch(cfg, req, before, after, run, appliedID) && v in Viable(run.results, |run.results|)
    requires var n := AttemptsMade(cfg, req, run); i < n && v !in run.ranked[..n]
    ensures ScoreOf(req.q, ScoresAfterProbe(before, run), v)
         <= ScoreOf(req.q, ScoresAfterProbe(before, run), run.ranked[i])
  {
    assert v in multiset(Viable(run.results, |run.results|));
    assert v in multiset(run.ranked);
    var j :| 0 <= j < |run.ranked| && run.ranked[j] == v;
    assert j >= AttemptsMade(cfg, req, run);
  }

  lemma {:induction false} ProbesKeepSessions(entries: map<string, Entry>, results: seq<ProbeResult>, n: nat,
                                              id: string)
    requires n <= |results|
    ensures EntryOrDefault(ProbesRecorded(entries, results, n), id).sessions == EntryOrDefault(entries, id).sessions
  {
    if n > 0 {
      ProbesKeepSessions(entries, results, n - 1, id);
    }
  }

  /**
  A switch books one session for every attempt on a configuration, and probing books none. At most one of them is
  a success, and that is the last one and for the returned ID.
  */
  lemma SessionsBooked(cfg: EngineCfg, req: Request, before: Ledger, after: Ledger, run: SwitchRun,
                       appliedID: string, id: string)
    requires IsSwitch(cfg, req, before, after, run, appliedID)
    ensures EntryOrDefault(after.books.entries, id).sessions
         == EntryOrDefault(before.books.entries, id).sessions
            + SessionsOf(Log(run.ranked, req.outcome, AttemptsMade(cfg, req, run)), id)
    ensures var log := Log(run.ranked, req.outcome, AttemptsMade(cfg, req, run));
      forall i :: 0 <= i < |log| && log[i].success ==> i == |log| - 1 && log[i].configID == appliedID
  {
    OneSessionPerAttempt(run.ranked, req.outcome, Limit(run.ranked, Control.AllowedAttempts(cfg.maxAttempts)));
    ProbesKeepSessions(before.books.entries, run.results, |run.results|, id);
    var log := Log(run.ranked, req.outcome, AttemptsMade(cfg, req, run));
    CountersGrow(ScoresAfterProbe(before, run), log, req.hint, id);
  }

  lemma {:induction false} ProbesKeepSane(entries: map<string, Entry>, results: seq<ProbeResult>, n: nat)
    requires n <= |results| && AllSane(entries)
    requires forall i :: 0 <= i < |results| && results[i].err.NoErr? ==> 0.0 <= results[i].res.packetLoss <= 1.0
    ensures AllSane(ProbesRecorded(entries, results, n))
  {
    if n > 0 {
      ProbesKeepSane(entries, results, n - 1);
      if results[n - 1].err.NoErr? {
        var e := EntryOrDefault(ProbesRecorded(entries, results, n - 1), results[n - 1].tc.id);
        assert Sane(e) && Sane(ProbeUpdate(e, results[n - 1].res));
      }
    }
  }

  lemma OutcomeKeepsSane(entries: map<string, Entry>, sess: Session, hint: BlockType)
    requires AllSane(entries)
    ensures AllSane(WithOutcome(entries, sess, hint))
  {
    assert Sane(AttemptUpdate(EntryOrDefault(entries, sess.configID), sess.success, sess.startedAt, hint));
  }

  lemma {:induction false} LogKeepsSane(entries: map<string, Entry>, log: seq<Session>, hint: BlockType)
    requires AllSane(entries)
    ensures AllSane(WithLog(entries, log, hint))
  {
    if log != [] {
      LogKeepsSane(entries, log[..|log| - 1], hint);
      OutcomeKeepsSane(WithLog(entries, log[..|log| - 1], hint), log[|log| - 1], hint);
    }
  }

  /**
  A switch keeps every average of the database in range, so what is proved of such entries holds of the scores
  the ranking compares: they lie strictly between 9 and 99.25.
  */
  lemma SwitchKeepsSane(cfg: EngineCfg, req: Request, before: Ledger, after: Ledger, run: SwitchRun, appliedID: string)
    requires IsSwitch(cfg, req, before, after, run, appliedID) && AllSane(before.books.entries)
    ensures AllSane(ScoresAfterProbe(before, run)) && AllSane(after.books.entries)
    ensures 0.0 < req.q < 1.0 ==> forall v :: v in run.ranked ==>
      9.0 < ScoreOf(req.q, ScoresAfterProbe(before, run), v) < 99.25
  {
    var scores := ScoresAfterProbe(before, run);
    forall i | 0 <= i < |run.results| && run.results[i].err.NoErr?
      ensures 0.0 <= run.results[i].res.packetLoss <= 1.0
    {
      assert WellProbed(run.pool[i], req.activeID, run.results[i]);
    }
    ProbesKeepSane(before.books.entries, run.results, |run.results|);
    LogKeepsSane(scores, Log(run.ranked, req.outcome, AttemptsMade(cfg, req, run)), req.hint);
    forall v | v in run.ranked && 0.0 < req.q < 1.0
      ensures 9.0 < ScoreOf(req.q, scores, v) < 99.25
    {
      ScoreBounds(req.q, EntryOrDefault(scores, v.id), v);
    }
  }

  lemma {:induction false} ProbesKeepKeyed(entries: map<string, Entry>, results: seq<ProbeResult>, n: nat)
    requires n <= |results| && Store.Keyed(entries, EntryID)
    ensures Store.Keyed(ProbesRecorded(entries, results, n), EntryID)
  {
    if n > 0 {
      ProbesKeepKeyed(entries, results, n - 1);
    }
  }

  lemma {:induction false} LogKeepsKeyed(entries: map<string, Entry>, log: seq<Session>, hint: BlockType)
    requires Store.Keyed(entries, EntryID)
    ensures Store.Keyed(WithLog(entries, log, hint), EntryID)
  {
    if log != [] {
      LogKeepsKeyed(entries, log[..|log| - 1], hint);
    }
  }

  /** Both together. */
  lemma SwitchKeepsSound(cfg: EngineCfg, req: Request, before: Ledger, after: Ledger, run: SwitchRun, appliedID: string)
    requires IsSwitch(cfg, req, before, after, run, appliedID) && Sound(before.books.entries)
    ensures Sound(after.books.entries)
  {
    SwitchKeepsSane(cfg, req, before, after, run, appliedID);
    ScoresStayKeyed(cfg, req, before, after, run, appliedID);
  }

  /** A switch keeps every score under its own ID, so a saved database is read back (`ScoresSurviveRestart`). */
  lemma ScoresStayKeyed(cfg: EngineCfg, req: Request, before: Ledger, after: Ledger, run: SwitchRun, appliedID: string)
    requires IsSwitch(cfg, req, before, after, run, appliedID) && Store.Keyed(before.books.entries, EntryID)
    ensures Store.Keyed(after.books.entries, EntryID)
  {
    ProbesKeepKeyed(before.books.entries, run.results, |run.results|);
    var log := Log(run.ranked, req.outcome, AttemptsMade(cfg, req, run));
    LogKeepsKeyed(ScoresAfterProbe(before, run), log, req.hint);
  }
}
