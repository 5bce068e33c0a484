/**
The event loop (daemon/internal/watchdog/watchdog.go): every tick, whatever the probes, the detector and the
switch engine come up with, is a path of the step system of module `Control`. So the properties
proved there of all runs hold of the daemon, crashes and restarts included.
*/
module Watchdog {
  import opened Options
  import opened Config
  import opened StateMachine
  import opened Attempts
  import Control
  import Histories
  import Learned
  import ParallelProbe
  import Pool
  import Probe
  import Scoring
  import Switch
  import Variants

  /** What the detector says (`BlockNone` for no block). */
  datatype Detection = Detection(blockType: BlockType, reason: string, confidence: real)

  /** A classification below 0.6 does not bias the variants. */
  function GatedHint(d: Detection): BlockType {
    if d.confidence < 0.6 then BlockNone else d.blockType
  }

  /** What the engine is asked to do for this detection. */
  function RequestFor(candidates: seq<Tunnel>, activeID: string, d: Detection, q: real, dice: nat -> Variants.Dice,
                      outcome: nat -> Outcome): Pool.Request {
    Pool.Request(candidates, activeID, GatedHint(d), d.reason, d.confidence, q, dice, outcome)
  }

  /** One switch: what was asked, what the engine did, and what it returned. */
  datatype Done = Done(req: Pool.Request, run: Switch.SwitchRun, appliedID: string)

  /** What the step system sees of it. */
  function EventsOf(cfg: Pool.EngineCfg, d: Done): seq<Control.Event> {
    SwitchEvents(d.run.ranked, d.req.outcome, Limit(d.run.ranked, Control.AllowedAttempts(cfg.maxAttempts)))
  }

  /** What a tick in HEALTHY or DEGRADED amounts to. */
  function ProbeEvent(m: Mem, cooldown: int, now: int, outcomes: seq<Probe.Result>): Control.Event {
    if m.current == Healthy && InCooldownAt(m, cooldown, now) then Control.Skip(now)
    else if 2 * Probe.Successes(outcomes, |outcomes|) > |outcomes| then Control.ProbeOk(now)
    else Control.ProbeFail(now)
  }

  /** A switch as the state machine sees it: some candidates were ranked, and these events are the attempts on them. */
  ghost predicate SeenAs(c: Control.Cfg, outcome: nat -> Outcome, before: Image, after: Image, appliedID: string,
                         ev: seq<Control.Event>) {
    exists ranked, limit: nat ::
      && limit == Limit(ranked, Control.EffectiveMax(c)) && ev == SwitchEvents(ranked, outcome, limit)
      && after == ImgAfter(before, ranked, outcome, Tried(outcome, limit), Control.EffectiveMax(c))
      && (appliedID == "" <==> Winner(ranked, outcome, limit).None?)
  }

  // ---- What the daemon has up, over all its ticks ----

  /** What a tick does besides the state machine: a switch, or nothing. */
  ghost predicate LedgerStep(cfg: Pool.EngineCfg, before: Switch.Ledger, after: Switch.Ledger, done: Option<Done>) {
    match done
    case None => after == before.(books := before.books.(img := after.books.img))
    case Some(d) => Switch.IsSwitch(cfg, d.req, before, after, d.run, d.appliedID)
  }

  ghost function StepOf(cfg: Pool.EngineCfg): (Switch.Ledger, Option<Done>, Switch.Ledger) -> bool {
    (before: Switch.Ledger, done: Option<Done>, after: Switch.Ledger) => LedgerStep(cfg, before, after, done)
  }

  /** The ledger before each tick and at the end, and what each tick did. */
  ghost predicate LedgerRun(cfg: Pool.EngineCfg, ledgers: seq<Switch.Ledger>, done: seq<Option<Done>>) {
    Histories.IsHistory(StepOf(cfg), ledgers, done)
  }

  lemma LedgerExtend(cfg: Pool.EngineCfg, ledgers: seq<Switch.Ledger>, done: seq<Option<Done>>, after: Switch.Ledger,
                     d: Option<Done>)
    requires LedgerRun(cfg, ledgers, done) && LedgerStep(cfg, ledgers[|done|], after, d)
    ensures LedgerRun(cfg, ledgers + [after], done + [d])
  {
    assert StepOf(cfg)(ledgers[|done|], d, after);
    Histories.Extend(StepOf(cfg), ledgers, done, after, d);
  }

  predicate Won(cfg: Pool.EngineCfg, d: Done) {
    Winner(d.run.ranked, d.req.outcome, Limit(d.run.ranked, Control.AllowedAttempts(cfg.maxAttempts))).Some?
  }

  /** The tunnels that switches returned, and those that their failed probes left up. */
  function Accounted(cfg: Pool.EngineCfg, done: seq<Option<Done>>): set<string> {
    if done == [] then {} else
      var last := done[|done| - 1];
      Accounted(cfg, done[..|done| - 1])
      + (match last
         case None => {}
         case Some(d) =>
           (if Won(cfg, d) then {d.appliedID} else {}) + ParallelProbe.LeftUp(d.run.results, d.req.activeID))
  }

  lemma LedgerStepKeeps(cfg: Pool.EngineCfg, before: Switch.Ledger, after: Switch.Ledger, done: Option<Done>)
    requires LedgerStep(cfg, before, after, done)
    ensures after.books.up <= before.books.up + Accounted(cfg, [done])
    ensures Scoring.Sound(before.books.entries) ==> Scoring.Sound(after.books.entries)
  {
    assert [done][..0] == [] && Accounted(cfg, []) == {};
    if done.Some? {
      var d := done.value;
      Switch.SwitchUpSet(cfg, d.req, before, after, d.run, d.appliedID);
      if Scoring.Sound(before.books.entries) {
        Switch.SwitchKeepsSound(cfg, d.req, before, after, d.run, d.appliedID);
      }
    }
  }

  lemma AccountedSnoc(cfg: Pool.EngineCfg, done: seq<Option<Done>>, d: Option<Done>)
    ensures Accounted(cfg, done + [d]) == Accounted(cfg, done) + Accounted(cfg, [d])
  {
    assert (done + [d])[..|done|] == done && [d][..0] == [];
  }

  /**
  Over all ticks of a process: whatever is up was up at the start, or was returned by a switch, or was left up by a
  failed probe. The scores stay in range and under their own IDs.
  */
  lemma {:induction false} TunnelsAccounted(cfg: Pool.EngineCfg, ledgers: seq<Switch.Ledger>, done: seq<Option<Done>>)
    requires LedgerRun(cfg, ledgers, done)
    ensures ledgers[|done|].books.up <= ledgers[0].books.up + Accounted(cfg, done)
    ensures Scoring.Sound(ledgers[0].books.entries) ==> Scoring.Sound(ledgers[|done|].books.entries)
  {
    if done != [] {
      var n := |done| - 1;
      var earlier := done[..n];
      Histories.Prefix(StepOf(cfg), ledgers, done, n);
      TunnelsAccounted(cfg, ledgers[..n + 1], earlier);
      assert StepOf(cfg)(ledgers[n], done[n], ledgers[n + 1]);
      LedgerStepKeeps(cfg, ledgers[n], ledgers[n + 1], done[n]);
      AccountedSnoc(cfg, earlier, done[n]);
      assert earlier + [done[n]] == done;
    }
  }

  class Watchdog {
    const ctl: Control.Cfg
    const machine: Machine
    const db: Scoring.DB
    const eng: Switch.Engine
    const learnedDB: Learned.LearnedDB
    var lastDPIResult: Detection
    var lastStateWasProbing: bool
    // The run so far: where it started, its events, and the latest time any of them saw.
    ghost const start: Control.Sys
    ghost var trace: seq<Control.Event>
    ghost var clock: int
    // What the engine did, tick by tick.
    ghost var ledgers: seq<Switch.Ledger>
    ghost var done: seq<Option<Done>>

    ghost function Now(): Control.Sys
      reads this, machine
    {
      Control.Sys(machine.Img(), lastStateWasProbing, Control.Idle, clock)
    }

    /** The engine works on this machine and this database, and the events so far lead to the present state. */
    ghost predicate Valid()
      reads this, machine, eng
    {
      && eng.machine == machine && eng.db == db && eng.cfg.maxAttempts == ctl.maxAttempts
      && Control.Reaches(ctl, start, trace, Now())
    }

    /** The ledgers are those of a run of this engine that ends with what is there now. */
    ghost predicate Logged()
      reads this, machine, eng, db, learnedDB
    {
      && eng.machine == machine && eng.db == db
      && LedgerRun(eng.cfg, ledgers, done) && ledgers[|done|] == eng.Everything(learnedDB)
    }

    /** A first process, over whatever state file there is. */
    constructor (ctl: Control.Cfg, cfg: Pool.EngineCfg, file: Option<Persisted>, db: Scoring.DB,
                 learnedDB: Learned.LearnedDB,
                 up: set<string>, lastDetection: Detection, ghost clock: int)
      requires cfg.maxAttempts == ctl.maxAttempts
      ensures Valid() && Now() == start == Control.Boot(file, clock) && trace == []
      ensures Logged() && done == [] && ledgers[0].books.up == up
      ensures this.ctl == ctl && this.db == db && this.learnedDB == learnedDB && fresh(machine) && fresh(eng)
    {
      this.ctl, this.db, this.learnedDB := ctl, db, learnedDB;
      var m := new Machine(file);
      machine := m;
      eng := new Switch.Engine(cfg, db, m, up);
      lastDPIResult, lastStateWasProbing := lastDetection, false;
      ledgers := [Switch.Ledger(Books(Image(Restore(file), file), db.entries, up), learnedDB.entries)];
      done := [];
      start, trace, this.clock := Control.Boot(file, clock), [], clock;
      new;
      Control.ReachesNothing(ctl, start);
    }

    /** A new process over the state file of a run that stopped anywhere, even in the middle of a switch. */
    constructor Restarted(ctl: Control.Cfg, cfg: Pool.EngineCfg, db: Scoring.DB, learnedDB: Learned.LearnedDB,
                          up: set<string>,
                          lastDetection: Detection, file: Option<Persisted>,
                          ghost start: Control.Sys, ghost trace: seq<Control.Event>, ghost stopped: Control.Sys)
      requires cfg.maxAttempts == ctl.maxAttempts
      requires Control.Reaches(ctl, start, trace, stopped) && stopped.img.disk == file
      ensures Valid() && this.start == start && this.trace == trace + [Control.Restart]
      ensures Logged() && done == [] && ledgers[0].books.up == up
      ensures this.ctl == ctl && this.db == db && this.learnedDB == learnedDB && fresh(machine) && fresh(eng)
    {
      this.ctl, this.db, this.learnedDB := ctl, db, learnedDB;
      var m := new Machine(file);
      machine := m;
      eng := new Switch.Engine(cfg, db, m, up);
      lastDPIResult, lastStateWasProbing := lastDetection, false;
      ledgers := [Switch.Ledger(Books(Image(Restore(file), file), db.entries, up), learnedDB.entries)];
      done := [];
      this.start, this.trace, this.clock := start, trace + [Control.Restart], stopped.clock;
      new;
      Control.ReachesOne(ctl, start, trace, stopped, Control.Restart, Now());
    }

    method DoProbe(now: int, outcomes: seq<Probe.Result>)
      requires Valid() && now >= clock && machine.current in {Healthy, Degraded}
      modifies this`lastStateWasProbing, this`trace, this`clock, machine
      ensures Valid() && clock == now
      ensures trace == old(trace) + [ProbeEvent(old(machine.Img().mem), ctl.cooldown, now, outcomes)]
    {
      ghost var before := Now();
      ghost var e := Control.Skip(now);
      var cooling := machine.InCooldown(ctl.cooldown, now);
      if !(machine.current == Healthy && cooling) {
        var res := Probe.Aggregate(outcomes);
        if res.success {
          machine.RecordSuccess(ctl.degraded);
          lastStateWasProbing := false;
          e := Control.ProbeOk(now);
        } else {
          var _ := machine.RecordFailure(ctl.degraded, ctl.probing);
          e := Control.ProbeFail(now);
        }
      }
      clock := now;
      Control.ReachesOne(ctl, start, trace, before, e, Now());
      trace := trace + [e];
    }

    /** The engine's answer, seen from the state machine: "" exactly when nothing worked. */
    method CallEngine(req: Pool.Request) returns (appliedID: string, ghost d: Done)
      requires eng.machine == machine && eng.db == db && eng.cfg.maxAttempts == ctl.maxAttempts
      requires req.bases != [] && forall bc :: bc in req.bases ==> bc.id != ""
      modifies machine, db, learnedDB, eng
      ensures SeenAs(ctl, req.outcome, old(machine.Img()), machine.Img(), appliedID, EventsOf(eng.cfg, d))
      ensures d.req == req && LedgerStep(eng.cfg, old(eng.Everything(learnedDB)), eng.Everything(learnedDB), Some(d))
    {
      ghost var run;
      appliedID, run := eng.ProbeAndSwitch(req, learnedDB);
      d := Done(req, run, appliedID);
      Switch.WinnerHasID(eng.cfg, req, old(eng.Everything(learnedDB)), eng.Everything(learnedDB), run, appliedID);
    }

    /** After the engine: the flag, and the events of the switch. */
    method Conclude(appliedID: string, ghost outcome: nat -> Outcome, ghost before: Control.Sys,
                    ghost ev: seq<Control.Event>)
      requires eng.machine == machine && eng.db == db && eng.cfg.maxAttempts == ctl.maxAttempts
      requires Control.Reaches(ctl, start, trace, before) && before.phase.Idle? && before.img.mem.current == Probing
      requires lastStateWasProbing && clock == before.clock && NotBefore(outcome, clock)
      requires SeenAs(ctl, outcome, before.img, machine.Img(), appliedID, ev)
      modifies this`lastStateWasProbing, this`trace, this`clock
      ensures Valid() && clock >= old(clock) && trace == old(trace) + ev
    {
      if appliedID != "" {
        lastStateWasProbing := false;
      }
      ghost var ranked, limit: nat :|
        && limit == Limit(ranked, Control.EffectiveMax(ctl)) && ev == SwitchEvents(ranked, outcome, limit)
        && machine.Img() == ImgAfter(before.img, ranked, outcome, Tried(outcome, limit), Control.EffectiveMax(ctl))
        && (appliedID == "" <==> Winner(ranked, outcome, limit).None?);
      clock := if Winner(ranked, outcome, limit).Some? then outcome(Tried(outcome, limit) - 1).at else clock;
      SwitchIsPath(ctl, before, ranked, outcome, limit);
      Control.ReachesConcat(ctl, start, trace, before, ev, Now());
      trace := trace + ev;
    }

    /** The switch itself, once detection has run in this PROBING episode. */
    method SwitchNow(candidates: seq<Tunnel>, q: real, dice: nat -> Variants.Dice, outcome: nat -> Outcome,
                     ghost before: Control.Sys)
      returns (ghost d: Done)
      requires eng.machine == machine && eng.db == db && eng.cfg.maxAttempts == ctl.maxAttempts
      requires Control.Reaches(ctl, start, trace, before)
      requires Now() == before.(dpiDone := true) && machine.current == Probing
      requires NotBefore(outcome, clock) && candidates != [] && forall bc :: bc in candidates ==> bc.id != ""
      modifies this`lastStateWasProbing, this`trace, this`clock, machine, db, learnedDB, eng
      ensures Valid() && clock >= old(clock) && trace == old(trace) + EventsOf(eng.cfg, d)
      ensures d.req == RequestFor(candidates, old(machine.activeConfigID), lastDPIResult, q, dice, outcome)
      ensures LedgerStep(eng.cfg, old(eng.Everything(learnedDB)), eng.Everything(learnedDB), Some(d))
    {
      var dpiHint := lastDPIResult.blockType;
      if lastDPIResult.confidence < 0.6 {
        dpiHint := BlockNone;
      }
      var req := Pool.Request(candidates, machine.activeConfigID, dpiHint, lastDPIResult.reason,
                              lastDPIResult.confidence, q, dice, outcome);
      var appliedID;
      appliedID, d := CallEngine(req);
      Conclude(appliedID, outcome, before, EventsOf(eng.cfg, d));
    }

    /** Detection at most once per PROBING entry, then the switch engine. */
    method DoSwitch(now: int, loaded: Option<seq<Tunnel>>, detected: Detection, q: real,
                    dice: nat -> Variants.Dice, outcome: nat -> Outcome)
      returns (ghost d: Option<Done>)
      requires Valid() && now >= clock && machine.current == Probing
      requires NotBefore(outcome, clock) && (loaded.Some? ==> forall bc :: bc in loaded.value ==> bc.id != "")
      modifies this`lastStateWasProbing, this`lastDPIResult, this`trace, this`clock, machine, db, learnedDB, eng
      ensures Valid() && clock >= old(clock)
      ensures LedgerStep(eng.cfg, old(eng.Everything(learnedDB)), eng.Everything(learnedDB), d)
      ensures loaded.None? || loaded.value == [] ==>
        d.None? && trace == old(trace) + [Control.Skip(now)] && lastDPIResult == old(lastDPIResult)
      ensures loaded.Some? && loaded.value != [] ==>
        && lastDPIResult == (if old(lastStateWasProbing) then old(lastDPIResult) else detected)
        && d.Some? && trace == old(trace) + EventsOf(eng.cfg, d.value)
        && d.value.req == RequestFor(loaded.value, old(machine.activeConfigID), lastDPIResult, q, dice, outcome)
    {
      ghost var before := Now();
      if loaded.None? || |loaded.value| == 0 {
        clock := now;
        Control.ReachesOne(ctl, start, trace, before, Control.Skip(now), Now());
        trace := trace + [Control.Skip(now)];
        return None;
      }
      if !lastStateWasProbing {
        lastDPIResult := detected;
        lastStateWasProbing := true;
      }
      ghost var made := SwitchNow(loaded.value, q, dice, outcome, before);
      d := Some(made);
    }

    /** The dispatcher: a probe, a switch, or a warning. */
    method Dispatch(now: int, outcomes: seq<Probe.Result>, loaded: Option<seq<Tunnel>>, detected: Detection, q: real,
                    dice: nat -> Variants.Dice, outcome: nat -> Outcome)
      returns (ghost d: Option<Done>)
      requires Valid() && now >= clock
      requires NotBefore(outcome, clock) && (loaded.Some? ==> forall bc :: bc in loaded.value ==> bc.id != "")
      modifies this`lastStateWasProbing, this`lastDPIResult, this`trace, this`clock, machine, db, learnedDB, eng
      ensures Valid() && clock >= old(clock)
      ensures LedgerStep(eng.cfg, old(eng.Everything(learnedDB)), eng.Everything(learnedDB), d)
      ensures old(machine.current) in {Healthy, Degraded} ==>
        d.None? && trace == old(trace) + [ProbeEvent(old(machine.Img().mem), ctl.cooldown, now, outcomes)]
      ensures old(machine.current) == Switching
              || (old(machine.current) == Probing && (loaded.None? || loaded.value == [])) ==>
        d.None? && trace == old(trace) + [Control.Skip(now)]
      ensures old(machine.current) == Probing && loaded.Some? && loaded.value != [] ==>
        && lastDPIResult == (if old(lastStateWasProbing) then old(lastDPIResult) else detected)
        && d.Some? && trace == old(trace) + EventsOf(eng.cfg, d.value)
        && d.value.req == RequestFor(loaded.value, old(machine.activeConfigID), lastDPIResult, q, dice, outcome)
    {
      d := None;
      match machine.current {
        case Healthy => DoProbe(now, outcomes);
        case Degraded => DoProbe(now, outcomes);
        case Probing => d := DoSwitch(now, loaded, detected, q, dice, outcome);
        case Switching =>
          ghost var before := Now();
          clock := now;
          Control.ReachesOne(ctl, start, trace, before, Control.Skip(now), Now());
          trace := trace + [Control.Skip(now)];
      }
    }

    /** One tick, with every outcome left open, and what it did. */
    method Tick(now: int, outcomes: seq<Probe.Result>, loaded: Option<seq<Tunnel>>, detected: Detection, q: real,
                dice: nat -> Variants.Dice, outcome: nat -> Outcome)
      returns (ghost d: Option<Done>)
      requires Valid() && Logged() && now >= clock
      requires NotBefore(outcome, clock) && (loaded.Some? ==> forall bc :: bc in loaded.value ==> bc.id != "")
      modifies this`lastStateWasProbing, this`lastDPIResult, this`trace, this`clock, this`ledgers, this`done
      modifies machine, db, learnedDB, eng
      ensures Valid() && clock >= old(clock)
      ensures Logged() && done == old(done) + [d] && old(ledgers) <= ledgers
      ensures LedgerStep(eng.cfg, old(eng.Everything(learnedDB)), eng.Everything(learnedDB), d)
      ensures old(Scoring.Sound(db.entries)) ==> Scoring.Sound(db.entries)
      ensures old(machine.current) in {Healthy, Degraded} ==>
        d.None? && trace == old(trace) + [ProbeEvent(old(machine.Img().mem), ctl.cooldown, now, outcomes)]
      ensures old(machine.current) == Switching
              || (old(machine.current) == Probing && (loaded.None? || loaded.value == [])) ==>
        d.None? && trace == old(trace) + [Control.Skip(now)]
      ensures old(machine.current) == Probing && loaded.Some? && loaded.value != [] ==>
        && lastDPIResult == (if old(lastStateWasProbing) then old(lastDPIResult) else detected)
        && d.Some? && trace == old(trace) + EventsOf(eng.cfg, d.value)
        && d.value.req == RequestFor(loaded.value, old(machine.activeConfigID), lastDPIResult, q, dice, outcome)
    {
      ghost var before := eng.Everything(learnedDB);
      d := Dispatch(now, outcomes, loaded, detected, q, dice, outcome);
      LedgerStepKeeps(eng.cfg, before, eng.Everything(learnedDB), d);
      LedgerExtend(eng.cfg, ledgers, done, eng.Everything(learnedDB), d);
      ledgers, done := ledgers + [eng.Everything(learnedDB)], done + [d];
    }
  }

  /**
  What the daemon has done so far never flapped: between two successful switches of its trace there
  are D + P failed probes in a row, all of them after the cooldown of the first.
  */
  lemma DaemonNeverFlaps(c: Control.Cfg, start: Control.Sys, trace: seq<Control.Event>, s: Control.Sys, i: nat,
                         j: nat)
    requires Control.Reaches(c, start, trace, s) && Control.Proper(c)
    requires i < j < |trace| && trace[i].Succeed? && trace[j].Succeed?
    ensures Control.RowBetween(trace, i, j, c.degraded + c.probing, trace[i].at + c.cooldown)
  {
    var r: Control.Run :| Control.ValidRun(c, r) && r.ev == trace && r.st[0] == start && r.st[|trace|] == s;
    Control.AntiFlapping(c, r, i, j);
  }

  /** A run can stop after any of its events, so a restart may follow any of them. */
  lemma StopsAnywhere(c: Control.Cfg, start: Control.Sys, trace: seq<Control.Event>, s: Control.Sys, k: nat)
    returns (stopped: Control.Sys)
    requires Control.Reaches(c, start, trace, s) && k <= |trace|
    ensures Control.Reaches(c, start, trace[..k], stopped)
  {
    var r: Control.Run :| Control.ValidRun(c, r) && r.ev == trace && r.st[0] == start && r.st[|trace|] == s;
    stopped := r.st[k];
    var front := Control.Run(r.st[..k + 1], r.ev[..k]);
    forall n: nat | n < k
      ensures Control.StepAt(c, front, n)
    {
      assert Control.StepAt(c, r, n);
    }
    assert Control.ValidRun(c, front);
  }
}
