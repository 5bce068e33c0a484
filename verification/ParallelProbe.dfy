/**
The parallel probe of the switch engine (daemon/internal/switch/switch.go) as a step system: what one step of
a probe goroutine may do, and what every interleaving keeps.

The tunnels that are up are a set of configuration IDs: those of which an interface, a process or routing entries
are there. The probe has a deadline. Commands are only started while its context lives, so after the deadline a
Down takes nothing down, and an Up that it interrupts may leave something behind.
*/
module ParallelProbe {
  import opened Config
  import opened Decimal
  import opened Scoring
  import Probe
  import Tables

  // ---- Interface names of probed variants ----

  function ProbeInterface(id: string): string {
    "vw" + NatText(Tables.GoRem(Tables.GoRem(Tables.IDHash(id), 9000) + 9000, 9000) + 1000)
  }

  /** Always six characters, within the kernel's limit of fifteen. */
  lemma ProbeInterfaceFits(id: string)
    ensures |ProbeInterface(id)| == 6
  {
    var n := Tables.GoRem(Tables.GoRem(Tables.IDHash(id), 9000) + 9000, 9000) + 1000;
    assert 1000 <= n < 10000;
    assert |NatText(n / 1000)| == 1;
    assert n / 10 / 10 / 10 == n / 1000;
    assert |NatText(n / 10 / 10)| == 2;
    assert |NatText(n / 10)| == 3;
  }

  /** The probe gives a variant its own interface name, in the configuration itself. */
  function Renamed(tc: Tunnel, activeID: string): Tunnel {
    if tc.id != activeID && tc.isVariant && tc.interfaceName != "" then tc.(interfaceName := ProbeInterface(tc.id))
    else tc
  }

  // ---- The goroutines of the parallel probe ----

  /** Why a probe failed, if it did. `leaves` says that the failing Up could not undo what it had done. */
  datatype ProbeErr = NoErr | Unsupported | UpFailed(leaves: bool) | Expired

  datatype ProbeResult = ProbeResult(tc: Tunnel, res: Probe.AggResult, err: ProbeErr)

  /** A failed probe that leaves something of its tunnel up: the deadline passed while it settled, or during its Up. */
  predicate Leaves(e: ProbeErr) {
    e.Expired? || (e.UpFailed? && e.leaves)
  }

  /** Where one goroutine is. */
  datatype Phase = Ready | Settling | Measuring | Finished

  function StepsLeft(p: Phase): nat {
    match p case Ready => 3 case Settling => 2 case Measuring => 1 case Finished => 0
  }

  function TotalLeft(phase: seq<Phase>): nat {
    if phase == [] then 0 else TotalLeft(phase[..|phase| - 1]) + StepsLeft(phase[|phase| - 1])
  }

  lemma {:induction false} OneStepLess(phase: seq<Phase>, i: nat, p: Phase)
    requires i < |phase| && StepsLeft(p) < StepsLeft(phase[i])
    ensures TotalLeft(phase[i := p]) < TotalLeft(phase)
  {
    var n := |phase| - 1;
    if i == n {
      assert phase[i := p][..n] == phase[..n];
    } else {
      OneStepLess(phase[..n], i, p);
      assert phase[i := p][..n] == phase[..n][i := p];
    }
  }

  /** Goroutine i has brought its tunnel up, and nobody has taken it down yet. */
  predicate Holds(configs: seq<Tunnel>, activeID: string, phase: seq<Phase>, results: seq<ProbeResult>, i: nat)
    requires i < |configs| == |phase| == |results|
  {
    configs[i].id != activeID
    && (phase[i].Settling? || phase[i].Measuring?
        || (phase[i].Finished? && (results[i].err.NoErr? || Leaves(results[i].err))))
  }

  /** Every tunnel that is up was up before, or a goroutine holds it. */
  ghost predicate UpIsHeld(configs: seq<Tunnel>, activeID: string, phase: seq<Phase>, results: seq<ProbeResult>,
                           before: set<string>, up: set<string>)
    requires |configs| == |phase| == |results|
  {
    forall id :: id in up ==>
      id in before
      || exists i :: 0 <= i < |configs| && configs[i].id == id && Holds(configs, activeID, phase, results, i)
  }

  /** A failing Up of this tunnel, which may have taken it down. */
  ghost predicate MayDrop(results: seq<ProbeResult>, id: string) {
    exists j :: 0 <= j < |results| && results[j].tc.id == id && results[j].err == UpFailed(false)
  }

  /** Every tunnel that a goroutine holds is up, unless a failing Up of another goroutine may have taken it down. */
  ghost predicate HeldIsUp(configs: seq<Tunnel>, activeID: string, phase: seq<Phase>, results: seq<ProbeResult>,
                           up: set<string>)
    requires |configs| == |phase| == |results|
  {
    forall i :: 0 <= i < |configs| && Holds(configs, activeID, phase, results, i) ==>
      configs[i].id in up
      || exists j :: 0 <= j < |configs| && configs[j].id == configs[i].id && phase[j].Finished?
                     && results[j].err == UpFailed(false)
  }

  function IDs(configs: seq<Tunnel>): set<string> {
    set tc <- configs :: tc.id
  }

  /** The active tunnel, and every tunnel outside the pool, is untouched. */
  ghost predicate Untouched(configs: seq<Tunnel>, activeID: string, before: set<string>, up: set<string>) {
    forall id :: id == activeID || id !in IDs(configs) ==> (id in up <==> id in before)
  }

  /** What a finished goroutine has written. */
  ghost predicate WellProbed(tc: Tunnel, activeID: string, r: ProbeResult) {
    && r.tc == Renamed(tc, activeID)
    && (r.err.NoErr? ==> !tc.protocol.OtherProto? && 0.0 <= r.res.packetLoss <= 1.0)
    && (Leaves(r.err) ==> !tc.protocol.OtherProto? && tc.id != activeID)
  }

  ghost predicate Written(configs: seq<Tunnel>, activeID: string, phase: seq<Phase>, results: seq<ProbeResult>)
    requires |configs| == |phase| == |results|
  {
    forall i :: 0 <= i < |configs| && phase[i].Finished? ==> WellProbed(configs[i], activeID, results[i])
  }

  /** Only a supported tunnel gets past Ready, and the active one is not brought up. */
  predicate InPhase(tc: Tunnel, activeID: string, p: Phase) {
    && (p.Settling? ==> tc.id != activeID)
    && (p.Settling? || p.Measuring? ==> !tc.protocol.OtherProto?)
  }

  ghost predicate ProbeInv(configs: seq<Tunnel>, activeID: string, phase: seq<Phase>, results: seq<ProbeResult>,
                           before: set<string>, up: set<string>) {
    && |configs| == |phase| == |results|
    && UpIsHeld(configs, activeID, phase, results, before, up)
    && HeldIsUp(configs, activeID, phase, results, up)
    && Untouched(configs, activeID, before, up)
    && Written(configs, activeID, phase, results)
    && (forall i :: 0 <= i < |configs| ==> InPhase(configs[i], activeID, phase[i]))
  }

  /** A probe of this configuration that did not fail, or left something up. */
  ghost predicate BroughtUp(results: seq<ProbeResult>, id: string) {
    exists i :: 0 <= i < |results| && results[i].tc.id == id && (results[i].err.NoErr? || Leaves(results[i].err))
  }

  /** What one step of a goroutine may do: its next phase, what it writes when it finishes, and what is up then. */
  ghost predicate GoStep(tc: Tunnel, activeID: string, p: Phase, up: set<string>, p': Phase, r: ProbeResult,
                         up': set<string>) {
    && InPhase(tc, activeID, p')
    && (p'.Finished? ==> WellProbed(tc, activeID, r))
    && match p
       case Ready =>
         if tc.protocol.OtherProto? then p'.Finished? && r.err == Unsupported && up' == up
         else if tc.id == activeID then p'.Measuring? && up' == up
         else
           || (p'.Settling? && up' == up + {tc.id})
           || (p'.Finished? && r.err == UpFailed(true) && up' == up + {tc.id})
           || (p'.Finished? && r.err == UpFailed(false) && (up' == up || up' == up - {tc.id}))
       case Settling =>
         || (p'.Measuring? && up' == up)
         || (tc.id != activeID && p'.Finished? && r.err == Expired && up' == up)
       case Measuring => p'.Finished? && r.err == NoErr && up' == up
       case Finished => false
  }

  lemma StepKeepsUp(configs: seq<Tunnel>, activeID: string, phase: seq<Phase>, results: seq<ProbeResult>,
                    before: set<string>, up: set<string>, i: nat, p': Phase, r: ProbeResult, up': set<string>)
    requires i < |configs| == |phase| == |results|
    requires UpIsHeld(configs, activeID, phase, results, before, up) && Untouched(configs, activeID, before, up)
    requires GoStep(configs[i], activeID, phase[i], up, p', r, up')
    ensures UpIsHeld(configs, activeID, phase[i := p'], results[i := r], before, up')
    ensures Untouched(configs, activeID, before, up')
  {
  }

  lemma StepKeepsHeld(configs: seq<Tunnel>, activeID: string, phase: seq<Phase>, results: seq<ProbeResult>,
                      up: set<string>, i: nat, p': Phase, r: ProbeResult, up': set<string>)
    requires i < |configs| == |phase| == |results| && !phase[i].Finished?
    requires HeldIsUp(configs, activeID, phase, results, up)
    requires GoStep(configs[i], activeID, phase[i], up, p', r, up')
    ensures HeldIsUp(configs, activeID, phase[i := p'], results[i := r], up')
  {
    var phase', results' := phase[i := p'], results[i := r];
    forall k | 0 <= k < |configs| && Holds(configs, activeID, phase', results', k)
      ensures configs[k].id in up'
              || exists j :: 0 <= j < |configs| && configs[j].id == configs[k].id && phase'[j].Finished?
                             && results'[j].err == UpFailed(false)
    {
      if k != i {
        assert Holds(configs, activeID, phase, results, k);
        if configs[k].id !in up {
          var j :| 0 <= j < |configs| && configs[j].id == configs[k].id && phase[j].Finished?
                   && results[j].err == UpFailed(false);
          assert phase'[j].Finished? && results'[j].err == UpFailed(false);
        } else if configs[k].id !in up' {
          assert phase'[i].Finished? && results'[i].err == UpFailed(false);
        }
      } else if !phase[i].Ready? {
        assert Holds(configs, activeID, phase, results, i);
        if configs[i].id !in up {
          var j :| 0 <= j < |configs| && configs[j].id == configs[i].id && phase[j].Finished?
                   && results[j].err == UpFailed(false);
          assert phase'[j].Finished? && results'[j].err == UpFailed(false);
        }
      }
    }
  }

  /** Whatever goroutine runs next, and whatever happens to it, the invariant of the parallel probe is kept. */
  lemma StepKeepsInv(configs: seq<Tunnel>, activeID: string, phase: seq<Phase>, results: seq<ProbeResult>,
                     before: set<string>, up: set<string>, i: nat, p': Phase, r: ProbeResult, up': set<string>)
    requires ProbeInv(configs, activeID, phase, results, before, up) && i < |configs|
    requires GoStep(configs[i], activeID, phase[i], up, p', r, up')
    ensures ProbeInv(configs, activeID, phase[i := p'], results[i := r], before, up')
    ensures TotalLeft(phase[i := p']) < TotalLeft(phase)
  {
    StepKeepsUp(configs, activeID, phase, results, before, up, i, p', r, up');
    StepKeepsHeld(configs, activeID, phase, results, up, i, p', r, up');
    OneStepLess(phase, i, p');
  }

  // ---- What follows ----

  /** The database after the first n results. */
  function ProbesRecorded(entries: map<string, Entry>, results: seq<ProbeResult>, n: nat): map<string, Entry>
    requires n <= |results|
  {
    if n == 0 then entries else
      var before, r := ProbesRecorded(entries, results, n - 1), results[n - 1];
      if !r.err.NoErr? then before else before[r.tc.id := ProbeUpdate(EntryOrDefault(before, r.tc.id), r.res)]
  }

  function Viable(results: seq<ProbeResult>, n: nat): seq<Tunnel>
    requires n <= |results|
  {
    if n == 0 then [] else
      var r := results[n - 1];
      Viable(results, n - 1) + (if r.err.NoErr? && r.res.success then [r.tc] else [])
  }

  lemma {:induction false} ViableMembers(results: seq<ProbeResult>, n: nat, tc: Tunnel)
    requires n <= |results|
    ensures tc in Viable(results, n) <==>
      exists i :: 0 <= i < n && results[i].tc == tc && results[i].err.NoErr? && results[i].res.success
  {
    if n > 0 {
      ViableMembers(results, n - 1, tc);
    }
  }

  /** The tunnels that the tear-down takes down. */
  function Temporary(results: seq<ProbeResult>, activeID: string): set<string> {
    set r <- results | r.err.NoErr? && r.tc.id != activeID :: r.tc.id
  }

  /** The tunnels that failed probes leave up. The tear-down skips failed probes. */
  function LeftUp(results: seq<ProbeResult>, activeID: string): set<string> {
    (set r <- results | Leaves(r.err) :: r.tc.id) - Temporary(results, activeID)
  }

  /** What is up after the probe and the tear-down: what was up before, and what failed probes left up. */
  lemma TearDownLeaves(pool: seq<Tunnel>, results: seq<ProbeResult>, activeID: string, before: set<string>,
                       probed: set<string>)
    requires |results| == |pool| && Untouched(pool, activeID, before, probed)
    requires forall i :: 0 <= i < |pool| ==> WellProbed(pool[i], activeID, results[i])
    requires forall id :: id in probed ==> id in before || (id != activeID && BroughtUp(results, id))
    requires forall r :: r in results && Leaves(r.err) ==> r.tc.id in probed || MayDrop(results, r.tc.id)
    ensures var idle := probed - Temporary(results, activeID);
      && idle <= before + LeftUp(results, activeID)
      && (forall id :: id in LeftUp(results, activeID) ==> id in idle || MayDrop(results, id))
      && Untouched(pool, activeID, before, idle)
  {
    var idle := probed - Temporary(results, activeID);
    forall id | id in idle
      ensures id in before || id in LeftUp(results, activeID)
    {
      if id !in before {
        var i :| 0 <= i < |results| && results[i].tc.id == id && (results[i].err.NoErr? || Leaves(results[i].err));
        assert results[i] in results;
      }
    }
    forall id | id == activeID || id !in IDs(pool)
      ensures id in idle <==> id in before
    {
      assert forall i :: 0 <= i < |pool| ==> results[i].tc.id == pool[i].id && pool[i] in pool;
    }
  }

  /** The deadline passes while a tunnel settles: two steps of one goroutine, after which its tunnel is up for good. */
  lemma ExpiredStaysUp(tc: Tunnel, activeID: string, before: set<string>) returns (r: ProbeResult)
    requires tc.id != activeID && !tc.protocol.OtherProto? && tc.id !in before
    ensures var up := before + {tc.id};
      && GoStep(tc, activeID, Ready, before, Settling, r, up)
      && GoStep(tc, activeID, Settling, up, Finished, r, up)
      && LeftUp([r], activeID) == {tc.id} && up - Temporary([r], activeID) == up
  {
    r := ProbeResult(Renamed(tc, activeID), Probe.AggResult(false, 0, 1.0, Probe.ErrNone), Expired);
    assert r in [r];
  }
}
