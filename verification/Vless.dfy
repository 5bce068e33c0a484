/**
Bringing VLESS tunnels up and down (daemon/internal/tunnel/vless.go): a sing-box process per
configuration, and kernel routing set up step by step with rollback. Every command may fail, also those
that roll back or tear down: none is started once the deadline of its context has passed.
*/
module Vless {
  import opened Options
  import opened Config
  import Tables

  // ---- The kernel ----

  datatype Rule = Rule(mark: nat, table: int)

  datatype Redirect = Redirect(mark: nat, toPort: int)

  /** ip rules, tables that have a default route, and the OUTPUT chain of the nat table. */
  datatype Kernel = Kernel(rules: multiset<Rule>, routes: set<int>, redirects: seq<Redirect>)

  function DeleteFirst(chain: seq<Redirect>, r: Redirect): seq<Redirect> {
    if chain == [] then [] else if chain[0] == r then chain[1..] else [chain[0]] + DeleteFirst(chain[1..], r)
  }

  /** Kernel, running sing-box processes, and the manager's map from configuration to process. */
  datatype World = World(kernel: Kernel, running: set<int>, procMap: map<string, int>)

  function RuleOf(tc: Tunnel): Rule {
    Rule(Tables.FWMark(tc), Tables.TableID(tc))
  }

  function LocalPort(tc: Tunnel): int
    requires tc.vless.Some?
  {
    if tc.vless.value.fixed.localPort != 0 then tc.vless.value.fixed.localPort else 10800 + Tables.TableID(tc) % 200
  }

  function RedirectOf(tc: Tunnel): Redirect
    requires tc.vless.Some?
  {
    Redirect(Tables.FWMark(tc), LocalPort(tc))
  }

  // ---- Operations as functions ----

  /** What the environment does during one Up. */
  datatype UpEnv = UpEnv(confWritten: bool, started: bool, pid: int, portReady: bool, ruleOk: bool, routeOk: bool,
                         natOk: bool, undoRoute: bool, undoRule: bool)

  /** Which commands of a Down take effect. */
  datatype DownEnv = DownEnv(rule: bool, route: bool, redirect: bool)

  /** Whatever this Up has set up before it failed is rolled back. */
  predicate RollsBack(env: UpEnv) {
    env.confWritten && env.started && env.portReady && env.ruleOk ==>
      (!env.routeOk ==> env.undoRule) && (env.routeOk && !env.natOk ==> env.undoRoute && env.undoRule)
  }

  predicate TakesAllDown(env: DownEnv) {
    env.rule && env.route && env.redirect
  }

  datatype Result = Result(world: World, ok: bool)

  function Killed(w: World, id: string): World {
    if id !in w.procMap then w else w.(procMap := w.procMap - {id}, running := w.running - {w.procMap[id]})
  }

  function WithRouting(k: Kernel, tc: Tunnel): Kernel
    requires tc.vless.Some?
  {
    Kernel(k.rules + multiset{RuleOf(tc)}, k.routes + {Tables.TableID(tc)}, k.redirects + [RedirectOf(tc)])
  }

  function WithoutRouting(k: Kernel, tc: Tunnel, env: DownEnv): Kernel
    requires tc.vless.Some?
  {
    Kernel(if env.rule then k.rules - multiset{RuleOf(tc)} else k.rules,
           if env.route then k.routes - {Tables.TableID(tc)} else k.routes,
           if env.redirect then DeleteFirst(k.redirects, RedirectOf(tc)) else k.redirects)
  }

  /** What a failing Up leaves in the kernel. */
  function HalfWay(k: Kernel, tc: Tunnel, env: UpEnv): Kernel {
    var rules := if env.undoRule then k.rules else k.rules + multiset{RuleOf(tc)};
    if !env.confWritten || !env.started || !env.portReady || !env.ruleOk then k
    else if !env.routeOk then k.(rules := rules)
    else k.(rules := rules, routes := if env.undoRoute then k.routes - {Tables.TableID(tc)}
                                      else k.routes + {Tables.TableID(tc)})
  }

  lemma AddedGoes(rules: multiset<Rule>, r: Rule)
    ensures rules + multiset{r} - multiset{r} == rules
  {
  }

  class VLESSManager {
    var rules: multiset<Rule>
    var routes: set<int>
    var redirects: seq<Redirect>
    var running: set<int>
    var procMap: map<string, int>

    function Now(): World
      reads this
    {
      World(Kernel(rules, routes, redirects), running, procMap)
    }

    constructor (k: Kernel)
      ensures Now() == World(k, {}, map[])
    {
      rules, routes, redirects := k.rules, k.routes, k.redirects;
      running, procMap := {}, map[];
    }

    method KillProc(id: string)
      modifies this`procMap, this`running
      ensures Now() == Killed(old(Now()), id)
    {
      if id !in procMap {
        return;
      }
      var pid := procMap[id];
      procMap := procMap - {id};
      running := running - {pid};
    }

    /** Adds the rule, the route and the redirect; tries to roll back what it has added when one of them fails. */
    method SetupRouting(tc: Tunnel, socksPort: int, tableID: int, fwmark: nat, env: UpEnv) returns (ok: bool)
      modifies this`rules, this`routes, this`redirects
      ensures ok <==> env.ruleOk && env.routeOk && env.natOk
      ensures ok ==>
        && rules == old(rules) + multiset{Rule(fwmark, tableID)}
        && routes == old(routes) + {tableID} && redirects == old(redirects) + [Redirect(fwmark, socksPort)]
      ensures !ok ==>
        && rules == (if env.ruleOk && !env.undoRule then old(rules) + multiset{Rule(fwmark, tableID)} else old(rules))
        && routes == (if !env.ruleOk || !env.routeOk then old(routes)
                      else if env.undoRoute then old(routes) - {tableID} else old(routes) + {tableID})
        && redirects == old(redirects)
    {
      if !env.ruleOk {
        return false;
      }
      AddedGoes(rules, Rule(fwmark, tableID));
      rules := rules + multiset{Rule(fwmark, tableID)};
      if !env.routeOk {
        if env.undoRule {
          rules := rules - multiset{Rule(fwmark, tableID)};
        }
        return false;
      }
      routes := routes + {tableID};
      if !env.natOk {
        if env.undoRoute {
          routes := routes - {tableID};
        }
        if env.undoRule {
          rules := rules - multiset{Rule(fwmark, tableID)};
        }
        return false;
      }
      redirects := redirects + [Redirect(fwmark, socksPort)];
      return true;
    }

    method TeardownRouting(tc: Tunnel, env: DownEnv)
      requires tc.vless.Some?
      modifies this`rules, this`routes, this`redirects
      ensures Kernel(rules, routes, redirects)
           == WithoutRouting(Kernel(old(rules), old(routes), old(redirects)), tc, env)
    {
      var tableID := Tables.RoutingTableID(tc);
      var fwmark := Tables.ToUint32(tableID);
      var localPort := tc.vless.value.fixed.localPort;
      if localPort == 0 {
        localPort := 10800 + tableID % 200;
      }
      if env.rule {
        rules := rules - multiset{Rule(fwmark, tableID)};
      }
      if env.route {
        routes := routes - {tableID};
      }
      if env.redirect {
        redirects := DeleteFirst(redirects, Redirect(fwmark, localPort));
      }
    }

    method Up(tc: Tunnel, env: UpEnv) returns (ok: bool)
      modifies this
      ensures Result(Now(), ok) == AfterUp(old(Now()), tc, env)
    {
      if tc.vless.None? {
        return false;
      }
      KillProc(tc.id);
      var tableID := Tables.RoutingTableID(tc);
      var localPort := tc.vless.value.fixed.localPort;
      if localPort == 0 {
        localPort := 10800 + tableID % 200;
      }
      if !env.confWritten {
        return false;
      }
      if !env.started {
        return false;
      }
      running := running + {env.pid};
      procMap := procMap[tc.id := env.pid];
      if !env.portReady {
        KillProc(tc.id);
        return false;
      }
      ghost var k := Kernel(rules, routes, redirects);
      ok := SetupRouting(tc, localPort, tableID, Tables.ToUint32(tableID), env);
      assert Kernel(rules, routes, redirects) == if ok then WithRouting(k, tc) else HalfWay(k, tc, env);
      if !ok {
        KillProc(tc.id);
      }
    }

    method Down(tc: Tunnel, env: DownEnv)
      requires tc.vless.Some?
      modifies this
      ensures Now() == AfterDown(old(Now()), tc, env)
    {
      TeardownRouting(tc, env);
      KillProc(tc.id);
    }
  }

  function AfterUp(w: World, tc: Tunnel, env: UpEnv): Result {
    if tc.vless.None? then Result(w, false) else
      var killed := Killed(w, tc.id);
      var started := killed.(running := killed.running + {env.pid}, procMap := killed.procMap[tc.id := env.pid]);
      if !env.confWritten || !env.started then Result(killed, false)
      else if !env.portReady || !env.ruleOk || !env.routeOk || !env.natOk then
        Result(Killed(started.(kernel := HalfWay(started.kernel, tc, env)), tc.id), false)
      else Result(started.(kernel := WithRouting(started.kernel, tc)), true)
  }

  function AfterDown(w: World, tc: Tunnel, env: DownEnv): World
    requires tc.vless.Some?
  {
    Killed(w.(kernel := WithoutRouting(w.kernel, tc, env)), tc.id)
  }

  // ---- The configurations in use ----

  /** VLESS configurations by ID. */
  ghost predicate Fleet(cfgs: map<string, Tunnel>) {
    forall id :: id in cfgs ==> cfgs[id].id == id && cfgs[id].vless.Some?
  }

  /** Different tables, and different redirects: marks may only agree (as 32-bit numbers) if the local ports differ. */
  predicate Apart(a: Tunnel, b: Tunnel)
    requires a.vless.Some? && b.vless.Some?
  {
    Tables.TableID(a) != Tables.TableID(b) && RedirectOf(a) != RedirectOf(b)
  }

  ghost predicate AllApart(cfgs: map<string, Tunnel>)
    requires Fleet(cfgs)
  {
    forall a, b :: a in cfgs && b in cfgs && a != b ==> Apart(cfgs[a], cfgs[b])
  }

  /** The kernel entries of one configuration are there, once each, exactly when it has a process. */
  ghost predicate EntriesMatch(w: World, tc: Tunnel)
    requires tc.vless.Some?
  {
    var n := if tc.id in w.procMap then 1 else 0;
    && w.kernel.rules[RuleOf(tc)] == n
    && (Tables.TableID(tc) in w.kernel.routes <==> n == 1)
    && multiset(w.kernel.redirects)[RedirectOf(tc)] == n
  }

  ghost predicate EntriesOk(w: World, cfgs: map<string, Tunnel>)
    requires Fleet(cfgs)
  {
    forall id :: id in cfgs ==> EntriesMatch(w, cfgs[id])
  }

  /** The map names a distinct running process for each configuration that is up, and no other process runs. */
  ghost predicate ProcsOk(w: World, cfgs: map<string, Tunnel>) {
    && (forall id :: id in w.procMap ==> id in cfgs && w.procMap[id] in w.running)
    && (forall a, b :: a in w.procMap && b in w.procMap && a != b ==> w.procMap[a] != w.procMap[b])
    && w.running == w.procMap.Values
  }

  /** Kernel entries exist exactly for the IDs in the map, whose processes are exactly those running. */
  ghost predicate Consistent(w: World, cfgs: map<string, Tunnel>)
    requires Fleet(cfgs)
  {
    EntriesOk(w, cfgs) && ProcsOk(w, cfgs)
  }

  lemma {:induction false} DeleteFirstCounts(chain: seq<Redirect>, r: Redirect, x: Redirect)
    ensures multiset(DeleteFirst(chain, r))[x]
         == if x == r && r in chain then multiset(chain)[x] - 1 else multiset(chain)[x]
  {
    if chain != [] {
      assert chain == [chain[0]] + chain[1..];
      if chain[0] != r {
        DeleteFirstCounts(chain[1..], r, x);
      }
    }
  }

  lemma {:induction false} DeleteAppended(chain: seq<Redirect>, r: Redirect)
    requires r !in chain
    ensures DeleteFirst(chain + [r], r) == chain
  {
    if chain != [] {
      DeleteAppended(chain[1..], r);
      assert (chain + [r])[1..] == chain[1..] + [r];
      assert chain[0] in chain;
    } else {
      assert chain + [r] == [r];
    }
  }

  /** A failing Up leaves all as it was exactly when it could roll back what it had set up. */
  lemma FailedUpRestoresIff(w: World, cfgs: map<string, Tunnel>, tc: Tunnel, env: UpEnv)
    requires Fleet(cfgs) && Consistent(w, cfgs) && tc.id in cfgs && cfgs[tc.id] == tc
    requires tc.id !in w.procMap && env.pid !in w.running
    requires !AfterUp(w, tc, env).ok
    ensures AfterUp(w, tc, env).world == w <==> RollsBack(env)
  {
    var k := w.kernel;
    assert EntriesMatch(w, tc);
    assert w.procMap[tc.id := env.pid] - {tc.id} == w.procMap;
    assert w.running + {env.pid} - {env.pid} == w.running;
    assert k.routes - {Tables.TableID(tc)} == k.routes;
    assert (k.rules + multiset{RuleOf(tc)})[RuleOf(tc)] == 1 && Tables.TableID(tc) in k.routes + {Tables.TableID(tc)};
  }

  /** Down undoes Up exactly, the order of the redirects included, when all its commands take effect, and only then. */
  lemma DownUndoesUpIff(w: World, cfgs: map<string, Tunnel>, tc: Tunnel, env: UpEnv, down: DownEnv)
    requires Fleet(cfgs) && Consistent(w, cfgs) && tc.id in cfgs && cfgs[tc.id] == tc
    requires tc.id !in w.procMap && env.pid !in w.running
    requires AfterUp(w, tc, env).ok
    ensures AfterDown(AfterUp(w, tc, env).world, tc, down) == w <==> TakesAllDown(down)
  {
    var k := w.kernel;
    assert EntriesMatch(w, tc);
    assert w.procMap[tc.id := env.pid] - {tc.id} == w.procMap;
    assert w.running + {env.pid} - {env.pid} == w.running;
    assert k.routes + {Tables.TableID(tc)} - {Tables.TableID(tc)} == k.routes;
    assert k.rules + multiset{RuleOf(tc)} - multiset{RuleOf(tc)} == k.rules;
    assert (k.rules + multiset{RuleOf(tc)})[RuleOf(tc)] == 1 && Tables.TableID(tc) in k.routes + {Tables.TableID(tc)};
    assert RedirectOf(tc) !in multiset(k.redirects);
    DeleteAppended(k.redirects, RedirectOf(tc));
    assert |k.redirects + [RedirectOf(tc)]| == |k.redirects| + 1;
  }

  // ---- Runs ----

  datatype Op = UpOp(id: string, env: UpEnv) | DownOp(id: string, down: DownEnv)

  /**
  Up is only called on a configuration that is not up, the system hands out fresh process IDs, and what is there to
  roll back or to take down goes.
  */
  ghost predicate Allowed(w: World, cfgs: map<string, Tunnel>, op: Op) {
    && op.id in cfgs
    && (op.UpOp? ==> op.id !in w.procMap && op.env.pid !in w.running && RollsBack(op.env))
    && (op.DownOp? ==> op.id !in w.procMap || TakesAllDown(op.down))
  }

  function Apply(w: World, cfgs: map<string, Tunnel>, op: Op): World {
    if op.id !in cfgs || cfgs[op.id].vless.None? then w
    else match op
      case UpOp(id, env) => AfterUp(w, cfgs[id], env).world
      case DownOp(id, down) => AfterDown(w, cfgs[id], down)
  }

  function RunOps(w: World, cfgs: map<string, Tunnel>, ops: seq<Op>): World {
    if ops == [] then w else Apply(RunOps(w, cfgs, ops[..|ops| - 1]), cfgs, ops[|ops| - 1])
  }

  ghost predicate AllowedRun(w: World, cfgs: map<string, Tunnel>, ops: seq<Op>) {
    forall k :: 0 <= k < |ops| ==> Allowed(RunOps(w, cfgs, ops[..k]), cfgs, ops[k])
  }

  lemma UpEntry(w: World, a: Tunnel, tc: Tunnel, env: UpEnv)
    requires a.vless.Some? && tc.vless.Some? && EntriesMatch(w, a)
    requires AfterUp(w, tc, env).ok && tc.id !in w.procMap
    requires a == tc || (a.id != tc.id && Apart(a, tc))
    ensures EntriesMatch(AfterUp(w, tc, env).world, a)
  {
  }

  lemma UpProcs(w: World, cfgs: map<string, Tunnel>, tc: Tunnel, env: UpEnv)
    requires ProcsOk(w, cfgs) && tc.vless.Some? && tc.id in cfgs && AfterUp(w, tc, env).ok
    requires tc.id !in w.procMap && env.pid !in w.running
    ensures ProcsOk(AfterUp(w, tc, env).world, cfgs)
  {
  }

  lemma UpKeepsConsistent(w: World, cfgs: map<string, Tunnel>, tc: Tunnel, env: UpEnv)
    requires Fleet(cfgs) && AllApart(cfgs) && Consistent(w, cfgs) && tc.id in cfgs && cfgs[tc.id] == tc
    requires tc.id !in w.procMap && env.pid !in w.running && RollsBack(env)
    ensures Consistent(AfterUp(w, tc, env).world, cfgs)
  {
    if !AfterUp(w, tc, env).ok {
      FailedUpRestoresIff(w, cfgs, tc, env);
    } else {
      UpProcs(w, cfgs, tc, env);
      forall id | id in cfgs
        ensures EntriesMatch(AfterUp(w, tc, env).world, cfgs[id])
      {
        assert EntriesMatch(w, cfgs[id]);
        UpEntry(w, cfgs[id], tc, env);
      }
    }
  }

  lemma DownEntry(w: World, a: Tunnel, tc: Tunnel, down: DownEnv)
    requires a.vless.Some? && tc.vless.Some? && EntriesMatch(w, a)
    requires if a == tc then tc.id !in w.procMap || TakesAllDown(down) else a.id != tc.id && Apart(a, tc)
    ensures EntriesMatch(AfterDown(w, tc, down), a)
  {
    DeleteFirstCounts(w.kernel.redirects, RedirectOf(tc), RedirectOf(a));
  }

  lemma DownProcs(w: World, cfgs: map<string, Tunnel>, id: string)
    requires ProcsOk(w, cfgs)
    ensures ProcsOk(Killed(w, id), cfgs)
  {
  }

  lemma DownKeepsConsistent(w: World, cfgs: map<string, Tunnel>, tc: Tunnel, down: DownEnv)
    requires Fleet(cfgs) && AllApart(cfgs) && Consistent(w, cfgs) && tc.id in cfgs && cfgs[tc.id] == tc
    requires tc.id !in w.procMap || TakesAllDown(down)
    ensures Consistent(AfterDown(w, tc, down), cfgs)
  {
    DownProcs(w.(kernel := WithoutRouting(w.kernel, tc, down)), cfgs, tc.id);
    forall id | id in cfgs
      ensures EntriesMatch(AfterDown(w, tc, down), cfgs[id])
    {
      assert EntriesMatch(w, cfgs[id]);
      DownEntry(w, cfgs[id], tc, down);
    }
  }

  /** Over every sequence of Up and Down, with every outcome, kernel entries exist exactly for the IDs in the map. */
  lemma {:induction false} RunsStayConsistent(w: World, cfgs: map<string, Tunnel>, ops: seq<Op>)
    requires Fleet(cfgs) && AllApart(cfgs) && Consistent(w, cfgs) && AllowedRun(w, cfgs, ops)
    ensures Consistent(RunOps(w, cfgs, ops), cfgs)
  {
    if ops != [] {
      var n := |ops| - 1;
      assert AllowedRun(w, cfgs, ops[..n]) by {
        forall k | 0 <= k < n
          ensures Allowed(RunOps(w, cfgs, ops[..n][..k]), cfgs, ops[..n][k])
        {
          assert ops[..n][..k] == ops[..k];
          assert Allowed(RunOps(w, cfgs, ops[..k]), cfgs, ops[k]);
        }
      }
      RunsStayConsistent(w, cfgs, ops[..n]);
      var w' := RunOps(w, cfgs, ops[..n]);
      assert Allowed(w', cfgs, ops[n]);
      var tc := cfgs[ops[n].id];
      match ops[n] {
        case UpOp(_, env) => UpKeepsConsistent(w', cfgs, tc, env);
        case DownOp(_, down) => DownKeepsConsistent(w', cfgs, tc, down);
      }
    }
  }

  // ---- Exactly when ----

  /**
  One Up, whatever becomes of its steps, keeps everything consistent exactly when the tunnel was down and what it had
  set up before failing is rolled back. On a tunnel that is up, success doubles its entries, and every failure
  leaves some without a process.
  */
  lemma UpConsistentIff(w: World, cfgs: map<string, Tunnel>, tc: Tunnel, env: UpEnv)
    requires Fleet(cfgs) && AllApart(cfgs) && Consistent(w, cfgs) && tc.id in cfgs && cfgs[tc.id] == tc
    requires env.pid !in w.running
    ensures Consistent(AfterUp(w, tc, env).world, cfgs) <==> tc.id !in w.procMap && RollsBack(env)
  {
    assert EntriesMatch(w, tc);
    if tc.id !in w.procMap && RollsBack(env) {
      UpKeepsConsistent(w, cfgs, tc, env);
    } else {
      assert !EntriesMatch(AfterUp(w, tc, env).world, tc);
    }
  }

  /** One Down keeps everything consistent exactly when the tunnel was down already or all commands take effect. */
  lemma DownConsistentIff(w: World, cfgs: map<string, Tunnel>, tc: Tunnel, down: DownEnv)
    requires Fleet(cfgs) && AllApart(cfgs) && Consistent(w, cfgs) && tc.id in cfgs && cfgs[tc.id] == tc
    ensures Consistent(AfterDown(w, tc, down), cfgs) <==> tc.id !in w.procMap || TakesAllDown(down)
  {
    assert EntriesMatch(w, tc);
    if tc.id !in w.procMap || TakesAllDown(down) {
      DownKeepsConsistent(w, cfgs, tc, down);
    } else {
      assert !EntriesMatch(AfterDown(w, tc, down), tc);
    }
  }

  /**
  Taking one tunnel down leaves the entries of another, which is up, alone exactly when the commands that take effect
  are about other entries. With all of them that means the two are apart.
  */
  lemma DownLeavesOtherIff(w: World, a: Tunnel, b: Tunnel, down: DownEnv)
    requires a.vless.Some? && b.vless.Some? && a.id != b.id
    requires a.id in w.procMap && EntriesMatch(w, a)
    ensures EntriesMatch(AfterDown(w, b, down), a) <==>
      && (down.rule || down.route ==> Tables.TableID(a) != Tables.TableID(b))
      && (down.redirect ==> RedirectOf(a) != RedirectOf(b))
    ensures TakesAllDown(down) ==> (EntriesMatch(AfterDown(w, b, down), a) <==> Apart(a, b))
  {
    RuleGoes(w.kernel, a, b, down);
    RedirectGoes(w.kernel, a, b, down);
  }

  lemma RuleGoes(k: Kernel, a: Tunnel, b: Tunnel, down: DownEnv)
    requires a.vless.Some? && b.vless.Some? && k.rules[RuleOf(a)] == 1
    ensures WithoutRouting(k, b, down).rules[RuleOf(a)] == 1
       <==> !down.rule || Tables.TableID(a) != Tables.TableID(b)
  {
  }

  lemma RedirectGoes(k: Kernel, a: Tunnel, b: Tunnel, down: DownEnv)
    requires a.vless.Some? && b.vless.Some? && multiset(k.redirects)[RedirectOf(a)] == 1
    ensures multiset(WithoutRouting(k, b, down).redirects)[RedirectOf(a)] == 1
       <==> !down.redirect || RedirectOf(a) != RedirectOf(b)
  {
    DeleteFirstCounts(k.redirects, RedirectOf(b), RedirectOf(a));
  }

  /** So does bringing one up, whether the other is up or down. */
  lemma UpLeavesOtherIff(w: World, a: Tunnel, b: Tunnel, env: UpEnv)
    requires a.vless.Some? && b.vless.Some? && a.id != b.id && EntriesMatch(w, a)
    requires AfterUp(w, b, env).ok
    ensures EntriesMatch(AfterUp(w, b, env).world, a) <==> Apart(a, b)
  {
  }

  ghost predicate RunConsistent(w: World, cfgs: map<string, Tunnel>, ops: seq<Op>)
    requires Fleet(cfgs)
  {
    Consistent(w, cfgs) && AllowedRun(w, cfgs, ops) ==> Consistent(RunOps(w, cfgs, ops), cfgs)
  }

  const NOTHING := World(Kernel(multiset{}, {}, []), {}, map[])

  /** Two configurations that are not apart disturb each other as soon as both are up. */
  lemma NotApartBreaks(cfgs: map<string, Tunnel>, a: string, b: string) returns (ops: seq<Op>)
    requires Fleet(cfgs) && a in cfgs && b in cfgs && a != b && !Apart(cfgs[a], cfgs[b])
    ensures !RunConsistent(NOTHING, cfgs, ops)
  {
    var up1 := UpEnv(true, true, 1, true, true, true, true, true, true);
    var up2 := up1.(pid := 2);
    var w1 := AfterUp(NOTHING, cfgs[a], up1).world;
    ops := [UpOp(a, up1), UpOp(b, up2)];
    assert RunOps(NOTHING, cfgs, ops[..0]) == NOTHING;
    assert ops[..1][..0] == [];
    assert RunOps(NOTHING, cfgs, ops[..1]) == w1;
    UpLeavesOtherIff(w1, cfgs[a], cfgs[b], up2);
    assert !EntriesMatch(RunOps(NOTHING, cfgs, ops), cfgs[a]);
  }

  /** All runs of these configurations stay consistent exactly when they are pairwise apart. */
  lemma RunsConsistentIff(cfgs: map<string, Tunnel>)
    requires Fleet(cfgs)
    ensures AllApart(cfgs) <==> forall w, ops :: RunConsistent(w, cfgs, ops)
  {
    if AllApart(cfgs) {
      forall w, ops
        ensures RunConsistent(w, cfgs, ops)
      {
        if Consistent(w, cfgs) && AllowedRun(w, cfgs, ops) {
          RunsStayConsistent(w, cfgs, ops);
        }
      }
    } else {
      var a, b :| a in cfgs && b in cfgs && a != b && !Apart(cfgs[a], cfgs[b]);
      var ops := NotApartBreaks(cfgs, a, b);
    }
  }
}
