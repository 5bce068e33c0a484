/**
Firewall marks for the configured destinations, over the two backends
(daemon/internal/policy/policy.go). No command fails, except deleting what is not there and
destroying a set that a rule still uses.
*/
module Policy {
  import opened Options

  /** The dedicated nft table: its set and the marks its chain sets, in order. */
  datatype NftTable = NftTable(elements: set<string>, chain: seq<nat>)

  /** The ipset, if it exists, and the marks that OUTPUT rules set for it, in order. */
  datatype IpTables = IpTables(ipset: Option<set<string>>, chain: seq<nat>)

  // ---- Both backends as functions ----

  function Elements(selectors: seq<string>): set<string> {
    set s | s in selectors
  }

  function NftApplied(selectors: seq<string>, mark: nat): Option<NftTable> {
    Some(NftTable(Elements(selectors), [mark]))
  }

  /** `iptables -D`: the first matching rule, if there is one. */
  function DeleteFirst(chain: seq<nat>, mark: nat): seq<nat> {
    if chain == [] then [] else if chain[0] == mark then chain[1..] else [chain[0]] + DeleteFirst(chain[1..], mark)
  }

  function IptApplied(t: IpTables, selectors: seq<string>, mark: nat): IpTables {
    IpTables(Some(Elements(selectors)), DeleteFirst(t.chain, mark) + [mark])
  }

  function IptCleared(t: IpTables, mark: nat): IpTables {
    var chain := DeleteFirst(t.chain, mark);
    IpTables(if chain == [] then None else t.ipset, chain)
  }

  // ---- The managers ----

  class NftManager {
    var table: Option<NftTable>

    constructor ()
      ensures table == None
    {
      table := None;
    }

    method ApplySelectors(selectors: seq<string>, fwmark: nat)
      modifies this
      ensures table == NftApplied(selectors, fwmark)
    {
      // add table, chain and set: no effect when they exist
      var t := if table.Some? then table.value else NftTable({}, []);
      t := t.(elements := {});
      for i := 0 to |selectors|
        invariant t.elements == Elements(selectors[..i])
      {
        t := t.(elements := t.elements + {selectors[i]});
        assert selectors[..i + 1] == selectors[..i] + [selectors[i]];
      }
      assert selectors[..|selectors|] == selectors;
      t := t.(chain := []);
      t := t.(chain := t.chain + [fwmark]);
      assert t.chain == [fwmark];
      table := Some(t);
    }

    method Clear(fwmark: nat)
      modifies this
      ensures table == None
    {
      table := None;
    }

    /** Without selectors, applying is clearing. */
    method Apply(selectors: seq<string>, fwmark: nat)
      modifies this
      ensures table == if selectors == [] then None else NftApplied(selectors, fwmark)
    {
      if |selectors| == 0 {
        Clear(fwmark);
      } else {
        ApplySelectors(selectors, fwmark);
      }
    }
  }

  class IptManager {
    var ipset: Option<set<string>>
    var chain: seq<nat>

    function Now(): IpTables
      reads this
    {
      IpTables(ipset, chain)
    }

    constructor ()
      ensures Now() == IpTables(None, [])
    {
      ipset, chain := None, [];
    }

    method ApplySelectors(selectors: seq<string>, fwmark: nat)
      modifies this
      ensures Now() == IptApplied(old(Now()), selectors, fwmark)
    {
      var members: set<string> := {};
      for i := 0 to |selectors|
        invariant members == Elements(selectors[..i])
      {
        members := members + {selectors[i]};
        assert selectors[..i + 1] == selectors[..i] + [selectors[i]];
      }
      assert selectors[..|selectors|] == selectors;
      ipset := Some(members);
      chain := DeleteFirst(chain, fwmark);
      chain := chain + [fwmark];
    }

    /** The set is destroyed only when no rule is left that uses it. */
    method Clear(fwmark: nat)
      modifies this
      ensures Now() == IptCleared(old(Now()), fwmark)
    {
      chain := DeleteFirst(chain, fwmark);
      if chain == [] {
        ipset := None;
      }
    }

    method Apply(selectors: seq<string>, fwmark: nat)
      modifies this
      ensures Now()
           == if selectors == [] then IptCleared(old(Now()), fwmark) else IptApplied(old(Now()), selectors, fwmark)
    {
      if |selectors| == 0 {
        Clear(fwmark);
      } else {
        ApplySelectors(selectors, fwmark);
      }
    }
  }

  // ---- What a backend does to a packet ----

  /** Some member of the set covers the destination. */
  predicate Covered(elements: set<string>, covers: (string, string) -> bool, dst: string) {
    exists s :: s in elements && covers(s, dst)
  }

  /** Every matching rule sets the mark, so the last one decides. */
  function LastMark(chain: seq<nat>): Option<nat> {
    if chain == [] then None else Some(chain[|chain| - 1])
  }

  function NftMark(t: Option<NftTable>, covers: (string, string) -> bool, dst: string): Option<nat> {
    if t.None? || !Covered(t.value.elements, covers, dst) then None else LastMark(t.value.chain)
  }

  function IptMark(t: IpTables, covers: (string, string) -> bool, dst: string): Option<nat> {
    if t.ipset.None? || !Covered(t.ipset.value, covers, dst) then None else LastMark(t.chain)
  }

  // ---- Runs ----

  datatype Op = Apply(selectors: seq<string>, mark: nat) | Clear(mark: nat)

  datatype Both = Both(nft: Option<NftTable>, ipt: IpTables)

  function Step(b: Both, op: Op): Both {
    match op
    case Apply(selectors, mark) =>
      if selectors == [] then Both(None, IptCleared(b.ipt, mark))
      else Both(NftApplied(selectors, mark), IptApplied(b.ipt, selectors, mark))
    case Clear(mark) => Both(None, IptCleared(b.ipt, mark))
  }

  /** Both backends after the same operations, from a firewall without rules. */
  function After(ops: seq<Op>): Both {
    if ops == [] then Both(None, IpTables(None, [])) else Step(After(ops[..|ops| - 1]), ops[|ops| - 1])
  }

  ghost predicate NoRepeats(chain: seq<nat>) {
    forall i, j :: 0 <= i < j < |chain| ==> chain[i] != chain[j]
  }

  lemma {:induction false} DeleteFirstMembers(chain: seq<nat>, mark: nat)
    requires NoRepeats(chain)
    ensures NoRepeats(DeleteFirst(chain, mark))
    ensures forall x :: x in DeleteFirst(chain, mark) <==> x in chain && x != mark
  {
    if chain != [] {
      assert chain == [chain[0]] + chain[1..];
      if chain[0] == mark {
        assert forall i :: 0 < i < |chain| ==> chain[i] != mark;
      } else {
        DeleteFirstMembers(chain[1..], mark);
        var d := DeleteFirst(chain[1..], mark);
        assert forall x :: x in d ==> x in chain[1..];
        assert chain[0] !in chain[1..];
      }
    }
  }

  /** The iptables chain holds each mark at most once, over all runs; after an Apply the last applied one is last. */
  lemma {:induction false} MarksOnce(ops: seq<Op>)
    ensures NoRepeats(After(ops).ipt.chain)
    ensures After(ops).ipt.chain != [] <==> After(ops).ipt.ipset.Some?
    ensures ops != [] && ops[|ops| - 1].Apply? && ops[|ops| - 1].selectors != [] ==>
      LastMark(After(ops).ipt.chain) == Some(ops[|ops| - 1].mark)
  {
    if ops != [] {
      var n := |ops| - 1;
      MarksOnce(ops[..n]);
      var chain := After(ops[..n]).ipt.chain;
      DeleteFirstMembers(chain, ops[n].mark);
      SnocNoRepeats(DeleteFirst(chain, ops[n].mark), ops[n].mark);
    }
  }

  lemma SnocNoRepeats(chain: seq<nat>, x: nat)
    requires NoRepeats(chain) && x !in chain
    ensures NoRepeats(chain + [x])
  {
  }

  function SetOf(t: IpTables): set<string> {
    if t.ipset.None? then {} else t.ipset.value
  }

  ghost predicate Agree(b: Both, covers: (string, string) -> bool) {
    forall dst :: NftMark(b.nft, covers, dst) == IptMark(b.ipt, covers, dst)
  }

  /**
  After any operations that end with an Apply on some selectors, both backends mark exactly the
  destinations those selectors cover, with its mark.
  */
  lemma BackendsAgreeAfterApply(ops: seq<Op>, covers: (string, string) -> bool, dst: string)
    requires ops != [] && ops[|ops| - 1].Apply? && ops[|ops| - 1].selectors != []
    ensures var last := ops[|ops| - 1];
      && NftMark(After(ops).nft, covers, dst) == IptMark(After(ops).ipt, covers, dst)
      && NftMark(After(ops).nft, covers, dst)
         == if Covered(Elements(last.selectors), covers, dst) then Some(last.mark) else None
  {
  }

  /**
  When the last operation clears, nft marks nothing any more, and the backends agree exactly when
  the iptables chain held no other mark, or the last set covers no destination at all.
  */
  lemma BackendsAfterClear(ops: seq<Op>, mark: nat, covers: (string, string) -> bool)
    ensures var before, b := After(ops).ipt, After(ops + [Clear(mark)]);
      && (forall dst :: NftMark(b.nft, covers, dst) == None)
      && (Agree(b, covers) <==>
            (forall x :: x in before.chain ==> x == mark)
            || (forall dst :: !Covered(SetOf(before), covers, dst)))
  {
    assert (ops + [Clear(mark)])[..|ops|] == ops;
    MarksOnce(ops);
    var before, b := After(ops).ipt, After(ops + [Clear(mark)]);
    DeleteFirstMembers(before.chain, mark);
    assert b.ipt.chain != [] ==> b.ipt.chain[0] in before.chain && b.ipt.chain[0] != mark;
    if x :| x in before.chain && x != mark {
      assert x in b.ipt.chain;
      assert b.ipt.chain != [];
      if dst :| Covered(SetOf(before), covers, dst) {
        assert IptMark(b.ipt, covers, dst).Some?;
      }
    }
  }

  /**
  So a switch that fails after another one succeeded leaves the backends apart: iptables goes back
  to the mark of the first, nft marks nothing.
  */
  lemma FailedSwitchSplitsBackends(selectors: seq<string>, m1: nat, m2: nat, covers: (string, string) -> bool,
                                   dst: string)
    requires selectors != [] && m1 != m2 && Covered(Elements(selectors), covers, dst)
    ensures var b := After([Apply(selectors, m1), Apply(selectors, m2), Clear(m2)]);
      NftMark(b.nft, covers, dst) == None && IptMark(b.ipt, covers, dst) == Some(m1)
  {
    var ops := [Apply(selectors, m1), Apply(selectors, m2), Clear(m2)];
    assert ops[..2] == [Apply(selectors, m1), Apply(selectors, m2)];
    assert ops[..2][..1] == [Apply(selectors, m1)];
    assert ops[..2][..1][..0] == [];
    assert After(ops[..2][..1]).ipt.chain == [m1];
    assert DeleteFirst([m1], m2) == [m1] + DeleteFirst([m1][1..], m2) == [m1];
    assert After(ops[..2]).ipt.chain == [m1, m2];
    assert [m1, m2][1..] == [m2];
    assert DeleteFirst([m1, m2], m2) == [m1] + DeleteFirst([m2], m2) == [m1];
  }
}
