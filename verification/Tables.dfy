/**
Routing table and firewall mark of a configuration (daemon/internal/tunnel/tunnel.go), and the
copy of that derivation in the switch engine (daemon/internal/switch/switch.go).
*/
module Tables {
  import opened Config

  const TWO63 := 0x8000_0000_0000_0000
  const TWO64 := 0x1_0000_0000_0000_0000

  /** Go's 64-bit `int`: arithmetic wraps around. */
  function Wrap64(x: int): (r: int)
    ensures -TWO63 <= r < TWO63
  {
    (x + TWO63) % TWO64 - TWO63
  }

  /** Go's remainder takes the sign of the dividend. */
  function GoRem(x: int, m: int): (r: int)
    requires m > 0
    ensures -m < r < m
    ensures x >= 0 ==> r == x % m
  {
    if x >= 0 then x % m else -((-x) % m)
  }

  function IDHash(id: string): int {
    if id == "" then 0 else Wrap64(IDHash(id[..|id| - 1]) * 31 + id[|id| - 1] as int)
  }

  function DerivedTable(id: string): (t: int)
    ensures 100 <= t < 200
  {
    100 + GoRem(GoRem(IDHash(id), 100) + 100, 100)
  }

  function TableID(tc: Tunnel): (t: int)
    ensures t > 0
  {
    if tc.routingTableID > 0 then tc.routingTableID else DerivedTable(tc.id)
  }

  function ToUint32(x: int): nat {
    x % 0x1_0000_0000
  }

  /** fwmarkForTable */
  function FWMark(tc: Tunnel): nat {
    ToUint32(TableID(tc))
  }

  method RoutingTableID(tc: Tunnel) returns (t: int)
    ensures t == TableID(tc)
  {
    if tc.routingTableID > 0 {
      return tc.routingTableID;
    }
    var h := 0;
    for i := 0 to |tc.id|
      invariant h == IDHash(tc.id[..i])
    {
      assert tc.id[..i + 1][..i] == tc.id[..i];
      h := Wrap64(h * 31 + tc.id[i] as int);
    }
    assert tc.id[..|tc.id|] == tc.id;
    t := 100 + GoRem(GoRem(h, 100) + 100, 100);
  }

  /** The engine's own copy (fwmarkFor) names the mark the tunnel managers use: what it clears is what was applied. */
  method FWMarkFor(tc: Tunnel) returns (mark: nat)
    ensures mark == FWMark(tc)
    ensures tc.routingTableID <= 0 ==> 100 <= mark < 200
  {
    if tc.routingTableID > 0 {
      return ToUint32(tc.routingTableID);
    }
    var h := 0;
    for i := 0 to |tc.id|
      invariant h == IDHash(tc.id[..i])
    {
      assert tc.id[..i + 1][..i] == tc.id[..i];
      h := Wrap64(h * 31 + tc.id[i] as int);
    }
    assert tc.id[..|tc.id|] == tc.id;
    mark := ToUint32(100 + GoRem(GoRem(h, 100) + 100, 100));
  }
}
