/**
The variant generators on the heap (daemon/internal/dpi/variants.go): a configuration is a mutable
object with pointers to its protocol sections, a variant is a clone with some fields assigned.
No generator has a `modifies` clause, so the base configuration and everything it points to stay
as they were, although a clone shares the sections it does not copy.
*/
module VariantObjects {
  import opened Options
  import opened Config
  import opened Decimal
  import opened Endpoint
  import opened Variants

  /** A pointer to a struct. */
  class Ref<T> {
    var v: T

    constructor (x: T)
      ensures v == x
    {
      v := x;
    }
  }

  function Target<T>(r: Ref?<T>): Option<T>
    reads r
  {
    if r == null then None else Some(r.v)
  }

  class TunnelRef {
    var id: string
    var name: string
    var protocol: Protocol
    var enabled: bool
    var interfaceName: string
    var routingTableID: int
    var mtu: int
    var wg: Ref?<WireGuard>
    var awg: Ref?<AmneziaWG>
    var vless: Ref?<VLESS>
    var autoTune: Option<bool>
    var isVariant: bool
    var baseConfigID: string

    function Value(): Tunnel
      reads this, wg, awg, vless
    {
      Tunnel(id, name, protocol, enabled, interfaceName, routingTableID, mtu,
             Target(wg), Target(awg), Target(vless), autoTune, isVariant, baseConfigID)
    }

    /** As the store loads a configuration: sections of its own. */
    constructor Of(t: Tunnel)
      ensures Value() == t
    {
      id, name, protocol, enabled := t.id, t.name, t.protocol, t.enabled;
      interfaceName, routingTableID, mtu := t.interfaceName, t.routingTableID, t.mtu;
      wg, awg, vless := null, null, null;
      autoTune, isVariant, baseConfigID := t.autoTune, t.isVariant, t.baseConfigID;
      new;
      if t.wg.Some? {
        wg := new Ref(t.wg.value);
      }
      if t.awg.Some? {
        awg := new Ref(t.awg.value);
      }
      if t.vless.Some? {
        vless := new Ref(t.vless.value);
      }
    }

    /** `v := *tc`: the sections are shared. */
    constructor Copy(tc: TunnelRef)
      ensures Value() == tc.Value()
      ensures wg == tc.wg && awg == tc.awg && vless == tc.vless
    {
      id, name, protocol, enabled := tc.id, tc.name, tc.protocol, tc.enabled;
      interfaceName, routingTableID, mtu := tc.interfaceName, tc.routingTableID, tc.mtu;
      wg, awg, vless := tc.wg, tc.awg, tc.vless;
      autoTune, isVariant, baseConfigID := tc.autoTune, tc.isVariant, tc.baseConfigID;
    }
  }

  method CloneWG(tc: TunnelRef) returns (v: TunnelRef)
    ensures fresh(v) && v.Value() == tc.Value()
    ensures v.wg != null ==> fresh(v.wg)
  {
    v := new TunnelRef.Copy(tc);
    if tc.wg != null {
      v.wg := new Ref(tc.wg.v);
    }
  }

  method CloneAWG(tc: TunnelRef) returns (v: TunnelRef)
    ensures fresh(v) && v.Value() == tc.Value()
    ensures v.awg != null ==> fresh(v.awg)
  {
    v := new TunnelRef.Copy(tc);
    if tc.awg != null {
      v.awg := new Ref(tc.awg.v);
    }
  }

  method CloneVLESS(tc: TunnelRef) returns (v: TunnelRef)
    ensures fresh(v) && v.Value() == tc.Value()
    ensures v.vless != null ==> fresh(v.vless)
  {
    v := new TunnelRef.Copy(tc);
    if tc.vless != null {
      v.vless := new Ref(tc.vless.v);
    }
  }

  /** The objects hold exactly these values. */
  ghost predicate Hold(vs: seq<TunnelRef>, ts: seq<Tunnel>)
    reads vs, set v <- vs :: v.wg, set v <- vs :: v.awg, set v <- vs :: v.vless
  {
    |vs| == |ts| && forall i :: 0 <= i < |vs| ==> vs[i].Value() == ts[i]
  }

  /** The useful ones among the first n mutations of a menu, carried out. */
  function Carried(t: Tunnel, ks: seq<Kind>, n: nat): seq<Tunnel>
    requires n <= |ks|
  {
    if n == 0 then [] else
      Carried(t, ks, n - 1) + (if Useful(t, ks[n - 1]) then [Mutate(t, ks[n - 1])] else [])
  }

  function AllCarried(t: Tunnel, ks: seq<Kind>): seq<Tunnel> {
    Carried(t, ks, |ks|)
  }

  lemma {:induction false} CarriedIsMutants(t: Tunnel, ks: seq<Kind>, n: nat)
    requires n <= |ks|
    ensures Carried(t, ks, n) == Mutants(t, Kept(t, ks[..n]))
  {
    if n > 0 {
      CarriedIsMutants(t, ks, n - 1);
      assert ks[..n][..n - 1] == ks[..n - 1];
    }
  }

  lemma {:induction false} CarriedConcat(t: Tunnel, a: seq<Kind>, b: seq<Kind>, n: nat)
    requires n <= |b|
    ensures Carried(t, a + b, |a| + n) == AllCarried(t, a) + Carried(t, b, n)
  {
    if n == 0 {
      CarriedPrefix(t, a, b, |a|);
    } else {
      CarriedConcat(t, a, b, n - 1);
    }
  }

  lemma {:induction false} CarriedPrefix(t: Tunnel, a: seq<Kind>, b: seq<Kind>, n: nat)
    requires n <= |a|
    ensures Carried(t, a + b, n) == Carried(t, a, n)
  {
    if n > 0 {
      CarriedPrefix(t, a, b, n - 1);
    }
  }

  lemma {:induction false} NothingCarried(t: Tunnel, ks: seq<Kind>, n: nat)
    requires n <= |ks| && forall i :: 0 <= i < |ks| ==> !Useful(t, ks[i])
    ensures Carried(t, ks, n) == []
  {
    if n > 0 {
      NothingCarried(t, ks, n - 1);
    }
  }

  lemma HoldConcat(xs: seq<TunnelRef>, ys: seq<TunnelRef>, as_: seq<Tunnel>, bs: seq<Tunnel>)
    requires Hold(xs, as_) && Hold(ys, bs)
    ensures Hold(xs + ys, as_ + bs)
  {
  }

  // ---- One variant ----

  /** What every generator does to a clone: name it after its base and mark it as a variant. */
  method Brand(v: TunnelRef, base: TunnelRef, slug: string)
    requires v != base
    modifies v`id, v`isVariant, v`baseConfigID
    ensures v.Value() == old(v.Value()).(id := base.id + ":dpi:" + slug, isVariant := true, baseConfigID := base.id)
  {
    v.id := base.id + ":dpi:" + slug;
    v.isVariant := true;
    v.baseConfigID := base.id;
  }

  method MtuVariant(tc: TunnelRef, mtu: nat) returns (v: TunnelRef)
    ensures fresh(v) && v.Value() == Mutate(tc.Value(), Mtu(mtu))
  {
    if tc.protocol == AmneziaWGProto {
      v := CloneAWG(tc);
    } else {
      v := CloneWG(tc);
    }
    v.mtu := mtu;
    Brand(v, tc, "mtu" + NatText(mtu));
  }

  method ProfileVariant(tc: TunnelRef, i: nat, rolled: Headers) returns (v: TunnelRef)
    requires tc.awg != null && i < 3
    ensures fresh(v) && v.Value() == Mutate(tc.Value(), Awg(i, rolled))
  {
    var prof := PROFILES[i];
    v := CloneAWG(tc);
    v.awg.v := v.awg.v.(jc := prof.jc, jmin := prof.jmin, jmax := prof.jmax, s1 := prof.s1, s2 := prof.s2,
                        headers := prof.h);
    v.awg.v := v.awg.v.(headers := rolled);  // randomizeAWGHeaders
    Brand(v, tc, "awg:" + prof.name);
  }

  method WgEndpointVariant(tc: TunnelRef, host: string, p: nat) returns (v: TunnelRef)
    requires tc.protocol == WireGuardProto && tc.wg != null
    requires EndpointOf(tc.Value()).Some? && host == EndpointOf(tc.Value()).value.host
    ensures fresh(v) && v.Value() == Mutate(tc.Value(), EndpointPort(p))
  {
    v := CloneWG(tc);
    v.wg.v := v.wg.v.(endpoint := JoinEndpoint(host, p));
    Brand(v, tc, "ep" + NatText(p));
  }

  method AwgEndpointVariant(tc: TunnelRef, host: string, p: nat) returns (v: TunnelRef)
    requires tc.protocol == AmneziaWGProto && tc.awg != null
    requires EndpointOf(tc.Value()).Some? && host == EndpointOf(tc.Value()).value.host
    ensures fresh(v) && v.Value() == Mutate(tc.Value(), EndpointPort(p))
  {
    v := CloneAWG(tc);
    v.awg.v := v.awg.v.(wg := v.awg.v.wg.(endpoint := JoinEndpoint(host, p)));
    Brand(v, tc, "ep" + NatText(p));
  }

  method VlessPortVariant(tc: TunnelRef, p: nat) returns (v: TunnelRef)
    requires tc.vless != null
    ensures fresh(v) && v.Value() == Mutate(tc.Value(), VlessPort(p))
  {
    v := CloneVLESS(tc);
    v.vless.v := v.vless.v.(port := p);
    Brand(v, tc, "port" + NatText(p));
  }

  method FingerprintVariant(tc: TunnelRef, fp: string) returns (v: TunnelRef)
    requires tc.vless != null
    ensures fresh(v) && v.Value() == Mutate(tc.Value(), Fp(fp))
  {
    v := CloneVLESS(tc);
    v.vless.v := v.vless.v.(fingerprint := fp);
    Brand(v, tc, "fp:" + fp);
  }

  method TransportVariant(tc: TunnelRef, tr: string) returns (v: TunnelRef)
    requires tc.vless != null
    ensures fresh(v) && v.Value() == Mutate(tc.Value(), Tr(tr))
  {
    v := CloneVLESS(tc);
    var vl := v.vless.v.(transport := tr);
    if vl.transportPath == "" {
      vl := vl.(transportPath := "/");
    }
    v.vless.v := vl;
    Brand(v, tc, "tr:" + tr);
  }

  method PathVariant(tc: TunnelRef, i: nat) returns (v: TunnelRef)
    requires tc.vless != null && PathTransport(tc.vless.v.transport) && i < 5
    ensures fresh(v) && v.Value() == Mutate(tc.Value(), Path(i))
  {
    var normalized := NormalizeTransportPath(tc.vless.v.transport, PATHS[i]);
    v := CloneVLESS(tc);
    v.vless.v := v.vless.v.(transportPath := normalized);
    PathSlugs(tc.vless.v.transport, i);
    Brand(v, tc, "path:" + SlugPathVariant(normalized));
  }

  method EchVariant(tc: TunnelRef) returns (v: TunnelRef)
    requires tc.vless != null
    ensures fresh(v) && v.Value() == Mutate(tc.Value(), Ech)
  {
    v := CloneVLESS(tc);
    v.vless.v := v.vless.v.(ech := true);
    Brand(v, tc, "ech:on");
  }

  // ---- The generators ----

  method MtuVariants(tc: TunnelRef) returns (out: seq<TunnelRef>)
    ensures fresh(out) && Hold(out, AllCarried(tc.Value(), MtuMenu()))
  {
    out := [];
    ghost var t, ks := tc.Value(), MtuMenu();
    for i := 0 to |MTUS|
      invariant fresh(out) && Hold(out, Carried(t, ks, i))
    {
      var mtu := MTUS[i];
      assert ks[i] == Mtu(mtu);
      if mtu == tc.mtu {
        continue;
      }
      var v := MtuVariant(tc, mtu);
      out := out + [v];
    }
  }

  method WgEndpointPorts(tc: TunnelRef, host: string, currentPort: int, ghost t: Tunnel) returns (out: seq<TunnelRef>)
    requires tc.protocol == WireGuardProto && t == tc.Value() && EndpointOf(t) == Some(HostPort(host, currentPort))
    ensures fresh(out) && Hold(out, AllCarried(t, EndpointMenu()))
  {
    out := [];
    ghost var ks := EndpointMenu();
    for i := 0 to |PORTS|
      invariant fresh(out) && Hold(out, Carried(t, ks, i))
    {
      var p := PORTS[i];
      assert ks[i] == EndpointPort(p);
      if p == currentPort {
        continue;
      }
      var v := WgEndpointVariant(tc, host, p);
      out := out + [v];
    }
  }

  method WgEndpointPortVariants(tc: TunnelRef) returns (out: seq<TunnelRef>)
    requires tc.protocol == WireGuardProto
    ensures fresh(out) && Hold(out, AllCarried(tc.Value(), EndpointMenu()))
  {
    if EndpointOf(tc.Value()) == None {
      NothingCarried(tc.Value(), EndpointMenu(), |EndpointMenu()|);
    }
    if tc.wg == null || tc.wg.v.endpoint == "" {
      return [];
    }
    var split := SplitEndpoint(tc.wg.v.endpoint);
    if split.None? {
      return [];
    }
    out := WgEndpointPorts(tc, split.value.host, split.value.port, tc.Value());
  }

  method AwgEndpointPorts(tc: TunnelRef, host: string, currentPort: int, ghost t: Tunnel)
    returns (out: seq<TunnelRef>)
    requires tc.protocol == AmneziaWGProto && t == tc.Value() && EndpointOf(t) == Some(HostPort(host, currentPort))
    ensures fresh(out) && Hold(out, AllCarried(t, EndpointMenu()))
  {
    out := [];
    ghost var ks := EndpointMenu();
    for i := 0 to |PORTS|
      invariant fresh(out) && Hold(out, Carried(t, ks, i))
    {
      var p := PORTS[i];
      assert ks[i] == EndpointPort(p);
      if p == currentPort {
        continue;
      }
      var v := AwgEndpointVariant(tc, host, p);
      out := out + [v];
    }
  }

  method AwgEndpointPortVariants(tc: TunnelRef) returns (out: seq<TunnelRef>)
    requires tc.protocol == AmneziaWGProto
    ensures fresh(out) && Hold(out, AllCarried(tc.Value(), EndpointMenu()))
  {
    if EndpointOf(tc.Value()) == None {
      NothingCarried(tc.Value(), EndpointMenu(), |EndpointMenu()|);
    }
    if tc.awg == null || tc.awg.v.wg.endpoint == "" {
      return [];
    }
    var split := SplitEndpoint(tc.awg.v.wg.endpoint);
    if split.None? {
      return [];
    }
    out := AwgEndpointPorts(tc, split.value.host, split.value.port, tc.Value());
  }

  method FingerprintVariants(tc: TunnelRef) returns (out: seq<TunnelRef>)
    requires tc.vless != null
    ensures fresh(out) && Hold(out, AllCarried(tc.Value(), FpMenu()))
  {
    out := [];
    ghost var t, ks := tc.Value(), FpMenu();
    for i := 0 to |FINGERPRINTS|
      invariant fresh(out) && Hold(out, Carried(t, ks, i))
    {
      var fp := FINGERPRINTS[i];
      assert ks[i] == Fp(fp);
      if fp == tc.vless.v.fingerprint {
        continue;
      }
      var v := FingerprintVariant(tc, fp);
      out := out + [v];
    }
  }

  method TransportVariants(tc: TunnelRef) returns (out: seq<TunnelRef>)
    requires tc.vless != null
    ensures fresh(out) && Hold(out, AllCarried(tc.Value(), TrMenu()))
  {
    out := [];
    ghost var t, ks := tc.Value(), TrMenu();
    for i := 0 to |TRANSPORTS|
      invariant fresh(out) && Hold(out, Carried(t, ks, i))
    {
      var tr := TRANSPORTS[i];
      assert ks[i] == Tr(tr);
      if tr == tc.vless.v.transport {
        continue;
      }
      var v := TransportVariant(tc, tr);
      out := out + [v];
    }
  }

  method PathVariants(tc: TunnelRef) returns (out: seq<TunnelRef>)
    ensures fresh(out) && Hold(out, AllCarried(tc.Value(), PathMenu()))
  {
    out := [];
    ghost var t, ks := tc.Value(), PathMenu();
    if tc.vless == null || !PathTransport(tc.vless.v.transport) {
      NothingCarried(t, ks, |ks|);
      return;
    }
    for i := 0 to |PATHS|
      invariant fresh(out) && Hold(out, Carried(t, ks, i))
    {
      var path := PATHS[i];
      assert ks[i] == Path(i);
      if NormalizeTransportPath(tc.vless.v.transport, path) == tc.vless.v.transportPath {
        continue;
      }
      var v := PathVariant(tc, i);
      out := out + [v];
    }
  }

  method VlessPortVariants(tc: TunnelRef) returns (out: seq<TunnelRef>)
    ensures fresh(out) && Hold(out, AllCarried(tc.Value(), PortMenu()))
  {
    out := [];
    ghost var t, ks := tc.Value(), PortMenu();
    if tc.vless == null || tc.vless.v.port <= 0 {
      NothingCarried(t, ks, |ks|);
      return;
    }
    for i := 0 to |PORTS|
      invariant fresh(out) && Hold(out, Carried(t, ks, i))
    {
      var p := PORTS[i];
      assert ks[i] == VlessPort(p);
      if p == tc.vless.v.port {
        continue;
      }
      var v := VlessPortVariant(tc, p);
      out := out + [v];
    }
  }

  method EchVariants(tc: TunnelRef) returns (out: seq<TunnelRef>)
    ensures fresh(out) && Hold(out, AllCarried(tc.Value(), [Ech]))
  {
    CarriedOne(tc.Value(), Ech);
    if tc.vless == null || tc.vless.v.fixed.security == "none" || tc.vless.v.ech {
      return [];
    }
    var v := EchVariant(tc);
    out := [v];
  }

  lemma CarriedOne(t: Tunnel, k: Kind)
    ensures AllCarried(t, [k]) == if Useful(t, k) then [Mutate(t, k)] else []
  {
    assert Carried(t, [k], 1) == Carried(t, [k], 0) + if Useful(t, k) then [Mutate(t, k)] else [];
  }

  /** Three profiles, the strongest first on a protocol hint. */
  method ProfileVariants(tc: TunnelRef, hint: BlockType, dice: Dice) returns (out: seq<TunnelRef>)
    requires tc.awg != null
    ensures fresh(out) && Hold(out, AllCarried(tc.Value(), ProfileMenu(hint, dice)))
  {
    out := [];
    ghost var t, ks := tc.Value(), ProfileMenu(hint, dice);
    var order := ProfileOrder(hint);
    for i := 0 to 3
      invariant fresh(out) && Hold(out, Carried(t, ks, i))
    {
      if ProfileInUse(tc.awg.v, order[i]) {
        continue;
      }
      var v := ProfileVariant(tc, order[i], Rolled(dice, order[i]));
      out := out + [v];
    }
  }

  lemma Joined(xs: seq<TunnelRef>, ys: seq<TunnelRef>, t: Tunnel, a: seq<Kind>, b: seq<Kind>)
    requires Hold(xs, AllCarried(t, a)) && Hold(ys, AllCarried(t, b))
    ensures Hold(xs + ys, AllCarried(t, a + b))
  {
    CarriedConcat(t, a, b, |b|);
    HoldConcat(xs, ys, AllCarried(t, a), AllCarried(t, b));
  }

  method WgVariants(tc: TunnelRef, hint: BlockType) returns (out: seq<TunnelRef>)
    requires tc.protocol == WireGuardProto
    ensures fresh(out) && Hold(out, AllCarried(tc.Value(), MtuMenu() + If(PortHint(hint), EndpointMenu())))
  {
    out := MtuVariants(tc);
    var more: seq<TunnelRef> := [];
    if PortHint(hint) {
      more := WgEndpointPortVariants(tc);
    }
    Joined(out, more, tc.Value(), MtuMenu(), If(PortHint(hint), EndpointMenu()));
    out := out + more;
  }

  method AwgSections(tc: TunnelRef, hint: BlockType, dice: Dice) returns (out: seq<TunnelRef>)
    requires tc.protocol == AmneziaWGProto && tc.awg != null
    ensures fresh(out)
    ensures Hold(out, AllCarried(tc.Value(), ProfileMenu(hint, dice) + MtuMenu() + If(PortHint(hint), EndpointMenu())))
  {
    out := ProfileVariants(tc, hint, dice);
    var mtus := MtuVariants(tc);
    Joined(out, mtus, tc.Value(), ProfileMenu(hint, dice), MtuMenu());
    out := out + mtus;
    var more: seq<TunnelRef> := [];
    if PortHint(hint) {
      more := AwgEndpointPortVariants(tc);
    }
    Joined(out, more, tc.Value(), ProfileMenu(hint, dice) + MtuMenu(), If(PortHint(hint), EndpointMenu()));
    out := out + more;
  }

  method AwgVariants(tc: TunnelRef, hint: BlockType, dice: Dice) returns (out: seq<TunnelRef>)
    requires tc.protocol == AmneziaWGProto
    ensures fresh(out) && Hold(out, AllCarried(tc.Value(), Menu(tc.Value(), hint, dice)))
  {
    if tc.awg == null {
      return [];
    }
    out := AwgSections(tc, hint, dice);
  }

  /** Fingerprints, transports and ECH in the order the hint asks for. */
  method VlessFrontVariants(tc: TunnelRef, hint: BlockType) returns (out: seq<TunnelRef>)
    requires tc.vless != null
    ensures fresh(out) && Hold(out, AllCarried(tc.Value(), VlessFront(hint)))
  {
    if hint == BlockHTTP {
      out := TransportVariants(tc);
      var fps := FingerprintVariants(tc);
      Joined(out, fps, tc.Value(), TrMenu(), FpMenu());
      out := out + fps;
    } else {
      out := FingerprintVariants(tc);
      var trs := TransportVariants(tc);
      Joined(out, trs, tc.Value(), FpMenu(), TrMenu());
      out := out + trs;
      var ech := EchVariants(tc);
      Joined(out, ech, tc.Value(), FpMenu() + TrMenu(), [Ech]);
      out := out + ech;
    }
  }

  method PathVariantsIf(tc: TunnelRef, b: bool) returns (out: seq<TunnelRef>)
    ensures fresh(out) && Hold(out, AllCarried(tc.Value(), If(b, PathMenu())))
  {
    out := [];
    if b {
      out := PathVariants(tc);
    }
  }

  method VlessPortVariantsIf(tc: TunnelRef, b: bool) returns (out: seq<TunnelRef>)
    ensures fresh(out) && Hold(out, AllCarried(tc.Value(), If(b, PortMenu())))
  {
    out := [];
    if b {
      out := VlessPortVariants(tc);
    }
  }

  method VlessSections(tc: TunnelRef, hint: BlockType) returns (out: seq<TunnelRef>)
    requires tc.vless != null
    ensures fresh(out)
    ensures Hold(out, AllCarried(tc.Value(),
                                 VlessFront(hint) + If(PathHint(hint), PathMenu()) + If(PortHint(hint), PortMenu())))
  {
    ghost var front, paths, ports := VlessFront(hint), If(PathHint(hint), PathMenu()), If(PortHint(hint), PortMenu());
    out := VlessFrontVariants(tc, hint);
    var more := PathVariantsIf(tc, PathHint(hint));
    Joined(out, more, tc.Value(), front, paths);
    out := out + more;
    more := VlessPortVariantsIf(tc, PortHint(hint));
    Joined(out, more, tc.Value(), front + paths, ports);
    out := out + more;
  }

  method VlessVariants(tc: TunnelRef, hint: BlockType, ghost dice: Dice) returns (out: seq<TunnelRef>)
    requires tc.protocol == VLESSProto
    ensures fresh(out) && Hold(out, AllCarried(tc.Value(), Menu(tc.Value(), hint, dice)))
  {
    if tc.vless == null {
      return [];
    }
    out := VlessSections(tc, hint);
  }

  method AllVariants(tc: TunnelRef, hint: BlockType, dice: Dice) returns (out: seq<TunnelRef>)
    ensures fresh(out) && Hold(out, AllCarried(tc.Value(), Menu(tc.Value(), hint, dice)))
  {
    out := [];
    match tc.protocol {
      case WireGuardProto => out := WgVariants(tc, hint);
      case AmneziaWGProto => out := AwgVariants(tc, hint, dice);
      case VLESSProto => out := VlessVariants(tc, hint, dice);
      case OtherProto(_) =>
    }
  }

  lemma CapHolds(vs: seq<TunnelRef>, ts: seq<Tunnel>, cap: nat)
    requires Hold(vs, ts)
    ensures Hold(if |vs| > cap then vs[..cap] else vs, Capped(ts, cap))
  {
  }

  lemma CarriedIsGenerated(t: Tunnel, hint: BlockType, maxVariants: int, dice: Dice)
    ensures Capped(AllCarried(t, Menu(t, hint, dice)), EffectiveCap(maxVariants))
         == Generated(t, hint, maxVariants, dice)
  {
    var menu := Menu(t, hint, dice);
    CarriedIsMutants(t, menu, |menu|);
    assert menu[..|menu|] == menu;
  }

  /**
  The generated objects are new and hold exactly the generated values, and the base configuration
  is as it was: this method may change nothing that existed before.
  */
  method GenerateVariants(tc: TunnelRef, hint: BlockType, maxVariants: int, dice: Dice) returns (out: seq<TunnelRef>)
    ensures fresh(out) && tc.Value() == old(tc.Value())
    ensures Hold(out, Generated(tc.Value(), hint, maxVariants, dice))
  {
    var cap := if maxVariants <= 0 then 8 else maxVariants;
    out := AllVariants(tc, hint, dice);
    CapHolds(out, AllCarried(tc.Value(), Menu(tc.Value(), hint, dice)), cap);
    CarriedIsGenerated(tc.Value(), hint, maxVariants, dice);
    if |out| > cap {
      out := out[..cap];
    }
  }

  /** What the switch engine gets: the values of the generated objects. */
  method GeneratedValues(t: Tunnel, hint: BlockType, maxVariants: int, dice: Dice) returns (vs: seq<Tunnel>)
    ensures vs == Generated(t, hint, maxVariants, dice)
  {
    var tc := new TunnelRef.Of(t);
    var out := GenerateVariants(tc, hint, maxVariants, dice);
    vs := seq(|out|, i requires 0 <= i < |out| reads out, set v <- out :: v.wg, set v <- out :: v.awg,
                     set v <- out :: v.vless => out[i].Value());
  }
}
