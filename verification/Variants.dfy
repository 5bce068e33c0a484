/**
DPI variants of a configuration, as values (daemon/internal/dpi/variants.go): which mutations apply,
in which order, and what each one changes. `VariantObjects` generates them on the heap.
*/
module Variants {
  import opened Options
  import opened Config
  import opened Decimal
  import opened Text
  import opened Endpoint

  // ---- The menus ----

  datatype Profile = Profile(name: string, jc: int, jmin: int, jmax: int, s1: int, s2: int, h: Headers)

  const PROFILES: seq<Profile> := [
    Profile("mild", 2, 20, 50, 0, 0, Headers(0, 0, 0, 0)),
    Profile("moderate", 4, 40, 70, 0, 0, Headers(1262700631, 1752251508, 1346454851, 1532746439)),
    Profile("aggressive", 7, 50, 100, 10, 10, Headers(904958478, 1153565019, 1750837079, 1009857588))
  ]
  const MILD := 0
  const MODERATE := 1
  const AGGRESSIVE := 2

  const MTUS: seq<nat> := [1200, 1280, 1360]
  const PORTS: seq<nat> := [443, 80, 53]
  const FINGERPRINTS := ["chrome", "firefox", "safari", "ios", "android", "360"]
  const TRANSPORTS := ["ws", "grpc", "httpupgrade", "tcp", "quic", "h3"]
  const PATHS := ["/", "/cdn-cgi/trace", "/api", "/v1", "grpc"]

  /** One mutation of a configuration. */
  datatype Kind =
    | Mtu(mtu: nat)
    | EndpointPort(port: nat)
    | VlessPort(port: nat)
    | Awg(profile: nat, headers: Headers)   // the headers come out at random
    | Fp(fingerprint: string)
    | Tr(transport: string)
    | Path(path: nat)                       // index into PATHS
    | Ech

  function NormalizeTransportPath(transport: string, path: string): string {
    var p := if Trim(path, GoSpace) == "" then "/" else Trim(path, GoSpace);
    if transport == "grpc" then (if p != "" && p[0] == '/' then p[1..] else p)
    else if p == "" || p[0] != '/' then "/" + p
    else p
  }

  predicate IsSlash(c: char) {
    c == '/'
  }

  function Replaced(s: string): string {
    seq(|s|, i requires 0 <= i < |s| => if s[i] == '/' || s[i] == '_' then '-' else s[i])
  }

  function SlugPathVariant(path: string): string {
    var slug := Trim(path, IsSlash);
    if slug == "" then "root" else Replaced(slug)
  }

  predicate PathTransport(transport: string) {
    transport == "ws" || transport == "httpupgrade" || transport == "grpc"
  }

  const PATH_SLUGS := ["root", "cdn-cgi-trace", "api", "v1", "grpc"]

  /** What is left of each path without its leading slash. */
  const PATH_BODIES := ["", "cdn-cgi/trace", "api", "v1", "grpc"]

  lemma PathText(i: nat)
    requires i < |PATHS|
    ensures PATHS[i] == (if i == 4 then "" else "/") + PATH_BODIES[i]
    ensures i > 0 ==> PATH_BODIES[i] != "" && PATH_BODIES[i][0] != '/' && PATH_BODIES[i][|PATH_BODIES[i]| - 1] != '/'
    ensures !GoSpace(PATHS[i][0]) && !GoSpace(PATHS[i][|PATHS[i]| - 1])
    ensures i > 0 ==> Replaced(PATH_BODIES[i]) == PATH_SLUGS[i]
  {
  }

  /** The names of the path variants do not depend on the transport. */
  lemma PathSlugs(transport: string, i: nat)
    requires PathTransport(transport) && i < |PATHS|
    ensures SlugPathVariant(NormalizeTransportPath(transport, PATHS[i])) == PATH_SLUGS[i]
  {
    var p, body := PATHS[i], PATH_BODIES[i];
    PathText(i);
    TrimmedEnds(p, GoSpace);
    TrimmedEnds(body, IsSlash);
    var n := NormalizeTransportPath(transport, p);
    assert ("/" + body)[1..] == body;
    assert n == if transport == "grpc" then body else "/" + body;
    assert Trim(n, IsSlash) == body;
  }

  /** The part of the variant's ID after ":dpi:". */
  function Slug(k: Kind): string {
    match k
    case Mtu(n) => "mtu" + NatText(n)
    case EndpointPort(p) => "ep" + NatText(p)
    case VlessPort(p) => "port" + NatText(p)
    case Awg(i, _) => "awg:" + (if i < 3 then PROFILES[i].name else "")
    case Fp(s) => "fp:" + s
    case Tr(s) => "tr:" + s
    case Path(i) => "path:" + (if i < 5 then PATH_SLUGS[i] else "")
    case Ech => "ech:on"
  }

  function VariantID(baseID: string, k: Kind): string {
    baseID + ":dpi:" + Slug(k)
  }

  function EndpointOf(t: Tunnel): Option<HostPort> {
    match t.protocol
    case WireGuardProto => if t.wg.None? || t.wg.value.endpoint == "" then None else SplitEndpoint(t.wg.value.endpoint)
    case AmneziaWGProto =>
      if t.awg.None? || t.awg.value.wg.endpoint == "" then None else SplitEndpoint(t.awg.value.wg.endpoint)
    case _ => None
  }

  /** Only five fields are compared; S1, S2, H3 and H4 are not. */
  predicate ProfileInUse(cur: AmneziaWG, i: nat)
    requires i < 3
  {
    var prof := PROFILES[i];
    cur.jc == prof.jc && cur.jmin == prof.jmin && cur.jmax == prof.jmax &&
    cur.headers.h1 == prof.h.h1 && cur.headers.h2 == prof.h.h2
  }

  /** A mutation that applies and would change something. */
  predicate Useful(t: Tunnel, k: Kind) {
    match k
    case Mtu(n) => n != t.mtu
    case EndpointPort(p) => EndpointOf(t).Some? && p != EndpointOf(t).value.port
    case VlessPort(p) => t.vless.Some? && t.vless.value.port > 0 && p != t.vless.value.port
    case Awg(i, _) => t.awg.Some? && i < 3 && !ProfileInUse(t.awg.value, i)
    case Fp(s) => t.vless.Some? && s != t.vless.value.fingerprint
    case Tr(s) => t.vless.Some? && s != t.vless.value.transport
    case Path(i) =>
      t.vless.Some? && PathTransport(t.vless.value.transport) && i < 5 &&
      NormalizeTransportPath(t.vless.value.transport, PATHS[i]) != t.vless.value.transportPath
    case Ech => t.vless.Some? && t.vless.value.fixed.security != "none" && !t.vless.value.ech
  }

  function WithEndpoint(t: Tunnel, endpoint: string): Tunnel {
    if t.protocol == AmneziaWGProto && t.awg.Some? then
      t.(awg := Some(t.awg.value.(wg := t.awg.value.wg.(endpoint := endpoint))))
    else if t.wg.Some? then t.(wg := Some(t.wg.value.(endpoint := endpoint)))
    else t
  }

  function WithVless(t: Tunnel, v: VLESS): Tunnel {
    t.(vless := Some(v))
  }

  /** The fields the mutation changes, apart from the identity of the variant; nothing if there is no such section. */
  function Changed(t: Tunnel, k: Kind): Tunnel {
    match k
    case Mtu(n) => t.(mtu := n)
    case EndpointPort(p) =>
      var e := EndpointOf(t);
      if e.None? then t else WithEndpoint(t, JoinEndpoint(e.value.host, p))
    case Awg(i, h) =>
      if t.awg.None? || i >= 3 then t else
        var p := PROFILES[i];
        t.(awg := Some(AmneziaWG(t.awg.value.wg, p.jc, p.jmin, p.jmax, p.s1, p.s2, h)))
    case _ => if t.vless.None? then t else WithVless(t, ChangedVless(t.vless.value, k))
  }

  function ChangedVless(v: VLESS, k: Kind): VLESS {
    match k
    case VlessPort(p) => v.(port := p)
    case Fp(s) => v.(fingerprint := s)
    case Tr(s) => v.(transport := s, transportPath := if v.transportPath == "" then "/" else v.transportPath)
    case Path(i) => if i >= 5 then v else v.(transportPath := NormalizeTransportPath(v.transport, PATHS[i]))
    case Ech => v.(ech := true)
    case _ => v
  }

  function Mutate(t: Tunnel, k: Kind): Tunnel {
    Changed(t, k).(id := VariantID(t.id, k), isVariant := true, baseConfigID := t.id)
  }

  // ---- Which mutations, in which order ----

  function MtuMenu(): seq<Kind> {
    seq(|MTUS|, i requires 0 <= i < |MTUS| => Mtu(MTUS[i]))
  }

  function EndpointMenu(): seq<Kind> {
    seq(|PORTS|, i requires 0 <= i < |PORTS| => EndpointPort(PORTS[i]))
  }

  function PortMenu(): seq<Kind> {
    seq(|PORTS|, i requires 0 <= i < |PORTS| => VlessPort(PORTS[i]))
  }

  function FpMenu(): seq<Kind> {
    seq(|FINGERPRINTS|, i requires 0 <= i < |FINGERPRINTS| => Fp(FINGERPRINTS[i]))
  }

  function TrMenu(): seq<Kind> {
    seq(|TRANSPORTS|, i requires 0 <= i < |TRANSPORTS| => Tr(TRANSPORTS[i]))
  }

  function PathMenu(): seq<Kind> {
    seq(|PATHS|, i requires 0 <= i < |PATHS| => Path(i))
  }

  /** Random headers of the three profiles. */
  datatype Dice = Dice(mild: Headers, moderate: Headers, aggressive: Headers)

  function Rolled(dice: Dice, profile: nat): Headers {
    if profile == MILD then dice.mild else if profile == MODERATE then dice.moderate else dice.aggressive
  }

  /** The profiles, the strongest first when the VPN protocol itself was recognised. */
  function ProfileOrder(hint: BlockType): (order: seq<nat>)
    ensures |order| == 3 && forall i :: 0 <= i < 3 ==> order[i] < 3
  {
    if hint == BlockProtocol then [AGGRESSIVE, MODERATE, MILD] else [MILD, MODERATE, AGGRESSIVE]
  }

  function ProfileMenu(hint: BlockType, dice: Dice): seq<Kind> {
    var order := ProfileOrder(hint);
    seq(3, i requires 0 <= i < 3 => Awg(order[i], Rolled(dice, order[i])))
  }

  predicate PortHint(hint: BlockType) {
    hint == BlockProtocol || hint == BlockTCP || hint == BlockNone
  }

  predicate PathHint(hint: BlockType) {
    hint == BlockHTTP || hint == BlockTLS || hint == BlockNone
  }

  function If(b: bool, ks: seq<Kind>): seq<Kind> {
    if b then ks else []
  }

  function VlessFront(hint: BlockType): seq<Kind> {
    if hint == BlockHTTP then TrMenu() + FpMenu() else FpMenu() + TrMenu() + [Ech]
  }

  function Menu(t: Tunnel, hint: BlockType, dice: Dice): seq<Kind> {
    match t.protocol
    case WireGuardProto => MtuMenu() + If(PortHint(hint), EndpointMenu())
    case AmneziaWGProto =>
      if t.awg.None? then [] else ProfileMenu(hint, dice) + MtuMenu() + If(PortHint(hint), EndpointMenu())
    case VLESSProto =>
      if t.vless.None? then [] else
        VlessFront(hint) + If(PathHint(hint), PathMenu()) + If(PortHint(hint), PortMenu())
    case OtherProto(_) => []
  }

  /** The mutations of a list that are useful, in order. */
  function Kept(t: Tunnel, ks: seq<Kind>): (out: seq<Kind>)
    ensures |out| <= |ks|
  {
    if ks == [] then [] else
      Kept(t, ks[..|ks| - 1]) + (if Useful(t, ks[|ks| - 1]) then [ks[|ks| - 1]] else [])
  }

  function Mutants(t: Tunnel, ks: seq<Kind>): (out: seq<Tunnel>)
    ensures |out| == |ks|
  {
    seq(|ks|, i requires 0 <= i < |ks| => Mutate(t, ks[i]))
  }

  function EffectiveCap(maxVariants: int): (n: nat)
    ensures n >= 1
  {
    if maxVariants <= 0 then 8 else maxVariants
  }

  function Capped<T>(s: seq<T>, n: nat): (r: seq<T>)
    ensures |r| <= n && r <= s
  {
    if |s| > n then s[..n] else s
  }

  function Generated(t: Tunnel, hint: BlockType, maxVariants: int, dice: Dice): seq<Tunnel> {
    Capped(Mutants(t, Kept(t, Menu(t, hint, dice))), EffectiveCap(maxVariants))
  }

  // ---- Distinct IDs ----

  /** The same mutation, whatever the random headers. */
  predicate Same(a: Kind, b: Kind) {
    if a.Awg? && b.Awg? then a.profile == b.profile else a == b
  }

  function Ctor(k: Kind): nat {
    match k
    case Mtu(_) => 0 case EndpointPort(_) => 1 case VlessPort(_) => 2 case Awg(_, _) => 3
    case Fp(_) => 4 case Tr(_) => 5 case Path(_) => 6 case Ech => 7
  }

  /** A mutation from one of the menus. */
  predicate OnMenu(k: Kind) {
    (k.Awg? ==> k.profile < 3) && (k.Path? ==> k.path < 5)
  }

  const LETTERS := ["mt", "ep", "po", "aw", "fp", "tr", "pa", "ec"]

  lemma SlugLetters(k: Kind)
    ensures |Slug(k)| >= 3 && Slug(k)[..2] == LETTERS[Ctor(k)]
  {
  }

  lemma LettersDistinct(i: nat, j: nat)
    requires i < 8 && j < 8 && LETTERS[i] == LETTERS[j]
    ensures i == j
  {
  }

  lemma DropPrefix(p: string, a: string, b: string)
    requires p + a == p + b
    ensures a == b
  {
    assert (p + a)[|p|..] == a && (p + b)[|p|..] == b;
  }

  lemma SlugInjective(a: Kind, b: Kind)
    requires OnMenu(a) && OnMenu(b) && Slug(a) == Slug(b)
    ensures Same(a, b)
  {
    SlugLetters(a);
    SlugLetters(b);
    LettersDistinct(Ctor(a), Ctor(b));
    match a {
      case Mtu(n) => DropPrefix("mtu", NatText(n), NatText(b.mtu)); NatTextInjective(n, b.mtu);
      case EndpointPort(p) => DropPrefix("ep", NatText(p), NatText(b.port)); NatTextInjective(p, b.port);
      case VlessPort(p) => DropPrefix("port", NatText(p), NatText(b.port)); NatTextInjective(p, b.port);
      case Awg(i, _) =>
        DropPrefix("awg:", PROFILES[i].name, PROFILES[b.profile].name);
        assert |PROFILES[0].name| == 4 && |PROFILES[1].name| == 8 && |PROFILES[2].name| == 10;
      case Fp(s) => DropPrefix("fp:", s, b.fingerprint);
      case Tr(s) => DropPrefix("tr:", s, b.transport);
      case Path(i) =>
        DropPrefix("path:", PATH_SLUGS[i], PATH_SLUGS[b.path]);
        assert |PATH_SLUGS[0]| == 4 && |PATH_SLUGS[1]| == 13 && |PATH_SLUGS[2]| == 3 && |PATH_SLUGS[3]| == 2;
        assert |PATH_SLUGS[4]| == 4 && PATH_SLUGS[0][0] == 'r' && PATH_SLUGS[4][0] == 'g';
      case Ech =>
    }
  }

  ghost predicate DistinctKinds(ks: seq<Kind>) {
    && (forall i :: 0 <= i < |ks| ==> OnMenu(ks[i]))
    && forall i, j :: 0 <= i < j < |ks| ==> !Same(ks[i], ks[j])
  }

  /** All of one constructor. */
  ghost predicate AllOf(ks: seq<Kind>, c: nat) {
    forall i :: 0 <= i < |ks| ==> Ctor(ks[i]) == c
  }

  ghost predicate Avoids(ks: seq<Kind>, c: nat) {
    forall i :: 0 <= i < |ks| ==> Ctor(ks[i]) != c
  }

  lemma DistinctConcat(a: seq<Kind>, b: seq<Kind>, c: nat)
    requires DistinctKinds(a) && DistinctKinds(b) && AllOf(b, c) && Avoids(a, c)
    ensures DistinctKinds(a + b)
    ensures forall d :: d != c && Avoids(a, d) ==> Avoids(a + b, d)
  {
  }

  lemma MenusDistinct(hint: BlockType, dice: Dice)
    ensures DistinctKinds(MtuMenu()) && DistinctKinds(EndpointMenu()) && DistinctKinds(PortMenu())
    ensures DistinctKinds(PathMenu()) && DistinctKinds(ProfileMenu(hint, dice)) && DistinctKinds([Ech])
  {
  }

  lemma TextsDistinct(i: nat, j: nat)
    requires i < j < 6
    ensures FINGERPRINTS[i] != FINGERPRINTS[j] && TRANSPORTS[i] != TRANSPORTS[j]
  {
  }

  lemma TextMenusDistinct()
    ensures DistinctKinds(FpMenu()) && DistinctKinds(TrMenu())
  {
    forall i, j | 0 <= i < j < 6
      ensures !Same(FpMenu()[i], FpMenu()[j]) && !Same(TrMenu()[i], TrMenu()[j])
    {
      TextsDistinct(i, j);
    }
  }

  lemma WireGuardMenuDistinct(front: seq<Kind>, hint: BlockType)
    requires DistinctKinds(front) && AllOf(front, 3)
    ensures DistinctKinds(front + MtuMenu() + If(PortHint(hint), EndpointMenu()))
  {
    MenusDistinct(hint, Dice(Headers(0, 0, 0, 0), Headers(0, 0, 0, 0), Headers(0, 0, 0, 0)));
    DistinctConcat(front, MtuMenu(), 0);
    DistinctConcat(front + MtuMenu(), If(PortHint(hint), EndpointMenu()), 1);
  }

  /** A menu of fingerprints, transports and ECH, followed by paths and ports. */
  lemma VlessMenuDistinct(front: seq<Kind>, hint: BlockType)
    requires DistinctKinds(front) && Avoids(front, 6) && Avoids(front, 2)
    ensures DistinctKinds(front + If(PathHint(hint), PathMenu()) + If(PortHint(hint), PortMenu()))
  {
  }

  lemma FrontParts()
    ensures AllOf(FpMenu(), 4) && AllOf(TrMenu(), 5) && AllOf([Ech], 7) && DistinctKinds([Ech])
  {
  }

  lemma AvoidsConcat(a: seq<Kind>, b: seq<Kind>, d: nat)
    requires Avoids(a, d) && Avoids(b, d)
    ensures Avoids(a + b, d)
  {
  }

  lemma JoinMenus(a: seq<Kind>, b: seq<Kind>, c: nat)
    requires DistinctKinds(a) && DistinctKinds(b) && AllOf(b, c) && Avoids(a, c) && c != 2 && c != 6
    requires Avoids(a, 2) && Avoids(a, 6)
    ensures DistinctKinds(a + b) && Avoids(a + b, 2) && Avoids(a + b, 6)
  {
  }

  lemma VlessFrontDistinct(hint: BlockType)
    ensures DistinctKinds(VlessFront(hint)) && Avoids(VlessFront(hint), 6) && Avoids(VlessFront(hint), 2)
  {
    TextMenusDistinct();
    FrontParts();
    var fp, tr, ech := FpMenu(), TrMenu(), [Ech];
    if hint == BlockHTTP {
      JoinMenus(tr, fp, 4);
    } else {
      JoinMenus(fp, tr, 5);
      AvoidsConcat(fp, tr, 7);
      JoinMenus(fp + tr, ech, 7);
    }
  }

  lemma MenuDistinct(t: Tunnel, hint: BlockType, dice: Dice)
    ensures DistinctKinds(Menu(t, hint, dice))
  {
    match t.protocol {
      case WireGuardProto =>
        WireGuardMenuDistinct([], hint);
        assert [] + MtuMenu() == MtuMenu();
      case AmneziaWGProto =>
        MenusDistinct(hint, dice);
        WireGuardMenuDistinct(ProfileMenu(hint, dice), hint);
      case VLESSProto =>
        VlessFrontDistinct(hint);
        VlessMenuDistinct(VlessFront(hint), hint);
      case OtherProto(_) =>
    }
  }

  lemma {:induction false} KeptMembers(t: Tunnel, ks: seq<Kind>, k: Kind)
    ensures k in Kept(t, ks) <==> k in ks && Useful(t, k)
  {
    if ks != [] {
      KeptMembers(t, ks[..|ks| - 1], k);
      assert ks == ks[..|ks| - 1] + [ks[|ks| - 1]];
    }
  }

  lemma {:induction false} KeptConcat(t: Tunnel, a: seq<Kind>, b: seq<Kind>)
    ensures Kept(t, a + b) == Kept(t, a) + Kept(t, b)
  {
    if b == [] {
      assert a + b == a;
    } else {
      var n := |b| - 1;
      KeptConcat(t, a, b[..n]);
      assert (a + b)[..|a| + n] == a + b[..n];
    }
  }

  lemma {:induction false} KeptDistinct(t: Tunnel, ks: seq<Kind>)
    requires DistinctKinds(ks)
    ensures DistinctKinds(Kept(t, ks))
  {
    if ks != [] {
      var n := |ks| - 1;
      KeptDistinct(t, ks[..n]);
      var front := Kept(t, ks[..n]);
      forall i | 0 <= i < |front|
        ensures !Same(front[i], ks[n])
      {
        KeptMembers(t, ks[..n], front[i]);
        assert front[i] in ks[..n];
      }
    }
  }

  /**
  The generated IDs are pairwise distinct, each is the base ID followed by ":dpi:" and the name of
  its mutation, and there are never more than the cap allows.
  */
  lemma GeneratedIDs(t: Tunnel, hint: BlockType, maxVariants: int, dice: Dice)
    ensures var vs, ks := Generated(t, hint, maxVariants, dice), Kept(t, Menu(t, hint, dice));
      && |vs| <= EffectiveCap(maxVariants) && |vs| <= |ks|
      && (forall i :: 0 <= i < |vs| ==>
            vs[i] == Mutate(t, ks[i]) && t.id + ":dpi:" <= vs[i].id && vs[i].baseConfigID == t.id)
      && (forall i, j :: 0 <= i < j < |vs| ==> vs[i].id != vs[j].id)
  {
    var vs, ks := Generated(t, hint, maxVariants, dice), Kept(t, Menu(t, hint, dice));
    MenuDistinct(t, hint, dice);
    KeptDistinct(t, Menu(t, hint, dice));
    forall i, j | 0 <= i < j < |vs|
      ensures vs[i].id != vs[j].id
    {
      if vs[i].id == vs[j].id {
        DropPrefix(t.id + ":dpi:", Slug(ks[i]), Slug(ks[j]));
        SlugInjective(ks[i], ks[j]);
      }
    }
  }

  /** An endpoint-port variant has a different port, and the host of its base exactly when that host survives. */
  lemma EndpointVariantsKeepHostIff(t: Tunnel, p: nat)
    requires Useful(t, EndpointPort(p)) && p in PORTS
    ensures var v, e := Mutate(t, EndpointPort(p)), EndpointOf(t).value;
      (EndpointOf(v) == Some(HostPort(e.host, p)) <==> HostSurvives(e.host)) && p != e.port
  {
    var endpoint := if t.protocol == WireGuardProto then t.wg.value.endpoint else t.awg.value.wg.endpoint;
    RePortKeepsHostIff(endpoint, p);
  }

  /** Every mutation that is kept changes the configuration, obfuscation profiles left aside. */
  lemma KeptMutationChanges(t: Tunnel, k: Kind)
    requires Useful(t, k) && !k.Awg? && (k.EndpointPort? ==> k.port in PORTS)
    ensures Changed(t, k) != t
  {
    if k.EndpointPort? {
      var endpoint := if t.protocol == WireGuardProto then t.wg.value.endpoint else t.awg.value.wg.endpoint;
      NewPortDiffers(endpoint, EndpointOf(t).value.host, k.port);
    }
  }

  // ---- Which obfuscation profiles are skipped ----

  /** What `rand.Int31` may return. */
  predicate Int31(n: int) {
    0 <= n < 0x8000_0000
  }

  predicate Rollable(h: Headers) {
    Int31(h.h1) && Int31(h.h2) && Int31(h.h3) && Int31(h.h4)
  }

  predicate SameSizes(cur: AmneziaWG, i: nat)
    requires i < 3
  {
    cur.s1 == PROFILES[i].s1 && cur.s2 == PROFILES[i].s2
  }

  predicate SameJunk(cur: AmneziaWG, i: nat)
    requires i < 3
  {
    cur.jc == PROFILES[i].jc && cur.jmin == PROFILES[i].jmin && cur.jmax == PROFILES[i].jmax
  }

  /** Some roll of the headers makes a variant of this profile that is kept and equals its base. */
  ghost predicate MayRepeat(t: Tunnel, i: nat) {
    exists h :: Rollable(h) && Useful(t, Awg(i, h)) && Changed(t, Awg(i, h)) == t
  }

  /**
  A kept profile may repeat its base: the check for "already in use" compares with the fixed headers of the profile,
  but the variant gets random ones. Exactly when the base has all the junk parameters of the profile, headers a roll
  may give, and not both of the fixed ones.
  */
  lemma MayRepeatIff(t: Tunnel, i: nat)
    requires i < 3 && t.awg.Some?
    ensures var cur := t.awg.value;
      MayRepeat(t, i) <==>
      && SameJunk(cur, i) && SameSizes(cur, i) && Rollable(cur.headers)
      && !(cur.headers.h1 == PROFILES[i].h.h1 && cur.headers.h2 == PROFILES[i].h.h2)
  {
    var h := t.awg.value.headers;
    if Rollable(h) && Useful(t, Awg(i, h)) && Changed(t, Awg(i, h)) == t {
      assert MayRepeat(t, i);
    }
  }

  /** The profile is skipped, although its variant would differ from the base with whatever headers. */
  ghost predicate SkippedInVain(t: Tunnel, i: nat) {
    forall h :: Rollable(h) ==> !Useful(t, Awg(i, h)) && Changed(t, Awg(i, h)) != t
  }

  /**
  A profile may be skipped in vain: S1 and S2 are not compared. Exactly when the base has the five values that are
  compared, but another S1 or S2, or an H3 or H4 no roll gives.
  */
  lemma SkippedInVainIff(t: Tunnel, i: nat)
    requires i < 3 && t.awg.Some?
    ensures var cur := t.awg.value;
      SkippedInVain(t, i) <==>
      ProfileInUse(cur, i) && !(SameSizes(cur, i) && Int31(cur.headers.h3) && Int31(cur.headers.h4))
  {
    var cur := t.awg.value;
    assert Rollable(PROFILES[i].h);
    if SkippedInVain(t, i) {
      assert !Useful(t, Awg(i, PROFILES[i].h));
      if Rollable(cur.headers) {
        assert Changed(t, Awg(i, cur.headers)) != t;
      }
    }
  }

  /** The profile is skipped, although the base is not the profile with its own headers: S1, S2, H3 or H4 differ. */
  lemma SkippedUnlikeProfileIff(t: Tunnel, i: nat, h: Headers)
    requires i < 3 && t.awg.Some?
    ensures var cur, p := t.awg.value, PROFILES[i];
      !Useful(t, Awg(i, h)) && Changed(t, Awg(i, p.h)) != t <==>
      ProfileInUse(cur, i) && !(SameSizes(cur, i) && cur.headers.h3 == p.h.h3 && cur.headers.h4 == p.h.h4)
  {
  }
}
