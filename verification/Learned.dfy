/**
The database of variants that worked (daemon/internal/dpi/persist.go): what is recorded of a variant,
how it is rebuilt from its base, and how the database is written to two files and read back.
*/
module Learned {
  import opened Options
  import opened Config
  import opened Decimal
  import opened Endpoint
  import opened Variants
  import Sorting
  import Store

  datatype LearnedEntry = LearnedEntry(baseConfigID: string, variantSuffix: string, effectiveMTU: int,
                                       effectiveFP: string, effectiveTrans: string, awgProfile: string,
                                       successCount: nat, lastSuccess: int)

  function EntryKey(e: LearnedEntry): string {
    e.baseConfigID + ":" + e.variantSuffix
  }

  predicate EndsWith(s: string, p: string) {
    |s| >= |p| && s[|s| - |p|..] == p
  }

  // ---- Recording ----

  predicate HasSuffixPart(variantID: string, baseID: string) {
    |variantID| > |baseID| + 1 && baseID + ":" <= variantID
  }

  function ExtractVariantSuffix(variantID: string, baseID: string): string {
    if HasSuffixPart(variantID, baseID) then variantID[|baseID| + 1..] else variantID
  }

  function ExtractAWGProfile(variantID: string): string {
    if EndsWith(variantID, "mild") then "mild"
    else if EndsWith(variantID, "moderate") then "moderate"
    else if EndsWith(variantID, "aggressive") then "aggressive"
    else ""
  }

  function NewLearned(v: Tunnel): LearnedEntry {
    LearnedEntry(v.baseConfigID, ExtractVariantSuffix(v.id, v.baseConfigID), 0, "", "", "", 0, 0)
  }

  /** One more success of this variant. */
  function Noted(e: LearnedEntry, v: Tunnel, now: int): LearnedEntry {
    LearnedEntry(e.baseConfigID, e.variantSuffix,
                 if v.mtu > 0 then v.mtu else e.effectiveMTU,
                 if v.vless.Some? then v.vless.value.fingerprint else e.effectiveFP,
                 if v.vless.Some? then v.vless.value.transport else e.effectiveTrans,
                 if v.awg.Some? then ExtractAWGProfile(v.id) else e.awgProfile,
                 e.successCount + 1, now)
  }

  function Recorded(entries: map<string, LearnedEntry>, v: Tunnel, now: int): map<string, LearnedEntry> {
    if !v.isVariant then entries
    else entries[v.id := Noted(if v.id in entries then entries[v.id] else NewLearned(v), v, now)]
  }

  // ---- Rebuilding ----

  predicate Rebuildable(base: Tunnel) {
    !base.protocol.OtherProto?
  }

  function WithMTU(v: Tunnel, e: LearnedEntry): Tunnel {
    if e.effectiveMTU > 0 then v.(mtu := e.effectiveMTU) else v
  }

  function WithVLESS(v: Tunnel, e: LearnedEntry): Tunnel {
    if v.vless.None? then v else
      var vl := v.vless.value;
      v.(vless := Some(vl.(fingerprint := if e.effectiveFP != "" then e.effectiveFP else vl.fingerprint,
                           transport := if e.effectiveTrans != "" then e.effectiveTrans else vl.transport)))
  }

  /** The profile of that name, 3 if there is none. */
  function ProfileIndex(name: string): (i: nat)
    ensures i <= 3
  {
    if name == PROFILES[0].name then 0 else if name == PROFILES[1].name then 1
    else if name == PROFILES[2].name then 2 else 3
  }

  /** The profile's junk parameters; the H1-H4 headers stay those of the base. */
  function WithProfile(v: Tunnel, e: LearnedEntry): Tunnel {
    var i := ProfileIndex(e.awgProfile);
    if v.awg.None? || e.awgProfile == "" || i == 3 then v else
      var p := PROFILES[i];
      v.(awg := Some(v.awg.value.(jc := p.jc, jmin := p.jmin, jmax := p.jmax, s1 := p.s1, s2 := p.s2)))
  }

  function Rebuilt(base: Tunnel, e: LearnedEntry): Option<Tunnel> {
    if !Rebuildable(base) then None else
      var v := base.(id := EntryKey(e), isVariant := true, baseConfigID := e.baseConfigID);
      Some(WithProfile(WithVLESS(WithMTU(v, e), e), e))
  }

  lemma RebuiltID(base: Tunnel, e: LearnedEntry)
    requires Rebuildable(base)
    ensures var v := Rebuilt(base, e).value; v.id == EntryKey(e) && v.isVariant && v.baseConfigID == e.baseConfigID
  {
  }

  // ---- Keys ----

  /** A recorded variant keeps the database keyed exactly when its ID was there or extends its base's. */
  lemma KeyedAfterIff(entries: map<string, LearnedEntry>, v: Tunnel, now: int)
    requires Store.Keyed(entries, EntryKey) && v.isVariant
    ensures Store.Keyed(Recorded(entries, v, now), EntryKey) <==>
      v.id in entries || HasSuffixPart(v.id, v.baseConfigID)
  {
    var e := Noted(if v.id in entries then entries[v.id] else NewLearned(v), v, now);
    var after := Recorded(entries, v, now);
    assert after[v.id] == e;
    if v.id !in entries {
      var b := v.baseConfigID;
      if HasSuffixPart(v.id, b) {
        assert v.id == b + ":" + v.id[|b| + 1..];
      } else {
        assert |EntryKey(e)| == |b| + 1 + |v.id|;
      }
    }
  }

  /** What is read back from any list is keyed. */
  lemma {:induction false} LoadedIsKeyed(list: seq<LearnedEntry>)
    ensures Store.Keyed(Store.Load(list, EntryKey), EntryKey)
  {
    if list != [] {
      LoadedIsKeyed(list[..|list| - 1]);
    }
  }

  // ---- Round trip of generated variants ----

  /** Everything the mutation changed is stored, or is what the base has anyway. */
  predicate Recoverable(t: Tunnel, k: Kind) {
    match k
    case Mtu(_) => true
    case Fp(_) => true
    case Tr(_) => t.vless.Some? && t.vless.value.transportPath != ""
    case Awg(_, h) => t.awg.Some? && h == t.awg.value.headers
    case EndpointPort(_) => false
    case VlessPort(_) => false
    case Path(_) => false
    case Ech => false
  }

  /** The entry of a variant that worked once. */
  function FirstEntry(v: Tunnel, now: int): LearnedEntry {
    Noted(NewLearned(v), v, now)
  }

  lemma VariantKey(t: Tunnel, k: Kind, now: int)
    requires Useful(t, k)
    ensures var v := Mutate(t, k);
      HasSuffixPart(v.id, t.id) && EntryKey(FirstEntry(v, now)) == v.id
  {
  }

  /** Ends with these two characters. */
  predicate Ends(s: string, x: char, y: char) {
    |s| >= 2 && s[|s| - 2] == x && s[|s| - 1] == y
  }

  /** No profile name ends like this. */
  predicate Plain(s: string) {
    |s| >= 2 && !Ends(s, 'l', 'd') && !Ends(s, 't', 'e') && !Ends(s, 'v', 'e')
  }

  lemma EndsOfProfiles(id: string)
    ensures EndsWith(id, "mild") ==> Ends(id, 'l', 'd')
    ensures EndsWith(id, "moderate") ==> Ends(id, 't', 'e')
    ensures EndsWith(id, "aggressive") ==> Ends(id, 'v', 'e')
  {
  }

  lemma PlainHasNoProfile(a: string, s: string)
    requires Plain(s)
    ensures ExtractAWGProfile(a + s) == ""
  {
    EndsOfProfiles(a + s);
  }

  lemma DigitsArePlain(a: string, n: nat)
    requires |a| >= 1
    ensures Plain(a + NatText(n))
  {
  }

  lemma TextsArePlain(i: nat)
    requires i < 6
    ensures Plain("fp:" + FINGERPRINTS[i]) && Plain("tr:" + TRANSPORTS[i])
  {
  }

  lemma EndsInName(a: string, name: string)
    requires |name| >= 2
    ensures EndsWith(a + name, name) && Ends(a + name, name[|name| - 2], name[|name| - 1])
  {
  }

  lemma ProfileOfAwg(base: string, i: nat, h: Headers)
    requires i < 3
    ensures ExtractAWGProfile(VariantID(base, Awg(i, h))) == PROFILES[i].name
  {
    var name, a := PROFILES[i].name, base + ":dpi:" + "awg:";
    assert VariantID(base, Awg(i, h)) == a + name;
    EndsInName(a, name);
    EndsOfProfiles(a + name);
    assert name == if i == 0 then "mild" else if i == 1 then "moderate" else "aggressive";
  }

  /** What the entry of a generated variant says about the profile. */
  lemma ProfileOfVariant(t: Tunnel, k: Kind)
    requires OnMenu(k) && (k.Fp? ==> k.fingerprint in FINGERPRINTS) && (k.Tr? ==> k.transport in TRANSPORTS)
    requires !k.Path? && !k.Ech?
    ensures ExtractAWGProfile(VariantID(t.id, k)) == if k.Awg? then PROFILES[k.profile].name else ""
  {
    var a := t.id + ":dpi:";
    match k {
      case Mtu(n) => DigitsArePlain("mtu", n); PlainHasNoProfile(a, Slug(k));
      case EndpointPort(p) => DigitsArePlain("ep", p); PlainHasNoProfile(a, Slug(k));
      case VlessPort(p) => DigitsArePlain("port", p); PlainHasNoProfile(a, Slug(k));
      case Awg(i, h) => ProfileOfAwg(t.id, i, h);
      case Fp(s) =>
        var i :| 0 <= i < 6 && FINGERPRINTS[i] == s;
        TextsArePlain(i);
        PlainHasNoProfile(a, Slug(k));
      case Tr(s) =>
        var i :| 0 <= i < 6 && TRANSPORTS[i] == s;
        TextsArePlain(i);
        PlainHasNoProfile(a, Slug(k));
      case Path(_) =>
      case Ech =>
    }
  }

  /** A mutation the generators can make of this configuration. */
  predicate Made(t: Tunnel, k: Kind) {
    && Useful(t, k) && OnMenu(k)
    && match k
       case Mtu(n) => n in MTUS && (t.protocol == WireGuardProto || t.protocol == AmneziaWGProto)
       case EndpointPort(p) => p in PORTS
       case VlessPort(p) => p in PORTS && t.protocol == VLESSProto
       case Awg(_, _) => t.protocol == AmneziaWGProto
       case Fp(s) => s in FINGERPRINTS && t.protocol == VLESSProto
       case Tr(s) => s in TRANSPORTS && t.protocol == VLESSProto
       case Path(_) => t.protocol == VLESSProto
       case Ech => t.protocol == VLESSProto
  }

  lemma InJoined(a: seq<Kind>, b: seq<Kind>, k: Kind)
    requires k in a + b
    ensures k in a || k in b
  {
  }

  /** What a generator puts on its menu. */
  lemma MenuIsMade(t: Tunnel, hint: BlockType, dice: Dice, k: Kind)
    requires Useful(t, k) && k in Menu(t, hint, dice)
    ensures Made(t, k)
  {
    MenuDistinct(t, hint, dice);
    if t.protocol == VLESSProto {
      var a, b, c := VlessFront(hint), If(PathHint(hint), PathMenu()), If(PortHint(hint), PortMenu());
      InJoined(a + b, c, k);
      if k !in c {
        InJoined(a, b, k);
      }
    }
  }

  lemma MtuRoundTrip(t: Tunnel, n: nat, iface: string, now: int)
    requires Made(t, Mtu(n))
    ensures Rebuilt(t, FirstEntry(Mutate(t, Mtu(n)).(interfaceName := iface), now)) == Some(Mutate(t, Mtu(n)))
  {
    VariantKey(t, Mtu(n), now);
    ProfileOfVariant(t, Mtu(n));
  }

  lemma FpRoundTrip(t: Tunnel, s: string, iface: string, now: int)
    requires Made(t, Fp(s))
    ensures Rebuilt(t, FirstEntry(Mutate(t, Fp(s)).(interfaceName := iface), now)) == Some(Mutate(t, Fp(s)))
  {
    VariantKey(t, Fp(s), now);
    ProfileOfVariant(t, Fp(s));
    var i :| 0 <= i < 6 && FINGERPRINTS[i] == s;
    assert |FINGERPRINTS[i]| >= 3;
  }

  /** A transport comes back with the path of the base. */
  lemma TrRoundTrip(t: Tunnel, s: string, iface: string, now: int)
    requires Made(t, Tr(s))
    ensures var v := Mutate(t, Tr(s));
      Rebuilt(t, FirstEntry(v.(interfaceName := iface), now))
      == Some(v.(vless := Some(v.vless.value.(transportPath := t.vless.value.transportPath))))
  {
    VariantKey(t, Tr(s), now);
    ProfileOfVariant(t, Tr(s));
    assert s != "" by {
      var i :| 0 <= i < 6 && TRANSPORTS[i] == s;
    }
  }

  /** Rebuilding from an entry that names a profile and nothing else new. */
  lemma RebuiltProfile(t: Tunnel, e: LearnedEntry, i: nat)
    requires t.protocol == AmneziaWGProto && t.awg.Some? && i < 3 && e.awgProfile == PROFILES[i].name
    requires e.effectiveMTU == (if t.mtu > 0 then t.mtu else 0)
    requires t.vless.Some? ==> e.effectiveFP == t.vless.value.fingerprint && e.effectiveTrans == t.vless.value.transport
    ensures var p, a := PROFILES[i], t.awg.value;
      Rebuilt(t, e) == Some(t.(id := EntryKey(e), isVariant := true, baseConfigID := e.baseConfigID,
                               awg := Some(AmneziaWG(a.wg, p.jc, p.jmin, p.jmax, p.s1, p.s2, a.headers))))
  {
  }

  lemma AwgFirstRoundTrip(t: Tunnel, i: nat, h: Headers, iface: string, now: int)
    requires Made(t, Awg(i, h))
    ensures var v := Mutate(t, Awg(i, h));
      Rebuilt(t, FirstEntry(v.(interfaceName := iface), now))
      == Some(v.(awg := Some(v.awg.value.(headers := t.awg.value.headers))))
  {
    VariantKey(t, Awg(i, h), now);
    ProfileOfVariant(t, Awg(i, h));
    RebuiltProfile(t, FirstEntry(Mutate(t, Awg(i, h)).(interfaceName := iface), now), i);
  }

  /** The endpoint comes from the base, whatever the entry says. */
  lemma RebuiltSections(t: Tunnel, e: LearnedEntry)
    requires Rebuildable(t)
    ensures var r := Rebuilt(t, e).value;
      && r.wg == t.wg
      && (t.awg.Some? ==> r.awg.Some? && r.awg.value.wg == t.awg.value.wg && r.awg.value.headers == t.awg.value.headers)
      && (t.vless.Some? ==> r.vless.Some? && r.vless.value.fixed == t.vless.value.fixed
                            && r.vless.value.port == t.vless.value.port && r.vless.value.ech == t.vless.value.ech
                            && r.vless.value.transportPath == t.vless.value.transportPath)
  {
  }

  function EndpointText(t: Tunnel): string {
    if t.protocol == WireGuardProto && t.wg.Some? then t.wg.value.endpoint
    else if t.awg.Some? then t.awg.value.wg.endpoint else ""
  }

  lemma EndpointIsSplit(t: Tunnel, p: nat)
    requires Made(t, EndpointPort(p))
    ensures SplitEndpoint(EndpointText(t)) == EndpointOf(t) && EndpointOf(t).Some?
    ensures EndpointOf(t).value.port != p && ValidPort(p)
  {
  }

  lemma EndpointIsJoined(t: Tunnel, p: nat)
    requires Made(t, EndpointPort(p))
    ensures EndpointText(Mutate(t, EndpointPort(p))) == JoinEndpoint(EndpointOf(t).value.host, p)
  {
  }

  lemma MutatedEndpoint(t: Tunnel, p: nat)
    requires Made(t, EndpointPort(p))
    ensures EndpointText(Mutate(t, EndpointPort(p))) != EndpointText(t)
  {
    EndpointIsSplit(t, p);
    EndpointIsJoined(t, p);
    NewPortDiffers(EndpointText(t), EndpointOf(t).value.host, p);
  }

  lemma EndpointLost(t: Tunnel, p: nat, e: LearnedEntry)
    requires Made(t, EndpointPort(p))
    ensures Rebuilt(t, e) != Some(Mutate(t, EndpointPort(p)))
  {
    MutatedEndpoint(t, p);
    assert Rebuildable(t);
    RebuiltEndpoint(t, e);
  }

  lemma RebuiltEndpoint(t: Tunnel, e: LearnedEntry)
    requires Rebuildable(t)
    ensures EndpointText(Rebuilt(t, e).value) == EndpointText(t)
  {
    RebuiltSections(t, e);
  }

  /** The first success of a variant. */
  lemma FirstRoundTripIff(t: Tunnel, hint: BlockType, dice: Dice, k: Kind, iface: string, now: int)
    requires Useful(t, k) && k in Menu(t, hint, dice)
    ensures var v := Mutate(t, k);
      Rebuilt(t, FirstEntry(v.(interfaceName := iface), now)) == Some(v) <==> Recoverable(t, k)
  {
    MenuIsMade(t, hint, dice, k);
    match k {
      case Mtu(n) => MtuRoundTrip(t, n, iface, now);
      case Fp(s) => FpRoundTrip(t, s, iface, now);
      case Tr(s) => TrRoundTrip(t, s, iface, now);
      case Awg(i, h) => AwgFirstRoundTrip(t, i, h, iface, now);
      case EndpointPort(p) => EndpointLost(t, p, FirstEntry(Mutate(t, k).(interfaceName := iface), now));
      case _ => RebuiltSections(t, FirstEntry(Mutate(t, k).(interfaceName := iface), now));
    }
  }

  // ---- Round trip through a database ----

  /** An entry of this variant, if there is one, is of its base and holds no MTU that the variant leaves open. */
  predicate Current(entries: map<string, LearnedEntry>, v: Tunnel) {
    v.id in entries ==> entries[v.id].baseConfigID == v.baseConfigID && (v.mtu > 0 || entries[v.id].effectiveMTU <= 0)
  }

  /** What the entry of this variant is rebuilt to, once it is recorded. */
  function Relearned(entries: map<string, LearnedEntry>, t: Tunnel, v: Tunnel, iface: string, now: int): Option<Tunnel>
    requires v.isVariant
  {
    Rebuilt(t, Recorded(entries, v.(interfaceName := iface), now)[v.id])
  }

  /** A base and a variant of it have the same sections. */
  predicate SameSections(t: Tunnel, v: Tunnel) {
    (t.vless.Some? <==> v.vless.Some?) && (t.awg.Some? <==> v.awg.Some?)
  }

  /** An entry that is there already matters only through its base and its MTU. */
  lemma OnlyBaseAndMTU(t: Tunnel, e: LearnedEntry, first: LearnedEntry, v: Tunnel, now: int)
    requires Rebuildable(t) && SameSections(t, v) && EntryKey(e) == EntryKey(first)
    requires first.effectiveMTU == 0 && first.baseConfigID == v.baseConfigID
    ensures var a, b := Rebuilt(t, Noted(e, v, now)).value, Rebuilt(t, Noted(first, v, now)).value;
      a == b.(baseConfigID := e.baseConfigID,
              mtu := if v.mtu > 0 then v.mtu else if e.effectiveMTU > 0 then e.effectiveMTU else t.mtu)
  {
  }

  lemma MutantSections(t: Tunnel, k: Kind)
    requires Useful(t, k)
    ensures SameSections(t, Mutate(t, k)) && (!k.Mtu? ==> Mutate(t, k).mtu == t.mtu)
  {
  }

  lemma FirstOfBase(t: Tunnel, k: Kind, iface: string, now: int)
    requires Useful(t, k) && Rebuildable(t) && (k.Mtu? ==> k.mtu > 0)
    ensures var v := Mutate(t, k);
      var first := Rebuilt(t, FirstEntry(v.(interfaceName := iface), now));
      first.Some? && first.value.baseConfigID == t.id && first.value.mtu == v.mtu
  {
    MutantSections(t, k);
  }

  /** Recording into a database, or as the first entry. */
  lemma RelearnedIs(entries: map<string, LearnedEntry>, t: Tunnel, k: Kind, iface: string, now: int)
    requires Store.Keyed(entries, EntryKey) && Made(t, k) && Rebuildable(t)
    ensures var v := Mutate(t, k);
      var first := Rebuilt(t, FirstEntry(v.(interfaceName := iface), now));
      && first.Some? && first.value.baseConfigID == t.id && first.value.mtu == v.mtu
      && Relearned(entries, t, v, iface, now)
         == if v.id !in entries then first else
              Some(first.value.(baseConfigID := entries[v.id].baseConfigID,
                                mtu := if v.mtu > 0 || entries[v.id].effectiveMTU <= 0 then v.mtu
                                       else entries[v.id].effectiveMTU))
  {
    var v := Mutate(t, k);
    VariantKey(t, k, now);
    MutantSections(t, k);
    FirstOfBase(t, k, iface, now);
    var named := v.(interfaceName := iface);
    if v.id in entries {
      OnlyBaseAndMTU(t, entries[v.id], NewLearned(named), named, now);
    }
  }

  /**
  Recording a generated variant in a database, whatever it holds, and rebuilding it from its unchanged base gives the
  same variant (up to the interface name, which the parallel probe rewrites) exactly when the guard `Recoverable`
  holds (MTU and fingerprint always, a transport when the base has a path, a profile when its random headers
  are those of the base, ports, paths and ECH never), and an entry that is there already is of this base and
  holds no MTU that the variant leaves open.
  */
  lemma LearnedRoundTripIff(entries: map<string, LearnedEntry>, t: Tunnel, hint: BlockType, dice: Dice, k: Kind,
                            iface: string, now: int)
    requires Store.Keyed(entries, EntryKey) && Useful(t, k) && k in Menu(t, hint, dice)
    ensures var v := Mutate(t, k);
      Relearned(entries, t, v, iface, now) == Some(v) <==> Recoverable(t, k) && Current(entries, v)
  {
    MenuIsMade(t, hint, dice, k);
    FirstRoundTripIff(t, hint, dice, k, iface, now);
    RelearnedIs(entries, t, k, iface, now);
  }

  /** An AmneziaWG profile comes back with its junk parameters and the base's headers exactly on a current entry. */
  lemma AwgRoundTripIff(entries: map<string, LearnedEntry>, t: Tunnel, i: nat, h: Headers, iface: string, now: int)
    requires Store.Keyed(entries, EntryKey) && Made(t, Awg(i, h))
    ensures var v := Mutate(t, Awg(i, h));
      Relearned(entries, t, v, iface, now) == Some(v.(awg := Some(v.awg.value.(headers := t.awg.value.headers))))
      <==> Current(entries, v)
  {
    AwgFirstRoundTrip(t, i, h, iface, now);
    RelearnedIs(entries, t, Awg(i, h), iface, now);
  }

  /**
  A stale MTU: a fingerprint that worked while the base had an MTU is recorded again after the base has lost it. The
  old MTU stays in the entry, and the variant that worked without one is rebuilt with it.
  */
  lemma StaleMTU(t: Tunnel, s: string, mtu: int, iface: string, now: int, later: int)
    requires t.protocol == VLESSProto && t.vless.Some? && s in FINGERPRINTS && s != t.vless.value.fingerprint
    requires mtu > 0 && t.mtu == 0
    ensures var before, v := Mutate(t.(mtu := mtu), Fp(s)), Mutate(t, Fp(s));
      var entries := Recorded(map[], before.(interfaceName := iface), now);
      && Relearned(map[], t.(mtu := mtu), before, iface, now) == Some(before)
      && Relearned(entries, t, v, iface, later) == Some(v.(mtu := mtu))
  {
    var old_ := t.(mtu := mtu);
    FpRoundTrip(old_, s, iface, now);
    FpRoundTrip(t, s, iface, later);
    VariantKey(old_, Fp(s), now);
    var before := Mutate(old_, Fp(s)).(interfaceName := iface);
    var entries := Recorded(map[], before, now);
    assert entries[before.id] == FirstEntry(before, now);
    RelearnedIs(entries, t, Fp(s), iface, later);
  }

  /** A rebuilt variant that works again is rebuilt to the same configuration. */
  lemma RelearnedIsStable(t: Tunnel, e: LearnedEntry, iface: string, now: int)
    requires Rebuildable(t) && (t.awg.Some? ==> e.awgProfile == ExtractAWGProfile(EntryKey(e)))
    ensures Rebuilt(t, Noted(e, Rebuilt(t, e).value.(interfaceName := iface), now)) == Rebuilt(t, e)
  {
  }

  // ---- The database ----

  function MatchingKeys(entries: map<string, LearnedEntry>, baseID: string): set<string> {
    set k | k in entries && entries[k].baseConfigID == baseID && entries[k].successCount > 0
  }

  function ByCount(entries: map<string, LearnedEntry>): string -> real {
    (k: string) => if k in entries then entries[k].successCount as real else 0.0
  }

  /** What `load` finds: the persistent copy if it can be read, otherwise the one in the state directory. */
  function Found(persistent: Option<seq<LearnedEntry>>, runtime: Option<seq<LearnedEntry>>): map<string,
                 LearnedEntry> {
    if persistent.Some? then Store.Load(persistent.value, EntryKey)
    else if runtime.Some? then Store.Load(runtime.value, EntryKey)
    else map[]
  }

  /** A new process over the files of this one would know the same. */
  ghost predicate Survives(entries: map<string, LearnedEntry>, persistent: Option<seq<LearnedEntry>>,
                           runtime: Option<seq<LearnedEntry>>) {
    Found(persistent, runtime) == entries
  }

  class LearnedDB {
    var entries: map<string, LearnedEntry>
    // The two files; `None` is a file that is missing or does not parse.
    var runtime: Option<seq<LearnedEntry>>
    var persistent: Option<seq<LearnedEntry>>

    constructor (persistent: Option<seq<LearnedEntry>>, runtime: Option<seq<LearnedEntry>>)
      ensures entries == Found(persistent, runtime) && Store.Keyed(entries, EntryKey)
      ensures this.persistent == persistent && this.runtime == runtime
    {
      this.persistent, this.runtime := persistent, runtime;
      entries := map[];
      new;
      if persistent.Some? {
        entries := Store.LoadEntries(persistent.value, EntryKey);
        LoadedIsKeyed(persistent.value);
      } else if runtime.Some? {
        entries := Store.LoadEntries(runtime.value, EntryKey);
        LoadedIsKeyed(runtime.value);
      }
    }

    /**
    Either write may fail, and the error is ignored. A new process finds what this one knows as long
    as the persistent copy could be written. When it could not, a readable old copy wins over the
    newer one in the state directory.
    */
    method Save(runtimeOk: bool, persistentOk: bool)
      modifies this`runtime, this`persistent
      ensures Store.Keyed(entries, EntryKey) && (persistentOk || (old(persistent).None? && runtimeOk)) ==>
        Survives(entries, persistent, runtime)
      ensures !persistentOk && old(persistent).Some? ==> Found(persistent, runtime) == old(Found(persistent, runtime))
      ensures !runtimeOk ==> runtime == old(runtime)
      ensures !persistentOk ==> persistent == old(persistent)
    {
      var list := Store.ListEntries(entries);
      if runtimeOk {
        runtime := Some(list);
      }
      if persistentOk {
        persistent := Some(list);
      }
      if Store.Keyed(entries, EntryKey) {
        Store.KeyOrderLists(list, entries, EntryKey);
        Store.SaveLoadIdentity(list, entries, EntryKey);
      }
    }

    method Note(variant: Tunnel, now: int)
      requires variant.isVariant
      modifies this`entries
      ensures entries == Recorded(old(entries), variant, now)
    {
      var e := if variant.id in entries then entries[variant.id]
               else LearnedEntry(variant.baseConfigID, ExtractVariantSuffix(variant.id, variant.baseConfigID),
                                 0, "", "", "", 0, 0);
      e := e.(successCount := e.successCount + 1, lastSuccess := now);
      if variant.mtu > 0 {
        e := e.(effectiveMTU := variant.mtu);
      }
      if variant.vless.Some? {
        e := e.(effectiveFP := variant.vless.value.fingerprint, effectiveTrans := variant.vless.value.transport);
      }
      if variant.awg.Some? {
        e := e.(awgProfile := ExtractAWGProfile(variant.id));
      }
      entries := entries[variant.id := e];
    }

    /** Callers pass IDs that extend their base's, which keeps the database keyed (`KeyedAfterIff`). */
    method RecordSuccess(variant: Tunnel, now: int, runtimeOk: bool, persistentOk: bool)
      modifies this
      ensures entries == Recorded(old(entries), variant, now)
      ensures !variant.isVariant ==> runtime == old(runtime) && persistent == old(persistent)
      ensures variant.isVariant && Store.Keyed(entries, EntryKey)
              && (persistentOk || (old(persistent).None? && runtimeOk)) ==>
        Survives(entries, persistent, runtime)
      ensures variant.isVariant && !persistentOk && old(persistent).Some? ==>
        Found(persistent, runtime) == old(Found(persistent, runtime))
    {
      if !variant.isVariant {
        return;
      }
      Note(variant, now);
      Save(runtimeOk, persistentOk);
    }

    /**
    Every entry of this base that ever worked, rebuilt, the most successful first; equal counts come
    in any order.
    */
    method GetCandidates(baseID: string, baseConfig: Tunnel) returns (out: seq<Tunnel>, ghost order: seq<string>)
      ensures multiset(order) == multiset(MatchingKeys(entries, baseID))
      ensures Sorting.Descending(order, ByCount(entries))
      ensures forall k <- order :: k in entries
      ensures Rebuildable(baseConfig) ==>
        |out| == |order| && forall i :: 0 <= i < |out| ==> Some(out[i]) == Rebuilt(baseConfig, entries[order[i]])
      ensures !Rebuildable(baseConfig) ==> out == []
    {
      var matched: seq<string> := [];
      var rest := MatchingKeys(entries, baseID);
      while rest != {}
        invariant multiset(matched) + multiset(rest) == multiset(MatchingKeys(entries, baseID))
      {
        var k :| k in rest;
        rest := rest - {k};
        matched := matched + [k];
      }
      ghost var all := MatchingKeys(entries, baseID);
      var ranked := Sorting.SortDescending(matched, ByCount(entries));
      order := ranked;
      forall k | k in ranked
        ensures k in entries
      {
        assert k in multiset(ranked);
        assert k in multiset(all);
      }
      out := [];
      for i := 0 to |ranked|
        invariant Rebuildable(baseConfig) ==>
          |out| == i && forall n :: 0 <= n < i ==> Some(out[n]) == Rebuilt(baseConfig, entries[ranked[n]])
        invariant !Rebuildable(baseConfig) ==> out == []
      {
        assert ranked[i] in ranked;
        var tc := Rebuilt(baseConfig, entries[ranked[i]]);
        if tc.Some? {
          out := out + [tc.value];
        }
      }
    }
  }
}
