/**
Generation followed by selection (daemon/internal/dpi/variants.go, daemon/internal/strategy/selector.go):
which AmneziaWG obfuscation profiles the cautious profiles let through.
*/
module CompatSafety {
  import opened Options
  import opened Config
  import opened Decimal
  import opened Partition
  import opened Text
  import opened Variants
  import opened Selector
  import Learned

  // ---- Patterns on generated IDs ----

  /** No part of the name looks like the start of another ":dpi:". */
  predicate CleanSlug(slug: string) {
    && slug != "" && slug[0] != 'd'
    && forall j :: 0 <= j < |slug| - 1 && slug[j] == ':' ==> slug[j + 1] != 'd'
  }

  /** On an ID whose base has no colon, a pattern is a prefix test on the name of the mutation. */
  lemma PatternIsPrefix(base: string, slug: string, q: string)
    requires !Has(base, ':') && CleanSlug(slug)
    ensures Contains(base + ":dpi:" + slug, ":dpi:" + q) <==> q <= slug
  {
    var s, p, b := base + ":dpi:" + slug, ":dpi:" + q, |base|;
    assert s[b..b + 5] == ":dpi:" && s[b + 5..] == slug;
    if q <= slug {
      assert s[b..b + |p|] == ":dpi:" + slug[..|q|];
      assert OccursAt(s, p, b);
    }
    if i: nat :| i <= |s| && OccursAt(s, p, i) {
      assert s[i] == p[0] == ':' && s[i + 1] == p[1] == 'd';
      assert i == b;
      assert s[b + 5..b + |p|] == p[5..] == q;
      assert s[b + 5..b + |p|] == slug[..|q|];
    }
  }

  predicate StrongID(base: string, id: string) {
    id == base + ":dpi:" + "awg:moderate" || id == base + ":dpi:" + "awg:aggressive"
  }

  /** An AmneziaWG variant of this base with more obfuscation than "mild". */
  predicate Strong(base: string, v: Tunnel) {
    StrongID(base, v.id)
  }

  lemma StrongKinds(base: string, k: Kind)
    requires OnMenu(k)
    ensures StrongID(base, VariantID(base, k)) <==> k.Awg? && k.profile != MILD
  {
    var no := Headers(0, 0, 0, 0);
    assert Slug(Awg(MODERATE, no)) == "awg:moderate" && Slug(Awg(AGGRESSIVE, no)) == "awg:aggressive";
    if StrongID(base, VariantID(base, k)) {
      var p := if VariantID(base, k) == base + ":dpi:" + "awg:moderate" then MODERATE else AGGRESSIVE;
      DropPrefix(base + ":dpi:", Slug(k), Slug(Awg(p, no)));
      SlugInjective(k, Awg(p, no));
    }
  }

  // ---- The cautious patterns ----

  /** Every pattern of a cautious list, and of its fallback, misses the strong profiles. */
  predicate Cautious(p: string) {
    |p| > 5 && p[..5] == ":dpi:" && (p[5] != 'a' || p == ":dpi:awg:mild")
  }

  lemma CautiousPatterns(reason: string, hint: BlockType, i: nat)
    ensures i < |PatternsForReason(reason, hint, true)| ==> Cautious(PatternsForReason(reason, hint, true)[i])
    ensures i < 2 ==> Cautious(FALLBACK[i])
  {
    assert |":dpi:fp:"| == 8 && |":dpi:mtu"| == 8 && |":dpi:path:"| == 10 && |":dpi:ep"| == 7 && |":dpi:port"| == 9;
  }

  lemma CautiousMissesStrong(base: string, id: string, p: string)
    requires !Has(base, ':') && StrongID(base, id) && Cautious(p)
    ensures !Contains(id, p)
  {
    var q := p[5..];
    assert p == ":dpi:" + q;
    var slug := if id == base + ":dpi:" + "awg:moderate" then "awg:moderate" else "awg:aggressive";
    PatternIsPrefix(base, slug, q);
    if p == ":dpi:awg:mild" {
      assert q == "awg:mild" && q[5] == 'i' && "awg:moderate"[5] == 'o' && "awg:aggressive"[4] == 'a';
    }
    assert slug[0] == 'a' && q[0] == p[5];
  }

  lemma {:induction false} NothingMatches(id: string, ps: seq<string>)
    requires forall i :: 0 <= i < |ps| ==> !Contains(id, ps[i])
    ensures FirstMatch(id, ps) == |ps|
  {
    if ps != [] {
      NothingMatches(id, ps[1..]);
    }
  }

  lemma StrongUnmatched(base: string, v: Tunnel, reason: string, hint: BlockType)
    requires !Has(base, ':') && Strong(base, v)
    ensures var ps := PatternsForReason(reason, hint, true); FirstMatch(v.id, ps) == |ps|
    ensures FirstMatch(v.id, FALLBACK) == 2
  {
    var ps := PatternsForReason(reason, hint, true);
    forall i | 0 <= i < |ps|
      ensures !Contains(v.id, ps[i])
    {
      CautiousPatterns(reason, hint, i);
      CautiousMissesStrong(base, v.id, ps[i]);
    }
    NothingMatches(v.id, ps);
    forall i | 0 <= i < 2
      ensures !Contains(v.id, FALLBACK[i])
    {
      CautiousPatterns(reason, hint, i);
      CautiousMissesStrong(base, v.id, FALLBACK[i]);
    }
    NothingMatches(v.id, FALLBACK);
  }

  /** The compat selection holds a strong variant exactly when it falls through to the first one, and that is strong. */
  lemma CompatHasStrong(base: string, reason: string, hint: BlockType, vs: seq<Tunnel>)
    requires !Has(base, ':') && vs != []
    ensures var ps := PatternsForReason(reason, hint, true);
      (exists v :: v in CompatSelection(reason, hint, vs) && Strong(base, v)) <==>
      Matched(vs, ps, |ps|) == [] && Matched(vs, FALLBACK, 2) == [] && Strong(base, vs[0])
  {
    var ps := PatternsForReason(reason, hint, true);
    var matched, kept := Matched(vs, ps, |ps|), Matched(vs, FALLBACK, 2);
    var sel := CompatSelection(reason, hint, vs);
    if v :| v in sel && Strong(base, v) {
      StrongUnmatched(base, v, reason, hint);
      BucketsMembers(vs, Rank(ps), |ps|, v);
      BucketsMembers(vs, Rank(FALLBACK), 2, v);
      assert matched == [] && kept == [];
    }
    if matched == [] && kept == [] && Strong(base, vs[0]) {
      assert sel == [vs[0]];
      assert vs[0] in sel;
    }
  }

  /** A variant the fallback keeps. */
  predicate Mildest(k: Kind) {
    k.Mtu? || (k.Awg? && k.profile == MILD)
  }

  lemma MildestIsKept(t: Tunnel, k: Kind, vs: seq<Tunnel>)
    requires !Has(t.id, ':') && Useful(t, k) && Mildest(k) && Mutate(t, k) in vs
    ensures Matched(vs, FALLBACK, 2) != []
  {
    var v := Mutate(t, k);
    var i, q := if k.Mtu? then 0 else 1, if k.Mtu? then "mtu" else "awg:mild";
    assert FALLBACK[i] == ":dpi:" + q && q <= Slug(k) && CleanSlug(Slug(k));
    PatternIsPrefix(t.id, Slug(k), q);
    FirstMatchMeaning(v.id, FALLBACK, i);
    BucketsMembers(vs, Rank(FALLBACK), 2, v);
  }

  lemma AllStrongUnmatched(base: string, reason: string, hint: BlockType, vs: seq<Tunnel>)
    requires !Has(base, ':') && forall v :: v in vs ==> Strong(base, v)
    ensures var ps := PatternsForReason(reason, hint, true); Matched(vs, ps, |ps|) == []
    ensures Matched(vs, FALLBACK, 2) == []
  {
    var ps := PatternsForReason(reason, hint, true);
    var matched, kept := Matched(vs, ps, |ps|), Matched(vs, FALLBACK, 2);
    if matched != [] {
      BucketsMembers(vs, Rank(ps), |ps|, matched[0]);
      assert matched[0] in matched;
      StrongUnmatched(base, matched[0], reason, hint);
    }
    if kept != [] {
      BucketsMembers(vs, Rank(FALLBACK), 2, kept[0]);
      assert kept[0] in kept;
      StrongUnmatched(base, kept[0], reason, hint);
    }
  }

  // ---- The head of the AmneziaWG list ----

  function One(t: Tunnel, k: Kind): (r: seq<Kind>)
    ensures |r| <= 1
  {
    if Useful(t, k) then [k] else []
  }

  lemma KeptThree(t: Tunnel, ks: seq<Kind>)
    requires |ks| == 3
    ensures Kept(t, ks) == One(t, ks[0]) + One(t, ks[1]) + One(t, ks[2])
  {
    assert ks[..2][..1] == ks[..1] && ks[..1][..0] == [];
    assert Kept(t, ks[..1]) == One(t, ks[0]);
    assert Kept(t, ks[..2]) == One(t, ks[0]) + One(t, ks[1]);
  }

  lemma MtusKept(t: Tunnel)
    ensures |Kept(t, MtuMenu())| >= 2 && Kept(t, MtuMenu())[0].Mtu?
  {
    KeptThree(t, MtuMenu());
    assert t.mtu != 1200 ==> One(t, Mtu(1200)) == [Mtu(1200)];
  }

  /** What the first variants of an AmneziaWG configuration are. */
  lemma AwgHead(t: Tunnel, hint: BlockType, dice: Dice)
    requires t.protocol == AmneziaWGProto && t.awg.Some?
    ensures var ks, p := Kept(t, Menu(t, hint, dice)), Kept(t, ProfileMenu(hint, dice));
      p <= ks && |ks| >= |p| + 2 && ks[|p|].Mtu?
  {
    var profiles, ports := ProfileMenu(hint, dice), If(PortHint(hint), EndpointMenu());
    KeptConcat(t, profiles + MtuMenu(), ports);
    KeptConcat(t, profiles, MtuMenu());
    MtusKept(t);
  }

  /**
  What a caller can check before the call: only one or two variants may be generated and the
  profiles in use leave nothing but strong ones to fill them.
  */
  predicate Slips(t: Tunnel, hint: BlockType, maxVariants: int) {
    t.protocol == AmneziaWGProto && t.awg.Some? &&
    var cur := t.awg.value;
    match maxVariants
    case 1 => hint == BlockProtocol || ProfileInUse(cur, MILD)
    case 2 =>
      if hint == BlockProtocol then !ProfileInUse(cur, AGGRESSIVE) && !ProfileInUse(cur, MODERATE)
      else ProfileInUse(cur, MILD)
    case _ => false
  }

  /** The mutations that were generated. */
  function Chosen(t: Tunnel, hint: BlockType, maxVariants: int, dice: Dice): seq<Kind> {
    Capped(Kept(t, Menu(t, hint, dice)), EffectiveCap(maxVariants))
  }

  lemma AwgChosen(t: Tunnel, hint: BlockType, maxVariants: int, dice: Dice)
    requires t.protocol == AmneziaWGProto && t.awg.Some?
    ensures var ks := Chosen(t, hint, maxVariants, dice);
      && ks != []
      && (Slips(t, hint, maxVariants) ==> forall k :: k in ks ==> k.Awg? && k.profile != MILD)
      && (!Slips(t, hint, maxVariants) ==>
            !ks[0].Awg? || ks[0].profile == MILD || exists i :: 0 <= i < |ks| && Mildest(ks[i]))
  {
    var ks, p, menu := Chosen(t, hint, maxVariants, dice), Kept(t, ProfileMenu(hint, dice)), ProfileMenu(hint, dice);
    AwgHead(t, hint, dice);
    KeptThree(t, menu);
    var all, cap := Kept(t, Menu(t, hint, dice)), EffectiveCap(maxVariants);
    assert forall i :: 0 <= i < |p| && i < |ks| ==> ks[i] == p[i];
    if |p| < cap {
      assert ks[|p|] == all[|p|];
      assert Mildest(ks[|p|]);
    } else if !Slips(t, hint, maxVariants) && hint == BlockProtocol {
      assert ks[|p| - 1] == Awg(MILD, dice.mild);
      assert Mildest(ks[|p| - 1]);
    }
  }

  lemma NoAwgElsewhere(t: Tunnel, hint: BlockType, dice: Dice, k: Kind)
    requires k in Menu(t, hint, dice)
    ensures k.Awg? ==> t.protocol == AmneziaWGProto && t.awg.Some?
    ensures OnMenu(k)
  {
    MenuDistinct(t, hint, dice);
  }

  /** Generated variants and the mutations behind them. */
  lemma GeneratedFrom(t: Tunnel, hint: BlockType, maxVariants: int, dice: Dice, i: nat)
    requires i < |Generated(t, hint, maxVariants, dice)|
    ensures var vs, ks := Generated(t, hint, maxVariants, dice), Chosen(t, hint, maxVariants, dice);
      && |vs| == |ks| && Useful(t, ks[i]) && vs[i] == Mutate(t, ks[i]) && OnMenu(ks[i])
      && (Strong(t.id, vs[i]) <==> ks[i].Awg? && ks[i].profile != MILD)
      && (ks[i].Awg? ==> t.protocol == AmneziaWGProto && t.awg.Some?)
  {
    var ks, all := Chosen(t, hint, maxVariants, dice), Kept(t, Menu(t, hint, dice));
    assert ks[i] == all[i] && all[i] in all;
    KeptMembers(t, Menu(t, hint, dice), ks[i]);
    NoAwgElsewhere(t, hint, dice, ks[i]);
    StrongKinds(t.id, ks[i]);
  }

  /**
  Under the compat profile (chosen, or forced by a confidence below 0.4), the selection of generated
  variants holds a moderate or aggressive AmneziaWG profile exactly when the guard `Slips` holds,
  whatever the reason, the hint and the random headers are. It never holds unless the cap is 1 or 2.
  */
  lemma CompatPicksStrongIff(t: Tunnel, profile: string, reason: string, hint: BlockType, confidence: real,
                             maxVariants: int, dice: Dice)
    requires !Has(t.id, ':') && EffectiveProfile(profile, confidence) == "compat"
    ensures var sel := Selection(profile, reason, hint, confidence, Generated(t, hint, maxVariants, dice));
      (exists v :: v in sel && Strong(t.id, v)) <==> Slips(t, hint, maxVariants)
    ensures maxVariants != 1 && maxVariants != 2 ==> !Slips(t, hint, maxVariants)
  {
    var vs, ks := Generated(t, hint, maxVariants, dice), Chosen(t, hint, maxVariants, dice);
    if t.protocol == AmneziaWGProto && t.awg.Some? {
      AwgChosen(t, hint, maxVariants, dice);
    }
    if vs != [] {
      var r := EffectiveReason(reason, confidence);
      CompatHasStrong(t.id, r, hint, vs);
      GeneratedFrom(t, hint, maxVariants, dice, 0);
      if Slips(t, hint, maxVariants) {
        forall v | v in vs
          ensures Strong(t.id, v)
        {
          var i: nat :| i < |vs| && vs[i] == v;
          GeneratedFrom(t, hint, maxVariants, dice, i);
        }
        AllStrongUnmatched(t.id, r, hint, vs);
      } else if Strong(t.id, vs[0]) {
        var i: nat :| i < |ks| && Mildest(ks[i]);
        GeneratedFrom(t, hint, maxVariants, dice, i);
        MildestIsKept(t, ks[i], vs);
      }
    }
  }

  ghost predicate CompatSafeFor(t: Tunnel, reason: string, hint: BlockType, confidence: real, maxVariants: int,
                                dice: Dice) {
    forall v :: v in Selection("compat", reason, hint, confidence, Generated(t, hint, maxVariants, dice)) ==>
      !Strong(t.id, v)
  }

  /** What one would like of the cap, on all inputs: no strong profile under compat. */
  ghost predicate CompatSafe(maxVariants: int) {
    forall t: Tunnel, reason: string, hint: BlockType, confidence: real, dice: Dice ::
      !Has(t.id, ':') ==> CompatSafeFor(t, reason, hint, confidence, maxVariants, dice)
  }

  const NO_HEADERS := Headers(0, 0, 0, 0)

  /** A base without obfuscation. */
  const PLAIN := Tunnel("home", "", AmneziaWGProto, true, "", 0, 0, None,
                        Some(AmneziaWG(WireGuard("", "", "", "", [], 0, []), 0, 0, 0, 0, 0, NO_HEADERS)),
                        None, None, false, "")

  lemma CompatUnsafe(maxVariants: int)
    requires maxVariants == 1 || maxVariants == 2
    ensures !CompatSafe(maxVariants)
  {
    var dice := Dice(NO_HEADERS, NO_HEADERS, NO_HEADERS);
    CompatPicksStrongIff(PLAIN, "compat", "", BlockProtocol, 1.0, maxVariants, dice);
    assert Slips(PLAIN, BlockProtocol, maxVariants);
    assert !CompatSafeFor(PLAIN, "", BlockProtocol, 1.0, maxVariants, dice);
  }

  /** It holds exactly when the cap is neither 1 nor 2. */
  lemma CompatSafeIff(maxVariants: int)
    ensures CompatSafe(maxVariants) <==> maxVariants != 1 && maxVariants != 2
  {
    if maxVariants == 1 || maxVariants == 2 {
      CompatUnsafe(maxVariants);
    } else {
      forall t: Tunnel, reason: string, hint: BlockType, confidence: real, dice: Dice | !Has(t.id, ':')
        ensures CompatSafeFor(t, reason, hint, confidence, maxVariants, dice)
      {
        CompatPicksStrongIff(t, "compat", reason, hint, confidence, maxVariants, dice);
      }
    }
  }

  lemma AggressiveMatch(base: string, id: string, reason: string, hint: BlockType)
    requires !Has(base, ':') && id == base + ":dpi:" + "awg:aggressive"
    ensures var ps := PatternsForReason(reason, hint, false);
      && (HasPrefix(reason, "protocol_") ==> FirstMatch(id, ps) < |ps|)
      && (hint != BlockProtocol && !HasPrefix(reason, "protocol_") ==> FirstMatch(id, ps) == |ps|)
  {
    var ps := PatternsForReason(reason, hint, false);
    if HasPrefix(reason, "protocol_") {
      assert reason[0] == 'p' && "tls_"[0] == 't' && "http_"[0] == 'h' && "tcp_"[0] == 't';
      assert ps[2] == ":dpi:" + "awg:aggressive";
      PatternIsPrefix(base, "awg:aggressive", "awg:aggressive");
      FirstMatchMeaning(id, ps, 2);
    } else if hint != BlockProtocol {
      forall i | 0 <= i < |ps|
        ensures !Contains(id, ps[i])
      {
        BoldPatterns(reason, hint, i);
        CautiousMissesStrong(base, id, ps[i]);
      }
      NothingMatches(id, ps);
    }
  }

  /** Without a protocol signal the full lists miss the strong profiles too. */
  lemma BoldPatterns(reason: string, hint: BlockType, i: nat)
    requires hint != BlockProtocol && !HasPrefix(reason, "protocol_")
    requires i < |PatternsForReason(reason, hint, false)|
    ensures Cautious(PatternsForReason(reason, hint, false)[i])
  {
    assert |":dpi:fp:"| == 8 && |":dpi:mtu"| == 8 && |":dpi:path:"| == 10 && |":dpi:ep"| == 7 && |":dpi:port"| == 9;
  }

  /** The aggressive profile of this base. */
  function Aggressive(base: string): Tunnel -> bool {
    (v: Tunnel) => v.id == base + ":dpi:" + "awg:aggressive"
  }

  lemma DigitsAreClean(a: string, n: nat)
    requires a != "" && a[0] != 'd' && !Has(a, ':')
    ensures CleanSlug(a + NatText(n))
  {
  }

  lemma TextsAreClean(i: nat)
    requires i < 6
    ensures CleanSlug("fp:" + FINGERPRINTS[i]) && CleanSlug("tr:" + TRANSPORTS[i])
  {
  }

  lemma NamesAreClean(i: nat)
    ensures i < 3 ==> CleanSlug("awg:" + PROFILES[i].name)
    ensures i < 5 ==> CleanSlug("path:" + PATH_SLUGS[i])
    ensures CleanSlug("ech:on")
  {
  }

  /** The names of all mutations are clean, so patterns are prefix tests on every generated ID. */
  lemma SlugIsClean(t: Tunnel, k: Kind)
    requires Learned.Made(t, k)
    ensures CleanSlug(Slug(k))
  {
    match k {
      case Mtu(n) => DigitsAreClean("mtu", n);
      case EndpointPort(p) => DigitsAreClean("ep", p);
      case VlessPort(p) => DigitsAreClean("port", p);
      case Fp(s) =>
        var i :| 0 <= i < 6 && FINGERPRINTS[i] == s;
        TextsAreClean(i);
      case Tr(s) =>
        var i :| 0 <= i < 6 && TRANSPORTS[i] == s;
        TextsAreClean(i);
      case Awg(i, _) => NamesAreClean(i);
      case Path(i) => NamesAreClean(i);
      case Ech => NamesAreClean(0);
    }
  }

  lemma AggressiveSlug(k: Kind)
    requires OnMenu(k)
    ensures "awg:aggressive" <= Slug(k) <==> Slug(k) == "awg:aggressive"
  {
    SlugLetters(k);
    assert "awg:aggressive"[..2] == "aw" && |"awg:aggressive"| == 14;
    if "awg:aggressive" <= Slug(k) {
      assert Slug(k)[..2] == "aw";
      LettersDistinct(Ctor(k), 3);
    }
  }

  /** On a generated ID the containment test finds exactly the aggressive profile. */
  lemma AggressiveIsFound(t: Tunnel, k: Kind)
    requires !Has(t.id, ':') && Learned.Made(t, k)
    ensures Contains(VariantID(t.id, k), AGGRESSIVE_AWG) <==> VariantID(t.id, k) == t.id + ":dpi:" + "awg:aggressive"
  {
    assert AGGRESSIVE_AWG == ":dpi:" + "awg:aggressive";
    SlugIsClean(t, k);
    PatternIsPrefix(t.id, Slug(k), "awg:aggressive");
    AggressiveSlug(k);
    if VariantID(t.id, k) == t.id + ":dpi:" + "awg:aggressive" {
      DropPrefix(t.id + ":dpi:", Slug(k), "awg:aggressive");
    }
  }

  lemma GeneratedIsMade(t: Tunnel, hint: BlockType, maxVariants: int, dice: Dice, v: Tunnel) returns (k: Kind)
    requires v in Generated(t, hint, maxVariants, dice)
    ensures Learned.Made(t, k) && v.id == VariantID(t.id, k)
  {
    var menu := Menu(t, hint, dice);
    var i: nat :| i < |Generated(t, hint, maxVariants, dice)| && Generated(t, hint, maxVariants, dice)[i] == v;
    k := Kept(t, menu)[i];
    assert k in Kept(t, menu);
    KeptMembers(t, menu, k);
    Learned.MenuIsMade(t, hint, dice, k);
  }

  /** Which generated variants the balanced profile leaves out. */
  lemma LeftOutIff(t: Tunnel, reason: string, hint: BlockType, k: Kind, v: Tunnel)
    requires !Has(t.id, ':') && Learned.Made(t, k) && v.id == VariantID(t.id, k)
    ensures LeftOut(PatternsForReason(reason, hint, false), hint)(v) <==>
      Aggressive(t.id)(v) && hint != BlockProtocol && !HasPrefix(reason, "protocol_")
  {
    AggressiveIsFound(t, k);
    if Aggressive(t.id)(v) {
      AggressiveMatch(t.id, v.id, reason, hint);
    }
  }

  /**
  The balanced selection of generated variants (the default, and what an unknown profile means) is the first six of
  the stable order by first matching pattern, without the aggressive AmneziaWG profile exactly when neither
  the hint nor the reason names the protocol.
  */
  lemma BalancedIsOrderCut(t: Tunnel, profile: string, reason: string, hint: BlockType, confidence: real,
                           maxVariants: int, dice: Dice)
    requires !Has(t.id, ':') && EffectiveProfile(profile, confidence) !in {"compat", "aggressive"}
    ensures var vs, ps := Generated(t, hint, maxVariants, dice), PatternsForReason(reason, hint, false);
      Selection(profile, reason, hint, confidence, vs)
      == CapVariants(if hint == BlockProtocol || HasPrefix(reason, "protocol_") then Ordered(vs, ps)
                     else Without(Ordered(vs, ps), Aggressive(t.id)), 6)
  {
    var vs, ps := Generated(t, hint, maxVariants, dice), PatternsForReason(reason, hint, false);
    var order, out := Ordered(vs, ps), LeftOut(ps, hint);
    forall v | v in order
      ensures out(v) <==> Aggressive(t.id)(v) && hint != BlockProtocol && !HasPrefix(reason, "protocol_")
    {
      BucketsMembers(vs, Rank(ps), |ps| + 1, v);
      var k := GeneratedIsMade(t, hint, maxVariants, dice, v);
      LeftOutIff(t, reason, hint, k, v);
    }
    if vs == [] {
      AggressiveIsStablePartition(vs, ps);
      assert |order| == |multiset(order)| == 0;
    } else if hint == BlockProtocol || HasPrefix(reason, "protocol_") {
      WithoutNone(order, out);
    } else {
      WithoutSame(order, out, Aggressive(t.id));
    }
  }
}
