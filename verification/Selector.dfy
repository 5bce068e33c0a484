/**
Selection of generated variants by profile, detector reason and block hint
(daemon/internal/strategy/selector.go). A variant is named by its ID.
*/
module Selector {
  import opened Config
  import opened Partition

  // ---- Patterns ----

  predicate OccursAt(s: string, sub: string, i: nat) {
    i + |sub| <= |s| && s[i..i + |sub|] == sub
  }

  predicate Contains(s: string, sub: string) {
    exists i: nat :: i <= |s| && OccursAt(s, sub, i)
  }

  predicate HasPrefix(s: string, p: string) {
    p <= s
  }

  function PatternsForReason(reason: string, hint: BlockType, safeOnly: bool): (ps: seq<string>)
    ensures |ps| >= 1 && "" !in ps
  {
    if HasPrefix(reason, "tls_") then
      if safeOnly then [":dpi:fp:", ":dpi:mtu"]
      else [":dpi:fp:", ":dpi:path:", ":dpi:tr:tcp", ":dpi:tr:ws", ":dpi:mtu"]
    else if HasPrefix(reason, "http_") then
      if safeOnly then [":dpi:path:", ":dpi:tr:ws", ":dpi:tr:httpupgrade", ":dpi:mtu"]
      else [":dpi:path:", ":dpi:tr:ws", ":dpi:tr:httpupgrade", ":dpi:tr:grpc", ":dpi:mtu"]
    else if HasPrefix(reason, "tcp_") then
      [":dpi:ep", ":dpi:port", ":dpi:mtu", ":dpi:awg:mild"]
    else if HasPrefix(reason, "protocol_") || hint == BlockProtocol then
      if safeOnly then [":dpi:ep", ":dpi:port", ":dpi:awg:mild", ":dpi:mtu"]
      else [":dpi:ep", ":dpi:port", ":dpi:awg:aggressive", ":dpi:awg:moderate", ":dpi:awg:mild", ":dpi:mtu"]
    else if reason == "low_confidence" then
      [":dpi:mtu"]
    else
      if safeOnly then [":dpi:mtu", ":dpi:fp:"]
      else [":dpi:mtu", ":dpi:fp:", ":dpi:tr:"]
  }

  // ---- The reference: a stable partition by first matching pattern ----

  /** Index of the first pattern the ID contains; the number of patterns when there is none. */
  function FirstMatch(id: string, ps: seq<string>): (r: nat)
    ensures r <= |ps|
  {
    if ps == [] || Contains(id, ps[0]) then 0 else 1 + FirstMatch(id, ps[1..])
  }

  /** The index is that of the first pattern the ID contains. */
  lemma {:induction false} FirstMatchMeaning(id: string, ps: seq<string>, i: nat)
    requires i < |ps|
    ensures FirstMatch(id, ps) == i ==> Contains(id, ps[i])
    ensures Contains(id, ps[i]) ==> FirstMatch(id, ps) <= i
  {
    if !Contains(id, ps[0]) && i > 0 {
      FirstMatchMeaning(id, ps[1..], i - 1);
      assert ps[1..][i - 1] == ps[i];
    }
  }

  /** Variants rank by the first pattern their ID contains. */
  function Rank(ps: seq<string>): Tunnel -> nat {
    (v: Tunnel) => FirstMatch(v.id, ps)
  }

  /** The variants that match one of the first n patterns, stably ordered by first match. */
  function Matched(vs: seq<Tunnel>, ps: seq<string>, n: nat): seq<Tunnel> {
    Buckets(vs, Rank(ps), n)
  }

  /** All variants, stably ordered by the index of the first matching pattern, unmatched ones last. */
  function Ordered(vs: seq<Tunnel>, ps: seq<string>): seq<Tunnel> {
    Matched(vs, ps, |ps| + 1)
  }

  ghost predicate DistinctIDs(vs: seq<Tunnel>) {
    forall i, j :: 0 <= i < j < |vs| ==> vs[i].id != vs[j].id
  }

  predicate HasID(vs: seq<Tunnel>, id: string) {
    exists v :: v in vs && v.id == id
  }

  // ---- What the loops compute ----

  function WithNew(out: seq<Tunnel>, v: Tunnel): seq<Tunnel> {
    if HasID(out, v.id) then out else out + [v]
  }

  function AppendedUnique(dst: seq<Tunnel>, src: seq<Tunnel>): seq<Tunnel> {
    if src == [] then dst else WithNew(AppendedUnique(dst, src[..|src| - 1]), src[|src| - 1])
  }

  function Matching(vs: seq<Tunnel>, pattern: string): seq<Tunnel> {
    if vs == [] then [] else
      Matching(vs[..|vs| - 1], pattern) + (if Contains(vs[|vs| - 1].id, pattern) then [vs[|vs| - 1]] else [])
  }

  /** The first variant of every ID; all of them when the IDs are distinct. */
  function Deduped(vs: seq<Tunnel>): seq<Tunnel> {
    if vs == [] then [] else WithNew(Deduped(vs[..|vs| - 1]), vs[|vs| - 1])
  }

  lemma HasIDSnoc(vs: seq<Tunnel>, v: Tunnel)
    ensures forall id :: HasID(vs + [v], id) <==> HasID(vs, id) || id == v.id
  {
  }

  method AppendUnique(dst: seq<Tunnel>, src: seq<Tunnel>) returns (out: seq<Tunnel>)
    ensures out == AppendedUnique(dst, src)
  {
    var seen: set<string> := {};
    for i := 0 to |dst|
      invariant forall id :: id in seen <==> HasID(dst[..i], id)
    {
      seen := seen + {dst[i].id};
      HasIDSnoc(dst[..i], dst[i]);
      assert dst[..i + 1] == dst[..i] + [dst[i]];
    }
    assert dst[..|dst|] == dst;
    out := dst;
    for i := 0 to |src|
      invariant out == AppendedUnique(dst, src[..i])
      invariant forall id :: id in seen <==> HasID(out, id)
    {
      assert src[..i + 1][..i] == src[..i];
      if src[i].id in seen {
        continue;
      }
      seen := seen + {src[i].id};
      HasIDSnoc(out, src[i]);
      out := out + [src[i]];
    }
    assert src[..|src|] == src;
  }

  method MatchByPattern(variants: seq<Tunnel>, pattern: string) returns (out: seq<Tunnel>)
    ensures out == if pattern == "" then [] else Matching(variants, pattern)
  {
    if pattern == "" {
      return [];
    }
    out := [];
    for i := 0 to |variants|
      invariant out == Matching(variants[..i], pattern)
    {
      assert variants[..i + 1][..i] == variants[..i];
      if Contains(variants[i].id, pattern) {
        out := out + [variants[i]];
      }
    }
    assert variants[..|variants|] == variants;
  }

  /** The pattern pass builds the partition bucket by bucket; of variants with one ID the first counts. */
  method SelectByPatterns(variants: seq<Tunnel>, ps: seq<string>) returns (out: seq<Tunnel>)
    requires "" !in ps
    ensures out == Matched(Deduped(variants), ps, |ps|)
  {
    out := [];
    for n := 0 to |ps|
      invariant out == Matched(Deduped(variants), ps, n)
    {
      var matched := MatchByPattern(variants, ps[n]);
      PatternStep(variants, ps, n);
      out := AppendUnique(out, matched);
    }
  }

  function CapVariants(vs: seq<Tunnel>, n: nat): seq<Tunnel> {
    if n == 0 || |vs| <= n then vs else vs[..n]
  }

  // ---- Members ----

  lemma {:induction false} DedupedMembers(vs: seq<Tunnel>, v: Tunnel)
    ensures v in Deduped(vs) ==> v in vs
    ensures v in vs ==> HasID(Deduped(vs), v.id)
  {
    if vs != [] {
      var n := |vs| - 1;
      DedupedMembers(vs[..n], v);
      InSnoc(vs, v);
      HasIDSnoc(Deduped(vs[..n]), vs[n]);
    }
  }

  lemma {:induction false} DedupedIsDistinct(vs: seq<Tunnel>)
    ensures DistinctIDs(Deduped(vs))
  {
    if vs != [] {
      DedupedIsDistinct(vs[..|vs| - 1]);
    }
  }

  lemma {:induction false} DistinctIsDeduped(vs: seq<Tunnel>)
    requires DistinctIDs(vs)
    ensures Deduped(vs) == vs
  {
    if vs != [] {
      DistinctIsDeduped(vs[..|vs| - 1]);
    }
  }

  lemma DedupedStep(vs: seq<Tunnel>, k: nat)
    requires k < |vs|
    ensures Deduped(vs[..k + 1]) == WithNew(Deduped(vs[..k]), vs[k])
  {
    assert vs[..k + 1][..k] == vs[..k];
  }

  lemma BucketHasID(vs: seq<Tunnel>, ps: seq<string>, r: nat, id: string)
    ensures HasID(Bucket(vs, Rank(ps), r), id) <==> HasID(vs, id) && FirstMatch(id, ps) == r
  {
    if v :| v in Bucket(vs, Rank(ps), r) && v.id == id {
      BucketMembers(vs, Rank(ps), r, v);
    }
    if v :| v in vs && v.id == id {
      BucketMembers(vs, Rank(ps), r, v);
    }
  }

  lemma BucketsHasID(vs: seq<Tunnel>, ps: seq<string>, n: nat, id: string)
    ensures HasID(Matched(vs, ps, n), id) <==> HasID(vs, id) && FirstMatch(id, ps) < n
  {
    if v :| v in Matched(vs, ps, n) && v.id == id {
      BucketsMembers(vs, Rank(ps), n, v);
    }
    if v :| v in vs && v.id == id {
      BucketsMembers(vs, Rank(ps), n, v);
    }
  }

  // ---- The pattern pass is the partition ----

  /** Matching and appending in one pass. */
  function Pass(dst: seq<Tunnel>, vs: seq<Tunnel>, pattern: string): seq<Tunnel> {
    if vs == [] then dst else
      var out, v := Pass(dst, vs[..|vs| - 1], pattern), vs[|vs| - 1];
      if Contains(v.id, pattern) then WithNew(out, v) else out
  }

  lemma AppendedSnoc(dst: seq<Tunnel>, src: seq<Tunnel>, v: Tunnel)
    ensures AppendedUnique(dst, src + [v]) == WithNew(AppendedUnique(dst, src), v)
  {
  }

  lemma {:induction false} PassIsAppend(dst: seq<Tunnel>, vs: seq<Tunnel>, pattern: string)
    ensures AppendedUnique(dst, Matching(vs, pattern)) == Pass(dst, vs, pattern)
  {
    if vs != [] {
      var n := |vs| - 1;
      PassIsAppend(dst, vs[..n], pattern);
      AppendedSnoc(dst, Matching(vs[..n], pattern), vs[n]);
      assert Matching(vs[..n], pattern) + [] == Matching(vs[..n], pattern);
    }
  }

  lemma ConcatWithNew(a: seq<Tunnel>, b: seq<Tunnel>, v: Tunnel)
    ensures WithNew(a + b, v) == if HasID(a, v.id) then a + b else a + WithNew(b, v)
  {
  }

  lemma BucketWithNew(d: seq<Tunnel>, v: Tunnel, ps: seq<string>, r: nat)
    ensures Bucket(WithNew(d, v), Rank(ps), r)
         == if FirstMatch(v.id, ps) == r then WithNew(Bucket(d, Rank(ps), r), v) else Bucket(d, Rank(ps), r)
  {
    BucketHasID(d, ps, r, v.id);
    BucketSnoc(d, v, Rank(ps), r);
  }

  /** One variant more: it goes to the current bucket if this is its first match and its ID is new. */
  lemma PassStep(all: seq<Tunnel>, d: seq<Tunnel>, v: Tunnel, ps: seq<string>, n: nat)
    requires n < |ps| && HasID(all, v.id)
    ensures var bs := Matched(all, ps, n); var out := bs + Bucket(d, Rank(ps), n);
      (if Contains(v.id, ps[n]) then WithNew(out, v) else out) == bs + Bucket(WithNew(d, v), Rank(ps), n)
  {
    FirstMatchMeaning(v.id, ps, n);
    BucketsHasID(all, ps, n, v.id);
    BucketWithNew(d, v, ps, n);
    ConcatWithNew(Matched(all, ps, n), Bucket(d, Rank(ps), n), v);
  }

  lemma {:induction false} PassAddsBucket(vs: seq<Tunnel>, k: nat, all: seq<Tunnel>, ps: seq<string>, n: nat)
    requires k <= |vs| && n < |ps| && forall v :: v in vs ==> HasID(all, v.id)
    ensures Pass(Matched(all, ps, n), vs[..k], ps[n]) == Matched(all, ps, n) + Bucket(Deduped(vs[..k]), Rank(ps), n)
  {
    if k > 0 {
      PassAddsBucket(vs, k - 1, all, ps, n);
      assert vs[..k][..k - 1] == vs[..k - 1];
      PassStep(all, Deduped(vs[..k - 1]), vs[k - 1], ps, n);
      DedupedStep(vs, k - 1);
    }
  }

  lemma PatternStep(vs: seq<Tunnel>, ps: seq<string>, n: nat)
    requires n < |ps|
    ensures AppendedUnique(Matched(Deduped(vs), ps, n), Matching(vs, ps[n])) == Matched(Deduped(vs), ps, n + 1)
  {
    var all := Deduped(vs);
    forall v | v in vs
      ensures HasID(all, v.id)
    {
      DedupedMembers(vs, v);
    }
    PassIsAppend(Matched(all, ps, n), vs, ps[n]);
    PassAddsBucket(vs, |vs|, all, ps, n);
    assert vs[..|vs|] == vs;
  }

  // ---- The fill-up pass ----

  /** What filling up adds: the unmatched variants that are not skipped. */
  function Rest(vs: seq<Tunnel>, ps: seq<string>, skip: Tunnel -> bool): seq<Tunnel> {
    if vs == [] then [] else
      var v := vs[|vs| - 1];
      Rest(vs[..|vs| - 1], ps, skip) + (if FirstMatch(v.id, ps) == |ps| && !skip(v) then [v] else [])
  }

  lemma {:induction false} RestMembers(vs: seq<Tunnel>, ps: seq<string>, skip: Tunnel -> bool, v: Tunnel)
    ensures v in Rest(vs, ps, skip) <==> v in vs && FirstMatch(v.id, ps) == |ps| && !skip(v)
  {
    if vs != [] {
      RestMembers(vs[..|vs| - 1], ps, skip, v);
      InSnoc(vs, v);
    }
  }

  lemma {:induction false} RestOfAll(vs: seq<Tunnel>, ps: seq<string>)
    ensures Rest(vs, ps, _ => false) == Bucket(vs, Rank(ps), |ps|)
  {
    if vs != [] {
      RestOfAll(vs[..|vs| - 1], ps);
    }
  }

  lemma {:induction false} RestIsUnmatched(vs: seq<Tunnel>, ps: seq<string>, skip: Tunnel -> bool, drop: Tunnel -> bool)
    requires forall v :: drop(v) <==> FirstMatch(v.id, ps) == |ps| && skip(v)
    ensures Rest(vs, ps, skip) == Without(Bucket(vs, Rank(ps), |ps|), drop)
  {
    if vs != [] {
      var n := |vs| - 1;
      RestIsUnmatched(vs[..n], ps, skip, drop);
      var front := Bucket(vs[..n], Rank(ps), |ps|);
      WithoutConcat(front, [vs[n]], drop);
      assert front + [] == front;
    }
  }

  /** Pattern pass and fill-up pass together: the stable order, without the unmatched variants that are skipped. */
  lemma FilledIsOrdered(vs: seq<Tunnel>, ps: seq<string>, skip: Tunnel -> bool, drop: Tunnel -> bool)
    requires forall v :: drop(v) <==> FirstMatch(v.id, ps) == |ps| && skip(v)
    ensures Matched(vs, ps, |ps|) + Rest(vs, ps, skip) == Without(Ordered(vs, ps), drop)
  {
    var matched := Matched(vs, ps, |ps|);
    RestIsUnmatched(vs, ps, skip, drop);
    WithoutConcat(matched, Bucket(vs, Rank(ps), |ps|), drop);
    forall v | v in matched
      ensures !drop(v)
    {
      BucketsMembers(vs, Rank(ps), |ps|, v);
    }
    WithoutNone(matched, drop);
  }

  /** Skipping decides by ID only. */
  ghost predicate ByID(skip: Tunnel -> bool) {
    forall v: Tunnel, w: Tunnel :: v.id == w.id ==> skip(v) == skip(w)
  }

  lemma RestHasID(vs: seq<Tunnel>, ps: seq<string>, skip: Tunnel -> bool, v: Tunnel)
    requires ByID(skip)
    ensures HasID(Rest(vs, ps, skip), v.id) <==> HasID(vs, v.id) && FirstMatch(v.id, ps) == |ps| && !skip(v)
  {
  }

  lemma RestSnoc(d: seq<Tunnel>, v: Tunnel, ps: seq<string>, skip: Tunnel -> bool)
    ensures Rest(d + [v], ps, skip)
         == if FirstMatch(v.id, ps) == |ps| && !skip(v) then Rest(d, ps, skip) + [v] else Rest(d, ps, skip)
  {
  }

  lemma RestWithNew(d: seq<Tunnel>, v: Tunnel, ps: seq<string>, skip: Tunnel -> bool)
    requires ByID(skip)
    ensures Rest(WithNew(d, v), ps, skip)
         == if FirstMatch(v.id, ps) == |ps| && !skip(v) then WithNew(Rest(d, ps, skip), v) else Rest(d, ps, skip)
  {
    RestHasID(d, ps, skip, v);
    RestSnoc(d, v, ps, skip);
  }

  /** One step of the fill-up loop. */
  lemma FillStep(all: seq<Tunnel>, d: seq<Tunnel>, v: Tunnel, ps: seq<string>, skip: Tunnel -> bool)
    requires HasID(all, v.id) && ByID(skip)
    ensures var bs := Matched(all, ps, |ps|); var out := bs + Rest(d, ps, skip);
      bs + Rest(WithNew(d, v), ps, skip) == if skip(v) then out else AppendedUnique(out, [v])
  {
    BucketsHasID(all, ps, |ps|, v.id);
    RestWithNew(d, v, ps, skip);
    ConcatWithNew(Matched(all, ps, |ps|), Rest(d, ps, skip), v);
    AppendOne(Matched(all, ps, |ps|) + Rest(d, ps, skip), v);
  }

  lemma AppendOne(out: seq<Tunnel>, v: Tunnel)
    ensures AppendedUnique(out, [v]) == WithNew(out, v)
  {
  }

  // ---- The three profiles ----

  const AGGRESSIVE_AWG := ":dpi:awg:aggressive"

  predicate SkippedByBalanced(v: Tunnel, hint: BlockType) {
    Contains(v.id, AGGRESSIVE_AWG) && hint != BlockProtocol
  }

  /** What the balanced profile leaves out: aggressive variants no pattern asks for, when the hint is not protocol. */
  function LeftOut(ps: seq<string>, hint: BlockType): Tunnel -> bool {
    (v: Tunnel) => FirstMatch(v.id, ps) == |ps| && SkippedByBalanced(v, hint)
  }

  /** The first six of the stable order, without those. */
  function Balanced(vs: seq<Tunnel>, ps: seq<string>, hint: BlockType): seq<Tunnel> {
    CapVariants(Without(Ordered(vs, ps), LeftOut(ps, hint)), 6)
  }

  /** The stable partition itself. */
  method AggressiveSelect(reason: string, hint: BlockType, variants: seq<Tunnel>) returns (out: seq<Tunnel>)
    ensures out == Ordered(Deduped(variants), PatternsForReason(reason, hint, false))
  {
    var patterns := PatternsForReason(reason, hint, false);
    out := SelectByPatterns(variants, patterns);
    ghost var none := (_: Tunnel) => false;
    ghost var all, d := Deduped(variants), [];
    assert variants[..0] == [] && out == out + Rest(d, patterns, none);
    for k := 0 to |variants|
      invariant d == Deduped(variants[..k]) && out == Matched(all, patterns, |patterns|) + Rest(d, patterns, none)
    {
      DedupedStep(variants, k);
      DedupedMembers(variants, variants[k]);
      FillStep(all, d, variants[k], patterns, none);
      d := WithNew(d, variants[k]);
      out := AppendUnique(out, [variants[k]]);
    }
    assert variants[..|variants|] == variants;
    RestSame(all, patterns, none, _ => false);
    RestOfAll(all, patterns);
  }

  lemma {:induction false} RestSame(vs: seq<Tunnel>, ps: seq<string>, f: Tunnel -> bool, g: Tunnel -> bool)
    requires forall v :: v in vs ==> f(v) == g(v)
    ensures Rest(vs, ps, f) == Rest(vs, ps, g)
  {
    if vs != [] {
      RestSame(vs[..|vs| - 1], ps, f, g);
    }
  }

  /** The first six of the stable order, without the aggressive variants that are left out. */
  method BalancedSelect(reason: string, hint: BlockType, variants: seq<Tunnel>) returns (out: seq<Tunnel>)
    ensures out == Balanced(Deduped(variants), PatternsForReason(reason, hint, false), hint)
  {
    var patterns := PatternsForReason(reason, hint, false);
    out := SelectByPatterns(variants, patterns);
    ghost var skip := (v: Tunnel) => SkippedByBalanced(v, hint);
    ghost var all, d := Deduped(variants), [];
    assert variants[..0] == [] && out == out + Rest(d, patterns, skip);
    for k := 0 to |variants|
      invariant d == Deduped(variants[..k]) && out == Matched(all, patterns, |patterns|) + Rest(d, patterns, skip)
    {
      DedupedStep(variants, k);
      DedupedMembers(variants, variants[k]);
      FillStep(all, d, variants[k], patterns, skip);
      d := WithNew(d, variants[k]);
      if !(Contains(variants[k].id, AGGRESSIVE_AWG) && hint != BlockProtocol) {
        out := AppendUnique(out, [variants[k]]);
      }
    }
    assert variants[..|variants|] == variants;
    FilledIsOrdered(all, patterns, skip, LeftOut(patterns, hint));
    out := CapVariants(out, 6);
  }

  /** What is kept when no safe pattern matches. */
  const FALLBACK := [":dpi:mtu", ":dpi:awg:mild"]

  /** The patterns, then the fallback. */
  function CompatMatched(reason: string, hint: BlockType, variants: seq<Tunnel>): seq<Tunnel> {
    var ps := PatternsForReason(reason, hint, true);
    var matched := Matched(variants, ps, |ps|);
    if matched != [] then matched else Matched(variants, FALLBACK, |FALLBACK|)
  }

  /** The first variant when nothing matched, and never more than three. */
  function CapOrFirst(matched: seq<Tunnel>, first: Tunnel): (r: seq<Tunnel>)
    ensures 1 <= |r| <= 3 && forall v :: v in r ==> v in matched || v == first
  {
    CapVariants(if matched != [] then matched else [first], 3)
  }

  function CompatSelection(reason: string, hint: BlockType, variants: seq<Tunnel>): seq<Tunnel>
    requires variants != []
  {
    CapOrFirst(CompatMatched(reason, hint, variants), variants[0])
  }

  method SelectCautious(reason: string, hint: BlockType, variants: seq<Tunnel>) returns (out: seq<Tunnel>)
    ensures out == CompatMatched(reason, hint, Deduped(variants))
  {
    var patterns := PatternsForReason(reason, hint, true);
    out := SelectByPatterns(variants, patterns);
    if |out| == 0 {
      var mtu := MatchByPattern(variants, ":dpi:mtu");
      out := AppendUnique(out, mtu);
      var mild := MatchByPattern(variants, ":dpi:awg:mild");
      out := AppendUnique(out, mild);
      PatternStep(variants, FALLBACK, 0);
      PatternStep(variants, FALLBACK, 1);
    }
  }

  /** The first three of the matched part, never nothing. */
  method CompatSelect(reason: string, hint: BlockType, variants: seq<Tunnel>) returns (out: seq<Tunnel>)
    requires variants != []
    ensures Deduped(variants) != [] && out == CompatSelection(reason, hint, Deduped(variants))
    ensures 1 <= |out| <= 3
  {
    out := SelectCautious(reason, hint, variants);
    FirstSurvives(variants);
    if |out| == 0 {
      out := out + [variants[0]];
    }
    out := CapVariants(out, 3);
  }

  lemma {:induction false} FirstSurvives(vs: seq<Tunnel>)
    requires vs != []
    ensures Deduped(vs) != [] && Deduped(vs)[0] == vs[0]
  {
    var n := |vs| - 1;
    if n > 0 {
      FirstSurvives(vs[..n]);
    }
  }

  /** Confidence below 0.4 forces the compat profile. */
  function EffectiveProfile(profile: string, confidence: real): string {
    if confidence < 0.4 then "compat" else if profile == "" then "balanced" else profile
  }

  function EffectiveReason(reason: string, confidence: real): string {
    if confidence < 0.4 then "low_confidence" else reason
  }

  function Selection(profile: string, reason: string, hint: BlockType, confidence: real,
                     variants: seq<Tunnel>): seq<Tunnel> {
    var p, r := EffectiveProfile(profile, confidence), EffectiveReason(reason, confidence);
    var ps := PatternsForReason(r, hint, false);
    if variants == [] then []
    else if p == "compat" then CompatSelection(r, hint, variants)
    else if p == "aggressive" then Ordered(variants, ps)
    else Balanced(variants, ps, hint)
  }

  method SelectVariants(profile: string, reason: string, hint: BlockType, confidence: real, variants: seq<Tunnel>)
    returns (out: seq<Tunnel>)
    ensures out == Selection(profile, reason, hint, confidence, Deduped(variants))
    ensures DistinctIDs(variants) ==> out == Selection(profile, reason, hint, confidence, variants)
  {
    if DistinctIDs(variants) {
      DistinctIsDeduped(variants);
    }
    if |variants| == 0 {
      return variants;
    }
    var p, r := profile, reason;
    if p == "" {
      p := "balanced";
    }
    if confidence < 0.4 {
      p := "compat";
      r := "low_confidence";
    }
    FirstSurvives(variants);
    if p == "compat" {
      out := CompatSelect(r, hint, variants);
    } else if p == "aggressive" {
      out := AggressiveSelect(r, hint, variants);
    } else {
      out := BalancedSelect(r, hint, variants);
    }
  }

  lemma CompatInside(reason: string, hint: BlockType, variants: seq<Tunnel>, v: Tunnel)
    requires variants != [] && v in CompatSelection(reason, hint, variants)
    ensures v in variants
  {
    var ps := PatternsForReason(reason, hint, true);
    BucketsMembers(variants, Rank(ps), |ps|, v);
    BucketsMembers(variants, Rank(FALLBACK), 2, v);
  }

  lemma BalancedInside(variants: seq<Tunnel>, ps: seq<string>, hint: BlockType, v: Tunnel)
    requires v in Balanced(variants, ps, hint)
    ensures v in variants
  {
    WithoutMembers(Ordered(variants, ps), LeftOut(ps, hint), v);
    BucketsMembers(variants, Rank(ps), |ps| + 1, v);
  }

  /** Every profile only selects. */
  lemma SelectionInside(profile: string, reason: string, hint: BlockType, confidence: real, variants: seq<Tunnel>,
                        v: Tunnel)
    ensures v in Selection(profile, reason, hint, confidence, variants) ==> v in variants
  {
    if v in Selection(profile, reason, hint, confidence, variants) {
      var p, r := EffectiveProfile(profile, confidence), EffectiveReason(reason, confidence);
      var ps := PatternsForReason(r, hint, false);
      if p == "compat" {
        CompatInside(r, hint, variants, v);
      } else if p == "aggressive" {
        BucketsMembers(variants, Rank(ps), |ps| + 1, v);
      } else {
        BalancedInside(variants, ps, hint, v);
      }
    }
  }

  /**
  The aggressive selection is the stable partition: a permutation of the variants, ordered by the
  index of the first matching pattern and, within one pattern, by position in the input.
  */
  lemma AggressiveIsStablePartition(vs: seq<Tunnel>, ps: seq<string>)
    ensures multiset(Ordered(vs, ps)) == multiset(vs)
    ensures var s := Ordered(vs, ps);
      forall a, b :: 0 <= a < b < |s| ==> InOrder(vs, Rank(ps), s[a], s[b])
  {
    StablePartition(vs, Rank(ps), |ps| + 1);
  }
}
