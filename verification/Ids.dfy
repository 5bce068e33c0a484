/**
IDs of imported configurations: normalised and made unique by the web interface
(luci-app/htdocs/luci-static/resources/vpn-watchdog/app.js), sanitised and turned into file
names by the controller (luci-app/luasrc/controller/vpn-watchdog.lua).
*/
module Ids {
  import opened Options
  import opened Decimal
  import opened Text

  // ---- normalizeID ----

  /** [a-z0-9_-] */
  predicate Safe(c: char) {
    'a' <= c <= 'z' || '0' <= c <= '9' || c == '_' || c == '-'
  }

  /** Lower-casing one character may give several; it leaves safe characters alone. */
  ghost predicate LowerCasing(lower: char -> string) {
    forall c :: Safe(c) ==> lower(c) == [c]
  }

  function Lowered(s: string, lower: char -> string): string {
    if s == "" then "" else lower(s[0]) + Lowered(s[1..], lower)
  }

  function Dashed(s: string): (r: string)
    ensures |r| == |s| && forall i :: 0 <= i < |r| ==> Safe(r[i]) && (Safe(s[i]) ==> r[i] == s[i])
  {
    seq(|s|, i requires 0 <= i < |s| => if Safe(s[i]) then s[i] else '-')
  }

  /** Runs of dashes become one dash. */
  function Collapsed(s: string): string {
    if |s| <= 1 then s
    else if s[0] == '-' && s[1] == '-' then Collapsed(s[1..])
    else [s[0]] + Collapsed(s[1..])
  }

  predicate IsDash(c: char) {
    c == '-'
  }

  function NormalizeID(raw: string, fallback: string, lower: char -> string): string {
    var id := Trim(Collapsed(Dashed(Lowered(raw, lower))), IsDash);
    if id == "" then fallback else id
  }

  predicate AllSafe(s: string) {
    forall i :: 0 <= i < |s| ==> Safe(s[i])
  }

  predicate NoDoubleDash(s: string) {
    forall i :: 0 <= i < |s| - 1 ==> !(s[i] == '-' && s[i + 1] == '-')
  }

  /** Non-empty, over [a-z0-9_-], without a dash at either end or two in a row. */
  predicate Normal(s: string) {
    s != "" && AllSafe(s) && NoDoubleDash(s) && s[0] != '-' && s[|s| - 1] != '-'
  }

  lemma {:induction false} CollapsedIsClean(s: string)
    requires AllSafe(s)
    ensures AllSafe(Collapsed(s)) && NoDoubleDash(Collapsed(s))
    ensures s != "" ==> Collapsed(s) != "" && Collapsed(s)[0] == s[0]
  {
    if |s| > 1 {
      CollapsedIsClean(s[1..]);
    }
  }

  lemma {:induction false} TrimKeeps(s: string)
    requires AllSafe(s) && NoDoubleDash(s)
    ensures Trim(s, IsDash) == "" || Normal(Trim(s, IsDash))
  {
    if s != "" && IsDash(s[0]) {
      TrimKeeps(s[1..]);
    } else if s != "" && IsDash(s[|s| - 1]) {
      TrimKeeps(s[..|s| - 1]);
    }
  }

  /** The result is in normal form, or the fallback. */
  lemma NormalizedIsNormal(raw: string, fallback: string, lower: char -> string)
    ensures Normal(NormalizeID(raw, fallback, lower)) || NormalizeID(raw, fallback, lower) == fallback
  {
    var d := Dashed(Lowered(raw, lower));
    CollapsedIsClean(d);
    TrimKeeps(Collapsed(d));
  }

  lemma {:induction false} LoweredSafe(s: string, lower: char -> string)
    requires AllSafe(s) && LowerCasing(lower)
    ensures Lowered(s, lower) == s
  {
    if s != "" {
      LoweredSafe(s[1..], lower);
    }
  }

  lemma {:induction false} CollapsedClean(s: string)
    requires NoDoubleDash(s)
    ensures Collapsed(s) == s
  {
    if |s| > 1 {
      CollapsedClean(s[1..]);
    }
  }

  /** Normal forms are fixed. */
  lemma NormalIsFixed(s: string, fallback: string, lower: char -> string)
    requires LowerCasing(lower) && Normal(s)
    ensures NormalizeID(s, fallback, lower) == s
  {
    LoweredSafe(s, lower);
    assert Dashed(s) == s;
    CollapsedClean(s);
    TrimmedEnds(s, IsDash);
  }

  /** Normalising twice is normalising once. */
  lemma NormalizeIdempotent(raw: string, fallback: string, fallback2: string, lower: char -> string)
    requires LowerCasing(lower) && Normal(fallback)
    ensures NormalizeID(NormalizeID(raw, fallback, lower), fallback2, lower) == NormalizeID(raw, fallback, lower)
  {
    NormalizedIsNormal(raw, fallback, lower);
    NormalIsFixed(NormalizeID(raw, fallback, lower), fallback2, lower);
  }

  // ---- ensureUniqueIDs ----

  datatype Cfg = Cfg(id: string, interfaceName: string, body: Body)

  /** A section, with a private key (masked or not) or without one. */
  datatype Section = NoSection | Section(privateKey: Option<string>)

  /** What the controller looks at when it saves: the private keys, and the rest. */
  datatype Body = Body(wg: Section, awg: Section, rest: string)

  /** The n-th candidate for a base: the base itself, then base-2, base-3 and so on. */
  function Candidate(base: string, n: nat): string {
    if n == 0 then base else base + "-" + NatText(n + 1)
  }

  lemma CandidateInjective(base: string, m: nat, n: nat)
    requires Candidate(base, m) == Candidate(base, n)
    ensures m == n
  {
    if m > 0 && n > 0 {
      var p := base + "-";
      assert Candidate(base, m)[|p|..] == NatText(m + 1) && Candidate(base, n)[|p|..] == NatText(n + 1);
      NatTextInjective(m + 1, n + 1);
    }
  }

  lemma CandidateNormal(base: string, n: nat)
    requires Normal(base)
    ensures Normal(Candidate(base, n))
  {
  }

  function Candidates(base: string, n: nat): set<string> {
    if n == 0 then {} else Candidates(base, n - 1) + {Candidate(base, n - 1)}
  }

  lemma {:induction false} NotAmong(base: string, n: nat, k: nat)
    requires k <= n
    ensures Candidate(base, n) !in Candidates(base, k)
  {
    if k > 0 {
      NotAmong(base, n, k - 1);
      if Candidate(base, n) == Candidate(base, k - 1) {
        CandidateInjective(base, n, k - 1);
      }
    }
  }

  /** Distinct candidates: n of them cannot fit in fewer than n taken names. */
  lemma {:induction false} CandidatesFit(base: string, n: nat, taken: set<string>)
    requires forall m: nat :: m < n ==> Candidate(base, m) in taken
    ensures Candidates(base, n) <= taken && |Candidates(base, n)| == n && n <= |taken|
  {
    if n > 0 {
      CandidatesFit(base, n - 1, taken);
      NotAmong(base, n - 1, n - 1);
    }
    assert Candidates(base, n) + (taken - Candidates(base, n)) == taken;
  }

  /** The n-th candidate is the first one that is not taken. */
  ghost predicate FirstFree(taken: set<string>, base: string, id: string, n: nat) {
    && id == Candidate(base, n) && id !in taken
    && forall m: nat :: m < n ==> Candidate(base, m) in taken
  }

  /** The suffix loop ends, after at most as many suffixes as there are taken names. */
  method FreeID(base: string, seen: set<string>) returns (id: string)
    ensures exists n: nat :: n <= |seen| && FirstFree(seen, base, id, n)
  {
    id := base;
    var n := 2;
    ghost var tries: nat := 0;
    while id in seen
      invariant n == tries + 2 && id == Candidate(base, tries) && tries <= |seen|
      invariant forall m: nat :: m < tries ==> Candidate(base, m) in seen
      decreases |seen| - tries
    {
      id := base + "-" + NatText(n);
      n := n + 1;
      tries := tries + 1;
      CandidatesFit(base, tries, seen);
    }
    assert FirstFree(seen, base, id, tries);
  }

  function Base(cfg: Cfg, idx: nat, lower: char -> string): string {
    NormalizeID(cfg.id, "cfg-" + NatText(idx + 1), lower)
  }

  lemma BaseNormal(cfg: Cfg, idx: nat, lower: char -> string)
    ensures Normal(Base(cfg, idx, lower))
  {
    var t := NatText(idx + 1);
    var f := "cfg-" + t;
    forall i | 0 <= i < |f|
      ensures Safe(f[i]) && (i < |f| - 1 ==> !(f[i] == '-' && f[i + 1] == '-'))
    {
      assert i >= 4 ==> f[i] == t[i - 4] && IsDigit(t[i - 4]);
      assert i >= 3 && i < |f| - 1 ==> f[i + 1] == t[i - 3] && IsDigit(t[i - 3]);
    }
    assert f[|f| - 1] == t[|t| - 1] && IsDigit(t[|t| - 1]);
    NormalizedIsNormal(cfg.id, f, lower);
  }

  function IdsOf(cfgs: seq<Cfg>): set<string> {
    set i | 0 <= i < |cfgs| :: cfgs[i].id
  }

  /**
  The entry at one position after the pass: the first free candidate for its base, given the names
  every object answers to and the IDs before it; nothing else changes but a default interface name.
  */
  ghost predicate Renamed(before: seq<Cfg>, after: seq<Cfg>, i: nat, inherited: set<string>, lower: char -> string)
    requires i < |before| && i < |after|
  {
    && after[i].body == before[i].body
    && after[i].interfaceName
       == (if before[i].interfaceName in {"", "vpn0"} then "vpn" + NatText(i) else before[i].interfaceName)
    && (exists n: nat ::
          n <= |inherited| + i && FirstFree(inherited + IdsOf(after[..i]), Base(before[i], i, lower), after[i].id, n))
  }

  /**
  Renames the entries in place. `inherited` are the names a fresh JavaScript object already has
  (such as "constructor"), which count as taken.
  */
  method EnsureUniqueIDs(configs: array<Cfg>, inherited: set<string>, lower: char -> string)
    modifies configs
    ensures forall i :: 0 <= i < configs.Length ==> Renamed(old(configs[..]), configs[..], i, inherited, lower)
    ensures UniqueNormal(configs[..])
  {
    var seen := inherited;
    ghost var before := configs[..];
    for idx := 0 to configs.Length
      invariant seen == inherited + IdsOf(configs[..idx]) && |seen| <= |inherited| + idx
      invariant forall i :: idx <= i < configs.Length ==> configs[i] == before[i]
      invariant forall i :: 0 <= i < idx ==> Renamed(before, configs[..], i, inherited, lower)
    {
      ghost var now := configs[..];
      var cfg := configs[idx];
      var base := Base(cfg, idx, lower);
      var id := FreeID(base, seen);
      ghost var tries: nat :| tries <= |seen| && FirstFree(seen, base, id, tries);
      seen := seen + {id};
      cfg := cfg.(id := id);
      if cfg.interfaceName == "" || cfg.interfaceName == "vpn0" {
        cfg := cfg.(interfaceName := "vpn" + NatText(idx));
      }
      configs[idx] := cfg;
      assert configs[..] == now[idx := cfg];
      assert configs[..idx] == now[..idx];
      RenamedStep(before, now, configs[..], cfg, idx, inherited, lower, tries);
      assert configs[..idx + 1] == configs[..idx] + [cfg];
      IdsSnoc(configs[..idx], cfg);
    }
    assert configs[..configs.Length] == configs[..];
    RenamedUnique(before, configs[..], inherited, lower);
  }

  lemma IdsSnoc(cfgs: seq<Cfg>, c: Cfg)
    ensures IdsOf(cfgs + [c]) == IdsOf(cfgs) + {c.id}
  {
    forall id | id in IdsOf(cfgs) + {c.id}
      ensures id in IdsOf(cfgs + [c])
    {
      if id in IdsOf(cfgs) {
        var i :| 0 <= i < |cfgs| && cfgs[i].id == id;
        assert (cfgs + [c])[i].id == id;
      } else {
        assert (cfgs + [c])[|cfgs|].id == id;
      }
    }
  }

  lemma RenamedStep(before: seq<Cfg>, now: seq<Cfg>, after: seq<Cfg>, cfg: Cfg, idx: nat, inherited: set<string>,
                    lower: char -> string, n: nat)
    requires idx < |before| == |now| && n <= |inherited| + idx && after == now[idx := cfg]
    requires forall i :: 0 <= i < idx ==> Renamed(before, now, i, inherited, lower)
    requires cfg.body == before[idx].body
    requires cfg.interfaceName
      == if before[idx].interfaceName in {"", "vpn0"} then "vpn" + NatText(idx) else before[idx].interfaceName
    requires FirstFree(inherited + IdsOf(now[..idx]), Base(before[idx], idx, lower), cfg.id, n)
    ensures forall i :: 0 <= i <= idx ==> Renamed(before, after, i, inherited, lower)
  {
    assert after[..idx] == now[..idx];
    forall i | 0 <= i < idx
      ensures Renamed(before, after, i, inherited, lower)
    {
      assert after[..i] == now[..i] && after[i] == now[i];
      assert Renamed(before, now, i, inherited, lower);
    }
  }

  /** Pairwise distinct IDs, all in normal form. */
  ghost predicate UniqueNormal(cfgs: seq<Cfg>) {
    && (forall i :: 0 <= i < |cfgs| ==> Normal(cfgs[i].id))
    && (forall i, j :: 0 <= i < j < |cfgs| ==> cfgs[i].id != cfgs[j].id)
  }

  lemma RenamedNew(before: seq<Cfg>, after: seq<Cfg>, j: nat, inherited: set<string>, lower: char -> string)
    requires j < |before| == |after| && Renamed(before, after, j, inherited, lower)
    ensures Normal(after[j].id) && after[j].id !in IdsOf(after[..j])
  {
    var n: nat :|
      n <= |inherited| + j && FirstFree(inherited + IdsOf(after[..j]), Base(before[j], j, lower), after[j].id, n);
    BaseNormal(before[j], j, lower);
    CandidateNormal(Base(before[j], j, lower), n);
  }

  lemma RenamedUnique(before: seq<Cfg>, after: seq<Cfg>, inherited: set<string>, lower: char -> string)
    requires |before| == |after|
    requires forall i :: 0 <= i < |after| ==> Renamed(before, after, i, inherited, lower)
    ensures UniqueNormal(after)
  {
    forall j | 0 <= j < |after|
      ensures Normal(after[j].id) && after[j].id !in IdsOf(after[..j])
    {
      RenamedNew(before, after, j, inherited, lower);
    }
    forall i, j | 0 <= i < j < |after|
      ensures after[i].id != after[j].id
    {
      assert after[..j][i].id in IdsOf(after[..j]);
    }
  }

  // ---- The controller ----

  /** Keeps letters, digits, dashes and underscores; `alnum` is Lua's %w. */
  function SanitizeID(id: string, alnum: char -> bool): string {
    if id == "" then "" else
      (if alnum(id[0]) || id[0] == '-' || id[0] == '_' then [id[0]] else "") + SanitizeID(id[1..], alnum)
  }

  /** %w knows the ASCII letters and digits, whatever the locale adds. */
  ghost predicate Alnum(alnum: char -> bool) {
    forall c :: ('a' <= c <= 'z' || 'A' <= c <= 'Z' || '0' <= c <= '9') ==> alnum(c)
  }

  /** The sanitiser is the identity on safe IDs. */
  lemma {:induction false} SanitizeIsIdentity(id: string, alnum: char -> bool)
    requires Alnum(alnum) && AllSafe(id)
    ensures SanitizeID(id, alnum) == id
  {
    if id != "" {
      SanitizeIsIdentity(id[1..], alnum);
    }
  }

  function PathOf(dir: string, id: string): string {
    dir + "/" + id + ".json"
  }

  lemma PathInjective(dir: string, a: string, b: string)
    requires PathOf(dir, a) == PathOf(dir, b)
    ensures a == b
  {
    var p := dir + "/";
    assert PathOf(dir, a)[|p|..] == a + ".json" && PathOf(dir, b)[|p|..] == b + ".json";
    assert (a + ".json")[..|a|] == a && (b + ".json")[..|b|] == b;
  }

  const MASK := "***"

  /** A mask is replaced by what the existing section holds, even if that is no key. */
  function KeepKey(sent: Section, existing: Section): Section {
    if sent == Section(Some(MASK)) && existing.Section? then existing else sent
  }

  /** A masked private key is replaced by the one in the existing file. */
  function PreserveKeys(existing: Option<Cfg>, obj: Cfg): Cfg {
    match existing
    case None => obj
    case Some(e) =>
      obj.(body := obj.body.(wg := KeepKey(obj.body.wg, e.body.wg), awg := KeepKey(obj.body.awg, e.body.awg)))
  }

  function Lookup(files: map<string, Cfg>, path: string): Option<Cfg> {
    if path in files then Some(files[path]) else None
  }

  /** Writing one configuration: nothing happens for an empty name or a path that cannot be opened. */
  function SaveOne(files: map<string, Cfg>, dir: string, obj: Cfg, alnum: char -> bool, canWrite: string -> bool):
    map<string, Cfg>
  {
    var sid := SanitizeID(obj.id, alnum);
    var path := PathOf(dir, sid);
    if sid == "" || !canWrite(path) then files else files[path := PreserveKeys(Lookup(files, path), obj)]
  }

  function Saves(dir: string, obj: Cfg, alnum: char -> bool, canWrite: string -> bool): bool {
    var sid := SanitizeID(obj.id, alnum);
    sid != "" && canWrite(PathOf(dir, sid))
  }

  function SaveAll(files: map<string, Cfg>, dir: string, cfgs: seq<Cfg>, alnum: char -> bool,
                   canWrite: string -> bool):
    map<string, Cfg>
  {
    if cfgs == [] then files else
      SaveOne(SaveAll(files, dir, cfgs[..|cfgs| - 1], alnum, canWrite), dir, cfgs[|cfgs| - 1], alnum, canWrite)
  }

  /** The IDs of the entries that are (or are not) written, in order. */
  function IdsWhere(dir: string, cfgs: seq<Cfg>, alnum: char -> bool, canWrite: string -> bool,
                    ok: bool): seq<string> {
    if cfgs == [] then [] else
      var c := cfgs[|cfgs| - 1];
      IdsWhere(dir, cfgs[..|cfgs| - 1], alnum, canWrite, ok)
      + (if Saves(dir, c, alnum, canWrite) != ok then [] else if ok then [SanitizeID(c.id, alnum)] else [c.id])
  }

  class ConfigDir {
    const dir: string
    var files: map<string, Cfg>

    constructor (dir: string, files: map<string, Cfg>)
      ensures this.dir == dir && this.files == files
    {
      this.dir, this.files := dir, files;
    }

    method WriteConfigFile(obj: Cfg, alnum: char -> bool, canWrite: string -> bool) returns (saved: Option<string>)
      modifies this
      ensures files == SaveOne(old(files), dir, obj, alnum, canWrite)
      ensures saved == if Saves(dir, obj, alnum, canWrite) then Some(SanitizeID(obj.id, alnum)) else None
    {
      var safeID := SanitizeID(obj.id, alnum);
      if safeID == "" {
        return None;
      }
      var path := PathOf(dir, safeID);
      var kept := PreserveKeys(Lookup(files, path), obj);
      if !canWrite(path) {
        return None;
      }
      files := files[path := kept];
      return Some(safeID);
    }

    method BulkSave(configs: seq<Cfg>, alnum: char -> bool, canWrite: string -> bool)
      returns (saved: seq<string>, failed: seq<string>)
      modifies this
      ensures files == SaveAll(old(files), dir, configs, alnum, canWrite)
      ensures saved == IdsWhere(dir, configs, alnum, canWrite, true)
      ensures failed == IdsWhere(dir, configs, alnum, canWrite, false)
    {
      saved, failed := [], [];
      for k := 0 to |configs|
        invariant files == SaveAll(old(files), dir, configs[..k], alnum, canWrite)
        invariant saved == IdsWhere(dir, configs[..k], alnum, canWrite, true)
        invariant failed == IdsWhere(dir, configs[..k], alnum, canWrite, false)
      {
        assert configs[..k + 1][..k] == configs[..k];
        var sid := WriteConfigFile(configs[k], alnum, canWrite);
        match sid {
          case Some(id) => saved := saved + [id];
          case None => failed := failed + [configs[k].id];
        }
      }
      assert configs[..|configs|] == configs;
    }
  }

  lemma SaveOneAt(files: map<string, Cfg>, dir: string, obj: Cfg, alnum: char -> bool, canWrite: string -> bool,
                  path: string)
    requires Normal(obj.id) && Alnum(alnum)
    ensures Lookup(SaveOne(files, dir, obj, alnum, canWrite), path)
         == if path == PathOf(dir, obj.id) && canWrite(path) then Some(PreserveKeys(Lookup(files, path), obj))
            else Lookup(files, path)
  {
    SanitizeIsIdentity(obj.id, alnum);
  }

  /** The entry that goes to this path. */
  ghost predicate GoesTo(cfgs: seq<Cfg>, dir: string, i: nat, path: string)
    requires i < |cfgs|
  {
    path == PathOf(dir, cfgs[i].id)
  }

  lemma OneOwner(cfgs: seq<Cfg>, dir: string, i: nat, j: nat, path: string)
    requires UniqueNormal(cfgs) && i < |cfgs| && j < |cfgs| && GoesTo(cfgs, dir, i, path) && GoesTo(cfgs, dir, j, path)
    ensures i == j
  {
    PathInjective(dir, cfgs[i].id, cfgs[j].id);
  }

  /**
  No entry of a batch of unique normal IDs overwrites another one: every file ends up with the
  content its own entry would have given it alone, and no other file changes.
  */
  lemma {:induction false} BatchKeepsEntries(files: map<string, Cfg>, dir: string, cfgs: seq<Cfg>,
                                             alnum: char -> bool,
                                             canWrite: string -> bool, path: string)
    requires UniqueNormal(cfgs) && Alnum(alnum)
    ensures var after := SaveAll(files, dir, cfgs, alnum, canWrite);
      && (forall i :: 0 <= i < |cfgs| && GoesTo(cfgs, dir, i, path) ==>
            Lookup(after, path)
            == if canWrite(path) then Some(PreserveKeys(Lookup(files, path), cfgs[i])) else Lookup(files, path))
      && ((forall i :: 0 <= i < |cfgs| ==> !GoesTo(cfgs, dir, i, path)) ==> Lookup(after, path) == Lookup(files, path))
  {
    if cfgs != [] {
      var n := |cfgs| - 1;
      var front := cfgs[..n];
      BatchKeepsEntries(files, dir, front, alnum, canWrite, path);
      SaveOneAt(SaveAll(files, dir, front, alnum, canWrite), dir, cfgs[n], alnum, canWrite, path);
      assert forall i :: 0 <= i < n ==> (GoesTo(front, dir, i, path) <==> GoesTo(cfgs, dir, i, path));
      if GoesTo(cfgs, dir, n, path) {
        forall i | 0 <= i < n
          ensures !GoesTo(cfgs, dir, i, path)
        {
          if GoesTo(cfgs, dir, i, path) {
            OneOwner(cfgs, dir, i, n, path);
          }
        }
      }
    }
  }
}
