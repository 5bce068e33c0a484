/**
The candidate pool of the switch engine (daemon/internal/switch/switch.go): learned variants, the configured
tunnels, and fresh DPI variants cut down by the profile.
*/
module Pool {
  import opened Options
  import opened Config
  import opened Attempts
  import Learned
  import Partition
  import Selector
  import Sorting
  import Store
  import VariantObjects
  import Variants

  datatype EngineCfg = EngineCfg(maxAttempts: int, autoTune: bool, maxVariants: int, profile: string)

  /** What one switch is about: the configured tunnels, the active one, what was detected, and what is left open. */
  datatype Request = Request(bases: seq<Tunnel>, activeID: string, hint: BlockType, reason: string, confidence: real,
                             q: real, dice: nat -> Variants.Dice, outcome: nat -> Outcome)

  // ---- Fresh variants ----

  function GeneratedFor(cfg: EngineCfg, req: Request, b: nat): seq<Tunnel>
    requires b < |req.bases|
  {
    Variants.Generated(req.bases[b], req.hint, cfg.maxVariants, req.dice(b))
  }

  /** DPI variants of one base, cut down by the profile. */
  function FreshFor(cfg: EngineCfg, req: Request, b: nat): seq<Tunnel>
    requires b < |req.bases|
  {
    if req.bases[b].autoTune == Some(false) then []
    else Selector.Selection(cfg.profile, req.reason, req.hint, req.confidence, GeneratedFor(cfg, req, b))
  }

  function Fresh(cfg: EngineCfg, req: Request, n: nat): seq<Tunnel>
    requires n <= |req.bases|
  {
    if n == 0 || !cfg.autoTune then [] else Fresh(cfg, req, n - 1) + FreshFor(cfg, req, n - 1)
  }

  lemma FreshForOrigin(cfg: EngineCfg, req: Request, b: nat, v: Tunnel) returns (i: nat)
    requires b < |req.bases|
    ensures v in FreshFor(cfg, req, b) ==> IsGenerated(cfg, req, b, i, v)
  {
    var vs := GeneratedFor(cfg, req, b);
    Selector.SelectionInside(cfg.profile, req.reason, req.hint, req.confidence, vs, v);
    i := 0;
    if v in vs {
      i :| i < |vs| && vs[i] == v;
    }
  }

  /** v is the i-th variant generated from base b. */
  predicate IsGenerated(cfg: EngineCfg, req: Request, b: nat, i: nat, v: Tunnel) {
    b < |req.bases| && i < |GeneratedFor(cfg, req, b)| && GeneratedFor(cfg, req, b)[i] == v
  }

  /** Every fresh variant was generated from one of the bases. */
  lemma {:induction false} FreshOrigin(cfg: EngineCfg, req: Request, n: nat, v: Tunnel) returns (b: nat, i: nat)
    requires n <= |req.bases| && v in Fresh(cfg, req, n)
    ensures IsGenerated(cfg, req, b, i, v)
  {
    var front, last := Fresh(cfg, req, n - 1), FreshFor(cfg, req, n - 1);
    Partition.InConcat(front, last, v);
    if v in last {
      b := n - 1;
      i := FreshForOrigin(cfg, req, b, v);
    } else {
      b, i := FreshOrigin(cfg, req, n - 1, v);
    }
  }

  method FreshVariants(cfg: EngineCfg, req: Request) returns (out: seq<Tunnel>)
    requires cfg.autoTune
    ensures out == Fresh(cfg, req, |req.bases|)
  {
    out := [];
    for b := 0 to |req.bases|
      invariant out == Fresh(cfg, req, b)
    {
      var more := FreshVariantsOf(cfg, req, b);
      out := out + more;
    }
  }

  method FreshVariantsOf(cfg: EngineCfg, req: Request, b: nat) returns (out: seq<Tunnel>)
    requires b < |req.bases|
    ensures out == FreshFor(cfg, req, b)
  {
    out := [];
    var bc := req.bases[b];
    if bc.autoTune == None || bc.autoTune.value {
      var variants := VariantObjects.GeneratedValues(bc, req.hint, cfg.maxVariants, req.dice(b));
      Variants.GeneratedIDs(bc, req.hint, cfg.maxVariants, req.dice(b));
      out := FilterVariantsByProfile(cfg.profile, variants, req.hint, req.reason, req.confidence);
    }
  }

  /** Very low confidence keeps only the safest variants, in any profile. */
  method FilterVariantsByProfile(configured: string, variants: seq<Tunnel>, hint: BlockType, reason: string,
                                 confidence: real)
    returns (out: seq<Tunnel>)
    ensures out == Selector.Selection(configured, reason, hint, confidence, Selector.Deduped(variants))
    ensures Selector.DistinctIDs(variants) ==> out == Selector.Selection(configured, reason, hint, confidence, variants)
  {
    if Selector.DistinctIDs(variants) {
      Selector.DistinctIsDeduped(variants);
    }
    if |variants| == 0 {
      return variants;
    }
    var profile := configured;
    if profile == "" {
      profile := "balanced";
    }
    if confidence < 0.4 {
      profile := "compat";
    }
    out := Selector.SelectVariants(profile, reason, hint, confidence, variants);
  }

  // ---- Learned variants ----

  /** The entry under k belongs to this base, worked before, and is rebuilt to v. */
  ghost predicate FromEntry(entries: map<string, Learned.LearnedEntry>, bc: Tunnel, k: string, v: Tunnel) {
    k in Learned.MatchingKeys(entries, bc.id) && Learned.Rebuilt(bc, entries[k]) == Some(v)
  }

  /** The rebuilt entries of this base, in this order of their keys. */
  ghost predicate RebuiltInOrder(entries: map<string, Learned.LearnedEntry>, bc: Tunnel, order: seq<string>,
                                 out: seq<Tunnel>) {
    && |out| == (if Learned.Rebuildable(bc) then |order| else 0)
    && forall n :: 0 <= n < |out| ==> order[n] in entries && Learned.Rebuilt(bc, entries[order[n]]) == Some(out[n])
  }

  /** The keys of all entries of this base that ever worked, once each, the most successful first. */
  ghost predicate ByCountOnce(entries: map<string, Learned.LearnedEntry>, baseID: string, order: seq<string>) {
    && multiset(order) == multiset(Learned.MatchingKeys(entries, baseID))
    && Sorting.Descending(order, Learned.ByCount(entries))
  }

  /** Every entry of this base that ever worked, once each and rebuilt, the most successful first. */
  ghost predicate CandidatesOf(entries: map<string, Learned.LearnedEntry>, bc: Tunnel, out: seq<Tunnel>) {
    exists order :: ByCountOnce(entries, bc.id, order) && RebuiltInOrder(entries, bc, order, out)
  }

  /** The candidates of these bases, one base after the other. */
  ghost predicate AllLearned(entries: map<string, Learned.LearnedEntry>, bases: seq<Tunnel>, learned: seq<Tunnel>) {
    if bases == [] then learned == [] else
      var n := |bases| - 1;
      exists m :: 0 <= m <= |learned|
        && AllLearned(entries, bases[..n], learned[..m]) && CandidatesOf(entries, bases[n], learned[m..])
  }

  lemma LearnedStep(entries: map<string, Learned.LearnedEntry>, bases: seq<Tunnel>, i: nat, learned: seq<Tunnel>,
                    more: seq<Tunnel>)
    requires i < |bases| && AllLearned(entries, bases[..i], learned) && CandidatesOf(entries, bases[i], more)
    ensures AllLearned(entries, bases[..i + 1], learned + more)
  {
    var m := |learned|;
    assert bases[..i + 1][..i] == bases[..i];
    assert (learned + more)[..m] == learned && (learned + more)[m..] == more;
  }

  lemma SameMembers(order: seq<string>, keys: set<string>, k: string)
    requires multiset(order) == multiset(keys) && k in order
    ensures k in keys
  {
    assert k in multiset(order);
  }

  lemma CandidateOrigin(entries: map<string, Learned.LearnedEntry>, bc: Tunnel, out: seq<Tunnel>, v: Tunnel)
    returns (k: string)
    requires CandidatesOf(entries, bc, out) && v in out
    ensures FromEntry(entries, bc, k, v)
  {
    var order :| ByCountOnce(entries, bc.id, order) && RebuiltInOrder(entries, bc, order, out);
    var n :| 0 <= n < |out| && out[n] == v;
    k := order[n];
    SameMembers(order, Learned.MatchingKeys(entries, bc.id), k);
  }

  /** Every learned variant belongs to one of the bases. */
  lemma {:induction false} LearnedOrigin(entries: map<string, Learned.LearnedEntry>, bases: seq<Tunnel>,
                                         learned: seq<Tunnel>, v: Tunnel) returns (bc: Tunnel, k: string)
    requires AllLearned(entries, bases, learned) && v in learned
    ensures bc in bases && FromEntry(entries, bc, k, v)
  {
    var n := |bases| - 1;
    var m :| 0 <= m <= |learned|
      && AllLearned(entries, bases[..n], learned[..m]) && CandidatesOf(entries, bases[n], learned[m..]);
    if v in learned[..m] {
      bc, k := LearnedOrigin(entries, bases[..n], learned[..m], v);
    } else {
      bc := bases[n];
      k := CandidateOrigin(entries, bc, learned[m..], v);
    }
  }

  method LearnedVariants(bases: seq<Tunnel>, learnedDB: Learned.LearnedDB) returns (learned: seq<Tunnel>)
    ensures AllLearned(learnedDB.entries, bases, learned)
  {
    learned := [];
    for i := 0 to |bases|
      invariant AllLearned(learnedDB.entries, bases[..i], learned)
    {
      var candidates, order := learnedDB.GetCandidates(bases[i].id, bases[i]);
      assert ByCountOnce(learnedDB.entries, bases[i].id, order);
      assert RebuiltInOrder(learnedDB.entries, bases[i], order, candidates);
      LearnedStep(learnedDB.entries, bases, i, learned, candidates);
      learned := learned + candidates;
    }
    assert bases[..|bases|] == bases;
  }

  // ---- The pool ----

  ghost predicate IsPool(cfg: EngineCfg, req: Request, entries: map<string, Learned.LearnedEntry>, pool: seq<Tunnel>) {
    exists learned: seq<Tunnel> ::
      pool == learned + req.bases + Fresh(cfg, req, |req.bases|) && AllLearned(entries, req.bases, learned)
  }

  /** Learned variants first, then the bases, then fresh variants. */
  method BuildPool(cfg: EngineCfg, req: Request, learnedDB: Learned.LearnedDB) returns (pool: seq<Tunnel>)
    ensures IsPool(cfg, req, learnedDB.entries, pool)
  {
    var known := LearnedVariants(req.bases, learnedDB);
    pool := known + req.bases;
    if cfg.autoTune {
      var more := FreshVariants(cfg, req);
      pool := pool + more;
    } else {
      assert pool + [] == pool;
    }
    assert pool == known + req.bases + Fresh(cfg, req, |req.bases|) && AllLearned(learnedDB.entries, req.bases, known);
  }

  /** A variant whose record would sit under its own key. */
  predicate WellNamed(entries: map<string, Learned.LearnedEntry>, v: Tunnel) {
    v.isVariant ==> v.id in entries || Learned.HasSuffixPart(v.id, v.baseConfigID)
  }

  lemma GeneratedIsNamed(bc: Tunnel, hint: BlockType, maxVariants: int, dice: Variants.Dice, i: nat)
    requires i < |Variants.Generated(bc, hint, maxVariants, dice)|
    ensures var v := Variants.Generated(bc, hint, maxVariants, dice)[i];
      Learned.HasSuffixPart(v.id, v.baseConfigID) && v.id != ""
  {
  }

  lemma EntryNamesVariant(entries: map<string, Learned.LearnedEntry>, bc: Tunnel, k: string, v: Tunnel)
    requires Store.Keyed(entries, Learned.EntryKey) && FromEntry(entries, bc, k, v)
    ensures v.id == k && k in entries
  {
  }

  /** No configuration and no variant in the pool has an empty ID, and every variant is named after its base. */
  lemma PoolNames(cfg: EngineCfg, req: Request, entries: map<string, Learned.LearnedEntry>, pool: seq<Tunnel>,
                  v: Tunnel)
    requires IsPool(cfg, req, entries, pool) && v in pool
    ensures (forall bc :: bc in req.bases ==> bc.id != "") ==> v.id != ""
    ensures Store.Keyed(entries, Learned.EntryKey) && (forall bc :: bc in req.bases ==> !bc.isVariant) ==>
      WellNamed(entries, v)
  {
    var learned: seq<Tunnel> :|
      pool == learned + req.bases + Fresh(cfg, req, |req.bases|) && AllLearned(entries, req.bases, learned);
    if v in learned {
      var bc, k := LearnedOrigin(entries, req.bases, learned, v);
      Learned.RebuiltID(bc, entries[k]);
      if Store.Keyed(entries, Learned.EntryKey) {
        EntryNamesVariant(entries, bc, k, v);
      }
    } else if v !in req.bases {
      var b, i := FreshOrigin(cfg, req, |req.bases|, v);
      GeneratedIsNamed(req.bases[b], req.hint, cfg.maxVariants, req.dice(b), i);
    }
  }
}
