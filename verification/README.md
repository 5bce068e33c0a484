# VPN failover daemon: a model with proofs

This project models the control logic of a VPN failover daemon for routers, and the small
algorithms it depends on, in Dafny, and proves properties of it for all inputs and all runs.

The daemon probes the connection on a timer. After enough failed probes it goes from HEALTHY over
DEGRADED to PROBING, brings up every candidate tunnel concurrently, measures each through its own
routing table, tears the test tunnels down again, ranks the ones that answered, and tries them one
after the other until one comes up and is verified. Candidates are the configured tunnels, variants
of them that are harder for deep packet inspection to recognise, and variants that worked before.
A state file survives crashes. A web interface imports, saves and edits the configurations.

| module | what it models |
|---|---|
| `StateMachine`, `Control`, `Watchdog`, `Histories` | the state machine with its state file, runs of the daemon as a step system with crashes and restarts, and the event loop, every tick of which is a path of that step system |
| `Switch`, `ParallelProbe`, `Pool`, `Attempts` | the switch engine: candidate pool, probe goroutines in any interleaving, ranking, attempt loop |
| `Probe`, `Scoring`, `Sorting`, `Store` | aggregation of a probe round, the scoring database, sorting with ties in any order, maps saved as lists |
| `Variants`, `VariantObjects`, `Endpoint` | the DPI variants as values and as objects on the heap, endpoints split and joined |
| `Selector`, `Partition`, `CompatSafety` | selection of variants by profile, stable bucket partition, and both generation and selection together |
| `Learned` | the database of variants that worked |
| `Vless`, `Tables`, `Policy` | kernel routing with rollback, table and mark derivation, the nft and iptables backends |
| `RateLimiter` | the call budget of the AI advisor |
| `AwgConf`, `Ids`, `Text`, `Decimal` | the AmneziaWG file as printed, imported and saved, the IDs of a batch import, text helpers |
| `Config`, `Options` | tunnel configurations as values, the optional value |

What the source does in place is a class with methods here (`Machine`, `DB`, `Engine`, `Watchdog`,
`LearnedDB`, `VLESSManager`, the two firewall managers, the rate limiter, the configuration
directory, the variant objects), proved against functions on values about which the lemmas speak.
Outcomes of probes, of bringing tunnels up, of verifying, of commands and file writes, random
headers, map orders, ties in sorting and the interleaving of goroutines are free choices or
parameters. Times are integers that never run backwards; floating-point numbers are reals, and
exp(-n/6) is q^n for an arbitrary 0 < q < 1.

## What the proofs found

Where a property one would expect is false of the code, the model keeps the code and proves exactly
when the property holds.

- A crash while a candidate is on trial leaves SWITCHING in the state file, and no restart ever
  leaves it again (`Control.StuckForever`). Whatever the thresholds, a run from the very first start
  can get there (`Control.StuckIsReachable`), and a tick meets SWITCHING exactly when such a crash
  happened (`Control.SwitchingSeenIff`).
- The first recorded DPI bypass lowers a score, because it replaces a neutral 0.5 by 0.3; later
  ones never do (`Scoring.DPISuccessDirection`). So the first verified attempt under a block lowers the
  score exactly when the reliability gains little, and always on a new configuration
  (`Scoring.FirstSuccessLowersIff`).
- For base IDs without a colon, the compat profile lets a moderate or aggressive obfuscation profile
  through exactly under a guard on the base and the hint that can only hold when the cap on variants is
  1 or 2 (`CompatSafety.CompatPicksStrongIff`).
- The learned database does not store ports, paths, ECH or headers, and keeps an old MTU when a variant
  has none. Whatever the database holds, a variant comes back exactly when all it changed is stored and
  its entry, if there is one already, is of the same base and holds no MTU that the variant leaves open
  (`Learned.LearnedRoundTripIff`, with the failing case `Learned.StaleMTU`). If its persistent copy
  cannot be written, a readable old one wins over the newer copy after a restart (`Learned.LearnedDB.Save`).
- A probe whose deadline passes while its tunnel settles takes it down with commands that the expired
  context keeps from starting, and the tear-down skips failed probes: the tunnel stays up
  (`ParallelProbe.ExpiredStaysUp`). A switch leaves nothing up but the returned tunnel exactly when what
  failed probes left up was up before (`Switch.NothingLeftIff`).
- After a Clear the two firewall backends disagree unless nothing else was marked
  (`Policy.BackendsAfterClear`); a failed switch after a successful one is such a case.
- Saving an imported AmneziaWG file turns Jc, Jmin or Jmax of 0 into 4, 40 or 70
  (`AwgConf.PrintImportSave`).
- The comment in `variants.go` says identical AmneziaWG settings are skipped. The comparison leaves
  out S1, S2, H3 and H4 and uses the fixed headers of the profile, while the variant gets random ones.
  So a variant may repeat its base (`Variants.MayRepeatIff`), a base may be taken for a profile it is
  not (`Variants.SkippedUnlikeProfileIff`), and a profile may be skipped although no roll of the
  headers would repeat the base (`Variants.SkippedInVainIff`); each exactly under a condition on the base.
- Changing the port of an endpoint loses its host exactly when the host has a colon and a bracket
  (`Endpoint.RePortKeepsHostIff`); "[[::1]]:443" is such an endpoint (`Endpoint.DoubleBracketsLost`).
- A VLESS Up keeps kernel and processes consistent exactly when the tunnel was down and what it had set
  up before failing could be rolled back (`Vless.UpConsistentIff`); a Down exactly when the tunnel was
  down already or all its commands take effect (`Vless.DownConsistentIff`). After a deadline they do not.
  Two tunnels leave each other's entries alone exactly when their tables and their redirects differ
  (`Vless.DownLeavesOtherIff`, `Vless.UpLeavesOtherIff`), and all runs of a set of configurations in which
  roll-backs and Downs take effect stay consistent exactly when that holds of every two of them
  (`Vless.RunsConsistentIff`).

## Model

| member | source | states |
|---|---|---|
| `StateMachine.Machine.constructor` | daemon/internal/state/machine.go:51-73 | a new machine has the state, active ID and last switch of the state file and both counters at zero, or the healthy start if there is no readable file |
| `StateMachine.Machine.Load` | daemon/internal/state/machine.go:60-73 | reading back restores exactly what the file holds |
| `StateMachine.Machine.Save` | daemon/internal/state/machine.go:75-86 | the file becomes the projection of memory |
| `StateMachine.Machine.RecordSuccess` | daemon/internal/state/machine.go:124-134 | the whole new memory and file after a successful probe |
| `StateMachine.Machine.RecordFailure` | daemon/internal/state/machine.go:138-164 | the whole new memory and file after a failed probe, and the state returned |
| `StateMachine.Machine.EnterSwitching` | daemon/internal/state/machine.go:167-174 | SWITCHING is entered and counted, in memory and file |
| `StateMachine.Machine.SwitchSucceeded` | daemon/internal/state/machine.go:177-187 | the new active ID and switch time, counters at zero, saved |
| `StateMachine.Machine.SwitchFailed` | daemon/internal/state/machine.go:191-206 | back to PROBING; says "retry" exactly while attempts are left, and resets the counter otherwise |
| `StateMachine.Machine.InCooldown` | daemon/internal/state/machine.go:217-221 | true exactly within the cooldown after the last switch |
| `Control.RestartReproduces` | daemon/internal/state/machine.go:60-86 | over all runs the file equals the projection of memory, so a restart at any point reproduces state, active ID and last switch with zero counters |
| `Control.AntiFlapping` | daemon/internal/state/machine.go:138-164 | over all runs with crashes and restarts anywhere: between two successful switches lie D + P failed probes in a row, none of them before the cooldown of the first switch is over |
| `Control.SinceSwitchHolds` | daemon/internal/watchdog/watchdog.go:131-156 | the invariant behind it: what the failure counter of every state since the last switch stands for |
| `Control.FailureRowAdvances` | daemon/internal/state/machine.go:138-164 | n failed probes in a row take a healthy machine exactly as far as the two thresholds say |
| `Control.CalmHolds` | daemon/internal/watchdog/watchdog.go:114-128 | between ticks SWITCHING is never seen and the DPI-done flag is false in HEALTHY and DEGRADED, unless a crash hit a candidate on trial |
| `Control.StuckForever` | daemon/internal/state/machine.go:60-73 | a run in SWITCHING between ticks never leaves it, restarts included |
| `Control.StuckIsReachable` | daemon/internal/switch/switch.go:176-179 | for all thresholds a run from a first start gets stuck: D + P failed probes, and a crash while the first candidate is on trial |
| `Control.SwitchingSeenIff` | daemon/internal/watchdog/watchdog.go:125-127 | a tick meets SWITCHING exactly when a crash hit a candidate on trial earlier |
| `Control.DetectOnce` | daemon/internal/watchdog/watchdog.go:171-194 | two detections of one run have a successful switch or a restart between them |
| `Control.AttemptsCycle` | daemon/internal/state/machine.go:155-206 | after n failed switches the attempt counter is n mod max across any number of ticks, 1 to max in SWITCHING, and "give up" comes exactly on every max-th failure |
| `Attempts.SwitchLeavesUp` | daemon/internal/switch/switch.go:169-235 | for every outcome of the attempts no tunnel is up that was not, except the returned one, and a returned one is up |
| `Attempts.ActiveChangesOnSuccess` | daemon/internal/switch/switch.go:176-235 | the active ID and the switch time change only with a verified success, which makes the returned ID active |
| `Attempts.CountersGrow` | daemon/internal/switch/switch.go:178-217 | the session counter of every configuration grows by the number of its attempts, and by nothing else |
| `Attempts.BooksBalance` | daemon/internal/switch/switch.go:169-235 | state machine, scores and tunnels after n attempts are the three folds over those attempts |
| `Attempts.SwitchIsPath` | daemon/internal/switch/switch.go:164-238 | for every outcome a switch that starts in PROBING is a path of the step system, so all run properties hold of the engine |
| `ParallelProbe.StepKeepsInv` | daemon/internal/switch/switch.go:286-333 | whichever goroutine runs next and whatever happens to it, deadline included, every tunnel that is up was up before or is held by a goroutine, what is held is up unless a failing Up took it down, and the active one is untouched |
| `Switch.Engine.Advance` | daemon/internal/switch/switch.go:297-333 | one step of a probe goroutine: bring up, settle, measure; an expired one stays up, a failing Up may leave something, and the active tunnel is measured without being brought up |
| `Switch.Engine.ParallelProbe` | daemon/internal/switch/switch.go:278-295 | for every interleaving: the active tunnel and all outside the pool are untouched, and what is up besides was up before or belongs to a candidate that was measured or left up |
| `Switch.Engine.TearDown` | daemon/internal/switch/switch.go:116-127 | exactly the successfully probed tunnels other than the active one are taken down |
| `ParallelProbe.TearDownLeaves` | daemon/internal/switch/switch.go:116-127 | after probe and tear-down together, duplicate IDs in the pool included, only that is up which was up before or which failed probes left up, and the latter is unless a failing Up of the same tunnel may have taken it down |
| `ParallelProbe.ExpiredStaysUp` | daemon/internal/switch/switch.go:316-327 | two steps of one goroutine after which its tunnel is up and no tear-down takes it down |
| `Switch.Engine.RecordProbes` | daemon/internal/switch/switch.go:129-134 | every result without an error is recorded, in order |
| `Switch.Engine.CollectViable` | daemon/internal/switch/switch.go:136-142 | the configurations whose probe succeeded, in order |
| `Pool.BuildPool` | daemon/internal/switch/switch.go:74-97 | base by base the learned variants that ever worked, once each and the most successful first; then the bases; then the selected fresh variants of each base |
| `Pool.FilterVariantsByProfile` | daemon/internal/switch/switch.go:242-273 | the profile's selection, with compat forced below a confidence of 0.4 |
| `Switch.Engine.FailedAttempt` | daemon/internal/switch/switch.go:174-210 | everything an attempt changes whose candidate does not come up or is not verified |
| `Switch.Engine.WorkingAttempt` | daemon/internal/switch/switch.go:174-235 | everything a verified attempt changes |
| `Switch.Engine.ApplyBest` | daemon/internal/switch/switch.go:164-238 | the attempt loop returns the first candidate that comes up and is verified within the allowed attempts, or "", and changes exactly what those attempts change |
| `Switch.Engine.ProbeAndSwitch` | daemon/internal/switch/switch.go:61-238 | for every interleaving and every outcome it refines `IsSwitch`: rank the viable candidates by the scores after all probe results are recorded, take the first of the allowed attempts that works, book exactly those attempts; without configurations nothing happens |
| `Switch.SwitchUpSet` | daemon/internal/switch/switch.go:116-235 | after a switch only tunnels are up that were up before, that failed probes left up, or that was returned, and a returned one is up |
| `Switch.NothingLeftIff` | daemon/internal/switch/switch.go:116-333 | nothing is up besides what was and the returned tunnel exactly when what failed probes left up, and no failing Up of the same tunnel took down again, was up before |
| `Switch.UntriedScoreNoHigher` | daemon/internal/switch/switch.go:136-172 | every candidate that answered the probe and was not tried scores no higher, once all probes are recorded, than any that was tried |
| `Switch.SessionsBooked` | daemon/internal/switch/switch.go:129-217 | the session counter of every ID in the database grows by the attempts on it, probing books none, and only the last session can be a success, for the returned ID |
| `Switch.SwitchKeepsSane` | daemon/internal/scoring/scoring.go:69-117 | a switch keeps every average of the database in range, so all scores that are compared lie strictly between 9 and 99.25 |
| `Switch.ScoresStayKeyed` | daemon/internal/scoring/scoring.go:190-221 | a switch keeps every score under its own ID |
| `Pool.PoolNames` | daemon/internal/switch/switch.go:74-97 | no candidate has an empty ID if no base has, and every variant is named after its base or was learned |
| `Switch.LearnedStaysKeyed` | daemon/internal/switch/switch.go:221-225 | whatever is learned from a switch keeps every record under its own key |
| `Switch.WinnerHasID` | daemon/internal/switch/switch.go:230-238 | "" is returned exactly when nothing worked |
| `ParallelProbe.ProbeInterfaceFits` | daemon/internal/switch/switch.go:301-307 | the interface name of a probed variant always has six characters |
| `Watchdog.Watchdog.constructor` | daemon/internal/watchdog/watchdog.go:45-75 | a first process starts a run from the state file |
| `Watchdog.Watchdog.Restarted` | daemon/internal/watchdog/watchdog.go:45-75 | a new process over the file of a run stopped anywhere continues that run with a restart |
| `Watchdog.Watchdog.DoProbe` | daemon/internal/watchdog/watchdog.go:131-156 | exactly one event of the step system: a skip in the cooldown, else a success or a failure by the majority of the probes |
| `Watchdog.Watchdog.DoSwitch` | daemon/internal/watchdog/watchdog.go:160-229 | detection replaces the stored result only the first time in an episode, the engine is asked with the hint gated at a confidence of 0.6, and the events appended are those of that very run of the engine |
| `Watchdog.Watchdog.Tick` | daemon/internal/watchdog/watchdog.go:114-128 | every tick, with every outcome left open, extends the run by events of the step system: one for a probe, a skip, or those of the engine's run; what the engine did is logged, nothing else changes the scores, the learned variants and the tunnels, and the scores stay in range and under their IDs |
| `Watchdog.TunnelsAccounted` | daemon/internal/watchdog/watchdog.go:114-229 | over all ticks of a process every tunnel that is up was up at the start, was returned by a switch or was left up by a failed probe; the scores stay in range and under their own IDs |
| `Watchdog.DaemonNeverFlaps` | daemon/internal/watchdog/watchdog.go:114-229 | the trace of the daemon has the anti-flapping property |
| `Watchdog.StopsAnywhere` | daemon/internal/watchdog/watchdog.go:78-112 | a run may stop after any of its events, also inside a switch |
| `Probe.Tally` | daemon/internal/probe/probe.go:381-400 | counts of successes, total time and failures by kind |
| `Probe.DominantError` | daemon/internal/probe/probe.go:405-418 | an error of maximal count, in whatever order the map is walked |
| `Probe.Aggregate` | daemon/internal/probe/probe.go:381-426 | loss is the fraction of failures, success means loss below one half, the average lies between the fastest and the slowest success, the dominant error has a maximal count |
| `Probe.TotalBetween` | daemon/internal/probe/probe.go:389-412 | the total time lies between the fastest and the slowest success times their number |
| `Scoring.DB.RecordProbeResult` | daemon/internal/scoring/scoring.go:190-206 | the new entry of this configuration, all others unchanged |
| `Scoring.DB.RecordSession` | daemon/internal/scoring/scoring.go:209-221 | the new entry of this configuration, all others unchanged |
| `Scoring.DB.RecordDPIResult` | daemon/internal/scoring/scoring.go:106-117 | the new entry of this configuration, all others unchanged |
| `Scoring.DB.Rank` | daemon/internal/scoring/scoring.go:224-247 | a permutation by descending score, unknown IDs scored as new entries, ties in any order, the database unchanged |
| `Scoring.ReachableIsSane` | daemon/internal/scoring/scoring.go:190-221 | over all sequences of updates: loss in [0,1], round-trip average 0 or at least 1, session average in (0,1) and 1/2 without sessions |
| `Scoring.SessionDirection` | daemon/internal/scoring/scoring.go:69-102 | on every reachable entry a successful session never lowers the score and a failed one never raises it, although the confidence weight moves too |
| `Scoring.ConfidenceGrowth` | daemon/internal/scoring/scoring.go:88-95 | one more session never lowers the sample confidence and at most doubles it |
| `Scoring.DPISuccessDirection` | daemon/internal/scoring/scoring.go:69-117 | a DPI bypass keeps or raises the score exactly when there is DPI history |
| `Scoring.DPIFailureDirection` | daemon/internal/scoring/scoring.go:106-117 | a failed DPI bypass never raises the score |
| `Scoring.AttemptDirection` | daemon/internal/switch/switch.go:178-217 | a failed attempt never raises the score, and a verified one never lowers it once there is DPI history or when no block was detected |
| `Scoring.FirstSuccessLowersIff` | daemon/internal/switch/switch.go:211-219 | without DPI history a verified attempt under a block lowers the score exactly when the reliability gains less than 0.48 times the session average, which is always so on a new entry |
| `Scoring.ScoreBounds` | daemon/internal/scoring/scoring.go:69-102 | every reachable score lies strictly between 9 and 99.25 |
| `Scoring.RTTBetweenSamples` | daemon/internal/scoring/scoring.go:190-206 | the round-trip average lies between the extremes of its samples, and is 0 exactly without one |
| `Scoring.GapShrinks` | daemon/internal/scoring/scoring.go:190-221 | k equal outcomes leave a gap of exactly 0.7^k times the old one in every average |
| `Scoring.ScoresSurviveRestart` | daemon/internal/scoring/scoring.go:136-167 | the saved list, in any order, reads back as the same database |
| `Sorting.SortDescending` | daemon/internal/scoring/scoring.go:236-240 | a permutation in descending order, ties in any order |
| `Store.ListEntries` | daemon/internal/dpi/persist.go:161-167 | every record once, in the order the map is walked |
| `Store.LoadEntries` | daemon/internal/dpi/persist.go:149-158 | later records replace earlier ones under the same computed key |
| `Store.SaveLoadIdentity` | daemon/internal/dpi/persist.go:144-184 | for a map whose records sit under their own keys, save then load is the identity in any list order |
| `Variants.PathSlugs` | daemon/internal/dpi/variants.go:290-312 | the names of the path variants are the same for every transport that has paths |
| `Variants.SlugInjective` | daemon/internal/dpi/variants.go:84-381 | different mutations of one base have different names |
| `Variants.GeneratedIDs` | daemon/internal/dpi/variants.go:60-80 | generated IDs are pairwise distinct, start with the base ID and ":dpi:", and never exceed the cap |
| `Variants.EndpointVariantsKeepHostIff` | daemon/internal/dpi/variants.go:314-358 | an endpoint-port variant has a different port, and the host of its base exactly when that has no colon or no bracket |
| `Variants.KeptMutationChanges` | daemon/internal/dpi/variants.go:84-278 | every kept mutation other than an AmneziaWG profile changes the configuration |
| `Variants.MayRepeatIff` | daemon/internal/dpi/variants.go:121-143 | some roll of the headers makes a kept profile repeat its base exactly when the base has all junk parameters of the profile, headers that can be rolled, and not both fixed ones |
| `Variants.SkippedInVainIff` | daemon/internal/dpi/variants.go:121-143 | a profile is skipped although every roll would change the base exactly when the five compared values agree and S1 or S2 does not, or H3 or H4 cannot be rolled |
| `Variants.SkippedUnlikeProfileIff` | daemon/internal/dpi/variants.go:121-128 | a profile is skipped for a base that is not that profile exactly when the five compared values agree and S1, S2, H3 or H4 does not |
| `Variants.KeptMembers` | daemon/internal/dpi/variants.go:84-381 | kept are exactly the mutations of the menu that apply and are not the current value |
| `VariantObjects.CloneWG` | daemon/internal/dpi/variants.go:408-418 | an equal configuration with its own WireGuard section |
| `VariantObjects.CloneAWG` | daemon/internal/dpi/variants.go:420-430 | an equal configuration with its own AmneziaWG section |
| `VariantObjects.CloneVLESS` | daemon/internal/dpi/variants.go:432-440 | an equal configuration with its own VLESS section |
| `VariantObjects.GenerateVariants` | daemon/internal/dpi/variants.go:60-278 | new objects holding exactly the generated values, while the base and everything it points to stay as they were |
| `Endpoint.SplitAfterJoin` | daemon/internal/dpi/variants.go:383-404 | for bracket-free hosts and valid ports, split after join gives the host and the port back |
| `Endpoint.UnbracketedSplits` | daemon/internal/dpi/variants.go:383-400 | an IPv6 address without brackets splits at the last colon |
| `Endpoint.RoundTripExactly` | daemon/internal/dpi/variants.go:383-404 | for arbitrary non-empty hosts, exactly which ones survive join and split |
| `Endpoint.RePortKeepsHostIff` | daemon/internal/dpi/variants.go:314-358 | for every endpoint that splits, a new port keeps the host exactly when the host has no colon or no bracket |
| `Endpoint.DoubleBracketsLost` | daemon/internal/dpi/variants.go:383-404 | an address in two pairs of brackets is accepted, and loses its host with any new port |
| `Endpoint.NewPortDiffers` | daemon/internal/dpi/variants.go:383-404 | a different port always gives a different endpoint, whatever the host |
| `Partition.StablePartition` | daemon/internal/strategy/selector.go:79-89 | all buckets together are a permutation, ordered by rank and then by position |
| `Selector.FirstMatchMeaning` | daemon/internal/strategy/selector.go:126-137 | the rank of a variant is the index of the first pattern its ID contains |
| `Selector.AppendUnique` | daemon/internal/strategy/selector.go:139-152 | the loop with its set of seen IDs appends each new ID once |
| `Selector.MatchByPattern` | daemon/internal/strategy/selector.go:126-137 | the variants whose ID contains the pattern, in order; none for an empty pattern |
| `Selector.SelectByPatterns` | daemon/internal/strategy/selector.go:79-84 | the pattern pass is the matched part of the stable partition, and of repeated IDs the first counts |
| `Selector.AggressiveSelect` | daemon/internal/strategy/selector.go:79-89 | the whole stable partition, for arbitrary input |
| `Selector.AggressiveIsStablePartition` | daemon/internal/strategy/selector.go:79-152 | that partition is a permutation of the variants, ordered by first matching pattern and then by position |
| `Selector.BalancedSelect` | daemon/internal/strategy/selector.go:63-77 | for arbitrary input the first six of the stable order, without the aggressive AmneziaWG variants that no pattern asks for, unless the hint is protocol |
| `Selector.CompatSelect` | daemon/internal/strategy/selector.go:46-61 | the first three of the cautiously matched part, of the fallback, or the first variant: never none |
| `Selector.SelectVariants` | daemon/internal/strategy/selector.go:16-44 | the selection of the effective profile and reason, for arbitrary input |
| `Selector.DistinctIsDeduped` | daemon/internal/strategy/selector.go:139-152 | with distinct IDs nothing is left out as repeated |
| `Selector.SelectionInside` | daemon/internal/strategy/selector.go:16-89 | every profile only selects |
| `CompatSafety.PatternIsPrefix` | daemon/internal/strategy/selector.go:126-163 | on IDs of a base without colon a pattern is a prefix test on the name of the mutation |
| `CompatSafety.CompatPicksStrongIff` | daemon/internal/strategy/selector.go:30-61 | under compat or a confidence below 0.4, a moderate or aggressive profile is selected exactly when the guard `Slips` holds, whatever the reason; never unless the cap is 1 or 2 |
| `CompatSafety.CompatSafeIff` | daemon/internal/strategy/selector.go:46-61 | for a fixed cap, no input selects such a profile exactly when the cap is neither 1 nor 2 |
| `CompatSafety.BalancedIsOrderCut` | daemon/internal/strategy/selector.go:63-77 | for generated variants the balanced selection is the first six of the stable order by first match, without the aggressive profile exactly when the hint is not protocol and the reason has no "protocol_" prefix |
| `Learned.KeyedAfterIff` | daemon/internal/dpi/persist.go:53-64 | a recorded variant keeps the database keyed exactly when its ID was there or extends its base's |
| `Learned.LoadedIsKeyed` | daemon/internal/dpi/persist.go:144-159 | whatever list is read back, every record sits under its own key |
| `Learned.LearnedRoundTripIff` | daemon/internal/dpi/persist.go:53-270 | a generated variant that is recorded in any keyed database and rebuilt from its unchanged base is the same variant, up to the interface name, exactly when `Recoverable` holds and its entry, if there is one, is of this base and holds no MTU that the variant leaves open |
| `Learned.StaleMTU` | daemon/internal/dpi/persist.go:65-71 | a fingerprint learned with an MTU and again without one is rebuilt with the old MTU |
| `Learned.AwgRoundTripIff` | daemon/internal/dpi/persist.go:255-267 | whatever the database holds, an AmneziaWG profile comes back with its junk parameters and the headers of the base exactly when its entry, if there is one, is of this base and holds no MTU that the variant leaves open |
| `Learned.EndpointLost` | daemon/internal/dpi/persist.go:208-270 | an endpoint-port variant never comes back |
| `Learned.RelearnedIsStable` | daemon/internal/dpi/persist.go:53-270 | a rebuilt variant that works again is rebuilt to the same configuration |
| `Learned.LearnedDB.constructor` | daemon/internal/dpi/persist.go:41-50 | the persistent copy if readable, otherwise the runtime copy, always keyed |
| `Learned.LearnedDB.Save` | daemon/internal/dpi/persist.go:161-184 | a new process finds the same entries if the persistent copy was written; a readable old copy wins otherwise |
| `Learned.LearnedDB.RecordSuccess` | daemon/internal/dpi/persist.go:53-83 | exactly the entry of this variant changes, and the files with it; nothing for a configuration that is no variant |
| `Learned.LearnedDB.GetCandidates` | daemon/internal/dpi/persist.go:88-113 | every entry of this base that ever worked, once each, rebuilt, most successful first |
| `Vless.VLESSManager.SetupRouting` | daemon/internal/tunnel/vless.go:206-237 | all three entries or, when a command fails, what the roll-back commands leave |
| `Vless.VLESSManager.TeardownRouting` | daemon/internal/tunnel/vless.go:239-254 | exactly those of this configuration's entries are removed whose command takes effect |
| `Vless.VLESSManager.KillProc` | daemon/internal/tunnel/vless.go:171-191 | the process and its map entry are gone |
| `Vless.VLESSManager.Up` | daemon/internal/tunnel/vless.go:90-144 | the whole new state for every combination of failing steps |
| `Vless.VLESSManager.Down` | daemon/internal/tunnel/vless.go:147-150 | the whole new state for every combination of failing commands |
| `Vless.FailedUpRestoresIff` | daemon/internal/tunnel/vless.go:90-144 | a failing Up leaves rules, routes, redirects, processes and the map as they were exactly when what it had set up is rolled back |
| `Vless.DownUndoesUpIff` | daemon/internal/tunnel/vless.go:90-150 | Down undoes Up exactly, the order of the redirects included, when all its commands take effect, and only then |
| `Vless.RunsStayConsistent` | daemon/internal/tunnel/vless.go:90-254 | over all sequences of Up and Down with all outcomes but failing roll-backs and Downs, kernel entries exist exactly for the IDs in the map, if no two configurations share a table or a redirect |
| `Vless.UpConsistentIff` | daemon/internal/tunnel/vless.go:90-144 | for every outcome of every step, one Up keeps all consistent exactly when the tunnel was down and what was set up before a failure is rolled back |
| `Vless.DownConsistentIff` | daemon/internal/tunnel/vless.go:147-150 | for every outcome of every command, one Down keeps all consistent exactly when the tunnel was down already or all commands take effect |
| `Vless.DownLeavesOtherIff` | daemon/internal/tunnel/vless.go:239-254 | a Down leaves the entries of another tunnel, which is up, alone exactly when the commands that take effect are about other tables and redirects |
| `Vless.UpLeavesOtherIff` | daemon/internal/tunnel/vless.go:206-237 | so does an Up, whether the other is up or down |
| `Vless.RunsConsistentIff` | daemon/internal/tunnel/vless.go:90-254 | all runs of a set of configurations, roll-backs and Downs taking effect, keep kernel entries exactly for the IDs in the map if and only if tables and redirects differ for every two of them |
| `Tables.RoutingTableID` | daemon/internal/tunnel/tunnel.go:95-105 | the configured table, or one in 100..199 from the wrapping 64-bit hash |
| `Tables.FWMarkFor` | daemon/internal/switch/switch.go:354-364 | the engine's own copy names the mark the tunnel managers use |
| `Policy.NftManager.ApplySelectors` | daemon/internal/policy/policy.go:268-287 | the set holds exactly the selectors and the chain exactly the mark |
| `Policy.NftManager.Apply` | daemon/internal/policy/policy.go:49-79 | applying without selectors clears |
| `Policy.IptManager.ApplySelectors` | daemon/internal/policy/policy.go:247-266 | the set holds exactly the selectors, and the mark moves to the end of the chain |
| `Policy.IptManager.Clear` | daemon/internal/policy/policy.go:82-96 | the rule goes, and the set with the last rule |
| `Policy.MarksOnce` | daemon/internal/policy/policy.go:247-266 | over all runs the chain holds each mark at most once, the last applied one last |
| `Policy.BackendsAgreeAfterApply` | daemon/internal/policy/policy.go:247-287 | after any operations that end with an Apply both backends mark exactly the last selectors with the last mark |
| `Policy.BackendsAfterClear` | daemon/internal/policy/policy.go:82-96 | after a Clear they agree exactly when no other mark was left or nothing is covered |
| `Policy.FailedSwitchSplitsBackends` | daemon/internal/policy/policy.go:82-96 | a failed switch after a successful one makes them disagree |
| `RateLimiter.Manager.AcquireToken` | daemon/internal/aiadvisor/manager.go:102-118 | the grant and the whole new window; always granted without a budget |
| `RateLimiter.Manager.CallsRemaining` | daemon/internal/aiadvisor/manager.go:52-60 | with a budget never negative, and zero exactly when the next call of this window is refused; without one the configured number |
| `RateLimiter.WindowsApart` | daemon/internal/aiadvisor/manager.go:109-112 | window starts are at least an hour apart |
| `RateLimiter.WindowBudget` | daemon/internal/aiadvisor/manager.go:102-118 | each window grants at most the budget |
| `RateLimiter.SlidingBound` | daemon/internal/aiadvisor/manager.go:102-118 | for all non-decreasing call times any half-open hour holds at most twice the budget |
| `RateLimiter.SlidingBoundIsTight` | daemon/internal/aiadvisor/manager.go:102-118 | and there are call times that reach it |
| `AwgConf.ParseWGConfig` | luci-app/htdocs/luci-static/resources/vpn-watchdog/app.js:504-544 | the line loop fills the form from the two sections |
| `AwgConf.ParseKv` | luci-app/htdocs/luci-static/resources/vpn-watchdog/app.js:508-519 | a printed pair is read as that pair, whatever the value holds besides newlines and outer white space |
| `AwgConf.ParserUndoesPrinter` | daemon/internal/tunnel/amneziawg.go:22-49 | for all trimmed values without newlines, importing a printed file fills every form field with what was printed and detects AmneziaWG |
| `AwgConf.SplitUndoesJoin` | luci-app/htdocs/luci-static/resources/vpn-watchdog/app.js:238 | a non-empty list of trimmed, comma-free allowed IPs is recovered when saving |
| `AwgConf.PrintImportSave` | luci-app/htdocs/luci-static/resources/vpn-watchdog/app.js:232-249 | printed, imported and saved, a configuration comes back exactly when no junk parameter is 0, the keepalive is not negative and there is an allowed IP |
| `Ids.NormalizeIdempotent` | luci-app/htdocs/luci-static/resources/vpn-watchdog/app.js:306-310 | normalising twice is normalising once |
| `Ids.NormalizedIsNormal` | luci-app/htdocs/luci-static/resources/vpn-watchdog/app.js:306-310 | the result is non-empty over [a-z0-9_-] without outer or doubled dashes, or the fallback |
| `Ids.FreeID` | luci-app/htdocs/luci-static/resources/vpn-watchdog/app.js:410-415 | the suffix loop ends after at most as many suffixes as there are taken names, at the first free one |
| `Ids.EnsureUniqueIDs` | luci-app/htdocs/luci-static/resources/vpn-watchdog/app.js:406-423 | in place: pairwise distinct normal IDs, each the first free candidate of its entry, nothing else changed but a default interface name |
| `Ids.SanitizeIsIdentity` | luci-app/luasrc/controller/vpn-watchdog.lua:124-127 | the sanitiser is the identity on these IDs |
| `Ids.ConfigDir.WriteConfigFile` | luci-app/luasrc/controller/vpn-watchdog.lua:148-165 | exactly this file changes, with masked keys kept from the old one; nothing for an empty name or an unwritable path |
| `Ids.ConfigDir.BulkSave` | luci-app/luasrc/controller/vpn-watchdog.lua:207-221 | all entries in order, and which were saved and which failed |
| `Ids.BatchKeepsEntries` | luci-app/luasrc/controller/vpn-watchdog.lua:148-221 | no entry of one import overwrites another: every file ends up as its own entry alone would leave it, and no other file changes |

## Left out

- The AI advisor's provider call, its presets, and the branch of the switch engine that retries with its recommendation: the engine is modelled with the advisor disabled.
- Policy commands inside the switch engine (setting and clearing the firewall mark of a candidate): modelled on their own in `Policy`, not in `Switch`.
- Reloading the configuration on a signal: thresholds, cooldown and limits are fixed during a run.
- Sockets, name resolution, HTTP, TLS and packet marking: only the outcomes of probes and of the detector appear.
- Tunnels are keyed by configuration ID; interface names and table collisions between different IDs do not appear in `Switch` (`Vless.RunsConsistentIff` shows when tables may not be shared).
- In `Switch`, outside the deadline of the parallel probe, an Up brings the tunnel up or fails, and a Down always succeeds; a failing Up may take down a tunnel that was up. Cancelling the daemon during a switch ends the run.
- Writing the state file and scores.json always succeeds; JSON encoding keeps every field. The files of `LearnedDB` may fail to be written.
- The switch engine works on configuration values: the variants are generated as objects (`VariantObjects`), but from there on `Switch` and `Pool` use their values, and the interface name that a probe writes into a shared object is written into the probed value.
- Floating-point rounding and underflow: reals are exact, so an average never reaches 0 or 1 by rounding.
- Overflow of `strconv.Atoi`, of `parseInt` and of durations; the wrap-around of the ID hash is modelled for 64-bit targets, while Go's `int` has 32 bits on many routers, where an ID may get another table between 100 and 199.
- `net.SplitHostPort`, `net.JoinHostPort`, `strconv.Atoi`, `strings.TrimSpace`, and `trim`, `parseInt` and `split` of JavaScript are modelled from their documentation; `parseInt` of a text that starts with 0x is not.
- Lower-casing works on one character at a time; the final sigma of Greek, which JavaScript lower-cases by context, is replaced by a dash either way.
- The plain WireGuard file, the VLESS URI parser and the subscription import: other formats of the same kind.
- `SetActiveConfig`, status snapshots, logging, the attempt log, the preset store, reading settings, and the pages of the web interface.
- Error classification of probes and the detector's decision tables: settled by reading their branches.
