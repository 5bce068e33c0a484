/**
The attempt loop of the switch engine (daemon/internal/switch/switch.go) as functions: what each
attempt does to the state machine, the scores, the learned variants and the tunnels that are up,
how many attempts are made, and what holds afterwards for every outcome of applying and verifying.
*/
module Attempts {
  import opened Options
  import opened Config
  import opened StateMachine
  import opened Scoring
  import Control
  import Learned

  /** The tunnel does not come up, or comes up and is not verified, or works. Times come with it. */
  datatype Outcome =
    | ApplyFails(start: int, drops: bool)   // `drops`: an Up on a tunnel that was up may take it down
    | VerifyFails(start: int)
    | Works(start: int, noted: int, at: int)

  // ---- One attempt ----

  /** SWITCHING is entered for every attempt, and left for HEALTHY or PROBING. */
  function ImgAttempt(img: Image, id: string, o: Outcome, maxAttempts: int): Image {
    if o.Works? then AfterSwitchSucceeded(AfterEnter(img), id, o.at)
    else AfterSwitchFailed(AfterEnter(img), maxAttempts)
  }

  function UpAttempt(up: set<string>, id: string, o: Outcome): set<string> {
    match o
    case ApplyFails(_, drops) => if drops then up - {id} else up
    case VerifyFails(_) => up - {id}
    case Works(_, _, _) => up + {id}
  }

  // ---- The first n attempts, in order of rank ----

  function ImgAfter(img: Image, ranked: seq<Tunnel>, outcome: nat -> Outcome, n: nat, maxAttempts: int): Image
    requires n <= |ranked|
  {
    if n == 0 then img
    else ImgAttempt(ImgAfter(img, ranked, outcome, n - 1, maxAttempts), ranked[n - 1].id, outcome(n - 1), maxAttempts)
  }

  function UpAfter(up: set<string>, ranked: seq<Tunnel>, outcome: nat -> Outcome, n: nat): set<string>
    requires n <= |ranked|
  {
    if n == 0 then up else UpAttempt(UpAfter(up, ranked, outcome, n - 1), ranked[n - 1].id, outcome(n - 1))
  }

  /** The sessions of the first n attempts. */
  function Log(ranked: seq<Tunnel>, outcome: nat -> Outcome, n: nat): (log: seq<Session>)
    requires n <= |ranked|
    ensures |log| == n
    ensures forall i :: 0 <= i < n ==> log[i] == Session(ranked[i].id, outcome(i).start, outcome(i).Works?)
  {
    seq(n, i requires 0 <= i < n => Session(ranked[i].id, outcome(i).start, outcome(i).Works?))
  }

  /** One session, and what it says about the block that was detected. */
  function WithOutcome(entries: map<string, Entry>, sess: Session, hint: BlockType): map<string, Entry> {
    entries[sess.configID := AttemptUpdate(EntryOrDefault(entries, sess.configID), sess.success, sess.startedAt, hint)]
  }

  /** A log of sessions, oldest first. */
  function WithLog(entries: map<string, Entry>, log: seq<Session>, hint: BlockType): map<string, Entry> {
    if log == [] then entries else WithOutcome(WithLog(entries, log[..|log| - 1], hint), log[|log| - 1], hint)
  }

  // ---- All of it at once ----

  /** Everything a failing attempt changes. */
  datatype Books = Books(img: Image, entries: map<string, Entry>, up: set<string>)

  function Attempted(b: Books, tc: Tunnel, o: Outcome, hint: BlockType, maxAttempts: int): Books {
    Books(ImgAttempt(b.img, tc.id, o, maxAttempts), WithOutcome(b.entries, Session(tc.id, o.start, o.Works?), hint),
          UpAttempt(b.up, tc.id, o))
  }

  function AfterAttempts(b: Books, ranked: seq<Tunnel>, outcome: nat -> Outcome, n: nat, hint: BlockType,
                         maxAttempts: int): Books
    requires n <= |ranked|
  {
    if n == 0 then b
    else
      Attempted(AfterAttempts(b, ranked, outcome, n - 1, hint, maxAttempts), ranked[n - 1], outcome(n - 1), hint,
                maxAttempts)
  }

  /** All at once, or the state machine, the database and the tunnels each on its own: the same comes out. */
  lemma {:induction false} BooksBalance(b: Books, ranked: seq<Tunnel>, outcome: nat -> Outcome, n: nat,
                                        hint: BlockType, maxAttempts: int)
    requires n <= |ranked|
    ensures AfterAttempts(b, ranked, outcome, n, hint, maxAttempts)
         == Books(ImgAfter(b.img, ranked, outcome, n, maxAttempts), WithLog(b.entries, Log(ranked, outcome, n), hint),
                  UpAfter(b.up, ranked, outcome, n))
  {
    if n > 0 {
      BooksBalance(b, ranked, outcome, n - 1, hint, maxAttempts);
      assert Log(ranked, outcome, n)[..n - 1] == Log(ranked, outcome, n - 1);
    }
  }

  // ---- The simple specification: take the first that works ----

  function Limit(ranked: seq<Tunnel>, maxAttempts: int): (n: nat)
    requires maxAttempts >= 1
    ensures n <= |ranked| && n <= maxAttempts && (n == |ranked| || n == maxAttempts)
  {
    if |ranked| < maxAttempts then |ranked| else maxAttempts
  }

  /** The first attempt before `limit` that works; `limit` if there is none. */
  function FirstGood(outcome: nat -> Outcome, limit: nat): (g: nat)
    ensures g <= limit && (g < limit ==> outcome(g).Works?)
    ensures forall i: nat :: i < g ==> !outcome(i).Works?
  {
    if limit == 0 then 0 else
      var g := FirstGood(outcome, limit - 1);
      if g < limit - 1 || outcome(limit - 1).Works? then g else limit
  }

  /** How many attempts are made. */
  function Tried(outcome: nat -> Outcome, limit: nat): (n: nat)
    ensures n <= limit
  {
    var g := FirstGood(outcome, limit);
    if g < limit then g + 1 else limit
  }

  function Winner(ranked: seq<Tunnel>, outcome: nat -> Outcome, limit: nat): Option<Tunnel>
    requires limit <= |ranked|
  {
    var g := FirstGood(outcome, limit);
    if g < limit then Some(ranked[g]) else None
  }

  function WinnerID(ranked: seq<Tunnel>, outcome: nat -> Outcome, limit: nat): string
    requires limit <= |ranked|
  {
    var w := Winner(ranked, outcome, limit);
    if w.Some? then w.value.id else ""
  }

  /** The learned variants after a switch: a verified success of a variant, and nothing else, is recorded. */
  function Taught(entries: map<string, Learned.LearnedEntry>, ranked: seq<Tunnel>, outcome: nat -> Outcome, limit: nat)
    : map<string, Learned.LearnedEntry>
    requires limit <= |ranked|
  {
    var g := FirstGood(outcome, limit);
    if g < limit then Learned.Recorded(entries, ranked[g], outcome(g).noted) else entries
  }

  // ---- What the attempts leave behind ----

  lemma {:induction false} FailuresOnlyTakeDown(up: set<string>, ranked: seq<Tunnel>, outcome: nat -> Outcome, n: nat)
    requires n <= |ranked| && forall i: nat :: i < n ==> !outcome(i).Works?
    ensures UpAfter(up, ranked, outcome, n) <= up
  {
    if n > 0 {
      FailuresOnlyTakeDown(up, ranked, outcome, n - 1);
    }
  }

  /** Tunnels that are not tried stay as they are. */
  lemma {:induction false} UpElsewhere(up: set<string>, ranked: seq<Tunnel>, outcome: nat -> Outcome, n: nat,
                                       id: string)
    requires n <= |ranked| && forall i :: 0 <= i < n ==> ranked[i].id != id
    ensures id in UpAfter(up, ranked, outcome, n) <==> id in up
  {
    if n > 0 {
      UpElsewhere(up, ranked, outcome, n - 1, id);
    }
  }

  /** No tunnel is up that was not, except the returned one, and a returned one is up. */
  lemma SwitchLeavesUp(up: set<string>, ranked: seq<Tunnel>, outcome: nat -> Outcome, limit: nat)
    requires limit <= |ranked|
    ensures var after, win := UpAfter(up, ranked, outcome, Tried(outcome, limit)), Winner(ranked, outcome, limit);
      if win.Some? then win.value.id in after && after <= up + {win.value.id} else after <= up
  {
    FailuresOnlyTakeDown(up, ranked, outcome, FirstGood(outcome, limit));
  }

  lemma {:induction false} FailuresKeepActive(img: Image, ranked: seq<Tunnel>, outcome: nat -> Outcome, n: nat,
                                              maxAttempts: int)
    requires n <= |ranked| && forall i: nat :: i < n ==> !outcome(i).Works?
    ensures var m, m' := img.mem, ImgAfter(img, ranked, outcome, n, maxAttempts).mem;
      m'.activeConfigID == m.activeConfigID && m'.lastSwitch == m.lastSwitch && (n > 0 ==> m'.current == Probing)
  {
    if n > 0 {
      FailuresKeepActive(img, ranked, outcome, n - 1, maxAttempts);
    }
  }

  /** The active configuration and the time of the last switch change only with a verified success. */
  lemma ActiveChangesOnSuccess(img: Image, ranked: seq<Tunnel>, outcome: nat -> Outcome, limit: nat, maxAttempts: int)
    requires limit <= |ranked|
    ensures var win := Winner(ranked, outcome, limit);
      var m' := ImgAfter(img, ranked, outcome, Tried(outcome, limit), maxAttempts).mem;
      if win.Some? then
        m'.current == Healthy && m'.activeConfigID == win.value.id && m'.lastSwitch.Some? && m'.switchAttempts == 0
      else
        && m'.activeConfigID == img.mem.activeConfigID && m'.lastSwitch == img.mem.lastSwitch
        && (limit > 0 ==> m'.current == Probing)
  {
    FailuresKeepActive(img, ranked, outcome, FirstGood(outcome, limit), maxAttempts);
  }

  // ---- Sessions ----

  /** Exactly one session per attempt; at most one of them succeeded, and that is the last one. */
  lemma OneSessionPerAttempt(ranked: seq<Tunnel>, outcome: nat -> Outcome, limit: nat)
    requires limit <= |ranked|
    ensures var log, win := Log(ranked, outcome, Tried(outcome, limit)), Winner(ranked, outcome, limit);
      && |log| == Tried(outcome, limit)
      && (forall i :: 0 <= i < |log| && log[i].success ==> i == |log| - 1)
      && (win.Some? <==> log != [] && log[|log| - 1].success)
      && (win.Some? ==> log[|log| - 1].configID == win.value.id)
  {
  }

  function SessionsOf(log: seq<Session>, id: string): nat {
    if log == [] then 0 else SessionsOf(log[..|log| - 1], id) + (if log[|log| - 1].configID == id then 1 else 0)
  }

  /** The session counter of every configuration grows by the number of its attempts, and by nothing else. */
  lemma {:induction false} CountersGrow(entries: map<string, Entry>, log: seq<Session>, hint: BlockType, id: string)
    ensures EntryOrDefault(WithLog(entries, log, hint), id).sessions
         == EntryOrDefault(entries, id).sessions + SessionsOf(log, id)
  {
    if log != [] {
      CountersGrow(entries, log[..|log| - 1], hint, id);
    }
  }

  // ---- The attempt loop as a path of the step system ----

  /** What the step system sees of the first n attempts. */
  function Events(ranked: seq<Tunnel>, outcome: nat -> Outcome, n: nat): seq<Control.Event>
    requires n <= |ranked|
  {
    if n == 0 then [] else
      var o := outcome(n - 1);
      Events(ranked, outcome, n - 1) + [Control.Enter(ranked[n - 1].id)]
      + [if o.Works? then Control.Succeed(o.at) else Control.Fail]
  }

  /** A whole switch: detection and ranking, the attempts, and the end of the loop if none works. */
  function SwitchEvents(ranked: seq<Tunnel>, outcome: nat -> Outcome, limit: nat): seq<Control.Event>
    requires limit <= |ranked|
  {
    [Control.Start(|ranked|)] + Events(ranked, outcome, Tried(outcome, limit))
    + (if Winner(ranked, outcome, limit).None? then [Control.Finish] else [])
  }

  /** The clock does not run backwards during the switch. */
  ghost predicate NotBefore(outcome: nat -> Outcome, clock: int) {
    forall i: nat :: outcome(i).Works? ==> outcome(i).at >= clock
  }

  /** The step system in the middle of an attempt loop. */
  function Looping(s: Control.Sys, img: Image, left: nat): Control.Sys {
    s.(img := img, phase := Control.Trying(left))
  }

  lemma FailureIsPath(c: Control.Cfg, s0: Control.Sys, s: Control.Sys, ev: seq<Control.Event>, img: Image, left: nat,
                      id: string)
    requires left > 0 && Control.Reaches(c, s0, ev, Looping(s, img, left))
    ensures Control.Reaches(c, s0, ev + [Control.Enter(id)] + [Control.Fail],
                            Looping(s, AfterSwitchFailed(AfterEnter(img), Control.EffectiveMax(c)), left - 1))
  {
    var m := Looping(s, img, left);
    var m1 := Control.Next(c, m, Control.Enter(id));
    Control.ReachesOne(c, s0, ev, m, Control.Enter(id), m1);
    Control.ReachesOne(c, s0, ev + [Control.Enter(id)], m1, Control.Fail, Control.Next(c, m1, Control.Fail));
  }

  lemma SuccessIsPath(c: Control.Cfg, s0: Control.Sys, s: Control.Sys, ev: seq<Control.Event>, img: Image, left: nat,
                      id: string, at: int)
    requires left > 0 && Control.Reaches(c, s0, ev, Looping(s, img, left)) && at >= s.clock
    ensures Control.Reaches(c, s0, ev + [Control.Enter(id)] + [Control.Succeed(at)],
                            Control.Sys(AfterSwitchSucceeded(AfterEnter(img), id, at), false, Control.Idle, at))
  {
    var m := Looping(s, img, left);
    var m1 := Control.Next(c, m, Control.Enter(id));
    Control.ReachesOne(c, s0, ev, m, Control.Enter(id), m1);
    var m2 := Control.Next(c, m1, Control.Succeed(at));
    Control.ReachesOne(c, s0, ev + [Control.Enter(id)], m1, Control.Succeed(at), m2);
  }

  lemma {:induction false} FailuresArePath(c: Control.Cfg, s: Control.Sys, ranked: seq<Tunnel>,
                                           outcome: nat -> Outcome, n: nat)
    requires s.phase.Trying? && n <= s.phase.left && n <= |ranked|
    requires forall i: nat :: i < n ==> !outcome(i).Works?
    ensures Control.Reaches(c, s, Events(ranked, outcome, n),
                            Looping(s, ImgAfter(s.img, ranked, outcome, n, Control.EffectiveMax(c)), s.phase.left - n))
  {
    if n == 0 {
      Control.ReachesNothing(c, s);
    } else {
      FailuresArePath(c, s, ranked, outcome, n - 1);
      var img := ImgAfter(s.img, ranked, outcome, n - 1, Control.EffectiveMax(c));
      FailureIsPath(c, s, s, Events(ranked, outcome, n - 1), img, s.phase.left - n + 1, ranked[n - 1].id);
    }
  }

  lemma LastStep(img: Image, ranked: seq<Tunnel>, outcome: nat -> Outcome, g: nat, maxAttempts: int)
    requires g < |ranked| && outcome(g).Works?
    ensures Events(ranked, outcome, g + 1)
         == Events(ranked, outcome, g) + [Control.Enter(ranked[g].id)] + [Control.Succeed(outcome(g).at)]
    ensures ImgAfter(img, ranked, outcome, g + 1, maxAttempts)
         == AfterSwitchSucceeded(AfterEnter(ImgAfter(img, ranked, outcome, g, maxAttempts)), ranked[g].id,
                                 outcome(g).at)
  {
  }

  lemma WinIsPath(c: Control.Cfg, s: Control.Sys, ranked: seq<Tunnel>, outcome: nat -> Outcome, g: nat,
                  ev: seq<Control.Event>, img: Image)
    requires s.phase.Trying? && g < s.phase.left && g < |ranked|
    requires (forall i: nat :: i < g ==> !outcome(i).Works?) && outcome(g).Works? && outcome(g).at >= s.clock
    requires ev == Events(ranked, outcome, g) && img == ImgAfter(s.img, ranked, outcome, g, Control.EffectiveMax(c))
    ensures Control.Reaches(c, s, ev + [Control.Enter(ranked[g].id)] + [Control.Succeed(outcome(g).at)],
                            Control.Sys(AfterSwitchSucceeded(AfterEnter(img), ranked[g].id, outcome(g).at),
                                        false, Control.Idle, outcome(g).at))
  {
    FailuresArePath(c, s, ranked, outcome, g);
    assert Control.Reaches(c, s, ev, Looping(s, img, s.phase.left - g));
    SuccessIsPath(c, s, s, ev, img, s.phase.left - g, ranked[g].id, outcome(g).at);
  }

  /** Where a switch that starts here ends. */
  function SwitchEnd(c: Control.Cfg, s: Control.Sys, ranked: seq<Tunnel>, outcome: nat -> Outcome,
                     limit: nat): Control.Sys
    requires limit <= |ranked|
  {
    var n, win := Tried(outcome, limit), Winner(ranked, outcome, limit);
    Control.Sys(ImgAfter(s.img, ranked, outcome, n, Control.EffectiveMax(c)), win.None?, Control.Idle,
                if win.Some? then outcome(n - 1).at else s.clock)
  }

  lemma SwitchStarts(c: Control.Cfg, s: Control.Sys, viable: nat) returns (s1: Control.Sys)
    requires s.phase.Idle? && s.img.mem.current == Probing
    ensures Control.Reaches(c, s, [Control.Start(viable)], s1)
    ensures var max := Control.EffectiveMax(c);
      s1 == Control.Sys(s.img, true, Control.Trying(if viable < max then viable else max), s.clock)
  {
    s1 := Control.Next(c, s, Control.Start(viable));
    Control.ReachesNothing(c, s);
    Control.ReachesOne(c, s, [], s, Control.Start(viable), s1);
    assert [] + [Control.Start(viable)] == [Control.Start(viable)];
  }

  lemma SwitchWins(c: Control.Cfg, s: Control.Sys, s1: Control.Sys, start: seq<Control.Event>, ranked: seq<Tunnel>,
                   outcome: nat -> Outcome, g: nat)
    requires Control.Reaches(c, s, start, s1) && s1.phase.Trying? && g < s1.phase.left && g < |ranked|
    requires (forall i: nat :: i < g ==> !outcome(i).Works?) && outcome(g).Works? && outcome(g).at >= s1.clock
    ensures Control.Reaches(c, s, start + Events(ranked, outcome, g + 1),
                            Control.Sys(ImgAfter(s1.img, ranked, outcome, g + 1, Control.EffectiveMax(c)),
                                        false, Control.Idle, outcome(g).at))
  {
    var max := Control.EffectiveMax(c);
    LastStep(s1.img, ranked, outcome, g, max);
    WinIsPath(c, s1, ranked, outcome, g, Events(ranked, outcome, g), ImgAfter(s1.img, ranked, outcome, g, max));
    var end := Control.Sys(ImgAfter(s1.img, ranked, outcome, g + 1, max), false, Control.Idle, outcome(g).at);
    Control.ReachesConcat(c, s, start, s1, Events(ranked, outcome, g + 1), end);
  }

  lemma SwitchGivesUp(c: Control.Cfg, s: Control.Sys, s1: Control.Sys, start: seq<Control.Event>,
                      ranked: seq<Tunnel>, outcome: nat -> Outcome, limit: nat)
    requires Control.Reaches(c, s, start, s1) && s1.phase == Control.Trying(limit) && limit <= |ranked|
    requires forall i: nat :: i < limit ==> !outcome(i).Works?
    ensures Control.Reaches(c, s, start + Events(ranked, outcome, limit) + [Control.Finish],
                            s1.(img := ImgAfter(s1.img, ranked, outcome, limit, Control.EffectiveMax(c)),
                                phase := Control.Idle))
  {
    FailuresArePath(c, s1, ranked, outcome, limit);
    var tries := Events(ranked, outcome, limit);
    var s2 := Looping(s1, ImgAfter(s1.img, ranked, outcome, limit, Control.EffectiveMax(c)), 0);
    Control.ReachesConcat(c, s, start, s1, tries, s2);
    Control.ReachesOne(c, s, start + tries, s2, Control.Finish, Control.Next(c, s2, Control.Finish));
  }

  /**
  A switch that starts in PROBING is a path of the step system, for every outcome: whatever is
  proved about all runs holds of the engine.
  */
  lemma SwitchIsPath(c: Control.Cfg, s: Control.Sys, ranked: seq<Tunnel>, outcome: nat -> Outcome, limit: nat)
    requires s.phase.Idle? && s.img.mem.current == Probing && NotBefore(outcome, s.clock)
    requires limit == Limit(ranked, Control.EffectiveMax(c))
    ensures Control.Reaches(c, s, SwitchEvents(ranked, outcome, limit), SwitchEnd(c, s, ranked, outcome, limit))
  {
    var start := [Control.Start(|ranked|)];
    var s1 := SwitchStarts(c, s, |ranked|);
    var g := FirstGood(outcome, limit);
    if g < limit {
      SwitchWins(c, s, s1, start, ranked, outcome, g);
      assert start + Events(ranked, outcome, g + 1) + [] == start + Events(ranked, outcome, g + 1);
    } else {
      SwitchGivesUp(c, s, s1, start, ranked, outcome, limit);
    }
  }
}
