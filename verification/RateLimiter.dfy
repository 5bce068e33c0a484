/**
The call budget of the AI advisor (daemon/internal/aiadvisor/manager.go): a fixed window that
starts anew at the first call an hour or more after its start. Times are nanoseconds.
*/
module RateLimiter {

  const HOUR := 3_600_000_000_000

  datatype Window = Window(start: int, calls: nat)

  datatype Grant = Grant(window: Window, granted: bool)

  /** One call at time `now` under a positive budget. */
  function Call(w: Window, budget: int, now: int): Grant {
    var w' := if now - w.start >= HOUR then Window(now, 0) else w;
    if w'.calls >= budget then Grant(w', false) else Grant(w'.(calls := w'.calls + 1), true)
  }

  class Manager {
    const maxCallsPerHour: int
    var windowStart: int
    var callsInWindow: nat

    function Win(): Window
      reads this
    {
      Window(windowStart, callsInWindow)
    }

    constructor (maxCallsPerHour: int, now: int)
      ensures this.maxCallsPerHour == maxCallsPerHour && Win() == Window(now, 0)
    {
      this.maxCallsPerHour := maxCallsPerHour;
      windowStart, callsInWindow := now, 0;
    }

    method AcquireToken(now: int) returns (granted: bool)
      modifies this
      ensures maxCallsPerHour <= 0 ==> granted && Win() == old(Win())
      ensures maxCallsPerHour > 0 ==> Grant(Win(), granted) == Call(old(Win()), maxCallsPerHour, now)
    {
      if maxCallsPerHour <= 0 {
        return true;
      }
      if now - windowStart >= HOUR {
        windowStart := now;
        callsInWindow := 0;
      }
      if callsInWindow >= maxCallsPerHour {
        return false;
      }
      callsInWindow := callsInWindow + 1;
      return true;
    }

    /**
    What the status shows. With a budget: never negative, and zero exactly when the next call in this window is
    refused. Without one: the configured number, although every call is granted.
    */
    method CallsRemaining() returns (n: int)
      ensures maxCallsPerHour <= 0 ==> n == maxCallsPerHour
      ensures maxCallsPerHour > 0 ==> n >= 0
      ensures maxCallsPerHour > 0 ==>
        (n == 0 <==> forall now :: now - windowStart < HOUR ==> !Call(Win(), maxCallsPerHour, now).granted)
    {
      n := maxCallsPerHour;
      if maxCallsPerHour > 0 {
        n := if maxCallsPerHour - callsInWindow > 0 then maxCallsPerHour - callsInWindow else 0;
        if n > 0 {
          assert Call(Win(), maxCallsPerHour, windowStart).granted;
        }
      }
    }
  }

  // ---- Runs ----

  ghost predicate Ordered(created: int, ts: seq<int>) {
    && (forall i :: 0 <= i < |ts| ==> created <= ts[i])
    && (forall i, j :: 0 <= i <= j < |ts| ==> ts[i] <= ts[j])
  }

  /** The window after the first k calls. */
  function WindowAt(created: int, budget: int, ts: seq<int>, k: nat): Window
    requires k <= |ts|
  {
    if k == 0 then Window(created, 0) else Call(WindowAt(created, budget, ts, k - 1), budget, ts[k - 1]).window
  }

  predicate GrantedAt(created: int, budget: int, ts: seq<int>, k: nat)
    requires k < |ts|
  {
    Call(WindowAt(created, budget, ts, k), budget, ts[k]).granted
  }

  /** Grants with a time in the half-open interval [a, b) among the first k calls. */
  function GrantsIn(created: int, budget: int, ts: seq<int>, k: nat, a: int, b: int): nat
    requires k <= |ts|
  {
    if k == 0 then 0 else
      GrantsIn(created, budget, ts, k - 1, a, b)
      + (if a <= ts[k - 1] < b && GrantedAt(created, budget, ts, k - 1) then 1 else 0)
  }

  lemma {:induction false} SplitInterval(created: int, budget: int, ts: seq<int>, k: nat, a: int, m: int, b: int)
    requires k <= |ts| && a <= m <= b
    ensures GrantsIn(created, budget, ts, k, a, b)
         == GrantsIn(created, budget, ts, k, a, m) + GrantsIn(created, budget, ts, k, m, b)
  {
    if k > 0 {
      SplitInterval(created, budget, ts, k - 1, a, m, b);
    }
  }

  lemma {:induction false} NoGrantsAfter(created: int, budget: int, ts: seq<int>, k: nat, a: int, b: int)
    requires k <= |ts| && forall i :: 0 <= i < k ==> ts[i] < a
    ensures GrantsIn(created, budget, ts, k, a, b) == 0
  {
    if k > 0 {
      NoGrantsAfter(created, budget, ts, k - 1, a, b);
    }
  }

  /**
  After any calls: the window started at or before the last call and less than an hour before
  it; since its start at most `calls` tokens were granted; and in any hour that reaches into the
  window, at most a full budget was granted before the window started.
  */
  lemma {:induction false} WindowInvariant(created: int, budget: int, ts: seq<int>, k: nat, a: int, b: int)
    requires budget > 0 && Ordered(created, ts) && k <= |ts|
    ensures var w := WindowAt(created, budget, ts, k);
      && w.calls <= budget && created <= w.start
      && (forall i :: 0 <= i < k ==> ts[i] < w.start + HOUR)
      && (k > 0 ==> w.start <= ts[k - 1])
      && (b >= a >= w.start ==> GrantsIn(created, budget, ts, k, a, b) <= w.calls)
      && (w.start - HOUR < a <= w.start ==> GrantsIn(created, budget, ts, k, a, w.start) <= budget)
  {
    if k > 0 {
      var w, t := WindowAt(created, budget, ts, k - 1), ts[k - 1];
      WindowInvariant(created, budget, ts, k - 1, a, b);
      if t - w.start >= HOUR {
        NoGrantsAfter(created, budget, ts, k - 1, t, b);
        if t <= a <= b {
          NoGrantsAfter(created, budget, ts, k - 1, a, b);
        }
        if t - HOUR < a <= t {
          WindowInvariant(created, budget, ts, k - 1, a, t);
        }
      }
    }
  }

  /** Consecutive windows start at least an hour apart. */
  lemma WindowsApart(created: int, budget: int, ts: seq<int>, k: nat)
    requires budget > 0 && Ordered(created, ts) && k < |ts|
    ensures var w, w' := WindowAt(created, budget, ts, k), WindowAt(created, budget, ts, k + 1);
      w'.start == w.start || w'.start >= w.start + HOUR
  {
  }

  /** Each window grants at most the budget: between its start and the last call made in it. */
  lemma WindowBudget(created: int, budget: int, ts: seq<int>, k: nat, b: int)
    requires budget > 0 && Ordered(created, ts) && k <= |ts|
    ensures var w := WindowAt(created, budget, ts, k);
      b >= w.start ==> GrantsIn(created, budget, ts, k, w.start, b) <= w.calls <= budget
  {
    WindowInvariant(created, budget, ts, k, WindowAt(created, budget, ts, k).start, b);
  }

  /** Any half-open hour holds at most twice the budget, over all call times. */
  lemma {:induction false} SlidingBound(created: int, budget: int, ts: seq<int>, k: nat, a: int)
    requires budget > 0 && Ordered(created, ts) && k <= |ts|
    ensures GrantsIn(created, budget, ts, k, a, a + HOUR) <= 2 * budget
  {
    if k > 0 {
      SlidingBound(created, budget, ts, k - 1, a);
      var w, t := WindowAt(created, budget, ts, k), ts[k - 1];
      WindowInvariant(created, budget, ts, k, a, a + HOUR);
      if a <= t < a + HOUR && a < w.start {
        SplitInterval(created, budget, ts, k, a, w.start, a + HOUR);
        WindowInvariant(created, budget, ts, k, w.start, a + HOUR);
      }
    }
  }

  /** The calls that reach the bound: a full budget just before the first hour is over, one just after. */
  function Burst(created: int, budget: nat): (ts: seq<int>)
    ensures |ts| == 2 * budget
  {
    seq(2 * budget, i => if i < budget then created + HOUR - 1 else created + HOUR)
  }

  lemma {:induction false} BurstGrants(created: int, budget: nat, k: nat)
    requires budget > 0 && k <= 2 * budget
    ensures var ts := Burst(created, budget);
      && WindowAt(created, budget, ts, k)
         == (if k <= budget then Window(created, k) else Window(created + HOUR, k - budget))
      && GrantsIn(created, budget, ts, k, created + HOUR - 1, created + HOUR - 1 + HOUR) == k
  {
    if k > 0 {
      BurstGrants(created, budget, k - 1);
    }
  }

  /** Twice the budget is the least such bound. */
  lemma SlidingBoundIsTight(created: int, budget: nat)
    requires budget > 0
    ensures Ordered(created, Burst(created, budget))
    ensures GrantsIn(created, budget, Burst(created, budget), 2 * budget, created + HOUR - 1, created + HOUR - 1 + HOUR)
         == 2 * budget
  {
    BurstGrants(created, budget, 2 * budget);
  }
}
