/**
The watchdog state machine (daemon/internal/state/machine.go): four states, two counters,
the active configuration, the time of the last switch, and a state file written by `save`
and read back by `load` when the daemon starts.

Times are integers (nanoseconds); the zero `time.Time` is `None`.
*/
module StateMachine {
  import opened Options

  datatype State = Healthy | Degraded | Probing | Switching

  /** What the state file holds. */
  datatype Persisted = Persisted(current: State, activeConfigID: string, lastSwitch: Option<int>)

  /** What memory holds. */
  datatype Mem = Mem(current: State, consecutiveFails: nat, activeConfigID: string,
                     lastSwitch: Option<int>, switchAttempts: nat)

  /** Memory together with the state file; `None` is a file that is missing or does not parse. */
  datatype Image = Image(mem: Mem, disk: Option<Persisted>)

  function Projection(m: Mem): Persisted {
    Persisted(m.current, m.activeConfigID, m.lastSwitch)
  }

  /** The memory of a machine built by `New` over the given state file. */
  function Restore(disk: Option<Persisted>): Mem {
    match disk
    case None => Mem(Healthy, 0, "", None, 0)
    case Some(p) => Mem(p.current, 0, p.activeConfigID, p.lastSwitch, 0)
  }

  function Saved(m: Mem): Image {
    Image(m, Some(Projection(m)))
  }

  /** The state file says what memory says. */
  predicate Synced(im: Image) {
    Projection(Restore(im.disk)) == Projection(im.mem)
  }

  predicate InCooldownAt(m: Mem, cooldown: int, now: int) {
    m.lastSwitch.Some? && now - m.lastSwitch.value < cooldown
  }

  // ---- The transitions, as functions of memory and file ----

  function AfterSuccess(im: Image): Image {
    var m := im.mem.(consecutiveFails := 0);
    if m.current == Degraded then Saved(m.(current := Healthy)) else im.(mem := m)
  }

  function AfterFailure(im: Image, degradedThreshold: int, probingThreshold: int): Image {
    var m := im.mem.(consecutiveFails := im.mem.consecutiveFails + 1);
    if m.current == Healthy && m.consecutiveFails >= degradedThreshold then
      Saved(m.(current := Degraded))
    else if m.current == Degraded && m.consecutiveFails >= degradedThreshold + probingThreshold then
      Saved(m.(current := Probing, consecutiveFails := 0, switchAttempts := 0))
    else
      im.(mem := m)
  }

  function AfterEnter(im: Image): Image {
    Saved(im.mem.(current := Switching, switchAttempts := im.mem.switchAttempts + 1))
  }

  function AfterSwitchFailed(im: Image, maxAttempts: int): Image {
    var m := im.mem.(current := Probing);
    if m.switchAttempts < maxAttempts then Saved(m) else Saved(m.(switchAttempts := 0))
  }

  function AfterSwitchSucceeded(im: Image, configID: string, now: int): Image {
    Saved(Mem(Healthy, 0, configID, Some(now), 0))
  }

  class Machine {
    var current: State
    var consecutiveFails: nat
    var activeConfigID: string
    var lastSwitch: Option<int>
    var switchAttempts: nat
    // The state file.
    var disk: Option<Persisted>

    function Img(): Image
      reads this
    {
      Image(Mem(current, consecutiveFails, activeConfigID, lastSwitch, switchAttempts), disk)
    }

    /** A new machine restores from the state file, if it can be read. */
    constructor (file: Option<Persisted>)
      ensures Img() == Image(Restore(file), file)
      ensures Synced(Img())
    {
      current, consecutiveFails, activeConfigID := Healthy, 0, "";
      lastSwitch, switchAttempts := None, 0;
      disk := file;
      new;
      Load();
    }

    method Load()
      requires Img().mem == Restore(None)
      modifies this
      ensures Img() == Image(Restore(old(disk)), old(disk))
    {
      if disk.Some? {
        current := disk.value.current;
        activeConfigID := disk.value.activeConfigID;
        lastSwitch := disk.value.lastSwitch;
      }
    }

    method Save()
      modifies this`disk
      ensures Img() == Saved(old(Img()).mem)
    {
      disk := Some(Persisted(current, activeConfigID, lastSwitch));
    }

    method RecordSuccess(degradedThreshold: int)
      modifies this
      ensures Img() == AfterSuccess(old(Img()))
    {
      consecutiveFails := 0;
      if current == Degraded {
        current := Healthy;
        Save();
      }
    }

    method RecordFailure(degradedThreshold: int, probingThreshold: int) returns (st: State)
      modifies this
      ensures Img() == AfterFailure(old(Img()), degradedThreshold, probingThreshold)
      ensures st == current
    {
      consecutiveFails := consecutiveFails + 1;
      match current {
        case Healthy =>
          if consecutiveFails >= degradedThreshold {
            current := Degraded;
            Save();
          }
        case Degraded =>
          if consecutiveFails >= degradedThreshold + probingThreshold {
            current := Probing;
            consecutiveFails := 0;
            switchAttempts := 0;
            Save();
          }
        case _ =>
      }
      st := current;
    }

    method EnterSwitching(newConfigID: string)
      modifies this
      ensures Img() == AfterEnter(old(Img()))
    {
      current := Switching;
      switchAttempts := switchAttempts + 1;
      Save();
    }

    method SwitchSucceeded(configID: string, now: int)
      modifies this
      ensures Img() == AfterSwitchSucceeded(old(Img()), configID, now)
    {
      current := Healthy;
      activeConfigID := configID;
      lastSwitch := Some(now);
      consecutiveFails := 0;
      switchAttempts := 0;
      Save();
    }

    /** Returns whether attempts are left before the counter wraps. */
    method SwitchFailed(maxAttempts: int) returns (retry: bool)
      modifies this
      ensures Img() == AfterSwitchFailed(old(Img()), maxAttempts)
      ensures retry <==> old(switchAttempts) < maxAttempts
    {
      current := Probing;
      if switchAttempts < maxAttempts {
        Save();
        return true;
      }
      switchAttempts := 0;
      Save();
      return false;
    }

    method InCooldown(cooldown: int, now: int) returns (b: bool)
      ensures b <==> InCooldownAt(Img().mem, cooldown, now)
    {
      b := lastSwitch.Some? && now - lastSwitch.value < cooldown;
    }
  }
}
