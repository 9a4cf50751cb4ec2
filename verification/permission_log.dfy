/** The shared permission monitor, seen only through the calls made on it. */
module PermissionLog {
  import opened Optional

  /** `register()`, `unregister()` and `refreshNow()` on the shared monitor. */
  datatype Call = Register | Unregister | Refresh

  /** How many times `c` occurs in `log`. */
  function Count(log: seq<Call>, c: Call): nat
    decreases |log|
  {
    if log == [] then 0
    else Count(log[..|log| - 1], c) + (if log[|log| - 1] == c then 1 else 0)
  }

  /** Replays the register/unregister calls of `log` from "not observing".
      `Some(on)` when every `Register` happens while not observing and every
      `Unregister` while observing, `on` then telling whether the monitor is
      still observing at the end; `None` at the first unpaired call. */
  function MonitoringAfter(log: seq<Call>): Option<bool>
    decreases |log|
  {
    if log == [] then Some(false)
    else
      match MonitoringAfter(log[..|log| - 1])
      case None => None
      case Some(on) =>
        match log[|log| - 1]
        case Register => if on then None else Some(true)
        case Unregister => if on then Some(false) else None
        case Refresh => Some(on)
  }

  /** Appending one call advances the replay by that call alone. */
  lemma MonitoringAfterAppend(log: seq<Call>, c: Call, on: bool)
    requires MonitoringAfter(log) == Some(on)
    ensures c == Register ==> MonitoringAfter(log + [c]) == (if on then None else Some(true))
    ensures c == Unregister ==> MonitoringAfter(log + [c]) == (if on then Some(false) else None)
    ensures c == Refresh ==> MonitoringAfter(log + [c]) == Some(on)
  {
    assert (log + [c])[..|log|] == log;
  }

  /** A correctly paired log has one more `Register` than `Unregister` while
      observing and equally many otherwise. */
  lemma {:induction false} PairedCounts(log: seq<Call>, on: bool)
    requires MonitoringAfter(log) == Some(on)
    ensures Count(log, Register) == Count(log, Unregister) + (if on then 1 else 0)
    decreases |log|
  {
    if log != [] {
      var init := log[..|log| - 1];
      var prev :| MonitoringAfter(init) == Some(prev);
      PairedCounts(init, prev);
    }
  }
}
