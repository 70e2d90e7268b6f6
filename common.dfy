/** Values shared by the alarm, the sound store and the coordinators. */
module Common {

  datatype Option<+T> = None | Some(value: T) {
    function GetOr(default: T): T {
      match this
      case Some(v) => v
      case None => default
    }
  }

  /** Pass, or the error an operation threw. */
  datatype Outcome<+E> = Pass | Fail(error: E)

  /** A file URL, as the list of its path components. */
  datatype Url = Url(path: seq<string>)

  /** `url.lastPathComponent`; the empty string for an empty path. */
  function LastPathComponent(u: Url): string {
    if |u.path| == 0 then "" else u.path[|u.path| - 1]
  }

  /** `url.appending(path: name)` for a single component. */
  function Appending(u: Url, name: string): (r: Url)
    ensures LastPathComponent(r) == name
    ensures |r.path| == |u.path| + 1 && r.path[..|u.path|] == u.path
  {
    Url(u.path + [name])
  }

  /** A sound loaded from a file; its duration is the repeat period of the alarm. */
  datatype Sound = Sound(source: Url)

  /** Charge activity as the power-source API reports it. */
  datatype BatteryStatus = Charging | NotCharging | Full | Unknown

  /** One reading emitted by the charge tracker; the timestamp is opaque. */
  datatype BatteryState = BatteryState(status: BatteryStatus, timestamp: nat)

  /** A user notification: title, optional sound, subtitle and delay in seconds. */
  datatype Push = Push(title: string, sound: Option<string>, subtitle: Option<string>, after: Option<real>)
}
