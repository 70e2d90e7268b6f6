/**
 * The services the coordinators drive but whose code is not part of this
 * model: the charge tracker, the notification sender and the file picker.
 * Each is reduced to the narrow interface the coordinators use, with the
 * operating system's answers held as fields.
 */
module Collaborators {
  import opened Common

  datatype TrackerError = TrackingUnavailable | NotTracking

  /**
   * `ChargeTracker`: `pluggedIn` is the adapter reading the system reports now,
   * `available` whether a power-source subscription can be started, `tracking`
   * whether one is active. Its stream of `BatteryState` values is the sequence
   * of `OnChange` calls the coordinators receive.
   */
  class ChargeTracker {
    const sendRepeats: bool
    var pluggedIn: bool
    var available: bool
    var tracking: bool

    constructor(sendRepeats: bool, pluggedIn: bool, available: bool)
      ensures this.sendRepeats == sendRepeats && this.pluggedIn == pluggedIn && this.available == available
      ensures !tracking
    {
      this.sendRepeats := sendRepeats;
      this.pluggedIn := pluggedIn;
      this.available := available;
      tracking := false;
    }

    /** `isPowerAdapterPluggedIn()`: a snapshot of the adapter reading. */
    function IsPowerAdapterPluggedIn(): (r: bool)
      reads this
      ensures r == pluggedIn
    {
      pluggedIn
    }

    /** Starting succeeds exactly when the system allows it; starting twice keeps the session. */
    method StartTracking() returns (r: Outcome<TrackerError>)
      modifies this`tracking
      ensures r.Pass? <==> available
      ensures r.Fail? ==> r.error == TrackingUnavailable
      ensures tracking == (old(tracking) || available)
    {
      if available {
        tracking := true;
        r := Pass;
      } else {
        r := Fail(TrackingUnavailable);
      }
    }

    /** Stopping always ends the session; it reports an error when there was none. */
    method StopTracking() returns (r: Outcome<TrackerError>)
      modifies this`tracking
      ensures !tracking
      ensures r.Fail? <==> !old(tracking)
      ensures r.Fail? ==> r.error == NotTracking
    {
      r := if tracking then Pass else Fail(NotTracking);
      tracking := false;
    }
  }

  datatype PushError = NotAuthorized

  /** `Pusher`: `sent` logs every `send` call in order; delivery needs permission. */
  class Pusher {
    const authorized: bool
    ghost var sent: seq<Push>

    constructor(authorized: bool)
      ensures this.authorized == authorized && sent == []
    {
      this.authorized := authorized;
      sent := [];
    }

    method Send(p: Push) returns (r: Outcome<PushError>)
      modifies this
      ensures sent == old(sent) + [p]
      ensures r.Fail? <==> !authorized
    {
      sent := sent + [p];
      r := if authorized then Pass else Fail(NotAuthorized);
    }
  }

  /** `Finder.Errors`: the cancellation case, and one case standing for its other cases. */
  datatype FinderError = SelectionCancelled | FinderFailure

  /** What `selectFile()` threw: a `Finder.Errors` value, or an error of another type. */
  datatype SelectionError = FinderThrew(error: FinderError) | OtherError

  /** The result of `finder.selectFile()`. */
  datatype Selection = Picked(url: Url) | Threw(failure: SelectionError)
}
