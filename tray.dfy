/**
 * The older coordinator (`TrayViewModel` in TrayViewModel.swift): the same
 * toggle and alert-rule logic, over an alarm, a notification sender and a
 * charge tracker handed in by its creator.
 */
module Tray {
  import opened Common
  import opened Alarms
  import opened Collaborators
  import opened Coordination

  class TrayViewModel {
    var isCharging: bool
    const alarm: Alarm
    const pusher: Pusher
    const tracker: ChargeTracker

    ghost predicate Valid()
      reads this, alarm
    {
      alarm.Valid()
    }

    /**
     * `init(alarm:pusher:chargeTracker:)`: subscribing drops the current toggle
     * value and tracker state, so no service is called.
     */
    constructor(alarm: Alarm, pusher: Pusher, tracker: ChargeTracker)
      requires alarm.Valid()
      ensures Valid() && !isCharging
      ensures this.alarm == alarm && this.pusher == pusher && this.tracker == tracker
      ensures unchanged(alarm) && unchanged(pusher) && unchanged(tracker)
    {
      isCharging := false;
      this.alarm := alarm;
      this.pusher := pusher;
      this.tracker := tracker;
    }

    /** The toggle: publishing a new `isCharging` runs `process`. */
    method Toggle(on: bool)
      requires Valid()
      modifies this`isCharging, tracker`tracking, alarm, pusher
      ensures Valid() && isCharging == on
      ensures !on ==> (!tracker.tracking && alarm.State() == Signalled(old(alarm.State()), false) &&
                       pusher.sent == old(pusher.sent))
      ensures on ==> (tracker.tracking == (old(tracker.tracking) || tracker.available) && unchanged(alarm) &&
                      pusher.sent == old(pusher.sent) + (if tracker.available then [] else [TrackingFailedPush]))
    {
      isCharging := on;
      Process(on);
    }

    /** `process(_:)`, as in the menu's view model. */
    method Process(on: bool)
      requires Valid()
      modifies tracker`tracking, alarm, pusher
      ensures Valid()
      ensures !on ==> (!tracker.tracking && !alarm.IsOn() &&
                       alarm.State() == Signalled(old(alarm.State()), false) && pusher.sent == old(pusher.sent))
      ensures on ==> (tracker.tracking == (old(tracker.tracking) || tracker.available) && unchanged(alarm) &&
                      pusher.sent == old(pusher.sent) + (if tracker.available then [] else [TrackingFailedPush]))
    {
      if !on {
        var _ := tracker.StopTracking();
        alarm.Signal(false);
        return;
      }
      var started := tracker.StartTracking();
      if started.Fail? {
        var _ := pusher.Send(TrackingFailedPush);
      }
    }

    /** `onChange(_:)`: the same alert rule as the menu's view model. */
    method OnChange(state: BatteryState)
      requires Valid()
      modifies alarm
      ensures Valid()
      ensures alarm.State() == SignalledAll(old(alarm.State()), AlertSignals(tracker.pluggedIn, state.status, old(alarm.IsOn())))
      ensures alarm.IsOn() == (if tracker.pluggedIn then false
                               else if state.status == NotCharging then true
                               else old(alarm.IsOn()))
    {
      var isPluggedIn := tracker.IsPowerAdapterPluggedIn();
      var isPowerOff := state.status == NotCharging;
      var isSignalEnabled := alarm.IsOn();
      ghost var before := alarm.State();
      if isPluggedIn && isSignalEnabled {
        alarm.Signal(false);
      }
      if !isPluggedIn && isPowerOff {
        alarm.Signal(true);
      }
      AlertRuleEffect(before, isPluggedIn, state.status);
      SignalledAtMostOnce(before, AlertSignals(isPluggedIn, state.status, isSignalEnabled));
    }
  }
}
