/**
 * The alert coordinator (`MenuViewModel` in MenuViewModel.swift): it turns the
 * operator's on/off toggle into tracker and alarm calls, applies the alert rule
 * to each battery reading, and keeps the custom-sound flag in step with the
 * alarm's sound URL and the sound store.
 */
module Coordination {
  import opened Common
  import opened Alarms
  import opened Saving
  import opened Collaborators

  const TrackingFailedPush := Push("Tracking failed!", None, Some("Something went wrong"), None)
  const SelectionFailedPush := Push("Selection failed!", None, Some("File may be corrupted or not accessible."), None)
  const SelectedPush := Push("Successfully selected!", None, None, Some(1.5))
  const CantSavePush := Push("Cant save selected sound!", None, None, Some(2.0))

  /** The directory the menu's sound store uses under the home directory. */
  const SoundDirectory := "MCC-Data"

  /**
   * The `signal` calls `onChange` makes for one reading: "plugged in and
   * playing" turns the alarm off, and, checked separately, "unplugged and not
   * charging" turns it on.
   */
  function AlertSignals(pluggedIn: bool, status: BatteryStatus, playing: bool): (calls: seq<bool>)
    ensures |calls| <= 1
    ensures pluggedIn ==> true !in calls
    ensures calls == [false] <==> pluggedIn && playing
    ensures calls == [true] <==> !pluggedIn && status == NotCharging
    ensures calls == [] <==> (pluggedIn && !playing) || (!pluggedIn && status != NotCharging)
  {
    var turnOff := if pluggedIn && playing then [false] else [];
    var turnOn := if !pluggedIn && status == NotCharging then [true] else [];
    assert turnOff == [] || turnOn == [];
    assert turnOff + [] == turnOff && [] + turnOn == turnOn;
    turnOff + turnOn
  }

  /**
   * The alarm after one reading: off when plugged in, on when unplugged and not
   * charging, and otherwise exactly as it was.
   */
  lemma AlertRuleEffect(a: AlarmState, pluggedIn: bool, status: BatteryStatus)
    ensures var b := SignalledAll(a, AlertSignals(pluggedIn, status, IsOn(a)));
      IsOn(b) == (if pluggedIn then false else if status == NotCharging then true else IsOn(a)) &&
      ((pluggedIn && !IsOn(a)) || (!pluggedIn && status != NotCharging) ==> b == a)
  {
    SignalledAtMostOnce(a, AlertSignals(pluggedIn, status, IsOn(a)));
  }

  /**
   * Readings never start the alarm while the adapter is plugged in, and a
   * reading that finds the alarm off while plugged in makes no call at all.
   */
  lemma NeverOnWhilePlugged(a: AlarmState, status: BatteryStatus)
    ensures !IsOn(SignalledAll(a, AlertSignals(true, status, IsOn(a))))
    ensures !IsOn(a) ==> SignalledAll(a, AlertSignals(true, status, IsOn(a))) == a
  {
    AlertRuleEffect(a, true, status);
  }

  /**
   * Unplugged and not charging starts the alarm; the next reading with the
   * adapter plugged in stops it, whatever its status; turning tracking off
   * afterwards leaves it off. The live timers are then those from before the
   * first reading: a timer already running then is still running, alarm off or not.
   */
  lemma UnplugThenPlugScenario(a: AlarmState, first: BatteryState, second: BatteryState)
    requires first.status == NotCharging
    ensures var on := SignalledAll(a, AlertSignals(false, first.status, IsOn(a)));
      var off := SignalledAll(on, AlertSignals(true, second.status, IsOn(on)));
      IsOn(on) && !IsOn(off) && !IsOn(Signalled(off, false)) &&
      (WellFormed(a) ==> off.live == a.live)
  {
    AlertRuleEffect(a, false, first.status);
    SignalledAtMostOnce(a, AlertSignals(false, first.status, IsOn(a)));
    var on := SignalledAll(a, AlertSignals(false, first.status, IsOn(a)));
    AlertRuleEffect(on, true, second.status);
    SignalledAtMostOnce(on, AlertSignals(true, second.status, IsOn(on)));
    if WellFormed(a) {
      assert a.issued !in a.live;
      var off := SignalledAll(on, AlertSignals(true, second.status, IsOn(on)));
      assert off.live == a.live;
    }
  }

  /**
   * The same unplugged, not-charging reading delivered twice starts the alarm
   * twice; the plugged-in reading that follows invalidates only the second
   * timer, so the first one keeps repeating while the alarm reports off.
   */
  lemma RepeatedUnplugLeaks(a: AlarmState, first: BatteryState, second: BatteryState, third: BatteryState)
    requires WellFormed(a)
    requires first.status == NotCharging && second.status == NotCharging
    ensures var r1 := SignalledAll(a, AlertSignals(false, first.status, IsOn(a)));
      var r2 := SignalledAll(r1, AlertSignals(false, second.status, IsOn(r1)));
      var r3 := SignalledAll(r2, AlertSignals(true, third.status, IsOn(r2)));
      !IsOn(r3) && a.issued in r3.live && r3.live == a.live[a.issued := IntervalFor(a.sound)]
  {
    var c1 := AlertSignals(false, first.status, IsOn(a));
    SignalledAtMostOnce(a, c1);
    var r1 := Started(a);
    var c2 := AlertSignals(false, second.status, IsOn(r1));
    SignalledAtMostOnce(r1, c2);
    var r2 := Started(r1);
    var c3 := AlertSignals(true, third.status, IsOn(r2));
    SignalledAtMostOnce(r2, c3);
    DoubleStartThenStopLeaks(a);
  }

  /** An unplugged reading with any status but not-charging leaves the alarm as it was. */
  lemma UnpluggedChargingKeepsAlarm(a: AlarmState, status: BatteryStatus)
    requires status != NotCharging
    ensures SignalledAll(a, AlertSignals(false, status, IsOn(a))) == a
  {
    AlertRuleEffect(a, false, status);
  }

  /** The menu's view model and the services it owns. */
  class MenuViewModel {
    var isCharging: bool
    var hasCustomSound: bool
    const alarm: Alarm
    const saver: Saver
    const pusher: Pusher
    const tracker: ChargeTracker

    ghost predicate Valid()
      reads this, alarm
    {
      alarm.Valid() && (hasCustomSound ==> alarm.soundUrl.Some?)
    }

    /**
     * `init()`: the services start fresh; subscribing drops the current toggle
     * value and tracker state, so neither is processed; then `checkSound` loads
     * a stored sound, if any. `home`, `disk`, `faults`, `decodes`, `pluggedIn`,
     * `trackerAvailable` and `notificationsAllowed` describe the machine.
     */
    constructor(home: seq<string>, disk: Listing, faults: FsFaults, decodes: Url -> bool,
                pluggedIn: bool, trackerAvailable: bool, notificationsAllowed: bool)
      ensures Valid()
      ensures fresh(alarm) && fresh(saver) && fresh(pusher) && fresh(tracker)
      ensures !isCharging && !tracker.tracking && !alarm.IsOn() && pusher.sent == []
      ensures saver.directory == Url(home + [SoundDirectory]) && saver.listing == disk && saver.faults == faults
      ensures alarm.decodes == decodes && pusher.authorized == notificationsAllowed
      ensures tracker.pluggedIn == pluggedIn && tracker.available == trackerAvailable && tracker.sendRepeats
      ensures var stored := StoredUrlOf(saver.directory, disk);
        hasCustomSound == stored.Some? &&
        alarm.State() == WithSoundUrl(AlarmState(None, None, None, 0, map[], []), stored, decodes)
    {
      isCharging := false;
      hasCustomSound := false;
      alarm := new Alarm(None, decodes);
      saver := new Saver(home, Some(SoundDirectory), disk, faults);
      pusher := new Pusher(notificationsAllowed);
      tracker := new ChargeTracker(true, pluggedIn, trackerAvailable);
      new;
      CheckSound();
    }

    /** `selectSound()`: use the picked file at once, then persist it. */
    method SelectSound(selection: Selection)
      requires Valid()
      modifies this`hasCustomSound, alarm, saver`listing, pusher
      ensures Valid()
      ensures selection.Picked? ==>
        var s := Saved(old(saver.listing), LastPathComponent(selection.url), saver.faults);
        alarm.State() == WithSoundUrl(old(alarm.State()), Some(selection.url), alarm.decodes) &&
        saver.listing == s.listing &&
        hasCustomSound == (s.outcome.Pass? || old(hasCustomSound)) &&
        pusher.sent == old(pusher.sent) + [if s.outcome.Pass? then SelectedPush else CantSavePush]
      ensures selection.Threw? && selection.failure != FinderThrew(FinderFailure) ==>
        hasCustomSound == old(hasCustomSound) && pusher.sent == old(pusher.sent) &&
        unchanged(alarm) && unchanged(saver)
      ensures selection == Threw(FinderThrew(FinderFailure)) ==>
        hasCustomSound == (old(hasCustomSound) && old(alarm.soundUrl).Some?) &&
        pusher.sent == old(pusher.sent) + [SelectionFailedPush] &&
        unchanged(alarm) && unchanged(saver)
    {
      match selection {
        case Picked(url) =>
          alarm.SetSoundUrl(Some(url));
          StoreSound(url);
        case Threw(failure) =>
          if failure != FinderThrew(FinderFailure) {
            return;
          }
          if alarm.soundUrl.None? {
            hasCustomSound := false;
          }
          var _ := pusher.Send(SelectionFailedPush);
      }
    }

    /** `resetSound()`: forget the stored sound and fall back to the system beep for new loads. */
    method ResetSound()
      requires Valid()
      modifies this`hasCustomSound, alarm, saver`listing
      ensures Valid()
      ensures saver.listing == Removed(old(saver.listing), saver.faults)
      ensures alarm.State() == WithSoundUrl(old(alarm.State()), None, alarm.decodes)
      ensures !hasCustomSound
    {
      saver.ResetStore();
      alarm.SetSoundUrl(None);
      hasCustomSound := false;
    }

    /** The toggle in the menu: publishing a new `isCharging` runs `process`. */
    method Toggle(on: bool)
      requires Valid()
      modifies this`isCharging, tracker`tracking, alarm, pusher
      ensures Valid() && isCharging == on
      ensures !on ==> (!tracker.tracking && alarm.State() == Signalled(old(alarm.State()), false) &&
                       pusher.sent == old(pusher.sent))
      ensures on ==> (tracker.tracking == (old(tracker.tracking) || tracker.available) && unchanged(alarm) &&
                      pusher.sent == old(pusher.sent) + (if tracker.available then [] else [TrackingFailedPush]))
    {
      isCharging := on;
      Process(on);
    }

    /**
     * `process(_:)`: off stops the tracker (ignoring its error) and the alarm;
     * on starts the tracker, and a failure to start only sends one notification.
     */
    method Process(on: bool)
      requires Valid()
      modifies tracker`tracking, alarm, pusher
      ensures Valid()
      ensures !on ==> (!tracker.tracking && !alarm.IsOn() &&
                       alarm.State() == Signalled(old(alarm.State()), false) && pusher.sent == old(pusher.sent))
      ensures on ==> (tracker.tracking == (old(tracker.tracking) || tracker.available) && unchanged(alarm) &&
                      pusher.sent == old(pusher.sent) + (if tracker.available then [] else [TrackingFailedPush]))
    {
      if !on {
        var _ := tracker.StopTracking();
        alarm.Signal(false);
        return;
      }
      var started := tracker.StartTracking();
      if started.Fail? {
        var _ := pusher.Send(TrackingFailedPush);
      }
    }

    /** `onChange(_:)`: apply the alert rule to one reading from the tracker. */
    method OnChange(state: BatteryState)
      requires Valid()
      modifies alarm
      ensures Valid()
      ensures alarm.State() == SignalledAll(old(alarm.State()), AlertSignals(tracker.pluggedIn, state.status, old(alarm.IsOn())))
      ensures alarm.IsOn() == (if tracker.pluggedIn then false
                               else if state.status == NotCharging then true
                               else old(alarm.IsOn()))
    {
      var isPluggedIn := tracker.IsPowerAdapterPluggedIn();
      var isPowerOff := state.status == NotCharging;
      var isSignalEnabled := alarm.IsOn();
      ghost var before := alarm.State();
      if isPluggedIn && isSignalEnabled {
        alarm.Signal(false);
      }
      if !isPluggedIn && isPowerOff {
        alarm.Signal(true);
      }
      AlertRuleEffect(before, isPluggedIn, state.status);
      SignalledAtMostOnce(before, AlertSignals(isPluggedIn, state.status, isSignalEnabled));
    }

    /** `checkSound()`: load the stored sound, if there is one. */
    method CheckSound()
      requires Valid()
      modifies this`hasCustomSound, alarm
      ensures Valid()
      ensures var stored := saver.StoredUrl();
        (stored.None? ==> hasCustomSound == old(hasCustomSound) && unchanged(alarm)) &&
        (stored.Some? ==> hasCustomSound && alarm.State() == WithSoundUrl(old(alarm.State()), stored, alarm.decodes))
    {
      var url := saver.StoredUrl();
      if url.None? {
        return;
      }
      alarm.SetSoundUrl(url);
      hasCustomSound := true;
    }

    /**
     * `storeSound(_:)`: persist the sound; on failure the flag is cleared only
     * when the alarm has no sound URL at all. The flag and the URL stay in step
     * when there is one, as there always is when `selectSound` calls it.
     */
    method StoreSound(url: Url)
      requires Valid()
      modifies this`hasCustomSound, saver`listing, pusher
      ensures alarm.soundUrl.Some? ==> Valid()
      ensures var s := Saved(old(saver.listing), LastPathComponent(url), saver.faults);
        saver.listing == s.listing &&
        hasCustomSound == (s.outcome.Pass? || (old(hasCustomSound) && alarm.soundUrl.Some?)) &&
        pusher.sent == old(pusher.sent) + [if s.outcome.Pass? then SelectedPush else CantSavePush]
    {
      var saved := saver.Save(url);
      if saved.Pass? {
        hasCustomSound := true;
        var _ := pusher.Send(SelectedPush);
      } else {
        if alarm.soundUrl.None? {
          hasCustomSound := false;
        }
        var _ := pusher.Send(CantSavePush);
      }
    }
  }
}
