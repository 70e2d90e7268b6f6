# MacCableControl alert core in Dafny

MacCableControl is a macOS menu-bar app. It watches the power adapter and sounds a
repeating alarm when the Mac runs unplugged while not charging. The operator can
choose one custom alarm sound, which the app keeps in a single directory so that
it survives a restart. This project models the part of the app with real state
and proves properties of it:

- `alarm.dfy` (module `Alarms`): the repeating alarm of `Alarm.swift`. The state
  is a timer handle, a loaded sound and a sound URL. Ghost logs record the timers
  still scheduled and the audio requests made. `AlarmState` and the functions
  `Started`, `Stopped`, `Signalled`, `WithSoundUrl` and `Fired` are the
  specification. The class `Alarm` holds the same state in fields, and each of
  its methods is proved to update the fields as its function says.
- `saver.dfy` (module `Saving`): the single-slot sound store of `Saver.swift`.
  The managed directory is `None` when absent, or else the list of its entry
  names in listing order. `FsFaults` says which filesystem calls fail. `Saved`,
  `Checked`, `Cleared`, `Removed` and `StoredUrlOf` are the specification. The
  class `Saver` runs the same steps, with the per-entry removal loop of
  `clearDirectory`.
- `collaborators.dfy` (module `Collaborators`): the narrow interfaces of the
  charge tracker, the notification sender and the file picker. Their code is not
  part of this model.
- `coordination.dfy` (module `Coordination`): the alert rule `AlertSignals` and
  the class `MenuViewModel` (`MenuViewModel.swift`). That class covers the
  tracking toggle, the reaction to battery readings and the sound-slot flow.
  Its invariant `Valid()` keeps the custom-sound flag in step with the alarm:
  the flag is set only while the alarm has a sound URL.
- `tray.dfy` (module `Tray`): the older `TrayViewModel` (`TrayViewModel.swift`),
  which applies the same toggle and alert rules.
- `common.dfy` (module `Common`): URLs, sounds, battery readings and
  notifications.

Durations are opaque. A timer's period is either "the loaded sound's duration"
or "the 1.0 second default" (`Interval`). The operating system's answers are
fields that the model reads:

- whether a file decodes as a sound (`Alarm.decodes`);
- how the filesystem fails (`Saver.faults`);
- whether tracking can start and whether the adapter is plugged in (`ChargeTracker`);
- whether notifications are allowed (`Pusher`).

Every Combine sink callback is a plain method call. Toggling the switch is
`Toggle`, and a reading from the tracker is `OnChange`.

Several behaviours of the code differ from what an alarm of this kind is usually expected to do. The model follows the code:

- `start` overwrites the timer handle without invalidating the old timer, so the
  old repeat keeps firing beside the new one (`RestartKeepsOldTimer`,
  `RepeatedStartsLeak`). It is not a stop-then-start that keeps a single pulse
  schedule.
- Setting `soundURL` while the alarm runs does not restart the timer, so the old
  period goes on (`SoundChangeKeepsPeriod`). Setting it to nil keeps the loaded
  sound.
- When starting the tracker fails, `process` only sends a notification. It
  neither resets the toggle nor touches the alarm.
- Swift runs no `didSet` observer inside an initializer. So `Alarm(soundURL:)`
  stores the URL without loading a sound (`Alarms.Alarm.constructor`).
- `save` reports a directory that could not be created as `cantClearDirectory`.
  In this model, where existence checks are exact, `cantCreateDirectory` arises
  only when the directory has vanished between `checkDirectory` and the
  existence check that follows it (`CantCreateOnlyAfterCheck`).
- The menu's tracker is created with `sendRepeats: true`, so the same
  unplugged, not-charging reading can arrive twice. Each one calls
  `signal(true)`, and the second start overwrites the first handle. The
  plugged-in reading that follows invalidates only the newer timer, so the
  older one keeps beeping while `isOn` is false (`RepeatedUnplugLeaks`,
  `DoubleStartThenStopLeaks`). Even a single unplug-then-plug pair leaves the
  live timers exactly as before it, including one already leaked
  (`UnplugThenPlugScenario`).
- `copyItem` refuses to overwrite an existing entry. If a stale entry with the
  same name could not be removed, the copy fails with `cantSaveFile`.
- A copied file is listed after the entries that survived the clearing. Listing
  order is not specified by the filesystem; with every removal successful the
  directory holds only the copied file, so order does not matter there.

## Model

| member | source | states |
|---|---|---|
| `Common.Appending` | MacCableControl/Services/Saver/Saver.swift:61 | the appended URL ends in the given name and extends the directory path by one component |
| `Alarms.Load` | MacCableControl/Services/Alarm/Alarm.swift:16-19 | a sound is loaded exactly when the file decodes, and it comes from that URL |
| `Alarms.IntervalFor` | MacCableControl/Services/Alarm/Alarm.swift:45 | the timer period is the loaded sound's duration, and the 1.0 s default exactly when no sound is loaded |
| `Alarms.PulseFor` | MacCableControl/Services/Alarm/Alarm.swift:61-67 | a pulse plays the loaded sound if there is one, and the system beep exactly when there is none |
| `Alarms.Beeped` | MacCableControl/Services/Alarm/Alarm.swift:61-67 | a beep appends one pulse for the current sound and changes nothing else |
| `Alarms.Started` | MacCableControl/Services/Alarm/Alarm.swift:44-53 | start turns the alarm on with a fresh handle, schedules it at the current sound's period, keeps every other live timer and fires the first pulse at once |
| `Alarms.Stopped` | MacCableControl/Services/Alarm/Alarm.swift:55-59 | stop turns the alarm off, invalidates exactly the stored timer, requests the sound to stop if one is loaded, and keeps the sound |
| `Alarms.IsOn` | MacCableControl/Services/Alarm/Alarm.swift:11 | the alarm is on exactly when a handle is stored, and in a well-formed state that handle's timer is scheduled |
| `Alarms.SignalledAtMostOnce` | MacCableControl/Views/Tray/Menu/MenuViewModel.swift:109-110 | no `signal` call leaves the alarm as it is, and a single call is one `signal` |
| `Alarms.Signalled` | MacCableControl/Services/Alarm/Alarm.swift:37-39 | after `signal(on)`, `isOn` equals `on` |
| `Alarms.WithSoundUrl` | MacCableControl/Services/Alarm/Alarm.swift:13-21 | a non-nil URL reloads the sound; nil keeps the loaded sound; the timer and the live timers are untouched |
| `Alarms.Fired` | MacCableControl/Services/Alarm/Alarm.swift:49-51 | a tick of a live timer plays one pulse for the current sound and leaves the timers as they are |
| `Alarms.WellFormedPreserved` | MacCableControl/Services/Alarm/Alarm.swift:44-59 | signal, setting the URL and a tick keep the handle live and every live timer issued |
| `Alarms.LastSignalWins` | MacCableControl/Services/Alarm/Alarm.swift:37-39 | after any non-empty sequence of `signal` calls, `isOn` equals the last argument |
| `Alarms.StopIdempotent` | MacCableControl/Services/Alarm/Alarm.swift:55-59 | a second `signal(false)` changes nothing but logging one more stop request for the loaded sound |
| `Alarms.RestartKeepsOldTimer` | MacCableControl/Services/Alarm/Alarm.swift:46-51 | `signal(true)` while on replaces the handle but leaves the old timer live: one more live timer |
| `Alarms.RepeatedStartsLeak` | MacCableControl/Services/Alarm/Alarm.swift:44-53 | n calls of `signal(true)` leave n more live timers and cancel none |
| `Alarms.DoubleStartThenStopLeaks` | MacCableControl/Services/Alarm/Alarm.swift:44-59 | two starts and a stop leave the alarm off with the first start's timer still scheduled |
| `Alarms.SoundChangeKeepsPeriod` | MacCableControl/Services/Alarm/Alarm.swift:13-21 | setting a new sound URL while on keeps the running timer and its old period |
| `Alarms.Alarm.constructor` | MacCableControl/Services/Alarm/Alarm.swift:26-28 | a new alarm is off, stores the URL and has no sound loaded |
| `Alarms.Alarm.IsOn` | MacCableControl/Services/Alarm/Alarm.swift:11 | `isOn` of a valid alarm means its stored timer is scheduled |
| `Alarms.Alarm.SetSoundUrl` | MacCableControl/Services/Alarm/Alarm.swift:13-21 | assigning `soundURL` moves the state as `WithSoundUrl` |
| `Alarms.Alarm.Signal` | MacCableControl/Services/Alarm/Alarm.swift:37-39 | `signal` moves the state as `Signalled`, and `isOn` becomes its argument |
| `Alarms.Alarm.Start` | MacCableControl/Services/Alarm/Alarm.swift:44-53 | `start` moves the state as `Started` |
| `Alarms.Alarm.Stop` | MacCableControl/Services/Alarm/Alarm.swift:55-59 | `stop` moves the state as `Stopped` |
| `Alarms.Alarm.Beep` | MacCableControl/Services/Alarm/Alarm.swift:61-67 | `beep` moves the state as `Beeped` |
| `Alarms.Alarm.Fire` | MacCableControl/Services/Alarm/Alarm.swift:46-51 | a tick of a live timer moves the state as `Fired` |
| `Alarms.Alarm.Deinit` | MacCableControl/Services/Alarm/Alarm.swift:30-32 | deinitialisation stops the alarm, so no handle remains |
| `Saving.WithoutMembers` | MacCableControl/Services/Saver/Saver.swift:92 | removing an entry leaves exactly the other entries |
| `Saving.SweptMembers` | MacCableControl/Services/Saver/Saver.swift:89-92 | after trying to remove each of a list of names, an entry remains exactly when it was not named or could not be removed |
| `Saving.Cleared` | MacCableControl/Services/Saver/Saver.swift:89-92 | clearing keeps the directory's existence and leaves exactly its undeletable entries |
| `Saving.Removed` | MacCableControl/Services/Saver/Saver.swift:84-87 | removing the whole directory leaves it absent, or unchanged when the removal fails (a partial recursive removal is not modelled); never an error |
| `Saving.Checked` | MacCableControl/Services/Saver/Saver.swift:68-80 | the check fails exactly when the directory is absent and cannot be created; on success the directory exists, cleared if it existed |
| `Saving.Saved` | MacCableControl/Services/Saver/Saver.swift:28-52 | `cantClearDirectory` exactly when the directory is absent and cannot be created; on success the copied name is the last entry and the directory holds it plus the undeletable old entries; after a failure any remaining directory holds only the undeletable old entries |
| `Saving.StoredUrlOf` | MacCableControl/Services/Saver/Saver.swift:58-63 | nil exactly when the directory is absent or empty, otherwise the directory URL with the last listed entry |
| `Saving.ClearedEmpties` | MacCableControl/Services/Saver/Saver.swift:89-92 | when every removal works, clearing leaves an existing directory empty |
| `Saving.ClearMissingOrEmptyIsNoop` | MacCableControl/Services/Saver/Saver.swift:89-90 | clearing a missing or empty directory changes nothing |
| `Saving.SaveClearsFirst` | MacCableControl/Services/Saver/Saver.swift:29-51 | on an existing directory, save never fails in the directory steps, clears it first and copies only into the cleared directory |
| `Saving.SaveThenStored` | MacCableControl/Services/Saver/Saver.swift:44-63 | a successful save with working removals leaves exactly the copied file, and `storedURL` returns it under the source's file name |
| `Saving.CreateFailureReportedAsClear` | MacCableControl/Services/Saver/Saver.swift:29-33 | an absent directory that cannot be created makes save throw `cantClearDirectory` and leaves it absent |
| `Saving.CantCreateOnlyAfterCheck` | MacCableControl/Services/Saver/Saver.swift:35-42 | save throws `cantCreateDirectory` exactly when the check passed and the directory is gone afterwards |
| `Saving.CopyFailureLeavesCleared` | MacCableControl/Services/Saver/Saver.swift:44-51 | after `cantSaveFile` the directory is as the check left it: existing, cleared, empty when every removal worked |
| `Saving.ResetThenNothingStored` | MacCableControl/Services/Saver/Saver.swift:54-63 | after a successful reset, `storedURL` returns nil |
| `Saving.Saver.constructor` | MacCableControl/Services/Saver/Saver.swift:18-23 | the directory is the home directory plus the given name, `.mcc_app_data` by default |
| `Saving.Saver.Save` | MacCableControl/Services/Saver/Saver.swift:28-52 | `save` returns and leaves the directory as `Saved` says |
| `Saving.Saver.ResetStore` | MacCableControl/Services/Saver/Saver.swift:54-56 | `resetStore` leaves the directory as `Removed` says |
| `Saving.Saver.StoredUrl` | MacCableControl/Services/Saver/Saver.swift:58-63 | nil exactly when the directory is absent or empty, otherwise a URL whose last component is the last listed entry |
| `Saving.Saver.CheckDirectory` | MacCableControl/Services/Saver/Saver.swift:68-80 | `checkDirectory` returns and leaves the directory as `Checked` says |
| `Saving.Saver.ClearDirectory` | MacCableControl/Services/Saver/Saver.swift:82-93 | `clearDirectory` leaves the directory as `Removed` (totally) or `Cleared` says |
| `Saving.Saver.RemoveEach` | MacCableControl/Services/Saver/Saver.swift:92 | the directory ends as one removal attempt per listed entry, in listing order (`Swept`), so exactly the undeletable entries remain |
| `Collaborators.ChargeTracker.constructor` | MacCableControl/Views/Tray/Menu/MenuViewModel.swift:20 | a new tracker is not tracking |
| `Collaborators.ChargeTracker.IsPowerAdapterPluggedIn` | MacCableControl/Views/Tray/Menu/MenuViewModel.swift:105 | returns the adapter reading the system reports now |
| `Collaborators.ChargeTracker.StartTracking` | MacCableControl/Views/Tray/Menu/MenuViewModel.swift:93 | starting fails exactly when the system refuses, and a running session is kept |
| `Collaborators.ChargeTracker.StopTracking` | MacCableControl/Views/Tray/Menu/MenuViewModel.swift:87 | stopping always ends the session, with an error when none was running |
| `Collaborators.Pusher.constructor` | MacCableControl/Views/Tray/Menu/MenuViewModel.swift:19 | a new sender has sent nothing |
| `Collaborators.Pusher.Send` | MacCableControl/Views/Tray/Menu/MenuViewModel.swift:49-54 | each `send` call is logged once, in order; delivery fails exactly without permission |
| `Coordination.AlertSignals` | MacCableControl/Views/Tray/Menu/MenuViewModel.swift:104-111 | one reading makes at most one `signal` call: off exactly when plugged in and playing, on exactly when unplugged and not charging, never on while plugged in |
| `Coordination.AlertRuleEffect` | MacCableControl/Views/Tray/Menu/MenuViewModel.swift:104-111 | after a reading the alarm is off if plugged in, on if unplugged and not charging, and otherwise exactly as before |
| `Coordination.NeverOnWhilePlugged` | MacCableControl/Views/Tray/Menu/MenuViewModel.swift:109-110 | a plugged-in reading never leaves the alarm on, and makes no call when it is already off |
| `Coordination.UnplugThenPlugScenario` | MacCableControl/Views/Tray/Menu/MenuViewModel.swift:85-111 | unplugged and not charging turns the alarm on, the next plugged-in reading turns it off, and turning tracking off keeps it off; the live timers are then exactly those from before the first reading |
| `Coordination.RepeatedUnplugLeaks` | MacCableControl/Views/Tray/Menu/MenuViewModel.swift:104-111 | two unplugged, not-charging readings and then a plugged-in one leave the alarm off with the first reading's timer still live |
| `Coordination.UnpluggedChargingKeepsAlarm` | MacCableControl/Views/Tray/Menu/MenuViewModel.swift:110 | an unplugged reading with any status but not-charging changes nothing |
| `Coordination.MenuViewModel.constructor` | MacCableControl/Views/Tray/Menu/MenuViewModel.swift:17-29 | the services are fresh and carry the machine's answers (tracker with repeats on, the `MCC-Data` store); start-up processes no toggle or reading, does not track, and loads the stored sound and sets the flag exactly when one is stored; the flag implies a sound URL |
| `Coordination.MenuViewModel.SelectSound` | MacCableControl/Views/Tray/Menu/MenuViewModel.swift:34-56 | a picked file becomes the sound URL and is saved; a failed save then never clears the flag; cancellation and foreign errors change nothing and send nothing; another picker error sends "Selection failed!" and clears the flag only without a sound URL; only the directory listing of the store changes, never the filesystem's answers |
| `Coordination.MenuViewModel.ResetSound` | MacCableControl/Views/Tray/Menu/MenuViewModel.swift:58-62 | reset removes the store, sets the sound URL to nil (keeping the loaded sound) and clears the flag; only the directory listing of the store changes, never the filesystem's answers |
| `Coordination.MenuViewModel.Toggle` | MacCableControl/Views/Tray/Menu/MenuViewModel.swift:67-74 | a new toggle value is published and processed |
| `Coordination.MenuViewModel.Process` | MacCableControl/Views/Tray/Menu/MenuViewModel.swift:85-102 | off stops the tracker and the alarm; on starts the tracker, and a failed start sends exactly one "Tracking failed!" and leaves the alarm alone |
| `Coordination.MenuViewModel.OnChange` | MacCableControl/Views/Tray/Menu/MenuViewModel.swift:104-111 | the alarm makes exactly the calls `AlertSignals` lists, ending off when plugged in, on when unplugged and not charging, else unchanged |
| `Coordination.MenuViewModel.CheckSound` | MacCableControl/Views/Tray/Menu/MenuViewModel.swift:117-122 | a stored URL becomes the sound URL and sets the flag; without one nothing changes |
| `Coordination.MenuViewModel.StoreSound` | MacCableControl/Views/Tray/Menu/MenuViewModel.swift:124-147 | the directory moves as `Saved` says under unchanged filesystem answers; success sets the flag and sends "Successfully selected!"; failure sends "Cant save selected sound!" and clears the flag only without a sound URL; the view model stays valid whenever the alarm has a sound URL, as it does after `selectSound` sets one |
| `Tray.TrayViewModel.constructor` | MacCableControl/Views/Tray/TrayViewModel.swift:19-29 | construction touches none of the services: the initial values are dropped |
| `Tray.TrayViewModel.Toggle` | MacCableControl/Views/Tray/TrayViewModel.swift:34-41 | a new toggle value is published and processed |
| `Tray.TrayViewModel.Process` | MacCableControl/Views/Tray/TrayViewModel.swift:52-69 | off stops the tracker and the alarm; a failed start sends exactly one "Tracking failed!" and leaves the alarm alone |
| `Tray.TrayViewModel.OnChange` | MacCableControl/Views/Tray/TrayViewModel.swift:71-78 | the same alert rule as the menu's view model |

## Left out

- Real timers, sound playback and durations as floating-point seconds. A timer
  is an id with an opaque period, and playback is an entry in a ghost log.
- Loading a sound file. Whether a file decodes is the function `Alarm.decodes`.
- Real `FileManager` behaviour: path strings, the home directory lookup, and the
  `isDirectory` out-flag. A regular file at the directory's path is not
  modelled. Filesystem failures are the flags in `FsFaults`.
- The order of a directory listing. A copied file is appended after the entries
  that survived the clearing.
- Combine subscriptions, `Task`, `async` and `@MainActor`. Each sink callback is
  a sequential method call, and nothing runs concurrently.
- The bodies of `ChargeTracker`, `Finder` and `Pusher`, including the request
  for notification permission made at start-up, are not part of this model.
  Their interfaces are modelled. The tracker's deduplication of repeated readings
  (`sendRepeats`) is kept as a constant but not modelled, because its body is not
  shown.
- `Finder.Errors` cases other than `selectionCancelled` are not shown. One case,
  `FinderFailure`, stands for all of them.
- `Saving.Removed`: `removeItem` deletes recursively and can fail after removing
  part of the tree; the model keeps the directory whole when the removal fails.
- Path encoding: `directory.path()` percent-encodes the path it returns by
  default, so a home path that needs encoding can make an existing directory
  look absent to `fileExists`. The model treats every existence check as exact,
  so the `cantClearDirectory` or `cantCreateDirectory` that would follow is not
  modelled.
- Window and menu construction, the click handling, the toggle style and the app
  entry points: user-interface code with no state of the core.
