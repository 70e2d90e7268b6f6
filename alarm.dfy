/**
 * The repeating audible alert (class `Alarm` in Alarm.swift).
 *
 * The first half is the specification: the alarm's state as a value and one
 * function per operation. The class `Alarm` at the end holds the same state in
 * fields and updates it in place; each of its methods is proved to move its
 * fields exactly as the matching function says.
 */
module Alarms {
  import opened Common

  /** Identity of a scheduled repeating timer: the n-th timer an alarm schedules is n. */
  type TimerId = nat

  /** Repeat period of a timer, kept opaque: the loaded sound's duration, or the 1.0 second default. */
  datatype Interval = DefaultSecond | DurationOf(sound: Sound)

  /** What the alarm asks of the audio system. */
  datatype AudioEvent =
    | Played(sound: Sound)   // `sound.play()`
    | SystemBeep             // `NSSound.beep()`
    | Halted(sound: Sound)   // `sound.stop()`

  /**
   * The alarm's state. `timer` is the stored handle (`process`); `issued` counts
   * the timers ever scheduled; `live` maps each scheduled timer that has not been
   * invalidated to its period; `output` logs the audio requests in order.
   */
  datatype AlarmState = AlarmState(
    timer: Option<TimerId>,
    sound: Option<Sound>,
    soundUrl: Option<Url>,
    issued: nat,
    live: map<TimerId, Interval>,
    output: seq<AudioEvent>)

  /** `isOn`: a timer handle is stored; in a well-formed state, its timer is still scheduled. */
  predicate IsOn(a: AlarmState): (on: bool)
    ensures on && WellFormed(a) ==> a.timer.Some? && a.timer.value in a.live
  {
    a.timer.Some?
  }

  /** Every live timer was issued, and the stored handle is live. */
  predicate WellFormed(a: AlarmState) {
    (forall id :: id in a.live ==> id < a.issued) &&
    (a.timer.Some? ==> a.timer.value in a.live)
  }

  /** `NSSound(contentsOf:byReference:)`: a sound when the file decodes, nil otherwise. */
  function Load(u: Url, decodes: Url -> bool): (s: Option<Sound>)
    ensures s.Some? <==> decodes(u)
    ensures s.Some? ==> s.value.source == u
  {
    if decodes(u) then Some(Sound(u)) else None
  }

  /** `sound?.duration ?? 1.0`. */
  function IntervalFor(sound: Option<Sound>): (i: Interval)
    ensures i == DefaultSecond <==> sound.None?
    ensures sound.Some? ==> i == DurationOf(sound.value)
  {
    match sound
    case Some(s) => DurationOf(s)
    case None => DefaultSecond
  }

  /** The audio request of one pulse: the loaded sound, else the system beep. */
  function PulseFor(sound: Option<Sound>): (e: AudioEvent)
    ensures e == SystemBeep <==> sound.None?
    ensures sound.Some? ==> e == Played(sound.value)
    ensures !e.Halted?
  {
    match sound
    case Some(s) => Played(s)
    case None => SystemBeep
  }

  /** `beep()`: one pulse with whatever sound is loaded now. */
  function Beeped(a: AlarmState): (b: AlarmState)
    ensures b.output == a.output + [PulseFor(a.sound)]
    ensures b.(output := a.output) == a
  {
    a.(output := a.output + [PulseFor(a.sound)])
  }

  /**
   * `start()`: schedule a fresh repeating timer at the current sound's period,
   * store it as the handle, then `fire()` it once. A previous handle is
   * overwritten, not invalidated.
   */
  function Started(a: AlarmState): (b: AlarmState)
    ensures IsOn(b) && b.timer == Some(a.issued)
    ensures a.issued in b.live && b.live[a.issued] == IntervalFor(a.sound)
    ensures forall id :: id in a.live && id != a.issued ==> id in b.live && b.live[id] == a.live[id]
    ensures b.output == a.output + [PulseFor(a.sound)]
    ensures b.sound == a.sound && b.soundUrl == a.soundUrl
  {
    Beeped(a.(timer := Some(a.issued), issued := a.issued + 1, live := a.live[a.issued := IntervalFor(a.sound)]))
  }

  /** `stop()`: stop the sound, invalidate the stored timer and clear the handle. */
  function Stopped(a: AlarmState): (b: AlarmState)
    ensures !IsOn(b)
    ensures a.timer.Some? ==> b.live == a.live - {a.timer.value}
    ensures a.timer.None? ==> b.live == a.live
    ensures b.output == a.output + (if a.sound.Some? then [Halted(a.sound.value)] else [])
    ensures b.sound == a.sound && b.soundUrl == a.soundUrl && b.issued == a.issued
  {
    a.(output := if a.sound.Some? then a.output + [Halted(a.sound.value)] else a.output,
       live := if a.timer.Some? then a.live - {a.timer.value} else a.live,
       timer := None)
  }

  /** `signal(isOn)`. */
  function Signalled(a: AlarmState, on: bool): (b: AlarmState)
    ensures IsOn(b) == on
  {
    if on then Started(a) else Stopped(a)
  }

  /** A sequence of `signal` calls, first to last. */
  function SignalledAll(a: AlarmState, ons: seq<bool>): AlarmState
    decreases |ons|
  {
    if ons == [] then a else SignalledAll(Signalled(a, ons[0]), ons[1..])
  }

  /** No call leaves the alarm as it is, and a single call is one `signal`. */
  lemma SignalledAtMostOnce(a: AlarmState, ons: seq<bool>)
    requires |ons| <= 1
    ensures SignalledAll(a, ons) == if ons == [] then a else Signalled(a, ons[0])
  {
    if ons != [] {
      assert ons[1..] == [];
    }
  }

  /**
   * Assigning `soundURL`: the didSet observer reloads the sound only for a
   * non-nil URL; nil keeps the loaded sound. A running timer is left alone.
   */
  function WithSoundUrl(a: AlarmState, url: Option<Url>, decodes: Url -> bool): (b: AlarmState)
    ensures b.soundUrl == url
    ensures url.None? ==> b.sound == a.sound
    ensures url.Some? ==> b.sound == Load(url.value, decodes)
    ensures b.timer == a.timer && b.live == a.live && b.issued == a.issued && b.output == a.output
  {
    match url
    case None => a.(soundUrl := None)
    case Some(u) => a.(soundUrl := url, sound := Load(u, decodes))
  }

  /** A tick of a live repeating timer: its block calls `beep()`. */
  function Fired(a: AlarmState, id: TimerId): (b: AlarmState)
    requires id in a.live
    ensures b.output == a.output + [PulseFor(a.sound)]
    ensures b.timer == a.timer && b.live == a.live
  {
    Beeped(a)
  }

  /** Every operation keeps the state well formed. */
  lemma WellFormedPreserved(a: AlarmState, on: bool, url: Option<Url>, decodes: Url -> bool, id: TimerId)
    requires WellFormed(a)
    ensures WellFormed(Signalled(a, on))
    ensures WellFormed(WithSoundUrl(a, url, decodes))
    ensures id in a.live ==> WellFormed(Fired(a, id))
  {
  }

  /** After any non-empty sequence of `signal` calls, `isOn` equals the last argument. */
  lemma {:induction false} LastSignalWins(a: AlarmState, ons: seq<bool>)
    requires ons != []
    ensures IsOn(SignalledAll(a, ons)) == ons[|ons| - 1]
    decreases |ons|
  {
    if |ons| > 1 {
      LastSignalWins(Signalled(a, ons[0]), ons[1..]);
    }
  }

  /**
   * `signal(false)` twice is `signal(false)` once as far as the handle, the live
   * timers and the sound go; only a second `sound.stop()` request is logged.
   */
  lemma StopIdempotent(a: AlarmState)
    ensures var once := Stopped(a); var twice := Stopped(once);
      twice.(output := once.output) == once &&
      twice.output == once.output + (if a.sound.Some? then [Halted(a.sound.value)] else [])
  {
  }

  /**
   * `signal(true)` while already on keeps the previous timer live: the old
   * repeat goes on beside the new one, one more live timer than before.
   */
  lemma RestartKeepsOldTimer(a: AlarmState)
    requires WellFormed(a) && IsOn(a)
    ensures var b := Started(a);
      a.timer.value in b.live && b.timer != a.timer && |b.live| == |a.live| + 1
  {
    assert a.issued !in a.live;
  }

  /** `n` calls of `signal(true)` leave `n` more live timers: none of them is ever cancelled. */
  lemma {:induction false} RepeatedStartsLeak(a: AlarmState, n: nat)
    requires WellFormed(a)
    ensures var b := SignalledAll(a, seq(n, _ => true));
      WellFormed(b) && |b.live| == |a.live| + n && a.live.Keys <= b.live.Keys
    decreases n
  {
    if n > 0 {
      var ons := seq(n, _ => true);
      assert ons[0] && ons[1..] == seq(n - 1, _ => true);
      var s := Started(a);
      assert a.issued !in a.live;
      RepeatedStartsLeak(s, n - 1);
    }
  }

  /**
   * Two starts and one stop: the stop invalidates only the second timer, so the
   * first one stays scheduled while the alarm reports off.
   */
  lemma DoubleStartThenStopLeaks(a: AlarmState)
    requires WellFormed(a)
    ensures var b := Stopped(Started(Started(a)));
      !IsOn(b) && b.live == a.live[a.issued := IntervalFor(a.sound)]
  {
    var r1 := Started(a);
    var r2 := Started(r1);
    assert a.issued !in a.live;
    assert a.issued + 1 !in r1.live;
    assert r2.live - {a.issued + 1} == r1.live;
  }

  /** A sound URL set while the alarm runs does not touch the timer: the old period goes on. */
  lemma SoundChangeKeepsPeriod(a: AlarmState, u: Url, decodes: Url -> bool)
    requires WellFormed(a) && IsOn(a)
    ensures var b := WithSoundUrl(a, Some(u), decodes);
      IsOn(b) && b.live[b.timer.value] == a.live[a.timer.value]
  {
  }

  /**
   * The alarm object. `timer` is the source's `process` handle, `issued` the
   * allocation of fresh timers; `live` and `output` are ghost logs of the timers
   * still scheduled and of the audio requests made. `decodes` says which files
   * load as a sound.
   */
  class Alarm {
    var soundUrl: Option<Url>
    var sound: Option<Sound>
    var timer: Option<TimerId>
    var issued: nat
    ghost var live: map<TimerId, Interval>
    ghost var output: seq<AudioEvent>
    const decodes: Url -> bool

    ghost function State(): AlarmState
      reads this
    {
      AlarmState(timer, sound, soundUrl, issued, live, output)
    }

    ghost predicate Valid()
      reads this
    {
      WellFormed(State())
    }

    /** `isOn` (read as `isPlaying` by the view models). */
    predicate IsOn(): (on: bool)
      reads this
      ensures on && Valid() ==> timer.Some? && timer.value in live
    {
      timer.Some?
    }

    /** `init(soundURL:)`: Swift runs no didSet inside the initializer, so no sound is loaded. */
    constructor(soundUrl: Option<Url>, decodes: Url -> bool)
      ensures Valid() && this.decodes == decodes
      ensures State() == AlarmState(None, None, soundUrl, 0, map[], [])
    {
      this.soundUrl := soundUrl;
      this.decodes := decodes;
      sound := None;
      timer := None;
      issued := 0;
      live := map[];
      output := [];
    }

    /** Assigning `soundURL`, with its didSet observer. */
    method SetSoundUrl(url: Option<Url>)
      requires Valid()
      modifies this
      ensures Valid()
      ensures State() == WithSoundUrl(old(State()), url, decodes)
    {
      soundUrl := url;
      if url.Some? {
        sound := Load(url.value, decodes);
      }
    }

    method Signal(on: bool)
      requires Valid()
      modifies this
      ensures Valid() && IsOn() == on
      ensures State() == Signalled(old(State()), on)
    {
      if on {
        Start();
      } else {
        Stop();
      }
    }

    method Start()
      requires Valid()
      modifies this
      ensures Valid()
      ensures State() == Started(old(State()))
    {
      var interval := IntervalFor(sound);
      var id := issued;
      issued := issued + 1;
      live := live[id := interval];
      timer := Some(id);
      Beep();
    }

    method Stop()
      requires Valid()
      modifies this
      ensures Valid()
      ensures State() == Stopped(old(State()))
    {
      if sound.Some? {
        output := output + [Halted(sound.value)];
      }
      if timer.Some? {
        live := live - {timer.value};
      }
      timer := None;
    }

    method Beep()
      modifies this
      ensures State() == Beeped(old(State()))
    {
      match sound {
        case None => output := output + [SystemBeep];
        case Some(s) => output := output + [Played(s)];
      }
    }

    /** A later tick of the live repeating timer `id`. */
    method Fire(id: TimerId)
      requires Valid() && id in live
      modifies this
      ensures Valid()
      ensures State() == Fired(old(State()), id)
    {
      Beep();
    }

    /** `deinit`: the instance always stops before it goes away. */
    method Deinit()
      requires Valid()
      modifies this
      ensures Valid() && !IsOn()
      ensures State() == Stopped(old(State()))
    {
      Stop();
    }
  }
}
