/** The widget as a whole: `updateClock` composed from the clock face and the
    alarm controller, every event the page can deliver, and properties of
    arbitrary event sequences. */
module Clock {
  import opened TimeOfDay
  import opened Optional
  import opened AlarmWindow
  import opened AudioOutput
  import opened ClockFace
  import opened AlarmController

  /** Everything one run of `updateClock` writes to the page. */
  datatype Display = Display(hands: HandAngles, readout: Readout)

  datatype ClockUpdate = ClockUpdate(step: Step, display: Display)

  /** `updateClock` on the reading `r` of the local clock. */
  function UpdateClock(c: Controller, r: ClockReading): (u: ClockUpdate)
    ensures u.display.hands.hourHalfDegrees / 60 == r.hours
    ensures u.display.hands.minuteHalfDegrees / 12 == r.minutes
    ensures u.display.hands.secondHalfDegrees / 12 == r.seconds
    ensures |u.display.readout.hours| == 2 && |u.display.readout.minutes| == 2 && |u.display.readout.seconds| == 2
    ensures u.display.readout.ampm == "AM" <==> r.hours < 12
    ensures c.alarmEnabled ==> (u.step.next.isAlarmActive <==> ShouldAlarm(r.minutes, r.seconds))
    ensures !c.alarmEnabled ==> u.step.next == c && u.step.sound.None?
    ensures Valid(c) ==> Valid(u.step.next)
  {
    ClockUpdate(Tick(c, r.minutes, r.seconds), Display(HandAnglesAt(r), ReadoutAt(r)))
  }

  /** Everything that can reach the controller. */
  datatype Event =
    | ClockTick(reading: ClockReading)
    | ToggleClicked
    | TestClicked(constructionSucceeds: bool)
    | TestTimeout
    | IntervalElapsed(id: TimerId)
    | Gestured(gesture: Gesture, constructionSucceeds: bool)

  function Handle(c: Controller, e: Event): (r: Step)
    ensures Valid(c) ==> Valid(r.next)
    ensures c.audioInitialized ==> r.next.audioInitialized
  {
    match e
    case ClockTick(reading) => UpdateClock(c, reading).step
    case ToggleClicked => Step(Toggle(c), None)
    case TestClicked(ok) => TestAlarm(c, ok)
    case TestTimeout => Step(TestRevert(c), None)
    case IntervalElapsed(id) => IntervalFired(c, id)
    case Gestured(g, ok) => Step(UserGesture(c, g, ok), None)
  }

  /** State after delivering `events` in order. */
  function Run(c: Controller, events: seq<Event>): Controller
    decreases |events|
  {
    if |events| == 0 then c else Run(Handle(c, events[0]).next, events[1..])
  }

  /** Sounds emitted while delivering `events` in order. */
  function Sounds(c: Controller, events: seq<Event>): seq<Sound>
    decreases |events|
  {
    if |events| == 0 then []
    else
      var s := Handle(c, events[0]);
      (if s.sound.Some? then [s.sound.value] else []) + Sounds(s.next, events[1..])
  }

  /** Every sequence of events preserves the invariants: the handle is present
      iff the alarm rings, only an enabled alarm rings, and at most one
      repeating timer is ever live. */
  lemma {:induction false} RunPreservesValid(c: Controller, events: seq<Event>)
    requires Valid(c)
    ensures Valid(Run(c, events))
    ensures |Run(c, events).liveIntervals| <= 1
    decreases |events|
  {
    if |events| > 0 {
      RunPreservesValid(Handle(c, events[0]).next, events[1..]);
    }
  }

  /** Every state the page can reach from load satisfies the invariants. */
  lemma ReachableValid(events: seq<Event>)
    ensures Valid(Run(Initial, events))
  {
    InitialValid();
    RunPreservesValid(Initial, events);
  }

  /** Once the audio context exists it stays. */
  lemma {:induction false} RunKeepsAudio(c: Controller, events: seq<Event>)
    requires c.audioInitialized
    ensures Run(c, events).audioInitialized
    decreases |events|
  {
    if |events| > 0 {
      RunKeepsAudio(Handle(c, events[0]).next, events[1..]);
    }
  }

  /** Once initialised, every sound played is the synthesized tone. */
  lemma {:induction false} RunSoundsSynthesizedOnceInitialized(c: Controller, events: seq<Event>)
    requires c.audioInitialized
    ensures forall i :: 0 <= i < |Sounds(c, events)| ==> Sounds(c, events)[i] == SynthesizedBeep
    decreases |events|
  {
    if |events| > 0 {
      var s := Handle(c, events[0]);
      RunSoundsSynthesizedOnceInitialized(s.next, events[1..]);
    }
  }

  /** Two consecutive ticks inside the alarm window: the second tick registers
      no second repeating timer and plays nothing. */
  lemma RepeatedTickNoSecondInterval(c: Controller, r1: ClockReading, r2: ClockReading)
    requires Valid(c) && c.alarmEnabled
    requires ShouldAlarm(r1.minutes, r1.seconds) && ShouldAlarm(r2.minutes, r2.seconds)
    ensures var s1 := Handle(c, ClockTick(r1));
            var s2 := Handle(s1.next, ClockTick(r2));
            && s2.next == s1.next
            && s2.sound.None?
            && |s2.next.liveIntervals| == 1
  {
  }

  /** Disabling while ringing silences at once; enabling again does not ring
      until a tick inside the window. */
  lemma DisableThenEnableDoesNotRing(c: Controller)
    requires Valid(c) && c.isAlarmActive
    ensures var off := Toggle(c);
            && !off.isAlarmActive && !off.alarmVisual && off.liveIntervals == {}
            && !Toggle(off).isAlarmActive && Toggle(off).liveIntervals == {}
  {
  }

  /** ... and the next tick rings again only when the predicate holds. */
  lemma ReenabledRingsOnlyInWindow(c: Controller, r: ClockReading)
    requires Valid(c) && c.isAlarmActive
    ensures Handle(Toggle(Toggle(c)), ClockTick(r)).next.isAlarmActive <==> ShouldAlarm(r.minutes, r.seconds)
  {
  }

  /** A test during a real alarm: when its 2 s reversion runs, the alarm
      styling stays, and the status keeps the testing message the test wrote
      over the alarm message. */
  lemma TestDuringAlarmKeepsVisual(c: Controller, ok: bool)
    requires Valid(c) && c.isAlarmActive
    ensures var after := TestRevert(TestAlarm(c, ok).next);
            && after.isAlarmActive && after.alarmVisual
            && after.status == Testing
            && after.pendingTestReverts == c.pendingTestReverts
  {
  }

  /** A test while idle: when the reversion runs, the styling is gone and the
      idle status is back. */
  lemma TestWhileIdleReverts(c: Controller, ok: bool)
    requires Valid(c) && !c.isAlarmActive
    ensures var after := TestRevert(TestAlarm(c, ok).next);
            && !after.alarmVisual && after.status == IdleStatus(c.alarmEnabled)
            && Valid(after)
  {
  }

  /** From a quiet state (no styling shown), a test followed by its reversion
      leaves everything as it was except the audio flag, which the test may
      have set. */
  lemma TestFromQuietStateFullyUndone(c: Controller, ok: bool)
    requires Valid(c) && !c.isAlarmActive && !c.alarmVisual
    ensures var after := TestRevert(TestAlarm(c, ok).next);
            after == c.(audioInitialized := after.audioInitialized)
  {
  }

  /** The one-shot document listeners: after a click whose audio construction
      failed, further clicks never initialise audio (only the test button or
      the first touch can). */
  lemma FailedFirstClickIsNotRetried(c: Controller, ok: bool)
    requires c.clickListenerArmed && !c.audioInitialized
    ensures var first := UserGesture(c, PointerClick, false);
            !first.audioInitialized && !UserGesture(first, PointerClick, ok).audioInitialized
  {
  }

  /** A failed construction does not rule the synthesized tone out for the
      session: a later test click constructs the context again, and when that
      succeeds its beep is the synthesized tone. */
  lemma FailedConstructionIsRetried(c: Controller)
    requires c.clickListenerArmed && !c.audioInitialized
    ensures var failed := UserGesture(c, PointerClick, false);
            && !failed.audioInitialized
            && TestAlarm(failed, true).next.audioInitialized
            && TestAlarm(failed, true).sound == Some(SynthesizedBeep)
  {
  }

  /** The first tick after load, inside the window, starts the alarm with
      the recorded clip because audio has not been initialised yet. */
  lemma FirstTickInWindowUsesClip(r: ClockReading)
    requires ShouldAlarm(r.minutes, r.seconds)
    ensures Handle(Initial, ClockTick(r)).sound == Some(FallbackClip)
    ensures Handle(Initial, ClockTick(r)).next.isAlarmActive
  {
  }
}
