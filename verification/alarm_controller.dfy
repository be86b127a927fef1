/** The alarm controller: the global variables of the widget gathered into
    one immutable record, and one pure transition per event that can reach
    it (clock tick, the two buttons, the timers, the first user gesture).
    The DOM writes become fields: one flag for the `alarm-active` / `active`
    classes, the status line and the toggle button's label. */
module AlarmController {
  import opened TimeOfDay
  import opened Optional
  import opened AlarmWindow
  import opened AudioOutput

  /** Identifier returned by `setInterval`. */
  type TimerId = nat

  /** What the status line says. */
  datatype Status = Ready | Disabled | AlarmMessage | Testing

  function StatusText(st: Status): string {
    match st
    case Ready => "5-Minute Interval Alarm: Ready"
    case Disabled => "5-Minute Interval Alarm: Disabled"
    case AlarmMessage => "\U{1F6A8} ALARM: Last 10 seconds of 5-minute interval!"
    case Testing => "\U{1F50A} Testing alarm sound..."
  }

  /** Text of the toggle button. */
  datatype ToggleLabel = EnableAlarm | DisableAlarm

  function LabelText(l: ToggleLabel): string {
    match l
    case EnableAlarm => "Enable Alarm"
    case DisableAlarm => "Disable Alarm"
  }

  /** Status shown when nothing is ringing: depends on the enabled flag only. */
  function IdleStatus(enabled: bool): Status {
    if enabled then Ready else Disabled
  }

  /** Label the toggle button carries for a given enabled flag. */
  function LabelFor(enabled: bool): ToggleLabel {
    if enabled then DisableAlarm else EnableAlarm
  }

  /** The four status lines are different texts, so the status line shows
      which state the alarm is in. */
  lemma StatusTextDistinct(a: Status, b: Status)
    requires StatusText(a) == StatusText(b)
    ensures a == b
  {
  }

  /** The two button labels are different texts. */
  lemma LabelTextDistinct(a: ToggleLabel, b: ToggleLabel)
    requires LabelText(a) == LabelText(b)
    ensures a == b
  {
  }

  datatype Controller = Controller(
    alarmEnabled: bool,
    isAlarmActive: bool,
    // `alarmInterval`: the handle of the 500 ms re-trigger, if any
    alarmInterval: Option<TimerId>,
    // every repeating timer registered and not yet cleared
    liveIntervals: set<TimerId>,
    // the id the next `setInterval` returns
    nextTimerId: TimerId,
    audioInitialized: bool,
    // `alarm-active` on the clock face and readout, `active` on the status line
    alarmVisual: bool,
    status: Status,
    toggleLabel: ToggleLabel,
    // 2 s test reversions scheduled and not yet run
    pendingTestReverts: nat,
    // the `{ once: true }` document listeners that have not fired yet
    clickListenerArmed: bool,
    touchListenerArmed: bool)

  /** State at page load. */
  const Initial := Controller(
    alarmEnabled := true,
    isAlarmActive := false,
    alarmInterval := None,
    liveIntervals := {},
    nextTimerId := 0,
    audioInitialized := false,
    alarmVisual := false,
    status := Ready,
    toggleLabel := DisableAlarm,
    pendingTestReverts := 0,
    clickListenerArmed := true,
    touchListenerArmed := true)

  /** The controller's invariants. */
  predicate Valid(c: Controller)
    // consequence used throughout: never more than one repeating timer
    ensures Valid(c) ==> |c.liveIntervals| <= 1
  {
    // the interval handle is present exactly while the alarm rings
    && (c.alarmInterval.Some? <==> c.isAlarmActive)
    // only an enabled alarm rings
    && (c.isAlarmActive ==> c.alarmEnabled)
    // no orphaned repeating timer: the only live one is the handle's
    && c.liveIntervals == (if c.alarmInterval.Some? then {c.alarmInterval.value} else {})
    && (c.alarmInterval.Some? ==> c.alarmInterval.value < c.nextTimerId)
    // a ringing alarm is visible and its status is the alarm or test message
    && (c.isAlarmActive ==> c.alarmVisual && (c.status == AlarmMessage || c.status == Testing))
    // without the visual flag the status is the idle one
    && (!c.alarmVisual ==> c.status == IdleStatus(c.alarmEnabled))
    && c.toggleLabel == LabelFor(c.alarmEnabled)
  }

  lemma InitialValid()
    ensures Valid(Initial)
    ensures !Initial.isAlarmActive && Initial.alarmEnabled
  {
  }

  /** In every valid state the button offers the opposite of the current
      setting, and a status line without the alarm styling names the setting. */
  lemma TextsFollowEnabled(c: Controller)
    requires Valid(c)
    ensures LabelText(c.toggleLabel) == (if c.alarmEnabled then "Disable Alarm" else "Enable Alarm")
    ensures !c.alarmVisual ==>
      StatusText(c.status) == (if c.alarmEnabled then "5-Minute Interval Alarm: Ready" else "5-Minute Interval Alarm: Disabled")
    ensures c.isAlarmActive ==> StatusText(c.status) != "5-Minute Interval Alarm: Ready"
  {
  }

  /** The new state after an event, and the sound the event emits, if any. */
  datatype Step = Step(next: Controller, sound: Option<Sound>)

  /** Sound requested through `playAlarmSound` in state `c`. */
  function Beep(c: Controller): Option<Sound> {
    Some(PlayAlarmSound(c.audioInitialized))
  }

  /** `startAlarm`: guarded entry into ringing. */
  function StartAlarm(c: Controller): (r: Step)
    // a no-op when already ringing or when disabled
    ensures c.isAlarmActive || !c.alarmEnabled ==> r == Step(c, None)
    // otherwise it rings, shows the alarm, plays once and registers exactly
    // one new repeating timer
    ensures !c.isAlarmActive && c.alarmEnabled ==>
      && r.next.isAlarmActive && r.next.alarmVisual && r.next.status == AlarmMessage
      && r.sound == Beep(c)
      && r.next.alarmInterval.Some?
      && (Valid(c) ==> r.next.alarmInterval.value !in c.liveIntervals)
      && r.next.liveIntervals == c.liveIntervals + {r.next.alarmInterval.value}
    // only the alarm's own fields change: not the enabled flag, the audio
    // flag, pending test reversions or the one-shot listeners
    ensures r.next == c.(isAlarmActive := r.next.isAlarmActive, alarmVisual := r.next.alarmVisual,
                         status := r.next.status, alarmInterval := r.next.alarmInterval,
                         liveIntervals := r.next.liveIntervals, nextTimerId := r.next.nextTimerId)
    ensures Valid(c) ==> Valid(r.next)
  {
    if !c.isAlarmActive && c.alarmEnabled then
      var id := c.nextTimerId;
      var next := c.(
        isAlarmActive := true,
        alarmVisual := true,
        status := AlarmMessage,
        alarmInterval := Some(id),
        liveIntervals := c.liveIntervals + {id},
        nextTimerId := id + 1);
      assert Valid(c) ==> id !in c.liveIntervals;
      Step(next, Beep(c))
    else
      Step(c, None)
  }

  /** `stopAlarm`: guarded exit from ringing. */
  function StopAlarm(c: Controller): (r: Controller)
    // a no-op when not ringing
    ensures !c.isAlarmActive ==> r == c
    // always ends silent, with no handle and, from a valid state, no live timer
    ensures !r.isAlarmActive
    ensures Valid(c) ==> r.alarmInterval.None? && r.liveIntervals == {}
    // when it did stop, the visual is cleared and the idle status restored
    ensures c.isAlarmActive ==> !r.alarmVisual && r.status == IdleStatus(c.alarmEnabled)
    // only the alarm's own fields change
    ensures r == c.(isAlarmActive := r.isAlarmActive, alarmVisual := r.alarmVisual, status := r.status,
                    alarmInterval := r.alarmInterval, liveIntervals := r.liveIntervals)
    ensures Valid(c) ==> Valid(r)
  {
    if c.isAlarmActive then
      var cleared := if c.alarmInterval.Some? then c.liveIntervals - {c.alarmInterval.value} else c.liveIntervals;
      c.(
        isAlarmActive := false,
        alarmVisual := false,
        status := IdleStatus(c.alarmEnabled),
        alarmInterval := None,
        liveIntervals := cleared)
    else
      c
  }

  /** `checkAlarmCondition`, run on every clock tick. */
  function Tick(c: Controller, minutes: Minute, seconds: Second): (r: Step)
    // disabled: nothing changes
    ensures !c.alarmEnabled ==> r == Step(c, None)
    // enabled: afterwards the alarm rings exactly when the predicate holds
    ensures c.alarmEnabled ==> (r.next.isAlarmActive <==> ShouldAlarm(minutes, seconds))
    // sound only on the entry transition
    ensures r.sound.Some? <==> c.alarmEnabled && !c.isAlarmActive && ShouldAlarm(minutes, seconds)
    // a tick never registers a timer while one is live
    ensures c.isAlarmActive ==> r.next.liveIntervals <= c.liveIntervals
    // a tick that needs no transition changes nothing
    ensures c.alarmEnabled && (ShouldAlarm(minutes, seconds) <==> c.isAlarmActive) ==> r == Step(c, None)
    // leaving the window clears the styling and shows Ready again
    ensures c.alarmEnabled && c.isAlarmActive && !ShouldAlarm(minutes, seconds) ==>
      !r.next.alarmVisual && r.next.status == Ready
    // only the alarm's own fields change
    ensures r.next == c.(isAlarmActive := r.next.isAlarmActive, alarmVisual := r.next.alarmVisual,
                         status := r.next.status, alarmInterval := r.next.alarmInterval,
                         liveIntervals := r.next.liveIntervals, nextTimerId := r.next.nextTimerId)
    ensures Valid(c) ==> Valid(r.next)
  {
    if !c.alarmEnabled then Step(c, None)
    else
      var shouldAlarm := ShouldAlarm(minutes, seconds);
      if shouldAlarm && !c.isAlarmActive then StartAlarm(c)
      else if !shouldAlarm && c.isAlarmActive then Step(StopAlarm(c), None)
      else Step(c, None)
  }

  /** `toggleAlarm`. */
  function Toggle(c: Controller): (r: Controller)
    ensures r.alarmEnabled == !c.alarmEnabled
    // disabling silences everything
    ensures !r.alarmEnabled ==> !r.isAlarmActive && r.status == Disabled && r.toggleLabel == EnableAlarm
    ensures !r.alarmEnabled && Valid(c) ==> r.alarmInterval.None? && r.liveIntervals == {}
    // enabling does not start ringing by itself
    ensures r.alarmEnabled ==>
      && r.status == Ready && r.toggleLabel == DisableAlarm
      && r.isAlarmActive == c.isAlarmActive
    ensures r.alarmEnabled && Valid(c) ==> !r.isAlarmActive
    // the test styling survives unless a real alarm had to be stopped
    ensures !c.isAlarmActive ==> r.alarmVisual == c.alarmVisual
    // audio, pending test reversions and listeners are untouched
    ensures r == c.(alarmEnabled := r.alarmEnabled, toggleLabel := r.toggleLabel, status := r.status,
                    isAlarmActive := r.isAlarmActive, alarmVisual := r.alarmVisual,
                    alarmInterval := r.alarmInterval, liveIntervals := r.liveIntervals)
    ensures Valid(c) ==> Valid(r)
  {
    var enabled := !c.alarmEnabled;
    if enabled then
      c.(alarmEnabled := true, toggleLabel := DisableAlarm, status := Ready)
    else
      StopAlarm(c.(alarmEnabled := false, toggleLabel := EnableAlarm, status := Disabled))
  }

  /** `initAudioContext` on the controller. */
  function InitAudio(c: Controller, constructionSucceeds: bool): (r: Controller)
    ensures c.audioInitialized ==> r == c
    ensures r.audioInitialized <==> c.audioInitialized || constructionSucceeds
    ensures r == c.(audioInitialized := r.audioInitialized)
  {
    c.(audioInitialized := InitAudioContext(c.audioInitialized, constructionSucceeds).initialized)
  }

  /** `testAlarm`: initialise audio, beep once, show the alarm styling with
      the testing message, and schedule the 2 s reversion. */
  function TestAlarm(c: Controller, constructionSucceeds: bool): (r: Step)
    ensures r.next.alarmVisual && r.next.status == Testing
    ensures r.next.pendingTestReverts == c.pendingTestReverts + 1
    // the beep uses the synthesized tone iff audio is initialised by now
    ensures r.sound == Some(SynthesizedBeep) <==> c.audioInitialized || constructionSucceeds
    ensures r.sound.Some?
    // the alarm itself is untouched
    ensures r.next.isAlarmActive == c.isAlarmActive && r.next.alarmEnabled == c.alarmEnabled
    ensures r.next.alarmInterval == c.alarmInterval && r.next.liveIntervals == c.liveIntervals
    // the audio flag is set afterwards iff it was or the construction succeeds
    ensures r.next.audioInitialized <==> c.audioInitialized || constructionSucceeds
    // nothing else changes
    ensures r.next == c.(audioInitialized := r.next.audioInitialized, alarmVisual := r.next.alarmVisual,
                         status := r.next.status, pendingTestReverts := r.next.pendingTestReverts)
    ensures Valid(c) ==> Valid(r.next)
  {
    var a := InitAudio(c, constructionSucceeds);
    Step(a.(alarmVisual := true, status := Testing, pendingTestReverts := a.pendingTestReverts + 1), Beep(a))
  }

  /** The `setTimeout` callback scheduled by `testAlarm`. With no reversion
      pending the browser never calls it, so the state is unchanged. */
  function TestRevert(c: Controller): (r: Controller)
    ensures c.pendingTestReverts == 0 ==> r == c
    ensures c.pendingTestReverts > 0 ==> r.pendingTestReverts == c.pendingTestReverts - 1
    // while a real alarm rings, only the pending count changes
    ensures c.isAlarmActive ==> r == c.(pendingTestReverts := r.pendingTestReverts)
    // otherwise the styling is cleared and the idle status restored
    ensures c.pendingTestReverts > 0 && !c.isAlarmActive ==>
      !r.alarmVisual && r.status == IdleStatus(c.alarmEnabled)
    // only the styling, the status and the pending count can change
    ensures r == c.(pendingTestReverts := r.pendingTestReverts, alarmVisual := r.alarmVisual, status := r.status)
    ensures Valid(c) ==> Valid(r)
  {
    if c.pendingTestReverts == 0 then c
    else
      var c' := c.(pendingTestReverts := c.pendingTestReverts - 1);
      if !c.isAlarmActive then
        c'.(alarmVisual := false, status := IdleStatus(c.alarmEnabled))
      else c'
  }

  /** The 500 ms callback of timer `id`: a cleared timer never fires; a live
      one beeps only while the alarm is active. */
  function IntervalFired(c: Controller, id: TimerId): (r: Step)
    ensures r.next == c
    ensures r.sound.Some? <==> id in c.liveIntervals && c.isAlarmActive
    ensures r.sound.Some? ==> r.sound == Beep(c)
    // under the invariants, only the current handle's timer ever beeps
    ensures Valid(c) ==> (r.sound.Some? <==> c.alarmInterval == Some(id))
  {
    if id in c.liveIntervals && c.isAlarmActive then Step(c, Beep(c)) else Step(c, None)
  }

  /** A document `click` (pointer) or `touchstart` reaching the one-shot
      listener that calls `initAudioContext`. */
  datatype Gesture = PointerClick | TouchStart

  function UserGesture(c: Controller, g: Gesture, constructionSucceeds: bool): (r: Controller)
    // each listener runs once: afterwards it is disarmed
    ensures g == PointerClick ==> !r.clickListenerArmed && r.touchListenerArmed == c.touchListenerArmed
    ensures g == TouchStart ==> !r.touchListenerArmed && r.clickListenerArmed == c.clickListenerArmed
    // a disarmed listener changes nothing
    ensures (g == PointerClick && !c.clickListenerArmed) || (g == TouchStart && !c.touchListenerArmed) ==> r == c
    ensures r.audioInitialized <==>
      (c.audioInitialized || (constructionSucceeds && (if g == PointerClick then c.clickListenerArmed else c.touchListenerArmed)))
    // only the audio flag and the listeners change
    ensures r == c.(audioInitialized := r.audioInitialized, clickListenerArmed := r.clickListenerArmed,
                    touchListenerArmed := r.touchListenerArmed)
    ensures Valid(c) ==> Valid(r)
  {
    match g
    case PointerClick =>
      if c.clickListenerArmed then InitAudio(c, constructionSucceeds).(clickListenerArmed := false) else c
    case TouchStart =>
      if c.touchListenerArmed then InitAudio(c, constructionSucceeds).(touchListenerArmed := false) else c
  }
}
