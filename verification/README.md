# AlarmClock controller model

A Dafny model of the browser analog clock with a five-minute interval alarm
(`script.js`). Once the DOM, the timers and the Web Audio calls are taken
away, the widget is three pieces of logic, each modelled here as pure
functions over immutable values:

- **The alarm predicate** (`AlarmWindow`): the alarm rings while the minute
  is 4, 9, …, 59 and the second is 50 or later. It is proved equal to an
  independent reading ("at most ten seconds before a five-minute boundary"),
  and it rings exactly 120 seconds per hour.
- **The alarm controller** (`AlarmController`): the page's global variables
  (`alarmEnabled`, `isAlarmActive`, `alarmInterval`, `audioInitialized`) plus
  the DOM state they drive, as one `Controller` record. The alarm-active CSS
  classes become one flag. The status line and the toggle button's label
  become enums. Each event is one transition function: `checkAlarmCondition`
  on a tick, `startAlarm`, `stopAlarm`, `toggleAlarm`, `testAlarm` and its
  2-second reversion, the 500 ms re-trigger, and the one-shot
  first-interaction listeners. Repeating timers are modelled by the set of
  live `setInterval` ids. So "no orphaned re-trigger" is a checked invariant,
  not just a boolean.
- **The clock face** (`ClockFace`, `Decimal`): hand angles in half-degrees, so
  that the hour hand's `30·h + m/2` degrees stays an exact integer. Also the
  24-to-12-hour conversion with AM/PM and the two-digit zero padding of the
  readout, proved to read back to the original values.

`Clock` puts them together: `UpdateClock` is one run of `updateClock` on a
given reading. `Handle` and `Run` deliver any sequence of page events, and
the invariants are proved for every reachable state:

- the interval handle is present iff the alarm rings;
- ringing implies enabled;
- at most one repeating timer is live.

The wall clock, `setInterval`/`setTimeout` and the audio constructor's
success are inputs of the events: `ClockTick(reading)`, `TestTimeout`,
`IntervalElapsed(id)`, `constructionSucceeds`.

A failed audio construction does not disable the synthesized tone for the
rest of the session. `initAudioContext` attempts construction again whenever
it is called while uninitialised, for example by `testAlarm` or by the other
one-shot listener. The model follows the code here
(`AudioOutput.InitAudioContext`, `Clock.FailedConstructionIsRetried`).

## Model

| member | source | states |
|---|---|---|
| AlarmWindow.ShouldAlarm | script.js:144-148 | the predicate `minutes % 5 == 4 && seconds >= 50` holds iff at most ten seconds remain before the next five-minute boundary |
| AlarmWindow.AlarmSecondsBeforeClosedForm | script.js:142-148 | among the first n seconds of an hour, the alarm seconds number ten per completed five-minute block plus those already reached in the current block's last ten seconds |
| AlarmWindow.AlarmSecondsPerHour | script.js:142-148 | over a whole hour the predicate holds for exactly 120 seconds, ten in each of the twelve intervals |
| AudioOutput.PlayAlarmSound | script.js:84-95 | the synthesized tone is chosen iff the audio context is initialised, the fallback clip otherwise |
| AudioOutput.InitAudioContext | script.js:19-29 | a construction is attempted only while uninitialised; the flag is never cleared; a failed construction leaves it unset |
| AudioOutput.InitAudioAtMostOnce | script.js:19-29 | two calls in a row never construct two audio contexts: after a successful construction the second call attempts none |
| Decimal.ToDecimal | script.js:230-238 | a number is rendered as digits with no leading zero, one digit below ten, at most two below 100 |
| Decimal.DecimalRoundTrip | script.js:230-238 | reading the rendering of n back gives n |
| Decimal.PadTwo | script.js:230-232 | the padded field is exactly two digits for values below 100, starts with '0' iff the value is below ten, and reads back as the value |
| ClockFace.HourHalfDegrees | script.js:203-208 | the hour hand is below 720 degrees and its angle determines the hour and minute it shows |
| ClockFace.SixtiethHalfDegrees | script.js:204-210 | the minute and second hands sit on a multiple of 6 degrees in [0, 354] that determines the unit shown |
| ClockFace.HandAnglesAt | script.js:202-210 | the three hand angles stay in range and together determine the reading |
| ClockFace.HourHandContinuous | script.js:203-208 | the hour hand advances half a degree per minute, also from h:59 to (h+1):00 |
| ClockFace.HourHandAfternoonFullTurn | script.js:203-208 | hour h+12 points where hour h does, one full turn further (the angle is not reduced mod 360) |
| ClockFace.ToTwelveHour | script.js:221-228 | the displayed hour is in 1..12, agrees with the 24-hour value modulo 12, and is AM iff the hour is below 12 |
| ClockFace.TwelveHourRoundTrip | script.js:221-228 | the 12-hour form read back gives the original 24-hour hour |
| ClockFace.TwelveHourRoundTripBack | script.js:221-228 | every 12-hour display value (1..12, AM/PM) is produced by exactly the hour it reads back as |
| ClockFace.ReadoutAt | script.js:220-238 | the hours, minutes and seconds fields are two digits each and read back as the 12-hour hour, minute and second; the suffix is AM iff the hour is below 12 |
| ClockFace.ReadoutDeterminesReading | script.js:220-238 | two readings with the same readout are the same reading |
| ClockFace.ReadoutExamples | script.js:203-238 | 00:05:07 shows "12" "05" "07" "AM", 13:30:45 shows "01" "30" "45" "PM", the hour hand at 03:30 is at 105 degrees |
| AlarmController.Valid | script.js:11-16 | the invariants: the interval handle is present iff the alarm rings, ringing implies enabled, the only live repeating timer is the handle's, a ringing alarm is styled and shows the alarm or test text, an unstyled status is the idle one, and the label follows the enabled flag; so at most one timer is live |
| AlarmController.StatusTextDistinct | script.js:104-195 | the four status texts (Ready, Disabled, alarm message, testing message) are pairwise different |
| AlarmController.LabelTextDistinct | script.js:162-167 | the two button labels "Disable Alarm" and "Enable Alarm" are different |
| AlarmController.TextsFollowEnabled | script.js:158-173 | in every valid state the button label offers the opposite of the enabled flag, an unstyled status line reads Ready or Disabled to match it, and a ringing alarm never shows Ready |
| AlarmController.InitialValid | script.js:11-16 | the page-load state satisfies the invariants and is enabled and silent |
| AlarmController.StartAlarm | script.js:98-117 | no-op when ringing or disabled; otherwise rings, shows the alarm, beeps once and registers exactly one fresh repeating timer; touches only the alarm's own fields; preserves the invariants |
| AlarmController.StopAlarm | script.js:121-136 | no-op when silent; always ends silent, with no handle and no live timer; when it stopped, clears the styling and restores the idle status; touches only the alarm's own fields |
| AlarmController.Tick | script.js:139-155 | disabled: nothing changes; enabled: afterwards the alarm rings iff the predicate holds; a tick needing no transition changes nothing; leaving the window clears the styling and shows Ready; a sound is played only on the entry transition; a live timer is never duplicated; audio, test and listener state are untouched |
| AlarmController.Toggle | script.js:158-173 | flips the enabled flag; disabling leaves the alarm silent with no timer, status Disabled and label "Enable Alarm"; enabling sets Ready and "Disable Alarm" without ringing; the styling changes only when a ringing alarm is stopped; audio, pending test reversions and listeners are untouched |
| AlarmController.InitAudio | script.js:19-29 | the controller changes only in its audio flag, which becomes set iff it was set or construction succeeds |
| AlarmController.TestAlarm | script.js:176-198 | shows the alarm styling with the testing status, schedules one reversion, beeps with the synthesized tone iff audio is initialised by now, sets the audio flag iff it was set or construction succeeds, and changes nothing else |
| AlarmController.TestRevert | script.js:189-197 | with none pending nothing changes; with a real alarm ringing only the pending count changes; otherwise clears the styling and restores the idle status; no other field ever changes |
| AlarmController.IntervalFired | script.js:112-116 | changes nothing; beeps iff its timer is live and the alarm is active, which under the invariants means it is the current handle's timer |
| AlarmController.UserGesture | script.js:245-253 | each one-shot listener initialises audio at most once and is then disarmed; a disarmed one changes nothing; only the audio flag and the listeners change |
| Clock.UpdateClock | script.js:201-239 | the hands and readout determine the reading, the readout fields are two characters, and the alarm part behaves as Tick |
| Clock.Handle | script.js:241-259 | every page event preserves the invariants and never drops an initialised audio context |
| Clock.RunPreservesValid | script.js:98-198 | any event sequence preserves the invariants, so at most one repeating timer is ever live |
| Clock.ReachableValid | script.js:11-16 | every state reachable from page load satisfies the invariants |
| Clock.RunKeepsAudio | script.js:19-29 | once initialised, the audio context stays initialised across any events |
| Clock.RunSoundsSynthesizedOnceInitialized | script.js:84-95 | once audio is initialised, every sound any later event plays is the synthesized tone |
| Clock.RepeatedTickNoSecondInterval | script.js:98-155 | a second tick inside the window changes nothing and plays nothing; exactly one timer stays live |
| Clock.DisableThenEnableDoesNotRing | script.js:158-173 | disabling while ringing silences and clears the styling at once; re-enabling does not ring |
| Clock.ReenabledRingsOnlyInWindow | script.js:139-173 | after disable and re-enable, the next tick rings iff the predicate holds |
| Clock.TestDuringAlarmKeepsVisual | script.js:176-197 | a test during a real alarm leaves the styling on after its reversion; the status keeps the testing text |
| Clock.TestWhileIdleReverts | script.js:176-197 | while no real alarm rings, the reversion after a test clears the styling and restores the idle status |
| Clock.TestFromQuietStateFullyUndone | script.js:176-197 | from a state with no alarm and no styling, a test and its reversion leave everything as it was except the audio flag the test may have set |
| Clock.FailedFirstClickIsNotRetried | script.js:245-248 | after a click whose audio construction failed, further clicks never initialise audio |
| Clock.FailedConstructionIsRetried | script.js:19-29 | a failed audio construction is attempted again by a later test click, whose beep is then the synthesized tone |
| Clock.FirstTickInWindowUsesClip | script.js:84-117 | a first tick inside the window after load rings with the fallback clip, since audio is not yet initialised |

## Left out

- DOM lookup and writes (`classList`, `textContent`, `innerHTML`, `style.transform`) are fields of the state record or results of `UpdateClock`. The `alarm-active` class on the clock face and the readout and the `active` class on the status line are always set together, so they are one flag. The toggle button's `disabled` class always follows its label, so only the label is kept.
- The CSS `rotateZ(...deg)` strings are not modelled. The angles are kept as exact half-degree integers. The source computes `hh + mm / 12` in floating point, which is exact for these values.
- The Web Audio tone is not modelled: oscillator, 800 Hz, gain envelope 0.3/0.01, 0.3 s, `resume` of a suspended context (script.js:32-67). It is browser audio with floating-point parameters, so only the choice of strategy is kept. `createBeep`'s own availability check repeats `playAlarmSound`'s check and is never false when reached.
- The base64 WAV clip, its volume and the failure of `Audio.play()` (script.js:70-82) are not modelled. A failure is only logged and changes no state.
- `console.log` output and event-listener registration (script.js:241-243) are left out.
- Real scheduling is not modelled: `setInterval(updateClock, 1000)`, the initial synchronous `updateClock()`, `setTimeout` and `new Date()` (script.js:112, 190, 202, 256-259). These are the events `ClockTick(reading)`, `IntervalElapsed(id)` and `TestTimeout`. A browser click on a button also bubbles to the document's one-shot `click` listener. The model delivers this as two events: the button's event, then `Gestured(PointerClick, _)`.
- The initial status text and button label come from the page markup, which is not part of this model. They are assumed to be "Ready" and "Disable Alarm", which matches `alarmEnabled = true`.
