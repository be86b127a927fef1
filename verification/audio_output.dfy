/** Which of the two sound strategies is used, and the one-shot
    initialisation of the synthesized-audio backend. The waveform itself
    (oscillator, gain envelope, the recorded clip) is not modelled. */
module AudioOutput {

  /** `createBeep` (Web Audio tone) or `createAlternativeBeep` (the clip). */
  datatype Sound = SynthesizedBeep | FallbackClip

  /** `playAlarmSound`: the synthesized tone when the audio context exists,
      the recorded clip otherwise. */
  function PlayAlarmSound(audioInitialized: bool): (r: Sound)
    ensures r == SynthesizedBeep <==> audioInitialized
    ensures r == FallbackClip <==> !audioInitialized
  {
    if audioInitialized then SynthesizedBeep else FallbackClip
  }

  /** Outcome of one call of `initAudioContext`: the new value of the flag,
      and whether an audio context constructor was invoked. */
  datatype AudioInit = AudioInit(initialized: bool, attempted: bool)

  /** `initAudioContext`; `constructionSucceeds` is whether the browser's
      `AudioContext` constructor would return rather than throw. */
  function InitAudioContext(initialized: bool, constructionSucceeds: bool): (r: AudioInit)
    // a construction is attempted only while uninitialised
    ensures r.attempted <==> !initialized
    // once set the flag is never cleared
    ensures initialized ==> r.initialized
    // a failed construction leaves the flag unset
    ensures !initialized && !constructionSucceeds ==> !r.initialized
    ensures r.initialized <==> initialized || constructionSucceeds
  {
    if !initialized then AudioInit(constructionSucceeds, true)
    else AudioInit(true, false)
  }

  /** Calling the initialiser twice constructs at most one context. */
  lemma InitAudioAtMostOnce(initialized: bool, ok1: bool, ok2: bool)
    ensures var first := InitAudioContext(initialized, ok1);
            var second := InitAudioContext(first.initialized, ok2);
            !(first.attempted && first.initialized && second.attempted)
  {
  }
}
