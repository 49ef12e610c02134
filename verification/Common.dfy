/** Values shared by the pitch estimator, the classification aggregator and
    the voice selector, and the tuning of the two variants of the engine
    (main.js and script.js). */
module Common {

  /** A value that may be absent: JavaScript's null / undefined / 0 sentinels. */
  datatype Option<+T> = None | Some(value: T)

  /** The voice category held in `detectedGender`. `Undetermined` is
      "neutral" in main.js and "analyzing" in script.js. */
  datatype Gender = Undetermined | Male | Female

  /** The numbers in which the two variants differ: how many voiced samples
      must accumulate before classification starts, and the two thresholds
      of the hysteresis rule (in Hz). */
  datatype Tuning = Tuning(minSamples: nat, low: real, high: real)
  {
    /** The dead zone is non-empty: the thresholds do not touch. */
    predicate HasDeadZone() { low < high }
  }

  /** main.js: classify once more than 15 samples, male below 155 Hz, female above 190 Hz. */
  const MainTuning: Tuning := Tuning(15, 155.0, 190.0)

  /** script.js: classify once more than 10 samples, male below 120 Hz, female above 160 Hz. */
  const ScriptTuning: Tuning := Tuning(10, 120.0, 160.0)
}
