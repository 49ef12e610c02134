/** The classification aggregator: `analyzeFrequency` appends every voiced
    estimate to `frequencyData` and, once more than a minimum number of
    samples have accumulated, feeds the mean of the whole array to
    `determineGender`, a two-threshold hysteresis rule that updates
    `detectedGender`. */
module Aggregation {
  import opened Common
  import Pitch

  /** The left-to-right sum `frequencyData.reduce((a, b) => a + b, 0)`. */
  function Sum(xs: seq<real>): (total: real)
  {
    if xs == [] then 0.0 else Sum(xs[..|xs| - 1]) + xs[|xs| - 1]
  }

  /** The average that is handed to `determineGender`. */
  function Mean(xs: seq<real>): (avg: real)
    requires |xs| > 0
  {
    Sum(xs) / (|xs| as real)
  }

  /** The reduction written as a loop over the whole window. */
  method Average(xs: seq<real>) returns (avg: real)
    requires |xs| > 0
    ensures avg == Mean(xs)
  {
    var total := 0.0;
    var i := 0;
    while i < |xs|
      invariant 0 <= i <= |xs|
      invariant total == Sum(xs[..i])
    {
      assert xs[..i + 1][..i] == xs[..i];
      total := total + xs[i];
      i := i + 1;
    }
    assert xs[..|xs|] == xs;
    avg := total / (|xs| as real);
  }

  /** The comparison ladder of `determineGender`: the category the average
      points to, or None inside the dead zone [low, high]. */
  function Candidate(t: Tuning, avg: real): (c: Option<Gender>)
    ensures c == Some(Male) <==> avg < t.low
    ensures c == Some(Female) <==> t.low <= avg && t.high < avg
    ensures c.None? <==> t.low <= avg <= t.high
  {
    if avg < t.low then Some(Male)
    else if avg > t.high then Some(Female)
    else None
  }

  /** `determineGender`: the category held after one average. It changes only
      when the average leaves the dead zone, and never back to Undetermined. */
  function Decide(t: Tuning, current: Gender, avg: real): (next: Gender)
    ensures avg < t.low ==> next == Male
    ensures t.low <= avg && t.high < avg ==> next == Female
    ensures t.low <= avg <= t.high ==> next == current
    ensures next == Undetermined ==> current == Undetermined
  {
    match Candidate(t, avg)
    case None => current
    case Some(g) => if g != current then g else current
  }

  /** The session state: `frequencyData` and `detectedGender`. */
  datatype Session = Session(window: seq<real>, gender: Gender)

  /** The state after a reset, and before any sample. */
  const Initial: Session := Session([], Undetermined)

  /** One tick of `analyzeFrequency` with estimate `sample`: silence (an
      estimate that is not > 0) changes nothing; a voiced sample is appended,
      and when the window is then longer than the minimum the mean of the
      whole window is classified. */
  function Step(t: Tuning, s: Session, sample: real): (s': Session)
    ensures sample <= 0.0 ==> s' == s
    ensures sample > 0.0 ==> s'.window == s.window + [sample]
    ensures |s'.window| <= t.minSamples ==> s'.gender == s.gender
    ensures sample > 0.0 && |s.window| + 1 > t.minSamples ==>
              s'.gender == Decide(t, s.gender, Mean(s.window + [sample]))
  {
    if sample <= 0.0 then s
    else
      var w := s.window + [sample];
      if |w| > t.minSamples then Session(w, Decide(t, s.gender, Mean(w)))
      else Session(w, s.gender)
  }

  /** A sequence of ticks, in the order the estimator produced them. */
  function Run(t: Tuning, s: Session, samples: seq<real>): (s': Session)
  {
    if samples == [] then s
    else Step(t, Run(t, s, samples[..|samples| - 1]), samples[|samples| - 1])
  }

  /** The voiced samples of a sequence of estimates, in order. */
  function Voiced(samples: seq<real>): (vs: seq<real>)
    ensures |vs| <= |samples|
    ensures forall x :: x in vs <==> x in samples && x > 0.0
    ensures (forall i :: 0 <= i < |samples| ==> samples[i] > 0.0) ==> vs == samples
    ensures (forall i :: 0 <= i < |samples| ==> samples[i] <= 0.0) ==> vs == []
  {
    if samples == [] then []
    else
      var last := samples[|samples| - 1];
      Voiced(samples[..|samples| - 1]) + (if last > 0.0 then [last] else [])
  }

  /** A constant sequence of `n` copies of `c`. */
  function Constant(n: nat, c: real): (xs: seq<real>)
    ensures |xs| == n && forall i :: 0 <= i < n ==> xs[i] == c
  {
    seq(n, _ => c)
  }

  // ---------------------------------------------------------------------
  // Properties of the mean

  /** Every sample below `c` puts the mean below `c`. */
  lemma {:induction false} SumBelow(xs: seq<real>, c: real)
    requires |xs| > 0
    requires forall i :: 0 <= i < |xs| ==> xs[i] < c
    ensures Sum(xs) < (|xs| as real) * c
  {
    var init := xs[..|xs| - 1];
    if |init| > 0 {
      SumBelow(init, c);
    }
  }

  /** Every sample above `c` puts the mean above `c`. */
  lemma {:induction false} SumAbove(xs: seq<real>, c: real)
    requires |xs| > 0
    requires forall i :: 0 <= i < |xs| ==> xs[i] > c
    ensures Sum(xs) > (|xs| as real) * c
  {
    var init := xs[..|xs| - 1];
    if |init| > 0 {
      SumAbove(init, c);
    }
  }

  /** The sum of `n` copies of `c` is n * c, so their mean is `c`. */
  lemma {:induction false} SumConstant(n: nat, c: real)
    ensures Sum(Constant(n, c)) == (n as real) * c
  {
    if n > 0 {
      assert Constant(n, c)[..n - 1] == Constant(n - 1, c);
      SumConstant(n - 1, c);
    }
  }

  lemma MeanBelow(xs: seq<real>, c: real)
    requires |xs| > 0
    requires forall i :: 0 <= i < |xs| ==> xs[i] < c
    ensures Mean(xs) < c
  {
    SumBelow(xs, c);
  }

  lemma MeanAbove(xs: seq<real>, c: real)
    requires |xs| > 0
    requires forall i :: 0 <= i < |xs| ==> xs[i] > c
    ensures Mean(xs) > c
  {
    SumAbove(xs, c);
  }

  // ---------------------------------------------------------------------
  // Properties of the aggregator

  /** The window is exactly the old window followed by the voiced samples:
      it grows by one per voiced tick and is unchanged by silent ticks. */
  lemma {:induction false} RunWindow(t: Tuning, s: Session, samples: seq<real>)
    ensures Run(t, s, samples).window == s.window + Voiced(samples)
  {
    if samples != [] {
      var init := samples[..|samples| - 1];
      RunWindow(t, s, init);
      assert s.window + Voiced(init) + [samples[|samples| - 1]]
          == s.window + (Voiced(init) + [samples[|samples| - 1]]);
    }
  }

  /** One more tick at the end of a run is one more `Step`. */
  lemma RunSnoc(t: Tuning, s: Session, xs: seq<real>, x: real)
    ensures Run(t, s, xs + [x]) == Step(t, Run(t, s, xs), x)
  {
    var ys := xs + [x];
    assert ys[..|ys| - 1] == xs && ys[|ys| - 1] == x;
  }

  /** A voiced estimate at the end joins the voiced samples. */
  lemma VoicedSnoc(xs: seq<real>, x: real)
    requires x > 0.0
    ensures Voiced(xs + [x]) == Voiced(xs) + [x]
  {
    var ys := xs + [x];
    assert ys[..|ys| - 1] == xs && ys[|ys| - 1] == x;
  }

  /** Once the window is longer than the minimum, every voiced tick feeds the
      mean of the whole accumulated window (the old window and every voiced
      sample so far, including this one) to the decision rule. */
  lemma RunClassifiesWholeWindow(t: Tuning, s: Session, xs: seq<real>, x: real)
    requires x > 0.0 && |s.window| + |Voiced(xs)| + 1 > t.minSamples
    ensures Run(t, s, xs + [x]).gender ==
            Decide(t, Run(t, s, xs).gender, Mean(s.window + Voiced(xs + [x])))
  {
    WindowAfterVoicedTick(t, s, xs, x);
    RunSnoc(t, s, xs, x);
    StepOnWindow(t, Run(t, s, xs), x, s.window + Voiced(xs + [x]));
  }

  /** After a voiced tick the window is the old window, the voiced samples
      and the new sample. */
  lemma WindowAfterVoicedTick(t: Tuning, s: Session, xs: seq<real>, x: real)
    requires x > 0.0
    ensures s.window + Voiced(xs + [x]) == Run(t, s, xs).window + [x]
  {
    RunWindow(t, s, xs);
    VoicedSnoc(xs, x);
    assert s.window + (Voiced(xs) + [x]) == (s.window + Voiced(xs)) + [x];
  }

  /** `Step` on a voiced sample past the minimum decides on the mean of the
      new window `w`. */
  lemma StepOnWindow(t: Tuning, prev: Session, x: real, w: seq<real>)
    requires x > 0.0 && w == prev.window + [x] && |w| > t.minSamples
    ensures Step(t, prev, x).gender == Decide(t, prev.gender, Mean(w))
  {
  }

  /** No classification happens while the window holds at most the minimum
      number of samples. */
  lemma {:induction false} RunGated(t: Tuning, s: Session, samples: seq<real>)
    requires |s.window| + |Voiced(samples)| <= t.minSamples
    ensures Run(t, s, samples).gender == s.gender
  {
    if samples != [] {
      var init := samples[..|samples| - 1];
      RunGated(t, s, init);
      RunWindow(t, s, samples);
    }
  }

  /** Once a category has been decided, only a reset brings back
      Undetermined. */
  lemma {:induction false} RunKeepsDecided(t: Tuning, s: Session, samples: seq<real>)
    requires s.gender != Undetermined
    ensures Run(t, s, samples).gender != Undetermined
  {
    if samples != [] {
      RunKeepsDecided(t, s, samples[..|samples| - 1]);
    }
  }

  /** Ticks compose: hearing `xs` and then `ys` is hearing `xs + ys`, so a
      session can be split at any tick. */
  lemma {:induction false} RunAppend(t: Tuning, s: Session, xs: seq<real>, ys: seq<real>)
    ensures Run(t, s, xs + ys) == Run(t, Run(t, s, xs), ys)
  {
    if ys != [] {
      var init := ys[..|ys| - 1];
      assert (xs + ys)[..|xs + ys| - 1] == xs + init;
      assert (xs + ys)[|xs + ys| - 1] == ys[|ys| - 1];
      RunAppend(t, s, xs, init);
    } else {
      assert xs + ys == xs;
    }
  }

  /** The invariant of a voice that stays below the low threshold: every
      sample of the window is below it, and once the window is long enough
      the category is Male. */
  ghost predicate LowVoice(t: Tuning, s: Session)
  {
    (forall i :: 0 <= i < |s.window| ==> s.window[i] < t.low) &&
    (|s.window| > t.minSamples ==> s.gender == Male)
  }

  /** The symmetric invariant for a voice above the high threshold. */
  ghost predicate HighVoice(t: Tuning, s: Session)
  {
    (forall i :: 0 <= i < |s.window| ==> s.window[i] > t.high) &&
    (|s.window| > t.minSamples ==> s.gender == Female)
  }

  lemma {:induction false} RunLowVoice(t: Tuning, s: Session, samples: seq<real>)
    requires LowVoice(t, s)
    requires forall i :: 0 <= i < |samples| ==> 0.0 < samples[i] < t.low
    ensures LowVoice(t, Run(t, s, samples))
    ensures |Run(t, s, samples).window| == |s.window| + |samples|
  {
    if samples != [] {
      var init := samples[..|samples| - 1];
      RunLowVoice(t, s, init);
      var w := Run(t, s, init).window + [samples[|samples| - 1]];
      if |w| > t.minSamples {
        MeanBelow(w, t.low);
      }
    }
  }

  lemma {:induction false} RunHighVoice(t: Tuning, s: Session, samples: seq<real>)
    requires t.HasDeadZone()
    requires HighVoice(t, s)
    requires forall i :: 0 <= i < |samples| ==> samples[i] > t.high && samples[i] > 0.0
    ensures HighVoice(t, Run(t, s, samples))
    ensures |Run(t, s, samples).window| == |s.window| + |samples|
  {
    if samples != [] {
      var init := samples[..|samples| - 1];
      RunHighVoice(t, s, init);
      var w := Run(t, s, init).window + [samples[|samples| - 1]];
      if |w| > t.minSamples {
        MeanAbove(w, t.high);
      }
    }
  }

  /** A session that hears more than the minimum number of samples, all
      below the low threshold, classifies the voice as Male. */
  lemma SteadyLowVoiceIsMale(t: Tuning, samples: seq<real>)
    requires |samples| > t.minSamples
    requires forall i :: 0 <= i < |samples| ==> 0.0 < samples[i] < t.low
    ensures Run(t, Initial, samples).gender == Male
  {
    RunLowVoice(t, Initial, samples);
  }

  /** A session that hears more than the minimum number of samples, all
      above the high threshold, classifies the voice as Female. */
  lemma SteadyHighVoiceIsFemale(t: Tuning, samples: seq<real>)
    requires t.HasDeadZone()
    requires |samples| > t.minSamples
    requires forall i :: 0 <= i < |samples| ==> samples[i] > t.high && samples[i] > 0.0
    ensures Run(t, Initial, samples).gender == Female
  {
    RunHighVoice(t, Initial, samples);
  }

  /** A perfectly steady voice of pitch `c` ends up in the category its pitch
      points to from Undetermined, once more than the minimum number of ticks
      have been heard, and stays Undetermined before that. */
  lemma {:induction false} SteadyVoice(t: Tuning, n: nat, c: real)
    requires c > 0.0
    ensures Run(t, Initial, Constant(n, c)) ==
            Session(Constant(n, c), if n > t.minSamples then Decide(t, Undetermined, c) else Undetermined)
  {
    if n > 0 {
      var xs := Constant(n, c);
      var prev := Constant(n - 1, c);
      assert xs[..n - 1] == prev;
      assert xs[n - 1] == c;
      SteadyVoice(t, n - 1, c);
      assert Run(t, Initial, xs) == Step(t, Run(t, Initial, prev), c);
      assert prev + [c] == xs;
      MeanConstant(n, c);
    }
  }

  /** The mean of `n` copies of `c` is `c`. */
  lemma MeanConstant(n: nat, c: real)
    requires n > 0
    ensures Mean(Constant(n, c)) == c
  {
    SumConstant(n, c);
    var rn := n as real;
    assert rn * c / rn == c;
  }

  /** An example for script.js: twelve voiced ticks at 110 Hz give
      Male (first decided at the eleventh); a thirteenth tick at 300 Hz lifts
      the recomputed mean to 1620/13 (about 124.6 Hz), inside the dead zone,
      so the category stays Male. */
  lemma ScriptScenario()
    ensures Run(ScriptTuning, Initial, Constant(10, 110.0)).gender == Undetermined
    ensures Run(ScriptTuning, Initial, Constant(11, 110.0)).gender == Male
    ensures Run(ScriptTuning, Initial, Constant(12, 110.0)).gender == Male
    ensures Run(ScriptTuning, Initial, Constant(12, 110.0) + [300.0]) ==
            Session(Constant(12, 110.0) + [300.0], Male)
  {
    SteadyVoice(ScriptTuning, 10, 110.0);
    SteadyVoice(ScriptTuning, 11, 110.0);
    SteadyVoice(ScriptTuning, 12, 110.0);
    var xs := Constant(12, 110.0) + [300.0];
    assert xs[..12] == Constant(12, 110.0);
    SumConstant(12, 110.0);
    assert Mean(xs) == 1620.0 / 13.0;
  }

  /** The two tunings disagree on a steady 170 Hz voice: main.js keeps it
      Undetermined (inside 155..190), script.js calls it Female (above 160). */
  lemma TuningsDisagreeAt170()
    ensures Run(MainTuning, Initial, Constant(16, 170.0)).gender == Undetermined
    ensures Run(ScriptTuning, Initial, Constant(16, 170.0)).gender == Female
  {
    SteadyVoice(MainTuning, 16, 170.0);
    SteadyVoice(ScriptTuning, 16, 170.0);
  }

  // ---------------------------------------------------------------------
  // The session object: the globals `frequencyData`, `detectedGender` and
  // `isListening` (main.js) / `isRecording` (script.js).

  class GenderTracker {
    const tuning: Tuning
    var window: seq<real>
    var gender: Gender
    var listening: bool

    /** The abstract state the specification functions speak about. */
    function State(): Session
      reads this
    {
      Session(window, gender)
    }

    constructor (t: Tuning)
      ensures tuning == t && State() == Initial && !listening
    {
      tuning := t;
      window := [];
      gender := Undetermined;
      listening := false;
    }

    /** Clears `frequencyData` and `detectedGender`, as `startListening` and
        `goHome` (main.js) and `startRecording` (script.js) do. */
    method Reset()
      modifies this
      ensures State() == Initial && listening == old(listening)
    {
      window := [];
      gender := Undetermined;
    }

    /** Clears `frequencyData` only, as `startFrequencyAnalysis` (main.js)
        and `startAudioAnalysis` (script.js) do once the microphone is
        connected. */
    method ClearWindow()
      modifies this
      ensures window == [] && gender == old(gender) && listening == old(listening)
    {
      window := [];
    }

    /** The listen button: stops a running session, or resets the state and
        starts a new one. */
    method StartListening()
      modifies this
      ensures old(listening) ==> State() == old(State()) && !listening
      ensures !old(listening) ==> State() == Initial && listening
    {
      if listening {
        listening := false;
      } else {
        Reset();
        listening := true;
      }
    }

    /** The end of a session: later ticks are ignored. */
    method Stop()
      modifies this
      ensures State() == old(State()) && !listening
    {
      listening := false;
    }

    /** `determineGender(avg)`: the new category is assigned only when it
        differs from the held one; `changed` reports that assignment (the
        status message). */
    method DetermineGender(avg: real) returns (changed: bool)
      modifies this
      ensures gender == Decide(tuning, old(gender), avg)
      ensures window == old(window) && listening == old(listening)
      ensures changed <==> gender != old(gender)
    {
      var newGender;
      if avg < tuning.low {
        newGender := Male;
      } else if avg > tuning.high {
        newGender := Female;
      } else {
        return false;
      }
      changed := newGender != gender;
      if changed {
        gender := newGender;
      }
    }

    /** The accumulation and gating of `analyzeFrequency` for one estimate. */
    method Observe(sample: real) returns (changed: bool)
      modifies this
      ensures State() == Step(tuning, old(State()), sample)
      ensures listening == old(listening)
      ensures changed <==> gender != old(gender)
    {
      changed := false;
      if sample > 0.0 {
        window := window + [sample];
        if |window| > tuning.minSamples {
          var avg := Average(window);
          changed := DetermineGender(avg);
        }
      }
    }

    /** One tick of `analyzeFrequency` on one spectrum snapshot: nothing
        happens outside a session. */
    method AnalyzeFrequency(bins: seq<Pitch.Byte>, sampleRate: nat) returns (changed: bool)
      modifies this
      ensures old(listening) ==> State() == Step(tuning, old(State()), Pitch.EstimateHz(bins, sampleRate))
      ensures !old(listening) ==> State() == old(State())
      ensures listening == old(listening)
      ensures changed <==> gender != old(gender)
    {
      if !listening {
        return false;
      }
      var _, hz := Pitch.CalculateFundamentalFrequency(bins, sampleRate);
      changed := Observe(hz);
    }
  }
}
