# Voice gender detector: a verified model of its decision engine

The repository ships two near-identical browser scripts, `main.js` and
`script.js`. Each listens to the microphone, estimates the speaker's
fundamental frequency from the analyser's byte spectrum, classifies the voice
as male or female with a two-threshold hysteresis rule, and then repeats the
recognised text through speech synthesis. It picks a Spanish voice whose name
suggests the same gender, or it shifts pitch and rate.

This project models the decision engine of both scripts. The variant
differences are configuration:

- `Common.dfy`: the category (`Gender`: `Undetermined` stands for main.js's
  "neutral" and script.js's "analyzing"), and the `Tuning` of each variant.
  main.js classifies after more than 15 samples, with thresholds 155/190 Hz.
  script.js classifies after more than 10 samples, with thresholds 120/160 Hz.
- `Pitch.dfy`: `calculateFundamentalFrequency`. The 80–400 Hz band becomes
  bin indices `floor(80N/(sr/2))` and `floor(400N/(sr/2))`, computed as the
  integer quotients `(160N)/sr` and `(800N)/sr`. The scan goes upward and
  stops at the first bin strictly above 140. It returns that bin's frequency
  `i*sr/(2N)`, or 0.
  - The loop is a method proved against the recursive scan `ScanFrom`.
  - Lemmas show that the scan returns the lowest loud bin and that nothing
    else affects the result.
- `Aggregation.dfy`: the accumulation in `analyzeFrequency` and the rule in
  `determineGender`.
  - The pure specification is `Step`/`Run` over a `Session` (window and
    category).
  - The imperative model is the class `GenderTracker`, whose fields are the
    globals `frequencyData`, `detectedGender` and `isListening`/`isRecording`.
  - Its methods are proved equal to `Step`, and the lemmas about `Run` give
    the meaning.
- `Voices.dfy`: `selectVoice` (main.js) and `findBestVoice` (script.js).
  - `filter` and `find` are modelled as `Filter` and `Find`.
  - Each regular expression becomes a list of lower-case literals, searched
    as substrings of the ASCII-lower-cased name.
- `Speech.dfy`: the voice, pitch and rate that `repeatText` (main.js) and
  `speakText` (script.js) put on the utterance.

Behaviour of the code that the model keeps as written:

- Neither script falls back to non-local Spanish voices. script.js checks
  that some Spanish voice exists but then searches only the local pool,
  which may be empty (script.js:333-344). `Voices.RemoteSpanishVoiceIsIgnored`
  shows this.
- The regular expressions are substring searches, so a name containing
  "Female" also matches the male pattern. The model reproduces this
  (`Voices.FemaleNameMatchesMalePattern`, `Voices.MaleSearchCanPickFemaleVoice`,
  `Voices.MainMaleSearchCanPickFemaleVoice`).
- An estimate from bin 0 is 0 Hz and therefore counts as silence
  (`Pitch.EstimateHz`).
- A spectrum read past its end gives `undefined`, and `undefined` is never
  above 140 (`Pitch.IsLoud`).
- A zero sample rate makes the start index Infinity (or NaN), so the loop
  never runs and the result is "none".

## Model

| member | source | states |
|---|---|---|
| `Pitch.BandIndex` | main.js:152-153 | The index is the floor of hz·N/(sr/2): r·sr ≤ 2·hz·N < (r+1)·sr. The same formula is at script.js:142-143. |
| `Pitch.IsLoud` | main.js:156 | A bin counts only when it lies inside the spectrum and its byte is strictly above 140; a read past the end (`undefined`) never counts. Also script.js:148. |
| `Pitch.ScanFrom` | main.js:155-159 | The ascending scan returns only an index in [i, hi) whose bin is strictly above the threshold. |
| `Pitch.FirstLoud` | main.js:145-161 | The estimator settles only on a loud bin, and only when the sample rate is positive. |
| `Pitch.BinFrequency` | script.js:151 | The script.js formula i·sr/(2N) equals main.js's i·nyquist/N (main.js:157). It is non-negative, and it is 0 exactly for bin 0 or a zero sample rate. |
| `Pitch.CalculateFundamentalFrequency` | main.js:145-162 | The early-return loop returns the scan's bin and its frequency, or none and 0 (also script.js:130-160). |
| `Pitch.EstimateHz` | main.js:155-161 | The returned frequency is never negative, and it is voiced (> 0) exactly when a loud in-band bin other than bin 0 was found. Also script.js:146-158. |
| `Pitch.ScanFromIsFirst` | main.js:155-158 | The scan returns k if and only if k is in range, k is loud, and no lower in-range bin is loud. |
| `Pitch.ScanFromNone` | main.js:159-161 | The scan returns none if and only if no in-range bin is strictly above 140. |
| `Pitch.ScanFromOnlySeesLoudness` | main.js:155-156 | Bins equal to 140, quieter bins and bins outside the range never change the scan's result. |
| `Pitch.EstimateIsLowestLoudBin` | script.js:142-154 | Both directions hold over [floor(80N/(sr/2)), floor(400N/(sr/2))): the estimator picks the lowest loud bin, and none exactly when no bin there is loud. |
| `Pitch.EstimateIsFrequencyOfLowestLoudBin` | main.js:152-157 | For a positive sample rate and the lowest bin k of the band strictly above 140, the estimate is k·nyquist/N. Also script.js:142-151. |
| `Pitch.EstimateOnlySeesLoudness` | script.js:146-148 | Two spectra that agree on which bins exceed 140 give the same estimate. |
| `Pitch.EstimateInBand` | main.js:152-157 | The chosen bin's frequency is below 400 Hz, and the next bin's frequency is above 80 Hz. |
| `Pitch.WorkedExample` | main.js:148-158 | At 44100 Hz with 1024 bins the band is [3, 18). With bin 10 alone at 200, the estimate is 10·22050/1024 Hz. |
| `Aggregation.Average` | main.js:136 | The loop over the whole window returns the mean of all accumulated samples. |
| `Aggregation.Sum` | main.js:136 | The left-to-right `reduce` over the window; its meaning is given by `Average`, `MeanBelow` and `MeanAbove`. Also script.js:122. |
| `Aggregation.Mean` | main.js:136 | The sum of the window divided by its length, the value handed to `determineGender`; `Average`, `MeanBelow` and `MeanAbove` state its meaning. Also script.js:122. |
| `Aggregation.Candidate` | main.js:176-182 | The ladder points to male exactly below low, to female exactly above high (and not below low), and to nothing exactly inside [low, high]. |
| `Aggregation.Decide` | main.js:173-189 | Below low gives male. Above high (and not below low) gives female. Inside [low, high] the category is unchanged. The rule never returns to Undetermined. |
| `Aggregation.Step` | main.js:131-138 | A sample that is not > 0 changes nothing. A voiced sample is appended. No classification happens while the window holds at most the minimum count; past it, the category becomes `Decide` of the held one and the mean of the whole new window. |
| `Aggregation.Voiced` | main.js:131-132 | The voiced estimates: no more than the estimates, and a value occurs among them exactly when it is an estimate > 0; all estimates when all are voiced, none when all are silent. Also script.js:116-117. |
| `Aggregation.Run` | main.js:124-141 | The sequence of ticks the animation loop produces; its meaning is given by `RunWindow`, `RunGated`, `RunClassifiesWholeWindow`, `RunKeepsDecided` and `RunAppend`. |
| `Aggregation.RunWindow` | script.js:116-117 | After any run the window is the old window followed by exactly the voiced samples, in order. It grows by one per voiced tick. |
| `Aggregation.RunClassifiesWholeWindow` | main.js:135-137 | Once old plus voiced samples exceed the minimum, a voiced tick sets the category to `Decide` on the mean of the whole accumulated window, the old window and every voiced sample so far. Also script.js:121-123. |
| `Aggregation.RunGated` | script.js:121 | While the window holds at most the minimum count (10 or 15), the category does not change. |
| `Aggregation.RunKeepsDecided` | script.js:177-193 | Once male or female, the category never reverts to Undetermined without a reset. |
| `Aggregation.RunAppend` | main.js:141 | Ticks compose: running xs and then ys is running xs + ys. |
| `Aggregation.MeanBelow` | main.js:136 | A mean of samples that are all below c is below c. |
| `Aggregation.MeanAbove` | main.js:136 | A mean of samples that are all above c is above c. |
| `Aggregation.SteadyLowVoiceIsMale` | main.js:176-177 | More than the minimum number of voiced samples, all below the low threshold, yield Male. |
| `Aggregation.SteadyHighVoiceIsFemale` | main.js:178-179 | More than the minimum number of samples, all above the high threshold, yield Female (given low < high). |
| `Aggregation.SteadyVoice` | script.js:116-124 | For a constant voice of pitch c: after n ticks the window is n copies of c. The category is Undetermined for n ≤ minimum, and the one c points to for n > minimum. |
| `Aggregation.ScriptScenario` | script.js:177-183 | In script.js, 110 Hz gives Undetermined after 10 ticks and Male from the 11th. A 13th tick at 300 Hz makes the recomputed mean 1620/13, inside the dead zone, so the category stays Male. |
| `Aggregation.TuningsDisagreeAt170` | script.js:179 | A steady 170 Hz voice stays Undetermined under main.js's tuning and becomes Female under script.js's. |
| `Aggregation.GenderTracker.constructor` | main.js:8-12 | The window starts empty, the category Undetermined, and the tracker is not listening. Also script.js:8-11. |
| `Aggregation.GenderTracker.Reset` | main.js:284-285 | The window is emptied and the category set to Undetermined. This is also goHome (main.js:352-354) and startRecording (script.js:232-233). |
| `Aggregation.GenderTracker.ClearWindow` | main.js:115 | Only the window is emptied (also script.js:99). |
| `Aggregation.GenderTracker.StartListening` | main.js:274-288 | A running session is stopped with its state kept. Otherwise the state is reset and listening starts. This is also script.js's `toggleRecording` with `startRecording`/`stopRecording` (script.js:217-233, script.js:248-253). |
| `Aggregation.GenderTracker.Stop` | main.js:258-259 | Listening ends and the window and category are kept. |
| `Aggregation.GenderTracker.DetermineGender` | script.js:171-194 | The new category equals `Decide`, and `changed` holds exactly when the category was reassigned. |
| `Aggregation.GenderTracker.Observe` | script.js:116-125 | The new state equals `Step` of the old state and the sample. `changed` reports a category change. |
| `Aggregation.GenderTracker.AnalyzeFrequency` | main.js:124-142 | While listening, one tick is `Step` on the estimator's output. Outside a session, nothing changes. |
| `Voices.ContainsIffOccurs` | main.js:207 | The substring search succeeds if and only if the pattern occurs at some position of the name. |
| `Voices.LowerChar` | main.js:207 | The `i` flag on ASCII: an upper-case letter maps to its lower-case letter (code + 32), every other character is unchanged, and no result is upper case. |
| `Voices.Lower` | main.js:207 | The name lower-cased character by character, same length. Also main.js:211, script.js:345, script.js:350. |
| `Voices.Contains` | main.js:207 | The unanchored regex search of one literal; `ContainsIffOccurs` states its meaning. |
| `Voices.MatchesAny` | main.js:207 | `regex.test(name)` for an alternation of lower-case literals with the `i` flag holds when some alternative occurs in the lower-cased name. Also main.js:211, script.js:345, script.js:350. |
| `Voices.MainPatterns` | main.js:205-213 | No pattern exactly for neutral; the male and female alternations otherwise, all of them lower case. |
| `Voices.ScriptPatterns` | script.js:342-352 | No pattern exactly for analyzing; the female and male alternations otherwise, all of them lower case. |
| `Voices.FemaleNameMatchesMalePattern` | script.js:350 | Every name containing "female" in any ASCII case matches the male pattern of both files. |
| `Voices.Filter` | main.js:198-200 | The result holds exactly the elements of the input that pass the test. |
| `Voices.Find` | main.js:206-208 | The result is an element that passes the test, and none exactly when no element passes. |
| `Voices.FindIsFirst` | script.js:344-346 | `find` returns the element at the first index whose element passes the test. |
| `Voices.FindInFilter` | script.js:331-351 | Searching the filtered pool is searching the whole catalogue for an element that passes both tests. |
| `Voices.FilterHead` | main.js:216 | The first element of a non-empty filtered pool is the first kept element of the catalogue. |
| `Voices.IsSpanish` | script.js:336 | The voice's language starts with "es". |
| `Voices.StartsWith` | script.js:336 | `String.prototype.startsWith`: the prefix is no longer than the string and equals its first characters. Also main.js:199, script.js:331. |
| `Voices.IsSpanishLocal` | main.js:198-199 | The voice's language starts with "es" and it is a local service voice. Also script.js:331. |
| `Voices.SelectVoice` | main.js:192-221 | The result is null if and only if no local Spanish voice exists, including the empty catalogue. Otherwise it is a local Spanish voice of the catalogue. |
| `Voices.SelectVoiceIsFirst` | main.js:204-217 | The result is the first local Spanish voice matching the category's pattern. Failing that, or for neutral, it is the first local Spanish voice. |
| `Voices.FindBestVoice` | script.js:324-356 | A returned voice is a local Spanish voice whose name matches the category's pattern, and never an unmatched fallback. Nothing is returned exactly when the category is undecided or no local Spanish voice matches. |
| `Voices.FindBestVoiceIsFirst` | script.js:340-355 | The result is the first local Spanish voice in catalogue order matching the category's pattern; for an undecided category, which has no pattern, it is nothing. |
| `Voices.RemoteSpanishVoiceIsIgnored` | script.js:333-344 | A catalogue with only a remote Spanish "Jorge" passes the early check, yet neither selector returns a voice. |
| `Voices.MaleSearchCanPickFemaleVoice` | script.js:349-351 | With "Paulina Female" listed before "Jorge", script.js's male search returns "Paulina Female". |
| `Voices.MainMaleSearchCanPickFemaleVoice` | main.js:205-208 | With the same catalogue, main.js's male search returns "Paulina Female" too. |
| `Speech.RepeatProsody` | main.js:306-315 | Male gets pitch and rate below 1. Female gets pitch above 1 and rate at least 1. Neutral gets 1.0 / 0.9. |
| `Speech.FallbackProsody` | script.js:295-305 | The fallback table lies in the same ranges per category. |
| `Speech.RepeatText` | main.js:291-315 | There is no utterance without text. Otherwise the utterance is "es-ES" at volume 1 with the voice from `selectVoice`, and pitch and rate are always set within the category's range. |
| `Speech.SpeakText` | script.js:273-306 | With a found voice: rate 0.9 and pitch left unset. Without one: the fallback pitch and rate of the category. |
| `Speech.RepeatProsodyIgnoresCatalogue` | main.js:301-315 | In main.js, pitch and rate do not depend on the voice catalogue. |
| `Speech.NoLocalSpanishFemale` | script.js:290-298 | Without a local Spanish voice, a female category gets no named voice and a pitch above 1 at a rate of at least 1, in both files. |
| `Speech.UndecidedSpeaksNeutral` | script.js:302-305 | An undecided category always speaks with the default voice at pitch 1.0 and rate 0.9. |

## Left out

- DOM and presentation: `updateUI`, `updateStatus`, `updateFrequencyDisplay` and its percentage clamp, `updateGenderDisplay`, `updateCharacter`, speech bubbles, button classes and screens. A status message on a category change is modelled only as the `changed` result.
- Speech recognition and the transcript: `onresult`, `lastSpokenText` and the 500 ms delay before `speakText`. The text is an input of `RepeatText` and `SpeakText`.
- The synthesis objects: `loadVoices`/`onvoiceschanged` (including the `loadVoices` call inside `selectVoice`), the utterance event handlers, and `speak`/`cancel`. The voice catalogue is an input sequence.
- Audio input and scheduling: `AudioContext`, `getUserMedia`, `getByteFrequencyData`, `requestAnimationFrame`, `cancelAnimationFrame` and `setTimeout`. The spectrum and sample rate are inputs, and each tick is one `AnalyzeFrequency` call.
- The guards for a missing analyser or data array (main.js:146, script.js:131) and for missing recognition or synthesis objects: the model assumes they exist.
- The second `getByteFrequencyData` call inside script.js's estimator (script.js:133): the model scans the single snapshot of the tick.
- The microphone permission requests at page load (main.js:367-380, script.js:375-384).
- IEEE-754 rounding: frequencies and means are exact reals, and the band indices are exact integer floors. Nothing is claimed about bit-exact agreement with JavaScript doubles.
- Voices.MatchesAny: folds ASCII letters only. This is exact for these patterns: the regular expressions carry `i` without `u`, so no non-ASCII character of a name can match one of their all-ASCII literals; Unicode case folding in general is not modelled.
- Aggregation.GenderTracker.StartListening: main.js sets `isListening` in the recognition `onstart` callback and clears it in `onend` after `recognition.stop()`. The model makes both changes at once.
- script.js's `goHome` only stops recording (`GenderTracker.Stop`). main.js's `goHome` also resets the state (`GenderTracker.Reset`) and clears the transcript.
