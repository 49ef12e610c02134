/** The utterance handed to the speech synthesiser: `repeatText` (main.js)
    and `speakText` (script.js) choose a voice and the pitch and rate
    multipliers from the detected category. */
module Speech {
  import opened Common
  import opened Voices

  /** The fields of a SpeechSynthesisUtterance the engine sets. `pitch` and
      `rate` are None when left at the synthesiser's default. */
  datatype Utterance = Utterance(
    text: string,
    lang: string,
    volume: real,
    voice: Option<Voice>,
    pitch: Option<real>,
    rate: Option<real>)

  /** The pitch and rate range of each category: a low, slower
      voice for Male; a higher voice at least at normal speed for Female; a
      normal pitch at rate 0.9 when undecided. */
  predicate SuitsCategory(g: Gender, pitch: real, rate: real)
  {
    match g
    case Male => 0.0 < pitch < 1.0 && 0.0 < rate < 1.0
    case Female => pitch > 1.0 && rate >= 1.0
    case Undetermined => pitch == 1.0 && rate == 0.9
  }

  /** main.js's table: male 0.1 / 0.6, female 2.0 / 1.2, otherwise 1.0 / 0.9. */
  function RepeatProsody(g: Gender): (pr: (real, real))
    ensures SuitsCategory(g, pr.0, pr.1)
  {
    match g
    case Male => (0.1, 0.6)
    case Female => (2.0, 1.2)
    case Undetermined => (1.0, 0.9)
  }

  /** script.js's fallback table: female 1.7 / 1.1, male 0.5 / 0.85,
      otherwise 1.0 / 0.9. */
  function FallbackProsody(g: Gender): (pr: (real, real))
    ensures SuitsCategory(g, pr.0, pr.1)
  {
    match g
    case Female => (1.7, 1.1)
    case Male => (0.5, 0.85)
    case Undetermined => (1.0, 0.9)
  }

  /** main.js `repeatText()`: nothing to say without a transcript; otherwise
      Spanish at full volume, the voice `selectVoice` found (or the default
      voice), and the table's pitch and rate whether or not a voice was
      found. */
  function RepeatText(text: string, g: Gender, voices: seq<Voice>): (u: Option<Utterance>)
    ensures u.None? <==> text == ""
    ensures u.Some? ==> u.value.text == text && u.value.lang == "es-ES" && u.value.volume == 1.0
    ensures u.Some? ==> u.value.voice == SelectVoice(g, voices)
    ensures u.Some? ==> u.value.pitch.Some? && u.value.rate.Some? &&
                        SuitsCategory(g, u.value.pitch.value, u.value.rate.value)
  {
    if text == "" then None
    else
      var (pitch, rate) := RepeatProsody(g);
      Some(Utterance(text, "es-ES", 1.0, SelectVoice(g, voices), Some(pitch), Some(rate)))
  }

  /** script.js `speakText(text)`: with the voice `findBestVoice` found, rate
      0.9 and the voice's own pitch; without one, the default voice and the
      fallback table. */
  function SpeakText(text: string, g: Gender, voices: seq<Voice>): (u: Utterance)
    ensures u.text == text && u.lang == "es-ES" && u.volume == 1.0
    ensures u.voice == FindBestVoice(g, voices)
    ensures u.voice.Some? ==> u.pitch.None? && u.rate == Some(0.9)
    ensures u.voice.None? ==> u.pitch.Some? && u.rate.Some? && SuitsCategory(g, u.pitch.value, u.rate.value)
  {
    var voice := FindBestVoice(g, voices);
    if voice.Some? then
      Utterance(text, "es-ES", 1.0, voice, None, Some(0.9))
    else
      var (pitch, rate) := FallbackProsody(g);
      Utterance(text, "es-ES", 1.0, None, Some(pitch), Some(rate))
  }

  /** In main.js the pitch and rate depend on the category alone, not on the
      voice catalogue. */
  lemma RepeatProsodyIgnoresCatalogue(text: string, g: Gender, v1: seq<Voice>, v2: seq<Voice>)
    requires text != ""
    ensures RepeatText(text, g, v1).value.pitch == RepeatText(text, g, v2).value.pitch
    ensures RepeatText(text, g, v1).value.rate == RepeatText(text, g, v2).value.rate
  {
  }

  /** Without any local Spanish voice, a female category gets no named voice
      from either file, and a raised pitch at a rate of at least 1. */
  lemma NoLocalSpanishFemale(text: string, voices: seq<Voice>)
    requires text != ""
    requires forall v :: v in voices ==> !IsSpanishLocal(v)
    ensures SpeakText(text, Female, voices).voice == None
    ensures SpeakText(text, Female, voices).pitch.value > 1.0 && SpeakText(text, Female, voices).rate.value >= 1.0
    ensures RepeatText(text, Female, voices).value.voice == None
    ensures RepeatText(text, Female, voices).value.pitch.value > 1.0 && RepeatText(text, Female, voices).value.rate.value >= 1.0
  {
  }

  /** An undecided category never gets a named voice in script.js, so it
      always speaks with the default voice at pitch 1.0 and rate 0.9. */
  lemma UndecidedSpeaksNeutral(text: string, voices: seq<Voice>)
    ensures SpeakText(text, Undetermined, voices) == Utterance(text, "es-ES", 1.0, None, Some(1.0), Some(0.9))
  {
  }
}
