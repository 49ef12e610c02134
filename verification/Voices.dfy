/** Voice selection: `selectVoice` (main.js) and `findBestVoice` (script.js)
    keep the local Spanish voices of the catalogue and take the first whose
    name matches the category's case-insensitive name pattern. */
module Voices {
  import opened Common

  /** A SpeechSynthesisVoice as the selector sees it. */
  datatype Voice = Voice(name: string, lang: string, localService: bool)

  // ---------------------------------------------------------------------
  // Strings

  /** ASCII lower-casing of one character. */
  function LowerChar(c: char): (d: char)
    ensures 'A' <= c <= 'Z' ==> 'a' <= d <= 'z' && d as int == c as int + 32
    ensures !('A' <= c <= 'Z') ==> d == c
    ensures !('A' <= d <= 'Z')
  {
    if 'A' <= c <= 'Z' then (c as int + 32) as char else c
  }

  function Lower(s: string): (r: string)
    ensures |r| == |s| && forall i :: 0 <= i < |s| ==> r[i] == LowerChar(s[i])
  {
    seq(|s|, i requires 0 <= i < |s| => LowerChar(s[i]))
  }

  /** `s.startsWith(prefix)`. */
  predicate StartsWith(s: string, prefix: string)
  {
    |prefix| <= |s| && s[..|prefix|] == prefix
  }

  /** `pat` occurs in `text` at position k. */
  predicate OccursAt(text: string, pat: string, k: nat)
  {
    k + |pat| <= |text| && text[k..k + |pat|] == pat
  }

  /** Unanchored search for `pat` in `text`, trying positions left to right. */
  predicate Contains(text: string, pat: string)
    decreases |text|
  {
    |pat| <= |text| && (text[..|pat|] == pat || (|text| > 0 && Contains(text[1..], pat)))
  }

  lemma {:induction false} ContainsIffOccurs(text: string, pat: string)
    decreases |text|
    ensures Contains(text, pat) <==> exists k: nat :: OccursAt(text, pat, k)
  {
    if Contains(text, pat) {
      if text[..|pat|] == pat {
        assert OccursAt(text, pat, 0);
      } else {
        ContainsIffOccurs(text[1..], pat);
        var k: nat :| OccursAt(text[1..], pat, k);
        assert text[1..][k..k + |pat|] == text[k + 1..k + 1 + |pat|];
        assert OccursAt(text, pat, k + 1);
      }
    }
    if exists k: nat :: OccursAt(text, pat, k) {
      var k: nat :| OccursAt(text, pat, k);
      if k > 0 {
        assert text[1..][k - 1..k - 1 + |pat|] == text[k..k + |pat|];
        assert OccursAt(text[1..], pat, k - 1);
        ContainsIffOccurs(text[1..], pat);
      }
    }
  }

  // ---------------------------------------------------------------------
  // Name patterns

  /** /male|masculin|hombre|jorge|diego|carlos/i (main.js) */
  const MainMalePatterns: seq<string> := ["male", "masculin", "hombre", "jorge", "diego", "carlos"]
  /** /female|femenin|mujer|maria|carmen|lucia/i (main.js) */
  const MainFemalePatterns: seq<string> := ["female", "femenin", "mujer", "maria", "carmen", "lucia"]
  /** /male|hombre|masculina|jorge|diego|pablo/i (script.js) */
  const ScriptMalePatterns: seq<string> := ["male", "hombre", "masculina", "jorge", "diego", "pablo"]
  /** /female|mujer|femenina|helena|laura|paulina/i (script.js) */
  const ScriptFemalePatterns: seq<string> := ["female", "mujer", "femenina", "helena", "laura", "paulina"]

  /** `regex.test(name)` for an alternation of lower-case literals with the
      `i` flag: some alternative occurs somewhere in the lower-cased name. */
  predicate MatchesAny(name: string, patterns: seq<string>)
  {
    exists p :: p in patterns && Contains(Lower(name), p)
  }

  /** Because "male" is a substring of "female", every name that contains
      "female" in any letter case matches the male pattern of both files. */
  lemma FemaleNameMatchesMalePattern(name: string)
    requires Contains(Lower(name), "female")
    ensures MatchesAny(name, MainMalePatterns)
    ensures MatchesAny(name, ScriptMalePatterns)
  {
    var text := Lower(name);
    ContainsIffOccurs(text, "female");
    var k: nat :| OccursAt(text, "female", k);
    assert text[k + 2..k + 6] == text[k..k + 6][2..] == "male";
    assert OccursAt(text, "male", k + 2);
    ContainsIffOccurs(text, "male");
    assert "male" in MainMalePatterns && "male" in ScriptMalePatterns;
  }

  // ---------------------------------------------------------------------
  // Array.prototype.filter and Array.prototype.find

  /** `xs.filter(keep)`: the kept elements. (The order facts the selectors
      rely on are `FindInFilter` and `FilterHead` below.) */
  function Filter<T(!new)>(xs: seq<T>, keep: T -> bool): (ys: seq<T>)
    ensures |ys| <= |xs|
    ensures forall y :: y in ys <==> y in xs && keep(y)
  {
    if xs == [] then []
    else (if keep(xs[0]) then [xs[0]] else []) + Filter(xs[1..], keep)
  }

  /** `xs.find(p)`, with None for `undefined`. */
  function Find<T(!new)>(xs: seq<T>, p: T -> bool): (r: Option<T>)
    ensures r.Some? ==> r.value in xs && p(r.value)
    ensures r.None? <==> forall x :: x in xs ==> !p(x)
  {
    if xs == [] then None
    else if p(xs[0]) then Some(xs[0])
    else Find(xs[1..], p)
  }

  /** Find returns the element at the first index that satisfies `p`. */
  lemma {:induction false} FindIsFirst<T(!new)>(xs: seq<T>, p: T -> bool, i: nat)
    requires i < |xs| && p(xs[i])
    requires forall j :: 0 <= j < i ==> !p(xs[j])
    ensures Find(xs, p) == Some(xs[i])
  {
    if i > 0 {
      FindIsFirst(xs[1..], p, i - 1);
    }
  }

  /** Searching the filtered list for `p` is searching the whole list for an
      element that passes both tests. */
  lemma {:induction false} FindInFilter<T(!new)>(xs: seq<T>, keep: T -> bool, p: T -> bool, both: T -> bool)
    requires forall x :: both(x) == (keep(x) && p(x))
    ensures Find(Filter(xs, keep), p) == Find(xs, both)
  {
    if xs != [] {
      var rest := Filter(xs[1..], keep);
      FindInFilter(xs[1..], keep, p, both);
      if keep(xs[0]) {
        var ys := [xs[0]] + rest;
        assert Filter(xs, keep) == ys;
        assert ys[0] == xs[0] && ys[1..] == rest;
      } else {
        assert Filter(xs, keep) == rest;
      }
    }
  }

  /** The first element of a non-empty filtered list is the first kept
      element. */
  lemma {:induction false} FilterHead<T(!new)>(xs: seq<T>, keep: T -> bool)
    requires Filter(xs, keep) != []
    ensures Find(xs, keep) == Some(Filter(xs, keep)[0])
  {
    var rest := Filter(xs[1..], keep);
    if !keep(xs[0]) {
      assert Filter(xs, keep) == rest;
      FilterHead(xs[1..], keep);
    }
  }

  // ---------------------------------------------------------------------
  // The two selectors

  /** `voice.lang.startsWith('es')` */
  predicate IsSpanish(v: Voice)
  {
    StartsWith(v.lang, "es")
  }

  /** `voice.lang.startsWith('es') && voice.localService` */
  predicate IsSpanishLocal(v: Voice)
  {
    IsSpanish(v) && v.localService
  }

  /** The pattern `selectVoice` searches for a category (none for neutral). */
  function MainPatterns(g: Gender): (ps: seq<string>)
    ensures ps == [] <==> g == Undetermined
    ensures forall p, i :: p in ps && 0 <= i < |p| ==> !('A' <= p[i] <= 'Z')
  {
    match g
    case Male => MainMalePatterns
    case Female => MainFemalePatterns
    case Undetermined => []
  }

  /** The pattern `findBestVoice` searches for a category (none for analyzing). */
  function ScriptPatterns(g: Gender): (ps: seq<string>)
    ensures ps == [] <==> g == Undetermined
    ensures forall p, i :: p in ps && 0 <= i < |p| ==> !('A' <= p[i] <= 'Z')
  {
    match g
    case Male => ScriptMalePatterns
    case Female => ScriptFemalePatterns
    case Undetermined => []
  }

  /** main.js `selectVoice(gender)`: null for an empty catalogue or when no
      local Spanish voice exists; otherwise the first local Spanish voice
      matching the category's pattern, falling back to the first local
      Spanish voice. */
  function SelectVoice(g: Gender, voices: seq<Voice>): (r: Option<Voice>)
    ensures r.None? <==> forall v :: v in voices ==> !IsSpanishLocal(v)
    ensures r.Some? ==> r.value in voices && IsSpanishLocal(r.value)
  {
    if |voices| == 0 then None
    else
      var pool := Filter(voices, IsSpanishLocal);
      if |pool| == 0 then None
      else
        var found :=
          if g == Undetermined then None
          else Find(pool, (v: Voice) => MatchesAny(v.name, MainPatterns(g)));
        if found.None? then (assert pool[0] in pool; Some(pool[0])) else found
  }

  /** script.js `findBestVoice()`: nothing for an empty catalogue, for a
      catalogue without any Spanish voice, or for an undecided category;
      otherwise the first local Spanish voice whose name matches the
      category's pattern, or nothing. Non-local Spanish voices only keep the
      function from returning early: they are never searched. */
  function FindBestVoice(g: Gender, voices: seq<Voice>): (r: Option<Voice>)
    ensures r.Some? ==> g != Undetermined && r.value in voices && IsSpanishLocal(r.value) &&
                        MatchesAny(r.value.name, ScriptPatterns(g))
    ensures r.None? <==> g == Undetermined ||
                         forall v :: v in voices && IsSpanishLocal(v) ==> !MatchesAny(v.name, ScriptPatterns(g))
  {
    if |voices| == 0 then None
    else
      var pool := Filter(voices, IsSpanishLocal);
      if |pool| == 0 && |Filter(voices, IsSpanish)| == 0 then None
      else
        if g == Undetermined then None
        else Find(pool, (v: Voice) => MatchesAny(v.name, ScriptPatterns(g)))
  }

  /** `selectVoice` picks, in catalogue order, the first local Spanish voice
      whose name matches the category's pattern; when there is none, or the
      category is neutral, the first local Spanish voice. */
  lemma SelectVoiceIsFirst(g: Gender, voices: seq<Voice>)
    ensures var matched := Find(voices, (v: Voice) => IsSpanishLocal(v) && MatchesAny(v.name, MainPatterns(g)));
            SelectVoice(g, voices) == if matched.Some? then matched else Find(voices, IsSpanishLocal)
  {
    var pool := Filter(voices, IsSpanishLocal);
    var pat := (v: Voice) => MatchesAny(v.name, MainPatterns(g));
    var both := (v: Voice) => IsSpanishLocal(v) && MatchesAny(v.name, MainPatterns(g));
    FindInFilter(voices, IsSpanishLocal, pat, both);
    if pool != [] {
      FilterHead(voices, IsSpanishLocal);
    }
    if g == Undetermined {
      assert forall v :: !both(v);
    }
  }

  /** `findBestVoice` returns, in catalogue order, the first local Spanish
      voice whose name matches the category's pattern, and nothing else. */
  lemma FindBestVoiceIsFirst(g: Gender, voices: seq<Voice>)
    ensures FindBestVoice(g, voices) ==
            Find(voices, (v: Voice) => IsSpanishLocal(v) && MatchesAny(v.name, ScriptPatterns(g)))
  {
    var pool := Filter(voices, IsSpanishLocal);
    var pat := (v: Voice) => MatchesAny(v.name, ScriptPatterns(g));
    var both := (v: Voice) => IsSpanishLocal(v) && MatchesAny(v.name, ScriptPatterns(g));
    FindInFilter(voices, IsSpanishLocal, pat, both);
    assert Find(pool, pat) == Find(voices, both);
    if |voices| == 0 || (|pool| == 0 && |Filter(voices, IsSpanish)| == 0) {
      assert FindBestVoice(g, voices) == None;
      assert pool == [];
      assert Find(pool, pat) == None;
    } else {
      assert FindBestVoice(g, voices) == Find(pool, pat);
    }
  }

  /** A catalogue whose only Spanish voice is remote: the early return is
      skipped, but the search runs over the empty local pool and finds
      nothing, although the voice's name matches. `selectVoice` finds
      nothing either. */
  lemma RemoteSpanishVoiceIsIgnored()
    ensures var voices := [Voice("Jorge", "es-MX", false)];
            Filter(voices, IsSpanish) != [] && MatchesAny("Jorge", ScriptMalePatterns) &&
            FindBestVoice(Male, voices) == None && SelectVoice(Male, voices) == None
  {
    assert Lower("Jorge") == "jorge";
    assert OccursAt("jorge", "jorge", 0);
    ContainsIffOccurs("jorge", "jorge");
    assert "jorge" in ScriptMalePatterns;
  }

  /** A catalogue with a female voice listed before a male one, both local
      and Spanish. */
  const FemaleFirst: seq<Voice> := [Voice("Paulina Female", "es-MX", true), Voice("Jorge", "es-ES", true)]

  /** "Paulina Female" matches both files' male patterns. */
  lemma PaulinaFemaleMatchesMale()
    ensures MatchesAny("Paulina Female", MainMalePatterns)
    ensures MatchesAny("Paulina Female", ScriptMalePatterns)
  {
    assert Lower("Paulina Female") == "paulina female";
    assert OccursAt("paulina female", "female", 8);
    ContainsIffOccurs("paulina female", "female");
    FemaleNameMatchesMalePattern("Paulina Female");
  }

  /** With the female voice listed first, script.js's search for a male
      voice picks it. */
  lemma MaleSearchCanPickFemaleVoice()
    ensures FindBestVoice(Male, FemaleFirst) == Some(FemaleFirst[0])
  {
    var voices := FemaleFirst;
    assert IsSpanishLocal(voices[0]) && IsSpanishLocal(voices[1]);
    assert voices[1..][1..] == [];
    assert Filter(voices, IsSpanishLocal) == voices;
    PaulinaFemaleMatchesMale();
  }

  /** The same for main.js's `selectVoice`. */
  lemma MainMaleSearchCanPickFemaleVoice()
    ensures SelectVoice(Male, FemaleFirst) == Some(FemaleFirst[0])
  {
    var voices := FemaleFirst;
    assert IsSpanishLocal(voices[0]) && IsSpanishLocal(voices[1]);
    assert voices[1..][1..] == [];
    assert Filter(voices, IsSpanishLocal) == voices;
    PaulinaFemaleMatchesMale();
  }
}
