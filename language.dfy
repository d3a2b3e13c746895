/**
 * The language decision engine of core/recognizer.py: filtering detector
 * output to the supported languages, the arg-max with sticky-language
 * hysteresis (`_best_lang`), the per-utterance dispatch of the three modes
 * (the body of `_process_loop` after an utterance is ready), the
 * out-of-band detector `detect_language_from_audio` and its resampler.
 *
 * The speech engine is outside the model: `Engine` holds it as oracle
 * functions, and a `Decision` records the oracle calls made, in order.
 */
module Language {
  import opened Wrappers
  import Text
  import Values

  /** `self._allowed`. */
  const Allowed: set<string> := {"ru", "en", "zh"}

  /** Language probabilities as the detector returns them: pairs of
      language code and probability, in the dictionary's order. */
  type Probs = seq<(string, real)>

  /** The speech engine as oracles: `padOrTrim` and `denoise` prepare audio
      (whisper.pad_or_trim, the Wiener filter), `detect(model, audio)` is the
      detector's probability table for that audio (log-mel included), and
      `transcribe(model, audio, lang)` is the "text" field of the
      transcription result (`None` when it is absent or `None`). */
  datatype Engine = Engine(
    padOrTrim: seq<real> -> seq<real>,
    denoise: seq<real> -> seq<real>,
    detect: (string, seq<real>) -> Probs,
    transcribe: (string, seq<real>, string) -> Option<string>)

  /** One call into the speech engine. */
  datatype Call = Detect | Transcribe(lang: string)

  /** Python truthiness of `_last_lang`: set and not empty. */
  predicate IsSet(last: Option<string>) {
    last.Some? && last.value != ""
  }

  /** The entries whose language is not in `ex`, in their order. */
  function Without(p: Probs, ex: set<string>): (r: Probs)
    ensures |r| <= |p|
    ensures forall e :: e in r <==> e in p && e.0 !in ex
  {
    if p == [] then []
    else (if p[0].0 in ex then [] else [p[0]]) + Without(p[1..], ex)
  }

  /** `{k: v for k, v in probs.items() if k in self._allowed}`. */
  function Supported(p: Probs): (r: Probs)
    ensures forall e :: e in r <==> e in p && e.0 in Allowed
  {
    if p == [] then []
    else (if p[0].0 in Allowed then [p[0]] else []) + Supported(p[1..])
  }

  /** `max(filt, key=filt.get)`: the first entry of greatest probability. */
  function ArgMax(p: Probs): (i: nat)
    requires |p| > 0
    ensures i < |p|
    ensures forall j :: 0 <= j < |p| ==> p[j].1 <= p[i].1
    ensures forall j :: 0 <= j < i ==> p[j].1 < p[i].1
  {
    if |p| == 1 then 0
    else
      var k := ArgMax(p[..|p| - 1]);
      if p[|p| - 1].1 > p[k].1 then |p| - 1 else k
  }

  /** Candidates of `_best_lang`: supported languages minus the exclusions. */
  function Candidates(probs: Probs, exclude: set<string>): Probs {
    Without(Supported(probs), exclude)
  }

  /** `_best_lang` (core/recognizer.py:300-314) on the detector's table. */
  function BestLangOf(probs: Probs, exclude: set<string>, force: bool, last: Option<string>): string {
    var filt := Candidates(probs, exclude);
    if filt == [] then
      (if IsSet(last) then last.value else "en")
    else
      var top := filt[ArgMax(filt)];
      if !force && IsSet(last) && top.0 != last.value && top.1 < 0.50 then last.value
      else top.0
  }

  /** A best candidate: a candidate of greatest probability. */
  ghost predicate IsBestCandidate(probs: Probs, exclude: set<string>, lang: string) {
    var c := Candidates(probs, exclude);
    exists i :: 0 <= i < |c| && c[i].0 == lang && forall j :: 0 <= j < |c| ==> c[j].1 <= c[i].1
  }

  /** With no candidate left, the sticky language is kept, or "en" when there
      is none. */
  lemma BestLangFallback(probs: Probs, exclude: set<string>, force: bool, last: Option<string>)
    requires Candidates(probs, exclude) == []
    ensures BestLangOf(probs, exclude, force, last) == if IsSet(last) then last.value else "en"
  {
  }

  /** On the arg-max path (candidates left, and forced, or no sticky
      language, or an answer other than the sticky language) the answer is
      a best candidate: supported, not excluded, of greatest probability. */
  lemma BestLangIsBestCandidate(probs: Probs, exclude: set<string>, force: bool, last: Option<string>)
    ensures var r := BestLangOf(probs, exclude, force, last);
            Candidates(probs, exclude) != [] && (force || !IsSet(last) || r != last.value) ==>
              IsBestCandidate(probs, exclude, r) && r in Allowed && r !in exclude
  {
    var c := Candidates(probs, exclude);
    if c != [] {
      var i := ArgMax(c);
      assert c[i] in c;
    }
  }

  /** The answer is always a supported language or the sticky language. */
  lemma BestLangRange(probs: Probs, exclude: set<string>, force: bool, last: Option<string>)
    ensures var r := BestLangOf(probs, exclude, force, last);
            r in Allowed || (IsSet(last) && r == last.value)
  {
    var c := Candidates(probs, exclude);
    if c != [] {
      var i := ArgMax(c);
      assert c[i] in c;
    }
  }

  /** Hysteresis: unless forced, a sticky language is kept whenever every
      other candidate is below the 0.50 floor. */
  lemma BestLangSticky(probs: Probs, exclude: set<string>, last: Option<string>)
    requires IsSet(last)
    requires forall e :: e in Candidates(probs, exclude) && e.0 != last.value ==> e.1 < 0.50
    ensures BestLangOf(probs, exclude, false, last) == last.value
  {
    var c := Candidates(probs, exclude);
    if c != [] {
      var i := ArgMax(c);
      assert c[i] in c;
    }
  }

  /** Unless forced, a switch away from a sticky language needs a best
      candidate of probability at least 0.50. */
  lemma BestLangSwitch(probs: Probs, exclude: set<string>, last: Option<string>)
    requires IsSet(last)
    requires BestLangOf(probs, exclude, false, last) != last.value
    ensures var r := BestLangOf(probs, exclude, false, last);
            IsBestCandidate(probs, exclude, r)
            && exists e :: e in Candidates(probs, exclude) && e.0 == r && e.1 >= 0.50
  {
    var c := Candidates(probs, exclude);
    var i := ArgMax(c);
    assert c[i] in c;
  }

  /** The exclusion set does not bind the hysteresis path: with "ru" sticky
      and excluded, the detector's 0.4 for "en" is below the floor and the
      excluded "ru" comes back. */
  lemma StickyIgnoresExclusion()
    ensures BestLangOf([("en", 0.4), ("ru", 0.3)], {"ru"}, false, Some("ru")) == "ru"
  {
  }

  /** `_asr`: the transcript text, stripped. */
  function Asr(eng: Engine, model: string, y: seq<real>, lang: string): (t: string)
    ensures t == Text.Strip(t)
  {
    var t := Text.Strip(eng.transcribe(model, y, lang).GetOr(""));
    Text.StripIdempotent(eng.transcribe(model, y, lang).GetOr(""));
    t
  }

  /** `self.cfg.chosen_lang if self.cfg.chosen_lang in self._allowed else "ru"`. */
  function ChosenOrRu(chosen: string): (l: string)
    ensures l in Allowed
    ensures chosen in Allowed ==> l == chosen
    ensures chosen !in Allowed ==> l == "ru"
  {
    if chosen in Allowed then chosen else "ru"
  }

  /** What one utterance produced: the language, the transcript, the sticky
      language afterwards and the engine calls in order. */
  datatype Decision = Decision(lang: string, text: string, last: Option<string>, calls: seq<Call>)

  /** Exclusive mode (core/recognizer.py:274-276). */
  function DecideExclusive(eng: Engine, model: string, chosen: string, last: Option<string>,
                           y: seq<real>): Decision
  {
    var lang := ChosenOrRu(chosen);
    Decision(lang, Asr(eng, model, y, lang), last, [Transcribe(lang)])
  }

  /** Priority mode (core/recognizer.py:277-284). */
  function DecidePriority(eng: Engine, model: string, chosen: string, last: Option<string>,
                          y: seq<real>): Decision
  {
    var primary := ChosenOrRu(chosen);
    var text := Asr(eng, model, y, primary);
    if |Text.Strip(text)| < 2 then
      var lang := BestLangOf(eng.detect(model, y), {primary}, false, last);
      Decision(lang, Asr(eng, model, y, lang), last, [Transcribe(primary), Detect, Transcribe(lang)])
    else
      Decision(primary, text, last, [Transcribe(primary)])
  }

  /** Standard mode (core/recognizer.py:285-291). */
  function DecideStandard(eng: Engine, model: string, last: Option<string>, y: seq<real>): Decision {
    var first := BestLangOf(eng.detect(model, y), {}, false, last);
    if IsSet(last) && first != last.value then
      var lang := BestLangOf(eng.detect(model, y), {}, true, last);
      Decision(lang, Asr(eng, model, y, lang), Some(lang), [Detect, Detect, Transcribe(lang)])
    else
      Decision(first, Asr(eng, model, y, first), Some(first), [Detect, Transcribe(first)])
  }

  /** The mode dispatch of `_process_loop` (core/recognizer.py:273-291) for
      prepared audio `y` and the resident model `model`: any mode other than
      "exclusive" and "priority" is standard. */
  function Decide(eng: Engine, model: string, mode: string, chosen: string,
                  last: Option<string>, y: seq<real>): Decision
  {
    if mode == "exclusive" then DecideExclusive(eng, model, chosen, last, y)
    else if mode == "priority" then DecidePriority(eng, model, chosen, last, y)
    else DecideStandard(eng, model, last, y)
  }

  /** The languages transcription was asked for, in order. */
  function Transcriptions(calls: seq<Call>): seq<string> {
    if calls == [] then []
    else (if calls[0].Transcribe? then [calls[0].lang] else []) + Transcriptions(calls[1..])
  }

  /** The number of detection calls. */
  function Detections(calls: seq<Call>): (n: nat)
    ensures n <= |calls|
    ensures n == 0 <==> Detect !in calls
  {
    if calls == [] then 0 else (if calls[0] == Detect then 1 else 0) + Detections(calls[1..])
  }

  /** The call sequence of exclusive mode and of a first priority try. */
  lemma CallsTranscribe(a: string)
    ensures Transcriptions([Transcribe(a)]) == [a] && Detections([Transcribe(a)]) == 0
  {
  }

  /** A concrete call sequence, standard mode without a second detection:
      one of the fixed sequences the mode lemmas below are stated with. */
  lemma CallsDetectOnce(a: string)
    ensures Transcriptions([Detect, Transcribe(a)]) == [a] && Detections([Detect, Transcribe(a)]) == 1
  {
    assert [Detect, Transcribe(a)][1..] == [Transcribe(a)];
    assert [Transcribe(a)][1..] == [];
    assert Transcriptions([Transcribe(a)]) == [a] + Transcriptions([]);
    assert Detections([Transcribe(a)]) == 0;
  }

  /** A concrete call sequence, standard mode with a second detection: one
      of the fixed sequences the mode lemmas below are stated with. */
  lemma CallsDetectTwice(a: string)
    ensures Transcriptions([Detect, Detect, Transcribe(a)]) == [a]
            && Detections([Detect, Detect, Transcribe(a)]) == 2
  {
    assert [Detect, Detect, Transcribe(a)][1..] == [Detect, Transcribe(a)];
    CallsDetectOnce(a);
  }

  /** The call sequence of the priority fallback. */
  lemma CallsFallback(a: string, b: string)
    ensures Transcriptions([Transcribe(a), Detect, Transcribe(b)]) == [a, b]
            && Detections([Transcribe(a), Detect, Transcribe(b)]) == 1
  {
    assert [Transcribe(a), Detect, Transcribe(b)][1..] == [Detect, Transcribe(b)];
    CallsDetectOnce(b);
    assert [a] + [b] == [a, b];
  }

  /** Exclusive mode: one transcription, in the chosen language when it is
      supported and in "ru" otherwise; no detection; sticky language kept. */
  lemma ExclusiveMode(eng: Engine, model: string, chosen: string, last: Option<string>, y: seq<real>)
    ensures var d := Decide(eng, model, "exclusive", chosen, last, y);
            Transcriptions(d.calls) == [ChosenOrRu(chosen)] && Detections(d.calls) == 0
            && d.lang == ChosenOrRu(chosen) && d.last == last
  {
    CallsTranscribe(ChosenOrRu(chosen));
  }

  /** Priority mode, first transcript of at least 2 characters: that single
      transcription in the primary language is the answer; no detection; the
      sticky language is kept. */
  lemma PriorityFirstTry(eng: Engine, model: string, chosen: string, last: Option<string>, y: seq<real>)
    requires |Asr(eng, model, y, ChosenOrRu(chosen))| >= 2
    ensures var d := Decide(eng, model, "priority", chosen, last, y);
            d == Decision(ChosenOrRu(chosen), Asr(eng, model, y, ChosenOrRu(chosen)), last,
                          [Transcribe(ChosenOrRu(chosen))])
            && Transcriptions(d.calls) == [ChosenOrRu(chosen)] && Detections(d.calls) == 0
  {
    var primary := ChosenOrRu(chosen);
    var t := Asr(eng, model, y, primary);
    assert Text.Strip(t) == t;
    assert Decide(eng, model, "priority", chosen, last, y) == DecidePriority(eng, model, chosen, last, y);
    assert DecidePriority(eng, model, chosen, last, y) == Decision(primary, t, last, [Transcribe(primary)]);
    CallsTranscribe(primary);
  }

  /** Priority mode, first transcript shorter than 2 characters: one detection
      that excludes the primary language and one more transcription, in the
      language `_best_lang` picks with the primary excluded; at most two
      transcriptions in all, the first in the primary language; the sticky
      language is kept. */
  lemma PriorityFallback(eng: Engine, model: string, chosen: string, last: Option<string>, y: seq<real>)
    requires |Asr(eng, model, y, ChosenOrRu(chosen))| < 2
    ensures var d := Decide(eng, model, "priority", chosen, last, y);
            var lang := BestLangOf(eng.detect(model, y), {ChosenOrRu(chosen)}, false, last);
            d == Decision(lang, Asr(eng, model, y, lang), last,
                          [Transcribe(ChosenOrRu(chosen)), Detect, Transcribe(lang)])
            && Transcriptions(d.calls) == [ChosenOrRu(chosen), lang] && Detections(d.calls) == 1
  {
    var primary := ChosenOrRu(chosen);
    var lang := BestLangOf(eng.detect(model, y), {primary}, false, last);
    PriorityRetries(eng, model, chosen, last, y);
    assert Decide(eng, model, "priority", chosen, last, y) == DecidePriority(eng, model, chosen, last, y);
    CallsFallback(primary, lang);
  }

  /** The decision of the priority fallback. */
  lemma PriorityRetries(eng: Engine, model: string, chosen: string, last: Option<string>, y: seq<real>)
    requires |Asr(eng, model, y, ChosenOrRu(chosen))| < 2
    ensures var lang := BestLangOf(eng.detect(model, y), {ChosenOrRu(chosen)}, false, last);
            DecidePriority(eng, model, chosen, last, y)
            == Decision(lang, Asr(eng, model, y, lang), last, [Transcribe(ChosenOrRu(chosen)), Detect, Transcribe(lang)])
  {
    var t := Asr(eng, model, y, ChosenOrRu(chosen));
    assert |Text.Strip(t)| < 2;
  }

  /** Standard mode: one or two detections (two only when a sticky language
      is set and the first pick differs from it), then one transcription in
      the final language, which becomes the sticky language. */
  lemma StandardMode(eng: Engine, model: string, mode: string, last: Option<string>, y: seq<real>)
    requires mode != "exclusive" && mode != "priority"
    ensures var d := Decide(eng, model, mode, "", last, y);
            var first := BestLangOf(eng.detect(model, y), {}, false, last);
            && Transcriptions(d.calls) == [d.lang]
            && (Detections(d.calls) == 2 <==> IsSet(last) && first != last.value)
            && (Detections(d.calls) == 1 <==> !(IsSet(last) && first != last.value))
            && d.last == Some(d.lang)
  {
    var probs := eng.detect(model, y);
    var first := BestLangOf(probs, {}, false, last);
    var d := Decide(eng, model, mode, "", last, y);
    if IsSet(last) && first != last.value {
      var lang := BestLangOf(probs, {}, true, last);
      assert d == Decision(lang, Asr(eng, model, y, lang), Some(lang), [Detect, Detect, Transcribe(lang)]);
      CallsDetectTwice(lang);
    } else {
      assert d == Decision(first, Asr(eng, model, y, first), Some(first), [Detect, Transcribe(first)]);
      CallsDetectOnce(first);
    }
  }

  /** The chosen language does not matter in standard mode. */
  lemma StandardIgnoresChosen(eng: Engine, model: string, mode: string, chosen: string,
                              last: Option<string>, y: seq<real>)
    requires mode != "exclusive" && mode != "priority"
    ensures Decide(eng, model, mode, chosen, last, y) == Decide(eng, model, mode, "", last, y)
  {
  }

  /** The detector answers the same for the same audio, so the forced
      re-detection of standard mode always confirms the first pick: the
      final language is `_best_lang` with hysteresis, and a low-confidence
      change of language never gets past a sticky language. */
  lemma StandardConfirms(eng: Engine, model: string, mode: string, last: Option<string>, y: seq<real>)
    requires mode != "exclusive" && mode != "priority"
    ensures Decide(eng, model, mode, "", last, y).lang
            == BestLangOf(eng.detect(model, y), {}, false, last)
  {
    var probs := eng.detect(model, y);
    var first := BestLangOf(probs, {}, false, last);
    if IsSet(last) && first != last.value {
      var c := Candidates(probs, {});
      assert c != [] by {
        if c == [] { BestLangFallback(probs, {}, false, last); }
      }
    }
  }

  /** Standard mode with a sticky language: if every other supported language
      scores below 0.50, the utterance stays in the sticky language. */
  lemma StandardHysteresis(eng: Engine, model: string, mode: string, last: Option<string>, y: seq<real>)
    requires mode != "exclusive" && mode != "priority"
    requires IsSet(last)
    requires forall e :: e in Supported(eng.detect(model, y)) && e.0 != last.value ==> e.1 < 0.50
    ensures Decide(eng, model, mode, "", last, y).lang == last.value
  {
    var probs := eng.detect(model, y);
    assert Without(Supported(probs), {}) == Supported(probs) by { WithoutNothing(Supported(probs)); }
    BestLangSticky(probs, {}, last);
  }

  /** An empty exclusion set removes nothing. */
  lemma {:induction false} WithoutNothing(p: Probs)
    ensures Without(p, {}) == p
  {
    if p != [] {
      WithoutNothing(p[1..]);
      assert p == [p[0]] + p[1..];
    }
  }

  /** Removing `a` and then `b` is removing both. */
  lemma {:induction false} WithoutUnion(p: Probs, a: set<string>, b: set<string>)
    ensures Without(Without(p, a), b) == Without(p, a + b)
  {
    if p != [] {
      var rest := Without(p[1..], a);
      WithoutUnion(p[1..], a, b);
      if p[0].0 in a {
        assert Without(p, a) == rest;
        assert Without(p, a + b) == Without(p[1..], a + b);
      } else {
        var q := [p[0]] + rest;
        assert Without(p, a) == q;
        assert q[0] == p[0] && q[1..] == rest;
        assert Without(q, b) == (if p[0].0 in b then [] else [p[0]]) + Without(rest, b);
      }
    }
  }

  /** Exclusion sets that agree on the languages present remove the same
      entries. */
  lemma {:induction false} WithoutAgree(p: Probs, a: set<string>, b: set<string>)
    requires forall e :: e in p ==> (e.0 in a <==> e.0 in b)
    ensures Without(p, a) == Without(p, b)
  {
    if p != [] {
      assert forall e :: e in p[1..] ==> e in p;
      WithoutAgree(p[1..], a, b);
    }
  }

  /** The decided language is supported whenever the sticky language is
      (unset or supported), the sticky language stays so, and the transcript
      is already stripped. */
  lemma DecideSupported(eng: Engine, model: string, mode: string, chosen: string,
                        last: Option<string>, y: seq<real>)
    requires last.None? || last.value in Allowed
    ensures var d := Decide(eng, model, mode, chosen, last, y);
            d.lang in Allowed && (d.last.None? || d.last.value in Allowed)
            && Text.Strip(d.text) == d.text
  {
    if mode == "exclusive" {
      assert Decide(eng, model, mode, chosen, last, y) == DecideExclusive(eng, model, chosen, last, y);
    } else if mode == "priority" {
      PrioritySupported(eng, model, chosen, last, y);
      assert Decide(eng, model, mode, chosen, last, y) == DecidePriority(eng, model, chosen, last, y);
    } else {
      StandardSupported(eng, model, last, y);
      assert Decide(eng, model, mode, chosen, last, y) == DecideStandard(eng, model, last, y);
    }
  }

  /** Priority mode answers in a supported language. */
  lemma PrioritySupported(eng: Engine, model: string, chosen: string, last: Option<string>, y: seq<real>)
    requires last.None? || last.value in Allowed
    ensures DecidePriority(eng, model, chosen, last, y).lang in Allowed
  {
    BestLangRange(eng.detect(model, y), {ChosenOrRu(chosen)}, false, last);
  }

  /** Standard mode answers in a supported language and makes it sticky. */
  lemma StandardSupported(eng: Engine, model: string, last: Option<string>, y: seq<real>)
    requires last.None? || last.value in Allowed
    ensures DecideStandard(eng, model, last, y).lang in Allowed
    ensures DecideStandard(eng, model, last, y).last == Some(DecideStandard(eng, model, last, y).lang)
  {
    BestLangRange(eng.detect(model, y), {}, false, last);
    BestLangRange(eng.detect(model, y), {}, true, last);
  }

  /** The transcript line: `[<LANG>] <text>`, emitted only for a non-empty
      transcript. */
  function OutputLine(d: Decision): (line: Option<string>)
    ensures line.Some? <==> d.text != ""
    ensures line.Some? ==> line.value == "[" + Text.Upper(d.lang) + "] " + Text.Strip(d.text)
  {
    if d.text != "" then Some("[" + Text.Upper(d.lang) + "] " + Text.Strip(d.text)) else None
  }

  /** For a decision in a supported language with an already stripped
      transcript (as every decision is, by `DecideSupported`), the line is
      the code in brackets and the transcript unchanged. */
  lemma OutputLineShape(d: Decision)
    requires d.lang in Allowed && Text.Strip(d.text) == d.text
    ensures OutputLine(d).Some? ==> OutputLine(d).value == "[" + Text.Upper(d.lang) + "] " + d.text
  {
  }

  /** The bracketed code is the upper-case form of a supported language. */
  lemma UpperCodes(lang: string)
    requires lang in Allowed
    ensures Text.Upper(lang) in {"RU", "EN", "ZH"}
  {
    assert Text.Upper("ru") == "RU" && Text.Upper("en") == "EN" && Text.Upper("zh") == "ZH";
  }

  /** The out-of-band guess of `detect_language_from_audio`
      (core/recognizer.py:198-202): the first most probable supported
      language with its probability, or ("en", 0.0) when none is listed. */
  function DetectFromProbs(probs: Probs): (r: (string, real))
    ensures r.0 in Allowed
    ensures Supported(probs) == [] ==> r == ("en", 0.0)
    ensures Supported(probs) != [] ==>
              r in probs && forall e :: e in probs && e.0 in Allowed ==> e.1 <= r.1
    ensures Supported(probs) != [] ==>
              exists k :: 0 <= k < |Supported(probs)| && r == Supported(probs)[k]
                && forall j :: 0 <= j < k ==> Supported(probs)[j].1 < r.1
  {
    var filt := Supported(probs);
    if filt == [] then ("en", 0.0)
    else
      var i := ArgMax(filt);
      assert filt[i] in filt;
      assert forall e :: e in filt ==> e.1 <= filt[i].1;
      filt[i]
  }

  /** `int(j / ratio)` clipped to the last input index
      (core/recognizer.py:335-337). */
  function SourceIndex(j: nat, ratio: real, len: nat): (k: nat)
    requires ratio > 0.0 && len > 0
    ensures k < len
    ensures k < len - 1 ==> k as real <= j as real / ratio < k as real + 1.0
    ensures k == len - 1 ==> (len - 1) as real <= j as real / ratio || len == 1
  {
    var q := (j as real / ratio).Floor;
    assert q >= 0 by { assert j as real / ratio >= 0.0; }
    if q < len - 1 then q else len - 1
  }

  /** `_resample_if_needed` (core/recognizer.py:330-337) in exact rationals:
      nearest-lower-sample resampling from `sr` to `target`. `None` is the
      ZeroDivisionError of a zero input rate. */
  function Resample(x: seq<real>, sr: int, target: int): (r: Option<seq<real>>)
    ensures sr == target ==> r == Some(x)
    ensures r.None? <==> sr != target && sr == 0
    ensures r.Some? && sr != target ==>
              |r.value| == (var n := Values.Trunc(|x| as real * (target as real / sr as real));
                            if n < 0 then 0 else n)
    ensures r.Some? && sr != target && sr != 0 && |x| > 0 ==>
              forall j :: 0 <= j < |r.value| ==> r.value[j] == x[SourceIndex(j, target as real / sr as real, |x|)]
  {
    if sr == target then Some(x)
    else if sr == 0 then None
    else
      var ratio := target as real / sr as real;
      var n := Values.Trunc(|x| as real * ratio);
      if n <= 0 || ratio <= 0.0 || |x| == 0 then Some([])
      else Some(seq(n, j requires 0 <= j < n => x[SourceIndex(j, ratio, |x|)]))
  }

  /** Every resampled sample is a sample of the input: nothing is
      interpolated. */
  lemma ResampleFromInput(x: seq<real>, sr: int, target: int)
    ensures var r := Resample(x, sr, target);
            r.Some? ==> forall j :: 0 <= j < |r.value| ==> r.value[j] in x
  {
    var r := Resample(x, sr, target);
    if r.Some? && sr != target {
      var ratio := target as real / sr as real;
      forall j | 0 <= j < |r.value|
        ensures r.value[j] in x
      {
        assert r.value[j] == x[SourceIndex(j, ratio, |x|)];
      }
    }
  }

  /** A device running at 48 kHz resampled to 16 kHz: every third sample is
      kept, starting with the first, and the incomplete tail is dropped. */
  lemma ResampleExample(a: real, b: real, c: real, d: real, e: real, f: real, g: real)
    ensures Resample([a, b, c, d, e, f, g], 48000, 16000) == Some([a, d])
  {
    var x := [a, b, c, d, e, f, g];
    var ratio := 16000 as real / 48000 as real;
    assert ratio == 1.0 / 3.0;
    assert Values.Trunc(7 as real * ratio) == 2;
    assert SourceIndex(0, ratio, 7) == 0;
    assert SourceIndex(1, ratio, 7) == 3 by {
      assert 1 as real / ratio == 3.0;
    }
    var r := Resample(x, 48000, 16000).value;
    assert |r| == 2;
    assert r[0] == x[SourceIndex(0, ratio, 7)] == a;
    assert r[1] == x[SourceIndex(1, ratio, 7)] == d;
    assert r == [a, d];
  }
}
