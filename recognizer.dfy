/**
 * The controller of core/recognizer.py, `WhisperRecognizer`: the lifecycle
 * flags driven by `Start`, `Pause`, `Resume`, `Stop`, the background model
 * load and `ApplyNewSettings`; the bounded frame queue that the capture
 * callback fills; one step of the processing worker (take a frame, feed the
 * segmenter, decide the language, transcribe, emit the line); and the
 * out-of-band language test.
 *
 * Threads are not modelled: each thread's action is a method the
 * environment calls, one at a time. The callbacks `on_text`, `on_info` and
 * `on_status` and the log file are the sequences `texts`, `infos`,
 * `statuses` and `logLines` of everything emitted so far.
 */
module Recognizer {
  import opened Wrappers
  import Text
  import Values
  import Config
  import Audio
  import Vad
  import opened Language

  /** The queue's `maxsize` (core/recognizer.py:78). */
  const QueueCapacity := 12

  /** The status words passed to `on_status`. */
  datatype Status = Loading | Running | Paused | Stopped
  {
    function Word(): string {
      match this
      case Loading => "loading"
      case Running => "running"
      case Paused => "paused"
      case Stopped => "stopped"
    }
  }

  /** What `whisper.load_model` did: loaded the model, or raised with the
      given message. */
  datatype LoadOutcome = Loaded | Failed(message: string)

  /** `pad_or_trim`, then the Wiener filter when noise reduction is on
      (core/recognizer.py:269-271 and 188-190). */
  function Prepare(eng: Engine, x: seq<real>, noiseReduction: bool): seq<real> {
    var y := eng.padOrTrim(x);
    if noiseReduction then eng.denoise(y) else y
  }

  /** A transcript line: a supported language code in upper case, in
      brackets, a space and a non-empty text. */
  ghost predicate IsTranscriptLine(t: string) {
    exists code, body :: code in {"RU", "EN", "ZH"} && body != "" && t == "[" + code + "] " + body
  }

  /** The settings the worker reads for an utterance can be read: the mode
      always, the chosen language only in exclusive and priority mode
      (standard mode never reads it, core/recognizer.py:285-291; there the
      decision does not depend on it, by `StandardIgnoresChosen`). */
  predicate WorkerReadable(d: Config.Settings) {
    && Config.LangMode(d).Some?
    && (Config.LangMode(d).value == "exclusive" || Config.LangMode(d).value == "priority"
        ==> Config.ChosenLang(d).Some?)
  }

  /** The settings after the stores of `apply_new_settings` that precede the
      model name (core/recognizer.py:165-172): device, gain and noise
      reduction always, mode and chosen language when given. */
  function Configured(d: Config.Settings, deviceIndex: Option<int>, gainDb: real, noiseReduction: bool,
                      langMode: Option<string>, chosenLang: Option<string>): Config.Settings
  {
    var d1 := d["device_index" := if deviceIndex.Some? then Values.VInt(deviceIndex.value) else Values.VNone]
               ["gain_db" := Values.VReal(gainDb)]
               ["noise_reduction" := Values.VBool(noiseReduction)];
    var d2 := if langMode.Some? then d1["lang_mode" := Values.VStr(langMode.value)] else d1;
    if chosenLang.Some? then d2["chosen_lang" := Values.VStr(chosenLang.value)] else d2
  }

  /** The stores leave the model name alone. */
  lemma ConfiguredModelName(d: Config.Settings, deviceIndex: Option<int>, gainDb: real, noiseReduction: bool,
                            langMode: Option<string>, chosenLang: Option<string>)
    ensures Config.ModelName(Configured(d, deviceIndex, gainDb, noiseReduction, langMode, chosenLang))
            == Config.ModelName(d)
  {
  }

  /** The model-name rule of `apply_new_settings` (core/recognizer.py:174):
      a non-empty name that differs from the current one is a change. */
  predicate ModelChange(current: string, modelName: Option<string>) {
    modelName.Some? && modelName.value != "" && modelName.value != current
  }

  /** The settings after `apply_new_settings` (core/recognizer.py:164-176). */
  function Applied(d: Config.Settings, deviceIndex: Option<int>, gainDb: real, noiseReduction: bool,
                   langMode: Option<string>, chosenLang: Option<string>, modelName: Option<string>): Config.Settings
    requires Config.ModelName(d).Some?
  {
    var d3 := Configured(d, deviceIndex, gainDb, noiseReduction, langMode, chosenLang);
    if ModelChange(Config.ModelName(d).value, modelName) then d3["model_name" := Values.VStr(modelName.value)]
    else d3
  }

  /** The gain and the noise reduction read back as given. */
  lemma AppliedGain(d: Config.Settings, deviceIndex: Option<int>, gainDb: real, noiseReduction: bool,
                  langMode: Option<string>, chosenLang: Option<string>, modelName: Option<string>)
    requires Config.ModelName(d).Some?
    ensures Config.GainDb(Applied(d, deviceIndex, gainDb, noiseReduction, langMode, chosenLang, modelName)) == Some(gainDb)
    ensures Config.NoiseReduction(Applied(d, deviceIndex, gainDb, noiseReduction, langMode, chosenLang, modelName)) == noiseReduction
  {
  }

  /** The mode reads back as given, or as before when not given. */
  lemma AppliedMode(d: Config.Settings, deviceIndex: Option<int>, gainDb: real, noiseReduction: bool,
                  langMode: Option<string>, chosenLang: Option<string>, modelName: Option<string>)
    requires Config.ModelName(d).Some?
    ensures Config.LangMode(Applied(d, deviceIndex, gainDb, noiseReduction, langMode, chosenLang, modelName)) == if langMode.Some? then langMode else Config.LangMode(d)
  {
  }

  /** The chosen language reads back as given, or as before when not given. */
  lemma AppliedChosen(d: Config.Settings, deviceIndex: Option<int>, gainDb: real, noiseReduction: bool,
                  langMode: Option<string>, chosenLang: Option<string>, modelName: Option<string>)
    requires Config.ModelName(d).Some?
    ensures Config.ChosenLang(Applied(d, deviceIndex, gainDb, noiseReduction, langMode, chosenLang, modelName)) == if chosenLang.Some? then chosenLang else Config.ChosenLang(d)
  {
  }

  /** The model name changes exactly under the model-name rule; the sample
      rate never changes. */
  lemma AppliedModel(d: Config.Settings, deviceIndex: Option<int>, gainDb: real, noiseReduction: bool,
                  langMode: Option<string>, chosenLang: Option<string>, modelName: Option<string>)
    requires Config.ModelName(d).Some?
    ensures Config.ModelName(Applied(d, deviceIndex, gainDb, noiseReduction, langMode, chosenLang, modelName))
            == if ModelChange(Config.ModelName(d).value, modelName) then modelName else Config.ModelName(d)
    ensures Config.SampleRate(Applied(d, deviceIndex, gainDb, noiseReduction, langMode, chosenLang, modelName)) == Config.SampleRate(d)
  {
    ConfiguredModelName(d, deviceIndex, gainDb, noiseReduction, langMode, chosenLang);
  }

  /** New settings keep the settings readable. */
  lemma AppliedReadable(d: Config.Settings, deviceIndex: Option<int>, gainDb: real, noiseReduction: bool,
                  langMode: Option<string>, chosenLang: Option<string>, modelName: Option<string>)
    requires Config.Readable(d)
    ensures Config.Readable(Applied(d, deviceIndex, gainDb, noiseReduction, langMode, chosenLang, modelName))
  {
    AppliedGain(d, deviceIndex, gainDb, noiseReduction, langMode, chosenLang, modelName);
    AppliedMode(d, deviceIndex, gainDb, noiseReduction, langMode, chosenLang, modelName);
    AppliedChosen(d, deviceIndex, gainDb, noiseReduction, langMode, chosenLang, modelName);
    AppliedModel(d, deviceIndex, gainDb, noiseReduction, langMode, chosenLang, modelName);
  }

  /** The line of a decision in a supported language with a stripped,
      non-empty transcript is a transcript line. */
  lemma TranscriptLine(d: Decision)
    requires d.lang in Allowed && Text.Strip(d.text) == d.text && d.text != ""
    ensures OutputLine(d).Some? && IsTranscriptLine(OutputLine(d).value)
  {
    UpperCodes(d.lang);
    OutputLineShape(d);
    assert OutputLine(d).value == "[" + Text.Upper(d.lang) + "] " + d.text;
  }

  /** Every decision is in a supported language, keeps the sticky language
      supported, and its line, when there is one, is a transcript line. */
  lemma DecisionLine(eng: Engine, m: string, mode: string, chosen: string, last: Option<string>, y: seq<real>)
    requires last.None? || last.value in Allowed
    ensures var d := Decide(eng, m, mode, chosen, last, y);
            && d.lang in Allowed && (d.last.None? || d.last.value in Allowed)
            && (OutputLine(d).Some? ==> IsTranscriptLine(OutputLine(d).value))
  {
    var d := Decide(eng, m, mode, chosen, last, y);
    DecideSupported(eng, m, mode, chosen, last, y);
    if d.text != "" {
      TranscriptLine(d);
    }
  }

  /** The keys among the first `i` entries of `p` that the exclusion loop of
      `_best_lang` pops. */
  ghost function Popped(p: Probs, i: nat, exclude: set<string>): set<string>
    requires i <= |p|
  {
    set j | 0 <= j < i && p[j].0 in exclude :: p[j].0
  }

  lemma PoppedStep(p: Probs, i: nat, exclude: set<string>)
    requires i < |p|
    ensures Popped(p, i + 1, exclude)
            == Popped(p, i, exclude) + (if p[i].0 in exclude then {p[i].0} else {})
  {
  }

  /** Over every entry of the table, the popped keys are exactly the
      excluded ones present. */
  lemma PoppedAll(p: Probs, exclude: set<string>)
    ensures forall e :: e in p ==> (e.0 in Popped(p, |p|, exclude) <==> e.0 in exclude)
  {
    forall e | e in p
      ensures e.0 in Popped(p, |p|, exclude) <==> e.0 in exclude
    {
      var j :| 0 <= j < |p| && p[j] == e;
    }
  }

  /** The exclusion loop of `_best_lang` (core/recognizer.py:304-307): over
      a snapshot `f0` of the table, pop each excluded key. */
  method PopExcluded(f0: Probs, exclude: set<string>) returns (filt: Probs)
    ensures filt == Without(f0, exclude)
  {
    filt := f0;
    WithoutNothing(f0);
    var i := 0;
    assert Popped(f0, 0, exclude) == {};
    while i < |f0|
      invariant 0 <= i <= |f0|
      invariant filt == Without(f0, Popped(f0, i, exclude))
    {
      var k := f0[i].0;
      PoppedStep(f0, i, exclude);
      if k in exclude {
        WithoutUnion(f0, Popped(f0, i, exclude), {k});
        filt := Without(filt, {k});
        assert filt == Without(f0, Popped(f0, i + 1, exclude));
      } else {
        assert Popped(f0, i + 1, exclude) == Popped(f0, i, exclude);
      }
      i := i + 1;
    }
    PoppedAll(f0, exclude);
    WithoutAgree(f0, Popped(f0, |f0|, exclude), exclude);
  }

  class WhisperRecognizer {
    const cfg: Config.ConfigManager
    const vad: Vad.EnergyVAD
    const sr: int
    const frame: int

    /** The resident model, by name; `None` before loading and after a
        change of model. */
    var model: Option<string>
    var loading: bool
    var isRunning: bool
    var isPaused: bool
    /** `_stop_evt`. */
    var stopSet: bool
    /** `_last_lang`, the sticky language of standard mode. */
    var lastLang: Option<string>
    /** `_audio_q`, oldest frame first. */
    var queue: seq<seq<real>>

    var statuses: seq<Status>
    var infos: seq<string>
    var texts: seq<string>
    var logLines: seq<string>

    ghost predicate Valid()
      reads this, vad
    {
      && vad.Valid()
      && |queue| <= QueueCapacity
      && (lastLang.None? || lastLang.value in Allowed)
    }

    /** Capture accepts frames: running, not paused, stop not signalled. */
    predicate Accepting()
      reads this
    {
      isRunning && !isPaused && !stopSet
    }

    /** core/recognizer.py:49-92: sample rate from the settings, block size
        of `frameMs` milliseconds, a fresh segmenter, nothing loaded,
        nothing running, no sticky language, an empty queue. */
    constructor (config: Config.ConfigManager, frameMs: int := 200)
      requires Config.SampleRate(config.data).Some? && Config.ModelName(config.data).Some?
      ensures Valid()
      ensures cfg == config && sr == Config.SampleRate(config.data).value
      ensures frame == Vad.MsToSamples(sr, frameMs)
      ensures vad.sr == sr && vad.State() == Vad.Initial
      ensures vad.Params() == Vad.VadParams(0.015, Vad.MsToSamples(sr, 900), Vad.MsToSamples(sr, 6000),
                                            Vad.MsToSamples(sr, 450))
      ensures model.None? && !loading && !isRunning && !isPaused && !stopSet
      ensures lastLang.None? && queue == []
      ensures statuses == [] && texts == [] && logLines == []
      ensures infos == ["[INFO] Model: " + Config.ModelName(config.data).value + " | SR: "
                        + Text.IntToString(Config.SampleRate(config.data).value) + " | Device: CPU"]
    {
      cfg := config;
      var rate := Config.SampleRate(config.data).value;
      sr := rate;
      frame := Vad.MsToSamples(rate, frameMs);
      vad := new Vad.EnergyVAD(rate);
      model := None;
      loading := false;
      isRunning := false;
      isPaused := false;
      stopSet := false;
      lastLang := None;
      queue := [];
      statuses := [];
      texts := [];
      logLines := [];
      infos := ["[INFO] Model: " + Config.ModelName(config.data).value + " | SR: "
                + Text.IntToString(rate) + " | Device: CPU"];
    }

    /** `start` (core/recognizer.py:95-114). Nothing happens when already
        running. Otherwise the controller runs unpaused, the stop signal is
        cleared, a model load begins (status "loading") unless a model is
        resident or a load is under way, and the processing worker begins
        by resetting the segmenter (core/recognizer.py:250). */
    method Start()
      requires Valid()
      modifies this, vad
      ensures Valid()
      ensures old(isRunning) ==>
                && isRunning && isPaused == old(isPaused)
                && loading == old(loading) && statuses == old(statuses) && stopSet == old(stopSet)
                && vad.State() == old(vad.State())
      ensures !old(isRunning) ==>
                && isRunning && !isPaused && !stopSet && Accepting()
                && vad.State() == Vad.Initial
                && loading == (old(loading) || old(model).None?)
                && statuses == old(statuses) + (if old(model).None? && !old(loading) then [Loading] else [])
      ensures model == old(model) && queue == old(queue) && lastLang == old(lastLang)
      ensures infos == old(infos) && texts == old(texts) && logLines == old(logLines)
    {
      if isRunning {
        return;
      }
      isRunning := true;
      isPaused := false;
      stopSet := false;
      if model.None? && !loading {
        loading := true;
        statuses := statuses + [Loading];
      }
      vad.Reset();
    }

    /** `pause` (core/recognizer.py:116-121): only while running. */
    method Pause()
      requires Valid()
      modifies this
      ensures Valid()
      ensures old(isRunning) ==>
                isPaused && !Accepting() && statuses == old(statuses) + [Paused]
                && infos == old(infos) + ["⏸ Пауза"]
      ensures !old(isRunning) ==> isPaused == old(isPaused) && statuses == old(statuses) && infos == old(infos)
      ensures isRunning == old(isRunning) && stopSet == old(stopSet) && model == old(model)
              && loading == old(loading) && queue == old(queue) && lastLang == old(lastLang)
      ensures texts == old(texts) && logLines == old(logLines)
    {
      if !isRunning {
        return;
      }
      isPaused := true;
      statuses := statuses + [Paused];
      infos := infos + ["⏸ Пауза"];
    }

    /** `resume` (core/recognizer.py:123-131): only while running; the
        status is "running" exactly when a model is resident. */
    method Resume()
      requires Valid()
      modifies this
      ensures Valid()
      ensures old(isRunning) ==>
                && !isPaused
                && statuses == old(statuses) + [if model.Some? then Running else Loading]
                && infos == old(infos) + ["▶ Возобновлено"]
      ensures !old(isRunning) ==> isPaused == old(isPaused) && statuses == old(statuses) && infos == old(infos)
      ensures isRunning == old(isRunning) && stopSet == old(stopSet) && model == old(model)
              && loading == old(loading) && queue == old(queue) && lastLang == old(lastLang)
      ensures texts == old(texts) && logLines == old(logLines)
    {
      if !isRunning {
        return;
      }
      isPaused := false;
      if model.Some? {
        statuses := statuses + [Running];
      } else {
        statuses := statuses + [Loading];
      }
      infos := infos + ["▶ Возобновлено"];
    }

    /** `stop` (core/recognizer.py:133-153): only while running; clears the
        running and paused flags, signals stop, drains the queue and reports
        "stopped". */
    method Stop()
      requires Valid()
      modifies this
      ensures Valid()
      ensures old(isRunning) ==>
                && !isPaused && stopSet && queue == []
                && statuses == old(statuses) + [Stopped] && infos == old(infos) + ["🛑 Остановлено"]
      ensures !old(isRunning) ==>
                && isPaused == old(isPaused) && stopSet == old(stopSet)
                && queue == old(queue) && statuses == old(statuses) && infos == old(infos)
      ensures !isRunning && !Accepting()
      ensures model == old(model) && loading == old(loading) && lastLang == old(lastLang)
      ensures texts == old(texts) && logLines == old(logLines)
    {
      if !isRunning {
        return;
      }
      isRunning := false;
      isPaused := false;
      stopSet := true;
      while |queue| > 0
        invariant |queue| <= QueueCapacity
        invariant !isRunning && !isPaused && stopSet
        invariant statuses == old(statuses) && infos == old(infos)
        invariant model == old(model) && loading == old(loading) && lastLang == old(lastLang)
        invariant texts == old(texts) && logLines == old(logLines)
        decreases |queue|
      {
        queue := queue[1..];
      }
      statuses := statuses + [Stopped];
      infos := infos + ["🛑 Остановлено"];
    }

    /** `_load_model_bg` (core/recognizer.py:205-215) with the outcome of
        `whisper.load_model` as a parameter: announce the load, then either
        keep the model (status "running" only when running and not paused)
        or report the error; the load is over in both cases. */
    method LoadModelBg(outcome: LoadOutcome)
      requires Valid() && Config.ModelName(cfg.data).Some?
      modifies this
      ensures Valid()
      ensures !loading
      ensures var name := Config.ModelName(cfg.data).value;
              var announce := "[INFO] Loading Whisper model '" + name + "'...";
              match outcome
              case Loaded =>
                && model == Some(name)
                && statuses == old(statuses) + (if !isPaused && isRunning then [Running] else [])
                && infos == old(infos) + [announce, "[INFO] Model ready."]
              case Failed(e) =>
                && model == old(model) && statuses == old(statuses)
                && infos == old(infos) + [announce, "[ERROR] Model load failed: " + e]
      ensures isRunning == old(isRunning) && isPaused == old(isPaused) && stopSet == old(stopSet)
              && queue == old(queue) && lastLang == old(lastLang)
      ensures texts == old(texts) && logLines == old(logLines)
    {
      var name := Config.ModelName(cfg.data).value;
      var announce := "[INFO] Loading Whisper model '" + name + "'...";
      match outcome {
        case Loaded =>
          model := Some(name);
          if !isPaused && isRunning {
            statuses := statuses + [Running];
          }
          infos := infos + [announce, "[INFO] Model ready."];
        case Failed(e) =>
          infos := infos + [announce, "[ERROR] Model load failed: " + e];
      }
      loading := false;
    }

    /** The stores of `apply_new_settings` before the model name
        (core/recognizer.py:165-172). */
    method StoreSettings(deviceIndex: Option<int>, gainDb: real, noiseReduction: bool,
                         langMode: Option<string>, chosenLang: Option<string>)
      modifies cfg
      ensures cfg.data == Configured(old(cfg.data), deviceIndex, gainDb, noiseReduction, langMode, chosenLang)
    {
      cfg.SetDeviceIndex(deviceIndex);
      var _ := cfg.SetGainDb(Values.VReal(gainDb));
      cfg.SetNoiseReduction(Values.VBool(noiseReduction));
      if langMode.Some? {
        cfg.SetLangMode(langMode.value);
      }
      if chosenLang.Some? {
        cfg.SetChosenLang(chosenLang.value);
      }
    }

    /** `apply_new_settings` (core/recognizer.py:155-183): device, gain and
        noise reduction are always stored; mode and chosen language only
        when given; a non-empty model name that differs from the current
        one is stored, drops the resident model and is announced. */
    method ApplyNewSettings(deviceIndex: Option<int>, gainDb: real, noiseReduction: bool,
                            langMode: Option<string>, chosenLang: Option<string>,
                            modelName: Option<string>)
      requires Valid() && Config.ModelName(cfg.data).Some?
      modifies this, cfg
      ensures Valid()
      ensures cfg.data == Applied(old(cfg.data), deviceIndex, gainDb, noiseReduction, langMode, chosenLang, modelName)
      ensures var oldName := Config.ModelName(old(cfg.data)).value;
              var change := ModelChange(oldName, modelName);
              && model == (if change then None else old(model))
              && infos == old(infos) + (if change then ["[INFO] Модель изменена: " + oldName + " → "
                                                        + modelName.value + ". Будет загружена при запуске."]
                                        else [])
      ensures isRunning == old(isRunning) && isPaused == old(isPaused) && stopSet == old(stopSet)
              && loading == old(loading) && queue == old(queue) && lastLang == old(lastLang)
      ensures statuses == old(statuses) && texts == old(texts) && logLines == old(logLines)
    {
      ghost var d0 := cfg.data;
      ConfiguredModelName(d0, deviceIndex, gainDb, noiseReduction, langMode, chosenLang);
      StoreSettings(deviceIndex, gainDb, noiseReduction, langMode, chosenLang);
      var current := Config.ModelName(cfg.data).value;
      if ModelChange(current, modelName) {
        cfg.SetModelName(modelName.value);
        model := None;
        infos := infos + ["[INFO] Модель изменена: " + current + " → " + modelName.value
                          + ". Будет загружена при запуске."];
      }
    }

    /** The capture callback of `_mic_loop` (core/recognizer.py:219-231) for
        one block `indata` with status text `status` ("" for no flags) and
        gain factor `g` for the configured gain. A block is enqueued only
        while accepting, after the gain stage, and only when the queue has
        room; a block that finds the queue full is dropped. */
    method OnAudioBlock(indata: seq<real>, status: string, g: real)
      requires Valid() && Config.GainDb(cfg.data).Some?
      modifies this
      ensures Valid()
      ensures var x := Audio.ApplyGain(indata, Config.GainDb(cfg.data).value, g);
              queue == if Accepting() && |old(queue)| < QueueCapacity then old(queue) + [x] else old(queue)
      ensures infos == old(infos) + (if !stopSet && status != "" then ["[AUDIO] " + status] else [])
      ensures isRunning == old(isRunning) && isPaused == old(isPaused) && stopSet == old(stopSet)
              && model == old(model) && loading == old(loading) && lastLang == old(lastLang)
      ensures statuses == old(statuses) && texts == old(texts) && logLines == old(logLines)
    {
      if stopSet {
        return;
      }
      if status != "" {
        infos := infos + ["[AUDIO] " + status];
      }
      if !isRunning || isPaused {
        return;
      }
      var x := Audio.ApplyGain(indata, Config.GainDb(cfg.data).value, g);
      if |queue| < QueueCapacity {
        queue := queue + [x];
      }
    }

    /** `_best_lang` (core/recognizer.py:300-314) on the detector's table
        `probs`: keep the supported languages, pop every excluded key, fall
        back to the sticky language or "en" when nothing is left, else take
        the most probable one unless the sticky language holds against a
        candidate below 0.50. */
    method BestLang(probs: Probs, exclude: set<string>, force: bool) returns (lang: string)
      ensures lang == BestLangOf(probs, exclude, force, lastLang)
    {
      var filt := Supported(probs);
      if exclude != {} {
        filt := PopExcluded(filt, exclude);
      } else {
        WithoutNothing(filt);
      }
      if filt == [] {
        if lastLang.Some? && lastLang.value != "" {
          return lastLang.value;
        }
        return "en";
      }
      var top := filt[ArgMax(filt)];
      lang := top.0;
      if !force && lastLang.Some? && lastLang.value != "" && lang != lastLang.value {
        if top.1 < 0.50 {
          return lastLang.value;
        }
      }
    }

    /** Exclusive mode (core/recognizer.py:274-276): one transcription in
        the chosen language, or "ru" when that is not supported. */
    method Exclusive(eng: Engine, m: string, chosen: string, y: seq<real>) returns (d: Decision)
      ensures d == DecideExclusive(eng, m, chosen, lastLang, y)
    {
      var lang := ChosenOrRu(chosen);
      var text := Asr(eng, m, y, lang);
      d := Decision(lang, text, lastLang, [Transcribe(lang)]);
    }

    /** Priority mode (core/recognizer.py:277-284): transcribe in the
        primary language; below 2 characters, detect with the primary
        excluded and transcribe again in that language. */
    method Priority(eng: Engine, m: string, chosen: string, y: seq<real>) returns (d: Decision)
      ensures d == DecidePriority(eng, m, chosen, lastLang, y)
    {
      var primary := ChosenOrRu(chosen);
      var text := Asr(eng, m, y, primary);
      if |Text.Strip(text)| < 2 {
        var lang := BestLang(eng.detect(m, y), {primary}, false);
        var text2 := Asr(eng, m, y, lang);
        d := Decision(lang, text2, lastLang, [Transcribe(primary), Detect, Transcribe(lang)]);
      } else {
        d := Decision(primary, text, lastLang, [Transcribe(primary)]);
      }
    }

    /** Standard mode (core/recognizer.py:285-291): detect; when a sticky
        language is set and the pick differs, detect again with `force`;
        transcribe in the final language, which becomes the sticky one. */
    method Standard(eng: Engine, m: string, y: seq<real>) returns (d: Decision)
      ensures d == DecideStandard(eng, m, lastLang, y)
    {
      var probs := eng.detect(m, y);
      var lang := BestLang(probs, {}, false);
      if IsSet(lastLang) && lang != lastLang.value {
        lang := BestLang(probs, {}, true);
        d := Decision(lang, Asr(eng, m, y, lang), Some(lang), [Detect, Detect, Transcribe(lang)]);
      } else {
        d := Decision(lang, Asr(eng, m, y, lang), Some(lang), [Detect, Transcribe(lang)]);
      }
    }

    /** The mode dispatch of `_process_loop` (core/recognizer.py:273-291)
        for prepared audio `y`, model `m`, mode and chosen language: the
        decision of the selected mode against the current sticky language. */
    method Dispatch(eng: Engine, m: string, mode: string, chosen: string, y: seq<real>)
      returns (d: Decision)
      ensures d == Decide(eng, m, mode, chosen, lastLang, y)
    {
      if mode == "exclusive" {
        d := Exclusive(eng, m, chosen, y);
      } else if mode == "priority" {
        d := Priority(eng, m, chosen, y);
      } else {
        d := Standard(eng, m, y);
      }
    }

    /** Emits a transcript line, when there is one, to the text callback,
        the log file and the info callback (core/recognizer.py:293-297). */
    method Emit(line: Option<string>)
      modifies this
      ensures var emitted := if line.Some? then [line.value] else [];
              texts == old(texts) + emitted && logLines == old(logLines) + emitted
              && infos == old(infos) + emitted
      ensures isRunning == old(isRunning) && isPaused == old(isPaused) && stopSet == old(stopSet)
              && model == old(model) && loading == old(loading) && queue == old(queue)
              && statuses == old(statuses) && lastLang == old(lastLang)
    {
      if line.Some? {
        texts := texts + [line.value];
        logLines := logLines + [line.value];
        infos := infos + [line.value];
      }
    }

    /** The body of `_process_loop` for a finished utterance `utt` with a
        resident model (core/recognizer.py:269-297): prepare the audio,
        dispatch on the mode, keep the sticky language of standard mode, and
        emit the line for a non-empty transcript. */
    method HandleUtterance(eng: Engine, utt: seq<real>) returns (d: Decision, line: Option<string>)
      requires Valid() && WorkerReadable(cfg.data) && model.Some?
      modifies this
      ensures model == old(model)
      ensures Valid()
      ensures d == Decide(eng, model.value, Config.LangMode(cfg.data).value, Config.ChosenLang(cfg.data).GetOr(""),
                          old(lastLang), Prepare(eng, utt, Config.NoiseReduction(cfg.data)))
      ensures lastLang == d.last
      ensures line == OutputLine(d)
      ensures line.Some? ==> IsTranscriptLine(line.value)
      ensures var emitted := if line.Some? then [line.value] else [];
              texts == old(texts) + emitted && logLines == old(logLines) + emitted
              && infos == old(infos) + emitted
      ensures isRunning == old(isRunning) && isPaused == old(isPaused) && stopSet == old(stopSet)
              && loading == old(loading) && queue == old(queue) && statuses == old(statuses)
    {
      var y := Prepare(eng, utt, Config.NoiseReduction(cfg.data));
      var mode := Config.LangMode(cfg.data).value;
      var chosen := Config.ChosenLang(cfg.data).GetOr("");
      d := Dispatch(eng, model.value, mode, chosen, y);
      DecisionLine(eng, model.value, mode, chosen, lastLang, y);
      line := OutputLine(d);
      lastLang := d.last;
      Emit(line);
    }

    /** The segmenter's part of one turn of `_process_loop`
        (core/recognizer.py:257-267) for frame `x`: while paused, reset the
        segmenter and drop the frame; otherwise feed it. */
    method Segment(x: seq<real>) returns (utt: Option<seq<real>>)
      requires vad.Valid()
      modifies vad
      ensures vad.Valid()
      ensures isPaused ==> utt.None? && vad.State() == Vad.Initial
      ensures !isPaused ==> Vad.StepResult(vad.State(), utt) == Vad.Step(vad.Params(), old(vad.State()), x)
    {
      if isPaused {
        vad.Reset();
        utt := None;
      } else {
        utt := vad.Feed(x);
      }
    }

    /** What becomes of a finished utterance (core/recognizer.py:268-297):
        with no resident model the worker only says that the model is still
        loading; otherwise the utterance is handled. */
    method Finish(eng: Engine, utt: seq<real>) returns (d: Option<Decision>, line: Option<string>)
      requires Valid() && WorkerReadable(cfg.data)
      modifies this
      ensures Valid()
      ensures d.Some? <==> model.Some?
      ensures model.None? ==> infos == old(infos) + ["… (model loading)"] && lastLang == old(lastLang)
      ensures d.Some? ==>
                && d.value == Decide(eng, model.value, Config.LangMode(cfg.data).value,
                                     Config.ChosenLang(cfg.data).GetOr(""), old(lastLang),
                                     Prepare(eng, utt, Config.NoiseReduction(cfg.data)))
                && lastLang == d.value.last && line == OutputLine(d.value)
      ensures d.None? ==> line.None?
      ensures line.Some? ==> IsTranscriptLine(line.value)
      ensures var emitted := if line.Some? then [line.value] else [];
              texts == old(texts) + emitted && logLines == old(logLines) + emitted
      ensures isRunning == old(isRunning) && isPaused == old(isPaused) && stopSet == old(stopSet)
              && model == old(model) && loading == old(loading) && statuses == old(statuses)
              && queue == old(queue)
    {
      if model.None? {
        infos := infos + ["… (model loading)"];
        d := None;
        line := None;
        return;
      }
      var dec;
      dec, line := HandleUtterance(eng, utt);
      d := Some(dec);
    }

    /** One turn of `_process_loop` (core/recognizer.py:251-297) with a frame
        waiting: take the oldest frame; while paused, reset the segmenter and
        drop it; otherwise feed the segmenter, and for a finished utterance
        either report that the model is still loading or handle it. */
    method ProcessNext(eng: Engine) returns (utt: Option<seq<real>>, d: Option<Decision>, line: Option<string>)
      requires Valid() && WorkerReadable(cfg.data) && |queue| > 0
      modifies this, vad
      ensures Valid()
      ensures queue == old(queue)[1..]
      ensures old(isPaused) ==> utt.None? && vad.State() == Vad.Initial
      ensures !old(isPaused) ==>
                Vad.StepResult(vad.State(), utt) == Vad.Step(vad.Params(), old(vad.State()), old(queue)[0])
      ensures d.Some? <==> utt.Some? && model.Some?
      ensures utt.Some? && model.None? ==> infos == old(infos) + ["… (model loading)"]
      ensures d.Some? ==>
                && d.value == Decide(eng, model.value, Config.LangMode(cfg.data).value,
                                     Config.ChosenLang(cfg.data).GetOr(""), old(lastLang),
                                     Prepare(eng, utt.value, Config.NoiseReduction(cfg.data)))
                && lastLang == d.value.last && line == OutputLine(d.value)
      ensures d.None? ==> line.None? && lastLang == old(lastLang)
      ensures line.Some? ==> IsTranscriptLine(line.value)
      ensures var emitted := if line.Some? then [line.value] else [];
              texts == old(texts) + emitted && logLines == old(logLines) + emitted
      ensures isRunning == old(isRunning) && isPaused == old(isPaused) && stopSet == old(stopSet)
              && model == old(model) && loading == old(loading) && statuses == old(statuses)
    {
      var x := queue[0];
      queue := queue[1..];
      utt := Segment(x);
      d := None;
      line := None;
      if utt.Some? {
        d, line := Finish(eng, utt.value);
      }
    }

    /** The processing worker while frames are waiting: turns of
        `_process_loop` until the queue is empty. Every line it emits is a
        transcript line in a supported language. */
    method ProcessQueued(eng: Engine)
      requires Valid() && WorkerReadable(cfg.data)
      modifies this, vad
      ensures Valid()
      ensures queue == []
      ensures |texts| >= |old(texts)|
      ensures forall t :: t in texts[|old(texts)|..] ==> IsTranscriptLine(t)
      ensures isRunning == old(isRunning) && isPaused == old(isPaused) && stopSet == old(stopSet)
              && model == old(model) && loading == old(loading) && statuses == old(statuses)
    {
      ghost var t0 := texts;
      while |queue| > 0
        invariant Valid()
        invariant |texts| >= |t0| && texts[..|t0|] == t0
        invariant forall t :: t in texts[|t0|..] ==> IsTranscriptLine(t)
        invariant isRunning == old(isRunning) && isPaused == old(isPaused) && stopSet == old(stopSet)
                  && model == old(model) && loading == old(loading) && statuses == old(statuses)
        decreases |queue|
      {
        ghost var before := texts;
        var utt, d, line := ProcessNext(eng);
        assert texts == before + (if line.Some? then [line.value] else []);
        assert texts[|t0|..] == before[|t0|..] + (if line.Some? then [line.value] else []);
      }
    }

    /** `detect_language_from_audio` (core/recognizer.py:186-202): resample
        `audio` from `audioSr` to the capture rate, prepare it, and ask the
        resident model, or a temporary "tiny" model when none is resident,
        for the first most probable supported language. `None` is the
        division by zero of a zero input rate. */
    function DetectLanguageFromAudio(eng: Engine, audio: seq<real>, audioSr: int): (r: Option<(string, real)>)
      reads this, cfg
      ensures r.None? <==> audioSr != sr && audioSr == 0
      ensures audioSr == sr ==>
                r == Some(DetectFromProbs(eng.detect(model.GetOr("tiny"),
                                                     Prepare(eng, audio, Config.NoiseReduction(cfg.data)))))
      ensures r.Some? ==>
                r.value == DetectFromProbs(eng.detect(model.GetOr("tiny"),
                                                      Prepare(eng, Resample(audio, audioSr, sr).value,
                                                              Config.NoiseReduction(cfg.data))))
      ensures r.Some? ==> r.value.0 in Allowed
      ensures r.Some? && model.None? ==>
                exists x :: r.value == DetectFromProbs(eng.detect("tiny", x))
    {
      var x := Resample(audio, audioSr, sr);
      if x.None? then None
      else
        var y := Prepare(eng, x.value, Config.NoiseReduction(cfg.data));
        Some(DetectFromProbs(eng.detect(model.GetOr("tiny"), y)))
    }
  }
}
