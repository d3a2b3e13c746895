# Speech recognizer core, modelled in Dafny

This project models the core of a desktop speech-to-text application built on
Whisper:

- **Energy segmenter** (`EnergyVAD`, core/vad.py). It cuts the microphone stream into
  utterances, using an energy threshold, a minimum length, a maximum length and a
  trailing-silence rule.
- **Controller** (`WhisperRecognizer`, core/recognizer.py):
  - the running, paused and stop flags driven by start, pause, resume and stop;
  - the background model load;
  - applying new settings;
  - the bounded capture queue (12 blocks, a full queue drops the block);
  - one turn of the processing worker, including the three language modes
    (standard, priority and exclusive) and the sticky-language hysteresis of
    `_best_lang`;
  - the out-of-band language test used by the settings dialog.
- **Settings store** (`ConfigManager`, core/config.py). Loading merges in the defaults;
  the getters fall back to built-in values; the setters write one key each.
- **Audio helpers** (core/audio.py): the gain stage with clipping, and the listing of
  input devices.
- **Interface translations** (ui/i18n.py): the message table, `set_lang`, `t` and `tr`.

Files:

| file | module | contents |
|---|---|---|
| wrappers.dfy | `Wrappers` | `Option` |
| text.dfy | `Text` | Python's `strip`, `upper` and `str(int)` |
| values.dfy | `Values` | settings and device values, with Python's `float`, `int`, `bool`, `str` and `> 0` on them |
| vad.dfy | `Vad` | the `Step`/`Run` specification of the segmenter and the class `EnergyVAD` |
| language.dfy | `Language` | the decision engine as functions: supported-language filter, exclusion, arg-max with hysteresis, the three modes, the output line, detection, resampling |
| recognizer.dfy | `Recognizer` | the class `WhisperRecognizer` and the `_best_lang` pop loop |
| config.dfy | `Config` | `DEFAULTS`, the getters, the class `ConfigManager` |
| audio.dfy | `Audio` | `apply_gain` and `list_input_devices` |
| i18n.dfy | `I18n` | the 51-message table in three languages and the class `I18N` |

The speech engine is passed in as oracle functions (`Language.Engine`):
- `pad_or_trim`;
- the Wiener filter;
- the detector's probability table for a model and some audio;
- the transcription text for a model, some audio and a language.

A `Decision` records the language, the text, the sticky language afterwards
and the engine calls made, in order. Several things enter as parameters:
- the outcome of `whisper.load_model`;
- the devices the sound library reports;
- the stored settings file;
- the linear gain factor `10 ** (gain_db / 20)`.

The callbacks and the log file are modelled as sequences of everything emitted.

Behaviour of the code that is easy to miss, which the model keeps as written:

- **The utterance includes the silence before it.** A segment holds every frame since
  the last reset, leading silence included: a run of two silent, three voice and five
  silent one-sample frames yields one utterance of 9 samples, only 3 of them voice
  (`Vad.WorkedExample`). After a long silence, the first voice frame returns all of
  that silence at once (`Vad.LongSilenceThenVoice`).
- **The length cut returns the whole buffer.** It fires at `>= max_utt` and can return
  more than `max_utt` samples.
- **The buffer keeps growing during silence.**
- **The re-detection never changes the answer.** The detector answers the same for the
  same audio, so standard mode's forced re-detection always confirms the first pick
  (`Language.StandardConfirms`).
- **Exclusive mode falls back to "ru"** when the chosen language is not supported.
- **The sticky language is never cleared.** Neither pause nor stop resets it.
- **Transcription errors are not caught.** The worker does not catch exceptions from
  transcription; a failing transcription ends the worker thread.
- **Excluded languages can come back.** The exclusion in `_best_lang` does not bind the
  hysteresis path: an excluded sticky language can still be returned
  (`Language.StickyIgnoresExclusion`).

## Model

| member | source | states |
|---|---|---|
| Vad.MsToSamples | core/vad.py:17-19 | the sample count is the product `sr * ms / 1000` truncated toward zero, for either sign |
| Vad.Energy | core/vad.py:31 | the mean absolute sample value of a non-empty frame (its sum is proved non-negative in `SumAbs`) |
| Vad.IsVoice | core/vad.py:31-32 | a frame is voice when it is non-empty and its energy reaches the threshold; the NaN mean of an empty frame compares false |
| Vad.Flatten | core/vad.py:30 | the frames joined end to end, in order; `FlattenCons` and `FlattenSnoc` relate it to adding a frame at either end |
| Vad.Step | core/vad.py:27-54 | one call of `feed` on the state as a value: append, update the speech flag and silence run, then the length cut-off before the end-of-speech rule; its properties are the `Step…` lemmas below |
| Vad.Run | core/vad.py:27-54 | feeding frames one after the other from a state, collecting the utterances in order; its properties are the `Run…` lemmas and `SilenceNeverEmits` |
| Vad.StepAppends | core/vad.py:29-30 | the frame is appended before anything else; an emitted utterance is the old buffer plus the frame and leaves the reset state |
| Vad.StepCountsSilence | core/vad.py:31-38 | a voice frame sets the speech flag and zeroes the silence run; a quiet frame adds its length to the run |
| Vad.StepNeedsSpeech | core/vad.py:41-51 | nothing is emitted unless speech was under way or started by this frame |
| Vad.StepMaxCut | core/vad.py:41-44 | in speech with at least `max_utt` samples buffered, the whole buffer is returned and the state reset |
| Vad.StepSilenceEnd | core/vad.py:34-52 | in speech (before or from this frame) below the cut-off with a silence run of at least `silence_need` after the frame, the state resets, and the buffer is returned exactly when it reaches `min_utt`; with `silence_need <= 0` this covers a voice frame too |
| Vad.StepInv | core/vad.py:27-54 | each feed keeps the silence run consistent with the buffer and the speech flag; an emitted utterance is non-empty and at least `min(min_utt, max_utt)` long |
| Vad.SilenceNeverEmits | core/vad.py:27-38 | frames below the threshold never emit and only lengthen the buffer and the silence run |
| Vad.RunUtterancesLongEnough | core/vad.py:27-54 | over any sequence of frames, every utterance is non-empty and long enough, and the state stays consistent |
| Vad.LongSilenceThenVoice | core/vad.py:30-44 | after `max_utt` samples of silence, the first voice frame returns all of it at once |
| Vad.WorkedExample | core/vad.py:27-54 | a 10-frame run with three voice frames yields one 9-sample utterance, including its leading and trailing silence |
| Vad.RunAppend | core/vad.py:27-54 | feeding one more frame extends the run by exactly one step |
| Vad.EnergyVAD.constructor | core/vad.py:7-20 | the thresholds are converted from milliseconds; the state starts as after reset |
| Vad.EnergyVAD.Reset | core/vad.py:22-25 | empty buffer, zero silence run, not in speech |
| Vad.EnergyVAD.Feed | core/vad.py:27-54 | the new state and result are those of `Step`; an utterance is exactly the frames fed since the last reset |
| Text.Strip | core/recognizer.py:328 | the result is a slice of the input with only whitespace cut off each end, and it neither starts nor ends with whitespace |
| Text.StripIdempotent | core/recognizer.py:294 | stripping a stripped text changes nothing |
| Text.Upper | core/recognizer.py:294 | `upper()` on the language code: same length, each ASCII lower-case letter raised, every other character kept |
| Text.DigitsValue | core/audio.py:16 | the number a string of decimal digits denotes, most significant digit first |
| Text.NatToString | core/audio.py:16 | decimal digits, at least one, without a leading zero, whose value (`DigitsValue`) is the number |
| Text.IntToString | core/recognizer.py:71 | `str()` of an integer: digits whose value is the number, or "-" followed by digits whose value is its magnitude when negative |
| Values.Trunc | core/recognizer.py:334 | `int()` of a float truncates toward zero |
| Values.PyFloat | core/config.py:48 | `float()`: numbers convert, booleans give 1.0 or 0.0, `None` and text fail |
| Values.PyInt | core/config.py:63 | `int()`: integers kept, floats truncated toward zero, booleans 1 or 0, `None` and text fail |
| Values.PyBool | core/config.py:53 | `bool()`: Python truthiness: `None` is false, a boolean is itself, a number is true when non-zero, a string when non-empty |
| Values.PyStr | core/config.py:58 | `str()`: a string is itself; only a float, whose text is not modelled, fails |
| Values.PyPositive | core/audio.py:13 | `> 0`: numbers compared with 0, booleans as 1 or 0 compared with 0, raises for `None` and text |
| Values.Get | core/config.py:43 | `dict.get`: the stored value when the key is present, else the default |
| Language.Without | core/recognizer.py:304-307 | the entries left are exactly those whose language is not excluded |
| Language.Supported | core/recognizer.py:303 | the entries kept are exactly those in a supported language |
| Language.ArgMax | core/recognizer.py:310 | an index of greatest probability, and the first such index |
| Language.IsSet | core/recognizer.py:309-311 | truthiness of `_last_lang`: set and not empty |
| Language.Candidates | core/recognizer.py:303-307 | the supported entries minus the excluded languages |
| Language.BestLangOf | core/recognizer.py:300-314 | `_best_lang` on the detector's table: no candidate gives the sticky language or "en"; otherwise the first most probable candidate, unless not forced and a set sticky language differs from it while it is below 0.50; its properties are the `BestLang…` lemmas below |
| Language.BestLangFallback | core/recognizer.py:308-309 | with no candidate left, the answer is the sticky language or "en" |
| Language.BestLangIsBestCandidate | core/recognizer.py:310-314 | on the arg-max path, the answer is a supported, non-excluded language of greatest probability |
| Language.BestLangRange | core/recognizer.py:300-314 | the answer is a supported language or the sticky one |
| Language.BestLangSticky | core/recognizer.py:311-313 | unless forced, a sticky language holds while every other candidate is below 0.50 |
| Language.BestLangSwitch | core/recognizer.py:311-314 | unless forced, leaving the sticky language needs a best candidate of at least 0.50 |
| Language.StickyIgnoresExclusion | core/recognizer.py:304-313 | an excluded sticky language can still be returned by the hysteresis |
| Language.Asr | core/recognizer.py:316-328 | the transcript is already stripped |
| Language.ChosenOrRu | core/recognizer.py:275 | the chosen language when it is supported, and "ru" when it is not |
| Language.DecideExclusive | core/recognizer.py:274-276 | exclusive mode as a value: transcribe once in the chosen-or-"ru" language; properties in `ExclusiveMode` |
| Language.DecidePriority | core/recognizer.py:277-284 | priority mode as a value: transcribe in the primary language, and below 2 stripped characters detect with it excluded and transcribe again; properties in `PriorityFirstTry` and `PriorityFallback` |
| Language.DecideStandard | core/recognizer.py:285-291 | standard mode as a value: detect, detect again forced when a sticky language is set and differs, make the result sticky, transcribe; properties in `StandardMode`, `StandardConfirms` and `StandardHysteresis` |
| Language.Decide | core/recognizer.py:273-291 | the dispatch: "exclusive", "priority", and standard for any other mode text; properties in `DecideSupported` |
| Language.Transcriptions | core/recognizer.py:276-291 | the languages transcription was asked for, in call order, used by the mode lemmas |
| Language.Detections | core/recognizer.py:281-288 | the count is zero exactly when no detection was made |
| Language.ExclusiveMode | core/recognizer.py:274-276 | exclusive mode makes one transcription in the chosen language (or "ru") and no detection, and keeps the sticky language |
| Language.PriorityFirstTry | core/recognizer.py:277-284 | a first transcript of at least 2 characters is the answer, with no detection |
| Language.PriorityFallback | core/recognizer.py:280-282 | a shorter first transcript leads to one detection excluding the primary language, then one more transcription in the language picked |
| Language.PriorityRetries | core/recognizer.py:280-282 | the decision of the priority fallback |
| Language.StandardMode | core/recognizer.py:285-291 | one or two detections (two only when the sticky language differs from the first pick), one transcription, and the language becomes sticky |
| Language.StandardIgnoresChosen | core/recognizer.py:285-291 | the chosen language plays no part in standard mode |
| Language.StandardConfirms | core/recognizer.py:286-289 | the forced re-detection gives back the first pick |
| Language.StandardHysteresis | core/recognizer.py:286-290 | with every other supported language below 0.50, standard mode stays in the sticky language |
| Language.WithoutNothing | core/recognizer.py:304 | an empty exclusion removes nothing |
| Language.WithoutUnion | core/recognizer.py:305-307 | popping one key after others is popping all of them |
| Language.WithoutAgree | core/recognizer.py:305-307 | exclusions that agree on the keys present remove the same entries |
| Language.DecideSupported | core/recognizer.py:273-291 | every decision is in a supported language, keeps the sticky language supported, and has a stripped transcript |
| Language.PrioritySupported | core/recognizer.py:277-284 | priority mode answers in a supported language |
| Language.StandardSupported | core/recognizer.py:285-291 | standard mode answers in a supported language and makes it sticky |
| Language.OutputLine | core/recognizer.py:293-294 | a line exists exactly for a non-empty transcript, and it is the upper-case code in brackets followed by the stripped text |
| Language.OutputLineShape | core/recognizer.py:294 | for a stripped transcript, the line carries it unchanged |
| Language.UpperCodes | core/recognizer.py:294 | the bracketed code is RU, EN or ZH |
| Language.DetectFromProbs | core/recognizer.py:198-202 | the first supported language of greatest probability with its probability, or ("en", 0.0) when none is listed |
| Language.SourceIndex | core/recognizer.py:335-337 | the index is `j / ratio` rounded down and clipped to the last input sample |
| Language.Resample | core/recognizer.py:330-337 | the audio is unchanged at the same rate; otherwise the output length is the input length times the rate ratio, truncated, and output sample `j` is input sample `SourceIndex(j)`; a zero input rate is the division error |
| Language.ResampleFromInput | core/recognizer.py:335-337 | every output sample is an input sample |
| Language.ResampleExample | core/recognizer.py:330-337 | going from 48 kHz to 16 kHz keeps every third sample from the first |
| Recognizer.ConfiguredModelName | core/recognizer.py:165-172 | the stores before the model name leave it alone |
| Recognizer.Prepare | core/recognizer.py:269-271 | `pad_or_trim`, then the Wiener filter only when noise reduction is on |
| Recognizer.WorkerReadable | core/recognizer.py:273-291 | the worker needs the mode, and the chosen language only in exclusive and priority mode |
| Recognizer.Configured | core/recognizer.py:165-172 | device, gain and noise reduction stored; mode and chosen language stored only when given; read back by the `Applied…` lemmas |
| Recognizer.ModelChange | core/recognizer.py:174 | a model name counts as a change when it is given, non-empty and different from the current one |
| Recognizer.Applied | core/recognizer.py:164-176 | the settings after `apply_new_settings`: the stores, plus the model name on a change; read back by the `Applied…` lemmas |
| Recognizer.AppliedGain | core/recognizer.py:166-167 | the gain and noise reduction read back as given |
| Recognizer.AppliedMode | core/recognizer.py:169-170 | the mode reads back as given, or as before when it is not given |
| Recognizer.AppliedChosen | core/recognizer.py:171-172 | the chosen language reads back as given, or as before when it is not given |
| Recognizer.AppliedModel | core/recognizer.py:174-176 | the model name changes exactly for a non-empty, different name; the sample rate never changes |
| Recognizer.AppliedReadable | core/recognizer.py:164-176 | new settings keep every getter the recognizer uses free of exceptions |
| Recognizer.TranscriptLine | core/recognizer.py:293-294 | the line of a non-empty decision is a transcript line |
| Recognizer.DecisionLine | core/recognizer.py:273-297 | every decision is in a supported language, and its line, when there is one, is a transcript line |
| Recognizer.PoppedStep | core/recognizer.py:305-307 | one more turn of the pop loop pops the key exactly when it is excluded |
| Recognizer.PoppedAll | core/recognizer.py:305-307 | after the whole loop, the popped keys are exactly the excluded ones present |
| Recognizer.PopExcluded | core/recognizer.py:304-307 | the pop loop removes exactly the excluded entries and keeps the order of the rest |
| Recognizer.WhisperRecognizer.constructor | core/recognizer.py:49-92 | the sample rate comes from the settings, the block size from `frame_ms`; the segmenter is fresh with the default thresholds (0.015, 900, 6000 and 450 ms at the sample rate), nothing is loaded or running, there is no sticky language, the queue is empty, and the model line is announced |
| Recognizer.WhisperRecognizer.Start | core/recognizer.py:95-114 | no effect when already running; otherwise the recognizer runs unpaused, the stop signal is cleared, a load begins only when no model is resident or loading, and the segmenter is reset |
| Recognizer.WhisperRecognizer.Pause | core/recognizer.py:116-121 | only while running: paused, with the status and info emitted |
| Recognizer.WhisperRecognizer.Resume | core/recognizer.py:123-131 | only while running: unpaused; the status is "running" exactly when a model is resident |
| Recognizer.WhisperRecognizer.Stop | core/recognizer.py:133-153 | only while running: not running or paused, stop signalled, the queue drained, "stopped" reported |
| Recognizer.WhisperRecognizer.LoadModelBg | core/recognizer.py:205-215 | the load is announced; on success the model is resident and "running" is reported only when running and unpaused; on failure the error is reported; in both cases the load is over |
| Recognizer.WhisperRecognizer.StoreSettings | core/recognizer.py:165-172 | device, gain and noise reduction are always stored; mode and chosen language only when given |
| Recognizer.WhisperRecognizer.ApplyNewSettings | core/recognizer.py:155-183 | the settings become `Applied`; a model change drops the resident model and is announced; nothing else changes |
| Recognizer.WhisperRecognizer.OnAudioBlock | core/recognizer.py:219-231 | a block is queued after the gain stage only while accepting and only when fewer than 12 are waiting; a full queue drops it; a status flag is reported unless stop is set |
| Recognizer.WhisperRecognizer.BestLang | core/recognizer.py:300-314 | the answer equals `BestLangOf` on the detector's table and the current sticky language |
| Recognizer.WhisperRecognizer.Exclusive | core/recognizer.py:274-276 | the decision of exclusive mode |
| Recognizer.WhisperRecognizer.Priority | core/recognizer.py:277-284 | the decision of priority mode |
| Recognizer.WhisperRecognizer.Standard | core/recognizer.py:285-291 | the decision of standard mode |
| Recognizer.WhisperRecognizer.Dispatch | core/recognizer.py:273-291 | the decision of the configured mode against the current sticky language |
| Recognizer.WhisperRecognizer.Emit | core/recognizer.py:293-297 | a line goes to the text callback, the log and the info callback |
| Recognizer.WhisperRecognizer.HandleUtterance | core/recognizer.py:269-297 | the prepared utterance gets the configured mode's decision; the sticky language is updated; a line is emitted only for a non-empty transcript, and it is a transcript line |
| Recognizer.WhisperRecognizer.Segment | core/recognizer.py:257-263 | while paused, the segmenter is reset and the frame dropped; otherwise the frame is fed |
| Recognizer.WhisperRecognizer.Finish | core/recognizer.py:265-297 | without a model, "model loading" is reported; otherwise the utterance is handled |
| Recognizer.WhisperRecognizer.ProcessNext | core/recognizer.py:251-297 | the oldest frame is taken, segmented and, when an utterance is complete, decided and emitted |
| Recognizer.WhisperRecognizer.ProcessQueued | core/recognizer.py:251-297 | the worker drains the queue, and every line it emits is a transcript line |
| Recognizer.WhisperRecognizer.DetectLanguageFromAudio | core/recognizer.py:186-202 | for any rates, the answer is `DetectFromProbs` of the resident model's (or "tiny"'s) table for the resampled, prepared audio: a supported language of greatest probability; same-rate audio is not resampled; a zero input rate fails |
| Config.SetDefaults | core/config.py:31-32 | the keys become the old keys plus the default keys, and every key already present keeps its value |
| Config.SetDefaultsFirst | core/config.py:31-32 | a missing key gets the value of its first entry |
| Config.DefaultKeysDistinct | core/config.py:8-17 | the default keys are distinct |
| Config.DeviceIndex | core/config.py:43 | the stored device, or none |
| Config.GainDb | core/config.py:48 | `float` of the stored gain, or 0.0 when missing |
| Config.NoiseReduction | core/config.py:53 | truthiness of the stored flag, or true when missing |
| Config.ModelName | core/config.py:58 | `str` of the stored name, or "small" when missing |
| Config.SampleRate | core/config.py:63 | `int` of the stored rate, or 16000 when missing |
| Config.LangMode | core/config.py:66 | `str` of the stored mode, or "standard" when missing |
| Config.ChosenLang | core/config.py:71 | `str` of the stored language, or "ru" when missing |
| Config.UiLanguage | core/config.py:76 | `str` of the stored interface language, or "ru" when missing |
| Config.GetterDefaultsAgree | core/config.py:8-17 | the getters' built-in fallbacks agree with the defaults table |
| Config.ConfigManager.constructor | core/config.py:19-23 | the settings are those of the stored file completed with the defaults |
| Config.ConfigManager.Load | core/config.py:25-33 | a parsed file replaces the settings, an unparsable one empties them, a missing one keeps them; then the defaults are merged in |
| Config.ConfigManager.AddDefaults | core/config.py:31-32 | the loop adds every missing default key |
| Config.ConfigManager.SetDeviceIndex | core/config.py:44-45 | stores the device index |
| Config.ConfigManager.SetGainDb | core/config.py:49-50 | stores `float(v)`, or nothing when `float` rejects it |
| Config.ConfigManager.SetNoiseReduction | core/config.py:54-55 | stores `bool(v)` |
| Config.ConfigManager.SetModelName | core/config.py:59-60 | stores the name |
| Config.ConfigManager.SetLangMode | core/config.py:67-68 | stores the mode |
| Config.ConfigManager.SetChosenLang | core/config.py:72-73 | stores the chosen language |
| Config.ConfigManager.SetUiLanguage | core/config.py:77-78 | stores the interface language |
| Config.LoadComplete | core/config.py:25-33 | after loading, every default key is present, file values win, and missing keys take their default |
| Config.SetDefaultsIdempotent | core/config.py:31-32 | merging the defaults a second time changes nothing |
| Config.SetterRoundTrips | core/config.py:42-78 | each setter followed by its getter gives back the value set |
| Audio.Clip | core/audio.py:48 | the sample clipped into [-1, 1], and unchanged inside it |
| Audio.ScaleClip | core/audio.py:47-48 | every sample is scaled and clipped, and the length is kept |
| Audio.ApplyGain | core/audio.py:44-48 | a zero gain returns the input unchanged; otherwise every sample is scaled by the factor and clipped |
| Audio.GainBounded | core/audio.py:44-48 | with a non-zero gain, every output sample lies in [-1, 1] |
| Audio.GainClipIdempotent | core/audio.py:47-48 | clipping an already clipped signal again, with unit factor, changes nothing |
| Audio.Describe | core/audio.py:14-20 | the entry carries the device's position, and "Device <idx>" when it has no name |
| Audio.HasInput | core/audio.py:13 | whether the device reports input channels (missing counts as 0), `None` when the comparison raises |
| Audio.ListFrom | core/audio.py:12-22 | the listing from a position on: input devices described, others skipped, the first raising comparison ends it; its properties are `ListedAreInputs`, `ListedComplete` and `ListingStopsAtError` |
| Audio.ListInputDevices | core/audio.py:9-23 | a failing query gives an empty list; otherwise the loop gives the input devices in order, stopping at the first comparison that raises |
| Audio.ListedAreInputs | core/audio.py:12-20 | every listed entry describes a device with input channels at its position, and positions strictly increase |
| Audio.ListedComplete | core/audio.py:12-20 | every device with input channels before the first comparison that raises is listed |
| Audio.ListingStopsAtError | core/audio.py:21-22 | nothing after a device whose channel count cannot be compared is listed |
| I18n.StringsComplete | ui/i18n.py:8-111 | every message has a Russian, an English and a Chinese text, none equal to its key |
| I18n.Complete | ui/i18n.py:8-111 | every message has a text in each interface language, none equal to its key |
| I18n.Translate | ui/i18n.py:121-122 | the text in the asked language, else the English text, else the key; properties in `TranslateComplete` |
| I18n.Normalize | ui/i18n.py:114-117 | a supported code is kept; any other becomes "ru" |
| I18n.NormalizeIdempotent | ui/i18n.py:114-117 | normalising twice is normalising once |
| I18n.TranslateComplete | ui/i18n.py:120-122 | in a complete table, a known message comes out in the asked language; an unknown one comes out as its key |
| I18n.I18N.constructor | ui/i18n.py:6-8 | the table is the message table and the language is "ru" |
| I18n.I18N.SetLang | ui/i18n.py:114-117 | the language becomes the normalised code |
| I18n.I18N.T | ui/i18n.py:120-122 | the text in the current language, else the English text, else the key |
| I18n.Tr | ui/i18n.py:125-126 | the alias gives what `t` gives |
| I18n.KnownKeysTranslated | ui/i18n.py:120-122 | a known message comes out in the current language and is never its key |
| I18n.SetLangThenT | ui/i18n.py:114-122 | after setting a language, lookup gives that language's text, or the Russian one for an unsupported code |

## Left out

- **Threads and blocking.** The worker's queue timeout, the joins in `stop` and the
  mic-loop sleep are not modelled. Each thread action is a method called one at a
  time, so races between the capture callback and the worker are not covered.
- **Opening the microphone stream** and its error path (`_mic_loop`,
  core/recognizer.py:233-247). These are library I/O.
- **The log file, `save()`, and reading or writing `config.json`.** The file content
  is the parameter of `Load`.
- **The PyTorch version line** of the constructor (core/recognizer.py:70). It depends
  on the installed library.
- **`gc.collect()`** in `apply_new_settings`. It has no observable effect in the model.
- **Float32 storage, `astype` conversions and floating-point rounding.** Samples and
  probabilities are exact reals.
- **The gain factor.** `10 ** (gain_db / 20)` is the parameter `g`.
- **Index computation.** The resampler computes its indices exactly, not in float32.
- Audio.ApplyGain: takes the factor `g` as a parameter. The model does not relate `g`
  to `gain_db`.
- Language.Resample: uses exact rationals. In float32 an index next to an integer may
  round differently.
- **Numeric strings and the text of floats.** `float()` and `int()` of numeric text,
  and `str()` of a float, are not modelled: those getters return `None`. Settings
  files whose top-level JSON is not a dictionary are not modelled either.
- Recognizer.WhisperRecognizer.constructor: requires the sample-rate and model-name getters to answer, the only settings `__init__` reads. In the source `int()` raises on non-numeric text but succeeds on numeric text, and `str()` of a float succeeds; the model does not compute either, so those settings are outside its domain.
- Recognizer.WhisperRecognizer.HandleUtterance: requires the mode getter to answer, and the chosen-language getter in exclusive and priority mode. In the source these are `str()` and never raise; they are `None` in the model only for a float value, whose text is not modelled. The same holds for `Finish`, `ProcessNext` and `ProcessQueued`.
- Recognizer.WhisperRecognizer.OnAudioBlock: requires the gain getter to answer. In the source `float()` of non-numeric text raises inside the audio callback, and `float()` of numeric text succeeds; the model computes neither.
- Recognizer.WhisperRecognizer.LoadModelBg: requires the model-name getter to answer. It is `str()` and never raises in the source; it is `None` in the model only for a float value. The same holds for `ApplyNewSettings`.
- **Exceptions from transcription or detection.** The engine oracles always answer.
- **The loop condition of `_process_loop`.** `ProcessNext` models one turn with a frame
  waiting. The empty-queue turns only wait.
- **The rest of the interface** (ui/ other than i18n.py): windows and dialogs.
