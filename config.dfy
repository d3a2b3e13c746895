/**
 * The settings store of core/config.py: a dictionary of settings that
 * `Load` fills from the stored file and completes with the defaults, typed
 * getters that fall back to hard-coded defaults, and setters that write one
 * key each. Reading and writing the JSON file is outside the model: the
 * file's content is the parameter of `Load`, and `save()` is left out.
 */
module Config {
  import opened Wrappers
  import opened Values

  type Settings = map<string, Value>

  /** `ConfigManager.DEFAULTS` (core/config.py:8-17), in the source's order. */
  const DefaultEntries: seq<(string, Value)> := [
    ("device_index", VNone),
    ("gain_db", VReal(0.0)),
    ("noise_reduction", VBool(true)),
    ("model_name", VStr("small")),
    ("sample_rate", VInt(16000)),
    ("lang_mode", VStr("standard")),
    ("chosen_lang", VStr("ru")),
    ("ui_language", VStr("ru"))
  ]

  /** The keys of a list of entries. */
  function EntryKeys(e: seq<(string, Value)>): set<string> {
    set j | 0 <= j < |e| :: e[j].0
  }

  /** `for k, v in entries: d.setdefault(k, v)`, applied to `d` in order. */
  function SetDefaults(d: Settings, e: seq<(string, Value)>): (r: Settings)
    ensures r.Keys == d.Keys + EntryKeys(e)
    ensures forall k :: k in d ==> r[k] == d[k]
    decreases |e|
  {
    if e == [] then d
    else
      var m := SetDefaults(d, e[..|e| - 1]);
      assert EntryKeys(e) == EntryKeys(e[..|e| - 1]) + {e[|e| - 1].0} by {
        assert forall j :: 0 <= j < |e| - 1 ==> e[..|e| - 1][j] == e[j];
      }
      if e[|e| - 1].0 in m then m else m[e[|e| - 1].0 := e[|e| - 1].1]
  }

  /** A key not in `d` gets the value of its first entry. */
  lemma {:induction false} SetDefaultsFirst(d: Settings, e: seq<(string, Value)>, j: nat)
    requires j < |e| && e[j].0 !in d
    requires forall i :: 0 <= i < j ==> e[i].0 != e[j].0
    ensures SetDefaults(d, e)[e[j].0] == e[j].1
    decreases |e|
  {
    var p := e[..|e| - 1];
    if j < |e| - 1 {
      assert p[j] == e[j];
      SetDefaultsFirst(d, p, j);
    } else {
      assert forall i :: 0 <= i < |p| ==> p[i].0 != e[j].0;
      assert e[j].0 !in EntryKeys(p);
    }
  }

  /** The keys of `DEFAULTS` are distinct. */
  lemma DefaultKeysDistinct()
    ensures forall i, j :: 0 <= i < j < |DefaultEntries| ==> DefaultEntries[i].0 != DefaultEntries[j].0
  {
  }

  /** What the stored file gave: no file, text that does not parse, or a
      parsed dictionary. */
  datatype Stored = Missing | Unparsable | Parsed(m: Settings)

  /** The getters over a settings dictionary (core/config.py:42-78). A
      conversion Python would reject with an exception yields `None`. */

  /** `device_index`: the stored value, `None` when the key is missing. */
  function DeviceIndex(d: Settings): (v: Value)
    ensures "device_index" in d ==> v == d["device_index"]
    ensures "device_index" !in d ==> v == VNone
  {
    Get(d, "device_index", VNone)
  }

  /** `gain_db`: `float` of the stored value, 0.0 when missing. */
  function GainDb(d: Settings): (g: Option<real>)
    ensures "gain_db" in d ==> g == PyFloat(d["gain_db"])
    ensures "gain_db" !in d ==> g == Some(0.0)
  {
    PyFloat(Get(d, "gain_db", VReal(0.0)))
  }

  /** `noise_reduction`: truthiness of the stored value, true when missing. */
  function NoiseReduction(d: Settings): (b: bool)
    ensures "noise_reduction" in d ==> b == PyBool(d["noise_reduction"])
    ensures "noise_reduction" !in d ==> b
  {
    PyBool(Get(d, "noise_reduction", VBool(true)))
  }

  /** `model_name`: `str` of the stored value, "small" when missing. */
  function ModelName(d: Settings): (s: Option<string>)
    ensures "model_name" in d ==> s == PyStr(d["model_name"])
    ensures "model_name" !in d ==> s == Some("small")
  {
    PyStr(Get(d, "model_name", VStr("small")))
  }

  /** `sample_rate`: `int` of the stored value, 16000 when missing. */
  function SampleRate(d: Settings): (n: Option<int>)
    ensures "sample_rate" in d ==> n == PyInt(d["sample_rate"])
    ensures "sample_rate" !in d ==> n == Some(16000)
  {
    PyInt(Get(d, "sample_rate", VInt(16000)))
  }

  /** `lang_mode`: `str` of the stored value, "standard" when missing. */
  function LangMode(d: Settings): (s: Option<string>)
    ensures "lang_mode" in d ==> s == PyStr(d["lang_mode"])
    ensures "lang_mode" !in d ==> s == Some("standard")
  {
    PyStr(Get(d, "lang_mode", VStr("standard")))
  }

  /** `chosen_lang`: `str` of the stored value, "ru" when missing. */
  function ChosenLang(d: Settings): (s: Option<string>)
    ensures "chosen_lang" in d ==> s == PyStr(d["chosen_lang"])
    ensures "chosen_lang" !in d ==> s == Some("ru")
  {
    PyStr(Get(d, "chosen_lang", VStr("ru")))
  }

  /** `ui_language`: `str` of the stored value, "ru" when missing. */
  function UiLanguage(d: Settings): (s: Option<string>)
    ensures "ui_language" in d ==> s == PyStr(d["ui_language"])
    ensures "ui_language" !in d ==> s == Some("ru")
  {
    PyStr(Get(d, "ui_language", VStr("ru")))
  }

  /** Every getter the recognizer uses answers without an exception. */
  predicate Readable(d: Settings) {
    GainDb(d).Some? && ModelName(d).Some? && SampleRate(d).Some?
    && LangMode(d).Some? && ChosenLang(d).Some?
  }

  /** The hard-coded fallbacks of the getters agree with `DEFAULTS`: on the
      dictionary a failed parse leaves behind, every getter answers what it
      answers on an empty dictionary. */
  lemma GetterDefaultsAgree()
    ensures var d := SetDefaults(map[], DefaultEntries);
            && DeviceIndex(d) == DeviceIndex(map[]) == VNone
            && GainDb(d) == GainDb(map[]) == Some(0.0)
            && NoiseReduction(d) == NoiseReduction(map[]) == true
            && ModelName(d) == ModelName(map[]) == Some("small")
            && SampleRate(d) == SampleRate(map[]) == Some(16000)
            && LangMode(d) == LangMode(map[]) == Some("standard")
            && ChosenLang(d) == ChosenLang(map[]) == Some("ru")
            && UiLanguage(d) == UiLanguage(map[]) == Some("ru")
            && Readable(d)
  {
    var d := SetDefaults(map[], DefaultEntries);
    DefaultKeysDistinct();
    SetDefaultsFirst(map[], DefaultEntries, 0);
    SetDefaultsFirst(map[], DefaultEntries, 1);
    SetDefaultsFirst(map[], DefaultEntries, 2);
    SetDefaultsFirst(map[], DefaultEntries, 3);
    SetDefaultsFirst(map[], DefaultEntries, 4);
    SetDefaultsFirst(map[], DefaultEntries, 5);
    SetDefaultsFirst(map[], DefaultEntries, 6);
    SetDefaultsFirst(map[], DefaultEntries, 7);
  }

  /**
   * `ConfigManager`: the settings dictionary `data`, updated in place by
   * `Load` and the setters.
   */
  class ConfigManager {
    var data: Settings

    /** core/config.py:19-23: an empty dictionary, then `load()`. */
    constructor (stored: Stored)
      ensures data == SetDefaults(if stored.Parsed? then stored.m else map[], DefaultEntries)
    {
      data := map[];
      new;
      Load(stored);
    }

    /** `load` (core/config.py:25-33): a parsed file replaces the dictionary,
        a file that does not parse empties it, a missing file keeps it; then
        every default is added where its key is missing. */
    method Load(stored: Stored)
      modifies this
      ensures data == SetDefaults(match stored
                                  case Missing => old(data)
                                  case Unparsable => map[]
                                  case Parsed(m) => m, DefaultEntries)
    {
      match stored {
        case Missing =>
        case Unparsable => data := map[];
        case Parsed(m) => data := m;
      }
      AddDefaults(DefaultEntries);
    }

    /** The defaults loop of `load` (core/config.py:31-32) over `entries`:
        each key still missing gets its value. */
    method AddDefaults(entries: seq<(string, Value)>)
      modifies this
      ensures data == SetDefaults(old(data), entries)
    {
      var i := 0;
      while i < |entries|
        invariant 0 <= i <= |entries|
        invariant data == SetDefaults(old(data), entries[..i])
      {
        assert entries[..i + 1][..i] == entries[..i];
        var (k, v) := entries[i];
        if k !in data {
          data := data[k := v];
        }
        i := i + 1;
      }
      assert entries[..i] == entries;
    }

    /** The `device_index` setter (core/config.py:44-45). */
    method SetDeviceIndex(v: Option<int>)
      modifies this
      ensures data == old(data)["device_index" := if v.Some? then VInt(v.value) else VNone]
    {
      data := data["device_index" := if v.Some? then VInt(v.value) else VNone];
    }

    /** The `gain_db` setter (core/config.py:49-50) stores `float(v)`; when
        `float` rejects `v` nothing is stored and `ok` is false. */
    method SetGainDb(v: Value) returns (ok: bool)
      modifies this
      ensures ok <==> PyFloat(v).Some?
      ensures ok ==> data == old(data)["gain_db" := VReal(PyFloat(v).value)]
      ensures !ok ==> data == old(data)
    {
      var f := PyFloat(v);
      if f.None? {
        return false;
      }
      data := data["gain_db" := VReal(f.value)];
      ok := true;
    }

    /** The `noise_reduction` setter (core/config.py:54-55) stores `bool(v)`. */
    method SetNoiseReduction(v: Value)
      modifies this
      ensures data == old(data)["noise_reduction" := VBool(PyBool(v))]
    {
      data := data["noise_reduction" := VBool(PyBool(v))];
    }

    /** The `model_name` setter (core/config.py:59-60); `str` of a string is
        the string. */
    method SetModelName(v: string)
      modifies this
      ensures data == old(data)["model_name" := VStr(v)]
    {
      data := data["model_name" := VStr(v)];
    }

    /** The `lang_mode` setter (core/config.py:67-68). */
    method SetLangMode(v: string)
      modifies this
      ensures data == old(data)["lang_mode" := VStr(v)]
    {
      data := data["lang_mode" := VStr(v)];
    }

    /** The `chosen_lang` setter (core/config.py:72-73). */
    method SetChosenLang(v: string)
      modifies this
      ensures data == old(data)["chosen_lang" := VStr(v)]
    {
      data := data["chosen_lang" := VStr(v)];
    }

    /** The `ui_language` setter (core/config.py:77-78). */
    method SetUiLanguage(v: string)
      modifies this
      ensures data == old(data)["ui_language" := VStr(v)]
    {
      data := data["ui_language" := VStr(v)];
    }
  }

  /** After `Load`, every default key is present and every key the file
      had keeps the file's value; a key the file lacks has its default. */
  lemma {:induction false} LoadComplete(src: Settings)
    ensures var d := SetDefaults(src, DefaultEntries);
            && (forall k :: k in EntryKeys(DefaultEntries) ==> k in d)
            && (forall k :: k in src ==> d[k] == src[k])
            && (forall j :: 0 <= j < |DefaultEntries| && DefaultEntries[j].0 !in src ==>
                  d[DefaultEntries[j].0] == DefaultEntries[j].1)
  {
    DefaultKeysDistinct();
    forall j | 0 <= j < |DefaultEntries| && DefaultEntries[j].0 !in src
      ensures SetDefaults(src, DefaultEntries)[DefaultEntries[j].0] == DefaultEntries[j].1
    {
      SetDefaultsFirst(src, DefaultEntries, j);
    }
  }

  /** Loading again changes nothing: the defaults are already in place. */
  lemma {:induction false} SetDefaultsIdempotent(d: Settings, e: seq<(string, Value)>)
    ensures SetDefaults(SetDefaults(d, e), e) == SetDefaults(d, e)
  {
    var r := SetDefaults(d, e);
    var rr := SetDefaults(r, e);
    assert rr.Keys == r.Keys;
    assert forall k :: k in r ==> rr[k] == r[k];
  }

  /** A setter followed by its getter gives back what was set. */
  lemma SetterRoundTrips(d: Settings, s: string, b: Value, f: real, n: Option<int>)
    ensures GainDb(d["gain_db" := VReal(f)]) == Some(f)
    ensures NoiseReduction(d["noise_reduction" := VBool(PyBool(b))]) == PyBool(b)
    ensures ModelName(d["model_name" := VStr(s)]) == Some(s)
    ensures LangMode(d["lang_mode" := VStr(s)]) == Some(s)
    ensures ChosenLang(d["chosen_lang" := VStr(s)]) == Some(s)
    ensures UiLanguage(d["ui_language" := VStr(s)]) == Some(s)
    ensures DeviceIndex(d["device_index" := if n.Some? then VInt(n.value) else VNone])
            == if n.Some? then VInt(n.value) else VNone
  {
  }
}
