/**
 * The interface translations of ui/i18n.py: a table from message key to
 * its text per interface language, the current language as a class-level
 * setting that `SetLang` normalises, and the lookup `T` that falls back to
 * English and then to the key itself.
 */
module I18n {
  /** The interface languages. */
  const Langs: set<string> := {"ru", "en", "zh"}

  type Table = map<string, map<string, string>>

  /** Every message of `m` has a text in each interface language, and no
      text is the message key itself. */
  predicate Complete(m: Table) {
    forall k :: k in m ==>
      && "ru" in m[k] && "en" in m[k] && "zh" in m[k]
      && m[k]["ru"] != k && m[k]["en"] != k && m[k]["zh"] != k
  }

  const Part1: Table := map[
      "app.title" := map["ru" := "🧠 СаньЮ（三友）AI", "en" := "🧠 Sanyou AI", "zh" := "🧠 三友 AI"],
      "status.ready" := map["ru" := "готово", "en" := "ready", "zh" := "就绪"],
      "status.loading" := map["ru" := "загрузка модели…", "en" := "loading model…", "zh" := "正在加载模型…"]
    ]

  const Part2: Table := map[
      "status.listening" := map["ru" := "слушаю…", "en" := "listening…", "zh" := "正在监听…"],
      "status.paused" := map["ru" := "пауза", "en" := "paused", "zh" := "已暂停"],
      "status.stopped" := map["ru" := "остановлено", "en" := "stopped", "zh" := "已停止"]
    ]

  const Part3: Table := map[
      "main.header" := map["ru" := "🧠 СаньЮ（三友）AI", "en" := "🧠 Sanyou AI", "zh" := "🧠 三友 AI"],
      "main.mode" := map["ru" := "Режим:", "en" := "Mode:", "zh" := "模式："],
      "main.lang" := map["ru" := " | Язык:", "en" := " | Language:", "zh" := " | 语言："]
    ]

  const Part4: Table := map[
      "main.btn.start" := map["ru" := "▶ Запустить", "en" := "▶ Start", "zh" := "▶ 启动"],
      "main.btn.stop_stream" := map["ru" := "⏸ Остановить поток", "en" := "⏸ Stop stream", "zh" := "⏸ 停止流"],
      "main.btn.resume_stream" := map["ru" := "▶ Возобновить поток", "en" := "▶ Resume stream", "zh" := "▶ 恢复流"]
    ]

  const Part5: Table := map[
      "main.btn.open_log" := map["ru" := "📂 Открыть лог", "en" := "📂 Open log", "zh" := "📂 打开日志"],
      "main.btn.settings" := map["ru" := "⚙ Настройки", "en" := "⚙ Settings", "zh" := "⚙ 设置"],
      "main.btn.exit" := map["ru" := "🚪 Выйти", "en" := "🚪 Exit", "zh" := "🚪 退出"]
    ]

  const Part6: Table := map[
      "main.msg.not_started" := map["ru" := "Поток ещё не запущен.", "en" := "Stream is not started yet.", "zh" := "音频流尚未启动。"],
      "main.msg.openlog.error" := map["ru" := "Не удалось открыть лог-файл:\n{}", "en" := "Failed to open log file:\n{}", "zh" := "无法打开日志文件：\n{}"],
      "main.cfg.applied" := map["ru" := "[cfg] Применены новые настройки: {}", "en" := "[cfg] Settings applied: {}", "zh" := "[cfg] 已应用新设置：{}"]
    ]

  const Part7: Table := map[
      "main.cfg.restart" := map["ru" := "↻ Перезапуск потока для применения настроек…", "en" := "↻ Restarting stream to apply settings…", "zh" := "↻ 正在重启音频流以应用设置…"],
      "mode.standard" := map["ru" := "Стандартный (все)", "en" := "Standard (all)", "zh" := "标准（全部）"],
      "mode.priority" := map["ru" := "Приоритетный", "en" := "Priority", "zh" := "优先"]
    ]

  const Part8: Table := map[
      "mode.exclusive" := map["ru" := "Исключительный", "en" := "Exclusive", "zh" := "单一"],
      "tip.mode" := map["ru" := "Режим определения языка. В стандартном — все три языка. В приоритетном — сначала выбранный, затем остальные. В исключительном — только выбранный.", "en" := "Language detection mode. Standard: all three languages. Priority: try chosen first, then others. Exclusive: only the chosen one.", "zh" := "语言识别模式。标准：三种语言均启用。优先：先尝试所选语言，再尝试其他。单一：仅使用所选语言。"],
      "tip.lang" := map["ru" := "Выбранный язык (для приоритетного/исключительного режимов)", "en" := "Selected language (for priority/exclusive modes)", "zh" := "所选语言（用于优先/单一模式）"]
    ]

  const Part9: Table := map[
      "settings.title" := map["ru" := "⚙ Настройки", "en" := "⚙ Settings", "zh" := "⚙ 设置"],
      "settings.group.mic" := map["ru" := "Микрофон и вход", "en" := "Microphone & Input", "zh" := "麦克风与输入"],
      "settings.device" := map["ru" := "Устройство ввода:", "en" := "Input device:", "zh" := "输入设备："]
    ]

  const Part10: Table := map[
      "settings.gain" := map["ru" := "Усиление (дБ):", "en" := "Gain (dB):", "zh" := "增益（dB）："],
      "settings.nr" := map["ru" := "Включить шумоподавление (Wiener)", "en" := "Enable noise reduction (Wiener)", "zh" := "启用降噪（Wiener）"],
      "settings.group.model" := map["ru" := "Модель распознавания", "en" := "Recognition model", "zh" := "识别模型"]
    ]

  const Part11: Table := map[
      "settings.model.size" := map["ru" := "Размер модели:", "en" := "Model size:", "zh" := "模型大小："],
      "settings.model.tip" := map["ru" := "Выбор размера модели Whisper:\n• small — быстрее, ~1–2 ГБ ОЗУ\n• medium — выше качество, ~3–4 ГБ ОЗУ\n• large — максимум качества, может требовать 8–12+ ГБ ОЗУ", "en" := "Choose Whisper model size:\n• small — faster, ~1–2 GB RAM\n• medium — better quality, ~3–4 GB RAM\n• large — best quality, may need 8–12+ GB RAM", "zh" := "选择Whisper模型大小：\n• small — 更快，约1–2 GB内存\n• medium — 更高质量，约3–4 GB内存\n• large — 最高质量，可能需要8–12+ GB内存"],
      "settings.group.lang" := map["ru" := "Режим языков", "en" := "Language mode", "zh" := "语言模式"]
    ]

  const Part12: Table := map[
      "settings.mode" := map["ru" := "Режим:", "en" := "Mode:", "zh" := "模式："],
      "settings.mode.standard" := map["ru" := "standard (все 3 языка)", "en" := "standard (all 3 languages)", "zh" := "standard（3种语言）"],
      "settings.mode.priority" := map["ru" := "priority (с приоритетом)", "en" := "priority (prefer chosen)", "zh" := "priority（优先所选）"]
    ]

  const Part13: Table := map[
      "settings.mode.exclusive" := map["ru" := "exclusive (один язык)", "en" := "exclusive (single language)", "zh" := "exclusive（仅一个）"],
      "settings.chosen_lang" := map["ru" := "Выбранный язык:", "en" := "Chosen language:", "zh" := "选择语言："],
      "settings.group.ui" := map["ru" := "Интерфейс", "en" := "Interface", "zh" := "界面"]
    ]

  const Part14: Table := map[
      "settings.ui_lang" := map["ru" := "Язык интерфейса:", "en" := "UI language:", "zh" := "界面语言："],
      "settings.group.test" := map["ru" := "Тест микрофона", "en" := "Microphone test", "zh" := "麦克风测试"],
      "settings.test.start" := map["ru" := "▶ Начать тест (2 сек)", "en" := "▶ Start test (2s)", "zh" := "▶ 开始测试（2秒）"]
    ]

  const Part15: Table := map[
      "settings.test.play" := map["ru" := "🔊 Прослушать запись", "en" := "🔊 Play sample", "zh" := "🔊 播放样本"],
      "settings.level" := map["ru" := "Уровень:", "en" := "Level:", "zh" := "电平："],
      "settings.dbfs" := map["ru" := "0.0 dBFS", "en" := "0.0 dBFS", "zh" := "0.0 dBFS"]
    ]

  const Part16: Table := map[
      "settings.lang.detected" := map["ru" := "Язык: —", "en" := "Language: —", "zh" := "语言：—"],
      "settings.apply" := map["ru" := "💾 Сохранить и применить", "en" := "💾 Save & apply", "zh" := "💾 保存并应用"],
      "settings.cancel" := map["ru" := "Отмена", "en" := "Cancel", "zh" := "取消"]
    ]

  const Part17: Table := map[
      "settings.test.err" := map["ru" := "Не удалось запустить тест:\n{}", "en" := "Failed to start test:\n{}", "zh" := "无法开始测试：\n{}"],
      "settings.play.err" := map["ru" := "Не удалось воспроизвести запись:\n{}", "en" := "Failed to play sample:\n{}", "zh" := "无法播放样本：\n{}"],
      "settings.play.no" := map["ru" := "Нет записанного фрагмента. Сначала выполните тест.", "en" := "No recorded sample. Run the test first.", "zh" := "没有录到片段，请先进行测试。"]
    ]

  const Group1: Table := Part1 + Part2 + Part3 + Part4

  const Group2: Table := Part5 + Part6 + Part7 + Part8

  const Group3: Table := Part9 + Part10 + Part11 + Part12

  const Group4: Table := Part13 + Part14 + Part15 + Part16

  const Group5: Table := Part17

  /** `I18N._STRINGS` (ui/i18n.py:10-110), in parts of the source's order. */
  const Strings: Table := Group1 + Group2 + Group3 + Group4 + Group5

  lemma CompleteUnion(a: Table, b: Table)
    requires Complete(a) && Complete(b)
    ensures Complete(a + b)
  {
  }

  lemma Part1Complete()
    ensures Complete(Part1)
  {
  }

  lemma Part2Complete()
    ensures Complete(Part2)
  {
  }

  lemma Part3Complete()
    ensures Complete(Part3)
  {
  }

  lemma Part4Complete()
    ensures Complete(Part4)
  {
  }

  lemma Part5Complete()
    ensures Complete(Part5)
  {
  }

  lemma Part6Complete()
    ensures Complete(Part6)
  {
  }

  lemma Part7Complete()
    ensures Complete(Part7)
  {
  }

  lemma Part8Complete()
    ensures Complete(Part8)
  {
  }

  lemma Part9Complete()
    ensures Complete(Part9)
  {
  }

  lemma Part10Complete()
    ensures Complete(Part10)
  {
  }

  lemma Part11Complete()
    ensures Complete(Part11)
  {
  }

  lemma Part12Complete()
    ensures Complete(Part12)
  {
  }

  lemma Part13Complete()
    ensures Complete(Part13)
  {
  }

  lemma Part14Complete()
    ensures Complete(Part14)
  {
  }

  lemma Part15Complete()
    ensures Complete(Part15)
  {
  }

  lemma Part16Complete()
    ensures Complete(Part16)
  {
  }

  lemma Part17Complete()
    ensures Complete(Part17)
  {
  }

  lemma Group1Complete()
    ensures Complete(Group1)
  {
    Part1Complete();
    Part2Complete();
    Part3Complete();
    Part4Complete();
    CompleteUnion(Part1, Part2);
    CompleteUnion(Part1 + Part2, Part3);
    CompleteUnion(Part1 + Part2 + Part3, Part4);
  }

  lemma Group2Complete()
    ensures Complete(Group2)
  {
    Part5Complete();
    Part6Complete();
    Part7Complete();
    Part8Complete();
    CompleteUnion(Part5, Part6);
    CompleteUnion(Part5 + Part6, Part7);
    CompleteUnion(Part5 + Part6 + Part7, Part8);
  }

  lemma Group3Complete()
    ensures Complete(Group3)
  {
    Part9Complete();
    Part10Complete();
    Part11Complete();
    Part12Complete();
    CompleteUnion(Part9, Part10);
    CompleteUnion(Part9 + Part10, Part11);
    CompleteUnion(Part9 + Part10 + Part11, Part12);
  }

  lemma Group4Complete()
    ensures Complete(Group4)
  {
    Part13Complete();
    Part14Complete();
    Part15Complete();
    Part16Complete();
    CompleteUnion(Part13, Part14);
    CompleteUnion(Part13 + Part14, Part15);
    CompleteUnion(Part13 + Part14 + Part15, Part16);
  }

  lemma Group5Complete()
    ensures Complete(Group5)
  {
    Part17Complete();
  }

  /** Every message has a text in each of the three interface languages. */
  lemma StringsComplete()
    ensures Complete(Strings)
  {
    Group1Complete();
    Group2Complete();
    Group3Complete();
    Group4Complete();
    Group5Complete();
    CompleteUnion(Group1, Group2);
    CompleteUnion(Group1 + Group2, Group3);
    CompleteUnion(Group1 + Group2 + Group3, Group4);
    CompleteUnion(Group1 + Group2 + Group3 + Group4, Group5);
  }


  /** The normalisation of `set_lang` (ui/i18n.py:114-117): a supported code
      is kept, anything else becomes "ru". */
  function Normalize(lang: string): (r: string)
    ensures r in Langs
    ensures lang in Langs ==> r == lang
    ensures lang !in Langs ==> r == "ru"
  {
    if lang in Langs then lang else "ru"
  }

  /** Normalising twice is normalising once. */
  lemma NormalizeIdempotent(lang: string)
    ensures Normalize(Normalize(lang)) == Normalize(lang)
  {
  }

  /** The two-level lookup with fallback on a table `m`. */
  function Translate(m: Table, lang: string, key: string): string {
    var texts := if key in m then m[key] else map[];
    if lang in texts then texts[lang] else if "en" in texts then texts["en"] else key
  }

  /** In a complete table a known message is found in any interface
      language and is not the key; an unknown one is the key. */
  lemma TranslateComplete(m: Table, lang: string, key: string)
    requires Complete(m) && lang in Langs
    ensures key in m ==> Translate(m, lang, key) == m[key][lang] != key
    ensures key !in m ==> Translate(m, lang, key) == key
  {
  }

  /**
   * The translator. Python keeps the table and the current language in
   * class attributes shared by the whole program; here they are the fields
   * of one object, the table fixed to `Strings` on construction.
   */
  class I18N {
    const strings: Table
    var lang: string

    ghost predicate Valid()
      reads this
    {
      lang in Langs && Complete(strings)
    }

    /** The class attributes start as `_STRINGS` and "ru". */
    constructor ()
      ensures strings == Strings && lang == "ru" && Valid()
    {
      strings := Strings;
      lang := "ru";
      new;
      StringsComplete();
    }

    /** `I18N.set_lang` (ui/i18n.py:114-117). */
    method SetLang(l: string)
      requires Valid()
      modifies this
      ensures lang == Normalize(l) && Valid()
    {
      if l !in Langs {
        lang := "ru";
      } else {
        lang := l;
      }
    }

    /** `I18N.t` (ui/i18n.py:120-122): the text in the current language, else
        the English text, else the key itself. */
    function T(key: string): (s: string)
      reads this
      ensures key !in strings ==> s == key
      ensures key in strings && lang in strings[key] ==> s == strings[key][lang]
      ensures key in strings && lang !in strings[key] ==>
                s == if "en" in strings[key] then strings[key]["en"] else key
    {
      Translate(strings, lang, key)
    }
  }

  /** `tr` (ui/i18n.py:125-126): the module-level alias of `I18N.t`. */
  function Tr(i: I18N, key: string): (s: string)
    reads i
    ensures s == i.T(key)
  {
    i.T(key)
  }

  /** A known message comes out in the current language and is never the
      key itself; an unknown message comes out as its key. */
  lemma KnownKeysTranslated(i: I18N, key: string)
    requires i.Valid()
    ensures key in i.strings ==> i.lang in i.strings[key] && i.T(key) == i.strings[key][i.lang] != key
    ensures key !in i.strings ==> i.T(key) == key
  {
    TranslateComplete(i.strings, i.lang, key);
  }

  /** Setting a language and looking a message up gives that language's
      text for a supported code and the Russian text for any other. */
  lemma SetLangThenT(l: string, key: string, i: I18N)
    requires i.Valid() && i.lang == Normalize(l)
    requires key in i.strings
    ensures var l' := if l in Langs then l else "ru";
            l' in i.strings[key] && i.T(key) == i.strings[key][l']
  {
    TranslateComplete(i.strings, i.lang, key);
  }
}
