/** The settings manager: loading the settings file at start-up (or building the
    defaults), saving it, and turning the directory and file-name templates of the
    settings into the paths of the action log and the response file. A template
    may hold the tokens {date}, {time}, {respondent_id}, {participant_name},
    {participant_id} and {sequence}; the last one is filled from one of two
    persistent counters, which is then advanced and saved. The settings file is
    JSON: what it holds is modelled as the key/value map the JSON library reads
    from it or writes to it. */
module ConfigManagement {
  import opened Wrappers
  import opened Strings
  import opened Constants
  import opened Configuration

  /** What `config.json` holds, as far as `loadConfig` can tell: no file, a file
      that cannot be read or parsed into a map, or the map parsed from it. */
  datatype ConfigSource = Missing | Unreadable | Parsed(m: map<string, JValue>)

  /** The current date (`yyyyMMdd`) and time (`HHmmss`), already formatted. */
  datatype Clock = Clock(date: string, time: string)

  /** The outcome of `getLogPath` and `getResponsePath`: the exception thrown for a
      null respondent id, the null returned for an incomplete setting, or a path. */
  datatype PathResult = IllegalArgument | NoPath | PathTo(path: string)

  const LogTemplate: string := "action_log_{respondent_id}_{date}.csv"
  const ResponseTemplate: string := "responses_{respondent_id}_{date}.csv"
  const SequenceToken: string := "{sequence}"

  /** The settings `createDefaultConfig` builds: the constructor's defaults with the
      standard directories under `baseDir`, the sample question file and the two
      default name templates. */
  function DefaultConfigData(baseDir: string): (d: ConfigData)
    ensures d.logSequence == 1 && d.responseSequence == 1 && d.contentWidth == Defaults.contentWidth
  {
    Defaults.(
      questionsDirectory := Some(QuestionsDir(baseDir)),
      questionsFile := Some(DefaultQuestionsFile),
      logDirectory := Some(LogsDir(baseDir)),
      logNameFormat := Some(LogTemplate),
      responseDirectory := Some(ResponsesDir(baseDir)),
      responseNameFormat := Some(ResponseTemplate),
      appearanceMode := Some("System"),
      colorTheme := Some("blue"),
      outputFormat := Some("csv"),
      fontSize := Some("medium"),
      autoSave := true,
      defaultChoices := 4)
  }

  /** The settings `loadConfig` ends with: the defaults when there is no usable
      file, the constructor's values overlaid with the parsed map, or the defaults
      again when reading that map throws. */
  function LoadedData(source: ConfigSource, baseDir: string): ConfigData {
    match source
    case Missing => DefaultConfigData(baseDir)
    case Unreadable => DefaultConfigData(baseDir)
    case Parsed(m) =>
      var (d, ok) := Overlay(Defaults, m);
      if ok then d else DefaultConfigData(baseDir)
  }

  /** What the JSON writer puts in the settings file for the map `m`: every entry
      except the null ones, which it leaves out. */
  function WithoutNulls(m: map<string, JValue>): map<string, JValue> {
    map k | k in m && m[k] != JNull :: m[k]
  }

  /** A setting that is null in `d` takes the value `fallback` instead. */
  function OrElse(s: Option<string>, fallback: Option<string>): Option<string> {
    if s == None then fallback else s
  }

  /** The saved file holds a persisted key exactly when its field is not null, and
      then holds the field's value. */
  lemma WrittenAt(d: ConfigData, k: nat)
    requires k < |Keys|
    ensures Keys[k] in WithoutNulls(ToMapOf(d)) <==> Fields(d)[k] != JNull
    ensures Keys[k] in WithoutNulls(ToMapOf(d)) ==> WithoutNulls(ToMapOf(d))[Keys[k]] == Fields(d)[k]
  {
    ToMapOfAt(d, k);
  }

  /** No persisted key of the saved file makes `fromMap` throw. */
  lemma WrittenNeverThrows(d: ConfigData)
    ensures FirstFailure(WithoutNulls(ToMapOf(d))) == |Keys|
  {
    var m := WithoutNulls(ToMapOf(d));
    FieldsWellKinded(d);
    forall k | 0 <= k < |Keys| && Keys[k] in m
      ensures !Throws(k, m[Keys[k]])
    {
      WrittenAt(d, k);
      assert Stored(k, Fields(d)[k]);
    }
  }

  /** A value of the kind stored under key `i` is read as it is. */
  lemma StoredConverts(i: nat, v: JValue, prev: JValue)
    requires Stored(i, v)
    ensures !Throws(i, v) && Converted(i, v, prev) == v
  {
  }

  /** The persisted fields the next run reads back after `d` was saved: those of
      `d`, with the constructor's value where one of the four settings that do not
      start as null is null in `d`. */
  function ReloadedFields(d: ConfigData): (vals: seq<JValue>)
    ensures |vals| == |Keys|
  {
    var f := Fields(d);
    f[8 := StrValue(OrElse(d.appearanceMode, Some("System")))]
     [9 := StrValue(OrElse(d.colorTheme, Some("blue")))]
     [10 := StrValue(OrElse(d.outputFormat, Some("csv")))]
     [11 := StrValue(OrElse(d.fontSize, Some("medium")))]
  }

  /** Only the first eight persisted settings start as null. */
  lemma DefaultsNull(k: nat)
    requires k < |Keys|
    ensures Fields(Defaults)[k] == JNull <==> k < 8
  {
  }

  /** `fromMap` over a new settings object, given the saved file of `d`, returns
      normally; each field takes the saved value, or keeps the constructor's value
      where the saved value is null. */
  lemma ReloadedField(d: ConfigData, k: nat)
    requires k < |Keys|
    ensures ReadFrom(Fields(Defaults), WithoutNulls(ToMapOf(d)), 0).1
    ensures ReadFrom(Fields(Defaults), WithoutNulls(ToMapOf(d)), 0).0[k] ==
      if Fields(d)[k] == JNull then Fields(Defaults)[k] else Fields(d)[k]
  {
    WrittenNeverThrows(d);
    FieldsWellKinded(d);
    ReadFromAt(Fields(Defaults), WithoutNulls(ToMapOf(d)), 0, k);
    WrittenAt(d, k);
    StoredConverts(k, Fields(d)[k], Fields(Defaults)[k]);
  }

  /** `ReloadedFields(d)` is the fields of `d` with the constructor's values in
      place of nulls. */
  lemma ReloadedFieldsAt(d: ConfigData, k: nat)
    requires k < |Keys|
    ensures ReloadedFields(d)[k] == if Fields(d)[k] == JNull then Fields(Defaults)[k] else Fields(d)[k]
  {
    var f := Fields(d);
    DefaultsNull(k);
    if k < 8 {
      assert ReloadedFields(d)[k] == f[k];
    } else if k < 12 {
      if k == 8 { } else if k == 9 { } else if k == 10 { } else { }
    } else {
      FieldsWellKinded(d);
      assert Stored(k, f[k]);
      assert ReloadedFields(d)[k] == f[k];
    }
  }

  /** `fromMap` over a new settings object, given the saved file of `d`, returns
      normally with the fields `ReloadedFields(d)`. */
  lemma ReloadedRead(d: ConfigData)
    ensures ReadFrom(Fields(Defaults), WithoutNulls(ToMapOf(d)), 0) == (ReloadedFields(d), true)
  {
    var r := ReadFrom(Fields(Defaults), WithoutNulls(ToMapOf(d)), 0);
    forall k | 0 <= k < |Keys|
      ensures r.0[k] == ReloadedFields(d)[k]
    {
      ReloadedField(d, k);
      ReloadedFieldsAt(d, k);
    }
    ReloadedField(d, 0);
    assert r.0 == ReloadedFields(d);
  }

  /** The settings whose persisted fields are `ReloadedFields(d)`. */
  lemma ReloadedData(d: ConfigData)
    ensures FromFields(ReloadedFields(d), Defaults.contentWidth) ==
      d.(appearanceMode := OrElse(d.appearanceMode, Some("System")),
         colorTheme := OrElse(d.colorTheme, Some("blue")),
         outputFormat := OrElse(d.outputFormat, Some("csv")),
         fontSize := OrElse(d.fontSize, Some("medium")),
         contentWidth := Defaults.contentWidth)
  {
  }

  /** Settings saved by one run are the settings the next run starts with, except
      where the saved value is null: the writer leaves that key out, so the field
      keeps the value a new settings object starts with. For the appearance mode,
      colour theme, output format and font size that is "System", "blue", "csv" and
      "medium"; every other setting that can be null starts as null and so comes
      back null. The window width, which is not saved, comes back as its default. */
  lemma RestartRestores(d: ConfigData, baseDir: string)
    ensures LoadedData(Parsed(WithoutNulls(ToMapOf(d))), baseDir) ==
      d.(appearanceMode := OrElse(d.appearanceMode, Some("System")),
         colorTheme := OrElse(d.colorTheme, Some("blue")),
         outputFormat := OrElse(d.outputFormat, Some("csv")),
         fontSize := OrElse(d.fontSize, Some("medium")),
         contentWidth := Defaults.contentWidth)
  {
    ReloadedRead(d);
    ReloadedData(d);
  }

  /** A first run saves the defaults, and the second run starts from them. */
  lemma FirstRunThenRestart(baseDir: string)
    ensures LoadedData(Parsed(WithoutNulls(ToMapOf(LoadedData(Missing, baseDir)))), baseDir) == DefaultConfigData(baseDir)
  {
    RestartRestores(DefaultConfigData(baseDir), baseDir);
  }

  // ---- paths -------------------------------------------------------------------

  /** `getQuestionsPath`: the directory, the separator and the file name, or null
      when either setting is null. */
  function QuestionsPathOf(d: ConfigData): (p: Option<string>)
    ensures p != None <==> d.questionsDirectory != None && d.questionsFile != None
    ensures p != None ==> StartsWith(p.value, d.questionsDirectory.value + Sep)
    ensures p != None ==> EndsWith(p.value, d.questionsFile.value)
    ensures p != None ==> p.value == d.questionsDirectory.value + Sep + d.questionsFile.value
  {
    if d.questionsDirectory != None && d.questionsFile != None then
      var p := d.questionsDirectory.value + Sep + d.questionsFile.value;
      assert p[..|d.questionsDirectory.value + Sep|] == d.questionsDirectory.value + Sep;
      assert p[|p| - |d.questionsFile.value|..] == d.questionsFile.value;
      Some(p)
    else None
  }

  /** The five token substitutions of `formatFilename`, each replacing every
      occurrence, in this order; a null participant name or id counts as "". */
  function Substitute(format: string, now: Clock, respondentId: string, d: ConfigData): string {
    var s1 := ReplaceAll(format, "{date}", now.date);
    var s2 := ReplaceAll(s1, "{time}", now.time);
    var s3 := ReplaceAll(s2, "{respondent_id}", respondentId);
    var s4 := ReplaceAll(s3, "{participant_name}", d.participantName.GetOr(""));
    ReplaceAll(s4, "{participant_id}", d.participantId.GetOr(""))
  }

  /** A template without any '{' is used as the file name as it stands. */
  lemma PlainTemplate(format: string, now: Clock, respondentId: string, d: ConfigData)
    requires '{' !in format
    ensures Substitute(format, now, respondentId, d) == format
  {
    FirstCharAbsent(format, "{date}");
    ReplaceAllAbsent(format, "{date}", now.date);
    FirstCharAbsent(format, "{time}");
    ReplaceAllAbsent(format, "{time}", now.time);
    FirstCharAbsent(format, "{respondent_id}");
    ReplaceAllAbsent(format, "{respondent_id}", respondentId);
    FirstCharAbsent(format, "{participant_name}");
    ReplaceAllAbsent(format, "{participant_name}", d.participantName.GetOr(""));
    FirstCharAbsent(format, "{participant_id}");
    ReplaceAllAbsent(format, "{participant_id}", d.participantId.GetOr(""));
  }

  /** Whether resolving `format` draws a sequence number. The test is made on the
      name after substitution. */
  predicate UsesSequence(format: string, now: Clock, respondentId: string, d: ConfigData) {
    Contains(Substitute(format, now, respondentId, d), SequenceToken)
  }

  /** Whether `format` counts as the response template: it equals the configured
      response template (never, when that is null). */
  predicate IsResponseFormat(format: string, d: ConfigData) {
    d.responseNameFormat == Some(format)
  }

  /** The counter `format` draws from. */
  function CounterFor(format: string, d: ConfigData): Int32 {
    if IsResponseFormat(format, d) then d.responseSequence else d.logSequence
  }

  /** The settings with the counter of `format` set to `v`. */
  function WithCounter(format: string, d: ConfigData, v: Int32): ConfigData {
    if IsResponseFormat(format, d) then d.(responseSequence := v) else d.(logSequence := v)
  }

  /** `formatFilename`: the file name and the settings afterwards. With {sequence}
      present, every occurrence becomes the counter's value in `%03d` form and that
      counter goes up by one, wrapping as a Java `int` does. */
  function FormatFilenameOf(format: string, now: Clock, respondentId: string, d: ConfigData): (string, ConfigData) {
    var name := Substitute(format, now, respondentId, d);
    if Contains(name, SequenceToken) then
      var c := CounterFor(format, d);
      (ReplaceAll(name, SequenceToken, Pad3(c)), WithCounter(format, d, Inc32(c)))
    else (name, d)
  }

  /** Without {sequence} the name is the substituted template and no setting
      changes; with it, the name is the substituted template with the counter's
      value (at least three digits, reading back as that value) in place of every
      {sequence}, and only that counter changes, by one. */
  lemma FormatFilenameCounters(format: string, now: Clock, respondentId: string, d: ConfigData)
    ensures !UsesSequence(format, now, respondentId, d) ==>
      FormatFilenameOf(format, now, respondentId, d) == (Substitute(format, now, respondentId, d), d)
    ensures UsesSequence(format, now, respondentId, d) ==>
      var c := CounterFor(format, d);
      var r := FormatFilenameOf(format, now, respondentId, d);
      && r.0 == ReplaceAll(Substitute(format, now, respondentId, d), SequenceToken, Pad3(c))
      && ParseInt(Pad3(c)) == Some(c) && |Pad3(c)| >= 3
      && r.1 == WithCounter(format, d, Inc32(c))
      && CounterFor(format, r.1) == Inc32(c)
      && (IsResponseFormat(format, d) ==> r.1.logSequence == d.logSequence)
      && (!IsResponseFormat(format, d) ==> r.1.responseSequence == d.responseSequence)
  {
    ParsePad3(CounterFor(format, d));
  }

  /** `k` successive increments of a Java `int`. */
  function Add32(x: Int32, k: nat): Int32 {
    if k == 0 then x else Inc32(Add32(x, k - 1))
  }

  lemma {:induction false} Add32NoWrap(x: Int32, k: nat)
    requires x + k <= MaxInt32
    ensures Add32(x, k) == x + k
  {
    if k > 0 {
      Add32NoWrap(x, k - 1);
    }
  }

  /** `n` resolutions of the same template in a row: the names in order and the
      settings afterwards. */
  function Resolutions(format: string, now: Clock, respondentId: string, d: ConfigData, n: nat): (r: (seq<string>, ConfigData))
    ensures |r.0| == n
  {
    if n == 0 then ([], d)
    else
      var (names, d1) := Resolutions(format, now, respondentId, d, n - 1);
      var (name, d2) := FormatFilenameOf(format, now, respondentId, d1);
      (names + [name], d2)
  }

  /** Setting the counter of `format` changes neither the substituted name nor which
      counter the template draws from, and a second setting overrides the first. */
  lemma WithCounterFacts(format: string, now: Clock, respondentId: string, d: ConfigData, v: Int32, w: Int32)
    ensures Substitute(format, now, respondentId, WithCounter(format, d, v)) == Substitute(format, now, respondentId, d)
    ensures IsResponseFormat(format, WithCounter(format, d, v)) == IsResponseFormat(format, d)
    ensures CounterFor(format, WithCounter(format, d, v)) == v
    ensures WithCounter(format, WithCounter(format, d, v), w) == WithCounter(format, d, w)
  {
  }

  /** After `n` resolutions of a {sequence} template the counter it draws from has
      gone up by `n`, and nothing else in the settings has changed. */
  lemma {:induction false} ResolutionsSettings(format: string, now: Clock, respondentId: string, d: ConfigData, n: nat)
    requires UsesSequence(format, now, respondentId, d)
    ensures Resolutions(format, now, respondentId, d, n).1 == WithCounter(format, d, Add32(CounterFor(format, d), n))
    decreases n
  {
    var c := CounterFor(format, d);
    if n == 0 {
      assert WithCounter(format, d, c) == d;
    } else {
      ResolutionsSettings(format, now, respondentId, d, n - 1);
      var d1 := Resolutions(format, now, respondentId, d, n - 1).1;
      WithCounterFacts(format, now, respondentId, d, Add32(c, n - 1), Add32(c, n));
      assert FormatFilenameOf(format, now, respondentId, d1).1 == WithCounter(format, d1, Add32(c, n));
    }
  }

  /** The `k`-th of `n` resolutions of a {sequence} template carries the counter's
      starting value plus `k`. */
  lemma {:induction false} ResolutionName(format: string, now: Clock, respondentId: string, d: ConfigData, n: nat, k: nat)
    requires UsesSequence(format, now, respondentId, d) && k < n
    ensures Resolutions(format, now, respondentId, d, n).0[k]
              == ReplaceAll(Substitute(format, now, respondentId, d), SequenceToken, Pad3(Add32(CounterFor(format, d), k)))
    decreases n
  {
    var c := CounterFor(format, d);
    var (names, d1) := Resolutions(format, now, respondentId, d, n - 1);
    var last := FormatFilenameOf(format, now, respondentId, d1);
    assert Resolutions(format, now, respondentId, d, n).0 == names + [last.0];
    if k == n - 1 {
      ResolutionsSettings(format, now, respondentId, d, n - 1);
      WithCounterFacts(format, now, respondentId, d, Add32(c, n - 1), 0);
      assert Substitute(format, now, respondentId, d1) == Substitute(format, now, respondentId, d);
      assert CounterFor(format, d1) == Add32(c, n - 1);
    } else {
      ResolutionName(format, now, respondentId, d, n - 1, k);
    }
  }

  /** Resolving a {sequence} template `n` times against counter value `c` gives the
      names for c, c+1, ..., c+n-1 and leaves the counter at c+n; nothing else in
      the settings changes. */
  lemma ResolutionsCount(format: string, now: Clock, respondentId: string, d: ConfigData, n: nat)
    requires UsesSequence(format, now, respondentId, d)
    ensures var r := Resolutions(format, now, respondentId, d, n);
      && r.1 == WithCounter(format, d, Add32(CounterFor(format, d), n))
      && forall k | 0 <= k < n ::
           r.0[k] == ReplaceAll(Substitute(format, now, respondentId, d), SequenceToken, Pad3(Add32(CounterFor(format, d), k)))
  {
    ResolutionsSettings(format, now, respondentId, d, n);
    forall k | 0 <= k < n
      ensures Resolutions(format, now, respondentId, d, n).0[k]
                == ReplaceAll(Substitute(format, now, respondentId, d), SequenceToken, Pad3(Add32(CounterFor(format, d), k)))
    {
      ResolutionName(format, now, respondentId, d, n, k);
    }
  }

  /** The log path and the response path share one rule: null for a null directory
      or template, otherwise the directory, the separator and the resolved name. */
  function FilePathOf(directory: Option<string>, format: Option<string>, now: Clock, respondentId: string, d: ConfigData): (PathResult, ConfigData) {
    if directory == None || format == None then (NoPath, d)
    else
      var (name, d2) := FormatFilenameOf(format.value, now, respondentId, d);
      (PathTo(directory.value + Sep + name), d2)
  }

  /** Whether resolving a path saves the settings: only when the directory and the
      template are both set and the name still holds "{sequence}" once the other
      tokens are filled in, so that a sequence number is drawn. */
  predicate PathDraws(directory: Option<string>, format: Option<string>, now: Clock, respondentId: string, d: ConfigData) {
    directory != None && format != None && UsesSequence(format.value, now, respondentId, d)
  }

  /** Whether `getLogPath` saves the settings; a null id throws first. */
  predicate LogDraws(now: Clock, respondentId: Option<string>, d: ConfigData) {
    respondentId != None && PathDraws(d.logDirectory, d.logNameFormat, now, respondentId.value, d)
  }

  /** Whether `getResponsePath` saves the settings. */
  predicate ResponseDraws(now: Clock, respondentId: Option<string>, d: ConfigData) {
    respondentId != None && PathDraws(d.responseDirectory, d.responseNameFormat, now, respondentId.value, d)
  }

  /** `getLogPath`: a null respondent id throws before anything else happens. */
  function LogPathOf(now: Clock, respondentId: Option<string>, d: ConfigData): (PathResult, ConfigData) {
    if respondentId == None then (IllegalArgument, d)
    else FilePathOf(d.logDirectory, d.logNameFormat, now, respondentId.value, d)
  }

  /** `getResponsePath`. */
  function ResponsePathOf(now: Clock, respondentId: Option<string>, d: ConfigData): (PathResult, ConfigData) {
    if respondentId == None then (IllegalArgument, d)
    else FilePathOf(d.responseDirectory, d.responseNameFormat, now, respondentId.value, d)
  }

  /** The outcomes of `getLogPath`: an exception exactly for a null id, null exactly
      when the log directory or template is null, and otherwise a path inside the
      log directory; the settings change only when the name drew a sequence number. */
  lemma LogPathCases(now: Clock, respondentId: Option<string>, d: ConfigData)
    ensures LogPathOf(now, respondentId, d).0 == IllegalArgument <==> respondentId == None
    ensures LogPathOf(now, respondentId, d).0 == NoPath <==>
      respondentId != None && (d.logDirectory == None || d.logNameFormat == None)
    ensures LogPathOf(now, respondentId, d).0.PathTo? ==>
      StartsWith(LogPathOf(now, respondentId, d).0.path, d.logDirectory.value + Sep)
    ensures LogPathOf(now, respondentId, d).1 != d ==>
      respondentId != None && d.logNameFormat != None && UsesSequence(d.logNameFormat.value, now, respondentId.value, d)
  {
    if respondentId != None && d.logDirectory != None && d.logNameFormat != None {
      var p := LogPathOf(now, respondentId, d).0.path;
      assert p[..|d.logDirectory.value + Sep|] == d.logDirectory.value + Sep;
    }
  }

  /** The response path always draws on the response counter, never the log one. */
  lemma ResponsePathUsesResponseCounter(now: Clock, respondentId: string, d: ConfigData)
    requires d.responseDirectory != None && d.responseNameFormat != None
    requires UsesSequence(d.responseNameFormat.value, now, respondentId, d)
    ensures ResponsePathOf(now, Some(respondentId), d).1
         == d.(responseSequence := Inc32(d.responseSequence))
  {
  }

  /** The counter is chosen by comparing templates, so a log template equal to the
      response template draws on the response counter and leaves the log counter
      as it was. */
  lemma SharedTemplateUsesResponseCounter(now: Clock, respondentId: string, d: ConfigData)
    requires d.logDirectory != None && d.logNameFormat != None && d.logNameFormat == d.responseNameFormat
    requires UsesSequence(d.logNameFormat.value, now, respondentId, d)
    ensures LogPathOf(now, Some(respondentId), d).1.logSequence == d.logSequence
    ensures LogPathOf(now, Some(respondentId), d).1.responseSequence == Inc32(d.responseSequence)
  {
  }

  /** The settings manager. `file` is what `config.json` holds; `writable` says
      whether it can be opened for writing (a failed save is reported and
      ignored); `saves` counts the calls of `saveConfig`. */
  class ConfigManager {
    var config: Config
    var file: ConfigSource
    var saves: nat
    const writable: bool
    const baseDir: string

    /** `ConfigManager()` with `loadConfig`: a missing file gets the defaults, which
        are saved; an unreadable file, or a map that makes `fromMap` throw, gets the
        defaults without saving; otherwise a new settings object with the map read
        into it. */
    constructor (source: ConfigSource, baseDir0: string, writable0: bool)
      ensures fresh(config)
      ensures baseDir == baseDir0 && writable == writable0
      ensures config.Data() == LoadedData(source, baseDir0)
      ensures saves == (if source == Missing then 1 else 0)
      ensures file == (if source == Missing && writable0 then Parsed(WithoutNulls(ToMapOf(config.Data()))) else source)
    {
      baseDir := baseDir0;
      writable := writable0;
      file := source;
      saves := 0;
      var c := new Config();
      if source.Parsed? {
        var ok := c.FromMap(source.m);
        if !ok {
          c := CreateDefaultConfig(baseDir0);
        }
      } else {
        c := CreateDefaultConfig(baseDir0);
      }
      config := c;
      new;
      if source == Missing {
        SaveConfig();
      }
    }

    /** `createDefaultConfig`: a new settings object holding the defaults. */
    static method CreateDefaultConfig(baseDir0: string) returns (c: Config)
      ensures fresh(c) && c.Data() == DefaultConfigData(baseDir0)
    {
      c := new Config();
      c.Store(DefaultConfigData(baseDir0));
    }

    /** `saveConfig`: writes `toMap()` without its null entries to the file, or
        nothing when it cannot be opened. */
    method SaveConfig()
      modifies this`file, this`saves
      ensures saves == old(saves) + 1
      ensures file == (if writable then Parsed(WithoutNulls(ToMapOf(config.Data()))) else old(file))
    {
      saves := saves + 1;
      if writable {
        file := Parsed(WithoutNulls(config.ToMap()));
      }
    }

    /** `getQuestionsPath`. */
    method GetQuestionsPath() returns (p: Option<string>)
      ensures p == QuestionsPathOf(config.Data())
    {
      if config.questionsDirectory != None && config.questionsFile != None {
        p := Some(config.questionsDirectory.value + Sep + config.questionsFile.value);
      } else {
        p := None;
      }
    }

    /** `formatFilename`: substitutes the tokens; with {sequence} present, reads the
        counter the template draws on, stores it plus one, puts the old value in
        and saves the settings. */
    method FormatFilename(format: string, now: Clock, respondentId: string) returns (filename: string)
      modifies config`logSequence, config`responseSequence, this`file, this`saves
      ensures (filename, config.Data()) == FormatFilenameOf(format, now, respondentId, old(config.Data()))
      ensures saves == old(saves) + (if UsesSequence(format, now, respondentId, old(config.Data())) then 1 else 0)
      ensures file == (if UsesSequence(format, now, respondentId, old(config.Data())) && writable
                       then Parsed(WithoutNulls(ToMapOf(config.Data()))) else old(file))
    {
      var participantName := if config.participantName != None then config.participantName.value else "";
      var participantId := if config.participantId != None then config.participantId.value else "";
      filename := ReplaceAll(format, "{date}", now.date);
      filename := ReplaceAll(filename, "{time}", now.time);
      filename := ReplaceAll(filename, "{respondent_id}", respondentId);
      filename := ReplaceAll(filename, "{participant_name}", participantName);
      filename := ReplaceAll(filename, "{participant_id}", participantId);
      if Contains(filename, SequenceToken) {
        var isResponseFile := config.responseNameFormat == Some(format);
        var sequence: Int32;
        if isResponseFile {
          sequence := config.responseSequence;
          config.SetResponseSequence(Inc32(sequence));
        } else {
          sequence := config.logSequence;
          config.SetLogSequence(Inc32(sequence));
        }
        filename := ReplaceAll(filename, SequenceToken, Pad3(sequence));
        SaveConfig();
      }
    }

    /** `formatFilePath`. */
    method FormatFilePath(directory: Option<string>, format: Option<string>, now: Clock, respondentId: string)
      returns (r: PathResult)
      modifies config`logSequence, config`responseSequence, this`file, this`saves
      ensures (r, config.Data()) == FilePathOf(directory, format, now, respondentId, old(config.Data()))
      ensures saves == old(saves) + (if PathDraws(directory, format, now, respondentId, old(config.Data())) then 1 else 0)
      ensures file == (if PathDraws(directory, format, now, respondentId, old(config.Data())) && writable
                       then Parsed(WithoutNulls(ToMapOf(config.Data()))) else old(file))
    {
      if directory == None || format == None {
        return NoPath;
      }
      var filename := FormatFilename(format.value, now, respondentId);
      r := PathTo(directory.value + Sep + filename);
    }

    /** `getLogPath`. */
    method GetLogPath(now: Clock, respondentId: Option<string>) returns (r: PathResult)
      modifies config`logSequence, config`responseSequence, this`file, this`saves
      ensures (r, config.Data()) == LogPathOf(now, respondentId, old(config.Data()))
      ensures saves == old(saves) + (if LogDraws(now, respondentId, old(config.Data())) then 1 else 0)
      ensures file == (if LogDraws(now, respondentId, old(config.Data())) && writable
                       then Parsed(WithoutNulls(ToMapOf(config.Data()))) else old(file))
    {
      if respondentId == None {
        return IllegalArgument;
      }
      r := FormatFilePath(config.logDirectory, config.logNameFormat, now, respondentId.value);
    }

    /** `getResponsePath`. */
    method GetResponsePath(now: Clock, respondentId: Option<string>) returns (r: PathResult)
      modifies config`logSequence, config`responseSequence, this`file, this`saves
      ensures (r, config.Data()) == ResponsePathOf(now, respondentId, old(config.Data()))
      ensures saves == old(saves) + (if ResponseDraws(now, respondentId, old(config.Data())) then 1 else 0)
      ensures file == (if ResponseDraws(now, respondentId, old(config.Data())) && writable
                       then Parsed(WithoutNulls(ToMapOf(config.Data()))) else old(file))
    {
      if respondentId == None {
        return IllegalArgument;
      }
      r := FormatFilePath(config.responseDirectory, config.responseNameFormat, now, respondentId.value);
    }
  }
}
