/** The application settings record and its key/value codec: `toMap` writes the
    nineteen persisted settings under snake_case keys, and `fromMap` reads them
    back key by key, keeping the current value of every key that is absent. */
module Configuration {
  import opened Wrappers
  import opened Strings

  /** A value in the key/value map the settings file is read into or written from.
      Gson reads every JSON number as a Double: `JDouble` carries the result of its
      `intValue()`, which the model takes as given. `JInt` is a boxed Integer, the
      form `toMap` produces; `JOther` is any other kind of value (a list, an object). */
  datatype JValue = JNull | JStr(s: string) | JBool(b: bool) | JInt(n: Int32) | JDouble(intValue: Int32) | JOther

  /** A snapshot of every field of a settings object. `contentWidth` is used by the
      settings window but is not one of the persisted keys. */
  datatype ConfigData = ConfigData(
    questionsDirectory: Option<string>,
    questionsFile: Option<string>,
    logDirectory: Option<string>,
    logNameFormat: Option<string>,
    responseDirectory: Option<string>,
    responseNameFormat: Option<string>,
    participantName: Option<string>,
    participantId: Option<string>,
    appearanceMode: Option<string>,
    colorTheme: Option<string>,
    outputFormat: Option<string>,
    fontSize: Option<string>,
    autoSave: bool,
    useParticipantInfo: bool,
    defaultChoices: Int32,
    choiceColumns: Int32,
    logSequence: Int32,
    responseSequence: Int32,
    useHtmlRendering: bool,
    contentWidth: Int32)

  /** The values a freshly constructed settings object holds. */
  const Defaults: ConfigData := ConfigData(
    None, None, None, None, None, None, None, None,
    Some("System"), Some("blue"), Some("csv"), Some("medium"),
    true, true, 4, 2, 1, 1, false, 0)

  /** The persisted keys, in the order `fromMap` reads them. Keys 0 to 11 hold
      strings, 12, 13 and 18 booleans, 14 to 17 integers. */
  const Keys: seq<string> := [
    "questions_directory", "questions_file", "log_directory", "log_name_format",
    "response_directory", "response_name_format", "participant_name", "participant_id",
    "appearance_mode", "color_theme", "output_format", "font_size",
    "auto_save", "use_participant_info",
    "default_choices", "choice_columns", "log_sequence", "response_sequence",
    "use_html_rendering"]

  predicate IsStringKey(i: nat) { i < 12 }

  predicate IsBoolKey(i: nat) { i == 12 || i == 13 || i == 18 }

  function StrValue(s: Option<string>): JValue {
    match s
    case None => JNull
    case Some(t) => JStr(t)
  }

  function AsString(v: JValue): Option<string> {
    if v.JStr? then Some(v.s) else None
  }

  function AsBool(v: JValue): bool {
    v.JBool? && v.b
  }

  function AsInt(v: JValue): Int32 {
    if v.JInt? then v.n else 0
  }

  /** The persisted fields of `c` in key order, each as `toMap` stores it. */
  function Fields(c: ConfigData): (r: seq<JValue>)
    ensures |r| == |Keys|
  {
    [
      StrValue(c.questionsDirectory),
      StrValue(c.questionsFile),
      StrValue(c.logDirectory),
      StrValue(c.logNameFormat),
      StrValue(c.responseDirectory),
      StrValue(c.responseNameFormat),
      StrValue(c.participantName),
      StrValue(c.participantId),
      StrValue(c.appearanceMode),
      StrValue(c.colorTheme),
      StrValue(c.outputFormat),
      StrValue(c.fontSize),
      JBool(c.autoSave),
      JBool(c.useParticipantInfo),
      JInt(c.defaultChoices),
      JInt(c.choiceColumns),
      JInt(c.logSequence),
      JInt(c.responseSequence),
      JBool(c.useHtmlRendering)]
  }

  /** `v` is of the kind `toMap` stores under key `i`: a string or null, a boolean,
      or an Integer. */
  predicate Stored(i: nat, v: JValue) {
    if IsStringKey(i) then v.JNull? || v.JStr?
    else if IsBoolKey(i) then v.JBool?
    else v.JInt?
  }

  predicate WellKinded(vals: seq<JValue>) {
    |vals| == |Keys| && forall i | 0 <= i < |vals| :: Stored(i, vals[i])
  }

  /** The settings whose persisted fields are `vals` and whose width is `width`. */
  function FromFields(vals: seq<JValue>, width: Int32): ConfigData
    requires |vals| == |Keys|
  {
    ConfigData(
      AsString(vals[0]),
      AsString(vals[1]),
      AsString(vals[2]),
      AsString(vals[3]),
      AsString(vals[4]),
      AsString(vals[5]),
      AsString(vals[6]),
      AsString(vals[7]),
      AsString(vals[8]),
      AsString(vals[9]),
      AsString(vals[10]),
      AsString(vals[11]),
      AsBool(vals[12]),
      AsBool(vals[13]),
      AsInt(vals[14]),
      AsInt(vals[15]),
      AsInt(vals[16]),
      AsInt(vals[17]),
      AsBool(vals[18]),
      width)
  }

  lemma FieldsWellKinded(c: ConfigData)
    ensures WellKinded(Fields(c))
  {
  }

  /** Settings are determined by their persisted fields and their width. */
  lemma FromFieldsOfFields(c: ConfigData)
    ensures FromFields(Fields(c), c.contentWidth) == c
  {
  }

  lemma FieldsOfFromFields(vals: seq<JValue>, width: Int32)
    requires WellKinded(vals)
    ensures Fields(FromFields(vals, width)) == vals
  {
    assert Stored(0, vals[0]);
    assert Stored(1, vals[1]);
    assert Stored(2, vals[2]);
    assert Stored(3, vals[3]);
    assert Stored(4, vals[4]);
    assert Stored(5, vals[5]);
    assert Stored(6, vals[6]);
    assert Stored(7, vals[7]);
    assert Stored(8, vals[8]);
    assert Stored(9, vals[9]);
    assert Stored(10, vals[10]);
    assert Stored(11, vals[11]);
    assert Stored(12, vals[12]);
    assert Stored(13, vals[13]);
    assert Stored(14, vals[14]);
    assert Stored(15, vals[15]);
    assert Stored(16, vals[16]);
    assert Stored(17, vals[17]);
    assert Stored(18, vals[18]);
    assert vals == [vals[0], vals[1], vals[2], vals[3], vals[4], vals[5], vals[6], vals[7], vals[8], vals[9], vals[10], vals[11], vals[12], vals[13], vals[14], vals[15], vals[16], vals[17], vals[18]];
  }

  lemma KeysDistinct()
    ensures forall i, j | 0 <= i < j < |Keys| :: Keys[i] != Keys[j]
  {
  }

  /** The map `toMap` builds: each persisted key bound to its field's value. */
  function ToMapOf(c: ConfigData): map<string, JValue> {
    KeysDistinct();
    map i | 0 <= i < |Keys| :: Keys[i] := Fields(c)[i]
  }

  /** Every persisted key, and no other, holds the value of its field. */
  lemma ToMapOfAt(c: ConfigData, k: nat)
    requires k < |Keys|
    ensures Keys[k] in ToMapOf(c) && ToMapOf(c)[Keys[k]] == Fields(c)[k]
  {
    KeysDistinct();
  }

  /** Whether reading `v` under key `i` throws: a `(String)` cast of anything but a
      string or null, or a `(Boolean)` unboxing of anything but a boolean (null
      included). Integer keys never throw: a value of another type is ignored. */
  predicate Throws(i: nat, v: JValue) {
    if IsStringKey(i) then !(v.JNull? || v.JStr?)
    else if IsBoolKey(i) then !v.JBool?
    else false
  }

  /** The value key `i` takes when `v` is read over `prev`: a string, null or
      boolean is taken as it is; an integer key takes a number, truncating a
      Double, and keeps `prev` for anything else. */
  function Converted(i: nat, v: JValue, prev: JValue): (r: JValue)
    requires !Throws(i, v)
    ensures Stored(i, prev) ==> Stored(i, r)
  {
    if IsStringKey(i) || IsBoolKey(i) then v
    else
      match v
      case JDouble(t) => JInt(t)
      case JInt(x) => JInt(x)
      case _ => prev
  }

  /** The first key from `i` on that is present and throws, or |Keys| if none does. */
  function FirstFailureFrom(m: map<string, JValue>, i: nat): (f: nat)
    requires i <= |Keys|
    ensures i <= f <= |Keys|
    ensures f < |Keys| ==> Keys[f] in m && Throws(f, m[Keys[f]])
    ensures forall k | i <= k < f :: Keys[k] in m ==> !Throws(k, m[Keys[k]])
    decreases |Keys| - i
  {
    if i == |Keys| then i
    else if Keys[i] in m && Throws(i, m[Keys[i]]) then i
    else FirstFailureFrom(m, i + 1)
  }

  function FirstFailure(m: map<string, JValue>): nat {
    FirstFailureFrom(m, 0)
  }

  /** `fromMap` from key `i` on, over the persisted fields `vals`: each present key
      is read in turn, and the first whose cast throws stops it with `false`. */
  function ReadFrom(vals: seq<JValue>, m: map<string, JValue>, i: nat): (r: (seq<JValue>, bool))
    requires |vals| == |Keys| && i <= |Keys|
    ensures |r.0| == |Keys|
    decreases |Keys| - i
  {
    if i == |Keys| then (vals, true)
    else if Keys[i] !in m then ReadFrom(vals, m, i + 1)
    else if Throws(i, m[Keys[i]]) then (vals, false)
    else ReadFrom(vals[i := Converted(i, m[Keys[i]], vals[i])], m, i + 1)
  }

  /** What `fromMap(m)` does to settings `d`, and whether it returns normally. */
  function Overlay(d: ConfigData, m: map<string, JValue>): (ConfigData, bool) {
    var r := ReadFrom(Fields(d), m, 0);
    (FromFields(r.0, d.contentWidth), r.1)
  }

  /** `ReadFrom` in closed form: key `k` takes the converted value from the map
      when it is present and comes before the first throwing key, and keeps its
      value otherwise; the result is `true` when no key throws. */
  lemma {:induction false} ReadFromAt(vals: seq<JValue>, m: map<string, JValue>, i: nat, k: nat)
    requires |vals| == |Keys| && i <= |Keys| && k < |Keys|
    ensures ReadFrom(vals, m, i).1 == (FirstFailureFrom(m, i) == |Keys|)
    ensures ReadFrom(vals, m, i).0[k] ==
      if i <= k < FirstFailureFrom(m, i) && Keys[k] in m then Converted(k, m[Keys[k]], vals[k])
      else vals[k]
    decreases |Keys| - i
  {
    if i < |Keys| && Keys[i] in m && !Throws(i, m[Keys[i]]) {
      ReadFromAt(vals[i := Converted(i, m[Keys[i]], vals[i])], m, i + 1, k);
    } else if i < |Keys| && Keys[i] !in m {
      ReadFromAt(vals, m, i + 1, k);
    }
  }

  lemma {:induction false} ReadFromWellKinded(vals: seq<JValue>, m: map<string, JValue>, i: nat)
    requires WellKinded(vals) && i <= |Keys|
    ensures WellKinded(ReadFrom(vals, m, i).0)
    decreases |Keys| - i
  {
    if i < |Keys| && Keys[i] in m && !Throws(i, m[Keys[i]]) {
      ReadFromWellKinded(vals[i := Converted(i, m[Keys[i]], vals[i])], m, i + 1);
    } else if i < |Keys| && Keys[i] !in m {
      ReadFromWellKinded(vals, m, i + 1);
    }
  }

  /** `fromMap` in closed form: it returns normally exactly when no present key
      throws; a key keeps its value when absent or at or after the first throwing
      key, and otherwise takes the converted value; `contentWidth` never changes. */
  lemma OverlayField(d: ConfigData, m: map<string, JValue>, k: nat)
    requires k < |Keys|
    ensures Overlay(d, m).1 <==> forall j | 0 <= j < |Keys| :: Keys[j] in m ==> !Throws(j, m[Keys[j]])
    ensures Overlay(d, m).0.contentWidth == d.contentWidth
    ensures Fields(Overlay(d, m).0)[k] ==
      if k < FirstFailure(m) && Keys[k] in m then Converted(k, m[Keys[k]], Fields(d)[k])
      else Fields(d)[k]
  {
    FieldsWellKinded(d);
    ReadFromWellKinded(Fields(d), m, 0);
    FieldsOfFromFields(ReadFrom(Fields(d), m, 0).0, d.contentWidth);
    ReadFromAt(Fields(d), m, 0, k);
    var f := FirstFailure(m);
    if f < |Keys| {
      assert Keys[f] in m && Throws(f, m[Keys[f]]);
    }
  }

  /** A key absent from the map keeps its value. */
  lemma OverlayAbsent(d: ConfigData, m: map<string, JValue>, k: nat)
    requires k < |Keys| && Keys[k] !in m
    ensures Fields(Overlay(d, m).0)[k] == Fields(d)[k]
  {
    OverlayField(d, m, k);
  }

  /** Reading a map that holds, under every key from `i` on, a value of the kind
      stored there replaces those fields by the map's values and does not throw. */
  lemma {:induction false} ReadFromStored(vals: seq<JValue>, m: map<string, JValue>, target: seq<JValue>, i: nat)
    requires |vals| == |Keys| && WellKinded(target) && i <= |Keys|
    requires forall k | i <= k < |Keys| :: Keys[k] in m && m[Keys[k]] == target[k]
    ensures ReadFrom(vals, m, i) == (vals[..i] + target[i..], true)
    decreases |Keys| - i
  {
    if i < |Keys| {
      assert Stored(i, target[i]);
      assert Keys[i] in m && m[Keys[i]] == target[i];
      assert !Throws(i, target[i]) && Converted(i, target[i], vals[i]) == target[i];
      var next := vals[i := target[i]];
      assert ReadFrom(vals, m, i) == ReadFrom(next, m, i + 1);
      ReadFromStored(next, m, target, i + 1);
      assert next[..i + 1] + target[i + 1..] == vals[..i] + target[i..];
    } else {
      assert vals[..i] + target[i..] == vals;
    }
  }

  lemma ReadToMapOf(vals: seq<JValue>, c: ConfigData)
    requires |vals| == |Keys|
    ensures ReadFrom(vals, ToMapOf(c), 0) == (Fields(c), true)
  {
    var m := ToMapOf(c);
    FieldsWellKinded(c);
    forall k | 0 <= k < |Keys|
      ensures Keys[k] in m && m[Keys[k]] == Fields(c)[k]
    {
      ToMapOfAt(c, k);
    }
    ReadFromStored(vals, m, Fields(c), 0);
    assert vals[..0] + Fields(c)[0..] == Fields(c);
  }

  /** Reading back what `toMap` wrote restores every persisted field; only
      `contentWidth`, which is not persisted, keeps its previous value. */
  lemma RoundTrip(b: ConfigData, c: ConfigData)
    ensures Overlay(b, ToMapOf(c)) == (c.(contentWidth := b.contentWidth), true)
  {
    ReadToMapOf(Fields(b), c);
    var c' := c.(contentWidth := b.contentWidth);
    assert Fields(c') == Fields(c);
    FromFieldsOfFields(c');
  }

  /** Reading the same map a second time changes nothing more. */
  lemma ReadFromTwice(vals: seq<JValue>, m: map<string, JValue>)
    requires WellKinded(vals)
    ensures ReadFrom(ReadFrom(vals, m, 0).0, m, 0) == ReadFrom(vals, m, 0)
  {
    var r := ReadFrom(vals, m, 0);
    var r2 := ReadFrom(r.0, m, 0);
    forall k | 0 <= k < |Keys|
      ensures r2.0[k] == r.0[k]
    {
      ReadFromAt(vals, m, 0, k);
      ReadFromAt(r.0, m, 0, k);
    }
    ReadFromAt(vals, m, 0, 0);
    ReadFromAt(r.0, m, 0, 0);
    assert r2.0 == r.0;
  }

  /** Reading the same map twice gives what reading it once gives. */
  lemma OverlayIdempotent(d: ConfigData, m: map<string, JValue>)
    ensures Overlay(Overlay(d, m).0, m) == Overlay(d, m)
  {
    var r := ReadFrom(Fields(d), m, 0);
    FieldsWellKinded(d);
    ReadFromWellKinded(Fields(d), m, 0);
    FieldsOfFromFields(r.0, d.contentWidth);
    ReadFromTwice(Fields(d), m);
  }

  /** The settings object. Its fields are updated in place by `fromMap` and by the
      windows that edit the settings. */
  class Config {
    var questionsDirectory: Option<string>
    var questionsFile: Option<string>
    var logDirectory: Option<string>
    var logNameFormat: Option<string>
    var responseDirectory: Option<string>
    var responseNameFormat: Option<string>
    var participantName: Option<string>
    var participantId: Option<string>
    var appearanceMode: Option<string>
    var colorTheme: Option<string>
    var outputFormat: Option<string>
    var fontSize: Option<string>
    var autoSave: bool
    var useParticipantInfo: bool
    var defaultChoices: Int32
    var choiceColumns: Int32
    var logSequence: Int32
    var responseSequence: Int32
    var useHtmlRendering: bool
    var contentWidth: Int32

    /** The default settings: appearance "System", theme "blue", output "csv",
        font "medium", both flags on, four choices in two columns, both counters at
        one, HTML rendering off, and every path and participant string null. */
    constructor ()
      ensures Data() == Defaults
    {
      questionsDirectory, questionsFile, logDirectory, logNameFormat := None, None, None, None;
      responseDirectory, responseNameFormat, participantName, participantId := None, None, None, None;
      appearanceMode := Some("System");
      colorTheme := Some("blue");
      outputFormat := Some("csv");
      fontSize := Some("medium");
      autoSave := true;
      useParticipantInfo := true;
      defaultChoices := 4;
      choiceColumns := 2;
      logSequence := 1;
      responseSequence := 1;
      useHtmlRendering := false;
      contentWidth := 0;
    }

    function Data(): ConfigData
      reads this
    {
      ConfigData(questionsDirectory, questionsFile, logDirectory, logNameFormat,
        responseDirectory, responseNameFormat, participantName, participantId,
        appearanceMode, colorTheme, outputFormat, fontSize, autoSave, useParticipantInfo,
        defaultChoices, choiceColumns, logSequence, responseSequence, useHtmlRendering,
        contentWidth)
    }

    /** `toMap()`: exactly the persisted keys, each bound to its field's value. */
    function ToMap(): (m: map<string, JValue>)
      reads this
      ensures m.Keys == set k | k in Keys
      ensures forall i | 0 <= i < |Keys| :: m[Keys[i]] == Fields(Data())[i]
    {
      ToMapOf(Data())
    }

    /** `fromMap(m)`: the keys are read in order, each only when present; `ok` is
        false where the Java method throws, with the keys before the failing one
        applied and the rest untouched. */
    method FromMap(m: map<string, JValue>) returns (ok: bool)
      modifies this
      ensures (Data(), ok) == Overlay(old(Data()), m)
    {
      var r := Overlay(Data(), m);
      Store(r.0);
      ok := r.1;
    }

    /** `setParticipantName`. */
    method SetParticipantName(v: string)
      modifies this`participantName
      ensures Data() == old(Data()).(participantName := Some(v))
    {
      participantName := Some(v);
    }

    /** `setParticipantId`. */
    method SetParticipantId(v: string)
      modifies this`participantId
      ensures Data() == old(Data()).(participantId := Some(v))
    {
      participantId := Some(v);
    }

    /** `setLogSequence`. */
    method SetLogSequence(v: Int32)
      modifies this`logSequence
      ensures Data() == old(Data()).(logSequence := v)
    {
      logSequence := v;
    }

    /** `setResponseSequence`. */
    method SetResponseSequence(v: Int32)
      modifies this`responseSequence
      ensures Data() == old(Data()).(responseSequence := v)
    {
      responseSequence := v;
    }

    /** `setContentWidth`. */
    method SetContentWidth(v: Int32)
      modifies this`contentWidth
      ensures Data() == old(Data()).(contentWidth := v)
    {
      contentWidth := v;
    }

    /** Stores every persisted setting of `d`; `contentWidth` is kept. */
    method Store(d: ConfigData)
      modifies this
      ensures Data() == d.(contentWidth := old(contentWidth))
    {
      StoreLocations(d);
      StoreAppearance(d);
      StoreOptions(d);
    }

    /** Stores the directory, file-name and participant settings of `d`. */
    method StoreLocations(d: ConfigData)
      modifies this`questionsDirectory, this`questionsFile, this`logDirectory, this`logNameFormat, this`responseDirectory, this`responseNameFormat, this`participantName, this`participantId
      ensures questionsDirectory == d.questionsDirectory
      ensures questionsFile == d.questionsFile
      ensures logDirectory == d.logDirectory
      ensures logNameFormat == d.logNameFormat
      ensures responseDirectory == d.responseDirectory
      ensures responseNameFormat == d.responseNameFormat
      ensures participantName == d.participantName
      ensures participantId == d.participantId
    {
      questionsDirectory := d.questionsDirectory;
      questionsFile := d.questionsFile;
      logDirectory := d.logDirectory;
      logNameFormat := d.logNameFormat;
      responseDirectory := d.responseDirectory;
      responseNameFormat := d.responseNameFormat;
      participantName := d.participantName;
      participantId := d.participantId;
    }

    /** Stores the appearance, theme, output format and font size of `d`. */
    method StoreAppearance(d: ConfigData)
      modifies this`appearanceMode, this`colorTheme, this`outputFormat, this`fontSize
      ensures appearanceMode == d.appearanceMode
      ensures colorTheme == d.colorTheme
      ensures outputFormat == d.outputFormat
      ensures fontSize == d.fontSize
    {
      appearanceMode := d.appearanceMode;
      colorTheme := d.colorTheme;
      outputFormat := d.outputFormat;
      fontSize := d.fontSize;
    }

    /** Stores the flags and counters of `d`. */
    method StoreOptions(d: ConfigData)
      modifies this`autoSave, this`useParticipantInfo, this`defaultChoices, this`choiceColumns, this`logSequence, this`responseSequence, this`useHtmlRendering
      ensures autoSave == d.autoSave
      ensures useParticipantInfo == d.useParticipantInfo
      ensures defaultChoices == d.defaultChoices
      ensures choiceColumns == d.choiceColumns
      ensures logSequence == d.logSequence
      ensures responseSequence == d.responseSequence
      ensures useHtmlRendering == d.useHtmlRendering
    {
      autoSave := d.autoSave;
      useParticipantInfo := d.useParticipantInfo;
      defaultChoices := d.defaultChoices;
      choiceColumns := d.choiceColumns;
      logSequence := d.logSequence;
      responseSequence := d.responseSequence;
      useHtmlRendering := d.useHtmlRendering;
    }
  }
}
