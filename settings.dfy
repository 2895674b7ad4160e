/** The settings window: the form is filled from the settings when it opens, and
    saving writes the form back into the settings and persists them, unless the
    two sequence fields do not hold integers of at least one. The form's widgets
    are modelled by their contents. Paths are Unix paths in normal form (no
    doubled or trailing '/'). */
module Settings {
  import opened Wrappers
  import opened Strings
  import opened Constants
  import opened Configuration
  import ConfigManagement

  /** The items of the output-format, default-choices and choice-columns boxes. */
  const OutputFormats: seq<string> := ["csv", "json", "both"]
  const DefaultChoicesOptions: seq<Int32> := [2, 3, 4, 5, 6, 7, 8, 9, 10]
  const ChoiceColumnsOptions: seq<Int32> := [1, 2, 3, 4]

  /** The widths behind the four items of the content-width box. */
  const Widths: seq<Int32> := [540, 720, 960, 1140]

  /** An item index of the content-width box. */
  type WidthChoice = i: int | 0 <= i < 4

  /** What the form shows: the text fields, the three boxes' selected items (the
      output-format box can hold no selection), the two sequence fields, the
      three check boxes and the width box's index. */
  datatype SettingsForm = SettingsForm(
    participantName: string,
    participantId: string,
    questionsPath: string,
    logDirectory: string,
    logNameFormat: string,
    responseDirectory: string,
    responseNameFormat: string,
    outputFormat: Option<string>,
    defaultChoices: Int32,
    choiceColumns: Int32,
    logSequence: string,
    responseSequence: string,
    autoSave: bool,
    useParticipantInfo: bool,
    useHtmlRendering: bool,
    widthIndex: WidthChoice)

  // ---- opening the window ------------------------------------------------------

  /** A null setting is shown as an empty field. */
  function TextOf(v: Option<string>): string {
    v.GetOr("")
  }

  /** `setSelectedItem` on a box that is not editable: a value among the items is
      selected; any other value leaves the first item, selected when the box was
      built. */
  function ComboItem(items: seq<Int32>, v: Int32): Int32
    requires |items| > 0
  {
    if v in items then v else items[0]
  }

  /** The same for the output-format box, where a null value clears the selection. */
  function FormatItem(v: Option<string>): Option<string> {
    if v == None then None else if v.value in OutputFormats then v else Some(OutputFormats[0])
  }

  /** The width box's item for a stored width: the smallest of the four widths that
      is at least as wide, or the widest. */
  function WidthIndex(w: int): WidthChoice {
    if w <= 540 then 0 else if w <= 720 then 1 else if w <= 960 then 2 else 3
  }

  /** `loadCurrentSettings`: the form for settings `d`. */
  function FormOf(d: ConfigData): SettingsForm {
    SettingsForm(
      TextOf(d.participantName), TextOf(d.participantId),
      TextOf(ConfigManagement.QuestionsPathOf(d)),
      TextOf(d.logDirectory), TextOf(d.logNameFormat), TextOf(d.responseDirectory), TextOf(d.responseNameFormat),
      FormatItem(d.outputFormat),
      ComboItem(DefaultChoicesOptions, d.defaultChoices), ComboItem(ChoiceColumnsOptions, d.choiceColumns),
      IntToString(d.logSequence), IntToString(d.responseSequence),
      d.autoSave, d.useParticipantInfo, d.useHtmlRendering,
      WidthIndex(d.contentWidth))
  }

  /** Saving the width chosen for a stored width and opening again selects the same
      item; every stored width is rounded up to the nearest of the four, and any
      width beyond the widest becomes the widest. */
  lemma WidthBuckets(i: WidthChoice, w: int)
    ensures WidthIndex(Widths[i]) == i
    ensures w <= Widths[3] ==> w <= Widths[WidthIndex(w)]
    ensures WidthIndex(w) > 0 ==> Widths[WidthIndex(w) - 1] < w
  {
  }

  // ---- the questions path ---------------------------------------------------------

  /** The length of a path's root prefix: one for an absolute path, zero otherwise. */
  function RootLength(p: string): nat {
    if |p| > 0 && p[0] == '/' then 1 else 0
  }

  /** `File.getParent()`: the path before the last separator; for a separator only
      at the root, the root, unless the path is the root alone; null with no
      separator. */
  function Parent(p: string): Option<string> {
    var i := LastIndexOf(p, '/');
    if i < RootLength(p) then
      if RootLength(p) > 0 && |p| > RootLength(p) then Some(p[..RootLength(p)]) else None
    else Some(p[..i])
  }

  /** `File.getName()`: the path after the last separator. */
  function Name(p: string): string {
    var i := LastIndexOf(p, '/');
    if i < RootLength(p) then p[RootLength(p)..] else p[i + 1..]
  }

  /** A path with a separator after its first character splits into a directory and
      a file name that join back into the path. */
  lemma SplitJoin(p: string)
    requires LastIndexOf(p, '/') >= 1
    ensures Parent(p) == Some(p[..LastIndexOf(p, '/')])
    ensures '/' !in Name(p)
    ensures Parent(p).value + Sep + Name(p) == p
  {
    var i := LastIndexOf(p, '/');
    assert RootLength(p) <= 1 <= i;
    var name := p[i + 1..];
    assert Parent(p) == Some(p[..i]) && Name(p) == name;
    forall k | 0 <= k < |name| ensures name[k] != '/' {
      assert name[k] == p[i + 1 + k];
    }
    assert p[..i] + Sep + name == p by {
      assert p[i..i + 1] == Sep;
      assert p[..i] + p[i..i + 1] == p[..i + 1];
      assert p[..i + 1] + p[i + 1..] == p;
    }
  }

  /** A directory and a file name joined by the separator split back into the two,
      provided the directory is not empty and the name holds no separator. */
  lemma JoinSplit(dir: string, name: string)
    requires dir != "" && '/' !in name
    ensures LastIndexOf(dir + Sep + name, '/') == |dir|
    ensures Parent(dir + Sep + name) == Some(dir) && Name(dir + Sep + name) == name
  {
    var p := dir + Sep + name;
    assert p[|dir|] == '/';
    forall j | |dir| < j < |p| ensures p[j] != '/' {
      assert p[j] == name[j - |dir| - 1];
    }
    LastIndexOfAt(p, '/', |dir|);
    assert p[..|dir|] == dir;
    assert p[|dir| + 1..] == name;
  }

  /** The last occurrence is the one after which the character does not occur. */
  lemma LastIndexOfAt(s: string, c: char, k: nat)
    requires k < |s| && s[k] == c && forall j | k < j < |s| :: s[j] != c
    ensures LastIndexOf(s, c) == k
  {
    var i := LastIndexOf(s, c);
    if i > k {
      assert s[i] == c;
    }
  }

  /** A bare file name, with no directory, clears neither the directory nor the file
      setting but sets the directory to null, so the saved settings name no
      questions path. */
  lemma BareNameHasNoParent(p: string)
    requires '/' !in p
    ensures Parent(p) == None && Name(p) == p
  {
    if |p| > 0 {
      assert p[0] in p;
    }
  }

  // ---- saving ---------------------------------------------------------------------

  /** What the two sequence fields give: both parsed and both at least one, or none
      (a field that does not parse, or a value below one). */
  function Sequences(f: SettingsForm): Option<(Int32, Int32)> {
    match ParseInt(f.logSequence)
    case None => None
    case Some(a) =>
      match ParseInt(f.responseSequence)
      case None => None
      case Some(b) => if a < 1 || b < 1 then None else Some((a, b))
  }

  /** The settings after the setters that run before the sequence fields are read:
      the participant, the questions path split into directory and name when it
      is not blank, the log and response locations, and the three boxes. */
  function FieldsSaved(d: ConfigData, f: SettingsForm): ConfigData {
    var d1 := d.(participantName := Some(f.participantName), participantId := Some(f.participantId));
    var d2 := if IsBlank(f.questionsPath) then d1
              else d1.(questionsDirectory := Parent(f.questionsPath), questionsFile := Some(Name(f.questionsPath)));
    d2.(logDirectory := Some(f.logDirectory), logNameFormat := Some(f.logNameFormat),
        responseDirectory := Some(f.responseDirectory), responseNameFormat := Some(f.responseNameFormat),
        outputFormat := f.outputFormat, defaultChoices := f.defaultChoices, choiceColumns := f.choiceColumns)
  }

  /** `saveSettings`: the settings afterwards, and whether they were saved. With bad
      sequence fields the method returns early: the settings set before the check
      keep their new values, the rest are untouched and nothing is saved. */
  function SavedSettings(d: ConfigData, f: SettingsForm): (ConfigData, bool) {
    var d0 := FieldsSaved(d, f);
    match Sequences(f)
    case None => (d0, false)
    case Some((a, b)) =>
      (d0.(logSequence := a, responseSequence := b,
           autoSave := f.autoSave, useParticipantInfo := f.useParticipantInfo, useHtmlRendering := f.useHtmlRendering,
           contentWidth := Widths[f.widthIndex]), true)
  }

  /** The sequence counters are set exactly when both fields hold integers of at
      least one, and then to those integers. */
  lemma SequencesChecked(d: ConfigData, f: SettingsForm)
    ensures SavedSettings(d, f).1 <==>
              && ParseInt(f.logSequence).Some? && ParseInt(f.responseSequence).Some?
              && ParseInt(f.logSequence).value >= 1 && ParseInt(f.responseSequence).value >= 1
    ensures SavedSettings(d, f).1 ==>
              && SavedSettings(d, f).0.logSequence == ParseInt(f.logSequence).value
              && SavedSettings(d, f).0.responseSequence == ParseInt(f.responseSequence).value
    ensures !SavedSettings(d, f).1 ==>
              && SavedSettings(d, f).0.logSequence == d.logSequence
              && SavedSettings(d, f).0.responseSequence == d.responseSequence
              && SavedSettings(d, f).0.contentWidth == d.contentWidth
  {
  }

  /** A blank questions path leaves both questions settings as they were. */
  lemma BlankPathKeepsQuestions(d: ConfigData, f: SettingsForm)
    requires IsBlank(f.questionsPath)
    ensures SavedSettings(d, f).0.questionsDirectory == d.questionsDirectory
    ensures SavedSettings(d, f).0.questionsFile == d.questionsFile
  {
  }

  /** A questions path with a directory is stored so that the survey finds that very
      path again. */
  lemma SavedQuestionsPath(d: ConfigData, f: SettingsForm)
    requires LastIndexOf(f.questionsPath, '/') >= 1
    ensures ConfigManagement.QuestionsPathOf(SavedSettings(d, f).0) == Some(f.questionsPath)
  {
    SplitJoin(f.questionsPath);
    var i := LastIndexOf(f.questionsPath, '/');
    assert f.questionsPath[i] > ' ';
    BlankIff(f.questionsPath);
  }

  /** Settings the form can show exactly: no null text, box values among the items,
      counters of at least one, a width of one of the four, and a questions path
      that is either unset or a non-empty directory and a plain file name. */
  predicate Showable(d: ConfigData) {
    && d.participantName.Some? && d.participantId.Some?
    && d.logDirectory.Some? && d.logNameFormat.Some? && d.responseDirectory.Some? && d.responseNameFormat.Some?
    && (d.outputFormat == None || d.outputFormat.value in OutputFormats)
    && d.defaultChoices in DefaultChoicesOptions && d.choiceColumns in ChoiceColumnsOptions
    && d.logSequence >= 1 && d.responseSequence >= 1
    && d.contentWidth in Widths
    && (if d.questionsDirectory.Some? && d.questionsFile.Some?
        then d.questionsDirectory.value != "" && '/' !in d.questionsFile.value
        else d.questionsDirectory == None || d.questionsFile == None)
  }

  /** The fields written before the sequence check come back as they were. */
  lemma ShownFieldsSaved(d: ConfigData)
    requires Showable(d)
    ensures FieldsSaved(d, FormOf(d)) == d
  {
    var path := FormOf(d).questionsPath;
    if d.questionsDirectory.Some? && d.questionsFile.Some? {
      var dir := d.questionsDirectory.value;
      JoinSplit(dir, d.questionsFile.value);
      assert path == dir + Sep + d.questionsFile.value;
      assert path[|dir|] > ' ';
      BlankIff(path);
    } else {
      assert path == "";
    }
  }

  /** Opening the window and saving at once changes nothing in settings the form can
      show exactly, and the settings are saved. */
  lemma ReopenAndSave(d: ConfigData)
    requires Showable(d)
    ensures SavedSettings(d, FormOf(d)) == (d, true)
  {
    var f := FormOf(d);
    ParseIntToString(d.logSequence);
    ParseIntToString(d.responseSequence);
    assert Sequences(f) == Some((d.logSequence, d.responseSequence));
    ShownFieldsSaved(d);
    assert Widths[f.widthIndex] == d.contentWidth;
  }

  /** The settings window, editing the settings of `manager`. */
  class SettingsWindow {
    const manager: ConfigManagement.ConfigManager
    var form: SettingsForm
    var disposed: bool

    /** The window opens with the form filled from the current settings. */
    constructor (manager0: ConfigManagement.ConfigManager)
      ensures manager == manager0 && !disposed
      ensures form == FormOf(manager0.config.Data())
    {
      manager := manager0;
      disposed := false;
      new;
      LoadCurrentSettings();
    }

    /** `loadCurrentSettings`. */
    method LoadCurrentSettings()
      modifies this`form
      ensures form == FormOf(manager.config.Data())
    {
      var c := manager.config;
      var questionsPath := manager.GetQuestionsPath();
      var width := c.contentWidth;
      var widthIndex: WidthChoice;
      if width <= 540 {
        widthIndex := 0;
      } else if width <= 720 {
        widthIndex := 1;
      } else if width <= 960 {
        widthIndex := 2;
      } else {
        widthIndex := 3;
      }
      form := SettingsForm(
        c.participantName.GetOr(""), c.participantId.GetOr(""), questionsPath.GetOr(""),
        c.logDirectory.GetOr(""), c.logNameFormat.GetOr(""), c.responseDirectory.GetOr(""),
        c.responseNameFormat.GetOr(""),
        FormatItem(c.outputFormat),
        ComboItem(DefaultChoicesOptions, c.defaultChoices), ComboItem(ChoiceColumnsOptions, c.choiceColumns),
        IntToString(c.logSequence), IntToString(c.responseSequence),
        c.autoSave, c.useParticipantInfo, c.useHtmlRendering,
        widthIndex);
    }

    /** The user edits the form. */
    method Edit(f: SettingsForm)
      modifies this`form
      ensures form == f
    {
      form := f;
    }

    /** The first part of `saveSettings`: the fields that are written before the
        sequence fields are read. */
    method StoreFields()
      modifies manager.config
      ensures manager.config.Data() == FieldsSaved(old(manager.config.Data()), form)
    {
      var c := manager.config;
      var f := form;
      var d := c.Data();
      d := d.(participantName := Some(f.participantName), participantId := Some(f.participantId));
      if !IsBlank(f.questionsPath) {
        var directory := Parent(f.questionsPath);
        var filename := Name(f.questionsPath);
        d := d.(questionsDirectory := directory, questionsFile := Some(filename));
      }
      d := d.(logDirectory := Some(f.logDirectory), logNameFormat := Some(f.logNameFormat),
              responseDirectory := Some(f.responseDirectory), responseNameFormat := Some(f.responseNameFormat));
      d := d.(outputFormat := f.outputFormat, defaultChoices := f.defaultChoices, choiceColumns := f.choiceColumns);
      c.Store(d);
    }

    /** `saveSettings`: the form written into the settings; with good sequence fields
        the settings are saved and the window closes, otherwise the window stays
        open and nothing is saved. */
    method SaveSettings() returns (saved: bool)
      requires !disposed
      modifies manager.config, manager`file, manager`saves, this`disposed
      ensures (manager.config.Data(), saved) == SavedSettings(old(manager.config.Data()), form)
      ensures disposed == saved
      ensures saved ==> manager.saves == old(manager.saves) + 1
                        && manager.file == (if manager.writable then ConfigManagement.ConfigSource.Parsed(ConfigManagement.WithoutNulls(ToMapOf(manager.config.Data())))
                                            else old(manager.file))
      ensures !saved ==> manager.saves == old(manager.saves) && manager.file == old(manager.file)
    {
      StoreFields();
      var c := manager.config;
      var f := form;
      var logSeq := ParseInt(f.logSequence);
      var responseSeq := ParseInt(f.responseSequence);
      if logSeq == None || responseSeq == None || logSeq.value < 1 || responseSeq.value < 1 {
        return false;
      }
      c.SetLogSequence(logSeq.value);
      c.SetResponseSequence(responseSeq.value);
      var d := c.Data();
      c.Store(d.(autoSave := f.autoSave, useParticipantInfo := f.useParticipantInfo,
                 useHtmlRendering := f.useHtmlRendering));
      c.SetContentWidth(Widths[f.widthIndex]);
      manager.SaveConfig();
      disposed := true;
      saved := true;
    }
  }
}
