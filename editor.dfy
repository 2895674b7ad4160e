/** The question editor: a list of questions built up from a form of one text and
    up to ten choice fields, edited in place, reordered, deleted, saved to and
    loaded from a file. The list shown beside the form mirrors the questions. The
    file chooser and the confirmation dialog are parameters. */
module QuestionEditing {
  import opened Wrappers
  import opened Strings
  import opened Constants
  import opened FileSystem
  import opened Model
  import FileUtils

  // ---- the list labels -----------------------------------------------------------

  /** How Java's string concatenation shows a question text: a null text reads
      "null". */
  function Shown(text: Option<string>): string {
    match text
    case Some(t) => t
    case None => "null"
  }

  /** The label of the entry at index i: "(i + 1). text". */
  function Label(i: int, text: Option<string>): string {
    IntToString(i + 1) + ". " + Shown(text)
  }

  /** The labels of the whole list, entry by entry. */
  function Labels(qs: seq<QuestionData>): seq<string> {
    seq(|qs|, i requires 0 <= i < |qs| => Label(i, qs[i].text))
  }

  /** Adding a question at the end adds one label at the end and keeps the others. */
  lemma LabelsSnoc(qs: seq<QuestionData>, q: QuestionData)
    ensures Labels(qs + [q]) == Labels(qs) + [Label(|qs|, q.text)]
  {
    var l := Labels(qs + [q]);
    var r := Labels(qs) + [Label(|qs|, q.text)];
    assert |l| == |r|;
    forall k | 0 <= k < |l| ensures l[k] == r[k] {
      if k < |qs| {
        assert (qs + [q])[k] == qs[k];
      }
    }
  }

  // ---- reading the form ------------------------------------------------------------

  /** The choices the form yields: each field trimmed, the empty ones dropped, in
      field order. */
  function TrimmedChoices(fields: seq<string>): seq<string>
    decreases |fields|
  {
    if fields == [] then []
    else
      var last := Trim(fields[|fields| - 1]);
      TrimmedChoices(fields[..|fields| - 1]) + (if last == "" then [] else [last])
  }

  /** The fields are read one after the other: the choices of two runs of fields
      are the choices of the first followed by those of the second. */
  lemma {:induction false} TrimmedChoicesAppend(a: seq<string>, b: seq<string>)
    ensures TrimmedChoices(a + b) == TrimmedChoices(a) + TrimmedChoices(b)
    decreases |b|
  {
    if b == [] {
      assert a + b == a;
    } else {
      var b0 := b[..|b| - 1];
      assert (a + b)[..|a + b| - 1] == a + b0;
      assert (a + b)[|a + b| - 1] == b[|b| - 1];
      TrimmedChoicesAppend(a, b0);
    }
  }

  /** Every choice read from the form is trimmed and not blank. */
  lemma {:induction false} TrimmedChoicesClean(fields: seq<string>)
    ensures forall k | 0 <= k < |TrimmedChoices(fields)| ::
              && TrimmedChoices(fields)[k] != ""
              && !IsBlank(TrimmedChoices(fields)[k])
              && Trim(TrimmedChoices(fields)[k]) == TrimmedChoices(fields)[k]
    decreases |fields|
  {
    if fields != [] {
      TrimmedChoicesClean(fields[..|fields| - 1]);
      TrimmedIsTrim(fields[|fields| - 1]);
    }
  }

  /** Fields that already hold trimmed, non-blank choices are read back as they are. */
  lemma {:induction false} TrimmedChoicesOfClean(cs: seq<string>)
    requires forall k | 0 <= k < |cs| :: cs[k] != "" && Trim(cs[k]) == cs[k]
    ensures TrimmedChoices(cs) == cs
    decreases |cs|
  {
    if cs != [] {
      TrimmedChoicesOfClean(cs[..|cs| - 1]);
    }
  }

  /** The loop of `addQuestion` and `updateQuestion` that reads the choice fields. */
  method CollectChoices(fields: seq<string>) returns (choices: seq<string>)
    ensures choices == TrimmedChoices(fields)
  {
    choices := [];
    var i := 0;
    while i < |fields|
      invariant i <= |fields|
      invariant choices == TrimmedChoices(fields[..i])
    {
      var choice := Trim(fields[i]);
      assert fields[..i + 1][..i] == fields[..i];
      if choice != "" {
        choices := choices + [choice];
      }
      i := i + 1;
    }
    assert fields[..i] == fields;
  }

  /** The question the form yields, or none when the trimmed text is empty or fewer
      than two choice fields are filled in. */
  function Collected(text: string, fields: seq<string>): Option<QuestionData> {
    if Trim(text) == "" then None
    else
      var cs := TrimmedChoices(fields);
      if |cs| < MinChoices then None else Some(QuestionData(Some(Trim(text)), cs))
  }

  /** A question read from the form has a trimmed, non-empty text and at least two
      trimmed, non-blank choices; if its text and choices are single lines it comes
      back unchanged from the question file. */
  lemma CollectedQuestion(text: string, fields: seq<string>)
    requires Collected(text, fields).Some?
    ensures var q := Collected(text, fields).value;
      && q.text == Some(Trim(text)) && q.text.value != "" && Trim(q.text.value) == q.text.value
      && |q.choices| >= MinChoices
      && (forall k | 0 <= k < |q.choices| :: !IsBlank(q.choices[k]) && Trim(q.choices[k]) == q.choices[k])
      && (OneLine(q.text.value) && (forall k | 0 <= k < |q.choices| :: OneLine(q.choices[k])) ==>
            FileUtils.Storable(q) && FileUtils.Reloaded(q) == q)
  {
    TrimmedChoicesClean(fields);
    TrimmedIsTrim(text);
  }

  /** A list of questions read from the form, with single-line texts and choices,
      reads back from the question file exactly as it was saved. */
  lemma EditedListRoundTrip(qs: seq<QuestionData>)
    requires forall i | 0 <= i < |qs| :: qs[i].text.Some? && OneLine(qs[i].text.value)
    requires forall i | 0 <= i < |qs| :: forall k | 0 <= k < |qs[i].choices| ::
               OneLine(qs[i].choices[k]) && !IsBlank(qs[i].choices[k])
    ensures FileUtils.QuestionsOfCsv(FileUtils.QuestionsCsv(qs)) == qs
  {
    FileUtils.SaveLoadRoundTrip(qs);
  }

  // ---- the choice fields of an edited question ---------------------------------

  /** The choice fields `editQuestion` fills: one per choice while there is room;
      once ten fields exist, each further choice overwrites the last field. */
  function FilledFields(cs: seq<string>): seq<string> {
    if |cs| <= MaxChoices then cs else cs[..MaxChoices - 1] + [cs[|cs| - 1]]
  }

  /** The loop of `editQuestion`: a field is added for each choice (refused once
      there are ten) and the last field is given the choice. */
  method FillFields(cs: seq<string>) returns (fields: seq<string>)
    ensures fields == FilledFields(cs)
  {
    fields := [];
    var i := 0;
    while i < |cs|
      invariant i <= |cs|
      invariant fields == FilledFields(cs[..i])
    {
      if |fields| < MaxChoices {
        fields := fields + [""];
      }
      fields := fields[|fields| - 1 := cs[i]];
      assert cs[..i + 1] == cs[..i] + [cs[i]];
      if i >= MaxChoices {
        assert cs[..i][..MaxChoices - 1] == cs[..MaxChoices - 1];
      }
      i := i + 1;
    }
    assert cs[..i] == cs;
  }

  /** Opening a question of the form's own making and updating it without a change
      gives the same question back. */
  lemma EditUnchanged(q: QuestionData)
    requires q.text.Some? && q.text.value != "" && Trim(q.text.value) == q.text.value
    requires MinChoices <= |q.choices| <= MaxChoices
    requires forall k | 0 <= k < |q.choices| :: q.choices[k] != "" && Trim(q.choices[k]) == q.choices[k]
    ensures Collected(q.text.value, FilledFields(q.choices)) == Some(q)
  {
    TrimmedChoicesOfClean(q.choices);
  }

  /** At most ten fields are filled; a question with more than ten choices shows
      its first nine and its last. */
  lemma FilledFieldsShape(cs: seq<string>)
    ensures |FilledFields(cs)| == if |cs| <= MaxChoices then |cs| else MaxChoices
    ensures |cs| > MaxChoices ==>
              FilledFields(cs)[..MaxChoices - 1] == cs[..MaxChoices - 1]
              && FilledFields(cs)[MaxChoices - 1] == cs[|cs| - 1]
  {
  }

  // ---- the save path ----------------------------------------------------------------

  /** The path `saveQuestions` writes to: ".csv" is added to a path that ends in
      neither ".csv" nor ".json". */
  function SavePath(path: string): (p: string) {
    if !EndsWith(path, ".csv") && !EndsWith(path, ".json") then path + ".csv" else path
  }

  /** The saved file always has one of the two extensions, a path that has one is
      kept, and the rule applied twice is the rule applied once. */
  lemma SavePathRule(path: string)
    ensures EndsWith(SavePath(path), ".csv") || EndsWith(SavePath(path), ".json")
    ensures EndsWith(path, ".csv") || EndsWith(path, ".json") ==> SavePath(path) == path
    ensures SavePath(SavePath(path)) == SavePath(path)
    ensures StartsWith(SavePath(path), path)
  {
    if !EndsWith(path, ".csv") && !EndsWith(path, ".json") {
      var p := path + ".csv";
      assert p[|p| - 4..] == ".csv";
      assert p[..|path|] == path;
    }
  }

  /** The outcome of `updateQuestion`: refused by the form check, applied, or thrown
      out because the index being edited no longer names an entry (the entry was
      deleted, or a shorter list loaded, while it was being edited). */
  datatype UpdateOutcome = Refused | Updated | IndexOutOfBounds

  /** The editor window's list and form. `selection` is the list's selected row, -1
      for none. */
  class QuestionEditor {
    var questions: seq<QuestionData>
    var listLabels: seq<string>
    var selection: int
    var questionText: string
    var choiceFields: seq<string>
    var isEditMode: bool
    var editingIndex: int

    /** The list mirrors the questions, a selected row is an entry, there are at
        most ten choice fields, and the editing index is set exactly in edit mode. */
    predicate Valid()
      reads this
    {
      && listLabels == Labels(questions)
      && -1 <= selection < |questions|
      && |choiceFields| <= MaxChoices
      && (isEditMode <==> editingIndex >= 0)
      && editingIndex >= -1
    }

    /** The window as opened: an empty list, add mode, and as many empty choice
        fields as the configured default allows (at most ten). */
    constructor (defaultChoices: Int32)
      ensures Valid()
      ensures questions == [] && selection == -1 && questionText == "" && !isEditMode
      ensures choiceFields == FileUtils.Blanks(if defaultChoices <= 0 then 0
                                               else if defaultChoices >= MaxChoices then MaxChoices
                                               else defaultChoices)
    {
      questions := [];
      listLabels := [];
      selection := -1;
      questionText := "";
      isEditMode := false;
      editingIndex := -1;
      var fields: seq<string> := [];
      var i := 0;
      while i < defaultChoices
        invariant 0 <= i <= (if defaultChoices <= 0 then 0 else defaultChoices)
        invariant fields == FileUtils.Blanks(if i <= MaxChoices then i else MaxChoices)
      {
        if |fields| < MaxChoices {
          fields := fields + [""];
        }
        i := i + 1;
      }
      choiceFields := fields;
    }

    /** `addChoiceField`: one more empty field, refused once there are ten. */
    method AddChoiceField()
      requires Valid()
      modifies this`choiceFields
      ensures Valid()
      ensures choiceFields == if |old(choiceFields)| >= MaxChoices then old(choiceFields) else old(choiceFields) + [""]
    {
      if |choiceFields| >= MaxChoices {
        return;
      }
      choiceFields := choiceFields + [""];
    }

    /** The remove button of the k-th choice field. */
    method RemoveChoiceField(k: nat)
      requires Valid() && k < |choiceFields|
      modifies this`choiceFields
      ensures Valid()
      ensures choiceFields == old(choiceFields[..k] + choiceFields[k + 1..])
    {
      choiceFields := choiceFields[..k] + choiceFields[k + 1..];
    }

    /** The author types into the question text area. */
    method TypeQuestion(text: string)
      modifies this`questionText
      ensures questionText == text
    {
      questionText := text;
    }

    /** The author types into the k-th choice field. */
    method TypeChoice(k: nat, text: string)
      requires Valid() && k < |choiceFields|
      modifies this`choiceFields
      ensures Valid()
      ensures choiceFields == old(choiceFields)[k := text]
    {
      choiceFields := choiceFields[k := text];
    }

    /** A click on the list: row i selected, or -1 for none. */
    method SelectRow(i: int)
      requires Valid() && -1 <= i < |questions|
      modifies this`selection
      ensures Valid() && selection == i
    {
      selection := i;
    }

    /** `clearForm`: the text and every field emptied; the fields stay. */
    method ClearForm()
      requires Valid()
      modifies this`questionText, this`choiceFields
      ensures Valid()
      ensures questionText == "" && choiceFields == FileUtils.Blanks(|old(choiceFields)|)
    {
      questionText := "";
      var fields := choiceFields;
      var i := 0;
      while i < |fields|
        invariant i <= |fields| == |choiceFields|
        invariant forall k | 0 <= k < i :: fields[k] == ""
      {
        fields := fields[i := ""];
        i := i + 1;
      }
      choiceFields := fields;
    }

    /** `updateQuestionList`: the list rebuilt entry by entry. Clearing the list
        model clears its selection. */
    method UpdateQuestionList()
      modifies this`listLabels, this`selection
      ensures listLabels == Labels(questions) && selection == -1
    {
      var labels: seq<string> := [];
      var i := 0;
      while i < |questions|
        invariant i <= |questions|
        invariant |labels| == i
        invariant forall k | 0 <= k < i :: labels[k] == Label(k, questions[k].text)
      {
        labels := labels + [IntToString(i + 1) + ". " + Shown(questions[i].text)];
        i := i + 1;
      }
      listLabels := labels;
      selection := -1;
    }

    /** `addQuestion`: the form's question appended at the end and labelled, and the
        form cleared; refused, with nothing changed, when the form check fails. */
    method AddQuestion() returns (added: bool)
      requires Valid()
      modifies this`questions, this`listLabels, this`questionText, this`choiceFields
      ensures Valid()
      ensures added <==> Collected(old(questionText), old(choiceFields)).Some?
      ensures added ==> questions == old(questions) + [Collected(old(questionText), old(choiceFields)).value]
                        && questionText == "" && choiceFields == FileUtils.Blanks(|old(choiceFields)|)
      ensures !added ==> questions == old(questions) && questionText == old(questionText)
                         && choiceFields == old(choiceFields)
    {
      var text := Trim(questionText);
      if text == "" {
        return false;
      }
      var choices := CollectChoices(choiceFields);
      if |choices| < MinChoices {
        return false;
      }
      var q := QuestionData(Some(text), choices);
      LabelsSnoc(questions, q);
      questions := questions + [q];
      listLabels := listLabels + [IntToString(|questions|) + ". " + text];
      ClearForm();
      added := true;
    }

    /** `editQuestion`: an index that names no entry is ignored; otherwise edit mode
        on that entry, its text in the text area, its choices in fresh fields, and
        its row selected. */
    method EditQuestion(index: int)
      requires Valid()
      modifies this`isEditMode, this`editingIndex, this`questionText, this`choiceFields, this`selection
      ensures Valid()
      ensures !(0 <= index < |questions|) ==>
                isEditMode == old(isEditMode) && editingIndex == old(editingIndex)
                && questionText == old(questionText) && choiceFields == old(choiceFields)
                && selection == old(selection)
      ensures 0 <= index < |questions| ==>
                && isEditMode && editingIndex == index && selection == index
                && questionText == questions[index].text.GetOr("")
                && choiceFields == FilledFields(questions[index].choices)
    {
      if index < 0 || index >= |questions| {
        return;
      }
      isEditMode := true;
      editingIndex := index;
      var q := questions[index];
      questionText := q.text.GetOr("");
      choiceFields := FillFields(q.choices);
      selection := index;
    }

    /** `cancelEdit`: back to add mode with a cleared form and no selection. */
    method CancelEdit()
      requires Valid()
      modifies this`isEditMode, this`editingIndex, this`questionText, this`choiceFields, this`selection
      ensures Valid()
      ensures !isEditMode && editingIndex == -1 && selection == -1
      ensures questionText == "" && choiceFields == FileUtils.Blanks(|old(choiceFields)|)
    {
      isEditMode := false;
      editingIndex := -1;
      ClearForm();
      selection := -1;
    }

    /** `updateQuestion`, reached from the action button in edit mode: the entry being
        edited replaced by the form's question, the list rebuilt, and add mode
        restored. When the editing index no longer names an entry, `List.set`
        throws and the handler stops there. */
    method UpdateQuestion() returns (outcome: UpdateOutcome)
      requires Valid() && isEditMode
      modifies this`questions, this`listLabels, this`isEditMode, this`editingIndex, this`questionText,
               this`choiceFields, this`selection
      ensures Valid()
      ensures outcome == (if Collected(old(questionText), old(choiceFields)) == None then Refused
                          else if old(editingIndex) >= |old(questions)| then IndexOutOfBounds
                          else Updated)
      ensures outcome == Updated ==>
                && questions == old(questions)[old(editingIndex) := Collected(old(questionText), old(choiceFields)).value]
                && !isEditMode && editingIndex == -1 && selection == -1
                && questionText == "" && choiceFields == FileUtils.Blanks(|old(choiceFields)|)
      ensures outcome != Updated ==>
                questions == old(questions) && isEditMode && editingIndex == old(editingIndex)
                && questionText == old(questionText) && choiceFields == old(choiceFields)
                && selection == old(selection) && listLabels == old(listLabels)
    {
      var text := Trim(questionText);
      if text == "" {
        return Refused;
      }
      var choices := CollectChoices(choiceFields);
      if |choices| < MinChoices {
        return Refused;
      }
      if editingIndex >= |questions| {
        return IndexOutOfBounds;
      }
      questions := questions[editingIndex := QuestionData(Some(text), choices)];
      UpdateQuestionList();
      CancelEdit();
      outcome := Updated;
    }

    /** `moveQuestion(direction)`: the selected entry swapped with the one `direction`
        places away, and the selection following it; nothing happens with no
        selection or a target outside the list. */
    method MoveQuestion(direction: int)
      requires Valid()
      modifies this`questions, this`listLabels, this`selection
      ensures Valid()
      ensures var from := old(selection);
              var to := old(selection) + direction;
              if from < 0 || to < 0 || to >= |old(questions)|
              then questions == old(questions) && selection == old(selection)
              else questions == Swapped(old(questions), from, to) && selection == to
    {
      var selectedIndex := selection;
      if selectedIndex < 0 {
        return;
      }
      var newIndex := selectedIndex + direction;
      if newIndex < 0 || newIndex >= |questions| {
        return;
      }
      var temp := questions[selectedIndex];
      questions := questions[selectedIndex := questions[newIndex]];
      questions := questions[newIndex := temp];
      UpdateQuestionList();
      selection := newIndex;
    }

    /** `deleteQuestion`: with a row selected and the deletion confirmed, exactly that
        entry is removed and the list rebuilt; otherwise nothing happens. */
    method DeleteQuestion(confirmed: bool)
      requires Valid()
      modifies this`questions, this`listLabels, this`selection
      ensures Valid()
      ensures old(selection) >= 0 && confirmed ==>
                questions == old(questions[..selection] + questions[selection + 1..]) && selection == -1
      ensures !(old(selection) >= 0 && confirmed) ==> questions == old(questions) && selection == old(selection)
    {
      var selectedIndex := selection;
      if selectedIndex < 0 {
        return;
      }
      if confirmed {
        questions := questions[..selectedIndex] + questions[selectedIndex + 1..];
        UpdateQuestionList();
      }
    }

    /** `saveQuestions`: an empty list is refused and a cancelled dialog does
        nothing (no outcome); otherwise the list is written to the save path, as JSON
        (`doc` is its serialisation) when that ends in ".json" and as CSV otherwise. */
    method SaveQuestions(store: FileStore, chosen: Option<string>, doc: string) returns (saved: Option<bool>)
      requires Valid()
      modifies store`files
      ensures |questions| == 0 || chosen == None ==> saved == None && store.files == old(store.files)
      ensures |questions| > 0 && chosen.Some? ==>
                var path := SavePath(chosen.value);
                && saved == Some(path !in store.unwritable)
                && store.files == (if path in store.unwritable then old(store.files)
                                   else if EndsWith(path, ".json") then old(store.files)[path := doc]
                                   else old(store.files)[path := FileUtils.QuestionsCsv(questions)])
    {
      if |questions| == 0 {
        return None;
      }
      if chosen == None {
        return None;
      }
      var filepath := chosen.value;
      if !EndsWith(filepath, ".csv") && !EndsWith(filepath, ".json") {
        filepath := filepath + ".csv";
      }
      var success: bool;
      if EndsWith(filepath, ".json") {
        success := FileUtils.SaveJson(store, filepath, doc);
      } else {
        success := FileUtils.SaveQuestionsToCsv(store, questions, filepath);
      }
      saved := Some(success);
    }

    /** `loadQuestions`: with a file chosen, the list is replaced by what it holds,
        unless that is nothing; the edit mode is left as it is. */
    method LoadQuestions(store: FileStore, chosen: Option<string>, decodeJson: string -> seq<QuestionData>)
      returns (loaded: bool)
      requires Valid()
      modifies this`questions, this`listLabels, this`selection
      ensures Valid()
      ensures chosen == None ==> !loaded
      ensures chosen.Some? ==>
                var got := if chosen.value !in store.files then []
                           else if EndsWith(chosen.value, ".json") then decodeJson(store.files[chosen.value])
                           else FileUtils.QuestionsOfCsv(store.files[chosen.value]);
                loaded == (|got| > 0)
      ensures loaded ==> selection == -1
      ensures !loaded ==> questions == old(questions) && selection == old(selection)
      ensures loaded ==>
                questions == (if EndsWith(chosen.value, ".json") then decodeJson(store.files[chosen.value])
                              else FileUtils.QuestionsOfCsv(store.files[chosen.value]))
    {
      if chosen == None {
        return false;
      }
      var got := FileUtils.LoadQuestions(store, chosen.value, decodeJson);
      if |got| == 0 {
        return false;
      }
      questions := got;
      UpdateQuestionList();
      loaded := true;
    }
  }

  /** The list after the entries at i and j trade places. */
  function Swapped(qs: seq<QuestionData>, i: nat, j: nat): seq<QuestionData>
    requires i < |qs| && j < |qs|
  {
    qs[i := qs[j]][j := qs[i]]
  }

  /** A move is a permutation: the two entries trade places and every other entry
      stays where it was. */
  lemma SwappedIsPermutation(qs: seq<QuestionData>, i: nat, j: nat)
    requires i < |qs| && j < |qs|
    ensures multiset(Swapped(qs, i, j)) == multiset(qs)
    ensures |Swapped(qs, i, j)| == |qs|
    ensures Swapped(qs, i, j)[i] == qs[j] && Swapped(qs, i, j)[j] == qs[i]
    ensures forall k | 0 <= k < |qs| && k != i && k != j :: Swapped(qs, i, j)[k] == qs[k]
  {
    var r := qs[i := qs[j]];
    assert multiset(r) == multiset(qs) - multiset{qs[i]} + multiset{qs[j]};
    assert multiset(r[j := qs[i]]) == multiset(r) - multiset{r[j]} + multiset{qs[i]};
  }

  /** Moving an entry and moving it back restores the list. */
  lemma MoveBack(qs: seq<QuestionData>, i: nat, j: nat)
    requires i < |qs| && j < |qs|
    ensures Swapped(Swapped(qs, i, j), j, i) == qs
  {
  }
}
