/** The two records of the survey: a question with its list of choices, and one
    respondent's answer to one question. */
module Model {
  import opened Wrappers
  import opened Strings

  /** The value of a question: its text (null in Java until set) and its choices. */
  datatype QuestionData = QuestionData(text: Option<string>, choices: seq<string>)

  /** The value of a response record. */
  datatype ResponseData = ResponseData(
    respondentId: Option<string>,
    timestamp: Option<string>,
    questionNum: Int32,
    questionText: Option<string>,
    selectedChoice: Option<string>,
    reason: Option<string>)

  /** A mutable `ArrayList<String>` of choices, shared by reference. */
  class ChoiceList {
    var items: seq<string>

    constructor (items0: seq<string>)
      ensures items == items0
    {
      items := items0;
    }

    /** `add(c)`: appends at the end. */
    method Add(c: string)
      modifies this
      ensures items == old(items) + [c]
    {
      items := items + [c];
    }
  }

  class Question {
    var text: Option<string>
    var choices: ChoiceList

    /** `Question()`: no text and a new, empty choice list. */
    constructor ()
      ensures text == None && fresh(choices) && choices.items == []
    {
      text := None;
      choices := new ChoiceList([]);
    }

    /** `Question(text, choices)`: the text as given and a new list holding a copy of
        the given choices. */
    constructor WithChoices(text0: Option<string>, source: ChoiceList)
      ensures text == text0 && fresh(choices) && choices.items == source.items
    {
      text := text0;
      choices := new ChoiceList(source.items);
    }

    function Data(): QuestionData
      reads this, choices
    {
      QuestionData(text, choices.items)
    }

    /** `setText`. */
    method SetText(t: Option<string>)
      modifies this`text
      ensures text == t
    {
      text := t;
    }

    /** `getChoices()`: the internal list itself, not a copy. */
    method GetChoices() returns (list: ChoiceList)
      ensures list == choices
    {
      list := choices;
    }

    /** `setChoices(list)`: keeps the caller's list by reference. */
    method SetChoices(list: ChoiceList)
      modifies this`choices
      ensures choices == list
    {
      choices := list;
    }

    /** `addChoice(c)`: appends to the internal list; earlier choices are unchanged. */
    method AddChoice(c: string)
      modifies choices
      ensures choices.items == old(choices.items) + [c]
      ensures |choices.items| == |old(choices.items)| + 1
      ensures choices.items[..|old(choices.items)|] == old(choices.items)
    {
      choices.Add(c);
    }
  }

  /** The copying constructor detaches the question from the list it was built from:
      a later addition to that list leaves the question's choices as they were. */
  method CopiedChoicesAreIndependent(t: Option<string>, source: ChoiceList, c: string) returns (q: Question)
    modifies source
    ensures fresh(q) && q.choices != source
    ensures q.choices.items == old(source.items)
    ensures source.items == old(source.items) + [c]
  {
    q := new Question.WithChoices(t, source);
    source.Add(c);
  }

  /** After `setChoices(list)`, the question and the caller share one list: a choice
      added through the question shows up in the caller's list, and the list
      `getChoices` returns is that same list. */
  method SetChoicesAliases(q: Question, list: ChoiceList, c: string) returns (got: ChoiceList)
    modifies q`choices, list
    ensures got == list && q.choices == list
    ensures list.items == old(list.items) + [c]
  {
    q.SetChoices(list);
    q.AddChoice(c);
    got := q.GetChoices();
  }

  class Response {
    var respondentId: Option<string>
    var timestamp: Option<string>
    var questionNum: Int32
    var questionText: Option<string>
    var selectedChoice: Option<string>
    var reason: Option<string>

    /** `Response()`: every string null and the question number 0. */
    constructor ()
      ensures Data() == ResponseData(None, None, 0, None, None, None)
    {
      respondentId, timestamp, questionNum := None, None, 0;
      questionText, selectedChoice, reason := None, None, None;
    }

    /** The six-argument constructor: each argument lands in its own field, with no
        check on the question number. */
    constructor Of(respondentId0: Option<string>, timestamp0: Option<string>, questionNum0: Int32,
                   questionText0: Option<string>, selectedChoice0: Option<string>, reason0: Option<string>)
      ensures Data() == ResponseData(respondentId0, timestamp0, questionNum0, questionText0, selectedChoice0, reason0)
    {
      respondentId, timestamp, questionNum := respondentId0, timestamp0, questionNum0;
      questionText, selectedChoice, reason := questionText0, selectedChoice0, reason0;
    }

    /** The getters: each returns its field. */
    function Data(): ResponseData
      reads this
    {
      ResponseData(respondentId, timestamp, questionNum, questionText, selectedChoice, reason)
    }

    // Each setter may change its own field only.

    method SetRespondentId(v: Option<string>)
      modifies this`respondentId
      ensures Data() == old(Data()).(respondentId := v)
    {
      respondentId := v;
    }

    method SetTimestamp(v: Option<string>)
      modifies this`timestamp
      ensures Data() == old(Data()).(timestamp := v)
    {
      timestamp := v;
    }

    method SetQuestionNum(v: Int32)
      modifies this`questionNum
      ensures Data() == old(Data()).(questionNum := v)
    {
      questionNum := v;
    }

    method SetQuestionText(v: Option<string>)
      modifies this`questionText
      ensures Data() == old(Data()).(questionText := v)
    {
      questionText := v;
    }

    method SetSelectedChoice(v: Option<string>)
      modifies this`selectedChoice
      ensures Data() == old(Data()).(selectedChoice := v)
    {
      selectedChoice := v;
    }

    method SetReason(v: Option<string>)
      modifies this`reason
      ensures Data() == old(Data()).(reason := v)
    {
      reason := v;
    }
  }
}
