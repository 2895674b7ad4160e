/** The answering side of a survey session: one question at a time, a choice, then a
    reason; once the reason has been started the choice is locked until the
    respondent rewrites the reason. Advancing records a response, going back takes
    the last one away, and answering the last question submits the responses.
    The window's widgets are not modelled; the reason area's contents are a field,
    and the clock, the file chooser and the JSON serialiser are parameters. */
module Survey {
  import opened Wrappers
  import opened Strings
  import opened Constants
  import opened FileSystem
  import opened Model
  import opened ActionLogging
  import FileUtils
  import Configuration
  import ConfigManagement

  /** Where the respondent stands: the index of the question shown, the responses
      recorded so far, the choice made on the question shown, whether the reason
      has been started (the lock), and the reason area's text. */
  datatype Answering = Answering(index: nat, responses: seq<ResponseData>, selected: Option<string>,
                                 started: bool, text: string)

  /** The state `displayQuestion` leaves behind: no choice, no lock, no text. */
  function Unanswered(index: nat, responses: seq<ResponseData>): Answering {
    Answering(index, responses, None, false, "")
  }

  /** The response recorded for question `i`. */
  predicate AnswersQuestion(questions: seq<QuestionData>, respondentId: string, r: ResponseData, i: nat)
    requires i < |questions|
  {
    && r.respondentId == Some(respondentId)
    && r.questionNum == i + 1
    && r.questionText == questions[i].text
    && r.selectedChoice.Some? && r.selectedChoice.value in questions[i].choices
    && r.reason.Some? && r.reason.value != ""
  }

  /** What every handler keeps: one response per question before the one shown,
      the i-th answering question i + 1; a lock only on a chosen answer; and a
      choice only among the choices of the question shown. */
  predicate Answered(questions: seq<QuestionData>, respondentId: string, s: Answering) {
    && |questions| <= MaxInt32
    && s.index <= |questions|
    && |s.responses| == s.index
    && (forall i | 0 <= i < |s.responses| :: AnswersQuestion(questions, respondentId, s.responses[i], i))
    && (s.started ==> s.selected.Some?)
    && (s.index < |questions| && s.selected.Some? ==> s.selected.value in questions[s.index].choices)
  }

  // ---- the handlers on values --------------------------------------------------

  /** `selectChoice`: refused while the reason is started; otherwise the choice is
      taken and the reason area is cleared and unlocked. */
  function Selected(s: Answering, choice: string): Answering {
    if s.started then s else s.(selected := Some(choice), started := false, text := "")
  }

  /** The reason area receives `text` (it takes input only once a choice is made),
      and `onReasonKeyPress` sets the lock on the first non-empty contents. */
  function Edited(s: Answering, text: string): Answering {
    if s.selected == None then s else s.(text := text, started := s.started || |text| > 0)
  }

  /** `rewriteReason`: the text and the lock are cleared; the choice stays. */
  function Rewritten(s: Answering): Answering {
    s.(text := "", started := false)
  }

  /** `nextQuestion` accepts only a chosen answer with a reason that is not blank. */
  predicate CanAdvance(s: Answering) {
    s.selected.Some? && Trim(s.text) != ""
  }

  /** The response `nextQuestion` records for the question shown. */
  function AnswerOf(questions: seq<QuestionData>, respondentId: string, timestamp: string, s: Answering): ResponseData
    requires s.index < |questions| <= MaxInt32 && s.selected.Some?
  {
    ResponseData(Some(respondentId), Some(timestamp), s.index + 1, questions[s.index].text, s.selected,
                 Some(Trim(s.text)))
  }

  /** `nextQuestion`: an accepted answer is recorded and the next question is shown
      unanswered; after the last question the state stays as it is, because the
      survey is submitted and the window closed. */
  function Advanced(questions: seq<QuestionData>, respondentId: string, timestamp: string, s: Answering): Answering
    requires s.index < |questions| <= MaxInt32
  {
    if !CanAdvance(s) then s
    else
      var rs := s.responses + [AnswerOf(questions, respondentId, timestamp, s)];
      if s.index + 1 < |questions| then Unanswered(s.index + 1, rs)
      else s.(index := s.index + 1, responses := rs)
  }

  /** `prevQuestion`: nothing on the first question; otherwise the previous question
      is shown unanswered and the last response is dropped. */
  function Retreated(s: Answering): Answering {
    if s.index == 0 then s
    else Unanswered(s.index - 1, if |s.responses| > 0 then s.responses[..|s.responses| - 1] else s.responses)
  }

  // ---- events --------------------------------------------------------------------

  /** A respondent's action: pressing the k-th choice button, changing the reason
      area's text, pressing rewrite, next or previous. */
  datatype Action = Choose(k: nat) | Type(text: string) | Rewrite | Next | Back

  /** An action with the time at which it happened. */
  datatype Event = Event(timestamp: string, action: Action)

  /** One handler on the question shown. A choice button exists only for each of the
      question's choices, and the rewrite button is enabled only while the reason is
      started, so pressing it otherwise does nothing. */
  function Step(questions: seq<QuestionData>, respondentId: string, s: Answering, e: Event): (r: Answering)
    requires s.index < |questions| <= MaxInt32
    ensures r.index <= |questions|
  {
    match e.action
    case Choose(k) => if k < |questions[s.index].choices| then Selected(s, questions[s.index].choices[k]) else s
    case Type(text) => Edited(s, text)
    case Rewrite => if s.started then Rewritten(s) else s
    case Next => Advanced(questions, respondentId, e.timestamp, s)
    case Back => Retreated(s)
  }

  /** The log records one handler appends, before any submission. */
  function Logged(questions: seq<QuestionData>, respondentId: string, s: Answering, e: Event): seq<string>
    requires s.index < |questions| <= MaxInt32
  {
    var ts := e.timestamp;
    var num := s.index + 1;
    match e.action
    case Choose(k) =>
      if k < |questions[s.index].choices| && !s.started
      then [LogLine(ts, LogActionChoiceSelection, ChoiceDetails(num, questions[s.index].choices[k]))]
      else []
    case Type(text) =>
      if s.selected.Some? && !s.started && |text| > 0
      then [LogLine(ts, LogActionReasonStart, QuestionLabel(num))]
      else []
    case Rewrite => if s.started then [LogLine(ts, LogActionReasonRewrite, QuestionLabel(num))] else []
    case Next =>
      if !CanAdvance(s) then []
      else AnswerLines(ts, num, Trim(s.text), |questions|)
    case Back =>
      if s.index == 0 then [] else [LogLine(ts, LogActionQuestionMove, MoveDetails(num, s.index))]
  }

  /** The records of an accepted answer to question `num` of `total`: its reason,
      then the move to the next question unless it was the last. */
  function AnswerLines(ts: string, num: int, reason: string, total: int): seq<string> {
    [LogLine(ts, LogActionReasonText, ReasonDetails(num, reason))]
    + (if num < total then [LogLine(ts, LogActionQuestionMove, MoveDetails(num, num + 1))] else [])
  }

  /** The events of a session in order; once the last question is answered the
      window is closed and later events do not arrive. */
  function Run(questions: seq<QuestionData>, respondentId: string, s: Answering, es: seq<Event>): (r: Answering)
    requires s.index <= |questions| <= MaxInt32
    decreases |es|
  {
    if es == [] || s.index == |questions| then s
    else Run(questions, respondentId, Step(questions, respondentId, s, es[0]), es[1..])
  }

  /** The log records of a run of events. */
  function RunLog(questions: seq<QuestionData>, respondentId: string, s: Answering, es: seq<Event>): seq<string>
    requires s.index <= |questions| <= MaxInt32
    decreases |es|
  {
    if es == [] || s.index == |questions| then []
    else Logged(questions, respondentId, s, es[0])
         + RunLog(questions, respondentId, Step(questions, respondentId, s, es[0]), es[1..])
  }

  // ---- properties ------------------------------------------------------------------

  /** Every handler keeps the answering invariant. */
  lemma StepKeepsAnswered(questions: seq<QuestionData>, respondentId: string, s: Answering, e: Event)
    requires Answered(questions, respondentId, s) && s.index < |questions|
    ensures Answered(questions, respondentId, Step(questions, respondentId, s, e))
  {
    if e.action == Next && CanAdvance(s) {
      var a := AnswerOf(questions, respondentId, e.timestamp, s);
      var rs := s.responses + [a];
      assert AnswersQuestion(questions, respondentId, a, s.index);
      forall i | 0 <= i < |rs|
        ensures AnswersQuestion(questions, respondentId, rs[i], i)
      {
        if i < |s.responses| {
          assert rs[i] == s.responses[i];
        }
      }
    } else if e.action == Back && s.index > 0 {
      var rs := s.responses[..|s.responses| - 1];
      forall i | 0 <= i < |rs|
        ensures AnswersQuestion(questions, respondentId, rs[i], i)
      {
        assert rs[i] == s.responses[i];
      }
    }
  }

  /** A choice button: refused and not logged while the reason is started;
      otherwise its choice is taken with the reason cleared, and one choice record
      is logged. The invariant is kept. */
  lemma ChooseStep(questions: seq<QuestionData>, respondentId: string, s: Answering, ts: string, k: nat,
                   files: map<string, string>, unwritable: set<string>, logFile: string)
    requires Answered(questions, respondentId, s) && s.index < |questions| <= MaxInt32
    requires k < |questions[s.index].choices|
    ensures Step(questions, respondentId, s, Event(ts, Choose(k))) == Selected(s, questions[s.index].choices[k])
    ensures Answered(questions, respondentId, Selected(s, questions[s.index].choices[k]))
    ensures s.started ==>
      AfterLogs(files, unwritable, logFile, Logged(questions, respondentId, s, Event(ts, Choose(k)))) == files
    ensures !s.started ==>
      AfterLogs(files, unwritable, logFile, Logged(questions, respondentId, s, Event(ts, Choose(k)))) ==
      AfterLog(files, unwritable, logFile,
               LogLine(ts, LogActionChoiceSelection, ChoiceDetails(s.index + 1, questions[s.index].choices[k])))
  {
    var e := Event(ts, Choose(k));
    StepKeepsAnswered(questions, respondentId, s, e);
    var line := LogLine(ts, LogActionChoiceSelection, ChoiceDetails(s.index + 1, questions[s.index].choices[k]));
    if s.started {
      assert Logged(questions, respondentId, s, e) == [];
    } else {
      assert Logged(questions, respondentId, s, e) == [line];
      AfterLogsOne(files, unwritable, logFile, line);
    }
  }

  /** Typing in the reason area: ignored before a choice is made; otherwise the
      text is taken, and the first non-empty text sets the lock and logs one
      reason-start record. The invariant is kept. */
  lemma TypeStep(questions: seq<QuestionData>, respondentId: string, s: Answering, ts: string, text: string,
                 files: map<string, string>, unwritable: set<string>, logFile: string)
    requires Answered(questions, respondentId, s) && s.index < |questions| <= MaxInt32
    ensures Step(questions, respondentId, s, Event(ts, Type(text))) == Edited(s, text)
    ensures Answered(questions, respondentId, Edited(s, text))
    ensures !(s.selected.Some? && !s.started && |text| > 0) ==>
      AfterLogs(files, unwritable, logFile, Logged(questions, respondentId, s, Event(ts, Type(text)))) == files
    ensures s.selected.Some? && !s.started && |text| > 0 ==>
      AfterLogs(files, unwritable, logFile, Logged(questions, respondentId, s, Event(ts, Type(text)))) ==
      AfterLog(files, unwritable, logFile, LogLine(ts, LogActionReasonStart, QuestionLabel(s.index + 1)))
  {
    var e := Event(ts, Type(text));
    StepKeepsAnswered(questions, respondentId, s, e);
    var line := LogLine(ts, LogActionReasonStart, QuestionLabel(s.index + 1));
    if s.selected.Some? && !s.started && |text| > 0 {
      assert Logged(questions, respondentId, s, e) == [line];
      AfterLogsOne(files, unwritable, logFile, line);
    } else {
      assert Logged(questions, respondentId, s, e) == [];
    }
  }

  /** The "previous" handler: on the first question nothing happens and nothing is
      logged; otherwise the previous question is shown unanswered, the last
      response is dropped and one move record is logged. The invariant is kept. */
  lemma BackStep(questions: seq<QuestionData>, respondentId: string, s: Answering, ts: string,
                 files: map<string, string>, unwritable: set<string>, logFile: string)
    requires Answered(questions, respondentId, s) && s.index < |questions| <= MaxInt32
    ensures Step(questions, respondentId, s, Event(ts, Back)) == Retreated(s)
    ensures Answered(questions, respondentId, Retreated(s))
    ensures s.index == 0 ==>
      AfterLogs(files, unwritable, logFile, Logged(questions, respondentId, s, Event(ts, Back))) == files
    ensures s.index > 0 ==>
      AfterLogs(files, unwritable, logFile, Logged(questions, respondentId, s, Event(ts, Back))) ==
      AfterLog(files, unwritable, logFile, LogLine(ts, LogActionQuestionMove, MoveDetails(s.index + 1, s.index)))
  {
    var e := Event(ts, Back);
    assert Step(questions, respondentId, s, e) == Retreated(s);
    StepKeepsAnswered(questions, respondentId, s, e);
    var line := LogLine(ts, LogActionQuestionMove, MoveDetails(s.index + 1, s.index));
    if s.index == 0 {
      assert Logged(questions, respondentId, s, e) == [];
    } else {
      assert Logged(questions, respondentId, s, e) == [line];
      AfterLogsOne(files, unwritable, logFile, line);
    }
  }

  /** Any run of events keeps the answering invariant. */
  lemma {:induction false} RunKeepsAnswered(questions: seq<QuestionData>, respondentId: string, s: Answering,
                                             es: seq<Event>)
    requires Answered(questions, respondentId, s)
    ensures Answered(questions, respondentId, Run(questions, respondentId, s, es))
    decreases |es|
  {
    if es != [] && s.index < |questions| {
      StepKeepsAnswered(questions, respondentId, s, es[0]);
      RunKeepsAnswered(questions, respondentId, Step(questions, respondentId, s, es[0]), es[1..]);
    }
  }

  /** A session that starts on the first question and reaches the end holds exactly
      one response per question, in question order, each naming its question's
      text and one of its choices. */
  lemma CompletedSession(questions: seq<QuestionData>, respondentId: string, es: seq<Event>)
    requires 0 < |questions| <= MaxInt32
    ensures var f := Run(questions, respondentId, Unanswered(0, []), es);
      f.index == |questions| ==>
        && |f.responses| == |questions|
        && forall i | 0 <= i < |questions| ::
             && f.responses[i].questionNum == i + 1
             && f.responses[i].questionText == questions[i].text
             && f.responses[i].selectedChoice.Some?
             && f.responses[i].selectedChoice.value in questions[i].choices
  {
    RunKeepsAnswered(questions, respondentId, Unanswered(0, []), es);
    var f := Run(questions, respondentId, Unanswered(0, []), es);
    if f.index == |questions| {
      forall i | 0 <= i < |questions|
        ensures f.responses[i].questionNum == i + 1 && f.responses[i].questionText == questions[i].text
        ensures f.responses[i].selectedChoice.Some? && f.responses[i].selectedChoice.value in questions[i].choices
      {
        assert AnswersQuestion(questions, respondentId, f.responses[i], i);
      }
    }
  }

  /** Pressing choice buttons and typing: the events that reach a locked question. */
  predicate ChoosingOrTyping(es: seq<Event>) {
    forall j | 0 <= j < |es| :: es[j].action.Choose? || es[j].action.Type?
  }

  /** Once the reason is started, no choice button and no further typing, even back
      to an empty text, changes the choice or releases the lock, and none of them
      is logged. */
  lemma {:induction false} LockedUntilRewrite(questions: seq<QuestionData>, respondentId: string, s: Answering,
                                               es: seq<Event>)
    requires s.index < |questions| <= MaxInt32 && s.started && s.selected.Some?
    requires ChoosingOrTyping(es)
    ensures Run(questions, respondentId, s, es).selected == s.selected
    ensures Run(questions, respondentId, s, es).started
    ensures Run(questions, respondentId, s, es).responses == s.responses
    ensures RunLog(questions, respondentId, s, es) == []
    decreases |es|
  {
    if es != [] {
      var t := Step(questions, respondentId, s, es[0]);
      assert es[0].action.Choose? || es[0].action.Type?;
      assert t.index == s.index && t.selected == s.selected && t.started && t.responses == s.responses;
      assert Logged(questions, respondentId, s, es[0]) == [];
      assert ChoosingOrTyping(es[1..]) by {
        forall j | 0 <= j < |es[1..]| ensures es[1..][j].action.Choose? || es[1..][j].action.Type? {
          assert es[1..][j] == es[j + 1];
        }
      }
      LockedUntilRewrite(questions, respondentId, t, es[1..]);
    }
  }

  /** The rewrite button is the way out of the lock: it keeps the question and the
      choice, leaves the reason unlocked (cleared when it was started, as it was
      otherwise), and a choice button then changes the choice again. It is logged
      exactly when the reason was started. */
  lemma RewriteReleasesLock(questions: seq<QuestionData>, respondentId: string, s: Answering, ts: string, k: nat)
    requires s.index < |questions| <= MaxInt32 && k < |questions[s.index].choices|
    ensures var t := Step(questions, respondentId, s, Event(ts, Rewrite));
            && t.index == s.index && t.responses == s.responses && t.selected == s.selected && !t.started
            && (if s.started then t.text == "" else t == s)
            && Step(questions, respondentId, t, Event(ts, Choose(k))).selected == Some(questions[s.index].choices[k])
    ensures |Logged(questions, respondentId, s, Event(ts, Rewrite))| == (if s.started then 1 else 0)
  {
  }

  /** Going back from the question after an accepted answer returns to that question
      unanswered, with the responses recorded before it. */
  lemma BackUndoesNext(questions: seq<QuestionData>, respondentId: string, timestamp: string, s: Answering)
    requires Answered(questions, respondentId, s) && s.index + 1 < |questions| && CanAdvance(s)
    ensures Retreated(Advanced(questions, respondentId, timestamp, s)) == Unanswered(s.index, s.responses)
  {
    var rs := s.responses + [AnswerOf(questions, respondentId, timestamp, s)];
    assert rs[..|rs| - 1] == s.responses;
  }

  /** A refused `nextQuestion` changes nothing and logs nothing. */
  lemma RefusedNext(questions: seq<QuestionData>, respondentId: string, timestamp: string, s: Answering)
    requires s.index < |questions| <= MaxInt32 && !CanAdvance(s)
    ensures Step(questions, respondentId, s, Event(timestamp, Next)) == s
    ensures Logged(questions, respondentId, s, Event(timestamp, Next)) == []
  {
  }

  // ---- the log and the files -------------------------------------------------------

  /** The files after the records `lines` are appended one by one. */
  function AfterLogs(files: map<string, string>, unwritable: set<string>, logFile: string, lines: seq<string>)
    : map<string, string>
    decreases |lines|
  {
    if lines == [] then files
    else AfterLogs(AfterLog(files, unwritable, logFile, lines[0]), unwritable, logFile, lines[1..])
  }

  lemma AfterLogsOne(files: map<string, string>, unwritable: set<string>, logFile: string, a: string)
    ensures AfterLogs(files, unwritable, logFile, [a]) == AfterLog(files, unwritable, logFile, a)
  {
    assert [a][1..] == [];
  }

  lemma AfterLogsTwo(files: map<string, string>, unwritable: set<string>, logFile: string, a: string, b: string)
    ensures AfterLogs(files, unwritable, logFile, [a, b])
            == AfterLog(AfterLog(files, unwritable, logFile, a), unwritable, logFile, b)
  {
    assert [a, b][1..] == [b];
    AfterLogsOne(AfterLog(files, unwritable, logFile, a), unwritable, logFile, b);
  }

  /** The records of an accepted answer land one after the other: the reason, then
      the move when another question follows. */
  lemma AnswerLinesLogged(files: map<string, string>, unwritable: set<string>, logFile: string,
                          ts: string, num: int, reason: string, total: int)
    ensures var afterReason := AfterLog(files, unwritable, logFile, LogLine(ts, LogActionReasonText, ReasonDetails(num, reason)));
            AfterLogs(files, unwritable, logFile, AnswerLines(ts, num, reason, total)) ==
            if num < total
            then AfterLog(afterReason, unwritable, logFile, LogLine(ts, LogActionQuestionMove, MoveDetails(num, num + 1)))
            else afterReason
  {
    var first := LogLine(ts, LogActionReasonText, ReasonDetails(num, reason));
    if num < total {
      var second := LogLine(ts, LogActionQuestionMove, MoveDetails(num, num + 1));
      assert AnswerLines(ts, num, reason, total) == [first, second];
      AfterLogsTwo(files, unwritable, logFile, first, second);
    } else {
      assert AnswerLines(ts, num, reason, total) == [first];
      AfterLogsOne(files, unwritable, logFile, first);
    }
  }

  /** A log written line by line stays so: the records land after the earlier lines,
      in order. */
  lemma {:induction false} AfterLogsLines(files: map<string, string>, unwritable: set<string>, logFile: string,
                                          earlier: seq<string>, lines: seq<string>)
    requires logFile !in unwritable && ContentsOf(files, logFile) == Lines(earlier)
    ensures ContentsOf(AfterLogs(files, unwritable, logFile, lines), logFile) == Lines(earlier + lines)
    decreases |lines|
  {
    if lines == [] {
      assert earlier + lines == earlier;
    } else {
      AppendKeepsLines(files, unwritable, logFile, earlier, lines[0]);
      AfterLogsLines(AfterLog(files, unwritable, logFile, lines[0]), unwritable, logFile, earlier + [lines[0]], lines[1..]);
      assert earlier + [lines[0]] + lines[1..] == earlier + lines;
    }
  }

  /** The response path with every ".csv" and then every ".json" taken out. */
  function BasePath(path: string): string {
    ReplaceAll(ReplaceAll(path, ".csv", ""), ".json", "")
  }

  /** Taking ".csv" out of ".json" leaves it as it is. */
  lemma JsonHasNoCsv()
    ensures ReplaceAll(".json", ".csv", "") == ".json"
  {
    assert ".json"[..4][1] == 'j' != ".csv"[1];
    assert ".json"[1..] == "json";
    assert "json"[0] == 'j' != ".csv"[0];
    assert "json"[1..] == "son";
    assert ReplaceAll("son", ".csv", "") == "son";
    assert ReplaceAll("json", ".csv", "") == "j" + "son";
  }

  /** For a file name with no other dot, the survey writes its CSV file to the very
      path the settings gave, and the JSON file next to it. */
  lemma BasePathTargets(stem: string, ext: string)
    requires '.' !in stem && (ext == ".csv" || ext == ".json")
    ensures BasePath(stem + ext) == stem
    ensures FileUtils.CsvPath(BasePath(stem + ext)) == stem + ".csv"
    ensures FileUtils.JsonPath(BasePath(stem + ext)) == stem + ".json"
  {
    ReplaceAllKeepsPrefix(stem, ext, ".csv", "");
    ReplaceAllKeepsPrefix(stem, "", ".csv", "");
    ReplaceAllKeepsPrefix(stem, ext, ".json", "");
    ReplaceAllKeepsPrefix(stem, "", ".json", "");
    assert stem + "" == stem;
    if ext == ".csv" {
      assert ReplaceAll(ext, ".csv", "") == "" + ReplaceAll("", ".csv", "");
      assert ReplaceAll(stem + ext, ".csv", "") == stem;
    } else {
      JsonHasNoCsv();
      assert ReplaceAll(ext, ".json", "") == "" + ReplaceAll("", ".json", "");
    }
    assert ReplaceAll(stem, ".csv", "") == stem;
    assert ReplaceAll(stem, ".json", "") == stem;
    if |stem| >= 4 {
      assert stem[|stem| - 4..][0] == stem[|stem| - 4] != '.';
    }
    if |stem| >= 5 {
      assert stem[|stem| - 5..][0] == stem[|stem| - 5] != '.';
    }
    FirstCharAbsent(stem, ".csv");
    ReplaceAllAbsent(stem, ".csv", ".json");
  }

  /** Where `submitSurvey` saves: the configured response path, or else the path the
      respondent chose in the save dialog (none when the dialog is cancelled). */
  function SubmitTarget(r: ConfigManagement.PathResult, chosen: Option<string>): Option<string> {
    match r
    case PathTo(p) => Some(p)
    case NoPath => chosen
    case IllegalArgument => None
  }

  /** The files after `submitSurvey`: the submit record, then the responses saved
      under the base path in the configured format. */
  function SubmittedFiles(files: map<string, string>, unwritable: set<string>, logFile: string, timestamp: string,
                          target: Option<string>, rs: seq<ResponseData>, format: Option<string>, doc: string)
    : map<string, string>
  {
    var logged := AfterLog(files, unwritable, logFile, LogLine(timestamp, LogActionSubmit, SubmitDetails()));
    if target == None then logged
    else FileUtils.AfterSaveResponse(logged, unwritable, rs, BasePath(target.value), format, doc)
  }

  /** What `submitSurvey` reports: nothing when there is no path, otherwise whether
      every write of `saveResponse` could open its file. */
  function SubmitOutcome(unwritable: set<string>, target: Option<string>, format: Option<string>): Option<bool> {
    if target == None then None
    else Some(FileUtils.SaveSucceeds(unwritable, BasePath(target.value), format))
  }

  /** The answering part of `SurveyInterfaceWindow`, from the first question shown
      to the submission. The log and the response files share `logger.store`. */
  class SurveySession {
    const questions: seq<QuestionData>
    const respondentId: string
    const logger: ActionLogger
    const manager: ConfigManagement.ConfigManager
    var currentQuestionIndex: nat
    var responses: seq<ResponseData>
    var selectedChoice: Option<string>
    var reasonStarted: bool
    var reasonText: string
    var disposed: bool

    function State(): Answering
      reads this
    {
      Answering(currentQuestionIndex, responses, selectedChoice, reasonStarted, reasonText)
    }

    /** The invariant, and the window is closed exactly when every question is
        answered. */
    predicate Valid()
      reads this
    {
      Answered(questions, respondentId, State()) && (disposed <==> currentQuestionIndex == |questions|)
    }

    /** The window after a non-empty question list is loaded: the first question is
        shown unanswered. */
    constructor (questions0: seq<QuestionData>, respondentId0: string, logger0: ActionLogger,
                 manager0: ConfigManagement.ConfigManager)
      requires 0 < |questions0| <= MaxInt32
      ensures questions == questions0 && respondentId == respondentId0 && logger == logger0 && manager == manager0
      ensures State() == Unanswered(0, []) && !disposed
      ensures Valid()
    {
      questions := questions0;
      respondentId := respondentId0;
      logger := logger0;
      manager := manager0;
      currentQuestionIndex := 0;
      responses := [];
      selectedChoice := None;
      reasonStarted := false;
      reasonText := "";
      disposed := false;
    }

    /** The reset part of `displayQuestion`. */
    method ResetQuestion()
      modifies this`selectedChoice, this`reasonStarted, this`reasonText
      ensures State() == Unanswered(currentQuestionIndex, responses)
    {
      selectedChoice := None;
      reasonStarted := false;
      reasonText := "";
    }

    /** `resetReasonInput`. */
    method ResetReasonInput()
      modifies this`reasonStarted, this`reasonText
      ensures State() == old(State()).(text := "", started := false)
    {
      reasonText := "";
      reasonStarted := false;
    }

    /** `selectChoice` for the k-th choice button of the question shown. */
    method SelectChoice(timestamp: string, k: nat)
      requires Valid() && !disposed && k < |questions[currentQuestionIndex].choices|
      modifies this`selectedChoice, this`reasonStarted, this`reasonText, logger.store`files
      ensures State() == Step(questions, respondentId, old(State()), Event(timestamp, Choose(k)))
      ensures logger.store.files == AfterLogs(old(logger.store.files), logger.store.unwritable, logger.logFile,
                                              Logged(questions, respondentId, old(State()), Event(timestamp, Choose(k))))
      ensures Valid()
    {
      ghost var s := State();
      ChooseStep(questions, respondentId, s, timestamp, k, logger.store.files, logger.store.unwritable, logger.logFile);
      if reasonStarted {
        return;
      }
      var choice := questions[currentQuestionIndex].choices[k];
      selectedChoice := Some(choice);
      logger.LogChoiceSelection(timestamp, currentQuestionIndex + 1, choice);
      ResetReasonInput();
    }

    /** `onReasonKeyPress`: the first non-empty text sets the lock and is logged. */
    method OnReasonKeyPress(timestamp: string)
      requires currentQuestionIndex < |questions| <= MaxInt32
      modifies this`reasonStarted, logger.store`files
      ensures reasonStarted == (old(reasonStarted) || |reasonText| > 0)
      ensures logger.store.files ==
              if !old(reasonStarted) && |reasonText| > 0
              then AfterLog(old(logger.store.files), logger.store.unwritable, logger.logFile,
                            LogLine(timestamp, LogActionReasonStart, QuestionLabel(currentQuestionIndex + 1)))
              else old(logger.store.files)
    {
      if !reasonStarted && |reasonText| > 0 {
        reasonStarted := true;
        logger.LogReasonStart(timestamp, currentQuestionIndex + 1);
      }
    }

    /** The reason area's text becomes `text`; a disabled area (no choice made yet)
        takes no input. */
    method EditReason(timestamp: string, text: string)
      requires Valid() && !disposed
      modifies this`reasonText, this`reasonStarted, logger.store`files
      ensures State() == Step(questions, respondentId, old(State()), Event(timestamp, Type(text)))
      ensures logger.store.files == AfterLogs(old(logger.store.files), logger.store.unwritable, logger.logFile,
                                              Logged(questions, respondentId, old(State()), Event(timestamp, Type(text))))
      ensures Valid()
    {
      ghost var s := State();
      TypeStep(questions, respondentId, s, timestamp, text, logger.store.files, logger.store.unwritable, logger.logFile);
      if selectedChoice == None {
        return;
      }
      reasonText := text;
      OnReasonKeyPress(timestamp);
    }

    /** `rewriteReason`, run by the rewrite button, which is enabled only while the
        reason is started. */
    method RewriteReason(timestamp: string)
      requires Valid() && !disposed && reasonStarted
      modifies this`reasonText, this`reasonStarted, logger.store`files
      ensures State() == Step(questions, respondentId, old(State()), Event(timestamp, Rewrite))
      ensures logger.store.files == AfterLogs(old(logger.store.files), logger.store.unwritable, logger.logFile,
                                              Logged(questions, respondentId, old(State()), Event(timestamp, Rewrite)))
      ensures Valid()
    {
      ghost var s := State();
      logger.LogRewriteReason(timestamp, currentQuestionIndex + 1);
      reasonText := "";
      reasonStarted := false;
      StepKeepsAnswered(questions, respondentId, s, Event(timestamp, Rewrite));
    }

    /** `prevQuestion`. */
    method PrevQuestion(timestamp: string)
      requires Valid() && !disposed
      modifies this`currentQuestionIndex, this`responses, this`selectedChoice, this`reasonStarted,
               this`reasonText, logger.store`files
      ensures State() == Step(questions, respondentId, old(State()), Event(timestamp, Back))
      ensures logger.store.files == AfterLogs(old(logger.store.files), logger.store.unwritable, logger.logFile,
                                              Logged(questions, respondentId, old(State()), Event(timestamp, Back)))
      ensures Valid() && !disposed
    {
      ghost var s := State();
      ghost var files0 := logger.store.files;
      BackStep(questions, respondentId, s, timestamp, files0, logger.store.unwritable, logger.logFile);
      if currentQuestionIndex > 0 {
        var oldIndex := currentQuestionIndex;
        currentQuestionIndex := currentQuestionIndex - 1;
        logger.LogNextQuestion(timestamp, oldIndex + 1, currentQuestionIndex + 1);
        if |responses| > 0 {
          responses := responses[..|responses| - 1];
        }
        ResetQuestion();
      }
    }

    /** `nextQuestion` up to `displayQuestion`: refused without a choice (checked
        first) or with a blank reason; otherwise the trimmed reason is logged, the
        response recorded, the index advanced and, unless that was the last
        question, the move logged. */
    method RecordAnswer(timestamp: string) returns (accepted: bool)
      requires Valid() && !disposed
      modifies this`currentQuestionIndex, this`responses, logger.store`files
      ensures accepted == CanAdvance(old(State()))
      ensures logger.store.files == AfterLogs(old(logger.store.files), logger.store.unwritable, logger.logFile,
                                              Logged(questions, respondentId, old(State()), Event(timestamp, Next)))
      ensures !accepted ==> State() == old(State())
      ensures accepted ==> State() == old(State()).(index := old(currentQuestionIndex) + 1,
                                                    responses := old(responses) + [AnswerOf(questions, respondentId, timestamp, old(State()))])
    {
      ghost var s := State();
      ghost var files0 := logger.store.files;
      ghost var lines := Logged(questions, respondentId, s, Event(timestamp, Next));
      accepted := false;
      if selectedChoice == None {
        assert lines == [];
        return;
      }
      var reason := Trim(reasonText);
      if reason == "" {
        assert lines == [];
        return;
      }
      var num := currentQuestionIndex + 1;
      var response := ResponseData(Some(respondentId), Some(timestamp), num,
                                   questions[currentQuestionIndex].text, selectedChoice, Some(reason));
      assert response == AnswerOf(questions, respondentId, timestamp, s);
      LogAnswer(timestamp, num, reason);
      responses := responses + [response];
      currentQuestionIndex := currentQuestionIndex + 1;
      accepted := true;
    }

    /** The records `nextQuestion` writes for an accepted answer to question `num`:
        the reason, and the move when another question follows. */
    method LogAnswer(timestamp: string, num: Int32, reason: string)
      requires |questions| <= MaxInt32
      modifies logger.store`files
      ensures logger.store.files == AfterLogs(old(logger.store.files), logger.store.unwritable, logger.logFile,
                                              AnswerLines(timestamp, num, reason, |questions|))
    {
      AnswerLinesLogged(logger.store.files, logger.store.unwritable, logger.logFile, timestamp, num, reason, |questions|);
      logger.LogReasonText(timestamp, num, reason);
      if num < |questions| {
        logger.LogNextQuestion(timestamp, num, num + 1);
      }
    }

    /** `displayQuestion`: past the last question the survey is submitted; otherwise
        the question is shown unanswered. */
    method DisplayQuestion(timestamp: string, now: ConfigManagement.Clock, chosen: Option<string>, doc: string)
      returns (saved: Option<bool>)
      requires currentQuestionIndex <= |questions| && !disposed
      modifies this`selectedChoice, this`reasonStarted, this`reasonText, this`disposed, logger.store`files
      modifies manager`file, manager`saves, manager.config`logSequence, manager.config`responseSequence
      ensures currentQuestionIndex < |questions| ==>
                && State() == Unanswered(currentQuestionIndex, responses)
                && !disposed && saved == None
                && logger.store.files == old(logger.store.files)
                && manager.config.Data() == old(manager.config.Data())
                && manager.file == old(manager.file) && manager.saves == old(manager.saves)
      ensures currentQuestionIndex == |questions| ==>
                var (r, d) := ConfigManagement.ResponsePathOf(now, Some(respondentId), old(manager.config.Data()));
                var draws := ConfigManagement.ResponseDraws(now, Some(respondentId), old(manager.config.Data()));
                && State() == old(State()) && disposed
                && manager.config.Data() == d
                && manager.saves == old(manager.saves) + (if draws then 1 else 0)
                && manager.file == (if draws && manager.writable
                                    then ConfigManagement.Parsed(ConfigManagement.WithoutNulls(Configuration.ToMapOf(d)))
                                    else old(manager.file))
                && logger.store.files == SubmittedFiles(old(logger.store.files), logger.store.unwritable, logger.logFile,
                                                        timestamp, SubmitTarget(r, chosen), responses, d.outputFormat, doc)
                && saved == SubmitOutcome(logger.store.unwritable, SubmitTarget(r, chosen), d.outputFormat)
    {
      if currentQuestionIndex >= |questions| {
        saved := Submit(timestamp, now, chosen, doc);
        return;
      }
      saved := None;
      ResetQuestion();
    }

    /** `nextQuestion`, and `displayQuestion` after an accepted answer: the next
        question shown unanswered, or, after the last one, the submission. `now` and
        `chosen` are the clock and the save dialog's outcome the submission may
        need, and `doc` the JSON serialisation of the responses. The result is the
        outcome of `saveResponse`, none when nothing was saved. */
    method NextQuestion(timestamp: string, now: ConfigManagement.Clock, chosen: Option<string>, doc: string)
      returns (saved: Option<bool>)
      requires Valid() && !disposed
      modifies this`currentQuestionIndex, this`responses, this`selectedChoice, this`reasonStarted,
               this`reasonText, this`disposed, logger.store`files
      modifies manager`file, manager`saves, manager.config`logSequence, manager.config`responseSequence
      ensures State() == Step(questions, respondentId, old(State()), Event(timestamp, Next))
      ensures Valid()
      ensures !disposed ==>
                && logger.store.files == AfterLogs(old(logger.store.files), logger.store.unwritable, logger.logFile,
                                                   Logged(questions, respondentId, old(State()), Event(timestamp, Next)))
                && manager.config.Data() == old(manager.config.Data())
                && manager.file == old(manager.file) && manager.saves == old(manager.saves)
                && saved == None
      ensures disposed ==>
                var (r, d) := ConfigManagement.ResponsePathOf(now, Some(respondentId), old(manager.config.Data()));
                var draws := ConfigManagement.ResponseDraws(now, Some(respondentId), old(manager.config.Data()));
                && manager.config.Data() == d
                && manager.saves == old(manager.saves) + (if draws then 1 else 0)
                && manager.file == (if draws && manager.writable
                                    then ConfigManagement.Parsed(ConfigManagement.WithoutNulls(Configuration.ToMapOf(d)))
                                    else old(manager.file))
                && logger.store.files ==
                   SubmittedFiles(AfterLogs(old(logger.store.files), logger.store.unwritable, logger.logFile,
                                            Logged(questions, respondentId, old(State()), Event(timestamp, Next))),
                                  logger.store.unwritable, logger.logFile, timestamp, SubmitTarget(r, chosen),
                                  responses, d.outputFormat, doc)
                && saved == SubmitOutcome(logger.store.unwritable, SubmitTarget(r, chosen), d.outputFormat)
    {
      ghost var s := State();
      StepKeepsAnswered(questions, respondentId, s, Event(timestamp, Next));
      var accepted := RecordAnswer(timestamp);
      saved := None;
      if accepted {
        saved := DisplayQuestion(timestamp, now, chosen, doc);
      }
    }

    /** `submitSurvey`: logs the submission, resolves the response path (drawing a
        sequence number when its template asks for one), falls back to the save
        dialog when the settings give no path, and saves the responses under that
        path with ".csv" and ".json" taken out. The window is closed either way. */
    method Submit(timestamp: string, now: ConfigManagement.Clock, chosen: Option<string>, doc: string)
      returns (saved: Option<bool>)
      requires !disposed
      modifies this`disposed, logger.store`files
      modifies manager`file, manager`saves, manager.config`logSequence, manager.config`responseSequence
      ensures disposed
      ensures var (r, d) := ConfigManagement.ResponsePathOf(now, Some(respondentId), old(manager.config.Data()));
              var draws := ConfigManagement.ResponseDraws(now, Some(respondentId), old(manager.config.Data()));
              && manager.config.Data() == d
              && manager.saves == old(manager.saves) + (if draws then 1 else 0)
              && manager.file == (if draws && manager.writable
                                  then ConfigManagement.Parsed(ConfigManagement.WithoutNulls(Configuration.ToMapOf(d)))
                                  else old(manager.file))
              && logger.store.files == SubmittedFiles(old(logger.store.files), logger.store.unwritable, logger.logFile,
                                                      timestamp, SubmitTarget(r, chosen), responses, d.outputFormat, doc)
              && saved == SubmitOutcome(logger.store.unwritable, SubmitTarget(r, chosen), d.outputFormat)
    {
      logger.LogSubmit(timestamp);
      var r := manager.GetResponsePath(now, Some(respondentId));
      var filepath := match r case PathTo(p) => Some(p) case NoPath => chosen case IllegalArgument => None;
      saved := None;
      if filepath != None {
        var format := manager.config.outputFormat;
        var baseFilepath := ReplaceAll(ReplaceAll(filepath.value, ".csv", ""), ".json", "");
        var ok := FileUtils.SaveResponse(logger.store, responses, baseFilepath, format, doc);
        saved := Some(ok);
      }
      disposed := true;
    }
  }
}
