/** The action log of a survey session: a CSV file with a header line, to which
    every logged event appends one record `timestamp,actionType,details`. The
    clock is a parameter: each event is given its formatted timestamp. */
module ActionLogging {
  import opened Wrappers
  import opened Strings
  import opened Csv
  import opened FileSystem
  import opened Constants
  import FileUtils

  /** The column titles of the action log. */
  function LogColumns(): seq<string> {
    ["タイムスタンプ", "アクション種別", "詳細情報"]
  }

  /** The header line of the action log; unlike the question and response files,
      the log gets no byte order mark. */
  function LogHeader(): string {
    JoinComma(LogColumns())
  }

  lemma LogHeaderOneLine()
    ensures OneLine(LogHeader())
  {
    FileUtils.JoinCommaOneLine(LogColumns());
  }

  /** The logger's own `escapeCSV`: the quoting rule of the file utilities applied to
      a string it assumes is not null. */
  function LogEscape(text: string): (r: string)
    ensures r == Escape(Some(text))
    ensures !NeedsQuoting(text) ==> r == text
  {
    if ',' in text || '"' in text || '\n' in text then "\"" + ReplaceAll(text, "\"", "\"\"") + "\"" else text
  }

  /** One record: the timestamp and the action type as they are, the details
      escaped. */
  function LogLine(timestamp: string, actionType: string, details: string): string {
    timestamp + "," + actionType + "," + LogEscape(details)
  }

  /** A record parses back to its three parts, whatever the details hold, when the
      timestamp and the action type need no quoting. */
  lemma LogLineRoundTrip(timestamp: string, actionType: string, details: string)
    requires !NeedsQuoting(timestamp) && !NeedsQuoting(actionType)
    ensures ParseLine(LogLine(timestamp, actionType, details)) == [timestamp, actionType, details]
  {
    var fs := [timestamp, actionType, details];
    var es := QuoteAll(fs);
    assert es == [timestamp, actionType, LogEscape(details)];
    assert es[1..] == [actionType, LogEscape(details)];
    assert es[1..][1..] == [LogEscape(details)];
    assert JoinComma(es[1..]) == actionType + "," + LogEscape(details);
    assert JoinComma(es) == LogLine(timestamp, actionType, details);
    RoundTrip(fs);
  }

  /** A record is a single line when none of its parts holds a line break. */
  lemma LogLineOneLine(timestamp: string, actionType: string, details: string)
    requires OneLine(timestamp) && OneLine(actionType) && OneLine(details)
    ensures OneLine(LogLine(timestamp, actionType, details))
  {
    FileUtils.QuoteOneLine(details);
  }

  /** The action types need no quoting. */
  lemma ActionTypesPlain()
    ensures !NeedsQuoting(LogActionReasonStart) && !NeedsQuoting(LogActionReasonText)
    ensures !NeedsQuoting(LogActionReasonRewrite) && !NeedsQuoting(LogActionChoiceSelection)
    ensures !NeedsQuoting(LogActionQuestionMove) && !NeedsQuoting(LogActionSubmit)
  {
  }

  // ---- the event details ---------------------------------------------------------

  /** "問題" followed by the question number. */
  function QuestionLabel(questionNum: int): string {
    "問題" + IntToString(questionNum)
  }

  function ChoiceDetails(questionNum: int, choice: string): string {
    QuestionLabel(questionNum) + ": " + choice
  }

  /** The reason as logged: unchanged up to 100 characters, otherwise its first 100
      characters followed by "...". */
  function Preview(text: string): (r: string)
    ensures |r| <= LogTextPreviewLength + 3
    ensures |text| <= LogTextPreviewLength ==> r == text
    ensures |text| > LogTextPreviewLength ==>
              && |r| == LogTextPreviewLength + 3
              && r[..LogTextPreviewLength] == text[..LogTextPreviewLength]
              && r[LogTextPreviewLength..] == "..."
  {
    if |text| > LogTextPreviewLength then text[..LogTextPreviewLength] + "..." else text
  }

  function ReasonDetails(questionNum: int, text: string): string {
    QuestionLabel(questionNum) + ": " + Preview(text)
  }

  function MoveDetails(fromNum: int, toNum: int): string {
    QuestionLabel(fromNum) + " → 問題" + IntToString(toNum)
  }

  function SubmitDetails(): string {
    "完了"
  }

  /** The log file after a record is appended: one more line at the end, or no
      change when the file cannot be opened. */
  function AfterLog(files: map<string, string>, unwritable: set<string>, logFile: string, line: string): map<string, string> {
    if logFile in unwritable then files else files[logFile := ContentsOf(files, logFile) + (line + "\n")]
  }

  /** Appending a record to a log written line by line gives the log with one more
      line: the earlier lines are kept as they were. */
  lemma AppendKeepsLines(files: map<string, string>, unwritable: set<string>, logFile: string, lines: seq<string>, line: string)
    requires logFile !in unwritable && ContentsOf(files, logFile) == Lines(lines)
    ensures ContentsOf(AfterLog(files, unwritable, logFile, line), logFile) == Lines(lines + [line])
  {
    LinesSnoc(lines, line);
  }

  /** A log that was created by the logger and has had one-line records appended
      reads back as the header and those records. */
  lemma LogReadsBack(records: seq<string>)
    requires forall i | 0 <= i < |records| :: OneLine(records[i])
    ensures ReadLines(Lines([LogHeader()] + records)) == [LogHeader()] + records
  {
    LogHeaderOneLine();
    ConsOneLine(LogHeader(), records);
    ReadBack([LogHeader()] + records);
  }

  lemma ConsOneLine(h: string, records: seq<string>)
    requires OneLine(h) && forall i | 0 <= i < |records| :: OneLine(records[i])
    ensures forall i | 0 <= i < |[h] + records| :: OneLine(([h] + records)[i])
  {
  }

  /** The logger of one session, writing to `logFile` in `store`. */
  class ActionLogger {
    const logFile: string
    const store: FileStore

    /** `ActionLogger(logFile)` with `initializeLogFile`: a missing file is created
        holding the header line alone; an existing file is left as it is; a file
        that cannot be created is reported and left missing. */
    constructor (store0: FileStore, logFile0: string)
      modifies store0`files
      ensures logFile == logFile0 && store == store0
      ensures store0.files == if logFile0 in old(store0.files) || logFile0 in store0.unwritable
                              then old(store0.files)
                              else old(store0.files)[logFile0 := Lines([LogHeader()])]
    {
      logFile := logFile0;
      store := store0;
      new;
      if !store0.Exists(logFile0) {
        var ok := store0.Overwrite(logFile0, LogHeader() + "\n");
        assert Lines([LogHeader()]) == LogHeader() + "\n" + "";
        assert LogHeader() + "\n" + "" == LogHeader() + "\n";
      }
    }

    /** `logAction`: appends one record; a failure to open the file is reported and
        does not reach the caller. */
    method LogAction(timestamp: string, actionType: string, details: string)
      modifies store`files
      ensures store.files == AfterLog(old(store.files), store.unwritable, logFile, LogLine(timestamp, actionType, details))
    {
      var entry := timestamp + "," + actionType + "," + LogEscape(details);
      var ok := store.Append(logFile, entry + "\n");
    }

    method LogChoiceSelection(timestamp: string, questionNum: Int32, choice: string)
      modifies store`files
      ensures store.files == AfterLog(old(store.files), store.unwritable, logFile,
                                      LogLine(timestamp, LogActionChoiceSelection, ChoiceDetails(questionNum, choice)))
    {
      LogAction(timestamp, LogActionChoiceSelection, "問題" + IntToString(questionNum) + ": " + choice);
    }

    method LogReasonStart(timestamp: string, questionNum: Int32)
      modifies store`files
      ensures store.files == AfterLog(old(store.files), store.unwritable, logFile,
                                      LogLine(timestamp, LogActionReasonStart, QuestionLabel(questionNum)))
    {
      LogAction(timestamp, LogActionReasonStart, "問題" + IntToString(questionNum));
    }

    /** `logReasonText`: the reason is cut to its preview before it is logged. */
    method LogReasonText(timestamp: string, questionNum: Int32, reasonText: string)
      modifies store`files
      ensures store.files == AfterLog(old(store.files), store.unwritable, logFile,
                                      LogLine(timestamp, LogActionReasonText, ReasonDetails(questionNum, reasonText)))
    {
      var preview := reasonText;
      if |reasonText| > LogTextPreviewLength {
        preview := reasonText[..LogTextPreviewLength] + "...";
      }
      LogAction(timestamp, LogActionReasonText, "問題" + IntToString(questionNum) + ": " + preview);
    }

    method LogRewriteReason(timestamp: string, questionNum: Int32)
      modifies store`files
      ensures store.files == AfterLog(old(store.files), store.unwritable, logFile,
                                      LogLine(timestamp, LogActionReasonRewrite, QuestionLabel(questionNum)))
    {
      LogAction(timestamp, LogActionReasonRewrite, "問題" + IntToString(questionNum));
    }

    method LogNextQuestion(timestamp: string, fromNum: Int32, toNum: Int32)
      modifies store`files
      ensures store.files == AfterLog(old(store.files), store.unwritable, logFile,
                                      LogLine(timestamp, LogActionQuestionMove, MoveDetails(fromNum, toNum)))
    {
      LogAction(timestamp, LogActionQuestionMove, "問題" + IntToString(fromNum) + " → 問題" + IntToString(toNum));
    }

    method LogSubmit(timestamp: string)
      modifies store`files
      ensures store.files == AfterLog(old(store.files), store.unwritable, logFile,
                                      LogLine(timestamp, LogActionSubmit, SubmitDetails()))
    {
      LogAction(timestamp, LogActionSubmit, "完了");
    }
  }
}
