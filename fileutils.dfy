/** The question and response files: question lists saved to and loaded from CSV,
    responses appended to a CSV file that gets its header only when new, and the
    choice between CSV and JSON by format name or file suffix. JSON documents come
    from a serialiser outside the core and are passed in as text. */
module FileUtils {
  import opened Wrappers
  import opened Strings
  import opened Csv
  import opened FileSystem
  import opened Model

  /** The byte order mark written at the start of a new CSV file. */
  const Bom: char := '\U{FEFF}'

  /** Rows are padded with empty fields up to this many choice columns. */
  const MaxChoiceColumns: nat := 5

  /** The column titles of the question file. */
  function QuestionColumns(): seq<string> {
    ["問題番号", "質問文", "選択肢1", "選択肢2", "選択肢3", "選択肢4", "選択肢5"]
  }

  /** The column titles of the response file. */
  function ResponseColumns(): seq<string> {
    ["回答者ID", "タイムスタンプ", "問題番号", "質問文", "選択した回答", "理由"]
  }

  /** The header line of the question file: its titles separated by commas. */
  function QuestionHeader(): string {
    JoinComma(QuestionColumns())
  }

  /** The header line of the response file. */
  function ResponseHeader(): string {
    JoinComma(ResponseColumns())
  }

  // ---- escaping facts -----------------------------------------------------------

  /** A printed integer needs no quoting and holds no line break. */
  lemma NumberField(n: int)
    ensures Quote(IntToString(n)) == IntToString(n) && OneLine(IntToString(n))
  {
    var m: nat := if n < 0 then -n else n;
    NatToStringDigits(m);
    var s := IntToString(n);
    assert forall i | 0 <= i < |s| :: IsDigit(s[i]) || s[i] == '-';
    assert ',' !in s && '"' !in s && '\n' !in s;
  }

  /** A null field is written like an empty one. */
  lemma EscapeAsQuote(o: Option<string>)
    ensures Escape(o) == Quote(o.GetOr(""))
  {
    assert !NeedsQuoting("");
  }

  lemma {:induction false} DoubleQuotesOneLine(t: string)
    requires OneLine(t)
    ensures OneLine(DoubleQuotes(t))
    decreases |t|
  {
    if t != [] {
      assert t[..1] == [t[0]];
      assert OneLine(t[1..]);
      DoubleQuotesOneLine(t[1..]);
    }
  }

  lemma QuoteOneLine(t: string)
    requires OneLine(t)
    ensures OneLine(Quote(t))
  {
    DoubleQuotesOneLine(t);
  }

  lemma {:induction false} JoinCommaOneLine(fs: seq<string>)
    requires |fs| >= 1 && forall k | 0 <= k < |fs| :: OneLine(fs[k])
    ensures OneLine(JoinComma(fs))
    decreases |fs|
  {
    if |fs| > 1 {
      JoinCommaOneLine(fs[1..]);
    }
  }

  // ---- question rows --------------------------------------------------------------

  /** The number of empty fields that pad a row with `n` choices to five choice columns. */
  function PadCount(n: nat): nat {
    if n < MaxChoiceColumns then MaxChoiceColumns - n else 0
  }

  function Blanks(n: nat): seq<string> {
    seq(n, _ => "")
  }

  /** The fields of question row number `num` before escaping: the number, the text (a
      null text as empty), every choice, and empty fields up to five choice columns. A
      question with more than five choices keeps all of them. */
  function QuestionRowFields(num: int, q: QuestionData): (fs: seq<string>)
    ensures |fs| == 2 + |q.choices| + PadCount(|q.choices|) && |fs| >= 2 + MaxChoiceColumns
  {
    [IntToString(num), q.text.GetOr("")] + q.choices + Blanks(PadCount(|q.choices|))
  }

  /** The text that appending `","` and a field at a time adds for the fields `fs`. */
  function Cells(fs: seq<string>): string {
    if fs == [] then "" else Cells(fs[..|fs| - 1]) + "," + fs[|fs| - 1]
  }

  /** `n` commas. */
  function Commas(n: nat): string {
    if n == 0 then "" else Commas(n - 1) + ","
  }

  /** Row `num` as `saveQuestionsToCSV` builds it: the number, a comma and the escaped
      text, then a comma and the escaped choice for each choice, then one comma per
      missing choice column. */
  function QuestionRow(num: int, q: QuestionData): string {
    IntToString(num) + "," + Escape(q.text) + Cells(QuoteAll(q.choices)) + Commas(PadCount(|q.choices|))
  }

  lemma QuoteAllStep(cs: seq<string>, j: nat)
    requires j < |cs|
    ensures Cells(QuoteAll(cs[..j + 1])) == Cells(QuoteAll(cs[..j])) + "," + Quote(cs[j])
  {
    assert QuoteAll(cs[..j + 1])[..j] == QuoteAll(cs[..j]);
  }

  /** The row builder of `saveQuestionsToCSV`. */
  method BuildQuestionRow(num: int, q: QuestionData) returns (row: string)
    ensures row == QuestionRow(num, q)
  {
    var head := IntToString(num) + "," + Escape(q.text);
    row := head;
    var j := 0;
    assert q.choices[..0] == [];
    while j < |q.choices|
      invariant 0 <= j <= |q.choices|
      invariant row == head + Cells(QuoteAll(q.choices[..j]))
    {
      QuoteAllStep(q.choices, j);
      AppendAssoc3(head, Cells(QuoteAll(q.choices[..j])), ",", Quote(q.choices[j]));
      row := row + "," + Escape(Some(q.choices[j]));
      j := j + 1;
    }
    assert q.choices[..j] == q.choices;
    ghost var filled := row;
    var k := |q.choices|;
    while k < MaxChoiceColumns
      invariant |q.choices| <= k && (k <= MaxChoiceColumns || k == |q.choices|)
      invariant row == filled + Commas(k - |q.choices|)
      decreases MaxChoiceColumns - k
    {
      AppendAssoc(filled, Commas(k - |q.choices|), ",");
      row := row + ",";
      k := k + 1;
    }
  }

  lemma AppendAssoc3(w: string, x: string, y: string, z: string)
    ensures w + x + y + z == w + (x + y + z)
  {
  }

  lemma {:induction false} JoinCommaCells(xs: seq<string>, ys: seq<string>)
    requires |xs| >= 1
    ensures JoinComma(xs + ys) == JoinComma(xs) + Cells(ys)
    decreases |ys|
  {
    if ys == [] {
      assert xs + ys == xs;
    } else {
      var init := ys[..|ys| - 1];
      assert xs + ys == (xs + init) + [ys[|ys| - 1]];
      JoinCommaSnoc(xs + init, ys[|ys| - 1]);
      JoinCommaCells(xs, init);
    }
  }

  lemma {:induction false} CommasAreBlankCells(n: nat)
    ensures Commas(n) == Cells(Blanks(n))
    decreases n
  {
    if n > 0 {
      assert Blanks(n)[..n - 1] == Blanks(n - 1);
      CommasAreBlankCells(n - 1);
    }
  }

  /** A question row is the comma-join of its escaped fields. */
  lemma QuestionRowIsJoin(num: int, q: QuestionData)
    ensures QuestionRow(num, q) == JoinComma(QuoteAll(QuestionRowFields(num, q)))
  {
    var a := IntToString(num);
    var b := Escape(q.text);
    var p := PadCount(|q.choices|);
    NumberField(num);
    EscapeAsQuote(q.text);
    assert Quote("") == "";
    assert QuoteAll(QuestionRowFields(num, q)) == [a, b] + QuoteAll(q.choices) + Blanks(p);
    JoinCommaCells([a, b] + QuoteAll(q.choices), Blanks(p));
    JoinCommaCells([a, b], QuoteAll(q.choices));
    assert [a, b][1..] == [b];
    CommasAreBlankCells(p);
  }

  /** Row i+1 for question i, in list order. */
  function QuestionRows(qs: seq<QuestionData>): (rows: seq<string>)
    ensures |rows| == |qs|
  {
    if qs == [] then [] else QuestionRows(qs[..|qs| - 1]) + [QuestionRow(|qs|, qs[|qs| - 1])]
  }

  lemma {:induction false} QuestionRowsAt(qs: seq<QuestionData>, i: nat)
    requires i < |qs|
    ensures QuestionRows(qs)[i] == QuestionRow(i + 1, qs[i])
    decreases |qs|
  {
    if i < |qs| - 1 {
      assert qs[..|qs| - 1][i] == qs[i];
      QuestionRowsAt(qs[..|qs| - 1], i);
    }
  }

  lemma QuestionRowsStep(qs: seq<QuestionData>, i: nat)
    requires i < |qs|
    ensures QuestionRows(qs[..i + 1]) == QuestionRows(qs[..i]) + [QuestionRow(i + 1, qs[i])]
  {
    assert qs[..i + 1][..i] == qs[..i];
  }

  /** The text of a saved question file: BOM, header, then row i+1 for question i. */
  function QuestionsCsv(qs: seq<QuestionData>): string {
    [Bom] + QuestionHeader() + "\n" + Lines(QuestionRows(qs))
  }

  /** The row loop of `saveQuestionsToCSV`: one `println` per question, in order. */
  method QuestionLines(qs: seq<QuestionData>) returns (text: string)
    ensures text == Lines(QuestionRows(qs))
  {
    text := "";
    var i := 0;
    while i < |qs|
      invariant 0 <= i <= |qs|
      invariant text == Lines(QuestionRows(qs[..i]))
    {
      var row := BuildQuestionRow(i + 1, qs[i]);
      QuestionRowsStep(qs, i);
      LinesSnoc(QuestionRows(qs[..i]), row);
      text := text + row + "\n";
      i := i + 1;
    }
    assert qs[..i] == qs;
  }

  /** `saveQuestionsToCSV`: the file is replaced by the question text; false, with
      nothing written, when it cannot be opened. */
  method SaveQuestionsToCsv(store: FileStore, qs: seq<QuestionData>, path: string) returns (ok: bool)
    modifies store`files
    ensures ok <==> path !in store.unwritable
    ensures ok ==> store.files == old(store.files)[path := QuestionsCsv(qs)]
    ensures !ok ==> store.files == old(store.files)
  {
    var rows := QuestionLines(qs);
    ok := store.Overwrite(path, [Bom] + QuestionHeader() + "\n" + rows);
  }

  // ---- loading questions ------------------------------------------------------------

  /** Skips one leading byte order mark. */
  function StripBom(s: string): string {
    if |s| > 0 && s[0] == Bom then s[1..] else s
  }

  lemma StripBomOf(t: string)
    ensures StripBom([Bom] + t) == t
  {
    assert ([Bom] + t)[1..] == t;
  }

  /** The lines after the header line. */
  function DataLines(content: string): seq<string> {
    var ls := ReadLines(StripBom(content));
    if ls == [] then [] else ls[1..]
  }

  /** The fields that are not blank after trimming, in order. */
  function NonBlank(fs: seq<string>): (r: seq<string>)
    ensures |r| <= |fs|
  {
    if fs == [] then []
    else NonBlank(fs[..|fs| - 1]) + (if IsBlank(fs[|fs| - 1]) then [] else [fs[|fs| - 1]])
  }

  /** The question read from a row of at least two fields: field 1 is the text, the
      non-blank fields after it are the choices, and the number column is ignored. */
  function RowQuestion(parts: seq<string>): QuestionData
    requires |parts| >= 2
  {
    QuestionData(Some(parts[1]), NonBlank(parts[2..]))
  }

  /** The questions read from data lines: a line with fewer than two fields is
      dropped. */
  function QuestionsOfLines(lines: seq<string>): (qs: seq<QuestionData>)
    ensures |qs| <= |lines|
  {
    if lines == [] then []
    else
      var parts := ParseLine(lines[|lines| - 1]);
      QuestionsOfLines(lines[..|lines| - 1]) + (if |parts| < 2 then [] else [RowQuestion(parts)])
  }

  function QuestionsOfCsv(content: string): seq<QuestionData> {
    QuestionsOfLines(DataLines(content))
  }

  lemma {:induction false} NonBlankIsNonBlank(fs: seq<string>, k: nat)
    requires k < |NonBlank(fs)|
    ensures !IsBlank(NonBlank(fs)[k])
    decreases |fs|
  {
    var init := NonBlank(fs[..|fs| - 1]);
    if k < |init| {
      NonBlankIsNonBlank(fs[..|fs| - 1], k);
    }
  }

  /** Every loaded question has a text, and none of its choices is blank. */
  lemma {:induction false} LoadedQuestionShape(lines: seq<string>, k: nat)
    requires k < |QuestionsOfLines(lines)|
    ensures QuestionsOfLines(lines)[k].text != None
    ensures forall c | 0 <= c < |QuestionsOfLines(lines)[k].choices| :: !IsBlank(QuestionsOfLines(lines)[k].choices[c])
    decreases |lines|
  {
    var init := QuestionsOfLines(lines[..|lines| - 1]);
    if k < |init| {
      LoadedQuestionShape(lines[..|lines| - 1], k);
    } else {
      var parts := ParseLine(lines[|lines| - 1]);
      forall c | 0 <= c < |NonBlank(parts[2..])| ensures !IsBlank(NonBlank(parts[2..])[c]) {
        NonBlankIsNonBlank(parts[2..], c);
      }
    }
  }
  /** The choice loop of `loadQuestionsFromCSV`: fields 2 onwards that are not blank. */
  method ChoicesOf(parts: seq<string>) returns (choices: seq<string>)
    requires |parts| >= 2
    ensures choices == NonBlank(parts[2..])
  {
    choices := [];
    var j := 2;
    while j < |parts|
      invariant 2 <= j <= |parts|
      invariant choices == NonBlank(parts[2..j])
    {
      assert parts[2..j + 1][..j - 2] == parts[2..j];
      if !IsBlank(parts[j]) {
        choices := choices + [parts[j]];
      }
      j := j + 1;
    }
    assert parts[2..|parts|] == parts[2..];
  }

  /** `loadQuestionsFromCSV`: an unreadable file gives an empty list. */
  method LoadQuestionsFromCsv(store: FileStore, path: string) returns (qs: seq<QuestionData>)
    ensures path in store.files ==> qs == QuestionsOfCsv(store.files[path])
    ensures path !in store.files ==> qs == []
  {
    qs := [];
    var content := store.Read(path);
    if content == None {
      return;
    }
    var lines := ReadLines(StripBom(content.value));
    if |lines| == 0 {
      return;
    }
    var i := 1;
    while i < |lines|
      invariant 1 <= i <= |lines|
      invariant qs == QuestionsOfLines(lines[1..i])
    {
      assert lines[1..i + 1][..i - 1] == lines[1..i];
      var parts := ParseCsvLine(lines[i]);
      if |parts| >= 2 {
        var choices := ChoicesOf(parts);
        qs := qs + [QuestionData(Some(parts[1]), choices)];
      }
      i := i + 1;
    }
    assert lines[1..|lines|] == lines[1..];
  }

  /** `loadQuestions`: a path ending in ".json" is read as JSON, any other as CSV. */
  method LoadQuestions(store: FileStore, path: string, decodeJson: string -> seq<QuestionData>) returns (qs: seq<QuestionData>)
    ensures EndsWith(path, ".json") && path in store.files ==> qs == decodeJson(store.files[path])
    ensures !EndsWith(path, ".json") && path in store.files ==> qs == QuestionsOfCsv(store.files[path])
    ensures path !in store.files ==> qs == []
  {
    if EndsWith(path, ".json") {
      var content := store.Read(path);
      qs := if content == None then [] else decodeJson(content.value);
    } else {
      qs := LoadQuestionsFromCsv(store, path);
    }
  }

  // ---- save then load -------------------------------------------------------------

  lemma {:induction false} NonBlankKeepsNonBlank(fs: seq<string>)
    requires forall k | 0 <= k < |fs| :: !IsBlank(fs[k])
    ensures NonBlank(fs) == fs
    decreases |fs|
  {
    if fs != [] {
      var init := fs[..|fs| - 1];
      forall k | 0 <= k < |init| ensures !IsBlank(init[k]) {
        assert init[k] == fs[k];
      }
      NonBlankKeepsNonBlank(init);
      assert !IsBlank(fs[|fs| - 1]);
      assert init + [fs[|fs| - 1]] == fs;
    }
  }

  lemma {:induction false} NonBlankDropsBlanks(fs: seq<string>, n: nat)
    ensures NonBlank(fs + Blanks(n)) == NonBlank(fs)
    decreases n
  {
    if n > 0 {
      var s := fs + Blanks(n);
      assert s[..|s| - 1] == fs + Blanks(n - 1);
      assert IsBlank(s[|s| - 1]);
      NonBlankDropsBlanks(fs, n - 1);
    } else {
      assert fs + Blanks(n) == fs;
    }
  }

  /** What a question turns into after a save and a load. */
  function Reloaded(q: QuestionData): QuestionData {
    QuestionData(Some(q.text.GetOr("")), q.choices)
  }

  /** A question survives a CSV round trip when no text or choice holds a line break
      and no choice is blank. */
  predicate Storable(q: QuestionData) {
    OneLine(q.text.GetOr(""))
    && forall k | 0 <= k < |q.choices| :: OneLine(q.choices[k]) && !IsBlank(q.choices[k])
  }

  lemma QuestionRowBack(num: int, q: QuestionData)
    requires Storable(q)
    ensures OneLine(QuestionRow(num, q))
    ensures |ParseLine(QuestionRow(num, q))| >= 2 && RowQuestion(ParseLine(QuestionRow(num, q))) == Reloaded(q)
  {
    var fs := QuestionRowFields(num, q);
    QuestionRowIsJoin(num, q);
    RoundTrip(fs);
    NumberField(num);
    forall k | 0 <= k < |fs| ensures OneLine(QuoteAll(fs)[k]) {
      QuoteOneLine(fs[k]);
    }
    JoinCommaOneLine(QuoteAll(fs));
    assert fs[2..] == q.choices + Blanks(PadCount(|q.choices|));
    NonBlankDropsBlanks(q.choices, PadCount(|q.choices|));
    NonBlankKeepsNonBlank(q.choices);
  }

  /** Every question after a save and a load, in order. */
  function ReloadedAll(qs: seq<QuestionData>): (r: seq<QuestionData>)
    ensures |r| == |qs|
  {
    if qs == [] then [] else ReloadedAll(qs[..|qs| - 1]) + [Reloaded(qs[|qs| - 1])]
  }

  lemma {:induction false} ReloadedAllAt(qs: seq<QuestionData>, i: nat)
    requires i < |qs|
    ensures ReloadedAll(qs)[i] == Reloaded(qs[i])
    decreases |qs|
  {
    if i < |qs| - 1 {
      assert qs[..|qs| - 1][i] == qs[i];
      ReloadedAllAt(qs[..|qs| - 1], i);
    }
  }

  lemma {:induction false} QuestionsOfRows(qs: seq<QuestionData>)
    requires forall i | 0 <= i < |qs| :: Storable(qs[i])
    ensures QuestionsOfLines(QuestionRows(qs)) == ReloadedAll(qs)
    decreases |qs|
  {
    if qs != [] {
      var init := QuestionRows(qs[..|qs| - 1]);
      var rows := QuestionRows(qs);
      assert rows[..|rows| - 1] == init;
      QuestionRowBack(|qs|, qs[|qs| - 1]);
      QuestionsOfRows(qs[..|qs| - 1]);
    }
  }

  lemma ColumnsOneLine(cols: seq<string>)
    requires |cols| >= 1 && forall k | 0 <= k < |cols| :: '\n' !in cols[k] && '\r' !in cols[k]
    ensures OneLine(JoinComma(cols))
  {
    JoinCommaOneLine(cols);
  }

  lemma QuestionHeaderOneLine()
    ensures OneLine(QuestionHeader())
  {
    ColumnsOneLine(QuestionColumns());
  }

  lemma ResponseHeaderOneLine()
    ensures OneLine(ResponseHeader())
  {
    ColumnsOneLine(ResponseColumns());
  }

  lemma ConsBom(h: string, body: string)
    ensures [Bom] + h + "\n" + body == [Bom] + (h + "\n" + body)
  {
  }

  /** A new CSV file, once its BOM is skipped, reads back as its header line followed
      by its rows, when none of them holds a line break. */
  lemma HeaderedLines(h: string, rows: seq<string>)
    requires OneLine(h) && forall i | 0 <= i < |rows| :: OneLine(rows[i])
    ensures ReadLines(StripBom([Bom] + h + "\n" + Lines(rows))) == [h] + rows
  {
    var body := Lines(rows);
    calc {
      ReadLines(StripBom([Bom] + h + "\n" + body));
      { ConsBom(h, body); StripBomOf(h + "\n" + body); }
      ReadLines(h + "\n" + body);
      { ReadLinesStep(h, body); }
      [h] + ReadLines(body);
      { ReadBack(rows); }
      [h] + rows;
    }
  }

  /** The lines after the header of a new CSV file are its rows. */
  lemma DataLinesOfNewFile(h: string, rows: seq<string>)
    requires OneLine(h) && forall i | 0 <= i < |rows| :: OneLine(rows[i])
    ensures DataLines([Bom] + h + "\n" + Lines(rows)) == rows
  {
    HeaderedLines(h, rows);
    assert ([h] + rows)[1..] == rows;
  }

  lemma QuestionRowsOneLine(qs: seq<QuestionData>)
    requires forall i | 0 <= i < |qs| :: Storable(qs[i])
    ensures forall i | 0 <= i < |QuestionRows(qs)| :: OneLine(QuestionRows(qs)[i])
  {
    forall i | 0 <= i < |qs| ensures OneLine(QuestionRows(qs)[i]) {
      QuestionRowsAt(qs, i);
      QuestionRowBack(i + 1, qs[i]);
    }
  }

  /** The lines of a saved question file after the header are its rows, when every
      row is a single line. */
  lemma DataLinesOfQuestionsCsv(qs: seq<QuestionData>)
    requires forall i | 0 <= i < |qs| :: Storable(qs[i])
    ensures DataLines(QuestionsCsv(qs)) == QuestionRows(qs)
  {
    QuestionHeaderOneLine();
    QuestionRowsOneLine(qs);
    DataLinesOfNewFile(QuestionHeader(), QuestionRows(qs));
  }

  /** Saving questions as CSV and loading the file back gives every text (a null text
      as the empty one) and every choice list, in order, when no text or choice holds
      a line break and no choice is blank. */
  lemma SaveLoadRoundTrip(qs: seq<QuestionData>)
    requires forall i | 0 <= i < |qs| :: Storable(qs[i])
    ensures |QuestionsOfCsv(QuestionsCsv(qs))| == |qs|
    ensures forall i | 0 <= i < |qs| :: QuestionsOfCsv(QuestionsCsv(qs))[i] == Reloaded(qs[i])
  {
    DataLinesOfQuestionsCsv(qs);
    QuestionsOfRows(qs);
    forall i | 0 <= i < |qs| ensures ReloadedAll(qs)[i] == Reloaded(qs[i]) {
      ReloadedAllAt(qs, i);
    }
  }

  // ---- responses ----------------------------------------------------------------------

  /** `buildResponseRow`: the six fields escaped and joined by commas, the question
      number printed as a decimal integer. */
  function BuildResponseRow(r: ResponseData): string {
    Escape(r.respondentId) + "," + Escape(r.timestamp) + "," + IntToString(r.questionNum) + ","
    + Escape(r.questionText) + "," + Escape(r.selectedChoice) + "," + Escape(r.reason)
  }

  /** The fields a response row stands for, a null string as the empty one. */
  function ResponseFields(r: ResponseData): seq<string> {
    [r.respondentId.GetOr(""), r.timestamp.GetOr(""), IntToString(r.questionNum),
     r.questionText.GetOr(""), r.selectedChoice.GetOr(""), r.reason.GetOr("")]
  }

  /** A response row parses back to the response's six fields, whatever they hold. */
  lemma ResponseRowRoundTrip(r: ResponseData)
    ensures ParseLine(BuildResponseRow(r)) == ResponseFields(r)
  {
    var fs := ResponseFields(r);
    var es := QuoteAll(fs);
    EscapeAsQuote(r.respondentId);
    EscapeAsQuote(r.timestamp);
    EscapeAsQuote(r.questionText);
    EscapeAsQuote(r.selectedChoice);
    EscapeAsQuote(r.reason);
    NumberField(r.questionNum);
    assert es == [Escape(r.respondentId), Escape(r.timestamp), IntToString(r.questionNum),
                  Escape(r.questionText), Escape(r.selectedChoice), Escape(r.reason)];
    JoinCommaSix(es);
    RoundTrip(fs);
  }

  /** One row per response, in list order. */
  function ResponseRows(rs: seq<ResponseData>): (rows: seq<string>)
    ensures |rows| == |rs|
  {
    if rs == [] then [] else ResponseRows(rs[..|rs| - 1]) + [BuildResponseRow(rs[|rs| - 1])]
  }

  lemma {:induction false} ResponseRowsAt(rs: seq<ResponseData>, i: nat)
    requires i < |rs|
    ensures ResponseRows(rs)[i] == BuildResponseRow(rs[i])
    decreases |rs|
  {
    if i < |rs| - 1 {
      ResponseRowsAt(rs[..|rs| - 1], i);
    }
  }

  lemma {:induction false} ResponseRowsAppend(a: seq<ResponseData>, b: seq<ResponseData>)
    ensures ResponseRows(a + b) == ResponseRows(a) + ResponseRows(b)
    decreases |b|
  {
    if b == [] {
      assert a + b == a;
    } else {
      assert (a + b)[..|a + b| - 1] == a + b[..|b| - 1];
      ResponseRowsAppend(a, b[..|b| - 1]);
    }
  }

  /** What `saveResponseToCSV` adds to a file: BOM and header only when the file did
      not exist, then one row per response in list order. */
  function ResponsesAdded(files: map<string, string>, path: string, rs: seq<ResponseData>): string {
    NewFileHeader(files, path) + Lines(ResponseRows(rs))
  }

  /** The BOM and header line, written only when the response file does not exist. */
  function NewFileHeader(files: map<string, string>, path: string): string {
    if path in files then "" else [Bom] + ResponseHeader() + "\n"
  }

  /** The files after `saveResponseToCSV`: appended to, or untouched when the file
      cannot be opened. */
  function AfterResponseCsv(files: map<string, string>, unwritable: set<string>, path: string, rs: seq<ResponseData>): map<string, string> {
    if path in unwritable then files
    else files[path := ContentsOf(files, path) + ResponsesAdded(files, path, rs)]
  }

  lemma ResponseRowsStep(rs: seq<ResponseData>, i: nat)
    requires i < |rs|
    ensures ResponseRows(rs[..i + 1]) == ResponseRows(rs[..i]) + [BuildResponseRow(rs[i])]
  {
    assert rs[..i + 1][..i] == rs[..i];
  }

  /** The row loop of `saveResponseToCSV`: one `println` per response, in order. */
  method ResponseLines(rs: seq<ResponseData>) returns (text: string)
    ensures text == Lines(ResponseRows(rs))
  {
    text := "";
    var i := 0;
    while i < |rs|
      invariant 0 <= i <= |rs|
      invariant text == Lines(ResponseRows(rs[..i]))
    {
      var row := BuildResponseRow(rs[i]);
      ResponseRowsStep(rs, i);
      LinesSnoc(ResponseRows(rs[..i]), row);
      text := text + row + "\n";
      i := i + 1;
    }
    assert rs[..i] == rs;
  }

  /** `saveResponseToCSV`: appends, writing the header only to a new file. */
  method SaveResponseToCsv(store: FileStore, rs: seq<ResponseData>, path: string) returns (ok: bool)
    modifies store`files
    ensures ok <==> path !in store.unwritable
    ensures store.files == AfterResponseCsv(old(store.files), store.unwritable, path, rs)
  {
    var fileExists := store.Exists(path);
    var header := if fileExists then "" else [Bom] + ResponseHeader() + "\n";
    var rows := ResponseLines(rs);
    ok := store.Append(path, header + rows);
  }

  lemma ResponsesAddedTwice(files: map<string, string>, path: string, a: seq<ResponseData>, b: seq<ResponseData>)
    ensures ResponsesAdded(files, path, a) + Lines(ResponseRows(b)) == ResponsesAdded(files, path, a + b)
  {
    var p := NewFileHeader(files, path);
    calc {
      ResponsesAdded(files, path, a) + Lines(ResponseRows(b));
      p + Lines(ResponseRows(a)) + Lines(ResponseRows(b));
      { AppendAssoc(p, Lines(ResponseRows(a)), Lines(ResponseRows(b))); }
      p + (Lines(ResponseRows(a)) + Lines(ResponseRows(b)));
      { LinesAppend(ResponseRows(a), ResponseRows(b)); }
      p + Lines(ResponseRows(a) + ResponseRows(b));
      { ResponseRowsAppend(a, b); }
      p + Lines(ResponseRows(a + b));
      ResponsesAdded(files, path, a + b);
    }
  }

  /** Two saves to the same file equal one save of both lists: the header is written
      at most once and the rows of the first save come first. */
  lemma ResponsesAppendTwice(files: map<string, string>, unwritable: set<string>, path: string,
                             a: seq<ResponseData>, b: seq<ResponseData>)
    ensures AfterResponseCsv(AfterResponseCsv(files, unwritable, path, a), unwritable, path, b)
         == AfterResponseCsv(files, unwritable, path, a + b)
  {
    if path !in unwritable {
      var c0 := ContentsOf(files, path);
      var c1 := c0 + ResponsesAdded(files, path, a);
      var f1 := files[path := c1];
      calc {
        AfterResponseCsv(AfterResponseCsv(files, unwritable, path, a), unwritable, path, b);
        AfterResponseCsv(f1, unwritable, path, b);
        f1[path := ContentsOf(f1, path) + ResponsesAdded(f1, path, b)];
        { assert ContentsOf(f1, path) == c1; AddedToExisting(f1, path, b); }
        f1[path := c1 + Lines(ResponseRows(b))];
        files[path := c1 + Lines(ResponseRows(b))];
        { AppendAssoc(c0, ResponsesAdded(files, path, a), Lines(ResponseRows(b))); }
        files[path := c0 + (ResponsesAdded(files, path, a) + Lines(ResponseRows(b)))];
        { ResponsesAddedTwice(files, path, a, b); }
        files[path := c0 + ResponsesAdded(files, path, a + b)];
        AfterResponseCsv(files, unwritable, path, a + b);
      }
    }
  }

  lemma AppendAssoc(x: string, y: string, z: string)
    ensures x + y + z == x + (y + z)
  {
  }

  lemma AddedToExisting(files: map<string, string>, path: string, rs: seq<ResponseData>)
    requires path in files
    ensures ResponsesAdded(files, path, rs) == Lines(ResponseRows(rs))
  {
  }

  /** A response whose strings hold no line break. */
  predicate ResponseStorable(r: ResponseData) {
    OneLine(r.respondentId.GetOr("")) && OneLine(r.timestamp.GetOr("")) && OneLine(r.questionText.GetOr(""))
    && OneLine(r.selectedChoice.GetOr("")) && OneLine(r.reason.GetOr(""))
  }

  /** A new response file reads back as the header line followed by one row per
      response, in list order, when no response string holds a line break. */
  lemma NewResponseFileLines(files: map<string, string>, path: string, rs: seq<ResponseData>)
    requires path !in files && forall i | 0 <= i < |rs| :: ResponseStorable(rs[i])
    ensures ReadLines(StripBom(ResponsesAdded(files, path, rs))) == [ResponseHeader()] + ResponseRows(rs)
  {
    var rows := ResponseRows(rs);
    ResponseHeaderOneLine();
    forall i | 0 <= i < |rows| ensures OneLine(rows[i]) {
      ResponseRowsAt(rs, i);
      ResponseRowOneLine(rs[i]);
    }
    HeaderedLines(ResponseHeader(), rows);
  }

  lemma JoinCommaSix(es: seq<string>)
    requires |es| == 6
    ensures JoinComma(es) == es[0] + "," + es[1] + "," + es[2] + "," + es[3] + "," + es[4] + "," + es[5]
  {
    assert es[1..][1..] == es[2..];
    assert es[2..][1..] == es[3..];
    assert es[3..][1..] == es[4..];
    assert es[4..][1..] == es[5..];
    assert JoinComma(es[5..]) == es[5];
    assert JoinComma(es[4..]) == es[4] + "," + es[5];
    assert JoinComma(es[3..]) == es[3] + "," + es[4] + "," + es[5];
    assert JoinComma(es[2..]) == es[2] + "," + es[3] + "," + es[4] + "," + es[5];
  }

  lemma ResponseRowOneLine(r: ResponseData)
    requires ResponseStorable(r)
    ensures OneLine(BuildResponseRow(r))
  {
    var fs := ResponseFields(r);
    var es := QuoteAll(fs);
    EscapeAsQuote(r.respondentId);
    EscapeAsQuote(r.timestamp);
    EscapeAsQuote(r.questionText);
    EscapeAsQuote(r.selectedChoice);
    EscapeAsQuote(r.reason);
    NumberField(r.questionNum);
    forall k | 0 <= k < 6 ensures OneLine(es[k]) {
      QuoteOneLine(fs[k]);
    }
    JoinCommaOneLine(es);
    JoinCommaSix(es);
  }

  // ---- output format ---------------------------------------------------------------

  /** The CSV target of `saveResponse`: ".csv" added unless already there. */
  function CsvPath(path: string): (p: string)
    ensures EndsWith(p, ".csv") && StartsWith(p, path)
  {
    if EndsWith(path, ".csv") then path else path + ".csv"
  }

  /** The JSON target of `saveResponse`: every ".csv" replaced by ".json", and ".json"
      added when the result does not end in it. */
  function JsonPath(path: string): (p: string)
    ensures EndsWith(p, ".json")
  {
    var q := ReplaceAll(path, ".csv", ".json");
    if EndsWith(q, ".json") then q else q + ".json"
  }

  /** The two targets of the "both" format are different files. */
  lemma TargetsDiffer(path: string)
    ensures CsvPath(path) != JsonPath(path)
  {
    var c := CsvPath(path);
    var j := JsonPath(path);
    assert c[|c| - 1] == 'v' && j[|j| - 1] == 'n';
  }

  predicate WritesCsv(format: Option<string>) {
    format == Some("csv") || format == Some("both")
  }

  predicate WritesJson(format: Option<string>) {
    format == Some("json") || format == Some("both")
  }

  /** The files after `saveResponse` with output format `format`: the CSV append
      first, then the JSON document `doc` written over the JSON target. */
  function AfterSaveResponse(files: map<string, string>, unwritable: set<string>, rs: seq<ResponseData>,
                             path: string, format: Option<string>, doc: string): map<string, string> {
    var afterCsv := if WritesCsv(format) then AfterResponseCsv(files, unwritable, CsvPath(path), rs) else files;
    if WritesJson(format) && JsonPath(path) !in unwritable then afterCsv[JsonPath(path) := doc] else afterCsv
  }

  /** An unknown format (or null) writes nothing. */
  lemma UnknownFormatWritesNothing(files: map<string, string>, unwritable: set<string>, rs: seq<ResponseData>,
                                   path: string, format: Option<string>, doc: string)
    requires !WritesCsv(format) && !WritesJson(format)
    ensures AfterSaveResponse(files, unwritable, rs, path, format, doc) == files
  {
  }

  /** `saveResponseToJSON` and `saveQuestionsToJSON`: the file is replaced by the
      serialised document. */
  method SaveJson(store: FileStore, path: string, doc: string) returns (ok: bool)
    modifies store`files
    ensures ok <==> path !in store.unwritable
    ensures ok ==> store.files == old(store.files)[path := doc]
    ensures !ok ==> store.files == old(store.files)
  {
    ok := store.Overwrite(path, doc);
  }

  /** Every write the format asks for can open its file. */
  predicate SaveSucceeds(unwritable: set<string>, path: string, format: Option<string>) {
    && (WritesCsv(format) ==> CsvPath(path) !in unwritable)
    && (WritesJson(format) ==> JsonPath(path) !in unwritable)
  }

  /** `saveResponse`: true exactly when every attempted write could open its file; an
      unknown format attempts nothing and gives true. */
  method SaveResponse(store: FileStore, rs: seq<ResponseData>, path: string, format: Option<string>, doc: string)
    returns (success: bool)
    modifies store`files
    ensures success <==> SaveSucceeds(store.unwritable, path, format)
    ensures store.files == AfterSaveResponse(old(store.files), store.unwritable, rs, path, format, doc)
  {
    success := true;
    if format == Some("csv") || format == Some("both") {
      var csvPath := if EndsWith(path, ".csv") then path else path + ".csv";
      var ok := SaveResponseToCsv(store, rs, csvPath);
      if !ok {
        success := false;
      }
    }
    if format == Some("json") || format == Some("both") {
      var jsonPath := ReplaceAll(path, ".csv", ".json");
      if !EndsWith(jsonPath, ".json") {
        jsonPath := jsonPath + ".json";
      }
      var ok := SaveJson(store, jsonPath, doc);
      if !ok {
        success := false;
      }
    }
  }
}
