# form-response-logger, modelled in Dafny

form-response-logger is a desktop survey tool. An author builds a list of
multiple-choice questions in a question editor and saves it as CSV (or JSON). A
respondent then answers the questions one at a time. For each question the
respondent picks a choice and writes a reason. Once the reason has been started,
the choice is locked until the respondent presses "rewrite". Every step is
appended to a CSV action log. When the last question is answered, the responses
are written to a response file whose name comes from a template. A template may
hold `{date}`, `{time}`, `{respondent_id}`, `{participant_name}`,
`{participant_id}` and `{sequence}`. The `{sequence}` token is filled from one
of two persistent counters, which is advanced and saved. The settings live in a
JSON file. They are edited in a settings window, and a participant dialog can
store the participant's name and id.

The model follows the Java code module by module:

- `Strings` covers the parts of `String` and `Integer` the code relies on:
  `trim`, `replace`, `startsWith`/`endsWith`, `lastIndexOf`, `parseInt`,
  `%03d`, and `int` wrap-around.
- `Csv` is the field escaping shared by all CSV files and the `parseCSVLine`
  scanner.
- `FileSystem` is a file store: text by path, plus paths that cannot be opened
  for writing. It has truncating and appending writers and line-by-line reading.
- `Model` holds `Question` and `Response`. A question's choice list is a shared,
  mutable object, so aliasing is kept.
- `FileUtils` saves and loads question files, appends response files, and picks
  the CSV and JSON targets.
- `Configuration` is `Config`, its nineteen persisted keys, and `toMap` and
  `fromMap`.
- `ConfigManagement` is `ConfigManager`: loading and saving the settings,
  question paths, and file-name templates with their counters.
- `ActionLogging` is `ActionLogger`.
- `Survey` is the answering part of `SurveyInterfaceWindow`. Its handlers are
  stated as functions on an `Answering` state, and the window's methods are
  proved against them.
- `QuestionEditing` is `QuestionEditorWindow`: the list, the form, and its
  buttons.
- `Settings` is `SettingsWindow`.
- `ParticipantInfo` is `ParticipantInfoWindow`.
- `SurveyStart` is the start of `SurveyInterfaceWindow`, where the participant
  dialog confirms a name and an id before the log path is resolved.

The windows are classes whose fields are what the widgets hold: text field
contents, the selected row and so on. Java `null` becomes `Option`, and an
`int` is an `Int32` with Java's wrap-around where the code increments it. The
clock, UUIDs, file-chooser results, confirmation answers and JSON
serialisation are parameters.

Facts about the code that the model keeps:

- `saveQuestionsToCSV` is documented as writing at most five choice columns
  (`FileUtils.java` lines 44-45), but it writes every choice of a question
  (lines 62-64). A row is padded to five choice columns and never cut down to
  five (lines 67-69).
- The action log has no byte order mark: `initializeLogFile` writes only the
  header line (`ActionLogger.java` lines 22-42). The question and response files
  get one (`FileUtils.java` lines 53 and 198).
- The logger's own `escapeCSV` has no null check (`ActionLogger.java` lines
  59-64), unlike the one in `FileUtils` (line 291). The model takes a non-null
  string there.
- The settings window reads and writes a content width, `contentWidth`
  (`SettingsWindow.java` lines 313 and 375). It is a field of the settings record
  here but is not persisted, because `toMap` and `fromMap` do not mention it.
- The settings file is written without its null entries, because the JSON writer
  built at `ConfigManager.java` line 42 does not serialise nulls. On the next
  start those keys are absent, so each such setting keeps the value a new `Config`
  starts with (`Config.java` lines 46-59).

## Model

| member | source | states |
|---|---|---|
| Strings.BlankIff | src/main/java/com/study/form/util/FileUtils.java:133-138 | a string is blank after `trim` exactly when every character is at or below U+0020 |
| Strings.TrimmedIsTrim | src/main/java/com/study/form/ui/ParticipantInfoWindow.java:124-142 | trimming twice is trimming once, and a non-empty trimmed string is not blank |
| Strings.LastIndexOf | src/main/java/com/study/form/ui/SettingsWindow.java:332-340 | the index returned holds the character and no later index does; -1 exactly when it is absent |
| Strings.ParseIntToString | src/main/java/com/study/form/ui/SettingsWindow.java:352-366 | every `int` printed into a sequence field parses back to the same `int` |
| Strings.ParsePad3 | src/main/java/com/study/form/util/ConfigManager.java:204-218 | a `%03d` counter is at least three characters long and parses back to the counter, so distinct counters give distinct names |
| Strings.ReplaceAllAbsent | src/main/java/com/study/form/util/ConfigManager.java:196-201 | replacing a token that does not occur leaves the template unchanged |
| Strings.ReplaceAllKeepsPrefix | src/main/java/com/study/form/ui/SurveyInterfaceWindow.java:501-504 | `replace` keeps a prefix without the pattern's first character and only rewrites the rest |
| Csv.Quote | src/main/java/com/study/form/util/FileUtils.java:290-296 | a field with no comma, quote or line feed is written as it is; any other field comes out wrapped in double quotes |
| Csv.Escape | src/main/java/com/study/form/util/FileUtils.java:290-296 | a null field is written as an empty one, and any other field is quoted by the rule above |
| Csv.ParseLine | src/main/java/com/study/form/util/FileUtils.java:299-324 | every line, even an empty one, yields at least one field |
| Csv.ParseCsvLine | src/main/java/com/study/form/util/FileUtils.java:299-324 | the one-pass loop with its quote flag and look-ahead computes exactly the scan `ParseLine` specifies |
| Csv.FieldCount | src/main/java/com/study/form/util/FileUtils.java:299-324 | a line has one more field than it has commas outside quotes |
| Csv.PlainSplit | src/main/java/com/study/form/util/FileUtils.java:299-324 | on a line without quotes, no field holds a comma and joining the fields with commas gives the line back |
| Csv.ScanEscaped | src/main/java/com/study/form/util/FileUtils.java:290-324 | an escaped field followed by a comma or the line end is read back as the original field |
| Csv.RoundTrip | src/main/java/com/study/form/util/FileUtils.java:290-324 | parsing the comma-join of escaped fields gives back exactly those fields, including ones with commas, quotes and line breaks |
| FileSystem.FileStore.Overwrite | src/main/java/com/study/form/util/FileUtils.java:243-246 | a truncating writer succeeds exactly when the file can be opened, and the file then holds only the new text; otherwise nothing changes |
| FileSystem.FileStore.Append | src/main/java/com/study/form/util/ActionLogger.java:44-57 | an appending writer adds the text after the existing contents (creating the file) exactly when it can be opened; otherwise nothing changes |
| FileSystem.FileStore.Read | src/main/java/com/study/form/util/FileUtils.java:111-147 | reading gives the file's text exactly when the file exists, and none otherwise |
| FileSystem.LinesSnoc | src/main/java/com/study/form/util/ActionLogger.java:44-57 | one more `println` adds the line and a line feed after the earlier lines |
| FileSystem.ReadLinesStep | src/main/java/com/study/form/util/FileUtils.java:111-147 | `readLine` returns a single-line string written with its line feed as that line |
| FileSystem.ReadBack | src/main/java/com/study/form/util/FileUtils.java:111-147 | lines written with `println` and read back with `readLine` are the same lines when none holds a line break |
| Model.Question.constructor | src/main/java/com/study/form/model/Question.java:13-15 | a new question has no text and a new, empty choice list |
| Model.Question.WithChoices | src/main/java/com/study/form/model/Question.java:17-20 | the two-argument constructor keeps the text and copies the choices into a new list |
| Model.Question.SetText | src/main/java/com/study/form/model/Question.java:26-28 | the text becomes the given value, null included |
| Model.Question.GetChoices | src/main/java/com/study/form/model/Question.java:30-32 | the getter returns the internal list itself, not a copy |
| Model.Question.SetChoices | src/main/java/com/study/form/model/Question.java:34-36 | the setter keeps the caller's list by reference |
| Model.Question.AddChoice | src/main/java/com/study/form/model/Question.java:38-40 | a choice is appended at the end and the earlier choices are unchanged |
| Model.CopiedChoicesAreIndependent | src/main/java/com/study/form/model/Question.java:17-20 | after the copying constructor, adding to the caller's list leaves the question's choices as they were |
| Model.SetChoicesAliases | src/main/java/com/study/form/model/Question.java:30-40 | after `setChoices`, a choice added through the question appears in the caller's list, and `getChoices` returns that same list |
| Model.Response.constructor | src/main/java/com/study/form/model/Response.java:14 | a new response has every string null and question number 0 |
| Model.Response.Of | src/main/java/com/study/form/model/Response.java:16-24 | each of the six arguments lands in its own field, with no check |
| Model.Response.SetRespondentId | src/main/java/com/study/form/model/Response.java:30-32 | only the respondent id changes |
| Model.Response.SetTimestamp | src/main/java/com/study/form/model/Response.java:38-40 | only the timestamp changes |
| Model.Response.SetQuestionNum | src/main/java/com/study/form/model/Response.java:46-48 | only the question number changes |
| Model.Response.SetQuestionText | src/main/java/com/study/form/model/Response.java:54-56 | only the question text changes |
| Model.Response.SetSelectedChoice | src/main/java/com/study/form/model/Response.java:62-64 | only the selected choice changes |
| Model.Response.SetReason | src/main/java/com/study/form/model/Response.java:70-72 | only the reason changes |
| FileUtils.NumberField | src/main/java/com/study/form/util/FileUtils.java:58-69 | a printed question number needs no quoting and holds no line break |
| FileUtils.EscapeAsQuote | src/main/java/com/study/form/util/FileUtils.java:290-296 | a null field is written exactly like an empty string |
| FileUtils.QuoteOneLine | src/main/java/com/study/form/util/FileUtils.java:290-296 | escaping never introduces a line break |
| FileUtils.QuestionRowFields | src/main/java/com/study/form/util/FileUtils.java:56-72 | a row has the number, the text, every choice, and padding to at least five choice columns; choices beyond five are kept |
| FileUtils.BuildQuestionRow | src/main/java/com/study/form/util/FileUtils.java:58-69 | the row-building loop produces the number, the escaped text, each escaped choice, and one comma per missing column |
| FileUtils.QuestionRowIsJoin | src/main/java/com/study/form/util/FileUtils.java:58-69 | the row built piece by piece is the comma-join of the escaped padded fields |
| FileUtils.QuestionRows | src/main/java/com/study/form/util/FileUtils.java:56-72 | there is one row per question |
| FileUtils.QuestionRowsAt | src/main/java/com/study/form/util/FileUtils.java:56-72 | row i is question i numbered i + 1, in list order |
| FileUtils.QuestionLines | src/main/java/com/study/form/util/FileUtils.java:56-72 | the row loop prints every row, in order |
| FileUtils.SaveQuestionsToCsv | src/main/java/com/study/form/util/FileUtils.java:51-82 | the file is replaced by the BOM, the header and the rows, and the method returns true exactly when the file can be opened; otherwise nothing is written |
| FileUtils.StripBomOf | src/main/java/com/study/form/util/FileUtils.java:116-120 | a leading BOM is skipped and the rest is kept |
| FileUtils.NonBlank | src/main/java/com/study/form/util/FileUtils.java:133-138 | filtering blank fields never adds fields |
| FileUtils.NonBlankIsNonBlank | src/main/java/com/study/form/util/FileUtils.java:133-138 | no kept choice is blank |
| FileUtils.NonBlankKeepsNonBlank | src/main/java/com/study/form/util/FileUtils.java:133-138 | fields that are all non-blank are kept in full, in order |
| FileUtils.NonBlankDropsBlanks | src/main/java/com/study/form/util/FileUtils.java:133-138 | the empty padding columns are dropped on reading |
| FileUtils.ChoicesOf | src/main/java/com/study/form/util/FileUtils.java:133-138 | the choice loop keeps the non-blank fields from column 2 on, in order |
| FileUtils.QuestionsOfLines | src/main/java/com/study/form/util/FileUtils.java:126-141 | loading never yields more questions than data lines |
| FileUtils.LoadedQuestionShape | src/main/java/com/study/form/util/FileUtils.java:126-141 | every loaded question has a text, and none of its choices is blank |
| FileUtils.LoadQuestionsFromCsv | src/main/java/com/study/form/util/FileUtils.java:111-147 | an existing file yields the questions its data lines hold; an unreadable file yields an empty list |
| FileUtils.LoadQuestions | src/main/java/com/study/form/util/FileUtils.java:171-177 | a ".json" path is decoded as JSON, any other path is read as CSV, and a missing file yields an empty list |
| FileUtils.QuestionRowBack | src/main/java/com/study/form/util/FileUtils.java:58-69 | a storable question's row is one line and reads back as the question (a null text as empty) |
| FileUtils.QuestionsOfRows | src/main/java/com/study/form/util/FileUtils.java:126-141 | reading the rows of storable questions gives back every question, in order |
| FileUtils.HeaderedLines | src/main/java/com/study/form/util/FileUtils.java:116-125 | a new CSV file, with its BOM skipped, reads back as the header line followed by its rows |
| FileUtils.DataLinesOfNewFile | src/main/java/com/study/form/util/FileUtils.java:116-125 | the lines after the header of a new CSV file are exactly its rows |
| FileUtils.DataLinesOfQuestionsCsv | src/main/java/com/study/form/util/FileUtils.java:51-82 | the data lines of a saved question file are its question rows |
| FileUtils.SaveLoadRoundTrip | src/main/java/com/study/form/util/FileUtils.java:51-147 | saving questions as CSV and loading them back gives the same count and every text and choice list, in order, when no string holds a line break and no choice is blank |
| FileUtils.ResponseRowRoundTrip | src/main/java/com/study/form/util/FileUtils.java:254-263 | a response row parses back to the response's six fields, whatever they hold |
| FileUtils.ResponseRowOneLine | src/main/java/com/study/form/util/FileUtils.java:254-263 | a response without line breaks in its strings is written as a single line |
| FileUtils.ResponseRows | src/main/java/com/study/form/util/FileUtils.java:202-204 | there is one row per response |
| FileUtils.ResponseRowsAt | src/main/java/com/study/form/util/FileUtils.java:202-204 | row i is response i, in list order |
| FileUtils.ResponseRowsAppend | src/main/java/com/study/form/util/FileUtils.java:202-204 | the rows of two lists one after the other are the rows of the joined list |
| FileUtils.ResponseLines | src/main/java/com/study/form/util/FileUtils.java:202-204 | the row loop prints every response row, in order |
| FileUtils.SaveResponseToCsv | src/main/java/com/study/form/util/FileUtils.java:190-214 | the rows are appended, with the BOM and header only for a new file, and the method returns true exactly when the file can be opened |
| FileUtils.AddedToExisting | src/main/java/com/study/form/util/FileUtils.java:197-200 | appending to an existing file writes no second header |
| FileUtils.ResponsesAddedTwice | src/main/java/com/study/form/util/FileUtils.java:190-214 | the text of one append followed by more rows is the text of one append of both lists |
| FileUtils.ResponsesAppendTwice | src/main/java/com/study/form/util/FileUtils.java:190-214 | two saves to the same file equal one save of both lists: one header at most, and the first list's rows first |
| FileUtils.NewResponseFileLines | src/main/java/com/study/form/util/FileUtils.java:190-214 | a new response file reads back as the header and one row per response, in order |
| FileUtils.CsvPath | src/main/java/com/study/form/util/FileUtils.java:270 | the CSV target ends in ".csv" and starts with the given path |
| FileUtils.JsonPath | src/main/java/com/study/form/util/FileUtils.java:277-280 | the JSON target always ends in ".json" |
| FileUtils.TargetsDiffer | src/main/java/com/study/form/util/FileUtils.java:266-287 | with the format "both", the CSV and JSON targets are different files |
| FileUtils.UnknownFormatWritesNothing | src/main/java/com/study/form/util/FileUtils.java:266-287 | a null or unknown output format writes no file |
| FileUtils.SaveJson | src/main/java/com/study/form/util/FileUtils.java:225-240 | the JSON file is replaced by the document exactly when it can be opened, and the result says whether it could |
| FileUtils.SaveResponse | src/main/java/com/study/form/util/FileUtils.java:266-287 | the format chooses the CSV append, the JSON write, or both, and the result is true exactly when every attempted write could open its file |
| Configuration.Fields | src/main/java/com/study/form/model/Config.java:221-243 | `toMap` has one value per persisted key |
| Configuration.FieldsWellKinded | src/main/java/com/study/form/model/Config.java:221-243 | every value `toMap` writes is of the kind its key holds: a string or null, a boolean, or an Integer |
| Configuration.FromFieldsOfFields | src/main/java/com/study/form/model/Config.java:221-243 | a settings object is determined by its persisted fields together with its width |
| Configuration.FieldsOfFromFields | src/main/java/com/study/form/model/Config.java:221-243 | well-kinded field values are exactly the fields of the settings built from them |
| Configuration.KeysDistinct | src/main/java/com/study/form/model/Config.java:221-243 | no two persisted keys are the same |
| Configuration.ToMapOfAt | src/main/java/com/study/form/model/Config.java:221-243 | every persisted key is in the map and holds its field's value |
| Configuration.Converted | src/main/java/com/study/form/model/Config.java:257-320 | reading a value that does not throw keeps a field of the right kind: a number truncated for an integer key, anything else ignored |
| Configuration.FirstFailureFrom | src/main/java/com/study/form/model/Config.java:257-320 | the first present key whose cast throws; no earlier present key throws |
| Configuration.ReadFrom | src/main/java/com/study/form/model/Config.java:257-320 | reading the keys in turn keeps one value per persisted key |
| Configuration.ReadFromAt | src/main/java/com/study/form/model/Config.java:257-320 | a key takes the converted map value when present and before the first throwing key, and keeps its value otherwise; reading completes exactly when no key throws |
| Configuration.ReadFromWellKinded | src/main/java/com/study/form/model/Config.java:257-320 | reading a map never leaves a field holding a value of the wrong kind |
| Configuration.OverlayField | src/main/java/com/study/form/model/Config.java:257-320 | `fromMap` returns normally exactly when no present key throws; each field takes the map's value up to the first failure and keeps its own after it; the width never changes |
| Configuration.OverlayAbsent | src/main/java/com/study/form/model/Config.java:257-320 | a key absent from the map keeps its current value |
| Configuration.ReadFromStored | src/main/java/com/study/form/model/Config.java:257-320 | a map holding a well-kinded value under every remaining key replaces those fields and does not throw |
| Configuration.ReadToMapOf | src/main/java/com/study/form/model/Config.java:221-320 | reading what `toMap` wrote gives back every persisted field, without failure |
| Configuration.RoundTrip | src/main/java/com/study/form/model/Config.java:221-320 | `fromMap(toMap(c))` over any settings gives `c`'s persisted fields and keeps only the width, which is not persisted |
| Configuration.ReadFromTwice | src/main/java/com/study/form/model/Config.java:257-320 | reading the same map a second time changes no field |
| Configuration.OverlayIdempotent | src/main/java/com/study/form/model/Config.java:257-320 | `fromMap` with the same map twice equals `fromMap` once, in both the fields and whether it returns normally |
| Configuration.Config.constructor | src/main/java/com/study/form/model/Config.java:46-59 | new settings hold the documented defaults |
| Configuration.Config.ToMap | src/main/java/com/study/form/model/Config.java:221-243 | the map holds exactly the persisted keys, each bound to its field's value |
| Configuration.Config.FromMap | src/main/java/com/study/form/model/Config.java:257-320 | the settings and the normal or exceptional return are those the closed form `Overlay` describes |
| Configuration.Config.SetParticipantName | src/main/java/com/study/form/model/Config.java:113-115 | only the participant name changes |
| Configuration.Config.SetParticipantId | src/main/java/com/study/form/model/Config.java:121-123 | only the participant id changes |
| Configuration.Config.SetLogSequence | src/main/java/com/study/form/model/Config.java:193-195 | only the log counter changes |
| Configuration.Config.SetResponseSequence | src/main/java/com/study/form/model/Config.java:201-203 | only the response counter changes |
| Configuration.Config.SetContentWidth | src/main/java/com/study/form/ui/SettingsWindow.java:373-375 | only the content width changes |
| Configuration.Config.Store | src/main/java/com/study/form/model/Config.java:65-211 | the persisted setters together: every persisted field takes the new value and the width is kept |
| Configuration.Config.StoreLocations | src/main/java/com/study/form/model/Config.java:65-123 | the directory, template and participant setters set their fields |
| Configuration.Config.StoreAppearance | src/main/java/com/study/form/model/Config.java:129-155 | the appearance, theme, output-format and font-size setters set their fields |
| Configuration.Config.StoreOptions | src/main/java/com/study/form/model/Config.java:161-211 | the flag and counter setters set their fields |
| ConfigManagement.DefaultConfigData | src/main/java/com/study/form/util/ConfigManager.java:73-89 | default settings start both counters at one and keep the default width |
| ConfigManagement.RestartRestores | src/main/java/com/study/form/util/ConfigManager.java:41-104 | settings saved by one run are the settings the next run loads, except that a null appearance mode, colour theme, output format or font size comes back as "System", "blue", "csv" or "medium" (the null is not written), and the unsaved width comes back as its default |
| ConfigManagement.FirstRunThenRestart | src/main/java/com/study/form/util/ConfigManager.java:52-104 | a first run with no file saves the defaults, and the second run starts from them |
| ConfigManagement.ReloadedRead | src/main/java/com/study/form/model/Config.java:257-320 | `fromMap` over new settings, given a saved file, returns normally and takes every saved value, keeping the constructor's value for each key left out |
| ConfigManagement.QuestionsPathOf | src/main/java/com/study/form/util/ConfigManager.java:110-115 | there is a path exactly when the directory and the file name are both set, and it is the directory, "/" and the file name |
| ConfigManagement.PlainTemplate | src/main/java/com/study/form/util/ConfigManager.java:196-201 | a template with no '{' is used unchanged |
| ConfigManagement.FormatFilenameCounters | src/main/java/com/study/form/util/ConfigManager.java:188-221 | without {sequence} no setting changes; with it, every {sequence} becomes the counter's three-digit value and only that counter goes up by one |
| ConfigManagement.Resolutions | src/main/java/com/study/form/util/ConfigManager.java:188-221 | n resolutions give n names |
| ConfigManagement.ResolutionsSettings | src/main/java/com/study/form/util/ConfigManager.java:204-218 | after n resolutions the template's counter has gone up by n, wrapping as an `int`, and nothing else has changed |
| ConfigManagement.ResolutionName | src/main/java/com/study/form/util/ConfigManager.java:204-218 | the k-th of n resolutions carries the starting counter plus k |
| ConfigManagement.ResolutionsCount | src/main/java/com/study/form/util/ConfigManager.java:188-221 | n resolutions against counter c give the names for c, c+1, ..., c+n-1 and leave the counter at c+n |
| ConfigManagement.LogPathCases | src/main/java/com/study/form/util/ConfigManager.java:124-160 | a null respondent id throws; the result is null exactly for an unset directory or template; otherwise it is a path inside the log directory; settings change only when a sequence number was drawn |
| ConfigManagement.ResponsePathUsesResponseCounter | src/main/java/com/study/form/util/ConfigManager.java:205-214 | the response path always advances the response counter and never the log counter |
| ConfigManagement.SharedTemplateUsesResponseCounter | src/main/java/com/study/form/util/ConfigManager.java:205-214 | a log template equal to the response template draws on the response counter and leaves the log counter alone |
| ConfigManagement.ConfigManager.constructor | src/main/java/com/study/form/util/ConfigManager.java:41-71 | a missing file loads and saves the defaults; an unreadable file, or a map that makes `fromMap` throw, loads the defaults without saving; otherwise the map is read over new settings |
| ConfigManagement.ConfigManager.CreateDefaultConfig | src/main/java/com/study/form/util/ConfigManager.java:73-89 | a new settings object holds the defaults |
| ConfigManagement.ConfigManager.SaveConfig | src/main/java/com/study/form/util/ConfigManager.java:96-104 | the file holds `toMap` of the current settings without its null entries when it can be written, and is left alone otherwise |
| ConfigManagement.ConfigManager.GetQuestionsPath | src/main/java/com/study/form/util/ConfigManager.java:110-115 | the method returns the questions path `QuestionsPathOf` specifies |
| ConfigManagement.ConfigManager.FormatFilename | src/main/java/com/study/form/util/ConfigManager.java:188-221 | the name and the settings are as `FormatFilenameOf` specifies, and the settings are saved exactly when a sequence number was drawn |
| ConfigManagement.ConfigManager.FormatFilePath | src/main/java/com/study/form/util/ConfigManager.java:153-160 | the result is null for an unset directory or template, otherwise the directory, "/" and the resolved name, with the settings afterwards as `FilePathOf` specifies; the settings are saved (one save, the file then holding the new settings when it can be written) exactly when a sequence number is drawn, and otherwise the file and the save count are unchanged |
| ConfigManagement.ConfigManager.GetLogPath | src/main/java/com/study/form/util/ConfigManager.java:124-129 | the log path and the settings afterwards are as `LogPathOf` specifies; the settings are saved exactly when the log name draws a sequence number, and a null id, an unset directory or template, or a name without {sequence} leaves the file and the save count unchanged |
| ConfigManagement.ConfigManager.GetResponsePath | src/main/java/com/study/form/util/ConfigManager.java:138-143 | the response path and the settings afterwards are as `ResponsePathOf` specifies; the settings are saved exactly when the response name draws a sequence number, and otherwise the file and the save count are unchanged |
| ActionLogging.LogEscape | src/main/java/com/study/form/util/ActionLogger.java:59-64 | the logger escapes a non-null string exactly as the file utilities do, and plain text is kept |
| ActionLogging.LogLineRoundTrip | src/main/java/com/study/form/util/ActionLogger.java:44-64 | a log record parses back to its timestamp, action type and details, whatever the details hold |
| ActionLogging.LogLineOneLine | src/main/java/com/study/form/util/ActionLogger.java:44-64 | a record is one line when none of its parts holds a line break |
| ActionLogging.Preview | src/main/java/com/study/form/util/ActionLogger.java:74-80 | a reason up to 100 characters is logged whole; a longer one as its first 100 characters and "..." |
| ActionLogging.AppendKeepsLines | src/main/java/com/study/form/util/ActionLogger.java:44-57 | appending a record keeps the earlier lines and adds one line at the end |
| ActionLogging.LogReadsBack | src/main/java/com/study/form/util/ActionLogger.java:22-57 | a log created by the logger reads back as the header followed by the appended records |
| ActionLogging.ActionLogger.constructor | src/main/java/com/study/form/util/ActionLogger.java:17-42 | a missing log file is created holding the header alone; an existing or uncreatable file is left as it is |
| ActionLogging.ActionLogger.LogAction | src/main/java/com/study/form/util/ActionLogger.java:44-57 | one record is appended, or nothing changes when the file cannot be opened |
| ActionLogging.ActionLogger.LogChoiceSelection | src/main/java/com/study/form/util/ActionLogger.java:66-68 | the record names the question number and the choice |
| ActionLogging.ActionLogger.LogReasonStart | src/main/java/com/study/form/util/ActionLogger.java:70-72 | the record names the question number |
| ActionLogging.ActionLogger.LogReasonText | src/main/java/com/study/form/util/ActionLogger.java:74-80 | the record names the question and the reason's preview |
| ActionLogging.ActionLogger.LogRewriteReason | src/main/java/com/study/form/util/ActionLogger.java:82-84 | the record names the question number |
| ActionLogging.ActionLogger.LogNextQuestion | src/main/java/com/study/form/util/ActionLogger.java:86-88 | the record names the question moved from and the one moved to |
| ActionLogging.ActionLogger.LogSubmit | src/main/java/com/study/form/util/ActionLogger.java:90-92 | the completion record |
| Survey.Step | src/main/java/com/study/form/ui/SurveyInterfaceWindow.java:337-468 | no handler moves past the end of the question list |
| Survey.StepKeepsAnswered | src/main/java/com/study/form/ui/SurveyInterfaceWindow.java:337-468 | every handler keeps the invariant: one response per earlier question, each naming its question and one of its choices with a reason; a lock only with a choice; a choice only among the question's choices |
| Survey.RunKeepsAnswered | src/main/java/com/study/form/ui/SurveyInterfaceWindow.java:337-468 | any sequence of handlers keeps that invariant |
| Survey.CompletedSession | src/main/java/com/study/form/ui/SurveyInterfaceWindow.java:412-452 | a session that reaches the end holds one response per question, in question order, with the question's text and one of its choices |
| Survey.LockedUntilRewrite | src/main/java/com/study/form/ui/SurveyInterfaceWindow.java:337-394 | once the reason is started, no choice button and no typing changes the choice, releases the lock or writes to the log |
| Survey.RewriteReleasesLock | src/main/java/com/study/form/ui/SurveyInterfaceWindow.java:377-410 | the rewrite button keeps the question and the choice and leaves the reason unlocked, after which a choice button changes the choice again; it clears the text and is logged only when the reason was started, the only time it is enabled, and otherwise changes nothing |
| Survey.BackUndoesNext | src/main/java/com/study/form/ui/SurveyInterfaceWindow.java:412-468 | going back after an accepted answer returns to that question unanswered, with the earlier responses |
| Survey.RefusedNext | src/main/java/com/study/form/ui/SurveyInterfaceWindow.java:413-425 | "next" without a choice or with a blank reason changes nothing and logs nothing |
| Survey.AfterLogsLines | src/main/java/com/study/form/util/ActionLogger.java:44-57 | records appended one by one land after the earlier lines, in order |
| Survey.BasePathTargets | src/main/java/com/study/form/ui/SurveyInterfaceWindow.java:501-504 | for a name without other dots, the CSV file goes to the configured path itself and the JSON file beside it |
| Survey.SurveySession.constructor | src/main/java/com/study/form/ui/SurveyInterfaceWindow.java:47-73 | the session opens on the first question, unanswered, with the invariant holding |
| Survey.SurveySession.ResetQuestion | src/main/java/com/study/form/ui/SurveyInterfaceWindow.java:288-294 | showing a question clears the choice, the lock and the reason |
| Survey.SurveySession.ResetReasonInput | src/main/java/com/study/form/ui/SurveyInterfaceWindow.java:373-380 | the reason and the lock are cleared, and the choice stays |
| Survey.SurveySession.SelectChoice | src/main/java/com/study/form/ui/SurveyInterfaceWindow.java:337-357 | the state and the log are those of the choice handler: refused while locked, otherwise the choice is taken, the reason cleared, and the selection logged |
| Survey.SurveySession.OnReasonKeyPress | src/main/java/com/study/form/ui/SurveyInterfaceWindow.java:382-394 | the first non-empty reason sets the lock and is logged once |
| Survey.SurveySession.EditReason | src/main/java/com/study/form/ui/SurveyInterfaceWindow.java:204-210 | the state and the log follow the typing handler, and the invariant is kept |
| Survey.SurveySession.RewriteReason | src/main/java/com/study/form/ui/SurveyInterfaceWindow.java:396-410 | run only while the reason is started, as the button is enabled only then: the reason and the lock are cleared, the choice is kept, the rewrite is logged, and the invariant is kept |
| Survey.ChooseStep | src/main/java/com/study/form/ui/SurveyInterfaceWindow.java:337-357 | a choice button is refused and logs nothing while the reason is started; otherwise it takes its choice, clears the reason and logs one choice record, keeping the answering invariant |
| Survey.TypeStep | src/main/java/com/study/form/ui/SurveyInterfaceWindow.java:382-394 | typing before a choice changes nothing; otherwise the text is taken, and only the first non-empty text while unlocked sets the lock and logs one reason-start record, keeping the answering invariant |
| Survey.BackStep | src/main/java/com/study/form/ui/SurveyInterfaceWindow.java:454-468 | "previous" on the first question changes and logs nothing; otherwise it shows the previous question unanswered, drops the last response, logs one move record and keeps the answering invariant |
| Survey.SurveySession.PrevQuestion | src/main/java/com/study/form/ui/SurveyInterfaceWindow.java:454-468 | the previous question is shown unanswered, the last response is dropped and the move is logged; nothing happens on the first question |
| Survey.SurveySession.RecordAnswer | src/main/java/com/study/form/ui/SurveyInterfaceWindow.java:412-448 | an answer is accepted exactly when a choice is made and the reason is not blank; it is recorded as the next response and the reason (and the move) are logged |
| Survey.SurveySession.LogAnswer | src/main/java/com/study/form/ui/SurveyInterfaceWindow.java:427-448 | the reason record, then the move record unless the question was the last |
| Survey.SurveySession.DisplayQuestion | src/main/java/com/study/form/ui/SurveyInterfaceWindow.java:257-306 | past the last question the survey is submitted and the window closed, with the settings saved exactly when the response name draws a sequence number; otherwise the question is shown unanswered and the settings, their file and the save count are unchanged |
| Survey.SurveySession.NextQuestion | src/main/java/com/study/form/ui/SurveyInterfaceWindow.java:412-452 | the state follows the "next" handler and the invariant is kept; after the last answer the responses are submitted and the window is closed, the settings being saved exactly when the response name draws a sequence number; before that the settings, their file and the save count are unchanged |
| Survey.SurveySession.Submit | src/main/java/com/study/form/ui/SurveyInterfaceWindow.java:470-523 | the submission is logged, the response path resolved (drawing a counter), and the responses saved under the base path in the configured format; the settings file is rewritten with the incremented counter, and the save counted, exactly when a sequence number is drawn; the window closes either way |
| QuestionEditing.LabelsSnoc | src/main/java/com/study/form/ui/QuestionEditorWindow.java:437-442 | adding a question adds one label at the end and keeps the others |
| QuestionEditing.TrimmedChoicesAppend | src/main/java/com/study/form/ui/QuestionEditorWindow.java:289-295 | the choice fields are read one after another, in field order |
| QuestionEditing.TrimmedChoicesClean | src/main/java/com/study/form/ui/QuestionEditorWindow.java:289-295 | every choice read from the form is trimmed and not blank |
| QuestionEditing.TrimmedChoicesOfClean | src/main/java/com/study/form/ui/QuestionEditorWindow.java:289-295 | fields already holding clean choices are read back unchanged |
| QuestionEditing.CollectChoices | src/main/java/com/study/form/ui/QuestionEditorWindow.java:289-295 | the loop keeps each field's trimmed text when not empty, in order |
| QuestionEditing.CollectedQuestion | src/main/java/com/study/form/ui/QuestionEditorWindow.java:281-312 | an accepted question has a trimmed non-empty text and at least two clean choices, and single-line ones survive the question file unchanged |
| QuestionEditing.EditedListRoundTrip | src/main/java/com/study/form/ui/QuestionEditorWindow.java:444-479 | a list built in the editor, with single-line texts and choices, is saved and loaded back exactly |
| QuestionEditing.FillFields | src/main/java/com/study/form/ui/QuestionEditorWindow.java:314-343 | the fields filled for an edited question are as `FilledFields` describes |
| QuestionEditing.FilledFieldsShape | src/main/java/com/study/form/ui/QuestionEditorWindow.java:314-343 | at most ten fields are filled; with more than ten choices the first nine and the last are shown |
| QuestionEditing.EditUnchanged | src/main/java/com/study/form/ui/QuestionEditorWindow.java:314-377 | opening a question made by the form and updating it without a change gives the same question |
| QuestionEditing.SavePathRule | src/main/java/com/study/form/ui/QuestionEditorWindow.java:444-479 | the saved path always ends in ".csv" or ".json"; a path with either is kept; the rule is idempotent and only appends |
| QuestionEditing.QuestionEditor.constructor | src/main/java/com/study/form/ui/QuestionEditorWindow.java:136-139 | the editor opens empty in add mode with the configured number of blank choice fields, at most ten |
| QuestionEditing.QuestionEditor.AddChoiceField | src/main/java/com/study/form/ui/QuestionEditorWindow.java:148-178 | one blank field is added, refused at ten |
| QuestionEditing.QuestionEditor.RemoveChoiceField | src/main/java/com/study/form/ui/QuestionEditorWindow.java:164-169 | exactly that field is removed, and the others keep their order |
| QuestionEditing.QuestionEditor.ClearForm | src/main/java/com/study/form/ui/QuestionEditorWindow.java:387-392 | the text and every field are emptied, and the number of fields stays |
| QuestionEditing.QuestionEditor.UpdateQuestionList | src/main/java/com/study/form/ui/QuestionEditorWindow.java:437-442 | the list shows "n. text" for every question, and the selection is cleared |
| QuestionEditing.QuestionEditor.AddQuestion | src/main/java/com/study/form/ui/QuestionEditorWindow.java:281-312 | a question is added exactly when the form passes its check; it goes at the end and the form is cleared; otherwise nothing changes |
| QuestionEditing.QuestionEditor.EditQuestion | src/main/java/com/study/form/ui/QuestionEditorWindow.java:314-343 | a valid index enters edit mode on that entry, with its text and choices in the form; any other index is ignored |
| QuestionEditing.QuestionEditor.CancelEdit | src/main/java/com/study/form/ui/QuestionEditorWindow.java:379-385 | back to add mode with a cleared form and no selection |
| QuestionEditing.QuestionEditor.UpdateQuestion | src/main/java/com/study/form/ui/QuestionEditorWindow.java:345-377 | the edited entry alone is replaced and add mode is restored; a refused form, or an index that no longer names an entry, changes nothing, the list's selection included |
| QuestionEditing.QuestionEditor.MoveQuestion | src/main/java/com/study/form/ui/QuestionEditorWindow.java:406-420 | the selected entry swaps with its neighbour and the selection follows; with no selection, or at an end, nothing happens |
| QuestionEditing.QuestionEditor.DeleteQuestion | src/main/java/com/study/form/ui/QuestionEditorWindow.java:422-435 | a confirmed deletion removes exactly the selected entry; otherwise nothing changes |
| QuestionEditing.QuestionEditor.SaveQuestions | src/main/java/com/study/form/ui/QuestionEditorWindow.java:444-479 | an empty list or a cancelled dialog writes nothing; otherwise the list goes to the save path as JSON or CSV, and the result says whether the file could be opened |
| QuestionEditing.QuestionEditor.LoadQuestions | src/main/java/com/study/form/ui/QuestionEditorWindow.java:481-502 | a chosen file's questions replace the list unless it yields none, in which case nothing changes |
| QuestionEditing.SwappedIsPermutation | src/main/java/com/study/form/ui/QuestionEditorWindow.java:406-420 | a move is a permutation: two entries trade places and every other entry stays |
| QuestionEditing.MoveBack | src/main/java/com/study/form/ui/QuestionEditorWindow.java:406-420 | moving an entry and moving it back restores the list |
| Settings.WidthBuckets | src/main/java/com/study/form/ui/SettingsWindow.java:313-322 | saving a width choice and reopening selects the same item; a stored width is rounded up to the nearest of the four, and the widest catches the rest |
| Settings.SplitJoin | src/main/java/com/study/form/ui/SettingsWindow.java:332-340 | a path with a directory splits into a directory and a file name without '/' that join back into the path |
| Settings.JoinSplit | src/main/java/com/study/form/ui/SettingsWindow.java:332-340 | a directory and a plain file name joined by '/' split back into the two |
| Settings.BareNameHasNoParent | src/main/java/com/study/form/ui/SettingsWindow.java:332-340 | a bare file name has a null directory and is its own name |
| Settings.SequencesChecked | src/main/java/com/study/form/ui/SettingsWindow.java:352-366 | the settings are saved exactly when both sequence fields hold integers of at least one, and the counters then take those values; otherwise the counters are unchanged |
| Settings.BlankPathKeepsQuestions | src/main/java/com/study/form/ui/SettingsWindow.java:330-341 | a blank questions path leaves the questions directory and file as they were |
| Settings.SavedQuestionsPath | src/main/java/com/study/form/ui/SettingsWindow.java:330-341 | a questions path with a directory is stored so that the survey finds that very path again |
| Settings.ShownFieldsSaved | src/main/java/com/study/form/ui/SettingsWindow.java:288-350 | the fields written before the sequence check come back unchanged for settings the form can show exactly |
| Settings.ReopenAndSave | src/main/java/com/study/form/ui/SettingsWindow.java:288-383 | opening the window and saving at once leaves such settings unchanged, and they are saved |
| Settings.SettingsWindow.constructor | src/main/java/com/study/form/ui/SettingsWindow.java:36-45 | the window opens with the form filled from the current settings |
| Settings.SettingsWindow.LoadCurrentSettings | src/main/java/com/study/form/ui/SettingsWindow.java:288-323 | the form shows the settings: null as empty, box items as selectable, and the width as its item |
| Settings.SettingsWindow.StoreFields | src/main/java/com/study/form/ui/SettingsWindow.java:325-350 | the participant, questions path, locations and boxes are written into the settings |
| Settings.SettingsWindow.SaveSettings | src/main/java/com/study/form/ui/SettingsWindow.java:325-383 | the settings become those `SavedSettings` specifies; they are saved and the window closes exactly when the sequence fields are good; otherwise nothing is saved and the window stays open |
| ParticipantInfo.ConfirmOf | src/main/java/com/study/form/ui/ParticipantInfoWindow.java:124-142 | a blank name warns first, then a blank id warns; otherwise both are confirmed, trimmed |
| ParticipantInfo.Prefilled | src/main/java/com/study/form/ui/ParticipantInfoWindow.java:112-122 | a stored, non-empty value pre-fills the field; a null or empty one leaves the field's text |
| ParticipantInfo.ConfirmIsStable | src/main/java/com/study/form/ui/ParticipantInfoWindow.java:112-151 | confirmed values are stored trimmed and non-blank, so reopening shows them and confirming again stores the same |
| ParticipantInfo.ParticipantInfoWindow.constructor | src/main/java/com/study/form/ui/ParticipantInfoWindow.java:46-57 | the dialog opens unconfirmed, pre-filled from the settings |
| ParticipantInfo.ParticipantInfoWindow.LoadCurrentInfo | src/main/java/com/study/form/ui/ParticipantInfoWindow.java:112-122 | each field is pre-filled from its stored, non-empty value |
| ParticipantInfo.ParticipantInfoWindow.ConfirmInput | src/main/java/com/study/form/ui/ParticipantInfoWindow.java:124-151 | with a name and an id, both are stored trimmed, the settings are saved, and the dialog closes confirmed; otherwise nothing changes |
| ParticipantInfo.ParticipantInfoWindow.CancelInput | src/main/java/com/study/form/ui/ParticipantInfoWindow.java:153-156 | the dialog closes unconfirmed and the settings are untouched |
| SurveyStart.BothManagersLoadTheSame | src/main/java/com/study/form/util/ConfigManager.java:52-71 | a manager built after another one wrote a missing file loads the same settings as that one did |
| SurveyStart.StaleParticipantAsWritten | src/main/java/com/study/form/ui/SurveyInterfaceWindow.java:52-69 | as written, the log path comes from the settings as they were before the dialog, and when it draws a sequence number the next run starts with the old participant name and id |
| SurveyStart.SharedManagerKeepsParticipant | src/main/java/com/study/form/ui/SurveyInterfaceWindow.java:52-69 | with one shared manager, the log path comes from the confirmed name and id, and the next run starts with them |
| SurveyStart.AlreadyConfirmedAgrees | src/main/java/com/study/form/ui/SurveyInterfaceWindow.java:52-69 | when the settings already hold the confirmed name and id, the two starts agree |
| SurveyStart.NameTemplate | src/main/java/com/study/form/util/ConfigManager.java:188-201 | the template "{participant_name}" becomes the participant's name, empty when null, and draws no sequence number |
| SurveyStart.StaleNameAsWritten | src/main/java/com/study/form/ui/SurveyInterfaceWindow.java:52-69 | as written, with no stored participant, the log directory "logs" and the log template "{participant_name}", confirming "Alice" logs to "logs/" and saves the confirmed settings |
| SurveyStart.StaleNameShared | src/main/java/com/study/form/ui/ParticipantInfoWindow.java:143-147 | with a shared manager and the same settings, confirming "Alice" logs to "logs/Alice" and saves the same settings |
| SurveyStart.NameShared | src/main/java/com/study/form/ui/ParticipantInfoWindow.java:143-147 | with a shared manager, no stored participant, the log directory "logs" and the log template "{participant_name}", any confirmed name without "{" names the log "logs/" followed by that name, and the confirmed settings are saved as they are |
| SurveyStart.StaleNameExample | src/main/java/com/study/form/ui/ParticipantInfoWindow.java:53 | on those settings the two starts save the same settings but name the log "logs/" and "logs/Alice" |

## Left out

- Swing layout, fonts, colours, dialogs' texts and HTML wrapping of question and
  choice texts are not modelled; only what the widgets hold is.
- JSON (Gson) serialisation and parsing are outside the core: the document
  written by `saveQuestionsToJSON`, `saveResponseToJSON` and `saveConfig` is the
  map or text passed in, and `loadQuestionsFromJSON` is a `decodeJson`
  parameter. `fromMap` reads a map the model takes as already parsed; a Gson
  Double is modelled by the value of its `intValue()`.
- The clock, `UUID.randomUUID()`, the file choosers and the confirmation dialogs
  are parameters. One handler receives one timestamp: the log record and the
  response timestamp of one "next" press, read from two clock calls in the
  same format in the source, are taken from the same parameter.
- Paths use the Unix separator "/" and are taken in normal form; `File`'s path
  normalisation (doubled or trailing separators) and Windows roots are not
  modelled. `mkdirs` before writing is not modelled; a path that cannot be opened
  stands for a missing directory.
- Strings are sequences of `char`; UTF-8 encoding and the BOM as bytes are not
  modelled (the BOM is the character U+FEFF).
- `ParseInt` accepts ASCII digits only; `Integer.parseInt` also accepts other
  Unicode decimal digits.
- `getNextSequenceNumber`, `buildSequencePattern` and `extractSequenceNumber`
  (ConfigManager.java lines 223-266) are not called anywhere in the core and are
  not modelled.
- The start-up flow of the survey window (the question file dialog, the
  respondent id from a UUID) is reduced to the session constructor's parameters
  and a non-empty question list. The participant dialog and the log path are
  modelled in `SurveyStart`; the dialog's class takes the survey's manager, which
  is the corrected start described under Findings.
- `displayQuestion` trims the question text, which throws for a question with a
  null text (a JSON file without a text); the model shows such a question.
- A null choice list (`"choices": null` in a JSON file) and a null choice inside
  a list are not modelled; choices are always a list of strings. With a null
  list, `saveQuestionsToCSV` throws after writing the header (`FileUtils.java`
  lines 62-66), which leaves a partial file and returns false; `editQuestion`
  throws at `QuestionEditorWindow.java` line 330 and `displayQuestion` at
  `SurveyInterfaceWindow.java` line 283.
- `ActionLogging.Preview` counts characters, while Java's `length()` and
  `substring` (ActionLogger.java lines 76-77) count UTF-16 code units. A reason
  with characters outside the Basic Multilingual Plane is therefore cut later in
  the model than in the source, which may also split such a character's
  surrogate pair: 99 'a' and U+1F600 are 101 units in Java, logged as their first
  100 units and "...", but 100 characters here, logged whole.
- A null action-log path makes `new File(null)` throw in the logger's
  constructor; the model always has a log path.
- `MainWindow` and `SurveyApp` only open the windows and are not modelled.
- `Survey.SurveySession.RecordAnswer` logs the reason before recording the
  response, as the source does; the response list and the log are separate, so
  the order does not change either.
- `QuestionEditing.QuestionEditor.UpdateQuestion` models the
  IndexOutOfBoundsException of an update whose entry was deleted or replaced
  meanwhile as an outcome that changes nothing, which is where the handler stops.

## Findings

The survey window builds its settings manager (`SurveyInterfaceWindow.java`
line 52), and the participant dialog then builds a second one (line 53 of
`ParticipantInfoWindow.java`). The dialog stores the confirmed name and id in its
own copy and saves that copy (line 147). The survey window keeps its own copy,
loaded before the dialog. It resolves the log path from that copy (line 69), and
later the response path (line 474). When a template draws a sequence number,
`formatFilename` saves that copy (`ConfigManager.java` line 217), which puts the
old name and id back into the file. `SurveyStart.StaleNameExample` shows the
input below. The rest of the model uses the corrected start: the participant
dialog stores into the manager it is given.

| source | as written | input that shows it | evidently intended | confidence | as-written member | corrected member |
|---|---|---|---|---|---|---|
| src/main/java/com/study/form/ui/ParticipantInfoWindow.java:53 | the dialog saves the confirmed participant into its own settings copy; the survey window fills file names from its older copy | no stored participant, log directory "logs", log template "{participant_name}", "Alice" and "7" confirmed: the log is "logs/" rather than "logs/Alice" | the dialog stores into the survey window's settings, so names and the saved file use the confirmed participant | high, not executed | SurveyStart.StaleParticipantAsWritten | SurveyStart.SharedManagerKeepsParticipant |
