/** The start of a survey when the settings ask for the participant's details:
    the survey window loads the settings, the participant dialog confirms a name
    and an id into the settings and saves them, and the window then resolves the
    path of its action log (and, at the end, of its response file).

    As written, the survey window and the dialog each build their own settings
    manager, so each holds its own copy of the settings: the confirmed name and id
    reach the dialog's copy and the file, but not the survey window's copy, which
    then fills the file-name templates and, when a template draws a sequence
    number, saves that stale copy over the file. The corrected start shares one
    manager between the two windows, as `ParticipantInfo.ParticipantInfoWindow`
    does with the manager it is given. Settings files that cannot be written are
    left to `ConfigManagement.ConfigManager`; here every save succeeds. */
module SurveyStart {
  import opened Wrappers
  import opened Strings
  import opened Configuration
  import opened ConfigManagement
  import opened ParticipantInfo
  import opened Constants

  /** What the start leaves behind: the log path, and the settings last saved to
      the file. */
  datatype Started = Started(logPath: PathResult, saved: ConfigData)

  /** The file after a manager is built from `source`: a missing file is written
      with the defaults when it can be. */
  function FileAfterLoad(source: ConfigSource, baseDir: string, writable: bool): ConfigSource {
    if source == Missing && writable then Parsed(WithoutNulls(ToMapOf(LoadedData(source, baseDir)))) else source
  }

  /** The start as written, from the settings `d` both managers load: the dialog
      confirms into its own copy and saves it; the log path is resolved from the
      survey window's copy, which is saved over the file when a sequence number is
      drawn. None when the dialog is closed without a confirmed name and id. */
  function StartAsWritten(d: ConfigData, nameText: string, idText: string, now: Clock, respondentId: string): Option<Started> {
    if !ConfirmOf(nameText, idText).Confirmed? then None
    else
      var dialogCopy := ConfirmedData(d, nameText, idText);
      var (logPath, surveyCopy) := LogPathOf(now, Some(respondentId), d);
      Some(Started(logPath, if LogDraws(now, Some(respondentId), d) then surveyCopy else dialogCopy))
  }

  /** The corrected start: the dialog confirms into the survey window's own
      settings, from which the log path is then resolved. */
  function StartShared(d: ConfigData, nameText: string, idText: string, now: Clock, respondentId: string): Option<Started> {
    if !ConfirmOf(nameText, idText).Confirmed? then None
    else
      var shared := ConfirmedData(d, nameText, idText);
      var (logPath, after) := LogPathOf(now, Some(respondentId), shared);
      Some(Started(logPath, if LogDraws(now, Some(respondentId), shared) then after else shared))
  }

  /** The dialog's manager, built after the survey window's one wrote a missing
      file, loads the same settings as the survey window's manager did. */
  lemma BothManagersLoadTheSame(source: ConfigSource, baseDir: string, writable: bool)
    ensures LoadedData(FileAfterLoad(source, baseDir, writable), baseDir) == LoadedData(source, baseDir)
  {
    if source == Missing && writable {
      FirstRunThenRestart(baseDir);
    }
  }

  /** As written, the log path is resolved from the settings as they were before
      the dialog, whatever name and id were confirmed; and when a sequence number
      is drawn, the file ends up holding the old name and id, so the next run
      starts without the confirmed ones. */
  lemma StaleParticipantAsWritten(d: ConfigData, nameText: string, idText: string, now: Clock, respondentId: string,
                                  baseDir: string)
    requires ConfirmOf(nameText, idText).Confirmed?
    ensures StartAsWritten(d, nameText, idText, now, respondentId).Some?
    ensures StartAsWritten(d, nameText, idText, now, respondentId).value.logPath == LogPathOf(now, Some(respondentId), d).0
    ensures LogDraws(now, Some(respondentId), d) ==>
      var next := LoadedData(Parsed(WithoutNulls(ToMapOf(StartAsWritten(d, nameText, idText, now, respondentId).value.saved))), baseDir);
      next.participantName == d.participantName && next.participantId == d.participantId
  {
    var s := StartAsWritten(d, nameText, idText, now, respondentId).value.saved;
    RestartRestores(s, baseDir);
    if LogDraws(now, Some(respondentId), d) {
      FormatFilenameCounters(d.logNameFormat.value, now, respondentId, d);
    }
  }

  /** With the shared manager, the log path is resolved from the confirmed name
      and id, and the file ends up holding them, so the next run starts with them. */
  lemma SharedManagerKeepsParticipant(d: ConfigData, nameText: string, idText: string, now: Clock, respondentId: string,
                                      baseDir: string)
    requires ConfirmOf(nameText, idText).Confirmed?
    ensures StartShared(d, nameText, idText, now, respondentId).Some?
    ensures StartShared(d, nameText, idText, now, respondentId).value.logPath
         == LogPathOf(now, Some(respondentId), ConfirmedData(d, nameText, idText)).0
    ensures var next := LoadedData(Parsed(WithoutNulls(ToMapOf(StartShared(d, nameText, idText, now, respondentId).value.saved))), baseDir);
            next.participantName == Some(Trim(nameText)) && next.participantId == Some(Trim(idText))
  {
    var shared := ConfirmedData(d, nameText, idText);
    var s := StartShared(d, nameText, idText, now, respondentId).value.saved;
    RestartRestores(s, baseDir);
    if LogDraws(now, Some(respondentId), shared) {
      FormatFilenameCounters(shared.logNameFormat.value, now, respondentId, shared);
    }
  }

  /** The start differs only in where the confirmed values go: when the survey
      window's settings already hold the confirmed name and id, both starts agree. */
  lemma AlreadyConfirmedAgrees(d: ConfigData, nameText: string, idText: string, now: Clock, respondentId: string)
    requires ConfirmOf(nameText, idText).Confirmed?
    requires d.participantName == Some(Trim(nameText)) && d.participantId == Some(Trim(idText))
    ensures StartAsWritten(d, nameText, idText, now, respondentId) == StartShared(d, nameText, idText, now, respondentId)
  {
    assert ConfirmedData(d, nameText, idText) == d;
  }

  /** A token that starts like "{participant_name}" but differs in its second
      character leaves "{participant_name}" as it is. */
  lemma NameTokenKeptBy(pat: string, rep: string)
    requires |pat| > 1 && pat[0] == '{' && pat[1] != 'p'
    ensures ReplaceAll("{participant_name}", pat, rep) == "{participant_name}"
  {
    var s := "{participant_name}";
    assert s[1..] == "participant_name}";
    assert !StartsWith(s, pat) by { assert s[1] == 'p'; }
    OnlyAtStart(s, pat, rep);
  }

  /** The date, time and respondent-id substitutions leave "{participant_name}"
      as it is. */
  lemma NameTokenKept(now: Clock, respondentId: string)
    ensures var s := "{participant_name}";
            ReplaceAll(ReplaceAll(ReplaceAll(s, "{date}", now.date), "{time}", now.time), "{respondent_id}", respondentId) == s
  {
    NameTokenKeptBy("{date}", now.date);
    NameTokenKeptBy("{time}", now.time);
    NameTokenKeptBy("{respondent_id}", respondentId);
  }

  /** The template "{participant_name}" is filled with the participant's name
      (empty when null) and, for a name without '{', draws no sequence number. */
  lemma NameTemplate(now: Clock, respondentId: string, d: ConfigData)
    requires '{' !in d.participantName.GetOr("")
    ensures Substitute("{participant_name}", now, respondentId, d) == d.participantName.GetOr("")
    ensures !UsesSequence("{participant_name}", now, respondentId, d)
  {
    var s := "{participant_name}";
    var name := d.participantName.GetOr("");
    NameTokenKept(now, respondentId);
    ReplaceAllWhole(s, name);
    FirstCharAbsent(name, "{participant_id}");
    ReplaceAllAbsent(name, "{participant_id}", d.participantId.GetOr(""));
    FirstCharAbsent(name, SequenceToken);
  }

  /** With the log directory "logs" and the template "{participant_name}", the log
      path is "logs/" followed by the participant's name. */
  lemma NameLogPath(now: Clock, respondentId: string, d: ConfigData)
    requires d.logDirectory == Some("logs") && d.logNameFormat == Some("{participant_name}")
    requires '{' !in d.participantName.GetOr("")
    ensures LogPathOf(now, Some(respondentId), d) == (PathTo("logs/" + d.participantName.GetOr("")), d)
    ensures !LogDraws(now, Some(respondentId), d)
  {
    NameTemplate(now, respondentId, d);
    assert "logs" + Sep == "logs/";
  }

  /** The settings of the example: no stored participant, the log directory "logs"
      and the log template "{participant_name}". */
  predicate NameOnlyLog(d: ConfigData) {
    d.participantName == None && d.logDirectory == Some("logs") && d.logNameFormat == Some("{participant_name}")
  }

  /** As written, confirming "Alice" logs to "logs/", and the dialog's save is the
      last one. */
  lemma StaleNameAsWritten(d: ConfigData, now: Clock, respondentId: string)
    requires NameOnlyLog(d)
    ensures StartAsWritten(d, "Alice", "7", now, respondentId) ==
            Some(Started(PathTo("logs/"), d.(participantName := Some("Alice"), participantId := Some("7"))))
  {
    AliceConfirmed();
    assert ConfirmedData(d, "Alice", "7") == d.(participantName := Some("Alice"), participantId := Some("7"));
    NameLogPath(now, respondentId, d);
    assert "logs/" + d.participantName.GetOr("") == "logs/";
  }

  /** With a shared manager, confirming "Alice" logs to "logs/Alice". */
  lemma StaleNameShared(d: ConfigData, now: Clock, respondentId: string)
    requires NameOnlyLog(d)
    ensures StartShared(d, "Alice", "7", now, respondentId) ==
            Some(Started(PathTo("logs/Alice"), d.(participantName := Some("Alice"), participantId := Some("7"))))
  {
    AliceConfirmed();
    NameShared(d, "Alice", "7", now, respondentId, "logs/Alice");
  }

  /** With a shared manager, a confirmed name without '{' names the log `path`,
      which is "logs/" followed by that name, and the confirmed settings are saved
      as they are. */
  lemma NameShared(d: ConfigData, name: string, id: string, now: Clock, respondentId: string, path: string)
    requires NameOnlyLog(d) && ConfirmOf(name, id) == Confirmed(name, id) && '{' !in name
    requires path == "logs/" + name
    ensures StartShared(d, name, id, now, respondentId) ==
            Some(Started(PathTo(path), d.(participantName := Some(name), participantId := Some(id))))
  {
    var shared := d.(participantName := Some(name), participantId := Some(id));
    assert ConfirmedData(d, name, id) == shared;
    NameLogPath(now, respondentId, shared);
    SharedWithoutDraw(d, name, id, now, respondentId);
  }

  /** When the confirmed settings draw no sequence number, the shared start saves
      exactly the confirmed settings. */
  lemma SharedWithoutDraw(d: ConfigData, nameText: string, idText: string, now: Clock, respondentId: string)
    requires ConfirmOf(nameText, idText).Confirmed?
    requires !LogDraws(now, Some(respondentId), ConfirmedData(d, nameText, idText))
    ensures StartShared(d, nameText, idText, now, respondentId)
         == Some(Started(LogPathOf(now, Some(respondentId), ConfirmedData(d, nameText, idText)).0, ConfirmedData(d, nameText, idText)))
  {
  }

  /** A log template naming the participant, on a start with no stored
      participant: confirming "Alice" gives the log file "logs/" as written and
      "logs/Alice" with the shared manager, although both save the same settings. */
  lemma StaleNameExample(d: ConfigData, now: Clock, respondentId: string)
    requires NameOnlyLog(d)
    ensures StartAsWritten(d, "Alice", "7", now, respondentId).value.logPath == PathTo("logs/")
    ensures StartShared(d, "Alice", "7", now, respondentId).value.logPath == PathTo("logs/Alice")
    ensures StartAsWritten(d, "Alice", "7", now, respondentId).value.saved
         == StartShared(d, "Alice", "7", now, respondentId).value.saved
  {
    StaleNameAsWritten(d, now, respondentId);
    StaleNameShared(d, now, respondentId);
  }

  /** "Alice" and "7" are confirmed as they are. */
  lemma AliceConfirmed()
    ensures ConfirmOf("Alice", "7") == Confirmed("Alice", "7")
  {
    assert Trim("Alice") == "Alice" && Trim("7") == "7";
  }
}
