/** The participant dialog shown before a survey: the participant's name and id,
    pre-filled from the settings, are confirmed into the settings or the dialog is
    cancelled. The text fields are modelled by their contents. */
module ParticipantInfo {
  import opened Wrappers
  import opened Strings
  import opened Configuration
  import ConfigManagement

  /** What pressing the confirm button gives: a warning about the name, a warning
      about the id, or the trimmed name and id to store. */
  datatype ConfirmOutcome = NameMissing | IdMissing | Confirmed(name: string, id: string)

  /** `confirmInput`'s checks on the two fields: the name is checked first, and both
      are checked after trimming. */
  function ConfirmOf(nameText: string, idText: string): (r: ConfirmOutcome)
    ensures r == NameMissing <==> Trim(nameText) == ""
    ensures r == IdMissing <==> Trim(nameText) != "" && Trim(idText) == ""
    ensures r.Confirmed? ==> r.name == Trim(nameText) && r.id == Trim(idText)
  {
    var name := Trim(nameText);
    var id := Trim(idText);
    if name == "" then NameMissing
    else if id == "" then IdMissing
    else Confirmed(name, id)
  }

  /** The settings after confirming: the name and id stored when both were given,
      otherwise unchanged. */
  function ConfirmedData(d: ConfigData, nameText: string, idText: string): ConfigData {
    match ConfirmOf(nameText, idText)
    case Confirmed(name, id) => d.(participantName := Some(name), participantId := Some(id))
    case _ => d
  }

  /** `loadCurrentInfo` for one field: a stored value that is neither null nor empty
      replaces the field's text; otherwise the field keeps its text. */
  function Prefilled(field: string, stored: Option<string>): (r: string)
    ensures stored.Some? && stored.value != "" ==> r == stored.value
    ensures stored == None || stored == Some("") ==> r == field
  {
    if stored.Some? && stored.value != "" then stored.value else field
  }

  /** A confirmed name and id are stored trimmed and not blank, so that opening the
      dialog again shows them and confirming again stores the same values. */
  lemma ConfirmIsStable(d: ConfigData, nameText: string, idText: string)
    requires ConfirmOf(nameText, idText).Confirmed?
    ensures var d1 := ConfirmedData(d, nameText, idText);
            && d1.participantName.Some? && d1.participantId.Some?
            && !IsBlank(d1.participantName.value) && !IsBlank(d1.participantId.value)
            && Prefilled("", d1.participantName) == Trim(nameText)
            && Prefilled("", d1.participantId) == Trim(idText)
            && ConfirmedData(d1, Trim(nameText), Trim(idText)) == d1
  {
    TrimmedIsTrim(nameText);
    TrimmedIsTrim(idText);
  }

  /** The dialog, storing into the settings of `manager`. */
  class ParticipantInfoWindow {
    const manager: ConfigManagement.ConfigManager
    var nameField: string
    var idField: string
    var confirmed: bool
    var disposed: bool

    /** The dialog opens unconfirmed, with its fields filled from the settings. */
    constructor (manager0: ConfigManagement.ConfigManager)
      ensures manager == manager0 && !confirmed && !disposed
      ensures nameField == Prefilled("", manager0.config.participantName)
      ensures idField == Prefilled("", manager0.config.participantId)
    {
      manager := manager0;
      nameField := "";
      idField := "";
      confirmed := false;
      disposed := false;
      new;
      LoadCurrentInfo();
    }

    /** `loadCurrentInfo`. */
    method LoadCurrentInfo()
      modifies this`nameField, this`idField
      ensures nameField == Prefilled(old(nameField), manager.config.participantName)
      ensures idField == Prefilled(old(idField), manager.config.participantId)
    {
      var name := manager.config.participantName;
      var id := manager.config.participantId;
      if name.Some? && name.value != "" {
        nameField := name.value;
      }
      if id.Some? && id.value != "" {
        idField := id.value;
      }
    }

    /** The participant types into the two fields. */
    method Type(name: string, id: string)
      modifies this`nameField, this`idField
      ensures nameField == name && idField == id
    {
      nameField := name;
      idField := id;
    }

    /** `confirmInput`: with a name and an id, both trimmed, stores them, saves the
        settings and closes confirmed; otherwise warns and changes nothing. */
    method ConfirmInput() returns (outcome: ConfirmOutcome)
      requires !disposed
      modifies manager.config`participantName, manager.config`participantId, manager`file, manager`saves
      modifies this`confirmed, this`disposed
      ensures outcome == ConfirmOf(nameField, idField)
      ensures manager.config.Data() == ConfirmedData(old(manager.config.Data()), nameField, idField)
      ensures confirmed == (old(confirmed) || outcome.Confirmed?)
      ensures disposed == outcome.Confirmed?
      ensures outcome.Confirmed? ==> manager.saves == old(manager.saves) + 1
                                     && manager.file == (if manager.writable then ConfigManagement.ConfigSource.Parsed(ConfigManagement.WithoutNulls(ToMapOf(manager.config.Data())))
                                                         else old(manager.file))
      ensures !outcome.Confirmed? ==> manager.saves == old(manager.saves) && manager.file == old(manager.file)
    {
      var name := Trim(nameField);
      var id := Trim(idField);
      if name == "" {
        return NameMissing;
      }
      if id == "" {
        return IdMissing;
      }
      manager.config.SetParticipantName(name);
      manager.config.SetParticipantId(id);
      manager.SaveConfig();
      confirmed := true;
      disposed := true;
      outcome := Confirmed(name, id);
    }

    /** `cancelInput`: the dialog closes unconfirmed and the settings are left as
        they were. */
    method CancelInput()
      modifies this`confirmed, this`disposed
      ensures !confirmed && disposed
    {
      confirmed := false;
      disposed := true;
    }
  }
}
