/**
 * The account record (QMailAccount) the email account edits: its name,
 * status flags, custom fields, from-address and id.
 */
module AccountRecords {
  import opened AccountIds
  import opened DecimalText

  /** The status flags the account sets when it is saved. */
  datatype StatusFlag =
    | UserEditable | UserRemovable | MessageSource | CanRetrieve
    | MessageSink | CanTransmit | Enabled | CanCreateFolders

  /** All eight flags save() turns on. */
  const SavedFlags: set<StatusFlag> :=
    {UserEditable, UserRemovable, MessageSource, CanRetrieve, MessageSink, CanTransmit, Enabled, CanCreateFolders}

  datatype AccountRecord = AccountRecord(
    name: string, status: set<StatusFlag>, customFields: map<string, string>,
    fromAddress: string, id: Uint64)

  /** A newly created QMailAccount: nothing set and no id. */
  const NewRecord: AccountRecord := AccountRecord("", {}, map[], "", InvalidId)

  /** The custom field "preset". */
  const PresetField: string := "preset"

  /** customField(key): the stored text, or "" when there is none. */
  function CustomField(r: AccountRecord, key: string): string {
    if key in r.customFields then r.customFields[key] else ""
  }

  /** preset(): the "preset" custom field read as an int. */
  function Preset(r: AccountRecord): Int32 {
    ToInt(CustomField(r, PresetField))
  }

  /** setPreset(v): the "preset" custom field holds the decimal text of v. */
  function WithPreset(r: AccountRecord, v: Int32): (s: AccountRecord)
    ensures s.name == r.name && s.status == r.status && s.fromAddress == r.fromAddress && s.id == r.id
    ensures forall k :: k != PresetField ==> CustomField(s, k) == CustomField(r, k)
    ensures CustomField(s, PresetField) == Number(v)
  {
    r.(customFields := r.customFields[PresetField := Number(v)])
  }

  /** setStatus(flag, on): flag is added or taken away, every other flag and field is kept. */
  function WithStatus(r: AccountRecord, flag: StatusFlag, on: bool): (s: AccountRecord)
    ensures on ==> s.status == r.status + {flag}
    ensures !on ==> s.status == r.status - {flag}
    ensures s == r.(status := s.status)
  {
    r.(status := if on then r.status + {flag} else r.status - {flag})
  }

  /** The eight setStatus(flag, true) calls save() makes, in its order. */
  function WithSavedFlags(r: AccountRecord): (s: AccountRecord)
    ensures s.status == r.status + SavedFlags
    ensures s == r.(status := s.status)
  {
    var s1 := WithStatus(r, UserEditable, true);
    var s2 := WithStatus(s1, UserRemovable, true);
    var s3 := WithStatus(s2, MessageSource, true);
    var s4 := WithStatus(s3, CanRetrieve, true);
    var s5 := WithStatus(s4, MessageSink, true);
    var s6 := WithStatus(s5, CanTransmit, true);
    var s7 := WithStatus(s6, Enabled, true);
    var s8 := WithStatus(s7, CanCreateFolders, true);
    assert forall f :: f in s8.status <==> f in r.status || f in SavedFlags;
    s8
  }

  /** preset() after setPreset(v) is v, whatever the record held before. */
  lemma PresetRoundTrip(r: AccountRecord, v: Int32)
    ensures Preset(WithPreset(r, v)) == v
  {
    NumberRoundTrip(v);
  }

  /** A new record, whose preset field is missing, reads as noPreset (0). */
  lemma NewRecordHasNoPreset()
    ensures Preset(NewRecord) == 0
  {
  }
}
