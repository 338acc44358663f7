# EmailAccount, modelled in Dafny

`EmailAccount` is the object through which a mail client edits one email
account. The object holds three things:

- an account record (`QMailAccount`): its description, status flags, custom
  fields, from-address and id;
- an account configuration (`QMailAccountConfiguration`): one key/value map
  per service (the storage manager, `smtp`, and the receive service `pop3` or
  `imap4`);
- the password as typed and the last connection-test error.

The object exposes the settings as properties. It fills them in from vendor
presets, saves or removes the account, and runs a two-step connection test:
folder-list retrieval first, then transmission.

The model is split into modules along the structure of `src/emailaccount.cpp`:

- `CodeTables`: the four translators of the anonymous namespace (receive type
  in both directions, security, authentication).
- `AddressParts`: the read-only `username` and `server` properties cut from
  the address.
- `DecimalText`: `QString::number` and `QString::toInt`, which store the
  preset as text in a custom field.
- `AccountIds`: the 64-bit account id, its validity, and `accountId()`.
- `AccountRecords`: the account record, its status flags and the preset
  field.
- `ServiceConfig`: the configuration as a map from service name to type,
  version and key/value settings.
- `Presets`: the table of values `applyPreset` writes for each vendor.
- `ConnectionTest`: `testConfiguration` and `activityChanged` as a reaction
  to an explicit event, plus traces over sequences of events.
- `EmailAccounts`: `init` as a pure function on configurations, and the
  class `EmailAccount`. The class has the source's fields (`account`,
  `config`, `recvType`, `password`, `errorMessage`, `errorCode`), getters as
  reading functions, and the mutating operations as methods with `modifies`
  frames and full next-state `ensures`.

Some parts of the environment become parameters:

- The store's answers (`updateAccount`, `addAccount`, `removeAccount`)
  become Boolean method parameters. The id `addAccount` gives a new
  account becomes a parameter of `Save`.
- The Base64 coding becomes two function-valued fields, `encode` and
  `decode`, about which nothing is assumed.
- The sender of an activity report becomes part of the event.
- The stored configuration that the copy constructor loads becomes a
  constructor parameter.

Some behaviour of the mail framework is not visible in this source and is
taken as given:

- `addServiceConfiguration` leaves an existing service unchanged.
- `value()` of a key never written is the empty string.
- `setType`/`setVersion` record a type and a version on the service.
- The preset enumeration counts from `noPreset = 0` in the order `noPreset,
  mobileme, gmail, yahoo, aol, mslive`. Its declaration (emailaccount.h) is
  not part of this model.

## Model

| member | source | states |
|---|---|---|
| CodeTables.ExternalRecvType | src/emailaccount.cpp:186-194 | "pop3" gives "0" and "imap4" gives "1", each in both directions (<==>); any other internal name gives "" |
| CodeTables.InternalRecvType | src/emailaccount.cpp:197-205 | "0" gives "pop3" and "1" gives "imap4", each in both directions; any other code gives "" |
| CodeTables.SecurityType | src/emailaccount.cpp:208-218 | the result is always one of "0", "1", "2"; "1" exactly for SSL, "2" exactly for TLS, and "0" for every other name, "none" included |
| CodeTables.AuthorizationType | src/emailaccount.cpp:221-233 | the result is always one of "0"–"3"; "1" exactly for Login, "2" for Plain, "3" for CRAM-MD5, "0" otherwise |
| CodeTables.InternalOfExternal | src/emailaccount.cpp:186-205 | internalRecvType(externalRecvType(t)) == t for t in {pop3, imap4} |
| CodeTables.ExternalOfInternal | src/emailaccount.cpp:186-205 | externalRecvType(internalRecvType(e)) == e for e in {"0", "1"} |
| CodeTables.RecvTablesInverse | src/emailaccount.cpp:186-205 | on the known names and codes the two receive tables are inverse bijections (iff) |
| CodeTables.UnknownRecvTypeIsEmpty | src/emailaccount.cpp:186-205 | a value neither table knows translates to "" either way, and so does a round trip of it |
| AddressParts.FirstAt | src/emailaccount.cpp:390 | the index of the first '@' (no '@' before it), or the length when there is none |
| AddressParts.AfterLastAt | src/emailaccount.cpp:396 | the index just past the last '@' (no '@' after it), or 0 when there is none |
| AddressParts.Username | src/emailaccount.cpp:387-391 | username() is a prefix of the address holding no '@', followed in the address by '@' when shorter |
| AddressParts.Server | src/emailaccount.cpp:393-397 | server() is a suffix of the address holding no '@', preceded in the address by '@' when shorter |
| AddressParts.NoAtKeepsAddress | src/emailaccount.cpp:387-397 | without '@' both username() and server() are the whole address |
| AddressParts.AtShortensBoth | src/emailaccount.cpp:387-397 | with an '@' both parts are strictly shorter than the address |
| AddressParts.SingleAtSplits | src/emailaccount.cpp:387-397 | for user "@" host with no other '@', username is user, server is host, and username + "@" + server is the address |
| AddressParts.PartsAroundAts | src/emailaccount.cpp:387-397 | the username ends at an '@', the server starts after an '@', and the username ends before the server starts |
| DecimalText.Digits | src/emailaccount.cpp:547 | the decimal digits of a natural number are a non-empty string of digits, with no leading zero for a positive number |
| DecimalText.Number | src/emailaccount.cpp:547 | QString::number(n) is non-empty and starts with '-' exactly when n is negative |
| DecimalText.ToInt | src/emailaccount.cpp:542 | toInt gives the value of an in-range number, and 0 for text that is not a number or is out of int range |
| DecimalText.DigitsRoundTrip | src/emailaccount.cpp:540-548 | reading back the digits of n gives n |
| DecimalText.SignedDigits | src/emailaccount.cpp:540-548 | the digits of m alone are read as m |
| DecimalText.SignedNegative | src/emailaccount.cpp:540-548 | '-' followed by the digits of m is read as -m |
| DecimalText.NumberRoundTrip | src/emailaccount.cpp:540-548 | toInt(number(n)) == n for every 32-bit int n |
| DecimalText.EmptyReadsZero | src/emailaccount.cpp:540-543 | a missing preset field (empty text) reads as 0 |
| AccountIds.ToInt32 | src/emailaccount.cpp:329 | the C++ narrowing of a quint64 to int: in int range, congruent modulo 2^32, and the identity below 2^31 |
| AccountIds.AccountIdAsWritten | src/emailaccount.cpp:326-334 | accountId() as written: -1 for an invalid id, the id itself for a valid id below 2^31, always in int range |
| AccountIds.AccountIdSentinelCollision | src/emailaccount.cpp:326-334 | the valid id 0xFFFFFFFF comes back as -1, and the valid id 2^32 as 0 |
| AccountIds.AccountIdIntended | src/emailaccount.cpp:326-334 | accountId() as intended: -1 exactly when the id is invalid, otherwise the id |
| AccountIds.AccountIdIntendedInjective | src/emailaccount.cpp:326-334 | the intended result tells every pair of ids apart (iff) |
| AccountIds.AccountIdAgreesInRange | src/emailaccount.cpp:326-334 | written and intended agree on every id below 2^31 |
| AccountRecords.WithPreset | src/emailaccount.cpp:545-548 | setPreset stores number(v) in the preset custom field; every other field and custom field is kept |
| AccountRecords.CustomField | src/emailaccount.cpp:542 | customField(key): the stored text, or "" when the field is missing |
| AccountRecords.Preset | src/emailaccount.cpp:540-543 | preset(): the preset custom field read by toInt |
| AccountRecords.WithStatus | src/emailaccount.cpp:362-365 | setStatus(flag, on) adds or removes exactly that flag and keeps the rest of the record |
| AccountRecords.WithSavedFlags | src/emailaccount.cpp:102-109 | the eight setStatus calls of save() add exactly the eight flags and keep the rest of the record |
| AccountRecords.PresetRoundTrip | src/emailaccount.cpp:540-548 | preset() after setPreset(v) is v |
| AccountRecords.NewRecordHasNoPreset | src/emailaccount.cpp:540-543 | a new record reads as noPreset |
| ServiceConfig.AddService | src/emailaccount.cpp:53-76 | addServiceConfiguration adds s with no settings when missing and changes nothing else |
| ServiceConfig.RemoveService | src/emailaccount.cpp:420 | removeServiceConfiguration drops s and keeps every other service |
| ServiceConfig.SetValue | src/emailaccount.cpp:435-438 | setValue(k, v) on service s: k of s reads v, everything else reads as before |
| ServiceConfig.SetTypeAndVersion | src/emailaccount.cpp:77-82 | setType and setVersion change only the type and version of s |
| ServiceConfig.SetValues | src/emailaccount.cpp:236-324 | a batch of writes to s: each written key reads its value, unwritten keys and other services read as before, types and versions are kept |
| ServiceConfig.SetValuesOnSameService | src/emailaccount.cpp:236-324 | the same batch written into two configurations that agree on s leaves them agreeing on s |
| ServiceConfig.SetValuesEmpty | src/emailaccount.cpp:236-324 | an empty batch changes nothing |
| ServiceConfig.SetValueExtends | src/emailaccount.cpp:236-324 | one more setValue after a batch equals the batch extended by that write |
| ServiceConfig.AddServiceIdempotent | src/emailaccount.cpp:53-76 | adding a service twice is adding it once |
| ServiceConfig.RemoveThenAddIsFresh | src/emailaccount.cpp:420-421 | a service removed and added again has no settings left |
| ServiceConfig.SetValueOverwrites | src/emailaccount.cpp:435-438 | the second of two writes to the same key wins |
| ServiceConfig.SetValueCommutes | src/emailaccount.cpp:435-538 | writes to different keys or services commute |
| Presets.PresetSettings | src/emailaccount.cpp:236-324 | exactly the six presets have settings; only noPreset leaves the servers unwritten; every receive type is a known code, authentication is Login, every encryption code is in range |
| Presets.LoginName | src/emailaccount.cpp:236-324 | a preset logs in with the full address or with username(), which holds no '@' and prefixes the address |
| Presets.ServerWrite | src/emailaccount.cpp:236-324 | a named server is written under "server"; an unnamed one writes nothing |
| Presets.RecvWrites | src/emailaccount.cpp:240-245 | the receive keys a preset writes, with their values; "server" only when the preset names one |
| Presets.SendWrites | src/emailaccount.cpp:246-251 | the send keys a preset writes, with their values; "server" only when named; never the address or the sender name |
| Presets.NoPresetKeepsServers | src/emailaccount.cpp:310-320 | noPreset writes no server on either side and logs in with the user part of the address |
| Presets.GmailPresetWrites | src/emailaccount.cpp:253-265 | the Gmail preset writes exactly imap.gmail.com:993 over SSL and smtp.gmail.com:465 over SSL with Login, the full address as both user names |
| ConnectionTest.TestStart | src/emailaccount.cpp:148-155 | a valid id starts a folder-list retrieval and emits nothing; an invalid id starts nothing and emits testFailed(InvalidAccount) |
| ConnectionTest.React | src/emailaccount.cpp:157-181 | each reaction in both directions: retrieval success requests transmission, transmit success emits testSucceeded, each failure records the status and emits its own testFailed; InvalidAccount is never emitted here |
| ConnectionTest.ProgressIsSilent | src/emailaccount.cpp:157-181 | a report that is neither success nor failure does nothing |
| ConnectionTest.SucceededIffTransmitSucceeded | src/emailaccount.cpp:157-181 | over any sequence of reports, testSucceeded is emitted iff some report is a successful transmit |
| ConnectionTest.NoFailureKeepsError | src/emailaccount.cpp:157-181 | without a failure report the recorded error is unchanged |
| ConnectionTest.ErrorIsLastFailure | src/emailaccount.cpp:157-181 | the recorded error is the status of the last failure report |
| EmailAccounts.RecvServiceIsSeparate | src/emailaccount.cpp:68-76 | a receive service name is neither smtp nor the storage manager |
| EmailAccounts.Prepared | src/emailaccount.cpp:77-82 | the send or receive service has the given type and version 100 and keeps its settings |
| EmailAccounts.WithStorage | src/emailaccount.cpp:56-63 | the storage manager is added, with an empty basePath, only when missing; every other service is kept |
| EmailAccounts.WithService | src/emailaccount.cpp:64-82 | the service is added when missing, given its type and version 100, and every other service is kept |
| EmailAccounts.InitRecvType | src/emailaccount.cpp:68-76 | the receive type init() settles on is imap4 exactly when an imap4 service exists, pop3 otherwise |
| EmailAccounts.Initialized | src/emailaccount.cpp:53-86 | after init() exactly storage, smtp and the receive service are added; storage is kept or new; smtp is a sink and the receive service a source, both at version 100 with their settings kept; other services are kept |
| EmailAccounts.WithServiceKeepsPrepared | src/emailaccount.cpp:64-82 | preparing a service that is already prepared changes nothing |
| EmailAccounts.InitializedIdempotent | src/emailaccount.cpp:53-86 | running init() twice is running it once |
| EmailAccounts.InitializedEmpty | src/emailaccount.cpp:53-86 | init() on an empty configuration gives storage (basePath ""), an smtp sink and a pop3 source, and receive type pop3 |
| EmailAccounts.SwitchRecv | src/emailaccount.cpp:414-428 | switching to the same service changes nothing; otherwise the old service goes, the new one is kept or new, as a source of version 100, and all else is kept |
| EmailAccounts.RecvWritesReadBack | src/emailaccount.cpp:236-324 | after switching and writing the receive keys each written key reads back, smtp is untouched, and an unnamed server stays when the service does |
| EmailAccounts.SendWritesReadBack | src/emailaccount.cpp:236-324 | after writing the send keys each reads back, and the address, the sender name and an unnamed server are kept |
| EmailAccounts.SendWrittenOnSameService | src/emailaccount.cpp:236-324 | what the send side shows depends on the smtp service alone |
| EmailAccounts.PresetRecvReadBack | src/emailaccount.cpp:236-324 | after a complete preset every receive key reads back |
| EmailAccounts.PresetSendReadBack | src/emailaccount.cpp:236-324 | after a complete preset every send key reads back, and the address and sender name are kept |
| EmailAccounts.SwitchRecvIdempotent | src/emailaccount.cpp:414-428 | setting the same receive type twice is setting it once |
| EmailAccounts.SwitchToNewServiceIsEmpty | src/emailaccount.cpp:414-428 | a newly switched-to service has no settings, only type Source and version 100 |
| EmailAccounts.ChoosePreset | src/emailaccount.cpp:236-324 | the settings spelled with the translators, as the setter calls spell them, are the preset table's entry; none exactly for an unknown preset |
| EmailAccounts.EmailAccount.constructor | src/emailaccount.cpp:18-30 | a new account: a fresh record, no password and no error, the configuration init() makes from nothing, receive type pop3 |
| EmailAccounts.EmailAccount.FromStored | src/emailaccount.cpp:32-44 | a copied record with the configuration init() makes from the stored one |
| EmailAccounts.EmailAccount.Init | src/emailaccount.cpp:53-86 | init() leaves the configuration Initialized(old) and the receive type InitRecvType(old), and establishes Valid |
| EmailAccounts.EmailAccount.Clear | src/emailaccount.cpp:88-97 | clear() gives a fresh record, no password, and the configuration of a new account |
| EmailAccounts.EmailAccount.Save | src/emailaccount.cpp:99-121 | save() adds the eight flags and sets the from-address; a new account without a preset takes server() as its description; the custom fields are kept; an account the store adds takes the id the store assigns, any other keeps its id; the result is the store's answer |
| EmailAccounts.EmailAccount.Remove | src/emailaccount.cpp:123-131 | remove() clears the id and changes nothing else; the result is false for an account that has no id |
| EmailAccounts.EmailAccount.AccountId | src/emailaccount.cpp:326-334 | -1 exactly when the id is invalid, otherwise the id (the corrected definition, see Findings) |
| EmailAccounts.EmailAccount.TestConfiguration | src/emailaccount.cpp:148-155 | testConfiguration() reacts as TestStart for the account's id |
| EmailAccounts.EmailAccount.ActivityChanged | src/emailaccount.cpp:157-181 | activityChanged() reacts as React; a failure records its status as the error, any other report keeps it |
| EmailAccounts.EmailAccount.ApplySettings | src/emailaccount.cpp:238-251 | the setter sequence of a preset: receive type switched, then the receive keys and the send keys written |
| EmailAccounts.EmailAccount.ApplyRecvSettings | src/emailaccount.cpp:239-244 | the receive half: setRecvType and then the receive keys, with the address kept |
| EmailAccounts.EmailAccount.WriteRecvSettings | src/emailaccount.cpp:240-244 | the receive setter calls write exactly the receive keys of the preset |
| EmailAccounts.EmailAccount.ApplySendSettings | src/emailaccount.cpp:245-250 | the send setter calls write exactly the send keys of the preset |
| EmailAccounts.EmailAccount.SettingsReadBack | src/emailaccount.cpp:236-324 | the configuration a preset writes shows every written value through the getters, and keeps the address, the sender name and any unnamed server |
| EmailAccounts.EmailAccount.ApplyPreset | src/emailaccount.cpp:236-324 | an unknown preset changes nothing; a known one switches the receive type, writes its keys, and every getter shows them; noPreset keeps the receive server when imap4 already was the receive type |
| EmailAccounts.EmailAccount.Description | src/emailaccount.cpp:347-350 | description(): the record's name |
| EmailAccounts.EmailAccount.Enabled | src/emailaccount.cpp:357-360 | enabled(): whether the record carries the Enabled flag |
| EmailAccounts.EmailAccount.Name | src/emailaccount.cpp:367-370 | name(): smtp's "username" |
| EmailAccounts.EmailAccount.Address | src/emailaccount.cpp:377-380 | address(): smtp's "address" |
| EmailAccounts.EmailAccount.Username | src/emailaccount.cpp:387-391 | username(): a prefix of address() holding no '@', followed in it by '@' when shorter |
| EmailAccounts.EmailAccount.Server | src/emailaccount.cpp:393-397 | server(): a suffix of address() holding no '@', preceded in it by '@' when shorter |
| EmailAccounts.EmailAccount.Password | src/emailaccount.cpp:399-402 | password(): the password as typed |
| EmailAccounts.EmailAccount.RecvType | src/emailaccount.cpp:409-412 | recvType(): the external code of the receive service, the inverse of internalRecvType for a known service, "" otherwise |
| EmailAccounts.EmailAccount.RecvServer | src/emailaccount.cpp:430-433 | recvServer(): the receive service's "server" |
| EmailAccounts.EmailAccount.RecvPort | src/emailaccount.cpp:440-443 | recvPort(): the receive service's "port" |
| EmailAccounts.EmailAccount.RecvSecurity | src/emailaccount.cpp:450-453 | recvSecurity(): the receive service's "encryption" |
| EmailAccounts.EmailAccount.RecvUsername | src/emailaccount.cpp:460-463 | recvUsername(): the receive service's "username" |
| EmailAccounts.EmailAccount.RecvPassword | src/emailaccount.cpp:470-473 | recvPassword(): decode of the receive service's "password" |
| EmailAccounts.EmailAccount.SendServer | src/emailaccount.cpp:480-483 | sendServer(): smtp's "server" |
| EmailAccounts.EmailAccount.SendPort | src/emailaccount.cpp:490-493 | sendPort(): smtp's "port" |
| EmailAccounts.EmailAccount.SendAuth | src/emailaccount.cpp:500-503 | sendAuth(): smtp's "authentication" |
| EmailAccounts.EmailAccount.SendSecurity | src/emailaccount.cpp:510-513 | sendSecurity(): smtp's "encryption" |
| EmailAccounts.EmailAccount.SendUsername | src/emailaccount.cpp:520-523 | sendUsername(): smtp's "smtpusername" |
| EmailAccounts.EmailAccount.SendPassword | src/emailaccount.cpp:530-533 | sendPassword(): decode of smtp's "smtppassword" |
| EmailAccounts.EmailAccount.Preset | src/emailaccount.cpp:540-543 | preset(): the record's preset field read by toInt |
| EmailAccounts.EmailAccount.ErrorMessage | src/emailaccount.cpp:550-553 | errorMessage(): the last recorded error text |
| EmailAccounts.EmailAccount.ErrorCode | src/emailaccount.cpp:555-558 | errorCode(): the last recorded error code |
| EmailAccounts.EmailAccount.SetDescription | src/emailaccount.cpp:352-355 | description() reads the value set; only the record's name changes |
| EmailAccounts.EmailAccount.SetEnabled | src/emailaccount.cpp:362-365 | enabled() reads the value set; only the Enabled flag changes |
| EmailAccounts.EmailAccount.SetName | src/emailaccount.cpp:372-375 | name() reads the value set; only smtp's "username" changes |
| EmailAccounts.EmailAccount.SetAddress | src/emailaccount.cpp:382-385 | address() reads the value set; only smtp's "address" changes |
| EmailAccounts.EmailAccount.SetPassword | src/emailaccount.cpp:404-407 | password() reads the value set |
| EmailAccounts.EmailAccount.SetPreset | src/emailaccount.cpp:545-548 | preset() reads the value set; only the preset field changes |
| EmailAccounts.EmailAccount.SetRecvType | src/emailaccount.cpp:409-428 | the receive type becomes internalRecvType(val), and the configuration switches to it; setting the current type changes nothing; recvType() gives back "0" and "1", and "" for any other code |
| EmailAccounts.EmailAccount.SetRecvServer | src/emailaccount.cpp:435-438 | recvServer() reads the value set; only that key changes |
| EmailAccounts.EmailAccount.SetRecvPort | src/emailaccount.cpp:445-448 | recvPort() reads the value set; only that key changes |
| EmailAccounts.EmailAccount.SetRecvSecurity | src/emailaccount.cpp:455-458 | recvSecurity() reads the value set; only that key changes |
| EmailAccounts.EmailAccount.SetRecvUsername | src/emailaccount.cpp:465-468 | recvUsername() reads the value set; only that key changes |
| EmailAccounts.EmailAccount.SetRecvPassword | src/emailaccount.cpp:470-478 | the encoded value is stored; recvPassword() is decode(encode(val)), which is val whenever decode undoes encode |
| EmailAccounts.EmailAccount.SetSendServer | src/emailaccount.cpp:485-488 | sendServer() reads the value set; only that key changes |
| EmailAccounts.EmailAccount.SetSendPort | src/emailaccount.cpp:495-498 | sendPort() reads the value set; only that key changes |
| EmailAccounts.EmailAccount.SetSendAuth | src/emailaccount.cpp:505-508 | sendAuth() reads the value set; only that key changes |
| EmailAccounts.EmailAccount.SetSendSecurity | src/emailaccount.cpp:515-518 | sendSecurity() reads the value set; only that key changes |
| EmailAccounts.EmailAccount.SetSendUsername | src/emailaccount.cpp:525-528 | sendUsername() reads the value set; only that key changes |
| EmailAccounts.EmailAccount.SetSendPassword | src/emailaccount.cpp:530-538 | the encoded value is stored; sendPassword() is decode(encode(val)), which is val whenever decode undoes encode |

## Left out

- Mail store persistence (`updateAccount`, `addAccount`, `removeAccount`, `accountConfiguration`): the answers are parameters. The id `addAccount` assigns is a parameter of `Save`, and the stored configuration is a constructor parameter. What the store writes besides the id is not modelled.
- `Base64::encode`/`decode`, `toBase64` and `fromBase64` (560-567): their implementation is not part of this model. They are opaque function fields, and password round trips hold only under the stated hypothesis.
- `test()` (133-146): the `QTimer::singleShot` delay and the commented-out network check. The test is modelled from `testConfiguration` on.
- Signal/slot wiring in `init()` (84-85), and `sender()` dispatch, which becomes an explicit `Sender` in each event. Emitted signals and requested actions are the `Reaction` a method returns. `init()` connects both actions again each time it runs, and `clear()` runs it again (96). So after a `clear()` the source delivers each report to `activityChanged` once per connection: the transmit is requested, and `testFailed`/`testSucceeded` emitted, more than once. The model handles each report once.
- `EmailAgent::instance()`, `qWarning`/`qDebug` logging, and `delete`/`new` of the owned objects, including the `mRecvCfg`/`mSendCfg` service handles. The model reads services by name.
- `setAccountId` (336-345): it loads a record from the store by id. `setMessageType(Email)` in the constructor and in `clear()` is also left out, because the message type is not part of the modelled record.
- `QMailAddress(address())` in `save()` is stored as the address text, without address parsing.
- `QString::toInt` is modelled for an optional sign followed by decimal digits. Surrounding whitespace, which Qt accepts, is not modelled.
- The numeric preset values come from `emailaccount.h`, which is not part of this model. They are taken as declared in the order `noPreset`, `mobilemePreset`, `gmailPreset`, `yahooPreset`, `aolPreset`, `mslivePreset`, counting from 0.
- EmailAccounts.EmailAccount.ApplyPreset: the setter sequence of each `case` is modelled once, by `ApplySettings` over the preset's row of the table (`ChoosePreset`), rather than as six copies of twelve setter calls.
- EmailAccounts.EmailAccount.Init: the sequence of service additions is modelled by the pure function `Initialized` and assigned in one step. The constructors use that function directly, and `Clear` resets the record and the password after `Init` rather than before. `Init` reads neither of them, so the resulting state is the same.
- EmailAccounts.EmailAccount.ApplyPreset: `recvType()` is promised to equal the preset's code only when that code is "0" or "1" (all six presets use one of them). For other codes `externalRecvType("")` gives "".

## Findings

| source | as written | input that shows it | evidently intended | confidence | as-written member | corrected member |
|---|---|---|---|---|---|---|
| src/emailaccount.cpp:326-334 | `accountId()` returns the 64-bit `toULongLong()` of a valid id through an `int` result, so the value is narrowed to 32 bits | a valid id 0xFFFFFFFF returns -1, the value that means "no id"; the valid id 2^32 returns 0 | -1 exactly for an invalid id, and a valid id returned unchanged | not executed | AccountIds.AccountIdSentinelCollision | AccountIds.AccountIdIntended |
