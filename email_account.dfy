/**
 * EmailAccount: one mail account's settings as properties over an account
 * record and an account configuration, with vendor presets, saving and
 * removal, and the connection test.
 *
 * The receive service is the one named by recvType ("pop3" or "imap4", or
 * "" once an unknown receive type has been set); the send service is
 * "smtp". The Base64 coding of stored passwords is given to the account as
 * the two functions encode and decode, and nothing is assumed about them.
 * The mail store's answers (updateAccount, addAccount, removeAccount) are
 * given to the methods that ask for them as plain Booleans.
 */
module EmailAccounts {
  import opened Wrappers
  import opened CodeTables
  import AddressParts
  import opened AccountIds
  import opened ServiceConfig
  import opened Presets
  import opened ConnectionTest
  import opened AccountRecords
  import DecimalText

  /** The names the receive service can have. */
  const RecvServiceNames: set<string> := InternalRecvTypes + {""}

  /** A receive service is neither the send service nor the storage service. */
  lemma RecvServiceIsSeparate(t: string)
    requires t in RecvServiceNames
    ensures t != SendService && t != StorageService
  {
  }

  /** Service s as init() leaves it: as it was, or new, with the given type and version 100. */
  function Prepared(c: Config, s: string, kind: ServiceType): (svc: Service)
    ensures svc.kind == Some(kind) && svc.version == Some(100)
    ensures svc.values == if s in c then c[s].values else map[]
  {
    (if s in c then c[s] else Fresh).(kind := Some(kind), version := Some(100))
  }

  /** The storage service init() adds to a configuration that has none. */
  const NewStorage: Service := Service(Some(Storage), Some(101), map["basePath" := ""])

  /** The first step of init(): a storage service with an empty basePath is added when there is none. */
  function WithStorage(c: Config): (r: Config)
    ensures forall t :: t in r <==> t in c || t == StorageService
    ensures r[StorageService] == if StorageService in c then c[StorageService] else NewStorage
    ensures forall s :: s in c && s != StorageService ==> r[s] == c[s]
  {
    if StorageService in c then c
    else
      var added := SetTypeAndVersion(AddService(c, StorageService), StorageService, Storage, 101);
      SetValue(added, StorageService, "basePath", "")
  }

  /** A later step of init(): service s is added when missing and given its type and version 100. */
  function WithService(c: Config, s: string, kind: ServiceType): (r: Config)
    ensures forall t :: t in r <==> t in c || t == s
    ensures r[s] == Prepared(c, s, kind)
    ensures forall t :: t in c && t != s ==> r[t] == c[t]
  {
    SetTypeAndVersion(AddService(c, s), s, kind, 100)
  }

  /** The receive service init() settles on: imap4 if the configuration has one, else pop3. */
  function InitRecvType(c: Config): (t: string)
    ensures t in InternalRecvTypes
    ensures t == "imap4" <==> "imap4" in c
  {
    if "imap4" in c then "imap4" else "pop3"
  }

  /**
   * init() on a configuration: the storage, send and receive services
   * exist afterwards. A storage service is added, with an empty basePath,
   * only when there is none; smtp becomes a sink and the receive service a
   * source, both of version 100, each added when missing and keeping its
   * settings otherwise. Every other service is kept.
   */
  function Initialized(c: Config): (r: Config)
    ensures forall t :: t in r <==> t in c || t == StorageService || t == SendService || t == InitRecvType(c)
    ensures r[StorageService] == if StorageService in c then c[StorageService] else NewStorage
    ensures r[SendService] == Prepared(c, SendService, Sink)
    ensures r[InitRecvType(c)] == Prepared(c, InitRecvType(c), Source)
    ensures forall s :: s in c && s != StorageService && s != SendService && s != InitRecvType(c) ==> r[s] == c[s]
  {
    var recv := InitRecvType(c);
    assert recv != StorageService && recv != SendService;
    var stored := WithStorage(c);
    var sending := WithService(stored, SendService, Sink);
    WithService(sending, recv, Source)
  }

  /** A service already prepared as kind is left as it is. */
  lemma WithServiceKeepsPrepared(c: Config, s: string, kind: ServiceType)
    requires s in c && c[s].kind == Some(kind) && c[s].version == Some(100)
    ensures WithService(c, s, kind) == c
  {
    assert c[s].(kind := Some(kind), version := Some(100)) == c[s];
    assert c[s := c[s]] == c;
  }

  /** Running init() again changes nothing. */
  lemma InitializedIdempotent(c: Config)
    ensures Initialized(Initialized(c)) == Initialized(c)
  {
    var r := Initialized(c);
    var recv := InitRecvType(c);
    assert InitRecvType(r) == recv;
    assert WithStorage(r) == r;
    WithServiceKeepsPrepared(r, SendService, Sink);
    WithServiceKeepsPrepared(r, recv, Source);
  }

  /** init() on an empty configuration gives the configuration of a new account. */
  lemma InitializedEmpty()
    ensures InitRecvType(map[]) == "pop3"
    ensures Initialized(map[]) == InitialConfig
  {
  }

  /** The configuration of a new account once init() has run on it. */
  const InitialConfig: Config := map[
    StorageService := NewStorage,
    SendService := Service(Some(Sink), Some(100), map[]),
    "pop3" := Service(Some(Source), Some(100), map[])]

  /**
   * The configuration after setRecvType changes the receive service from
   * `from` to `to`: `from` and its settings are dropped, `to` is added (kept
   * if it was there) and made a source of version 100.
   */
  function SwitchRecv(c: Config, from: string, to: string): (r: Config)
    ensures from == to ==> r == c
    ensures from != to ==> r.Keys == c.Keys - {from} + {to}
    ensures from != to ==> r[to] == Prepared(c, to, Source)
    ensures forall s :: s in c && s != from && s != to ==> s in r && r[s] == c[s]
  {
    if from == to then c
    else SetTypeAndVersion(AddService(RemoveService(c, from), to), to, Source, 100)
  }

  /**
   * The receive half of a preset: every key written to the new receive
   * service reads back, an unnamed server is kept when the service stays,
   * and smtp is kept.
   */
  lemma RecvWritesReadBack(c: Config, from: string, to: string, st: Settings, address: string, enc: string)
    requires from in c && SendService in c && from != SendService
    requires to in RecvServiceNames
    ensures var r := SetValues(SwitchRecv(c, from, to), to, RecvWrites(st, address, enc));
      && SendService in r && r[SendService] == c[SendService]
      && (st.recvServer.Some? ==> Value(r, to, "server") == st.recvServer.value)
      && Value(r, to, "port") == st.recvPort && Value(r, to, "encryption") == st.recvSecurity
      && Value(r, to, "username") == LoginName(st.login, address) && Value(r, to, "password") == enc
      && (st.recvServer.None? && from == to ==> Value(r, to, "server") == Value(c, from, "server"))
  {
    RecvServiceIsSeparate(to);
    var switched := SwitchRecv(c, from, to);
    assert to in switched;
    assert SendService in switched && switched[SendService] == c[SendService];
    var kv := RecvWrites(st, address, enc);
    assert st.recvServer.None? ==> "server" !in kv;
  }

  /**
   * The receive service `to` of r holds what a preset writes over c, whose
   * receive service was `from`: every key written reads back, and an
   * unnamed server is kept when the service stays.
   */
  predicate RecvWritten(r: Config, c: Config, from: string, to: string, st: Settings, address: string, enc: string) {
    && (st.recvServer.Some? ==> Value(r, to, "server") == st.recvServer.value)
    && (st.recvServer.None? && from == to ==> Value(r, to, "server") == Value(c, from, "server"))
    && Value(r, to, "port") == st.recvPort && Value(r, to, "encryption") == st.recvSecurity
    && Value(r, to, "username") == LoginName(st.login, address) && Value(r, to, "password") == enc
  }

  /**
   * The send service of r holds what a preset writes over c: every key
   * written reads back; the address, the sender name and an unnamed server
   * are kept.
   */
  predicate SendWritten(r: Config, c: Config, st: Settings, address: string, enc: string) {
    && (st.sendServer.Some? ==> Value(r, SendService, "server") == st.sendServer.value)
    && (st.sendServer.None? ==> Value(r, SendService, "server") == Value(c, SendService, "server"))
    && Value(r, SendService, "port") == st.sendPort && Value(r, SendService, "encryption") == st.sendSecurity
    && Value(r, SendService, "authentication") == st.sendAuth
    && Value(r, SendService, "smtpusername") == LoginName(st.login, address)
    && Value(r, SendService, "smtppassword") == enc
    && Value(r, SendService, "address") == Value(c, SendService, "address")
    && Value(r, SendService, "username") == Value(c, SendService, "username")
  }

  /** The send half of a preset: every key written to smtp reads back; the address, the sender name and an unnamed server are kept. */
  lemma SendWritesReadBack(c: Config, st: Settings, address: string, enc: string)
    requires SendService in c
    ensures SendWritten(SetValues(c, SendService, SendWrites(st, address, enc)), c, st, address, enc)
  {
  }

  /** What SendWritten says depends on the send service alone. */
  lemma SendWrittenOnSameService(r: Config, r': Config, c: Config, st: Settings, address: string, enc: string)
    requires SendService in r && SendService in r' && r[SendService] == r'[SendService]
    requires SendWritten(r', c, st, address, enc)
    ensures SendWritten(r, c, st, address, enc)
  {
    assert forall k :: Value(r, SendService, k) == Value(r', SendService, k);
  }

  /** A whole preset, receive half then send half: the receive service's keys read back from what it leaves. */
  lemma PresetRecvReadBack(c: Config, from: string, to: string, st: Settings, address: string, enc: string, r: Config)
    requires from in c && SendService in c && from != SendService
    requires to in RecvServiceNames
    requires r == SetValues(SetValues(SwitchRecv(c, from, to), to, RecvWrites(st, address, enc)),
                            SendService, SendWrites(st, address, enc))
    ensures RecvWritten(r, c, from, to, st, address, enc)
  {
    RecvServiceIsSeparate(to);
    RecvWritesReadBack(c, from, to, st, address, enc);
  }

  /** A whole preset, receive half then send half: the send service's keys read back from what it leaves. */
  lemma PresetSendReadBack(c: Config, from: string, to: string, st: Settings, address: string, enc: string, r: Config)
    requires from in c && SendService in c && from != SendService
    requires to in RecvServiceNames
    requires r == SetValues(SetValues(SwitchRecv(c, from, to), to, RecvWrites(st, address, enc)),
                            SendService, SendWrites(st, address, enc))
    ensures SendWritten(r, c, st, address, enc)
  {
    RecvServiceIsSeparate(to);
    var c1 := SetValues(SwitchRecv(c, from, to), to, RecvWrites(st, address, enc));
    RecvWritesReadBack(c, from, to, st, address, enc);
    var kv := SendWrites(st, address, enc);
    SetValuesOnSameService(c1, c, SendService, kv);
    SendWritesReadBack(c, st, address, enc);
    SendWrittenOnSameService(r, SetValues(c, SendService, kv), c, st, address, enc);
  }

  /** Switching to the service already in use, and so setting the same receive type twice, changes nothing more. */
  lemma SwitchRecvIdempotent(c: Config, from: string, to: string)
    ensures SwitchRecv(SwitchRecv(c, from, to), to, to) == SwitchRecv(c, from, to)
  {
  }

  /** Switching to a service the configuration lacks gives it no settings but its type and version. */
  lemma SwitchToNewServiceIsEmpty(c: Config, from: string, to: string, k: string)
    requires from != to && to !in c
    ensures Value(SwitchRecv(c, from, to), to, k) == ""
    ensures SwitchRecv(c, from, to)[to] == Service(Some(Source), Some(100), map[])
  {
  }

  /**
   * The settings applyPreset() writes for preset p, spelled with the
   * translators as the setter calls spell them; they are the entries of
   * the preset table, and an unknown preset has none.
   */
  method ChoosePreset(p: int) returns (chosen: Option<Settings>)
    ensures chosen == PresetSettings(p)
    ensures chosen.None? <==> p !in {NoPreset, MobilemePreset, GmailPreset, YahooPreset, AolPreset, MslivePreset}
  {
    chosen := None;
    if p == MobilemePreset {
      chosen := Some(Settings(ExternalRecvType("imap4"), Some("mail.me.com"), "993", SecurityType("SSL"),
                              Some("smtp.me.com"), "587", SecurityType("SSL"), AuthorizationType("Login"), UserPart));
    } else if p == GmailPreset {
      chosen := Some(Settings(ExternalRecvType("imap4"), Some("imap.gmail.com"), "993", SecurityType("SSL"),
                              Some("smtp.gmail.com"), "465", SecurityType("SSL"), AuthorizationType("Login"), FullAddress));
    } else if p == YahooPreset {
      chosen := Some(Settings(ExternalRecvType("imap4"), Some("imap.mail.yahoo.com"), "993", SecurityType("SSL"),
                              Some("smtp.mail.yahoo.com"), "465", SecurityType("SSL"), AuthorizationType("Login"), FullAddress));
    } else if p == AolPreset {
      chosen := Some(Settings(ExternalRecvType("imap4"), Some("imap.aol.com"), "143", SecurityType("none"),
                              Some("smtp.aol.com"), "587", SecurityType("none"), AuthorizationType("Login"), UserPart));
    } else if p == MslivePreset {
      chosen := Some(Settings(ExternalRecvType("pop3"), Some("pop3.live.com"), "995", SecurityType("SSL"),
                              Some("smtp.live.com"), "587", SecurityType("TLS"), AuthorizationType("Login"), FullAddress));
    } else if p == NoPreset {
      chosen := Some(Settings(ExternalRecvType("imap4"), None, "993", SecurityType("SSL"),
                              None, "587", SecurityType("SSL"), AuthorizationType("Login"), UserPart));
    }
  }

  class EmailAccount {
    /** The account record (mAccount). */
    var account: AccountRecord
    /** The account configuration (mAccountConfig). */
    var config: Config
    /** The internal name of the receive service (mRecvType). */
    var recvType: string
    /** The password as typed (mPassword). */
    var password: string
    /** The last error of the connection test (mErrorMessage, mErrorCode). */
    var errorMessage: string
    var errorCode: int
    /** Base64::encode and Base64::decode. */
    const encode: string -> string
    const decode: string -> string

    /** The stored form of a password. */
    function Encoded(s: string): string { encode(s) }
    /** A password read back from its stored form. */
    function Decoded(s: string): string { decode(s) }

    /** Both the receive and the send service, and the storage service, are present. */
    ghost predicate Valid()
      reads this
    {
      && recvType in RecvServiceNames
      && StorageService in config
      && SendService in config
      && recvType in config
    }

    // Getters.

    function Description(): string reads this { account.name }
    function Enabled(): bool reads this { StatusFlag.Enabled in account.status }
    function Name(): string reads this { Value(config, SendService, "username") }
    function Address(): string reads this { Value(config, SendService, "address") }
    /** username(): the address up to its first '@'. */
    function Username(): (r: string)
      reads this
      ensures r <= Address() && '@' !in r
      ensures |r| < |Address()| ==> Address()[|r|] == '@'
    {
      AddressParts.Username(Address())
    }

    /** server(): the address after its last '@'. */
    function Server(): (r: string)
      reads this
      ensures |r| <= |Address()| && r == Address()[|Address()| - |r|..] && '@' !in r
      ensures |r| < |Address()| ==> Address()[|Address()| - |r| - 1] == '@'
    {
      AddressParts.Server(Address())
    }

    function Password(): string reads this { password }
    /** recvType(): the external code of the receive service, "" for a service the tables do not know. */
    function RecvType(): (r: string)
      reads this
      ensures r in ExternalRecvTypes <==> recvType in InternalRecvTypes
      ensures recvType in InternalRecvTypes ==> InternalRecvType(r) == recvType
      ensures recvType !in InternalRecvTypes ==> r == ""
    {
      ExternalRecvType(recvType)
    }

    function RecvServer(): string reads this { Value(config, recvType, "server") }
    function RecvPort(): string reads this { Value(config, recvType, "port") }
    function RecvSecurity(): string reads this { Value(config, recvType, "encryption") }
    function RecvUsername(): string reads this { Value(config, recvType, "username") }
    function RecvPassword(): string reads this { Decoded(Value(config, recvType, "password")) }
    function SendServer(): string reads this { Value(config, SendService, "server") }
    function SendPort(): string reads this { Value(config, SendService, "port") }
    function SendAuth(): string reads this { Value(config, SendService, "authentication") }
    function SendSecurity(): string reads this { Value(config, SendService, "encryption") }
    function SendUsername(): string reads this { Value(config, SendService, "smtpusername") }
    function SendPassword(): string reads this { Decoded(Value(config, SendService, "smtppassword")) }
    function Preset(): int reads this { AccountRecords.Preset(account) }
    function ErrorMessage(): string reads this { errorMessage }
    function ErrorCode(): int reads this { errorCode }

    /**
     * accountId(): -1 exactly when there is no valid id, otherwise the id.
     * This is the intended result; AccountIdAsWritten in AccountIds models
     * the narrowing to int the source performs.
     */
    function AccountId(): (r: int)
      reads this
      ensures r == -1 <==> !IsValid(account.id)
      ensures IsValid(account.id) ==> r == account.id
    {
      AccountIdIntended(account.id)
    }

    /** EmailAccount(): a new record, an empty configuration, then init(). */
    constructor (encode: string -> string, decode: string -> string)
      ensures Valid()
      ensures account == NewRecord && password == ""
      ensures config == InitialConfig && recvType == "pop3"
      ensures errorMessage == "" && errorCode == 0
      ensures this.encode == encode && this.decode == decode
    {
      account := NewRecord;
      password := "";
      errorMessage := "";
      errorCode := 0;
      this.encode := encode;
      this.decode := decode;
      // init() on the empty configuration
      InitializedEmpty();
      RecvServiceIsSeparate(InitRecvType(map[]));
      config, recvType := Initialized(map[]), InitRecvType(map[]);
    }

    /** EmailAccount(other): a copy of a stored record and the configuration stored for it, then init(). */
    constructor FromStored(other: AccountRecord, stored: Config, encode: string -> string, decode: string -> string)
      ensures Valid()
      ensures account == other && password == ""
      ensures recvType == InitRecvType(stored) && config == Initialized(stored)
      ensures errorMessage == "" && errorCode == 0
      ensures this.encode == encode && this.decode == decode
    {
      account := other;
      password := "";
      errorMessage := "";
      errorCode := 0;
      this.encode := encode;
      this.decode := decode;
      // init() on the stored configuration
      RecvServiceIsSeparate(InitRecvType(stored));
      config, recvType := Initialized(stored), InitRecvType(stored);
    }

    /** init(): make sure the storage, send and receive services exist; see Initialized. */
    method Init()
      modifies this`config, this`recvType
      ensures Valid()
      ensures recvType == InitRecvType(old(config))
      ensures config == Initialized(old(config))
    {
      var recv := InitRecvType(config);
      RecvServiceIsSeparate(recv);
      config, recvType := Initialized(config), recv;
    }

    /** clear(): a new record and an empty configuration, no password, then init(). */
    method Clear()
      modifies this`account, this`config, this`recvType, this`password
      ensures Valid()
      ensures account == NewRecord && password == ""
      ensures config == InitialConfig && recvType == "pop3"
    {
      // init() reads neither the record nor the password, so resetting
      // them after it leaves the same state as resetting them before.
      config := map[];
      Init();
      InitializedEmpty();
      account := NewRecord;
      password := "";
    }

    /**
     * save(): turn on the eight status flags, take the from-address from the
     * address, and, for an account not yet stored that uses no preset, use
     * the server part of the address as the description. A stored account
     * is updated (updateAccount), any other one added (addAccount); the
     * store's answer is storeAccepts, and an account the store adds is
     * given the id assignedId.
     */
    method Save(storeAccepts: bool, assignedId: Uint64) returns (result: bool)
      modifies this`account
      ensures result == storeAccepts
      ensures account.status == old(account.status) + SavedFlags
      ensures account.fromAddress == Address()
      ensures account.name ==
        if !IsValid(old(account.id)) && old(Preset()) == NoPreset then Server() else old(account.name)
      ensures account.customFields == old(account.customFields)
      ensures account.id == if !IsValid(old(account.id)) && storeAccepts then assignedId else old(account.id)
    {
      account := WithSavedFlags(account);
      account := account.(fromAddress := Address());
      assert CustomField(account, PresetField) == CustomField(old(account), PresetField);
      if IsValid(account.id) {
        result := storeAccepts;
      } else {
        if Preset() == NoPreset {
          SetDescription(Server());
        }
        result := storeAccepts;
        if result {
          account := account.(id := assignedId);
        }
      }
    }

    /**
     * The setter calls a preset makes, in the order applyPreset makes them:
     * first the receive side, then the send side. Both user names follow
     * the preset's login choice and both passwords are the account's
     * password, encoded.
     */
    method ApplySettings(st: Settings)
      requires Valid()
      modifies this`config, this`recvType
      ensures Valid()
      ensures recvType == InternalRecvType(st.recvType)
      ensures config == SetValues(
        SetValues(SwitchRecv(old(config), old(recvType), recvType), recvType,
                  RecvWrites(st, old(Address()), Encoded(password))),
        SendService, SendWrites(st, old(Address()), Encoded(password)))
    {
      ghost var enc := Encoded(password);
      ApplyRecvSettings(st);
      assert Encoded(password) == enc;
      ApplySendSettings(st);
      assert Encoded(password) == enc;
    }

    /**
     * The getters after a preset was written: the address and the sender
     * name are kept, every setting reads back, an unnamed send server is
     * kept, and so is an unnamed receive server when the receive service
     * stays the same.
     */
    ghost predicate ShowsSettings(st: Settings, address: string, name: string, recvType0: string, recvServer: string,
                                  sendServer: string)
      reads this
    {
      && Address() == address && Name() == name
      && ShowsRecvSettings(st, address, recvType0, recvServer)
      && ShowsSendSettings(st, address, sendServer)
    }

    /** The receive getters after a preset was written. */
    ghost predicate ShowsRecvSettings(st: Settings, address: string, recvType0: string, recvServer: string)
      reads this
    {
      && (st.recvType in ExternalRecvTypes ==> RecvType() == st.recvType)
      && (st.recvServer.Some? ==> RecvServer() == st.recvServer.value)
      && (st.recvServer.None? && recvType == recvType0 ==> RecvServer() == recvServer)
      && RecvPort() == st.recvPort && RecvSecurity() == st.recvSecurity
      && RecvUsername() == LoginName(st.login, address)
      && RecvPassword() == Decoded(Encoded(password))
    }

    /** The send getters after a preset was written. */
    ghost predicate ShowsSendSettings(st: Settings, address: string, sendServer: string)
      reads this
    {
      && (st.sendServer.Some? ==> SendServer() == st.sendServer.value)
      && (st.sendServer.None? ==> SendServer() == sendServer)
      && SendPort() == st.sendPort && SendSecurity() == st.sendSecurity && SendAuth() == st.sendAuth
      && SendUsername() == LoginName(st.login, address)
      && SendPassword() == Decoded(Encoded(password))
    }

    /** The configuration a preset writes shows its settings through the getters. */
    lemma SettingsReadBack(st: Settings, c0: Config, r0: string, address: string, name: string, recvServer: string,
                           sendServer: string)
      requires address == Value(c0, SendService, "address") && name == Value(c0, SendService, "username")
      requires recvServer == Value(c0, r0, "server") && sendServer == Value(c0, SendService, "server")
      requires recvType == InternalRecvType(st.recvType)
      requires RecvWritten(config, c0, r0, recvType, st, address, Encoded(password))
      requires SendWritten(config, c0, st, address, Encoded(password))
      ensures ShowsSettings(st, address, name, r0, recvServer, sendServer)
    {
      if st.recvType in ExternalRecvTypes {
        ExternalOfInternal(st.recvType);
      }
      assert ShowsRecvSettings(st, address, r0, recvServer);
      assert ShowsSendSettings(st, address, sendServer);
    }

    /** Receive side of a preset: receive type, then the receive service's settings. */
    method ApplyRecvSettings(st: Settings)
      requires Valid()
      modifies this`config, this`recvType
      ensures Valid()
      ensures recvType == InternalRecvType(st.recvType)
      ensures config == SetValues(SwitchRecv(old(config), old(recvType), recvType), recvType,
                                  RecvWrites(st, old(Address()), Encoded(password)))
      ensures Address() == old(Address())
    {
      ghost var c0, r0, enc := config, recvType, Encoded(password);
      var address := Address();
      SetRecvType(st.recvType);
      assert Encoded(password) == enc;
      WriteRecvSettings(st, address, password);
      assert Encoded(password) == enc;
      RecvWritesReadBack(c0, r0, recvType, st, address, enc);
    }

    /** The receive service's settings of a preset: server (when named), port, security, user name, password. */
    method WriteRecvSettings(st: Settings, address: string, pass: string)
      requires Valid()
      modifies this`config
      ensures Valid()
      ensures config == SetValues(old(config), recvType, RecvWrites(st, address, Encoded(pass)))
    {
      var login := LoginName(st.login, address);
      ghost var service := recvType;
      ghost var k0 := ServerWrite(st.recvServer);
      ghost var k1 := k0["port" := st.recvPort];
      ghost var k2 := k1["encryption" := st.recvSecurity];
      ghost var k3 := k2["username" := login];
      ghost var k4 := k3["password" := Encoded(pass)];
      assert k4 == RecvWrites(st, address, Encoded(pass));

      ghost var start := config;
      SetValuesEmpty(start, service);
      if st.recvServer.Some? {
        SetValueExtends(start, service, map[], "server", st.recvServer.value);
        SetRecvServer(st.recvServer.value);
        assert recvType == service;
      }
      assert config == SetValues(start, service, k0);
      SetValueExtends(start, service, k0, "port", st.recvPort);
      SetRecvPort(st.recvPort);
      assert recvType == service;
      SetValueExtends(start, service, k1, "encryption", st.recvSecurity);
      SetRecvSecurity(st.recvSecurity);
      assert recvType == service;
      SetValueExtends(start, service, k2, "username", login);
      SetRecvUsername(login);
      assert recvType == service;
      SetValueExtends(start, service, k3, "password", Encoded(pass));
      SetRecvPassword(pass);
      assert recvType == service;
    }

    /** Send side of a preset: server (when named), port, security, authentication, user name, password. */
    method ApplySendSettings(st: Settings)
      requires Valid()
      modifies this`config
      ensures Valid()
      ensures config == SetValues(old(config), SendService, SendWrites(st, old(Address()), Encoded(password)))
    {
      var login := LoginName(st.login, Address());
      ghost var enc := Encoded(password);
      ghost var k0 := ServerWrite(st.sendServer);
      ghost var k1 := k0["port" := st.sendPort];
      ghost var k2 := k1["encryption" := st.sendSecurity];
      ghost var k3 := k2["authentication" := st.sendAuth];
      ghost var k4 := k3["smtpusername" := login];
      ghost var k5 := k4["smtppassword" := enc];
      assert k5 == SendWrites(st, Address(), enc);

      ghost var start := config;
      SetValuesEmpty(start, SendService);
      if st.sendServer.Some? {
        SetValueExtends(start, SendService, map[], "server", st.sendServer.value);
        SetSendServer(st.sendServer.value);
        assert Encoded(password) == enc;
      }
      assert config == SetValues(start, SendService, k0);
      SetValueExtends(start, SendService, k0, "port", st.sendPort);
      SetSendPort(st.sendPort);
      assert Encoded(password) == enc;
      SetValueExtends(start, SendService, k1, "encryption", st.sendSecurity);
      SetSendSecurity(st.sendSecurity);
      assert Encoded(password) == enc;
      SetValueExtends(start, SendService, k2, "authentication", st.sendAuth);
      SetSendAuth(st.sendAuth);
      assert Encoded(password) == enc;
      SetValueExtends(start, SendService, k3, "smtpusername", login);
      SetSendUsername(login);
      assert Encoded(password) == enc;
      SetValueExtends(start, SendService, k4, "smtppassword", enc);
      SetSendPassword(Password());
      assert Encoded(password) == enc;
    }

    /**
     * applyPreset(): write the settings of the account's preset. An
     * unknown preset changes nothing. Without a preset (noPreset) no
     * server is written: the send server stays, and so does the receive
     * server when the receive type already was imap4.
     */
    method ApplyPreset()
      requires Valid()
      modifies this`config, this`recvType
      ensures Valid()
      ensures old(PresetSettings(Preset())).None? ==> config == old(config) && recvType == old(recvType)
      ensures old(PresetSettings(Preset())).Some? ==>
        var st := old(PresetSettings(Preset())).value;
        && recvType == InternalRecvType(st.recvType)
        && config == SetValues(
             SetValues(SwitchRecv(old(config), old(recvType), recvType), recvType,
                       RecvWrites(st, old(Address()), Encoded(password))),
             SendService, SendWrites(st, old(Address()), Encoded(password)))
        && ShowsSettings(st, old(Address()), old(Name()), old(recvType), old(RecvServer()), old(SendServer()))
      ensures old(Preset()) == NoPreset && old(recvType) == "imap4" ==> RecvServer() == old(RecvServer())
    {
      var chosen := ChoosePreset(Preset());
      if chosen.Some? {
        ghost var c0, r0, address, name, recvServer, sendServer := config, recvType, Address(), Name(), RecvServer(), SendServer();
        ApplySettings(chosen.value);
        PresetRecvReadBack(c0, r0, recvType, chosen.value, address, Encoded(password), config);
        PresetSendReadBack(c0, r0, recvType, chosen.value, address, Encoded(password), config);
        SettingsReadBack(chosen.value, c0, r0, address, name, recvServer, sendServer);
      }
    }

    /** remove(): a stored account is removed from the store and loses its id; otherwise the result is false. */
    method Remove(storeAccepts: bool) returns (result: bool)
      modifies this`account
      ensures result == (IsValid(old(account.id)) && storeAccepts)
      ensures account == old(account).(id := InvalidId)
      ensures AccountId() == -1
    {
      result := false;
      if IsValid(account.id) {
        result := storeAccepts;
        account := account.(id := InvalidId);
      }
    }

    /** testConfiguration(): start a folder-list retrieval, or fail at once for an account without an id. */
    method TestConfiguration() returns (r: Reaction)
      ensures r == TestStart(account.id)
      ensures !IsValid(account.id) ==> r.request.None? && r.signal == Some(TestFailed(InvalidAccount))
      ensures IsValid(account.id) ==> r.request == Some(RetrieveFolderList(account.id)) && r.signal.None?
    {
      if IsValid(account.id) {
        r := Reaction(Some(RetrieveFolderList(account.id)), None, None);
      } else {
        r := Reaction(None, Some(TestFailed(InvalidAccount)), None);
      }
    }

    /** activityChanged(activity): react to one report; a failure copies the action's status into the error. */
    method ActivityChanged(e: Event) returns (r: Reaction)
      modifies this`errorMessage, this`errorCode
      ensures r == React(e, account.id)
      ensures IsFailure(e) ==> errorMessage == e.status.text && errorCode == e.status.errorCode
      ensures !IsFailure(e) ==> errorMessage == old(errorMessage) && errorCode == old(errorCode)
    {
      r := Reaction(None, None, None);
      if e.sender == RetrievalAction {
        var status := e.status;
        if e.activity == Successful {
          r := Reaction(Some(TransmitMessages(account.id)), None, None);
        } else if e.activity == Failed {
          errorMessage := status.text;
          errorCode := status.errorCode;
          r := Reaction(None, Some(TestFailed(IncomingServer)), Some(status));
        }
      } else if e.sender == TransmitAction {
        var status := e.status;
        if e.activity == Successful {
          r := Reaction(None, Some(TestSucceeded), None);
        } else if e.activity == Failed {
          errorMessage := status.text;
          errorCode := status.errorCode;
          r := Reaction(None, Some(TestFailed(OutgoingServer)), Some(status));
        }
      }
    }

    // Setters.

    method SetDescription(val: string)
      modifies this`account
      ensures Description() == val
      ensures account == old(account).(name := val)
    {
      account := account.(name := val);
    }

    method SetEnabled(val: bool)
      modifies this`account
      ensures Enabled() == val
      ensures account == WithStatus(old(account), StatusFlag.Enabled, val)
    {
      account := WithStatus(account, StatusFlag.Enabled, val);
    }

    method SetName(val: string)
      requires Valid()
      modifies this`config
      ensures Valid() && Name() == val
      ensures config == SetValue(old(config), SendService, "username", val)
    {
      config := SetValue(config, SendService, "username", val);
    }

    method SetAddress(val: string)
      requires Valid()
      modifies this`config
      ensures Valid() && Address() == val
      ensures config == SetValue(old(config), SendService, "address", val)
    {
      config := SetValue(config, SendService, "address", val);
    }

    method SetPassword(val: string)
      modifies this`password
      ensures Password() == val
    {
      password := val;
    }

    method SetPreset(val: DecimalText.Int32)
      modifies this`account
      ensures Preset() == val
      ensures account == WithPreset(old(account), val)
    {
      account := WithPreset(account, val);
      PresetRoundTrip(old(account), val);
    }

    /**
     * setRecvType(val): when the internal name of val differs from the
     * current receive service, that service is dropped and the new one
     * added. Afterwards recvType() gives back every known code, and ""
     * for any other.
     */
    method SetRecvType(val: string)
      requires Valid()
      modifies this`config, this`recvType
      ensures Valid()
      ensures recvType == InternalRecvType(val)
      ensures config == SwitchRecv(old(config), old(recvType), recvType)
      ensures old(recvType) == recvType ==> config == old(config)
      ensures val in ExternalRecvTypes ==> RecvType() == val
      ensures val !in ExternalRecvTypes ==> RecvType() == ""
    {
      var newRecvType := InternalRecvType(val);
      if newRecvType != recvType {
        config := RemoveService(config, recvType);
        config := AddService(config, newRecvType);
        recvType := newRecvType;
        config := SetTypeAndVersion(config, recvType, Source, 100);
      }
    }

    method SetRecvServer(val: string)
      requires Valid()
      modifies this`config
      ensures Valid() && RecvServer() == val
      ensures config == SetValue(old(config), recvType, "server", val)
    {
      config := SetValue(config, recvType, "server", val);
    }

    method SetRecvPort(val: string)
      requires Valid()
      modifies this`config
      ensures Valid() && RecvPort() == val
      ensures config == SetValue(old(config), recvType, "port", val)
    {
      config := SetValue(config, recvType, "port", val);
    }

    method SetRecvSecurity(val: string)
      requires Valid()
      modifies this`config
      ensures Valid() && RecvSecurity() == val
      ensures config == SetValue(old(config), recvType, "encryption", val)
    {
      config := SetValue(config, recvType, "encryption", val);
    }

    method SetRecvUsername(val: string)
      requires Valid()
      modifies this`config
      ensures Valid() && RecvUsername() == val
      ensures config == SetValue(old(config), recvType, "username", val)
    {
      config := SetValue(config, recvType, "username", val);
    }

    /** The password is stored encoded; it reads back as val when decode undoes encode. */
    method SetRecvPassword(val: string)
      requires Valid()
      modifies this`config
      ensures Valid() && RecvPassword() == Decoded(Encoded(val))
      ensures (forall s :: Decoded(Encoded(s)) == s) ==> RecvPassword() == val
      ensures config == SetValue(old(config), recvType, "password", Encoded(val))
    {
      config := SetValue(config, recvType, "password", Encoded(val));
    }

    method SetSendServer(val: string)
      requires Valid()
      modifies this`config
      ensures Valid() && SendServer() == val
      ensures config == SetValue(old(config), SendService, "server", val)
    {
      config := SetValue(config, SendService, "server", val);
    }

    method SetSendPort(val: string)
      requires Valid()
      modifies this`config
      ensures Valid() && SendPort() == val
      ensures config == SetValue(old(config), SendService, "port", val)
    {
      config := SetValue(config, SendService, "port", val);
    }

    method SetSendAuth(val: string)
      requires Valid()
      modifies this`config
      ensures Valid() && SendAuth() == val
      ensures config == SetValue(old(config), SendService, "authentication", val)
    {
      config := SetValue(config, SendService, "authentication", val);
    }

    method SetSendSecurity(val: string)
      requires Valid()
      modifies this`config
      ensures Valid() && SendSecurity() == val
      ensures config == SetValue(old(config), SendService, "encryption", val)
    {
      config := SetValue(config, SendService, "encryption", val);
    }

    method SetSendUsername(val: string)
      requires Valid()
      modifies this`config
      ensures Valid() && SendUsername() == val
      ensures config == SetValue(old(config), SendService, "smtpusername", val)
    {
      config := SetValue(config, SendService, "smtpusername", val);
    }

    /** The password is stored encoded; it reads back as val when decode undoes encode. */
    method SetSendPassword(val: string)
      requires Valid()
      modifies this`config
      ensures Valid() && SendPassword() == Decoded(Encoded(val))
      ensures (forall s :: Decoded(Encoded(s)) == s) ==> SendPassword() == val
      ensures config == SetValue(old(config), SendService, "smtppassword", Encoded(val))
    {
      config := SetValue(config, SendService, "smtppassword", Encoded(val));
    }
  }
}
