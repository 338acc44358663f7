/**
 * The vendor presets of applyPreset: for each known provider the receive
 * and send settings an account gets. The numeric preset values follow the
 * declaration order of the preset enumeration (noPreset first).
 */
module Presets {
  import opened Wrappers
  import AddressParts

  const NoPreset: int := 0
  const MobilemePreset: int := 1
  const GmailPreset: int := 2
  const YahooPreset: int := 3
  const AolPreset: int := 4
  const MslivePreset: int := 5

  /** Which user name a preset logs in with: the part of the address before '@', or the whole address. */
  datatype Login = UserPart | FullAddress

  /**
   * The values a preset writes, as the stored codes: the external receive
   * type, the receive server (None: left as it is), port and encryption, the
   * send server (None: left as it is), port, encryption and authentication,
   * and the login used for both directions.
   */
  datatype Settings = Settings(
    recvType: string, recvServer: Option<string>, recvPort: string, recvSecurity: string,
    sendServer: Option<string>, sendPort: string, sendSecurity: string, sendAuth: string,
    login: Login)

  /** The preset table; None for a value that names no preset. */
  function PresetSettings(preset: int): (r: Option<Settings>)
    ensures r.Some? <==> NoPreset <= preset <= MslivePreset
    ensures r.Some? ==> (r.value.recvServer.None? <==> preset == NoPreset)
    ensures r.Some? ==> (r.value.sendServer.None? <==> preset == NoPreset)
    ensures r.Some? ==> r.value.recvType in {"0", "1"} && r.value.sendAuth == "1"
    ensures r.Some? ==> r.value.recvSecurity in {"0", "1", "2"} && r.value.sendSecurity in {"0", "1", "2"}
  {
    if preset == MobilemePreset then
      Some(Settings("1", Some("mail.me.com"), "993", "1", Some("smtp.me.com"), "587", "1", "1", UserPart))
    else if preset == GmailPreset then
      Some(Settings("1", Some("imap.gmail.com"), "993", "1", Some("smtp.gmail.com"), "465", "1", "1", FullAddress))
    else if preset == YahooPreset then
      Some(Settings("1", Some("imap.mail.yahoo.com"), "993", "1", Some("smtp.mail.yahoo.com"), "465", "1", "1", FullAddress))
    else if preset == AolPreset then
      Some(Settings("1", Some("imap.aol.com"), "143", "0", Some("smtp.aol.com"), "587", "0", "1", UserPart))
    else if preset == MslivePreset then
      Some(Settings("0", Some("pop3.live.com"), "995", "1", Some("smtp.live.com"), "587", "2", "1", FullAddress))
    else if preset == NoPreset then
      Some(Settings("1", None, "993", "1", None, "587", "1", "1", UserPart))
    else None
  }

  /** The user name a preset logs in with for the given address. */
  function LoginName(login: Login, address: string): (r: string)
    ensures login == FullAddress ==> r == address
    ensures login == UserPart ==> r == AddressParts.Username(address) && '@' !in r && r <= address
  {
    match login
    case UserPart => AddressParts.Username(address)
    case FullAddress => address
  }

  /** The server a preset names, as a write of the "server" key, or no write. */
  function ServerWrite(server: Option<string>): (kv: map<string, string>)
    ensures kv.Keys == if server.Some? then {"server"} else {}
    ensures server.Some? ==> kv["server"] == server.value
  {
    if server.Some? then map[]["server" := server.value] else map[]
  }

  /** The keys a preset writes into the receive service, with their values. */
  function RecvWrites(st: Settings, address: string, encodedPassword: string): (kv: map<string, string>)
    ensures kv.Keys == {"port", "encryption", "username", "password"} + (if st.recvServer.Some? then {"server"} else {})
    ensures kv["port"] == st.recvPort && kv["encryption"] == st.recvSecurity
    ensures kv["username"] == LoginName(st.login, address) && kv["password"] == encodedPassword
    ensures st.recvServer.Some? ==> kv["server"] == st.recvServer.value
    ensures "server" in kv <==> st.recvServer.Some?
  {
    ServerWrite(st.recvServer)["port" := st.recvPort]["encryption" := st.recvSecurity]
      ["username" := LoginName(st.login, address)]["password" := encodedPassword]
  }

  /** The keys a preset writes into the send service, with their values. */
  function SendWrites(st: Settings, address: string, encodedPassword: string): (kv: map<string, string>)
    ensures kv.Keys == {"port", "encryption", "authentication", "smtpusername", "smtppassword"}
                       + (if st.sendServer.Some? then {"server"} else {})
    ensures kv["port"] == st.sendPort && kv["encryption"] == st.sendSecurity && kv["authentication"] == st.sendAuth
    ensures kv["smtpusername"] == LoginName(st.login, address) && kv["smtppassword"] == encodedPassword
    ensures st.sendServer.Some? ==> kv["server"] == st.sendServer.value
    ensures ("server" in kv <==> st.sendServer.Some?) && "address" !in kv && "username" !in kv
  {
    ServerWrite(st.sendServer)["port" := st.sendPort]["encryption" := st.sendSecurity]
      ["authentication" := st.sendAuth]["smtpusername" := LoginName(st.login, address)]
      ["smtppassword" := encodedPassword]
  }

  /** Without a preset neither server is written, and both logins are the user part of the address. */
  lemma NoPresetKeepsServers(address: string, encodedPassword: string)
    ensures PresetSettings(NoPreset).Some?
    ensures "server" !in RecvWrites(PresetSettings(NoPreset).value, address, encodedPassword)
    ensures "server" !in SendWrites(PresetSettings(NoPreset).value, address, encodedPassword)
    ensures RecvWrites(PresetSettings(NoPreset).value, address, encodedPassword)["username"] == AddressParts.Username(address)
  {
  }

  /** The Gmail preset: IMAP over SSL at imap.gmail.com:993, SMTP over SSL at smtp.gmail.com:465 with login, full address as user. */
  lemma GmailPresetWrites(address: string, encodedPassword: string)
    ensures PresetSettings(GmailPreset).Some?
    ensures RecvWrites(PresetSettings(GmailPreset).value, address, encodedPassword)
      == map["server" := "imap.gmail.com", "port" := "993", "encryption" := "1",
             "username" := address, "password" := encodedPassword]
    ensures SendWrites(PresetSettings(GmailPreset).value, address, encodedPassword)
      == map["server" := "smtp.gmail.com", "port" := "465", "encryption" := "1", "authentication" := "1",
             "smtpusername" := address, "smtppassword" := encodedPassword]
  {
  }
}
