/**
 * The translation tables of the anonymous namespace of emailaccount.cpp.
 *
 * The receive protocol is stored under its internal service name
 * ("pop3" or "imap4") and shown to clients as an external code ("0" or
 * "1"). Security and authentication names are turned into the numeric
 * codes the mail framework stores. Unknown inputs give the empty string
 * (receive type) or "0" (security, authentication); the warnings the
 * source logs for them are not modelled.
 */
module CodeTables {

  /** The internal receive-service names the tables know. */
  const InternalRecvTypes: set<string> := {"pop3", "imap4"}
  /** The external receive-type codes the tables know. */
  const ExternalRecvTypes: set<string> := {"0", "1"}

  /** Internal service name to external code ('0':pop3, '1':imap4). */
  function ExternalRecvType(internal: string): (r: string)
    ensures r in ExternalRecvTypes <==> internal in InternalRecvTypes
    ensures internal !in InternalRecvTypes ==> r == ""
    ensures r == "0" <==> internal == "pop3"
    ensures r == "1" <==> internal == "imap4"
  {
    if internal == "pop3" then "0"
    else if internal == "imap4" then "1"
    else ""
  }

  /** External code to internal service name, the stored value. */
  function InternalRecvType(external: string): (r: string)
    ensures r in InternalRecvTypes <==> external in ExternalRecvTypes
    ensures external !in ExternalRecvTypes ==> r == ""
    ensures r == "pop3" <==> external == "0"
    ensures r == "imap4" <==> external == "1"
  {
    if external == "0" then "pop3"
    else if external == "1" then "imap4"
    else ""
  }

  /** Security name to encryption code: SSL is "1", TLS is "2", anything else "0". */
  function SecurityType(name: string): (r: string)
    ensures r in {"0", "1", "2"}
    ensures r == "1" <==> name == "SSL"
    ensures r == "2" <==> name == "TLS"
    ensures name != "SSL" && name != "TLS" ==> r == "0"
  {
    if name == "SSL" then "1"
    else if name == "TLS" then "2"
    else "0"
  }

  /** Authentication name to code: Login "1", Plain "2", CRAM-MD5 "3", anything else "0". */
  function AuthorizationType(name: string): (r: string)
    ensures r in {"0", "1", "2", "3"}
    ensures r == "1" <==> name == "Login"
    ensures r == "2" <==> name == "Plain"
    ensures r == "3" <==> name == "CRAM-MD5"
    ensures name != "Login" && name != "Plain" && name != "CRAM-MD5" ==> r == "0"
  {
    if name == "Login" then "1"
    else if name == "Plain" then "2"
    else if name == "CRAM-MD5" then "3"
    else "0"
  }

  /** Going out and back in returns every known internal name. */
  lemma InternalOfExternal(t: string)
    requires t in InternalRecvTypes
    ensures InternalRecvType(ExternalRecvType(t)) == t
  {
  }

  /** Going in and back out returns every known external code. */
  lemma ExternalOfInternal(e: string)
    requires e in ExternalRecvTypes
    ensures ExternalRecvType(InternalRecvType(e)) == e
  {
  }

  /** The two receive tables are inverse bijections between the known names and codes. */
  lemma RecvTablesInverse(t: string, e: string)
    requires t in InternalRecvTypes && e in ExternalRecvTypes
    ensures ExternalRecvType(t) == e <==> InternalRecvType(e) == t
  {
  }

  /** Translating an unknown value either way gives the empty string, which neither table knows. */
  lemma UnknownRecvTypeIsEmpty(s: string)
    requires s !in InternalRecvTypes && s !in ExternalRecvTypes
    ensures ExternalRecvType(s) == "" && InternalRecvType(s) == ""
    ensures ExternalRecvType(InternalRecvType(s)) == "" && InternalRecvType(ExternalRecvType(s)) == ""
  {
  }
}
