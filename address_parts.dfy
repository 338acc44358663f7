/**
 * The read-only username and server properties of an account, cut from its
 * email address. The source removes the regular expression "@.*$" (from the
 * first '@' to the end) for the username and "^.*@" (from the start up to
 * and including the last '@', the star being greedy) for the server. In QRegExp
 * the dot matches every character and '$' only the end of the text, so
 * both removals are plain prefix and suffix cuts.
 */
module AddressParts {

  /** Index of the first '@' in s, or |s| when s has none. */
  function FirstAt(s: string): (i: nat)
    ensures i <= |s|
    ensures '@' !in s[..i]
    ensures i < |s| ==> s[i] == '@'
    ensures '@' !in s <==> i == |s|
  {
    if s == [] then 0
    else if s[0] == '@' then 0
    else
      var j := FirstAt(s[1..]);
      assert s[..j + 1] == [s[0]] + s[1..][..j];
      j + 1
  }

  /** Index just after the last '@' in s, or 0 when s has none. */
  function AfterLastAt(s: string): (i: nat)
    ensures i <= |s|
    ensures '@' !in s[i..]
    ensures 0 < i ==> s[i - 1] == '@'
    ensures '@' !in s <==> i == 0
    decreases |s|
  {
    if s == [] then 0
    else if s[|s| - 1] == '@' then |s|
    else
      var front := s[..|s| - 1];
      var j := AfterLastAt(front);
      assert s[j..] == front[j..] + [s[|s| - 1]];
      assert '@' !in s ==> '@' !in front by {
        if '@' in front {
          var k :| 0 <= k < |front| && front[k] == '@';
          assert s[k] == '@';
        }
      }
      j
  }

  /** username(): the address with everything from its first '@' on removed. */
  function Username(address: string): (u: string)
    ensures u <= address
    ensures '@' !in u
    ensures |u| < |address| ==> address[|u|] == '@'
  {
    address[..FirstAt(address)]
  }

  /** server(): the address with everything up to and including its last '@' removed. */
  function Server(address: string): (v: string)
    ensures |v| <= |address| && v == address[|address| - |v|..]
    ensures '@' !in v
    ensures |v| < |address| ==> address[|address| - |v| - 1] == '@'
  {
    address[AfterLastAt(address)..]
  }

  /** An address without '@' is its own username and its own server. */
  lemma NoAtKeepsAddress(address: string)
    requires '@' !in address
    ensures Username(address) == address
    ensures Server(address) == address
  {
    assert address[..|address|] == address;
  }

  /** An address with an '@' loses at least that character in both parts. */
  lemma AtShortensBoth(address: string)
    requires '@' in address
    ensures |Username(address)| < |address|
    ensures |Server(address)| < |address|
  {
  }

  /**
   * With exactly one '@' the address is username, '@', server, and
   * conversely every such concatenation splits back into its parts.
   */
  lemma {:induction false} SingleAtSplits(user: string, host: string)
    requires '@' !in user && '@' !in host
    ensures Username(user + "@" + host) == user
    ensures Server(user + "@" + host) == host
    ensures Username(user + "@" + host) + "@" + Server(user + "@" + host) == user + "@" + host
  {
    var a := user + "@" + host;
    assert a[|user|] == '@';
    assert a[..|user|] == user;
    assert a[|user| + 1..] == host;
  }

  /** When the address holds an '@', the username stops at the first one and the server starts after the last one. */
  lemma PartsAroundAts(address: string)
    requires '@' in address
    ensures address[|Username(address)|] == '@'
    ensures address[|address| - |Server(address)| - 1] == '@'
    ensures |Username(address)| < |address| - |Server(address)|
  {
  }
}
