/**
 * The client address of an HTTP request: the first X-Forwarded-For entry,
 * else the host part of the remote address. The request is represented by
 * the value of its X-Forwarded-For header ("" when absent) and its
 * RemoteAddr.
 */
module HttpUtil {
  import opened GoStrings

  const Loopback := "127.0.0.1"

  /** getproxy: no entries for an empty header, otherwise the header split on ','. */
  function GetProxy(forwardedFor: string): (ips: seq<string>)
    ensures forwardedFor == "" ==> ips == []
    ensures forwardedFor != "" ==> |ips| >= 1 && Join(ips, ",") == forwardedFor
    ensures forall k :: 0 <= k < |ips| ==> ',' !in ips[k]
  {
    if forwardedFor != "" then
      JoinSplit(forwardedFor, ',');
      SplitPiecesAvoidSep(forwardedFor, ',');
      Split(forwardedFor, ',')
    else []
  }

  /** IP: the host of the first forwarded entry when it is not empty, else that of RemoteAddr, with "[" read as loopback. */
  function IP(forwardedFor: string, remoteAddr: string): (ip: string)
    ensures ':' !in ip || ip == Loopback
  {
    var ips := GetProxy(forwardedFor);
    var first := if |ips| > 0 then ips[0] else "";
    SplitPiecesAvoidSep(first, ':');
    SplitPiecesAvoidSep(remoteAddr, ':');
    if |ips| > 0 && ips[0] != "" then Split(ips[0], ':')[0]
    else
      var host := Split(remoteAddr, ':')[0];
      if host != "[" then host else Loopback
  }

  /** The text before the first c: all of s when it has none. */
  function Before(s: string, c: char): (r: string)
    ensures c !in r
    ensures |r| <= |s| && r == s[..|r|]
    ensures |r| < |s| ==> s[|r|] == c
  {
    var i := IndexOf(s, c);
    if i < 0 then s else s[..i]
  }

  /** The first piece of a split is the text before the first separator. */
  lemma FirstPiece(s: string, c: char)
    ensures Split(s, c)[0] == Before(s, c)
  {
    SplitHead(s, c);
  }

  /**
   * A non-empty first forwarded entry gives its text before the first ':',
   * spaces and all; otherwise the host of RemoteAddr is used, and a host of
   * exactly "[" gives the loopback address.
   */
  lemma IPRules(forwardedFor: string, remoteAddr: string)
    ensures var first := Before(forwardedFor, ',');
      first != "" ==> IP(forwardedFor, remoteAddr) == Before(first, ':')
    ensures var first := Before(forwardedFor, ',');
      first == "" ==>
        IP(forwardedFor, remoteAddr) == (if Before(remoteAddr, ':') == "[" then Loopback else Before(remoteAddr, ':'))
    ensures ':' !in IP(forwardedFor, remoteAddr) || IP(forwardedFor, remoteAddr) == Loopback
  {
    FirstPiece(forwardedFor, ',');
    FirstPiece(Before(forwardedFor, ','), ':');
    FirstPiece(remoteAddr, ':');
  }

  /** The text before the first c ends where c first occurs. */
  lemma BeforeAt(s: string, c: char, i: nat)
    requires i < |s| && s[i] == c && c !in s[..i]
    ensures Before(s, c) == s[..i]
  {
  }

  /** Without a header the host of RemoteAddr is used. */
  lemma RemoteAddrExample(a: string)
    requires a == "10.0.0.1:80"
    ensures IP("", a) == "10.0.0.1"
  {
    IPRules("", a);
    assert Before("", ',') == "";
    BeforeAt(a, ':', 8);
  }

  /** "[::1]:80" has host "[", which reads as loopback. */
  lemma LoopbackExample(a: string)
    requires a == "[::1]:80"
    ensures IP("", a) == Loopback
  {
    IPRules("", a);
    assert Before("", ',') == "";
    BeforeAt(a, ':', 1);
  }

  /** Forwarded entries are not trimmed: an entry with a leading space comes back as it is. */
  lemma UntrimmedExample(h: string, remote: string)
    requires h == " 1.2.3.4"
    ensures IP(h, remote) == h
  {
    IPRules(h, remote);
    assert ',' !in h && ':' !in h;
  }

  /** A header starting with ',' has an empty first entry, so RemoteAddr is used. */
  lemma LeadingCommaExample(h: string, remote: string)
    requires h == ",5.6.7.8" && remote == "9.9.9.9:1"
    ensures IP(h, remote) == "9.9.9.9"
  {
    IPRules(h, remote);
    BeforeAt(h, ',', 0);
    BeforeAt(remote, ':', 7);
  }

  /** Only a host of exactly "[" is replaced: a longer bracketed IPv6 address keeps its text before the first ':'. */
  lemma BracketExample(a: string)
    requires a == "[fe80::1]:80"
    ensures IP("", a) == "[fe80"
  {
    IPRules("", a);
    assert Before("", ',') == "";
    BeforeAt(a, ':', 5);
  }
}
