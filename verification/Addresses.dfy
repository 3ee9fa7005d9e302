/**
 Network addresses as sish's limiters read them: the host in front of a port, and the host of a
 request without its port.
 */
module Addresses {
  import opened Hostnames

  /** The position of the first c, or the length when there is none. */
  function FirstOf(s: string, c: char): (n: nat)
    ensures n <= |s|
    ensures forall i :: 0 <= i < n ==> s[i] != c
    ensures n < |s| ==> s[n] == c
  {
    if s == "" || s[0] == c then 0 else 1 + FirstOf(s[1..], c)
  }

  /** The position of the last c, or -1 when there is none. */
  function LastOf(s: string, c: char): (n: int)
    ensures -1 <= n < |s|
    ensures forall i :: n < i < |s| ==> s[i] != c
    ensures n >= 0 ==> s[n] == c
  {
    if s == "" then -1 else if s[|s| - 1] == c then |s| - 1 else LastOf(s[..|s| - 1], c)
  }

  /** The host of a "host:port" or "[host]:port". */
  function SplitHost(s: string): Option<string> {
    var i := LastOf(s, ':');
    if i < 0 then None
    else if s[0] == '[' then
      var end := FirstOf(s, ']');
      if end + 1 != i || '[' in s[1..] || ']' in s[end + 1..] then None else Some(s[1..end])
    else if ':' in s[..i] || '[' in s || ']' in s then None
    else Some(s[..i])
  }

  /** `remoteIP`. */
  function RemoteIP(addr: string): string {
    match SplitHost(addr)
    case Some(host) => host
    case None => addr
  }

  /** The host a request bucket is kept for. */
  function RequestHost(host: string): string {
    RemoteIP(Clean(host))
  }

  /** Nothing that belongs to the notation of an address. */
  predicate Plain(s: string) {
    forall i :: 0 <= i < |s| ==> s[i] != ':' && s[i] != '[' && s[i] != ']'
  }

  lemma PlainHasNone(s: string, c: char)
    requires Plain(s) && c in {':', '[', ']'}
    ensures c !in s
  {
  }

  lemma LastColon(a: string, b: string)
    requires Plain(b)
    ensures LastOf(a + ":" + b, ':') == |a|
  {
    LastSeparator(a, ':', b);
    assert a + ":" + b == a + [':'] + b;
  }

  lemma TailHasNone(front: string, c: char, b: string, i: nat)
    requires forall k :: 0 <= k < |b| ==> b[k] != c
    requires |front| <= i < |front + b|
    ensures (front + b)[i] != c
  {
    assert (front + b)[i] == b[i - |front|];
  }

  lemma LastSeparator(a: string, c: char, b: string)
    requires forall k :: 0 <= k < |b| ==> b[k] != c
    ensures LastOf(a + [c] + b, c) == |a|
  {
    var front := a + [c];
    var s := front + b;
    assert s[|a|] == front[|a|] == c;
    forall i | |front| <= i < |s| ensures s[i] != c {
      TailHasNone(front, c, b, i);
    }
  }

  /** A plain host is found in front of a plain port. */
  lemma HostBeforePort(host: string, port: string)
    requires host != "" && Plain(host) && Plain(port)
    ensures SplitHost(host + ":" + port) == Some(host)
  {
    var s := host + ":" + port;
    LastColon(host, port);
    assert s[..|host|] == host && s[0] == host[0];
    PlainHasNone(host, ':');
    forall i | 0 <= i < |s| ensures s[i] != '[' && s[i] != ']' {
      assert i < |host| ==> s[i] == host[i];
      assert i > |host| ==> s[i] == port[i - |host| - 1];
    }
  }

  /** So is a host in brackets, as IPv6 addresses are written, whatever colons it has. */
  lemma HostInBrackets(host: string, port: string)
    requires Plain(port) && forall i :: 0 <= i < |host| ==> host[i] != '[' && host[i] != ']'
    ensures SplitHost("[" + host + "]:" + port) == Some(host)
    ensures RemoteIP("[" + host + "]:" + port) == host
  {
    var s := "[" + host + "]:" + port;
    var front := "[" + host + "]";
    LastColon(front, port);
    assert s == front + ":" + port;
    assert s[0] == '[' && s[1..|host| + 1] == host && s[|host| + 1] == ']';
    forall i | 0 <= i < |s| && i != 0 && i != |host| + 1 ensures s[i] != '[' && s[i] != ']' {
      assert i <= |host| ==> s[i] == host[i - 1];
      assert i > |host| + 2 ==> s[i] == port[i - |host| - 3];
    }
    FirstIs(s, ']', |host| + 1);
    assert '[' !in s[1..] && ']' !in s[|host| + 2..];
  }

  lemma FirstIs(s: string, c: char, n: nat)
    requires n < |s| && s[n] == c && forall i :: 0 <= i < n ==> s[i] != c
    ensures FirstOf(s, c) == n
  {
  }

  /** Without a port there is nothing to split. */
  lemma PlainIsWhole(host: string)
    requires Plain(host)
    ensures RemoteIP(host) == host
  {
  }

  /** A host in its clean form shares one bucket with the same host followed by a port. */
  lemma PortSharesBucket(host: string, port: string)
    requires host != "" && Plain(host) && Plain(port)
    requires Clean(host) == host && Clean(host + ":" + port) == host + ":" + port
    ensures RequestHost(host) == RequestHost(host + ":" + port) == host
  {
    HostBeforePort(host, port);
    PlainIsWhole(host);
  }
}
