/**
 Host names: the label a user reserves, the fully qualified name a tunnel carries,
 and the four places that convert between them (reservation, authorization and
 lifecycle callbacks, the outbox selector, and the snapshot).
 */
module Hostnames {

  datatype Option<+T> = None | Some(value: T)

  /** The two names `canonicalHost` returns: the label and the fully qualified name. */
  datatype HostName = HostName(name: string, fqdn: string)

  datatype Reservation = Accepted(name: string) | ReservedWord | Malformed

  const MAX_LABEL := 63

  const RESERVED: set<string> := {
    "ssh", "tunnel", "www", "api", "admin", "auth", "app", "status", "mail",
    "smtp", "ftp", "ns1", "ns2", "_acme-challenge"
  }

  // ---------------------------------------------------------------- characters

  predicate IsSpace(c: char) {
    || c in {' ', '\t', '\n', '\r', '\U{0B}', '\U{0C}', '\U{85}', '\U{A0}', '\U{1680}'}
    || '\U{2000}' <= c <= '\U{200A}'
    || c in {'\U{2028}', '\U{2029}', '\U{202F}', '\U{205F}', '\U{3000}'}
  }

  /** Lower case. Only the characters whose lower case is an ASCII letter matter here:
      'A'..'Z', the Kelvin sign and the dotted capital I. */
  function Lower(c: char): char {
    if 'A' <= c <= 'Z' then c - 'A' + 'a'
    else if c == '\U{212A}' then 'k'
    else if c == '\U{130}' then 'i'
    else c
  }

  predicate LetterDigitHyphen(c: char) {
    'a' <= c <= 'z' || '0' <= c <= '9' || c == '-'
  }

  // ------------------------------------------------------------------- strings

  function TrimLeft(s: string): string {
    if s != "" && IsSpace(s[0]) then TrimLeft(s[1..]) else s
  }

  function TrimRight(s: string): string {
    if s != "" && IsSpace(s[|s| - 1]) then TrimRight(s[..|s| - 1]) else s
  }

  function TrimSpace(s: string): string {
    TrimRight(TrimLeft(s))
  }

  function ToLower(s: string): string {
    seq(|s|, i requires 0 <= i < |s| => Lower(s[i]))
  }

  predicate HasSuffix(s: string, suffix: string) {
    |suffix| <= |s| && s[|s| - |suffix|..] == suffix
  }

  function TrimSuffix(s: string, suffix: string): string {
    if HasSuffix(s, suffix) then s[..|s| - |suffix|] else s
  }

  /** The clean-up shared by sish and the control plane: trim, drop one final dot, lower case. */
  function Clean(s: string): string {
    ToLower(TrimSuffix(TrimSpace(s), "."))
  }

  /** A label of letters, digits and hyphens as section 2.3.1 of RFC 1035 defines it,
      with the leading digit that section 2.1 of RFC 1123 allows. */
  predicate IsLabel(s: string) {
    && 1 <= |s| <= MAX_LABEL
    && s[0] != '-' && s[|s| - 1] != '-'
    && forall i :: 0 <= i < |s| ==> LetterDigitHyphen(s[i])
  }

  /** A base domain in the form the configuration holds it: lower case, no outer spaces,
      no final dot. */
  predicate NormalDomain(d: string) {
    && d != "" && !IsSpace(d[0]) && !IsSpace(d[|d| - 1]) && d[|d| - 1] != '.'
    && ToLower(d) == d
  }

  function Fqdn(lbl: string, domain: string): string {
    lbl + "." + domain
  }

  // ------------------------------------------------------- the four boundaries

  /** What reservation accepts: the trimmed, lower-cased name. */
  function Normalized(raw: string): string {
    ToLower(TrimSpace(raw))
  }

  /** The label part of `canonicalHost`: the cleaned host without the base domain. */
  function HostLabel(host: string, domain: string): string {
    TrimSuffix(Clean(host), "." + Clean(domain))
  }

  /** `canonicalHost`: the label and the full name, if the host is one label under the domain. */
  function Canonical(host: string, domain: string): Option<HostName> {
    if Clean(domain) != "" && IsLabel(HostLabel(host, domain)) then
      Some(HostName(HostLabel(host, domain), Fqdn(HostLabel(host, domain), Clean(domain))))
    else
      None
  }

  /** The name the outbox worker puts into a host disconnect. */
  function OutboxHost(name: string, domain: string): string {
    var host := Clean(name);
    var d := Clean(domain);
    if d != "" && !HasSuffix(host, "." + d) then host + "." + d else host
  }

  /** The position of the first dot, or the length when there is none. */
  function FirstDot(s: string): (n: nat)
    ensures n <= |s|
    ensures forall i :: 0 <= i < n ==> s[i] != '.'
    ensures n < |s| ==> s[n] == '.'
  {
    if s == "" || s[0] == '.' then 0 else 1 + FirstDot(s[1..])
  }

  /** How the snapshot recovers the label: everything before a first dot that is not at
      the start. */
  function FirstLabel(host: string): Option<string> {
    var n := FirstDot(host);
    if 0 < n < |host| then Some(host[..n]) else None
  }

  /** The row filter of a name release: the bare name, or anything below it. */
  predicate MatchesName(host: string, name: string) {
    host == name || name + "." <= host
  }

  /** `NormalizeSubdomain`, with its scan over the characters. */
  method NormalizeSubdomain(raw: string) returns (r: Reservation)
    ensures r.Accepted? <==> IsLabel(Normalized(raw)) && Normalized(raw) !in RESERVED
    ensures r.Accepted? ==> r.name == Normalized(raw)
    ensures r.ReservedWord? <==> Normalized(raw) in RESERVED
    ensures r.ReservedWord? <==>
      Normalized(raw) in ["ssh", "tunnel", "www", "api", "admin", "auth", "app", "status", "mail", "smtp", "ftp", "ns1",
                          "ns2", "_acme-challenge"]
  {
    var name := ToLower(TrimSpace(raw));
    if name in RESERVED {
      return ReservedWord;
    }
    if |name| < 1 || |name| > 63 || name[0] == '-' || name[|name| - 1] == '-' {
      return Malformed;
    }
    var i := 0;
    while i < |name|
      invariant 0 <= i <= |name|
      invariant forall j :: 0 <= j < i ==> LetterDigitHyphen(name[j])
    {
      if !LetterDigitHyphen(name[i]) || IsSpace(name[i]) {
        return Malformed;
      }
      i := i + 1;
    }
    return Accepted(name);
  }

  /** `canonicalHost`, with its early exits and its scan over the characters. */
  method CanonicalHost(host: string, domain: string) returns (r: Option<HostName>)
    ensures r == Canonical(host, domain)
  {
    var h := Clean(host);
    var d := Clean(domain);
    if d == "" {
      return None;
    }
    if HasSuffix(h, "." + d) {
      h := TrimSuffix(h, "." + d);
    }
    if h == "" || '.' in h || |h| > 63 || h[0] == '-' || h[|h| - 1] == '-' {
      return None;
    }
    var i := 0;
    while i < |h|
      invariant 0 <= i <= |h|
      invariant forall j :: 0 <= j < i ==> LetterDigitHyphen(h[j])
    {
      if !LetterDigitHyphen(h[i]) {
        return None;
      }
      i := i + 1;
    }
    return Some(HostName(h, h + "." + d));
  }

  // ------------------------------------------------------------- trimming, in full

  /** The characters with the White_Space property of Unicode. */
  lemma SpacesExactly(c: char)
    ensures IsSpace(c) <==>
      || 9 <= c as int <= 13 || 8192 <= c as int <= 8202
      || c as int in [32, 133, 160, 5760, 8232, 8233, 8239, 8287, 12288]
  {
  }

  /** t is s without the spaces around it. */
  ghost predicate TrimsTo(s: string, t: string) {
    exists i, j :: TrimsAt(s, t, i, j)
  }

  ghost predicate TrimsAt(s: string, t: string, i: int, j: int) {
    && 0 <= i <= j <= |s| && t == s[i..j]
    && (forall k :: 0 <= k < i || j <= k < |s| ==> IsSpace(s[k]))
    && (i < j ==> !IsSpace(s[i]) && !IsSpace(s[j - 1]))
  }

  lemma {:induction false} TrimLeftFrom(s: string) returns (i: nat)
    ensures i <= |s| && TrimLeft(s) == s[i..] && (forall k :: 0 <= k < i ==> IsSpace(s[k]))
    ensures i < |s| ==> !IsSpace(s[i])
  {
    if s != "" && IsSpace(s[0]) {
      var j := TrimLeftFrom(s[1..]);
      i := j + 1;
      assert forall k :: 1 <= k < i ==> s[k] == s[1..][k - 1];
    } else {
      i := 0;
    }
  }

  lemma {:induction false} TrimRightTo(s: string) returns (j: nat)
    ensures j <= |s| && TrimRight(s) == s[..j] && (forall k :: j <= k < |s| ==> IsSpace(s[k]))
    ensures j > 0 ==> !IsSpace(s[j - 1])
  {
    if s != "" && IsSpace(s[|s| - 1]) {
      j := TrimRightTo(s[..|s| - 1]);
    } else {
      j := |s|;
    }
  }

  /** Trimming takes away the spaces around, all of them and nothing else. */
  lemma TrimSpaceTrims(s: string)
    ensures TrimsTo(s, TrimSpace(s))
  {
    var i := TrimLeftFrom(s);
    var j := TrimRightTo(s[i..]);
    var rest := s[i..];
    assert rest[..j] == s[i..i + j];
    forall k | i + j <= k < |s| ensures IsSpace(s[k]) {
      assert rest[k - i] == s[k];
    }
    assert j > 0 ==> rest[j - 1] == s[i + j - 1] && rest[0] == s[i];
    assert TrimsAt(s, TrimSpace(s), i, i + j);
  }

  lemma TrimmedOnce(s: string, t: string, u: string)
    requires TrimsTo(s, t) && TrimsTo(s, u)
    ensures t == u
  {
    var i, j :| TrimsAt(s, t, i, j);
    var k, l :| TrimsAt(s, u, k, l);
    SomethingLeft(s, t, i, j, u, k, l);
    SomethingLeft(s, u, k, l, t, i, j);
    if i < j {
      assert !IsSpace(s[i]) && !IsSpace(s[k]) && !IsSpace(s[j - 1]) && !IsSpace(s[l - 1]);
      assert i == k && j == l;
    }
  }

  lemma SomethingLeft(s: string, t: string, i: int, j: int, u: string, k: int, l: int)
    requires TrimsAt(s, t, i, j) && TrimsAt(s, u, k, l)
    ensures i < j ==> k < l
  {
    if i < j {
      assert !IsSpace(s[i]);
    }
  }

  /** What the clean-up of a host makes of it: without the spaces around and then without one final dot,
      the letters 'A' to 'Z' small and every other ASCII character as it was. */
  lemma CleanExactly(s: string) returns (t: string)
    ensures TrimsTo(s, t)
    ensures var u := if t != "" && t[|t| - 1] == '.' then t[..|t| - 1] else t;
      && |Clean(s)| == |u|
      && forall i :: 0 <= i < |u| && u[i] < '\U{80}' ==>
           Clean(s)[i] == if 'A' <= u[i] <= 'Z' then u[i] - 'A' + 'a' else u[i]
  {
    t := TrimSpace(s);
    TrimSpaceTrims(s);
    if t != "" {
      assert t[|t| - 1..] == [t[|t| - 1]];
    }
  }

  /** The same for a reserved name, where no dot goes. */
  lemma NormalizedExactly(raw: string) returns (t: string)
    ensures TrimsTo(raw, t) && |Normalized(raw)| == |t|
    ensures forall i :: 0 <= i < |t| && t[i] < '\U{80}' ==>
      Normalized(raw)[i] == if 'A' <= t[i] <= 'Z' then t[i] - 'A' + 'a' else t[i]
  {
    t := TrimSpace(raw);
    TrimSpaceTrims(raw);
  }

  // -------------------------------------------------------------------- lemmas

  lemma CleanFixed(s: string)
    requires s != "" && !IsSpace(s[0]) && !IsSpace(s[|s| - 1]) && s[|s| - 1] != '.'
    requires forall i :: 0 <= i < |s| ==> Lower(s[i]) == s[i]
    ensures Clean(s) == s
  {
    assert TrimSpace(s) == s;
    assert s[|s| - 1..] == [s[|s| - 1]];
    assert !HasSuffix(s, ".");
    assert ToLower(s) == s;
  }

  lemma NormalDomainFixed(d: string)
    requires NormalDomain(d)
    ensures Clean(d) == d
  {
    forall i | 0 <= i < |d| ensures Lower(d[i]) == d[i] {
      assert ToLower(d)[i] == Lower(d[i]);
    }
    CleanFixed(d);
  }

  lemma FqdnFixed(lbl: string, d: string)
    requires IsLabel(lbl) && NormalDomain(d)
    ensures Clean(lbl) == lbl
    ensures Clean(Fqdn(lbl, d)) == Fqdn(lbl, d)
  {
    assert LetterDigitHyphen(lbl[0]) && LetterDigitHyphen(lbl[|lbl| - 1]);
    CleanFixed(lbl);
    var f := Fqdn(lbl, d);
    forall i | 0 <= i < |f| ensures Lower(f[i]) == f[i] {
      if i > |lbl| {
        assert f[i] == d[i - |lbl| - 1] == ToLower(d)[i - |lbl| - 1];
      }
    }
    CleanFixed(f);
  }

  lemma LabelHasNoDot(lbl: string)
    requires IsLabel(lbl)
    ensures forall i :: 0 <= i < |lbl| ==> lbl[i] != '.'
  {
    forall i | 0 <= i < |lbl| ensures lbl[i] != '.' {
      assert LetterDigitHyphen(lbl[i]);
    }
  }

  lemma NoDottedSuffix(lbl: string, d: string)
    requires IsLabel(lbl)
    ensures !HasSuffix(lbl, "." + d)
  {
    LabelHasNoDot(lbl);
    if |lbl| >= |"." + d| {
      var at := |lbl| - |"." + d|;
      assert lbl[at..][0] == lbl[at] != '.' == ("." + d)[0];
    }
  }

  /** Every boundary reads a reserved label and its full name the same way: the callbacks
      return the same pair for both, sish's own clean-up changes neither, the outbox builds
      the same full name, and the snapshot finds the label again. */
  lemma BoundariesAgree(lbl: string, d: string)
    requires IsLabel(lbl) && NormalDomain(d)
    ensures Canonical(lbl, d) == Some(HostName(lbl, Fqdn(lbl, d)))
    ensures Canonical(Fqdn(lbl, d), d) == Some(HostName(lbl, Fqdn(lbl, d)))
    ensures Clean(Fqdn(lbl, d)) == Fqdn(lbl, d)
    ensures OutboxHost(lbl, d) == Fqdn(lbl, d)
    ensures FirstLabel(Fqdn(lbl, d)) == Some(lbl)
  {
    FqdnFixed(lbl, d);
    LabelIsCanonical(lbl, d);
    FullNameIsCanonical(lbl, d);
    FirstDotOfFqdn(lbl, d);
    assert !HasSuffix(lbl, "." + d) by {
      NoDottedSuffix(lbl, d);
    }
  }

  lemma LabelIsCanonical(lbl: string, d: string)
    requires IsLabel(lbl) && NormalDomain(d)
    ensures Canonical(lbl, d) == Some(HostName(lbl, Fqdn(lbl, d)))
  {
    NormalDomainFixed(d);
    FqdnFixed(lbl, d);
    NoDottedSuffix(lbl, d);
  }

  lemma FullNameIsCanonical(lbl: string, d: string)
    requires IsLabel(lbl) && NormalDomain(d)
    ensures Canonical(Fqdn(lbl, d), d) == Some(HostName(lbl, Fqdn(lbl, d)))
  {
    NormalDomainFixed(d);
    FqdnFixed(lbl, d);
    FqdnWithoutDomain(lbl, d);
  }

  lemma FqdnWithoutDomain(lbl: string, d: string)
    ensures TrimSuffix(Fqdn(lbl, d), "." + d) == lbl
  {
    SuffixComesOff(lbl, "." + d);
    assert Fqdn(lbl, d) == lbl + ("." + d);
  }

  lemma SuffixComesOff(s: string, suffix: string)
    ensures TrimSuffix(s + suffix, suffix) == s
  {
    assert (s + suffix)[|s|..] == suffix && (s + suffix)[..|s|] == s;
  }

  lemma FirstDotOfFqdn(lbl: string, d: string)
    requires IsLabel(lbl)
    ensures FirstDot(Fqdn(lbl, d)) == |lbl|
    ensures FirstLabel(Fqdn(lbl, d)) == Some(lbl)
  {
    LabelHasNoDot(lbl);
    var f := Fqdn(lbl, d);
    assert f[|lbl|] == '.' && f[..|lbl|] == lbl;
    assert forall i :: 0 <= i < |lbl| ==> f[i] == lbl[i];
  }

  /** A label in numbers: up to 63 small letters, digits and hyphens of ASCII, no hyphen at either end. */
  lemma LabelExactly(s: string)
    ensures IsLabel(s) <==>
      && 1 <= |s| <= 63 && s[0] as int != 45 && s[|s| - 1] as int != 45
      && forall i :: 0 <= i < |s| ==>
           97 <= s[i] as int <= 122 || 48 <= s[i] as int <= 57 || s[i] as int == 45
  {
    assert forall i :: 0 <= i < |s| ==>
      (LetterDigitHyphen(s[i]) <==> 97 <= s[i] as int <= 122 || 48 <= s[i] as int <= 57 || s[i] as int == 45);
  }

  /** `canonicalHost` accepts exactly the clean forms of a label and of its full name, under a base domain that
      is not empty. */
  lemma CanonicalExactly(host: string, d: string, h: HostName)
    ensures Canonical(host, d) == Some(h) <==>
      && Clean(d) != "" && IsLabel(h.name) && h.fqdn == h.name + "." + Clean(d)
      && (Clean(host) == h.name || Clean(host) == h.fqdn)
  {
    var c, suffix := Clean(host), "." + Clean(d);
    assert h.name + "." + Clean(d) == h.name + suffix;
    if HasSuffix(c, suffix) {
      assert c == TrimSuffix(c, suffix) + suffix;
    }
    SuffixComesOff(h.name, suffix);
    assert HasSuffix(h.name + suffix, suffix);
    if IsLabel(h.name) {
      NoDottedSuffix(h.name, Clean(d));
    }
  }

  /** The outbox completes a name once: a full name stays as it is, and without a base domain so does a bare
      one. */
  lemma OutboxHostOnce(lbl: string, d: string)
    requires IsLabel(lbl) && NormalDomain(d)
    ensures OutboxHost(lbl, d) == Fqdn(lbl, d) == OutboxHost(Fqdn(lbl, d), d)
    ensures OutboxHost(lbl, "") == lbl
  {
    BoundariesAgree(lbl, d);
    NormalDomainFixed(d);
    FqdnFixed(lbl, d);
    assert Fqdn(lbl, d) == lbl + ("." + d);
    assert HasSuffix(lbl + ("." + d), "." + d);
    assert Clean("") == "";
  }

  /** What `canonicalHost` returns is always a label and that label's full name. */
  lemma CanonicalIsLabel(host: string, d: string)
    requires NormalDomain(d) && Canonical(host, d).Some?
    ensures IsLabel(Canonical(host, d).value.name)
    ensures Canonical(host, d).value.fqdn == Fqdn(Canonical(host, d).value.name, d)
  {
    NormalDomainFixed(d);
  }

  /** A string without spaces at its ends, as trimming leaves it. */
  predicate Trimmed(s: string) {
    s != "" ==> !IsSpace(s[0]) && !IsSpace(s[|s| - 1])
  }

  lemma {:induction false} TrimLeftStart(s: string)
    ensures TrimLeft(s) != "" ==> !IsSpace(TrimLeft(s)[0])
  {
    if s != "" && IsSpace(s[0]) {
      TrimLeftStart(s[1..]);
    }
  }

  lemma {:induction false} TrimRightEnds(s: string)
    requires s != "" ==> !IsSpace(s[0])
    ensures TrimRight(s) <= s && Trimmed(TrimRight(s))
  {
    if s != "" && IsSpace(s[|s| - 1]) {
      TrimRightEnds(s[..|s| - 1]);
    }
  }

  lemma TrimmedFixed(s: string)
    requires Trimmed(s)
    ensures TrimSpace(s) == s
  {
  }

  lemma LowerTwice(s: string)
    ensures ToLower(ToLower(s)) == ToLower(s)
    ensures Trimmed(s) ==> Trimmed(ToLower(s))
  {
    assert forall i :: 0 <= i < |s| ==> ToLower(s)[i] == Lower(s[i]);
  }

  /** Normalizing a normalized name changes nothing. */
  lemma NormalizedTwice(raw: string)
    ensures Normalized(Normalized(raw)) == Normalized(raw)
  {
    var left := TrimLeft(raw);
    TrimLeftStart(raw);
    TrimRightEnds(left);
    assert Trimmed(TrimSpace(raw));
    LowerTwice(TrimSpace(raw));
    TrimmedFixed(Normalized(raw));
  }

  lemma LabelNormalized(lbl: string)
    requires IsLabel(lbl)
    ensures Normalized(lbl) == lbl
  {
    assert LetterDigitHyphen(lbl[0]) && LetterDigitHyphen(lbl[|lbl| - 1]);
    assert TrimSpace(lbl) == lbl;
    assert ToLower(lbl) == lbl;
  }

  /** A name that reservation accepts survives every boundary unchanged. */
  lemma ReservationSurvivesBoundaries(raw: string, d: string)
    requires NormalDomain(d)
    requires IsLabel(Normalized(raw))
    ensures var n := Normalized(raw);
      && Canonical(n, d) == Canonical(Fqdn(n, d), d) == Some(HostName(n, OutboxHost(n, d)))
      && FirstLabel(OutboxHost(n, d)) == Some(n)
      && Normalized(n) == n
  {
    BoundariesAgree(Normalized(raw), d);
    LabelNormalized(Normalized(raw));
  }

  /** Two labels never share a full name. */
  lemma FqdnInjective(a: string, b: string, d: string)
    requires IsLabel(a) && IsLabel(b) && Fqdn(a, d) == Fqdn(b, d)
    ensures a == b
  {
    FirstDotOfFqdn(a, d);
    FirstDotOfFqdn(b, d);
  }

  /** The release filter selects exactly the full name of the released label. */
  lemma ReleaseMatchesOneLabel(lbl: string, name: string, d: string)
    requires IsLabel(lbl) && IsLabel(name)
    ensures MatchesName(Fqdn(lbl, d), name) <==> lbl == name
  {
    var f := Fqdn(lbl, d);
    LabelHasNoDot(name);
    FirstDotOfFqdn(lbl, d);
    assert f[|lbl|] == '.' && f[..|lbl|] == lbl;
    LabelHasNoDot(lbl);
    assert forall i :: 0 <= i < |lbl| ==> f[i] == lbl[i];
    if lbl == name {
      assert f == (name + ".") + d;
    }
    if name + "." <= f {
      assert f[|name|] == '.' && f[..|name|] == name;
    }
  }
}
