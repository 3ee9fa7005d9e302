/**
 The directory of public key files sish reads: which names the control plane manages, and how
 it writes, removes and reconciles them.  The names stand for the files of one directory.
 */
module KeyFiles {
  import opened Hostnames

  const PREFIX := "control-plane-"
  const EXTENSION := ".pub"

  datatype SshKey = SshKey(id: int, user: int, publicKey: string, enabled: bool)

  // ------------------------------------------------------------------ file names

  predicate IsDigit(c: char) {
    '0' <= c <= '9'
  }

  predicate Digits(s: string) {
    forall i :: 0 <= i < |s| ==> IsDigit(s[i])
  }

  /** `[1-9][0-9]*` */
  predicate Numeral(s: string) {
    s != "" && s[0] != '0' && Digits(s)
  }

  function DigitOf(d: nat): (c: char)
    requires d < 10
    ensures IsDigit(c) && DigitValue(c) == d && (c == '0' <==> d == 0)
  {
    '0' + d as char
  }

  function DigitValue(c: char): nat
    requires IsDigit(c)
  {
    (c - '0') as int
  }

  function Decimal(n: nat): string {
    if n < 10 then [DigitOf(n)] else Decimal(n / 10) + [DigitOf(n % 10)]
  }

  function FormatInt(n: int): string {
    if n < 0 then "-" + Decimal(-n) else Decimal(n)
  }

  function Value(s: string): nat
    requires Digits(s)
  {
    if s == "" then 0 else 10 * Value(s[..|s| - 1]) + DigitValue(s[|s| - 1])
  }

  function Filename(user: int, key: int): string {
    PREFIX + FormatInt(user) + "-" + FormatInt(key) + EXTENSION
  }

  /** `control-plane-[1-9][0-9]*-[1-9][0-9]*.pub`, matched from end to end. */
  predicate Managed(name: string) {
    Framed(name) && Splits(name[|PREFIX|..|name| - |EXTENSION|])
  }

  predicate Splits(body: string) {
    exists i :: 0 <= i < |body| && SplitsAt(body, i)
  }

  predicate Framed(name: string) {
    |PREFIX| + |EXTENSION| <= |name| && PREFIX <= name && HasSuffix(name, EXTENSION)
  }

  predicate SplitsAt(body: string, i: nat) {
    i < |body| && body[i] == '-' && Numeral(body[..i]) && Numeral(body[i + 1..])
  }

  function Content(publicKey: string): string {
    TrimSpace(publicKey) + "\n"
  }

  /** The text of a key file: the key without the spaces around it, and a newline. */
  ghost predicate HoldsKey(text: string, publicKey: string) {
    |text| > 0 && text[|text| - 1] == '\n' && TrimsTo(publicKey, text[..|text| - 1])
  }

  lemma ContentHolds(publicKey: string)
    ensures HoldsKey(Content(publicKey), publicKey)
  {
    TrimSpaceTrims(publicKey);
    var text := Content(publicKey);
    assert text[..|text| - 1] == TrimSpace(publicKey);
  }

  /** No other text holds the key, and two keys have the same file exactly if they differ in outer spaces
      only. */
  lemma ContentExactly(text: string, publicKey: string, other: string)
    ensures HoldsKey(text, publicKey) <==> text == Content(publicKey)
    ensures Content(publicKey) == Content(other) <==> exists t :: TrimsTo(publicKey, t) && TrimsTo(other, t)
  {
    ContentHolds(publicKey);
    ContentHolds(other);
    if HoldsKey(text, publicKey) {
      var text' := Content(publicKey);
      TrimmedOnce(publicKey, text[..|text| - 1], text'[..|text'| - 1]);
      assert text == text[..|text| - 1] + "\n" && text' == text'[..|text'| - 1] + "\n";
    }
    SameContent(publicKey, other);
  }

  lemma SameContent(publicKey: string, other: string)
    ensures Content(publicKey) == Content(other) <==> exists t :: TrimsTo(publicKey, t) && TrimsTo(other, t)
  {
    TrimSpaceTrims(publicKey);
    TrimSpaceTrims(other);
    var a, b := Content(publicKey), Content(other);
    assert a[..|a| - 1] == TrimSpace(publicKey) && b[..|b| - 1] == TrimSpace(other);
    if t :| TrimsTo(publicKey, t) && TrimsTo(other, t) {
      TrimmedOnce(publicKey, TrimSpace(publicKey), t);
      TrimmedOnce(other, TrimSpace(other), t);
    }
  }

  lemma AppendDigit(s: string, c: char)
    requires Digits(s) && IsDigit(c)
    ensures Digits(s + [c]) && Value(s + [c]) == 10 * Value(s) + DigitValue(c)
  {
    assert (s + [c])[..|s + [c]| - 1] == s;
  }

  lemma {:induction false} DecimalIsNumeral(n: nat)
    requires n > 0
    ensures Numeral(Decimal(n)) && Value(Decimal(n)) == n
  {
    if n < 10 {
      AppendDigit("", DigitOf(n));
      assert "" + [DigitOf(n)] == Decimal(n);
    } else {
      DecimalIsNumeral(n / 10);
      AppendDigit(Decimal(n / 10), DigitOf(n % 10));
    }
  }

  lemma {:induction false} NumeralIsDecimal(s: string)
    requires Numeral(s)
    ensures Value(s) > 0 && Decimal(Value(s)) == s
  {
    var init, last := s[..|s| - 1], s[|s| - 1];
    assert IsDigit(last) && s == init + [last];
    AppendDigit(init, last);
    assert DigitOf(DigitValue(last)) == last;
    if init != "" {
      NumeralIsDecimal(init);
      assert Value(s) / 10 == Value(init) && Value(s) % 10 == DigitValue(last);
    }
  }

  lemma SameSplit(a: string, b: string, c: string, d: string)
    requires Digits(a) && Digits(c) && a + "-" + b == c + "-" + d
    ensures a == c && b == d
  {
    var s := a + "-" + b;
    assert s[|a|] == '-' && s[|c|] == '-';
    assert forall i :: 0 <= i < |a| ==> IsDigit(a[i]) && a[i] == s[i];
    assert forall i :: 0 <= i < |c| ==> IsDigit(c[i]) && c[i] == s[i];
    assert a == s[..|a|] && b == s[|a| + 1..];
  }

  function Body(a: string, b: string): string {
    a + "-" + b
  }

  lemma FilenameBody(user: int, key: int)
    ensures var name := Filename(user, key);
      && Framed(name)
      && name[|PREFIX|..|name| - |EXTENSION|] == Body(FormatInt(user), FormatInt(key))
  {
    FilenameIs(user, key);
  }

  /** No two keys share a file. */
  lemma FilenameInjective(user: int, key: int, user': int, key': int)
    requires user > 0 && key > 0 && user' > 0 && key' > 0
    requires Filename(user, key) == Filename(user', key')
    ensures user == user' && key == key'
  {
    FilenameBody(user, key);
    FilenameBody(user', key');
    DecimalIsNumeral(user);
    DecimalIsNumeral(user');
    DecimalIsNumeral(key);
    DecimalIsNumeral(key');
    SameSplit(FormatInt(user), FormatInt(key), FormatInt(user'), FormatInt(key'));
  }

  lemma FilenameManaged(user: int, key: int)
    requires user > 0 && key > 0
    ensures Managed(Filename(user, key))
  {
    FilenameBody(user, key);
    DecimalIsNumeral(user);
    DecimalIsNumeral(key);
    var body := Body(FormatInt(user), FormatInt(key));
    var i := |FormatInt(user)|;
    assert body[..i] == FormatInt(user) && body[i + 1..] == FormatInt(key);
    assert SplitsAt(body, i);
  }

  lemma Reassembled(name: string)
    requires Framed(name)
    ensures name == PREFIX + name[|PREFIX|..|name| - |EXTENSION|] + EXTENSION
  {
    var end := |name| - |EXTENSION|;
    assert name == name[..|PREFIX|] + name[|PREFIX|..end] + name[end..];
  }

  lemma BodyIds(a: string, b: string) returns (user: int, key: int)
    requires Numeral(a) && Numeral(b)
    ensures user > 0 && key > 0 && FormatInt(user) == a && FormatInt(key) == b
  {
    NumeralIsDecimal(a);
    NumeralIsDecimal(b);
    user, key := Value(a), Value(b);
  }

  lemma ManagedParts(name: string) returns (a: string, b: string)
    requires Managed(name)
    ensures Numeral(a) && Numeral(b) && name == PREFIX + Body(a, b) + EXTENSION
  {
    var body := name[|PREFIX|..|name| - |EXTENSION|];
    Reassembled(name);
    var i :| 0 <= i < |body| && SplitsAt(body, i);
    a, b := body[..i], body[i + 1..];
    assert body == Body(a, b);
  }

  lemma ManagedIds(name: string) returns (user: int, key: int)
    requires Managed(name)
    ensures user > 0 && key > 0 && name == Filename(user, key)
  {
    var a, b := ManagedParts(name);
    user, key := BodyIds(a, b);
    FilenameIs(user, key);
  }

  lemma FilenameIs(user: int, key: int)
    ensures Filename(user, key) == PREFIX + Body(FormatInt(user), FormatInt(key)) + EXTENSION
  {
  }

  /** The reserved name space is exactly the names written for positive ids. */
  lemma ManagedExactly(name: string)
    ensures Managed(name) <==> exists user, key :: user > 0 && key > 0 && name == Filename(user, key)
  {
    if Managed(name) {
      var user, key := ManagedIds(name);
    }
    forall user, key | user > 0 && key > 0 && name == Filename(user, key) ensures Managed(name) {
      FilenameManaged(user, key);
    }
  }

  // ------------------------------------------------------------------- contents

  /** The keys a reconciliation wants, by file name. */
  function WantedOf(keys: seq<SshKey>): map<string, SshKey> {
    if keys == [] then map[]
    else
      var last := keys[|keys| - 1];
      WantedOf(keys[..|keys| - 1])[Filename(last.user, last.id) := last]
  }

  ghost predicate NamesMatch(wanted: map<string, SshKey>) {
    forall name :: name in wanted ==> name == Filename(wanted[name].user, wanted[name].id)
  }

  /** The managed files nobody wants. */
  function Unwanted(files: map<string, string>, wanted: map<string, SshKey>): set<string> {
    set name | name in files && Managed(name) && name !in wanted
  }

  function Contents(wanted: map<string, SshKey>, names: set<string>): map<string, string> {
    map name | name in wanted && name in names :: Content(wanted[name].publicKey)
  }

  /** The directory once some files are gone and some wanted ones are written. */
  function Stage(files: map<string, string>, wanted: map<string, SshKey>, gone: set<string>, written: set<string>):
    map<string, string>
  {
    (files - gone) + Contents(wanted, written)
  }

  /** A complete reconciliation: managed files are the wanted ones, the others are left alone. */
  function Reconciliation(files: map<string, string>, wanted: map<string, SshKey>): map<string, string> {
    Stage(files, wanted, Unwanted(files, wanted), wanted.Keys)
  }

  /** What an interrupted reconciliation may leave. */
  ghost predicate Between(before: map<string, string>, after: map<string, string>, wanted: map<string, SshKey>) {
    exists gone, written ::
      gone <= Unwanted(before, wanted) && written <= wanted.Keys && after == Stage(before, wanted, gone, written)
  }

  lemma StageStart(files: map<string, string>, wanted: map<string, SshKey>)
    ensures Stage(files, wanted, {}, {}) == files
  {
  }

  lemma StageRemoves(files: map<string, string>, wanted: map<string, SshKey>, gone: set<string>, name: string)
    ensures Stage(files, wanted, gone + {name}, {}) == Stage(files, wanted, gone, {}) - {name}
  {
  }

  lemma StageWrites(files: map<string, string>, wanted: map<string, SshKey>, gone: set<string>, written: set<string>,
                    name: string)
    requires name in wanted
    ensures Stage(files, wanted, gone, written + {name})
         == Stage(files, wanted, gone, written)[name := Content(wanted[name].publicKey)]
  {
  }

  lemma StageIsBetween(files: map<string, string>, wanted: map<string, SshKey>, gone: set<string>, written: set<string>)
    requires gone <= Unwanted(files, wanted) && written <= wanted.Keys
    ensures Between(files, Stage(files, wanted, gone, written), wanted)
  {
  }

  /** Wherever it stops, a reconciliation leaves each file as it was, or removed because it is
      managed and not wanted, or written because it is wanted. */
  lemma BetweenMeans(before: map<string, string>, after: map<string, string>, wanted: map<string, SshKey>, name: string)
    requires Between(before, after, wanted)
    ensures name in after ==>
      || (name in wanted && after[name] == Content(wanted[name].publicKey))
      || (name in before && after[name] == before[name])
    ensures name in before && name !in after ==> Managed(name) && name !in wanted
  {
  }

  lemma WantedNamesMatch(keys: seq<SshKey>)
    ensures NamesMatch(WantedOf(keys))
  {
  }

  lemma {:induction false} WantedAreListed(keys: seq<SshKey>)
    ensures forall name :: name in WantedOf(keys) ==> WantedOf(keys)[name] in keys
  {
    if keys != [] {
      var init := keys[..|keys| - 1];
      WantedAreListed(init);
      assert forall k :: k in init ==> k in keys;
    }
  }

  /** A complete reconciliation, name by name: managed files are there exactly for the wanted keys and hold
      them, and every other file is as it was. */
  lemma ReconciledExactly(files: map<string, string>, wanted: map<string, SshKey>)
    ensures var after := Reconciliation(files, wanted);
      && (forall name :: Managed(name) ==> (name in after <==> name in wanted))
      && (forall name :: name in wanted ==> name in after && HoldsKey(after[name], wanted[name].publicKey))
      && (forall name :: !Managed(name) && name !in wanted ==>
            (name in after <==> name in files) && (name in after ==> after[name] == files[name]))
  {
    forall name | name in wanted ensures HoldsKey(Reconciliation(files, wanted)[name], wanted[name].publicKey) {
      ContentHolds(wanted[name].publicKey);
    }
  }

  /** The name of a key file, spelled out. */
  lemma FilenameExample()
    ensures Filename(3, 12) == "control-plane-3-12.pub"
  {
    assert Decimal(3) == "3" && Decimal(12) == Decimal(1) + "2" && Decimal(1) == "1";
  }

  /** `PublicKeyWriter`.  A file operation that reports an error may still have had its effect; if the file
      system is reliable there is no such error. */
  class PublicKeyWriter {
    const reliable: bool
    var files: map<string, string>

    constructor (reliable: bool, files: map<string, string>)
      ensures this.reliable == reliable && this.files == files
    {
      this.reliable, this.files := reliable, files;
    }

    /** One file operation. */
    method Operate() returns (done: bool)
      ensures done || !reliable
    {
      var failed: bool := *;
      done := !failed || reliable;
    }

    method Write(k: SshKey) returns (ok: bool)
      modifies this
      ensures ok ==> k.id > 0 && k.user > 0
      ensures k.id <= 0 || k.user <= 0 ==> files == old(files)
      ensures files == old(files) || files == old(files)[Filename(k.user, k.id) := Content(k.publicKey)]
      ensures ok ==> files == old(files)[Filename(k.user, k.id) := Content(k.publicKey)]
      ensures ok ==> Filename(k.user, k.id) in files && HoldsKey(files[Filename(k.user, k.id)], k.publicKey)
      ensures reliable && k.id > 0 && k.user > 0 ==> ok
    {
      ContentHolds(k.publicKey);
      if k.id <= 0 || k.user <= 0 {
        return false;
      }
      var staged := Operate();
      if !staged {
        return false;
      }
      files := files[Filename(k.user, k.id) := TrimSpace(k.publicKey) + "\n"];
      ok := Operate(); // the directory is flushed last
    }

    method Remove(user: int, key: int) returns (ok: bool)
      modifies this
      ensures ok ==> user > 0 && key > 0
      ensures user <= 0 || key <= 0 ==> files == old(files)
      ensures files == old(files) || files == old(files) - {Filename(user, key)}
      ensures ok ==> files == old(files) - {Filename(user, key)}
      ensures reliable && user > 0 && key > 0 ==> ok
    {
      if user <= 0 || key <= 0 {
        return false;
      }
      if Filename(user, key) !in files {
        return true;
      }
      var removed := Operate();
      if !removed {
        return false;
      }
      files := files - {Filename(user, key)};
      ok := Operate();
    }

    /** `Reconcile`, with its loop over the directory and its loop over the wanted keys. */
    method Reconcile(keys: seq<SshKey>) returns (ok: bool)
      modifies this
      ensures Between(old(files), files, WantedOf(keys))
      ensures ok ==> files == Reconciliation(old(files), WantedOf(keys))
      ensures ok ==> forall name :: Managed(name) ==> (name in files <==> name in WantedOf(keys))
      ensures ok ==> forall name :: name in WantedOf(keys) ==>
        name in files && HoldsKey(files[name], WantedOf(keys)[name].publicKey)
      ensures ok ==> forall name :: !Managed(name) && name !in WantedOf(keys) ==>
        (name in files <==> name in old(files)) && (name in files ==> files[name] == old(files)[name])
      ensures reliable && (forall k :: k in keys ==> k.id > 0 && k.user > 0) ==> ok
    {
      var wanted: map<string, SshKey> := map[];
      var i := 0;
      while i < |keys|
        invariant 0 <= i <= |keys|
        invariant wanted == WantedOf(keys[..i])
        invariant files == old(files)
      {
        wanted := wanted[Filename(keys[i].user, keys[i].id) := keys[i]];
        assert keys[..i + 1][..i] == keys[..i];
        i := i + 1;
      }
      assert keys[..i] == keys;
      StageStart(files, wanted);
      StageIsBetween(files, wanted, {}, {});
      var readable := Operate();
      if !readable {
        return false;
      }
      WantedNamesMatch(keys);
      WantedAreListed(keys);
      var swept := Sweep(wanted);
      if !swept {
        return false;
      }
      var written := WriteAll(wanted, old(files));
      if !written {
        return false;
      }
      ok := Operate();
      ReconciledExactly(old(files), wanted);
    }

    /** The loop over the directory. */
    method Sweep(wanted: map<string, SshKey>) returns (ok: bool)
      modifies this
      ensures Between(old(files), files, wanted)
      ensures ok ==> files == Stage(old(files), wanted, Unwanted(old(files), wanted), {})
      ensures reliable ==> ok
    {
      ghost var gone := {};
      StageStart(files, wanted);
      StageIsBetween(files, wanted, {}, {});
      var entries := files.Keys;
      while entries != {}
        invariant entries <= old(files).Keys
        invariant gone <= Unwanted(old(files), wanted) <= gone + entries
        invariant files == Stage(old(files), wanted, gone, {})
        decreases |entries|
      {
        StageIsBetween(old(files), wanted, gone, {});
        var name :| name in entries;
        entries := entries - {name};
        if !Managed(name) || name in wanted {
          continue;
        }
        var removed := Operate();
        if !removed {
          return false;
        }
        StageRemoves(old(files), wanted, gone, name);
        files := files - {name};
        gone := gone + {name};
      }
      assert gone == Unwanted(old(files), wanted);
      StageIsBetween(old(files), wanted, gone, {});
      return true;
    }

    /** The loop over the wanted keys. */
    method WriteAll(wanted: map<string, SshKey>, ghost before: map<string, string>) returns (ok: bool)
      requires NamesMatch(wanted) && files == Stage(before, wanted, Unwanted(before, wanted), {})
      modifies this
      ensures Between(before, files, wanted)
      ensures ok ==> files == Reconciliation(before, wanted)
      ensures reliable && (forall name :: name in wanted ==> wanted[name].id > 0 && wanted[name].user > 0) ==> ok
    {
      ghost var gone, written := Unwanted(before, wanted), {};
      var left := wanted.Keys;
      while left != {}
        invariant written <= wanted.Keys <= written + left && left <= wanted.Keys
        invariant files == Stage(before, wanted, gone, written)
        decreases |left|
      {
        StageIsBetween(before, wanted, gone, written);
        var name :| name in left;
        left := left - {name};
        StageWrites(before, wanted, gone, written, name);
        StageIsBetween(before, wanted, gone, written + {name});
        var done := Write(wanted[name]);
        if !done {
          return false;
        }
        written := written + {name};
      }
      assert written == wanted.Keys;
      StageIsBetween(before, wanted, gone, written);
      return true;
    }
  }
}
