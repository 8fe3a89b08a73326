/** Serial-number clean-up: every serial is trimmed and upper-cased before it is
    compared, blanks are dropped, and a repeated number is refused. */
module SerialNumbers {
  import opened Basics

  predicate IsSpace(c: char) {
    c == ' ' || '\t' <= c <= '\r'
  }

  function StripLeft(s: string): (r: string)
    ensures r == [] || !IsSpace(r[0])
    ensures |r| <= |s|
  {
    if s == [] || !IsSpace(s[0]) then s else StripLeft(s[1..])
  }

  function StripRight(s: string): (r: string)
    ensures r == [] || !IsSpace(r[|r| - 1])
    ensures r <= s
  {
    if s == [] || !IsSpace(s[|s| - 1]) then s else StripRight(s[..|s| - 1])
  }

  function Strip(s: string): (r: string)
    ensures r == [] || (!IsSpace(r[0]) && !IsSpace(r[|r| - 1]))
  {
    StripRight(StripLeft(s))
  }

  function UpperChar(c: char): (r: char)
    ensures !('a' <= r <= 'z')
    ensures IsSpace(r) <==> IsSpace(c)
  {
    if 'a' <= c <= 'z' then c - 'a' + 'A' else c
  }

  function Upper(s: string): (r: string)
    ensures |r| == |s|
    ensures forall i :: 0 <= i < |s| ==> r[i] == UpperChar(s[i])
  {
    if s == [] then [] else [UpperChar(s[0])] + Upper(s[1..])
  }

  /** A serial that clean-up leaves alone. */
  predicate IsClean(s: string) {
    s != [] && !IsSpace(s[0]) && !IsSpace(s[|s| - 1]) && forall i :: 0 <= i < |s| ==> UpperChar(s[i]) == s[i]
  }

  function CleanAll(values: seq<string>): (r: seq<string>)
    ensures |r| <= |values|
    ensures forall n :: n in r ==> IsClean(n)
  {
    if values == [] then []
    else
      var head := Strip(values[0]);
      if head == [] then CleanAll(values[1..]) else [Upper(head)] + CleanAll(values[1..])
  }

  predicate Distinct<T(==)>(s: seq<T>) {
    forall i, j :: 0 <= i < j < |s| ==> s[i] != s[j]
  }

  /** `normalize_serials`. */
  function NormalizeSerials(values: seq<string>): (r: Result<seq<string>>)
    ensures r.Success? ==> Distinct(r.value) && forall n :: n in r.value ==> IsClean(n)
    ensures r.Failure? ==> r.error == BadRequest
  {
    var numbers := CleanAll(values);
    if Distinct(numbers) then Success(numbers) else Failure(BadRequest)
  }

  predicate AllSpaces(s: string) {
    forall i :: 0 <= i < |s| ==> IsSpace(s[i])
  }

  predicate NoSpaceAtEnds(s: string) {
    s != [] && !IsSpace(s[0]) && !IsSpace(s[|s| - 1])
  }

  lemma {:induction false} StripsLeft(a: string, s: string)
    requires AllSpaces(a) && (s == [] || !IsSpace(s[0]))
    ensures StripLeft(a + s) == s
  {
    if a == [] {
      assert a + s == s;
    } else {
      assert (a + s)[1..] == a[1..] + s;
      StripsLeft(a[1..], s);
    }
  }

  lemma {:induction false} StripsRight(s: string, b: string)
    requires AllSpaces(b) && s != [] && !IsSpace(s[|s| - 1])
    ensures StripRight(s + b) == s
  {
    if b == [] {
      assert s + b == s;
    } else {
      assert (s + b)[..|s + b| - 1] == s + b[..|b| - 1];
      StripsRight(s, b[..|b| - 1]);
    }
  }

  /** The same number spelled two ways: spaces around it, and letters in either case. */
  predicate Alike(s: string, t: string) {
    |s| == |t| && forall i :: 0 <= i < |s| ==> SameLetter(s[i], t[i])
  }

  predicate SameLetter(c: char, d: char) {
    c == d || SmallOf(c) == Some(d) || SmallOf(d) == Some(c)
  }

  lemma SameLetterUpper(c: char, d: char)
    requires SameLetter(c, d)
    ensures UpperChar(c) == UpperChar(d) && (IsSpace(c) <==> IsSpace(d))
  {
  }

  /** The small letter of a capital. */
  function SmallOf(c: char): Option<char> {
    if 'A' <= c <= 'Z' then Some((c as int + 32) as char) else None
  }

  lemma AlikeUppers(s: string, t: string)
    requires Alike(s, t)
    ensures Upper(s) == Upper(t)
  {
    forall i | 0 <= i < |s| ensures Upper(s)[i] == Upper(t)[i] {
      SameLetterUpper(s[i], t[i]);
    }
  }

  lemma OneCleaned(a: string, s: string, b: string)
    requires AllSpaces(a) && AllSpaces(b) && NoSpaceAtEnds(s)
    ensures CleanAll([a + s + b]) == [Upper(s)]
  {
    var rest := s + b;
    assert a + s + b == a + rest;
    StripsLeft(a, rest);
    StripsRight(s, b);
    assert [a + s + b][1..] == [];
  }

  /** However a number is spelled it is stored in capitals without the spaces; so one
      spelled two ways is one number, and given twice it is refused. */
  lemma SpellingsAreOne(a: string, s: string, b: string, c: string, t: string, d: string)
    requires AllSpaces(a) && AllSpaces(b) && AllSpaces(c) && AllSpaces(d) && NoSpaceAtEnds(s) && Alike(s, t)
    ensures NormalizeSerials([a + s + b]) == NormalizeSerials([c + t + d]) == Success([Upper(s)])
    ensures NormalizeSerials([a + s + b, c + t + d]) == Failure(BadRequest)
  {
    AlikeUppers(s, t);
    SameLetterUpper(s[0], t[0]);
    SameLetterUpper(s[|s| - 1], t[|s| - 1]);
    OneCleaned(a, s, b);
    OneCleaned(c, t, d);
    TwoCleaned(a + s + b, c + t + d);
    var twice := [Upper(s)] + [Upper(s)];
    assert CleanAll([a + s + b, c + t + d]) == twice && twice[0] == twice[1];
  }

  lemma TwoCleaned(x: string, y: string)
    ensures CleanAll([x, y]) == CleanAll([x]) + CleanAll([y])
  {
    assert [x, y][1..] == [y] && [x][1..] == [] && CleanAll([]) == [];
  }

  lemma CleanIsFixed(s: string)
    requires IsClean(s)
    ensures Strip(s) == s && Upper(s) == s
  {
    assert Upper(s) == s;
  }

  lemma {:induction false} CleanAllFixed(values: seq<string>)
    requires forall n :: n in values ==> IsClean(n)
    ensures CleanAll(values) == values
  {
    if values == [] {
    } else {
      CleanIsFixed(values[0]);
      CleanAllFixed(values[1..]);
    }
  }

  /** Cleaning twice is cleaning once, so serials stored on a document line are
      still the same serials, and as many, when its stock is posted. */
  lemma NormalizeIdempotent(values: seq<string>)
    ensures NormalizeSerials(values).Success? ==>
              NormalizeSerials(NormalizeSerials(values).value) == NormalizeSerials(values)
  {
    var r := NormalizeSerials(values);
    if r.Success? {
      CleanAllFixed(r.value);
    }
  }
}
