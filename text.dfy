/**
 * The few Python string operations the library relies on: `str.title()`,
 * `str.lower()`, `str.strip()`, the whitespace class shared by `str.strip()`
 * and the regular-expression class `\s`, and the substring test `sub in s`.
 * Letters are the ASCII letters; see the README for what that leaves out.
 */
module Text {

  predicate IsUpper(c: char) { 'A' <= c <= 'Z' }
  predicate IsLower(c: char) { 'a' <= c <= 'z' }
  predicate IsLetter(c: char) { IsUpper(c) || IsLower(c) }

  function ToLower(c: char): (r: char)
    ensures IsLetter(c) ==> IsLower(r)
    ensures !IsUpper(c) ==> r == c
  {
    if IsUpper(c) then (c as int + 32) as char else c
  }

  function ToUpper(c: char): (r: char)
    ensures IsLetter(c) ==> IsUpper(r)
    ensures !IsLower(c) ==> r == c
  {
    if IsLower(c) then (c as int - 32) as char else c
  }

  /** `str.lower()` on ASCII text. */
  function Lower(s: string): (r: string)
    ensures |r| == |s|
    ensures forall i :: 0 <= i < |s| ==> r[i] == ToLower(s[i])
  {
    seq(|s|, i requires 0 <= i < |s| => ToLower(s[i]))
  }

  /**
   * Python's whitespace: the characters for which `str.isspace()` holds,
   * which are also those `str.strip()` removes and `\s` matches.
   */
  predicate IsSpace(c: char) {
    || '\U{9}' <= c <= '\U{D}'
    || '\U{1C}' <= c <= ' '
    || c == '\U{85}' || c == '\U{A0}' || c == '\U{1680}'
    || '\U{2000}' <= c <= '\U{200A}'
    || c == '\U{2028}' || c == '\U{2029}' || c == '\U{202F}' || c == '\U{205F}' || c == '\U{3000}'
  }

  /** `str.title()`, scanning with whether the previous character was a letter. */
  function TitleAfter(s: string, prevLetter: bool): string {
    if s == [] then []
    else
      var c := if IsLetter(s[0]) then (if prevLetter then ToLower(s[0]) else ToUpper(s[0])) else s[0];
      [c] + TitleAfter(s[1..], IsLetter(s[0]))
  }

  function Title(s: string): string {
    TitleAfter(s, false)
  }

  /**
   * The title-casing rule position by position: a letter becomes upper case
   * when it starts a run of letters and lower case inside one; every other
   * character is kept.
   */
  function TitleChar(s: string, i: nat): char
    requires i < |s|
  {
    if !IsLetter(s[i]) then s[i]
    else if i > 0 && IsLetter(s[i - 1]) then ToLower(s[i])
    else ToUpper(s[i])
  }

  lemma {:induction false} TitleAfterAt(s: string, prevLetter: bool, i: nat)
    requires i < |s|
    ensures |TitleAfter(s, prevLetter)| == |s|
    ensures TitleAfter(s, prevLetter)[i] ==
      if !IsLetter(s[i]) then s[i]
      else if (if i == 0 then prevLetter else IsLetter(s[i - 1])) then ToLower(s[i])
      else ToUpper(s[i])
  {
    if i == 0 {
      TitleAfterLength(s[1..], IsLetter(s[0]));
    } else {
      TitleAfterAt(s[1..], IsLetter(s[0]), i - 1);
    }
  }

  lemma {:induction false} TitleAfterLength(s: string, prevLetter: bool)
    ensures |TitleAfter(s, prevLetter)| == |s|
  {
    if s != [] {
      TitleAfterLength(s[1..], IsLetter(s[0]));
    }
  }

  /** `s.title()` agrees with the position-by-position rule and keeps the length. */
  lemma TitleIsPointwise(s: string)
    ensures |Title(s)| == |s|
    ensures forall i :: 0 <= i < |s| ==> Title(s)[i] == TitleChar(s, i)
  {
    TitleAfterLength(s, false);
    forall i | 0 <= i < |s| ensures Title(s)[i] == TitleChar(s, i) {
      TitleAfterAt(s, false, i);
    }
  }

  /** Title-casing an already title-cased string changes nothing. */
  lemma TitleIdempotent(s: string)
    ensures Title(Title(s)) == Title(s)
  {
    var t := Title(s);
    TitleIsPointwise(s);
    TitleIsPointwise(t);
    forall i | 0 <= i < |t| ensures Title(t)[i] == t[i] {
      assert IsLetter(t[i]) == IsLetter(s[i]);
      if i > 0 {
        assert IsLetter(t[i - 1]) == IsLetter(s[i - 1]);
      }
    }
  }

  /** Removes leading whitespace. */
  function StripStart(s: string): (r: string)
    ensures |r| <= |s| && r == s[|s| - |r|..]
    ensures forall i :: 0 <= i < |s| - |r| ==> IsSpace(s[i])
    ensures r != [] ==> !IsSpace(r[0])
  {
    if s != [] && IsSpace(s[0]) then StripStart(s[1..]) else s
  }

  /** Removes trailing whitespace. */
  function StripEnd(s: string): (r: string)
    ensures |r| <= |s| && r == s[..|r|]
    ensures forall i :: |r| <= i < |s| ==> IsSpace(s[i])
    ensures r != [] ==> !IsSpace(r[|r| - 1])
  {
    if s != [] && IsSpace(s[|s| - 1]) then StripEnd(s[..|s| - 1]) else s
  }

  /**
   * `str.strip()`: the longest middle part of `s` that neither starts nor
   * ends with whitespace; everything cut off on either side is whitespace.
   */
  function Strip(s: string): (r: string)
    ensures exists i, j ::
              && 0 <= i <= j <= |s| && r == s[i..j]
              && (forall k :: 0 <= k < i ==> IsSpace(s[k]))
              && (forall k :: j <= k < |s| ==> IsSpace(s[k]))
    ensures r != [] ==> !IsSpace(r[0]) && !IsSpace(r[|r| - 1])
  {
    var a := StripStart(s);
    var b := StripEnd(a);
    var i := |s| - |a|;
    assert b == s[i..i + |b|];
    b
  }

  /** Python's `sub in s` for strings. */
  predicate Contains(s: string, sub: string) {
    sub <= s || (s != [] && Contains(s[1..], sub))
  }
}
