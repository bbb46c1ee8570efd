/** The string primitives the value objects use, restricted to ASCII:
    `\d` and `char.IsDigit` are '0'..'9', `char.IsWhiteSpace` is the six ASCII
    white-space characters, `ToUpper`/`ToLower` map only 'a'..'z' and 'A'..'Z'. */
module Text {

  import opened Common

  predicate IsDigit(c: char) { '0' <= c <= '9' }

  predicate AllDigits(s: string) { forall i :: 0 <= i < |s| ==> IsDigit(s[i]) }

  /** `s.All(c => c == s[0])`. */
  predicate AllSame(s: string)
  {
    forall i :: 0 <= i < |s| ==> s[i] == s[0]
  }

  function DigitValue(c: char): (d: int)
    requires IsDigit(c)
    ensures 0 <= d <= 9
  {
    c as int - '0' as int
  }

  predicate IsLetter(c: char) { 'a' <= c <= 'z' || 'A' <= c <= 'Z' }

  predicate IsUpperLetter(c: char) { 'A' <= c <= 'Z' }

  predicate IsWhiteSpace(c: char)
  {
    c == ' ' || c == '\t' || c == '\n' || c == '\U{000B}' || c == '\U{000C}' || c == '\r'
  }

  /** `string.IsNullOrWhiteSpace` of a non-null string. */
  predicate IsBlank(s: string) { forall i :: 0 <= i < |s| ==> IsWhiteSpace(s[i]) }

  /** `Regex.Replace(s, @"[^\d]", string.Empty)`: the digits of `s`, in order. */
  function OnlyDigits(s: string): (r: string)
    ensures AllDigits(r) && |r| <= |s|
  {
    if s == [] then []
    else (if IsDigit(s[0]) then [s[0]] else []) + OnlyDigits(s[1..])
  }

  lemma {:induction false} OnlyDigitsOfDigits(s: string)
    requires AllDigits(s)
    ensures OnlyDigits(s) == s
  {
    if s != [] {
      OnlyDigitsOfDigits(s[1..]);
    }
  }

  lemma {:induction false} OnlyDigitsAppend(a: string, b: string)
    ensures OnlyDigits(a + b) == OnlyDigits(a) + OnlyDigits(b)
  {
    if a == [] {
      assert a + b == b;
    } else {
      var h := if IsDigit(a[0]) then [a[0]] else [];
      assert (a + b)[0] == a[0];
      assert (a + b)[1..] == a[1..] + b;
      OnlyDigitsAppend(a[1..], b);
      assert OnlyDigits(a + b) == h + OnlyDigits(a[1..] + b);
      assert OnlyDigits(a) == h + OnlyDigits(a[1..]);
      assert h + (OnlyDigits(a[1..]) + OnlyDigits(b)) == (h + OnlyDigits(a[1..])) + OnlyDigits(b);
    }
  }

  /** A text without digits cleans to nothing. */
  lemma {:induction false} OnlyDigitsOfLabel(s: string)
    requires forall i :: 0 <= i < |s| ==> !IsDigit(s[i])
    ensures OnlyDigits(s) == []
  {
    if s != [] {
      OnlyDigitsOfLabel(s[1..]);
    }
  }

  /** A separator between two pieces of a mask is dropped by `OnlyDigits`. */
  lemma OnlyDigitsSeparated(x: string, c: char, b: string)
    requires !IsDigit(c) && AllDigits(b)
    ensures OnlyDigits(x + [c] + b) == OnlyDigits(x) + b
  {
    var sep: string := [c];
    assert sep[1..] == [];
    assert OnlyDigits(sep) == [];
    OnlyDigitsAppend(x, sep);
    assert OnlyDigits(x + sep) == OnlyDigits(x);
    OnlyDigitsAppend(x + sep, b);
    OnlyDigitsOfDigits(b);
  }

  /** `n` digits and a final line feed: what a .NET pattern `^(\d…){n}$`
      also matches, since `$` matches before a string's last '\n'. */
  predicate DigitsThenLineFeed(s: string, n: nat)
  {
    |s| == n + 1 && AllDigits(s[..n]) && s[n] == '\n'
  }

  /** A line feed after a mask adds no digit. */
  lemma OnlyDigitsLineFeed(x: string)
    ensures OnlyDigits(x + "\n") == OnlyDigits(x)
  {
    var lf := "\n";
    assert lf[1..] == [];
    OnlyDigitsAppend(x, lf);
  }

  /** Removing non-digits twice is removing them once. */
  lemma OnlyDigitsIdempotent(s: string)
    ensures OnlyDigits(OnlyDigits(s)) == OnlyDigits(s)
  {
    OnlyDigitsOfDigits(OnlyDigits(s));
  }

  /** `TrimStart()`: `s` without its leading white space. */
  function TrimStart(s: string): (r: string)
    ensures |r| <= |s| && r == s[|s| - |r|..] && IsBlank(s[..|s| - |r|])
    ensures r != [] ==> !IsWhiteSpace(r[0])
  {
    if s != [] && IsWhiteSpace(s[0]) then
      var r := TrimStart(s[1..]);
      TrimStartStep(s, r);
      r
    else
      assert s[..0] == [];
      s
  }

  /** Dropping one more leading white space character keeps `TrimStart`'s contract. */
  lemma TrimStartStep(s: string, r: string)
    requires s != [] && IsWhiteSpace(s[0]) && |r| <= |s| - 1
    requires r == s[1..][|s| - 1 - |r|..] && IsBlank(s[1..][..|s| - 1 - |r|])
    ensures r == s[|s| - |r|..] && IsBlank(s[..|s| - |r|])
  {
    var p, q := s[..|s| - |r|], s[1..][..|s| - 1 - |r|];
    forall i | 0 <= i < |p|
      ensures IsWhiteSpace(p[i])
    {
      if i > 0 {
        assert p[i] == q[i - 1];
      }
    }
  }

  /** `TrimEnd()`: `s` without its trailing white space. */
  function TrimEnd(s: string): (r: string)
    ensures |r| <= |s| && r == s[..|r|] && IsBlank(s[|r|..])
    ensures r != [] ==> !IsWhiteSpace(r[|r| - 1])
  {
    if s != [] && IsWhiteSpace(s[|s| - 1]) then
      var r := TrimEnd(s[..|s| - 1]);
      assert s[..|r|] == s[..|s| - 1][..|r|];
      assert forall i :: |r| <= i < |s| - 1 ==> s[i] == s[..|s| - 1][i];
      r
    else
      assert s[|s|..] == [];
      s
  }

  /** `Trim()`: empty exactly for a blank string, otherwise a string with no
      white space at either end. */
  function Trim(s: string): (r: string)
    ensures r == [] <==> IsBlank(s)
    ensures r != [] ==> !IsWhiteSpace(r[0]) && !IsWhiteSpace(r[|r| - 1])
  {
    var t := TrimStart(s);
    assert t == [] ==> s[..|s|] == s;
    TrimEnd(t)
  }

  /** `Trim()` cuts a white-space prefix and a white-space suffix off `s`,
      and nothing else. */
  lemma TrimIsCut(s: string)
    ensures var r := Trim(s);
            exists k :: 0 <= k && k + |r| <= |s| && r == s[k..k + |r|] && IsBlank(s[..k]) && IsBlank(s[k + |r|..])
  {
    var t, r := TrimStart(s), Trim(s);
    var k := |s| - |t|;
    assert r == s[k..k + |r|] by { assert t == s[k..]; }
    assert s[k + |r|..] == t[|r|..];
  }

  /** No white space at either end. */
  predicate Trimmed(s: string)
  {
    s != [] ==> !IsWhiteSpace(s[0]) && !IsWhiteSpace(s[|s| - 1])
  }

  /** A string with no white space at either end is its own trim. */
  lemma TrimOfTrimmed(s: string)
    requires s != [] ==> !IsWhiteSpace(s[0]) && !IsWhiteSpace(s[|s| - 1])
    ensures Trim(s) == s
  {
  }

  /** Trimming a non-blank string leaves a non-blank, trimmed string. */
  lemma TrimOfNonBlank(s: string)
    requires !IsBlank(s)
    ensures !IsBlank(Trim(s)) && Trimmed(Trim(s))
  {
    var t := Trim(s);
    assert t != [] && !IsWhiteSpace(t[0]);
  }

  lemma TrimIdempotent(s: string)
    ensures Trim(Trim(s)) == Trim(s)
  {
    TrimOfTrimmed(Trim(s));
  }

  /** `s?.Trim()`. */
  function TrimOpt(s: Option<string>): (r: Option<string>)
    ensures r.Some? <==> s.Some?
    ensures r.Some? ==> r.value == Trim(s.value)
  {
    match s
    case None => None
    case Some(v) => Some(Trim(v))
  }

  /** `string.IsNullOrWhiteSpace` of a nullable string. */
  predicate IsNullOrWhiteSpace(s: Option<string>)
  {
    s.None? || IsBlank(s.value)
  }

  function UpperChar(c: char): char
  {
    if 'a' <= c <= 'z' then (c as int - 32) as char else c
  }

  function LowerChar(c: char): char
  {
    if 'A' <= c <= 'Z' then (c as int + 32) as char else c
  }

  function ToUpper(s: string): string
  {
    seq(|s|, i requires 0 <= i < |s| => UpperChar(s[i]))
  }

  function ToLower(s: string): string
  {
    seq(|s|, i requires 0 <= i < |s| => LowerChar(s[i]))
  }

  lemma ToLowerIdempotent(s: string)
    ensures ToLower(ToLower(s)) == ToLower(s)
  {
  }

  /** `ToLower` maps white space to white space and nothing else to it, so a
      trimmed string stays trimmed. */
  lemma ToLowerOfTrimmed(s: string)
    requires s != [] ==> !IsWhiteSpace(s[0]) && !IsWhiteSpace(s[|s| - 1])
    ensures Trim(ToLower(s)) == ToLower(s)
  {
    var l := ToLower(s);
    if s != [] {
      assert l[0] == LowerChar(s[0]) && l[|l| - 1] == LowerChar(s[|s| - 1]);
    }
    TrimOfTrimmed(l);
  }

  /** A string of upper-case letters is unchanged by `ToUpper()` and `Trim()`. */
  lemma UpperLettersNormal(s: string)
    requires forall i :: 0 <= i < |s| ==> IsUpperLetter(s[i])
    ensures Trim(ToUpper(s)) == s
  {
    assert ToUpper(s) == s;
    TrimOfTrimmed(s);
  }

  /** `string.Join(sep, parts)`. */
  function Join(parts: seq<string>, sep: string): string
  {
    if |parts| == 0 then ""
    else if |parts| == 1 then parts[0]
    else parts[0] + sep + Join(parts[1..], sep)
  }
}
