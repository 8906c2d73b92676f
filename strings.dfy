/**
 * The handful of Python string operations the application relies on:
 * `lower`, `capitalize`, `title`, `replace`, `join`, `str(int)`, `int(str)`
 * and `split(sep)[k]`, on ASCII text.
 */
module Strings {
  import opened Wrappers

  predicate IsUpper(c: char) { 'A' <= c <= 'Z' }

  predicate IsLowerCase(c: char) { 'a' <= c <= 'z' }

  predicate IsLetter(c: char) { IsUpper(c) || IsLowerCase(c) }

  function LowerChar(c: char): char
  {
    if IsUpper(c) then (c as int + 32) as char else c
  }

  function UpperChar(c: char): char
  {
    if IsLowerCase(c) then (c as int - 32) as char else c
  }

  /** `s.lower()`. */
  function Lower(s: string): (r: string)
    ensures |r| == |s|
  {
    seq(|s|, i requires 0 <= i < |s| => LowerChar(s[i]))
  }

  /** No ASCII upper-case letter in `s`. */
  predicate NoUpper(s: string)
  {
    forall i :: 0 <= i < |s| ==> !IsUpper(s[i])
  }

  /** `a` and `b` are the same text up to the case of ASCII letters. */
  predicate EqualIgnoringCase(a: string, b: string)
  {
    |a| == |b| && forall i :: 0 <= i < |a| ==> LowerChar(a[i]) == LowerChar(b[i])
  }

  /**
   * Lower-casing leaves no upper-case letter, and the lower-cased text
   * equals a lower-case word exactly when the original spells that word in
   * any mix of cases.
   */
  lemma LowerMatchesIgnoringCase(s: string, word: string)
    requires NoUpper(word)
    ensures NoUpper(Lower(s))
    ensures Lower(s) == word <==> EqualIgnoringCase(s, word)
  {
    assert forall i :: 0 <= i < |word| ==> LowerChar(word[i]) == word[i];
    if EqualIgnoringCase(s, word) {
      assert forall i :: 0 <= i < |s| ==> Lower(s)[i] == word[i];
    }
  }

  /** `s.capitalize()`: the first character upper-cased, the rest lower-cased. */
  function Capitalize(s: string): string
  {
    if s == [] then [] else [UpperChar(s[0])] + Lower(s[1..])
  }

  /** `s.replace(from, to)` for single characters. */
  function ReplaceChar(s: string, from: char, to: char): (r: string)
    ensures |r| == |s|
  {
    seq(|s|, i requires 0 <= i < |s| => if s[i] == from then to else s[i])
  }

  /**
   * `s.title()`: a letter that follows a letter is lower-cased, any other
   * letter is upper-cased. `inWord` says whether the previous character was
   * a letter.
   */
  function TitleFrom(s: string, inWord: bool): string
  {
    if s == [] then []
    else
      var c := s[0];
      [if inWord then LowerChar(c) else UpperChar(c)] + TitleFrom(s[1..], IsLetter(c))
  }

  function Title(s: string): string
  {
    TitleFrom(s, false)
  }

  /** `sep.join(parts)`. */
  function Join(parts: seq<string>, sep: string): string
  {
    if |parts| == 0 then ""
    else if |parts| == 1 then parts[0]
    else parts[0] + sep + Join(parts[1..], sep)
  }

  /** Joining one more part adds the separator and that part at the end. */
  lemma {:induction false} JoinSnoc(parts: seq<string>, p: string, sep: string)
    requires |parts| > 0
    ensures Join(parts + [p], sep) == Join(parts, sep) + sep + p
  {
    if |parts| == 1 {
      assert parts + [p] == [parts[0], p];
      assert [parts[0], p][1..] == [p];
    } else {
      assert (parts + [p])[1..] == parts[1..] + [p];
      JoinSnoc(parts[1..], p, sep);
      calc {
        Join(parts + [p], sep);
        parts[0] + sep + Join(parts[1..] + [p], sep);
        parts[0] + sep + (Join(parts[1..], sep) + sep + p);
        parts[0] + sep + Join(parts[1..], sep) + sep + p;
        Join(parts, sep) + sep + p;
      }
    }
  }

  function TotalLength(parts: seq<string>): nat
  {
    if parts == [] then 0 else |parts[0]| + TotalLength(parts[1..])
  }

  /** Joining k parts inserts exactly k - 1 separators and nothing else. */
  lemma {:induction false} JoinLength(parts: seq<string>, sep: string)
    requires |parts| > 0
    ensures |Join(parts, sep)| == TotalLength(parts) + (|parts| - 1) * |sep|
  {
    if |parts| > 1 {
      JoinLength(parts[1..], sep);
    }
  }

  // ---------------------------------------------------------------------
  // Decimal integers: `str(i)` and `int(s)`

  predicate IsDigit(c: char) { '0' <= c <= '9' }

  predicate AllDigits(s: string)
  {
    forall i :: 0 <= i < |s| ==> IsDigit(s[i])
  }

  function DigitChar(d: nat): (c: char)
    requires d < 10
    ensures IsDigit(c)
  {
    ('0' as int + d) as char
  }

  /** `str(n)` for a non-negative integer: non-empty, digits only. */
  function NatToString(n: nat): (s: string)
    ensures |s| > 0 && AllDigits(s)
  {
    if n < 10 then [DigitChar(n)] else NatToString(n / 10) + [DigitChar(n % 10)]
  }

  /** `str(i)`: a minus sign for negative numbers, then the digits. */
  function IntToString(i: int): string
  {
    if i < 0 then "-" + NatToString(-i) else NatToString(i)
  }

  /** The value of a string of decimal digits. */
  function DigitsValue(s: string): nat
    requires AllDigits(s)
  {
    if s == [] then 0 else DigitsValue(s[..|s| - 1]) * 10 + (s[|s| - 1] as int - '0' as int)
  }

  /**
   * `int(s)` on an optional sign followed by at least one decimal digit;
   * None where Python raises ValueError.
   */
  function ParseInt(s: string): Option<int>
  {
    if |s| > 1 && (s[0] == '-' || s[0] == '+') && AllDigits(s[1..]) then
      var magnitude: int := DigitsValue(s[1..]);
      Some(if s[0] == '-' then -magnitude else magnitude)
    else if |s| > 0 && AllDigits(s) then
      Some(DigitsValue(s))
    else
      None
  }

  lemma {:induction false} NatToStringRoundTrip(n: nat)
    ensures DigitsValue(NatToString(n)) == n
  {
    if n >= 10 {
      NatToStringRoundTrip(n / 10);
      var s := NatToString(n);
      assert s[..|s| - 1] == NatToString(n / 10);
    }
  }

  /** `int(str(i)) == i` for every integer. */
  lemma IntToStringRoundTrip(i: int)
    ensures ParseInt(IntToString(i)) == Some(i)
  {
    if i < 0 {
      NatToStringRoundTrip(-i);
      assert IntToString(i)[1..] == NatToString(-i);
    } else {
      NatToStringRoundTrip(i);
    }
  }

  /** Every character of `str(i)` is a digit or the minus sign. */
  lemma IntToStringChars(i: int)
    ensures forall k :: 0 <= k < |IntToString(i)| ==> IsDigit(IntToString(i)[k]) || IntToString(i)[k] == '-'
  {
  }

  // ---------------------------------------------------------------------
  // Searching and splitting

  /** The position of the first occurrence of `pat` in `s`. */
  function IndexOf(s: string, pat: string): (r: Option<nat>)
    ensures r.Some? ==> r.value + |pat| <= |s|
    decreases |s|
  {
    if |s| < |pat| then None
    else if s[..|pat|] == pat then Some(0)
    else
      match IndexOf(s[1..], pat)
      case None => None
      case Some(i) => Some(i + 1)
  }

  function Shift(r: Option<nat>, offset: nat): Option<nat>
  {
    match r
    case None => None
    case Some(i) => Some(i + offset)
  }

  /** `s.split(sep)[0]`: everything before the first separator. */
  function TakeUntil(s: string, sep: string): string
  {
    match IndexOf(s, sep)
    case None => s
    case Some(i) => s[..i]
  }

  /** `s.split(sep)[1]`: the text between the first and the second separator; None where Python raises IndexError. */
  function SecondPiece(s: string, sep: string): Option<string>
  {
    match IndexOf(s, sep)
    case None => None
    case Some(i) => Some(TakeUntil(s[i + |sep|..], sep))
  }

  /** A text that cannot hold the start of `pat` moves every match of `pat` by its length. */
  lemma {:induction false} IndexOfSkips(u: string, w: string, pat: string)
    requires |pat| > 0
    requires forall k :: 0 <= k < |u| ==> u[k] != pat[0]
    ensures IndexOf(u + w, pat) == Shift(IndexOf(w, pat), |u|)
    decreases |u|
  {
    if u == [] {
      assert u + w == w;
    } else {
      var s := u + w;
      if |s| >= |pat| {
        assert s[..|pat|][0] == u[0];
        assert s[1..] == u[1..] + w;
        IndexOfSkips(u[1..], w, pat);
      }
    }
  }

  lemma IndexOfAtStart(pat: string, q: string)
    ensures IndexOf(pat + q, pat) == Some(0)
  {
    assert (pat + q)[..|pat|] == pat;
  }

  /** `(u + w).split(sep)[0]` keeps all of a `u` that holds no character starting `sep`. */
  lemma TakeUntilSkips(u: string, w: string, sep: string)
    requires |sep| > 0
    requires forall k :: 0 <= k < |u| ==> u[k] != sep[0]
    ensures TakeUntil(u + w, sep) == u + TakeUntil(w, sep)
  {
    IndexOfSkips(u, w, sep);
    match IndexOf(w, sep)
    case None =>
    case Some(i) =>
      assert (u + w)[..|u| + i] == u + w[..i];
  }

  /** What `split(sep)[0]` returns is a prefix of the text. */
  lemma TakeUntilIsPrefix(s: string, sep: string)
    ensures |TakeUntil(s, sep)| <= |s| && TakeUntil(s, sep) == s[..|TakeUntil(s, sep)|]
  {
  }
}
