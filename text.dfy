/**
 * The string operations the parsers take from Python: `str.replace` of one
 * character by another, `str` of an integer, and the `re.sub(r'[\W_]+', '', name)`
 * that cleans a chat name before the script prints it.
 */
module Text {

  /** `s` with every occurrence of `a` replaced by `b` (Python's `s.replace(a, b)` for one-character strings). */
  function Subst(s: string, a: char, b: char): (r: string)
    ensures |r| == |s|
    ensures forall i :: 0 <= i < |s| ==> r[i] == (if s[i] == a then b else s[i])
  {
    if s == [] then [] else [if s[0] == a then b else s[0]] + Subst(s[1..], a, b)
  }

  /** After the replacement no `a` is left. */
  lemma SubstRemoves(s: string, a: char, b: char)
    requires a != b
    ensures a !in Subst(s, a, b)
  {
    var r := Subst(s, a, b);
    forall i | 0 <= i < |r|
      ensures r[i] != a
    {
    }
  }

  /** Replacing in a string that has no `a` changes nothing. */
  lemma SubstAbsent(s: string, a: char, b: char)
    requires a !in s
    ensures Subst(s, a, b) == s
  {
    var r := Subst(s, a, b);
    assert forall i :: 0 <= i < |s| ==> r[i] == s[i];
  }

  /** Replacing twice is replacing once. */
  lemma SubstIdempotent(s: string, a: char, b: char)
    requires a != b
    ensures Subst(Subst(s, a, b), a, b) == Subst(s, a, b)
  {
    SubstRemoves(s, a, b);
    SubstAbsent(Subst(s, a, b), a, b);
  }

  predicate IsDigit(c: char)
  {
    '0' <= c <= '9'
  }

  function DigitChar(d: nat): (c: char)
    requires d < 10
    ensures IsDigit(c) && DigitValue(c) == d
  {
    (('0' as int) + d) as char
  }

  function DigitValue(c: char): nat
    requires IsDigit(c)
  {
    (c as int) - ('0' as int)
  }

  /** The decimal digits of `n`, with no leading zero (Python's `str(n)` for n >= 0). */
  function NatToString(n: nat): (r: string)
    ensures |r| >= 1
    ensures forall i :: 0 <= i < |r| ==> IsDigit(r[i])
    ensures |r| == 1 <==> n < 10
    ensures n >= 10 ==> r[0] != '0'
  {
    if n < 10 then [DigitChar(n)] else NatToString(n / 10) + [DigitChar(n % 10)]
  }

  /** The number a string of decimal digits denotes; the reference the rendering is checked against. */
  function DigitsValue(s: string): nat
    requires forall i :: 0 <= i < |s| ==> IsDigit(s[i])
  {
    if s == [] then 0 else DigitsValue(s[..|s| - 1]) * 10 + DigitValue(s[|s| - 1])
  }

  /** Reading the decimal rendering back gives the number. */
  lemma {:induction false} DecimalRoundTrip(n: nat)
    ensures DigitsValue(NatToString(n)) == n
  {
    if n >= 10 {
      var s := NatToString(n);
      assert s[..|s| - 1] == NatToString(n / 10);
      DecimalRoundTrip(n / 10);
    }
  }

  /** Different numbers render differently. */
  lemma NatToStringInjective(a: nat, b: nat)
    requires NatToString(a) == NatToString(b)
    ensures a == b
  {
    DecimalRoundTrip(a);
    DecimalRoundTrip(b);
  }

  /** Python's `str(n)`: a minus sign, then the digits of the magnitude. */
  function IntToString(n: int): (r: string)
    ensures |r| >= 1
    ensures r[0] == '-' <==> n < 0
    ensures '\n' !in r
  {
    if n < 0 then "-" + NatToString(-n) else NatToString(n)
  }

  /**
   * A character `re.sub(r'[\W_]+', '', ...)` keeps: a word character other than the
   * underscore. Word characters are taken to be the ASCII letters and digits.
   */
  predicate IsNameChar(c: char)
  {
    IsDigit(c) || 'A' <= c <= 'Z' || 'a' <= c <= 'z'
  }

  /** `s` without its non-word characters and underscores, the kept ones in order. */
  function StripNonWord(s: string): (r: string)
    ensures |r| <= |s|
    ensures forall c :: c in r <==> c in s && IsNameChar(c)
  {
    if s == [] then []
    else (if IsNameChar(s[0]) then [s[0]] else []) + StripNonWord(s[1..])
  }

  /** A string made only of name characters is left as it is. */
  lemma {:induction false} StripKeepsNames(s: string)
    requires forall c :: c in s ==> IsNameChar(c)
    ensures StripNonWord(s) == s
  {
    if s != [] {
      assert s[0] in s;
      assert forall c :: c in s[1..] ==> c in s;
      StripKeepsNames(s[1..]);
    }
  }

  /** Stripping twice is stripping once. */
  lemma StripIdempotent(s: string)
    ensures StripNonWord(StripNonWord(s)) == StripNonWord(s)
  {
    StripKeepsNames(StripNonWord(s));
  }

  /** Stripping works character by character: it distributes over concatenation. */
  lemma {:induction false} StripConcat(s: string, t: string)
    ensures StripNonWord(s + t) == StripNonWord(s) + StripNonWord(t)
  {
    if s != [] {
      assert (s + t)[1..] == s[1..] + t;
      StripConcat(s[1..], t);
    } else {
      assert s + t == t;
    }
  }
}
