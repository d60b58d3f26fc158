/**
 * The parts of Kotlin's String and Int library that the garden code relies on:
 * `isBlank`, `contains(ignoreCase = true)`, `toIntOrNull()` and `Int.toString()`.
 * Case folding is modelled for ASCII letters only and digits are ASCII digits.
 */
module KotlinText {
  import opened Wrappers

  /** Kotlin's `Int`: a signed 32-bit integer. */
  type Int32 = x: int | -0x8000_0000 <= x < 0x8000_0000

  /** `Char.isWhitespace()` on the JVM: `Character.isWhitespace` or `Character.isSpaceChar`. */
  predicate IsWhitespace(c: char) {
    var n := c as int;
    || n == 0x20
    || 0x09 <= n <= 0x0D
    || 0x1C <= n <= 0x1F
    || n == 0xA0
    || n == 0x1680
    || 0x2000 <= n <= 0x200A
    || n == 0x2028
    || n == 0x2029
    || n == 0x202F
    || n == 0x205F
    || n == 0x3000
  }

  /** `String.isBlank()`: empty, or whitespace only. */
  predicate IsBlank(s: string) {
    forall i :: 0 <= i < |s| ==> IsWhitespace(s[i])
  }

  // ---------------------------------------------------------------------------
  // contains(other, ignoreCase = true)
  // ---------------------------------------------------------------------------

  function UpperAscii(c: char): char {
    if 'a' <= c <= 'z' then (c as int - 32) as char else c
  }

  function UpperAsciiString(s: string): (u: string)
    ensures |u| == |s|
    ensures forall i :: 0 <= i < |s| ==> u[i] == UpperAscii(s[i])
  {
    seq(|s|, i requires 0 <= i < |s| => UpperAscii(s[i]))
  }

  /** Two characters are equal when case is ignored. */
  predicate SameIgnoringCase(a: char, b: char) {
    UpperAscii(a) == UpperAscii(b)
  }

  /** `q` occurs in `s` at offset `i` when case is ignored. */
  predicate MatchesAt(s: string, q: string, i: nat) {
    i + |q| <= |s| && forall k :: 0 <= k < |q| ==> SameIgnoringCase(s[i + k], q[k])
  }

  /** `s.indexOf(q, from, ignoreCase = true)`: the first offset at or after `from` where `q` occurs, or -1. */
  function IndexOfIgnoreCase(s: string, q: string, from: nat): (r: int)
    ensures r == -1 || (from <= r && MatchesAt(s, q, r))
    ensures r == -1 ==> forall i: nat :: from <= i ==> !MatchesAt(s, q, i)
    ensures r != -1 ==> forall i: nat :: from <= i < r ==> !MatchesAt(s, q, i)
    decreases |s| - from
  {
    if from + |q| > |s| then -1
    else if MatchesAt(s, q, from) then from
    else IndexOfIgnoreCase(s, q, from + 1)
  }

  /** `s.contains(q, ignoreCase = true)`. */
  predicate ContainsIgnoreCase(s: string, q: string) {
    IndexOfIgnoreCase(s, q, 0) >= 0
  }

  /** Containment holds exactly when some offset matches. */
  lemma ContainsIgnoreCaseIff(s: string, q: string)
    ensures ContainsIgnoreCase(s, q) <==> exists i: nat :: MatchesAt(s, q, i)
  {
    if ContainsIgnoreCase(s, q) {
      var r := IndexOfIgnoreCase(s, q, 0);
      assert MatchesAt(s, q, r);
    }
  }

  /** The case of the query does not matter: upper-casing it gives the same answer. */
  lemma ContainsIgnoresQueryCase(s: string, q: string)
    ensures ContainsIgnoreCase(s, q) <==> ContainsIgnoreCase(s, UpperAsciiString(q))
  {
    var u := UpperAsciiString(q);
    forall i: nat
      ensures MatchesAt(s, q, i) <==> MatchesAt(s, u, i)
    {
      if i + |q| <= |s| {
        forall k | 0 <= k < |q|
          ensures SameIgnoringCase(s[i + k], q[k]) <==> SameIgnoringCase(s[i + k], u[k])
        {
          assert UpperAscii(u[k]) == UpperAscii(q[k]);
        }
      }
    }
    ContainsIgnoreCaseIff(s, q);
    ContainsIgnoreCaseIff(s, u);
  }

  // ---------------------------------------------------------------------------
  // toIntOrNull() and Int.toString()
  // ---------------------------------------------------------------------------

  predicate IsDigit(c: char) {
    '0' <= c <= '9'
  }

  predicate AllDigits(s: string) {
    forall i :: 0 <= i < |s| ==> IsDigit(s[i])
  }

  function DigitValue(c: char): nat
    requires IsDigit(c)
  {
    c as int - '0' as int
  }

  function DigitChar(d: nat): (c: char)
    requires d < 10
    ensures IsDigit(c) && DigitValue(c) == d
  {
    ('0' as int + d) as char
  }

  /** The value of a string of decimal digits, most significant first. */
  function DigitsValue(s: string): nat
    requires AllDigits(s)
    decreases |s|
  {
    if s == [] then 0 else DigitsValue(s[..|s| - 1]) * 10 + DigitValue(s[|s| - 1])
  }

  function InInt32(v: int): (r: Option<Int32>)
    ensures r.Some? <==> -0x8000_0000 <= v < 0x8000_0000
    ensures r.Some? ==> r.value == v
  {
    if -0x8000_0000 <= v < 0x8000_0000 then Some(v) else None
  }

  /** The radix-10 grammar of `toIntOrNull`: an optional '-' or '+', then at least one digit. */
  predicate IsIntText(s: string) {
    |s| > 0 && (AllDigits(s) || ((s[0] == '-' || s[0] == '+') && |s| > 1 && AllDigits(s[1..])))
  }

  /** The value, unbounded, that a string of that grammar denotes. */
  function TextValue(s: string): int
    requires IsIntText(s)
  {
    if s[0] == '-' then 0 - DigitsValue(s[1..]) as int
    else if s[0] == '+' then DigitsValue(s[1..])
    else DigitsValue(s)
  }

  /**
   * `String.toIntOrNull()` in radix 10: an optional '-' or '+' followed by at least one digit,
   * whose value fits in an Int; anything else (the empty string, a lone sign, a space, a
   * letter, an overflow) gives null.
   */
  function ParseInt(s: string): (r: Option<Int32>)
    ensures r.Some? <==> IsIntText(s) && -0x8000_0000 <= TextValue(s) < 0x8000_0000
    ensures r.Some? ==> r.value == TextValue(s)
    ensures |s| > 0 && IsWhitespace(s[0]) ==> r == None
  {
    if |s| == 0 then None
    else if s[0] == '-' || s[0] == '+' then
      if |s| == 1 || !AllDigits(s[1..]) then None
      else
        var v: int := DigitsValue(s[1..]);
        InInt32(if s[0] == '-' then -v else v)
    else if AllDigits(s) then InInt32(DigitsValue(s))
    else None
  }

  /** The decimal digits of a natural number, without leading zeros. */
  function NatToString(n: nat): (s: string)
    ensures |s| > 0 && AllDigits(s)
    decreases n
  {
    if n < 10 then [DigitChar(n)] else NatToString(n / 10) + [DigitChar(n % 10)]
  }

  /** `Int.toString()`: a '-' for negative numbers, then the decimal digits. */
  function IntToString(n: int): string {
    if n < 0 then "-" + NatToString(-n) else NatToString(n)
  }

  lemma {:induction false} NatToStringValue(n: nat)
    ensures DigitsValue(NatToString(n)) == n
  {
    var s := NatToString(n);
    if n >= 10 {
      NatToStringValue(n / 10);
      assert s[..|s| - 1] == NatToString(n / 10);
    }
  }

  /** Parsing the decimal string of an Int gives the Int back. */
  lemma ParseIntRoundTrip(n: Int32)
    ensures ParseInt(IntToString(n)) == Some(n)
  {
    var s := IntToString(n);
    var m: int := n;
    if m < 0 {
      NatToStringValue(-m);
      assert s[1..] == NatToString(-m);
    } else {
      NatToStringValue(n);
    }
  }

  /** Concrete cases of toIntOrNull's grammar that give a number. */
  lemma ParseIntAccepts()
    ensures ParseInt("7") == Some(7)
    ensures ParseInt("+7") == Some(7)
    ensures ParseInt("-3") == Some(-3)
    ensures ParseInt("007") == Some(7)
  {
    assert "7"[..0] == "";
    assert "+7"[1..] == "7";
    assert "-3"[1..] == "3" && "3"[..0] == "";
    assert "007"[..2] == "00" && "00"[..1] == "0" && "0"[..0] == "";
  }

  /** Concrete cases of toIntOrNull's grammar that give null. */
  lemma ParseIntRejects()
    ensures ParseInt("") == None
    ensures ParseInt("-") == None
    ensures ParseInt("+") == None
    ensures ParseInt(" 7") == None
    ensures ParseInt("7 ") == None
    ensures ParseInt("7a") == None
  {
    assert !IsDigit("7a"[1]);
    assert !IsDigit("7 "[1]);
  }
}
