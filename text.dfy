/** Character classes and the .NET string primitives the plugin relies on:
    char.IsWhiteSpace, string.IsNullOrWhiteSpace, String.Trim, ToUpper,
    Int32.ToString and Int32.Parse. A string is a sequence of Unicode scalar values, so a
    character outside the Basic Multilingual Plane counts once here and twice in .NET. */
module Text {
  import opened Common

  /** An ASCII decimal digit: what int.TryParse accepts as a one-character string. */
  predicate IsDigit(c: char) {
    '0' <= c <= '9'
  }

  /** char.IsWhiteSpace: the Unicode separators plus the control characters
      U+0009..U+000D, U+0085. */
  predicate IsWhiteSpace(c: char) {
    || ('\t' <= c <= '\r')
    || c == ' '
    || c == '\U{0085}'
    || c == '\U{00A0}'
    || c == '\U{1680}'
    || ('\U{2000}' <= c <= '\U{200A}')
    || c == '\U{2028}'
    || c == '\U{2029}'
    || c == '\U{202F}'
    || c == '\U{205F}'
    || c == '\U{3000}'
  }

  /** string.IsNullOrWhiteSpace for a non-null string. */
  predicate IsBlank(s: string) {
    forall i :: 0 <= i < |s| ==> IsWhiteSpace(s[i])
  }

  predicate AllDigits(s: string) {
    forall i :: 0 <= i < |s| ==> IsDigit(s[i])
  }

  /** Drops the longest prefix of characters satisfying `p`. */
  function TrimStartBy(s: string, p: char -> bool): (r: string)
    ensures |r| <= |s| && r == s[|s| - |r|..]
    ensures r == [] || !p(r[0])
    ensures forall i :: 0 <= i < |s| - |r| ==> p(s[i])
  {
    if s != [] && p(s[0]) then TrimStartBy(s[1..], p) else s
  }

  /** Drops the longest suffix of characters satisfying `p`. */
  function TrimEndBy(s: string, p: char -> bool): (r: string)
    ensures |r| <= |s| && r == s[..|r|]
    ensures r == [] || !p(r[|r| - 1])
    ensures forall i :: |r| <= i < |s| ==> p(s[i])
  {
    if s != [] && p(s[|s| - 1]) then TrimEndBy(s[..|s| - 1], p) else s
  }

  /** String.Trim(): removes leading and trailing white space. */
  function Trim(s: string): (r: string)
    ensures |r| <= |s|
    ensures r == [] || (!IsWhiteSpace(r[0]) && !IsWhiteSpace(r[|r| - 1]))
    ensures r == [] <==> IsBlank(s)
  {
    var t := TrimStartBy(s, IsWhiteSpace);
    assert IsBlank(s) <== t == [];
    assert t != [] ==> !IsBlank(s) by {
      if t != [] { assert s[|s| - |t|] == t[0]; }
    }
    TrimEndBy(t, IsWhiteSpace)
  }

  /** Trim returns a contiguous piece of its input. */
  lemma TrimIsSlice(s: string) returns (k: nat)
    ensures k + |Trim(s)| <= |s| && Trim(s) == s[k..k + |Trim(s)|]
  {
    var t := TrimStartBy(s, IsWhiteSpace);
    k := |s| - |t|;
    assert Trim(s) == t[..|Trim(s)|];
  }

  /** Trim leaves a string alone when it neither starts nor ends with white space. */
  lemma TrimOfTrimmed(s: string)
    requires s == [] || (!IsWhiteSpace(s[0]) && !IsWhiteSpace(s[|s| - 1]))
    ensures Trim(s) == s
  {
  }

  /** ToUpper on the ASCII letters; other characters are kept. */
  function ToUpperAscii(s: string): (r: string)
    ensures |r| == |s|
    ensures forall i :: 0 <= i < |s| ==> r[i] == if 'a' <= s[i] <= 'z' then s[i] - 'a' + 'A' else s[i]
  {
    if s == [] then []
    else [if 'a' <= s[0] <= 'z' then s[0] - 'a' + 'A' else s[0]] + ToUpperAscii(s[1..])
  }

  function DigitChar(d: nat): (c: char)
    requires d < 10
    ensures IsDigit(c)
  {
    '0' + d as char
  }

  /** Value of a non-empty or empty run of ASCII digits, read in base 10. */
  function DigitsValue(s: string): nat
    requires AllDigits(s)
  {
    if s == [] then 0 else DigitsValue(s[..|s| - 1]) * 10 + (s[|s| - 1] - '0') as nat
  }

  /** Int32.ToString() of a non-negative value, without leading zeros. */
  function NatToString(n: nat): (r: string)
    ensures |r| >= 1 && AllDigits(r)
  {
    if n < 10 then [DigitChar(n)] else NatToString(n / 10) + [DigitChar(n % 10)]
  }

  /** Int32.ToString() in the invariant culture. */
  function IntToString(n: int): (r: string)
    ensures |r| >= 1
  {
    if n < 0 then "-" + NatToString(-n) else NatToString(n)
  }

  lemma {:induction false} NatToStringValue(n: nat)
    ensures DigitsValue(NatToString(n)) == n
  {
    if n >= 10 {
      NatToStringValue(n / 10);
      var s := NatToString(n);
      assert s[..|s| - 1] == NatToString(n / 10);
    }
  }

  function Pow10(k: nat): (r: nat)
    ensures r >= 1
  {
    if k == 0 then 1 else 10 * Pow10(k - 1)
  }

  lemma {:induction false} NatToStringLength(n: nat, k: nat)
    requires 1 <= k && n < Pow10(k)
    ensures |NatToString(n)| <= k
  {
    if n >= 10 {
      assert Pow10(1) == 10;
      assert k >= 2;
      assert n / 10 < Pow10(k - 1);
      NatToStringLength(n / 10, k - 1);
    }
  }

  const Int32Min: int := -0x8000_0000
  const Int32Max: int := 0x7FFF_FFFF

  /** The white space Int32.Parse skips around a number (NumberStyles.Integer). */
  predicate IsNumberWhite(c: char) {
    c == ' ' || ('\t' <= c <= '\r')
  }

  /** Int32.Parse(s) with NumberStyles.Integer: optional surrounding white space,
      an optional leading sign and at least one ASCII digit. Anything else is a
      FormatException; a well-formed value outside the 32-bit range is an OverflowException. */
  function ParseInt32(s: string): (r: Result<int, Exception>)
    ensures r.Ok? ==> Int32Min <= r.value <= Int32Max
    ensures r.Err? ==> r.error == FormatException || r.error == OverflowException
  {
    ParseSignedDigits(TrimEndBy(TrimStartBy(s, IsNumberWhite), IsNumberWhite))
  }

  /** The sign-and-digits part of Int32.Parse, once the surrounding white space is gone. */
  function ParseSignedDigits(t: string): (r: Result<int, Exception>)
    ensures r.Ok? ==> Int32Min <= r.value <= Int32Max
    ensures r.Err? ==> r.error == FormatException || r.error == OverflowException
  {
    var negative := t != [] && t[0] == '-';
    var body := if t != [] && (t[0] == '-' || t[0] == '+') then t[1..] else t;
    if body == [] || !AllDigits(body) then Err(FormatException)
    else
      var v: int := if negative then -(DigitsValue(body) as int) else DigitsValue(body);
      if Int32Min <= v <= Int32Max then Ok(v) else Err(OverflowException)
  }

  /** Writing a 32-bit integer and parsing it back gives the same integer. */
  lemma IntToStringParses(n: int)
    requires Int32Min <= n <= Int32Max
    ensures ParseInt32(IntToString(n)) == Ok(n)
  {
    var s := IntToString(n);
    var m: nat := if n < 0 then -n else n;
    var digits := NatToString(m);
    assert s[|s| - 1] == digits[|digits| - 1];
    assert !IsNumberWhite(s[0]) && !IsNumberWhite(s[|s| - 1]);
    TrimStartByKeeps(s, IsNumberWhite);
    TrimEndByKeeps(s, IsNumberWhite);
    SignedDigitsParse(n);
  }

  lemma SignedDigitsParse(n: int)
    requires Int32Min <= n <= Int32Max
    ensures ParseSignedDigits(IntToString(n)) == Ok(n)
  {
    var s := IntToString(n);
    var m: nat := if n < 0 then -n else n;
    var digits := NatToString(m);
    NatToStringValue(m);
    if n < 0 {
      assert s[1..] == digits;
    } else {
      assert s == digits;
      assert IsDigit(s[0]);
    }
  }

  lemma TrimStartByKeeps(s: string, p: char -> bool)
    requires s == [] || !p(s[0])
    ensures TrimStartBy(s, p) == s
  {
  }

  lemma TrimEndByKeeps(s: string, p: char -> bool)
    requires s == [] || !p(s[|s| - 1])
    ensures TrimEndBy(s, p) == s
  {
  }

  /** The decimal form of a 32-bit integer has at most 11 characters. */
  lemma IntToStringShort(n: int)
    requires Int32Min <= n <= Int32Max
    ensures |IntToString(n)| <= 11
  {
    assert Pow10(10) == 10_000_000_000 by {
      assert Pow10(5) == 100_000;
      assert Pow10(10) == Pow10(5) * 100_000 by {
        assert Pow10(10) == 100_000 * Pow10(5);
      }
    }
    NatToStringLength(if n < 0 then -n else n, 10);
  }
}
