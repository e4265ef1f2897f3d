/** The string primitives the clients rely on: JavaScript's `String.prototype.trim`
    and the decimal rendering `n.toString().padStart(2, "0")` of a natural number. */
module Text {

  /** ECMAScript WhiteSpace and LineTerminator code points, the characters
      `trim` removes. */
  predicate IsWhitespace(c: char) {
    var n := c as int;
    n == 0x20 || (0x09 <= n <= 0x0D) || n == 0xA0 || n == 0x1680
    || (0x2000 <= n <= 0x200A) || n == 0x2028 || n == 0x2029 || n == 0x202F
    || n == 0x205F || n == 0x3000 || n == 0xFEFF
  }

  /** Every character is whitespace (the empty string included). */
  predicate IsBlank(s: string) {
    forall i :: 0 <= i < |s| ==> IsWhitespace(s[i])
  }

  /** The length of the run of whitespace that starts `s`. */
  function LeadingBlanks(s: string): (k: nat)
    ensures k <= |s|
    ensures forall i :: 0 <= i < k ==> IsWhitespace(s[i])
    ensures k < |s| ==> !IsWhitespace(s[k])
  {
    if |s| > 0 && IsWhitespace(s[0]) then
      assert forall i :: 1 <= i < |s| ==> s[i] == s[1..][i - 1];
      1 + LeadingBlanks(s[1..])
    else
      0
  }

  /** Where the run of whitespace that ends `s` begins. */
  function TrailingStart(s: string): (k: nat)
    ensures k <= |s|
    ensures forall i :: k <= i < |s| ==> IsWhitespace(s[i])
    ensures k > 0 ==> !IsWhitespace(s[k - 1])
  {
    if |s| > 0 && IsWhitespace(s[|s| - 1]) then
      assert forall i :: 0 <= i < |s| - 1 ==> s[i] == s[..|s| - 1][i];
      TrailingStart(s[..|s| - 1])
    else
      |s|
  }

  /** Leading whitespace removed: a suffix of `s` that is empty exactly when
      `s` is blank and otherwise starts with a non-whitespace character. */
  function TrimStart(s: string): (r: string)
    ensures |r| <= |s| && r == s[|s| - |r|..]
    ensures r == [] <==> IsBlank(s)
    ensures r != [] ==> !IsWhitespace(r[0])
    ensures IsBlank(s[..|s| - |r|])
  {
    var k := LeadingBlanks(s);
    assert forall i :: 0 <= i < k ==> s[..k][i] == s[i];
    s[k..]
  }

  /** Trailing whitespace removed: a prefix of `s`, empty exactly when `s` is
      blank, otherwise ending in a non-whitespace character. */
  function TrimEnd(s: string): (r: string)
    ensures |r| <= |s| && r == s[..|r|]
    ensures r == [] <==> IsBlank(s)
    ensures r != [] ==> !IsWhitespace(r[|r| - 1])
    ensures IsBlank(s[|r|..])
  {
    var k := TrailingStart(s);
    assert forall i :: k <= i < |s| ==> s[k..][i - k] == s[i];
    s[..k]
  }

  /** `s.trim()`: the truthiness test `s.trim()` of the clients holds exactly
      when `s` has a non-whitespace character. */
  function Trim(s: string): (r: string)
    ensures r == [] <==> IsBlank(s)
    ensures r != [] ==> !IsWhitespace(r[0]) && !IsWhitespace(r[|r| - 1])
    ensures |r| <= |s|
    ensures var k := LeadingBlanks(s);
            k + |r| <= |s| && r == s[k..k + |r|] && IsBlank(s[..k]) && IsBlank(s[k + |r|..])
  {
    var k := LeadingBlanks(s);
    var t := TrimStart(s);
    assert t == s[k..];
    var r := TrimEnd(t);
    assert r != [] ==> r[0] == t[0];
    assert r == s[k..k + |r|];
    assert t[|r|..] == s[k + |r|..];
    assert forall i :: 0 <= i < k ==> s[..k][i] == s[i];
    r
  }

  /** Trimming is idempotent. */
  lemma {:induction false} TrimIdempotent(s: string)
    ensures Trim(Trim(s)) == Trim(s)
  {
    var r := Trim(s);
    if r != [] {
      assert TrimStart(r) == r;
      assert TrimEnd(r) == r;
    }
  }

  function DigitChar(d: nat): (c: char)
    requires d < 10
    ensures '0' <= c <= '9'
  {
    ['0', '1', '2', '3', '4', '5', '6', '7', '8', '9'][d]
  }

  function DigitValue(c: char): (d: nat)
    ensures d < 10
    ensures '0' <= c <= '9' ==> DigitChar(d) == c
  {
    if '0' <= c <= '9' then (c as int - '0' as int) else 0
  }

  lemma DigitRoundTrip(d: nat)
    requires d < 10
    ensures DigitValue(DigitChar(d)) == d
  {
  }

  predicate AllDigits(s: string) {
    forall i :: 0 <= i < |s| ==> '0' <= s[i] <= '9'
  }

  /** `n.toString()` for a natural number: its decimal digits, most
      significant first, without leading zeros. */
  function Decimal(n: nat): (r: string)
    ensures 1 <= |r| && AllDigits(r)
    ensures |r| > 1 ==> r[0] != '0'
  {
    if n < 10 then [DigitChar(n)] else Decimal(n / 10) + [DigitChar(n % 10)]
  }

  /** One digit below 10, at most two below 100, and no more. */
  lemma {:induction false} DecimalLength(n: nat)
    ensures n < 10 <==> |Decimal(n)| == 1
    ensures n < 100 <==> |Decimal(n)| <= 2
  {
    if n >= 10 {
      var q := n / 10;
      assert 1 <= q && (n < 100 <==> q < 10);
      DecimalLength(q);
    }
  }

  /** `s.padStart(2, "0")`. */
  function PadStart2(s: string): (r: string)
    ensures |r| == if |s| < 2 then 2 else |s|
    ensures r[|r| - |s|..] == s
    ensures forall i :: 0 <= i < |r| - |s| ==> r[i] == '0'
    ensures AllDigits(s) ==> AllDigits(r)
  {
    if |s| == 0 then "00" else if |s| == 1 then ['0'] + s else s
  }

  /** Reads a string of decimal digits back as a number (leading zeros allowed). */
  function ParseDecimal(s: string): nat {
    if s == [] then 0 else ParseDecimal(s[..|s| - 1]) * 10 + DigitValue(s[|s| - 1])
  }

  lemma {:induction false} ParseDecimalOfDecimal(n: nat)
    ensures ParseDecimal(Decimal(n)) == n
  {
    var r := Decimal(n);
    if n >= 10 {
      var q, d := n / 10, n % 10;
      var front, last := Decimal(q), DigitChar(d);
      assert r == front + [last];
      assert r[..|r| - 1] == front && r[|r| - 1] == last;
      ParseDecimalOfDecimal(q);
      DigitRoundTrip(d);
      assert ParseDecimal(r) == ParseDecimal(front) * 10 + DigitValue(last);
      assert n == q * 10 + d;
    } else {
      DigitRoundTrip(n);
      assert r[..|r| - 1] == [];
    }
  }

  lemma {:induction false} ParseDecimalLeadingZeros(z: string, s: string)
    requires forall i :: 0 <= i < |z| ==> z[i] == '0'
    ensures ParseDecimal(z + s) == ParseDecimal(s)
  {
    if s == [] {
      if z != [] {
        assert (z + s)[..|z| - 1] == z[..|z| - 1];
        ParseDecimalLeadingZeros(z[..|z| - 1], s);
        assert z[..|z| - 1] + s == z[..|z| - 1];
      }
    } else {
      assert (z + s)[..|z + s| - 1] == z + s[..|s| - 1];
      ParseDecimalLeadingZeros(z, s[..|s| - 1]);
    }
  }

  /** Padding with zeros never changes the number that is shown. */
  lemma PaddedDecimalRoundTrip(n: nat)
    ensures ParseDecimal(PadStart2(Decimal(n))) == n
  {
    var d := Decimal(n);
    var p := PadStart2(d);
    assert p == p[..|p| - |d|] + d;
    ParseDecimalLeadingZeros(p[..|p| - |d|], d);
    ParseDecimalOfDecimal(n);
  }
}
