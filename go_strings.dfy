/**
 * The pieces of Go's runtime and standard library that the interpreter leans on:
 * byte strings, 64-bit integers with wrap-around, decimal formatting (`%d`) and
 * `strconv.ParseInt(literal, 0, 64)` restricted to the digit strings the lexer produces.
 */
module GoStrings {
  import opened Wrappers

  const MinInt64: int := -0x8000_0000_0000_0000
  const MaxInt64: int := 0x7FFF_FFFF_FFFF_FFFF

  /** Go's `int64`. */
  type Int64 = x: int | MinInt64 <= x <= MaxInt64

  /** A Go `string` is a sequence of bytes: every char stands for one byte. */
  predicate IsBytes(s: string)
  {
    forall i | 0 <= i < |s| :: s[i] as int < 256
  }

  type Bytes = s: string | IsBytes(s)

  /**
   * Go's conversion `string(b)` of a byte: the UTF-8 encoding of the code point b,
   * so a byte from 0x80 upwards becomes two bytes.
   */
  function ByteString(b: char): (s: string)
    requires b as int < 256
    ensures IsBytes(s)
    ensures b as int < 0x80 ==> s == [b]
    ensures 0x80 <= b as int ==> |s| == 2 && 0xC0 <= s[0] as int < 0xC4 && 0x80 <= s[1] as int < 0xC0
    ensures Utf8Value(s) == b as int
  {
    if b as int < 0x80 then [b]
    else [(0xC0 + b as int / 64) as char, (0x80 + b as int % 64) as char]
  }

  /** The code point a one- or two-byte UTF-8 sequence encodes (the decoding side of ByteString). */
  function Utf8Value(s: string): int
  {
    if |s| == 1 then s[0] as int
    else if |s| == 2 then (s[0] as int - 0xC0) * 64 + (s[1] as int - 0x80)
    else -1
  }

  /** Two's complement wrap-around of an unbounded integer into `int64`. */
  function Wrap64(x: int): (r: Int64)
    ensures MinInt64 <= x <= MaxInt64 ==> r == x
    ensures (r - x) % 0x1_0000_0000_0000_0000 == 0
  {
    (x - MinInt64) % 0x1_0000_0000_0000_0000 + MinInt64
  }

  /** Go's integer division: the quotient is truncated toward zero. */
  function TruncDiv(a: int, b: int): (q: int)
    requires b != 0
  {
    var q0 := Abs(a) / Abs(b);
    if (a < 0) == (b < 0) then q0 else -q0
  }

  /**
   * Truncation toward zero: the remainder a - q * b is smaller than b in magnitude and
   * has the sign of a; for non-negative operands it is Dafny's (Euclidean) division.
   */
  lemma TruncDivTruncates(a: int, b: int)
    requires b != 0
    ensures var q := TruncDiv(a, b);
            Abs(a - q * b) < Abs(b) && (a - q * b == 0 || (a - q * b < 0 <==> a < 0))
    ensures 0 <= a && 0 < b ==> TruncDiv(a, b) == a / b
  {
    var q0, r0 := Abs(a) / Abs(b), Abs(a) % Abs(b);
    assert Abs(a) == q0 * Abs(b) + r0 && 0 <= r0 < Abs(b);
    var q := TruncDiv(a, b);
    if b < 0 {
      assert q0 * b == -(q0 * Abs(b));
    }
    assert a - q * b == if a < 0 then -r0 else r0;
  }

  function Abs(x: int): nat
  {
    if x < 0 then -x else x
  }

  /**
   * The byte at index i, or the NUL byte at and past the end: what both lexers'
   * `readChar` loads into the current character.
   */
  function ByteAt(input: string, i: int): char
  {
    if 0 <= i < |input| then input[i] else '\0'
  }

  predicate IsDigit(c: char)
  {
    '0' <= c <= '9'
  }

  /** A non-empty run of decimal digits: what the lexer returns as an INT literal. */
  predicate IsDigits(s: string)
  {
    |s| > 0 && forall i | 0 <= i < |s| :: IsDigit(s[i])
  }

  function DigitValue(c: char): (d: nat)
    ensures d < 10
    ensures IsDigit(c) ==> d == c as int - '0' as int
  {
    if IsDigit(c) then (c as int - '0' as int) else 0
  }

  /** The value of a digit string read in the given base (most significant digit first). */
  function DigitsValue(s: string, base: nat): nat
  {
    if s == [] then 0 else DigitsValue(s[..|s| - 1], base) * base + DigitValue(s[|s| - 1])
  }

  /**
   * `strconv.ParseInt(lit, 0, 64)` on a digit string: a leading `0` selects base 8 for
   * the remaining digits (so "08" and "09" are syntax errors), otherwise base 10;
   * a value above MaxInt64 is a range error. Both errors give None.
   */
  function ParseInt(lit: string): (r: Option<Int64>)
    requires IsDigits(lit)
    ensures lit[0] != '0' ==> (r.Some? <==> DigitsValue(lit, 10) <= MaxInt64)
    ensures r.Some? ==> r.value >= 0
    ensures lit == "0" ==> r == Some(0)
  {
    var base := if lit[0] == '0' then 8 else 10;
    var body := if lit[0] == '0' then lit[1..] else lit;
    if HasDigitOutside(body, base) then None
    else
      var v := DigitsValue(body, base);
      if v <= MaxInt64 then Some(v) else None
  }

  /** Some digit of s is not a digit of the given base. */
  predicate HasDigitOutside(s: string, base: nat)
  {
    exists i | 0 <= i < |s| :: DigitValue(s[i]) >= base
  }

  /** `strings.Join`: the parts with the separator between neighbours. */
  function Join(parts: seq<string>, sep: string): (s: string)
    ensures parts == [] ==> s == ""
    ensures |parts| == 1 ==> s == parts[0]
  {
    if parts == [] then ""
    else if |parts| == 1 then parts[0]
    else parts[0] + sep + Join(parts[1..], sep)
  }

  /** Decimal rendering of a natural number, without leading zeros. */
  function FormatNat(n: nat): (s: string)
    ensures IsDigits(s)
    ensures n > 0 ==> s[0] != '0'
    decreases n
  {
    if n < 10 then [('0' as int + n) as char]
    else FormatNat(n / 10) + [('0' as int + n % 10) as char]
  }

  /** Go's `%d` / `strconv.FormatInt(x, 10)`. */
  function FormatInt(x: int): (s: string)
    ensures |s| > 0
    ensures x < 0 <==> s[0] == '-'
  {
    if x < 0 then "-" + FormatNat(-x) else FormatNat(x)
  }

  lemma {:induction false} DigitsValueOfFormat(n: nat)
    ensures DigitsValue(FormatNat(n), 10) == n
    decreases n
  {
    var s := FormatNat(n);
    if n < 10 {
    } else {
      DigitsValueOfFormat(n / 10);
      assert s[..|s| - 1] == FormatNat(n / 10);
    }
  }

  /**
   * Reading back what `%d` wrote: for every non-negative int64 the decimal text
   * parses (through the base-0 rules) to the same value.
   */
  lemma ParseFormatRoundTrip(n: Int64)
    requires n >= 0
    ensures IsDigits(FormatInt(n)) && ParseInt(FormatInt(n)) == Some(n)
  {
    DigitsValueOfFormat(n);
    if n == 0 {
      assert FormatInt(n) == "0";
    } else {
      var s := FormatInt(n);
      assert s[0] != '0';
      assert forall i | 0 <= i < |s| :: DigitValue(s[i]) < 10;
    }
  }

  /** A leading zero reads the remaining digits in octal. */
  lemma OctalLiteral()
    ensures ParseInt("010") == Some(8)
    ensures ParseInt("0") == Some(0)
    ensures ParseInt("08") == None && ParseInt("09") == None
  {
    assert DigitsValue("10", 8) == 8 by {
      assert "10"[..1] == "1";
      assert "1"[..0] == "";
    }
    assert "08"[1..] == "8" && DigitValue("8"[0]) >= 8 && HasDigitOutside("8", 8);
    assert "09"[1..] == "9" && DigitValue("9"[0]) >= 8 && HasDigitOutside("9", 8);
  }

  /** The decimal text of the largest int64 is accepted; the text of one more is a range error. */
  lemma RangeLimit()
    ensures ParseInt(FormatNat(MaxInt64)) == Some(MaxInt64)
    ensures IsDigits(FormatNat(MaxInt64 + 1)) && ParseInt(FormatNat(MaxInt64 + 1)) == None
  {
    ParseFormatRoundTrip(MaxInt64);
    DigitsValueOfFormat(MaxInt64 + 1);
  }
}
