/**
 * The part of Go's `strconv.ParseInt(lit, 0, 64)` that the parser reaches.
 * The lexer only hands it non-empty runs of decimal digits, so this models
 * base-0 parsing of digit strings: decimal, or octal when the string starts
 * with `0` (Go's base-0 rule; a lone `0` is octal zero), with an error for an
 * `8` or `9` in an octal string and for a value above 2^63 - 1.
 */
module Strconv {
  import opened Wrappers
  import opened Tokens

  const MaxInt64: int := 0x7FFF_FFFF_FFFF_FFFF

  /** Go's int64. */
  type Int64 = x: int | -0x8000_0000_0000_0000 <= x <= MaxInt64

  /** The value of a decimal digit byte, or none for any other byte. */
  function DigitValue(c: Byte): (d: Option<nat>)
    ensures d.Some? ==> d.value < 10
    ensures d.Some? <==> '0' <= c <= '9'
  {
    if '0' <= c <= '9' then Some(c as int - '0' as int) else None
  }

  /** The value of `digits` in `base`, or none if a byte is not a digit below the base. */
  function ValueIn(digits: Bytes, base: nat): Option<nat>
  {
    if digits == [] then Some(0)
    else
      match ValueIn(digits[..|digits| - 1], base)
      case None => None
      case Some(v) =>
        match DigitValue(digits[|digits| - 1])
        case None => None
        case Some(d) => if d < base then Some(v * base + d) else None
  }

  /** A value within int64, or an out-of-range error. */
  function InRange(v: Option<nat>): (r: Option<Int64>)
    ensures r.Some? <==> v.Some? && v.value <= MaxInt64
    ensures r.Some? ==> r.value == v.value
  {
    if v.Some? && v.value <= MaxInt64 then Some(v.value) else None
  }

  /** `strconv.ParseInt(lit, 0, 64)` on a string of decimal digits. */
  function ParseInt(lit: Bytes): (r: Option<Int64>)
    ensures r.Some? ==> 0 <= r.value
    ensures lit == [] ==> r.None?
  {
    if lit == [] then None
    else if lit[0] == '0' then InRange(ValueIn(lit[1..], 8))
    else InRange(ValueIn(lit, 10))
  }

  /** Division by the base: quotient, remainder digit, and a smaller quotient. */
  lemma DivideByBase(n: nat, base: nat)
    requires 2 <= base <= 10
    ensures n == n / base * base + n % base && 0 <= n % base < base
    ensures n >= base ==> 0 < n / base < n
  {
  }

  /** The spelling of a natural number in a base up to ten, without leading zeros. */
  function Spelling(n: nat, base: nat): (s: Bytes)
    requires 2 <= base <= 10
    ensures |s| > 0
    ensures n > 0 ==> s[0] != '0'
  {
    DivideByBase(n, base);
    var d := (n % base + '0' as int) as char;
    if n < base then [d] else Spelling(n / base, base) + [d]
  }

  lemma {:induction false} SpellingValue(n: nat, base: nat)
    requires 2 <= base <= 10
    ensures ValueIn(Spelling(n, base), base) == Some(n)
  {
    var s := Spelling(n, base);
    var q, d := n / base, n % base;
    DivideByBase(n, base);
    var c := (d + '0' as int) as char;
    assert DigitValue(c) == Some(d);
    if n >= base {
      var p := Spelling(q, base);
      assert s == p + [c];
      assert s[..|s| - 1] == p;
      SpellingValue(q, base);
      assert ValueIn(s, base) == Some(q * base + d);
    } else {
      assert s == [c];
      assert s[..|s| - 1] == [];
    }
  }

  /** The decimal spelling of a natural number. */
  function DecimalString(n: nat): Bytes {
    Spelling(n, 10)
  }

  /** The octal spelling of a natural number. */
  function OctalString(n: nat): Bytes {
    Spelling(n, 8)
  }

  lemma DecimalStringValue(n: nat)
    ensures ValueIn(DecimalString(n), 10) == Some(n)
  {
    SpellingValue(n, 10);
  }

  /**
   * Decimal round trip: every int64 value from 0 up, spelled in decimal,
   * parses back to itself.
   */
  lemma DecimalRoundTrip(n: nat)
    requires n <= MaxInt64
    ensures ParseInt(DecimalString(n)) == Some(n)
  {
    DecimalStringValue(n);
    if n == 0 {
      assert DecimalString(0) == "0";
      assert DecimalString(0)[1..] == [];
    }
  }

  /**
   * Octal round trip under the base-0 rule: every int64 value from 0 up,
   * spelled in octal after a leading `0`, parses back to itself.
   */
  lemma OctalRoundTrip(n: nat)
    requires n <= MaxInt64
    ensures ParseInt("0" + OctalString(n)) == Some(n)
  {
    SpellingValue(n, 8);
    assert ("0" + OctalString(n))[1..] == OctalString(n);
  }

  /** A leading `0` makes the rest octal: `010` is eight. */
  lemma LeadingZeroIsOctal()
    ensures ParseInt("010") == Some(8)
    ensures ParseInt("0") == Some(0)
  {
    assert "010"[1..] == "10";
    assert "10"[..1] == "1";
    assert "1"[..0] == [];
  }

  /** In a string with a leading `0`, an `8` or `9` anywhere after it is an error. */
  lemma {:induction false} OctalRejectsEightAndNine(lit: Bytes, i: nat)
    requires 1 <= i < |lit| && lit[0] == '0'
    requires lit[i] == '8' || lit[i] == '9'
    ensures ParseInt(lit) == None
  {
    OctalDigitRejected(lit[1..], i - 1);
  }

  lemma {:induction false} OctalDigitRejected(digits: Bytes, i: nat)
    requires i < |digits| && (digits[i] == '8' || digits[i] == '9')
    ensures ValueIn(digits, 8) == None
    decreases |digits|
  {
    if i < |digits| - 1 {
      OctalDigitRejected(digits[..|digits| - 1], i);
    }
  }

  /** The first value above int64's range is an error; the largest value in range parses. */
  lemma RangeLimit()
    ensures ParseInt(DecimalString(MaxInt64 + 1)) == None
    ensures ParseInt(DecimalString(MaxInt64)) == Some(MaxInt64)
  {
    DecimalStringValue(MaxInt64 + 1);
    DecimalRoundTrip(MaxInt64);
  }
}
