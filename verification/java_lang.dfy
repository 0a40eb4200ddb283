/**
 * The pieces of the Java runtime the handlers lean on: fixed-width integer
 * arithmetic, decimal parsing and rendering (Long.parseLong, Integer.parseInt,
 * toString), ASCII case mapping, String.trim().isEmpty(), and the exceptions
 * the handlers raise or let through.
 */
module JavaLang {
  import opened Wrappers

  const MinInt: int := -0x8000_0000
  const MaxInt: int := 0x7fff_ffff
  const MinLong: int := -0x8000_0000_0000_0000
  const MaxLong: int := 0x7fff_ffff_ffff_ffff

  /** Values of a Java `int`. */
  type Int32 = x: int | -0x8000_0000 <= x <= 0x7fff_ffff
  /** Values of a Java `long`. */
  type Int64 = x: int | -0x8000_0000_0000_0000 <= x <= 0x7fff_ffff_ffff_ffff

  // ---------------------------------------------------------------------
  // Fixed-width arithmetic
  // ---------------------------------------------------------------------

  /** Two's-complement truncation to 32 bits: Java `int` arithmetic and `Number.intValue()`. */
  function Wrap32(x: int): (r: Int32)
    ensures (x - r) % 0x1_0000_0000 == 0
    ensures MinInt <= x <= MaxInt ==> r == x
  {
    (x - MinInt) % 0x1_0000_0000 + MinInt
  }

  /** Congruent values truncate alike: wrapping after every step equals wrapping once. */
  lemma Wrap32Congruent(x: int, y: int)
    requires (x - y) % 0x1_0000_0000 == 0
    ensures Wrap32(x) == Wrap32(y)
  {
    var k := (x - y) / 0x1_0000_0000;
    assert x - MinInt == (y - MinInt) + k * 0x1_0000_0000;
  }

  /** Two's-complement truncation to 64 bits: Java `long` arithmetic and `Number.longValue()`. */
  function Wrap64(x: int): (r: Int64)
    ensures (x - r) % 0x1_0000_0000_0000_0000 == 0
    ensures MinLong <= x <= MaxLong ==> r == x
  {
    (x - MinLong) % 0x1_0000_0000_0000_0000 + MinLong
  }

  function Abs(x: int): nat {
    if x < 0 then -x else x
  }

  /** Java's integer division, which truncates toward zero (Dafny's `/` is Euclidean). */
  function TruncDiv(a: int, b: int): (q: int)
    requires b != 0
    ensures Abs(q) == Abs(a) / Abs(b)
    ensures (a < 0) == (b < 0) ==> q >= 0
    ensures (a < 0) != (b < 0) ==> q <= 0
  {
    var x := Abs(a);
    var y := Abs(b);
    DivNonNegative(x, y);
    var m := x / y;
    if (a < 0) != (b < 0) then -m else m
  }

  lemma DivNonNegative(x: int, y: int)
    requires x >= 0 && y > 0
    ensures x / y >= 0
  {
  }

  // ---------------------------------------------------------------------
  // Decimal numerals
  // ---------------------------------------------------------------------

  predicate IsDigit(c: char) {
    '0' <= c <= '9'
  }

  predicate AllDigits(s: string) {
    forall i | 0 <= i < |s| :: IsDigit(s[i])
  }

  function DigitValue(c: char): nat
    requires IsDigit(c)
  {
    (c as int) - ('0' as int)
  }

  function DigitChar(d: nat): (c: char)
    requires d < 10
    ensures IsDigit(c) && DigitValue(c) == d
  {
    (('0' as int) + d) as char
  }

  /** The number a string of ASCII digits denotes, read most significant digit first. */
  function DigitsValue(s: string): nat
    requires AllDigits(s)
  {
    if |s| == 0 then 0 else DigitsValue(s[..|s| - 1]) * 10 + DigitValue(s[|s| - 1])
  }

  /** The shortest decimal numeral of a natural number. */
  function NatToDecimal(n: nat): (s: string)
    ensures |s| > 0 && AllDigits(s)
    ensures DigitsValue(s) == n
    ensures |s| > 1 ==> s[0] != '0'
  {
    if n < 10 then
      [DigitChar(n)]
    else
      var prefix := NatToDecimal(n / 10);
      var s := prefix + [DigitChar(n % 10)];
      assert s[..|s| - 1] == prefix;
      s
  }

  /** `Long.toString` / `Integer.toString`: an optional minus sign, then the shortest numeral. */
  function IntToDecimal(n: int): (s: string)
    ensures |s| > 0
    ensures n < 0 <==> s[0] == '-'
  {
    if n < 0 then "-" + NatToDecimal(-n) else NatToDecimal(n)
  }

  /** The string left after one leading sign character is dropped. */
  function Unsigned(s: string): string {
    if |s| > 0 && (s[0] == '-' || s[0] == '+') then s[1..] else s
  }

  /** An optional `+` or `-` followed by at least one ASCII digit. */
  predicate IsNumeral(s: string) {
    |Unsigned(s)| > 0 && AllDigits(Unsigned(s))
  }

  function NumeralValue(s: string): int
    requires IsNumeral(s)
  {
    var magnitude: int := DigitsValue(Unsigned(s));
    if s[0] == '-' then -magnitude else magnitude
  }

  /**
   * The radix-10 parse shared by `Long.parseLong` and `Integer.parseInt`:
   * a numeral whose value lies in [lo, hi], or nothing (NumberFormatException).
   */
  function ParseSigned(s: string, lo: int, hi: int): (r: Option<int>)
    ensures r.Some? <==> IsNumeral(s) && lo <= NumeralValue(s) <= hi
    ensures r.Some? ==> r.value == NumeralValue(s)
  {
    if IsNumeral(s) && lo <= NumeralValue(s) <= hi then Some(NumeralValue(s)) else None
  }

  /** `Long.parseLong(s)`; None stands for the NumberFormatException. */
  function ParseLong(s: string): (r: Option<Int64>)
    ensures r.Some? ==> IsNumeral(s) && r.value == NumeralValue(s)
    ensures r.None? <==> !IsNumeral(s) || !(MinLong <= NumeralValue(s) <= MaxLong)
  {
    match ParseSigned(s, MinLong, MaxLong)
    case Some(v) => Some(v)
    case None => None
  }

  /** `Integer.parseInt(s)`; None stands for the NumberFormatException. */
  function ParseInt(s: string): (r: Option<Int32>)
    ensures r.Some? ==> IsNumeral(s) && r.value == NumeralValue(s)
    ensures r.None? <==> !IsNumeral(s) || !(MinInt <= NumeralValue(s) <= MaxInt)
  {
    match ParseSigned(s, MinInt, MaxInt)
    case Some(v) => Some(v)
    case None => None
  }

  /** Parsing a rendered number gives the number back, for every range that holds it. */
  lemma {:induction false} DecimalRoundTrip(n: int, lo: int, hi: int)
    requires lo <= n <= hi
    ensures ParseSigned(IntToDecimal(n), lo, hi) == Some(n)
  {
    var s := IntToDecimal(n);
    if n < 0 {
      var digits := NatToDecimal(-n);
      assert s == "-" + digits;
      assert Unsigned(s) == digits;
      assert NumeralValue(s) == -(-n);
    } else {
      var digits := NatToDecimal(n);
      assert s == digits;
      assert IsDigit(s[0]);
      assert Unsigned(s) == digits;
    }
  }

  lemma ParseLongOfDecimal(n: Int64)
    ensures ParseLong(IntToDecimal(n)) == Some(n)
  {
    DecimalRoundTrip(n, MinLong, MaxLong);
  }

  lemma ParseIntOfDecimal(n: Int32)
    ensures ParseInt(IntToDecimal(n)) == Some(n)
  {
    DecimalRoundTrip(n, MinInt, MaxInt);
  }

  /** A string holding any character other than a digit or a sign is never a numeral. */
  lemma ForeignCharacterNeverParses(s: string, i: nat, lo: int, hi: int)
    requires i < |s| && !IsDigit(s[i]) && s[i] != '-' && s[i] != '+'
    ensures ParseSigned(s, lo, hi) == None
  {
  }

  // ---------------------------------------------------------------------
  // Strings
  // ---------------------------------------------------------------------

  /** `Character.toUpperCase` restricted to ASCII: only `a`..`z` change. */
  function UpperChar(c: char): (u: char)
    ensures 'a' <= c <= 'z' ==> u as int == c as int - 32
    ensures !('a' <= c <= 'z') ==> u == c
  {
    if 'a' <= c <= 'z' then (c as int - 32) as char else c
  }

  /** `String.toUpperCase()` on ASCII text. */
  function UpperAscii(s: string): (u: string)
    ensures |u| == |s|
    ensures forall i | 0 <= i < |s| :: u[i] == UpperChar(s[i])
  {
    seq(|s|, i requires 0 <= i < |s| => UpperChar(s[i]))
  }

  /** `s.trim().isEmpty()`: trim drops every character up to U+0020 at both ends. */
  predicate IsBlank(s: string) {
    forall i | 0 <= i < |s| :: s[i] <= ' '
  }

  // ---------------------------------------------------------------------
  // Exceptions
  // ---------------------------------------------------------------------

  /**
   * The exceptions a tool call can end in. The dispatcher only ever looks at
   * `getMessage()`, so each variant fixes that message.
   */
  datatype Failure =
    | IllegalArgument(text: string)          // IllegalArgumentException raised by a handler
    | NumberFormat(input: string)            // NumberFormatException from parseLong / parseInt
    | ClassCast(from: string, to: string)    // a checked cast of an argument value failed
    | NullPointer(detail: Option<string>)    // None: thrown explicitly without a message
    | DivideByZero                           // ArithmeticException from int division by 0
    | Runtime(text: string)                  // RuntimeException a handler wraps a failure in
    | Backend(text: string)                  // whatever a data store, REST or RPC call threw
  {
    /** `getMessage()`; None is Java's null. */
    function Message(): Option<string> {
      match this
      case IllegalArgument(t) => Some(t)
      case NumberFormat(s) => Some("For input string: \"" + s + "\"")
      case ClassCast(from, to) => Some("class " + from + " cannot be cast to class " + to)
      case NullPointer(d) => d
      case DivideByZero => Some("/ by zero")
      case Runtime(t) => Some(t)
      case Backend(t) => Some(t)
    }

    /** What `"..." + e.getMessage()` appends: the message, or "null". */
    function Text(): (t: string)
      ensures Message().Some? ==> t == Message().value
      ensures Message().None? ==> t == "null"
    {
      Message().GetOr("null")
    }
  }
}
