/**
 * The integer conversions handlerBrowse applies to its optional limit
 * argument: Go's `strconv.Atoi` on a 64-bit platform, and the `int32(...)`
 * conversion of the result, which keeps the low 32 bits.
 */
module Numbers {
  import opened Wrappers

  const MaxUint64: nat := 0xFFFF_FFFF_FFFF_FFFF
  const MaxInt64: nat := 0x7FFF_FFFF_FFFF_FFFF
  const MinInt64: int := -0x8000_0000_0000_0000
  const TwoTo31: int := 0x8000_0000
  const TwoTo32: int := 0x1_0000_0000

  /** Go's `int32(x)`: two's-complement truncation to 32 bits. */
  function ToInt32(x: int): (r: int)
    ensures -TwoTo31 <= r < TwoTo31
    ensures (x - r) % TwoTo32 == 0
    ensures -TwoTo31 <= x < TwoTo31 ==> r == x
  {
    var m := (x + TwoTo31) % TwoTo32;
    assert x + TwoTo31 == TwoTo32 * ((x + TwoTo31) / TwoTo32) + m;
    m - TwoTo31
  }

  predicate IsDigit(c: char) {
    '0' <= c <= '9'
  }

  function DigitValue(c: char): nat
    requires IsDigit(c)
  {
    c as int - '0' as int
  }

  predicate AllDigits(s: string) {
    forall i :: 0 <= i < |s| ==> IsDigit(s[i])
  }

  /** The number a string of decimal digits denotes, most significant digit
      first; the reference meaning the scanner below is measured against. */
  function DigitsValue(s: string): nat
    requires AllDigits(s)
  {
    if s == [] then 0 else DigitsValue(s[..|s| - 1]) * 10 + DigitValue(s[|s| - 1])
  }

  /** The two ways `strconv` rejects a number. */
  datatype NumErr = InvalidSyntax | OutOfRange

  datatype Scan = Value(n: nat) | Rejected(err: NumErr)

  /** `strconv.ParseUint(s, 10, 64)`'s digit loop, from accumulated value acc:
      a non-digit is a syntax error, a value past the largest uint64 is a
      range error at the digit where it happens, whatever follows. */
  function ScanDecimal(s: string, acc: nat): Scan
    decreases |s|
  {
    if s == [] then Value(acc)
    else if !IsDigit(s[0]) then Rejected(InvalidSyntax)
    else if acc * 10 + DigitValue(s[0]) > MaxUint64 then Rejected(OutOfRange)
    else ScanDecimal(s[1..], acc * 10 + DigitValue(s[0]))
  }

  /** The message of a `*strconv.NumError` from Atoi. Go quotes the input with
      strconv.Quote; the escaping of special characters is not modelled. */
  function AtoiMessage(s: string, e: NumErr): string {
    "strconv.Atoi: parsing \"" + s + "\": " +
    (match e case InvalidSyntax => "invalid syntax" case OutOfRange => "value out of range")
  }

  /** `strconv.Atoi(s)`: an optional sign followed by at least one decimal
      digit, whose value lies in the int64 range. */
  function Atoi(s: string): Result<int> {
    if s == [] then Err(AtoiMessage(s, InvalidSyntax))
    else
      var negative := s[0] == '-';
      var body := if s[0] == '+' || s[0] == '-' then s[1..] else s;
      if body == [] then Err(AtoiMessage(s, InvalidSyntax))
      else match ScanDecimal(body, 0)
        case Rejected(e) => Err(AtoiMessage(s, e))
        case Value(u) =>
          if !negative && u > MaxInt64 then Err(AtoiMessage(s, OutOfRange))
          else if negative && u > MaxInt64 + 1 then Err(AtoiMessage(s, OutOfRange))
          else Ok(if negative then -(u as int) else u)
  }

  /** The digits after an optional leading sign. */
  function Unsigned(s: string): string {
    if s != [] && (s[0] == '+' || s[0] == '-') then s[1..] else s
  }

  /** The syntax Atoi accepts: an optional sign, then one or more digits. */
  predicate IsDecimalLiteral(s: string) {
    Unsigned(s) != [] && AllDigits(Unsigned(s))
  }

  function LiteralValue(s: string): int
    requires IsDecimalLiteral(s)
  {
    if s[0] == '-' then -(DigitsValue(Unsigned(s)) as int) else DigitsValue(Unsigned(s))
  }

  lemma {:induction false} ScanConcat(p: string, q: string, acc: nat)
    ensures ScanDecimal(p + q, acc) ==
      match ScanDecimal(p, acc)
      case Value(v) => ScanDecimal(q, v)
      case Rejected(e) => Rejected(e)
    decreases |p|
  {
    if p != [] {
      assert (p + q)[0] == p[0];
      assert (p + q)[1..] == p[1..] + q;
      if IsDigit(p[0]) && acc * 10 + DigitValue(p[0]) <= MaxUint64 {
        ScanConcat(p[1..], q, acc * 10 + DigitValue(p[0]));
      }
    } else {
      assert p + q == q;
    }
  }

  /** On a string of digits the scanner returns the reference value, or a
      range error exactly when that value does not fit in a uint64. */
  lemma {:induction false} ScanDigits(s: string)
    requires AllDigits(s)
    ensures ScanDecimal(s, 0) ==
      if DigitsValue(s) <= MaxUint64 then Value(DigitsValue(s)) else Rejected(OutOfRange)
    decreases |s|
  {
    if s != [] {
      var p, d := s[..|s| - 1], s[|s| - 1];
      assert s == p + [d];
      ScanDigits(p);
      ScanConcat(p, [d], 0);
    }
  }

  /** A scan that returns a value only ever read digits. */
  lemma {:induction false} ScanValueOnlyDigits(s: string, acc: nat)
    requires ScanDecimal(s, acc).Value?
    ensures AllDigits(s)
    decreases |s|
  {
    if s != [] {
      ScanValueOnlyDigits(s[1..], acc * 10 + DigitValue(s[0]));
      assert forall i :: 1 <= i < |s| ==> s[i] == s[1..][i - 1];
    }
  }

  /** Atoi succeeds exactly on a signed decimal literal whose value fits in
      an int64, and then returns that value. */
  lemma AtoiMeaning(s: string)
    ensures Atoi(s).Ok? <==> IsDecimalLiteral(s) && MinInt64 <= LiteralValue(s) <= MaxInt64
    ensures Atoi(s).Ok? ==> Atoi(s).value == LiteralValue(s)
  {
    var body := Unsigned(s);
    if s != [] && body != [] {
      if AllDigits(body) {
        ScanDigits(body);
      } else if ScanDecimal(body, 0).Value? {
        ScanValueOnlyDigits(body, 0);
      }
    }
  }

  /** The base-10 digits of n, as `strconv.Itoa` writes them. */
  function FormatNat(n: nat): (r: string)
    ensures r != [] && AllDigits(r)
  {
    var d := [('0' as int + n % 10) as char];
    if n < 10 then d else FormatNat(n / 10) + d
  }

  function FormatInt(n: int): string {
    if n < 0 then "-" + FormatNat(-n) else FormatNat(n)
  }

  lemma {:induction false} FormatNatValue(n: nat)
    ensures DigitsValue(FormatNat(n)) == n
  {
    var s := FormatNat(n);
    if n >= 10 {
      FormatNatValue(n / 10);
      assert s[..|s| - 1] == FormatNat(n / 10);
    }
  }

  /** Atoi reads back every int64 written in base 10. */
  lemma FormatIntRoundTrip(n: int)
    requires MinInt64 <= n <= MaxInt64
    ensures Atoi(FormatInt(n)) == Ok(n)
  {
    var m := if n < 0 then -n else n;
    FormatNatValue(m);
    var s := FormatInt(n);
    assert Unsigned(s) == FormatNat(m);
    AtoiMeaning(s);
  }
}
