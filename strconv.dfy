/** `strconv.ParseUint(s, 10, 64)`, the amount parser used by the send
    handler: Go's digit-by-digit algorithm over unsigned 64-bit arithmetic,
    including its early return on overflow. */
module Strconv {

  const TwoTo64: int := 0x1_0000_0000_0000_0000
  const MaxUint64: int := TwoTo64 - 1

  newtype uint64 = x: int | 0 <= x < 0x1_0000_0000_0000_0000

  /** Smallest n with n * 10 > MaxUint64 (Go's `maxUint64/10 + 1`). */
  const Cutoff10: int := MaxUint64 / 10 + 1

  datatype NumErrorKind = ErrSyntax | ErrRange

  /** Go's `*strconv.NumError`: the parsing function, the input and the cause. */
  datatype NumError = NumError(func: string, num: string, err: NumErrorKind)

  datatype ParseResult = Parsed(value: uint64) | Failed(error: NumError)

  predicate IsDigit(c: char) {
    '0' <= c <= '9'
  }

  predicate AllDigits(s: string) {
    forall i :: 0 <= i < |s| ==> IsDigit(s[i])
  }

  function DigitValue(c: char): (d: nat)
    requires IsDigit(c)
    ensures d < 10
  {
    c as int - '0' as int
  }

  /** The number a string of decimal digits denotes (leading zeros allowed). */
  function DecimalValue(s: string): (n: nat)
    requires AllDigits(s)
  {
    if s == [] then 0 else 10 * DecimalValue(s[..|s| - 1]) + DigitValue(s[|s| - 1])
  }

  /** Length of the longest prefix of `s` made of digits. */
  function DigitRun(s: string): (k: nat)
    ensures k <= |s| && AllDigits(s[..k])
    ensures k < |s| ==> !IsDigit(s[k])
  {
    if s == [] || !IsDigit(s[0]) then 0
    else
      var k := 1 + DigitRun(s[1..]);
      assert s[..k] == [s[0]] + s[1..][..k - 1];
      k
  }

  /** What `strconv.ParseUint(s, 10, 64)` returns, as a closed form: the empty
      string is a syntax error; otherwise the digits read before the first
      non-digit are checked for overflow first (an overflow is reported even
      when a non-digit follows), then any non-digit is a syntax error. */
  function ParseUintSpec(s: string): (r: ParseResult) {
    if s == [] then Failed(NumError("ParseUint", s, ErrSyntax))
    else if DecimalValue(s[..DigitRun(s)]) > MaxUint64 then Failed(NumError("ParseUint", s, ErrRange))
    else if DigitRun(s) < |s| then Failed(NumError("ParseUint", s, ErrSyntax))
    else
      assert s[..DigitRun(s)] == s;
      Parsed(DecimalValue(s) as uint64)
  }

  /** Go's `NumError.Error()` text. */
  function NumErrorText(e: NumError): (text: string) {
    "strconv." + e.func + ": parsing " + "\"" + e.num + "\"" + ": " +
    (match e.err
     case ErrSyntax => "invalid syntax"
     case ErrRange => "value out of range")
  }

  /** Appending a digit never makes the value smaller. */
  lemma {:induction false} DecimalValuePrefixMonotone(s: string, i: nat, j: nat)
    requires i <= j <= |s| && AllDigits(s[..j])
    ensures AllDigits(s[..i]) && DecimalValue(s[..i]) <= DecimalValue(s[..j])
  {
    assert s[..j][..i] == s[..i];
    if i < j {
      assert s[..j][..j - 1] == s[..j - 1];
      DecimalValuePrefixMonotone(s, i, j - 1);
    }
  }

  /** `DigitRun` is exactly the index of the first non-digit. */
  lemma {:induction false} DigitRunIs(s: string, k: nat)
    requires k <= |s| && AllDigits(s[..k])
    requires k < |s| ==> !IsDigit(s[k])
    ensures DigitRun(s) == k
  {
    if k > 0 {
      assert s[1..][..k - 1] == s[1..k];
      assert IsDigit(s[..k][0]);
      DigitRunIs(s[1..], k - 1);
    }
  }

  /** A prefix of digits is no longer than the digit run. */
  lemma {:induction false} DigitRunAtLeast(s: string, k: nat)
    requires k <= |s| && AllDigits(s[..k])
    ensures k <= DigitRun(s)
  {
    if k > 0 {
      assert IsDigit(s[..k][0]);
      assert s[1..][..k - 1] == s[1..k];
      DigitRunAtLeast(s[1..], k - 1);
    }
  }

  /** The parser of cmd/kaspawallet/main.go:71, written as Go's strconv
      writes it: one pass over the bytes, rejecting non-digits and stopping
      at the first digit whose multiplication or addition would overflow. */
  method ParseUint(s: string) returns (r: ParseResult)
    ensures r == ParseUintSpec(s)
  {
    if s == [] {
      return Failed(NumError("ParseUint", s, ErrSyntax));
    }
    var maxVal := MaxUint64;
    var n: int := 0;
    var i := 0;
    while i < |s|
      invariant 0 <= i <= |s| && AllDigits(s[..i])
      invariant n == DecimalValue(s[..i]) && n <= MaxUint64
    {
      var c := s[i];
      if !IsDigit(c) {
        DigitRunIs(s, i);
        return Failed(NumError("ParseUint", s, ErrSyntax));
      }
      var d := DigitValue(c);
      assert s[..i + 1][..i] == s[..i];
      assert AllDigits(s[..i + 1]);
      if n >= Cutoff10 {
        // n*10 overflows
        DigitRunAtLeast(s, i + 1);
        DecimalValuePrefixMonotone(s, i + 1, DigitRun(s));
        return Failed(NumError("ParseUint", s, ErrRange));
      }
      var m := n * 10;
      var n1 := (m + d) % TwoTo64;    // uint64 addition wraps
      if n1 < m || n1 > maxVal {
        // n+d overflows
        DigitRunAtLeast(s, i + 1);
        DecimalValuePrefixMonotone(s, i + 1, DigitRun(s));
        return Failed(NumError("ParseUint", s, ErrRange));
      }
      n := n1;
      i := i + 1;
    }
    assert s[..i] == s;
    DigitRunIs(s, |s|);
    return Parsed(n as uint64);
  }

  /** Go's `strconv.FormatUint(n, 10)`: the shortest decimal numeral. */
  function FormatUint(n: nat): (s: string)
    ensures s != [] && AllDigits(s)
  {
    var last := ['0' + (n % 10) as char];
    if n < 10 then last else FormatUint(n / 10) + last
  }

  lemma {:induction false} FormatUintValue(n: nat)
    ensures DecimalValue(FormatUint(n)) == n
  {
    var s := FormatUint(n);
    if n >= 10 {
      assert s[..|s| - 1] == FormatUint(n / 10);
      FormatUintValue(n / 10);
    }
  }

  /** The parser accepts exactly the non-empty ASCII digit strings, with no
      sign, whose value fits in 64 bits, and then returns that value. */
  lemma ParseUintAccepts(s: string)
    ensures ParseUintSpec(s).Parsed? <==> s != [] && AllDigits(s) && DecimalValue(s) <= MaxUint64
    ensures ParseUintSpec(s).Parsed? ==> ParseUintSpec(s).value as int == DecimalValue(s)
  {
    if s != [] && AllDigits(s) {
      DigitRunIs(s, |s|);
      assert s[..|s|] == s;
    }
  }

  /** Any 64-bit value survives formatting and parsing back. */
  lemma ParseFormatRoundTrip(n: uint64)
    ensures ParseUintSpec(FormatUint(n as nat)) == Parsed(n)
  {
    FormatUintValue(n as nat);
    ParseUintAccepts(FormatUint(n as nat));
  }

  /** An overflow is reported as ErrRange even when a non-digit follows it,
      because the overflow check runs before the next byte is read. */
  lemma {:induction false} RangeBeforeSyntax(s: string, k: nat)
    requires k <= |s| && AllDigits(s[..k]) && DecimalValue(s[..k]) > MaxUint64
    ensures ParseUintSpec(s) == Failed(NumError("ParseUint", s, ErrRange))
  {
    DigitRunAtLeast(s, k);
    DecimalValuePrefixMonotone(s, k, DigitRun(s));
  }
}
