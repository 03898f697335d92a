/**
 Fixed-width, prefixed identifiers such as `ART0001`, `M01`, `O00001`,
 `OL000001`, `S000001` and `R000001`, and the decimal text `str(n)` used for
 the client tax number. An identifier is a prefix followed by the decimal
 digits of a number, left-padded with zeros to a minimum width (a wider
 number keeps all of its digits). Parsing such an identifier back gives the
 number, so identifiers of one table are unique exactly when their numbers are.
 */
module Ids {

  datatype Option<T> = None | Some(value: T)

  predicate IsDigit(c: char) {
    '0' <= c <= '9'
  }

  predicate IsDigits(s: string) {
    forall i :: 0 <= i < |s| ==> IsDigit(s[i])
  }

  function DigitChar(d: nat): (c: char)
    requires d < 10
    ensures IsDigit(c) && c as int - '0' as int == d
  {
    ('0' as int + d) as char
  }

  function DigitValue(c: char): nat
    requires IsDigit(c)
  {
    c as int - '0' as int
  }

  /** The decimal text of `n` without leading zeros, as `str(n)` gives it. */
  function Decimal(n: nat): (s: string)
    ensures 1 <= |s|
  {
    if n < 10 then [DigitChar(n)] else Decimal(n / 10) + [DigitChar(n % 10)]
  }

  /** The number a digit string denotes; leading zeros do not matter. */
  function DecimalValue(s: string): nat
    requires IsDigits(s)
  {
    if |s| == 0 then 0 else DecimalValue(s[..|s| - 1]) * 10 + DigitValue(s[|s| - 1])
  }

  function Zeros(k: nat): (z: string)
    ensures |z| == k && IsDigits(z)
  {
    seq(k, _ => '0')
  }

  /** Format specification `{n:0wd}`: zero-padded to at least `width` characters. */
  function ZeroPad(n: nat, width: nat): (s: string)
    ensures |s| == if |Decimal(n)| < width then width else |Decimal(n)|
  {
    var d := Decimal(n);
    if |d| < width then Zeros(width - |d|) + d else d
  }

  /** An identifier `prefix` + `{n:0wd}`. */
  function FormatId(prefix: string, n: nat, width: nat): string {
    prefix + ZeroPad(n, width)
  }

  /** Reads back the number of an identifier that starts with `prefix`. */
  function ParseId(prefix: string, id: string): Option<nat> {
    if |prefix| < |id| && id[..|prefix|] == prefix && IsDigits(id[|prefix|..])
    then Some(DecimalValue(id[|prefix|..]))
    else None
  }

  lemma {:induction false} DecimalRoundTrip(n: nat)
    ensures IsDigits(Decimal(n)) && DecimalValue(Decimal(n)) == n
  {
    if n >= 10 {
      DecimalRoundTrip(n / 10);
      var s := Decimal(n);
      assert s[..|s| - 1] == Decimal(n / 10);
    }
  }

  /** Every decimal text reads back as its own number. */
  lemma DecimalsParse()
    ensures forall n: nat {:trigger Decimal(n)} :: IsDigits(Decimal(n)) && DecimalValue(Decimal(n)) == n
  {
    forall n: nat ensures IsDigits(Decimal(n)) && DecimalValue(Decimal(n)) == n {
      DecimalRoundTrip(n);
    }
  }

  lemma {:induction false} ZerosValue(k: nat)
    ensures DecimalValue(Zeros(k)) == 0
  {
    if k > 0 {
      assert Zeros(k)[..k - 1] == Zeros(k - 1);
      ZerosValue(k - 1);
    }
  }

  lemma {:induction false} LeadingZerosValue(k: nat, s: string)
    requires IsDigits(s)
    ensures IsDigits(Zeros(k) + s) && DecimalValue(Zeros(k) + s) == DecimalValue(s)
  {
    if |s| == 0 {
      assert Zeros(k) + s == Zeros(k);
      ZerosValue(k);
    } else {
      var t := Zeros(k) + s;
      assert t[..|t| - 1] == Zeros(k) + s[..|s| - 1];
      LeadingZerosValue(k, s[..|s| - 1]);
    }
  }

  /** Padding changes the text, never the number it denotes. */
  lemma ZeroPadValue(n: nat, width: nat)
    ensures IsDigits(ZeroPad(n, width)) && DecimalValue(ZeroPad(n, width)) == n
  {
    DecimalRoundTrip(n);
    var d := Decimal(n);
    if |d| < width {
      LeadingZerosValue(width - |d|, d);
    }
  }

  /** Parsing a formatted identifier gives back its number. */
  lemma ParseFormatId(prefix: string, n: nat, width: nat)
    ensures ParseId(prefix, FormatId(prefix, n, width)) == Some(n)
  {
    ZeroPadValue(n, width);
    var id := FormatId(prefix, n, width);
    assert id[..|prefix|] == prefix;
    assert id[|prefix|..] == ZeroPad(n, width);
  }

  /** Two identifiers of one table coincide exactly when their numbers do. */
  lemma FormatIdInjective(prefix: string, a: nat, b: nat, width: nat)
    ensures FormatId(prefix, a, width) == FormatId(prefix, b, width) <==> a == b
  {
    ParseFormatId(prefix, a, width);
    ParseFormatId(prefix, b, width);
  }
}
