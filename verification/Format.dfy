/** Zero-padded decimal rendering, as used by turn ids and decision ids. */
module Format {

  predicate IsDigit(c: char) {
    '0' <= c <= '9'
  }

  function Digit(d: nat): (c: char)
    requires d < 10
    ensures IsDigit(c) && DigitValue(c) == d
  {
    ('0' as int + d) as char
  }

  function DigitValue(c: char): (d: nat)
    requires IsDigit(c)
  {
    c as int - '0' as int
  }

  /** The shortest decimal rendering of a natural number. */
  function Decimal(n: nat): string {
    if n < 10 then [Digit(n)] else Decimal(n / 10) + [Digit(n % 10)]
  }

  /** The rendering padded on the left with zeros to width four: `{n:04d}`. */
  function Pad4(n: nat): string {
    Zeros(4 - |Decimal(n)|) + Decimal(n)
  }

  function Zeros(count: int): (s: string) {
    if count <= 0 then "" else Zeros(count - 1) + "0"
  }

  ghost predicate AllDigits(s: string) {
    forall i :: 0 <= i < |s| ==> IsDigit(s[i])
  }

  /** Reading a digit string back. */
  ghost function Parse(s: string): nat
    requires AllDigits(s)
  {
    if s == "" then 0 else 10 * Parse(s[..|s| - 1]) + DigitValue(s[|s| - 1])
  }

  lemma {:induction false} ParseZeros(count: int)
    ensures AllDigits(Zeros(count)) && Parse(Zeros(count)) == 0
  {
    if count > 0 {
      ParseZeros(count - 1);
      assert Zeros(count)[..|Zeros(count)| - 1] == Zeros(count - 1);
    }
  }

  lemma {:induction false} ParsePaddedDecimal(zeros: int, n: nat)
    ensures AllDigits(Zeros(zeros) + Decimal(n))
    ensures Parse(Zeros(zeros) + Decimal(n)) == n
  {
    var z := Zeros(zeros);
    ParseZeros(zeros);
    if n < 10 {
      assert (z + Decimal(n))[..|z|] == z;
    } else {
      ParsePaddedDecimal(zeros, n / 10);
      assert (z + Decimal(n))[..|z + Decimal(n)| - 1] == z + Decimal(n / 10);
    }
  }

  /** Reading back a padded number gives the number: no two numbers share a rendering, at any
      width, including those past the padding. */
  lemma Pad4RoundTrip(n: nat)
    ensures AllDigits(Pad4(n)) && Parse(Pad4(n)) == n
  {
    ParsePaddedDecimal(4 - |Decimal(n)|, n);
  }

  lemma Pad4Injective(a: nat, b: nat)
    requires Pad4(a) == Pad4(b)
    ensures a == b
  {
    Pad4RoundTrip(a);
    Pad4RoundTrip(b);
  }
}
