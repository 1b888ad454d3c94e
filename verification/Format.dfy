/** The number formats that map keys are made of. */
module Format {

  type Byte = n: nat | n < 256

  const HEX_DIGITS := "0123456789abcdef"

  predicate IsDigit(c: char) { '0' <= c <= '9' }

  function Digit(n: nat): (c: char)
    requires n < 10
    ensures IsDigit(c) && c as int == '0' as int + n
  {
    ('0' as int + n) as char
  }

  /** A number in decimal, as `%d` renders it. */
  function Decimal(n: nat): (s: string)
    ensures s != []
    ensures forall c | c in s :: IsDigit(c)
  {
    if n < 10 then [Digit(n)] else Decimal(n / 10) + [Digit(n % 10)]
  }

  function ParseDecimal(s: string): nat
    requires forall c | c in s :: IsDigit(c)
  {
    if s == [] then 0
    else
      assert IsDigit(s[|s| - 1]);
      10 * ParseDecimal(s[..|s| - 1]) + (s[|s| - 1] as int - '0' as int)
  }

  lemma {:induction false} DecimalRoundTrip(n: nat)
    ensures ParseDecimal(Decimal(n)) == n
  {
    var s := Decimal(n);
    if n >= 10 {
      DecimalRoundTrip(n / 10);
      assert s[..|s| - 1] == Decimal(n / 10);
    } else {
      assert s[..0] == [];
    }
  }

  lemma DecimalInjective(a: nat, b: nat)
    requires Decimal(a) == Decimal(b)
    ensures a == b
  {
    DecimalRoundTrip(a);
    DecimalRoundTrip(b);
  }

  function HexDigit(n: nat): char
    requires n < 16
  {
    HEX_DIGITS[n]
  }

  lemma HexDigitInjective(a: nat, b: nat)
    requires a < 16 && b < 16 && HexDigit(a) == HexDigit(b)
    ensures a == b
  {
  }

  /** Bytes in hexadecimal, as `%x` renders them. */
  function Hex(bs: seq<Byte>): (s: string)
    ensures |s| == 2 * |bs|
  {
    if bs == [] then "" else [HexDigit(bs[0] / 16), HexDigit(bs[0] % 16)] + Hex(bs[1..])
  }

  lemma {:induction false} HexInjective(a: seq<Byte>, b: seq<Byte>)
    requires Hex(a) == Hex(b)
    ensures a == b
    decreases |a|
  {
    if a == [] {
      assert |Hex(b)| == 0;
    } else {
      assert |Hex(b)| == 2 * |a|;
      var s := Hex(a);
      assert s[0] == HexDigit(a[0] / 16) == HexDigit(b[0] / 16);
      assert s[1] == HexDigit(a[0] % 16) == HexDigit(b[0] % 16);
      HexDigitInjective(a[0] / 16, b[0] / 16);
      HexDigitInjective(a[0] % 16, b[0] % 16);
      assert s[2..] == Hex(a[1..]) && s[2..] == Hex(b[1..]);
      HexInjective(a[1..], b[1..]);
    }
  }

  lemma Regroup(a: string, b: string, c: string)
    ensures a + (b + c) == (a + b) + c
  {
  }
}
