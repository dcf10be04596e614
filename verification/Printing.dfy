/** Numbers and bytes printed as ASCII. */
module Printing {
  import opened Primitives

  /** Decimal digits, as `{}` prints an integer. */
  function Decimal(n: nat): (d: Bytes)
    ensures |d| > 0 && forall i :: 0 <= i < |d| ==> 48 <= d[i] <= 57
  {
    if n < 10 then [(48 + n) as Byte] else Decimal(n / 10) + [(48 + n % 10) as Byte]
  }

  lemma {:induction false} DecimalInjective(a: nat, b: nat)
    requires Decimal(a) == Decimal(b)
    ensures a == b
  {
    var x, y := Decimal(a), Decimal(b);
    assert x[|x| - 1] == (48 + a % 10) as Byte && y[|y| - 1] == (48 + b % 10) as Byte;
    assert (a >= 10 <==> |x| > 1) && (b >= 10 <==> |y| > 1);
    if a >= 10 {
      assert x[..|x| - 1] == Decimal(a / 10) && y[..|y| - 1] == Decimal(b / 10);
      DecimalInjective(a / 10, b / 10);
    }
  }

  /** One lower-case hexadecimal digit. */
  function Digit(n: nat): Byte
    requires n < 16
  {
    (if n < 10 then 48 + n else 87 + n) as Byte
  }

  predicate HexDigit(b: Byte) { 48 <= b <= 57 || 97 <= b <= 102 }

  function Hex(b: Bytes): (h: Bytes)
    ensures |h| == 2 * |b| && forall i :: 0 <= i < |h| ==> HexDigit(h[i])
  {
    if b == [] then [] else [Digit(b[0] as nat / 16), Digit(b[0] as nat % 16)] + Hex(b[1..])
  }

  lemma {:induction false} HexInjective(a: Bytes, b: Bytes)
    requires Hex(a) == Hex(b)
    ensures a == b
  {
    assert |a| == |b|;
    if a != [] {
      assert Hex(a)[0] == Hex(b)[0] && Hex(a)[1] == Hex(b)[1];
      assert a[0] as nat / 16 == b[0] as nat / 16 && a[0] as nat % 16 == b[0] as nat % 16;
      assert Hex(a)[2..] == Hex(a[1..]) && Hex(b)[2..] == Hex(b[1..]);
      HexInjective(a[1..], b[1..]);
      assert a == [a[0]] + a[1..] && b == [b[0]] + b[1..];
    }
  }

  lemma {:induction false} AsciiIsUtf8(b: Bytes)
    requires forall i :: 0 <= i < |b| ==> b[i] < 128
    ensures Utf8(b)
  {
    if b != [] {
      AsciiIsUtf8(b[1..]);
    }
  }
}
