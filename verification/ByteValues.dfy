/** Bytes as numbers: a byte is put together from the binary digits of its value. */
module ByteValues {
  import opened Directory

  type Byte = bv8

  function BitIf(on: bool, bit: Byte): Byte {
    if on then bit else 0
  }

  function WeightIf(on: bool, weight: int): int {
    if on then weight else 0
  }

  function ByteOf(x: Octet): Byte {
    BitIf(x / 128 % 2 == 1, 0x80) | BitIf(x / 64 % 2 == 1, 0x40) | BitIf(x / 32 % 2 == 1, 0x20)
    | BitIf(x / 16 % 2 == 1, 0x10) | BitIf(x / 8 % 2 == 1, 0x08) | BitIf(x / 4 % 2 == 1, 0x04)
    | BitIf(x / 2 % 2 == 1, 0x02) | BitIf(x % 2 == 1, 0x01)
  }

  function SumOfBits(b: Byte): int {
    WeightIf(b & 0x80 != 0, 128) + WeightIf(b & 0x40 != 0, 64) + WeightIf(b & 0x20 != 0, 32)
    + WeightIf(b & 0x10 != 0, 16) + WeightIf(b & 0x08 != 0, 8) + WeightIf(b & 0x04 != 0, 4)
    + WeightIf(b & 0x02 != 0, 2) + WeightIf(b & 0x01 != 0, 1)
  }

  lemma ValueIsSumOfBits(b: Byte)
    ensures SumOfBits(b) == b as int
  {
  }

  lemma BitsStand(a: bool, b: bool, c: bool, d: bool, e: bool, f: bool, g: bool, h: bool)
    ensures var x := BitIf(a, 0x80) | BitIf(b, 0x40) | BitIf(c, 0x20) | BitIf(d, 0x10)
                     | BitIf(e, 0x08) | BitIf(f, 0x04) | BitIf(g, 0x02) | BitIf(h, 0x01);
            && (x & 0x80 != 0 <==> a) && (x & 0x40 != 0 <==> b) && (x & 0x20 != 0 <==> c) && (x & 0x10 != 0 <==> d)
            && (x & 0x08 != 0 <==> e) && (x & 0x04 != 0 <==> f) && (x & 0x02 != 0 <==> g) && (x & 0x01 != 0 <==> h)
  {
  }

  lemma Halves(x: int)
    ensures x == 2 * (x / 2) + x % 2
  {
  }

  lemma HalfOf(x: nat, m: nat)
    requires m in {2, 4, 8, 16, 32, 64}
    ensures x / m / 2 == x / (2 * m)
  {
  }

  lemma Digit(a: int, m: int)
    ensures WeightIf(a % 2 == 1, m) == a % 2 * m
  {
  }

  lemma DigitsAddUp(a: int, b: int, c: int, d: int, e: int, f: int, g: int, h: int)
    requires 0 <= h < 2 && a == 2 * b + a % 2 && b == 2 * c + b % 2 && c == 2 * d + c % 2 && d == 2 * e + d % 2
    requires e == 2 * f + e % 2 && f == 2 * g + f % 2 && g == 2 * h + g % 2
    ensures WeightIf(h % 2 == 1, 128) + WeightIf(g % 2 == 1, 64) + WeightIf(f % 2 == 1, 32) + WeightIf(e % 2 == 1, 16)
            + WeightIf(d % 2 == 1, 8) + WeightIf(c % 2 == 1, 4) + WeightIf(b % 2 == 1, 2) + WeightIf(a % 2 == 1, 1) == a
  {
    Digit(a, 1);
    Digit(b, 2);
    Digit(c, 4);
    Digit(d, 8);
    Digit(e, 16);
    Digit(f, 32);
    Digit(g, 64);
    Digit(h, 128);
    hide WeightIf;
    assert h % 2 == h;
  }

  lemma BinaryDigits(x: Octet)
    ensures WeightIf(x / 128 % 2 == 1, 128) + WeightIf(x / 64 % 2 == 1, 64) + WeightIf(x / 32 % 2 == 1, 32)
            + WeightIf(x / 16 % 2 == 1, 16) + WeightIf(x / 8 % 2 == 1, 8) + WeightIf(x / 4 % 2 == 1, 4)
            + WeightIf(x / 2 % 2 == 1, 2) + WeightIf(x % 2 == 1, 1) == x
  {
    HalfOf(x, 2);
    HalfOf(x, 4);
    HalfOf(x, 8);
    HalfOf(x, 16);
    HalfOf(x, 32);
    HalfOf(x, 64);
    Halves(x);
    Halves(x / 2);
    Halves(x / 4);
    Halves(x / 8);
    Halves(x / 16);
    Halves(x / 32);
    Halves(x / 64);
    assert x / 128 < 2;
    DigitsAddUp(x, x / 2, x / 4, x / 8, x / 16, x / 32, x / 64, x / 128);
  }

  /** The byte of a value has that value. */
  lemma ByteHasValue(x: Octet)
    ensures ByteOf(x) as int == x
  {
    BitsStand(x / 128 % 2 == 1, x / 64 % 2 == 1, x / 32 % 2 == 1, x / 16 % 2 == 1,
              x / 8 % 2 == 1, x / 4 % 2 == 1, x / 2 % 2 == 1, x % 2 == 1);
    BinaryDigits(x);
    ValueIsSumOfBits(ByteOf(x));
    hide BitIf, WeightIf;
  }
}
