/** Conversions between numbers and machine words, with the facts the solver needs about them. */
module Bits {

  const TWO16 := 0x1_0000
  const TWO32 := 0x1_0000_0000
  const TWO64 := 0x1_0000_0000_0000_0000

  lemma Increment(b: bv8)
    requires b != 0xFF
    ensures (b + 1) as int == b as int + 1
  {
  }

  lemma {:induction false} SomeByte(n: nat) returns (b: bv8)
    requires n < 256
    ensures b as int == n
  {
    if n == 0 {
      b := 0;
    } else {
      b := SomeByte(n - 1);
      Increment(b);
      b := b + 1;
    }
  }

  lemma ByteBack(b: bv8)
    ensures (b as int) as bv8 == b
  {
  }

  lemma ByteValue(n: nat)
    requires n < 256
    ensures (n as bv8) as int == n
  {
    var b := SomeByte(n);
    ByteBack(b);
  }

  /** A byte from its value. */
  function Byte(n: nat): (b: bv8)
    requires n < 256
    ensures b as int == n
  {
    ByteValue(n);
    n as bv8
  }

  lemma Join16(high: bv8, low: bv8)
    ensures (((high as bv16) << 8) | (low as bv16)) as int == 256 * (high as int) + (low as int)
  {
  }

  lemma Some16(n: nat) returns (w: bv16)
    requires n < TWO16
    ensures w as int == n
  {
    Join16(Byte(n / 256), Byte(n % 256));
    w := ((Byte(n / 256) as bv16) << 8) | (Byte(n % 256) as bv16);
  }

  lemma Back16(w: bv16)
    ensures (w as int) as bv16 == w
  {
  }

  lemma Value16(n: nat)
    requires n < TWO16
    ensures (n as bv16) as int == n
  {
    var w := Some16(n);
    Back16(w);
  }

  /** The number a sixteen-bit word stands for. */
  function Number16(w: bv16): (n: nat)
    ensures n < TWO16
  {
    w as int
  }

  /** static_cast<uint16_t>: the low sixteen bits of a number. */
  function Low16(n: nat): (w: bv16)
    ensures Number16(w) == n % TWO16
  {
    Value16(n % TWO16);
    (n % TWO16) as bv16
  }

  lemma Join32(high: bv16, low: bv16)
    ensures (((high as bv32) << 16) | (low as bv32)) as int == TWO16 * Number16(high) + Number16(low)
  {
  }

  lemma Joined(high: nat, low: nat) returns (w: bv32)
    requires high < TWO16 && low < TWO16
    ensures w as int == TWO16 * high + low
  {
    var h, l := Low16(high), Low16(low);
    assert Number16(h) == high && Number16(l) == low;
    hide Low16, Number16;
    Join32(h, l);
    w := ((h as bv32) << 16) | (l as bv32);
  }

  lemma Halves(n: nat)
    requires n < TWO32
    ensures n / TWO16 < TWO16 && n % TWO16 < TWO16 && n == TWO16 * (n / TWO16) + n % TWO16
  {
  }

  lemma Some32(n: nat) returns (w: bv32)
    requires n < TWO32
    ensures w as int == n
  {
    Halves(n);
    w := Joined(n / TWO16, n % TWO16);
  }

  lemma Back32(w: bv32)
    ensures (w as int) as bv32 == w
  {
  }

  lemma Value32(n: nat)
    requires n < TWO32
    ensures (n as bv32) as int == n
  {
    var w := Some32(n);
    Back32(w);
  }

  /** The low thirty-two bits of a number. */
  function Low32(n: nat): (w: bv32)
    ensures w as int == n % TWO32
  {
    Value32(n % TWO32);
    (n % TWO32) as bv32
  }
}
