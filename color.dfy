/**
 * The 24-bit colour blend used for the visualizer bars (lerpColor in
 * src/components/MainCanvas.tsx). JavaScript's bitwise operators work on
 * 32-bit two's-complement integers; this module writes that conversion out
 * (ToInt32, ToUint32), models `<<` and `|` on them, and proves that on
 * byte-sized channels the pack is plain arithmetic.
 */
module Color {

  const TWO32: int := 0x1_0000_0000
  const TWO31: int := 0x8000_0000

  /** 2 to the n. */
  function Pow2(n: nat): (r: nat)
    ensures r >= 1
  {
    if n == 0 then 1 else 2 * Pow2(n - 1)
  }

  /** JavaScript's ToUint32 on an integer-valued number. */
  function ToUint32(x: int): (r: int)
    ensures 0 <= r < TWO32
  {
    x % TWO32
  }

  /** JavaScript's ToInt32 on an integer-valued number. */
  function ToInt32(x: int): (r: int)
    ensures -TWO31 <= r < TWO31
  {
    var u := ToUint32(x);
    if u < TWO31 then u else u - TWO32
  }

  /** Bitwise OR of two naturals, bit by bit from the least significant one. */
  function OrNat(a: nat, b: nat): nat
    decreases a + b
  {
    if a == 0 then b
    else if b == 0 then a
    else 2 * OrNat(a / 2, b / 2) + (if a % 2 == 1 || b % 2 == 1 then 1 else 0)
  }

  /** `x << n` in JavaScript: shift the 32-bit pattern, read it back as signed. */
  function ShiftLeft(x: int, n: nat): int
    requires n < 32
  {
    ToInt32(ToUint32(x) * Pow2(n))
  }

  /** `x >> n` in JavaScript: the arithmetic shift is a floor division. */
  function ShiftRight(x: int, n: nat): int
    requires n < 32
  {
    ToInt32(x) / Pow2(n)
  }

  /** `x | y` in JavaScript. */
  function BitOr(x: int, y: int): int
  {
    ToInt32(OrNat(ToUint32(x), ToUint32(y)))
  }

  /** `x & 0xff` in JavaScript: the low byte of the two's-complement pattern. */
  function LowByte(x: int): (r: int)
    ensures 0 <= r < 256
  {
    ToInt32(x) % 256
  }

  /** `Math.round`: halves round towards positive infinity. */
  function Round(x: real): (r: int)
    ensures x - 0.5 < r as real <= x + 0.5
  {
    (x + 0.5).Floor
  }

  predicate IsColor24(c: int)
  {
    0 <= c < 0x100_0000
  }

  function Red(c: int): (r: int)
    ensures 0 <= r < 256
  {
    LowByte(ShiftRight(c, 16))
  }

  function Green(c: int): (r: int)
    ensures 0 <= r < 256
  {
    LowByte(ShiftRight(c, 8))
  }

  function Blue(c: int): (r: int)
    ensures 0 <= r < 256
  {
    LowByte(c)
  }

  /** `(r << 16) | (g << 8) | b`, associated to the left as JavaScript parses it. */
  function Pack(r: int, g: int, b: int): int
  {
    BitOr(BitOr(ShiftLeft(r, 16), ShiftLeft(g, 8)), b)
  }

  /** One channel of the blend: `Math.round(v1 + (v2 - v1) * t)`. */
  function Mix(v1: int, v2: int, t: real): int
  {
    Round(v1 as real + (v2 - v1) as real * t)
  }

  /** lerpColor(c1, c2, t). */
  function LerpColor(c1: int, c2: int, t: real): int
  {
    Pack(Mix(Red(c1), Red(c2), t), Mix(Green(c1), Green(c2), t), Mix(Blue(c1), Blue(c2), t))
  }

  // ---------------------------------------------------------------------
  // Arithmetic facts about the 32-bit helpers

  /** Both conversions wrap around: they change their argument by a multiple of 2^32. */
  lemma Wraps(x: int)
    ensures (ToUint32(x) - x) % TWO32 == 0
    ensures (ToInt32(x) - x) % TWO32 == 0
  {
    var q := x / TWO32;
    assert x == q * TWO32 + ToUint32(x);
    assert ToUint32(x) - x == (-q) * TWO32;
    if ToUint32(x) >= TWO31 {
      assert ToInt32(x) - x == (-q - 1) * TWO32;
    }
  }

  lemma SmallInt32(x: int)
    requires 0 <= x < TWO31
    ensures ToUint32(x) == x && ToInt32(x) == x
  {
  }

  lemma Pow2Values()
    ensures Pow2(8) == 256 && Pow2(16) == 65536
  {
    assert Pow2(4) == 16;
    assert Pow2(8) == 256;
    assert Pow2(12) == 4096;
  }

  /** OR of a multiple of 2^k with a number below 2^k is their sum: the bits do not overlap. */
  lemma {:induction false} OrDisjoint(m: nat, b: nat, k: nat)
    requires b < Pow2(k)
    ensures OrNat(m * Pow2(k), b) == m * Pow2(k) + b
    decreases k
  {
    var a := m * Pow2(k);
    if a != 0 && b != 0 {
      assert k > 0;
      var h := m * Pow2(k - 1);
      assert a == 2 * h;
      assert a / 2 == h && a % 2 == 0;
      OrDisjoint(m, b / 2, k - 1);
      assert OrNat(a, b) == 2 * OrNat(h, b / 2) + b % 2;
    }
  }

  lemma ShiftByte(v: int, n: nat)
    requires 0 <= v < 256 && (n == 8 || n == 16)
    ensures ShiftLeft(v, n) == v * Pow2(n)
  {
    Pow2Values();
    SmallInt32(v);
    assert v * Pow2(n) <= 255 * 65536;
    SmallInt32(v * Pow2(n));
  }

  /** The first OR of the pack, (r << 16) | (g << 8), on two bytes. */
  lemma PackHigh(r: int, g: int)
    requires 0 <= r < 256 && 0 <= g < 256
    ensures BitOr(ShiftLeft(r, 16), ShiftLeft(g, 8)) == r * 65536 + g * 256
  {
    Pow2Values();
    ShiftByte(r, 16);
    ShiftByte(g, 8);
    OrDisjoint(r, g * 256, 16);
    SmallInt32(r * 65536);
    SmallInt32(g * 256);
    SmallInt32(r * 65536 + g * 256);
  }

  /** On three bytes the JavaScript pack is r * 65536 + g * 256 + b. */
  lemma PackBytes(r: int, g: int, b: int)
    requires 0 <= r < 256 && 0 <= g < 256 && 0 <= b < 256
    ensures Pack(r, g, b) == r * 65536 + g * 256 + b
  {
    var hi := r * 65536 + g * 256;
    PackHigh(r, g);
    assert Pack(r, g, b) == BitOr(hi, b);
    Pow2Values();
    var m := r * 256 + g;
    assert m * Pow2(8) == hi;
    OrDisjoint(m, b, 8);
    SmallInt32(hi);
    SmallInt32(b);
    assert BitOr(hi, b) == ToInt32(OrNat(hi, b));
    SmallInt32(hi + b);
  }

  /** The channel getters read back the bytes of a packed colour. */
  lemma ChannelsOfBytes(r: int, g: int, b: int)
    requires 0 <= r < 256 && 0 <= g < 256 && 0 <= b < 256
    ensures Red(r * 65536 + g * 256 + b) == r
    ensures Green(r * 65536 + g * 256 + b) == g
    ensures Blue(r * 65536 + g * 256 + b) == b
  {
    var c := r * 65536 + g * 256 + b;
    Pow2Values();
    SmallInt32(c);
    assert c / 65536 == r;
    SmallInt32(r);
    assert c / 256 == r * 256 + g;
    SmallInt32(r * 256 + g);
    assert (r * 256 + g) % 256 == g;
    assert c % 256 == b;
  }

  /** Every 24-bit colour is the pack of its own channels. */
  lemma ChannelsRecompose(c: int)
    requires IsColor24(c)
    ensures c == Red(c) * 65536 + Green(c) * 256 + Blue(c)
  {
    Pow2Values();
    SmallInt32(c);
    var r, rest := c / 65536, c % 65536;
    assert c == r * 65536 + rest;
    assert r < 256;
    SmallInt32(r);
    assert Red(c) == r;
    var g, b := rest / 256, rest % 256;
    assert rest == g * 256 + b;
    assert c / 256 == r * 256 + g;
    SmallInt32(r * 256 + g);
    assert Green(c) == g;
    assert Blue(c) == b;
  }

  // ---------------------------------------------------------------------
  // Properties of the blend

  /** A rounded blend of two integers never leaves the interval they span. */
  lemma MixBetween(v1: int, v2: int, t: real)
    requires 0.0 <= t <= 1.0
    ensures v1 <= v2 ==> v1 <= Mix(v1, v2, t) <= v2
    ensures v2 <= v1 ==> v2 <= Mix(v1, v2, t) <= v1
  {
    var x := v1 as real + (v2 - v1) as real * t;
    if v1 <= v2 {
      assert (v2 - v1) as real * t <= (v2 - v1) as real;
      assert v1 as real <= x <= v2 as real;
    } else {
      assert (v1 - v2) as real * t <= (v1 - v2) as real;
      assert v2 as real <= x <= v1 as real;
    }
  }

  /** Each channel follows t monotonically, in the direction from c1's channel to c2's. */
  lemma MixMonotone(v1: int, v2: int, t1: real, t2: real)
    requires t1 <= t2
    ensures v1 <= v2 ==> Mix(v1, v2, t1) <= Mix(v1, v2, t2)
    ensures v2 <= v1 ==> Mix(v1, v2, t2) <= Mix(v1, v2, t1)
  {
    var d := (v2 - v1) as real;
    if v1 <= v2 {
      assert d * t1 <= d * t2;
    } else {
      assert d * t2 <= d * t1;
    }
  }

  /** lerpColor at t = 0 is its first colour and at t = 1 its second. */
  lemma LerpColorEndpoints(c1: int, c2: int)
    requires IsColor24(c1) && IsColor24(c2)
    ensures LerpColor(c1, c2, 0.0) == c1
    ensures LerpColor(c1, c2, 1.0) == c2
  {
    assert Mix(Red(c1), Red(c2), 0.0) == Red(c1);
    assert Mix(Green(c1), Green(c2), 0.0) == Green(c1);
    assert Mix(Blue(c1), Blue(c2), 0.0) == Blue(c1);
    PackBytes(Red(c1), Green(c1), Blue(c1));
    ChannelsRecompose(c1);
    assert Mix(Red(c1), Red(c2), 1.0) == Red(c2);
    assert Mix(Green(c1), Green(c2), 1.0) == Green(c2);
    assert Mix(Blue(c1), Blue(c2), 1.0) == Blue(c2);
    PackBytes(Red(c2), Green(c2), Blue(c2));
    ChannelsRecompose(c2);
  }

  /** The channel of the blend lies between the endpoint channels. */
  predicate Between(v: int, a: int, b: int)
  {
    (a <= v <= b) || (b <= v <= a)
  }

  /** For t in [0, 1] the blend is the plain arithmetic pack of the three rounded channel blends. */
  lemma LerpColorValue(c1: int, c2: int, t: real)
    requires 0.0 <= t <= 1.0
    ensures 0 <= Mix(Red(c1), Red(c2), t) < 256
    ensures 0 <= Mix(Green(c1), Green(c2), t) < 256
    ensures 0 <= Mix(Blue(c1), Blue(c2), t) < 256
    ensures LerpColor(c1, c2, t) ==
      Mix(Red(c1), Red(c2), t) * 65536 + Mix(Green(c1), Green(c2), t) * 256 + Mix(Blue(c1), Blue(c2), t)
  {
    MixBetween(Red(c1), Red(c2), t);
    MixBetween(Green(c1), Green(c2), t);
    MixBetween(Blue(c1), Blue(c2), t);
    PackBytes(Mix(Red(c1), Red(c2), t), Mix(Green(c1), Green(c2), t), Mix(Blue(c1), Blue(c2), t));
  }

  /** The channels of the blend are the rounded blends of the channels. */
  lemma ChannelsAt(c1: int, c2: int, t: real)
    requires 0.0 <= t <= 1.0
    ensures Red(LerpColor(c1, c2, t)) == Mix(Red(c1), Red(c2), t)
    ensures Green(LerpColor(c1, c2, t)) == Mix(Green(c1), Green(c2), t)
    ensures Blue(LerpColor(c1, c2, t)) == Mix(Blue(c1), Blue(c2), t)
  {
    LerpColorValue(c1, c2, t);
    ChannelsOfBytes(Mix(Red(c1), Red(c2), t), Mix(Green(c1), Green(c2), t), Mix(Blue(c1), Blue(c2), t));
  }

  /**
   * For t in [0, 1] the blend is a valid 24-bit colour, and each of its
   * channels lies between the two endpoint channels.
   */
  lemma LerpColorChannels(c1: int, c2: int, t: real)
    requires 0.0 <= t <= 1.0
    ensures IsColor24(LerpColor(c1, c2, t))
    ensures Between(Red(LerpColor(c1, c2, t)), Red(c1), Red(c2))
    ensures Between(Green(LerpColor(c1, c2, t)), Green(c1), Green(c2))
    ensures Between(Blue(LerpColor(c1, c2, t)), Blue(c1), Blue(c2))
  {
    LerpColorValue(c1, c2, t);
    ChannelsAt(c1, c2, t);
    MixBetween(Red(c1), Red(c2), t);
    MixBetween(Green(c1), Green(c2), t);
    MixBetween(Blue(c1), Blue(c2), t);
  }

  /** Between t1 <= t2 in [0, 1], every channel of the blend moves towards c2's channel. */
  lemma LerpColorMonotone(c1: int, c2: int, t1: real, t2: real)
    requires 0.0 <= t1 <= t2 <= 1.0
    ensures Red(c1) <= Red(c2) ==> Red(LerpColor(c1, c2, t1)) <= Red(LerpColor(c1, c2, t2))
    ensures Red(c2) <= Red(c1) ==> Red(LerpColor(c1, c2, t2)) <= Red(LerpColor(c1, c2, t1))
    ensures Green(c1) <= Green(c2) ==> Green(LerpColor(c1, c2, t1)) <= Green(LerpColor(c1, c2, t2))
    ensures Green(c2) <= Green(c1) ==> Green(LerpColor(c1, c2, t2)) <= Green(LerpColor(c1, c2, t1))
    ensures Blue(c1) <= Blue(c2) ==> Blue(LerpColor(c1, c2, t1)) <= Blue(LerpColor(c1, c2, t2))
    ensures Blue(c2) <= Blue(c1) ==> Blue(LerpColor(c1, c2, t2)) <= Blue(LerpColor(c1, c2, t1))
  {
    ChannelsAt(c1, c2, t1);
    ChannelsAt(c1, c2, t2);
    MixMonotone(Red(c1), Red(c2), t1, t2);
    MixMonotone(Green(c1), Green(c2), t1, t2);
    MixMonotone(Blue(c1), Blue(c2), t1, t2);
  }
}
