/** The G.711 mu-law codec of audio.py, with Python's bit operations on unbounded
    integers. `~x` is -x - 1, a shift to the right rounds down, and `&` sees an infinite
    two's complement. */
module Ulaw {
  import opened Base

  const BIAS: int := 0x84
  const CLIP: int := 32635

  const SIGN_BIT: nat := 0x80
  const BYTE_MASK: nat := 0xFF
  const MANTISSA_MASK: nat := 0x0F
  const SEGMENT_MASK: nat := 0x07

  // ---- bit operations

  function Pow2(k: nat): (r: nat)
    ensures r > 0
  {
    if k == 0 then 1 else 2 * Pow2(k - 1)
  }

  function Shl(x: int, k: nat): int { x * Pow2(k) }

  function Shr(x: int, k: nat): int { x / Pow2(k) }

  function Not(x: int): int { -x - 1 }

  /** `x & m` for a non-negative m. */
  function And(x: int, m: nat): (r: nat)
    ensures r <= m
    decreases m
  {
    if m == 0 then 0 else (if x % 2 == 1 && m % 2 == 1 then 1 else 0) + 2 * And(x / 2, m / 2)
  }

  /** `x | y` for non-negative operands. */
  function Or(x: nat, y: nat): nat
    decreases x + y
  {
    if x == 0 then y
    else if y == 0 then x
    else (if x % 2 == 1 || y % 2 == 1 then 1 else 0) + 2 * Or(x / 2, y / 2)
  }

  lemma {:induction false} Halve(x: int, k: nat)
    ensures (x / 2) / Pow2(k) == x / Pow2(k + 1)
    decreases k
  {
    var d := Pow2(k);
    var q := x / (2 * d);
    var r := x % (2 * d);
    assert x == 2 * d * q + r;
    assert x / 2 == d * q + r / 2;
    assert 0 <= r / 2 < d;
    assert (x / 2) / d == q by { DivUnique(x / 2, d, q, r / 2); }
  }

  lemma DivUnique(x: int, d: int, q: int, r: int)
    requires d > 0 && x == d * q + r && 0 <= r < d
    ensures x / d == q && x % d == r
  {
    var q', r' := x / d, x % d;
    assert x == d * q' + r' && 0 <= r' < d;
    assert d * (q - q') == r' - r;
    assert q - q' >= 1 ==> d * (q - q') >= d;
    assert q - q' <= -1 ==> d * (q - q') <= -d;
  }

  /** A single-bit mask tests that bit. */
  lemma {:induction false} AndBit(x: int, k: nat)
    ensures And(x, Pow2(k)) == if (x / Pow2(k)) % 2 == 1 then Pow2(k) else 0
    decreases k
  {
    if k == 0 {
      assert And(x / 2, 0) == 0;
    } else {
      AndBit(x / 2, k - 1);
      Halve(x, k - 1);
      assert Pow2(k) / 2 == Pow2(k - 1) && Pow2(k) % 2 == 0;
    }
  }

  /** A mask of k ones takes the remainder modulo 2^k. */
  lemma {:induction false} AndOnes(x: int, k: nat)
    ensures And(x, Pow2(k) - 1) == x % Pow2(k)
    decreases k
  {
    if k > 0 {
      AndOnes(x / 2, k - 1);
      var d := Pow2(k - 1);
      assert (Pow2(k) - 1) / 2 == d - 1 && (Pow2(k) - 1) % 2 == 1;
      var q, r := (x / 2) / d, (x / 2) % d;
      assert x / 2 == d * q + r;
      assert x == 2 * (x / 2) + x % 2;
      assert x == (2 * d) * q + (2 * r + x % 2);
      DivUnique(x, 2 * d, q, 2 * r + x % 2);
    }
  }

  /** Fields that do not overlap are added by `|`. */
  lemma {:induction false} OrDisjoint(a: nat, b: nat, k: nat)
    requires b < Pow2(k)
    ensures Or(a * Pow2(k), b) == a * Pow2(k) + b
  {
    if k > 0 && a > 0 && b > 0 {
      var d := Pow2(k - 1);
      assert a * Pow2(k) == 2 * (a * d);
      assert (a * Pow2(k)) / 2 == a * d && (a * Pow2(k)) % 2 == 0;
      assert a * Pow2(k) > 0;
      OrDisjoint(a, b / 2, k - 1);
    } else if k == 0 {
      assert b == 0;
    } else if a == 0 {
      assert a * Pow2(k) == 0;
    }
  }

  lemma OrFields(a: nat, b: nat, k: nat, p: nat)
    requires p == Pow2(k) && b < p
    ensures Or(a * p, b) == a * p + b
  {
    OrDisjoint(a, b, k);
  }

  lemma Mask(x: int, k: nat, mask: nat)
    requires mask + 1 == Pow2(k)
    ensures And(x, mask) == x % (mask + 1)
  {
    AndOnes(x, k);
  }

  lemma Bit(x: int, k: nat, mask: nat)
    requires mask == Pow2(k)
    ensures And(x, mask) != 0 <==> (x / mask) % 2 == 1
  {
    AndBit(x, k);
  }

  lemma Powers()
    ensures Pow2(0) == 1 && Pow2(1) == 2 && Pow2(2) == 4 && Pow2(3) == 8 && Pow2(4) == 16 && Pow2(5) == 32
    ensures Pow2(6) == 64 && Pow2(7) == 128 && Pow2(8) == 256 && Pow2(9) == 512 && Pow2(10) == 1024
    ensures Pow2(11) == 2048 && Pow2(12) == 4096 && Pow2(13) == 8192 && Pow2(14) == 16384 && Pow2(15) == 32768
  {
    assert Pow2(4) == 16;
    assert Pow2(8) == 256;
    assert Pow2(12) == 4096;
  }

  // ---- the closed form

  /** Clipped and biased magnitude of a sample. */
  function Magnitude(s: int): (m: int)
    ensures BIAS <= m <= CLIP + BIAS
  {
    (if s < -CLIP || s > CLIP then CLIP else if s < 0 then -s else s) + BIAS
  }

  /** The segment of a biased magnitude: its highest bit, counted from bit 7. */
  function Segment(m: int): (e: nat)
    ensures e < 8
  {
    if m < 256 then 0 else if m < 512 then 1 else if m < 1024 then 2 else if m < 2048 then 3
    else if m < 4096 then 4 else if m < 8192 then 5 else if m < 16384 then 6 else 7
  }

  /** x * 2^e, for the exponents that occur. */
  function Scaled(e: nat, x: int): int {
    if e == 0 then x else if e == 1 then 2 * x else if e == 2 then 4 * x else if e == 3 then 8 * x
    else if e == 4 then 16 * x else if e == 5 then 32 * x else if e == 6 then 64 * x
    else if e == 7 then 128 * x else 256 * x
  }

  /** Which of the sixteen steps of its segment a magnitude is in. */
  function Step(m: int): int {
    if m < 256 then m / 8 - 16 else if m < 512 then m / 16 - 16 else if m < 1024 then m / 32 - 16
    else if m < 2048 then m / 64 - 16 else if m < 4096 then m / 128 - 16 else if m < 8192 then m / 256 - 16
    else if m < 16384 then m / 512 - 16 else m / 1024 - 16
  }

  /** Segment and step as one number from 0 to 127. */
  function Code(m: int): (k: nat)
    requires BIAS <= m <= CLIP + BIAS
    ensures k < 128 && k / 16 == Segment(m) && k % 16 == Step(m)
  {
    16 * Segment(m) + Step(m)
  }

  function Encode(s: int): byte { (if s < 0 then 127 else 255) - Code(Magnitude(s)) }

  /** The biased output level of a code. */
  function Level(k: nat): int { Scaled(k / 16, 8 * (k % 16) + 132) }

  function Decode(b: byte): int {
    if b < 128 then BIAS - Level(127 - b) else Level(255 - b) - BIAS
  }

  /** The smallest biased magnitude that gets a code; 32768 for the code past the last. */
  function Low(k: nat): int { Scaled(k / 16, 8 * (k % 16) + 128) }

  /** A segment's number is the unique one between its powers of two. */
  lemma SegmentUnique(m: int, e: nat)
    requires BIAS <= m <= CLIP + BIAS && e < 8
    ensures Segment(m) == e <==> Pow2(e + 7) <= m < Pow2(e + 8)
  {
    Powers();
  }

  lemma NextCode(k: nat)
    requires k < 128
    ensures Low(k + 1) == Scaled(k / 16, 8 * (k % 16) + 136)
  {
    var e, q := k / 16, k % 16;
    if q == 15 {
      assert (k + 1) / 16 == e + 1 && (k + 1) % 16 == 0;
    } else {
      assert (k + 1) / 16 == e && (k + 1) % 16 == q + 1;
    }
  }

  lemma CodeBounds(m: int)
    requires BIAS <= m <= CLIP + BIAS
    ensures Low(Code(m)) <= m < Low(Code(m) + 1)
  {
    NextCode(Code(m));
  }

  /** A level lies in its own interval, in the middle. */
  lemma LevelInInterval(k: nat)
    requires k < 128
    ensures Low(k) < Level(k) < Low(k + 1)
    ensures Level(k) == Low(k) + Scaled(k / 16, 4) && Low(k + 1) == Level(k) + Scaled(k / 16, 4)
    ensures BIAS <= Level(k) <= 32256 && Level(0) == BIAS && Level(127) == 32256
  {
    NextCode(k);
  }

  lemma {:induction false} LowIncreases(j: nat, k: nat)
    requires j <= k <= 128
    ensures Low(j) <= Low(k)
    decreases k - j
  {
    if j < k {
      LevelInInterval(j);
      LowIncreases(j + 1, k);
    }
  }

  lemma LevelIncreases(j: nat, k: nat)
    requires j < k < 128
    ensures Level(j) < Level(k)
  {
    LevelInInterval(j);
    LevelInInterval(k);
    LowIncreases(j + 1, k);
  }

  /** The code is the only one whose interval holds the magnitude. */
  lemma CodeUnique(m: int, k: nat)
    requires BIAS <= m <= CLIP + BIAS && k < 128 && Low(k) <= m < Low(k + 1)
    ensures Code(m) == k
  {
    CodeBounds(m);
    if Code(m) < k { LowIncreases(Code(m) + 1, k); }
    if Code(m) > k { LowIncreases(k + 1, Code(m)); }
  }

  lemma CodeIncreases(m: int, n: int)
    requires BIAS <= m <= n <= CLIP + BIAS
    ensures Code(m) <= Code(n)
  {
    CodeBounds(m);
    CodeBounds(n);
    if Code(m) > Code(n) { LowIncreases(Code(n) + 1, Code(m)); }
  }

  // ---- what the codec promises

  function Quantize(s: int): int { Decode(Encode(s)) }

  lemma QuantizeIs(s: int)
    ensures Quantize(s) == if s < 0 then BIAS - Level(Code(Magnitude(s))) else Level(Code(Magnitude(s))) - BIAS
  {}

  /** Up to the clip the segment is the unique e with 2^(e+7) <= |s|+132 < 2^(e+8), and
      the decoded value is off by at most 2^(e+2), that is by (|s|+132)/32. */
  lemma ErrorBound(s: int)
    requires -CLIP <= s <= CLIP
    ensures var e, a := Segment(Magnitude(s)), if s < 0 then -s else s;
      && Pow2(e + 7) <= a + BIAS < Pow2(e + 8)
      && Distance(Quantize(s), s) <= Pow2(e + 2)
      && 32 * Distance(Quantize(s), s) <= a + BIAS
  {
    var m := Magnitude(s);
    SegmentUnique(m, Segment(m));
    QuantizeError(s);
    HalfStep(m);
  }

  lemma QuantizeError(s: int)
    requires -CLIP <= s <= CLIP
    ensures Distance(Quantize(s), s) <= Scaled(Segment(Magnitude(s)), 4)
  {
    var m := Magnitude(s);
    CodeBounds(m);
    LevelInInterval(Code(m));
    QuantizeIs(s);
  }

  /** Half a step is 2^(e+2), a 32nd of the segment's lower end. */
  lemma HalfStep(m: int)
    requires BIAS <= m <= CLIP + BIAS
    ensures Scaled(Segment(m), 4) == Pow2(Segment(m) + 2) && 32 * Scaled(Segment(m), 4) <= m
  {
    Powers();
  }

  function Distance(x: int, y: int): nat { if x < y then y - x else x - y }

  /** Louder samples never decode lower. */
  lemma Monotone(s: int, t: int)
    requires s <= t
    ensures Quantize(s) <= Quantize(t)
  {
    var ks, kt := Code(Magnitude(s)), Code(Magnitude(t));
    LevelInInterval(ks);
    LevelInInterval(kt);
    if s >= 0 {
      CodeIncreases(Magnitude(s), Magnitude(t));
      if ks < kt { LevelIncreases(ks, kt); }
    } else if t < 0 {
      CodeIncreases(Magnitude(t), Magnitude(s));
      if kt < ks { LevelIncreases(kt, ks); }
    }
  }

  /** Beyond the clip the output stays at the outermost levels. */
  lemma Saturates(s: int)
    requires s >= CLIP || s <= -CLIP
    ensures Quantize(s) == if s > 0 then 32124 else -32124
    ensures forall b: byte :: -32124 <= Decode(b) <= 32124
  {
    LevelInInterval(127);
    assert Code(CLIP + BIAS) == 127;
    forall b: byte ensures -32124 <= Decode(b) <= 32124 {
      LevelInInterval(if b < 128 then 127 - b else 255 - b);
    }
  }

  /** Changing the sign flips the top bit. */
  lemma SignFlipsTopBit(s: int)
    requires s != 0
    ensures Encode(-s) == (Encode(s) + 128) % 256
    ensures Quantize(-s) == -Quantize(s)
  {
    assert Magnitude(-s) == Magnitude(s);
  }

  /** Encoding a decoded byte gives it back, except that negative zero becomes zero. */
  lemma EncodeDecode(b: byte)
    ensures Encode(Decode(b)) == if b == 0x7F then 0xFF else b
  {
    var k := if b < 128 then 127 - b else 255 - b;
    LevelInInterval(k);
    assert Magnitude(Decode(b)) == Level(k);
    CodeUnique(Level(k), k);
    if k > 0 { LevelIncreases(0, k); }
  }

  /** So quantising twice changes nothing more. */
  lemma QuantizeTwice(s: int)
    ensures Quantize(Quantize(s)) == Quantize(s)
  {
    EncodeDecode(Encode(s));
  }

  // ---- nearest level

  /** Within the first 2^e magnitudes of a segment e > 0. */
  predicate AboveBoundary(m: int) { Segment(m) > 0 && m < Scaled(Segment(m), 129) }

  /** Up to the clip no level lies nearer to a magnitude than its own, unless the
      magnitude sits just above a boundary. */
  lemma NearestLevel(m: int, k: nat)
    requires BIAS <= m <= CLIP + BIAS && k < 128 && !AboveBoundary(m)
    ensures Distance(Level(Code(m)), m) <= Distance(Level(k), m)
  {
    var c := Code(m);
    CodeBounds(m);
    LevelInInterval(c);
    if k < c {
      LevelBelow(m);
      if k < c - 1 { LevelIncreases(k, c - 1); }
    } else if k > c {
      LevelAbove(m);
      if c + 1 < k { LevelIncreases(c + 1, k); }
    }
  }

  lemma LevelAbove(m: int)
    requires BIAS <= m <= CLIP + BIAS && Code(m) < 127
    ensures Distance(Level(Code(m)), m) <= Level(Code(m) + 1) - m
  {
    var c := Code(m);
    CodeBounds(m);
    LevelInInterval(c);
    LevelInInterval(c + 1);
    assert (c + 1) / 16 == c / 16 || (c + 1) / 16 == c / 16 + 1;
    assert Scaled(c / 16, 4) <= Scaled((c + 1) / 16, 4);
  }

  /** The level below is nearer exactly just above a boundary. */
  lemma LevelBelow(m: int)
    requires BIAS <= m <= CLIP + BIAS && Code(m) > 0
    ensures m - Level(Code(m) - 1) < Distance(Level(Code(m)), m) <==> AboveBoundary(m)
    ensures Level(Code(m) - 1) < m
  {
    var c := Code(m);
    CodeBounds(m);
    LevelInInterval(c);
    LevelInInterval(c - 1);
    if c % 16 == 0 {
      assert (c - 1) / 16 == c / 16 - 1;
      assert Scaled(c / 16, 4) == 2 * Scaled(c / 16 - 1, 4);
      assert Scaled(c / 16, 129) == Low(c) + Scaled(c / 16, 1);
    } else {
      assert (c - 1) / 16 == c / 16;
      assert Scaled(c / 16, 129) <= Low(c);
    }
  }

  /** Over all integers: the codec picks a nearest level exactly when the sample is not
      just above a segment boundary. */
  lemma NearestIff(s: int)
    ensures (forall b: byte :: Distance(Quantize(s), s) <= Distance(Decode(b), s)) <==> !AboveBoundary(Magnitude(s))
  {
    var m := Magnitude(s);
    var c := Code(m);
    QuantizeIs(s);
    if AboveBoundary(m) {
      LevelBelow(m);
      var b: byte := (if s < 0 then 127 else 255) - (c - 1);
      assert Distance(Decode(b), s) < Distance(Quantize(s), s);
    } else {
      forall b: byte ensures Distance(Quantize(s), s) <= Distance(Decode(b), s) {
        NoByteNearer(s, b);
      }
    }
  }

  /** A sample that is: 124 decodes to 132, though byte 240 stands for 120. */
  lemma NotNearestAt124()
    ensures AboveBoundary(Magnitude(124)) && Distance(Decode(240), 124) < Distance(Quantize(124), 124)
  {
    assert Quantize(124) == 132;
    assert Decode(240) == 120;
  }

  lemma NoByteNearer(s: int, b: byte)
    requires !AboveBoundary(Magnitude(s))
    ensures Distance(Quantize(s), s) <= Distance(Decode(b), s)
  {
    var m := Magnitude(s);
    var k := if b < 128 then 127 - b else 255 - b;
    NearestLevel(m, k);
    NearestLevel(m, 0);
    LevelInInterval(k);
    LevelInInterval(Code(m));
    if s > CLIP || s < -CLIP { Saturates(s); }
  }

  // ---- the code itself

  /** The search loop of `_linear_to_ulaw`: the highest set bit, from the top. */
  method FindSegment(x: int) returns (exponent: nat)
    requires BIAS <= x <= CLIP + BIAS
    ensures exponent == Segment(x)
  {
    var e: int := 7;
    var mask := 0x4000;
    assert Pow2(14) == 0x4000 by { Powers(); }
    for i := 0 to 8
      invariant e == 7 - i && Segment(x) <= e && mask == Pow2(e + 7)
    {
      Bit(x, e + 7, mask);
      BitOfMagnitude(x, e);
      if And(x, mask) != 0 { break; }
      e := e - 1;
      mask := Shr(mask, 1);
    }
    exponent := e;
  }

  /** The three fields of a byte, joined by `|` and complemented. */
  method Joined(sign: nat, exponent: nat, mantissa: nat) returns (b: byte)
    requires (sign == 0 || sign == SIGN_BIT) && exponent < 8 && mantissa < 16
    ensures b == 255 - sign - 16 * exponent - mantissa
  {
    JoinSign(sign, exponent);
    var high := Or(sign, Shl(exponent, 4));
    JoinMantissa(high, mantissa);
    var joined := Or(high, mantissa);
    Complement(joined);
    b := And(Not(joined), BYTE_MASK);
  }

  /** `_linear_to_ulaw`. */
  method LinearToUlaw(sample: int) returns (b: byte)
    ensures b == Encode(sample)
  {
    var sign: nat := 0;
    var x := sample;
    if x < 0 {
      sign := SIGN_BIT;
      x := -x;
    }
    if x > CLIP { x := CLIP; }
    x := x + BIAS;
    assert x == Magnitude(sample);
    var exponent := FindSegment(x);
    MantissaIsStep(x);
    var mantissa := And(Shr(x, exponent + 3), MANTISSA_MASK);
    b := Joined(sign, exponent, mantissa);
  }

  /** At or above its segment, a magnitude has a bit set exactly in its segment. */
  lemma BitOfMagnitude(m: int, exponent: nat)
    requires BIAS <= m <= CLIP + BIAS && Segment(m) <= exponent < 8
    ensures (m / Pow2(exponent + 7)) % 2 == 1 <==> exponent == Segment(m)
  {
    Powers();
    var p := Pow2(exponent + 7);
    assert m < 2 * p;
    assert m / p == if m < p then 0 else 1;
  }

  lemma ShiftedMagnitude(m: int)
    requires BIAS <= m <= CLIP + BIAS
    ensures Shr(m, Segment(m) + 3) == Step(m) + 16 && 0 <= Step(m) < 16
  {
    Powers();
  }

  lemma MantissaIsStep(m: int)
    requires BIAS <= m <= CLIP + BIAS
    ensures And(Shr(m, Segment(m) + 3), MANTISSA_MASK) == Step(m)
  {
    ShiftedMagnitude(m);
    LowBits(Step(m) + 16, 4, MANTISSA_MASK, Step(m));
  }

  /** Masking a number whose remainder is known. */
  lemma LowBits(x: int, k: nat, mask: nat, r: nat)
    requires mask + 1 == Pow2(k) && x % (mask + 1) == r
    ensures And(x, mask) == r
  {
    Mask(x, k, mask);
  }

  lemma SmallPowers()
    ensures Pow2(3) == SEGMENT_MASK + 1 && Pow2(4) == MANTISSA_MASK + 1
    ensures Pow2(7) == SIGN_BIT && Pow2(8) == BYTE_MASK + 1
  {
    Powers();
  }

  lemma JoinSign(sign: nat, exponent: nat)
    requires (sign == 0 || sign == SIGN_BIT) && exponent < 8
    ensures Or(sign, Shl(exponent, 4)) == sign + 16 * exponent
  {
    SmallPowers();
    var field := 16 * exponent;
    assert Shl(exponent, 4) == field;
    if sign != 0 { OrFields(1, field, 7, 128); }
  }

  lemma JoinMantissa(high: nat, mantissa: nat)
    requires high % 16 == 0 && mantissa < 16
    ensures Or(high, mantissa) == high + mantissa
  {
    SmallPowers();
    OrFields(high / 16, mantissa, 4, 16);
  }

  lemma Complement(joined: nat)
    requires joined < 256
    ensures And(Not(joined), BYTE_MASK) == 255 - joined
  {
    SmallPowers();
    LowBits(Not(joined), 8, BYTE_MASK, 255 - joined);
  }

  /** One entry of the table. */
  method TableEntry(i: byte) returns (sample: int)
    ensures sample == Decode(i)
  {
    var lut := [0, 132, 396, 924, 1980, 4092, 8316, 16764];
    TableSign(i);
    TableSegment(i);
    TableMantissa(i);
    var val := Not(i);
    var sign := And(val, SIGN_BIT);
    var exponent := And(Shr(val, 4), SEGMENT_MASK);
    var mantissa := And(val, MANTISSA_MASK);
    EntryValue(i, exponent, mantissa);
    sample := lut[exponent] + Shl(mantissa, exponent + 3);
    if sign != 0 { sample := -sample; }
  }

  /** `_build_ulaw_table`: 256 entries, each the decoded value of its index. */
  method BuildTable() returns (table: seq<int>)
    ensures |table| == 256 && forall i: byte :: table[i] == Decode(i)
  {
    table := [];
    for i := 0 to 256
      invariant |table| == i && forall j: byte :: j < i ==> table[j] == Decode(j)
    {
      var sample := TableEntry(i);
      table := table + [sample];
    }
  }

  lemma TableSign(i: byte)
    ensures And(Not(i), SIGN_BIT) != 0 <==> 255 - i >= 128
  {
    assert Pow2(7) == SIGN_BIT by { Powers(); }
    Bit(Not(i), 7, SIGN_BIT);
  }

  lemma DigitsAgree(n: nat)
    requires n < 256
    ensures (n / 16) % 8 == (n % 128) / 16
  {
    var low := if n < 128 then n else n - 128;
    assert n % 128 == low;
    assert n / 16 == low / 16 + if n < 128 then 0 else 8;
  }

  lemma TableSegment(i: byte)
    ensures And(Shr(Not(i), 4), SEGMENT_MASK) == ((255 - i) % 128) / 16
  {
    SmallPowers();
    var y := Not(i) / 16;
    DigitsAgree(255 - i);
    LowBits(y, 3, SEGMENT_MASK, ((255 - i) % 128) / 16);
  }

  lemma TableMantissa(i: byte)
    ensures And(Not(i), MANTISSA_MASK) == (255 - i) % 16
  {
    SmallPowers();
    LowBits(Not(i), 4, MANTISSA_MASK, (255 - i) % 16);
  }

  lemma EntryValue(i: byte, exponent: nat, mantissa: nat)
    requires exponent == ((255 - i) % 128) / 16 && mantissa == (255 - i) % 16
    ensures var lut := [0, 132, 396, 924, 1980, 4092, 8316, 16764];
      exponent < 8 && Decode(i) == (if i < 128 then -1 else 1) * (lut[exponent] + Shl(mantissa, exponent + 3))
  {
    CodeFields(i);
    ShiftIsScaled(mantissa, exponent);
    LevelSplits(exponent, mantissa);
    LutIs(exponent);
  }

  /** A complemented byte without its sign is the code; its fields are segment and step. */
  lemma CodeFields(i: byte)
    ensures var k := if i < 128 then 127 - i else 255 - i;
      0 <= k < 128 && k / 16 == ((255 - i) % 128) / 16 && k % 16 == (255 - i) % 16
  {
    if i < 128 {
      assert (255 - i) % 128 == 127 - i;
    } else {
      assert (255 - i) % 128 == 255 - i;
    }
  }

  lemma LutIs(exponent: nat)
    requires exponent < 8
    ensures [0, 132, 396, 924, 1980, 4092, 8316, 16764][exponent] == Scaled(exponent, 132) - 132
  {}

  lemma ShiftIsScaled(mantissa: nat, exponent: nat)
    requires mantissa < 16 && exponent < 8
    ensures Shl(mantissa, exponent + 3) == Scaled(exponent, 8 * mantissa)
  {
    Powers();
  }

  lemma LevelSplits(exponent: nat, mantissa: nat)
    requires mantissa < 16 && exponent < 8
    ensures Scaled(exponent, 8 * mantissa + 132) == Scaled(exponent, 8 * mantissa) + Scaled(exponent, 132)
  {}
}
