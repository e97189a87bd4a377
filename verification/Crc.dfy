/**
 * The CRC-16/CCITT-FALSE of the serial frames: the register loop, its affine
 * structure over exclusive-or, and the burst errors it is there to catch.
 *
 * The 16-bit register is kept as its sixteen bits, most significant first, so a
 * left shift drops the first bit and appends a zero.
 */
module Crc {
  import opened Bytes

  type Reg = r: seq<bool> | |r| == 16 witness seq(16, _ => false)

  /** 0x1021 */
  const POLY: Reg := [false, false, false, true, false, false, false, false,
                      false, false, true, false, false, false, false, true]

  function Zeros(n: nat): (z: seq<bool>)
    ensures |z| == n && forall i :: 0 <= i < n ==> !z[i]
  {
    seq(n, _ => false)
  }

  /** 0xFFFF */
  const INIT: Reg := [true, true, true, true, true, true, true, true,
                      true, true, true, true, true, true, true, true]

  function Xor(a: seq<bool>, b: seq<bool>): (z: seq<bool>)
    requires |a| == |b|
    ensures |z| == |a| && forall i :: 0 <= i < |a| ==> z[i] == (a[i] != b[i])
  {
    seq(|a|, i requires 0 <= i < |a| => a[i] != b[i])
  }

  /** The low `width` bits of `n`, most significant first. */
  function ToBits(n: nat, width: nat): (b: seq<bool>)
    ensures |b| == width
    decreases width
  {
    if width == 0 then [] else ToBits(n / 2, width - 1) + [n % 2 == 1]
  }

  function FromBits(b: seq<bool>): (n: nat)
    ensures n < Pow2(|b|)
    decreases |b|
  {
    if b == [] then 0
    else 2 * FromBits(b[..|b| - 1]) + (if b[|b| - 1] then 1 else 0)
  }

  /** The eight bits of a byte. */
  function BitsOf(d: Byte): (b: seq<bool>)
    ensures |b| == 8
  {
    ToBits(d as int, 8)
  }

  /** One turn of the inner loop. */
  function ShiftBit(crc: Reg): Reg {
    if crc[0] then Xor(crc[1..] + [false], POLY) else crc[1..] + [false]
  }

  function Shift(crc: Reg, n: nat): Reg
    decreases n
  {
    if n == 0 then crc else Shift(ShiftBit(crc), n - 1)
  }

  /** One turn of the outer loop: the byte enters at the top of the register. */
  function ByteStep(crc: Reg, d: Byte): Reg {
    Shift(Xor(crc, BitsOf(d) + Zeros(8)), 8)
  }

  /** The register after `data`, started at `crc`. */
  function Register(crc: Reg, data: seq<Byte>): Reg
    decreases |data|
  {
    if data == [] then crc else Register(ByteStep(crc, data[0]), data[1..])
  }

  function Crc16(data: seq<Byte>): Reg {
    Register(INIT, data)
  }

  method Crc16CcittFalse(data: array<Byte>, len: nat) returns (crc: Reg)
    requires len <= data.Length
    ensures crc == Crc16(data[..len])
  {
    hide Register, BitsOf, Xor, Zeros;
    crc := INIT;
    ghost var msg := data[..len];
    assert msg[0..] == msg;
    for i := 0 to len
      invariant Register(crc, msg[i..]) == Register(INIT, msg)
    {
      TakeByte(crc, msg, i);
      crc := Xor(crc, BitsOf(data[i]) + Zeros(8));
      ghost var start := crc;
      for b := 0 to 8
        invariant Shift(crc, 8 - b) == Shift(start, 8)
      {
        if crc[0] {
          crc := Xor(crc[1..] + [false], POLY);
        } else {
          crc := crc[1..] + [false];
        }
      }
    }
    assert msg[len..] == [];
    NoBytes(crc);
  }

  lemma TakeByte(crc: Reg, msg: seq<Byte>, i: nat)
    requires i < |msg|
    ensures Register(crc, msg[i..]) == Register(Shift(Xor(crc, BitsOf(msg[i]) + Zeros(8)), 8), msg[i + 1..])
  {
    assert msg[i..][1..] == msg[i + 1..];
  }

  lemma NoBytes(crc: Reg)
    ensures Register(crc, []) == crc
  {}

  // ------------------------------------------------------ the bit-serial form

  /** The same register fed one message bit at a time. */
  function BitStep(crc: Reg, bit: bool): Reg {
    ShiftBit(crc[0 := crc[0] != bit])
  }

  function Serial(crc: Reg, bits: seq<bool>): Reg
    decreases |bits|
  {
    if bits == [] then crc else Serial(BitStep(crc, bits[0]), bits[1..])
  }

  function Bits(data: seq<Byte>): seq<bool> {
    if data == [] then [] else BitsOf(data[0]) + Bits(data[1..])
  }

  lemma {:induction false} SerialConcat(crc: Reg, p: seq<bool>, q: seq<bool>)
    ensures Serial(crc, p + q) == Serial(Serial(crc, p), q)
    decreases |p|
  {
    hide BitStep;
    if p == [] {
      assert p + q == q;
    } else {
      assert (p + q)[1..] == p[1..] + q;
      SerialConcat(BitStep(crc, p[0]), p[1..], q);
    }
  }

  /** Bits added together at the top of the register act as if they arrived one by one. */
  lemma {:induction false} ParallelIsSerial(crc: Reg, bits: seq<bool>)
    requires |bits| <= 16
    ensures Shift(Xor(crc, bits + Zeros(16 - |bits|)), |bits|) == Serial(crc, bits)
    decreases |bits|
  {
    var n := |bits|;
    var x := Xor(crc, bits + Zeros(16 - n));
    if n == 0 {
      assert x == crc;
    } else {
      var crc', x' := BitStep(crc, bits[0]), Xor(BitStep(crc, bits[0]), bits[1..] + Zeros(16 - (n - 1)));
      assert x[0] == (crc[0] != bits[0]);
      assert ShiftBit(x) == x' by {
        forall i | 0 <= i < 16 ensures ShiftBit(x)[i] == x'[i] {
          if i + 1 < n {
            assert bits[1..][i] == bits[i + 1];
          }
        }
      }
      ParallelIsSerial(crc', bits[1..]);
    }
  }

  lemma {:induction false} BytesAreBits(crc: Reg, data: seq<Byte>)
    ensures Register(crc, data) == Serial(crc, Bits(data))
    decreases |data|
  {
    hide Shift, ShiftBit, Serial;
    if data == [] {
      SerialNil(crc);
    } else {
      ParallelIsSerial(crc, BitsOf(data[0]));
      BytesAreBits(ByteStep(crc, data[0]), data[1..]);
      SerialConcat(crc, BitsOf(data[0]), Bits(data[1..]));
    }
  }

  lemma SerialNil(crc: Reg)
    ensures Serial(crc, []) == crc
  {}

  // ------------------------------------------------- the register is affine

  lemma ShiftBitLinear(a: Reg, b: Reg)
    ensures ShiftBit(Xor(a, b)) == Xor(ShiftBit(a), ShiftBit(b))
  {
    forall i | 0 <= i < 16 ensures ShiftBit(Xor(a, b))[i] == Xor(ShiftBit(a), ShiftBit(b))[i] {
    }
  }

  lemma BitStepLinear(a: Reg, b: Reg, x: bool, y: bool)
    ensures BitStep(Xor(a, b), x != y) == Xor(BitStep(a, x), BitStep(b, y))
  {
    hide ShiftBit;
    var a', b' := a[0 := a[0] != x], b[0 := b[0] != y];
    assert Xor(a, b)[0 := Xor(a, b)[0] != (x != y)] == Xor(a', b');
    ShiftBitLinear(a', b');
  }

  /** The difference of two registers is the register of the difference. */
  lemma {:induction false} Affine(a: Reg, b: Reg, x: seq<bool>, y: seq<bool>)
    requires |x| == |y|
    ensures Xor(Serial(a, x), Serial(b, y)) == Serial(Xor(a, b), Xor(x, y))
    decreases |x|
  {
    hide BitStep;
    if x != [] {
      BitStepLinear(a, b, x[0], y[0]);
      assert Xor(x, y)[1..] == Xor(x[1..], y[1..]);
      Affine(BitStep(a, x[0]), BitStep(b, y[0]), x[1..], y[1..]);
    }
  }

  // ------------------------------------------- every step is a bijection

  function UnshiftBit(crc: Reg): Reg {
    if crc[15] then [true] + Xor(crc, POLY)[..15] else [false] + crc[..15]
  }

  lemma UnshiftBitInverse(crc: Reg)
    ensures UnshiftBit(ShiftBit(crc)) == crc && ShiftBit(UnshiftBit(crc)) == crc
  {
    var s, u := ShiftBit(crc), UnshiftBit(crc);
    assert s[15] == crc[0] && u[0] == crc[15];
    forall i | 0 <= i < 16 ensures UnshiftBit(s)[i] == crc[i] && ShiftBit(u)[i] == crc[i] {
    }
  }

  function UnstepBit(crc: Reg, bit: bool): Reg {
    var u := UnshiftBit(crc);
    u[0 := u[0] != bit]
  }

  /** For each message bit the step maps registers one to one and onto. */
  lemma BitStepBijective(crc: Reg, bit: bool)
    ensures UnstepBit(BitStep(crc, bit), bit) == crc
    ensures BitStep(UnstepBit(crc, bit), bit) == crc
  {
    hide ShiftBit, UnshiftBit;
    UnshiftBitInverse(crc[0 := crc[0] != bit]);
    UnshiftBitInverse(crc);
    var u := UnshiftBit(crc);
    assert u[0 := u[0] != bit][0 := u[0 := u[0] != bit][0] != bit] == u;
    assert crc[0 := crc[0] != bit][0 := crc[0 := crc[0] != bit][0] != bit] == crc;
  }

  /** Two registers that disagree keep disagreeing over any common tail. */
  lemma {:induction false} TailKeepsDifference(a: Reg, b: Reg, tail: seq<bool>)
    requires a != b
    ensures Serial(a, tail) != Serial(b, tail)
    decreases |tail|
  {
    hide BitStep, UnstepBit;
    if tail != [] {
      BitStepBijective(a, tail[0]);
      BitStepBijective(b, tail[0]);
      TailKeepsDifference(BitStep(a, tail[0]), BitStep(b, tail[0]), tail[1..]);
    }
  }

  // ---------------------------------------------------------- burst errors

  predicate AllZero(bits: seq<bool>) {
    forall i :: 0 <= i < |bits| ==> !bits[i]
  }

  /** A register emptied by n <= 16 bits held nothing below its top n places, and was zero only for zero bits. */
  lemma {:induction false} EmptiedRegister(r: Reg, bits: seq<bool>)
    requires |bits| <= 16 && AllZero(Serial(r, bits))
    ensures AllZero(r[|bits|..])
    ensures AllZero(r) ==> AllZero(bits)
    decreases |bits|
  {
    hide ShiftBit;
    var n := |bits|;
    if n > 0 {
      var y := r[0 := r[0] != bits[0]];
      var s := BitStep(r, bits[0]);
      EmptiedRegister(s, bits[1..]);
      assert !s[15] by { assert s[n - 1..][16 - n] == s[15]; }
      TopBitReturns(y);
      forall i | n <= i < 16 ensures !r[i] {
        assert s[i - 1] == s[n - 1..][i - n];
      }
      if AllZero(r) {
        assert AllZero(s);
        assert !bits[0];
        assert forall i :: 1 <= i < n ==> bits[i] == bits[1..][i - 1];
      }
    }
  }

  /** The polynomial has a constant term, so a set top bit always reappears at the bottom. */
  lemma TopBitReturns(y: Reg)
    ensures ShiftBit(y)[15] == y[0]
    ensures !y[0] ==> forall i :: 0 <= i < 15 ==> ShiftBit(y)[i] == y[i + 1]
  {}

  /** Starting from zero, zero bits leave the register at zero. */
  lemma {:induction false} ZerosStayZero(r: Reg, bits: seq<bool>)
    requires AllZero(r) && AllZero(bits)
    ensures AllZero(Serial(r, bits))
    decreases |bits|
  {
    if bits != [] {
      assert r[0 := r[0] != bits[0]] == r;
      ZerosStayZero(BitStep(r, bits[0]), bits[1..]);
    }
  }

  /** Up to sixteen bits are determined by the register they lead to. */
  lemma SameRegisterSameBits(r: Reg, x: seq<bool>, y: seq<bool>)
    requires |x| == |y| <= 16 && Serial(r, x) == Serial(r, y)
    ensures x == y
  {
    Affine(r, r, x, y);
    EmptiedRegister(Xor(r, r), Xor(x, y));
    forall i | 0 <= i < |x| ensures x[i] == y[i] {
      assert !Xor(x, y)[i];
    }
  }

  /** Any change confined to a window of sixteen consecutive message bits changes the register. */
  lemma BurstDetected(crc: Reg, x: seq<bool>, y: seq<bool>, from: nat, to: nat)
    requires |x| == |y| && from <= to <= |x| && to - from <= 16
    requires x[..from] == y[..from] && x[to..] == y[to..] && x != y
    ensures Serial(crc, x) != Serial(crc, y)
  {
    hide Serial, BitStep;
    var xw, yw := x[from..to], y[from..to];
    assert x == x[..from] + (xw + x[to..]) && y == y[..from] + (yw + y[to..]);
    SerialConcat(crc, x[..from], xw + x[to..]);
    SerialConcat(crc, y[..from], yw + y[to..]);
    var r := Serial(crc, x[..from]);
    SerialConcat(r, xw, x[to..]);
    SerialConcat(r, yw, y[to..]);
    assert Serial(r, xw) != Serial(r, yw) by {
      if Serial(r, xw) == Serial(r, yw) {
        SameRegisterSameBits(r, xw, yw);
      }
    }
    TailKeepsDifference(Serial(r, xw), Serial(r, yw), x[to..]);
  }

  // --------------------------------------------------- the same, over bytes

  lemma {:induction false} BitsRoundTrip(n: nat, width: nat)
    requires n < Pow2(width)
    ensures FromBits(ToBits(n, width)) == n
    decreases width
  {
    if width > 0 {
      BitsRoundTrip(n / 2, width - 1);
      assert ToBits(n, width)[..width - 1] == ToBits(n / 2, width - 1);
    }
  }

  lemma BitsOfInjective(a: Byte, b: Byte)
    requires BitsOf(a) == BitsOf(b)
    ensures a == b
  {
    assert Pow2(8) == 256;
    BitsRoundTrip(a as int, 8);
    BitsRoundTrip(b as int, 8);
  }

  lemma {:induction false} BitsLength(data: seq<Byte>)
    ensures |Bits(data)| == 8 * |data|
  {
    if data != [] {
      BitsLength(data[1..]);
    }
  }

  lemma {:induction false} BitsConcat(p: seq<Byte>, q: seq<Byte>)
    ensures Bits(p + q) == Bits(p) + Bits(q)
    decreases |p|
  {
    if p == [] {
      assert p + q == q;
    } else {
      assert (p + q)[1..] == p[1..] + q;
      BitsConcat(p[1..], q);
    }
  }

  lemma {:induction false} BitsInjective(x: seq<Byte>, y: seq<Byte>)
    requires |x| == |y| && Bits(x) == Bits(y)
    ensures x == y
    decreases |x|
  {
    hide BitsOf;
    if x != [] {
      assert Bits(x)[..8] == BitsOf(x[0]) && Bits(x)[8..] == Bits(x[1..]);
      assert Bits(y)[..8] == BitsOf(y[0]) && Bits(y)[8..] == Bits(y[1..]);
      BitsOfInjective(x[0], y[0]);
      BitsInjective(x[1..], y[1..]);
      assert x == [x[0]] + x[1..] && y == [y[0]] + y[1..];
    }
  }

  /** Equal-length messages that differ, but only inside sixteen consecutive bits, have different CRCs. */
  lemma CrcDetectsBurst(x: seq<Byte>, y: seq<Byte>, from: nat, to: nat)
    requires |x| == |y| && x != y
    requires from <= to <= |Bits(x)| == |Bits(y)| && to - from <= 16
    requires Bits(x)[..from] == Bits(y)[..from] && Bits(x)[to..] == Bits(y)[to..]
    ensures Crc16(x) != Crc16(y)
  {
    hide Register, Serial, Bits;
    BytesAreBits(INIT, x);
    BytesAreBits(INIT, y);
    if Bits(x) == Bits(y) {
      BitsInjective(x, y);
    }
    BurstDetected(INIT, Bits(x), Bits(y), from, to);
  }

  /** In particular when the change lies inside two adjacent bytes. */
  lemma CrcDetectsTwoBytes(p: seq<Byte>, x: seq<Byte>, y: seq<Byte>, q: seq<Byte>)
    requires |x| == |y| <= 2 && x != y
    ensures Crc16(p + x + q) != Crc16(p + y + q)
  {
    hide Bits, Crc16;
    BitsConcat(p + x, q);
    BitsConcat(p, x);
    BitsConcat(p + y, q);
    BitsConcat(p, y);
    BitsLength(p);
    BitsLength(x);
    BitsLength(y);
    var xb, yb, from, to := Bits(p + x + q), Bits(p + y + q), |Bits(p)|, |Bits(p)| + |Bits(x)|;
    assert xb[..from] == Bits(p) == yb[..from];
    assert xb[to..] == Bits(q) == yb[to..];
    assert p + x + q != p + y + q by {
      assert (p + x + q)[|p|..|p| + |x|] == x && (p + y + q)[|p|..|p| + |x|] == y;
    }
    CrcDetectsBurst(p + x + q, p + y + q, from, to);
  }

  // ------------------------------------------- one byte and the stored CRC

  /** 0x89 and 0xA1. */
  const BLIND_BYTE: seq<bool> := [true, false, false, false, true, false, false, true]
  const BLIND_CRC: seq<bool> := [true, false, true, false, false, false, false, true]

  lemma ShiftBitAt(c: Reg, i: nat)
    requires i < 16
    ensures ShiftBit(c)[i] == ((i < 15 && c[i + 1]) != (c[0] && POLY[i]))
  {}

  lemma StepAt(r: Reg, bit: bool, i: nat)
    requires i < 16
    ensures BitStep(r, bit)[i] == ((i < 15 && r[i + 1]) != ((r[0] != bit) && POLY[i]))
  {
    hide ShiftBit;
    ShiftBitAt(r[0 := r[0] != bit], i);
  }

  lemma StepIs(r: Reg, bit: bool)
    ensures var s, f := BitStep(r, bit), r[0] != bit;
            && s[0] == r[1] && s[1] == r[2] && s[2] == r[3] && s[3] == (r[4] != f)
            && s[4] == r[5] && s[5] == r[6] && s[6] == r[7] && s[7] == r[8]
            && s[8] == r[9] && s[9] == r[10] && s[10] == (r[11] != f) && s[11] == r[12]
            && s[12] == r[13] && s[13] == r[14] && s[14] == r[15] && s[15] == f
  {
    hide BitStep;
    forall i | 0 <= i < 16
      ensures BitStep(r, bit)[i] == ((i < 15 && r[i + 1]) != ((r[0] != bit) && POLY[i]))
    {
      StepAt(r, bit, i);
    }
  }

  /** Eight message bits, one after the other. */
  lemma SerialStep(r: Reg, d: seq<bool>, k: nat)
    requires k < |d|
    ensures Serial(r, d[k..]) == Serial(BitStep(r, d[k]), d[k + 1..])
  {
    hide BitStep;
    assert d[k..][1..] == d[k + 1..];
  }

  /** The register that a single byte's bits leave, started at zero. */
  lemma EightSteps(d: seq<bool>)
    requires |d| == 8
    ensures var r := Serial(Zeros(16), d);
            && r[0] == (d[0] != d[4]) && r[1] == (d[1] != d[5])
            && r[2] == (d[2] != d[6]) && r[3] == ((d[0] != d[3]) != d[7])
            && r[4] == d[1] && r[5] == d[2]
            && r[6] == d[3] && r[7] == (d[0] != d[4])
            && r[8] == ((d[0] != d[1]) != d[5]) && r[9] == ((d[1] != d[2]) != d[6])
            && r[10] == ((d[2] != d[3]) != d[7]) && r[11] == d[3]
            && r[12] == (d[0] != d[4]) && r[13] == (d[1] != d[5])
            && r[14] == (d[2] != d[6]) && r[15] == (d[3] != d[7])
  {
    hide BitStep, Serial;
    var r0 := Zeros(16);
    var r1 := BitStep(r0, d[0]);
    var r2 := BitStep(r1, d[1]);
    var r3 := BitStep(r2, d[2]);
    var r4 := BitStep(r3, d[3]);
    var r5 := BitStep(r4, d[4]);
    var r6 := BitStep(r5, d[5]);
    var r7 := BitStep(r6, d[6]);
    var r8 := BitStep(r7, d[7]);
    assert d[0..] == d && d[8..] == [];
    SerialStep(r0, d, 0);
    SerialStep(r1, d, 1);
    SerialStep(r2, d, 2);
    SerialStep(r3, d, 3);
    SerialStep(r4, d, 4);
    SerialStep(r5, d, 5);
    SerialStep(r6, d, 6);
    SerialStep(r7, d, 7);
    SerialNil(r8);
    StepIs(r0, d[0]);
    StepIs(r1, d[1]);
    StepIs(r2, d[2]);
    StepIs(r3, d[3]);
    StepIs(r4, d[4]);
    StepIs(r5, d[5]);
    StepIs(r6, d[6]);
    StepIs(r7, d[7]);
  }

  /** A changed last byte leaves the high byte of the register alone for one difference only. */
  lemma ByteDifference(d: seq<bool>)
    requires |d| == 8
    ensures var r := Serial(Zeros(16), d);
            && (r[..8] == Zeros(8) <==> d == Zeros(8) || d == BLIND_BYTE)
            && (d == Zeros(8) ==> r[8..] == Zeros(8)) && (d == BLIND_BYTE ==> r[8..] == BLIND_CRC)
  {
    hide Serial;
    EightSteps(d);
    var r := Serial(Zeros(16), d);
    EightBits(d, Zeros(8));
    EightBits(d, BLIND_BYTE);
    EightBits(r[..8], Zeros(8));
    EightBits(r[8..], Zeros(8));
    EightBits(r[8..], BLIND_CRC);
  }

  lemma EightBits(a: seq<bool>, b: seq<bool>)
    requires |a| == |b| == 8
    ensures a == b <==> a[0] == b[0] && a[1] == b[1] && a[2] == b[2] && a[3] == b[3]
                        && a[4] == b[4] && a[5] == b[5] && a[6] == b[6] && a[7] == b[7]
  {}

  /** Two messages that differ in the last byte: how their registers differ. */
  lemma LastByte(p: seq<Byte>, b: Byte, e: Byte)
    ensures Xor(Crc16(p + [b]), Crc16(p + [e])) == Serial(Zeros(16), Xor(BitsOf(b), BitsOf(e)))
  {
    hide Serial, BitsOf, Register;
    var s := Serial(INIT, Bits(p));
    BytesAreBits(INIT, p + [b]);
    BytesAreBits(INIT, p + [e]);
    BitsConcat(p, [b]);
    BitsConcat(p, [e]);
    assert Bits([b]) == BitsOf(b) && Bits([e]) == BitsOf(e);
    SerialConcat(INIT, Bits(p), BitsOf(b));
    SerialConcat(INIT, Bits(p), BitsOf(e));
    Affine(s, s, BitsOf(b), BitsOf(e));
    assert Xor(s, s) == Zeros(16);
  }

  // ------------------------------------------------ the register as a word

  /** The word `v` has the bits of the register, the most significant first. */
  predicate Same(r: Reg, v: bv16) {
    && (r[0] <==> v & 0x8000 != 0) && (r[1] <==> v & 0x4000 != 0) && (r[2] <==> v & 0x2000 != 0) && (r[3] <==> v & 0x1000 != 0)
    && (r[4] <==> v & 0x0800 != 0) && (r[5] <==> v & 0x0400 != 0) && (r[6] <==> v & 0x0200 != 0) && (r[7] <==> v & 0x0100 != 0)
    && (r[8] <==> v & 0x0080 != 0) && (r[9] <==> v & 0x0040 != 0) && (r[10] <==> v & 0x0020 != 0) && (r[11] <==> v & 0x0010 != 0)
    && (r[12] <==> v & 0x0008 != 0) && (r[13] <==> v & 0x0004 != 0) && (r[14] <==> v & 0x0002 != 0) && (r[15] <==> v & 0x0001 != 0)
  }

  /** Eight bits at the top of a word. */
  function TopByte(b0: bool, b1: bool, b2: bool, b3: bool, b4: bool, b5: bool, b6: bool, b7: bool): bv16 {
    (if b0 then 0x8000 else 0) | (if b1 then 0x4000 else 0) | (if b2 then 0x2000 else 0) | (if b3 then 0x1000 else 0) |
    (if b4 then 0x0800 else 0) | (if b5 then 0x0400 else 0) | (if b6 then 0x0200 else 0) | (if b7 then 0x0100 else 0)
  }

  function WordShift(v: bv16): bv16 {
    if v & 0x8000 != 0 then (v << 1) ^ 0x1021 else v << 1
  }

  function EightShifts(v: bv16): bv16 {
    WordShift(WordShift(WordShift(WordShift(WordShift(WordShift(WordShift(WordShift(v))))))))
  }

  function WordStep(v: bv16, b0: bool, b1: bool, b2: bool, b3: bool, b4: bool, b5: bool, b6: bool, b7: bool): bv16 {
    EightShifts(v ^ TopByte(b0, b1, b2, b3, b4, b5, b6, b7))
  }

  function WordCrc(v: bv16, data: seq<Byte>): bv16
    decreases |data|
  {
    if data == [] then v
    else
      var b := BitsOf(data[0]);
      WordCrc(WordStep(v, b[0], b[1], b[2], b[3], b[4], b[5], b[6], b[7]), data[1..])
  }

  lemma XorBits(v: bv16, t: bv16)
    ensures var w := v ^ t;
            && (w & 0x8000 != 0 <==> (v & 0x8000 != 0) != (t & 0x8000 != 0)) && (w & 0x4000 != 0 <==> (v & 0x4000 != 0) != (t & 0x4000 != 0))
            && (w & 0x2000 != 0 <==> (v & 0x2000 != 0) != (t & 0x2000 != 0)) && (w & 0x1000 != 0 <==> (v & 0x1000 != 0) != (t & 0x1000 != 0))
            && (w & 0x0800 != 0 <==> (v & 0x0800 != 0) != (t & 0x0800 != 0)) && (w & 0x0400 != 0 <==> (v & 0x0400 != 0) != (t & 0x0400 != 0))
            && (w & 0x0200 != 0 <==> (v & 0x0200 != 0) != (t & 0x0200 != 0)) && (w & 0x0100 != 0 <==> (v & 0x0100 != 0) != (t & 0x0100 != 0))
            && (w & 0x0080 != 0 <==> (v & 0x0080 != 0) != (t & 0x0080 != 0)) && (w & 0x0040 != 0 <==> (v & 0x0040 != 0) != (t & 0x0040 != 0))
            && (w & 0x0020 != 0 <==> (v & 0x0020 != 0) != (t & 0x0020 != 0)) && (w & 0x0010 != 0 <==> (v & 0x0010 != 0) != (t & 0x0010 != 0))
            && (w & 0x0008 != 0 <==> (v & 0x0008 != 0) != (t & 0x0008 != 0)) && (w & 0x0004 != 0 <==> (v & 0x0004 != 0) != (t & 0x0004 != 0))
            && (w & 0x0002 != 0 <==> (v & 0x0002 != 0) != (t & 0x0002 != 0)) && (w & 0x0001 != 0 <==> (v & 0x0001 != 0) != (t & 0x0001 != 0))
  {}

  lemma FirstFour(v: bv16)
    ensures var w := WordShift(v);
            && (w & 0x8000 != 0 <==> v & 0x4000 != 0) && (w & 0x4000 != 0 <==> v & 0x2000 != 0)
            && (w & 0x2000 != 0 <==> v & 0x1000 != 0) && (w & 0x1000 != 0 <==> (v & 0x0800 != 0) != (v & 0x8000 != 0))
  {}

  lemma SecondFour(v: bv16)
    ensures var w := WordShift(v);
            && (w & 0x0800 != 0 <==> v & 0x0400 != 0) && (w & 0x0400 != 0 <==> v & 0x0200 != 0)
            && (w & 0x0200 != 0 <==> v & 0x0100 != 0) && (w & 0x0100 != 0 <==> v & 0x0080 != 0)
  {}

  lemma ThirdFour(v: bv16)
    ensures var w := WordShift(v);
            && (w & 0x0080 != 0 <==> v & 0x0040 != 0) && (w & 0x0040 != 0 <==> v & 0x0020 != 0)
            && (w & 0x0020 != 0 <==> (v & 0x0010 != 0) != (v & 0x8000 != 0)) && (w & 0x0010 != 0 <==> v & 0x0008 != 0)
  {}

  lemma FourthFour(v: bv16)
    ensures var w := WordShift(v);
            && (w & 0x0008 != 0 <==> v & 0x0004 != 0) && (w & 0x0004 != 0 <==> v & 0x0002 != 0)
            && (w & 0x0002 != 0 <==> v & 0x0001 != 0) && (w & 0x0001 != 0 <==> v & 0x8000 != 0)
  {}

  lemma ShiftBitBits(c: Reg)
    ensures var s := ShiftBit(c);
            && s[0] == c[1] && s[1] == c[2] && s[2] == c[3] && s[3] == (c[4] != c[0])
            && s[4] == c[5] && s[5] == c[6] && s[6] == c[7] && s[7] == c[8]
            && s[8] == c[9] && s[9] == c[10] && s[10] == (c[11] != c[0]) && s[11] == c[12]
            && s[12] == c[13] && s[13] == c[14] && s[14] == c[15] && s[15] == c[0]
  {
    hide ShiftBit;
    forall i | 0 <= i < 16 ensures ShiftBit(c)[i] == ((i < 15 && c[i + 1]) != (c[0] && POLY[i])) {
      ShiftBitAt(c, i);
    }
  }

  lemma SameShift(r: Reg, v: bv16)
    requires Same(r, v)
    ensures Same(ShiftBit(r), WordShift(v))
  {
    hide ShiftBit, WordShift;
    ShiftBitBits(r);
    FirstFour(v);
    SecondFour(v);
    ThirdFour(v);
    FourthFour(v);
  }

  lemma TopByteBits(b0: bool, b1: bool, b2: bool, b3: bool, b4: bool, b5: bool, b6: bool, b7: bool)
    ensures var t := TopByte(b0, b1, b2, b3, b4, b5, b6, b7);
            && (t & 0x8000 != 0 <==> b0) && (t & 0x4000 != 0 <==> b1) && (t & 0x2000 != 0 <==> b2) && (t & 0x1000 != 0 <==> b3)
            && (t & 0x0800 != 0 <==> b4) && (t & 0x0400 != 0 <==> b5) && (t & 0x0200 != 0 <==> b6) && (t & 0x0100 != 0 <==> b7)
            && (t & 0x0080 != 0 <==> false) && (t & 0x0040 != 0 <==> false) && (t & 0x0020 != 0 <==> false) && (t & 0x0010 != 0 <==> false)
            && (t & 0x0008 != 0 <==> false) && (t & 0x0004 != 0 <==> false) && (t & 0x0002 != 0 <==> false) && (t & 0x0001 != 0 <==> false)
  {}

  predicate TopXor(r: Reg, b: seq<bool>, x: Reg)
    requires |b| == 8
  {
    && x[0] == (r[0] != b[0]) && x[1] == (r[1] != b[1]) && x[2] == (r[2] != b[2]) && x[3] == (r[3] != b[3])
    && x[4] == (r[4] != b[4]) && x[5] == (r[5] != b[5]) && x[6] == (r[6] != b[6]) && x[7] == (r[7] != b[7])
    && x[8] == r[8] && x[9] == r[9] && x[10] == r[10] && x[11] == r[11]
    && x[12] == r[12] && x[13] == r[13] && x[14] == r[14] && x[15] == r[15]
  }

  predicate TopIs(b: seq<bool>, t: bv16)
    requires |b| == 8
  {
    && (t & 0x8000 != 0 <==> b[0]) && (t & 0x4000 != 0 <==> b[1]) && (t & 0x2000 != 0 <==> b[2]) && (t & 0x1000 != 0 <==> b[3])
    && (t & 0x0800 != 0 <==> b[4]) && (t & 0x0400 != 0 <==> b[5]) && (t & 0x0200 != 0 <==> b[6]) && (t & 0x0100 != 0 <==> b[7])
    && (t & 0x0080 != 0 <==> false) && (t & 0x0040 != 0 <==> false) && (t & 0x0020 != 0 <==> false) && (t & 0x0010 != 0 <==> false)
    && (t & 0x0008 != 0 <==> false) && (t & 0x0004 != 0 <==> false) && (t & 0x0002 != 0 <==> false) && (t & 0x0001 != 0 <==> false)
  }

  lemma XorTop(r: Reg, b: seq<bool>)
    requires |b| == 8
    ensures TopXor(r, b, Xor(r, b + Zeros(8)))
  {}

  lemma TopByteIs(b: seq<bool>)
    requires |b| == 8
    ensures TopIs(b, TopByte(b[0], b[1], b[2], b[3], b[4], b[5], b[6], b[7]))
  {
    hide TopByte;
    TopByteBits(b[0], b[1], b[2], b[3], b[4], b[5], b[6], b[7]);
  }

  lemma SameXor(r: Reg, v: bv16, b: seq<bool>, x: Reg, t: bv16)
    requires |b| == 8 && Same(r, v) && TopXor(r, b, x) && TopIs(b, t)
    ensures Same(x, v ^ t)
  {
    XorBits(v, t);
  }

  lemma SameTop(r: Reg, v: bv16, b: seq<bool>)
    requires |b| == 8 && Same(r, v)
    ensures Same(Xor(r, b + Zeros(8)), v ^ TopByte(b[0], b[1], b[2], b[3], b[4], b[5], b[6], b[7]))
  {
    hide Xor, TopByte, Same, TopXor, TopIs;
    XorTop(r, b);
    TopByteIs(b);
    SameXor(r, v, b, Xor(r, b + Zeros(8)), TopByte(b[0], b[1], b[2], b[3], b[4], b[5], b[6], b[7]));
  }

  lemma ShiftNext(r: Reg, n: nat)
    ensures Shift(r, n) == if n == 0 then r else Shift(ShiftBit(r), n - 1)
  {}

  lemma SameShifts(r: Reg, v: bv16)
    requires Same(r, v)
    ensures Same(Shift(r, 8), EightShifts(v))
  {
    hide Same, Shift, ShiftBit, WordShift;
    var r1, v1 := ShiftBit(r), WordShift(v);
    var r2, v2 := ShiftBit(r1), WordShift(v1);
    var r3, v3 := ShiftBit(r2), WordShift(v2);
    var r4, v4 := ShiftBit(r3), WordShift(v3);
    var r5, v5 := ShiftBit(r4), WordShift(v4);
    var r6, v6 := ShiftBit(r5), WordShift(v5);
    var r7, v7 := ShiftBit(r6), WordShift(v6);
    var r8, v8 := ShiftBit(r7), WordShift(v7);
    SameShift(r, v);
    ShiftNext(r, 8);
    SameShift(r1, v1);
    ShiftNext(r1, 7);
    SameShift(r2, v2);
    ShiftNext(r2, 6);
    SameShift(r3, v3);
    ShiftNext(r3, 5);
    SameShift(r4, v4);
    ShiftNext(r4, 4);
    SameShift(r5, v5);
    ShiftNext(r5, 3);
    SameShift(r6, v6);
    ShiftNext(r6, 2);
    SameShift(r7, v7);
    ShiftNext(r7, 1);
    ShiftNext(r8, 0);
  }

  /** The sixteen bits are those of the word of the source: 0x1021 added on overflow, each byte entering at the top. */
  lemma {:induction false} RegisterIsWord(r: Reg, v: bv16, data: seq<Byte>)
    requires Same(r, v)
    ensures Same(Register(r, data), WordCrc(v, data))
    decreases |data|
  {
    hide Same, Shift, EightShifts, TopByte, BitsOf, Xor;
    if data != [] {
      var b := BitsOf(data[0]);
      SameTop(r, v, b);
      SameShifts(Xor(r, b + Zeros(8)), v ^ TopByte(b[0], b[1], b[2], b[3], b[4], b[5], b[6], b[7]));
      RegisterIsWord(ByteStep(r, data[0]), WordStep(v, b[0], b[1], b[2], b[3], b[4], b[5], b[6], b[7]), data[1..]);
    }
  }

  // -------------------------------------------------------- the check value

  lemma ToBitsNext(n: nat, w: nat)
    ensures |ToBits(n, w + 1)| == w + 1 && ToBits(n, w + 1)[w] == (n % 2 == 1)
    ensures forall i :: 0 <= i < w ==> ToBits(n, w + 1)[i] == ToBits(n / 2, w)[i]
  {}

  /** The bits of a byte are its binary digits, the most significant first. */
  lemma BitsOfByte(d: Byte)
    ensures var n, b := d as int, BitsOf(d);
            && b[7] == (n % 2 == 1) && b[6] == (n / 2 % 2 == 1) && b[5] == (n / 4 % 2 == 1) && b[4] == (n / 8 % 2 == 1)
            && b[3] == (n / 16 % 2 == 1) && b[2] == (n / 32 % 2 == 1) && b[1] == (n / 64 % 2 == 1) && b[0] == (n / 128 % 2 == 1)
  {
    hide ToBits;
    var n := d as int;
    ToBitsNext(n, 7);
    ToBitsNext(n / 2, 6);
    ToBitsNext(n / 4, 5);
    ToBitsNext(n / 8, 4);
    ToBitsNext(n / 16, 3);
    ToBitsNext(n / 32, 2);
    ToBitsNext(n / 64, 1);
    ToBitsNext(n / 128, 0);
    assert n / 2 / 2 == n / 4 && n / 4 / 2 == n / 8 && n / 8 / 2 == n / 16;
    assert n / 16 / 2 == n / 32 && n / 32 / 2 == n / 64 && n / 64 / 2 == n / 128;
  }

  /** The words after each of the digits 1 to 9. */
  lemma DigitSteps()
    ensures WordStep(0xFFFF, false, false, true, true, false, false, false, true) == 0xC782
    ensures WordStep(0xC782, false, false, true, true, false, false, true, false) == 0x3DBA
    ensures WordStep(0x3DBA, false, false, true, true, false, false, true, true) == 0x5BCE
    ensures WordStep(0x5BCE, false, false, true, true, false, true, false, false) == 0x5349
    ensures WordStep(0x5349, false, false, true, true, false, true, false, true) == 0x4560
    ensures WordStep(0x4560, false, false, true, true, false, true, true, false) == 0x2EF4
    ensures WordStep(0x2EF4, false, false, true, true, false, true, true, true) == 0x7718
    ensures WordStep(0x7718, false, false, true, true, true, false, false, false) == 0xA12B
    ensures WordStep(0xA12B, false, false, true, true, true, false, false, true) == 0x29B1
  {}

  /** The digits from `k` to 9. */
  function DigitsFrom(k: nat): seq<Byte>
    requires k <= 10
    decreases 10 - k
  {
    if k == 10 then [] else [(0x30 + k) as Byte] + DigitsFrom(k + 1)
  }

  lemma DigitNumber(k: nat)
    requires k < 10
    ensures var n := 0x30 + k;
            && n / 128 == 0 && n / 64 == 0 && n / 32 == 1 && n / 16 == 3 && (n / 8 % 2 == 1 <==> k >= 8)
            && n / 4 % 2 == k / 4 % 2 && n / 2 % 2 == k / 2 % 2 && n % 2 == k % 2
  {}

  lemma Digit(v: bv16, k: nat)
    requires k < 10
    ensures WordCrc(v, DigitsFrom(k)) ==
            WordCrc(WordStep(v, false, false, true, true, k >= 8, k / 4 % 2 == 1, k / 2 % 2 == 1, k % 2 == 1), DigitsFrom(k + 1))
  {
    hide WordStep, BitsOf;
    BitsOfByte((0x30 + k) as Byte);
    DigitNumber(k);
    assert DigitsFrom(k)[0] == (0x30 + k) as Byte && DigitsFrom(k)[1..] == DigitsFrom(k + 1);
  }

  /** The check value of CRC-16/CCITT-FALSE: the digits 1 to 9 have the CRC 0x29B1, and no bytes at all 0xFFFF. */
  lemma CheckValue()
    ensures Same(Crc16([0x31, 0x32, 0x33, 0x34, 0x35, 0x36, 0x37, 0x38, 0x39]), 0x29B1)
    ensures Same(Crc16([]), 0xFFFF)
  {
    hide Register, WordCrc, WordStep, Same, DigitsFrom;
    Digits();
    DigitSteps();
    InitIsWord();
    Digit(0xFFFF, 1);
    Digit(0xC782, 2);
    Digit(0x3DBA, 3);
    Digit(0x5BCE, 4);
    Digit(0x5349, 5);
    Digit(0x4560, 6);
    Digit(0x2EF4, 7);
    Digit(0x7718, 8);
    Digit(0xA12B, 9);
    NoWords();
    RegisterIsWord(INIT, 0xFFFF, DigitsFrom(1));
    RegisterIsWord(INIT, 0xFFFF, []);
  }

  lemma InitIsWord()
    ensures Same(INIT, 0xFFFF)
  {}

  lemma NoWords()
    ensures forall v :: WordCrc(v, []) == v
  {}

  lemma Digits()
    ensures DigitsFrom(1) == [0x31, 0x32, 0x33, 0x34, 0x35, 0x36, 0x37, 0x38, 0x39] && DigitsFrom(10) == []
  {
    assert DigitsFrom(7) == [0x37, 0x38, 0x39];
    assert DigitsFrom(4) == [0x34, 0x35, 0x36, 0x37, 0x38, 0x39];
  }
}
