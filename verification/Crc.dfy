/** The checksum of viture/viture.go: a 16-bit shift register, shown to compute
    a polynomial remainder, and what follows for damaged messages. */
module Crc {
  import opened Bytes
  import opened Gf2

  const INITIAL: bv16 := 0xFFFF
  const POLYNOMIAL: bv16 := 0x1021

  /** One turn of the inner loop. */
  function Step(w: bv16): bv16 {
    if w & 0x8000 != 0 then (w << 1) ^ POLYNOMIAL else w << 1
  }

  function Steps(w: bv16, n: nat): bv16
    decreases n
  {
    if n == 0 then w else Steps(Step(w), n - 1)
  }

  /** One turn of the outer loop. */
  function ByteStep(w: bv16, c: byte): bv16 {
    Steps(Xor16(w, OnTop(c)), 8)
  }

  /** The eight turns for one byte, written out. */
  function EightSteps(w: bv16): bv16 { Step(Step(Step(Step(Step(Step(Step(Step(w)))))))) }

  lemma ByteStepUnrolled(w: bv16, c: byte)
    ensures ByteStep(w, c) == EightSteps(Xor16(w, OnTop(c)))
  {
    hide Step, Xor16, OnTop;
    var v := Xor16(w, OnTop(c));
    var u := Step(Step(Step(Step(v))));
    assert Steps(v, 8) == Steps(Step(Step(v)), 6) == Steps(u, 4) == Steps(Step(Step(u)), 2);
  }

  /** The register after the bytes b, starting from w. */
  function Run(w: bv16, b: seq<byte>): bv16
    decreases |b|
  {
    if b == [] then w else Run(ByteStep(w, b[0]), b[1..])
  }

  function Checksum(b: seq<byte>): bv16 { Run(INITIAL, b) }

  lemma {:induction false} RunFrom(w: bv16, b: seq<byte>, k: nat)
    requires k < |b|
    ensures Run(w, b[k..]) == Run(ByteStep(w, b[k]), b[k + 1..])
  {
    hide ByteStep;
    assert b[k..][1..] == b[k + 1..];
  }

  lemma StepsFrom(w: bv16, n: nat)
    requires n > 0
    ensures Steps(w, n) == Steps(Step(w), n - 1)
  {}

  lemma {:induction false} NoSteps(w: bv16)
    ensures Steps(w, 0) == w && Run(w, []) == w
  {}

  method CRC16(b: seq<byte>) returns (crc: bv16)
    ensures crc == Checksum(b)
  {
    hide Run, Steps, Xor16, OnTop;
    crc := 0xFFFF;
    assert b[0..] == b;
    for k := 0 to |b|
      invariant Run(crc, b[k..]) == Checksum(b)
    {
      ghost var before := crc;
      RunFrom(before, b, k);
      crc := Xor16(crc, OnTop(b[k]));
      for i := 0 to 8
        invariant Steps(crc, 8 - i) == ByteStep(before, b[k])
      {
        StepsFrom(crc, 8 - i);
        if crc & 0x8000 != 0 {
          crc := (crc << 1) ^ 0x1021;
        } else {
          crc := crc << 1;
        }
      }
      NoSteps(crc);
    }
    NoSteps(crc);
    assert b[|b|..] == [];
  }

  lemma {:induction false} RunAppend(w: bv16, a: seq<byte>, b: seq<byte>)
    ensures Run(w, a + b) == Run(Run(w, a), b)
    decreases |a|
  {
    hide ByteStep;
    if a == [] {
      assert a + b == b;
    } else {
      assert (a + b)[1..] == a[1..] + b;
      RunAppend(ByteStep(w, a[0]), a[1..], b);
    }
  }

  // ----- The register computes a remainder -----

  /** The bits of a step are one step of long division. */
  lemma StepIsCancel(w: bv16, k: nat)
    requires k > 0
    ensures Cancel(WordBits(w) + Zeros(k)) == WordBits(Step(w)) + Zeros(k - 1)
  {
    hide Step, WordBits;
    StepBits(w);
    var p := WordBits(w) + Zeros(k);
    assert p[1..] == (WordBits(w)[1..] + [false]) + Zeros(k - 1);
  }

  lemma StepBits(w: bv16)
    ensures WordBits(Step(w)) ==
            if WordBits(w)[0] then Plus(WordBits(w)[1..] + [false], GENERATOR_LOW) else WordBits(w)[1..] + [false]
  {
    ShiftBits(w);
    FlipBits(w << 1);
  }

  lemma FlipBits(w: bv16)
    ensures WordBits(Xor16(w, POLYNOMIAL)) == Plus(WordBits(w), GENERATOR_LOW)
  {
    hide WordBits, Xor16;
    XorBits(w, POLYNOMIAL);
    PolynomialBits();
  }

  lemma PolynomialBits()
    ensures WordBits(POLYNOMIAL) == GENERATOR_LOW
  {
    var l := WordBits(POLYNOMIAL);
    TopBitsConcat(0x1021, 4, 12);
    TopBitsConcat(0x0210, 4, 8);
    TopBitsConcat(0x2100, 4, 4);
    assert TopBits(0x1021, 4) == [false, false, false, true];
    assert TopBits(0x0210, 4) == [false, false, false, false];
    assert TopBits(0x2100, 4) == [false, false, true, false];
    assert TopBits(0x1000, 4) == [false, false, false, true];
  }

  lemma XorBits(a: bv16, b: bv16)
    ensures WordBits(Xor16(a, b)) == Plus(WordBits(a), WordBits(b))
  {
    hide WordBits, Xor16;
    WordBitsXor(a, b);
  }

  lemma {:induction false} StepsAreRem(w: bv16, n: nat)
    ensures WordBits(Steps(w, n)) == Rem(WordBits(w) + Zeros(n))
    decreases n
  {
    if n == 0 {
      assert WordBits(w) + Zeros(0) == WordBits(w);
    } else {
      StepIsCancel(w, n);
      StepsAreRem(Step(w), n - 1);
    }
  }

  /** The register w followed by the message b and sixteen zeros, as a polynomial:
      w * x^(8 * |b|) + b(x) * x^16. */
  function Dividend(w: bv16, b: seq<byte>): (p: seq<bool>)
    ensures |p| == 8 * |b| + 16
  {
    Plus(WordBits(w) + Zeros(8 * |b|), BitsOf(b) + Zeros(16))
  }

  lemma {:induction false} RunIsRem(w: bv16, b: seq<byte>)
    ensures WordBits(Run(w, b)) == Rem(Dividend(w, b))
    decreases |b|
  {
    hide WordBits, ByteStep, Xor16;
    if b == [] {
      assert Dividend(w, b) == WordBits(w);
    } else {
      var next := ByteStep(w, b[0]);
      ByteIsRem(w, b[0]);
      DividendSplits(w, b);
      RemChain(WordBits(Xor16(w, OnTop(b[0]))), WordBits(next), 8 * |b| - 8, BitsOf(b[1..]) + Zeros(16));
      RunIsRem(next, b[1..]);
    }
  }

  lemma ByteIsRem(w: bv16, c: byte)
    ensures WordBits(ByteStep(w, c)) == Rem(WordBits(Xor16(w, OnTop(c))) + Zeros(8))
  {
    StepsAreRem(Xor16(w, OnTop(c)), 8);
  }

  lemma DividendSplits(w: bv16, b: seq<byte>)
    requires b != []
    ensures Dividend(w, b) ==
            Plus((WordBits(Xor16(w, OnTop(b[0]))) + Zeros(8)) + Zeros(8 * |b| - 8),
                 Zeros(8) + (BitsOf(b[1..]) + Zeros(16)))
  {
    hide WordBits, OnTop, ByteBits, Xor16;
    var c := OnTop(b[0]);
    XorBits(w, c);
    TopByte(b[0]);
    var x, y, z := WordBits(w), WordBits(c), WordBits(Xor16(w, c));
    var bits, rest := ByteBits(b[0]), BitsOf(b[1..]);
    assert z == Plus(x, y);
    assert y == bits + Zeros(8);
    assert BitsOf(b) == bits + rest;
    assert Dividend(w, b) == Plus(x + Zeros(8 * |b|), (bits + rest) + Zeros(16));
    TopSplits(x, bits, rest, 8 * |b| - 8);
  }

  lemma TopSplits(w: seq<bool>, c: seq<bool>, rest: seq<bool>, n: nat)
    requires |w| == 16 && |c| == 8 && |rest| == n
    ensures Plus(w + Zeros(n + 8), (c + rest) + Zeros(16)) ==
            Plus((Plus(w, c + Zeros(8)) + Zeros(8)) + Zeros(n), Zeros(8) + (rest + Zeros(16)))
  {
    var l := Plus(w + Zeros(n + 8), (c + rest) + Zeros(16));
    var r := Plus((Plus(w, c + Zeros(8)) + Zeros(8)) + Zeros(n), Zeros(8) + (rest + Zeros(16)));
    forall i | 0 <= i < n + 24 ensures l[i] == r[i] {}
  }

  /** CRC16 is the remainder of 0xFFFF * x^(8n) + b(x) * x^16 by the generator, and no other word is. */
  lemma ChecksumIsRemainder(b: seq<byte>, r: bv16)
    ensures IsRemainder(Dividend(INITIAL, b), WordBits(r)) <==> r == Checksum(b)
  {
    RemainderExistsOnce(Dividend(INITIAL, b), WordBits(r));
    RunIsRem(INITIAL, b);
    if WordBits(r) == WordBits(Checksum(b)) {
      BitsDetermineWord(r, Checksum(b));
    }
  }

  // ----- Linearity -----

  lemma {:induction false} BitsOfXor(a: seq<byte>, b: seq<byte>)
    requires |a| == |b|
    ensures BitsOf(Xor(a, b)) == Plus(BitsOf(a), BitsOf(b))
  {
    if a == [] {
    } else {
      hide ByteBits, Xor8;
      ByteBitsXor(a[0], b[0]);
      assert Xor(a, b)[1..] == Xor(a[1..], b[1..]);
      BitsOfXor(a[1..], b[1..]);
      PlusConcat(ByteBits(a[0]), ByteBits(b[0]), BitsOf(a[1..]), BitsOf(b[1..]));
    }
  }

  lemma ByteBitsXor(a: byte, b: byte)
    ensures ByteBits(Xor8(a, b)) == Plus(ByteBits(a), ByteBits(b))
  {
    hide OnTop, WordBits, Xor16, Xor8;
    XorShift(a, b);
    XorBits(OnTop(a), OnTop(b));
  }

  lemma XorShift(a: byte, b: byte)
    ensures OnTop(Xor8(a, b)) == Xor16(OnTop(a), OnTop(b))
  {}

  lemma {:induction false} RunLinear(v: bv16, w: bv16, a: seq<byte>, b: seq<byte>)
    requires |a| == |b|
    ensures Run(Xor16(v, w), Xor(a, b)) == Xor16(Run(v, a), Run(w, b))
  {
    var x, y, z := Run(v, a), Run(w, b), Run(Xor16(v, w), Xor(a, b));
    RunIsRem(v, a);
    RunIsRem(w, b);
    RunIsRem(Xor16(v, w), Xor(a, b));
    DividendLinear(v, w, a, b);
    RemPlus(Dividend(v, a), Dividend(w, b));
    XorBits(x, y);
    BitsDetermineWord(z, Xor16(x, y));
  }

  lemma DividendLinear(v: bv16, w: bv16, a: seq<byte>, b: seq<byte>)
    requires |a| == |b|
    ensures Dividend(Xor16(v, w), Xor(a, b)) == Plus(Dividend(v, a), Dividend(w, b))
  {
    XorBits(v, w);
    BitsOfXor(a, b);
    var z := Zeros(8 * |a|);
    PlusZeros(z);
    PlusZeros(Zeros(16));
    PlusConcat(WordBits(v), WordBits(w), z, z);
    PlusConcat(BitsOf(a), BitsOf(b), Zeros(16), Zeros(16));
    PlusExchange(WordBits(v) + z, BitsOf(a) + Zeros(16), WordBits(w) + z, BitsOf(b) + Zeros(16));
  }

  /** The checksum is affine. */
  lemma ChecksumAffine(a: seq<byte>, b: seq<byte>, c: seq<byte>)
    requires |a| == |b| == |c|
    ensures Checksum(Xor(Xor(a, b), c)) == Xor16(Xor16(Checksum(a), Checksum(b)), Checksum(c))
  {
    hide Run;
    RunLinear(INITIAL, INITIAL, a, b);
    RunLinear(Xor16(INITIAL, INITIAL), INITIAL, Xor(a, b), c);
    assert Xor16(Xor16(INITIAL, INITIAL), INITIAL) == INITIAL;
  }

  /** Damage e changes the checksum by Run(0, e), whatever the message was. */
  lemma {:induction false} ChecksumOfDamaged(b: seq<byte>, e: seq<byte>)
    requires |b| == |e|
    ensures Checksum(Xor(b, e)) == Xor16(Checksum(b), Run(0, e))
  {
    hide Run;
    RunLinear(INITIAL, 0, b, e);
    assert Xor16(INITIAL, 0) == INITIAL;
  }

  // ----- What damage cannot cancel out -----

  /** Some bit of e is set, and all set bits lie within 16 consecutive ones from bit k on. */
  ghost predicate BurstAt(e: seq<byte>, k: nat) {
    && true in BitsOf(e)
    && forall j :: 0 <= j < 8 * |e| && BitsOf(e)[j] ==> k <= j < k + 16
  }

  lemma {:induction false} BurstChangesChecksum(e: seq<byte>, k: nat)
    requires BurstAt(e, k)
    ensures Run(0, e) != 0
  {
    var s := BitsOf(e) + Zeros(16);
    var j :| 0 <= j < 8 * |e| && BitsOf(e)[j];
    assert s[j];
    hide WordBits;
    WordBitsOfZero();
    PlusZeros(s);
    assert Zeros(16) + Zeros(8 * |e|) == Zeros(|s|);
    BurstNotMultiple(s, k);
    RunIsRem(0, e);
  }

  /** The register has an odd number of set bits exactly when start and message together do. */
  lemma {:induction false} RunParity(w: bv16, b: seq<byte>)
    ensures Ones(WordBits(Run(w, b))) % 2 == (Ones(WordBits(w)) + Ones(BitsOf(b))) % 2
  {
    hide *;
    RunIsRem(w, b);
    RemParity(Dividend(w, b));
    DividendParity(w, b);
  }

  lemma {:induction false} DividendParity(w: bv16, b: seq<byte>)
    ensures Ones(Dividend(w, b)) % 2 == (Ones(WordBits(w)) + Ones(BitsOf(b))) % 2
  {
    hide WordBits, BitsOf, Ones, Zeros, Plus;
    OnesPlus(WordBits(w) + Zeros(8 * |b|), BitsOf(b) + Zeros(16));
    OnesConcat(WordBits(w), Zeros(8 * |b|));
    OnesConcat(BitsOf(b), Zeros(16));
    OnesZeros(8 * |b|);
    OnesZeros(16);
  }

  // ----- The check value of this variant -----

  /** The digits one to nine, and the register after each of them. */
  const NINE_DIGITS: seq<byte> := [0x31, 0x32, 0x33, 0x34, 0x35, 0x36, 0x37, 0x38, 0x39]
  const NINE_TRACE: seq<bv16> :=
    [0xFFFF, 0xC782, 0x3DBA, 0x5BCE, 0x5349, 0x4560, 0x2EF4, 0x7718, 0xA12B, 0x29B1]

  predicate NineStep(k: nat)
    requires k < 9
  {
    EightSteps(Xor16(NINE_TRACE[k], OnTop(NINE_DIGITS[k]))) == NINE_TRACE[k + 1]
  }

  lemma NineSteps0()
    ensures NineStep(0) && NineStep(1) && NineStep(2)
  {}

  lemma NineSteps1()
    ensures NineStep(3) && NineStep(4) && NineStep(5)
  {}

  lemma NineSteps2()
    ensures NineStep(6) && NineStep(7) && NineStep(8)
  {}

  lemma NineStepsAll(k: nat)
    requires k < 9
    ensures NineStep(k)
  {
    hide NineStep;
    NineSteps0(); NineSteps1(); NineSteps2();
  }

  lemma {:induction false} NineRun(k: nat)
    requires k <= 9
    ensures Run(INITIAL, NINE_DIGITS[..k]) == NINE_TRACE[k]
  {
    hide ByteStep, EightSteps;
    if k == 0 {
    } else {
      var b, c := NINE_DIGITS[..k - 1], NINE_DIGITS[k - 1];
      NineRun(k - 1);
      NineStepsAll(k - 1);
      ByteStepUnrolled(NINE_TRACE[k - 1], c);
      assert NINE_DIGITS[..k] == b + [c];
      RunAppend(INITIAL, b, [c]);
      assert [c][1..] == [];
    }
  }

  /** The check value of CRC-16/CCITT-FALSE. */
  lemma CheckValue()
    ensures Checksum([0x31, 0x32, 0x33, 0x34, 0x35, 0x36, 0x37, 0x38, 0x39]) == 0x29B1
  {
    assert NINE_DIGITS[..9] == [0x31, 0x32, 0x33, 0x34, 0x35, 0x36, 0x37, 0x38, 0x39];
    hide Run;
    NineRun(9);
  }
}
