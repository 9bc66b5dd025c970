/** How often a shift brings the register of the checksum back: x has order
    32767 modulo the generator, which decides what two flipped bits can hide. */
module Order {
  import opened Bytes
  import opened Gf2
  import opened Crc

  // ----- The shift is linear and loses nothing -----

  lemma {:induction false} StepsXor(a: bv16, b: bv16, n: nat)
    ensures Steps(Xor16(a, b), n) == Xor16(Steps(a, n), Steps(b, n))
  {
    hide Steps, Xor16, WordBits;
    var x, y, z := Steps(a, n), Steps(b, n), Steps(Xor16(a, b), n);
    StepsAreRem(a, n);
    StepsAreRem(b, n);
    StepsAreRem(Xor16(a, b), n);
    XorBits(a, b);
    PlusZeros(Zeros(n));
    PlusConcat(WordBits(a), WordBits(b), Zeros(n), Zeros(n));
    RemPlus(WordBits(a) + Zeros(n), WordBits(b) + Zeros(n));
    XorBits(x, y);
    BitsDetermineWord(z, Xor16(x, y));
  }

  lemma ShiftedOut(w: bv16)
    ensures (if w & 0x8000 != 0 then (w << 1) ^ 0x1021 else w << 1) == 0 <==> w == 0
  {}

  lemma XorZeroIff(a: bv16, b: bv16)
    ensures Xor16(a, b) == 0 <==> a == b
  {
    PlainXor(a, b);
  }

  lemma PlainXor(a: bv16, b: bv16)
    ensures a ^ b == 0 <==> a == b
  {}

  lemma StepInjective(a: bv16, b: bv16)
    ensures Step(a) == Step(b) <==> a == b
  {
    StepsXor(a, b, 1);
    OneStep(a);
    OneStep(b);
    OneStep(Xor16(a, b));
    StepZeroIff(Xor16(a, b));
    hide *;
    XorZeroIff(a, b);
    XorZeroIff(Step(a), Step(b));
  }

  lemma StepZeroIff(w: bv16)
    ensures Step(w) == 0 <==> w == 0
  {
    ShiftedOut(w);
  }

  lemma {:induction false} OneStep(w: bv16)
    ensures Steps(w, 1) == Step(w)
  {
    hide Step;
    assert Steps(w, 1) == Steps(Step(w), 0);
  }

  lemma {:induction false} StepsInjective(a: bv16, b: bv16, n: nat)
    ensures Steps(a, n) == Steps(b, n) <==> a == b
    decreases n
  {
    hide Step;
    if n == 0 {
    } else {
      StepInjective(a, b);
      StepsInjective(Step(a), Step(b), n - 1);
    }
  }

  lemma {:induction false} StepsAdd(w: bv16, m: nat, n: nat)
    ensures Steps(w, m + n) == Steps(Steps(w, m), n)
    decreases m
  {
    hide Step;
    if m == 0 {
    } else {
      StepsAdd(Step(w), m - 1, n);
    }
  }

  lemma StepLast(w: bv16, n: nat)
    ensures Steps(w, n + 1) == Step(Steps(w, n))
  {
    hide Step;
    StepsAdd(w, n, 1);
    OneStep(Steps(w, n));
  }

  // ----- Multiplying residues -----

  function Pick(v: bv16, mask: bv16, u: bv16): bv16 { if v & mask != 0 then u else 0 }

  /** One coefficient of v times u, on top of what the higher ones gave. */
  function Turn(v: bv16, mask: bv16, u: bv16, acc: bv16): bv16 { Xor16(Step(acc), Pick(v, mask, u)) }

  function Upper(v: bv16, u: bv16): bv16 {
    Turn(v, 0x0100, u, Turn(v, 0x0200, u, Turn(v, 0x0400, u, Turn(v, 0x0800, u,
    Turn(v, 0x1000, u, Turn(v, 0x2000, u, Turn(v, 0x4000, u, Turn(v, 0x8000, u, 0))))))))
  }

  function Lower(v: bv16, u: bv16, acc: bv16): bv16 {
    Turn(v, 0x0001, u, Turn(v, 0x0002, u, Turn(v, 0x0004, u, Turn(v, 0x0008, u,
    Turn(v, 0x0010, u, Turn(v, 0x0020, u, Turn(v, 0x0040, u, Turn(v, 0x0080, u, acc))))))))
  }

  /** The product of two residues, by Horner's rule. */
  function Mul(v: bv16, u: bv16): bv16 { Lower(v, u, Upper(v, u)) }

  /** The coefficients of v down to one place, from those down to the place above. */
  predicate Prefix(above: bv16, here: bv16, v: bv16, mask: bv16) {
    above & 0x8000 == 0 && here == (above << 1) ^ (if v & mask != 0 then 1 else 0)
  }

  lemma {:induction false} TurnSteps(above: bv16, here: bv16, v: bv16, mask: bv16, n: nat)
    requires Prefix(above, here, v, mask)
    ensures Steps(here, n) == Turn(v, mask, Steps(1, n), Steps(above, n))
  {
    var unit: bv16 := if v & mask != 0 then 1 else 0;
    assert here == Xor16(Step(above), unit);
    StepsXor(Step(above), unit, n);
    ZeroStays(n);
    hide Step, Xor16;
    StepsAdd(above, 1, n);
    StepLast(above, n);
    OneStep(above);
  }

  lemma {:induction false} ZeroStays(n: nat)
    ensures Steps(0, n) == 0
    decreases n
  {
    if n == 0 {
    } else {
      ZeroStays(n - 1);
    }
  }

  lemma UpperPrefixes(v: bv16)
    ensures Prefix(0, v >> 15, v, 0x8000)
    ensures Prefix(v >> 15, v >> 14, v, 0x4000)
    ensures Prefix(v >> 14, v >> 13, v, 0x2000)
    ensures Prefix(v >> 13, v >> 12, v, 0x1000)
    ensures Prefix(v >> 12, v >> 11, v, 0x0800)
    ensures Prefix(v >> 11, v >> 10, v, 0x0400)
    ensures Prefix(v >> 10, v >> 9, v, 0x0200)
    ensures Prefix(v >> 9, v >> 8, v, 0x0100)
  {}

  lemma LowerPrefixes(v: bv16)
    ensures Prefix(v >> 8, v >> 7, v, 0x0080)
    ensures Prefix(v >> 7, v >> 6, v, 0x0040)
    ensures Prefix(v >> 6, v >> 5, v, 0x0020)
    ensures Prefix(v >> 5, v >> 4, v, 0x0010)
    ensures Prefix(v >> 4, v >> 3, v, 0x0008)
    ensures Prefix(v >> 3, v >> 2, v, 0x0004)
    ensures Prefix(v >> 2, v >> 1, v, 0x0002)
    ensures Prefix(v >> 1, v, v, 0x0001)
  {}

  lemma {:induction false} UpperSteps(v: bv16, n: nat)
    ensures Steps(v >> 8, n) == Upper(v, Steps(1, n))
  {
    UpperPrefixes(v);
    hide Prefix, Turn;
    ZeroStays(n);
    TurnSteps(0, v >> 15, v, 0x8000, n);
    TurnSteps(v >> 15, v >> 14, v, 0x4000, n);
    TurnSteps(v >> 14, v >> 13, v, 0x2000, n);
    TurnSteps(v >> 13, v >> 12, v, 0x1000, n);
    TurnSteps(v >> 12, v >> 11, v, 0x0800, n);
    TurnSteps(v >> 11, v >> 10, v, 0x0400, n);
    TurnSteps(v >> 10, v >> 9, v, 0x0200, n);
    TurnSteps(v >> 9, v >> 8, v, 0x0100, n);
  }

  lemma LowerSteps(v: bv16, n: nat)
    ensures Steps(v, n) == Lower(v, Steps(1, n), Steps(v >> 8, n))
  {
    LowerPrefixes(v);
    hide Prefix, Turn;
    TurnSteps(v >> 8, v >> 7, v, 0x0080, n);
    TurnSteps(v >> 7, v >> 6, v, 0x0040, n);
    TurnSteps(v >> 6, v >> 5, v, 0x0020, n);
    TurnSteps(v >> 5, v >> 4, v, 0x0010, n);
    TurnSteps(v >> 4, v >> 3, v, 0x0008, n);
    TurnSteps(v >> 3, v >> 2, v, 0x0004, n);
    TurnSteps(v >> 2, v >> 1, v, 0x0002, n);
    TurnSteps(v >> 1, v, v, 0x0001, n);
  }

  /** Shifting v on n times multiplies it by what n shifts make of one. */
  lemma {:induction false} MulSteps(v: bv16, n: nat)
    ensures Steps(v, n) == Mul(v, Steps(1, n))
  {
    hide Upper, Lower, Steps;
    UpperSteps(v, n);
    LowerSteps(v, n);
  }

  /** x to the n-th, reduced. */
  function Power(n: nat): bv16 { Steps(1, n) }

  lemma PowerSum(m: nat, n: nat)
    ensures Power(m + n) == Mul(Power(m), Power(n))
  {
    hide Mul, Steps;
    StepsAdd(1, m, n);
    MulSteps(Power(m), n);
  }

  // ----- The powers that decide the order -----

  lemma SmallPowers()
    ensures Power(1) == 0x0002 && Power(8) == 0x0100 && Power(16) == 0x1021
  {
    assert Steps(1, 8) == Steps(0x10, 4) == Steps(0x100, 0);
    assert Steps(0x100, 8) == Steps(0x1000, 4) == Steps(0x8000, 1) == Steps(0x1021, 0);
    StepsAdd(1, 8, 8);
  }

  lemma Product16And16()
    ensures Mul(0x1021, 0x1021) == 0x3730
  {}

  lemma Product32And32()
    ensures Mul(0x3730, 0x3730) == 0xb861
  {}

  lemma Product64And64()
    ensures Mul(0xb861, 0xb861) == 0xaefc
  {}

  lemma Product128And128()
    ensures Mul(0xaefc, 0xaefc) == 0x8e29
  {}

  lemma Product256And256()
    ensures Mul(0x8e29, 0x8e29) == 0x13fc
  {}

  lemma Product512And512()
    ensures Mul(0x13fc, 0x13fc) == 0x36c4
  {}

  lemma Product1024And1024()
    ensures Mul(0x36c4, 0x36c4) == 0xfd50
  {}

  lemma Product2048And2048()
    ensures Mul(0xfd50, 0xfd50) == 0xaa9e
  {}

  lemma Product4096And4096()
    ensures Mul(0xaa9e, 0xaa9e) == 0x881c
  {}

  lemma Product8192And8192()
    ensures Mul(0x881c, 0x881c) == 0x4458
  {}

  lemma Product16384And16384()
    ensures Mul(0x4458, 0x4458) == 0x0002
  {}

  lemma Product128And64()
    ensures Mul(0xaefc, 0xb861) == 0x650b
  {}

  lemma Product192And16()
    ensures Mul(0x650b, 0x1021) == 0x45b4
  {}

  lemma Product208And8()
    ensures Mul(0x45b4, 0x0100) == 0xac61
  {}

  lemma Product216And1()
    ensures Mul(0xac61, 0x0002) == 0x48e3
  {}

  lemma Product1024And32()
    ensures Mul(0x36c4, 0x3730) == 0xf147
  {}

  lemma Product1056And1()
    ensures Mul(0xf147, 0x0002) == 0xf2af
  {}

  lemma Product4096And512()
    ensures Mul(0xaa9e, 0x13fc) == 0x54a0
  {}

  lemma Product4608And64()
    ensures Mul(0x54a0, 0xb861) == 0x0106
  {}

  lemma Product4672And8()
    ensures Mul(0x0106, 0x0100) == 0x1621
  {}

  lemma Product4680And1()
    ensures Mul(0x1621, 0x0002) == 0x2c42
  {}

  lemma Doublings()
    ensures Power(16) == 0x1021
    ensures Power(32) == 0x3730
    ensures Power(64) == 0xb861
    ensures Power(128) == 0xaefc
    ensures Power(256) == 0x8e29
    ensures Power(512) == 0x13fc
    ensures Power(1024) == 0x36c4
    ensures Power(2048) == 0xfd50
    ensures Power(4096) == 0xaa9e
    ensures Power(8192) == 0x881c
    ensures Power(16384) == 0x4458
    ensures Power(32768) == 0x0002
  {
    hide Power, Mul;
    SmallPowers();
    Product16And16();
    PowerSum(16, 16);
    Product32And32();
    PowerSum(32, 32);
    Product64And64();
    PowerSum(64, 64);
    Product128And128();
    PowerSum(128, 128);
    Product256And256();
    PowerSum(256, 256);
    Product512And512();
    PowerSum(512, 512);
    Product1024And1024();
    PowerSum(1024, 1024);
    Product2048And2048();
    PowerSum(2048, 2048);
    Product4096And4096();
    PowerSum(4096, 4096);
    Product8192And8192();
    PowerSum(8192, 8192);
    Product16384And16384();
    PowerSum(16384, 16384);
  }

  lemma Power217()
    ensures Power(217) == 0x48e3
  {
    hide Power, Mul;
    SmallPowers();
    Doublings();
    Product128And64();
    PowerSum(128, 64);
    Product192And16();
    PowerSum(192, 16);
    Product208And8();
    PowerSum(208, 8);
    Product216And1();
    PowerSum(216, 1);
  }

  lemma Power1057()
    ensures Power(1057) == 0xf2af
  {
    hide Power, Mul;
    SmallPowers();
    Doublings();
    Product1024And32();
    PowerSum(1024, 32);
    Product1056And1();
    PowerSum(1056, 1);
  }

  lemma Power4681()
    ensures Power(4681) == 0x2c42
  {
    hide Power, Mul;
    SmallPowers();
    Doublings();
    Product4096And512();
    PowerSum(4096, 512);
    Product4608And64();
    PowerSum(4608, 64);
    Product4672And8();
    PowerSum(4672, 8);
    Product4680And1();
    PowerSum(4680, 1);
  }

  // ----- The order -----

  /** d shifts bring every register back. */
  predicate Returns(d: nat) { Power(d) == 1 }

  lemma ReturnsSum(a: nat, b: nat)
    requires Returns(a)
    ensures Returns(a + b) <==> Returns(b)
  {
    hide Steps;
    StepsAdd(1, a, b);
  }

  lemma {:induction false} ReturnsTimes(a: nat, k: nat)
    requires Returns(a)
    ensures Returns(a * k)
    decreases k
  {
    if k == 0 {
      assert a * 0 == 0;
    } else {
      hide Power;
      ReturnsTimes(a, k - 1);
      assert a * k == a + a * (k - 1);
      ReturnsSum(a, a * (k - 1));
    }
  }

  lemma ReturnsAfterOrder()
    ensures Returns(32767)
  {
    Doublings();
    hide Step, Steps;
    StepLast(1, 32767);
    OneStep(1);
    SmallPowers();
    StepInjective(Power(32767), 1);
  }

  /** The greatest common divisor, by division. */
  function Gcd(a: nat, b: nat): nat
    decreases b
  {
    if b == 0 then a else Gcd(b, a % b)
  }

  lemma {:induction false} GcdDivides(a: nat, b: nat)
    requires a > 0 || b > 0
    ensures Gcd(a, b) > 0 && a % Gcd(a, b) == 0 && b % Gcd(a, b) == 0
    decreases b
  {
    if b == 0 {
      assert a % a == 0;
    } else {
      var q, r := a / b, a % b;
      GcdDivides(b, r);
      DividesSum(Gcd(b, r), b, r, q);
      assert a == q * b + r;
    }
  }

  lemma DividesSum(g: nat, b: nat, r: nat, q: nat)
    requires g > 0 && b % g == 0 && r % g == 0
    ensures (q * b + r) % g == 0
  {
    var m, n := b / g, r / g;
    assert q * b + r == g * (q * m + n) by {
      assert b == g * m && r == g * n;
      assert q * (g * m) == g * (q * m);
    }
    MultipleOf(g, q * m + n);
  }

  lemma MultipleOf(g: nat, k: nat)
    requires g > 0
    ensures (g * k) % g == 0 && (g * k) / g == k
  {
    DivideOut(g, k, (g * k) / g, (g * k) % g);
  }

  lemma DivideOut(g: nat, k: nat, q: int, r: int)
    requires g > 0 && g * k == g * q + r && 0 <= r < g
    ensures q == k && r == 0
  {
    assert g * (k - q) == r;
    ScalesUp(g, k - q);
  }

  lemma ScalesUp(g: int, t: int)
    requires g > 0
    ensures t >= 1 ==> g * t >= g
    ensures t <= -1 ==> g * t <= -g
  {}

  /** What returns after both a * m and b * m shifts returns after Gcd(a, b) * m. */
  lemma {:induction false} ReturnsGcd(a: nat, b: nat, m: nat)
    requires Returns(a * m) && Returns(b * m)
    ensures Returns(Gcd(a, b) * m)
    decreases b
  {
    hide Returns;
    if b == 0 {
    } else {
      var q, r := a / b, a % b;
      ReturnsTimes(b * m, q);
      assert a == q * b + r;
      assert a * m == b * m * q + r * m by {
        assert (q * b + r) * m == q * b * m + r * m;
        assert q * b * m == b * m * q;
      }
      ReturnsSum(b * m * q, r * m);
      ReturnsGcd(b, r, m);
    }
  }

  predicate Prime(p: nat) { p > 1 && forall g :: 1 < g < p ==> p % g != 0 }

  /** A prime factor of the order divides every number of shifts that returns,
      when the rest of the order does not return by itself. */
  lemma FactorDivides(p: nat, m: nat, d: nat)
    requires Prime(p) && Returns(p * m) && !Returns(m) && Returns(d)
    ensures d % p == 0
  {
    hide Returns;
    ReturnsTimes(d, m);
    GcdDivides(p, d);
    ReturnsGcd(p, d, m);
    var g := Gcd(p, d);
    assert g <= p by {
      if g > p { SmallRemainder(p, g); }
    }
    assert 1 * m == m;
  }

  lemma SmallRemainder(p: nat, g: nat)
    requires 0 < p < g
    ensures p % g == p
  {}

  lemma PrimeSeven()
    ensures Prime(7)
  {}

  lemma PrimeThirtyOne()
    ensures Prime(31)
  {
    forall g | 1 < g < 31
      ensures 31 % g != 0
    {
      SmallFactor(31, g, 5);
    }
  }

  lemma PrimeOneFiftyOne()
    ensures Prime(151)
  {
    forall g | 1 < g < 151
      ensures 151 % g != 0
    {
      SmallFactor(151, g, 12);
    }
  }

  /** A number with a proper factor has one not above its root. */
  lemma SmallFactor(p: nat, g: nat, root: nat)
    requires 1 < g < p && 0 < root && p < (root + 1) * (root + 1)
    requires forall k :: 2 <= k <= root ==> p % k != 0
    ensures p % g != 0
  {
    if p % g == 0 {
      var k := p / g;
      assert p == g * k;
      FactorBounds(p, g, k, root);
      MultipleOf(k, g);
    }
  }

  lemma FactorBounds(p: nat, g: nat, k: nat, root: nat)
    requires 1 < g < p && p == g * k && p < (root + 1) * (root + 1)
    ensures 1 < k && (g <= root || k <= root)
  {
    assert k == 0 ==> g * k == 0;
    assert k == 1 ==> g * k == g;
    ScalesBoth(g, k, root);
  }

  lemma ScalesBoth(g: nat, k: nat, root: nat)
    ensures g > root && k > root ==> g * k >= (root + 1) * (root + 1)
  {
    if g > root && k > root {
      assert g * k >= (root + 1) * k >= (root + 1) * (root + 1);
    }
  }

  /** A number divisible by all three factors of the order is divisible by it. */
  lemma AllFactors(d: nat)
    requires d % 7 == 0 && d % 31 == 0 && d % 151 == 0
    ensures d % 32767 == 0
  {
    var e := CommonMultiple(d, d / 7, d / 31, d / 151);
    MultipleOf(32767, e);
  }

  lemma CommonMultiple(d: nat, a: int, b: int, c: int) returns (k: nat)
    requires d == 7 * a && d == 31 * b && d == 151 * c
    ensures d == 32767 * k
  {
    var e := 9 * b - 2 * a;
    assert d == 217 * e;
    k := 23 * e - 16 * c;
  }

  /** Exactly the multiples of 32767 shifts bring the register back. */
  lemma ReturnsIff(d: nat)
    ensures Returns(d) <==> d % 32767 == 0
  {
    ReturnsAfterOrder();
    if d % 32767 == 0 {
      ReturnsTimes(32767, d / 32767);
      assert 32767 * (d / 32767) == d;
    }
    if Returns(d) {
      Power217();
      Power1057();
      Power4681();
      PrimeSeven();
      PrimeThirtyOne();
      PrimeOneFiftyOne();
      hide Power, Prime;
      FactorDivides(7, 4681, d);
      FactorDivides(31, 1057, d);
      FactorDivides(151, 217, d);
      AllFactors(d);
    }
  }

  // ----- Two flipped bits -----

  /** Exactly the bits i and j are set. */
  predicate TwoFlips(s: seq<bool>, i: nat, j: nat) {
    i < j < |s| && forall k :: 0 <= k < |s| ==> (s[k] <==> k == i || k == j)
  }

  /** A single coefficient with n places below it. */
  function Flip(above: nat, n: nat): (p: seq<bool>)
    ensures |p| == above + 1 + n
  {
    Zeros(above) + ([true] + Zeros(n))
  }

  /** Reduced, it is x to the n-th. */
  lemma FlipIsPower(above: nat, n: nat)
    requires above + 1 + n >= 16
    ensures Rem(Flip(above, n)) == WordBits(Power(n))
  {
    UnitBits(true);
    StepsAreRem(1, n);
    var p := Zeros(15) + ([true] + Zeros(n));
    assert Zeros(15) + [true] + Zeros(n) == p;
    assert Zeros(15) + Flip(above, n) == Zeros(above) + p;
    hide WordBits, Rem, Steps, Flip;
    RemLeadingZeros(15, Flip(above, n));
    RemLeadingZeros(above, p);
  }

  lemma FlipsSplit(s: seq<bool>, i: nat, j: nat)
    requires TwoFlips(s, i, j)
    ensures s == Plus(Flip(i, |s| - i - 1), Flip(j, |s| - j - 1))
  {
    var a, b := Flip(i, |s| - i - 1), Flip(j, |s| - j - 1);
    assert forall k :: 0 <= k < |a| ==> a[k] == (k == i);
    assert forall k :: 0 <= k < |b| ==> b[k] == (k == j);
    hide Flip;
    assert s == Plus(a, b);
  }

  /** A polynomial of two coefficients is a multiple of the generator exactly
      when they are a multiple of 32767 places apart. */
  lemma {:induction false} TwoFlipsMultipleIff(s: seq<bool>, i: nat, j: nat)
    requires TwoFlips(s, i, j) && |s| >= 16
    ensures Rem(s) == Zeros(16) <==> (j - i) % 32767 == 0
  {
    var below := |s| - j - 1;
    hide *;
    FlipsInside(s, i, j);
    RemOfFlips(s, i, j);
    PlusIsZeroIff(Power(j - i + below), Power(below));
    PowersMeetIff(j - i, below);
  }

  lemma FlipsInside(s: seq<bool>, i: nat, j: nat)
    requires TwoFlips(s, i, j)
    ensures i < j < |s|
  {}

  lemma {:induction false} RemOfFlips(s: seq<bool>, i: nat, j: nat)
    requires TwoFlips(s, i, j) && |s| >= 16
    ensures Rem(s) == Plus(WordBits(Power(|s| - i - 1)), WordBits(Power(|s| - j - 1)))
  {
    hide *;
    FlipsInside(s, i, j);
    FlipsSplit(s, i, j);
    FlipIsPower(i, |s| - i - 1);
    FlipIsPower(j, |s| - j - 1);
    RemOfSum(s, Flip(i, |s| - i - 1), Flip(j, |s| - j - 1));
  }

  lemma {:induction false} RemOfSum(s: seq<bool>, a: seq<bool>, b: seq<bool>)
    requires |a| == |b| >= 16 && s == Plus(a, b)
    ensures Rem(s) == Plus(Rem(a), Rem(b))
  {
    hide *;
    RemPlus(a, b);
  }

  lemma PowersMeetIff(d: nat, below: nat)
    ensures Power(d + below) == Power(below) <==> d % 32767 == 0
  {
    hide Steps;
    StepsAdd(1, d, below);
    StepsInjective(Power(d), 1, below);
    ReturnsIff(d);
  }

  lemma PlusIsZeroIff(x: bv16, y: bv16)
    ensures Plus(WordBits(x), WordBits(y)) == Zeros(16) <==> x == y
  {
    hide WordBits, Xor16;
    XorBits(x, y);
    WordBitsOfZero();
    XorZeroIff(x, y);
    if WordBits(Xor16(x, y)) == WordBits(0) {
      BitsDetermineWord(Xor16(x, y), 0);
    }
  }

  /** Two flips in a message leave its checksum alone exactly when they are a
      multiple of 32767 places apart. */
  lemma {:induction false} TwoFlipsUnseenIff(e: seq<byte>, i: nat, j: nat)
    requires TwoFlips(BitsOf(e), i, j)
    ensures Run(0, e) == 0 <==> (j - i) % 32767 == 0
  {
    var s := BitsOf(e) + Zeros(16);
    hide Run, Rem, WordBits;
    RunOfZeroIsRem(e);
    TwoFlipsMultipleIff(s, i, j);
    WordBitsOfZero();
    if WordBits(Run(0, e)) == WordBits(0) {
      BitsDetermineWord(Run(0, e), 0);
    }
  }

  lemma {:induction false} RunOfZeroIsRem(e: seq<byte>)
    ensures WordBits(Run(0, e)) == Rem(BitsOf(e) + Zeros(16))
  {
    RunIsRem(0, e);
    WordBitsOfZero();
    hide WordBits, Run, Rem;
    var s := BitsOf(e) + Zeros(16);
    PlusZeros(s);
    assert Zeros(16) + Zeros(8 * |e|) == Zeros(|s|);
  }

  /** A message followed by a word is a multiple of the generator exactly when
      the word is what the message runs to from zero. */
  lemma {:induction false} MultipleIff(e: seq<byte>, w: bv16)
    ensures Rem(BitsOf(e) + WordBits(w)) == Zeros(16) <==> Run(0, e) == w
  {
    var n := 8 * |e|;
    var a, b := BitsOf(e) + Zeros(16), Zeros(n) + WordBits(w);
    RemOfWord(w);
    hide WordBits, Run, Rem;
    PlusZeros(BitsOf(e));
    PlusZeros(WordBits(w));
    PlusConcat(BitsOf(e), Zeros(n), Zeros(16), WordBits(w));
    RemPlus(a, b);
    RunOfZeroIsRem(e);
    RemLeadingZeros(n, WordBits(w));
    PlusIsZeroIff(Run(0, e), w);
  }

  lemma RemOfWord(w: bv16)
    ensures Rem(WordBits(w)) == WordBits(w)
  {}
}
