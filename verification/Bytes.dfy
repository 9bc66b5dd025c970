/** Bytes and words as bit vectors, and bit strings, for the checksummed frames.
    A bit string lists its bits most significant first, byte after byte. */
module Bytes {
  type byte = bv8

  function Hi(w: bv16): byte { (w >> 8) as bv8 }

  function Lo(w: bv16): byte { (w & 0xFF) as bv8 }

  /** The 16-bit word whose high and low bytes are given. */
  function Word(hi: byte, lo: byte): bv16 { ((hi as bv16) << 8) | (lo as bv16) }

  lemma WordSplits(w: bv16)
    ensures Word(Hi(w), Lo(w)) == w
  {}

  /** The high byte counts 256 times. */
  lemma WordInNumbers(hi: byte, lo: byte)
    ensures Word(hi, lo) == 256 * (hi as bv16) + (lo as bv16)
    ensures Hi(Word(hi, lo)) == hi && Lo(Word(hi, lo)) == lo
  {}

  function Xor16(a: bv16, b: bv16): bv16 { a ^ b }

  function Xor8(a: byte, b: byte): byte { a ^ b }

  /** Pointwise exclusive or: the damage `e` done to the bytes `a`. */
  function Xor(a: seq<byte>, e: seq<byte>): (r: seq<byte>)
    requires |a| == |e|
    ensures |r| == |a|
    ensures forall i :: 0 <= i < |a| ==> r[i] == Xor8(a[i], e[i])
  {
    seq(|a|, i requires 0 <= i < |a| => Xor8(a[i], e[i]))
  }

  function Zeros(n: nat): (r: seq<bool>)
    ensures |r| == n && forall i :: 0 <= i < n ==> !r[i]
  {
    seq(n, _ => false)
  }

  function TopBit(w: bv16): bool { w & 0x8000 != 0 }

  function Twice(w: bv16): bv16 { w << 1 }

  function Shl(w: bv16, n: nat): bv16
    decreases n
  {
    if n == 0 then w else Shl(Twice(w), n - 1)
  }

  /** The first n bits of a word, most significant first. */
  function TopBits(w: bv16, n: nat): (r: seq<bool>)
    ensures |r| == n
    decreases n
  {
    if n == 0 then [] else [TopBit(w)] + TopBits(Twice(w), n - 1)
  }

  function WordBits(w: bv16): (r: seq<bool>)
    ensures |r| == 16
  {
    TopBits(w, 16)
  }

  /** The word with the given byte as its high half and zeros below. */
  function OnTop(c: byte): bv16 { (c as bv16) << 8 }

  /** The bits of a byte: those of the word that has it on top. */
  function ByteBits(c: byte): (r: seq<bool>)
    ensures |r| == 8
  {
    WordBits(OnTop(c))[..8]
  }

  function BitsOf(b: seq<byte>): (r: seq<bool>)
    ensures |r| == 8 * |b|
  {
    if b == [] then [] else ByteBits(b[0]) + BitsOf(b[1..])
  }

  /** How many bits of the string are set. */
  function Ones(s: seq<bool>): nat {
    if s == [] then 0 else (if s[0] then 1 else 0) + Ones(s[1..])
  }

  // ----- Bits of shifted and of xored words -----

  lemma {:induction false} TopBitsConcat(w: bv16, m: nat, n: nat)
    ensures TopBits(w, m + n) == TopBits(w, m) + TopBits(Shl(w, m), n)
    decreases m
  {
    if m == 0 {
    } else {
      TopBitsConcat(Twice(w), m - 1, n);
    }
  }

  lemma {:induction false} TopBitsOfZero(n: nat)
    ensures TopBits(0, n) == Zeros(n)
    decreases n
  {
    if n == 0 {
    } else {
      ZeroShifted();
      TopBitsOfZero(n - 1);
      assert Zeros(n) == [false] + Zeros(n - 1);
    }
  }

  lemma ZeroShifted()
    ensures Twice(0) == 0 && !TopBit(0)
  {}

  lemma {:induction false} ShlAll(w: bv16)
    ensures Shl(w, 16) == 0
  {
    var a := w << 1 << 1 << 1 << 1;
    var b := a << 1 << 1 << 1 << 1;
    var c := b << 1 << 1 << 1 << 1;
    assert Shl(w, 16) == Shl(a, 12);
    assert Shl(a, 12) == Shl(b, 8);
    assert Shl(b, 8) == Shl(c, 4);
    assert Shl(c, 4) == c << 1 << 1 << 1 << 1;
  }

  lemma ShiftBits(w: bv16)
    ensures WordBits(w << 1) == WordBits(w)[1..] + [false]
  {
    TopBitsConcat(Twice(w), 15, 1);
    ShlAll(w);
    assert Shl(w << 1, 15) == 0;
    TopBitsOfZero(1);
  }

  lemma {:induction false} XorTopBit(a: bv16, b: bv16, c: bv16, n: nat, i: nat)
    requires c == Xor16(a, b) && i < n
    ensures TopBits(c, n)[i] == (TopBits(a, n)[i] != TopBits(b, n)[i])
    decreases n
  {
    hide TopBit, Twice, Xor16;
    XorOneBit(a, b, c);
    if i == 0 {
    } else {
      XorTopBit(Twice(a), Twice(b), Twice(c), n - 1, i - 1);
    }
  }

  lemma XorOneBit(a: bv16, b: bv16, c: bv16)
    requires c == Xor16(a, b)
    ensures TopBit(c) == (TopBit(a) != TopBit(b))
    ensures Twice(c) == Xor16(Twice(a), Twice(b))
  {}

  lemma {:induction false} BitlessWord(w: bv16, n: nat)
    requires TopBits(w, n) == Zeros(n) && Shl(w, n) == 0
    ensures w == 0
    decreases n
  {
    if n == 0 {
    } else {
      assert !TopBits(w, n)[0];
      assert TopBits(w, n)[1..] == Zeros(n)[1..] == Zeros(n - 1);
      BitlessWord(Twice(w), n - 1);
      OnlyTopBit(w);
    }
  }

  lemma OnlyTopBit(w: bv16)
    requires Twice(w) == 0 && !TopBit(w)
    ensures w == 0
  {}

  lemma XorZero(a: bv16, b: bv16)
    requires Xor16(a, b) == 0
    ensures a == b
  {}

  lemma BitsDetermineWord(a: bv16, b: bv16)
    requires WordBits(a) == WordBits(b)
    ensures a == b
  {
    hide TopBits, Shl, Xor16;
    var c := Xor16(a, b);
    forall i | 0 <= i < 16 ensures !TopBits(c, 16)[i] {
      XorTopBit(a, b, c, 16, i);
    }
    ShlAll(c);
    assert TopBits(c, 16) == Zeros(16);
    BitlessWord(c, 16);
    XorZero(a, b);
  }

  lemma TopByte(c: byte)
    ensures WordBits(OnTop(c)) == ByteBits(c) + Zeros(8)
  {
    TopBitsConcat(OnTop(c), 8, 8);
    ShlByte(c);
    TopBitsOfZero(8);
  }

  lemma ShlByte(c: byte)
    ensures Shl(OnTop(c), 8) == 0
  {
    var w := OnTop(c);
    var a := w << 1 << 1 << 1 << 1;
    assert Shl(w, 8) == Shl(a, 4);
    assert Shl(a, 4) == a << 1 << 1 << 1 << 1;
  }

  lemma WordBitsOfZero()
    ensures WordBits(0) == Zeros(16)
  {
    TopBitsOfZero(16);
  }

  lemma WordBitsXor(a: bv16, b: bv16)
    ensures forall i :: 0 <= i < 16 ==> WordBits(Xor16(a, b))[i] == (WordBits(a)[i] != WordBits(b)[i])
  {
    hide Xor16, TopBits;
    forall i | 0 <= i < 16 ensures WordBits(Xor16(a, b))[i] == (WordBits(a)[i] != WordBits(b)[i]) {
      XorTopBit(a, b, Xor16(a, b), 16, i);
    }
  }

  // ----- Words and their numeric value -----

  function Push(w: bv16, b: bool): bv16 { (w << 1) | (if b then 1 else 0) }

  /** The conversion of an integer to 16 bits: its binary digits are shifted in
      one by one, so that digits beyond the sixteenth fall off the top. */
  function U16(n: nat): bv16
    decreases n
  {
    if n == 0 then 0 else Push(U16(n / 2), n % 2 == 1)
  }

  function Pow2(n: nat): (r: nat)
    ensures r > 0
    decreases n
  {
    if n == 0 then 1 else 2 * Pow2(n - 1)
  }

  function BitsValue(s: seq<bool>): nat {
    if s == [] then 0 else 2 * BitsValue(s[..|s| - 1]) + (if s[|s| - 1] then 1 else 0)
  }

  function Value(w: bv16): nat { BitsValue(WordBits(w)) }

  lemma {:induction false} BitsValueTop(s: seq<bool>)
    requires s != []
    ensures BitsValue(s) == (if s[0] then Pow2(|s| - 1) else 0) + BitsValue(s[1..])
    ensures BitsValue(s[1..]) < Pow2(|s| - 1)
    decreases |s|
  {
    if |s| > 1 {
      var init := s[..|s| - 1];
      BitsValueTop(init);
      assert s[1..][..|s| - 2] == init[1..];
    } else {
      assert s[1..] == [];
    }
  }

  lemma PushBits(w: bv16, b: bool)
    ensures WordBits(Push(w, b)) == WordBits(w)[1..] + [b]
  {
    var v := Push(w, b);
    PushIsXor(w, b);
    WordBitsXor(Twice(w), if b then 1 else 0);
    ShiftBits(w);
    UnitBits(b);
  }

  lemma PushIsXor(w: bv16, b: bool)
    ensures Push(w, b) == Xor16(Twice(w), if b then 1 else 0)
  {}

  lemma UnitBits(b: bool)
    ensures WordBits(if b then 1 else 0) == Zeros(15) + [b]
  {
    if b {
      TopBitsConcat(1, 15, 1);
      OneShifts();
    } else {
      TopBitsOfZero(16);
    }
  }

  lemma OneShifts()
    ensures Shl(1, 15) == 0x8000 && TopBits(1, 15) == Zeros(15)
  {
    assert Shl(1, 15) == Shl(0x10, 11) == Shl(0x100, 7) == Shl(0x1000, 3) == 0x8000;
    TopBitsConcat(1, 5, 10);
    TopBitsConcat(0x20, 5, 5);
    assert TopBits(1, 5) == Zeros(5) && Shl(1, 5) == 0x20;
    assert TopBits(0x20, 5) == Zeros(5) && Shl(0x20, 5) == 0x400;
    assert TopBits(0x400, 5) == Zeros(5);
  }

  lemma {:induction false} U16Value(n: nat)
    ensures Value(U16(n)) == n % 0x10000
    decreases n
  {
    hide WordBits, Push;
    if n == 0 {
      WordBitsOfZero();
      BitsValueOfZeros(16);
    } else {
      var w := U16(n / 2);
      var s := WordBits(w);
      U16Value(n / 2);
      PushBits(w, n % 2 == 1);
      BitsValueTop(s);
      var t := s[1..] + [n % 2 == 1];
      assert t[..15] == s[1..];
      Pow2At15();
      DoubleModulo(n, BitsValue(s), BitsValue(s[1..]));
    }
  }

  lemma DoubleModulo(n: nat, v: nat, r: nat)
    requires v == (n / 2) % 0x10000 && r < 0x8000 && (v == r || v == 0x8000 + r)
    ensures 2 * r + n % 2 == n % 0x10000
  {
    var h, odd := n / 2, n % 2;
    var k := h / 0x10000;
    assert h == 0x10000 * k + v;
    ModuloOf(2 * k + (if v == r then 0 else 1), 2 * r + odd);
  }

  lemma ModuloOf(q: nat, x: nat)
    requires x < 0x10000
    ensures (0x10000 * q + x) % 0x10000 == x
  {}

  lemma {:induction false} BitsValueOfZeros(n: nat)
    ensures BitsValue(Zeros(n)) == 0
    decreases n
  {
    if n == 0 {
    } else {
      assert Zeros(n)[..n - 1] == Zeros(n - 1);
      BitsValueOfZeros(n - 1);
    }
  }

  lemma Pow2At15()
    ensures Pow2(15) == 0x8000
  {
    assert Pow2(5) == 32;
    assert Pow2(10) == 1024;
  }

  // ----- The bits of a word are those of its two bytes -----

  lemma BytesOfWord(hi: byte, lo: byte)
    ensures WordBits(Word(hi, lo)) == ByteBits(hi) + ByteBits(lo)
  {
    hide WordBits, Xor16, Word, OnTop;
    WordIsXor(hi, lo);
    WordBitsXor(OnTop(hi), lo as bv16);
    TopByte(hi);
    BottomByte(lo);
    forall i | 0 <= i < 16 ensures WordBits(Word(hi, lo))[i] == (ByteBits(hi) + ByteBits(lo))[i] {}
  }

  lemma WordIsXor(hi: byte, lo: byte)
    ensures Word(hi, lo) == Xor16(OnTop(hi), lo as bv16)
  {}

  lemma BottomByte(lo: byte)
    ensures WordBits(lo as bv16) == Zeros(8) + ByteBits(lo)
  {
    hide Twice, TopBit;
    TopBitsConcat(lo as bv16, 8, 8);
    TopBitsConcat(OnTop(lo), 8, 8);
    BottomShifts(lo as bv16, OnTop(lo));
  }

  lemma {:induction false} BottomShifts(w: bv16, v: bv16)
    requires w < 0x100 && v == w << 8
    ensures Shl(w, 8) == v && TopBits(w, 8) == Zeros(8)
  {
    hide Twice, TopBit;
    var w4 := Twice(Twice(Twice(Twice(w))));
    TwiceEight(w, v, w4);
    assert Shl(w, 4) == w4;
    TopBitsConcat(w, 4, 4);
    assert TopBits(w, 4) == Zeros(4);
    assert TopBits(w4, 4) == Zeros(4);
    assert Shl(w, 8) == Shl(w4, 4);
    assert Shl(w4, 4) == Twice(Twice(Twice(Twice(w4))));
  }

  lemma TwiceEight(w: bv16, v: bv16, w4: bv16)
    requires w < 0x100 && v == w << 8 && w4 == Twice(Twice(Twice(Twice(w))))
    ensures Twice(Twice(Twice(Twice(w4)))) == v
    ensures !TopBit(w) && !TopBit(Twice(w)) && !TopBit(Twice(Twice(w))) && !TopBit(Twice(Twice(Twice(w))))
    ensures !TopBit(w4) && !TopBit(Twice(w4)) && !TopBit(Twice(Twice(w4))) && !TopBit(Twice(Twice(Twice(w4))))
  {}
}
