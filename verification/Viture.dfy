/** The packets of viture/viture.go and what their checksum guarantees. */
module Viture {
  import opened Bytes
  import opened Crc
  import Order
  import opened Wrappers
  import Gf2

  const HEADER_COMMAND: bv16 := 0xFFFE
  const HEADER_ACK: bv16 := 0xFFFD
  const HEADER_IMU: bv16 := 0xFFFC
  const CMD_IMU: bv16 := 0x15
  const END_MARKER: byte := 0x03
  const HEADER_SIZE: nat := 0x12
  const LENGTH_BASE: nat := 8
  const MIN_PACKET: nat := HEADER_SIZE + 1

  // ----- Building -----

  function ZeroBytes(n: nat): (r: seq<byte>)
    ensures |r| == n && forall i :: 0 <= i < n ==> r[i] == 0
  {
    seq(n, _ => 0)
  }

  /** Everything the checksum covers: offsets 4 to the end. */
  function Body(cmd: bv16, counter: bv16, payload: seq<byte>): (b: seq<byte>)
    ensures |b| == HEADER_SIZE + |payload| + 1 - 4
  {
    var length := U16(HEADER_SIZE + |payload| + 1 - LENGTH_BASE);
    Fields(length, cmd, counter) + payload + [END_MARKER]
  }

  function PacketBytes(cmd: bv16, counter: bv16, payload: seq<byte>): (p: seq<byte>)
    ensures |p| == HEADER_SIZE + |payload| + 1
  {
    var body := Body(cmd, counter, payload);
    var crc := Checksum(body);
    [Hi(HEADER_COMMAND), Lo(HEADER_COMMAND), Hi(crc), Lo(crc)] + body
  }

  /** s with some bytes overwritten from an offset on. */
  function Written(s: seq<byte>, off: nat, src: seq<byte>): (r: seq<byte>)
    requires off + |src| <= |s|
    ensures |r| == |s|
  {
    s[..off] + src + s[off + |src|..]
  }

  method PutBigEndian(p: array<byte>, off: nat, v: bv16)
    requires off + 2 <= p.Length
    modifies p
    ensures p[..] == Written(old(p[..]), off, [Hi(v), Lo(v)])
  {
    p[off], p[off + 1] := Hi(v), Lo(v);
  }

  method PutLittleEndian(p: array<byte>, off: nat, v: bv16)
    requires off + 2 <= p.Length
    modifies p
    ensures p[..] == Written(old(p[..]), off, [Lo(v), Hi(v)])
  {
    p[off], p[off + 1] := Lo(v), Hi(v);
  }

  method CopyInto(p: array<byte>, off: nat, src: seq<byte>)
    requires off + |src| <= p.Length
    modifies p
    ensures p[..] == Written(old(p[..]), off, src)
  {
    forall i | 0 <= i < |src| {
      p[off + i] := src[i];
    }
  }

  /** Offsets 4 to 17: length, two reserved words, command and counter. */
  function Fields(length: bv16, cmd: bv16, counter: bv16): (r: seq<byte>)
    ensures |r| == 14
  {
    [Lo(length), Hi(length)] + ZeroBytes(8) + [Lo(cmd), Hi(cmd), Lo(counter), Hi(counter)]
  }

  /** Every field but the checksum, which is written last over the finished packet. */
  method FillFields(p: array<byte>, cmd: bv16, counter: bv16)
    requires p.Length >= MIN_PACKET && p[..] == ZeroBytes(p.Length)
    modifies p
    ensures p[..] == [Hi(HEADER_COMMAND), Lo(HEADER_COMMAND), 0, 0]
                     + Fields(U16(p.Length - LENGTH_BASE), cmd, counter) + ZeroBytes(p.Length - HEADER_SIZE)
  {
    hide Hi, Lo, U16, Written, Fields;
    var length := U16(p.Length - LENGTH_BASE);
    ghost var n := p.Length;
    PutBigEndian(p, 0, HEADER_COMMAND);
    ghost var head := [Hi(HEADER_COMMAND), Lo(HEADER_COMMAND), 0, 0];
    HeadWritten(n, Hi(HEADER_COMMAND), Lo(HEADER_COMMAND));
    PutLittleEndian(p, 4, length);
    LengthWritten(n, head, [Lo(length), Hi(length)]);
    ghost var front := head + ([Lo(length), Hi(length)] + ZeroBytes(8));
    PutLittleEndian(p, 0x0E, cmd);
    PairWritten(front, n - 14, [Lo(cmd), Hi(cmd)]);
    PutLittleEndian(p, 0x10, counter);
    PairWritten(front + [Lo(cmd), Hi(cmd)], n - 16, [Lo(counter), Hi(counter)]);
    FrontIsFields(head, length, cmd, counter);
  }

  lemma HeadWritten(n: nat, hi: byte, lo: byte)
    requires n >= MIN_PACKET
    ensures Written(ZeroBytes(n), 0, [hi, lo]) == [hi, lo, 0, 0] + ZeroBytes(n - 4)
  {}

  lemma LengthWritten(n: nat, head: seq<byte>, pair: seq<byte>)
    requires n >= MIN_PACKET && |head| == 4 && |pair| == 2
    ensures Written(head + ZeroBytes(n - 4), 4, pair) == head + (pair + ZeroBytes(8)) + ZeroBytes(n - 14)
  {}

  /** Two bytes written behind a front that zeros follow. */
  lemma PairWritten(front: seq<byte>, n: nat, pair: seq<byte>)
    requires n >= 2 && |pair| == 2
    ensures Written(front + ZeroBytes(n), |front|, pair) == front + pair + ZeroBytes(n - 2)
  {}

  lemma FrontIsFields(head: seq<byte>, length: bv16, cmd: bv16, counter: bv16)
    ensures head + ([Lo(length), Hi(length)] + ZeroBytes(8)) + [Lo(cmd), Hi(cmd)] + [Lo(counter), Hi(counter)]
            == head + Fields(length, cmd, counter)
  {
    hide Hi, Lo;
  }

  method Packet(cmd: bv16, counter: bv16, payload: seq<byte>) returns (p: array<byte>)
    ensures fresh(p) && p[..] == PacketBytes(cmd, counter, payload)
  {
    hide Hi, Lo, U16, Fields, Checksum, Written;
    p := new byte[HEADER_SIZE + |payload| + 1](_ => 0);
    FillFields(p, cmd, counter);
    ghost var filled := p[..];
    CopyInto(p, HEADER_SIZE, payload);
    p[p.Length - 1] := END_MARKER;
    ghost var head := [Hi(HEADER_COMMAND), Lo(HEADER_COMMAND), 0, 0];
    ghost var body := Body(cmd, counter, payload);
    PayloadWritten(head + Fields(U16(p.Length - LENGTH_BASE), cmd, counter), payload);
    assert p[..] == head + body;
    assert p[4..] == body;
    var crc := CRC16(p[4..]);
    PutBigEndian(p, 2, crc);
    ChecksumWritten(Hi(HEADER_COMMAND), Lo(HEADER_COMMAND), body, Hi(crc), Lo(crc));
  }

  lemma PayloadWritten(front: seq<byte>, payload: seq<byte>)
    ensures Written(front + ZeroBytes(|payload| + 1), |front|, payload) == front + payload + [0]
  {}

  lemma ChecksumWritten(h: byte, l: byte, body: seq<byte>, hi: byte, lo: byte)
    ensures Written([h, l, 0, 0] + body, 2, [hi, lo]) == [h, l, hi, lo] + body
  {}

  method EnableIMU(on: bool, counter: bv16) returns (p: array<byte>)
    ensures fresh(p) && p[..] == PacketBytes(CMD_IMU, counter, [if on then 1 else 0])
  {
    var v: byte := 0;
    if on {
      v := 1;
    }
    p := Packet(CMD_IMU, counter, [v]);
  }

  // ----- Recognising -----

  predicate KnownHeader(h: bv16) {
    h == HEADER_COMMAND || h == HEADER_ACK || h == HEADER_IMU
  }

  predicate Valid(p: seq<byte>) {
    && |p| >= 4
    && KnownHeader(Word(p[0], p[1]))
    && Word(p[2], p[3]) == Checksum(p[4..])
  }

  /** One orientation report, each angle as its raw 32 bits. */
  datatype Euler = Euler(z: bv32, x: bv32, y: bv32)

  const EULER_OFFSET: nat := 18

  function Float32(p: seq<byte>, off: nat): bv32
    requires off + 4 <= |p|
  {
    ((p[off] as bv32) << 24) | ((p[off + 1] as bv32) << 16) | ((p[off + 2] as bv32) << 8) | (p[off + 3] as bv32)
  }

  function ParseIMU(p: seq<byte>): Option<Euler> {
    if |p| < EULER_OFFSET + 12 then None
    else if Word(p[0], p[1]) != HEADER_IMU then None
    else Some(Euler(Float32(p, EULER_OFFSET), Float32(p, EULER_OFFSET + 4), Float32(p, EULER_OFFSET + 8)))
  }

  // ----- In bytes -----

  /** Valid bytes, spelled out: 0xFF, one of three second bytes, and the checksum
      of the rest, high byte first. */
  lemma ValidIff(b: seq<byte>)
    ensures Valid(b) <==>
      && |b| >= 4 && b[0] == 0xFF && b[1] in {0xFC, 0xFD, 0xFE}
      && b[2] == Hi(Checksum(b[4..])) && b[3] == Lo(Checksum(b[4..]))
  {
    if |b| >= 4 {
      HeaderIff(b[0], b[1]);
      WordInNumbers(b[2], b[3]);
      WordSplits(Checksum(b[4..]));
    }
    hide Word, Hi, Lo, KnownHeader, Checksum;
  }

  lemma HeaderIff(hi: byte, lo: byte)
    ensures KnownHeader(Word(hi, lo)) <==> hi == 0xFF && lo in {0xFC, 0xFD, 0xFE}
  {}

  /** With its own checksum, a body is valid behind exactly the three headers. */
  lemma FrameValidIff(x: byte, body: seq<byte>)
    ensures Valid([0xFF, x, Hi(Checksum(body)), Lo(Checksum(body))] + body) <==> x in {0xFC, 0xFD, 0xFE}
  {
    var b := [0xFF, x, Hi(Checksum(body)), Lo(Checksum(body))] + body;
    assert b[4..] == body;
    hide Hi, Lo, Checksum;
    ValidIff(b);
  }

  /** A packet, byte by byte. */
  lemma {:induction false} PacketInBytes(cmd: bv16, counter: bv16, payload: seq<byte>)
    ensures var p := PacketBytes(cmd, counter, payload);
      var crc := Checksum(p[4..]);
      && |p| == |payload| + 19 && p[0] == 0xFF && p[1] == 0xFE && p[2] == Hi(crc) && p[3] == Lo(crc)
      && p[4] == Lo(U16(|payload| + 11)) && p[5] == Hi(U16(|payload| + 11))
      && (forall i :: 6 <= i < 14 ==> p[i] == 0)
      && p[14] == Lo(cmd) && p[15] == Hi(cmd) && p[16] == Lo(counter) && p[17] == Hi(counter)
      && p[18..|p| - 1] == payload && p[|p| - 1] == 0x03
  {
    var p := PacketBytes(cmd, counter, payload);
    assert p[4..] == Body(cmd, counter, payload);
    WordInNumbers(0xFF, 0xFE);
    assert Word(0xFF, 0xFE) == 0xFFFE;
    hide Hi, Lo, U16, Checksum;
  }

  /** The IMU switch has command 0x15 and one byte of payload. */
  lemma SwitchInBytes(on: bool, counter: bv16)
    ensures var p := PacketBytes(CMD_IMU, counter, [if on then 1 else 0]);
      |p| == 20 && p[4] == 12 && p[5] == 0 && p[14] == 0x15 && p[15] == 0 && p[18] == if on then 1 else 0
  {
    var payload: seq<byte> := [if on then 1 else 0];
    var p := PacketBytes(CMD_IMU, counter, payload);
    SwitchWords();
    hide Hi, Lo, U16, PacketBytes;
    PacketInBytes(CMD_IMU, counter, payload);
    assert p[18..19][0] == payload[0];
  }

  lemma SwitchWords()
    ensures Lo(CMD_IMU) == 0x15 && Hi(CMD_IMU) == 0 && Lo(U16(12)) == 12 && Hi(U16(12)) == 0
  {
    assert U16(1) == 1 && U16(3) == 3 && U16(6) == 6 && U16(12) == 12;
  }

  /** Which bytes are an orientation report, and where its angles are. */
  lemma ParseIMUIff(p: seq<byte>)
    ensures ParseIMU(p).Some? <==> |p| >= 30 && p[0] == 0xFF && p[1] == 0xFC
    ensures ParseIMU(p).Some? ==>
      && ParseIMU(p).value.z == BigEndian(p[18], p[19], p[20], p[21])
      && ParseIMU(p).value.x == BigEndian(p[22], p[23], p[24], p[25])
      && ParseIMU(p).value.y == BigEndian(p[26], p[27], p[28], p[29])
  {
    if |p| >= 30 {
      ReportHeader(p[0], p[1]);
      Float32InNumbers(p[18], p[19], p[20], p[21]);
      Float32InNumbers(p[22], p[23], p[24], p[25]);
      Float32InNumbers(p[26], p[27], p[28], p[29]);
    }
    hide BigEndian, Word;
  }

  /** Four bytes as one number, the first one counting most. */
  function BigEndian(a: byte, b: byte, c: byte, d: byte): bv32 {
    0x100_0000 * (a as bv32) + 0x1_0000 * (b as bv32) + 0x100 * (c as bv32) + (d as bv32)
  }

  lemma Float32InNumbers(a: byte, b: byte, c: byte, d: byte)
    ensures ((a as bv32) << 24) | ((b as bv32) << 16) | ((c as bv32) << 8) | (d as bv32) == BigEndian(a, b, c, d)
  {}

  lemma ReportHeader(hi: byte, lo: byte)
    ensures Word(hi, lo) == HEADER_IMU <==> hi == 0xFF && lo == 0xFC
  {}

  // ----- A packet carries its arguments -----

  function CommandOf(p: seq<byte>): bv16
    requires |p| >= MIN_PACKET
  {
    Word(p[0x0F], p[0x0E])
  }

  function CounterOf(p: seq<byte>): bv16
    requires |p| >= MIN_PACKET
  {
    Word(p[0x11], p[0x10])
  }

  function PayloadOf(p: seq<byte>): seq<byte>
    requires |p| >= MIN_PACKET
  {
    p[HEADER_SIZE..|p| - 1]
  }

  function LengthFieldOf(p: seq<byte>): nat
    requires |p| >= MIN_PACKET
  {
    Value(Word(p[5], p[4]))
  }

  lemma PacketRecovers(cmd: bv16, counter: bv16, payload: seq<byte>)
    ensures var p := PacketBytes(cmd, counter, payload);
            && CommandOf(p) == cmd && CounterOf(p) == counter && PayloadOf(p) == payload
            && p[|p| - 1] == END_MARKER
            && forall i :: 6 <= i < 14 ==> p[i] == 0
  {
    hide Hi, Lo, Word, U16, Checksum;
    WordSplits(cmd);
    WordSplits(counter);
  }

  lemma PacketInjective(cmd: bv16, counter: bv16, payload: seq<byte>, cmd': bv16, counter': bv16, payload': seq<byte>)
    requires PacketBytes(cmd, counter, payload) == PacketBytes(cmd', counter', payload')
    ensures cmd == cmd' && counter == counter' && payload == payload'
  {
    hide PacketBytes;
    PacketRecovers(cmd, counter, payload);
    PacketRecovers(cmd', counter', payload');
  }

  /** The length field counts the bytes from offset 8 on, exactly when they fit in 16 bits. */
  lemma PacketLength(cmd: bv16, counter: bv16, payload: seq<byte>)
    ensures var p := PacketBytes(cmd, counter, payload);
            && LengthFieldOf(p) == (|p| - 8) % 0x10000
            && (LengthFieldOf(p) == |p[8..]| <==> |payload| <= 65524)
  {
    hide Hi, Lo, Word, U16, Checksum, Value;
    var n := HEADER_SIZE + |payload| + 1 - LENGTH_BASE;
    WordSplits(U16(n));
    U16Value(n);
  }

  lemma PacketValid(cmd: bv16, counter: bv16, payload: seq<byte>)
    ensures Valid(PacketBytes(cmd, counter, payload))
  {
    hide Hi, Lo, Word, U16, Checksum, Body;
    var p := PacketBytes(cmd, counter, payload);
    var body := Body(cmd, counter, payload);
    assert p[4..] == body;
    WordSplits(Checksum(body));
    WordSplits(HEADER_COMMAND);
  }

  // ----- Damage -----

  /** Exactly which damage a receiver cannot see: the header must still be known,
      and the flips of the checksum field must equal the checksum of the flips. */
  lemma DamageUnseenIff(p: seq<byte>, e: seq<byte>)
    requires Valid(p) && |e| == |p|
    ensures Valid(Xor(p, e)) <==>
            KnownHeader(Xor16(Word(p[0], p[1]), Word(e[0], e[1]))) && Run(0, e[4..]) == Word(e[2], e[3])
  {
    hide Word, Checksum, Run, Xor16, Xor8;
    var q := Xor(p, e);
    assert q[4..] == Xor(p[4..], e[4..]);
    ChecksumOfDamaged(p[4..], e[4..]);
    WordXor(p[0], p[1], e[0], e[1]);
    WordXor(p[2], p[3], e[2], e[3]);
    XorCancels(Word(p[2], p[3]), Word(e[2], e[3]), Run(0, e[4..]));
  }

  lemma WordXor(a: byte, b: byte, c: byte, d: byte)
    ensures Word(Xor8(a, c), Xor8(b, d)) == Xor16(Word(a, b), Word(c, d))
  {}

  lemma XorCancels(a: bv16, b: bv16, c: bv16)
    ensures Xor16(a, b) == Xor16(a, c) <==> b == c
  {}

  /** The bits of the body followed by those of the checksum field, the order in
      which they are divided: bit j of the field stands at 8 * n + j when the body has
      n bytes, although the field comes first in the packet. */
  function Codeword(e: seq<byte>): (s: seq<bool>)
    requires |e| >= 4
    ensures |s| == 8 * |e| - 16
  {
    BitsOf(e[4..]) + BitsOf(e[2..4])
  }

  /** So it is unseen exactly when that polynomial is a multiple of the generator. */
  lemma UnseenIsMultiple(p: seq<byte>, e: seq<byte>)
    requires Valid(p) && |e| == |p|
    ensures Valid(Xor(p, e)) <==>
            KnownHeader(Xor16(Word(p[0], p[1]), Word(e[0], e[1]))) && Gf2.Rem(Codeword(e)) == Zeros(16)
  {
    hide *;
    ValidKnown(p);
    DamageUnseenIff(p, e);
    CodewordOf(e);
    Order.MultipleIff(e[4..], Word(e[2], e[3]));
  }

  lemma CodewordOf(e: seq<byte>)
    requires |e| >= 4
    ensures Codeword(e) == BitsOf(e[4..]) + WordBits(Word(e[2], e[3]))
  {
    hide ByteBits, WordBits, Word;
    BytesOfWord(e[2], e[3]);
    assert e[2..4] == [e[2]] + ([e[3]] + []);
    assert BitsOf(e[2..4]) == ByteBits(e[2]) + ByteBits(e[3]);
  }

  /** Any burst of at most 16 bits in the body, in the checksum field, or in
      the last of the one and the first of the other, is caught at any length, whatever
      else happened to the header. */
  lemma BurstIsCaught(p: seq<byte>, e: seq<byte>, k: nat)
    requires Valid(p) && |e| == |p|
    requires true in Codeword(e) && forall j :: 0 <= j < |Codeword(e)| && Codeword(e)[j] ==> k <= j < k + 16
    ensures !Valid(Xor(p, e))
  {
    var s := Codeword(e);
    UnseenIsMultiple(p, e);
    hide Valid, Xor, KnownHeader, Codeword;
    Gf2.BurstNotMultiple(s, if k + 16 <= |s| then k else |s| - 16);
  }

  /** Two flipped bits from offset 2 on go unseen exactly when they are a
      multiple of 32767 places apart there: never within the checksum field, and in no
      packet shorter than that. */
  lemma TwoFlipsCaughtIff(p: seq<byte>, e: seq<byte>, i: nat, j: nat)
    requires Valid(p) && |e| == |p|
    requires e[0] == e[1] == 0 && Order.TwoFlips(Codeword(e), i, j)
    ensures Valid(Xor(p, e)) <==> (j - i) % 32767 == 0
  {
    ValidKnown(p);
    UnseenIsMultiple(p, e);
    hide Valid, Xor, KnownHeader, Codeword;
    ZeroWord();
    XorNothing(Word(p[0], p[1]));
    Order.TwoFlipsMultipleIff(Codeword(e), i, j);
  }

  /** The last bit of the checksum field and the first of the body, which follow
      each other in a packet of n bytes. */
  function AcrossFlips(n: nat): (e: seq<byte>)
    requires n >= 5
    ensures |e| == n
  {
    [0, 0, 0, 1, 0x80] + ZeroBytes(n - 5)
  }

  /** Two neighbours in the packet on either side of offset 4 are as far apart as
      can be where they are divided: they go unseen exactly at the lengths for which
      that is a multiple of 32767 places. */
  lemma AcrossUnseenIff(p: seq<byte>)
    requires Valid(p) && |p| >= 5
    ensures Valid(Xor(p, AcrossFlips(|p|))) <==> (8 * |p[4..]| + 15) % 32767 == 0
  {
    var e := AcrossFlips(|p|);
    AcrossIsTwo(|p|);
    hide Valid, Xor, Codeword;
    TwoFlipsCaughtIff(p, e, 0, 8 * |p[4..]| + 15);
  }

  lemma AcrossIsTwo(n: nat)
    requires n >= 5
    ensures Order.TwoFlips(Codeword(AcrossFlips(n)), 0, 8 * (n - 4) + 15)
  {
    var e := AcrossFlips(n);
    assert e[4..] == [0x80] + ZeroBytes(n - 5);
    assert e[2..4] == [0] + ([1] + []);
    FirstAndLast();
    ZeroBits(n - 5);
    hide ByteBits;
    assert BitsOf([1] + []) == ByteBits(1) + [];
    assert Codeword(e) == ([true] + Zeros(7) + Zeros(8 * (n - 5))) + (Zeros(8) + (Zeros(7) + [true]));
  }

  lemma FirstAndLast()
    ensures ByteBits(0x80) == [true] + Zeros(7) && ByteBits(1) == Zeros(7) + [true] && ByteBits(0) == Zeros(8)
  {
    var w, z: bv16 := OnTop(0x80), OnTop(0);
    assert w == 0x8000 && z == 0;
    TopBitsOfZero(8);
    TopBitsOfZero(7);
  }

  lemma {:induction false} ZeroBits(n: nat)
    ensures BitsOf(ZeroBytes(n)) == Zeros(8 * n)
  {
    if n == 0 {
    } else {
      assert ZeroBytes(n) == [0] + ZeroBytes(n - 1);
      ZeroBits(n - 1);
      FirstAndLast();
      hide ByteBits;
    }
  }

  /** So for every packet of 4098 bytes. */
  lemma AcrossGoesUnseen(cmd: bv16, counter: bv16, payload: seq<byte>)
    requires |payload| == 4079
    ensures Valid(Xor(PacketBytes(cmd, counter, payload), AcrossFlips(4098)))
  {
    hide Valid, Xor, PacketBytes, AcrossFlips;
    PacketValid(cmd, counter, payload);
    AcrossUnseenIff(PacketBytes(cmd, counter, payload));
  }

  lemma ValidKnown(p: seq<byte>)
    requires Valid(p)
    ensures |p| >= 4 && KnownHeader(Word(p[0], p[1]))
  {}

  lemma XorNothing(w: bv16)
    ensures Xor16(w, 0) == w
  {}

  lemma ZeroWord()
    ensures Word(0, 0) == 0
  {}

  /** A valid packet has an even number of set bits from offset 2 on. */
  lemma ValidIsEven(p: seq<byte>)
    requires Valid(p)
    ensures Ones(BitsOf(p[2..])) % 2 == 0
  {
    hide Word, Run, ByteBits, WordBits;
    var body := p[4..];
    var crc := WordBits(Checksum(body));
    BytesOfWord(p[2], p[3]);
    assert p[2..][1..] == p[3..] && p[3..][1..] == body;
    assert BitsOf(p[2..]) == ByteBits(p[2]) + (ByteBits(p[3]) + BitsOf(body));
    assert BitsOf(p[2..]) == crc + BitsOf(body);
    Gf2.OnesConcat(crc, BitsOf(body));
    RunParity(INITIAL, body);
    InitialOnes();
  }

  lemma InitialOnes()
    ensures Ones(WordBits(INITIAL)) == 16
  {
    TopBitsConcat(0xFFFF, 4, 12);
    TopBitsConcat(0xFFF0, 4, 8);
    TopBitsConcat(0xFF00, 4, 4);
    OnesOnTop();
    var f := [true, true, true, true];
    Gf2.OnesOfFour(true, true, true, true);
    Gf2.OnesOfQuarters(f, f, f, f);
    hide TopBits, Ones, Shl;
    assert WordBits(INITIAL) == f + f + f + f;
  }

  lemma OnesOnTop()
    ensures var f := [true, true, true, true];
            TopBits(0xFFFF, 4) == f && TopBits(0xFFF0, 4) == f && TopBits(0xFF00, 4) == f && TopBits(0xF000, 4) == f
    ensures Shl(0xFFFF, 4) == 0xFFF0 && Shl(0xFFF0, 4) == 0xFF00 && Shl(0xFF00, 4) == 0xF000
  {}

  /** An odd number of flipped bits from offset 2 on is caught, whatever else happened to the header. */
  lemma OddDamageIsCaught(p: seq<byte>, e: seq<byte>)
    requires Valid(p) && |e| == |p|
    requires Ones(BitsOf(e[2..])) % 2 == 1
    ensures !Valid(Xor(p, e))
  {
    hide Valid, Xor8, ByteBits;
    var q := Xor(p, e);
    assert |p| >= 4 by { ValidLength(p); }
    if Valid(q) {
      ValidIsEven(p);
      ValidIsEven(q);
      assert q[2..] == Xor(p[2..], e[2..]);
      BitsOfXor(p[2..], e[2..]);
      Gf2.OnesPlus(BitsOf(p[2..]), BitsOf(e[2..]));
    }
  }

  lemma ValidLength(p: seq<byte>)
    requires Valid(p)
    ensures |p| >= 4 && p[0] == 0xFF
  {
    HeadersStartWithFF(p[0], p[1]);
  }

  lemma HeadersStartWithFF(hi: byte, lo: byte)
    ensures KnownHeader(Word(hi, lo)) ==> hi == 0xFF
  {}

  // ----- Orientation reports -----

  function Float32Bytes(f: bv32): (s: seq<byte>)
    ensures |s| == 4
  {
    [(f >> 24) as byte, ((f >> 16) & 0xFF) as byte, ((f >> 8) & 0xFF) as byte, (f & 0xFF) as byte]
  }

  /** An orientation report decodes to the angles written into it, whatever
      lies between header and angles and whatever follows. */
  lemma IMURoundTrip(middle: seq<byte>, e: Euler, tail: seq<byte>)
    requires |middle| == EULER_OFFSET - 2
    ensures ParseIMU([0xFF, 0xFC] + middle + Float32Bytes(e.z) + Float32Bytes(e.x) + Float32Bytes(e.y) + tail) ==
        Some(e)
  {
    hide Float32Bytes;
    var z, x, y := Float32Bytes(e.z), Float32Bytes(e.x), Float32Bytes(e.y);
    var p := [0xFF, 0xFC] + middle + z + x + y + tail;
    assert p[18..22] == z && p[22..26] == x && p[26..30] == y;
    Float32At(p, 18, e.z);
    Float32At(p, 22, e.x);
    Float32At(p, 26, e.y);
    ImuHeader();
  }

  lemma ImuHeader()
    ensures Word(0xFF, 0xFC) == HEADER_IMU
  {}

  lemma Float32At(p: seq<byte>, off: nat, f: bv32)
    requires off + 4 <= |p| && p[off..off + 4] == Float32Bytes(f)
    ensures Float32(p, off) == f
  {
    var s := Float32Bytes(f);
    assert p[off] == s[0] && p[off + 1] == s[1] && p[off + 2] == s[2] && p[off + 3] == s[3] by {
      hide Float32Bytes;
      assert s == p[off..off + 4];
    }
    Float32Joins(f, s[0], s[1], s[2], s[3]);
  }

  lemma Float32Joins(f: bv32, a: byte, b: byte, c: byte, d: byte)
    requires a == (f >> 24) as byte && b == ((f >> 16) & 0xFF) as byte
    requires c == ((f >> 8) & 0xFF) as byte && d == (f & 0xFF) as byte
    ensures ((a as bv32) << 24) | ((b as bv32) << 16) | ((c as bv32) << 8) | (d as bv32) == f
  {}
}
