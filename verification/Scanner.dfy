/** The search for packets in captured bytes of cmd/serialprobe/main.go. */
module Scanner {
  import opened Bytes
  import opened Wrappers
  import opened Viture
  import Crc

  /** What is printed for one packet. */
  datatype Report = Report(offset: nat, length: nat, imu: Option<Euler>)

  predicate IsFrame(b: seq<byte>, i: nat, n: nat) {
    MIN_PACKET <= n && i + n <= |b| && Valid(b[i..i + n])
  }

  ghost predicate IsShortestFrame(b: seq<byte>, i: nat, n: nat) {
    IsFrame(b, i, n) && forall m: nat :: m < n ==> !IsFrame(b, i, m)
  }

  /** The reports are the shortest frame at every offset that has one, in order. */
  ghost predicate Decoded(b: seq<byte>, reports: seq<Report>) {
    && (forall k :: 0 <= k < |reports| ==> ReportFits(b, reports[k]))
    && (forall j, k :: 0 <= j < k < |reports| ==> reports[j].offset < reports[k].offset)
    && (forall i: nat, n: nat :: IsFrame(b, i, n) ==> Reported(reports, i))
  }

  ghost predicate ReportFits(b: seq<byte>, r: Report) {
    IsShortestFrame(b, r.offset, r.length) && r.imu == ParseIMU(b[r.offset..r.offset + r.length])
  }

  ghost predicate Reported(reports: seq<Report>, i: nat) {
    exists k :: 0 <= k < |reports| && reports[k].offset == i
  }

  /** The inner loop: the shortest frame at offset i. */
  method FrameAt(b: seq<byte>, i: nat) returns (r: Option<Report>)
    requires i + MIN_PACKET <= |b|
    ensures r.Some? ==> ReportFits(b, r.value) && r.value.offset == i
    ensures r.None? ==> forall n: nat :: !IsFrame(b, i, n)
  {
    hide IsFrame, ParseIMU;
    FramesFit(b);
    var end := i + MIN_PACKET;
    while end <= |b|
      invariant i + MIN_PACKET <= end <= |b| + 1
      invariant forall m: nat :: m < end - i ==> !IsFrame(b, i, m)
    {
      FrameIff(b, i, end - i);
      if Valid(b[i..end]) {
        return Some(Report(i, end - i, ParseIMU(b[i..end])));
      }
      end := end + 1;
    }
    return None;
  }

  method Decode(b: seq<byte>) returns (found: nat, reports: seq<Report>)
    ensures Decoded(b, reports)
    ensures found == |reports|
    ensures found == 0 <==> forall i: nat, n: nat :: !IsFrame(b, i, n)
  {
    hide IsFrame, ReportFits;
    FramesFit(b);
    found, reports := 0, [];
    var i := 0;
    while i + MIN_PACKET <= |b|
      invariant found == |reports|
      invariant forall k :: 0 <= k < |reports| ==> ReportFits(b, reports[k]) && reports[k].offset < i
      invariant forall j, k :: 0 <= j < k < |reports| ==> reports[j].offset < reports[k].offset
      invariant forall j: nat, n: nat :: j < i && IsFrame(b, j, n) ==> Reported(reports, j)
      decreases |b| - i
    {
      if b[i] != 0xFF {
        PrefilterLosesNothing(b, i);
      } else {
        var r := FrameAt(b, i);
        if r.Some? {
          found := found + 1;
          ReportedMore(reports, r.value);
          reports := reports + [r.value];
        }
      }
      i := i + 1;
    }
    if reports != [] {
      ReportedFrame(b, reports[0]);
    }
  }

  lemma ReportedMore(reports: seq<Report>, r: Report)
    ensures Reported(reports + [r], r.offset)
    ensures forall j: nat :: Reported(reports, j) ==> Reported(reports + [r], j)
  {
    assert (reports + [r])[|reports|] == r;
    forall j: nat | Reported(reports, j) ensures Reported(reports + [r], j) {
      var k :| 0 <= k < |reports| && reports[k].offset == j;
      assert (reports + [r])[k].offset == j;
    }
  }

  lemma ReportedFrame(b: seq<byte>, r: Report)
    requires ReportFits(b, r)
    ensures IsFrame(b, r.offset, r.length)
  {}

  lemma FramesFit(b: seq<byte>)
    ensures forall i: nat, n: nat :: IsFrame(b, i, n) ==> MIN_PACKET <= n && i + n <= |b|
  {}

  lemma FrameIff(b: seq<byte>, i: nat, n: nat)
    requires MIN_PACKET <= n && i + n <= |b|
    ensures IsFrame(b, i, n) <==> Valid(b[i..i + n])
  {}

  /** Two reports that fit at one offset are the same. */
  lemma FitsOnce(b: seq<byte>, r: Report, q: Report)
    requires ReportFits(b, r) && ReportFits(b, q) && r.offset == q.offset
    ensures r == q
  {
    hide IsFrame, ParseIMU;
  }

  /** The next report is no later in one answer than in the other. */
  lemma NextIsThere(b: seq<byte>, reports: seq<Report>, others: seq<Report>, k: nat)
    requires Decoded(b, reports) && Decoded(b, others)
    requires k < |reports| && k <= |others| && reports[..k] == others[..k]
    ensures k < |others| && others[k].offset <= reports[k].offset
  {
    hide IsFrame, ReportFits;
    ReportedFrame(b, reports[k]);
    assert Reported(others, reports[k].offset);
    var j :| 0 <= j < |others| && others[j].offset == reports[k].offset;
    if j < k { assert false; }
  }

  lemma {:induction false} SameSoFar(b: seq<byte>, reports: seq<Report>, others: seq<Report>, k: nat)
    requires Decoded(b, reports) && Decoded(b, others) && k <= |reports|
    ensures k <= |others| && reports[..k] == others[..k]
    decreases k
  {
    hide ReportFits;
    if k > 0 {
      SameSoFar(b, reports, others, k - 1);
      NextIsThere(b, reports, others, k - 1);
      NextIsThere(b, others, reports, k - 1);
      FitsOnce(b, reports[k - 1], others[k - 1]);
      assert reports[..k] == reports[..k - 1] + [reports[k - 1]];
      assert others[..k] == others[..k - 1] + [others[k - 1]];
    }
  }

  /** No bytes have two answers: what is reported for them is settled. */
  lemma {:induction false} DecodedOnce(b: seq<byte>, reports: seq<Report>, others: seq<Report>)
    requires Decoded(b, reports) && Decoded(b, others)
    ensures reports == others
  {
    hide Decoded;
    SameSoFar(b, reports, others, |reports|);
    SameSoFar(b, others, reports, |others|);
  }

  /** Looking only where a byte is 0xFF skips no packet. */
  lemma PrefilterLosesNothing(b: seq<byte>, i: nat)
    requires i < |b| && b[i] != 0xFF
    ensures forall n: nat :: !IsFrame(b, i, n)
  {
    hide Valid;
    forall n: nat | IsFrame(b, i, n) ensures false {
      ValidLength(b[i..i + n]);
    }
  }

  /** A frame, spelled out: at least 19 bytes that start with one of the three
      headers and the checksum of what follows it. */
  lemma FrameInBytes(b: seq<byte>, i: nat, n: nat)
    ensures IsFrame(b, i, n) <==>
      && 19 <= n && i + n <= |b| && b[i] == 0xFF && b[i + 1] in {0xFC, 0xFD, 0xFE}
      && b[i + 2] == Hi(Crc.Checksum(b[i + 4..i + n])) && b[i + 3] == Lo(Crc.Checksum(b[i + 4..i + n]))
  {
    if 19 <= n && i + n <= |b| {
      var p := b[i..i + n];
      assert p[4..] == b[i + 4..i + n];
      hide Valid, Hi, Lo, Crc.Checksum;
      ValidIff(p);
    }
  }

  /** A frame of any of the three kinds is found wherever it sits, its own checksum being right. */
  lemma FrameIsFound(pre: seq<byte>, x: byte, body: seq<byte>, post: seq<byte>, reports: seq<Report>)
    requires x in {0xFC, 0xFD, 0xFE} && |body| >= 15
    requires Decoded(pre + ([0xFF, x, Hi(Crc.Checksum(body)), Lo(Crc.Checksum(body))] + body) + post, reports)
    ensures Reported(reports, |pre|)
  {
    var p := [0xFF, x, Hi(Crc.Checksum(body)), Lo(Crc.Checksum(body))] + body;
    var b := pre + p + post;
    FrameValidIff(x, body);
    hide Valid, Hi, Lo, Crc.Checksum;
    assert b[|pre|..|pre| + |p|] == p;
    assert IsFrame(b, |pre|, |p|);
  }

  /** A report shows angles exactly when what it found is an orientation report long enough to have them. */
  lemma ReportShowsAngles(b: seq<byte>, r: Report)
    requires ReportFits(b, r)
    ensures r.imu.Some? <==> r.length >= 30 && b[r.offset + 1] == 0xFC
    ensures r.imu.Some? ==>
      var at := r.offset;
      && r.imu.value.z == BigEndian(b[at + 18], b[at + 19], b[at + 20], b[at + 21])
      && r.imu.value.x == BigEndian(b[at + 22], b[at + 23], b[at + 24], b[at + 25])
      && r.imu.value.y == BigEndian(b[at + 26], b[at + 27], b[at + 28], b[at + 29])
  {
    hide ParseIMU, BigEndian, Hi, Lo, Crc.Checksum;
    FrameInBytes(b, r.offset, r.length);
    ParseIMUIff(b[r.offset..r.offset + r.length]);
  }

  /** A packet is found wherever it sits. */
  lemma PacketIsFound(pre: seq<byte>, cmd: bv16, counter: bv16, payload: seq<byte>, post: seq<byte>,
                      reports: seq<Report>)
    requires Decoded(pre + PacketBytes(cmd, counter, payload) + post, reports)
    ensures Reported(reports, |pre|)
  {
    hide Valid, PacketBytes;
    PacketIsFrame(pre, cmd, counter, payload, post);
  }

  lemma PacketIsFrame(pre: seq<byte>, cmd: bv16, counter: bv16, payload: seq<byte>, post: seq<byte>)
    ensures var p := PacketBytes(cmd, counter, payload);
            IsFrame(pre + p + post, |pre|, |p|)
  {
    hide Valid, PacketBytes;
    var p := PacketBytes(cmd, counter, payload);
    var b := pre + p + post;
    PacketValid(cmd, counter, payload);
    assert b[|pre|..|pre| + |p|] == p;
  }

  /** A proper prefix of the packet already has the packet's checksum. */
  ghost predicate PrefixCollides(p: seq<byte>) {
    exists n: nat :: MIN_PACKET <= n < |p| && CollidesAt(p, n)
  }

  predicate CollidesAt(p: seq<byte>, n: nat)
    requires 4 <= n <= |p|
  {
    Crc.Checksum(p[4..n]) == Crc.Checksum(p[4..])
  }

  /** The report made for a packet has the packet's own length exactly when no
      proper prefix of it collides. */
  lemma ReportedLength(pre: seq<byte>, cmd: bv16, counter: bv16, payload: seq<byte>, post: seq<byte>, r: Report)
    requires ReportFits(pre + PacketBytes(cmd, counter, payload) + post, r) && r.offset == |pre|
    ensures r.length == |PacketBytes(cmd, counter, payload)| <==> !PrefixCollides(PacketBytes(cmd, counter, payload))
  {
    hide PacketBytes, Valid, ParseIMU, Crc.Checksum;
    var p := PacketBytes(cmd, counter, payload);
    var b := pre + p + post;
    PacketIsFrame(pre, cmd, counter, payload, post);
    assert r.length <= |p|;
    forall n: nat | MIN_PACKET <= n < |p| ensures IsFrame(b, |pre|, n) <==> CollidesAt(p, n) {
      PrefixValidIff(cmd, counter, payload, n);
      assert b[|pre|..|pre| + n] == p[..n];
    }
  }

  lemma PrefixValidIff(cmd: bv16, counter: bv16, payload: seq<byte>, n: nat)
    requires MIN_PACKET <= n <= |PacketBytes(cmd, counter, payload)|
    ensures var p := PacketBytes(cmd, counter, payload);
            Valid(p[..n]) <==> CollidesAt(p, n)
  {
    hide PacketBytes, Word, KnownHeader, Crc.Checksum;
    var p := PacketBytes(cmd, counter, payload);
    PacketValid(cmd, counter, payload);
    assert p[..n][4..] == p[4..n];
    assert p[..n][0] == p[0] && p[..n][1] == p[1] && p[..n][2] == p[2] && p[..n][3] == p[3];
  }

  // ----- A packet that is reported short -----

  /** A body whose checksum its last three bytes leave unchanged, and the register after each byte. */
  const SHORT_BODY: seq<byte> := [14, 0, 0, 0, 0, 0, 0, 0, 0, 0, 0, 0, 0, 0, 0, 0x4E, 0xBE, 0x03]
  const SHORT_TRACE: seq<bv16> :=
    [0xFFFF, 0x003E, 0x3E00, 0xD79D, 0x269A, 0xDEA4, 0x8EB3, 0xC346, 0xAF2F, 0x6B05,
     0xD8CD, 0x8775, 0x946F, 0xAC3D, 0x4966, 0xBFED, 0x123E, 0x4A66, 0xBFED]

  predicate ShortStep(k: nat)
    requires k < 18
  {
    Crc.EightSteps(Xor16(SHORT_TRACE[k], OnTop(SHORT_BODY[k]))) == SHORT_TRACE[k + 1]
  }

  lemma ShortSteps0()
    ensures ShortStep(0) && ShortStep(1) && ShortStep(2)
  {}

  lemma ShortSteps1()
    ensures ShortStep(3) && ShortStep(4) && ShortStep(5)
  {}

  lemma ShortSteps2()
    ensures ShortStep(6) && ShortStep(7) && ShortStep(8)
  {}

  lemma ShortSteps3()
    ensures ShortStep(9) && ShortStep(10) && ShortStep(11)
  {}

  lemma ShortSteps4()
    ensures ShortStep(12) && ShortStep(13) && ShortStep(14)
  {}

  lemma ShortSteps5()
    ensures ShortStep(15) && ShortStep(16) && ShortStep(17)
  {}

  lemma ShortStepsAll(k: nat)
    requires k < 18
    ensures ShortStep(k)
  {
    hide ShortStep;
    ShortSteps0(); ShortSteps1(); ShortSteps2(); ShortSteps3(); ShortSteps4(); ShortSteps5();
  }

  lemma {:induction false} ShortRun(k: nat)
    requires k <= 18
    ensures Crc.Run(0xFFFF, SHORT_BODY[..k]) == SHORT_TRACE[k]
  {
    hide Crc.ByteStep, Crc.EightSteps;
    if k == 0 {
    } else {
      var b := SHORT_BODY[..k - 1];
      var c := SHORT_BODY[k - 1];
      ShortRun(k - 1);
      ShortStepsAll(k - 1);
      Crc.ByteStepUnrolled(SHORT_TRACE[k - 1], c);
      assert SHORT_BODY[..k] == b + [c];
      Crc.RunAppend(0xFFFF, b, [c]);
      assert [c][1..] == [];
    }
  }

  const SHORT_PAYLOAD: seq<byte> := [0x00, 0x4E, 0xBE]

  lemma ShortPacketCollides()
    ensures |PacketBytes(0, 0, SHORT_PAYLOAD)| == 22 && CollidesAt(PacketBytes(0, 0, SHORT_PAYLOAD), 19)
  {
    hide Crc.Run, U16;
    var p := PacketBytes(0, 0, SHORT_PAYLOAD);
    U16Of14();
    assert p[4..] == SHORT_BODY;
    assert p[4..19] == SHORT_BODY[..15];
    assert SHORT_BODY == SHORT_BODY[..18];
    ShortRun(15);
    ShortRun(18);
  }

  /** Wherever this packet of 22 bytes stands, it is reported as one of 19. */
  lemma SomePacketIsReportedShort(pre: seq<byte>, post: seq<byte>, r: Report)
    requires ReportFits(pre + PacketBytes(0, 0, SHORT_PAYLOAD) + post, r) && r.offset == |pre|
    ensures |PacketBytes(0, 0, SHORT_PAYLOAD)| == 22 && r.length == 19
  {
    ShortPacketCollides();
    hide PacketBytes, Valid, ParseIMU, Crc.Checksum;
    var p := PacketBytes(0, 0, SHORT_PAYLOAD);
    PrefixValidIff(0, 0, SHORT_PAYLOAD, 19);
    assert (pre + p + post)[|pre|..|pre| + 19] == p[..19];
    assert IsFrame(pre + p + post, |pre|, 19);
  }

  lemma U16Of14()
    ensures Lo(U16(14)) == 14 && Hi(U16(14)) == 0 && Lo(0) == 0 && Hi(0) == 0
  {
    assert U16(1) == 1 && U16(3) == 3 && U16(7) == 7 && U16(14) == 14;
  }
}
