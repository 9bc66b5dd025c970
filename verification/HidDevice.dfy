/** Devices of hid/hid.go: enumeration, Open, Close, and the claims of Stream,
    above seams that stand for IOKit. */
module HidDevice {
  import opened Wrappers
  import opened HidStream

  /** What enumeration reads about a device, without the display strings. */
  datatype Info = Info(vendorID: nat, productID: nat, usagePage: nat, usage: nat, maxInputReportSize: int)

  datatype Filter = Filter(vendorID: nat, productIDs: seq<nat>, usagePage: nat, usage: nat)

  /** Every constraint the filter sets holds; zero and empty set none. */
  predicate Matches(f: Filter, i: Info) {
    && f.vendorID in {0, i.vendorID}
    && f.usagePage in {0, i.usagePage}
    && f.usage in {0, i.usage}
    && (f.productIDs == [] || i.productID in f.productIDs)
  }

  /** A filter is the conjunction of what its fields ask for one at a time; a
      number asks for itself unless it is zero, a list of products for one of its own
      unless it is empty. */
  lemma MatchesIff(f: Filter, i: Info)
    ensures Matches(f, i) <==>
      && (f.vendorID != 0 ==> f.vendorID == i.vendorID)
      && (f.usagePage != 0 ==> f.usagePage == i.usagePage)
      && (f.usage != 0 ==> f.usage == i.usage)
      && (|f.productIDs| > 0 ==> exists k :: 0 <= k < |f.productIDs| && f.productIDs[k] == i.productID)
  {}

  method Match(f: Filter, i: Info) returns (ok: bool)
    ensures ok == Matches(f, i)
  {
    if f.vendorID != 0 && i.vendorID != f.vendorID { return false; }
    if f.usagePage != 0 && i.usagePage != f.usagePage { return false; }
    if f.usage != 0 && i.usage != f.usage { return false; }
    if |f.productIDs| > 0 {
      for k := 0 to |f.productIDs|
        invariant i.productID !in f.productIDs[..k]
      {
        if i.productID == f.productIDs[k] { return true; }
      }
      return false;
    }
    return true;
  }

  const DEFAULT_BUF_SIZE: int := 64

  function BufSize(max: int): (size: int)
    ensures size > 0 && (max > 0 ==> size == max) && (max <= 0 ==> size == 64)
  {
    if max <= 0 then DEFAULT_BUF_SIZE else max
  }

  // ----- The seams -----

  datatype NativeCall =
    | OpenDev(ref: Ref)
    | CloseDev(ref: Ref)
    | ReleaseRef(ref: Ref)
    // counts are the streaming counters that Close sees meanwhile
    | StreamAll(refs: seq<Ref>, sizes: seq<int>, counts: seq<int>)

  /** IOKit, answering each call as a fixed but arbitrary script says. */
  class Native {
    const script: nat -> int
    var calls: seq<NativeCall>

    constructor (script: nat -> int)
      ensures this.script == script && calls == []
    {
      this.script, calls := script, [];
    }

    method Call(c: NativeCall) returns (code: int)
      modifies this
      ensures calls == old(calls) + [c] && code == script(|old(calls)|)
    {
      code := script(|calls|);
      calls := calls + [c];
    }
  }

  datatype Error =
    | IOFailed(call: NativeCall, code: int)
    | Streaming(count: int)
    | NotOpen(index: nat)
    | NoDevices
    | Ended(code: int)

  function IOErr(call: NativeCall, code: int): Option<Error> {
    if code == 0 then None else Some(IOFailed(call, code))
  }

  class Device {
    const info: Info
    var ref: Ref
    var open: bool
    var streaming: int

    constructor (info: Info, ref: Ref)
      ensures this.info == info && View() == Handle(ref, false, 0)
    {
      this.info, this.ref, open, streaming := info, ref, false, 0;
    }

    function View(): Handle
      reads this
    {
      Handle(ref, open, streaming)
    }

    /** Opening an open device does nothing; a refusal leaves it closed. */
    method Open(native: Native) returns (err: Option<Error>)
      modifies native, this`open
      ensures old(open) ==> err == None && native.calls == old(native.calls) && open
      ensures !old(open) ==>
        && native.calls == old(native.calls) + [OpenDev(ref)]
        && var code := native.script(|old(native.calls)|);
        && err == (if code == 0 then None else Some(IOFailed(OpenDev(ref), code)))
        && (open <==> code == 0)
    {
      if open { return None; }
      var code := native.Call(OpenDev(ref));
      err := IOErr(OpenDev(ref), code);
      if err == None { open := true; }
    }

    /** A closed handle and one that a stream claims are left alone, with no
        call made; any other is closed if open and released, whatever closing answers. */
    method Close(native: Native) returns (err: Option<Error>)
      modifies native, this`ref, this`open
      ensures View() == if Closes(old(View())) then Handle(0, false, old(streaming)) else old(View())
      ensures native.calls == old(native.calls) + ClosingCalls(old(View()))
      ensures old(ref) == 0 ==> err == None && native.calls == old(native.calls)
      ensures old(ref) != 0 && old(streaming) > 0 ==>
        err == Some(Streaming(old(streaming))) && native.calls == old(native.calls) && View() == old(View())
      ensures old(ref) != 0 && old(streaming) <= 0 ==>
        && ref == 0 && !open
        && if old(open) then
             var code := native.script(|old(native.calls)|);
             && native.calls == old(native.calls) + [CloseDev(old(ref)), ReleaseRef(old(ref))]
             && err == (if code == 0 then None else Some(IOFailed(CloseDev(old(ref)), code)))
           else native.calls == old(native.calls) + [ReleaseRef(old(ref))] && err == None
    {
      if ref == 0 { return None; }
      if streaming > 0 { return Some(Streaming(streaming)); }
      err := None;
      if open {
        var code := native.Call(CloseDev(ref));
        err := IOErr(CloseDev(ref), code);
        open := false;
      }
      var _ := native.Call(ReleaseRef(ref));
      ref := 0;
    }
  }

  function ClosingCalls(h: Handle): seq<NativeCall> {
    if !Closes(h) then [] else (if h.open then [CloseDev(h.ref)] else []) + [ReleaseRef(h.ref)]
  }

  // ----- Enumeration -----

  /** One enumerated device, in the terms of the state machine. */
  function Marks(f: Filter, found: seq<(Info, Ref)>): (marks: seq<Found>)
    ensures |marks| == |found|
  {
    seq(|found|, k requires 0 <= k < |found| => Found(found[k].1, Matches(f, found[k].0)))
  }

  /** What is kept are the matching devices, each as a handle not yet open. */
  lemma {:induction false} KeptMatch(f: Filter, found: seq<(Info, Ref)>, h: Handle)
    ensures h in Kept(Marks(f, found)) <==> exists k :: 0 <= k < |found| && MatchedAt(f, found, k, h)
  {
    var marks := Marks(f, found);
    KeptIff(marks, h);
    if k :| 0 <= k < |found| && MatchedAt(f, found, k, h) {
      assert KeptAt(marks, k, h);
    }
    if k :| 0 <= k < |marks| && KeptAt(marks, k, h) {
      assert MatchedAt(f, found, k, h);
    }
  }

  predicate MatchedAt(f: Filter, found: seq<(Info, Ref)>, k: nat, h: Handle)
    requires k < |found|
  {
    Matches(f, found[k].0) && h == Handle(found[k].1, false, 0)
  }

  predicate KeptAt(marks: seq<Found>, k: nat, h: Handle)
    requires k < |marks|
  {
    marks[k].keep && h == Handle(marks[k].ref, false, 0)
  }

  lemma {:induction false} KeptIff(marks: seq<Found>, h: Handle)
    ensures h in Kept(marks) <==> exists k :: 0 <= k < |marks| && KeptAt(marks, k, h)
  {
    if marks == [] {
    } else {
      var rest := marks[1..];
      KeptIff(rest, h);
      if k :| 0 <= k < |rest| && KeptAt(rest, k, h) {
        assert KeptAt(marks, k + 1, h);
      }
      if KeptAt(marks, 0, h) {
        assert h in Kept(marks);
      }
      if k :| 0 <= k < |marks| && KeptAt(marks, k, h) {
        assert k > 0 ==> KeptAt(rest, k - 1, h);
      }
    }
  }

  /** And what is released are the others. */
  lemma {:induction false} ReleasesOthers(marks: seq<Found>, c: NativeCall)
    ensures c in Releases(marks) <==>
      exists k :: 0 <= k < |marks| && ReleasedAt(marks, k, c)
  {
    if marks == [] {
    } else {
      var before := marks[..|marks| - 1];
      ReleasesOthers(before, c);
      if k :| 0 <= k < |before| && ReleasedAt(before, k, c) {
        assert ReleasedAt(marks, k, c);
      }
      if ReleasedAt(marks, |marks| - 1, c) {
        assert c in Releases(marks);
      }
      if k :| 0 <= k < |marks| && ReleasedAt(marks, k, c) {
        assert k < |before| ==> ReleasedAt(before, k, c);
      }
    }
  }

  predicate ReleasedAt(marks: seq<Found>, k: nat, c: NativeCall)
    requires k < |marks|
  {
    !marks[k].keep && c == ReleaseRef(marks[k].ref)
  }

  function Releases(marks: seq<Found>): seq<NativeCall> {
    if marks == [] then []
    else Releases(marks[..|marks| - 1]) + (if marks[|marks| - 1].keep then [] else [ReleaseRef(marks[|marks| - 1].ref)])
  }

  lemma {:induction false} ReleasesMore(marks: seq<Found>, x: Found)
    ensures Releases(marks + [x]) == Releases(marks) + (if x.keep then [] else [ReleaseRef(x.ref)])
  {
    assert (marks + [x])[..|marks|] == marks;
  }

  function Views(devices: seq<Device>): (hs: seq<Handle>)
    reads devices
    ensures |hs| == |devices| && forall k :: 0 <= k < |hs| ==> hs[k] == devices[k].View()
  {
    seq(|devices|, k requires 0 <= k < |devices| reads devices => devices[k].View())
  }

  /** The handles kept are exactly the matching ones, in order, each a new
      device; every other reference is released, once, in order. */
  method Devices(f: Filter, found: seq<(Info, Ref)>, native: Native) returns (out: seq<Device>)
    modifies native
    ensures forall k :: 0 <= k < |out| ==> fresh(out[k])
    ensures forall j, k :: 0 <= j < k < |out| ==> out[j] != out[k]
    ensures Views(out) == Kept(Marks(f, found))
    ensures native.calls == old(native.calls) + Releases(Marks(f, found))
  {
    hide Kept, Releases;
    out := [];
    ghost var marks := Marks(f, found);
    NothingKept();
    for i := 0 to |found|
      invariant forall k :: 0 <= k < |out| ==> fresh(out[k])
      invariant forall j, k :: 0 <= j < k < |out| ==> out[j] != out[k]
      invariant Views(out) == Kept(marks[..i])
      invariant native.calls == old(native.calls) + Releases(marks[..i])
    {
      assert marks[..i + 1] == marks[..i] + [marks[i]];
      KeptMore(marks[..i], marks[i]);
      ReleasesMore(marks[..i], marks[i]);
      ghost var views := Views(out);
      var keep := Match(f, found[i].0);
      if keep {
        var d := new Device(found[i].0, found[i].1);
        out := out + [d];
        assert Views(out) == views + [Handle(found[i].1, false, 0)];
      } else {
        var _ := native.Call(ReleaseRef(found[i].1));
      }
    }
    assert marks[..|found|] == marks;
  }

  lemma NothingKept()
    ensures Kept([]) == [] && Releases([]) == []
  {}

  function KeptOne(x: Found): seq<Handle> { if x.keep then [Handle(x.ref, false, 0)] else [] }

  lemma {:induction false} KeptFromFirst(x: Found, rest: seq<Found>)
    ensures Kept([x] + rest) == KeptOne(x) + Kept(rest)
  {
    assert ([x] + rest)[1..] == rest;
  }

  lemma {:induction false} KeptMore(a: seq<Found>, x: Found)
    ensures Kept(a + [x]) == Kept(a) + KeptOne(x)
  {
    if a == [] {
      KeptFromFirst(x, []);
      assert Kept([]) == [] && [x] + [] == [x] && a + [x] == [x];
      assert KeptOne(x) + [] == KeptOne(x) == [] + KeptOne(x);
    } else {
      hide Kept, KeptOne;
      assert a == [a[0]] + a[1..];
      assert a + [x] == [a[0]] + (a[1..] + [x]);
      KeptMore(a[1..], x);
      KeptFromFirst(a[0], a[1..]);
      KeptFromFirst(a[0], a[1..] + [x]);
      Regrouped(KeptOne(a[0]), Kept(a[1..]), KeptOne(x));
    }
  }

  lemma Regrouped(a: seq<Handle>, b: seq<Handle>, c: seq<Handle>)
    ensures a + (b + c) == (a + b) + c
  {}

  function ReleasedRefs(calls: seq<NativeCall>): multiset<Ref> {
    if calls == [] then multiset{}
    else ReleasedRefs(calls[..|calls| - 1]) +
         (if calls[|calls| - 1].ReleaseRef? then multiset{calls[|calls| - 1].ref} else multiset{})
  }

  lemma {:induction false} ReleasedMore(calls: seq<NativeCall>, ref: Ref)
    ensures ReleasedRefs(calls + [ReleaseRef(ref)]) == ReleasedRefs(calls) + multiset{ref}
  {
    assert (calls + [ReleaseRef(ref)])[..|calls|] == calls;
  }

  /** What Devices releases is what the state machine takes as rejected. */
  lemma {:induction false} ReleasesAreRejected(marks: seq<Found>)
    ensures ReleasedRefs(Releases(marks)) == Rejected(marks)
  {
    if marks == [] {
    } else {
      var before, x := marks[..|marks| - 1], marks[|marks| - 1];
      assert marks == before + [x];
      ReleasesAreRejected(before);
      ReleaseOfOne(before, x);
    }
  }

  lemma {:induction false} ReleaseOfOne(before: seq<Found>, x: Found)
    requires ReleasedRefs(Releases(before)) == Rejected(before)
    ensures ReleasedRefs(Releases(before + [x])) == Rejected(before + [x])
  {
    hide *;
    RejectedMore(before, x);
    ReleasesMore(before, x);
    if x.keep {
      assert Releases(before) + [] == Releases(before);
    } else {
      ReleasedMore(Releases(before), x.ref);
    }
  }

  lemma {:induction false} RejectedMore(a: seq<Found>, x: Found)
    ensures Rejected(a + [x]) == Rejected(a) + (if x.keep then multiset{} else multiset{x.ref})
  {
    if a == [] {
      assert [x][1..] == [];
      assert a + [x] == [x];
    } else {
      assert (a + [x])[1..] == a[1..] + [x];
      RejectedMore(a[1..], x);
    }
  }

  // ----- Stream, above the seam -----

  function FirstClosed(devs: seq<Device>): (k: nat)
    reads devs
    ensures k <= |devs| && (forall j :: 0 <= j < k ==> devs[j].open) && (k < |devs| ==> !devs[k].open)
  {
    if devs == [] || !devs[0].open then 0 else 1 + FirstClosed(devs[1..])
  }

  /** One claim for each time a device is listed. */
  method Claim(devs: seq<Device>)
    modifies devs`streaming
    ensures forall d <- devs :: d.streaming == old(d.streaming) + multiset(devs)[d]
  {
    for k := 0 to |devs|
      invariant forall d <- devs :: d.streaming == old(d.streaming) + multiset(devs[..k])[d]
    {
      assert devs[..k + 1] == devs[..k] + [devs[k]];
      devs[k].streaming := devs[k].streaming + 1;
    }
    assert devs[..|devs|] == devs;
  }

  /** The deferred releases of those claims, last claimed first. */
  method Unclaim(devs: seq<Device>)
    modifies devs`streaming
    ensures forall d <- devs :: d.streaming == old(d.streaming) - multiset(devs)[d]
  {
    var k := |devs|;
    while k > 0
      invariant 0 <= k <= |devs|
      invariant forall d <- devs :: d.streaming == old(d.streaming) - multiset(devs[k..])[d]
    {
      k := k - 1;
      assert devs[k..] == [devs[k]] + devs[k + 1..];
      devs[k].streaming := devs[k].streaming - 1;
    }
    assert devs[0..] == devs;
  }

  function RefsNow(devs: seq<Device>): (refs: seq<Ref>)
    reads devs
    ensures |refs| == |devs| && forall k :: 0 <= k < |devs| ==> refs[k] == devs[k].ref
  {
    seq(|devs|, k requires 0 <= k < |devs| reads devs => devs[k].ref)
  }

  function CountsNow(devs: seq<Device>): (counts: seq<int>)
    reads devs
    ensures |counts| == |devs|
  {
    seq(|devs|, k requires 0 <= k < |devs| reads devs => devs[k].streaming)
  }

  /** The counters with one claim more for each time a device is listed. */
  function CountsClaimed(devs: seq<Device>): (counts: seq<int>)
    reads devs
    ensures |counts| == |devs|
  {
    seq(|devs|, k requires 0 <= k < |devs| reads devs => devs[k].streaming + multiset(devs)[devs[k]])
  }

  /** While the platform runs, each counter is up by the number of times its device is listed. */
  lemma CountsAreClaims(devs: seq<Device>, k: nat)
    requires k < |devs|
    ensures CountsNow(devs)[k] == devs[k].streaming
    ensures CountsClaimed(devs)[k] == CountsNow(devs)[k] + multiset(devs)[devs[k]]
    ensures CountsClaimed(devs)[k] > CountsNow(devs)[k]
  {
    assert devs[k] in multiset(devs);
  }

  function Sizes(devs: seq<Device>): (sizes: seq<int>)
    ensures |sizes| == |devs|
    ensures forall k :: 0 <= k < |devs| ==>
      var max := devs[k].info.maxInputReportSize; sizes[k] == if max > 0 then max else 64
  {
    seq(|devs|, k requires 0 <= k < |devs| => BufSize(devs[k].info.maxInputReportSize))
  }

  /** The validation loop: every reference and buffer size, or the first device not open. */
  method Check(devs: seq<Device>) returns (r: Result<(seq<Ref>, seq<int>), Error>)
    ensures r == if FirstClosed(devs) < |devs| then Err(NotOpen(FirstClosed(devs)))
                 else Ok((RefsNow(devs), Sizes(devs)))
  {
    var refs, sizes := [], [];
    for i := 0 to |devs|
      invariant forall j :: 0 <= j < i ==> devs[j].open
      invariant refs == RefsNow(devs[..i]) && sizes == Sizes(devs[..i])
    {
      if !devs[i].open {
        FirstIs(devs, i);
        return Err(NotOpen(i));
      }
      refs := refs + [devs[i].ref];
      sizes := sizes + [BufSize(devs[i].info.maxInputReportSize)];
    }
    FirstIs(devs, |devs|);
    assert devs[..|devs|] == devs;
    return Ok((refs, sizes));
  }

  /** Refused without devices or at the first one not open, with nothing
      scheduled; otherwise the platform is given every reference and buffer size in
      order, and every claim is given back when it returns. */
  method Stream(native: Native, devs: seq<Device>) returns (err: Error)
    modifies native, devs`streaming
    ensures forall d <- devs :: d.streaming == old(d.streaming)
    ensures err == (if devs == [] then NoDevices
                    else if FirstClosed(devs) < |devs| then NotOpen(FirstClosed(devs))
                    else Ended(native.script(|old(native.calls)|)))
    ensures devs != [] && (forall k :: 0 <= k < |devs| ==> devs[k].open) <==> err.Ended?
    ensures devs == [] || FirstClosed(devs) < |devs| ==> native.calls == old(native.calls)
    ensures devs != [] && FirstClosed(devs) == |devs| ==>
      native.calls == old(native.calls) + [StreamAll(RefsNow(devs), Sizes(devs), old(CountsClaimed(devs)))]
  {
    hide FirstClosed, Sizes, RefsNow, CountsNow, CountsClaimed;
    if |devs| == 0 { return NoDevices; }
    var checked := Check(devs);
    if checked.Err? { return checked.error; }
    err := StreamClaimed(native, devs, checked.value.0, checked.value.1);
  }

  /** The rest of the call: claim, hand over to the platform, give the claims back. */
  method StreamClaimed(native: Native, devs: seq<Device>, refs: seq<Ref>, sizes: seq<int>) returns (err: Error)
    modifies native, devs`streaming
    ensures forall d <- devs :: d.streaming == old(d.streaming)
    ensures err == Ended(native.script(|old(native.calls)|))
    ensures native.calls == old(native.calls) + [StreamAll(refs, sizes, old(CountsClaimed(devs)))]
  {
    Claim(devs);
    var counts := CountsNow(devs);
    assert counts == old(CountsClaimed(devs));
    hide CountsNow, CountsClaimed;
    var code := native.Call(StreamAll(refs, sizes, counts));
    Unclaim(devs);
    return Ended(code);
  }

  lemma {:induction false} FirstIs(devs: seq<Device>, k: nat)
    requires k <= |devs| && (forall j :: 0 <= j < k ==> devs[j].open) && (k < |devs| ==> !devs[k].open)
    ensures FirstClosed(devs) == k
  {}
}
