/** What every run of the streaming lifecycle keeps. Each part of the
    invariant looks at a few components of the state only. */
module HidSafety {
  import opened HidStream

  // ----- Handles, claims and the retain/release ledger -----

  predicate OpenOk(handles: seq<Handle>) {
    forall h :: 0 <= h < |handles| ==> (handles[h].open ==> handles[h].ref != 0)
  }

  /** The references still held, one per handle not yet closed. */
  function HeldRefs(handles: seq<Handle>): multiset<Ref> {
    if handles == [] then multiset{}
    else (if handles[0].ref == 0 then multiset{} else multiset{handles[0].ref}) + HeldRefs(handles[1..])
  }

  /** Every retain is either matched by a release or by a handle still open to release it. */
  predicate LedgerOk(retained: multiset<Ref>, released: multiset<Ref>, handles: seq<Handle>) {
    retained == released + HeldRefs(handles)
  }

  function ClaimsOf(t: Stream): multiset<nat> { multiset(t.devs[..t.claims]) }

  /** How often each device is claimed, over all calls of Stream. */
  function Claims(streams: seq<Stream>): multiset<nat> {
    if streams == [] then multiset{} else ClaimsOf(streams[0]) + Claims(streams[1..])
  }

  predicate CountsOk(handles: seq<Handle>, streams: seq<Stream>) {
    forall h :: 0 <= h < |handles| ==> handles[h].streaming == Claims(streams)[h]
  }

  /** A claimed device is open and still refers to what the stream was given. */
  predicate Holds(handles: seq<Handle>, t: Stream, k: nat)
    requires k < t.claims && AllHandles(handles, t.devs)
  {
    handles[t.devs[k]].open && handles[t.devs[k]].ref == t.refs[k]
  }

  predicate HoldsOk(handles: seq<Handle>, streams: seq<Stream>) {
    && (forall s :: 0 <= s < |streams| ==> AllHandles(handles, streams[s].devs))
    && (forall s, k :: 0 <= s < |streams| && 0 <= k < streams[s].claims ==> Holds(handles, streams[s], k))
  }

  // ----- Buffers, callbacks, schedules, registry -----

  /** Buffer i of the call is allocated and not yet freed. */
  predicate Owns(t: Stream, i: nat, p: Ptr) { |t.freed| <= i < |t.bufs| && t.bufs[i] == p }

  ghost predicate HeapOk(streams: seq<Stream>, heap: map<Ptr, Slot>) {
    && (forall p :: p in heap ==> p != 0 && heap[p].sid < |streams| && Owns(streams[heap[p].sid], heap[p].index, p))
    && (forall s, i, p :: 0 <= s < |streams| && 0 <= i && p > 0 && Owns(streams[s], i, p) ==>
        p in heap && heap[p] == Slot(s, i))
  }

  /** The call has registered the callback for its device i and not yet detached it. */
  predicate Wired(t: Stream, i: nat) {
    match t.phase
    case Setup(at, todo) => i < at || (i == at && todo == ToSchedule)
    case Pumping => i < |t.refs|
    case Teardown(at, next) => at < i < |t.refs| || (i == at && next == ToDetach)
    case _ => false
  }

  predicate WiredTo(t: Stream, i: nat, ref: Ref, p: Ptr) {
    Wired(t, i) && t.refs[i] == ref && t.bufs[i] == p
  }

  predicate AttachedOk(streams: seq<Stream>, attached: map<Ref, Attachment>) {
    forall r :: r in attached ==> (
      && attached[r].slot.sid < |streams|
      && WiredTo(streams[attached[r].slot.sid], attached[r].slot.index, r, attached[r].ptr))
  }

  predicate InRunLoop(t: Stream, i: nat) {
    match t.phase
    case Setup(at, _) => i < at
    case Pumping => i < |t.refs|
    case Teardown(at, next) => at < i < |t.refs| || (i == at && next != ToFree)
    case _ => false
  }

  ghost predicate Schedules(t: Stream, ref: Ref) {
    exists i :: 0 <= i < |t.refs| && InRunLoop(t, i) && t.refs[i] == ref
  }

  ghost predicate ScheduledOk(streams: seq<Stream>, scheduled: set<(Ref, nat)>) {
    forall e :: e in scheduled ==> e.1 < |streams| && Schedules(streams[e.1], e.0)
  }

  /** The call has entered its references and not yet erased them. */
  predicate Listening(t: Stream) {
    t.phase.Setup? || t.phase.Pumping? || t.phase.Teardown? || t.phase.Unregistering?
  }

  predicate Lists(t: Stream, i: nat, ref: Ref) { Listening(t) && i < |t.refs| && t.refs[i] == ref }

  predicate RegistryOk(streams: seq<Stream>, registry: map<Ref, Slot>) {
    forall r :: r in registry ==> registry[r].sid < |streams| && Lists(streams[registry[r].sid], registry[r].index, r)
  }

  /** The calls, their memory and what they share. */
  ghost predicate CallsOk(st: State) {
    && OpenOk(st.handles)
    && LedgerOk(st.retained, st.released, st.handles)
    && CountsOk(st.handles, st.streams)
    && HoldsOk(st.handles, st.streams)
    && HeapOk(st.streams, st.heap)
    && AttachedOk(st.streams, st.attached)
    && ScheduledOk(st.streams, st.scheduled)
    && RegistryOk(st.streams, st.registry)
  }

  /** A callback in flight runs on a thread that pumps, and was found in the
      registry under a device of the call that it names. */
  predicate FlyingOk(streams: seq<Stream>, flying: map<nat, Flight>) {
    forall z :: z in flying ==>
      z < |streams| && streams[z].phase == Pumping && Names(streams, flying[z].slot, flying[z].ref)
  }

  predicate Names(streams: seq<Stream>, slot: Slot, ref: Ref) {
    slot.sid < |streams| && slot.index < |streams[slot.sid].refs| && streams[slot.sid].refs[slot.index] == ref
  }

  /** The invariant of every reachable state. */
  ghost predicate Safe(st: State) { CallsOk(st) && FlyingOk(st.streams, st.flying) }

  // ----- Claims -----

  lemma {:induction false} ClaimsReplaced(streams: seq<Stream>, s: nat, t: Stream, h: nat)
    requires s < |streams|
    ensures Claims(streams[s := t])[h] + ClaimsOf(streams[s])[h] == Claims(streams)[h] + ClaimsOf(t)[h]
  {
    var u := streams[s := t];
    if s == 0 {
      assert u[1..] == streams[1..];
    } else {
      assert u[1..] == streams[1..][s - 1 := t];
      ClaimsReplaced(streams[1..], s - 1, t, h);
    }
  }

  lemma {:induction false} ClaimsAdded(streams: seq<Stream>, t: Stream)
    ensures Claims(streams + [t]) == Claims(streams) + ClaimsOf(t)
  {
    if streams == [] {
      assert [t][1..] == [];
      assert streams + [t] == [t];
    } else {
      assert (streams + [t])[1..] == streams[1..] + [t];
      ClaimsAdded(streams[1..], t);
    }
  }

  lemma {:induction false} ClaimIsCounted(streams: seq<Stream>, s: nat, k: nat)
    requires s < |streams| && k < streams[s].claims
    ensures Claims(streams)[streams[s].devs[k]] > 0
  {
    if s == 0 {
      assert streams[0].devs[..streams[0].claims][k] == streams[0].devs[k];
    } else {
      ClaimIsCounted(streams[1..], s - 1, k);
    }
  }

  /** A stream claims only handles that exist. */
  lemma {:induction false} ClaimsAreHandles(handles: seq<Handle>, streams: seq<Stream>, h: nat)
    requires forall s :: 0 <= s < |streams| ==> AllHandles(handles, streams[s].devs)
    requires |handles| <= h
    ensures Claims(streams)[h] == 0
  {
    if streams == [] {
    } else {
      ClaimsAreHandles(handles, streams[1..], h);
      assert AllHandles(handles, streams[0].devs);
      assert h !in streams[0].devs[..streams[0].claims];
    }
  }

  lemma {:induction false} ClaimedCounts(handles: seq<Handle>, devs: seq<nat>, h: nat)
    requires AllHandles(handles, devs) && h < |handles|
    ensures Claimed(handles, devs)[h] == Counted(handles[h], multiset(devs)[h])
    decreases |devs|
  {
    if devs == [] {
    } else {
      assert devs == [devs[0]] + devs[1..];
      ClaimedCounts(handles[devs[0] := Counted(handles[devs[0]], 1)], devs[1..], h);
    }
  }

  // ----- The ledger -----

  lemma {:induction false} HeldAdded(a: seq<Handle>, b: seq<Handle>)
    ensures HeldRefs(a + b) == HeldRefs(a) + HeldRefs(b)
  {
    if a == [] {
      assert a + b == b;
    } else {
      assert (a + b)[1..] == a[1..] + b;
      HeldAdded(a[1..], b);
    }
  }

  lemma {:induction false} FoundIsKeptOrRejected(found: seq<Found>)
    requires forall k :: 0 <= k < |found| ==> found[k].ref != 0
    ensures FoundRefs(found) == HeldRefs(Kept(found)) + Rejected(found)
  {
    if found == [] {
    } else {
      FoundIsKeptOrRejected(found[1..]);
      KeptFirst(found);
      hide HeldRefs, Kept;
    }
  }

  lemma {:induction false} KeptFirst(found: seq<Found>)
    requires found != [] && found[0].ref != 0
    ensures HeldRefs(Kept(found)) ==
            (if found[0].keep then multiset{found[0].ref} else multiset{}) + HeldRefs(Kept(found[1..]))
  {
    var x, rest := Handle(found[0].ref, false, 0), Kept(found[1..]);
    HeldAdded([x], rest);
    HeldOne(x);
    assert [] + rest == rest;
    hide HeldRefs;
  }

  /** What one handle holds. */
  function HeldRef(x: Handle): multiset<Ref> { if x.ref == 0 then multiset{} else multiset{x.ref} }

  lemma {:induction false} HeldFirst(handles: seq<Handle>)
    requires handles != []
    ensures HeldRefs(handles) == HeldRef(handles[0]) + HeldRefs(handles[1..])
  {}

  lemma HeldOne(x: Handle)
    ensures HeldRefs([x]) == HeldRef(x)
  {
    assert [x][1..] == [];
  }

  lemma {:induction false} HeldReplaced(handles: seq<Handle>, h: nat, x: Handle, r: Ref)
    requires h < |handles|
    ensures HeldRefs(handles[h := x])[r] + HeldRef(handles[h])[r] == HeldRefs(handles)[r] + HeldRef(x)[r]
  {
    hide HeldRefs, HeldRef;
    var u := handles[h := x];
    HeldFirst(u);
    HeldFirst(handles);
    if h == 0 {
      assert u[1..] == handles[1..];
    } else {
      assert u[1..] == handles[1..][h - 1 := x];
      HeldReplaced(handles[1..], h - 1, x, r);
    }
  }

  lemma {:induction false} HeldSameRefs(a: seq<Handle>, b: seq<Handle>)
    requires |a| == |b| && forall h :: 0 <= h < |a| ==> a[h].ref == b[h].ref
    ensures HeldRefs(a) == HeldRefs(b)
  {
    if a == [] {
    } else {
      HeldSameRefs(a[1..], b[1..]);
    }
  }

  // ----- A step of one call leaves what concerns the others -----

  lemma CountsStep(handles: seq<Handle>, streams: seq<Stream>, s: nat, t: Stream)
    requires s < |streams| && CountsOk(handles, streams)
    requires t.devs == streams[s].devs && t.claims == streams[s].claims
    ensures CountsOk(handles, streams[s := t])
  {
    assert ClaimsOf(t) == ClaimsOf(streams[s]);
    forall h | 0 <= h < |handles|
      ensures handles[h].streaming == Claims(streams[s := t])[h]
    {
      ClaimsReplaced(streams, s, t, h);
    }
  }

  lemma HoldsStep(handles: seq<Handle>, streams: seq<Stream>, s: nat, t: Stream)
    requires s < |streams| && HoldsOk(handles, streams)
    requires t.devs == streams[s].devs && t.refs == streams[s].refs && t.claims <= streams[s].claims
    ensures HoldsOk(handles, streams[s := t])
  {
    var u := streams[s := t];
    forall z, k | 0 <= z < |u| && 0 <= k < u[z].claims
      ensures Holds(handles, u[z], k)
    {
      assert Holds(handles, streams[z], k);
    }
  }

  lemma HeapStep(streams: seq<Stream>, heap: map<Ptr, Slot>, s: nat, t: Stream)
    requires s < |streams| && HeapOk(streams, heap)
    requires t.bufs == streams[s].bufs && t.freed == streams[s].freed
    ensures HeapOk(streams[s := t], heap)
  {
    var u := streams[s := t];
    forall z, i, p | 0 <= z < |u| && 0 <= i && p > 0 && Owns(u[z], i, p)
      ensures p in heap && heap[p] == Slot(z, i)
    {
      assert Owns(streams[z], i, p);
    }
  }

  lemma AttachedStep(streams: seq<Stream>, attached: map<Ref, Attachment>, s: nat, t: Stream)
    requires s < |streams| && AttachedOk(streams, attached)
    requires forall r :: r in attached && attached[r].slot.sid == s ==>
      (WiredTo(streams[s], attached[r].slot.index, r, attached[r].ptr) ==>
          WiredTo(t, attached[r].slot.index, r, attached[r].ptr))
    ensures AttachedOk(streams[s := t], attached)
  {}

  lemma ScheduledStep(streams: seq<Stream>, scheduled: set<(Ref, nat)>, s: nat, t: Stream)
    requires s < |streams| && ScheduledOk(streams, scheduled)
    requires forall e :: e in scheduled && e.1 == s && Schedules(streams[s], e.0) ==> Schedules(t, e.0)
    ensures ScheduledOk(streams[s := t], scheduled)
  {}

  lemma SchedulesMore(t: Stream, t': Stream, ref: Ref)
    requires Schedules(t, ref) && t'.refs == t.refs
    requires forall i :: 0 <= i < |t.refs| && t.refs[i] == ref && InRunLoop(t, i) ==> InRunLoop(t', i)
    ensures Schedules(t', ref)
  {
    var i :| 0 <= i < |t.refs| && InRunLoop(t, i) && t.refs[i] == ref;
    assert InRunLoop(t', i);
  }

  lemma RegistryStep(streams: seq<Stream>, registry: map<Ref, Slot>, s: nat, t: Stream)
    requires s < |streams| && RegistryOk(streams, registry)
    requires t.refs == streams[s].refs && (Listening(streams[s]) ==> Listening(t))
    ensures RegistryOk(streams[s := t], registry)
  {}

  lemma {:induction false} EnteredOnly(registry: map<Ref, Slot>, refs: seq<Ref>, s: nat, k: nat, r: Ref)
    requires k <= |refs| && r in Entered(registry, refs, s, k)
    ensures var e := Entered(registry, refs, s, k)[r];
      (e.sid == s && e.index < k && refs[e.index] == r) || (r in registry && e == registry[r] && r !in refs[..k])
  {
    if k == 0 {
    } else if r == refs[k - 1] {
    } else {
      EnteredOnly(registry, refs, s, k - 1, r);
      assert refs[..k] == refs[..k - 1] + [refs[k - 1]];
    }
  }

  lemma {:induction false} EnteredAll(registry: map<Ref, Slot>, refs: seq<Ref>, s: nat, k: nat, r: Ref)
    requires k <= |refs|
    ensures r in Entered(registry, refs, s, k) <==> r in registry || r in refs[..k]
  {
    if k == 0 {
    } else {
      EnteredAll(registry, refs, s, k - 1, r);
      assert refs[..k] == refs[..k - 1] + [refs[k - 1]];
    }
  }

  // ----- Every action keeps the invariant -----

  lemma {:induction false} KeptAreClosed(found: seq<Found>)
    ensures forall h :: 0 <= h < |Kept(found)| ==> Kept(found)[h].streaming == 0 && !Kept(found)[h].open
  {
    if found == [] {
    } else {
      KeptAreClosed(found[1..]);
    }
  }

  lemma SafeInitially()
    ensures Safe(INIT)
  {
    assert HeldRefs([]) == multiset{};
  }

  lemma EnumerateKeeps(st: State, found: seq<Found>)
    requires CallsOk(st) && Enabled(st, Enumerate(found))
    ensures CallsOk(Next(st, Enumerate(found)))
  {
    hide HeapOk, AttachedOk, ScheduledOk, RegistryOk, HoldsOk, CountsOk, LedgerOk, FoundRefs, Rejected, Kept, HeldRefs;
    KeptAreClosed(found);
    LedgerEnumerate(st.retained, st.released, st.handles, found);
    CountsAppended(st.handles, Kept(found), st.streams);
    HandlesAppended(st.handles, Kept(found), st.streams);
  }

  lemma {:induction false} LedgerEnumerate(retained: multiset<Ref>, released: multiset<Ref>,
                                            handles: seq<Handle>, found: seq<Found>)
    requires LedgerOk(retained, released, handles) && forall k :: 0 <= k < |found| ==> found[k].ref != 0
    ensures LedgerOk(retained + FoundRefs(found), released + Rejected(found), handles + Kept(found))
  {
    hide FoundRefs, Rejected, Kept, HeldRefs;
    FoundIsKeptOrRejected(found);
    HeldAdded(handles, Kept(found));
  }

  lemma CountsAppended(handles: seq<Handle>, more: seq<Handle>, streams: seq<Stream>)
    requires CountsOk(handles, streams) && HoldsOk(handles, streams)
    requires forall h :: 0 <= h < |more| ==> more[h].streaming == 0
    ensures CountsOk(handles + more, streams)
  {
    hide Claims;
    var all := handles + more;
    forall h | 0 <= h < |all|
      ensures all[h].streaming == Claims(streams)[h]
    {
      if |handles| <= h { ClaimsAreHandles(handles, streams, h); }
    }
  }

  lemma HandlesAppended(handles: seq<Handle>, more: seq<Handle>, streams: seq<Stream>)
    requires HoldsOk(handles, streams)
    ensures HoldsOk(handles + more, streams)
  {
    var after := handles + more;
    forall s | 0 <= s < |streams|
      ensures AllHandles(after, streams[s].devs)
    {
      assert AllHandles(handles, streams[s].devs);
    }
    forall s, k | 0 <= s < |streams| && 0 <= k < streams[s].claims
      ensures Holds(after, streams[s], k)
    {
      assert Holds(handles, streams[s], k);
    }
  }

  /** A handle may change in any way that keeps it open under its reference while claimed. */
  lemma {:induction false} HandleReplaced(handles: seq<Handle>, streams: seq<Stream>, h: nat, x: Handle)
    requires h < |handles| && HoldsOk(handles, streams)
    requires (x.open && x.ref == handles[h].ref) || Claims(streams)[h] == 0
    ensures HoldsOk(handles[h := x], streams)
  {
    var after := handles[h := x];
    forall s | 0 <= s < |streams|
      ensures AllHandles(after, streams[s].devs)
    {
      assert AllHandles(handles, streams[s].devs);
    }
    forall s, k | 0 <= s < |streams| && 0 <= k < streams[s].claims
      ensures Holds(after, streams[s], k)
    {
      assert Holds(handles, streams[s], k);
      ClaimIsCounted(streams, s, k);
    }
  }

  lemma LedgerSameRefs(retained: multiset<Ref>, released: multiset<Ref>, a: seq<Handle>, b: seq<Handle>)
    requires LedgerOk(retained, released, a)
    requires |a| == |b| && forall h :: 0 <= h < |a| ==> a[h].ref == b[h].ref
    ensures LedgerOk(retained, released, b)
  {
    HeldSameRefs(a, b);
  }

  lemma OpenKeeps(st: State, h: nat, ok: bool)
    requires CallsOk(st) && Enabled(st, Open(h, ok))
    ensures CallsOk(Next(st, Open(h, ok)))
  {
    hide HeapOk, AttachedOk, ScheduledOk, RegistryOk, HoldsOk, LedgerOk, Claims, HeldRefs;
    if ok {
      var x := st.handles[h].(open := true);
      HandleReplaced(st.handles, st.streams, h, x);
      LedgerSameRefs(st.retained, st.released, st.handles, st.handles[h := x]);
    }
  }

  lemma CloseKeeps(st: State, h: nat)
    requires CallsOk(st) && Enabled(st, Close(h))
    ensures CallsOk(Next(st, Close(h)))
  {
    hide HeapOk, AttachedOk, ScheduledOk, RegistryOk, HoldsOk, LedgerOk, Claims, HeldRefs;
    if Closes(st.handles[h]) {
      var x := st.handles[h].(ref := 0, open := false);
      HandleReplaced(st.handles, st.streams, h, x);
      LedgerClose(st.retained, st.released, st.handles, h, x);
    }
  }

  lemma LedgerClose(retained: multiset<Ref>, released: multiset<Ref>, handles: seq<Handle>, h: nat, x: Handle)
    requires h < |handles| && handles[h].ref != 0 && x.ref == 0 && LedgerOk(retained, released, handles)
    ensures LedgerOk(retained, released + multiset{handles[h].ref}, handles[h := x])
  {
    forall r: Ref
      ensures retained[r] == (released + multiset{handles[h].ref} + HeldRefs(handles[h := x]))[r]
    {
      HeldReplaced(handles, h, x, r);
    }
  }

  lemma StartKeeps(st: State, devs: seq<nat>)
    requires CallsOk(st) && Enabled(st, Start(devs))
    ensures CallsOk(Next(st, Start(devs)))
  {
    hide HeapOk, AttachedOk, ScheduledOk, RegistryOk, HoldsOk, Claimed, LedgerOk;
    if CanStart(st.handles, devs) {
      var t: Stream := Call(devs, RefsOf(st.handles, devs), Registering, [], [], |devs|);
      var handles := Claimed(st.handles, devs);
      ClaimsAdded(st.streams, t);
      assert devs[..|devs|] == devs;
      forall h | 0 <= h < |handles|
        ensures handles[h] == Counted(st.handles[h], multiset(devs)[h])
      {
        ClaimedCounts(st.handles, devs, h);
      }
      LedgerSameRefs(st.retained, st.released, st.handles, handles);
      StartHolds(st.handles, handles, st.streams, t);
      OthersAdded(st, t);
    }
  }

  lemma StartHolds(before: seq<Handle>, after: seq<Handle>, streams: seq<Stream>, t: Stream)
    requires HoldsOk(before, streams) && AllHandles(before, t.devs)
    requires |after| == |before| && forall h :: 0 <= h < |before| ==>
      after[h].ref == before[h].ref && after[h].open == before[h].open
    requires forall k :: 0 <= k < |t.devs| ==> before[t.devs[k]].open && before[t.devs[k]].ref == t.refs[k]
    ensures HoldsOk(after, streams + [t])
  {
    var u := streams + [t];
    forall s | 0 <= s < |u|
      ensures AllHandles(after, u[s].devs)
    {
      assert AllHandles(before, u[s].devs);
    }
    forall s, k | 0 <= s < |u| && 0 <= k < u[s].claims
      ensures Holds(after, u[s], k)
    {
      assert Holds(before, u[s], k);
    }
  }

  /** A call that has not entered its references yet concerns no buffer, callback or entry. */
  lemma OthersAdded(st: State, t: Stream)
    requires HeapOk(st.streams, st.heap) && AttachedOk(st.streams, st.attached)
    requires ScheduledOk(st.streams, st.scheduled) && RegistryOk(st.streams, st.registry)
    requires t.phase == Registering
    ensures HeapOk(st.streams + [t], st.heap) && AttachedOk(st.streams + [t], st.attached)
    ensures ScheduledOk(st.streams + [t], st.scheduled) && RegistryOk(st.streams + [t], st.registry)
  {
    HeapAdded(st.streams, st.heap, t);
  }

  lemma HeapAdded(streams: seq<Stream>, heap: map<Ptr, Slot>, t: Stream)
    requires HeapOk(streams, heap) && t.bufs == []
    ensures HeapOk(streams + [t], heap)
  {
    var u := streams + [t];
    forall s, i, p | 0 <= s < |u| && 0 <= i && p > 0 && Owns(u[s], i, p)
      ensures p in heap && heap[p] == Slot(s, i)
    {
      assert Owns(streams[s], i, p);
    }
  }

  /** A step of one call that moves none of its claims or buffers, and listens on if it did. */
  predicate Quiet(t: Stream, t': Stream) {
    && t'.devs == t.devs && t'.refs == t.refs && t'.claims == t.claims
    && t'.bufs == t.bufs && t'.freed == t.freed
    && (Listening(t) ==> Listening(t'))
  }

  lemma QuietStep(st: State, s: nat, t: Stream)
    requires CallsOk(st) && s < |st.streams| && Quiet(st.streams[s], t)
    ensures CountsOk(st.handles, st.streams[s := t]) && HoldsOk(st.handles, st.streams[s := t])
    ensures HeapOk(st.streams[s := t], st.heap) && RegistryOk(st.streams[s := t], st.registry)
  {
    hide CountsOk, HoldsOk, HeapOk, RegistryOk, AttachedOk, ScheduledOk, LedgerOk, OpenOk, Shaped;
    CountsStep(st.handles, st.streams, s, t);
    HoldsStep(st.handles, st.streams, s, t);
    HeapStep(st.streams, st.heap, s, t);
    RegistryStep(st.streams, st.registry, s, t);
  }

  /** The callbacks and schedules of one call survive a step that keeps them all. */
  lemma CallbacksStep(st: State, s: nat, t: Stream)
    requires CallsOk(st) && s < |st.streams|
    requires t.refs == st.streams[s].refs && st.streams[s].bufs <= t.bufs
    requires forall i: nat :: (Wired(st.streams[s], i) ==> Wired(t, i))
    requires forall i: nat :: (InRunLoop(st.streams[s], i) ==> InRunLoop(t, i))
    ensures AttachedOk(st.streams[s := t], st.attached) && ScheduledOk(st.streams[s := t], st.scheduled)
  {
    hide CountsOk, HoldsOk, HeapOk, RegistryOk, LedgerOk, OpenOk, InRunLoop;
    AttachedStep(st.streams, st.attached, s, t);
    forall e | e in st.scheduled && e.1 == s && Schedules(st.streams[s], e.0)
      ensures Schedules(t, e.0)
    {
      SchedulesMore(st.streams[s], t, e.0);
    }
    ScheduledStep(st.streams, st.scheduled, s, t);
  }

  lemma RegisterKeeps(st: State, s: nat)
    requires CallsOk(st) && Enabled(st, Register(s))
    ensures CallsOk(Next(st, Register(s)))
  {
    hide OpenOk, LedgerOk, CountsOk, HoldsOk, HeapOk, AttachedOk, ScheduledOk, Entered;
    var t := st.streams[s];
    var t' := Stepped(t, 0);
    QuietStep(st, s, t');
    CallbacksStep(st, s, t');
    var u := st.streams[s := t'];
    var entered := Entered(st.registry, t.refs, s, |t.refs|);
    forall r | r in entered
      ensures entered[r].sid < |u| && Lists(u[entered[r].sid], entered[r].index, r)
    {
      EnteredOnly(st.registry, t.refs, s, |t.refs|, r);
    }
  }

  lemma MallocKeeps(st: State, s: nat, p: Ptr)
    requires CallsOk(st) && Enabled(st, Malloc(s, p))
    ensures CallsOk(Next(st, Malloc(s, p)))
  {
    hide OpenOk, LedgerOk, CountsOk, HoldsOk, HeapOk, AttachedOk, ScheduledOk, RegistryOk;
    var t' := Stepped(st.streams[s], p);
    CountsStep(st.handles, st.streams, s, t');
    HoldsStep(st.handles, st.streams, s, t');
    RegistryStep(st.streams, st.registry, s, t');
    CallbacksStep(st, s, t');
    HeapGrows(st.streams, st.heap, s, p);
  }

  lemma HeapGrows(streams: seq<Stream>, heap: map<Ptr, Slot>, s: nat, p: Ptr)
    requires s < |streams| && streams[s].phase.Setup? && streams[s].phase.todo == ToMalloc
    requires HeapOk(streams, heap) && p !in heap
    ensures HeapOk(streams[s := Stepped(streams[s], p)],
                   if p == 0 then heap else heap[p := Slot(s, streams[s].phase.at)])
  {
    var u := streams[s := Stepped(streams[s], p)];
    var heap' := if p == 0 then heap else heap[p := Slot(s, streams[s].phase.at)];
    forall z, i, q | 0 <= z < |u| && 0 <= i && q > 0 && Owns(u[z], i, q)
      ensures q in heap' && heap'[q] == Slot(z, i)
    {
      assert Owns(streams[z], i, q) || (z == s && i == streams[s].phase.at && q == p);
    }
    forall q | q in heap'
      ensures q != 0 && heap'[q].sid < |u| && Owns(u[heap'[q].sid], heap'[q].index, q)
    {
      assert q in heap ==> Owns(streams[heap[q].sid], heap[q].index, q);
    }
  }

  lemma AttachKeeps(st: State, s: nat)
    requires CallsOk(st) && Enabled(st, Attach(s))
    ensures CallsOk(Next(st, Attach(s)))
  {
    hide OpenOk, LedgerOk, CountsOk, HoldsOk, HeapOk, ScheduledOk, RegistryOk;
    var t' := Stepped(st.streams[s], 0);
    QuietStep(st, s, t');
    CallbacksStep(st, s, t');
  }

  lemma ScheduleKeeps(st: State, s: nat)
    requires CallsOk(st) && Enabled(st, Schedule(s))
    ensures CallsOk(Next(st, Schedule(s)))
  {
    hide OpenOk, LedgerOk, CountsOk, HoldsOk, HeapOk, AttachedOk, RegistryOk;
    var t' := Stepped(st.streams[s], 0);
    QuietStep(st, s, t');
    CallbacksStep(st, s, t');
    assert InRunLoop(t', st.streams[s].phase.at);
    assert Schedules(t', t'.refs[st.streams[s].phase.at]);
  }

  lemma CancelKeeps(st: State, s: nat)
    requires CallsOk(st) && Enabled(st, Cancel(s))
    ensures CallsOk(Next(st, Cancel(s)))
  {
    hide OpenOk, LedgerOk, CountsOk, HoldsOk, HeapOk, AttachedOk, ScheduledOk, RegistryOk;
    var t' := Stepped(st.streams[s], 0);
    QuietStep(st, s, t');
    CallbacksStep(st, s, t');
  }

  lemma DetachKeeps(st: State, s: nat)
    requires CallsOk(st) && Enabled(st, Detach(s))
    ensures CallsOk(Next(st, Detach(s)))
  {
    hide OpenOk, LedgerOk, CountsOk, HoldsOk, HeapOk, ScheduledOk, RegistryOk;
    var t := st.streams[s];
    var t' := Stepped(t, 0);
    QuietStep(st, s, t');
    forall e | e in st.scheduled && e.1 == s && Schedules(t, e.0)
      ensures Schedules(t', e.0)
    {
      SchedulesMore(t, t', e.0);
    }
    ScheduledStep(st.streams, st.scheduled, s, t');
  }

  lemma UnscheduleKeeps(st: State, s: nat)
    requires CallsOk(st) && Enabled(st, Unschedule(s))
    ensures CallsOk(Next(st, Unschedule(s)))
  {
    hide OpenOk, LedgerOk, CountsOk, HoldsOk, HeapOk, AttachedOk, RegistryOk;
    var t := st.streams[s];
    var t' := Stepped(t, 0);
    var left := st.scheduled - {(t.refs[t.phase.at], s)};
    QuietStep(st, s, t');
    AttachedStep(st.streams, st.attached, s, t');
    forall e | e in left && e.1 == s && Schedules(t, e.0)
      ensures Schedules(t', e.0)
    {
      SchedulesMore(t, t', e.0);
    }
    ScheduledStep(st.streams, left, s, t');
  }

  lemma FreeKeeps(st: State, s: nat)
    requires CallsOk(st) && Enabled(st, Free(s))
    ensures CallsOk(Next(st, Free(s)))
  {
    hide OpenOk, LedgerOk, CountsOk, HoldsOk, HeapOk, AttachedOk, ScheduledOk, RegistryOk;
    var t' := Stepped(st.streams[s], 0);
    CountsStep(st.handles, st.streams, s, t');
    HoldsStep(st.handles, st.streams, s, t');
    RegistryStep(st.streams, st.registry, s, t');
    CallbacksStep(st, s, t');
    HeapShrinks(st.streams, st.heap, s);
  }

  lemma HeapShrinks(streams: seq<Stream>, heap: map<Ptr, Slot>, s: nat)
    requires s < |streams| && streams[s].phase.Teardown? && streams[s].phase.next == ToFree
    requires HeapOk(streams, heap)
    ensures HeapOk(streams[s := Stepped(streams[s], 0)], heap - {streams[s].bufs[streams[s].phase.at]})
  {
    var at := streams[s].phase.at;
    var u := streams[s := Stepped(streams[s], 0)];
    var heap' := heap - {streams[s].bufs[at]};
    assert Owns(streams[s], at, streams[s].bufs[at]);
    forall z, i, q | 0 <= z < |u| && 0 <= i && q > 0 && Owns(u[z], i, q)
      ensures q in heap' && heap'[q] == Slot(z, i)
    {
      assert Owns(streams[z], i, q);
    }
    forall q | q in heap'
      ensures q != 0 && heap'[q].sid < |u| && Owns(u[heap'[q].sid], heap'[q].index, q)
    {
      assert Owns(streams[heap[q].sid], heap[q].index, q);
    }
  }

  lemma UnregisterKeeps(st: State, s: nat)
    requires CallsOk(st) && Enabled(st, Unregister(s))
    ensures CallsOk(Next(st, Unregister(s)))
  {
    hide OpenOk, LedgerOk, CountsOk, HoldsOk, HeapOk, AttachedOk, ScheduledOk;
    var t := st.streams[s];
    var t' := Stepped(t, 0);
    CountsStep(st.handles, st.streams, s, t');
    HoldsStep(st.handles, st.streams, s, t');
    HeapStep(st.streams, st.heap, s, t');
    CallbacksStep(st, s, t');
  }

  lemma LoadFailsKeeps(st: State, s: nat)
    requires CallsOk(st) && Enabled(st, LoadFails(s))
    ensures CallsOk(Next(st, LoadFails(s)))
  {
    hide OpenOk, LedgerOk, CountsOk, HoldsOk, HeapOk, AttachedOk, ScheduledOk, RegistryOk;
    var t': Stream := st.streams[s].(phase := Unclaiming);
    QuietStep(st, s, t');
    CallbacksStep(st, s, t');
  }

  lemma UnclaimKeeps(st: State, s: nat)
    requires CallsOk(st) && Enabled(st, Unclaim(s))
    ensures CallsOk(Next(st, Unclaim(s)))
  {
    hide OpenOk, LedgerOk, CountsOk, HoldsOk, HeapOk, AttachedOk, ScheduledOk, RegistryOk;
    var t := st.streams[s];
    var t' := Stepped(t, 0);
    var d := t.devs[t.claims - 1];
    var handles := st.handles[d := Counted(st.handles[d], -1)];
    HeapStep(st.streams, st.heap, s, t');
    RegistryStep(st.streams, st.registry, s, t');
    CallbacksStep(st, s, t');
    CountsUnclaim(st.handles, st.streams, s, t');
    LedgerSameRefs(st.retained, st.released, st.handles, handles);
    HoldsStep(st.handles, st.streams, s, t');
    HoldsCountless(st.handles, handles, st.streams[s := t']);
    OpenCountless(st.handles, handles);
  }

  lemma CountsUnclaim(handles: seq<Handle>, streams: seq<Stream>, s: nat, t: Stream)
    requires s < |streams| && streams[s].claims > 0 && AllHandles(handles, streams[s].devs)
    requires t.devs == streams[s].devs && t.claims == streams[s].claims - 1
    requires CountsOk(handles, streams)
    ensures var d := t.devs[t.claims]; CountsOk(handles[d := Counted(handles[d], -1)], streams[s := t])
  {
    var d := t.devs[t.claims];
    var after := handles[d := Counted(handles[d], -1)];
    assert t.devs[..t.claims + 1] == t.devs[..t.claims] + [d];
    forall h | 0 <= h < |after|
      ensures after[h].streaming == Claims(streams[s := t])[h]
    {
      ClaimsReplaced(streams, s, t, h);
    }
  }

  lemma HoldsCountless(a: seq<Handle>, b: seq<Handle>, streams: seq<Stream>)
    requires HoldsOk(a, streams)
    requires |a| == |b| && forall h :: 0 <= h < |a| ==> b[h].ref == a[h].ref && b[h].open == a[h].open
    ensures HoldsOk(b, streams)
  {
    forall s | 0 <= s < |streams|
      ensures AllHandles(b, streams[s].devs)
    {
      assert AllHandles(a, streams[s].devs);
    }
    forall s, k | 0 <= s < |streams| && 0 <= k < streams[s].claims
      ensures Holds(b, streams[s], k)
    {
      assert Holds(a, streams[s], k);
    }
  }

  lemma OpenCountless(a: seq<Handle>, b: seq<Handle>)
    requires OpenOk(a)
    requires |a| == |b| && forall h :: 0 <= h < |a| ==> b[h].ref == a[h].ref && b[h].open == a[h].open
    ensures OpenOk(b)
  {}

  lemma CallsKept(st: State, a: Action)
    requires CallsOk(st) && Enabled(st, a)
    ensures CallsOk(Next(st, a))
  {
    hide CallsOk, Enabled, Next;
    match a
    case Enumerate(found) => EnumerateKeeps(st, found);
    case Open(h, ok) => OpenKeeps(st, h, ok);
    case Close(h) => CloseKeeps(st, h);
    case Start(devs) => StartKeeps(st, devs);
    case LoadFails(s) => LoadFailsKeeps(st, s);
    case Register(s) => RegisterKeeps(st, s);
    case Malloc(s, p) => MallocKeeps(st, s, p);
    case Attach(s) => AttachKeeps(st, s);
    case Schedule(s) => ScheduleKeeps(st, s);
    case Cancel(s) => CancelKeeps(st, s);
    case Detach(s) => DetachKeeps(st, s);
    case Unschedule(s) => UnscheduleKeeps(st, s);
    case Free(s) => FreeKeeps(st, s);
    case Unregister(s) => UnregisterKeeps(st, s);
    case Unclaim(s) => UnclaimKeeps(st, s);
    case LookUp(_, _, _) => CallbackKeeps(st, a);
    case HandOver(_) => CallbackKeeps(st, a);
    case Handled(_) => CallbackKeeps(st, a);
  }

  lemma CallbackKeeps(st: State, a: Action)
    requires CallsOk(st) && Enabled(st, a) && (a.LookUp? || a.HandOver? || a.Handled?)
    ensures CallsOk(Next(st, a))
  {
    hide OpenOk, LedgerOk, CountsOk, HoldsOk, HeapOk, AttachedOk, ScheduledOk, RegistryOk, Handed;
  }

  /** A step of a call on which no callback is in flight leaves all others flying. */
  lemma FlyingStep(streams: seq<Stream>, flying: map<nat, Flight>, s: nat, t: Stream)
    requires s < |streams| && FlyingOk(streams, flying) && t.refs == streams[s].refs
    requires s in flying ==> t.phase == Pumping
    ensures FlyingOk(streams[s := t], flying)
  {}

  lemma FlyingKept(st: State, a: Action)
    requires RegistryOk(st.streams, st.registry) && FlyingOk(st.streams, st.flying) && Enabled(st, a)
    ensures FlyingOk(Next(st, a).streams, Next(st, a).flying)
  {
    hide FlyingOk, Claimed, Kept, FoundRefs, Rejected, Entered, Erased, Handed, RegistryOk, Stepped;
    match a
    case Enumerate(_) =>
    case Open(_, _) =>
    case Close(_) =>
    case Start(devs) =>
      if CanStart(st.handles, devs) {
        FlyingAdded(st.streams, st.flying, Call(devs, RefsOf(st.handles, devs), Registering, [], [], |devs|));
      }
    case LookUp(_, _, _) => FlyingCallback(st, a);
    case HandOver(_) => FlyingCallback(st, a);
    case Handled(_) => FlyingCallback(st, a);
    case LoadFails(s) => FlyingOwn(st, s, st.streams[s].(phase := Unclaiming));
    case Malloc(s, p) => FlyingStepped(st, s, p);
    case _ => FlyingStepped(st, a.s, 0);
  }

  lemma FlyingStepped(st: State, s: nat, p: Ptr)
    requires s < |st.streams| && FlyingOk(st.streams, st.flying)
    requires st.streams[s].phase == Pumping ==> s !in st.flying
    ensures FlyingOk(st.streams[s := Stepped(st.streams[s], p)], st.flying)
  {
    FlyingOwn(st, s, Stepped(st.streams[s], p));
  }

  lemma FlyingOwn(st: State, s: nat, t: Stream)
    requires s < |st.streams| && FlyingOk(st.streams, st.flying) && t.refs == st.streams[s].refs
    requires st.streams[s].phase == Pumping ==> s !in st.flying
    ensures FlyingOk(st.streams[s := t], st.flying)
  {
    FlyingStep(st.streams, st.flying, s, t);
  }

  lemma FlyingAdded(streams: seq<Stream>, flying: map<nat, Flight>, t: Stream)
    requires FlyingOk(streams, flying)
    ensures FlyingOk(streams + [t], flying)
  {}

  lemma FlyingCallback(st: State, a: Action)
    requires RegistryOk(st.streams, st.registry) && FlyingOk(st.streams, st.flying)
    requires Enabled(st, a) && (a.LookUp? || a.HandOver? || a.Handled?)
    ensures FlyingOk(Next(st, a).streams, Next(st, a).flying)
  {}

  lemma NextKeeps(st: State, a: Action)
    requires Safe(st) && Enabled(st, a)
    ensures Safe(Next(st, a))
  {
    CallsKept(st, a);
    hide OpenOk, LedgerOk, CountsOk, HoldsOk, HeapOk, AttachedOk, ScheduledOk, RegistryOk, FlyingOk, Enabled, Next;
    FlyingKept(st, a);
  }

  /** Every state that some run reaches from the start is safe. */
  lemma {:induction false} EveryRunIsSafe(st: State, run: seq<Action>)
    requires Safe(st)
    ensures Execute(st, run).At? ==> Safe(Execute(st, run).state)
    decreases |run|
  {
    hide Safe, Enabled, Next;
    if run == [] {
    } else if Enabled(st, run[0]) {
      NextKeeps(st, run[0]);
      EveryRunIsSafe(Next(st, run[0]), run[1..]);
    }
  }
}
