/** What callers of the hid package may rely on, over every run of the lifecycle. */
module HidResults {
  import opened HidStream
  import opened HidSafety

  ghost predicate Reached(run: seq<Action>, st: State) { Execute(INIT, run) == At(st) }

  lemma ReachedIsSafe(run: seq<Action>, st: State)
    requires Reached(run, st)
    ensures Safe(st)
  {
    SafeInitially();
    EveryRunIsSafe(INIT, run);
  }

  lemma {:induction false} OneMore(st: State, run: seq<Action>, a: Action)
    requires Execute(st, run).At? && Enabled(Execute(st, run).state, a)
    ensures Execute(st, run + [a]) == At(Next(Execute(st, run).state, a))
    decreases |run|
  {
    hide Enabled, Next;
    if run == [] {
      assert run + [a] == [a];
      assert [a][1..] == [];
    } else {
      assert (run + [a])[1..] == run[1..] + [a];
      OneMore(Next(st, run[0]), run[1..], a);
    }
  }

  // ----- Buffers -----

  /** Whatever IOKit may still write into is allocated, and belongs to a call
      of Stream that has not returned, for the very device it asked for. */
  lemma AttachedBufferIsLive(run: seq<Action>, st: State, ref: Ref)
    requires Reached(run, st) && ref in st.attached
    ensures var a := st.attached[ref];
      && a.slot.sid < |st.streams|
      && var t := st.streams[a.slot.sid];
      && Listening(t) && a.slot.index < |t.bufs| && t.refs[a.slot.index] == ref && t.bufs[a.slot.index] == a.ptr
      && (a.ptr != 0 ==> a.ptr in st.heap && st.heap[a.ptr] == a.slot)
  {
    hide OpenOk, LedgerOk, CountsOk, HoldsOk, ScheduledOk, RegistryOk, Reached;
    ReachedIsSafe(run, st);
    var a := st.attached[ref];
    assert Owns(st.streams[a.slot.sid], a.slot.index, a.ptr);
  }

  /** Free is only ever called on null or on a live block of the calling stream. */
  lemma FreeIsOfOwnBlock(run: seq<Action>, st: State, s: nat)
    requires Reached(run, st) && Enabled(st, Free(s))
    ensures var t := st.streams[s];
      var p := t.bufs[t.phase.at];
      p != 0 ==> p in st.heap && st.heap[p] == Slot(s, t.phase.at)
  {
    hide OpenOk, LedgerOk, CountsOk, HoldsOk, ScheduledOk, RegistryOk, AttachedOk, Reached;
    ReachedIsSafe(run, st);
    var t := st.streams[s];
    assert Owns(t, t.phase.at, t.bufs[t.phase.at]);
  }

  /** A call past its teardown has freed exactly its buffers and left nothing behind. */
  lemma ReturnLeavesNothing(run: seq<Action>, st: State, s: nat)
    requires Reached(run, st) && InPhase(st, s, Unclaiming)
    ensures st.streams[s].freed == st.streams[s].bufs
    ensures forall p :: p in st.heap ==> st.heap[p].sid != s
    ensures forall r :: r in st.attached ==> st.attached[r].slot.sid != s
    ensures forall r :: r in st.registry ==> st.registry[r].sid != s
    ensures forall e :: e in st.scheduled ==> e.1 != s
  {
    hide OpenOk, LedgerOk, CountsOk, HoldsOk, Reached;
    ReachedIsSafe(run, st);
  }

  // ----- Claims and the ledger -----

  /** The counter of a device is its total multiplicity in the calls of Stream
      that have not returned. */
  lemma StreamingIsMultiplicity(run: seq<Action>, st: State, h: nat)
    requires Reached(run, st) && h < |st.handles|
    ensures st.handles[h].streaming == Claims(st.streams)[h]
  {
    hide OpenOk, LedgerOk, HoldsOk, HeapOk, AttachedOk, ScheduledOk, RegistryOk, Claims, Reached;
    ReachedIsSafe(run, st);
  }

  ghost predicate ClaimedBy(t: Stream, h: nat) { exists k :: 0 <= k < t.claims && t.devs[k] == h }

  lemma {:induction false} ClaimedIff(streams: seq<Stream>, h: nat)
    ensures Claims(streams)[h] > 0 <==> exists s :: 0 <= s < |streams| && ClaimedBy(streams[s], h)
  {
    if streams == [] {
    } else {
      ClaimedIff(streams[1..], h);
      var first := streams[0].devs[..streams[0].claims];
      if h in first {
        var k :| 0 <= k < |first| && first[k] == h;
        assert ClaimedBy(streams[0], h);
      }
      if s :| 0 <= s < |streams[1..]| && ClaimedBy(streams[1..][s], h) {
        assert ClaimedBy(streams[s + 1], h);
      }
      if s :| 0 <= s < |streams| && ClaimedBy(streams[s], h) {
        if s == 0 {
          var k :| 0 <= k < streams[0].claims && streams[0].devs[k] == h;
          assert first[k] == h;
        } else {
          assert ClaimedBy(streams[1..][s - 1], h);
        }
      }
    }
  }

  /** Close changes the state exactly when the handle is unreleased and no
      running call of Stream claims it; otherwise it leaves everything as it was. */
  lemma CloseActsIff(run: seq<Action>, st: State, h: nat)
    requires Reached(run, st) && Enabled(st, Close(h))
    ensures var free := st.handles[h].ref != 0 && forall s :: 0 <= s < |st.streams| ==> !ClaimedBy(st.streams[s], h);
      var st' := Next(st, Close(h));
      if free then st' == st.(handles := st.handles[h := Handle(0, false, 0)],
                              released := st.released + multiset{st.handles[h].ref})
      else st' == st
  {
    hide OpenOk, LedgerOk, HoldsOk, HeapOk, AttachedOk, ScheduledOk, RegistryOk, Claims, Reached, ClaimedBy, CountsOk;
    StreamingIsMultiplicity(run, st, h);
    ClaimedIff(st.streams, h);
  }

  /** Stream goes ahead exactly with devices, and all of them open. Each is then
      claimed as often as it is listed, and the new call holds every one of the claims
      and the references read there and then; a refused call changes nothing. */
  lemma StartActsIff(st: State, devs: seq<nat>)
    requires Enabled(st, Start(devs))
    ensures var st' := Next(st, Start(devs));
      if |devs| > 0 && forall k :: 0 <= k < |devs| ==> st.handles[devs[k]].open then
        && st' == st.(handles := st'.handles, streams := st'.streams)
        && |st'.handles| == |st.handles|
        && (forall h :: 0 <= h < |st.handles| ==>
              st'.handles[h] == st.handles[h].(streaming := st.handles[h].streaming + multiset(devs)[h]))
        && |st'.streams| == |st.streams| + 1 && st'.streams[..|st.streams|] == st.streams
        && var t := st'.streams[|st.streams|];
           && t.devs == devs && |t.refs| == |devs| && t.claims == |devs| && t.phase == Registering
           && forall k :: 0 <= k < |devs| ==> t.refs[k] == st.handles[devs[k]].ref
      else st' == st
  {
    if CanStart(st.handles, devs) {
      forall h | 0 <= h < |st.handles| {
        ClaimedCounts(st.handles, devs, h);
      }
    }
  }

  /** Each reference retained by an enumeration is released once, or is held by
      one handle still to be closed. */
  lemma RetainsBalance(run: seq<Action>, st: State)
    requires Reached(run, st)
    ensures st.retained == st.released + HeldRefs(st.handles)
    ensures (forall h :: 0 <= h < |st.handles| ==> st.handles[h].ref == 0) ==> st.retained == st.released
  {
    hide OpenOk, CountsOk, HoldsOk, HeapOk, AttachedOk, ScheduledOk, RegistryOk, Reached;
    ReachedIsSafe(run, st);
    if forall h :: 0 <= h < |st.handles| ==> st.handles[h].ref == 0 {
      NothingHeld(st.handles);
    }
  }

  lemma {:induction false} NothingHeld(handles: seq<Handle>)
    requires forall h :: 0 <= h < |handles| ==> handles[h].ref == 0
    ensures HeldRefs(handles) == multiset{}
  {
    if handles == [] {
    } else {
      NothingHeld(handles[1..]);
    }
  }

  lemma {:induction false} HeldIsCounted(handles: seq<Handle>, h: nat)
    requires h < |handles| && handles[h].ref != 0
    ensures HeldRefs(handles)[handles[h].ref] > 0
  {
    if h == 0 {
    } else {
      HeldIsCounted(handles[1..], h - 1);
    }
  }

  /** No reference that a running call of Stream was given has had its last release. */
  lemma StreamedRefIsRetained(run: seq<Action>, st: State, s: nat, k: nat)
    requires Reached(run, st) && s < |st.streams| && k < st.streams[s].claims
    ensures st.released[st.streams[s].refs[k]] < st.retained[st.streams[s].refs[k]]
  {
    hide CountsOk, HeapOk, AttachedOk, ScheduledOk, RegistryOk, Reached, HeldRefs;
    ReachedIsSafe(run, st);
    assert AllHandles(st.handles, st.streams[s].devs);
    assert Holds(st.handles, st.streams[s], k);
    HeldIsCounted(st.handles, st.streams[s].devs[k]);
  }

  // ----- Reports -----

  /** In any run, shared devices included, what a callback finds is a call that
      has entered its references and not yet erased them, with a device of that call
      that refers to the sender. By the time it hands the report over, that need no
      longer hold. */
  lemma LookUpFindsListener(run: seq<Action>, st: State, on: nat, ref: Ref, report: Report)
    requires Reached(run, st) && Enabled(st, LookUp(on, ref, report))
    ensures var st' := Next(st, LookUp(on, ref, report));
      if Target(st, ref, report).None? then st' == st
      else
        && on in st'.flying && var f := st'.flying[on];
        && f.ref == ref && f.report == report && f.slot.sid < |st.streams|
        && Lists(st.streams[f.slot.sid], f.slot.index, ref)
        && var device := st.streams[f.slot.sid].devs[f.slot.index];
        && device < |st.handles| && st.handles[device].ref == ref
        && Handed(st.streams, f.slot, report) == [Delivery(f.slot, device, report)]
  {
    hide OpenOk, CountsOk, LedgerOk, HeapOk, AttachedOk, ScheduledOk, Reached;
    ReachedIsSafe(run, st);
    if ref in st.registry {
      var slot := st.registry[ref];
      assert AllHandles(st.handles, st.streams[slot.sid].devs);
      assert Holds(st.handles, st.streams[slot.sid], slot.index);
    }
  }

  // ----- What one step does to the calls -----

  /** Which call an action steps, if any. */
  predicate StepOf(a: Action, z: nat) {
    match a
    case Enumerate(_) => false
    case Open(_, _) => false
    case Close(_) => false
    case Start(_) => false
    case LookUp(_, _, _) => false
    case HandOver(_) => false
    case Handled(_) => false
    case _ => a.s == z
  }

  /** The call an action steps, after it. */
  function After(st: State, a: Action, z: nat): Stream
    requires Enabled(st, a) && StepOf(a, z)
  {
    if a.LoadFails? then st.streams[z].(phase := Unclaiming)
    else Stepped(st.streams[z], if a.Malloc? then a.p else 0)
  }

  lemma StepsOne(st: State, a: Action, z: nat)
    requires Enabled(st, a) && StepOf(a, z)
    ensures z < |st.streams| && Next(st, a).streams == st.streams[z := After(st, a, z)]
    ensures Next(st, a).flying == st.flying && After(st, a, z).phase != Registering
    ensures After(st, a, z).refs == st.streams[z].refs && After(st, a, z).devs == st.streams[z].devs
  {
    hide Entered, Erased;
  }

  /** A step neither changes which devices a call has, nor moves a call on while
      a callback runs on its thread. */
  predicate Blocked(st: State, st': State, on: nat) {
    && on in st.flying && on in st'.flying && st'.flying[on] == st.flying[on]
    && on < |st.streams| <= |st'.streams| && st'.streams[on] == st.streams[on]
    && forall z :: 0 <= z < |st.streams| ==>
        st'.streams[z].devs == st.streams[z].devs && st'.streams[z].refs == st.streams[z].refs
  }

  lemma StepBlocks(st: State, a: Action, z: nat, on: nat)
    requires Enabled(st, a) && StepOf(a, z) && on in st.flying && InPhase(st, on, Pumping)
    ensures Blocked(st, Next(st, a), on)
  {
    StepsOne(st, a, z);
    NotItself(st, a, z, on);
    hide Next, Enabled, After, StepOf, Shaped;
  }

  lemma NotItself(st: State, a: Action, z: nat, on: nat)
    requires Enabled(st, a) && StepOf(a, z) && on in st.flying && InPhase(st, on, Pumping)
    ensures z != on
  {
    hide Shaped;
  }

  lemma CallbackBlocks(st: State, a: Action, on: nat)
    requires Enabled(st, a) && (a.LookUp? || a.HandOver? || a.Handled?)
    requires on in st.flying && on < |st.streams| && a != HandOver(on) && a != Handled(on)
    ensures Blocked(st, Next(st, a), on)
  {
    hide Handed, Target, Shaped;
  }

  lemma QuietBlocks(st: State, a: Action, on: nat)
    requires Enabled(st, a) && (a.Start? || a.Enumerate? || a.Open? || a.Close?)
    requires on in st.flying && on < |st.streams|
    ensures Blocked(st, Next(st, a), on)
  {
    hide Claimed, Kept, FoundRefs, Rejected, Shaped;
  }

  lemma NextBlocks(st: State, a: Action, on: nat)
    requires Enabled(st, a) && FlyingOk(st.streams, st.flying)
    requires on in st.flying && a != HandOver(on) && a != Handled(on)
    ensures Blocked(st, Next(st, a), on)
  {
    assert InPhase(st, on, Pumping);
    hide FlyingOk, Blocked, Next, Enabled;
    if a.Start? || a.Enumerate? || a.Open? || a.Close? {
      QuietBlocks(st, a, on);
    } else if a.LookUp? || a.HandOver? || a.Handled? {
      CallbackBlocks(st, a, on);
    } else {
      StepBlocks(st, a, a.s, on);
    }
  }

  lemma BlockedOn(st: State, mid: State, st': State, on: nat)
    requires Blocked(st, mid, on) && Blocked(mid, st', on)
    ensures Blocked(st, st', on)
  {
    hide Shaped;
  }

  lemma {:induction false} RunBlocks(st: State, between: seq<Action>, on: nat)
    requires Safe(st) && on in st.flying && Execute(st, between).At?
    requires HandOver(on) !in between && Handled(on) !in between
    ensures Blocked(st, Execute(st, between).state, on)
    decreases |between|
  {
    if between == [] {
      FliesInRange(st, on);
    } else {
      hide Safe, Enabled, Next, Blocked;
      NextKeeps(st, between[0]);
      SafeBlocks(st, between[0], on);
      StillFlies(st, Next(st, between[0]), on);
      RunBlocks(Next(st, between[0]), between[1..], on);
      BlockedOn(st, Next(st, between[0]), Execute(st, between).state, on);
    }
  }

  lemma StillFlies(st: State, st': State, on: nat)
    requires Blocked(st, st', on)
    ensures on in st'.flying
  {}

  lemma FliesInRange(st: State, on: nat)
    requires Safe(st) && on in st.flying
    ensures Blocked(st, st, on)
  {}

  lemma SafeBlocks(st: State, a: Action, on: nat)
    requires Safe(st) && Enabled(st, a) && on in st.flying && a != HandOver(on) && a != Handled(on)
    ensures Blocked(st, Next(st, a), on)
  {
    hide CallsOk;
    NextBlocks(st, a, on);
  }

  /** Whatever other threads do after the look-up, the report goes where it was
      found to go, with the device it was found for. */
  lemma {:induction false} HandedAsLookedUp(run: seq<Action>, st: State, on: nat, between: seq<Action>, st': State)
    requires Reached(run, st) && on in st.flying && !st.flying[on].handed && Execute(st, between) == At(st')
    requires HandOver(on) !in between && Handled(on) !in between
    ensures var f := st.flying[on];
      && Enabled(st', HandOver(on)) && f.slot.sid < |st.streams| && f.slot.index < |st.streams[f.slot.sid].devs|
      && Next(st', HandOver(on)).log ==
          st'.log + [Delivery(f.slot, st.streams[f.slot.sid].devs[f.slot.index], f.report)]
  {
    hide CallsOk, Reached, Execute;
    ReachedIsSafe(run, st);
    RunBlocks(st, between, on);
    assert Names(st.streams, st.flying[on].slot, st.flying[on].ref);
  }

  /** Every attached callback has a registry entry naming the slot that attached it. */
  predicate Routed(st: State) {
    forall r :: r in st.attached ==> r in st.registry && st.registry[r] == st.attached[r].slot
  }

  /** In such a state a report with bytes, from a device with a buffer, is
      found to go to the call that attached it, as the device it was attached for. */
  lemma RoutedReportArrives(run: seq<Action>, st: State, on: nat, ref: Ref, report: Report)
    requires Reached(run, st) && Enabled(st, LookUp(on, ref, report)) && Routed(st)
    requires report != [] && st.attached[ref].ptr != 0
    ensures var a := st.attached[ref];
      && Next(st, LookUp(on, ref, report)) ==
          st.(flying := st.flying[on := Flight(ref, a.slot, a.ptr, report, false)])
      && a.slot.sid < |st.streams| && a.slot.index < |st.streams[a.slot.sid].devs|
      && Handed(st.streams, a.slot, report) ==
          [Delivery(a.slot, st.streams[a.slot.sid].devs[a.slot.index], report)]
  {
    hide OpenOk, CountsOk, HoldsOk, LedgerOk, HeapOk, ScheduledOk, Reached;
    ReachedIsSafe(run, st);
  }

  /** Entering references keeps every callback routed exactly when none of them
      is attached already: no device shared with a running stream. */
  lemma RegisterKeepsRoutedIff(run: seq<Action>, st: State, s: nat)
    requires Reached(run, st) && Enabled(st, Register(s)) && Routed(st)
    ensures Routed(Next(st, Register(s))) <==> forall r :: r in st.attached ==> r !in st.streams[s].refs
  {
    hide OpenOk, CountsOk, HoldsOk, LedgerOk, HeapOk, ScheduledOk, RegistryOk, Reached, Entered;
    ReachedIsSafe(run, st);
    var refs := st.streams[s].refs;
    assert refs[..|refs|] == refs;
    forall r | r in st.attached
      ensures r in Entered(st.registry, refs, s, |refs|)
      ensures Entered(st.registry, refs, s, |refs|)[r] == st.attached[r].slot <==> r !in refs
    {
      EnteredAll(st.registry, refs, s, |refs|, r);
      EnteredOnly(st.registry, refs, s, |refs|, r);
      if r in refs { EnteredListed(st.registry, refs, s, |refs|, r); }
    }
  }

  lemma {:induction false} EnteredListed(registry: map<Ref, Slot>, refs: seq<Ref>, s: nat, k: nat, r: Ref)
    requires k <= |refs| && r in refs[..k]
    ensures r in Entered(registry, refs, s, k) && Entered(registry, refs, s, k)[r].sid == s
  {
    if r == refs[k - 1] {
    } else {
      assert refs[..k] == refs[..k - 1] + [refs[k - 1]];
      EnteredListed(registry, refs, s, k - 1, r);
    }
  }

  /** Likewise when a call erases its references: a stream that shares one of
      them loses its entry, and only then. */
  lemma UnregisterKeepsRoutedIff(run: seq<Action>, st: State, s: nat)
    requires Reached(run, st) && Enabled(st, Unregister(s)) && Routed(st)
    ensures Routed(Next(st, Unregister(s))) <==> forall r :: r in st.attached ==> r !in st.streams[s].refs
  {
    hide Reached;
  }
}
