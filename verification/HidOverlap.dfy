/** Exactly when a callback can outlive the call of Stream it was found to go to. */
module HidOverlap {
  import opened HidCallbacks
  import opened HidDiscipline
  import opened HidResults
  import opened HidRouting
  import opened HidSafety
  import opened HidStream
  import opened Wrappers

  /** The call has returned: its teardown is over and no claim is left. */
  predicate Returned(t: Stream) { t.phase == Unclaiming && t.claims == 0 }

  /** The callback was found to go to a call that has since returned, and the
      block its bytes were in has been freed. */
  predicate Outlives(st: State, z: nat)
    requires z in st.flying
  {
    var f := st.flying[z];
    && f.slot.sid < |st.streams| && Returned(st.streams[f.slot.sid])
    && (f.ptr in st.heap ==> st.heap[f.ptr].sid != f.slot.sid)
  }

  // ----- Schedules of calls that run are in force -----

  predicate Looped(streams: seq<Stream>, scheduled: set<(Ref, nat)>) {
    forall y, i :: 0 <= y < |streams| && 0 <= i < |streams[y].refs| && Runs(streams[y]) && InRunLoop(streams[y], i) ==>
      (streams[y].refs[i], y) in scheduled
  }

  lemma NextLoops(st: State, a: Action)
    requires Enabled(st, a) && Looped(st.streams, st.scheduled)
    ensures Looped(Next(st, a).streams, Next(st, a).scheduled)
  {
    var st' := Next(st, a);
    if a.LookUp? || a.HandOver? || a.Handled? {
      CallbackLeaves(st, a);
      hide Next, Looped;
    } else if a.Start? || a.Enumerate? || a.Open? || a.Close? {
      QuietLoops(st, a);
    } else {
      StepsOne(st, a, a.s);
      LoopsAfter(st, a, a.s);
      hide Next, Enabled, InRunLoop, After;
    }
  }

  lemma QuietLoops(st: State, a: Action)
    requires Enabled(st, a) && Looped(st.streams, st.scheduled) && (a.Start? || a.Enumerate? || a.Open? || a.Close?)
    ensures Looped(Next(st, a).streams, Next(st, a).scheduled)
  {
    hide Claimed, Kept, FoundRefs, Rejected, InRunLoop, Shaped;
  }

  lemma LoopsAfter(st: State, a: Action, z: nat)
    requires Enabled(st, a) && StepOf(a, z) && Looped(st.streams, st.scheduled)
    ensures forall e :: e in st.scheduled && e.1 != z ==> e in Next(st, a).scheduled
    ensures forall i :: 0 <= i < |st.streams[z].refs| && Runs(After(st, a, z)) && InRunLoop(After(st, a, z), i) ==>
      (st.streams[z].refs[i], z) in Next(st, a).scheduled
  {
    hide Entered, Erased;
  }

  lemma {:induction false} RunLoops(st: State, run: seq<Action>)
    requires Looped(st.streams, st.scheduled) && Execute(st, run).At?
    ensures Looped(Execute(st, run).state.streams, Execute(st, run).state.scheduled)
    decreases |run|
  {
    hide Looped, Enabled, Next;
    if run == [] {
    } else {
      NextLoops(st, run[0]);
      RunLoops(Next(st, run[0]), run[1..]);
    }
  }

  // ----- Driving a call to its pump, and to its return -----

  /** What a call alone has entered and attached is its own, with real buffers. */
  predicate OwnSoFar(st: State, s: nat)
    requires s < |st.streams|
  {
    var t := st.streams[s];
    && (Runs(t) ==> forall r :: r in t.refs ==> r in st.registry && st.registry[r].sid == s)
    && (forall i :: 0 <= i < |t.refs| && Installed(t, i) ==>
          t.refs[i] in st.attached && st.attached[t.refs[i]].slot.sid == s && st.attached[t.refs[i]].ptr != 0)
    && (forall i :: 0 <= i < |t.bufs| ==> t.bufs[i] != 0)
  }

  lemma RegisterOwn(st: State, s: nat)
    requires InPhase(st, s, Registering) && OwnSoFar(st, s)
    ensures OwnSoFar(Next(st, Register(s)), s)
  {
    var refs := st.streams[s].refs;
    assert refs[..|refs|] == refs;
    forall r | r in refs
      ensures r in Entered(st.registry, refs, s, |refs|) && Entered(st.registry, refs, s, |refs|)[r].sid == s
    {
      EnteredListed(st.registry, refs, s, |refs|, r);
    }
    hide Entered;
  }

  lemma MallocOwn(st: State, s: nat, p: Ptr)
    requires InSetup(st, s, ToMalloc) && Enabled(st, Malloc(s, p)) && p > 0 && OwnSoFar(st, s)
    ensures OwnSoFar(Next(st, Malloc(s, p)), s)
  {}

  lemma AttachOwn(st: State, s: nat)
    requires InSetup(st, s, ToAttach) && OwnSoFar(st, s)
    ensures OwnSoFar(Next(st, Attach(s)), s)
  {}

  lemma ScheduleOwn(st: State, s: nat)
    requires InSetup(st, s, ToSchedule) && OwnSoFar(st, s)
    ensures OwnSoFar(Next(st, Schedule(s)), s)
  {}

  lemma OwnStepOwn(st: State, s: nat, p: Ptr)
    requires s < |st.streams| && MayPump(st.streams[s]) && st.streams[s].phase != Pumping && p > 0
    requires OwnSoFar(st, s) && Enabled(st, OwnStep(st.streams[s], s, p))
    requires Next(st, OwnStep(st.streams[s], s, p)).streams == st.streams[s := Stepped(st.streams[s], p)]
    ensures OwnSoFar(Next(st, OwnStep(st.streams[s], s, p)), s)
  {
    hide OwnSoFar, Next, Stepped;
    if st.streams[s].phase == Registering {
      RegisterOwn(st, s);
    } else if InSetup(st, s, ToMalloc) {
      MallocOwn(st, s, p);
    } else if InSetup(st, s, ToAttach) {
      AttachOwn(st, s);
    } else {
      ScheduleOwn(st, s);
    }
  }

  lemma PumpsLater(t: Stream, p: Ptr)
    requires MayPump(t) && t.phase != Pumping
    ensures Active(t) && MayPump(Stepped(t, p)) && Stepped(t, p).refs == t.refs
    ensures StepsLeft(Stepped(t, p)) < StepsLeft(t)
  {}

  /** A call that may pump can be brought to its pump. */
  lemma {:induction false} DriveToPump(st: State, s: nat) returns (run: seq<Action>, st': State)
    requires Safe(st) && s < |st.streams| && MayPump(st.streams[s]) && s !in st.flying
    ensures Leads(st, run, st') && Safe(st') && InPhase(st', s, Pumping) && st'.flying == st.flying
    ensures |st'.streams| == |st.streams| && st'.streams[s].refs == st.streams[s].refs
    ensures forall z :: 0 <= z < |st.streams| && z != s ==> st'.streams[z] == st.streams[z]
    ensures OwnSoFar(st, s) ==> OwnSoFar(st', s)
    decreases StepsLeft(st.streams[s])
  {
    hide Safe, Next, Enabled, Leads, OwnSoFar, OwnStep;
    if st.streams[s].phase == Pumping {
      run, st' := [], st;
      LeadsNowhere(st);
    } else {
      PumpsLater(st.streams[s], 0);
      var p := OwnStepWorks(st, s);
      var a := OwnStep(st.streams[s], s, p);
      PumpsLater(st.streams[s], p);
      if OwnSoFar(st, s) {
        OwnStepOwn(st, s, p);
      }
      var rest;
      rest, st' := DriveToPump(Next(st, a), s);
      LeadsOne(st, a);
      LeadsOn(st, [a], Next(st, a), rest, st');
      run := [a] + rest;
    }
  }

  lemma CanUnclaim(st: State, s: nat)
    requires Safe(st) && InPhase(st, s, Unclaiming) && st.streams[s].claims > 0
    ensures Enabled(st, Unclaim(s))
  {
    hide OpenOk, LedgerOk, CountsOk, HeapOk, AttachedOk, ScheduledOk, RegistryOk, FlyingOk, AllHandles, Holds, Shaped;
  }

  lemma Unclaimed(st: State, s: nat)
    requires Enabled(st, Unclaim(s))
    ensures var st' := Next(st, Unclaim(s));
      && st'.streams == st.streams[s := st.streams[s].(claims := st.streams[s].claims - 1)]
      && st'.flying == st.flying
  {
    hide AllHandles;
  }

  lemma UnclaimWorks(st: State, s: nat)
    requires Safe(st) && InPhase(st, s, Unclaiming) && st.streams[s].claims > 0
    ensures Enabled(st, Unclaim(s))
    ensures var st' := Next(st, Unclaim(s));
      && st'.streams == st.streams[s := st.streams[s].(claims := st.streams[s].claims - 1)]
      && st'.flying == st.flying && Safe(st')
  {
    hide *;
    CanUnclaim(st, s);
    Unclaimed(st, s);
    NextKeeps(st, Unclaim(s));
  }

  /** Every call but one is where it was. */
  predicate OthersStay(st: State, st': State, s: nat) {
    |st'.streams| == |st.streams| &&
    forall z :: 0 <= z < |st.streams| && z != s ==> st'.streams[z] == st.streams[z]
  }

  /** A call past its teardown can give its claims back and return. */
  lemma {:induction false} DriveToReturn(st: State, s: nat) returns (run: seq<Action>, st': State)
    requires Safe(st) && InPhase(st, s, Unclaiming)
    ensures Leads(st, run, st') && Safe(st') && s < |st'.streams| && Returned(st'.streams[s])
    ensures st'.flying == st.flying && OthersStay(st, st', s)
    decreases st.streams[s].claims
  {
    hide Safe, Next, Enabled, Leads;
    if st.streams[s].claims == 0 {
      run, st' := [], st;
      LeadsNowhere(st);
    } else {
      UnclaimWorks(st, s);
      var rest;
      rest, st' := DriveToReturn(Next(st, Unclaim(s)), s);
      LeadsOne(st, Unclaim(s));
      LeadsOn(st, [Unclaim(s)], Next(st, Unclaim(s)), rest, st');
      run := [Unclaim(s)] + rest;
    }
  }

  /** A call with no callback on its own thread can be brought to its return. */
  lemma DriveHome(st: State, s: nat) returns (run: seq<Action>, st': State)
    requires Safe(st) && s < |st.streams| && s !in st.flying
    ensures Leads(st, run, st') && Safe(st') && s < |st'.streams| && Returned(st'.streams[s])
    ensures st'.flying == st.flying && OthersStay(st, st', s)
  {
    hide Safe, Next, Enabled, Leads, OwnStep;
    if Active(st.streams[s]) {
      var a, st1 := DriveToErase(st, s);
      var _ := OwnStepWorks(st1, s);
      var st2 := Unregistered(st1, s);
      LeadsOne(st1, Unregister(s));
      LeadsOn(st, a, st1, [Unregister(s)], st2);
      var b;
      b, st' := DriveToReturn(st2, s);
      LeadsOn(st, a + [Unregister(s)], st2, b, st');
      run := a + [Unregister(s)] + b;
    } else {
      run, st' := DriveToReturn(st, s);
    }
  }

  lemma Unregistered(st: State, s: nat) returns (st': State)
    requires Safe(st) && InPhase(st, s, Unregistering)
    ensures Enabled(st, Unregister(s)) && st' == Next(st, Unregister(s))
    ensures Safe(st') && InPhase(st', s, Unclaiming) && st'.flying == st.flying && OthersStay(st, st', s)
  {
    hide Safe, Erased;
    st' := Next(st, Unregister(s));
    NextKeeps(st, Unregister(s));
  }

  // ----- The run that leaves a callback behind -----

  /** A device of the call pumped on another thread: the callback there finds the
      call, in whose own block the bytes are. */
  lemma Overlaps(st: State, s: nat, z: nat, ref: Ref) returns (st': State)
    requires Safe(st) && InPhase(st, s, Pumping) && InPhase(st, z, Pumping) && z !in st.flying && s != z
    requires OwnSoFar(st, s) && ref in st.streams[s].refs && (ref, z) in st.scheduled
    ensures Leads(st, [LookUp(z, ref, [0])], st') && Safe(st') && z in st'.flying
    ensures st'.flying[z].slot.sid == s && st'.streams == st.streams
    ensures s !in st.flying ==> s !in st'.flying
  {
    OwnAt(st, s, ref);
    Finds(st, z, ref, [0]);
    hide Safe, Leads, OwnSoFar, LookedUp, Shaped;
    st' := Next(st, LookUp(z, ref, [0]));
    LeadsOne(st, LookUp(z, ref, [0]));
    NextKeeps(st, LookUp(z, ref, [0]));
  }

  lemma OwnAt(st: State, s: nat, ref: Ref)
    requires InPhase(st, s, Pumping) && OwnSoFar(st, s) && ref in st.streams[s].refs
    ensures ref in st.registry && st.registry[ref].sid == s && ref in st.attached && st.attached[ref].ptr != 0
  {
    var i :| 0 <= i < |st.streams[s].refs| && st.streams[s].refs[i] == ref;
    assert Installed(st.streams[s], i);
  }

  lemma Finds(st: State, on: nat, ref: Ref, report: Report)
    requires ref in st.attached && st.attached[ref].ptr != 0 && ref in st.registry && report != []
    ensures LookedUp(st, on, ref, report) ==
      st.(flying := st.flying[on := Flight(ref, st.registry[ref], st.attached[ref].ptr, report, false)])
  {}

  lemma ReturnedOutlives(st: State, z: nat)
    requires Safe(st) && z in st.flying && st.flying[z].slot.sid < |st.streams|
    requires Returned(st.streams[st.flying[z].slot.sid])
    ensures Outlives(st, z) && !Sound(st, z)
  {
    hide OpenOk, LedgerOk, CountsOk, HoldsOk, AttachedOk, ScheduledOk, RegistryOk;
    var f := st.flying[z];
    if f.ptr in st.heap {
      NothingOwned(st.streams[f.slot.sid], st.heap[f.ptr].index, f.ptr);
    }
  }

  lemma NothingOwned(t: Stream, i: nat, p: Ptr)
    requires t.phase == Unclaiming
    ensures !Owns(t, i, p)
  {}

  /** A call about to enter its references, and another that may pump one of
      them: some continuation, starting no further stream, leaves a callback on the
      other's thread that outlives the call. */
  lemma SharingOverlaps(st: State, s: nat, z: nat, ref: Ref) returns (run: seq<Action>, st': State)
    requires Safe(st) && Looped(st.streams, st.scheduled) && InPhase(st, s, Registering)
    requires z < |st.streams| && z != s && MayPump(st.streams[z])
    requires ref in st.streams[s].refs && ref in st.streams[z].refs
    ensures Leads(st, run, st') && z in st'.flying && st'.flying[z].slot.sid == s
    ensures Outlives(st', z) && !Sound(st', z)
  {
    var a, st1 := Land(st, z);
    GroundedUnlessPumping(st1, s);
    var b, st2 := DriveToPump(st1, z);
    NothingYet(st2, s);
    var c, st3 := DriveToPump(st2, s);
    hide Safe, Leads, OwnSoFar, Sound;
    LeadsOn(st, a, st1, b, st2);
    LeadsOn(st, a + b, st2, c, st3);
    assert Runs(st3.streams[z]);
    StillLooped(st, a + b + c, st3, z, ref);
    var st4 := Overlaps(st3, s, z, ref);
    var l := [LookUp(z, ref, [0])];
    LeadsOn(st, a + b + c, st3, l, st4);
    var d;
    d, st' := DriveHome(st4, s);
    LeadsOn(st, a + b + c + l, st4, d, st');
    run := a + b + c + l + d;
    ReturnedOutlives(st', z);
  }

  lemma NothingYet(st: State, s: nat)
    requires InPhase(st, s, Registering)
    ensures OwnSoFar(st, s)
  {}

  lemma StillLooped(st: State, run: seq<Action>, st': State, z: nat, ref: Ref)
    requires Leads(st, run, st') && Looped(st.streams, st.scheduled)
    requires InPhase(st', z, Pumping) && ref in st'.streams[z].refs
    ensures (ref, z) in st'.scheduled
  {
    RunLoops(st, run);
    var i :| 0 <= i < |st'.streams[z].refs| && st'.streams[z].refs[i] == ref;
    assert InRunLoop(st'.streams[z], i);
  }

  // ----- Exactly when -----

  /** Whatever happens next, as long as no further start lists a device the
      call has yet to enter, every callback found to go to it is sound. */
  ghost predicate StaysSound(st: State, s: nat) {
    forall more: seq<Action>, st': State ::
      Curbed(st, more, s) && Execute(st, more) == At(st') ==> SoundFor(st', s)
  }

  /** Some such continuation leaves a callback that outlives the call. */
  ghost predicate MayOutlive(st: State, s: nat) {
    exists more: seq<Action>, st': State, z ::
      && Curbed(st, more, s) && Execute(st, more) == At(st')
      && z in st'.flying && st'.flying[z].slot.sid == s && Outlives(st', z)
  }

  /** In any reachable state, a call of Stream that is not refused is only ever
      called back on its own thread while it pumps, with bytes in its own live blocks,
      exactly when none of its devices is in a call that has not begun its teardown;
      otherwise it may be called back after it has returned, with bytes of a freed block. */
  lemma {:induction false} StartStaysSoundIff(run: seq<Action>, st: State, devs: seq<nat>)
    requires Reached(run, st) && Enabled(st, Start(devs)) && CanStart(st.handles, devs)
    ensures StaysSound(Next(st, Start(devs)), |st.streams|) <==> Unpumped(st, devs)
    ensures MayOutlive(Next(st, Start(devs)), |st.streams|) <==> !Unpumped(st, devs)
  {
    var n := |st.streams|;
    var st1 := Started(st, devs);
    ReachedIsSafe(run, st);
    ReachedIsLooped(run, st);
    NextKeeps(st, Start(devs));
    NextLoops(st, Start(devs));
    if Unpumped(st, devs) {
      Beyond(st);
      StartFenced(st, devs, n);
      hide *;
      FencedStaysSound(st1, n);
    } else {
      var z: nat :| z < n && MayPump(st.streams[z]) && !Apart(RefsOf(st.handles, devs), st.streams[z].refs);
      var r :| r in RefsOf(st.handles, devs) && r in st.streams[z].refs;
      assert st1.streams[z] == st.streams[z];
      hide *;
      var more, st' := SharingOverlaps(st1, n, z, r);
      NotStaysSound(st1, more, st', n, z);
    }
  }

  lemma Beyond(st: State)
    ensures Fenced(st, |st.streams|)
  {}

  lemma {:induction false} ReachedIsLooped(run: seq<Action>, st: State)
    requires Reached(run, st)
    ensures Looped(st.streams, st.scheduled)
  {
    RunLoops(INIT, run);
  }

  /** And from then on: a further start leaves it so exactly when it lists none
      of its devices, or the call has entered them already. */
  lemma {:induction false} LaterStartStaysSoundIff(run: seq<Action>, st: State, s: nat, devs: seq<nat>)
    requires Reached(run, st) && Curbed(INIT, run, s) && s < |st.streams|
    requires Enabled(st, Start(devs)) && CanStart(st.handles, devs)
    ensures StaysSound(Next(st, Start(devs)), s) <==>
      st.streams[s].phase != Registering || Apart(RefsOf(st.handles, devs), st.streams[s].refs)
  {
    var n := |st.streams|;
    var st1 := Started(st, devs);
    ReachedIsSafe(run, st);
    ReachedIsLooped(run, st);
    NextKeeps(st, Start(devs));
    NextLoops(st, Start(devs));
    assert st1.streams[s] == st.streams[s];
    if st.streams[s].phase != Registering || Apart(RefsOf(st.handles, devs), st.streams[s].refs) {
      CurbedIsFenced(run, st, s);
      StartFenced(st, devs, s);
      hide *;
      FencedStaysSound(st1, s);
    } else {
      var r :| r in RefsOf(st.handles, devs) && r in st.streams[s].refs;
      assert MayPump(st1.streams[n]);
      hide *;
      var more, st' := SharingOverlaps(st1, s, n, r);
      NotStaysSound(st1, more, st', s, n);
    }
  }

  lemma {:induction false} CurbedIsFenced(run: seq<Action>, st: State, s: nat)
    requires Reached(run, st) && Curbed(INIT, run, s)
    ensures Fenced(st, s)
  {
    SafeInitially();
    RunFenced(INIT, run, s);
  }

  lemma {:induction false} FencedStaysSound(st: State, s: nat)
    requires Safe(st) && Fenced(st, s) && s < |st.streams|
    ensures StaysSound(st, s) && !MayOutlive(st, s)
  {
    hide Safe, Curbed, Execute, SoundFor;
    forall more: seq<Action>, st': State | Curbed(st, more, s) && Execute(st, more) == At(st')
      ensures SoundFor(st', s)
      ensures forall z :: z in st'.flying && st'.flying[z].slot.sid == s ==> !Outlives(st', z)
    {
      RunFenced(st, more, s);
      EveryRunIsSafe(st, more);
      FencedIsSound(st', s);
    }
  }

  lemma FencedIsSound(st: State, s: nat)
    requires Safe(st) && Fenced(st, s)
    ensures SoundFor(st, s)
    ensures forall z :: z in st.flying && st.flying[z].slot.sid == s ==> !Outlives(st, z)
  {
    forall z | z in st.flying && st.flying[z].slot.sid == s
      ensures Sound(st, z)
    {
      assert Names(st.streams, st.flying[z].slot, st.flying[z].ref);
    }
    hide Safe;
  }

  lemma {:induction false} NoStartCurbs(st: State, run: seq<Action>, s: nat)
    requires NoStart(run)
    ensures Curbed(st, run, s)
    decreases |run|
  {
    hide Enabled, Next;
    if run == [] {
    } else if Enabled(st, run[0]) {
      NoStartCurbs(Next(st, run[0]), run[1..], s);
    }
  }

  lemma NotStaysSound(st: State, more: seq<Action>, st': State, s: nat, z: nat)
    requires Leads(st, more, st') && z in st'.flying && st'.flying[z].slot.sid == s
    requires Outlives(st', z) && !Sound(st', z)
    ensures !StaysSound(st, s) && MayOutlive(st, s)
  {
    hide Execute, Curbed, Outlives, Sound;
    NoStartCurbs(st, more, s);
    assert !SoundFor(st', s);
  }
}
