/** Exactly when reports stay routed: step by step, and for a whole call of
    Stream, from what its caller can see beforehand and what is started later. */
module HidRouting {
  import opened HidStream
  import opened HidSafety
  import opened HidResults
  import opened HidDiscipline

  // ----- One step -----

  /** What a step needs to leave every callback routed: entering and erasing must
      not concern an attached device, and a device may be attached only while its entry
      names the slot that attaches it. */
  predicate Spares(st: State, a: Action)
    requires Enabled(st, a)
  {
    match a
    case Register(s) => forall r :: r in st.attached ==> r !in st.streams[s].refs
    case Unregister(s) => forall r :: r in st.attached ==> r !in st.streams[s].refs
    case Attach(s) =>
      var at := st.streams[s].phase.at;
      InRegistry(st.registry, st.streams[s].refs[at], Slot(s, at))
    case _ => true
  }

  lemma AttachKeepsRoutedIff(st: State, s: nat)
    requires Enabled(st, Attach(s)) && Routed(st)
    ensures Routed(Next(st, Attach(s))) <==> Spares(st, Attach(s))
  {
    var at := st.streams[s].phase.at;
    var st' := Next(st, Attach(s));
    assert st'.attached[st.streams[s].refs[at]] == Attachment(st.streams[s].bufs[at], Slot(s, at));
  }

  /** Over any run, a step leaves every callback routed exactly when it spares them. */
  lemma NextKeepsRoutedIff(run: seq<Action>, st: State, a: Action)
    requires Reached(run, st) && Enabled(st, a) && Routed(st)
    ensures Routed(Next(st, a)) <==> Spares(st, a)
  {
    hide Reached;
    match a
    case Register(s) => RegisterKeepsRoutedIff(run, st, s);
    case Unregister(s) => UnregisterKeepsRoutedIff(run, st, s);
    case Attach(s) => AttachKeepsRoutedIff(st, s);
    case _ => OtherKeepsRouted(st, a);
  }

  lemma OtherKeepsRouted(st: State, a: Action)
    requires Enabled(st, a) && Routed(st) && !a.Register? && !a.Unregister? && !a.Attach?
    ensures Routed(Next(st, a))
  {
    OtherLeaves(st, a);
    hide Next, Enabled;
  }

  /** No other step enters, erases or attaches. */
  lemma OtherLeaves(st: State, a: Action)
    requires Enabled(st, a) && !a.Register? && !a.Unregister? && !a.Attach?
    ensures Next(st, a).registry == st.registry
    ensures forall r :: r in Next(st, a).attached ==> r in st.attached && Next(st, a).attached[r] == st.attached[r]
  {
    hide Claimed, Kept, FoundRefs, Rejected, Handed, Target, Stepped, Shaped;
  }

  // ----- Runs without a new call of Stream -----

  predicate NoStart(run: seq<Action>) { forall k :: 0 <= k < |run| ==> !run[k].Start? }

  lemma {:induction false} ExecuteAppend(st: State, a: seq<Action>, b: seq<Action>)
    requires Execute(st, a).At?
    ensures Execute(st, a + b) == Execute(Execute(st, a).state, b)
    decreases |a|
  {
    hide Enabled, Next;
    if a == [] {
      assert a + b == b;
    } else {
      assert (a + b)[1..] == a[1..] + b;
      ExecuteAppend(Next(st, a[0]), a[1..], b);
    }
  }

  lemma {:induction false} NoStartRespects(st: State, run: seq<Action>, s: nat, nulls: bool)
    requires NoStart(run)
    ensures Respected(st, run, s, nulls)
    decreases |run|
  {
    hide Enabled, Next;
    if run == [] {
    } else if Enabled(st, run[0]) {
      NoStartRespects(Next(st, run[0]), run[1..], s, nulls);
    }
  }

  /** A run from st to st' that starts no stream. */
  ghost predicate Leads(st: State, run: seq<Action>, st': State) {
    NoStart(run) && Execute(st, run) == At(st')
  }

  lemma LeadsOne(st: State, a: Action)
    requires Enabled(st, a) && !a.Start?
    ensures Leads(st, [a], Next(st, a))
  {
    assert [a][1..] == [];
  }

  lemma LeadsOn(st: State, a: seq<Action>, mid: State, b: seq<Action>, st': State)
    requires Leads(st, a, mid) && Leads(mid, b, st')
    ensures Leads(st, a + b, st')
  {
    hide Execute;
    ExecuteAppend(st, a, b);
  }

  // ----- Driving one call -----

  /** What a call does next, when malloc would give p. */
  function OwnStep(t: Stream, s: nat, p: Ptr): Action {
    match t.phase
    case Registering => Register(s)
    case Setup(_, ToMalloc) => Malloc(s, p)
    case Setup(_, ToAttach) => Attach(s)
    case Setup(_, ToSchedule) => Schedule(s)
    case Pumping => Cancel(s)
    case Teardown(_, ToDetach) => Detach(s)
    case Teardown(_, ToUnschedule) => Unschedule(s)
    case Teardown(_, ToFree) => Free(s)
    case Unregistering => Unregister(s)
    case Unclaiming => Unclaim(s)
  }

  /** The steps a call has left before it erases its references. */
  function StepsLeft(t: Stream): nat {
    var n := |t.refs|;
    match t.phase
    case Registering => 6 * n + 2
    case Setup(i, todo) => 6 * n - 3 * i + 1 - (if todo == ToMalloc then 0 else if todo == ToAttach then 1 else 2)
    case Pumping => 3 * n + 1
    case Teardown(i, next) => 3 * n - 3 * i - (if next == ToDetach then 0 else if next == ToUnschedule then 1 else 2)
    case Unregistering => 0
    case Unclaiming => 0
  }

  /** There is always a block to be had. */
  lemma FreshBlock(heap: map<Ptr, Slot>) returns (p: Ptr)
    ensures p > 0 && p !in heap
  {
    p := FreshKey(heap.Keys);
  }

  lemma {:induction false} FreshKey(keys: set<Ptr>) returns (p: Ptr)
    ensures p > 0 && forall q :: q in keys ==> q < p
    decreases |keys|
  {
    if keys == {} {
      p := 1;
    } else {
      var k :| k in keys;
      var other := FreshKey(keys - {k});
      p := if k < other then other else k + 1;
      forall q | q in keys
        ensures q < p
      {
        assert q == k || q in keys - {k};
      }
    }
  }

  lemma OwnStepEnabled(st: State, s: nat, p: Ptr)
    requires p !in st.heap && s < |st.streams| && Active(st.streams[s]) && s !in st.flying
    ensures Enabled(st, OwnStep(st.streams[s], s, p)) && !OwnStep(st.streams[s], s, p).Start?
  {
    hide Shaped;
  }

  lemma OwnStepMoves(st: State, s: nat, p: Ptr)
    requires p !in st.heap && s < |st.streams| && Active(st.streams[s]) && s !in st.flying
    ensures Enabled(st, OwnStep(st.streams[s], s, p)) && !OwnStep(st.streams[s], s, p).Start?
    ensures Next(st, OwnStep(st.streams[s], s, p)).streams == st.streams[s := Stepped(st.streams[s], p)]
    ensures st.streams[s].phase.Setup? ==> Next(st, OwnStep(st.streams[s], s, p)).registry == st.registry
    ensures Next(st, OwnStep(st.streams[s], s, p)).flying == st.flying
  {
    OwnStepEnabled(st, s, p);
    var a := OwnStep(st.streams[s], s, p);
    PointerMatters(st.streams[s], p);
    hide Enabled, Begun, TornDown, Stepped;
    if a.Register? || a.Malloc? || a.Attach? || a.Schedule? {
      BegunMoves(st, s, p, a);
    } else if a != Cancel(s) {
      TornDownMoves(st, s, a);
    }
  }

  /** Only a call about to allocate looks at the pointer. */
  lemma PointerMatters(t: Stream, p: Ptr)
    ensures (t.phase.Setup? && t.phase.todo == ToMalloc) || Stepped(t, p) == Stepped(t, 0)
  {}

  lemma BegunMoves(st: State, s: nat, p: Ptr, a: Action)
    requires Enabled(st, a) && (a == Register(s) || a == Malloc(s, p) || a == Attach(s) || a == Schedule(s))
    ensures Begun(st, a).streams == st.streams[s := Stepped(st.streams[s], p)]
    ensures (!a.Register? ==> Begun(st, a).registry == st.registry) && Begun(st, a).flying == st.flying
  {
    PointerMatters(st.streams[s], p);
    hide Stepped, Entered;
  }

  lemma TornDownMoves(st: State, s: nat, a: Action)
    requires Enabled(st, a) && (a == Detach(s) || a == Unschedule(s) || a == Free(s) || a == Unregister(s))
    ensures TornDown(st, a).streams == st.streams[s := Stepped(st.streams[s], 0)] && TornDown(st, a).flying == st.flying
  {
    hide Stepped, Erased;
  }

  /** A call not yet past its teardown can always take its next step, with a real block if it allocates. */
  lemma OwnStepWorks(st: State, s: nat) returns (p: Ptr)
    requires Safe(st) && s < |st.streams| && Active(st.streams[s]) && s !in st.flying
    ensures p > 0 && Enabled(st, OwnStep(st.streams[s], s, p)) && !OwnStep(st.streams[s], s, p).Start?
    ensures Next(st, OwnStep(st.streams[s], s, p)).streams == st.streams[s := Stepped(st.streams[s], p)]
    ensures st.streams[s].phase.Setup? ==> Next(st, OwnStep(st.streams[s], s, p)).registry == st.registry
    ensures Safe(Next(st, OwnStep(st.streams[s], s, p)))
    ensures Next(st, OwnStep(st.streams[s], s, p)).flying == st.flying
  {
    p := FreshBlock(st.heap);
    hide *;
    OwnStepMoves(st, s, p);
    NextKeeps(st, OwnStep(st.streams[s], s, p));
  }

  lemma ErasesLater(t: Stream, p: Ptr)
    requires Active(t) && t.phase != Unregistering
    ensures Active(Stepped(t, p)) && Stepped(t, p).refs == t.refs && StepsLeft(Stepped(t, p)) < StepsLeft(t)
  {}

  /** Any call not yet past its teardown can be brought to the point where it erases. */
  lemma {:induction false} DriveToErase(st: State, s: nat) returns (run: seq<Action>, st': State)
    requires Safe(st) && s < |st.streams| && Active(st.streams[s]) && s !in st.flying
    ensures Leads(st, run, st') && Safe(st') && InPhase(st', s, Unregistering)
    ensures |st'.streams| == |st.streams| && st'.streams[s].refs == st.streams[s].refs
    ensures forall z :: 0 <= z < |st.streams| && z != s ==> st'.streams[z] == st.streams[z]
    ensures st'.flying == st.flying
    decreases StepsLeft(st.streams[s])
  {
    hide Safe, Next, Enabled, Leads;
    if st.streams[s].phase == Unregistering {
      run, st' := [], st;
      LeadsNowhere(st);
    } else {
      var p := OwnStepWorks(st, s);
      var a := OwnStep(st.streams[s], s, p);
      ErasesLater(st.streams[s], p);
      var rest;
      rest, st' := DriveToErase(Next(st, a), s);
      LeadsOne(st, a);
      LeadsOn(st, [a], Next(st, a), rest, st');
      run := [a] + rest;
    }
  }

  /** A callback in flight comes to its end. */
  lemma Land(st: State, s: nat) returns (run: seq<Action>, st': State)
    requires Safe(st)
    ensures Leads(st, run, st') && Safe(st') && s !in st'.flying
    ensures st' == st.(flying := st'.flying, log := st'.log)
  {
    hide Safe, Handed;
    if s !in st.flying {
      run, st' := [], st;
      LeadsNowhere(st);
    } else if st.flying[s].handed {
      run, st' := [Handled(s)], Next(st, Handled(s));
      LeadsOne(st, Handled(s));
      NextKeeps(st, Handled(s));
    } else {
      var mid := Next(st, HandOver(s));
      st' := Next(mid, Handled(s));
      run := [HandOver(s)] + [Handled(s)];
      LeadsOne(st, HandOver(s));
      NextKeeps(st, HandOver(s));
      LeadsOne(mid, Handled(s));
      NextKeeps(mid, Handled(s));
      LeadsOn(st, [HandOver(s)], mid, [Handled(s)], st');
    }
  }

  lemma LeadsNowhere(st: State)
    ensures Leads(st, [], st)
  {}

  /** In its set-up, and still to attach its i-th device. */
  predicate Before(t: Stream, i: nat) {
    t.phase.Setup? && i < |t.refs| && (t.phase.at < i || (t.phase.at == i && t.phase.todo != ToSchedule))
  }

  lemma BeforeMoves(t: Stream, i: nat, p: Ptr)
    requires Before(t, i) && t.phase != Setup(i, ToAttach) && p > 0
    ensures Before(Stepped(t, p), i) && Stepped(t, p).refs == t.refs && StepsLeft(Stepped(t, p)) < StepsLeft(t)
    ensures Buffered(t, i) ==> Buffered(Stepped(t, p), i)
  {}

  lemma AttachesNow(st: State, s: nat, i: nat, p: Ptr)
    requires s < |st.streams| && st.streams[s].phase == Setup(i, ToAttach) && Before(st.streams[s], i)
    ensures OwnStep(st.streams[s], s, p) == Attach(s)
    ensures AttachedFor(Next(st, Attach(s)), st.streams[s].refs[i], Slot(s, i))
    ensures Buffered(st.streams[s], i) ==> Next(st, Attach(s)).attached[st.streams[s].refs[i]].ptr != 0
  {}

  /** The device's callback is attached for a slot. */
  predicate AttachedFor(st: State, ref: Ref, slot: Slot) { ref in st.attached && st.attached[ref].slot == slot }

  /** A call in its set-up can be brought to where it has just attached its i-th device. */
  lemma {:induction false} DriveToAttach(st: State, s: nat, i: nat) returns (run: seq<Action>, st': State)
    requires Safe(st) && s < |st.streams| && Before(st.streams[s], i) && s !in st.flying
    ensures Leads(st, run, st') && st'.registry == st.registry && AttachedFor(st', st.streams[s].refs[i], Slot(s, i))
    ensures Buffered(st.streams[s], i) ==> st'.attached[st.streams[s].refs[i]].ptr != 0
    decreases StepsLeft(st.streams[s])
  {
    var t := st.streams[s];
    BeforeIsSetup(t, i);
    hide Safe, Next, Enabled, Leads, Stepped, Before, Buffered, OwnStep, StepsLeft;
    var p := OwnStepWorks(st, s);
    var a := OwnStep(t, s, p);
    LeadsOne(st, a);
    if t.phase == Setup(i, ToAttach) {
      AttachesNow(st, s, i, p);
      run, st' := [a], Next(st, a);
    } else {
      BeforeMoves(t, i, p);
      var rest;
      rest, st' := DriveToAttach(Next(st, a), s, i);
      LeadsOn(st, [a], Next(st, a), rest, st');
      run := [a] + rest;
    }
  }

  lemma BeforeIsSetup(t: Stream, i: nat)
    requires Before(t, i)
    ensures t.phase.Setup? && Active(t) && i < |t.refs|
  {}

  // ----- A whole call -----

  /** That is, every report with bytes reaches the call, when it attached the sender. */
  lemma HeardIff(run: seq<Action>, st: State, s: nat)
    requires Reached(run, st)
    ensures RoutedFor(st, s, false) <==> forall r: Ref, report: Report ::
      r in st.attached && st.attached[r].slot.sid == s && st.attached[r].ptr != 0 && report != [] ==>
        Arrives(st, r, report)
  {
    ReachedIsSafe(run, st);
    hide OpenOk, LedgerOk, CountsOk, HoldsOk, HeapOk, ScheduledOk, RegistryOk;
    forall r: Ref, report: Report | r in st.attached && st.attached[r].ptr != 0 && report != []
      ensures Arrives(st, r, report) <==> InRegistry(st.registry, r, st.attached[r].slot)
    {
      ArrivesIff(st, r, report);
    }
    if !RoutedFor(st, s, false) {
      var r :| r in st.attached && st.attached[r].slot.sid == s && st.attached[r].ptr != 0
               && !InRegistry(st.registry, r, st.attached[r].slot);
      assert !Arrives(st, r, [0]);
    }
  }

  /** A callback finds the slot that attached its sender, and so hands it the
      report as the device it was attached for. */
  predicate Arrives(st: State, r: Ref, report: Report)
    requires r in st.attached
  {
    var slot := st.attached[r].slot;
    && slot.sid < |st.streams| && slot.index < |st.streams[slot.sid].devs|
    && Target(st, r, report).Some?
    && Handed(st.streams, Target(st, r, report).value, report) ==
        [Delivery(slot, st.streams[slot.sid].devs[slot.index], report)]
  }

  lemma ArrivesIff(st: State, r: Ref, report: Report)
    requires AttachedOk(st.streams, st.attached) && r in st.attached && st.attached[r].ptr != 0 && report != []
    ensures Arrives(st, r, report) <==> InRegistry(st.registry, r, st.attached[r].slot)
  {
    if r in st.registry {
      var handed := Handed(st.streams, st.registry[r], report);
      assert |handed| > 0 ==> handed[0].slot == st.registry[r];
    }
  }

  /** A callback attached for a device whose entry names another slot, or is gone. */
  lemma Misrouted(st: State, ref: Ref, slot: Slot)
    requires AttachedFor(st, ref, slot) && !InRegistry(st.registry, ref, slot)
    ensures !RoutedFor(st, slot.sid, true) && (st.attached[ref].ptr != 0 ==> !RoutedFor(st, slot.sid, false))
  {}

  lemma JustRegistered(st: State, s: nat)
    requires InPhase(st, s, Registering)
    ensures InPhase(Next(st, Register(s)), s, Setup(0, ToMalloc))
    ensures Next(st, Register(s)).streams[s].refs == st.streams[s].refs
    ensures forall i :: 0 <= i < |st.streams[s].refs| ==>
      Before(Next(st, Register(s)).streams[s], i) && Buffered(Next(st, Register(s)).streams[s], i)
  {}

  lemma GroundedUnlessPumping(st: State, s: nat)
    requires Safe(st) && s < |st.streams| && st.streams[s].phase != Pumping
    ensures s !in st.flying
  {}

  /** A device listed twice in one call loses one of its two slots. */
  lemma TwiceInOneCall(st: State, s: nat, i: nat, j: nat) returns (run: seq<Action>, st': State)
    requires Safe(st) && InPhase(st, s, Registering)
    requires i < j < |st.streams[s].refs| && st.streams[s].refs[i] == st.streams[s].refs[j]
    ensures Leads(st, run, st') && !RoutedFor(st', s, false)
  {
    var refs := st.streams[s].refs;
    GroundedUnlessPumping(st, s);
    var p := OwnStepWorks(st, s);
    var mid := Next(st, Register(s));
    JustRegistered(st, s);
    LaterWins(st.registry, refs, s, |refs|, i, j);
    LeadsOne(st, Register(s));
    hide Safe, Next, Leads, Entered, RoutedFor, AttachedFor, Before, Buffered;
    var rest;
    rest, st' := DriveToAttach(mid, s, i);
    LeadsOn(st, [Register(s)], mid, rest, st');
    run := [Register(s)] + rest;
    Misrouted(st', refs[i], Slot(s, i));
  }

  lemma {:induction false} LaterWins(registry: map<Ref, Slot>, refs: seq<Ref>, s: nat, k: nat, i: nat, j: nat)
    requires i < j < k <= |refs| && refs[i] == refs[j]
    ensures !InRegistry(Entered(registry, refs, s, k), refs[i], Slot(s, i))
    decreases k
  {
    if j == k - 1 {
    } else {
      LaterWins(registry, refs, s, k - 1, i, j);
    }
  }

  /** A device shared with a stream still active is without an entry once that
      stream ends between the other's entering and attaching. */
  lemma SharedWithActive(st: State, s: nat, j: nat, z: nat) returns (run: seq<Action>, st': State)
    requires Safe(st) && InPhase(st, s, Registering) && z < |st.streams| && z != s && Active(st.streams[z])
    requires j < |st.streams[s].refs| && st.streams[s].refs[j] in st.streams[z].refs
    ensures Leads(st, run, st') && !RoutedFor(st', s, false)
  {
    hide Safe, Next, Leads, Execute, RoutedFor, AttachedFor, Before, Buffered;
    var ref := st.streams[s].refs[j];
    var landing, st0 := Land(st, z);
    var erasing, st1 := DriveToErase(st0, z);
    LeadsOn(st, landing, st0, erasing, st1);
    var toErase := landing + erasing;
    var st2 := EnterThenErase(st1, s, z, ref);
    LeadsOn(st, toErase, st1, [Register(s), Unregister(z)], st2);
    var rest;
    rest, st' := DriveToAttach(st2, s, j);
    LeadsOn(st, toErase + [Register(s), Unregister(z)], st2, rest, st');
    run := toErase + [Register(s), Unregister(z)] + rest;
    Misrouted(st', ref, Slot(s, j));
  }

  lemma EnterThenErase(st: State, s: nat, z: nat, ref: Ref) returns (st': State)
    requires Safe(st) && InPhase(st, s, Registering) && InPhase(st, z, Unregistering) && ref in st.streams[z].refs
    ensures Leads(st, [Register(s), Unregister(z)], st') && Safe(st') && ref !in st'.registry
    ensures |st'.streams| == |st.streams| && st'.streams[s].refs == st.streams[s].refs
    ensures forall i :: 0 <= i < |st'.streams[s].refs| ==> Before(st'.streams[s], i) && Buffered(st'.streams[s], i)
    ensures s !in st'.flying
  {
    GroundedUnlessPumping(st, s);
    GroundedUnlessPumping(st, z);
    EntersBeside(st, s, z);
    LeadsOne(st, Register(s));
    hide Safe, Leads, Before, Buffered, Next, Enabled;
    var _ := OwnStepWorks(st, s);
    var mid := Next(st, Register(s));
    var _ := OwnStepWorks(mid, z);
    st' := Next(mid, Unregister(z));
    ErasesBeside(mid, s, z, ref);
    LeadsOne(mid, Unregister(z));
    LeadsOn(st, [Register(s)], mid, [Unregister(z)], st');
    assert [Register(s)] + [Unregister(z)] == [Register(s), Unregister(z)];
  }

  lemma EntersBeside(st: State, s: nat, z: nat)
    requires InPhase(st, s, Registering) && InPhase(st, z, Unregistering)
    ensures var mid := Next(st, Register(s));
      && Enabled(st, Register(s)) && InPhase(mid, z, Unregistering) && mid.streams[z] == st.streams[z]
      && |mid.streams| == |st.streams| && mid.streams[s].refs == st.streams[s].refs && mid.flying == st.flying
      && forall i :: 0 <= i < |st.streams[s].refs| ==> Before(mid.streams[s], i) && Buffered(mid.streams[s], i)
  {
    JustRegistered(st, s);
    hide Entered, Before, Buffered;
  }

  lemma ErasesBeside(st: State, s: nat, z: nat, ref: Ref)
    requires InPhase(st, z, Unregistering) && s < |st.streams| && s != z && ref in st.streams[z].refs
    ensures var st' := Next(st, Unregister(z));
      && Enabled(st, Unregister(z)) && ref !in st'.registry && st'.flying == st.flying
      && |st'.streams| == |st.streams| && st'.streams[s] == st.streams[s]
  {}

  /** Whatever happens next, as long as no further start lists a device the
      call awaits reports from, every callback of that call stays routed. When those
      without a buffer do not count, that is: every report with bytes from a device it
      attached reaches it. */
  ghost predicate StaysRouted(st: State, s: nat, nulls: bool) {
    forall more: seq<Action>, st': State ::
      Respected(st, more, s, nulls) && Execute(st, more) == At(st') ==> RoutedFor(st', s, nulls)
  }

  /** In any reachable state, whatever the other calls share among themselves, a
      call of Stream that is not refused keeps its callbacks routed, and its reports
      arriving, exactly when it shares no device itself. */
  lemma {:induction false} StartStaysRoutedIff(run: seq<Action>, st: State, devs: seq<nat>, nulls: bool)
    requires Reached(run, st) && Enabled(st, Start(devs)) && CanStart(st.handles, devs)
    ensures StaysRouted(Next(st, Start(devs)), |st.streams|, nulls) <==> Unshared(st, devs)
  {
    ReachedIsSafe(run, st);
    NextKeeps(st, Start(devs));
    hide *;
    UnsharedIff(st, devs, nulls);
    if Unshared(st, devs) {
      UndisturbedStaysRouted(Next(st, Start(devs)), |st.streams|, nulls);
    } else {
      var more, st' := SharingMisroutes(st, devs);
      RoutedIsHeard(st', |st.streams|, nulls);
      NotStaysRouted(Next(st, Start(devs)), more, st', |st.streams|, nulls);
    }
  }

  /** And from then on: a further start leaves its callbacks routed, and its
      reports arriving, for good exactly when it lists no device the call awaits reports
      from: of those still to be detached, any when all callbacks count, and those not
      without a buffer when only reports do. */
  lemma {:induction false} LaterStartStaysRoutedIff(run: seq<Action>, st: State, s: nat, devs: seq<nat>, nulls: bool)
    requires Reached(run, st) && Respected(INIT, run, s, nulls) && s < |st.streams|
    requires Enabled(st, Start(devs)) && CanStart(st.handles, devs)
    ensures StaysRouted(Next(st, Start(devs)), s, nulls) <==> Avoids(st.streams[s], RefsOf(st.handles, devs), nulls)
  {
    RespectedIsUndisturbed(run, st, s, nulls);
    ReachedIsSafe(run, st);
    NextKeeps(st, Start(devs));
    RespectsIsAvoids(st, devs, s, nulls);
    hide *;
    if Avoids(st.streams[s], RefsOf(st.handles, devs), nulls) {
      StartRespects(st, devs, s, nulls);
      UndisturbedStaysRouted(Next(st, Start(devs)), s, nulls);
    } else {
      var more, st' := LaterStartMisroutes(st, s, devs, nulls);
      NotStaysRouted(Next(st, Start(devs)), more, st', s, nulls);
    }
  }

  lemma RespectsIsAvoids(st: State, devs: seq<nat>, s: nat, nulls: bool)
    requires Enabled(st, Start(devs)) && CanStart(st.handles, devs) && s < |st.streams|
    ensures Respects(st, Start(devs), s, nulls) <==> Avoids(st.streams[s], RefsOf(st.handles, devs), nulls)
  {}

  lemma RoutedIsHeard(st: State, s: nat, nulls: bool)
    ensures RoutedFor(st, s, nulls) ==> RoutedFor(st, s, false)
  {}

  lemma NotStaysRouted(st: State, more: seq<Action>, st': State, s: nat, nulls: bool)
    requires Leads(st, more, st') && !RoutedFor(st', s, nulls)
    ensures !StaysRouted(st, s, nulls)
  {
    hide Execute, Respected, RoutedFor;
    NoStartRespects(st, more, s, nulls);
  }

  lemma {:induction false} UndisturbedStaysRouted(st: State, s: nat, nulls: bool)
    requires Safe(st) && Undisturbed(st, s, nulls)
    ensures StaysRouted(st, s, nulls)
  {
    hide Safe, Undisturbed, Respected, Execute, RoutedFor;
    forall more: seq<Action>, st': State | Respected(st, more, s, nulls) && Execute(st, more) == At(st')
      ensures RoutedFor(st', s, nulls)
    {
      RunUndisturbed(st, more, s, nulls);
      EveryRunIsSafe(st, more);
      SafeRoutes(st', s, nulls);
    }
  }

  lemma SafeRoutes(st: State, s: nat, nulls: bool)
    requires Safe(st) && Undisturbed(st, s, nulls)
    ensures RoutedFor(st, s, nulls)
  {
    UndisturbedRoutes(st, s, nulls);
  }

  /** Otherwise some continuation, starting no further stream, loses a report or
      hands it to another call. */
  lemma SharingMisroutes(st: State, devs: seq<nat>) returns (more: seq<Action>, st': State)
    requires Enabled(st, Start(devs)) && CanStart(st.handles, devs) && !Unshared(st, devs)
    requires Safe(Next(st, Start(devs)))
    ensures Leads(Next(st, Start(devs)), more, st') && !RoutedFor(st', |st.streams|, false)
  {
    var s, refs := |st.streams|, RefsOf(st.handles, devs);
    var st1 := Started(st, devs);
    hide Safe, Leads, RoutedFor, Next;
    if !Distinct(refs) {
      var i, j :| 0 <= i < j < |refs| && refs[i] == refs[j];
      more, st' := TwiceInOneCall(st1, s, i, j);
    } else {
      var z, r :| 0 <= z < s && Active(st.streams[z]) && r in refs && r in st.streams[z].refs;
      var j :| 0 <= j < |refs| && refs[j] == r;
      more, st' := SharedWithActive(st1, s, j, z);
    }
  }

  lemma Started(st: State, devs: seq<nat>) returns (st1: State)
    requires Enabled(st, Start(devs)) && CanStart(st.handles, devs)
    ensures st1 == Next(st, Start(devs)) && st1.streams[..|st.streams|] == st.streams
    ensures st1.registry == st.registry && st1.attached == st.attached
    ensures InPhase(st1, |st.streams|, Registering) && st1.streams[|st.streams|].refs == RefsOf(st.handles, devs)
  {
    st1 := Next(st, Start(devs));
  }

  /** A later start that lists a device the call awaits reports from takes its
      entry, now or as soon as the call has entered it. */
  lemma LaterStartMisroutes(st: State, s: nat, devs: seq<nat>, nulls: bool) returns (more: seq<Action>, st': State)
    requires Undisturbed(st, s, nulls) && s < |st.streams| && Enabled(st, Start(devs)) && CanStart(st.handles, devs)
    requires Safe(Next(st, Start(devs))) && !Avoids(st.streams[s], RefsOf(st.handles, devs), nulls)
    ensures Leads(Next(st, Start(devs)), more, st') && !RoutedFor(st', s, nulls)
  {
    var st1 := Started(st, devs);
    assert st1.streams[s] == st.streams[s];
    var i := AwaitedShared(st, s, devs, nulls);
    hide *;
    if Wired(st.streams[s], i) {
      more, st' := LosesNow(st1, |st.streams|, s, i, nulls);
    } else if st.streams[s].phase == Registering {
      more, st' := EntersThenLoses(st1, |st.streams|, s, i, nulls);
    } else {
      more, st' := TakesThenAttaches(st1, |st.streams|, s, i, nulls);
    }
  }

  /** The device in question, and where the call stands with it. */
  lemma AwaitedShared(st: State, s: nat, devs: seq<nat>, nulls: bool) returns (i: nat)
    requires Undisturbed(st, s, nulls) && s < |st.streams| && AllHandles(st.handles, devs)
    requires !Avoids(st.streams[s], RefsOf(st.handles, devs), nulls)
    ensures var t := st.streams[s];
      && i < |t.refs| && t.refs[i] in RefsOf(st.handles, devs) && (nulls || Buffered(t, i))
      && (Wired(t, i) ==>
            AttachedFor(st, t.refs[i], Slot(s, i)) && (nulls || st.attached[t.refs[i]].ptr != 0))
      && (Wired(t, i) || t.phase == Registering || Before(t, i))
  {
    var t := st.streams[s];
    i :| 0 <= i < |t.refs| && Awaits(t, i, nulls) && t.refs[i] in RefsOf(st.handles, devs);
    assert InPlace(t, s, i, st.registry, st.attached, st.scheduled, nulls);
    PendingCases(t, i);
    hide Undisturbed, Before;
  }

  lemma LosesNow(st: State, n: nat, s: nat, i: nat, nulls: bool) returns (run: seq<Action>, st': State)
    requires Safe(st) && InPhase(st, n, Registering) && s < |st.streams| && s != n
    requires i < |st.streams[s].refs| && st.streams[s].refs[i] in st.streams[n].refs
    requires AttachedFor(st, st.streams[s].refs[i], Slot(s, i))
    requires nulls || st.attached[st.streams[s].refs[i]].ptr != 0
    ensures Leads(st, run, st') && !RoutedFor(st', s, nulls)
  {
    hide Safe, Leads, RoutedFor;
    st' := TakesEntry(st, n, s, i);
    run := [Register(n)];
    Misrouted(st', st.streams[s].refs[i], Slot(s, i));
  }

  lemma EntersThenLoses(st: State, n: nat, s: nat, i: nat, nulls: bool) returns (run: seq<Action>, st': State)
    requires Safe(st) && InPhase(st, n, Registering) && InPhase(st, s, Registering) && s != n
    requires i < |st.streams[s].refs| && st.streams[s].refs[i] in st.streams[n].refs
    ensures Leads(st, run, st') && !RoutedFor(st', s, nulls)
  {
    GroundedUnlessPumping(st, s);
    OwnRegisterLeaves(st, s, n);
    LeadsOne(st, Register(s));
    hide Safe, Leads, RoutedFor, Before, Buffered, Next, Enabled;
    var _ := OwnStepWorks(st, s);
    var mid := Next(st, Register(s));
    var rest;
    rest, st' := TakesThenAttaches(mid, n, s, i, nulls);
    LeadsOn(st, [Register(s)], mid, rest, st');
    run := [Register(s)] + rest;
  }

  lemma PendingCases(t: Stream, i: nat)
    requires Pending(t, i)
    ensures Wired(t, i) || t.phase == Registering || Before(t, i)
  {}

  lemma OwnRegisterLeaves(st: State, s: nat, n: nat)
    requires InPhase(st, s, Registering) && InPhase(st, n, Registering) && s != n
    ensures var mid := Next(st, Register(s));
      && InPhase(mid, n, Registering) && s < |mid.streams| && mid.streams[n].refs == st.streams[n].refs
      && mid.streams[s].refs == st.streams[s].refs
      && forall i :: 0 <= i < |st.streams[s].refs| ==> Before(mid.streams[s], i) && Buffered(mid.streams[s], i)
  {
    JustRegistered(st, s);
    hide Entered, Before;
  }

  lemma TakesEntry(st: State, n: nat, s: nat, i: nat) returns (st': State)
    requires Safe(st) && InPhase(st, n, Registering) && s < |st.streams| && s != n
    requires i < |st.streams[s].refs| && st.streams[s].refs[i] in st.streams[n].refs
    ensures Leads(st, [Register(n)], st') && Safe(st') && st'.attached == st.attached
    ensures |st'.streams| == |st.streams| && st'.streams[s] == st.streams[s]
    ensures !InRegistry(st'.registry, st.streams[s].refs[i], Slot(s, i))
  {
    var refs := st.streams[n].refs;
    GroundedUnlessPumping(st, n);
    var _ := OwnStepWorks(st, n);
    st' := Next(st, Register(n));
    LeadsOne(st, Register(n));
    assert refs[..|refs|] == refs;
    EnteredListed(st.registry, refs, n, |refs|, st.streams[s].refs[i]);
    hide Entered, Safe, Leads;
  }

  lemma TakesThenAttaches(st: State, n: nat, s: nat, i: nat, nulls: bool) returns (run: seq<Action>, st': State)
    requires Safe(st) && InPhase(st, n, Registering) && s < |st.streams| && s != n && Before(st.streams[s], i)
    requires i < |st.streams[s].refs| && st.streams[s].refs[i] in st.streams[n].refs
    requires nulls || Buffered(st.streams[s], i)
    ensures Leads(st, run, st') && !RoutedFor(st', s, nulls)
  {
    BeforeIsSetup(st.streams[s], i);
    hide Safe, Leads, Before, RoutedFor, Buffered;
    var mid := TakesEntry(st, n, s, i);
    GroundedUnlessPumping(mid, s);
    var rest;
    rest, st' := DriveToAttach(mid, s, i);
    LeadsOn(st, [Register(n)], mid, rest, st');
    run := [Register(n)] + rest;
    Misrouted(st', st.streams[s].refs[i], Slot(s, i));
  }
}
