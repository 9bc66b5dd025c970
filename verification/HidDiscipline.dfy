/** A call of Stream whose devices no other call shares: each of its reports
    arrives, whatever the other calls do among themselves. */
module HidDiscipline {
  import opened HidStream
  import opened HidSafety
  import opened HidResults

  predicate Active(t: Stream) { t.phase != Unclaiming }

  predicate Distinct(refs: seq<Ref>) { forall i, j :: 0 <= i < j < |refs| ==> refs[i] != refs[j] }

  predicate InRegistry(registry: map<Ref, Slot>, ref: Ref, slot: Slot) { ref in registry && registry[ref] == slot }

  /** The call has still to detach its device i. */
  predicate Pending(t: Stream, i: nat) {
    match t.phase
    case Teardown(at, next) => at < i < |t.refs| || (i == at && next == ToDetach)
    case Unregistering => false
    case Unclaiming => false
    case _ => i < |t.refs|
  }

  /** Its i-th device has a buffer, or malloc is still to be asked for one. */
  predicate Buffered(t: Stream, i: nat) { i < |t.bufs| ==> t.bufs[i] != 0 }

  /** Still to be detached, and not without a buffer, unless those count as well. */
  predicate Awaits(t: Stream, i: nat, nulls: bool) { Pending(t, i) && (nulls || Buffered(t, i)) }

  /** None of the devices it awaits reports from is among these. */
  predicate Avoids(t: Stream, refs: seq<Ref>, nulls: bool) {
    forall i :: 0 <= i < |t.refs| && Awaits(t, i, nulls) ==> t.refs[i] !in refs
  }

  /** Its devices are distinct, and no other active call lists one it awaits reports from. */
  predicate Solo(streams: seq<Stream>, s: nat, nulls: bool)
    requires s < |streams|
  {
    && Distinct(streams[s].refs)
    && forall z :: 0 <= z < |streams| && z != s && Active(streams[z]) ==> Avoids(streams[s], streams[z].refs, nulls)
  }

  /** What a caller of Stream can see beforehand: the devices listed refer to
      distinct native devices, none of them in a stream still active. */
  predicate Unshared(st: State, devs: seq<nat>)
    requires AllHandles(st.handles, devs)
  {
    && Distinct(RefsOf(st.handles, devs))
    && forall z, r :: 0 <= z < |st.streams| && Active(st.streams[z]) && r in RefsOf(st.handles, devs) ==>
        r !in st.streams[z].refs
  }

  /** A start that is not refused respects the s-th call when it is that call
      and shares no device, or lists none of the devices that call awaits reports from. */
  predicate Respects(st: State, a: Action, s: nat, nulls: bool)
    requires Enabled(st, a)
  {
    a.Start? && CanStart(st.handles, a.devs) ==>
      if s == |st.streams| then Unshared(st, a.devs)
      else s < |st.streams| ==> Avoids(st.streams[s], RefsOf(st.handles, a.devs), nulls)
  }

  /** Every start of the run respects the s-th call; nothing is asked of other calls among themselves. */
  predicate Respected(st: State, run: seq<Action>, s: nat, nulls: bool)
    decreases |run|
  {
    run == [] ||
    (Enabled(st, run[0]) ==> Respects(st, run[0], s, nulls) && Respected(Next(st, run[0]), run[1..], s, nulls))
  }

  // ----- Entries, callbacks and schedules stay in place -----

  /** The entry, the callback and the schedule of device i are the call's own. */
  predicate InPlace(t: Stream, s: nat, i: nat, registry: map<Ref, Slot>, attached: map<Ref, Attachment>,
                    scheduled: set<(Ref, nat)>, nulls: bool)
    requires i < |t.refs|
  {
    && (Listening(t) && Awaits(t, i, nulls) ==> InRegistry(registry, t.refs[i], Slot(s, i)))
    && (Wired(t, i) && Awaits(t, i, nulls) ==>
          t.refs[i] in attached && attached[t.refs[i]] == Attachment(t.bufs[i], Slot(s, i)))
    && (InRunLoop(t, i) ==> (t.refs[i], s) in scheduled)
  }

  predicate Undisturbed(st: State, s: nat, nulls: bool) {
    s < |st.streams| ==>
      && Solo(st.streams, s, nulls)
      && forall i :: 0 <= i < |st.streams[s].refs| ==>
          InPlace(st.streams[s], s, i, st.registry, st.attached, st.scheduled, nulls)
  }

  /** Of the registry, the callbacks and the schedules, what concerns neither
      these references nor the z-th call is as it was. */
  predicate Elsewhere(st: State, st': State, refs: seq<Ref>, z: nat) {
    && (forall r :: r in st.registry && r !in refs ==> InRegistry(st'.registry, r, st.registry[r]))
    && (forall r :: r in st.attached && r !in refs ==> r in st'.attached && st'.attached[r] == st.attached[r])
    && (forall e :: e in st.scheduled && e.1 != z ==> e in st'.scheduled)
  }

  lemma AvoidsLess(t: Stream, t': Stream, refs: seq<Ref>, nulls: bool)
    requires Avoids(t, refs, nulls) && t'.refs == t.refs
    requires forall i :: 0 <= i < |t.refs| && Awaits(t', i, nulls) ==> Awaits(t, i, nulls)
    ensures Avoids(t', refs, nulls)
  {}

  /** A step of another call, which changes nothing but for its own devices. */
  lemma OtherStep(st: State, st': State, s: nat, z: nat, t': Stream, nulls: bool)
    requires s < |st.streams| && z < |st.streams| && z != s && Undisturbed(st, s, nulls)
    requires st'.streams == st.streams[z := t'] && t'.refs == st.streams[z].refs
    requires Active(t') ==> Active(st.streams[z])
    requires Elsewhere(st, st', if Active(st.streams[z]) then st.streams[z].refs else [], z)
    ensures Undisturbed(st', s, nulls)
  {
    var t := st.streams[s];
    WiredIsPending(t);
    assert Active(st.streams[z]) ==> Avoids(t, st.streams[z].refs, nulls);
    hide Distinct, Awaits, Wired, InRunLoop;
    forall i | 0 <= i < |t.refs|
      ensures InPlace(t, s, i, st'.registry, st'.attached, st'.scheduled, nulls)
    {
      assert InPlace(t, s, i, st.registry, st.attached, st.scheduled, nulls);
    }
  }

  lemma WiredIsPending(t: Stream)
    ensures forall i :: 0 <= i < |t.refs| && Wired(t, i) ==> Pending(t, i) && Listening(t)
  {}

  /** A step of the call itself, when it leaves its own things in place. */
  lemma OwnStepKeeps(st: State, st': State, s: nat, t': Stream, nulls: bool)
    requires s < |st.streams| && Solo(st.streams, s, nulls)
    requires st'.streams == st.streams[s := t'] && t'.refs == st.streams[s].refs
    requires forall i :: 0 <= i < |t'.refs| ==>
      && InPlace(t', s, i, st'.registry, st'.attached, st'.scheduled, nulls)
      && (Awaits(t', i, nulls) ==> Awaits(st.streams[s], i, nulls))
    ensures Undisturbed(st', s, nulls)
  {
    hide Distinct, Awaits, InPlace;
    forall z | 0 <= z < |st'.streams| && z != s && Active(st'.streams[z])
      ensures Avoids(t', st'.streams[z].refs, nulls)
    {
      AvoidsLess(st.streams[s], t', st.streams[z].refs, nulls);
    }
  }

  lemma {:induction false} EnteredDistinct(registry: map<Ref, Slot>, refs: seq<Ref>, s: nat, k: nat, i: nat)
    requires i < k <= |refs| && Distinct(refs)
    ensures InRegistry(Entered(registry, refs, s, k), refs[i], Slot(s, i))
  {
    if i == k - 1 {
    } else {
      EnteredDistinct(registry, refs, s, k - 1, i);
    }
  }

  lemma {:induction false} EnteredElsewhere(registry: map<Ref, Slot>, refs: seq<Ref>, s: nat, r: Ref)
    requires r in registry && r !in refs
    ensures InRegistry(Entered(registry, refs, s, |refs|), r, registry[r])
  {
    EnteredAll(registry, refs, s, |refs|, r);
    EnteredOnly(registry, refs, s, |refs|, r);
  }

  /** The steps of one call, as what they do elsewhere. */
  lemma BegunElsewhere(st: State, a: Action, z: nat)
    requires Enabled(st, a)
    requires a == Register(z) || (a.Malloc? && a.s == z) || a == Attach(z) || a == Schedule(z)
    ensures Elsewhere(st, Begun(st, a), st.streams[z].refs, z)
    ensures Begun(st, a).streams == st.streams[z := Stepped(st.streams[z], if a.Malloc? then a.p else 0)]
  {
    hide Entered, Stepped;
    if a.Register? {
      forall r | r in st.registry && r !in st.streams[z].refs
        ensures InRegistry(Begun(st, a).registry, r, st.registry[r])
      {
        EnteredElsewhere(st.registry, st.streams[z].refs, z, r);
      }
    }
  }

  lemma TornDownElsewhere(st: State, a: Action, z: nat)
    requires Enabled(st, a) && (a == Detach(z) || a == Unschedule(z) || a == Free(z) || a == Unregister(z))
    ensures Elsewhere(st, TornDown(st, a), st.streams[z].refs, z)
    ensures TornDown(st, a).streams == st.streams[z := Stepped(st.streams[z], 0)]
  {
    hide Stepped;
  }

  lemma SteppedActive(t: Stream, p: Ptr)
    ensures Stepped(t, p).refs == t.refs && (Active(Stepped(t, p)) ==> Active(t))
  {}

  lemma OtherActs(st: State, a: Action, s: nat, z: nat, nulls: bool)
    requires Enabled(st, a) && StepOf(a, z) && s < |st.streams| && z != s && Undisturbed(st, s, nulls)
    ensures Undisturbed(Next(st, a), s, nulls)
  {
    var st' := Next(st, a);
    var t := st.streams[z];
    hide Undisturbed, Stepped, Entered, Erased;
    if a.LoadFails? {
      OtherStep(st, st', s, z, t.(phase := Unclaiming), nulls);
    } else if a.Unclaim? || a.Cancel? {
      SteppedActive(t, 0);
      OtherStep(st, st', s, z, Stepped(t, 0), nulls);
    } else if a.Register? || a.Malloc? || a.Attach? || a.Schedule? {
      var p := if a.Malloc? then a.p else 0;
      BegunElsewhere(st, a, z);
      SteppedActive(t, p);
      OtherStep(st, st', s, z, Stepped(t, p), nulls);
    } else {
      TornDownElsewhere(st, a, z);
      SteppedActive(t, 0);
      OtherStep(st, st', s, z, Stepped(t, 0), nulls);
    }
  }

  // ----- The call's own steps -----

  lemma OwnRegister(st: State, s: nat, nulls: bool)
    requires Enabled(st, Register(s)) && Undisturbed(st, s, nulls)
    ensures Undisturbed(Next(st, Register(s)), s, nulls)
  {
    var st' := Next(st, Register(s));
    var refs := st.streams[s].refs;
    hide Entered;
    forall i | 0 <= i < |refs|
      ensures InPlace(Stepped(st.streams[s], 0), s, i, st'.registry, st'.attached, st'.scheduled, nulls)
    {
      EnteredDistinct(st.registry, refs, s, |refs|, i);
    }
    hide Undisturbed;
    OwnStepKeeps(st, st', s, Stepped(st.streams[s], 0), nulls);
  }

  /** Steps that touch at most the one device they are at. */
  lemma OwnDevice(st: State, a: Action, s: nat, nulls: bool)
    requires Enabled(st, a) && Undisturbed(st, s, nulls)
    requires a == Attach(s) || a == Schedule(s) || a == Detach(s) || a == Unschedule(s)
    ensures Undisturbed(Next(st, a), s, nulls)
  {
    var st' := Next(st, a);
    var t, at := st.streams[s], st.streams[s].phase.at;
    assert Distinct(t.refs);
    forall i | 0 <= i < |t.refs|
      ensures InPlace(Stepped(t, 0), s, i, st'.registry, st'.attached, st'.scheduled, nulls)
    {
      assert InPlace(t, s, i, st.registry, st.attached, st.scheduled, nulls);
      assert t.refs[i] == t.refs[at] ==> i == at;
    }
    hide Undisturbed;
    OwnStepKeeps(st, st', s, Stepped(t, 0), nulls);
  }

  /** Steps that touch no entry, callback or schedule the call still needs. */
  lemma OwnQuiet(st: State, st': State, s: nat, t': Stream, nulls: bool)
    requires s < |st.streams| && Undisturbed(st, s, nulls)
    requires st'.streams == st.streams[s := t'] && t'.refs == st.streams[s].refs && st.streams[s].bufs <= t'.bufs
    requires st'.attached == st.attached && st'.scheduled == st.scheduled
    requires forall i :: 0 <= i < |t'.refs| ==>
      && (Awaits(t', i, nulls) ==> Awaits(st.streams[s], i, nulls) && st'.registry == st.registry)
      && (Awaits(t', i, nulls) && Listening(t') ==> Listening(st.streams[s]))
      && (Wired(t', i) ==> Wired(st.streams[s], i)) && (InRunLoop(t', i) ==> InRunLoop(st.streams[s], i))
    ensures Undisturbed(st', s, nulls)
  {
    hide Awaits, InRunLoop, Distinct;
    forall i | 0 <= i < |t'.refs|
      ensures InPlace(t', s, i, st'.registry, st'.attached, st'.scheduled, nulls)
    {
      assert InPlace(st.streams[s], s, i, st.registry, st.attached, st.scheduled, nulls);
    }
    hide Undisturbed;
    OwnStepKeeps(st, st', s, t', nulls);
  }

  lemma OwnActs(st: State, a: Action, s: nat, nulls: bool)
    requires Enabled(st, a) && StepOf(a, s) && s < |st.streams| && Undisturbed(st, s, nulls)
    ensures Undisturbed(Next(st, a), s, nulls)
  {
    var st' := Next(st, a);
    var t := st.streams[s];
    hide Undisturbed, Entered, Erased;
    if a.Register? {
      OwnRegister(st, s, nulls);
    } else if a.Attach? || a.Schedule? || a.Detach? || a.Unschedule? {
      OwnDevice(st, a, s, nulls);
    } else if a.LoadFails? {
      OwnQuiet(st, st', s, t.(phase := Unclaiming), nulls);
    } else {
      OwnQuiet(st, st', s, Stepped(t, if a.Malloc? then a.p else 0), nulls);
    }
  }

  // ----- Starting a call -----

  lemma StartRespects(st: State, devs: seq<nat>, s: nat, nulls: bool)
    requires Enabled(st, Start(devs)) && CanStart(st.handles, devs) && Respects(st, Start(devs), s, nulls)
    requires Undisturbed(st, s, nulls)
    ensures Undisturbed(Next(st, Start(devs)), s, nulls)
  {
    var n := |st.streams|;
    var st' := Next(st, Start(devs));
    var refs := RefsOf(st.handles, devs);
    assert st'.streams == st.streams + [Call(devs, refs, Registering, [], [], |devs|)];
    hide Claimed, Distinct;
    if s < n {
      forall i | 0 <= i < |st.streams[s].refs|
        ensures InPlace(st'.streams[s], s, i, st'.registry, st'.attached, st'.scheduled, nulls)
      {
        assert InPlace(st.streams[s], s, i, st.registry, st.attached, st.scheduled, nulls);
      }
      hide Avoids, InPlace;
    } else if s == n {
      forall z | 0 <= z < n && Active(st.streams[z])
        ensures Avoids(st'.streams[n], st.streams[z].refs, nulls)
      {
        assert forall i :: 0 <= i < |refs| ==> refs[i] in refs;
      }
    }
  }

  /** The call it starts is undisturbed exactly when it shares no device. */
  lemma UnsharedIff(st: State, devs: seq<nat>, nulls: bool)
    requires Enabled(st, Start(devs)) && CanStart(st.handles, devs)
    ensures Unshared(st, devs) <==> Undisturbed(Next(st, Start(devs)), |st.streams|, nulls)
  {
    var n := |st.streams|;
    var st' := Next(st, Start(devs));
    var refs := RefsOf(st.handles, devs);
    assert st'.streams == st.streams + [Call(devs, refs, Registering, [], [], |devs|)];
    hide Claimed, Distinct;
    if Unshared(st, devs) {
      StartRespects(st, devs, n, nulls);
    }
    if Undisturbed(st', n, nulls) {
      forall z, r | 0 <= z < n && Active(st.streams[z]) && r in refs
        ensures r !in st.streams[z].refs
      {
        assert Avoids(st'.streams[n], st'.streams[z].refs, nulls);
        var i :| 0 <= i < |refs| && refs[i] == r;
        assert Awaits(st'.streams[n], i, nulls);
      }
    }
  }

  // ----- Over a run -----

  lemma NextUndisturbed(st: State, a: Action, s: nat, nulls: bool)
    requires Enabled(st, a) && Respects(st, a, s, nulls) && Undisturbed(st, s, nulls)
    ensures Undisturbed(Next(st, a), s, nulls)
  {
    if a.Start? {
      if CanStart(st.handles, a.devs) {
        StartRespects(st, a.devs, s, nulls);
      }
    } else if a.Enumerate? || a.Open? || a.Close? || a.LookUp? || a.HandOver? || a.Handled? {
    } else if s < |st.streams| {
      hide Undisturbed, Enabled, Next, Respects;
      if a.s == s {
        OwnActs(st, a, s, nulls);
      } else {
        OtherActs(st, a, s, a.s, nulls);
      }
    } else {
      SameCalls(st, a);
    }
  }

  lemma SameCalls(st: State, a: Action)
    requires Enabled(st, a) && !a.Start?
    ensures |Next(st, a).streams| == |st.streams|
  {
    hide Stepped, Entered, Erased, Claimed, Kept, FoundRefs, Rejected, Handed;
  }

  lemma {:induction false} RunUndisturbed(st: State, run: seq<Action>, s: nat, nulls: bool)
    requires Respected(st, run, s, nulls) && Execute(st, run).At? && Undisturbed(st, s, nulls)
    ensures Undisturbed(Execute(st, run).state, s, nulls)
    decreases |run|
  {
    hide Undisturbed, Enabled, Next, Respects;
    if run == [] {
    } else {
      NextUndisturbed(st, run[0], s, nulls);
      RunUndisturbed(Next(st, run[0]), run[1..], s, nulls);
    }
  }

  lemma {:induction false} RespectedIsUndisturbed(run: seq<Action>, st: State, s: nat, nulls: bool)
    requires Reached(run, st) && Respected(INIT, run, s, nulls)
    ensures Undisturbed(st, s, nulls)
  {
    hide Respected, Execute;
    RunUndisturbed(INIT, run, s, nulls);
  }

  /** Every callback the s-th call has attached has a registry entry naming its
      own slot; those without a buffer, whose reports are dropped anyway, only if they count. */
  predicate RoutedFor(st: State, s: nat, nulls: bool) {
    forall r :: r in st.attached && st.attached[r].slot.sid == s && (nulls || st.attached[r].ptr != 0) ==>
      InRegistry(st.registry, r, st.attached[r].slot)
  }

  lemma UndisturbedRoutes(st: State, s: nat, nulls: bool)
    requires Undisturbed(st, s, nulls) && AttachedOk(st.streams, st.attached)
    ensures RoutedFor(st, s, nulls)
  {
    forall r | r in st.attached && st.attached[r].slot.sid == s && (nulls || st.attached[r].ptr != 0)
      ensures InRegistry(st.registry, r, st.attached[r].slot)
    {
      var i := st.attached[r].slot.index;
      assert WiredTo(st.streams[s], i, r, st.attached[r].ptr);
      assert InPlace(st.streams[s], s, i, st.registry, st.attached, st.scheduled, nulls);
    }
  }

  /** No other slot of an active call lists a device the call awaits reports from. */
  lemma SlotsDiffer(streams: seq<Stream>, s: nat, i: nat, z: nat, j: nat, nulls: bool)
    requires s < |streams| && z < |streams| && Solo(streams, s, nulls) && (s, i) != (z, j)
    requires Awaits(streams[s], i, nulls) && Active(streams[z]) && i < |streams[s].refs| && j < |streams[z].refs|
    ensures streams[s].refs[i] != streams[z].refs[j]
  {
    if z == s {
      assert Distinct(streams[s].refs);
    } else {
      assert Avoids(streams[s], streams[z].refs, nulls);
    }
  }

  /** A callback for a device with a buffer that a respected call has attached
      runs on that call's own thread and finds that call, as the device it was
      attached for, and no other slot lists the sender. */
  lemma {:induction false} ReportReachesItsStream(run: seq<Action>, st: State, on: nat, ref: Ref, report: Report)
    requires Reached(run, st) && Enabled(st, LookUp(on, ref, report))
    requires Respected(INIT, run, st.attached[ref].slot.sid, false)
    requires report != [] && st.attached[ref].ptr != 0
    ensures var a := st.attached[ref];
      && on == a.slot.sid && a.slot.index < |st.streams[on].devs| && st.streams[on].refs[a.slot.index] == ref
      && Next(st, LookUp(on, ref, report)) ==
          st.(flying := st.flying[on := Flight(ref, a.slot, a.ptr, report, false)])
      && (forall z: nat, i: nat :: z < |st.streams| && Lists(st.streams[z], i, ref) ==> Slot(z, i) == a.slot)
  {
    hide Reached, OpenOk, LedgerOk, CountsOk, HoldsOk, HeapOk, RegistryOk, FlyingOk, Respected, LookedUp;
    var slot := st.attached[ref].slot;
    var s := slot.sid;
    ReachedIsSafe(run, st);
    RespectedIsUndisturbed(run, st, s, false);
    UndisturbedRoutes(st, s, false);
    assert WiredTo(st.streams[s], slot.index, ref, st.attached[ref].ptr);
    OnOwnThread(st, s, slot.index, on, ref);
    forall z: nat, i: nat | z < |st.streams| && Lists(st.streams[z], i, ref)
      ensures Slot(z, i) == slot
    {
      if Slot(z, i) != slot {
        SlotsDiffer(st.streams, s, slot.index, z, i, false);
      }
    }
    LooksUp(st, on, ref, report);
  }

  lemma LooksUp(st: State, on: nat, ref: Ref, report: Report)
    requires Enabled(st, LookUp(on, ref, report)) && report != [] && st.attached[ref].ptr != 0
    requires InRegistry(st.registry, ref, st.attached[ref].slot)
    ensures Next(st, LookUp(on, ref, report)) ==
      st.(flying := st.flying[on := Flight(ref, st.attached[ref].slot, st.attached[ref].ptr, report, false)])
  {}

  /** A thread that pumps a device a call awaits reports from is that call's own. */
  lemma OnOwnThread(st: State, s: nat, i: nat, on: nat, ref: Ref)
    requires s < |st.streams| && Solo(st.streams, s, false) && ScheduledOk(st.streams, st.scheduled)
    requires i < |st.streams[s].refs| && st.streams[s].refs[i] == ref && Awaits(st.streams[s], i, false)
    requires InPhase(st, on, Pumping) && (ref, on) in st.scheduled
    ensures on == s
  {
    assert Schedules(st.streams[on], ref);
    var j :| 0 <= j < |st.streams[on].refs| && InRunLoop(st.streams[on], j) && st.streams[on].refs[j] == ref;
    if on != s {
      SlotsDiffer(st.streams, s, i, on, j, false);
    }
  }

  /** Over any run, each device a respected call awaits reports from has that
      call's own entry, from when it entered them: the end of no other call erases one. */
  lemma {:induction false} PendingEntriesStay(run: seq<Action>, st: State, s: nat, i: nat, nulls: bool)
    requires Reached(run, st) && Respected(INIT, run, s, nulls)
    requires s < |st.streams| && Listening(st.streams[s]) && Awaits(st.streams[s], i, nulls)
    ensures i < |st.streams[s].refs| && InRegistry(st.registry, st.streams[s].refs[i], Slot(s, i))
  {
    hide Reached, Respected;
    RespectedIsUndisturbed(run, st, s, nulls);
    assert InPlace(st.streams[s], s, i, st.registry, st.attached, st.scheduled, nulls);
  }

  /** While a respected call pumps, the callback of each device it awaits
      reports from is in force, with its own buffer, on its own run loop, and may run
      whenever none is running there. */
  lemma {:induction false} PumpingStreamIsConnected(run: seq<Action>, st: State, s: nat, i: nat, nulls: bool)
    requires Reached(run, st) && Respected(INIT, run, s, nulls) && InPhase(st, s, Pumping)
    requires i < |st.streams[s].refs| && (nulls || st.streams[s].bufs[i] != 0)
    ensures var t := st.streams[s];
      && t.refs[i] in st.attached && st.attached[t.refs[i]] == Attachment(t.bufs[i], Slot(s, i))
      && (t.refs[i], s) in st.scheduled
      && (s !in st.flying ==> forall report: Report :: Enabled(st, LookUp(s, t.refs[i], report)))
  {
    hide Reached, Respected;
    RespectedIsUndisturbed(run, st, s, nulls);
    assert InPlace(st.streams[s], s, i, st.registry, st.attached, st.scheduled, nulls);
  }

  /** So a report with bytes is handed over as its i-th device, and whatever
      other threads do after the look-up, the call still pumps then and the bytes are
      still in its own block. */
  lemma {:induction false} PumpingStreamHears(run: seq<Action>, st: State, s: nat, i: nat, report: Report,
                                              between: seq<Action>, st': State)
    requires Reached(run, st) && Respected(INIT, run, s, false) && InPhase(st, s, Pumping) && s !in st.flying
    requires i < |st.streams[s].refs| && st.streams[s].bufs[i] != 0 && report != []
    requires Execute(st, [LookUp(s, st.streams[s].refs[i], report)] + between) == At(st')
    requires HandOver(s) !in between && Handled(s) !in between
    ensures var t := st.streams[s];
      && Enabled(st', HandOver(s))
      && Next(st', HandOver(s)).log == st'.log + [Delivery(Slot(s, i), t.devs[i], report)]
      && s < |st'.streams| && st'.streams[s] == t && st'.flying[s].ptr == t.bufs[i]
      && t.bufs[i] in st'.heap && st'.heap[t.bufs[i]] == Slot(s, i)
  {
    var t, a := st.streams[s], LookUp(s, st.streams[s].refs[i], report);
    hide Respected, Reached, Next;
    PumpingStreamIsConnected(run, st, s, i, false);
    ReportReachesItsStream(run, st, s, t.refs[i], report);
    assert ([a] + between)[1..] == between;
    var mid := Next(st, a);
    hide Execute;
    OneMoreReached(run, st, a);
    HandedAsLookedUp(run + [a], mid, s, between, st');
    StillOwned(run + [a], mid, s, i, between, st');
  }

  lemma OneMoreReached(run: seq<Action>, st: State, a: Action)
    requires Reached(run, st) && Enabled(st, a)
    ensures Reached(run + [a], Next(st, a))
  {
    hide Next, Enabled;
    OneMore(INIT, run, a);
  }

  lemma {:induction false} StillOwned(run: seq<Action>, st: State, s: nat, i: nat, between: seq<Action>, st': State)
    requires Reached(run, st) && InPhase(st, s, Pumping) && s in st.flying && Execute(st, between) == At(st')
    requires HandOver(s) !in between && Handled(s) !in between
    requires i < |st.streams[s].refs| && st.streams[s].bufs[i] != 0
    ensures s < |st'.streams| && st'.streams[s] == st.streams[s] && s in st'.flying && st'.flying[s] == st.flying[s]
    ensures st.streams[s].bufs[i] in st'.heap && st'.heap[st.streams[s].bufs[i]] == Slot(s, i)
  {
    hide OpenOk, LedgerOk, CountsOk, HoldsOk, AttachedOk, ScheduledOk, RegistryOk, FlyingOk, Reached, Execute;
    ReachedIsSafe(run, st);
    EveryRunIsSafe(st, between);
    RunBlocks(st, between, s);
    assert Owns(st'.streams[s], i, st.streams[s].bufs[i]);
  }
}
