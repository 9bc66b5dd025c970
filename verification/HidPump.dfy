/** One whole call of darwinStream: its two loops and its deferred teardown run
    the steps of the state machine, in order. */
module HidPump {
  import opened HidStream
  import opened HidSafety
  import opened HidResults
  import opened Wrappers

  /** The process as the foreign calls see it. The run records every step since the start. */
  class Process {
    var st: State
    ghost var run: seq<Action>

    ghost predicate Valid()
      reads this
    {
      Reached(run, st)
    }

    constructor ()
      ensures Valid() && st == INIT && run == []
    {
      st, run := INIT, [];
    }

    /** One foreign call, or one critical section of the registry lock. */
    method Do(a: Action)
      requires Valid() && Enabled(st, a)
      modifies this
      ensures Valid() && st == Next(old(st), a) && run == old(run) + [a]
    {
      OneMore(INIT, run, a);
      st := Next(st, a);
      run := run + [a];
    }

    /** malloc answers with null or with any block that is not live. */
    method Allocate(s: nat) returns (p: Ptr)
      requires Valid() && InSetup(st, s, ToMalloc)
      modifies this
      ensures Valid() && Enabled(old(st), Malloc(s, p))
      ensures st == Next(old(st), Malloc(s, p)) && run == old(run) + [Malloc(s, p)]
    {
      ReachedIsSafe(run, st);
      p := *;
      if p in st.heap { p := 0; }
      Do(Malloc(s, p));
    }

    /** What the other threads do in a gap of this one. */
    method Others(between: seq<Action>)
      requires Valid() && Execute(st, between).At?
      modifies this
      ensures Valid() && run == old(run) + between && Execute(old(st), between) == At(st)
    {
      hide Reached, Next, Enabled;
      for k := 0 to |between|
        invariant Valid() && run == old(run) + between[..k]
        invariant Execute(st, between[k..]) == Execute(old(st), between)
      {
        assert between[k..][1..] == between[k + 1..];
        assert between[..k] + [between[k]] == between[..k + 1];
        Do(between[k]);
      }
      assert between[..|between|] == between && between[|between|..] == [];
    }

    /** The part of the callback under the registry lock, and the tests before it. */
    method Find(on: nat, sender: Ref, report: Report) returns (target: Option<Slot>)
      requires Valid() && Enabled(st, LookUp(on, sender, report))
      modifies this
      ensures Valid() && target == Target(old(st), sender, report)
      ensures st == Next(old(st), LookUp(on, sender, report)) && run == old(run) + [LookUp(on, sender, report)]
    {
      OneMore(INIT, run, LookUp(on, sender, report));
      run := run + [LookUp(on, sender, report)];
      if |report| == 0 || st.attached[sender].ptr == 0 { return None; }
      if sender !in st.registry { return None; }
      target := Some(st.registry[sender]);
      st := st.(flying := st.flying[on := Flight(sender, target.value, st.attached[sender].ptr, report, false)]);
    }

    /** The call of the handler that was found, and its return; the index is one of the devices of its call. */
    method Deliver(on: nat)
      requires Valid() && Enabled(st, HandOver(on))
      modifies this
      ensures Valid() && run == old(run) + [HandOver(on)] + [Handled(on)]
      ensures var f := old(st).flying[on];
        && f.slot.sid < |old(st).streams| && f.slot.index < |old(st).streams[f.slot.sid].devs|
        && st == old(st).(flying := old(st).flying - {on},
                          log := old(st).log +
                            [Delivery(f.slot, old(st).streams[f.slot.sid].devs[f.slot.index], f.report)])
    {
      var f := st.flying[on];
      FlightNames(run, st, on);
      HandsOver(st, on);
      assert f.slot.sid < |st.streams| && f.slot.index < |st.streams[f.slot.sid].devs|;
      hide *;
      OneMore(INIT, run, HandOver(on));
      OneMore(INIT, run + [HandOver(on)], Handled(on));
      run := run + [HandOver(on)] + [Handled(on)];
      var device := st.streams[f.slot.sid].devs[f.slot.index];
      st := st.(log := st.log + [Delivery(f.slot, device, f.report)], flying := st.flying - {on});
    }

    /** The shared callback, on the thread that pumps: it drops what has no bytes,
        no buffer or no entry. Having let go of the registry lock it hands the report to
        the handler it found, whatever the other threads have done meanwhile. */
    method InputCallback(on: nat, sender: Ref, report: Report, between: seq<Action>)
      requires Valid() && Enabled(st, LookUp(on, sender, report))
      requires Execute(Next(st, LookUp(on, sender, report)), between).At?
      requires HandOver(on) !in between && Handled(on) !in between
      modifies this
      ensures Valid()
      ensures match Target(old(st), sender, report)
              case None => st == old(st) && run == old(run) + [LookUp(on, sender, report)]
              case Some(target) =>
                var met := Execute(Next(old(st), LookUp(on, sender, report)), between).state;
                var calls := old(st).streams;
                && run == old(run) + [LookUp(on, sender, report)] + between + [HandOver(on)] + [Handled(on)]
                && target.sid < |calls| && target.index < |calls[target.sid].devs|
                && st == met.(flying := met.flying - {on},
                              log := met.log + [Delivery(target, calls[target.sid].devs[target.index], report)])
    {
      ghost var before, past := st, run;
      LookUpFindsListener(run, st, on, sender, report);
      var target := Find(on, sender, report);
      if target.None? { return; }
      ghost var found := st;
      hide Reached, Target, Next, Execute, Enabled;
      CallsStay(past + [LookUp(on, sender, report)], before, found, on, between);
      Others(between);
      Deliver(on);
    }
  }

  /** Between look-up and hand-over the flight stays, and no call changes its devices. */
  lemma {:induction false} CallsStay(run: seq<Action>, before: State, st: State, on: nat, between: seq<Action>)
    requires Reached(run, st) && on in st.flying && !st.flying[on].handed && st.streams == before.streams
    requires Execute(st, between).At? && HandOver(on) !in between && Handled(on) !in between
    ensures var met := Execute(st, between).state;
      && Enabled(met, HandOver(on)) && met.flying[on] == st.flying[on] && |before.streams| <= |met.streams|
      && forall z :: 0 <= z < |before.streams| ==> met.streams[z].devs == before.streams[z].devs
  {
    hide Safe, Reached, Execute, Shaped;
    ReachedIsSafe(run, st);
    RunBlocks(st, between, on);
  }

  lemma FlightNames(run: seq<Action>, st: State, on: nat)
    requires Reached(run, st) && on in st.flying
    ensures Names(st.streams, st.flying[on].slot, st.flying[on].ref)
  {
    ReachedIsSafe(run, st);
    hide CallsOk;
  }

  lemma HandsOver(st: State, on: nat)
    requires on in st.flying && !st.flying[on].handed && Names(st.streams, st.flying[on].slot, st.flying[on].ref)
    ensures var f, mid := st.flying[on], Next(st, HandOver(on));
      && Enabled(mid, Handled(on))
      && Next(mid, Handled(on)) ==
          st.(flying := st.flying - {on},
              log := st.log + [Delivery(f.slot, st.streams[f.slot.sid].devs[f.slot.index], f.report)])
  {
    assert (st.flying[on := st.flying[on].(handed := true)]) - {on} == st.flying - {on};
  }

  // ----- The order of the foreign calls -----

  function SetupOf(s: nat, bufs: seq<Ptr>): seq<Action> {
    if bufs == [] then []
    else SetupOf(s, bufs[..|bufs| - 1]) + [Malloc(s, bufs[|bufs| - 1]), Attach(s), Schedule(s)]
  }

  function TeardownOf(s: nat, n: nat): seq<Action> {
    if n == 0 then [] else TeardownOf(s, n - 1) + [Detach(s), Unschedule(s), Free(s)]
  }

  /** What one call does, given what malloc answered: every device is set up
      before the pump starts, and every callback is detached before its buffer is freed. */
  function CallOf(s: nat, bufs: seq<Ptr>): seq<Action> {
    [Register(s)] + SetupOf(s, bufs) + [Cancel(s)] + TeardownOf(s, |bufs|) + [Unregister(s)]
  }

  predicate OthersKept(before: State, after: State, s: nat) {
    && after.handles == before.handles && after.retained == before.retained && after.released == before.released
    && |after.streams| == |before.streams| && after.flying == before.flying && after.log == before.log
    && forall z :: 0 <= z < |before.streams| && z != s ==> after.streams[z] == before.streams[z]
  }

  predicate SameCall(t: Stream, t': Stream) {
    t'.devs == t.devs && t'.refs == t.refs && t'.claims == t.claims
  }

  /** The set-up of one device. */
  method SetUp(proc: Process, s: nat) returns (p: Ptr)
    requires proc.Valid() && InSetup(proc.st, s, ToMalloc)
    modifies proc
    ensures proc.Valid() && proc.run == old(proc.run) + [Malloc(s, p), Attach(s), Schedule(s)]
    ensures OthersKept(old(proc.st), proc.st, s) && SameCall(old(proc.st).streams[s], proc.st.streams[s])
    ensures var t, t' := old(proc.st).streams[s], proc.st.streams[s];
      && t'.bufs == t.bufs + [p]
      && t'.phase == if t.phase.at + 1 < |t.refs| then Setup(t.phase.at + 1, ToMalloc) else Pumping
  {
    p := proc.Allocate(s);
    proc.Do(Attach(s));
    proc.Do(Schedule(s));
  }

  /** The teardown of one device: detach, unschedule, and only then free. */
  method TearDown(proc: Process, s: nat)
    requires proc.Valid() && InTeardown(proc.st, s, ToDetach)
    modifies proc
    ensures proc.Valid() && proc.run == old(proc.run) + [Detach(s), Unschedule(s), Free(s)]
    ensures OthersKept(old(proc.st), proc.st, s) && SameCall(old(proc.st).streams[s], proc.st.streams[s])
    ensures var t, t' := old(proc.st).streams[s], proc.st.streams[s];
      && t'.bufs == t.bufs
      && t'.phase == if t.phase.at + 1 < |t.refs| then Teardown(t.phase.at + 1, ToDetach) else Unregistering
  {
    proc.Do(Detach(s));
    proc.Do(Unschedule(s));
    proc.Do(Free(s));
  }

  /** A whole call, from the point where its references are about to be entered:
      it makes exactly the calls of CallOf, frees every buffer it was given, leaves no
      trace, and touches no other stream. */
  method DarwinStream(proc: Process, s: nat) returns (bufs: seq<Ptr>)
    requires proc.Valid() && InPhase(proc.st, s, Registering)
    modifies proc
    ensures proc.Valid() && |bufs| == |old(proc.st).streams[s].refs|
    ensures proc.run == old(proc.run) + CallOf(s, bufs)
    ensures OthersKept(old(proc.st), proc.st, s) && SameCall(old(proc.st).streams[s], proc.st.streams[s])
    ensures InPhase(proc.st, s, Unclaiming) && proc.st.streams[s].freed == bufs
    ensures forall p :: p in proc.st.heap ==> proc.st.heap[p].sid != s
    ensures forall r :: r in proc.st.attached ==> proc.st.attached[r].slot.sid != s
    ensures forall r :: r in proc.st.registry ==> proc.st.registry[r].sid != s
    ensures forall e :: e in proc.st.scheduled ==> e.1 != s
  {
    Grounded(proc.run, proc.st, s);
    hide Reached, Next, Entered, Erased, Safe;
    bufs := EnterAndSetUp(proc, s);
    label pumping:
    ghost var before := proc.run;
    RunTeardown(proc, s, bufs);
    assert proc.run == old(proc.run) + CallOf(s, bufs) by {
      var start := old(proc.run);
      assert before == start + ([Register(s)] + SetupOf(s, bufs));
      assert start + ([Register(s)] + SetupOf(s, bufs)) + ([Cancel(s)] + TeardownOf(s, |bufs|) + [Unregister(s)])
          == start + ([Register(s)] + SetupOf(s, bufs) + [Cancel(s)] + TeardownOf(s, |bufs|) + [Unregister(s)]);
    }
    ReturnLeavesNothing(proc.run, proc.st, s);
  }

  lemma Grounded(run: seq<Action>, st: State, s: nat)
    requires Reached(run, st) && InPhase(st, s, Registering)
    ensures s !in st.flying
  {
    ReachedIsSafe(run, st);
    hide CallsOk;
  }

  method EnterAndSetUp(proc: Process, s: nat) returns (bufs: seq<Ptr>)
    requires proc.Valid() && InPhase(proc.st, s, Registering)
    modifies proc
    ensures proc.Valid() && InPhase(proc.st, s, Pumping) && proc.st.streams[s].bufs == bufs
    ensures proc.run == old(proc.run) + ([Register(s)] + SetupOf(s, bufs))
    ensures OthersKept(old(proc.st), proc.st, s) && SameCall(old(proc.st).streams[s], proc.st.streams[s])
  {
    hide Reached;
    proc.Do(Register(s));
    hide Next;
    bufs := [];
    var refs := proc.st.streams[s].refs;
    for i := 0 to |refs|
      invariant proc.Valid() && proc.run == old(proc.run) + ([Register(s)] + SetupOf(s, bufs))
      invariant OthersKept(old(proc.st), proc.st, s) && SameCall(old(proc.st).streams[s], proc.st.streams[s])
      invariant |bufs| == i && proc.st.streams[s].bufs == bufs
      invariant proc.st.streams[s].phase == if i < |refs| then Setup(i, ToMalloc) else Pumping
    {
      var p := SetUp(proc, s);
      assert (bufs + [p])[..i] == bufs;
      assert old(proc.run) + ([Register(s)] + SetupOf(s, bufs)) + [Malloc(s, p), Attach(s), Schedule(s)]
          == old(proc.run) + ([Register(s)] + (SetupOf(s, bufs) + [Malloc(s, p), Attach(s), Schedule(s)]));
      bufs := bufs + [p];
    }
  }

  method RunTeardown(proc: Process, s: nat, bufs: seq<Ptr>)
    requires proc.Valid() && InPhase(proc.st, s, Pumping) && proc.st.streams[s].bufs == bufs
    requires s !in proc.st.flying
    modifies proc
    ensures proc.Valid() && InPhase(proc.st, s, Unclaiming) && proc.st.streams[s].freed == bufs
    ensures proc.run == old(proc.run) + ([Cancel(s)] + TeardownOf(s, |bufs|) + [Unregister(s)])
    ensures OthersKept(old(proc.st), proc.st, s) && SameCall(old(proc.st).streams[s], proc.st.streams[s])
  {
    hide Reached;
    proc.Do(Cancel(s));
    hide Next;
    for i := 0 to |bufs|
      invariant proc.Valid() && proc.run == old(proc.run) + ([Cancel(s)] + TeardownOf(s, i))
      invariant OthersKept(old(proc.st), proc.st, s) && SameCall(old(proc.st).streams[s], proc.st.streams[s])
      invariant proc.st.streams[s].bufs == bufs
      invariant proc.st.streams[s].phase == if i < |bufs| then Teardown(i, ToDetach) else Unregistering
    {
      TearDown(proc, s);
      assert old(proc.run) + ([Cancel(s)] + TeardownOf(s, i)) + [Detach(s), Unschedule(s), Free(s)]
          == old(proc.run) + ([Cancel(s)] + (TeardownOf(s, i) + [Detach(s), Unschedule(s), Free(s)]));
    }
    FinishCall(proc, s);
  }

  method FinishCall(proc: Process, s: nat)
    requires proc.Valid() && InPhase(proc.st, s, Unregistering)
    modifies proc
    ensures proc.Valid() && InPhase(proc.st, s, Unclaiming) && proc.run == old(proc.run) + [Unregister(s)]
    ensures OthersKept(old(proc.st), proc.st, s) && SameCall(old(proc.st).streams[s], proc.st.streams[s])
    ensures proc.st.streams[s].freed == old(proc.st).streams[s].bufs
  {
    hide Reached;
    proc.Do(Unregister(s));
  }
}
