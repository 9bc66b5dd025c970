/** Two streams given one device: the run that takes the first one's reports
    away, and the run that calls the second one back after it has returned. */
module HidSharing {
  import opened HidStream
  import opened HidResults

  /** One device found and opened. */
  const FOUND: seq<Action> := [Enumerate([Found(1, true)]), Open(0, true)]

  /** A stream on it, its callback attached, and a second one about to enter the same reference. */
  const SHARED: seq<Action> :=
    FOUND + [Start([0])] + [Register(0)] + [Malloc(0, 7)] + [Attach(0)] + [Schedule(0)] + [Start([0])]

  function Handles(open: bool, streaming: int): seq<Handle> { [Handle(1, open, streaming)] }

  const OPENED: State := State(Handles(true, 0), multiset{1}, multiset{}, [], map[], map[], map[], {}, map[], [])

  function Streaming(phase: Phase, bufs: seq<Ptr>): Call { Call([0], [1], phase, bufs, [], 1) }

  lemma FoundReaches()
    ensures Reached(FOUND, OPENED)
  {
    var s1 := Next(INIT, FOUND[0]);
    assert Kept([Found(1, true)]) == Handles(false, 0) && Rejected([Found(1, true)]) == multiset{} by {
      assert [Found(1, true)][1..] == [];
    }
    assert FoundRefs([Found(1, true)]) == multiset{1} by {
      assert [Found(1, true)][1..] == [];
    }
    assert s1 == State(Handles(false, 0), multiset{1}, multiset{}, [], map[], map[], map[], {}, map[], []);
    assert Next(s1, FOUND[1]) == OPENED;
    assert FOUND[1..] == [Open(0, true)];
    assert FOUND[1..][1..] == [];
  }

  lemma Reaches(run: seq<Action>, st: State, a: Action, st': State)
    requires Reached(run, st) && Enabled(st, a) && Next(st, a) == st'
    ensures Reached(run + [a], st')
  {
    hide Next, Enabled, Execute;
    OneMore(INIT, run, a);
  }

  function Alone(phase: Phase, bufs: seq<Ptr>, registry: map<Ref, Slot>, heap: map<Ptr, Slot>, attached: map<Ref,
                 Attachment>): State
    requires Shaped(Streaming(phase, bufs))
  {
    State(Handles(true, 1), multiset{1}, multiset{}, [Streaming(phase, bufs)], registry, heap, attached, {}, map[], [])
  }

  const ENTRY: map<Ref, Slot> := map[1 := Slot(0, 0)]
  const BLOCK: map<Ptr, Slot> := map[7 := Slot(0, 0)]
  const WIRED: map<Ref, Attachment> := map[1 := Attachment(7, Slot(0, 0))]

  lemma StartStep(st: State)
    requires |st.handles| == 1 && st.handles[0].open && st.handles[0].ref == 1
    ensures Enabled(st, Start([0]))
    ensures Next(st, Start([0])) ==
      st.(handles := [Counted(st.handles[0], 1)], streams := st.streams + [Streaming(Registering, [])])
  {
    assert [0 as nat][1..] == [];
    assert Claimed(st.handles, [0]) == [Counted(st.handles[0], 1)];
    assert RefsOf(st.handles, [0]) == [1];
  }

  const STARTED: State := Alone(Registering, [], map[], map[], map[])
  const ALLOCATING: State := Alone(Setup(0, ToMalloc), [], ENTRY, map[], map[])
  const ATTACHING: State := Alone(Setup(0, ToAttach), [7], ENTRY, BLOCK, map[])
  const ATTACHED: State := Alone(Setup(0, ToSchedule), [7], ENTRY, BLOCK, WIRED)

  lemma RegisterStep()
    ensures Next(STARTED, Register(0)) == ALLOCATING
  {
    assert Entered(map[], [1], 0, 1) == ENTRY;
  }

  lemma MallocStep()
    ensures Next(ALLOCATING, Malloc(0, 7)) == ATTACHING
  {
    assert [] + [7] == [7];
  }

  lemma AttachStep()
    ensures Next(ATTACHING, Attach(0)) == ATTACHED
  {}

  lemma StartFromFound()
    ensures Enabled(OPENED, Start([0])) && Next(OPENED, Start([0])) == STARTED
  {
    StartStep(OPENED);
    assert OPENED.streams + [Streaming(Registering, [])] == [Streaming(Registering, [])];
  }

  lemma SetUpEnabled()
    ensures Enabled(STARTED, Register(0)) && Enabled(ALLOCATING, Malloc(0, 7)) && Enabled(ATTACHING, Attach(0))
  {}

  lemma AloneReaches()
    ensures Reached(FOUND + [Start([0])] + [Register(0)] + [Malloc(0, 7)] + [Attach(0)], ATTACHED)
  {
    hide *;
    FoundReaches();
    StartFromFound();
    SetUpEnabled();
    RegisterStep();
    MallocStep();
    AttachStep();
    Reaches(FOUND, OPENED, Start([0]), STARTED);
    Reaches(FOUND + [Start([0])], STARTED, Register(0), ALLOCATING);
    Reaches(FOUND + [Start([0])] + [Register(0)], ALLOCATING, Malloc(0, 7), ATTACHING);
    Reaches(FOUND + [Start([0])] + [Register(0)] + [Malloc(0, 7)], ATTACHING, Attach(0), ATTACHED);
  }

  /** Both streams, the first one pumping. */
  const BOTH: State := State(
    Handles(true, 2), multiset{1}, multiset{}, [Streaming(Pumping, [7]), Streaming(Registering, [])],
    ENTRY, BLOCK, WIRED, {(1, 0)}, map[], [])

  lemma BothReached()
    ensures Reached(SHARED, BOTH)
  {
    AloneReaches();
    var run := FOUND + [Start([0])] + [Register(0)] + [Malloc(0, 7)] + [Attach(0)];
    var pumping := Next(ATTACHED, Schedule(0));
    assert pumping.streams == [Streaming(Pumping, [7])];
    StartStep(pumping);
    assert Next(pumping, Start([0])) == BOTH;
    hide Reached, Next;
    Reaches(run, ATTACHED, Schedule(0), pumping);
    Reaches(run + [Schedule(0)], pumping, Start([0]), BOTH);
  }

  /** Both streams, the first one pumping, the second one as given. */
  function Beside(t: Call, streaming: int, registry: map<Ref, Slot>, heap: map<Ptr, Slot>,
                  attached: map<Ref, Attachment>, scheduled: set<(Ref, nat)>, flying: map<nat, Flight>): State
    requires Shaped(t)
  {
    State(Handles(true, streaming), multiset{1}, multiset{}, [Streaming(Pumping, [7]), t],
          registry, heap, attached, scheduled, flying, [])
  }

  const TAKEN: map<Ref, Slot> := map[1 := Slot(1, 0)]
  const BLOCKS: map<Ptr, Slot> := map[7 := Slot(0, 0), 8 := Slot(1, 0)]
  const REWIRED: map<Ref, Attachment> := map[1 := Attachment(8, Slot(1, 0))]

  const ENTERED: State := Beside(Streaming(Setup(0, ToMalloc), []), 2, TAKEN, BLOCK, WIRED, {(1, 0)}, map[])

  lemma SecondRegisters()
    ensures Enabled(BOTH, Register(1)) && Next(BOTH, Register(1)) == ENTERED
  {
    assert Entered(ENTRY, [1], 1, 1) == TAKEN;
  }

  /** Two streams may be given the same open device, and when the second enters
      it, the first one's reports go to the second although the first still pumps. */
  lemma SharedDeviceIsTaken(report: Report)
    requires report != []
    ensures Reached(SHARED, BOTH) && Routed(BOTH) && Enabled(BOTH, Register(1))
    ensures var st := Next(BOTH, Register(1));
      && !Routed(st) && InPhase(st, 0, Pumping) && Enabled(st, LookUp(0, 1, report))
      && var found := Next(st, LookUp(0, 1, report));
      && Enabled(found, HandOver(0)) && Next(found, HandOver(0)).log == [Delivery(Slot(1, 0), 0, report)]
  {
    EnteredTakes(report);
    assert Routed(BOTH);
    hide *;
    BothReached();
    SecondRegisters();
  }

  lemma EnteredTakes(report: Report)
    requires report != []
    ensures !Routed(ENTERED) && InPhase(ENTERED, 0, Pumping) && Enabled(ENTERED, LookUp(0, 1, report))
    ensures var found := Next(ENTERED, LookUp(0, 1, report));
      && Enabled(found, HandOver(0)) && Next(found, HandOver(0)).log == [Delivery(Slot(1, 0), 0, report)]
  {
    assert 1 in ENTERED.attached && ENTERED.attached[1].slot == Slot(0, 0) && ENTERED.registry[1] == Slot(1, 0);
  }

  // ----- A call that has returned is called back -----

  const OVERLAPPING: seq<Action> := SHARED + [Register(1)] + [Malloc(1, 8)] + [Attach(1)] + [Schedule(1)]

  /** Both pump, and what the device reports is the second one's. */
  const OVERLAPPED: State := Beside(Streaming(Pumping, [8]), 2, TAKEN, BLOCKS, REWIRED, {(1, 0), (1, 1)}, map[])

  lemma OverlapReached()
    ensures Reached(OVERLAPPING, OVERLAPPED)
  {
    BothReached();
    SecondRegisters();
    SecondSetsUp();
    var run := SHARED + [Register(1)] + [Malloc(1, 8)] + [Attach(1)] + [Schedule(1)];
    assert OVERLAPPING == run;
    hide *;
    Reaches(SHARED, BOTH, Register(1), ENTERED);
    Reaches(SHARED + [Register(1)], ENTERED, Malloc(1, 8), Allocated());
    Reaches(SHARED + [Register(1)] + [Malloc(1, 8)], Allocated(), Attach(1), Rewired());
    Reaches(SHARED + [Register(1)] + [Malloc(1, 8)] + [Attach(1)], Rewired(), Schedule(1), OVERLAPPED);
  }

  function Allocated(): State {
    Beside(Streaming(Setup(0, ToAttach), [8]), 2, TAKEN, BLOCKS, WIRED, {(1, 0)}, map[])
  }

  function Rewired(): State {
    Beside(Streaming(Setup(0, ToSchedule), [8]), 2, TAKEN, BLOCKS, REWIRED, {(1, 0)}, map[])
  }

  lemma SecondSetsUp()
    ensures Enabled(ENTERED, Malloc(1, 8)) && Next(ENTERED, Malloc(1, 8)) == Allocated()
    ensures Enabled(Allocated(), Attach(1)) && Next(Allocated(), Attach(1)) == Rewired()
    ensures Enabled(Rewired(), Schedule(1)) && Next(Rewired(), Schedule(1)) == OVERLAPPED
  {
    assert BLOCK[8 := Slot(1, 0)] == BLOCKS;
    assert [] + [8] == [8];
    assert WIRED[1 := Attachment(8, Slot(1, 0))] == REWIRED;
  }

  /** A callback on the first one's thread that was found to go to the second. */
  function Astray(report: Report): map<nat, Flight> { map[0 := Flight(1, Slot(1, 0), 8, report, false)] }

  /** The second stream on its way out, with that callback in flight. */
  function Leaving(phase: Phase, freed: seq<Ptr>, registry: map<Ref, Slot>, heap: map<Ptr, Slot>,
                   attached: map<Ref, Attachment>, scheduled: set<(Ref, nat)>, report: Report): State
    requires Shaped(Call([0], [1], phase, [8], freed, 1))
  {
    Beside(Call([0], [1], phase, [8], freed, 1), 2, registry, heap, attached, scheduled, Astray(report))
  }

  /** It has returned, and only the first one is left. */
  function Left(report: Report): State {
    Beside(Call([0], [1], Unclaiming, [8], [8], 0), 1, map[], BLOCK, map[], {(1, 0)}, Astray(report))
  }

  const LEAVE: seq<Action> :=
    [Cancel(1)] + [Detach(1)] + [Unschedule(1)] + [Free(1)] + [Unregister(1)] + [Unclaim(1)]

  function Flying(report: Report): State {
    Leaving(Pumping, [], TAKEN, BLOCKS, REWIRED, {(1, 0), (1, 1)}, report)
  }

  function Cancelled(report: Report): State {
    Leaving(Teardown(0, ToDetach), [], TAKEN, BLOCKS, REWIRED, {(1, 0), (1, 1)}, report)
  }

  function Detached(report: Report): State {
    Leaving(Teardown(0, ToUnschedule), [], TAKEN, BLOCKS, map[], {(1, 0), (1, 1)}, report)
  }

  function Unscheduled(report: Report): State {
    Leaving(Teardown(0, ToFree), [], TAKEN, BLOCKS, map[], {(1, 0)}, report)
  }

  function Freed(report: Report): State { Leaving(Unregistering, [8], TAKEN, BLOCK, map[], {(1, 0)}, report) }

  function Erasing(report: Report): State { Leaving(Unclaiming, [8], map[], BLOCK, map[], {(1, 0)}, report) }

  lemma Finds(report: Report)
    requires report != []
    ensures Enabled(OVERLAPPED, LookUp(0, 1, report)) && Next(OVERLAPPED, LookUp(0, 1, report)) == Flying(report)
  {
    assert map[][0 := Flight(1, Slot(1, 0), 8, report, false)] == Astray(report);
  }

  lemma Cancels(report: Report)
    ensures Enabled(Flying(report), Cancel(1)) && Next(Flying(report), Cancel(1)) == Cancelled(report)
  {}

  lemma Detaches(report: Report)
    ensures Enabled(Cancelled(report), Detach(1)) && Next(Cancelled(report), Detach(1)) == Detached(report)
  {
    assert REWIRED - {1} == map[];
  }

  lemma Unschedules(report: Report)
    ensures Enabled(Detached(report), Unschedule(1)) && Next(Detached(report), Unschedule(1)) == Unscheduled(report)
  {
    assert {(1 as Ref, 0 as nat), (1, 1)} - {(1, 1)} == {(1, 0)};
  }

  lemma Frees(report: Report)
    ensures Enabled(Unscheduled(report), Free(1)) && Next(Unscheduled(report), Free(1)) == Freed(report)
  {
    assert BLOCKS - {8} == BLOCK;
    assert [] + [8] == [8];
  }

  lemma Erases(report: Report)
    ensures Enabled(Freed(report), Unregister(1)) && Next(Freed(report), Unregister(1)) == Erasing(report)
  {
    assert Erased(TAKEN, [1]) == map[];
  }

  lemma Unclaims(report: Report)
    ensures Enabled(Erasing(report), Unclaim(1)) && Next(Erasing(report), Unclaim(1)) == Left(report)
  {}

  /** While a callback that was found to go to the second stream is in flight on
      the first one's thread, the second may cancel, tear down, free its buffer and
      return. The callback then calls its handler, with bytes of the freed block. */
  lemma ReturnedCallIsCalledBack(report: Report)
    requires report != []
    ensures Reached(OVERLAPPING + [LookUp(0, 1, report)] + LEAVE, Left(report))
    ensures var st := Left(report);
      && InPhase(st, 1, Unclaiming) && st.streams[1].claims == 0
      && Enabled(st, HandOver(0)) && st.flying[0].ptr == 8 && 8 !in st.heap
      && Next(st, HandOver(0)).log == [Delivery(Slot(1, 0), 0, report)]
  {
    LeavesWhileFlying(report);
    hide Reached;
    assert [] + Handed(Left(report).streams, Slot(1, 0), report) == [Delivery(Slot(1, 0), 0, report)];
  }

  lemma LeavesWhileFlying(report: Report)
    requires report != []
    ensures Reached(OVERLAPPING + [LookUp(0, 1, report)] + LEAVE, Left(report))
  {
    var found := OVERLAPPING + [LookUp(0, 1, report)];
    var out := found + [Cancel(1)] + [Detach(1)];
    var freed := out + [Unschedule(1)] + [Free(1)];
    assert found + LEAVE == freed + [Unregister(1)] + [Unclaim(1)];
    hide *;
    OverlapReached();
    Finds(report);
    Reaches(OVERLAPPING, OVERLAPPED, LookUp(0, 1, report), Flying(report));
    Cancels(report);
    Reaches(found, Flying(report), Cancel(1), Cancelled(report));
    Detaches(report);
    Reaches(found + [Cancel(1)], Cancelled(report), Detach(1), Detached(report));
    Unschedules(report);
    Reaches(out, Detached(report), Unschedule(1), Unscheduled(report));
    Frees(report);
    Reaches(out + [Unschedule(1)], Unscheduled(report), Free(1), Freed(report));
    Erases(report);
    Reaches(freed, Freed(report), Unregister(1), Erasing(report));
    Unclaims(report);
    Reaches(freed + [Unregister(1)], Erasing(report), Unclaim(1), Left(report));
  }
}
