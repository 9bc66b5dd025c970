/** What a handler relies on while it runs: that it is called on the thread of
    its own call of Stream, which still pumps, and that the bytes stay allocated. */
module HidCallbacks {
  import opened HidStream
  import opened HidSafety
  import opened HidResults
  import opened HidDiscipline
  import opened Wrappers

  /** The call pumps, or may still come to. */
  predicate MayPump(t: Stream) { t.phase == Registering || Runs(t) }

  /** The call has entered its references and not begun its teardown. */
  predicate Runs(t: Stream) { t.phase.Setup? || t.phase == Pumping }

  predicate Apart(a: seq<Ref>, b: seq<Ref>) { forall r :: r in a ==> r !in b }

  /** What a caller of Stream can see beforehand: none of the devices listed is
      in a call that has not begun its teardown. */
  predicate Unpumped(st: State, devs: seq<nat>)
    requires AllHandles(st.handles, devs)
  {
    forall z :: 0 <= z < |st.streams| && MayPump(st.streams[z]) ==> Apart(RefsOf(st.handles, devs), st.streams[z].refs)
  }

  /** A start that is not refused spares the callbacks of the s-th call when it
      is that call and none of its devices may be pumped elsewhere, or lists none of its
      devices while that call has yet to enter them. */
  predicate Curbs(st: State, a: Action, s: nat)
    requires Enabled(st, a)
  {
    a.Start? && CanStart(st.handles, a.devs) ==>
      if s == |st.streams| then Unpumped(st, a.devs)
      else s < |st.streams| && st.streams[s].phase == Registering ==>
        Apart(RefsOf(st.handles, a.devs), st.streams[s].refs)
  }

  predicate Curbed(st: State, run: seq<Action>, s: nat)
    decreases |run|
  {
    run == [] || (Enabled(st, run[0]) ==> Curbs(st, run[0], s) && Curbed(Next(st, run[0]), run[1..], s))
  }

  /** The callback on a thread was found to go to the call that pumps on that
      very thread, and its bytes are in a live block of that call. */
  predicate Sound(st: State, z: nat)
    requires z in st.flying
  {
    var f := st.flying[z];
    f.slot.sid == z && InPhase(st, z, Pumping) && f.ptr in st.heap && st.heap[f.ptr].sid == z
  }

  /** Every callback that was found to go to the s-th call is sound. */
  predicate SoundFor(st: State, s: nat) {
    forall z :: z in st.flying && st.flying[z].slot.sid == s ==> Sound(st, z)
  }

  // ----- What keeps callbacks sound -----

  /** Until the call has entered its references, no other that may pump lists one. */
  predicate Unrivalled(streams: seq<Stream>, s: nat)
    requires s < |streams|
  {
    streams[s].phase == Registering ==>
      forall z :: 0 <= z < |streams| && z != s && MayPump(streams[z]) ==> Apart(streams[z].refs, streams[s].refs)
  }

  /** No other call that runs lists a device whose entry names the call. */
  predicate Strangers(streams: seq<Stream>, registry: map<Ref, Slot>, s: nat) {
    forall z, r :: 0 <= z < |streams| && z != s && Runs(streams[z]) && r in streams[z].refs && r in registry ==>
      registry[r].sid != s
  }

  /** The call has attached the callback of its device i, and not begun its teardown. */
  predicate Installed(t: Stream, i: nat) { Runs(t) && Wired(t, i) }

  /** A device of the call that it has attached and whose entry names it has a buffer of the call. */
  predicate OwnBuffers(t: Stream, s: nat, registry: map<Ref, Slot>, attached: map<Ref, Attachment>) {
    forall i ::
      (0 <= i < |t.refs| && Installed(t, i) && t.refs[i] in registry && registry[t.refs[i]].sid == s &&
       t.refs[i] in attached) ==> attached[t.refs[i]].slot.sid == s
  }

  predicate Fenced(st: State, s: nat) {
    s < |st.streams| ==>
      && Unrivalled(st.streams, s) && Strangers(st.streams, st.registry, s)
      && OwnBuffers(st.streams[s], s, st.registry, st.attached) && SoundFor(st, s)
  }

  lemma StepsOn(st: State, a: Action, z: nat)
    requires Enabled(st, a) && StepOf(a, z)
    ensures z < |st.streams| && (MayPump(After(st, a, z)) ==> MayPump(st.streams[z]))
    ensures Runs(After(st, a, z)) ==> Runs(st.streams[z]) || a == Register(z)
  {}

  lemma UnrivalledStep(streams: seq<Stream>, s: nat, z: nat, t: Stream)
    requires s < |streams| && z < |streams| && Unrivalled(streams, s) && t.refs == streams[z].refs
    requires (MayPump(t) ==> MayPump(streams[z])) && t.phase != Registering
    ensures Unrivalled(streams[z := t], s)
  {
    hide Apart;
  }

  /** What a step does to the registry, as far as entries for the call go. */
  lemma StrangersStep(st: State, a: Action, s: nat, z: nat)
    requires Enabled(st, a) && StepOf(a, z) && s < |st.streams|
    requires Unrivalled(st.streams, s) && Strangers(st.streams, st.registry, s)
    ensures Strangers(Next(st, a).streams, Next(st, a).registry, s)
  {
    StepsOne(st, a, z);
    StepsOn(st, a, z);
    var st' := Next(st, a);
    forall y, r | 0 <= y < |st'.streams| && y != s && Runs(st'.streams[y]) && r in st'.streams[y].refs
                  && r in st'.registry
      ensures st'.registry[r].sid != s
    {
      EntryAfter(st, a, z, r);
      if a.Register? && z == s {
        assert Apart(st.streams[y].refs, st.streams[s].refs);
      }
    }
  }

  /** An entry after a step is new, for a reference of the call that entered it, or as it was. */
  lemma {:induction false} EntryAfter(st: State, a: Action, z: nat, r: Ref)
    requires Enabled(st, a) && StepOf(a, z) && r in Next(st, a).registry
    ensures var e := Next(st, a).registry[r];
      if a.Register? && r in st.streams[z].refs then e.sid == z else r in st.registry && e == st.registry[r]
  {
    if a.Register? {
      var refs := st.streams[z].refs;
      assert refs[..|refs|] == refs;
      EnteredOnly(st.registry, refs, z, |refs|, r);
      if r in refs {
        EnteredListed(st.registry, refs, z, |refs|, r);
      }
    }
    hide Entered;
  }

  lemma OwnBuffersStep(st: State, a: Action, s: nat, z: nat)
    requires Enabled(st, a) && StepOf(a, z) && s < |st.streams|
    requires Strangers(st.streams, st.registry, s) && OwnBuffers(st.streams[s], s, st.registry, st.attached)
    ensures OwnBuffers(Next(st, a).streams[s], s, Next(st, a).registry, Next(st, a).attached)
  {
    StepsOne(st, a, z);
    var st' := Next(st, a);
    var t, t' := st.streams[s], st'.streams[s];
    forall i | 0 <= i < |t'.refs| && Installed(t', i) && t'.refs[i] in st'.registry
               && st'.registry[t'.refs[i]].sid == s && t'.refs[i] in st'.attached
      ensures st'.attached[t'.refs[i]].slot.sid == s
    {
      EntryAfter(st, a, z, t'.refs[i]);
      InstalledAfter(st, a, s, z, i);
      hide Installed, Entered, Erased;
    }
  }

  lemma InstalledAfter(st: State, a: Action, s: nat, z: nat, i: nat)
    requires Enabled(st, a) && StepOf(a, z) && s < |st.streams| && Installed(Next(st, a).streams[s], i)
    ensures s == z ==> a != Register(s)
    ensures Installed(st.streams[s], i) || (a == Attach(s) && i == st.streams[s].phase.at)
  {
    StepsOne(st, a, z);
    hide Entered, Erased;
  }

  /** A step of one call leaves the live blocks of another live, and its own while it pumps. */
  lemma BlocksStay(st: State, a: Action, z: nat, p: Ptr)
    requires Enabled(st, a) && StepOf(a, z) && HeapOk(st.streams, st.heap) && p in st.heap
    requires st.heap[p].sid != z || st.streams[z].phase == Pumping
    ensures p in Next(st, a).heap && Next(st, a).heap[p] == st.heap[p]
  {
    if a.Free? {
      FreesOwn(st, z);
    } else {
      hide HeapOk, Entered, Erased, Stepped, Shaped;
    }
  }

  /** What a call frees is null or a live block of its own. */
  lemma FreesOwn(st: State, z: nat)
    requires Enabled(st, Free(z)) && HeapOk(st.streams, st.heap)
    ensures forall p :: p in st.heap && st.heap[p].sid != z ==>
      p in Next(st, Free(z)).heap && Next(st, Free(z)).heap[p] == st.heap[p]
  {
    var t := st.streams[z];
    assert Owns(t, t.phase.at, t.bufs[t.phase.at]);
    hide Stepped, Shaped;
  }

  lemma SoundStep(st: State, a: Action, s: nat, z: nat)
    requires Enabled(st, a) && StepOf(a, z) && s < |st.streams|
    requires HeapOk(st.streams, st.heap) && FlyingOk(st.streams, st.flying) && SoundFor(st, s)
    ensures SoundFor(Next(st, a), s)
  {
    StepsOne(st, a, z);
    var st' := Next(st, a);
    hide After;
    forall y | y in st'.flying && st'.flying[y].slot.sid == s
      ensures Sound(st', y)
    {
      assert Sound(st, y);
      BlocksStay(st, a, z, st.flying[y].ptr);
      BusyStays(st, a, z, y);
      hide Next, HeapOk;
    }
  }

  lemma BusyStays(st: State, a: Action, z: nat, y: nat)
    requires Enabled(st, a) && StepOf(a, z) && y in st.flying && InPhase(st, y, Pumping)
    ensures InPhase(Next(st, a), y, Pumping)
  {
    hide Entered, Erased;
  }

  lemma StepFenced(st: State, a: Action, s: nat, z: nat)
    requires Enabled(st, a) && StepOf(a, z) && Safe(st) && Fenced(st, s)
    ensures Fenced(Next(st, a), s)
  {
    StepsOne(st, a, z);
    StepsOn(st, a, z);
    if s < |st.streams| {
      hide OpenOk, LedgerOk, CountsOk, HoldsOk, HeapOk, AttachedOk, ScheduledOk, RegistryOk, FlyingOk;
      hide Unrivalled, Strangers, OwnBuffers, SoundFor, After, Next, Enabled;
      UnrivalledStep(st.streams, s, z, After(st, a, z));
      StrangersStep(st, a, s, z);
      OwnBuffersStep(st, a, s, z);
      SoundStep(st, a, s, z);
    }
  }

  // ----- Callbacks -----

  /** What is found to go to the call is found on its own thread, in a buffer of its own. */
  lemma LookUpIsSound(st: State, on: nat, ref: Ref, report: Report, s: nat)
    requires Enabled(st, LookUp(on, ref, report)) && Safe(st) && s < |st.streams|
    requires Strangers(st.streams, st.registry, s) && OwnBuffers(st.streams[s], s, st.registry, st.attached)
    requires Target(st, ref, report).Some? && Target(st, ref, report).value.sid == s
    ensures var a := st.attached[ref];
      on == s && InPhase(st, s, Pumping) && a.ptr in st.heap && st.heap[a.ptr].sid == s
  {
    hide OpenOk, LedgerOk, CountsOk, HoldsOk, RegistryOk, FlyingOk;
    assert Schedules(st.streams[on], ref);
    var i :| 0 <= i < |st.streams[on].refs| && InRunLoop(st.streams[on], i) && st.streams[on].refs[i] == ref;
    assert on == s;
    assert Installed(st.streams[s], i);
    var a := st.attached[ref];
    assert WiredTo(st.streams[s], a.slot.index, ref, a.ptr);
    assert Owns(st.streams[s], a.slot.index, a.ptr);
  }

  /** The steps of a callback touch nothing but flights and the log. */
  lemma CallbackLeaves(st: State, a: Action)
    requires Enabled(st, a) && (a.LookUp? || a.HandOver? || a.Handled?)
    ensures Next(st, a) == st.(flying := Next(st, a).flying, log := Next(st, a).log)
  {
    hide Handed;
  }

  /** A flight after such a step is as it was, but for its hand-over, or newly found. */
  lemma FlightAfter(st: State, a: Action, z: nat)
    requires Enabled(st, a) && (a.LookUp? || a.HandOver? || a.Handled?) && z in Next(st, a).flying
    ensures var f := Next(st, a).flying[z];
      || (z in st.flying && f.slot == st.flying[z].slot && f.ptr == st.flying[z].ptr)
      || (a.LookUp? && z == a.on && Target(st, a.ref, a.report) == Some(f.slot) && f.ptr == st.attached[a.ref].ptr)
  {
    hide Handed, Target;
  }

  lemma CallbackFenced(st: State, a: Action, s: nat)
    requires Enabled(st, a) && (a.LookUp? || a.HandOver? || a.Handled?) && Safe(st) && Fenced(st, s)
    ensures Fenced(Next(st, a), s)
  {
    var st' := Next(st, a);
    CallbackLeaves(st, a);
    if s < |st.streams| {
      forall z | z in st'.flying && st'.flying[z].slot.sid == s
        ensures Sound(st', z)
      {
        hide Safe, Unrivalled, Strangers, OwnBuffers, Next, Enabled, Target;
        FlightAfter(st, a, z);
        if z in st.flying && st'.flying[z].slot == st.flying[z].slot && st'.flying[z].ptr == st.flying[z].ptr {
          assert Sound(st, z);
        } else {
          LookUpIsSound(st, a.on, a.ref, a.report, s);
        }
      }
      hide Safe, Unrivalled, Strangers, OwnBuffers, Next, Enabled, Sound;
    }
  }

  // ----- Starting a call -----

  lemma StartFenced(st: State, devs: seq<nat>, s: nat)
    requires Enabled(st, Start(devs)) && CanStart(st.handles, devs) && Curbs(st, Start(devs), s)
    requires Safe(st) && Fenced(st, s)
    ensures Fenced(Next(st, Start(devs)), s)
  {
    var n := |st.streams|;
    var st' := Next(st, Start(devs));
    var refs := RefsOf(st.handles, devs);
    assert st'.streams == st.streams + [Call(devs, refs, Registering, [], [], |devs|)];
    hide CallsOk, FlyingOk, Claimed;
    if s < n {
      assert st.streams[s].phase == Registering ==> Apart(refs, st.streams[s].refs);
      hide Fenced;
      OldIsFenced(st, st', s, refs);
    } else if s == n {
      hide Fenced;
      SafeParts(st);
      NewIsFenced(st, st', refs);
    }
  }

  lemma SafeParts(st: State)
    requires Safe(st)
    ensures RegistryOk(st.streams, st.registry) && FlyingOk(st.streams, st.flying)
  {
    hide OpenOk, LedgerOk, CountsOk, HoldsOk, HeapOk, AttachedOk, ScheduledOk, RegistryOk, FlyingOk;
  }

  lemma OldIsFenced(st: State, st': State, s: nat, refs: seq<Ref>)
    requires s < |st.streams| && Fenced(st, s)
    requires |st'.streams| == |st.streams| + 1 && st'.streams[..|st.streams|] == st.streams
    requires st'.streams[|st.streams|].phase == Registering && st'.streams[|st.streams|].refs == refs
    requires st'.registry == st.registry && st'.attached == st.attached && st'.flying == st.flying
    requires st'.heap == st.heap
    requires st.streams[s].phase == Registering ==> Apart(refs, st.streams[s].refs)
    ensures Fenced(st', s)
  {
    assert forall z :: 0 <= z < |st.streams| ==> st'.streams[z] == st.streams[z];
    forall z | z in st'.flying && st'.flying[z].slot.sid == s
      ensures Sound(st', z)
    {
      assert Sound(st, z);
    }
    hide Apart, Installed, Sound;
  }

  lemma NewIsFenced(st: State, st': State, refs: seq<Ref>)
    requires RegistryOk(st.streams, st.registry) && FlyingOk(st.streams, st.flying)
    requires |st'.streams| == |st.streams| + 1 && st'.streams[..|st.streams|] == st.streams
    requires st'.streams[|st.streams|].phase == Registering && st'.streams[|st.streams|].refs == refs
    requires st'.registry == st.registry && st'.attached == st.attached && st'.flying == st.flying
    requires forall z :: 0 <= z < |st.streams| && MayPump(st.streams[z]) ==> Apart(refs, st.streams[z].refs)
    ensures Fenced(st', |st.streams|)
  {
    var n := |st.streams|;
    forall z | 0 <= z < n && MayPump(st'.streams[z])
      ensures Apart(st'.streams[z].refs, refs)
    {
      assert st'.streams[z] == st.streams[z];
      assert Apart(refs, st.streams[z].refs);
    }
    assert forall z :: z in st.flying ==> Names(st.streams, st.flying[z].slot, st.flying[z].ref);
  }

  // ----- Over a run -----

  lemma NextFenced(st: State, a: Action, s: nat)
    requires Enabled(st, a) && Curbs(st, a, s) && Safe(st) && Fenced(st, s)
    ensures Fenced(Next(st, a), s)
  {
    hide Safe;
    if a.Start? {
      if CanStart(st.handles, a.devs) {
        hide Fenced, Next, Curbs;
        StartFenced(st, a.devs, s);
      }
    } else if a.Enumerate? || a.Open? || a.Close? {
      QuietFenced(st, a, s);
    } else if a.LookUp? || a.HandOver? || a.Handled? {
      hide Fenced, Next;
      CallbackFenced(st, a, s);
    } else {
      hide Fenced, Next;
      StepFenced(st, a, s, a.s);
    }
  }

  lemma QuietFenced(st: State, a: Action, s: nat)
    requires Enabled(st, a) && (a.Enumerate? || a.Open? || a.Close?) && Fenced(st, s)
    ensures Fenced(Next(st, a), s)
  {
    hide Unrivalled, Strangers, OwnBuffers, Kept, FoundRefs, Rejected;
    forall z | z in Next(st, a).flying && Next(st, a).flying[z].slot.sid == s && s < |st.streams|
      ensures Sound(Next(st, a), z)
    {
      assert Sound(st, z);
    }
  }

  lemma {:induction false} RunFenced(st: State, run: seq<Action>, s: nat)
    requires Curbed(st, run, s) && Execute(st, run).At? && Safe(st) && Fenced(st, s)
    ensures Fenced(Execute(st, run).state, s)
    decreases |run|
  {
    hide Safe, Fenced, Enabled, Next, Curbs;
    if run == [] {
    } else {
      NextFenced(st, run[0], s);
      NextKeeps(st, run[0]);
      RunFenced(Next(st, run[0]), run[1..], s);
    }
  }

  /** Over any run that curbs the starts for the s-th call, every callback found
      to go to it runs on its own thread while it pumps, before the hand-over and as long
      as its handler runs, with its bytes in a live block of that call. */
  lemma {:induction false} CallbacksAreSound(run: seq<Action>, st: State, s: nat, z: nat)
    requires Reached(run, st) && Curbed(INIT, run, s) && z in st.flying && st.flying[z].slot.sid == s
    ensures Sound(st, z)
  {
    SafeInitially();
    RunFenced(INIT, run, s);
    ReachedIsSafe(run, st);
    assert Names(st.streams, st.flying[z].slot, st.flying[z].ref);
    hide Safe;
  }

  // ----- All calls at once, and calls that share nothing -----

  /** No accepted start of the run lists a device of a call that may pump. */
  predicate Polite(st: State, run: seq<Action>)
    decreases |run|
  {
    run == [] ||
    (Enabled(st, run[0]) ==>
       && (run[0].Start? && CanStart(st.handles, run[0].devs) ==> Unpumped(st, run[0].devs))
       && Polite(Next(st, run[0]), run[1..]))
  }

  lemma {:induction false} PoliteIsCurbed(st: State, run: seq<Action>, s: nat)
    requires Polite(st, run)
    ensures Curbed(st, run, s)
    decreases |run|
  {
    if run == [] {
    } else if Enabled(st, run[0]) {
      hide Next, Enabled, CanStart;
      PoliteIsCurbed(Next(st, run[0]), run[1..], s);
    }
  }

  /** If no start lists a device of a call that may still pump it, every callback is sound. */
  lemma {:induction false} EveryCallbackIsSound(run: seq<Action>, st: State, z: nat)
    requires Reached(run, st) && Polite(INIT, run) && z in st.flying
    ensures Sound(st, z)
  {
    hide Reached, Polite, Curbed;
    PoliteIsCurbed(INIT, run, st.flying[z].slot.sid);
    CallbacksAreSound(run, st, st.flying[z].slot.sid, z);
  }

  /** A call whose reports stay its own has sound callbacks, too. */
  lemma {:induction false} RespectedIsCurbed(st: State, run: seq<Action>, s: nat, nulls: bool)
    requires Respected(st, run, s, nulls)
    ensures Curbed(st, run, s)
    decreases |run|
  {
    if run == [] {
    } else if Enabled(st, run[0]) {
      RespectsCurbs(st, run[0], s, nulls);
      hide Next, Enabled, Respects, Curbs;
      RespectedIsCurbed(Next(st, run[0]), run[1..], s, nulls);
    }
  }

  lemma RespectsCurbs(st: State, a: Action, s: nat, nulls: bool)
    requires Enabled(st, a) && Respects(st, a, s, nulls)
    ensures Curbs(st, a, s)
  {
    hide Claimed, Distinct;
    if a.Start? && s < |st.streams| && st.streams[s].phase == Registering {
      var t := st.streams[s];
      assert forall i :: 0 <= i < |t.refs| ==> Awaits(t, i, nulls);
    }
  }
}
