/** The streaming lifecycle of hid/hid.go and hid/hid_darwin.go as a state
    machine: every call into IOKit, the allocator or the registry is one step,
    and the steps of different streams interleave freely. A callback is three
    steps on the thread that pumps: it looks its sender up, hands the report over,
    and the handler returns; other threads may act in between. */
module HidStream {
  import opened Wrappers

  /** A native device reference; zero is a released handle. */
  type Ref = nat
  /** A C pointer; zero is what malloc returns when it fails. */
  type Ptr = nat
  type Report = seq<int>

  /** A Device of hid.go. */
  datatype Handle = Handle(ref: Ref, open: bool, streaming: int)

  /** The index-th device of the sid-th call of Stream. */
  datatype Slot = Slot(sid: nat, index: nat)

  datatype SetupStep = ToMalloc | ToAttach | ToSchedule
  datatype TeardownStep = ToDetach | ToUnschedule | ToFree

  /** Where a call of Stream stands; Unclaiming covers its return, once no claim is left. */
  datatype Phase =
    | Registering
    | Setup(at: nat, todo: SetupStep)
    | Pumping
    | Teardown(at: nat, next: TeardownStep)
    | Unregistering
    | Unclaiming

  /** One call of Stream: its devices, their references as read when it
      started, its buffers so far, those it has freed, and the claims it still holds. */
  datatype Call = Call(devs: seq<nat>, refs: seq<Ref>, phase: Phase, bufs: seq<Ptr>, freed: seq<Ptr>, claims: nat)

  type Stream = t: Call | Shaped(t) witness Call([0], [1], Registering, [], [], 1)

  /** How far a call has come in each phase. */
  predicate Shaped(t: Call) {
    && |t.devs| == |t.refs| > 0
    && t.claims <= |t.devs|
    && (t.phase != Unclaiming ==> t.claims == |t.devs|)
    && match t.phase
       case Registering => t.bufs == [] && t.freed == []
       case Setup(i, todo) => i < |t.refs| && |t.bufs| == (if todo == ToMalloc then i else i + 1) && t.freed == []
       case Pumping => |t.bufs| == |t.refs| && t.freed == []
       case Teardown(i, _) => i < |t.refs| && |t.bufs| == |t.refs| && t.freed == t.bufs[..i]
       case Unregistering => |t.bufs| == |t.refs| && t.freed == t.bufs
       case Unclaiming => t.freed == t.bufs
  }

  /** The buffer IOKit was given for a device, and by which slot. */
  datatype Attachment = Attachment(ptr: Ptr, slot: Slot)

  datatype Delivery = Delivery(slot: Slot, device: nat, report: Report)

  /** A callback that has found its target: the sender, where the report goes,
      the memory its bytes are in, and whether the handler has been called yet. */
  datatype Flight = Flight(ref: Ref, slot: Slot, ptr: Ptr, report: Report, handed: bool)

  /** The callbacks in flight are those of the threads that pump, at most one on each. */
  datatype State = State(
    handles: seq<Handle>,
    retained: multiset<Ref>,
    released: multiset<Ref>,
    streams: seq<Stream>,
    registry: map<Ref, Slot>,
    heap: map<Ptr, Slot>,
    attached: map<Ref, Attachment>,
    scheduled: set<(Ref, nat)>,
    flying: map<nat, Flight>,
    log: seq<Delivery>)

  const INIT: State := State([], multiset{}, multiset{}, [], map[], map[], map[], {}, map[], [])

  /** One device found by an enumeration, and whether the filter keeps it. */
  datatype Found = Found(ref: Ref, keep: bool)

  datatype Action =
    | Enumerate(found: seq<Found>)
    | Open(h: nat, ok: bool)
    | Close(h: nat)
    | Start(devs: seq<nat>)
    | LoadFails(s: nat)
    | Register(s: nat)
    | Malloc(s: nat, p: Ptr)
    | Attach(s: nat)
    | Schedule(s: nat)
    | Cancel(s: nat)
    | Detach(s: nat)
    | Unschedule(s: nat)
    | Free(s: nat)
    | Unregister(s: nat)
    | Unclaim(s: nat)
    | LookUp(on: nat, ref: Ref, report: Report)
    | HandOver(on: nat)
    | Handled(on: nat)

  // ----- Steps -----

  predicate InSetup(st: State, s: nat, todo: SetupStep) {
    s < |st.streams| && st.streams[s].phase.Setup? && st.streams[s].phase.todo == todo
  }

  predicate InTeardown(st: State, s: nat, next: TeardownStep) {
    s < |st.streams| && st.streams[s].phase.Teardown? && st.streams[s].phase.next == next
  }

  predicate InPhase(st: State, s: nat, p: Phase) {
    s < |st.streams| && st.streams[s].phase == p
  }

  predicate AllHandles(handles: seq<Handle>, devs: seq<nat>) {
    forall k :: 0 <= k < |devs| ==> devs[k] < |handles|
  }

  /** Which actions can happen. Handles come from an enumeration, and Open is
      never called on a released one; malloc never returns a live block. A callback
      runs on a thread that pumps, for a device scheduled there, one at a time, and
      the call does not go on before it is over. */
  predicate Enabled(st: State, a: Action) {
    match a
    case Enumerate(found) => forall k :: 0 <= k < |found| ==> found[k].ref != 0
    case Open(h, _) => h < |st.handles| && st.handles[h].ref != 0
    case Close(h) => h < |st.handles|
    case Start(devs) => AllHandles(st.handles, devs)
    case LoadFails(s) => InPhase(st, s, Registering)
    case Register(s) => InPhase(st, s, Registering)
    case Malloc(s, p) => InSetup(st, s, ToMalloc) && p !in st.heap
    case Attach(s) => InSetup(st, s, ToAttach)
    case Schedule(s) => InSetup(st, s, ToSchedule)
    case Cancel(s) => InPhase(st, s, Pumping) && s !in st.flying
    case Detach(s) => InTeardown(st, s, ToDetach)
    case Unschedule(s) => InTeardown(st, s, ToUnschedule)
    case Free(s) => InTeardown(st, s, ToFree)
    case Unregister(s) => InPhase(st, s, Unregistering)
    case Unclaim(s) =>
      InPhase(st, s, Unclaiming) && st.streams[s].claims > 0 && AllHandles(st.handles, st.streams[s].devs)
    case LookUp(on, ref, _) =>
      InPhase(st, on, Pumping) && on !in st.flying && (ref, on) in st.scheduled && ref in st.attached
    case HandOver(on) => on in st.flying && !st.flying[on].handed
    case Handled(on) => on in st.flying && st.flying[on].handed
  }

  /** Stream is refused without devices, or when one is not open. */
  predicate CanStart(handles: seq<Handle>, devs: seq<nat>)
    requires AllHandles(handles, devs)
  {
    devs != [] && forall k :: 0 <= k < |devs| ==> handles[devs[k]].open
  }

  /** Close acts only on a handle not yet released that no stream claims. */
  predicate Closes(h: Handle) { h.ref != 0 && h.streaming <= 0 }

  function Kept(found: seq<Found>): seq<Handle> {
    if found == [] then []
    else (if found[0].keep then [Handle(found[0].ref, false, 0)] else []) + Kept(found[1..])
  }

  function FoundRefs(found: seq<Found>): multiset<Ref> {
    if found == [] then multiset{} else multiset{found[0].ref} + FoundRefs(found[1..])
  }

  function Rejected(found: seq<Found>): multiset<Ref> {
    if found == [] then multiset{}
    else (if found[0].keep then multiset{} else multiset{found[0].ref}) + Rejected(found[1..])
  }

  /** A device with its streaming counter moved. */
  function Counted(h: Handle, delta: int): Handle { h.(streaming := h.streaming + delta) }

  /** One more claim on every listed device, counting repetitions. */
  function Claimed(handles: seq<Handle>, devs: seq<nat>): (r: seq<Handle>)
    requires AllHandles(handles, devs)
    ensures |r| == |handles|
    decreases |devs|
  {
    if devs == [] then handles
    else Claimed(handles[devs[0] := Counted(handles[devs[0]], 1)], devs[1..])
  }

  function RefsOf(handles: seq<Handle>, devs: seq<nat>): (refs: seq<Ref>)
    requires AllHandles(handles, devs)
    ensures |refs| == |devs| && forall k :: 0 <= k < |refs| ==> refs[k] == handles[devs[k]].ref
  {
    seq(|devs|, k requires 0 <= k < |devs| => handles[devs[k]].ref)
  }

  /** The registry once the first k references of a stream are entered, later ones over earlier ones. */
  function Entered(registry: map<Ref, Slot>, refs: seq<Ref>, s: nat, k: nat): map<Ref, Slot>
    requires k <= |refs|
    decreases k
  {
    if k == 0 then registry else Entered(registry, refs, s, k - 1)[refs[k - 1] := Slot(s, k - 1)]
  }

  function Erased(registry: map<Ref, Slot>, refs: seq<Ref>): map<Ref, Slot> {
    registry - (set r | r in refs)
  }

  /** The call of Stream after its next step. */
  function Stepped(t: Stream, p: Ptr): (t': Stream) {
    match t.phase
    case Registering => t.(phase := Setup(0, ToMalloc))
    case Setup(i, ToMalloc) => t.(phase := Setup(i, ToAttach), bufs := t.bufs + [p])
    case Setup(i, ToAttach) => t.(phase := Setup(i, ToSchedule))
    case Setup(i, ToSchedule) => t.(phase := if i + 1 < |t.refs| then Setup(i + 1, ToMalloc) else Pumping)
    case Pumping => t.(phase := Teardown(0, ToDetach))
    case Teardown(i, ToDetach) => t.(phase := Teardown(i, ToUnschedule))
    case Teardown(i, ToUnschedule) => t.(phase := Teardown(i, ToFree))
    case Teardown(i, ToFree) =>
      t.(phase := if i + 1 < |t.refs| then Teardown(i + 1, ToDetach) else Unregistering, freed := t.freed + [t.bufs[i]])
    case Unregistering => t.(phase := Unclaiming)
    case Unclaiming => if t.claims > 0 then t.(claims := t.claims - 1) else t
  }

  function With(st: State, s: nat, p: Ptr): State
    requires s < |st.streams|
  {
    st.(streams := st.streams[s := Stepped(st.streams[s], p)])
  }

  /** Where a callback finds its report should go: nowhere without bytes, a buffer or a registry entry. */
  function Target(st: State, ref: Ref, report: Report): Option<Slot>
    requires ref in st.attached
  {
    if report == [] || st.attached[ref].ptr == 0 || ref !in st.registry then None else Some(st.registry[ref])
  }

  function LookedUp(st: State, on: nat, ref: Ref, report: Report): State
    requires ref in st.attached
  {
    match Target(st, ref, report)
    case None => st
    case Some(slot) => st.(flying := st.flying[on := Flight(ref, slot, st.attached[ref].ptr, report, false)])
  }

  /** What reaches the handler of a call, with the device of that call. */
  function Handed(streams: seq<Stream>, slot: Slot, report: Report): seq<Delivery> {
    if slot.sid < |streams| && slot.index < |streams[slot.sid].devs| then
      [Delivery(slot, streams[slot.sid].devs[slot.index], report)]
    else []
  }

  /** The steps of a call up to the pump. */
  function Begun(st: State, a: Action): State
    requires Enabled(st, a) && (a.Register? || a.Malloc? || a.Attach? || a.Schedule?)
  {
    match a
    case Register(s) => With(st, s, 0).(registry := Entered(st.registry, st.streams[s].refs, s, |st.streams[s].refs|))
    case Malloc(s, p) =>
      With(st, s, p).(heap := if p == 0 then st.heap else st.heap[p := Slot(s, st.streams[s].phase.at)])
    case Attach(s) =>
      var i := st.streams[s].phase.at;
      With(st, s, 0).(attached := st.attached[st.streams[s].refs[i] := Attachment(st.streams[s].bufs[i], Slot(s, i))])
    case Schedule(s) =>
      With(st, s, 0).(scheduled := st.scheduled + {(st.streams[s].refs[st.streams[s].phase.at], s)})
  }

  /** The steps of its deferred teardown. */
  function TornDown(st: State, a: Action): State
    requires Enabled(st, a) && (a.Detach? || a.Unschedule? || a.Free? || a.Unregister?)
  {
    match a
    case Detach(s) => With(st, s, 0).(attached := st.attached - {st.streams[s].refs[st.streams[s].phase.at]})
    case Unschedule(s) =>
      With(st, s, 0).(scheduled := st.scheduled - {(st.streams[s].refs[st.streams[s].phase.at], s)})
    case Free(s) => With(st, s, 0).(heap := st.heap - {st.streams[s].bufs[st.streams[s].phase.at]})
    case Unregister(s) => With(st, s, 0).(registry := Erased(st.registry, st.streams[s].refs))
  }

  function Next(st: State, a: Action): State
    requires Enabled(st, a)
  {
    match a
    case Enumerate(found) =>
      st.(handles := st.handles + Kept(found),
          retained := st.retained + FoundRefs(found), released := st.released + Rejected(found))
    case Open(h, ok) => if ok then st.(handles := st.handles[h := st.handles[h].(open := true)]) else st
    case Close(h) =>
      if !Closes(st.handles[h]) then st
      else st.(handles := st.handles[h := st.handles[h].(ref := 0, open := false)],
               released := st.released + multiset{st.handles[h].ref})
    case Start(devs) =>
      if !CanStart(st.handles, devs) then st
      else st.(handles := Claimed(st.handles, devs),
               streams := st.streams + [Call(devs, RefsOf(st.handles, devs), Registering, [], [], |devs|)])
    case LoadFails(s) => st.(streams := st.streams[s := st.streams[s].(phase := Unclaiming)])
    case Cancel(s) => With(st, s, 0)
    case Unclaim(s) =>
      var d := st.streams[s].devs[st.streams[s].claims - 1];
      With(st, s, 0).(handles := st.handles[d := Counted(st.handles[d], -1)])
    case LookUp(on, ref, report) => LookedUp(st, on, ref, report)
    case HandOver(on) =>
      var f := st.flying[on];
      st.(flying := st.flying[on := f.(handed := true)], log := st.log + Handed(st.streams, f.slot, f.report))
    case Handled(on) => st.(flying := st.flying - {on})
    case Register(_) => Begun(st, a)
    case Malloc(_, _) => Begun(st, a)
    case Attach(_) => Begun(st, a)
    case Schedule(_) => Begun(st, a)
    case Detach(_) => TornDown(st, a)
    case Unschedule(_) => TornDown(st, a)
    case Free(_) => TornDown(st, a)
    case Unregister(_) => TornDown(st, a)
  }

  /** The state a run ends in, from a given one; None when an action could not happen. */
  datatype Outcome = Stuck | At(state: State)

  function Execute(st: State, run: seq<Action>): Outcome
    decreases |run|
  {
    if run == [] then At(st)
    else if Enabled(st, run[0]) then Execute(Next(st, run[0]), run[1..])
    else Stuck
  }
}
