/** darwinReadInterrupt of usb/iface_darwin.go: the caller, the goroutine that
    sits in ReadPipe and the kernel, one step at a time in any order. */
module InterruptRead {
  import opened IOReturn
  import opened Octets

  type Ptr = nat

  /** A block from malloc: the transfer buffer or the size word. */
  datatype Block = Data(bytes: seq<Octet>) | Size(count: nat)

  /** Where the caller stands; on every path the buffers are freed last, size first. */
  datatype Caller =
    | AtData
    | AtSize
    | AtSpawn
    | AtSelect
    | Reaping
    | Copying
    | FreeingSize(code: int)
    | FreeingData(code: int)
    | Returned(code: int)

  /** Where the goroutine stands; Sent covers its end. */
  datatype Worker = NotStarted | Started | Reading | Got(rc: int) | Sent

  /** What the kernel had written when ReadPipe returned. */
  datatype Reply = NoReply | Reply(rc: int, bytes: seq<Octet>, count: nat)

  datatype State = State(
    caller: Caller,
    worker: Worker,
    data: Ptr,
    size: Ptr,
    heap: map<Ptr, Block>,
    channel: seq<int>,
    fired: bool,
    reply: Reply,
    buf: seq<Octet>,
    count: nat)

  function Init(heap: map<Ptr, Block>, buf: seq<Octet>): State {
    State(AtData, NotStarted, 0, 0, heap, [], false, NoReply, buf, 0)
  }

  datatype Action =
    | MallocData(p: Ptr)
    | MallocSize(p: Ptr)
    | Spawn
    | Call
    | WriteByte(at: nat, b: Octet)
    | WriteSize(n: nat)
    | ReadReturns(rc: int)
    | Send
    | Fire
    | TakeDone
    | TakeTimer
    | Reap
    | Copy
    | FreeSize
    | FreeData

  function Zeros(n: nat): (z: seq<Octet>)
    ensures |z| == n && forall i :: 0 <= i < n ==> z[i] == 0
  {
    seq(n, _ => 0)
  }

  /** The blocks the pending ReadPipe was given are live, and of their own kind. */
  predicate Pointed(st: State) {
    && st.data in st.heap && st.heap[st.data].Data? && |st.heap[st.data].bytes| == |st.buf|
    && st.size in st.heap && st.heap[st.size].Size?
  }

  /** What can happen. The kernel writes only inside the blocks of a ReadPipe
      that has not returned; malloc gives null or a block that is not live. */
  predicate Enabled(st: State, a: Action) {
    match a
    case MallocData(p) => st.caller == AtData && p !in st.heap
    case MallocSize(p) => st.caller == AtSize && p !in st.heap
    case Spawn => st.caller == AtSpawn
    case Call => st.worker == Started
    case WriteByte(at, _) => st.worker == Reading && at < |st.buf|
    case WriteSize(_) => st.worker == Reading
    case ReadReturns(_) => st.worker == Reading
    case Send => st.worker.Got? && |st.channel| < 1
    case Fire => (st.caller == AtSelect || st.caller == Reaping) && !st.fired
    case TakeDone => st.caller == AtSelect && st.channel != []
    case TakeTimer => st.caller == AtSelect && st.fired
    case Reap => st.caller == Reaping && st.channel != []
    case Copy => st.caller == Copying
    case FreeSize => st.caller.FreeingSize?
    case FreeData => st.caller.FreeingData?
  }

  /** A write through a pointer: memory that is not live is not the caller's any more. */
  function Wrote(heap: map<Ptr, Block>, p: Ptr, b: Block): map<Ptr, Block> {
    if p in heap then heap[p := b] else heap
  }

  function Poked(heap: map<Ptr, Block>, p: Ptr, at: nat, b: Octet): map<Ptr, Block> {
    if p in heap && heap[p].Data? && at < |heap[p].bytes| then heap[p := Data(heap[p].bytes[at := b])] else heap
  }

  function BytesAt(heap: map<Ptr, Block>, p: Ptr): seq<Octet> {
    if p in heap && heap[p].Data? then heap[p].bytes else []
  }

  function CountAt(heap: map<Ptr, Block>, p: Ptr): nat {
    if p in heap && heap[p].Size? then heap[p].count else 0
  }

  function Next(st: State, a: Action): State
    requires Enabled(st, a)
  {
    match a
    case MallocData(p) =>
      if p == 0 then st.(caller := Returned(ERR_NO_MEMORY))
      else st.(caller := AtSize, data := p, heap := st.heap[p := Data(Zeros(|st.buf|))])
    case MallocSize(p) =>
      if p == 0 then st.(caller := FreeingData(ERR_NO_MEMORY))
      else st.(caller := AtSpawn, size := p, heap := st.heap[p := Size(|st.buf|)])
    case Spawn => st.(caller := AtSelect, worker := Started)
    case Call => st.(worker := Reading)
    case WriteByte(at, b) => st.(heap := Poked(st.heap, st.data, at, b))
    case WriteSize(n) => st.(heap := Wrote(st.heap, st.size, Size(n)))
    case ReadReturns(rc) =>
      st.(worker := Got(rc), reply := Reply(rc, BytesAt(st.heap, st.data), CountAt(st.heap, st.size)))
    case Send => st.(worker := Sent, channel := st.channel + [st.worker.rc])
    case Fire => st.(fired := true)
    case TakeDone =>
      var rc := st.channel[0];
      st.(caller := if rc != 0 then FreeingSize(rc) else Copying, channel := st.channel[1..])
    case TakeTimer => st.(caller := Reaping)
    case Reap => st.(caller := FreeingSize(ERR_TIMEOUT), channel := st.channel[1..])
    case Copy =>
      var got := Least(CountAt(st.heap, st.size), |st.buf|);
      var bytes := BytesAt(st.heap, st.data);
      var n := Least(got, |bytes|);
      st.(caller := FreeingSize(0), count := got, buf := bytes[..n] + st.buf[n..])
    case FreeSize => st.(caller := FreeingData(st.caller.code), heap := st.heap - {st.size})
    case FreeData => st.(caller := Returned(st.caller.code), heap := st.heap - {st.data})
  }

  datatype Outcome = Stuck | At(state: State)

  function Execute(st: State, run: seq<Action>): Outcome
    decreases |run|
  {
    if run == [] then At(st)
    else if Enabled(st, run[0]) then Execute(Next(st, run[0]), run[1..])
    else Stuck
  }

  // ----- The invariant -----

  /** The goroutine is between its start and the end of its ReadPipe. */
  predicate InFlight(w: Worker) { w == Started || w == Reading }

  predicate WorkerOk(st: State) {
    match st.caller
    case AtSelect => st.worker != NotStarted && (st.channel == [] <==> st.worker != Sent)
    case Reaping => st.worker != NotStarted && (st.channel == [] <==> st.worker != Sent)
    case Copying => st.worker == Sent && st.channel == []
    case FreeingSize(_) => st.worker == Sent && st.channel == []
    case FreeingData(_) => (st.worker == Sent || st.worker == NotStarted) && st.channel == []
    case Returned(_) => (st.worker == Sent || st.worker == NotStarted) && st.channel == []
    case _ => st.worker == NotStarted && st.channel == []
  }

  /** What the goroutine carries is what ReadPipe answered. */
  predicate ReplyOk(st: State) {
    && (st.worker == NotStarted || InFlight(st.worker) ==> st.reply == NoReply)
    && (st.worker.Got? ==> st.reply.Reply? && st.reply.rc == st.worker.rc)
    && (st.worker == Sent ==> st.reply.Reply?)
    && (st.channel != [] ==> st.reply.Reply? && st.channel == [st.reply.rc])
    && (st.reply.Reply? ==> |st.reply.bytes| == |st.buf|)
  }

  /** The two blocks are live from their allocation to their release, hold what the
      kernel last wrote, and everything else is as it was. */
  predicate HeapOk(st: State, heap: map<Ptr, Block>) {
    match st.caller
    case AtData => st.heap == heap
    case Returned(_) => st.heap == heap
    case AtSize =>
      st.data != 0 && st.data !in heap && st.data in st.heap && st.heap - {st.data} == heap && SizedData(st)
    case FreeingData(_) => st.data !in heap && st.data in st.heap && st.heap - {st.data} == heap
    case _ =>
      && st.data !in heap && st.size !in heap && st.data != st.size && Pointed(st)
      && st.heap - {st.data, st.size} == heap
      && (st.reply.Reply? ==> st.heap[st.data].bytes == st.reply.bytes && st.heap[st.size].count == st.reply.count)
  }

  predicate SizedData(st: State) {
    st.data in st.heap && st.heap[st.data].Data? && |st.heap[st.data].bytes| == |st.buf|
  }

  /** What the caller's buffer and count are, given what they started as. */
  predicate ResultOk(st: State, buf: seq<Octet>) {
    && |st.buf| == |buf|
    && match st.caller
       case Copying => st.reply.Reply? && st.reply.rc == 0 && st.buf == buf && st.count == 0
       case FreeingSize(code) => Delivered(st, buf, code)
       case FreeingData(code) => Delivered(st, buf, code)
       case Returned(code) => Delivered(st, buf, code)
       case _ => st.buf == buf && st.count == 0
  }

  predicate Delivered(st: State, buf: seq<Octet>, code: int) {
    && |st.buf| == |buf|
    && if code == 0 then
         && st.reply.Reply? && st.reply.rc == 0 && |st.reply.bytes| == |buf|
         && st.count == Least(st.reply.count, |buf|)
         && st.buf == st.reply.bytes[..st.count] + buf[st.count..]
       else st.count == 0 && st.buf == buf
  }

  predicate Safe(st: State, heap: map<Ptr, Block>, buf: seq<Octet>) {
    WorkerOk(st) && ReplyOk(st) && HeapOk(st, heap) && ResultOk(st, buf)
  }

  lemma NextKeeps(st: State, a: Action, heap: map<Ptr, Block>, buf: seq<Octet>)
    requires Safe(st, heap, buf) && Enabled(st, a)
    ensures Safe(Next(st, a), heap, buf)
  {
    WorkerKept(st, a, heap, buf);
    HeapKept(st, a, heap, buf);
    ResultKept(st, a, heap, buf);
  }

  lemma WorkerKept(st: State, a: Action, heap: map<Ptr, Block>, buf: seq<Octet>)
    requires Safe(st, heap, buf) && Enabled(st, a)
    ensures WorkerOk(Next(st, a)) && ReplyOk(Next(st, a))
  {
    hide Delivered;
  }

  lemma HeapKept(st: State, a: Action, heap: map<Ptr, Block>, buf: seq<Octet>)
    requires Safe(st, heap, buf) && Enabled(st, a)
    ensures HeapOk(Next(st, a), heap)
  {
    if a.MallocData? || a.MallocSize? || a.FreeSize? || a.FreeData? {
      BlocksKept(st, a, heap, buf);
    } else {
      ContentsKept(st, a, heap, buf);
    }
  }

  /** Allocating and freeing. */
  lemma BlocksKept(st: State, a: Action, heap: map<Ptr, Block>, buf: seq<Octet>)
    requires Safe(st, heap, buf) && Enabled(st, a)
    requires a.MallocData? || a.MallocSize? || a.FreeSize? || a.FreeData?
    ensures HeapOk(Next(st, a), heap)
  {
    hide Delivered;
    var st' := Next(st, a);
    match a
    case MallocData(p) =>
      if p != 0 { assert st'.heap - {p} == st.heap; }
    case MallocSize(p) =>
      if p != 0 { assert st'.heap - {st'.data, p} == st.heap - {st.data}; }
    case FreeSize => assert st'.heap - {st.data} == st.heap - {st.data, st.size};
    case FreeData =>
  }

  /** The kernel's writes, and steps that leave the heap as it is. */
  lemma ContentsKept(st: State, a: Action, heap: map<Ptr, Block>, buf: seq<Octet>)
    requires Safe(st, heap, buf) && Enabled(st, a)
    requires !a.MallocData? && !a.MallocSize? && !a.FreeSize? && !a.FreeData?
    ensures HeapOk(Next(st, a), heap)
  {
    hide Delivered;
    var st' := Next(st, a);
    if a.WriteByte? || a.WriteSize? {
      assert st'.heap - {st.data, st.size} == st.heap - {st.data, st.size};
    }
  }

  lemma ResultKept(st: State, a: Action, heap: map<Ptr, Block>, buf: seq<Octet>)
    requires Safe(st, heap, buf) && Enabled(st, a)
    ensures ResultOk(Next(st, a), buf)
  {}

  lemma {:induction false} EveryRunIsSafe(st: State, run: seq<Action>, heap: map<Ptr, Block>, buf: seq<Octet>)
    requires Safe(st, heap, buf)
    ensures Execute(st, run).At? ==> Safe(Execute(st, run).state, heap, buf)
    decreases |run|
  {
    hide Safe, Enabled, Next;
    if run == [] {
    } else if Enabled(st, run[0]) {
      NextKeeps(st, run[0], heap, buf);
      EveryRunIsSafe(Next(st, run[0]), run[1..], heap, buf);
    }
  }

  // ----- What a caller may rely on -----

  ghost predicate Reached(heap: map<Ptr, Block>, buf: seq<Octet>, run: seq<Action>, st: State) {
    Execute(Init(heap, buf), run) == At(st)
  }

  lemma ReachedIsSafe(heap: map<Ptr, Block>, buf: seq<Octet>, run: seq<Action>, st: State)
    requires Reached(heap, buf, run, st)
    ensures Safe(st, heap, buf)
  {
    EveryRunIsSafe(Init(heap, buf), run, heap, buf);
  }

  /** As long as the goroutine may still be in ReadPipe, both blocks it was given
      are live, neither belongs to anyone else, and the caller is waiting for it. */
  lemma PendingReadHasItsBlocks(heap: map<Ptr, Block>, buf: seq<Octet>, run: seq<Action>, st: State)
    requires Reached(heap, buf, run, st) && InFlight(st.worker)
    ensures Pointed(st) && st.data != st.size && st.data !in heap && st.size !in heap
    ensures st.caller == AtSelect || st.caller == Reaping
    ensures !Enabled(st, FreeSize) && !Enabled(st, FreeData) && !Enabled(st, TakeDone) && !Enabled(st, Reap)
  {
    hide Delivered, Reached;
    ReachedIsSafe(heap, buf, run, st);
  }

  /** Freeing starts only once ReadPipe has returned and the goroutine has ended,
      or was never started; the two blocks freed are live and the call's own. */
  lemma FreesComeLast(heap: map<Ptr, Block>, buf: seq<Octet>, run: seq<Action>, st: State)
    requires Reached(heap, buf, run, st) && (Enabled(st, FreeSize) || Enabled(st, FreeData))
    ensures st.worker == Sent || st.worker == NotStarted
    ensures Enabled(st, FreeSize) ==> st.size in st.heap && st.size !in heap
    ensures st.data in st.heap && st.data !in heap
  {
    hide Delivered, Reached;
    ReachedIsSafe(heap, buf, run, st);
  }

  /** The goroutine never waits to send: its one result always finds room. */
  lemma SendNeverBlocks(heap: map<Ptr, Block>, buf: seq<Octet>, run: seq<Action>, st: State)
    requires Reached(heap, buf, run, st) && st.worker.Got?
    ensures Enabled(st, Send)
  {
    hide Delivered, Reached;
    ReachedIsSafe(heap, buf, run, st);
  }

  /** On return the heap is as it was. Success means ReadPipe succeeded, and the
      caller got exactly the bytes it reported, cut to the buffer; on any other code the
      count is zero and the buffer untouched. */
  lemma ResultIsHonest(heap: map<Ptr, Block>, buf: seq<Octet>, run: seq<Action>, st: State)
    requires Reached(heap, buf, run, st) && st.caller.Returned?
    ensures st.heap == heap && |st.buf| == |buf|
    ensures st.caller.code != 0 ==> st.count == 0 && st.buf == buf
    ensures st.caller.code == 0 ==>
      && st.reply.Reply? && st.reply.rc == 0 && |st.reply.bytes| == |buf|
      && st.count == Least(st.reply.count, |buf|) <= |buf|
      && st.buf == st.reply.bytes[..st.count] + buf[st.count..]
  {
    hide Reached;
    ReachedIsSafe(heap, buf, run, st);
  }

  // ----- What ReadPipe's answer holds -----

  /** What byte i of the transfer buffer is after run, having been v before it. */
  function ByteAfter(run: seq<Action>, i: nat, v: Octet): Octet {
    if run == [] then v
    else ByteAfter(run[1..], i, if run[0].WriteByte? && run[0].at == i then run[0].b else v)
  }

  /** What the size word is after run, having been n before it. */
  function SizeAfter(run: seq<Action>, n: nat): nat {
    if run == [] then n else SizeAfter(run[1..], if run[0].WriteSize? then run[0].n else n)
  }

  /** Byte i is v and the size word n, in the blocks while they are written and in the reply after. */
  predicate Holds(st: State, i: nat, v: Octet, n: nat) {
    && (st.caller == AtData || st.caller == AtSize ==> v == 0 && n == |st.buf|)
    && (st.caller == AtSize ==> BytesAt(st.heap, st.data) == Zeros(|st.buf|))
    && (st.caller == AtSpawn || InFlight(st.worker) ==>
          && i < |BytesAt(st.heap, st.data)| && BytesAt(st.heap, st.data)[i] == v
          && CountAt(st.heap, st.size) == n)
    && (st.reply.Reply? ==> i < |st.reply.bytes| && st.reply.bytes[i] == v && st.reply.count == n)
  }

  lemma {:induction false} HoldsOn(st: State, a: Action, i: nat, v: Octet, n: nat, heap: map<Ptr, Block>,
                                   buf: seq<Octet>)
    requires Safe(st, heap, buf) && Enabled(st, a) && i < |buf| && Holds(st, i, v, n)
    ensures Holds(Next(st, a), i, ByteAfter([a], i, v), SizeAfter([a], n))
  {
    hide Delivered;
    assert [a][1..] == [];
  }

  lemma {:induction false} HoldsAlong(st: State, run: seq<Action>, i: nat, v: Octet, n: nat, heap: map<Ptr, Block>,
                                      buf: seq<Octet>)
    requires Safe(st, heap, buf) && Execute(st, run).At? && i < |buf| && Holds(st, i, v, n)
    ensures Holds(Execute(st, run).state, i, ByteAfter(run, i, v), SizeAfter(run, n))
    decreases |run|
  {
    hide Safe, Holds, Enabled, Next;
    if run == [] {
    } else {
      NextKeeps(st, run[0], heap, buf);
      HoldsOn(st, run[0], i, v, n, heap, buf);
      assert [run[0]][1..] == [];
      HoldsAlong(Next(st, run[0]), run[1..], i, ByteAfter([run[0]], i, v), SizeAfter([run[0]], n), heap, buf);
    }
  }

  /** What ReadPipe answered with is what the kernel wrote last: a byte it never
      wrote is zero, whatever was in the memory before, and a count it never wrote is
      the length of the buffer. */
  lemma {:induction false} ReplyIsWhatWasWritten(heap: map<Ptr, Block>, buf: seq<Octet>, run: seq<Action>,
                                                 st: State, i: nat)
    requires Reached(heap, buf, run, st) && st.reply.Reply? && i < |buf|
    ensures |st.reply.bytes| == |buf| && st.reply.bytes[i] == ByteAfter(run, i, 0)
    ensures st.reply.count == SizeAfter(run, |buf|)
  {
    hide Execute, ByteAfter, SizeAfter;
    ReachedIsSafe(heap, buf, run, st);
    HoldsAlong(Init(heap, buf), run, i, 0, |buf|, heap, buf);
  }

  // ----- Which code comes back -----

  /** The code on its way back: no memory if the goroutine was never started,
      else the timeout once the timer's branch was taken, else what ReadPipe answered. */
  predicate CodeOk(st: State, timed: bool) {
    (timed ==> st.fired) &&
    match st.caller
    case Reaping => timed
    case FreeingSize(code) => CodeIs(st, timed, code)
    case FreeingData(code) => CodeIs(st, timed, code)
    case Returned(code) => CodeIs(st, timed, code)
    case _ => !timed
  }

  predicate CodeIs(st: State, timed: bool, code: int) {
    if st.worker == NotStarted then code == ERR_NO_MEMORY && !timed
    else if timed then code == ERR_TIMEOUT
    else st.reply.Reply? && code == st.reply.rc
  }

  lemma CodeKept(st: State, a: Action, timed: bool, heap: map<Ptr, Block>, buf: seq<Octet>)
    requires Safe(st, heap, buf) && Enabled(st, a) && CodeOk(st, timed)
    ensures CodeOk(Next(st, a), timed || a == TakeTimer)
  {
    hide HeapOk, Delivered;
  }

  lemma {:induction false} CodeAlong(st: State, run: seq<Action>, timed: bool, heap: map<Ptr, Block>, buf: seq<Octet>)
    requires Safe(st, heap, buf) && Execute(st, run).At? && CodeOk(st, timed)
    ensures CodeOk(Execute(st, run).state, timed || TakeTimer in run)
    decreases |run|
  {
    hide Safe, CodeOk, Enabled, Next;
    if run == [] {
    } else {
      NextKeeps(st, run[0], heap, buf);
      CodeKept(st, run[0], timed, heap, buf);
      CodeAlong(Next(st, run[0]), run[1..], timed || run[0] == TakeTimer, heap, buf);
      assert TakeTimer in run <==> run[0] == TakeTimer || TakeTimer in run[1..];
    }
  }

  /** The code returned: no memory when ReadPipe was never called, the timeout
      when the timer's branch was taken, and its own answer otherwise. So a read that
      succeeded is thrown away, its bytes with it, exactly when that branch was taken. */
  lemma {:induction false} ReturnedCode(heap: map<Ptr, Block>, buf: seq<Octet>, run: seq<Action>, st: State)
    requires Reached(heap, buf, run, st) && st.caller.Returned?
    ensures st.caller.code ==
            if st.reply == NoReply then ERR_NO_MEMORY else if TakeTimer in run then ERR_TIMEOUT else st.reply.rc
    ensures TakeTimer in run ==> st.fired
    ensures st.reply.Reply? && st.reply.rc == 0 ==>
      (TakeTimer in run <==> st.caller.code != 0) && (TakeTimer in run ==> st.count == 0 && st.buf == buf)
  {
    hide Execute, Next, Enabled, Delivered;
    ReachedIsSafe(heap, buf, run, st);
    CodeAlong(Init(heap, buf), run, false, heap, buf);
    ResultIsHonest(heap, buf, run, st);
  }

  lemma {:induction false} OneMore(st: State, run: seq<Action>, mid: State, a: Action)
    requires Execute(st, run) == At(mid) && Enabled(mid, a)
    ensures Execute(st, run + [a]) == At(Next(mid, a))
    decreases |run|
  {
    hide Enabled, Next;
    if run == [] {
      assert run + [a] == [a];
      assert [a][1..] == [];
    } else {
      assert (run + [a])[1..] == run[1..] + [a];
      OneMore(Next(st, run[0]), run[1..], mid, a);
    }
  }

  /** The goroutine sits in ReadPipe, with both blocks; the timer has not fired. */
  function Waiting(heap: map<Ptr, Block>, buf: seq<Octet>, p: Ptr, q: Ptr): State {
    State(AtSelect, Reading, p, q, heap[p := Data(Zeros(|buf|))][q := Size(|buf|)], [], false, NoReply, buf, 0)
  }

  lemma WaitingReached(heap: map<Ptr, Block>, buf: seq<Octet>, p: Ptr, q: Ptr)
    requires p != 0 && q != 0 && p != q && p !in heap && q !in heap
    ensures Reached(heap, buf, [MallocData(p)] + [MallocSize(q)] + [Spawn] + [Call], Waiting(heap, buf, p, q))
  {
    var st := Init(heap, buf);
    OneMore(st, [], st, MallocData(p));
    assert [] + [MallocData(p)] == [MallocData(p)];
    var s1 := Next(st, MallocData(p));
    var s2 := Next(s1, MallocSize(q));
    var s3 := Next(s2, Spawn);
    OneMore(st, [MallocData(p)], s1, MallocSize(q));
    OneMore(st, [MallocData(p)] + [MallocSize(q)], s2, Spawn);
    OneMore(st, [MallocData(p)] + [MallocSize(q)] + [Spawn], s3, Call);
  }

  /** And that happens, for any buffer: ReadPipe succeeds with a full one, the
      timer fires before its answer is taken, and the caller is told that nothing arrived. */
  lemma SuccessIsThrownAway(heap: map<Ptr, Block>, buf: seq<Octet>, p: Ptr, q: Ptr)
    returns (run: seq<Action>, st: State)
    requires p != 0 && q != 0 && p != q && p !in heap && q !in heap
    ensures Reached(heap, buf, run, st) && st.caller == Returned(ERR_TIMEOUT)
    ensures st.reply == Reply(0, Zeros(|buf|), |buf|) && st.count == 0 && st.buf == buf
  {
    hide Execute;
    run := TimerFirst(heap, buf, p, q);
    st := Aborted(heap, buf, p, q);
    run, st := Extended(heap, buf, run, st, Reap);
    run, st := Extended(heap, buf, run, st, FreeSize);
    run, st := Extended(heap, buf, run, st, FreeData);
  }

  /** ReadPipe has succeeded and its answer waits in the channel, but the timer's branch was taken. */
  function Aborted(heap: map<Ptr, Block>, buf: seq<Octet>, p: Ptr, q: Ptr): State {
    Waiting(heap, buf, p, q).(caller := Reaping, worker := Sent, channel := [0], fired := true,
                              reply := Reply(0, Zeros(|buf|), |buf|))
  }

  lemma TimerFirst(heap: map<Ptr, Block>, buf: seq<Octet>, p: Ptr, q: Ptr) returns (run: seq<Action>)
    requires p != 0 && q != 0 && p != q && p !in heap && q !in heap
    ensures Reached(heap, buf, run, Aborted(heap, buf, p, q))
  {
    hide Execute;
    WaitingReached(heap, buf, p, q);
    run := [MallocData(p)] + [MallocSize(q)] + [Spawn] + [Call];
    var st := Waiting(heap, buf, p, q);
    run, st := Extended(heap, buf, run, st, ReadReturns(0));
    run, st := Extended(heap, buf, run, st, Fire);
    run, st := Extended(heap, buf, run, st, TakeTimer);
    run, st := Extended(heap, buf, run, st, Send);
  }

  lemma Extended(heap: map<Ptr, Block>, buf: seq<Octet>, run: seq<Action>, st: State, a: Action)
    returns (run': seq<Action>, st': State)
    requires Reached(heap, buf, run, st) && Enabled(st, a)
    ensures Reached(heap, buf, run', st') && st' == Next(st, a)
  {
    hide Enabled, Next;
    OneMore(Init(heap, buf), run, st, a);
    run', st' := run + [a], Next(st, a);
  }

  /** The kernel fills the first |bytes| bytes and the size word, the timer stays
      quiet, and what was written arrives: any bytes, any count, in front of what the
      caller's buffer held from there on. */
  lemma WhatIsWrittenArrives(heap: map<Ptr, Block>, buf: seq<Octet>, p: Ptr, q: Ptr, bytes: seq<Octet>, n: nat)
    returns (run: seq<Action>, st: State)
    requires p != 0 && q != 0 && p != q && p !in heap && q !in heap && |bytes| == |buf|
    ensures Reached(heap, buf, run, st) && st.caller == Returned(0) && st.heap == heap
    ensures n <= |buf| ==> st.count == n && st.buf == bytes[..n] + buf[n..]
    ensures n > |buf| ==> st.count == |buf| && st.buf == bytes
  {
    hide Execute, Next, Enabled, Reached;
    run, st := Answered(heap, buf, p, q, bytes, n);
    run, st := Ended(heap, buf, run, st, bytes, n);
    ResultIsHonest(heap, buf, run, st);
    assert bytes[..|buf|] == bytes && buf[|buf|..] == [];
  }

  /** Byte after byte, and the count last. */
  lemma Answered(heap: map<Ptr, Block>, buf: seq<Octet>, p: Ptr, q: Ptr, bytes: seq<Octet>, n: nat)
    returns (run: seq<Action>, st: State)
    requires p != 0 && q != 0 && p != q && p !in heap && q !in heap && |bytes| == |buf|
    ensures Reached(heap, buf, run, st) && st.caller == AtSelect && st.worker == Got(0)
    ensures st.reply == Reply(0, bytes, n)
  {
    hide Execute, Reached;
    WaitingReached(heap, buf, p, q);
    run := [MallocData(p)] + [MallocSize(q)] + [Spawn] + [Call];
    st := Waiting(heap, buf, p, q);
    run, st := Written(heap, buf, run, st, bytes, |bytes|);
    run, st := Extended(heap, buf, run, st, WriteSize(n));
    run, st := Extended(heap, buf, run, st, ReadReturns(0));
  }

  lemma {:induction false} Written(heap: map<Ptr, Block>, buf: seq<Octet>, run: seq<Action>, st: State,
                                   bytes: seq<Octet>, k: nat)
    returns (run': seq<Action>, st': State)
    requires Reached(heap, buf, run, st) && st.caller == AtSelect && st.worker == Reading && Pointed(st)
    requires k <= |bytes| == |buf| == |st.buf| && st.data != st.size
    ensures Reached(heap, buf, run', st') && st'.caller == AtSelect && st'.worker == Reading && Pointed(st')
    ensures st'.data != st'.size && |st'.buf| == |buf| && st'.heap[st'.data].bytes[..k] == bytes[..k]
    decreases k
  {
    hide Execute, Reached;
    if k == 0 {
      run', st' := run, st;
    } else {
      run', st' := Written(heap, buf, run, st, bytes, k - 1);
      var was := st'.heap[st'.data].bytes;
      run', st' := Extended(heap, buf, run', st', WriteByte(k - 1, bytes[k - 1]));
      assert st'.heap[st'.data].bytes == was[k - 1 := bytes[k - 1]];
      assert bytes[..k] == bytes[..k - 1] + [bytes[k - 1]];
      assert st'.heap[st'.data].bytes[..k] == was[..k - 1] + [bytes[k - 1]];
    }
  }

  lemma Ended(heap: map<Ptr, Block>, buf: seq<Octet>, run: seq<Action>, st: State, bytes: seq<Octet>, n: nat)
    returns (run': seq<Action>, st': State)
    requires Reached(heap, buf, run, st) && st.caller == AtSelect && st.worker == Got(0)
    requires st.reply == Reply(0, bytes, n)
    ensures Reached(heap, buf, run', st') && st'.caller == Returned(0) && st'.reply == Reply(0, bytes, n)
  {
    hide Execute, Reached, BytesAt, CountAt;
    run', st' := Accepted(heap, buf, run, st, bytes, n);
    run', st' := Extended(heap, buf, run', st', Copy);
    run', st' := Extended(heap, buf, run', st', FreeSize);
    run', st' := Extended(heap, buf, run', st', FreeData);
  }

  lemma Accepted(heap: map<Ptr, Block>, buf: seq<Octet>, run: seq<Action>, st: State, bytes: seq<Octet>, n: nat)
    returns (run': seq<Action>, st': State)
    requires Reached(heap, buf, run, st) && st.caller == AtSelect && st.worker == Got(0)
    requires st.reply == Reply(0, bytes, n)
    ensures Reached(heap, buf, run', st') && st'.caller == Copying && st'.reply == Reply(0, bytes, n)
  {
    hide Execute, Reached, HeapOk, ResultOk, ReplyOk;
    ReachedIsSafe(heap, buf, run, st);
    run', st' := Extended(heap, buf, run, st, Send);
    run', st' := Extended(heap, buf, run', st', TakeDone);
  }

  /** Until it has returned, somebody can always act. */
  lemma NobodyIsStuck(heap: map<Ptr, Block>, buf: seq<Octet>, run: seq<Action>, st: State) returns (a: Action)
    requires Reached(heap, buf, run, st) && !st.caller.Returned? && 0 !in heap
    ensures Enabled(st, a) && !a.WriteByte? && !a.WriteSize?
  {
    hide Delivered, Reached;
    ReachedIsSafe(heap, buf, run, st);
    a := match st.caller
      case AtData => MallocData(0)
      case AtSize => MallocSize(0)
      case AtSpawn => Spawn
      case Copying => Copy
      case FreeingSize(_) => FreeSize
      case FreeingData(_) => FreeData
      case _ =>
        if st.worker == Started then Call
        else if st.worker == Reading then ReadReturns(0)
        else if st.worker.Got? then Send
        else if st.caller == AtSelect then TakeDone
        else Reap;
  }

  function CallerRank(c: Caller): nat {
    match c
    case AtData => 8
    case AtSize => 7
    case AtSpawn => 6
    case AtSelect => 5
    case Reaping => 4
    case Copying => 3
    case FreeingSize(_) => 2
    case FreeingData(_) => 1
    case Returned(_) => 0
  }

  function WorkerRank(w: Worker): nat {
    match w
    case NotStarted => 4
    case Started => 3
    case Reading => 2
    case Got(_) => 1
    case Sent => 0
  }

  function Rank(st: State): nat {
    CallerRank(st.caller) + WorkerRank(st.worker) + if st.fired then 0 else 1
  }

  function Turns(run: seq<Action>): nat {
    if run == [] then 0 else (if run[0].WriteByte? || run[0].WriteSize? then 0 else 1) + Turns(run[1..])
  }

  lemma EachTurnCounts(st: State, a: Action)
    requires Enabled(st, a) && WorkerOk(st)
    ensures Rank(Next(st, a)) + (if a.WriteByte? || a.WriteSize? then 0 else 1) <= Rank(st)
  {}

  lemma {:induction false} TurnsAreCounted(st: State, run: seq<Action>, heap: map<Ptr, Block>, buf: seq<Octet>)
    requires Safe(st, heap, buf) && Execute(st, run).At?
    ensures Turns(run) + Rank(Execute(st, run).state) <= Rank(st)
    decreases |run|
  {
    hide Rank, Enabled, Next, WorkerOk, ReplyOk, HeapOk, ResultOk;
    if run == [] {
    } else {
      EachTurnCounts(st, run[0]);
      NextKeeps(st, run[0], heap, buf);
      TurnsAreCounted(Next(st, run[0]), run[1..], heap, buf);
    }
  }

  /** Besides the kernel's writes, no run has more than thirteen steps. */
  lemma {:induction false} RunsAreShort(heap: map<Ptr, Block>, buf: seq<Octet>, run: seq<Action>, st: State)
    requires Reached(heap, buf, run, st)
    ensures Turns(run) <= 13
  {
    TurnsAreCounted(Init(heap, buf), run, heap, buf);
  }
}
