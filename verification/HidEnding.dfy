/** No state of the streaming lifecycle is a dead end. */
module HidEnding {
  import opened HidOverlap
  import opened HidResults
  import opened HidRouting
  import opened HidSafety
  import opened HidStream

  // ----- Returning the calls -----

  /** The handler on the thread of a call can be run to its end. */
  lemma Landed(st: State, s: nat) returns (run: seq<Action>, st': State)
    requires Safe(st) && s < |st.streams|
    ensures Leads(st, run, st') && Safe(st') && s !in st'.flying && st'.streams == st.streams
  {
    hide Safe, Leads, Handed;
    if s !in st.flying {
      run, st' := [], st;
      LeadsNowhere(st);
    } else if st.flying[s].handed {
      run, st' := HandlerEnds(st, s);
    } else {
      var mid := Next(st, HandOver(s));
      NextKeeps(st, HandOver(s));
      LeadsOne(st, HandOver(s));
      run, st' := HandlerEnds(mid, s);
      LeadsOn(st, [HandOver(s)], mid, run, st');
      run := [HandOver(s)] + run;
    }
  }

  lemma HandlerEnds(st: State, s: nat) returns (run: seq<Action>, st': State)
    requires Safe(st) && s in st.flying && st.flying[s].handed
    ensures Leads(st, run, st') && Safe(st') && s !in st'.flying && st'.streams == st.streams
  {
    hide Safe, Leads;
    run, st' := [Handled(s)], Next(st, Handled(s));
    NextKeeps(st, Handled(s));
    LeadsOne(st, Handled(s));
  }

  /** Wherever a call stands, it can be brought to its return with no other call moving. */
  lemma CallCanReturn(st: State, s: nat) returns (run: seq<Action>, st': State)
    requires Safe(st) && s < |st.streams|
    ensures Leads(st, run, st') && Safe(st') && OthersStay(st, st', s) && Returned(st'.streams[s])
  {
    hide Safe, Leads, Returned;
    var a, mid := Landed(st, s);
    run, st' := DriveHome(mid, s);
    LeadsOn(st, a, mid, run, st');
    run := a + run;
  }

  predicate AllReturned(streams: seq<Stream>, k: nat) {
    k <= |streams| && forall s :: 0 <= s < k ==> Returned(streams[s])
  }

  lemma {:induction false} CallsCanReturn(st: State, k: nat) returns (run: seq<Action>, st': State)
    requires Safe(st) && k <= |st.streams|
    ensures Leads(st, run, st') && Safe(st') && |st'.streams| == |st.streams| && AllReturned(st'.streams, k)
    decreases k
  {
    hide Safe, Leads, Returned;
    if k == 0 {
      run, st' := [], st;
      LeadsNowhere(st);
    } else {
      var a, mid := CallsCanReturn(st, k - 1);
      run, st' := CallCanReturn(mid, k - 1);
      LeadsOn(st, a, mid, run, st');
      run := a + run;
    }
  }

  // ----- Closing the handles -----

  lemma {:induction false} NoClaims(streams: seq<Stream>)
    requires AllReturned(streams, |streams|)
    ensures Claims(streams) == multiset{}
    decreases |streams|
  {
    if streams == [] {
    } else {
      assert Returned(streams[0]);
      assert forall s :: 0 <= s < |streams| - 1 ==> streams[1..][s] == streams[s + 1];
      NoClaims(streams[1..]);
    }
  }

  lemma CloseReleases(st: State, h: nat)
    requires Safe(st) && AllReturned(st.streams, |st.streams|) && h < |st.handles|
    ensures var st' := Next(st, Close(h));
      && Safe(st') && st'.streams == st.streams
      && st'.handles == st.handles[h := st'.handles[h]] && st'.handles[h].ref == 0
  {
    NoClaims(st.streams);
    NextKeeps(st, Close(h));
    hide OpenOk, LedgerOk, HoldsOk, HeapOk, AttachedOk, ScheduledOk, RegistryOk, FlyingOk, Claims, Returned;
  }

  predicate AllClosed(handles: seq<Handle>, k: nat) {
    k <= |handles| && forall h :: 0 <= h < k ==> handles[h].ref == 0
  }

  lemma {:induction false} HandlesCanClose(st: State, k: nat) returns (run: seq<Action>, st': State)
    requires Safe(st) && AllReturned(st.streams, |st.streams|) && k <= |st.handles|
    ensures Leads(st, run, st') && Safe(st') && st'.streams == st.streams
    ensures |st'.handles| == |st.handles| && AllClosed(st'.handles, k)
    decreases k
  {
    hide Safe, Leads, Next, AllReturned;
    if k == 0 {
      run, st' := [], st;
      LeadsNowhere(st);
    } else {
      var a, mid := HandlesCanClose(st, k - 1);
      run, st' := a + [Close(k - 1)], Next(mid, Close(k - 1));
      CloseReleases(mid, k - 1);
      LeadsOne(mid, Close(k - 1));
      LeadsOn(st, a, mid, [Close(k - 1)], st');
    }
  }

  // ----- Nothing is left -----

  lemma {:induction false} NothingHeld(handles: seq<Handle>)
    requires AllClosed(handles, |handles|)
    ensures HeldRefs(handles) == multiset{}
    decreases |handles|
  {
    if handles == [] {
    } else {
      assert forall h :: 0 <= h < |handles| - 1 ==> handles[1..][h] == handles[h + 1];
      NothingHeld(handles[1..]);
    }
  }

  lemma NothingLeft(st: State)
    requires Safe(st) && AllReturned(st.streams, |st.streams|) && AllClosed(st.handles, |st.handles|)
    ensures st.heap == map[] && st.attached == map[] && st.scheduled == {} && st.registry == map[]
    ensures st.flying == map[] && st.retained == st.released
  {
    NothingHeld(st.handles);
    hide OpenOk, CountsOk, HoldsOk, Claims, HeldRefs;
    assert forall s :: 0 <= s < |st.streams| ==> Returned(st.streams[s]);
    assert forall p :: p !in st.heap;
    assert forall r :: r !in st.attached;
    assert forall r :: r !in st.registry;
    assert forall z :: z !in st.flying;
    assert forall e :: e !in st.scheduled;
  }

  /** From any reachable state, whatever the calls of Stream are doing and
      however they share devices, all of them can return and all handles be closed with
      no further start; then every reference retained has been released, and no block,
      callback, schedule or registry entry is left. */
  lemma {:induction false} EverythingCanEnd(run: seq<Action>, st: State) returns (more: seq<Action>, st': State)
    requires Reached(run, st)
    ensures Leads(st, more, st') && |st'.streams| == |st.streams|
    ensures forall s :: 0 <= s < |st'.streams| ==> Returned(st'.streams[s])
    ensures forall h :: 0 <= h < |st'.handles| ==> st'.handles[h].ref == 0
    ensures st'.retained == st'.released && st'.heap == map[] && st'.attached == map[]
    ensures st'.scheduled == {} && st'.registry == map[] && st'.flying == map[]
  {
    hide Safe, Leads, Reached, Returned;
    ReachedIsSafe(run, st);
    var a, mid := CallsCanReturn(st, |st.streams|);
    more, st' := HandlesCanClose(mid, |mid.handles|);
    LeadsOn(st, a, mid, more, st');
    more := a + more;
    NothingLeft(st');
  }
}
