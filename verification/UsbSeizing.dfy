/** Devices taken from another owner: the call that takes them exists only in
    the newer interfaces, and the mark never outlives the open handle. */
module UsbSeizing {
  import opened IOReturn
  import opened UsbRegistry
  import opened UsbHandles
  import opened UsbRuns

  /** A device marked as seized is open, through an interface that has the call. */
  predicate SeizedOk(st: State) {
    forall h :: 0 <= h < |st.handles| ==> SeizedAt(st.handles[h], st.world.entries)
  }

  predicate SeizedAt(h: Handle, entries: map<Token, Entry>) {
    h.kind == DeviceKind && h.seized ==> h.open && h.ref in entries && entries[h.ref].dev != 0 && entries[h.ref].hasTO
  }

  /** Filtering touches no entry older than the enumeration and keeps only unmarked handles. */
  lemma {:induction false} FilteredLeaves(w: World, kind: Kind, found: seq<Found>, first: Token, k: nat)
    requires k <= |found|
    ensures forall x <- Filtered(w, kind, found, first, k).0 :: !x.seized
    ensures var w' := Filtered(w, kind, found, first, k).1;
      forall t :: t in w.entries && t < first ==> t in w'.entries && w'.entries[t] == w.entries[t]
    decreases k
  {
    if k == 0 {
    } else {
      FilteredLeaves(w, kind, found, first, k - 1);
      FilteredMore(w, kind, found, first, k);
    }
  }

  lemma {:induction false} EnumerateSeizes(st: State, kind: Kind, found: seq<Found>)
    requires Safe(st) && SeizedOk(st) && forall k :: 0 <= k < |found| ==> found[k].service != 0
    ensures var (kept, w) := Filtered(Drained(st.world, found), kind, found, st.world.next, |found|);
      SeizedOk(State(w, st.handles + kept))
  {
    hide LedgerOk, OwnersOk, OpenOk, SeizedAt, Filtered;
    DrainedKeeps(st.world, found);
    var w1 := Drained(st.world, found);
    FilteredLeaves(w1, kind, found, st.world.next, |found|);
    var (kept, w) := Filtered(w1, kind, found, st.world.next, |found|);
    var handles := st.handles + kept;
    forall h | 0 <= h < |handles|
      ensures SeizedAt(handles[h], w.entries)
    {
      if h < |st.handles| {
        SeizedStays(st.handles[h], st.world.entries, w.entries);
      } else {
        assert handles[h] in kept;
        UnmarkedIsFine(handles[h], w.entries);
      }
    }
  }

  lemma SeizedStays(h: Handle, before: map<Token, Entry>, after: map<Token, Entry>)
    requires SeizedAt(h, before)
    requires h.ref in before && before[h.ref].dev != 0 ==> h.ref in after && after[h.ref] == before[h.ref]
    ensures SeizedAt(h, after)
  {}

  lemma UnmarkedIsFine(h: Handle, entries: map<Token, Entry>)
    requires !h.seized
    ensures SeizedAt(h, entries)
  {}

  /** An open or a description changes no entry that has its interface, and an
      open that seizes a device succeeds only through one that has the call. */
  lemma OpenedLeaves(w: World, kind: Kind, tok: Token, seize: bool, a: Answers, call: int)
    ensures var (w', answer) := Opened(w, kind, tok, seize, a, call);
      && (forall t :: t in w.entries && w.entries[t].dev != 0 ==> t in w'.entries && w'.entries[t] == w.entries[t])
      && (answer == Code(SUCCESS) ==> tok in w'.entries && w'.entries[tok].dev != 0)
      && (answer == Code(SUCCESS) && kind == DeviceKind && seize ==> w'.entries[tok].hasTO)
  {
    hide Attached;
    if tok in w.entries {
      AttachedKeeps(w.entries[tok], Candidates(kind), a);
    }
  }

  lemma OpenSeizes(st: State, h: nat, seize: bool, a: Answers, call: int)
    requires Safe(st) && SeizedOk(st) && h < |st.handles|
    ensures var (x, w, outcome) := HandleOpened(st.handles[h], st.world, seize, a, call);
      SeizedOk(State(w, st.handles[h := x]))
  {
    hide Safe, Opened;
    OpenedLeaves(st.world, st.handles[h].kind, st.handles[h].ref, seize, a, call);
    var (x, w, outcome) := HandleOpened(st.handles[h], st.world, seize, a, call);
    var handles := st.handles[h := x];
    forall g | 0 <= g < |handles|
      ensures SeizedAt(handles[g], w.entries)
    {
      assert SeizedAt(st.handles[g], st.world.entries);
    }
  }

  lemma DescribeSeizes(st: State, tok: Token, a: Answers, call: int)
    requires SeizedOk(st)
    ensures SeizedOk(State(Opened(st.world, DeviceKind, tok, false, a, call).0, st.handles))
  {
    hide Opened;
    OpenedLeaves(st.world, DeviceKind, tok, false, a, call);
    var w := Opened(st.world, DeviceKind, tok, false, a, call).0;
    forall g | 0 <= g < |st.handles|
      ensures SeizedAt(st.handles[g], w.entries)
    {
      assert SeizedAt(st.handles[g], st.world.entries);
    }
  }

  lemma CloseSeizes(st: State, h: nat, call: int)
    requires Safe(st) && SeizedOk(st) && h < |st.handles|
    ensures var (x, w, outcome) := HandleClosed(st.handles[h], st.world, call);
      SeizedOk(State(w, st.handles[h := x]))
  {
    hide LedgerOk, TokensOk, ClosedAnswer;
    var (x, w, outcome) := HandleClosed(st.handles[h], st.world, call);
    var handles := st.handles[h := x];
    forall g | 0 <= g < |handles|
      ensures SeizedAt(handles[g], w.entries)
    {
      assert SeizedAt(st.handles[g], st.world.entries);
    }
  }

  lemma StepSeizes(st: State, a: Action)
    requires Safe(st) && SeizedOk(st) && Step(st, a).At?
    ensures SeizedOk(Step(st, a).state)
  {
    hide Safe, SeizedOk, Opened, HandleOpened, HandleClosed, Filtered, Drained;
    match a
    case Enumerate(kind, found) => EnumerateSeizes(st, kind, found);
    case Open(h, seize, a, call) => OpenSeizes(st, h, seize, a, call);
    case Describe(h, a, _, call) => DescribeSeizes(st, st.handles[h].ref, a, call);
    case Close(h, call) => CloseSeizes(st, h, call);
  }

  lemma {:induction false} RunSeizes(st: State, run: seq<Action>)
    requires Safe(st) && SeizedOk(st) && Execute(st, run).At?
    ensures SeizedOk(Execute(st, run).state)
    decreases |run|
  {
    hide Safe, SeizedOk, Step;
    if |run| == 0 {
    } else {
      StepKeeps(st, run[0]);
      StepSeizes(st, run[0]);
      RunSeizes(Step(st, run[0]).state, run[1..]);
    }
  }

  /** Over any run, a device that says it was seized is open and was reached
      through an interface new enough to have the seizing call. */
  lemma SeizedIsOpenAndNew(run: seq<Action>, st: State, h: nat)
    requires Reached(run, st) && h < |st.handles| && st.handles[h].kind == DeviceKind && st.handles[h].seized
    ensures st.handles[h].open && st.handles[h].ref in st.world.entries && st.world.entries[st.handles[h].ref].hasTO
  {
    RunSeizes(INIT, run);
    assert SeizedAt(st.handles[h], st.world.entries);
  }
}
