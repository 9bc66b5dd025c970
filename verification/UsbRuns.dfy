/** Whole runs of enumerating, opening, describing and closing: tokens are never
    reused, and what is held from IOKit is what the live entries account for. */
module UsbRuns {
  import opened IOReturn
  import opened UsbRegistry
  import opened UsbHandles

  datatype State = State(world: World, handles: seq<Handle>)

  datatype Action =
    | Enumerate(kind: Kind, found: seq<Found>)
    | Open(h: nat, seize: bool, a: Answers, call: int)
    // slot is whether there is memory for the descriptor's out-parameter
    | Describe(h: nat, a: Answers, slot: bool, call: int)
    | Close(h: nat, call: int)

  /** Where an action leads; a call through a null interface ends the process. */
  datatype Result = Stuck | At(state: State) | Ended

  const INIT: State := State(EMPTY, [])

  function Settle(w: World, handles: seq<Handle>, crashed: bool): Result {
    if crashed then Ended else At(State(w, handles))
  }

  function Step(st: State, a: Action): Result {
    match a
    case Enumerate(kind, found) =>
      if exists k :: 0 <= k < |found| && found[k].service == 0 then Stuck
      else
        var (kept, w) := Filtered(Drained(st.world, found), kind, found, st.world.next, |found|);
        At(State(w, st.handles + kept))
    case Open(h, seize, a, call) =>
      if |st.handles| <= h then Stuck
      else
        var (x, w, outcome) := HandleOpened(st.handles[h], st.world, seize, a, call);
        Settle(w, st.handles[h := x], outcome == Crashed)
    case Describe(h, a, slot, call) =>
      if |st.handles| <= h || st.handles[h].kind != DeviceKind then Stuck
      else
        var (w, answer) := Opened(st.world, DeviceKind, st.handles[h].ref, false, a, call);
        Settle(w, st.handles, slot && answer == Fault)
    case Close(h, call) =>
      if |st.handles| <= h then Stuck
      else
        var (x, w, outcome) := HandleClosed(st.handles[h], st.world, call);
        At(State(w, st.handles[h := x]))
  }

  ghost function Execute(st: State, run: seq<Action>): Result
    decreases |run|
  {
    if |run| == 0 then At(st)
    else
      var r := Step(st, run[0]);
      if r.At? then Execute(r.state, run[1..]) else r
  }

  // ----- The invariant -----

  /** A service is held, and only an interface can have the timeout variants. */
  predicate EntryOk(e: Entry) { e.service != 0 && (e.hasTO ==> e.dev != 0) }

  predicate TokensOk(w: World) {
    0 < w.next && forall t :: t in w.entries ==> 0 < t < w.next && EntryOk(w.entries[t])
  }

  datatype Part = ServicePart | IfacePart

  function Nonzero(x: nat): multiset<nat> { if x == 0 then multiset{} else multiset{x} }

  function Share(e: Entry, part: Part): multiset<nat> {
    match part
    case ServicePart => Nonzero(e.service)
    case IfacePart => Nonzero(e.dev)
  }

  function ShareAt(entries: map<Token, Entry>, part: Part, t: Token): multiset<nat> {
    if t in entries then Share(entries[t], part) else multiset{}
  }

  /** What the entries with tokens below n hold. */
  function Held(entries: map<Token, Entry>, part: Part, n: nat): multiset<nat> {
    if n == 0 then multiset{} else Held(entries, part, n - 1) + ShareAt(entries, part, n - 1)
  }

  predicate LedgerOk(w: World) {
    w.services == Held(w.entries, ServicePart, w.next) && w.ifaces == Held(w.entries, IfacePart, w.next)
  }

  predicate HeldBy(handles: seq<Handle>, t: Token) { exists h :: 0 <= h < |handles| && handles[h].ref == t }

  /** Each entry belongs to one handle, save those with tokens from lo to hi,
      which no handle has yet. */
  predicate OwnersOk(entries: map<Token, Entry>, handles: seq<Handle>, lo: Token, hi: Token) {
    && (forall h :: 0 <= h < |handles| && handles[h].ref != 0 ==>
        handles[h].ref in entries && !(lo <= handles[h].ref < hi))
    && (forall g, h :: 0 <= g < h < |handles| && handles[g].ref != 0 ==> handles[g].ref != handles[h].ref)
    && (forall t :: t in entries ==> lo <= t < hi || HeldBy(handles, t))
  }

  predicate OpenOk(entries: map<Token, Entry>, handles: seq<Handle>) {
    forall h :: 0 <= h < |handles| && handles[h].open ==>
      handles[h].ref != 0 && handles[h].ref in entries && entries[handles[h].ref].dev != 0
  }

  predicate Safe(st: State) {
    && TokensOk(st.world) && LedgerOk(st.world)
    && OwnersOk(st.world.entries, st.handles, 0, 0) && OpenOk(st.world.entries, st.handles)
  }

  // ----- The ledger -----

  lemma {:induction false} HeldFrame(a: map<Token, Entry>, b: map<Token, Entry>, part: Part, n: nat)
    requires forall t :: 0 <= t < n ==> ShareAt(a, part, t) == ShareAt(b, part, t)
    ensures Held(a, part, n) == Held(b, part, n)
  {
    hide ShareAt;
    if n == 0 {
    } else {
      HeldFrame(a, b, part, n - 1);
    }
  }

  /** Changing one entry changes what is held by that entry's share. */
  lemma {:induction false} HeldChanged(a: map<Token, Entry>, b: map<Token, Entry>, part: Part, t: Token, n: nat, x: nat)
    requires t < n && forall i :: 0 <= i < n && i != t ==> ShareAt(a, part, i) == ShareAt(b, part, i)
    ensures Held(b, part, n)[x] + ShareAt(a, part, t)[x] == Held(a, part, n)[x] + ShareAt(b, part, t)[x]
  {
    hide ShareAt;
    if n == t + 1 {
      HeldFrame(a, b, part, t);
    } else {
      HeldChanged(a, b, part, t, n - 1, x);
    }
  }

  lemma PartAttached(entries: map<Token, Entry>, t: Token, e: Entry, part: Part, n: nat, gained: multiset<nat>)
    requires t in entries && t < n && Share(e, part) == Share(entries[t], part) + gained
    ensures Held(entries[t := e], part, n) == Held(entries, part, n) + gained
  {
    hide Held, Share;
    forall x: nat
      ensures Held(entries[t := e], part, n)[x] == (Held(entries, part, n) + gained)[x]
    {
      HeldChanged(entries, entries[t := e], part, t, n, x);
    }
  }

  lemma LedgerAttached(w: World, t: Token, e: Entry)
    requires TokensOk(w) && LedgerOk(w) && t in w.entries
    requires e.service == w.entries[t].service && (w.entries[t].dev != 0 ==> e == w.entries[t])
    ensures LedgerOk(w.(entries := w.entries[t := e], ifaces := w.ifaces + Gained(w.entries[t], e)))
  {
    hide Held;
    PartAttached(w.entries, t, e, ServicePart, w.next, multiset{});
    PartAttached(w.entries, t, e, IfacePart, w.next, Gained(w.entries[t], e));
  }

  lemma {:induction false} PartReleased(entries: map<Token, Entry>, t: Token, part: Part, n: nat, v: nat)
    requires t in entries && t < n && Share(entries[t], part) == Nonzero(v)
    ensures Without(Held(entries, part, n), v) == Held(entries - {t}, part, n)
  {
    hide Held, Share;
    HeldChanged(entries, entries - {t}, part, t, n, v);
    forall x: nat
      ensures Without(Held(entries, part, n), v)[x] == Held(entries - {t}, part, n)[x]
    {
      HeldChanged(entries, entries - {t}, part, t, n, x);
    }
  }

  lemma LedgerReleased(w: World, t: Token)
    requires TokensOk(w) && LedgerOk(w) && t in w.entries
    ensures LedgerOk(Released(w, t))
  {
    hide Held, Without;
    PartReleased(w.entries, t, ServicePart, w.next, w.entries[t].service);
    PartReleased(w.entries, t, IfacePart, w.next, w.entries[t].dev);
  }

  lemma PartEnrolled(entries: map<Token, Entry>, n: nat, e: Entry, part: Part)
    requires n !in entries
    ensures Held(entries[n := e], part, n + 1) == Held(entries, part, n) + Share(e, part)
  {
    HeldFrame(entries, entries[n := e], part, n);
  }

  lemma LedgerEnrolled(w: World, service: nat)
    requires TokensOk(w) && LedgerOk(w) && service != 0
    ensures LedgerOk(Enrolled(w, service)) && TokensOk(Enrolled(w, service))
  {
    hide Held;
    PartEnrolled(w.entries, w.next, Entry(service, 0, false), ServicePart);
    PartEnrolled(w.entries, w.next, Entry(service, 0, false), IfacePart);
  }

  // ----- Every action keeps the invariant -----

  /** The world after the iterator has handed over some services, against the one before. */
  ghost predicate Extends(w: World, w': World, n: nat) {
    && w'.next == w.next + n
    && (forall t :: t in w'.entries <==> t in w.entries || w.next <= t < w'.next)
    && (forall t :: t in w.entries ==> w'.entries[t] == w.entries[t])
  }

  lemma {:induction false} DrainedKeeps(w: World, found: seq<Found>)
    requires TokensOk(w) && LedgerOk(w) && forall k :: 0 <= k < |found| ==> found[k].service != 0
    ensures var w' := Drained(w, found); TokensOk(w') && LedgerOk(w') && Extends(w, w', |found|)
    decreases |found|
  {
    hide LedgerOk;
    if found == [] {
    } else {
      hide TokensOk, Extends, Enrolled;
      var before, x := found[..|found| - 1], found[|found| - 1];
      DrainedKeeps(w, before);
      LedgerEnrolled(Drained(w, before), x.service);
      ExtendsMore(w, Drained(w, before), |found| - 1, x.service);
    }
  }

  lemma ExtendsMore(w: World, w': World, n: nat, service: nat)
    requires TokensOk(w) && Extends(w, w', n)
    ensures Extends(w, Enrolled(w', service), n + 1)
  {}

  /** Where the filter loop stands: the services from first on are still to be sorted, up to hi. */
  ghost predicate Sorting(w: World, handles: seq<Handle>, first: Token, hi: Token) {
    && TokensOk(w) && LedgerOk(w) && w.next == hi && 0 < first <= hi
    && OwnersOk(w.entries, handles, first, hi) && OpenOk(w.entries, handles)
    && (forall t :: first <= t < hi ==> t in w.entries)
  }

  /** What enumerating has done after k turns of its filter loop. */
  lemma {:induction false} FilteredKeeps(w: World, handles: seq<Handle>, kind: Kind, found: seq<Found>, first: Token,
                                         k: nat)
    requires k <= |found| && first + |found| == w.next && Sorting(w, handles, first, w.next)
    ensures var (kept, w') := Filtered(w, kind, found, first, k); Sorting(w', handles + kept, first + k, w.next)
    decreases k
  {
    hide Sorting, Released;
    if k == 0 {
      assert handles + [] == handles;
    } else {
      hide Filtered;
      FilteredKeeps(w, handles, kind, found, first, k - 1);
      var before := Filtered(w, kind, found, first, k - 1);
      SiftKeeps(before.1, handles, before.0, kind, found[k - 1].keep, first + k - 1, w.next);
      FilteredMore(w, kind, found, first, k);
    }
  }

  /** One turn: the next token goes to a new handle, or is released. */
  lemma SiftKeeps(w: World, handles: seq<Handle>, kept: seq<Handle>, kind: Kind, keep: bool, tok: Token, hi: Token)
    requires Sorting(w, handles + kept, tok, hi) && tok < hi
    ensures keep ==> Sorting(w, handles + (kept + [Handle(kind, tok, false, false)]), tok + 1, hi)
    ensures !keep ==> Sorting(Released(w, tok), handles + kept, tok + 1, hi)
  {
    hide Sorting, Released;
    if keep {
      KeepOne(w, handles + kept, Handle(kind, tok, false, false), tok, hi);
      assert handles + kept + [Handle(kind, tok, false, false)] == handles + (kept + [Handle(kind, tok, false, false)]);
    } else {
      ReleaseOne(w, handles + kept, tok, hi);
    }
  }

  lemma KeepOne(w: World, handles: seq<Handle>, x: Handle, lo: Token, hi: Token)
    requires Sorting(w, handles, lo, hi) && lo < hi && x.ref == lo && !x.open
    ensures Sorting(w, handles + [x], lo + 1, hi)
  {
    hide LedgerOk;
    var more := handles + [x];
    forall t | t in w.entries
      ensures lo + 1 <= t < hi || HeldBy(more, t)
    {
      if t == lo {
        assert more[|handles|].ref == t;
      } else if !(lo <= t < hi) {
        var h :| 0 <= h < |handles| && handles[h].ref == t;
        assert more[h].ref == t;
      }
    }
  }

  lemma ReleaseOne(w: World, handles: seq<Handle>, lo: Token, hi: Token)
    requires Sorting(w, handles, lo, hi) && lo < hi
    ensures Sorting(Released(w, lo), handles, lo + 1, hi)
  {
    LedgerReleased(w, lo);
    OwnersReleased(w.entries, handles, lo, hi);
    hide LedgerOk, OwnersOk, OpenOk;
  }

  lemma OwnersReleased(entries: map<Token, Entry>, handles: seq<Handle>, lo: Token, hi: Token)
    requires OwnersOk(entries, handles, lo, hi) && OpenOk(entries, handles) && 0 < lo < hi
    ensures OwnersOk(entries - {lo}, handles, lo + 1, hi) && OpenOk(entries - {lo}, handles)
  {
    hide HeldBy;
  }

  lemma {:induction false} EnumerateKeeps(st: State, kind: Kind, found: seq<Found>)
    requires Safe(st) && forall k :: 0 <= k < |found| ==> found[k].service != 0
    ensures var (kept, w) := Filtered(Drained(st.world, found), kind, found, st.world.next, |found|);
      Safe(State(w, st.handles + kept)) && w.next == st.world.next + |found|
  {
    hide LedgerOk;
    DrainedKeeps(st.world, found);
    var w := Drained(st.world, found);
    FilteredKeeps(w, st.handles, kind, found, st.world.next, |found|);
    var (kept, w') := Filtered(w, kind, found, st.world.next, |found|);
    EmptyInterval(w'.entries, st.handles + kept, w.next);
  }

  lemma EmptyInterval(entries: map<Token, Entry>, handles: seq<Handle>, lo: Token)
    requires OwnersOk(entries, handles, lo, lo)
    ensures OwnersOk(entries, handles, 0, 0)
  {}

  /** An attach keeps the service, and an interface once there. */
  lemma AttachedKeeps(e: Entry, cands: seq<bool>, a: Answers)
    ensures Attached(e, cands, a).0.service == e.service
    ensures e.dev != 0 ==> Attached(e, cands, a).0 == e
    ensures EntryOk(e) ==> EntryOk(Attached(e, cands, a).0)
  {}

  lemma OwnersAttached(entries: map<Token, Entry>, handles: seq<Handle>, tok: Token, e: Entry)
    requires OwnersOk(entries, handles, 0, 0) && OpenOk(entries, handles) && tok in entries
    requires entries[tok].dev != 0 ==> e == entries[tok]
    ensures OwnersOk(entries[tok := e], handles, 0, 0) && OpenOk(entries[tok := e], handles)
  {
    hide HeldBy;
  }

  /** The world after an open: unchanged, or with one entry attached. */
  lemma OpenedIs(w: World, kind: Kind, tok: Token, seize: bool, a: Answers, call: int)
    requires tok in w.entries
    ensures var e := Attached(w.entries[tok], Candidates(kind), a).0;
      var (w', answer) := Opened(w, kind, tok, seize, a, call);
      && w' == w.(entries := w.entries[tok := e], ifaces := w.ifaces + Gained(w.entries[tok], e))
      && (answer == Code(SUCCESS) ==> e.dev != 0)
  {
    hide Attached, Candidates, Gained;
  }

  lemma AttachedIsSafe(st: State, tok: Token, e: Entry)
    requires Safe(st) && tok in st.world.entries && EntryOk(e) && e.service == st.world.entries[tok].service
    requires st.world.entries[tok].dev != 0 ==> e == st.world.entries[tok]
    ensures var w := st.world;
      Safe(State(w.(entries := w.entries[tok := e], ifaces := w.ifaces + Gained(w.entries[tok], e)), st.handles))
  {
    LedgerAttached(st.world, tok, e);
    OwnersAttached(st.world.entries, st.handles, tok, e);
    hide LedgerOk, OwnersOk, OpenOk, Gained;
  }

  lemma OpenedKeeps(st: State, kind: Kind, tok: Token, seize: bool, a: Answers, call: int)
    requires Safe(st)
    ensures var (w, answer) := Opened(st.world, kind, tok, seize, a, call);
      && Safe(State(w, st.handles)) && w.next == st.world.next && w.entries.Keys == st.world.entries.Keys
      && (answer == Code(SUCCESS) ==> tok in w.entries && w.entries[tok].dev != 0)
  {
    if tok in st.world.entries {
      var e := Attached(st.world.entries[tok], Candidates(kind), a).0;
      AttachedKeeps(st.world.entries[tok], Candidates(kind), a);
      EntriesAreOk(st, tok);
      hide *;
      OpenedIs(st.world, kind, tok, seize, a, call);
      AttachedIsSafe(st, tok, e);
    } else {
      hide Safe, Attached;
    }
  }

  lemma EntriesAreOk(st: State, tok: Token)
    requires Safe(st) && tok in st.world.entries
    ensures EntryOk(st.world.entries[tok])
  {}

  lemma OpenKeeps(st: State, h: nat, seize: bool, a: Answers, call: int)
    requires Safe(st) && h < |st.handles|
    ensures var (x, w, outcome) := HandleOpened(st.handles[h], st.world, seize, a, call);
      Safe(State(w, st.handles[h := x])) && w.next == st.world.next && w.entries.Keys == st.world.entries.Keys
  {
    hide Opened, LedgerOk;
    OpenedKeeps(st, st.handles[h].kind, st.handles[h].ref, seize, a, call);
    var (x, w, outcome) := HandleOpened(st.handles[h], st.world, seize, a, call);
    OwnerRefKept(w.entries, st.handles, h, x);
  }

  lemma OwnerRefKept(entries: map<Token, Entry>, handles: seq<Handle>, h: nat, x: Handle)
    requires h < |handles| && OwnersOk(entries, handles, 0, 0) && OpenOk(entries, handles) && x.ref == handles[h].ref
    requires x.open ==> x.ref != 0 && x.ref in entries && entries[x.ref].dev != 0
    ensures OwnersOk(entries, handles[h := x], 0, 0) && OpenOk(entries, handles[h := x])
  {
    forall t | t in entries
      ensures HeldBy(handles[h := x], t)
    {
      var g :| 0 <= g < |handles| && handles[g].ref == t;
      assert handles[h := x][g].ref == t;
    }
  }

  lemma CloseKeeps(st: State, h: nat, call: int)
    requires Safe(st) && h < |st.handles|
    ensures var (x, w, outcome) := HandleClosed(st.handles[h], st.world, call);
      && Safe(State(w, st.handles[h := x])) && w.next == st.world.next
      && w.entries.Keys == st.world.entries.Keys - {st.handles[h].ref}
  {
    hide LedgerOk, ClosedAnswer;
    var (x, w, outcome) := HandleClosed(st.handles[h], st.world, call);
    if st.handles[h].ref != 0 {
      LedgerReleased(st.world, st.handles[h].ref);
      var after := st.handles[h := x];
      forall t | t in w.entries
        ensures HeldBy(after, t)
      {
        var g :| 0 <= g < |st.handles| && st.handles[g].ref == t;
        assert after[g].ref == t;
      }
    } else {
      assert st.handles[h := x] == st.handles;
    }
  }

  /** One action keeps the invariant, never takes a token back, and brings in only new ones. */
  lemma StepKeeps(st: State, a: Action)
    requires Safe(st) && Step(st, a).At?
    ensures var st' := Step(st, a).state;
      && Safe(st') && st.world.next <= st'.world.next
      && (forall t :: t in st'.world.entries ==> t in st.world.entries || st.world.next <= t)
  {
    hide Safe, Opened, HandleOpened, HandleClosed, Filtered, Drained;
    match a
    case Enumerate(kind, found) =>
      EnumerateKeeps(st, kind, found);
      EnumeratedTokens(st.world, kind, found);
    case Open(h, seize, a, call) => OpenKeeps(st, h, seize, a, call);
    case Describe(h, a, _, call) => OpenedKeeps(st, DeviceKind, st.handles[h].ref, false, a, call);
    case Close(h, call) => CloseKeeps(st, h, call);
  }

  lemma {:induction false} DrainedTokens(w: World, found: seq<Found>)
    ensures var w' := Drained(w, found);
      w'.next == w.next + |found| && forall t :: t in w'.entries ==> t in w.entries || w.next <= t
    decreases |found|
  {
    if found == [] {
    } else {
      DrainedTokens(w, found[..|found| - 1]);
    }
  }

  lemma {:induction false} FilteredTokens(w: World, kind: Kind, found: seq<Found>, first: Token, k: nat)
    requires k <= |found|
    ensures var w' := Filtered(w, kind, found, first, k).1;
      forall t :: t in w'.entries ==> t in w.entries && w'.entries[t] == w.entries[t]
    decreases k
  {
    if k == 0 {
    } else {
      FilteredTokens(w, kind, found, first, k - 1);
    }
  }

  lemma {:induction false} EnumeratedTokens(w: World, kind: Kind, found: seq<Found>)
    ensures forall t :: t in Filtered(Drained(w, found), kind, found, w.next, |found|).1.entries ==>
      t in w.entries || w.next <= t
  {
    DrainedTokens(w, found);
    FilteredTokens(Drained(w, found), kind, found, w.next, |found|);
  }

  lemma {:induction false} RunKeeps(st: State, run: seq<Action>)
    requires Safe(st) && Execute(st, run).At?
    ensures var st' := Execute(st, run).state;
      && Safe(st') && st.world.next <= st'.world.next
      && (forall t :: t in st'.world.entries ==> t in st.world.entries || st.world.next <= t)
    decreases |run|
  {
    hide Safe, Step;
    if |run| == 0 {
    } else {
      StepKeeps(st, run[0]);
      RunKeeps(Step(st, run[0]).state, run[1..]);
    }
  }

  // ----- What callers may rely on -----

  ghost predicate Reached(run: seq<Action>, st: State) { Execute(INIT, run) == At(st) }

  lemma ReachedIsSafe(run: seq<Action>, st: State)
    requires Reached(run, st)
    ensures Safe(st)
  {
    RunKeeps(INIT, run);
  }

  /** Over any run, what is held from IOKit is one service for each live entry
      and one interface for each attached one. */
  lemma HeldIsLive(run: seq<Action>, st: State)
    requires Reached(run, st)
    ensures st.world.services == Held(st.world.entries, ServicePart, st.world.next)
    ensures st.world.ifaces == Held(st.world.entries, IfacePart, st.world.next)
  {
    ReachedIsSafe(run, st);
  }

  /** The live entries are those of the handles not yet closed, one each. */
  lemma EntriesAreHandles(run: seq<Action>, st: State, t: Token)
    requires Reached(run, st)
    ensures t in st.world.entries <==> t != 0 && HeldBy(st.handles, t)
    ensures forall g, h :: 0 <= g < h < |st.handles| && st.handles[g].ref == t && t != 0 ==> st.handles[h].ref != t
  {
    hide LedgerOk, OpenOk;
    ReachedIsSafe(run, st);
  }

  /** Once every handle is closed, nothing is held and no entry is left. */
  lemma AllClosedHoldsNothing(run: seq<Action>, st: State)
    requires Reached(run, st) && forall h :: 0 <= h < |st.handles| ==> st.handles[h].ref == 0
    ensures st.world.entries == map[] && st.world.services == multiset{} && st.world.ifaces == multiset{}
  {
    ReachedIsSafe(run, st);
    forall t
      ensures t !in st.world.entries
    {
      EntriesAreHandles(run, st, t);
    }
    HeldOfNothing(ServicePart, st.world.next);
    HeldOfNothing(IfacePart, st.world.next);
  }

  lemma {:induction false} HeldOfNothing(part: Part, n: nat)
    ensures Held(map[], part, n) == multiset{}
  {
    if n == 0 {
    } else {
      HeldOfNothing(part, n - 1);
    }
  }

  /** A token given out and dropped never resolves again, whatever follows: no
      call with it reaches anything, whatever it asks and IOKit would answer. Zero never does. */
  lemma {:induction false} DroppedTokenStaysDropped(before: seq<Action>, st: State, after: seq<Action>, st': State,
                                                    t: Token, kind: Kind, seize: bool, a: Answers, call: int)
    requires Reached(before, st) && Execute(st, after) == At(st') && t < st.world.next && t !in st.world.entries
    ensures t !in st'.world.entries
    ensures Opened(st'.world, kind, t, seize, a, call) == (st'.world, Code(ERR_NO_DEVICE))
  {
    hide Safe, Step;
    ReachedIsSafe(before, st);
    RunKeeps(st, after);
  }

  /** What a token resolved to before is what it resolves to now: the same
      service, through the same interface once there is one. */
  predicate Agree(before: map<Token, Entry>, after: map<Token, Entry>, t: Token)
    requires t in before && t in after
  {
    after[t].service == before[t].service && (before[t].dev != 0 ==> after[t] == before[t])
  }

  lemma OpenedAgrees(w: World, kind: Kind, tok: Token, seize: bool, a: Answers, call: int, t: Token)
    requires t in w.entries
    ensures var w' := Opened(w, kind, tok, seize, a, call).0; t in w'.entries && Agree(w.entries, w'.entries, t)
  {
    hide Attached;
    AttachedKeeps(w.entries[t], Candidates(kind), a);
  }

  lemma StepAgrees(st: State, a: Action, t: Token)
    requires Safe(st) && Step(st, a).At? && t in st.world.entries && t in Step(st, a).state.world.entries
    ensures Agree(st.world.entries, Step(st, a).state.world.entries, t)
  {
    hide LedgerOk, OwnersOk, OpenOk, Opened, Filtered, Drained, ClosedAnswer;
    match a
    case Enumerate(kind, found) =>
      DrainedKeeps(st.world, found);
      FilteredTokens(Drained(st.world, found), kind, found, st.world.next, |found|);
    case Open(h, seize, answers, call) =>
      OpenedAgrees(st.world, st.handles[h].kind, st.handles[h].ref, seize, answers, call, t);
    case Describe(h, answers, _, call) =>
      OpenedAgrees(st.world, DeviceKind, st.handles[h].ref, false, answers, call, t);
    case Close(h, call) =>
  }

  /** Over any run, resolving a token twice gives the same object, however the
      registry has changed in between. */
  lemma {:induction false} TokenNamesOneObject(before: seq<Action>, st: State, after: seq<Action>, st': State, t: Token)
    requires Reached(before, st) && Execute(st, after) == At(st') && t in st.world.entries && t in st'.world.entries
    ensures Agree(st.world.entries, st'.world.entries, t)
  {
    ReachedIsSafe(before, st);
    RunAgrees(st, after, t);
  }

  lemma {:induction false} RunAgrees(st: State, run: seq<Action>, t: Token)
    requires Safe(st) && Execute(st, run).At? && t in st.world.entries && t in Execute(st, run).state.world.entries
    ensures Agree(st.world.entries, Execute(st, run).state.world.entries, t)
    decreases |run|
  {
    hide Step, LedgerOk, OwnersOk, OpenOk;
    if |run| == 0 {
    } else {
      var mid := Step(st, run[0]).state;
      StepKeeps(st, run[0]);
      RunKeeps(mid, run[1..]);
      assert t in mid.world.entries;
      StepAgrees(st, run[0], t);
      RunAgrees(mid, run[1..], t);
    }
  }

  /** So a closed handle stays closed: no later open of it succeeds or reaches
      a native object, and the world is as it was. */
  lemma ClosedHandleReachesNothing(run: seq<Action>, st: State, h: nat, seize: bool, a: Answers, call: int)
    requires Reached(run, st) && h < |st.handles| && st.handles[h].ref == 0
    ensures var (x, w, outcome) := HandleOpened(st.handles[h], st.world, seize, a, call);
      x == st.handles[h] && w == st.world
      && outcome == (if st.handles[h].kind == DeviceKind then Failed(ERR_NO_DEVICE) else Gone)
  {
    ReachedIsSafe(run, st);
  }

  /** The answers that make an attach report success without an interface. */
  predicate AnswersNothing(a: Answers, kind: Kind) {
    var n := |Candidates(kind)|;
    && a.pluginCode == 0 && a.plugin != 0 && a.slot
    && a.codes(n - 1) == 0 && forall k :: 0 <= k < n ==> !Accepts(a, k)
  }

  /** A handle whose entry has no interface yet. */
  predicate Unattached(st: State, h: nat) {
    h < |st.handles| && st.handles[h].ref in st.world.entries && st.world.entries[st.handles[h].ref].dev == 0
  }

  /** Over any run, a call goes through a null interface, which ends the process,
      exactly in two cases: an open, or the description of a device, attaches an entry
      that has no interface and is told of success without one. Seizing a device is
      refused before the call, for such an entry never has the newer interface; a
      description may lack memory and is refused then too. */
  lemma EndsIff(run: seq<Action>, st: State, a: Action)
    requires Reached(run, st)
    ensures Step(st, a) == Ended <==>
      match a
      case Open(h, seize, answers, _) =>
        && Unattached(st, h) && AnswersNothing(answers, st.handles[h].kind)
        && !(st.handles[h].kind == DeviceKind && seize)
      case Describe(h, answers, slot, _) =>
        Unattached(st, h) && st.handles[h].kind == DeviceKind && AnswersNothing(answers, DeviceKind) && slot
      case _ => false
  {
    ReachedIsSafe(run, st);
    hide LedgerOk, Attached, Filtered, Drained, HandleClosed;
    match a
    case Open(h, seize, answers, call) =>
      if h < |st.handles| {
        FaultIff(st.world, st.handles[h].kind, st.handles[h].ref, seize, answers, call);
      }
    case Describe(h, answers, slot, call) =>
      if h < |st.handles| {
        FaultIff(st.world, DeviceKind, st.handles[h].ref, false, answers, call);
      }
    case _ =>
  }

  lemma FaultIff(w: World, kind: Kind, tok: Token, seize: bool, a: Answers, call: int)
    ensures Opened(w, kind, tok, seize, a, call).1 == Fault <==>
      && tok in w.entries && w.entries[tok].dev == 0 && AnswersNothing(a, kind)
      && (kind == DeviceKind && seize ==> w.entries[tok].hasTO)
  {
    hide Attached;
    if tok in w.entries {
      SuccessWithoutInterfaceIff(w.entries[tok], kind, a);
      UnattachedKeeps(w.entries[tok], Candidates(kind), a);
    }
  }

  /** An attach that yields no interface changes nothing. */
  lemma UnattachedKeeps(e: Entry, cands: seq<bool>, a: Answers)
    ensures e.dev == 0 && Attached(e, cands, a).0.dev == 0 ==> Attached(e, cands, a).0 == e
    ensures e.dev != 0 ==> Attached(e, cands, a).0.dev != 0
  {}
}
