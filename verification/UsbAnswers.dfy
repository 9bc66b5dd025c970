/** What opening, closing and enumerating answer, case by case, in terms of the
    world and of IOKit's answers alone. */
module UsbAnswers {
  import opened IOReturn
  import opened UsbRegistry
  import opened UsbHandles

  // ----- Opening -----

  /** An unknown token is refused and nothing changes. */
  lemma OpenedUnknown(w: World, kind: Kind, tok: Token, seize: bool, a: Answers, call: int)
    requires tok !in w.entries
    ensures Opened(w, kind, tok, seize, a, call) == (w, Code(ERR_NO_DEVICE))
  {}

  /** Through an interface that is there, the answer is the call's own, but for a
      device to be seized through an interface that lacks that call. */
  lemma OpenedWhenAttached(w: World, kind: Kind, tok: Token, seize: bool, a: Answers, call: int)
    requires tok in w.entries && w.entries[tok].dev != 0
    ensures Opened(w, kind, tok, seize, a, call) ==
      (w, Code(if kind == DeviceKind && seize && !w.entries[tok].hasTO then ERR_UNSUPPORTED else call))
  {
    assert w.entries[tok := w.entries[tok]] == w.entries;
    assert w.ifaces + multiset{} == w.ifaces;
  }

  /** Otherwise the entry is attached first: a refusal is passed on, and an
      interface gained is held and opened as if it had been there. Success without one
      lets a device to be seized be refused, and any other open go through null. */
  lemma OpenedWhenNot(w: World, kind: Kind, tok: Token, seize: bool, a: Answers, call: int)
    requires tok in w.entries && w.entries[tok].dev == 0 && !w.entries[tok].hasTO
    ensures var (e, code) := Attached(w.entries[tok], Candidates(kind), a);
      var w' := w.(entries := w.entries[tok := e],
                   ifaces := w.ifaces + if e.dev != 0 then multiset{e.dev} else multiset{});
      var r := Opened(w, kind, tok, seize, a, call);
      && r.0 == w'
      && (code != 0 ==> r.1 == Code(code))
      && (code == 0 && e.dev != 0 ==> r == Opened(w', kind, tok, seize, a, call))
      && (code == 0 && e.dev == 0 ==>
            r.1 == if kind == DeviceKind && seize then Code(ERR_UNSUPPORTED) else Fault)
  {
    var (e, code) := Attached(w.entries[tok], Candidates(kind), a);
    GainsOrStays(w.entries[tok], Candidates(kind), a);
    hide Attached;
    if e.dev != 0 {
      var w' := w.(entries := w.entries[tok := e], ifaces := w.ifaces + multiset{e.dev});
      OpenedWhenAttached(w', kind, tok, seize, a, call);
    }
  }

  /** Attaching gains an interface or leaves the entry as it was. */
  lemma GainsOrStays(e: Entry, cands: seq<bool>, a: Answers)
    ensures Attached(e, cands, a).0.dev == 0 ==> Attached(e, cands, a).0 == e
    ensures e.dev != 0 ==> Attached(e, cands, a) == (e, SUCCESS)
    ensures Attached(e, cands, a).1 != SUCCESS ==> Attached(e, cands, a).0 == e
  {}

  /** A handle that is not yet open is opened exactly when its entry ends up with
      an interface, which has the seizing call if a device is to be seized, and the
      native call answers success. Then, and only then, it is marked as open, and as
      seized if it was to be. */
  lemma HandleOpensIff(h: Handle, w: World, seize: bool, a: Answers, call: int)
    requires h.kind == DeviceKind ==> !h.open
    ensures var (h', w', outcome) := HandleOpened(h, w, seize, a, call);
      && (outcome == Done <==>
            && call == 0 && (h.kind == InterfaceKind ==> h.ref != 0)
            && h.ref in w'.entries && w'.entries[h.ref].dev != 0
            && (h.kind == DeviceKind && seize ==> w'.entries[h.ref].hasTO))
      && h' == if outcome == Done then Handle(h.kind, h.ref, true, seize) else h
  {
    if h.ref in w.entries {
      GainsOrStays(w.entries[h.ref], Candidates(h.kind), a);
    }
    hide Attached;
  }

  /** When the interface is there, the outcome is the call's own answer. */
  lemma HandleOpensThrough(h: Handle, w: World, seize: bool, a: Answers, call: int)
    requires (h.kind == DeviceKind ==> !h.open) && (h.kind == InterfaceKind ==> h.ref != 0)
    requires h.ref in w.entries && w.entries[h.ref].dev != 0
    requires h.kind == DeviceKind && seize ==> w.entries[h.ref].hasTO
    ensures HandleOpened(h, w, seize, a, call) ==
      if call == 0 then (Handle(h.kind, h.ref, true, seize), w, Done) else (h, w, Failed(call))
  {
    OpenedWhenAttached(w, h.kind, h.ref, seize, a, call);
    hide Opened;
  }

  /** An open device is left alone, an interface released refuses, an unknown
      token is no device, and a refused attach is reported with its code. */
  lemma HandleOpenRefused(h: Handle, w: World, seize: bool, a: Answers, call: int)
    ensures h.kind == DeviceKind && h.open ==> HandleOpened(h, w, seize, a, call) == (h, w, Done)
    ensures h.kind == InterfaceKind && h.ref == 0 ==> HandleOpened(h, w, seize, a, call) == (h, w, Gone)
    ensures (h.kind == DeviceKind ==> !h.open) && (h.kind == InterfaceKind ==> h.ref != 0) && h.ref !in w.entries ==>
      HandleOpened(h, w, seize, a, call) == (h, w, Failed(ERR_NO_DEVICE))
    ensures (h.kind == DeviceKind ==> !h.open) && (h.kind == InterfaceKind ==> h.ref != 0) && h.ref in w.entries ==>
      var (_, code) := Attached(w.entries[h.ref], Candidates(h.kind), a);
      code != 0 ==> HandleOpened(h, w, seize, a, call) == (h, w, Failed(code))
  {
    if h.ref in w.entries {
      GainsOrStays(w.entries[h.ref], Candidates(h.kind), a);
      assert w.entries[h.ref := w.entries[h.ref]] == w.entries;
      assert w.ifaces + multiset{} == w.ifaces;
    }
    hide Attached;
  }

  // ----- Closing -----

  /** A close gives the token back whatever is answered; the answer is that of
      the native close if the handle was open and its entry has an interface, that
      nothing is open there if it has none, and success if the handle was not open. */
  lemma HandleClosedCases(h: Handle, w: World, call: int)
    ensures var (h', w', outcome) := HandleClosed(h, w, call);
      if h.ref == 0 then (h', w', outcome) == (h, w, Done)
      else
        && h'.ref == 0 && !h'.open && h'.kind == h.kind && h.ref !in w'.entries
        && (h'.seized <==> h.seized && !(h.kind == DeviceKind && h.open))
        && w'.next == w.next && (forall t :: t != h.ref ==> (t in w'.entries <==> t in w.entries))
        && (forall t :: t in w'.entries ==> w'.entries[t] == w.entries[t])
        && outcome ==
            if !h.open then Done
            else if h.ref !in w.entries || w.entries[h.ref].dev == 0 then Failed(ERR_NOT_OPEN)
            else if call == 0 then Done else Failed(call)
  {}

  /** What a release gives back: the entry's service and its interface, once each. */
  lemma ReleasedGivesBack(w: World, tok: Token)
    requires tok in w.entries && w.entries[tok].service != 0
    ensures Released(w, tok).services == w.services - multiset{w.entries[tok].service}
    ensures Released(w, tok).ifaces ==
      if w.entries[tok].dev == 0 then w.ifaces else w.ifaces - multiset{w.entries[tok].dev}
  {}

  // ----- Enumerating -----

  /** The k-th service found is entered under the k-th token after those given out. */
  lemma {:induction false} DrainedEntries(w: World, found: seq<Found>, k: nat)
    requires k < |found|
    ensures var w' := Drained(w, found);
      && w'.next == w.next + |found| && w.next + k in w'.entries
      && w'.entries[w.next + k] == Entry(found[k].service, 0, false)
    decreases |found|
  {
    var before := found[..|found| - 1];
    if k < |before| {
      DrainedEntries(w, before, k);
    } else {
      DrainedNext(w, before);
    }
  }

  /** The first service of the first enumeration is entered under token one. */
  lemma {:induction false} FirstToken(found: seq<Found>)
    requires found != []
    ensures 1 in Drained(EMPTY, found).entries
    ensures Drained(EMPTY, found).entries[1] == Entry(found[0].service, 0, false)
  {
    DrainedEntries(EMPTY, found, 0);
  }

  lemma {:induction false} DrainedNext(w: World, found: seq<Found>)
    ensures Drained(w, found).next == w.next + |found|
    decreases |found|
  {
    if found == [] {
    } else {
      DrainedNext(w, found[..|found| - 1]);
    }
  }

  /** A handle for each service kept, under its token, not open, and for no other. */
  predicate KeptAs(h: Handle, kind: Kind, found: seq<Found>, first: Token, j: nat) {
    j < |found| && found[j].keep && h == Handle(kind, first + j, false, false)
  }

  /** What the filter keeps becomes handles, in order; what it does not keep is
      no longer entered, and nothing else is touched. */
  lemma {:induction false} FilteredKeeps(w: World, kind: Kind, found: seq<Found>, first: Token, k: nat)
    requires k <= |found|
    ensures var (kept, w') := Filtered(w, kind, found, first, k);
      && (forall h :: h in kept ==> first <= h.ref < first + k && KeptAs(h, kind, found, first, h.ref - first))
      && (forall j :: 0 <= j < k && found[j].keep ==> Handle(kind, first + j, false, false) in kept)
      && (forall i, j :: 0 <= i < j < |kept| ==> kept[i].ref < kept[j].ref)
      && (forall t :: t in w'.entries <==>
            t in w.entries && !(first <= t < first + k && !found[t - first].keep))
      && (forall t :: t in w'.entries ==> w'.entries[t] == w.entries[t])
    decreases k
  {
    if k == 0 {
    } else {
      FilteredKeeps(w, kind, found, first, k - 1);
      FilteredMore(w, kind, found, first, k);
      hide Filtered;
    }
  }
}
