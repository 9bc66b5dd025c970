/** The handles of usb/usb.go and usb/iface.go: enumeration, opening, closing. */
module UsbHandles {
  import opened IOReturn
  import opened Wrappers
  import opened UsbRegistry

  datatype Handle = Handle(kind: Kind, ref: Token, open: bool, seized: bool)

  datatype Outcome = Done | Failed(code: int) | Gone | Crashed

  function OutcomeOf(a: Answer): Outcome {
    match a
    case Code(code) => if code == SUCCESS then Done else Failed(code)
    case Fault => Crashed
  }

  /** Opening: a device that is open is left alone, an interface that is
      released refuses; anything else asks the native side. */
  function HandleOpened(h: Handle, w: World, seize: bool, a: Answers, call: int): (Handle, World, Outcome) {
    if h.kind == DeviceKind && h.open then (h, w, Done)
    else if h.kind == InterfaceKind && h.ref == 0 then (h, w, Gone)
    else
      var (w', answer) := Opened(w, h.kind, h.ref, seize, a, call);
      var outcome := OutcomeOf(answer);
      (if outcome == Done then h.(open := true, seized := seize) else h, w', outcome)
  }

  /** Closing: the token is released whatever the native close answers; twice is a no-op. */
  function HandleClosed(h: Handle, w: World, call: int): (Handle, World, Outcome) {
    if h.ref == 0 then (h, w, Done)
    else
      (h.(ref := 0, open := false, seized := if h.kind == DeviceKind && h.open then false else h.seized),
       Released(w, h.ref),
       if h.open then OutcomeOf(Code(ClosedAnswer(w, h.ref, call))) else Done)
  }

  class Device {
    var ref: Token
    var open: bool
    var seized: bool

    constructor (ref: Token)
      ensures View() == Handle(DeviceKind, ref, false, false)
    {
      this.ref, open, seized := ref, false, false;
    }

    function View(): Handle
      reads this
    {
      Handle(DeviceKind, ref, open, seized)
    }

    method OpenWith(reg: Registry, seize: bool, a: Answers, call: int) returns (outcome: Outcome)
      requires reg.Valid()
      modifies this, reg.Objects(), reg.kit
      ensures reg.Valid() && (View(), reg.View(), outcome) == HandleOpened(old(View()), old(reg.View()), seize, a, call)
    {
      hide Opened, Registry.View, Registry.Objects, Registry.Valid;
      if open { return Done; }
      var answer := reg.Open(DeviceKind, ref, seize, a, call);
      outcome := OutcomeOf(answer);
      if outcome == Done { open, seized := true, seize; }
    }

    method Close(reg: Registry, call: int) returns (outcome: Outcome)
      requires reg.Valid()
      modifies this, reg`entries, reg.Objects(), reg.kit
      ensures reg.Valid() && (View(), reg.View(), outcome) == HandleClosed(old(View()), old(reg.View()), call)
    {
      hide Released, ClosedAnswer;
      if ref == 0 { return Done; }
      outcome := Done;
      if open {
        var code := reg.Close(ref, call);
        outcome := OutcomeOf(Code(code));
        open, seized := false, false;
      }
      assert reg.View() == old(reg.View());
      hide Registry.View, Registry.Objects, Registry.Valid;
      reg.Release(ref);
      ref := 0;
    }

    /** A control transfer reports at most the bytes asked for, with the
        device's error beside a partial count. The native side's answer is a parameter. */
    method Control(length: nat, transferred: int, code: int) returns (r: Result<(nat, Outcome), string>)
      ensures !open ==> r == Err("not open")
      ensures open && length > 0xFFFF ==> r == Err("too long")
      ensures open && length <= 0xFFFF ==>
        && r.Ok? && r.value.0 <= length && r.value.1 == (if code == 0 then Done else Failed(code))
        && (0 <= transferred <= length ==> r.value.0 == transferred)
        && (transferred < 0 ==> r.value.0 == 0) && (transferred > length ==> r.value.0 == length)
    {
      if !open { return Err("not open"); }
      if length > MAX_TRANSFER { return Err("too long"); }
      var n := transferred;
      if n < 0 { n := 0; }
      if n > length { n := length; }
      return Ok((n, OutcomeOf(Code(code))));
    }
  }

  const MAX_TRANSFER: nat := 0xFFFF

  class InterfaceHandle {
    var ref: Token
    var isOpen: bool
    var seized: bool

    constructor (ref: Token)
      ensures View() == Handle(InterfaceKind, ref, false, false)
    {
      this.ref, isOpen, seized := ref, false, false;
    }

    function View(): Handle
      reads this
    {
      Handle(InterfaceKind, ref, isOpen, seized)
    }

    method OpenWith(reg: Registry, seize: bool, a: Answers, call: int) returns (outcome: Outcome)
      requires reg.Valid()
      modifies this, reg.Objects(), reg.kit
      ensures reg.Valid() && (View(), reg.View(), outcome) == HandleOpened(old(View()), old(reg.View()), seize, a, call)
    {
      hide Opened, Registry.View, Registry.Objects, Registry.Valid;
      if ref == 0 { return Gone; }
      var answer := reg.Open(InterfaceKind, ref, seize, a, call);
      outcome := OutcomeOf(answer);
      if outcome == Done { isOpen, seized := true, seize; }
    }

    method Close(reg: Registry, call: int) returns (outcome: Outcome)
      requires reg.Valid()
      modifies this, reg`entries, reg.Objects(), reg.kit
      ensures reg.Valid() && (View(), reg.View(), outcome) == HandleClosed(old(View()), old(reg.View()), call)
    {
      hide Released, ClosedAnswer;
      if ref == 0 { return Done; }
      outcome := Done;
      if isOpen {
        var code := reg.Close(ref, call);
        outcome := OutcomeOf(Code(code));
        isOpen := false;
      }
      assert reg.View() == old(reg.View());
      hide Registry.View, Registry.Objects, Registry.Valid;
      reg.Release(ref);
      ref := 0;
    }
  }

  // ----- Enumeration -----

  /** A service found, and whether the filter keeps it. */
  datatype Found = Found(service: nat, keep: bool)

  /** Draining the iterator: every service found gets a token. */
  function Drained(w: World, found: seq<Found>): World
    decreases |found|
  {
    if found == [] then w else Enrolled(Drained(w, found[..|found| - 1]), found[|found| - 1].service)
  }

  /** Filtering: the first k services, tokens counting up from first, are kept or released. */
  function Filtered(w: World, kind: Kind, found: seq<Found>, first: Token, k: nat): (seq<Handle>, World)
    requires k <= |found|
    decreases k
  {
    if k == 0 then ([], w)
    else
      var (kept, w') := Filtered(w, kind, found, first, k - 1);
      if found[k - 1].keep then (kept + [Handle(kind, first + k - 1, false, false)], w')
      else (kept, Released(w', first + k - 1))
  }

  lemma FilteredMore(w: World, kind: Kind, found: seq<Found>, first: Token, k: nat)
    requires 0 < k <= |found|
    ensures var before := Filtered(w, kind, found, first, k - 1);
      var tok := first + k - 1;
      Filtered(w, kind, found, first, k) ==
        (if found[k - 1].keep then (before.0 + [Handle(kind, tok, false, false)], before.1)
         else (before.0, Released(before.1, tok)))
  {
    hide Released;
  }

  method DrainIterator(reg: Registry, found: seq<Found>) returns (refs: seq<Token>)
    requires reg.Valid()
    modifies reg, reg.kit
    ensures reg.Valid() && reg.View() == Drained(old(reg.View()), found)
    ensures |refs| == |found| && forall k :: 0 <= k < |refs| ==> refs[k] == old(reg.next) + k
    ensures fresh(reg.Objects() - old(reg.Objects()))
  {
    refs := [];
    for k := 0 to |found|
      invariant reg.Valid() && reg.View() == Drained(old(reg.View()), found[..k])
      invariant |refs| == k && forall j :: 0 <= j < k ==> refs[j] == old(reg.next) + j
      invariant reg.next == old(reg.next) + k
      invariant fresh(reg.Objects() - old(reg.Objects()))
    {
      assert found[..k + 1][..k] == found[..k];
      var tok := reg.Enroll(found[k].service);
      refs := refs + [tok];
    }
    assert found[..|found|] == found;
  }

  function Views(devices: seq<Device>): (hs: seq<Handle>)
    reads devices
    ensures |hs| == |devices| && forall k :: 0 <= k < |hs| ==> hs[k] == devices[k].View()
  {
    seq(|devices|, k requires 0 <= k < |devices| reads devices => devices[k].View())
  }

  /** Devices: the drain, then the filter loop; Interfaces has the same two steps. */
  method Devices(reg: Registry, found: seq<Found>) returns (out: seq<Device>)
    requires reg.Valid()
    modifies reg, reg.Objects(), reg.kit
    ensures reg.Valid() && forall k :: 0 <= k < |out| ==> fresh(out[k])
    ensures (Views(out), reg.View()) ==
      Filtered(Drained(old(reg.View()), found), DeviceKind, found, old(reg.next), |found|)
  {
    hide Filtered, Drained;
    var refs := DrainIterator(reg, found);
    out := SiftAll(reg, found, refs, old(reg.next));
  }

  /** What the filter loop has made after k turns. */
  ghost predicate SiftedTo(reg: Registry, views: seq<Handle>, drained: World, kind: Kind, found: seq<Found>,
                           first: Token, k: nat)
    requires k <= |found|
    reads reg, reg.Objects(), reg.kit
  {
    reg.Valid() && (views, reg.View()) == Filtered(drained, kind, found, first, k)
  }

  lemma {:induction false} SiftedAll(reg: Registry, views: seq<Handle>, drained: World, kind: Kind, found: seq<Found>,
                                     first: Token)
    requires SiftedTo(reg, views, drained, kind, found, first, |found|)
    ensures reg.Valid() && (views, reg.View()) == Filtered(drained, kind, found, first, |found|)
  {}

  /** The filter loop, over the tokens handed out. */
  method SiftAll(reg: Registry, found: seq<Found>, refs: seq<Token>, ghost first: Token) returns (out: seq<Device>)
    requires reg.Valid() && |refs| == |found| && forall k :: 0 <= k < |refs| ==> refs[k] == first + k
    modifies reg`entries, reg.Objects(), reg.kit
    ensures reg.Valid() && forall k :: 0 <= k < |out| ==> fresh(out[k])
    ensures (Views(out), reg.View()) ==
      Filtered(old(reg.View()), DeviceKind, found, first, |found|)
  {
    ghost var drained := reg.View();
    out := [];
    assert SiftedTo(reg, Views(out), drained, DeviceKind, found, first, 0);
    hide SiftedTo, Filtered, Views, Registry.View, Registry.Objects, Registry.Valid;
    for k := 0 to |found|
      invariant reg.Objects() <= old(reg.Objects()) && forall j :: 0 <= j < |out| ==> fresh(out[j])
      invariant SiftedTo(reg, Views(out), drained, DeviceKind, found, first, k)
    {
      out := SiftNext(reg, refs[k], found, k, out, drained, first);
    }
    SiftedAll(reg, Views(out), drained, DeviceKind, found, first);
  }

  /** One turn of it. */
  method SiftNext(reg: Registry, ref: Token, found: seq<Found>, k: nat, out: seq<Device>, ghost drained: World,
            ghost first: Token)
    returns (more: seq<Device>)
    requires k < |found| && ref == first + k && SiftedTo(reg, Views(out), drained, DeviceKind, found, first, k)
    modifies reg`entries, reg.Objects(), reg.kit
    ensures reg.Objects() <= old(reg.Objects()) && out <= more
    ensures forall j :: |out| <= j < |more| ==> fresh(more[j])
    ensures SiftedTo(reg, Views(more), drained, DeviceKind, found, first, k + 1)
  {
    FilteredMore(drained, DeviceKind, found, first, k + 1);
    hide Filtered, Released, Views;
    more := Sift(reg, ref, found[k].keep, out);
  }

  /** Keeping or releasing one service. */
  method Sift(reg: Registry, ref: Token, keep: bool, out: seq<Device>) returns (more: seq<Device>)
    requires reg.Valid()
    modifies reg`entries, reg.Objects(), reg.kit
    ensures reg.Valid() && reg.Objects() <= old(reg.Objects()) && out <= more
    ensures |more| == |out| + (if keep then 1 else 0) && (keep ==> fresh(more[|out|]))
    ensures Views(more) == if keep then old(Views(out)) + [Handle(DeviceKind, ref, false, false)] else old(Views(out))
    ensures reg.View() == if keep then old(reg.View()) else Released(old(reg.View()), ref)
  {
    hide Released;
    if keep {
      var d := new Device(ref);
      more := out + [d];
    } else {
      reg.Release(ref);
      more := out;
    }
  }

  function InterfaceViews(handles: seq<InterfaceHandle>): (hs: seq<Handle>)
    reads handles
    ensures |hs| == |handles| && forall k :: 0 <= k < |hs| ==> hs[k] == handles[k].View()
  {
    seq(|handles|, k requires 0 <= k < |handles| reads handles => handles[k].View())
  }

  /** Interfaces: the same over interface services, releasing before keeping. */
  method Interfaces(reg: Registry, found: seq<Found>) returns (out: seq<InterfaceHandle>)
    requires reg.Valid()
    modifies reg, reg.Objects(), reg.kit
    ensures reg.Valid() && forall k :: 0 <= k < |out| ==> fresh(out[k])
    ensures (InterfaceViews(out), reg.View()) ==
      Filtered(Drained(old(reg.View()), found), InterfaceKind, found, old(reg.next), |found|)
  {
    hide Filtered, Drained;
    var refs := DrainIterator(reg, found);
    out := SiftAllInterfaces(reg, found, refs, old(reg.next));
  }

  /** The filter loop, over the tokens handed out. */
  method SiftAllInterfaces(reg: Registry, found: seq<Found>, refs: seq<Token>, ghost first: Token)
    returns (out: seq<InterfaceHandle>)
    requires reg.Valid() && |refs| == |found| && forall k :: 0 <= k < |refs| ==> refs[k] == first + k
    modifies reg`entries, reg.Objects(), reg.kit
    ensures reg.Valid() && forall k :: 0 <= k < |out| ==> fresh(out[k])
    ensures (InterfaceViews(out), reg.View()) ==
      Filtered(old(reg.View()), InterfaceKind, found, first, |found|)
  {
    ghost var drained := reg.View();
    out := [];
    assert SiftedTo(reg, InterfaceViews(out), drained, InterfaceKind, found, first, 0);
    hide SiftedTo, Filtered, InterfaceViews, Registry.View, Registry.Objects, Registry.Valid;
    for k := 0 to |found|
      invariant reg.Objects() <= old(reg.Objects()) && forall j :: 0 <= j < |out| ==> fresh(out[j])
      invariant SiftedTo(reg, InterfaceViews(out), drained, InterfaceKind, found, first, k)
    {
      out := SiftNextInterface(reg, refs[k], found, k, out, drained, first);
    }
    SiftedAll(reg, InterfaceViews(out), drained, InterfaceKind, found, first);
  }

  /** One turn of it. */
  method SiftNextInterface(reg: Registry, ref: Token, found: seq<Found>, k: nat, out: seq<InterfaceHandle>,
            ghost drained: World, ghost first: Token)
    returns (more: seq<InterfaceHandle>)
    requires k < |found| && ref == first + k
    requires SiftedTo(reg, InterfaceViews(out), drained, InterfaceKind, found, first, k)
    modifies reg`entries, reg.Objects(), reg.kit
    ensures reg.Objects() <= old(reg.Objects()) && out <= more
    ensures forall j :: |out| <= j < |more| ==> fresh(more[j])
    ensures SiftedTo(reg, InterfaceViews(more), drained, InterfaceKind, found, first, k + 1)
  {
    FilteredMore(drained, InterfaceKind, found, first, k + 1);
    hide Filtered, Released, InterfaceViews;
    more := SiftInterface(reg, ref, found[k].keep, out);
  }

  method SiftInterface(reg: Registry, ref: Token, keep: bool, out: seq<InterfaceHandle>)
    returns (more: seq<InterfaceHandle>)
    requires reg.Valid()
    modifies reg`entries, reg.Objects(), reg.kit
    ensures reg.Valid() && reg.Objects() <= old(reg.Objects()) && out <= more
    ensures |more| == |out| + (if keep then 1 else 0) && (keep ==> fresh(more[|out|]))
    ensures InterfaceViews(more) ==
      if keep then old(InterfaceViews(out)) + [Handle(InterfaceKind, ref, false, false)] else old(InterfaceViews(out))
    ensures reg.View() == if keep then old(reg.View()) else Released(old(reg.View()), ref)
  {
    hide Released;
    if !keep {
      reg.Release(ref);
      return out;
    }
    var h := new InterfaceHandle(ref);
    more := out + [h];
  }
}
