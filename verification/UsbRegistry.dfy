/** The native side of usb/usb_darwin.go and usb/iface_darwin.go: tokens, the
    objects behind them, and what is held from IOKit on their behalf. */
module UsbRegistry {
  import opened IOReturn

  type Token = nat

  datatype Kind = DeviceKind | InterfaceKind

  /** Whether each interface version tried has the timeout variants, newest first. */
  function Candidates(kind: Kind): seq<bool> {
    match kind
    case DeviceKind => [true, true, false]
    case InterfaceKind => [true, true, true, true]
  }

  /** What IOKit answers to one attach: the plug-in creation, whether there is
      memory for the out-parameter, and each query's code and interface. */
  datatype Answers = Answers(pluginCode: int, plugin: nat, slot: bool, codes: nat -> int, ifaces: nat -> nat)

  /** One native object as a value: its service, its interface (zero until
      attached), and whether that interface has the timeout variants. */
  datatype Entry = Entry(service: nat, dev: nat, hasTO: bool)

  /** The tokens given out and the references held. */
  datatype World = World(next: Token, entries: map<Token, Entry>, services: multiset<nat>, ifaces: multiset<nat>)

  const EMPTY: World := World(1, map[], multiset{}, multiset{})

  // ----- What attaching amounts to -----

  predicate Accepts(a: Answers, k: nat) { a.codes(k) == 0 && a.ifaces(k) != 0 }

  /** The first version accepted, or n when none of the first n is. */
  function FirstAccepted(a: Answers, n: nat): (k: nat)
    ensures k <= n && (forall j :: 0 <= j < k ==> !Accepts(a, j)) && (k < n ==> Accepts(a, k))
  {
    if n == 0 then 0
    else
      var k := FirstAccepted(a, n - 1);
      if k < n - 1 || Accepts(a, n - 1) then k else n
  }

  function Attached(e: Entry, cands: seq<bool>, a: Answers): (Entry, int) {
    if e.dev != 0 then (e, SUCCESS)
    else if a.pluginCode != 0 then (e, a.pluginCode)
    else if a.plugin == 0 then (e, ERR_NO_RESOURCES)
    else if !a.slot then (e, ERR_NO_MEMORY)
    else
      var k := FirstAccepted(a, |cands|);
      if k < |cands| then (e.(dev := a.ifaces(k), hasTO := cands[k]), SUCCESS)
      else (e, if |cands| == 0 then ERR_UNSUPPORTED else a.codes(|cands| - 1))
  }

  /** Attaching, case by case. Of a device's three versions the two newest have the
      timeout variants, of an interface's four all have; the first one accepted is taken,
      and otherwise the last refusal is reported. */
  lemma AttachedCases(e: Entry, kind: Kind, a: Answers)
    ensures var r := Attached(e, Candidates(kind), a);
      var n := if kind == DeviceKind then 3 else 4;
      && (e.dev != 0 ==> r == (e, 0))
      && (e.dev == 0 && a.pluginCode != 0 ==> r == (e, a.pluginCode))
      && (e.dev == 0 && a.pluginCode == 0 && a.plugin == 0 ==> r == (e, ERR_NO_RESOURCES))
      && (e.dev == 0 && a.pluginCode == 0 && a.plugin != 0 && !a.slot ==> r == (e, ERR_NO_MEMORY))
      && (e.dev == 0 && a.pluginCode == 0 && a.plugin != 0 && a.slot ==>
            && ((forall k :: 0 <= k < n ==> !Accepts(a, k)) ==> r == (e, a.codes(n - 1)))
            && (forall k :: 0 <= k < n && Accepts(a, k) && (forall j :: 0 <= j < k ==> !Accepts(a, j)) ==>
                  r == (Entry(e.service, a.ifaces(k), kind == InterfaceKind || k < 2), 0)))
  {
    var n := if kind == DeviceKind then 3 else 4;
    var first := FirstAccepted(a, n);
    forall k | 0 <= k < n && Accepts(a, k) && forall j :: 0 <= j < k ==> !Accepts(a, j)
      ensures k == first
    {
    }
  }

  /** A version is accepted when its query answers success and hands over an interface. */
  lemma AcceptsIff(a: Answers, k: nat)
    ensures Accepts(a, k) <==> a.codes(k) == 0 && a.ifaces(k) > 0
  {}

  /** Attaching reports success without an interface exactly when no version is
      accepted and the last one tried answers success with a null interface. */
  lemma SuccessWithoutInterfaceIff(e: Entry, kind: Kind, a: Answers)
    ensures var r := Attached(e, Candidates(kind), a);
      var n := |Candidates(kind)|;
      r.1 == SUCCESS && r.0.dev == 0 <==>
        && e.dev == 0 && a.pluginCode == 0 && a.plugin != 0 && a.slot
        && a.codes(n - 1) == 0 && (forall k :: 0 <= k < n ==> !Accepts(a, k))
  {
    var k := FirstAccepted(a, |Candidates(kind)|);
    assert k < |Candidates(kind)| ==> Accepts(a, k);
  }

  /** Such answers exist: the newest versions refuse, the oldest answers success with nothing. */
  lemma SuccessWithoutInterface(service: nat)
    ensures var a := Answers(0, 1, true, k => if k == 2 then 0 else 1, _ => 0);
      Attached(Entry(service, 0, false), Candidates(DeviceKind), a) == (Entry(service, 0, false), SUCCESS)
  {
    var a := Answers(0, 1, true, k => if k == 2 then 0 else 1, _ => 0);
    SuccessWithoutInterfaceIff(Entry(service, 0, false), DeviceKind, a);
    assert FirstAccepted(a, 3) == 3;
  }

  /** What an attach newly holds. */
  function Gained(before: Entry, after: Entry): multiset<nat> {
    if before.dev == 0 && after.dev != 0 then multiset{after.dev} else multiset{}
  }

  // ----- The registry's operations, as changes of the world -----

  /** The iterator hands over a reference to the service and the registry a token. */
  function Enrolled(w: World, service: nat): World {
    w.(next := w.next + 1, entries := w.entries[w.next := Entry(service, 0, false)],
       services := w.services + multiset{service})
  }

  /** The answer to a call through an interface; dereferencing a null one ends the process. */
  datatype Answer = Code(code: int) | Fault

  function Opened(w: World, kind: Kind, tok: Token, seize: bool, a: Answers, call: int): (World, Answer) {
    if tok !in w.entries then (w, Code(ERR_NO_DEVICE))
    else
      var (e, code) := Attached(w.entries[tok], Candidates(kind), a);
      var w' := w.(entries := w.entries[tok := e], ifaces := w.ifaces + Gained(w.entries[tok], e));
      if code != SUCCESS then (w', Code(code))
      else if kind == DeviceKind && seize && !e.hasTO then (w', Code(ERR_UNSUPPORTED))
      else (w', if e.dev == 0 then Fault else Code(call))
  }

  function ClosedAnswer(w: World, tok: Token, call: int): int {
    if tok in w.entries && w.entries[tok].dev != 0 then call else ERR_NOT_OPEN
  }

  function Released(w: World, tok: Token): World {
    if tok !in w.entries then w
    else
      var e := w.entries[tok];
      w.(entries := w.entries - {tok},
         services := Without(w.services, e.service), ifaces := Without(w.ifaces, e.dev))
  }

  // ----- The objects -----

  class Native {
    var service: nat
    var dev: nat
    var hasTO: bool

    constructor (service: nat)
      ensures View() == Entry(service, 0, false)
    {
      this.service, dev, hasTO := service, 0, false;
    }

    function View(): Entry
      reads this
    {
      Entry(service, dev, hasTO)
    }
  }

  /** The references held from IOKit and CoreFoundation, and the memory from malloc. */
  class Kit {
    var services: multiset<nat>
    var ifaces: multiset<nat>
    var plugins: int
    var uuids: int
    var slots: int

    constructor ()
      ensures services == multiset{} && ifaces == multiset{} && plugins == uuids == slots == 0
    {
      services, ifaces, plugins, uuids, slots := multiset{}, multiset{}, 0, 0, 0;
    }

    /** The plug-in creation: a reference to it only when it reports success and is not null. */
    method CreatePlugIn(a: Answers) returns (code: int, plugin: nat)
      modifies this`plugins
      ensures code == a.pluginCode && plugin == a.plugin
      ensures plugins == old(plugins) + (if code == 0 && plugin != 0 then 1 else 0)
    {
      code, plugin := a.pluginCode, a.plugin;
      if code == 0 && plugin != 0 { plugins := plugins + 1; }
    }

    method Malloc(a: Answers) returns (ok: bool)
      modifies this`slots
      ensures ok == a.slot && slots == old(slots) + (if ok then 1 else 0)
    {
      ok := a.slot;
      if ok { slots := slots + 1; }
    }

    /** A query that succeeds with an interface hands over a reference to it. */
    method Query(a: Answers, k: nat) returns (code: int, iface: nat)
      modifies this`ifaces
      ensures code == a.codes(k) && iface == a.ifaces(k)
      ensures ifaces == old(ifaces) + (if Accepts(a, k) then multiset{iface} else multiset{})
    {
      code, iface := a.codes(k), a.ifaces(k);
      if code == 0 && iface != 0 { ifaces := ifaces + multiset{iface}; }
    }

    /** An object dropped from the registry gives back its interface, then its service. */
    method GiveBack(n: Native)
      modifies this`ifaces, this`services, n
      ensures n.service == 0 && n.dev == 0
      ensures ifaces == Without(old(ifaces), old(n.dev)) && services == Without(old(services), old(n.service))
    {
      if n.dev != 0 {
        ifaces := ifaces - multiset{n.dev};
        n.dev := 0;
      }
      if n.service != 0 {
        services := services - multiset{n.service};
        n.service := 0;
      }
    }
  }

  /** What an object held, taken away from what is held. */
  function Without(held: multiset<nat>, x: nat): multiset<nat> { if x != 0 then held - multiset{x} else held }

  /** attach and attachIface, which differ in the versions they try: whatever
      path is taken, all that is still held afterwards is the interface gained. */
  method Attach(n: Native, kind: Kind, kit: Kit, a: Answers) returns (code: int)
    modifies n`dev, n`hasTO, kit
    ensures (n.View(), code) == Attached(old(n.View()), Candidates(kind), a)
    ensures kit.ifaces == old(kit.ifaces) + Gained(old(n.View()), n.View())
    ensures kit.services == old(kit.services) && kit.plugins == old(kit.plugins)
    ensures kit.uuids == old(kit.uuids) && kit.slots == old(kit.slots)
  {
    if n.dev != 0 { return SUCCESS; }
    kit.uuids := kit.uuids + 2;
    code := AttachWith(n, Candidates(kind), kit, a);
    kit.uuids := kit.uuids - 2;
  }

  method AttachWith(n: Native, cands: seq<bool>, kit: Kit, a: Answers) returns (code: int)
    requires n.dev == 0
    modifies n`dev, n`hasTO, kit`ifaces, kit`plugins, kit`slots
    ensures (n.View(), code) == Attached(old(n.View()), cands, a)
    ensures kit.ifaces == old(kit.ifaces) + Gained(old(n.View()), n.View())
    ensures kit.plugins == old(kit.plugins) && kit.slots == old(kit.slots)
  {
    var rc, plugin := kit.CreatePlugIn(a);
    if rc != 0 { return rc; }
    if plugin == 0 { return ERR_NO_RESOURCES; }
    var ok := kit.Malloc(a);
    if !ok {
      kit.plugins := kit.plugins - 1;
      return ERR_NO_MEMORY;
    }
    code := QueryVersions(n, cands, kit, a);
    kit.slots := kit.slots - 1;
    kit.plugins := kit.plugins - 1;
  }

  method QueryVersions(n: Native, cands: seq<bool>, kit: Kit, a: Answers) returns (last: int)
    requires n.dev == 0
    modifies n`dev, n`hasTO, kit`ifaces
    ensures var k := FirstAccepted(a, |cands|);
      if k < |cands| then
        && last == SUCCESS && n.View() == old(n.View()).(dev := a.ifaces(k), hasTO := cands[k])
        && kit.ifaces == old(kit.ifaces) + multiset{a.ifaces(k)}
      else
        && last == (if |cands| == 0 then ERR_UNSUPPORTED else a.codes(|cands| - 1))
        && n.View() == old(n.View()) && kit.ifaces == old(kit.ifaces)
  {
    last := ERR_UNSUPPORTED;
    for k := 0 to |cands|
      invariant forall j :: 0 <= j < k ==> !Accepts(a, j)
      invariant last == if k == 0 then ERR_UNSUPPORTED else a.codes(k - 1)
      invariant n.View() == old(n.View()) && kit.ifaces == old(kit.ifaces)
    {
      var code, iface := kit.Query(a, k);
      if code == 0 && iface != 0 {
        n.dev := iface;
        n.hasTO := cands[k];
        return SUCCESS;
      }
      last := code;
    }
  }

  // ----- The registry -----

  class Registry {
    var next: Token
    var entries: map<Token, Native>
    const kit: Kit

    ghost predicate Valid()
      reads this
    {
      forall t, u :: t in entries && u in entries && t != u ==> entries[t] != entries[u]
    }

    function Objects(): set<Native>
      reads this
    {
      set t | t in entries :: entries[t]
    }

    function View(): World
      reads this, Objects(), kit
    {
      World(next, map t | t in entries :: entries[t].View(), kit.services, kit.ifaces)
    }

    constructor (kit: Kit)
      requires kit.services == multiset{} && kit.ifaces == multiset{}
      ensures Valid() && View() == EMPTY && this.kit == kit && Objects() == {}
    {
      this.kit := kit;
      next, entries := 1, map[];
    }

    method Add(n: Native) returns (tok: Token)
      requires Valid() && n !in Objects()
      modifies this
      ensures Valid() && tok == old(next) && next == tok + 1 && entries == old(entries)[tok := n]
    {
      tok := next;
      next := next + 1;
      entries := entries[tok := n];
    }

    /** A token resolves while it is entered, to an object no other token resolves to. */
    method Get(tok: Token) returns (n: Native?)
      ensures n != null <==> tok in entries
      ensures n != null ==> n == entries[tok] && n in Objects()
      ensures n != null && Valid() ==> forall t :: t in entries && entries[t] == n ==> t == tok
    {
      n := if tok in entries then entries[tok] else null;
    }

    method Drop(tok: Token) returns (n: Native?)
      modifies this`entries
      ensures n == (if tok in old(entries) then old(entries)[tok] else null) && entries == old(entries) - {tok}
      ensures old(Valid()) ==> Valid()
    {
      n := if tok in entries then entries[tok] else null;
      entries := entries - {tok};
    }

    /** One step of draining an iterator: the service is held by a new entry. */
    method Enroll(service: nat) returns (tok: Token)
      requires Valid()
      modifies this, kit
      ensures Valid() && tok == old(next) && View() == Enrolled(old(View()), service)
      ensures fresh(Objects() - old(Objects()))
    {
      ghost var was := View();
      kit.services := kit.services + multiset{service};
      var n := new Native(service);
      assert View() == was.(services := was.services + multiset{service});
      tok := Add(n);
      assert View().entries == was.entries[tok := Entry(service, 0, false)];
    }

    /** darwinOpen and darwinOpenIface. */
    method Open(kind: Kind, tok: Token, seize: bool, a: Answers, call: int) returns (r: Answer)
      requires Valid()
      modifies Objects(), kit
      ensures Valid() && (View(), r) == Opened(old(View()), kind, tok, seize, a, call)
    {
      hide Attached, FirstAccepted, Candidates;
      var n := Get(tok);
      if n == null { return Code(ERR_NO_DEVICE); }
      var code := Attach(n, kind, kit, a);
      assert View().entries == old(View()).entries[tok := n.View()];
      if code != SUCCESS { return Code(code); }
      if kind == DeviceKind && seize && !n.hasTO { return Code(ERR_UNSUPPORTED); }
      return if n.dev == 0 then Fault else Code(call);
    }

    /** darwinClose and darwinCloseIface: the interface is kept. */
    method Close(tok: Token, call: int) returns (code: int)
      ensures code == ClosedAnswer(View(), tok, call)
    {
      var n := Get(tok);
      if n == null || n.dev == 0 { return ERR_NOT_OPEN; }
      return call;
    }

    /** darwinRelease: the token is dropped, then the interface and the service are given back. */
    method Release(tok: Token)
      requires Valid()
      modifies this`entries, Objects(), kit
      ensures Valid() && View() == Released(old(View()), tok)
      ensures Objects() <= old(Objects())
    {
      hide Without;
      var n := Drop(tok);
      if n == null {
        assert entries == old(entries);
        return;
      }
      Dropped(n);
      assert View().entries == old(View()).entries - {tok};
      assert old(View()).entries[tok] == old(entries[tok].View());
    }

    /** What follows the drop: the object's references are given back, and no live entry changes. */
    method Dropped(n: Native)
      requires Valid() && n !in Objects()
      modifies n, kit
      ensures Valid() && View().next == old(View()).next && View().entries == old(View()).entries
      ensures View().ifaces == Without(old(View()).ifaces, old(n.dev))
      ensures View().services == Without(old(View()).services, old(n.service))
    {
      hide Without;
      kit.GiveBack(n);
    }
  }
}
