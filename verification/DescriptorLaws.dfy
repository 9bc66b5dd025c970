/** What a parsed configuration keeps of the block it came from. */
module DescriptorLaws {
  import opened Octets
  import opened Wrappers
  import opened Descriptor

  // ----- Nothing is lost -----

  function CountInterfaces(ms: seq<Meaning>): nat {
    if ms == [] then 0 else (if ms[0].AnInterface? then 1 else 0) + CountInterfaces(ms[1..])
  }

  /** All endpoints, interface by interface. */
  function AllEndpoints(ifaces: seq<Interface>): seq<Endpoint> {
    if ifaces == [] then [] else ifaces[0].endpoints + AllEndpoints(ifaces[1..])
  }

  /** Interfaces come out of a descriptor with no endpoints yet. */
  predicate Bare(ms: seq<Meaning>) {
    forall k :: 0 <= k < |ms| && ms[k].AnInterface? ==> ms[k].iface.endpoints == []
  }

  /** Grouping keeps every endpoint, in order: first the unclaimed ones, then interface by interface. */
  lemma {:induction false} GroupKeepsEndpoints(ms: seq<Meaning>)
    requires Bare(ms)
    ensures Endpoints(ms) == Group(ms).orphans + AllEndpoints(Group(ms).interfaces)
  {
    if ms == [] {
    } else {
      GroupKeepsEndpoints(ms[1..]);
      var g := Group(ms[1..]);
      var rest := AllEndpoints(g.interfaces);
      match ms[0] {
        case AnEndpoint(e) =>
          assert [e] + (g.orphans + rest) == ([e] + g.orphans) + rest;
        case AnInterface(i) =>
          var j := i.(endpoints := i.endpoints + g.orphans);
          assert j.endpoints == g.orphans;
          assert ([j] + g.interfaces)[1..] == g.interfaces;
        case _ =>
      }
    }
  }

  lemma {:induction false} GroupCountsInterfaces(ms: seq<Meaning>)
    ensures |Group(ms).interfaces| == CountInterfaces(ms)
  {
    if ms == [] {
    } else {
      GroupCountsInterfaces(ms[1..]);
    }
  }

  lemma {:induction false} MeaningsAreCounted(ms: seq<Meaning>)
    ensures |ms| == CountHeaders(ms) + CountInterfaces(ms) + |Endpoints(ms)| + |Associations(ms)|
        + CountUninterpreted(ms)
  {
    if ms == [] {
    } else {
      MeaningsAreCounted(ms[1..]);
    }
  }

  lemma MeaningsAreBare(rs: seq<Raw>)
    ensures Bare(Meanings(rs))
  {}

  /** Every descriptor of a parsed block is the configuration header, an
      interface, an endpoint of one, an association, or counted as unknown. */
  lemma {:induction false} ParseLosesNothing(b: seq<Octet>)
    requires Parsed(b).1.None?
    ensures var c := Parsed(b).0;
            |Walk(b).raws| == CountHeaders(Meanings(Walk(b).raws)) + |c.interfaces|
                              + |AllEndpoints(c.interfaces)| + |c.associations| + c.unknown
  {
    var ms := Meanings(Walk(b).raws);
    MeaningsAreBare(Walk(b).raws);
    MeaningsAreCounted(ms);
    GroupCountsInterfaces(ms);
    GroupKeepsEndpoints(ms);
  }

  /** The endpoints listed under an interface are exactly those between it and the next one. */
  lemma {:induction false} EndpointsUnderLatest(before: seq<Meaning>, i: Interface, es: seq<Meaning>,
                                                after: seq<Meaning>)
    requires CountInterfaces(es) == 0 && (after == [] || after[0].AnInterface?)
    ensures var found := Group(before + [AnInterface(i)] + es + after).interfaces;
            && CountInterfaces(before) < |found|
            && found[CountInterfaces(before)] == i.(endpoints := i.endpoints + Endpoints(es))
  {
    var ms := before + [AnInterface(i)] + es + after;
    if before == [] {
      OrphansUpToInterface(es, after);
      assert ms[1..] == es + after;
    } else {
      assert ms[1..] == before[1..] + [AnInterface(i)] + es + after;
      EndpointsUnderLatest(before[1..], i, es, after);
    }
  }

  lemma {:induction false} OrphansUpToInterface(es: seq<Meaning>, after: seq<Meaning>)
    requires CountInterfaces(es) == 0 && (after == [] || after[0].AnInterface?)
    ensures Group(es + after).orphans == Endpoints(es)
  {
    if es == [] {
      assert es + after == after;
    } else {
      assert (es + after)[1..] == es[1..] + after;
      OrphansUpToInterface(es[1..], after);
    }
  }

  // ----- Uninterpreted descriptors only raise the count -----

  lemma {:induction false} GroupSkips(a: seq<Meaning>, b: seq<Meaning>)
    ensures Group(a + [Uninterpreted] + b) == Group(a + b)
  {
    var ms := a + [Uninterpreted] + b;
    if a == [] {
      assert ms[1..] == b && a + b == b;
    } else {
      assert ms[1..] == a[1..] + [Uninterpreted] + b;
      assert (a + b)[1..] == a[1..] + b;
      GroupSkips(a[1..], b);
    }
  }

  lemma DescribedSkips(value: Octet, attributes: Octet, maxPower: Octet, a: seq<Meaning>, b: seq<Meaning>)
    ensures var c := Described(value, attributes, maxPower, a + b);
            Described(value, attributes, maxPower, a + [Uninterpreted] + b) == c.(unknown := c.unknown + 1)
  {
    var u := [Uninterpreted];
    assert u[1..] == [];
    GroupSkips(a, b);
    AssociationsConcat(a, b);
    AssociationsConcat(a + u, b);
    AssociationsConcat(a, u);
    CountUninterpretedConcat(a, b);
    CountUninterpretedConcat(a + u, b);
    CountUninterpretedConcat(a, u);
  }

  lemma MeaningsConcat(a: seq<Raw>, b: seq<Raw>)
    ensures Meanings(a + b) == Meanings(a) + Meanings(b)
  {}

  /** Inserting a well-formed descriptor the parser does not interpret, at any
      boundary past the header bytes, changes the unknown count by one and
      nothing else; a block that was malformed stays malformed. */
  lemma {:induction false} InsertUninterpreted(pre: seq<Octet>, r: Raw, post: seq<Octet>)
    requires |pre| >= MIN_CONFIG && Walk(pre).rest == []
    requires WellFormed(r) && MeaningOf(r).Uninterpreted?
    ensures var (c, err) := Parsed(pre + post);
            var (c', err') := Parsed(pre + (r.bytes + post));
            && (err.None? <==> err'.None?)
            && c' == if err.None? then c.(unknown := c.unknown + 1) else c
  {
    hide Walk, Described, Meanings, WellFormed;
    var before, behind := Walk(pre).raws, Walk(post).raws;
    SplitConcat(pre, post);
    SplitConcat(pre, r.bytes + post);
    WalkCons(r, post);
    MeaningsConcat(before, behind);
    assert before + ([r] + behind) == (before + [r]) + behind;
    MeaningsConcat(before + [r], behind);
    MeaningsConcat(before, [r]);
    OneMeaning(r);
    DescribedSkips(pre[5], pre[7], pre[8], Meanings(before), Meanings(behind));
    WalkTakesApart(pre + post);
    WalkTakesApart(pre + (r.bytes + post));
  }

  lemma OneMeaning(r: Raw)
    ensures Meanings([r]) == [MeaningOf(r)]
  {}

  // ----- Parsing inverts encoding -----

  /** A descriptor about to be published: what it says, the bytes the parser
      ignores, and a tail beyond the length the specification asks for. */
  datatype Piece =
    | HeaderPiece(total: (Octet, Octet), count: Octet, value: Octet, name: Octet, attributes: Octet, maxPower: Octet,
                  tail: seq<Octet>)
    | InterfacePiece(iface: Interface, count: Octet, name: Octet, tail: seq<Octet>)
    | EndpointPiece(endpoint: Endpoint, tail: seq<Octet>)
    | AssociationPiece(association: Association, name: Octet, tail: seq<Octet>)
    | OtherPiece(raw: Raw)

  predicate Publishable(p: Piece) {
    match p
    case HeaderPiece(_, _, _, _, _, _, tail) => |tail| <= 246
    case InterfacePiece(i, _, _, tail) => i.endpoints == [] && |tail| <= 246
    case EndpointPiece(e, tail) => e.maxPacketSize < 0x10000 && |tail| <= 248
    case AssociationPiece(_, _, tail) => |tail| <= 247
    case OtherPiece(r) => WellFormed(r) && MeaningOf(r).Uninterpreted?
  }

  function Says(p: Piece): Meaning {
    match p
    case HeaderPiece(_, _, _, _, _, _, _) => Header
    case InterfacePiece(i, _, _, _) => AnInterface(i)
    case EndpointPiece(e, _) => AnEndpoint(e)
    case AssociationPiece(a, _, _) => AnAssociation(a)
    case OtherPiece(_) => Uninterpreted
  }

  /** Sections 9.6.3, 9.6.5 and 9.6.6 of the USB 2.0 specification, and 9.6.4
      of USB 3.0 for associations. */
  function Publish(p: Piece): Raw
    requires Publishable(p)
  {
    match p
    case HeaderPiece(total, count, value, name, attributes, maxPower, tail) =>
      Raw(2, [|tail| + 9, 2, total.0, total.1, count, value, name, attributes, maxPower] + tail)
    case InterfacePiece(i, count, name, tail) =>
      Raw(4, [|tail| + 9, 4, i.number, i.alternate, count, i.class_, i.subClass, i.protocol, name] + tail)
    case EndpointPiece(e, tail) =>
      Raw(5, [|tail| + 7, 5, e.address, e.attributes, e.maxPacketSize % 256, e.maxPacketSize / 256, e.interval] + tail)
    case AssociationPiece(a, name, tail) =>
      Raw(11, [|tail| + 8, 11, a.firstInterface, a.interfaceCount, a.class_, a.subClass, a.protocol, name] + tail)
    case OtherPiece(r) => r
  }

  /** Which descriptors are interpreted, by their numbers. */
  lemma MeaningInNumbers(r: Raw)
    ensures MeaningOf(r).Header? <==> r.kind == 2
    ensures MeaningOf(r).AnInterface? <==> r.kind == 4 && |r.bytes| >= 9
    ensures MeaningOf(r).AnEndpoint? <==> r.kind == 5 && |r.bytes| >= 7
    ensures MeaningOf(r).AnAssociation? <==> r.kind == 11 && |r.bytes| >= 8
  {}

  lemma PublishedMeans(p: Piece)
    requires Publishable(p)
    ensures WellFormed(Publish(p)) && MeaningOf(Publish(p)) == Says(p)
  {}

  predicate AllPublishable(ps: seq<Piece>) {
    forall k :: 0 <= k < |ps| ==> Publishable(ps[k])
  }

  function PublishAll(ps: seq<Piece>): (rs: seq<Raw>)
    requires AllPublishable(ps)
    ensures |rs| == |ps| && forall k :: 0 <= k < |ps| ==> rs[k] == Publish(ps[k])
  {
    seq(|ps|, k requires 0 <= k < |ps| => Publish(ps[k]))
  }

  function SayAll(ps: seq<Piece>): (ms: seq<Meaning>)
    ensures |ms| == |ps| && forall k :: 0 <= k < |ps| ==> ms[k] == Says(ps[k])
  {
    seq(|ps|, k requires 0 <= k < |ps| => Says(ps[k]))
  }

  lemma PublishedAllMean(ps: seq<Piece>)
    requires AllPublishable(ps)
    ensures AllWellFormed(PublishAll(ps)) && Meanings(PublishAll(ps)) == SayAll(ps)
  {
    hide Publish, Publishable, WellFormed;
    forall k | 0 <= k < |ps| ensures WellFormed(PublishAll(ps)[k]) && MeaningOf(PublishAll(ps)[k]) == Says(ps[k]) {
      PublishedMeans(ps[k]);
    }
  }

  /** Whatever is published after a configuration header parses back to what it says. */
  lemma ParseInvertsPublish(h: Piece, ps: seq<Piece>)
    requires h.HeaderPiece? && AllPublishable([h] + ps)
    ensures Parsed(Flatten(PublishAll([h] + ps))) ==
            (Described(h.value, h.attributes, h.maxPower, SayAll([h] + ps)), None)
  {
    var all := [h] + ps;
    var rs := PublishAll(all);
    var b := Flatten(rs);
    PublishedAllMean(all);
    SplitSucceedsIff(b, rs);
    HeaderBytes(h, rs);
  }

  lemma {:induction false} HeaderBytes(h: Piece, rs: seq<Raw>)
    requires h.HeaderPiece? && Publishable(h) && rs != [] && rs[0] == Publish(h)
    ensures var b := Flatten(rs);
            |b| >= MIN_CONFIG && b[5] == h.value && b[7] == h.attributes && b[8] == h.maxPower
  {
    var b := Flatten(rs);
    assert b == rs[0].bytes + Flatten(rs[1..]);
  }

  /** The pieces spell out a configuration: its associations in order, its
      interfaces in order each followed by its endpoints, and anything else. */
  ghost predicate Spells(ps: seq<Piece>, c: Config) {
    && Associations(SayAll(ps)) == c.associations
    && Group(SayAll(ps)) == Grouping([], c.interfaces)
    && CountUninterpreted(SayAll(ps)) == c.unknown
  }

  /** For any configuration and any spelling of it, parsing returns the configuration. */
  lemma RoundTrip(c: Config, h: Piece, ps: seq<Piece>)
    requires h.HeaderPiece? && AllPublishable([h] + ps)
    requires h.value == c.value && h.attributes == c.attributes && h.maxPower == c.maxPower
    requires Spells(ps, c)
    ensures Parsed(Flatten(PublishAll([h] + ps))) == (c, None)
  {
    ParseInvertsPublish(h, ps);
    var ms := SayAll([h] + ps);
    SayCons(h, ps);
    assert Associations(ms) == [] + Associations(SayAll(ps)) == c.associations;
    assert Described(h.value, h.attributes, h.maxPower, ms) == c;
  }

  /** One interface with one endpoint, as a device would publish it. */
  const SMALL_BLOCK: seq<Octet> :=
    [9, 2, 25, 0, 1, 1, 0, 0x80, 50] + ([9, 4, 0, 0, 1, 3, 1, 2, 0] + [7, 5, 0x81, 3, 8, 0, 10])

  lemma SmallBlockParses()
    ensures Parsed(SMALL_BLOCK) ==
      (Config(1, 0x80, 50, [], [Interface(0, 0, 3, 1, 2, [Endpoint(0x81, 3, 8, 10)])], 0), None)
  {
    var h := HeaderPiece((25, 0), 1, 1, 0, 0x80, 50, []);
    var i := InterfacePiece(Interface(0, 0, 3, 1, 2, []), 1, 0, []);
    var e := EndpointPiece(Endpoint(0x81, 3, 8, 10), []);
    var all := [h] + ([i] + [e]);
    SmallBlockPublished(h, i, e);
    ParseInvertsPublish(h, [i] + [e]);
    SmallBlockSays(h, i, e);
  }

  lemma SmallBlockPublished(h: Piece, i: Piece, e: Piece)
    requires h == HeaderPiece((25, 0), 1, 1, 0, 0x80, 50, [])
    requires i == InterfacePiece(Interface(0, 0, 3, 1, 2, []), 1, 0, [])
    requires e == EndpointPiece(Endpoint(0x81, 3, 8, 10), [])
    ensures AllPublishable([h] + ([i] + [e])) && Flatten(PublishAll([h] + ([i] + [e]))) == SMALL_BLOCK
  {
    var rs := PublishAll([h] + ([i] + [e]));
    var a, b, c := Publish(h), Publish(i), Publish(e);
    assert a.bytes == [9, 2, 25, 0, 1, 1, 0, 0x80, 50];
    assert b.bytes == [9, 4, 0, 0, 1, 3, 1, 2, 0];
    assert c.bytes == [7, 5, 0x81, 3, 8, 0, 10];
    assert rs == [a] + ([b] + [c]);
    hide Publish;
    FlattenCons(a, [b] + [c]);
    FlattenCons(b, [c]);
    FlattenCons(c, []);
    assert [c] + [] == [c] && c.bytes + [] == c.bytes;
  }

  lemma {:induction false} FlattenCons(r: Raw, rs: seq<Raw>)
    ensures Flatten([r] + rs) == r.bytes + Flatten(rs) && Flatten([]) == []
  {
    assert ([r] + rs)[1..] == rs;
  }

  lemma SmallBlockSays(h: Piece, i: Piece, e: Piece)
    requires h == HeaderPiece((25, 0), 1, 1, 0, 0x80, 50, [])
    requires i == InterfacePiece(Interface(0, 0, 3, 1, 2, []), 1, 0, [])
    requires e == EndpointPiece(Endpoint(0x81, 3, 8, 10), [])
    ensures Described(1, 0x80, 50, SayAll([h] + ([i] + [e]))) ==
      Config(1, 0x80, 50, [], [Interface(0, 0, 3, 1, 2, [Endpoint(0x81, 3, 8, 10)])], 0)
  {
    var ms := SayAll([h] + ([i] + [e]));
    var bare, endpoint := Interface(0, 0, 3, 1, 2, []), Endpoint(0x81, 3, 8, 10);
    assert Says(h) == Header && Says(i) == AnInterface(bare) && Says(e) == AnEndpoint(endpoint);
    assert ms == [] + [Header] + [AnInterface(bare)] + [AnEndpoint(endpoint)];
    assert Described(1, 0x80, 50, []) == Config(1, 0x80, 50, [], [], 0);
    hide Described;
    DescribedMore(1, 0x80, 50, [], Header);
    DescribedMore(1, 0x80, 50, [] + [Header], AnInterface(bare));
    DescribedMore(1, 0x80, 50, [] + [Header] + [AnInterface(bare)], AnEndpoint(endpoint));
    assert [] + [bare] == [bare] && [] + [endpoint] == [endpoint];
    assert [bare][0 := bare.(endpoints := [endpoint])] == [bare.(endpoints := [endpoint])];
  }

  // ----- Every configuration has a spelling -----

  predicate Encodable(c: Config) {
    forall k :: 0 <= k < |c.interfaces| ==> EncodableInterface(c.interfaces[k])
  }

  predicate EncodableInterface(i: Interface) {
    forall k :: 0 <= k < |i.endpoints| ==> i.endpoints[k].maxPacketSize < 0x10000
  }

  function SpellEndpoints(es: seq<Endpoint>): seq<Piece> {
    if es == [] then [] else [EndpointPiece(es[0], [])] + SpellEndpoints(es[1..])
  }

  function SpellInterfaces(ifaces: seq<Interface>): seq<Piece> {
    if ifaces == [] then []
    else
      [InterfacePiece(ifaces[0].(endpoints := []), 0, 0, [])]
      + (SpellEndpoints(ifaces[0].endpoints) + SpellInterfaces(ifaces[1..]))
  }

  function SpellAssociations(list: seq<Association>): seq<Piece> {
    if list == [] then [] else [AssociationPiece(list[0], 0, [])] + SpellAssociations(list[1..])
  }

  lemma SayCons(p: Piece, ps: seq<Piece>)
    ensures SayAll([p] + ps)[0] == Says(p) && SayAll([p] + ps)[1..] == SayAll(ps)
  {}

  lemma {:induction false} EndpointsSpelled(es: seq<Endpoint>, rest: seq<Piece>)
    ensures var ms := SayAll(SpellEndpoints(es) + rest);
            && Group(ms) == Grouping(es + Group(SayAll(rest)).orphans, Group(SayAll(rest)).interfaces)
            && Associations(ms) == Associations(SayAll(rest))
            && CountUninterpreted(ms) == CountUninterpreted(SayAll(rest))
  {
    if es == [] {
      assert SpellEndpoints(es) + rest == rest;
    } else {
      var p, tail := EndpointPiece(es[0], []), SpellEndpoints(es[1..]);
      EndpointsSpelled(es[1..], rest);
      EndpointsSpelledOne(p, tail, rest, es[1..]);
      assert es == [es[0]] + es[1..];
    }
  }

  lemma EndpointsSpelledOne(p: Piece, tail: seq<Piece>, rest: seq<Piece>, es: seq<Endpoint>)
    requires p.EndpointPiece?
    requires Group(SayAll(tail + rest)).orphans == es + Group(SayAll(rest)).orphans
    ensures var ms := SayAll(([p] + tail) + rest);
            && Group(ms).orphans == ([p.endpoint] + es) + Group(SayAll(rest)).orphans
            && Group(ms).interfaces == Group(SayAll(tail + rest)).interfaces
            && Associations(ms) == Associations(SayAll(tail + rest))
            && CountUninterpreted(ms) == CountUninterpreted(SayAll(tail + rest))
  {
    var more := tail + rest;
    assert ([p] + tail) + rest == [p] + more;
    SayCons(p, more);
    var ms := SayAll([p] + more);
    hide SayAll, Group, Associations, CountUninterpreted;
    EndpointInFront(ms);
    var o := Group(SayAll(rest)).orphans;
    assert [p.endpoint] + (es + o) == ([p.endpoint] + es) + o;
  }

  lemma {:induction false} EndpointInFront(ms: seq<Meaning>)
    requires ms != [] && ms[0].AnEndpoint?
    ensures Group(ms) == Grouping([ms[0].endpoint] + Group(ms[1..]).orphans, Group(ms[1..]).interfaces)
    ensures Associations(ms) == Associations(ms[1..]) && CountUninterpreted(ms) == CountUninterpreted(ms[1..])
  {
    assert [] + Associations(ms[1..]) == Associations(ms[1..]);
  }

  lemma {:induction false} InterfaceInFront(ms: seq<Meaning>)
    requires ms != [] && ms[0].AnInterface?
    ensures var i, g := ms[0].iface, Group(ms[1..]);
            Group(ms) == Grouping([], [i.(endpoints := i.endpoints + g.orphans)] + g.interfaces)
    ensures Associations(ms) == Associations(ms[1..]) && CountUninterpreted(ms) == CountUninterpreted(ms[1..])
  {
    assert [] + Associations(ms[1..]) == Associations(ms[1..]);
  }

  lemma {:induction false} InterfacesSpelled(ifaces: seq<Interface>)
    ensures var ms := SayAll(SpellInterfaces(ifaces));
            Group(ms) == Grouping([], ifaces) && Associations(ms) == [] && CountUninterpreted(ms) == 0
  {
    if ifaces == [] {
    } else {
      var i, rest := ifaces[0], SpellInterfaces(ifaces[1..]);
      InterfacesSpelled(ifaces[1..]);
      EndpointsSpelled(i.endpoints, rest);
      SayCons(InterfacePiece(i.(endpoints := []), 0, 0, []), SpellEndpoints(i.endpoints) + rest);
      InterfaceInFront(SayAll(SpellInterfaces(ifaces)));
      hide Group, Associations, CountUninterpreted, SayAll;
      assert [] + (i.endpoints + []) == i.endpoints;
      assert ifaces == [i] + ifaces[1..];
    }
  }

  lemma {:induction false} AssociationInFront(ms: seq<Meaning>)
    requires ms != [] && ms[0].AnAssociation?
    ensures Group(ms) == Group(ms[1..]) && CountUninterpreted(ms) == CountUninterpreted(ms[1..])
    ensures Associations(ms) == [ms[0].association] + Associations(ms[1..])
  {}

  lemma {:induction false} AssociationsSpelled(list: seq<Association>, rest: seq<Piece>)
    ensures var ms := SayAll(SpellAssociations(list) + rest);
            && Group(ms) == Group(SayAll(rest))
            && Associations(ms) == list + Associations(SayAll(rest))
            && CountUninterpreted(ms) == CountUninterpreted(SayAll(rest))
  {
    if list == [] {
      assert SpellAssociations(list) + rest == rest;
    } else {
      var p, tail := AssociationPiece(list[0], 0, []), SpellAssociations(list[1..]);
      AssociationsSpelled(list[1..], rest);
      AssociationsSpelledOne(p, tail, rest, list[1..]);
      assert list == [list[0]] + list[1..];
    }
  }

  lemma AssociationsSpelledOne(p: Piece, tail: seq<Piece>, rest: seq<Piece>, list: seq<Association>)
    requires p.AssociationPiece?
    requires Associations(SayAll(tail + rest)) == list + Associations(SayAll(rest))
    ensures var ms := SayAll(([p] + tail) + rest);
            && Group(ms) == Group(SayAll(tail + rest))
            && Associations(ms) == ([p.association] + list) + Associations(SayAll(rest))
            && CountUninterpreted(ms) == CountUninterpreted(SayAll(tail + rest))
  {
    var more := tail + rest;
    assert ([p] + tail) + rest == [p] + more;
    SayCons(p, more);
    var ms := SayAll([p] + more);
    hide SayAll, Group, Associations, CountUninterpreted;
    AssociationInFront(ms);
    assert [p.association] + (list + Associations(SayAll(rest))) ==
        ([p.association] + list) + Associations(SayAll(rest));
  }

  lemma {:induction false} EndpointsPublishable(es: seq<Endpoint>)
    requires forall k :: 0 <= k < |es| ==> es[k].maxPacketSize < 0x10000
    ensures AllPublishable(SpellEndpoints(es))
  {
    if es == [] {
    } else {
      EndpointsPublishable(es[1..]);
    }
  }

  lemma {:induction false} InterfacesPublishable(ifaces: seq<Interface>)
    requires forall k :: 0 <= k < |ifaces| ==> EncodableInterface(ifaces[k])
    ensures AllPublishable(SpellInterfaces(ifaces))
  {
    if ifaces == [] {
    } else {
      EndpointsPublishable(ifaces[0].endpoints);
      InterfacesPublishable(ifaces[1..]);
    }
  }

  lemma {:induction false} AssociationsPublishable(list: seq<Association>)
    ensures AllPublishable(SpellAssociations(list))
  {
    if list == [] {
    } else {
      AssociationsPublishable(list[1..]);
    }
  }

  /** A vendor-specific descriptor of two bytes, which nothing interprets. */
  const FILLER: Piece := OtherPiece(Raw(0xFF, [2, 0xFF]))

  function Fillers(n: nat): (ps: seq<Piece>)
    ensures |ps| == n && AllPublishable(ps)
  {
    if n == 0 then [] else [FILLER] + Fillers(n - 1)
  }

  lemma {:induction false} UninterpretedInFront(ms: seq<Meaning>)
    requires ms != [] && ms[0].Uninterpreted?
    ensures Group(ms) == Group(ms[1..]) && Associations(ms) == Associations(ms[1..])
    ensures CountUninterpreted(ms) == 1 + CountUninterpreted(ms[1..])
  {
    assert [] + Associations(ms[1..]) == Associations(ms[1..]);
  }

  lemma {:induction false} FillersSpelled(n: nat, rest: seq<Piece>)
    ensures var ms := SayAll(Fillers(n) + rest);
            && Group(ms) == Group(SayAll(rest)) && Associations(ms) == Associations(SayAll(rest))
            && CountUninterpreted(ms) == n + CountUninterpreted(SayAll(rest))
  {
    if n == 0 {
      assert Fillers(0) + rest == rest;
    } else {
      hide Group, Associations, CountUninterpreted;
      assert Fillers(n) + rest == [FILLER] + (Fillers(n - 1) + rest);
      SayCons(FILLER, Fillers(n - 1) + rest);
      UninterpretedInFront(SayAll(Fillers(n) + rest));
      FillersSpelled(n - 1, rest);
    }
  }

  /** Every configuration whose packet sizes fit their field can be published and read back. */
  lemma EveryConfigIsSpelled(c: Config)
    requires Encodable(c)
    ensures var ps := Fillers(c.unknown) + (SpellAssociations(c.associations) + SpellInterfaces(c.interfaces));
            AllPublishable(ps) && Spells(ps, c)
  {
    var known := SpellAssociations(c.associations) + SpellInterfaces(c.interfaces);
    InterfacesSpelled(c.interfaces);
    AssociationsSpelled(c.associations, SpellInterfaces(c.interfaces));
    AssociationsPublishable(c.associations);
    InterfacesPublishable(c.interfaces);
    hide Group, Associations, CountUninterpreted, SayAll;
    FillersSpelled(c.unknown, known);
  }
}
