/** The USB descriptor walker and parser of usb/descriptor.go. */
module Descriptor {
  import opened Octets
  import opened Wrappers

  const DESC_CONFIGURATION: Octet := 0x02
  const DESC_INTERFACE: Octet := 0x04
  const DESC_ENDPOINT: Octet := 0x05
  const DESC_ASSOCIATION: Octet := 0x0B

  const MIN_CONFIG: nat := 9
  const MIN_INTERFACE: nat := 9
  const MIN_ENDPOINT: nat := 7
  const MIN_ASSOCIATION: nat := 8

  /** One descriptor as published: its type and all its bytes. */
  datatype Raw = Raw(kind: Octet, bytes: seq<Octet>)

  /** Why a block is malformed, with the numbers the message carries. */
  datatype Malformed =
    | TrailingBytes(count: nat, offset: nat)
    | BadLength(length: nat, offset: nat)
    | ShortBlock(size: nat)

  datatype Endpoint = Endpoint(address: Octet, attributes: Octet, maxPacketSize: nat, interval: Octet)

  datatype Interface = Interface(number: Octet, alternate: Octet, class_: Octet, subClass: Octet, protocol: Octet,
                                 endpoints: seq<Endpoint>)

  datatype Association = Association(firstInterface: Octet, interfaceCount: Octet,
                                     class_: Octet, subClass: Octet, protocol: Octet)

  datatype Config = Config(value: Octet, attributes: Octet, maxPower: Octet,
                           associations: seq<Association>, interfaces: seq<Interface>, unknown: nat)

  // ----- Walking a block -----

  /** A block starts with a whole descriptor. */
  predicate Splits(b: seq<Octet>) {
    |b| >= 2 && 2 <= b[0] <= |b|
  }

  /** What a walk found, and the bytes it could not walk. */
  datatype Walked = Walked(raws: seq<Raw>, rest: seq<Octet>)

  function Walk(b: seq<Octet>): (w: Walked)
    ensures |w.rest| <= |b|
    decreases |b|
  {
    if !Splits(b) then Walked([], b)
    else
      var w := Walk(b[b[0]..]);
      Walked([Raw(b[1], b[..b[0]])] + w.raws, w.rest)
  }

  /** The complaint made when `rest` cannot be walked at the given offset. */
  function Complaint(rest: seq<Octet>, offset: nat): Option<Malformed> {
    if rest == [] then None
    else if |rest| < 2 then Some(TrailingBytes(|rest|, offset))
    else Some(BadLength(rest[0], offset))
  }

  lemma TakenOff(b: seq<Octet>, i: nat, n: nat)
    requires i + n <= |b|
    ensures b[i..] == b[i..i + n] + b[i + n..]
  {}

  lemma Regrouped(out: seq<Raw>, r: Raw, more: seq<Raw>)
    ensures out + ([r] + more) == (out + [r]) + more
  {}

  method Split(b: seq<Octet>) returns (out: seq<Raw>, err: Option<Malformed>)
    ensures out == Walk(b).raws
    ensures err == Complaint(Walk(b).rest, |b| - |Walk(b).rest|)
  {
    hide Walk;
    out := [];
    var i := 0;
    assert b[0..] == b;
    while i < |b|
      invariant 0 <= i <= |b|
      invariant Walk(b) == Walked(out + Walk(b[i..]).raws, Walk(b[i..]).rest)
      decreases |b| - i
    {
      ghost var here := b[i..];
      WalkStuck(here);
      if |b| - i < 2 {
        return out, Some(TrailingBytes(|b| - i, i));
      }
      var n := b[i];
      if n < 2 || i + n > |b| {
        return out, Some(BadLength(n, i));
      }
      var r := Raw(b[i + 1], b[i..i + n]);
      TakenOff(b, i, n);
      WalkCons(r, b[i + n..]);
      Regrouped(out, r, Walk(b[i + n..]).raws);
      out := out + [r];
      i := i + n;
    }
    WalkStuck([]);
    return out, None;
  }

  predicate WellFormed(r: Raw) {
    |r.bytes| >= 2 && r.bytes[0] == |r.bytes| && r.bytes[1] == r.kind
  }

  predicate AllWellFormed(rs: seq<Raw>) {
    forall k :: 0 <= k < |rs| ==> WellFormed(rs[k])
  }

  function Flatten(rs: seq<Raw>): seq<Octet> {
    if rs == [] then [] else rs[0].bytes + Flatten(rs[1..])
  }

  lemma {:induction false} WalkStuck(b: seq<Octet>)
    ensures !Splits(b) ==> Walk(b) == Walked([], b)
  {}

  lemma {:induction false} FlattenCons(r: Raw, rs: seq<Raw>)
    ensures Flatten([r] + rs) == r.bytes + Flatten(rs)
  {
    assert ([r] + rs)[1..] == rs;
  }

  /** A well-formed descriptor in front is what the walk returns first. */
  lemma {:induction false} WalkCons(r: Raw, tail: seq<Octet>)
    requires WellFormed(r)
    ensures Walk(r.bytes + tail).raws == [r] + Walk(tail).raws
    ensures Walk(r.bytes + tail).rest == Walk(tail).rest
  {
    var b := r.bytes + tail;
    assert b[0] == r.bytes[0] && b[1] == r.bytes[1];
    assert b[..b[0]] == r.bytes && b[b[0]..] == tail;
  }

  lemma AllWellFormedCons(r: Raw, rs: seq<Raw>)
    requires WellFormed(r) && AllWellFormed(rs)
    ensures AllWellFormed([r] + rs)
  {}

  /** A walk takes the block apart into well-formed descriptors and an unwalkable rest. */
  lemma {:induction false} WalkTakesApart(b: seq<Octet>)
    ensures AllWellFormed(Walk(b).raws)
    ensures b == Flatten(Walk(b).raws) + Walk(b).rest
    ensures !Splits(Walk(b).rest)
    decreases |b|
  {
    if Splits(b) {
      var r, tail := Raw(b[1], b[..b[0]]), b[b[0]..];
      assert b == r.bytes + tail;
      WalkTakesApart(tail);
      TakeApartOne(r, tail);
    } else {
      assert Walk(b) == Walked([], b);
    }
  }

  lemma {:induction false} TakeApartOne(r: Raw, tail: seq<Octet>)
    requires WellFormed(r)
    requires AllWellFormed(Walk(tail).raws) && tail == Flatten(Walk(tail).raws) + Walk(tail).rest
    ensures var w := Walk(r.bytes + tail);
            AllWellFormed(w.raws) && r.bytes + tail == Flatten(w.raws) + w.rest && w.rest == Walk(tail).rest
  {
    hide Walk, Flatten, AllWellFormed, WellFormed;
    var raws, rest := Walk(tail).raws, Walk(tail).rest;
    WalkCons(r, tail);
    FlattenCons(r, raws);
    assert r.bytes + (Flatten(raws) + rest) == (r.bytes + Flatten(raws)) + rest;
    AllWellFormedCons(r, raws);
  }

  /** Descriptors followed by anything are walked one by one before anything else. */
  lemma {:induction false} WalkOfFlatten(rs: seq<Raw>, tail: seq<Octet>)
    requires AllWellFormed(rs)
    ensures Walk(Flatten(rs) + tail).raws == rs + Walk(tail).raws
    ensures Walk(Flatten(rs) + tail).rest == Walk(tail).rest
  {
    if rs == [] {
      assert Flatten(rs) + tail == tail;
    } else {
      var r, more := rs[0], rs[1..];
      assert AllWellFormed(more) && WellFormed(r);
      assert rs == [r] + more;
      hide Walk, Flatten, AllWellFormed, WellFormed;
      WalkOfFlatten(more, tail);
      WalkOneMore(r, more, Flatten(more), tail);
      Grouped(r, more, Walk(tail).raws);
    }
  }

  lemma Grouped(r: Raw, more: seq<Raw>, others: seq<Raw>)
    ensures ([r] + more) + others == [r] + (more + others)
  {}

  lemma {:induction false} WalkOneMore(r: Raw, more: seq<Raw>, flat: seq<Octet>, tail: seq<Octet>)
    requires WellFormed(r) && flat == Flatten(more)
    ensures Walk(Flatten([r] + more) + tail).raws == [r] + Walk(flat + tail).raws
    ensures Walk(Flatten([r] + more) + tail).rest == Walk(flat + tail).rest
  {
    hide Walk, Flatten, WellFormed;
    FlattenCons(r, more);
    assert Flatten([r] + more) + tail == r.bytes + (flat + tail);
    WalkCons(r, flat + tail);
  }

  /** Split succeeds exactly on concatenations of well-formed descriptors, and
      then returns the only such decomposition. */
  lemma {:induction false} SplitSucceedsIff(b: seq<Octet>, rs: seq<Raw>)
    ensures (AllWellFormed(rs) && Flatten(rs) == b) <==> (Walk(b).rest == [] && Walk(b).raws == rs)
  {
    WalkTakesApart(b);
    assert Flatten(Walk(b).raws) + [] == Flatten(Walk(b).raws);
    if AllWellFormed(rs) && Flatten(rs) == b {
      WalkOfFlatten(rs, []);
      assert Flatten(rs) + [] == b;
      assert Walk([]) == Walked([], []);
    }
  }

  /** Whatever well-formed descriptors a block starts with, the walk returns
      them first: its result is the longest splittable prefix. */
  lemma {:induction false} WalkIsLongest(b: seq<Octet>, rs: seq<Raw>)
    requires AllWellFormed(rs) && Flatten(rs) <= b
    ensures rs <= Walk(b).raws && |Flatten(rs)| <= |Flatten(Walk(b).raws)|
  {
    var tail := b[|Flatten(rs)|..];
    assert b == Flatten(rs) + tail;
    WalkOfFlatten(rs, tail);
    FlattenConcat(rs, Walk(tail).raws);
  }

  lemma {:induction false} FlattenConcat(a: seq<Raw>, b: seq<Raw>)
    ensures Flatten(a + b) == Flatten(a) + Flatten(b)
  {
    if a == [] {
      assert a + b == b;
    } else {
      assert (a + b)[1..] == a[1..] + b;
      FlattenConcat(a[1..], b);
    }
  }

  /** Splitting distributes over concatenation once the first part splits. */
  lemma {:induction false} SplitConcat(a: seq<Octet>, b: seq<Octet>)
    requires Walk(a).rest == []
    ensures Walk(a + b).raws == Walk(a).raws + Walk(b).raws && Walk(a + b).rest == Walk(b).rest
  {
    WalkTakesApart(a);
    assert a == Flatten(Walk(a).raws);
    WalkOfFlatten(Walk(a).raws, b);
  }

  // ----- Interpreting descriptors -----

  /** What a descriptor says, if anything. */
  datatype Meaning =
    | Header
    | AnInterface(iface: Interface)
    | AnEndpoint(endpoint: Endpoint)
    | AnAssociation(association: Association)
    | Uninterpreted

  /** A 16-bit field, low byte first. */
  function Word16(lo: Octet, hi: Octet): nat { lo as int + 256 * (hi as int) }

  function MeaningOf(r: Raw): Meaning {
    var b := r.bytes;
    if r.kind == DESC_CONFIGURATION then Header
    else if r.kind == DESC_INTERFACE && |b| >= MIN_INTERFACE then
      AnInterface(Interface(b[2], b[3], b[5], b[6], b[7], []))
    else if r.kind == DESC_ENDPOINT && |b| >= MIN_ENDPOINT then
      AnEndpoint(Endpoint(b[2], b[3], Word16(b[4], b[5]), b[6]))
    else if r.kind == DESC_ASSOCIATION && |b| >= MIN_ASSOCIATION then
      AnAssociation(Association(b[2], b[3], b[4], b[5], b[6]))
    else Uninterpreted
  }

  function Meanings(rs: seq<Raw>): (ms: seq<Meaning>)
    ensures |ms| == |rs| && forall k :: 0 <= k < |rs| ==> ms[k] == MeaningOf(rs[k])
  {
    seq(|rs|, k requires 0 <= k < |rs| => MeaningOf(rs[k]))
  }

  /** Endpoints grouped under interfaces, read from the back: the endpoints not
      yet claimed by an interface, and the interfaces with theirs. */
  datatype Grouping = Grouping(orphans: seq<Endpoint>, interfaces: seq<Interface>)

  /** One more descriptor in front: an interface claims the endpoints right after it. */
  function Prepend(m: Meaning, g: Grouping): Grouping {
    match m
    case AnEndpoint(e) => Grouping([e] + g.orphans, g.interfaces)
    case AnInterface(i) => Grouping([], [i.(endpoints := i.endpoints + g.orphans)] + g.interfaces)
    case _ => g
  }

  function Group(ms: seq<Meaning>): Grouping {
    if ms == [] then Grouping([], []) else Prepend(ms[0], Group(ms[1..]))
  }

  function Associations(ms: seq<Meaning>): seq<Association> {
    if ms == [] then []
    else (if ms[0].AnAssociation? then [ms[0].association] else []) + Associations(ms[1..])
  }

  function Endpoints(ms: seq<Meaning>): seq<Endpoint> {
    if ms == [] then []
    else (if ms[0].AnEndpoint? then [ms[0].endpoint] else []) + Endpoints(ms[1..])
  }

  function CountHeaders(ms: seq<Meaning>): nat {
    if ms == [] then 0 else (if ms[0].Header? then 1 else 0) + CountHeaders(ms[1..])
  }

  function CountUninterpreted(ms: seq<Meaning>): nat {
    if ms == [] then 0 else (if ms[0].Uninterpreted? then 1 else 0) + CountUninterpreted(ms[1..])
  }

  /** The configuration a block with these header bytes and meanings describes. */
  function Described(value: Octet, attributes: Octet, maxPower: Octet, ms: seq<Meaning>): Config {
    Config(value, attributes, maxPower, Associations(ms), Group(ms).interfaces,
           CountUninterpreted(ms) + |Group(ms).orphans|)
  }

  const ZERO_CONFIG: Config := Config(0, 0, 0, [], [], 0)

  /** The whole parser, result and error, in terms of the walk. */
  function Parsed(b: seq<Octet>): (Config, Option<Malformed>) {
    if |b| < MIN_CONFIG then (ZERO_CONFIG, Some(ShortBlock(|b|)))
    else
      var w := Walk(b);
      if w.rest != [] then
        (ZERO_CONFIG.(value := b[5], attributes := b[7], maxPower := b[8]), Complaint(w.rest, |b| - |w.rest|))
      else
        (Described(b[5], b[7], b[8], Meanings(w.raws)), None)
  }

  /** Which blocks are malformed, and with which numbers: fewer than nine bytes;
      one byte left over; or a length that is less than two or more than what is left. Of
      the configuration only the header's own fields are then read. */
  lemma {:induction false} ParsedFailsIff(b: seq<Octet>)
    ensures Parsed(b).1 == Some(ShortBlock(|b|)) <==> |b| < 9
    ensures Parsed(b).1.Some? ==>
      var c := Parsed(b).0;
      && (c.value, c.attributes, c.maxPower) == (if |b| < 9 then (0, 0, 0) else (b[5], b[7], b[8]))
      && c.associations == [] && c.interfaces == [] && c.unknown == 0
    ensures |b| >= 9 ==>
      var rest, err := Walk(b).rest, Parsed(b).1;
      var offset := |b| - |rest|;
      && rest == b[offset..] && offset == |Flatten(Walk(b).raws)|
      && (err == None <==> rest == [])
      && (|rest| == 1 ==> err == Some(TrailingBytes(1, offset)))
      && (|rest| >= 2 ==> err == Some(BadLength(b[offset], offset)) && (b[offset] < 2 || offset + b[offset] > |b|))
  {
    WalkTakesApart(b);
    WalkEnds(b);
  }

  /** What is left cannot be split. */
  lemma {:induction false} WalkEnds(b: seq<Octet>)
    ensures !Splits(Walk(b).rest)
    decreases |b|
  {
    if Splits(b) {
      WalkEnds(b[b[0]..]);
    }
  }

  /** The body of the loop: one descriptor, by type and length. */
  method Interpret(before: Config, r: Raw) returns (c: Config)
    ensures c == Absorb(before, MeaningOf(r))
  {
    c := before;
    if r.kind == DESC_CONFIGURATION {
    } else if r.kind == DESC_INTERFACE && |r.bytes| >= MIN_INTERFACE {
      c := c.(interfaces := c.interfaces
             + [Interface(r.bytes[2], r.bytes[3], r.bytes[5], r.bytes[6], r.bytes[7], [])]);
    } else if r.kind == DESC_ENDPOINT && |r.bytes| >= MIN_ENDPOINT {
      if |c.interfaces| == 0 {
        c := c.(unknown := c.unknown + 1);
      } else {
        var last := |c.interfaces| - 1;
        var cur := c.interfaces[last];
        var e := Endpoint(r.bytes[2], r.bytes[3], Word16(r.bytes[4], r.bytes[5]), r.bytes[6]);
        c := c.(interfaces := c.interfaces[last := cur.(endpoints := cur.endpoints + [e])]);
      }
    } else if r.kind == DESC_ASSOCIATION && |r.bytes| >= MIN_ASSOCIATION {
      c := c.(associations := c.associations
             + [Association(r.bytes[2], r.bytes[3], r.bytes[4], r.bytes[5], r.bytes[6])]);
    } else {
      c := c.(unknown := c.unknown + 1);
    }
  }

  method ParseConfig(b: seq<Octet>) returns (c: Config, err: Option<Malformed>)
    ensures (c, err) == Parsed(b)
  {
    c := ZERO_CONFIG;
    if |b| < MIN_CONFIG {
      return c, Some(ShortBlock(|b|));
    }
    c := c.(value := b[5], attributes := b[7], maxPower := b[8]);
    var raws;
    raws, err := Split(b);
    WalkTakesApart(b);
    if err.Some? {
      return c, err;
    }
    ghost var ms := Meanings(raws);
    assert ms[..0] == [];
    assert Parsed(b) == (Described(b[5], b[7], b[8], ms), None);
    assert Described(b[5], b[7], b[8], ms[..0]) == c;
    hide Described, Parsed, Meanings, AllWellFormed, Flatten;
    for k := 0 to |raws|
      invariant c == Described(b[5], b[7], b[8], ms[..k])
    {
      var r := raws[k];
      assert ms[..k + 1] == ms[..k] + [ms[k]];
      DescribedMore(b[5], b[7], b[8], ms[..k], ms[k]);
      c := Interpret(c, r);
    }
    assert ms[..|raws|] == ms;
  }

  /** What one more descriptor does to a configuration under construction. */
  function Absorb(c: Config, m: Meaning): Config {
    match m
    case Header => c
    case AnInterface(i) => c.(interfaces := c.interfaces + [i])
    case AnEndpoint(e) =>
      if c.interfaces == [] then c.(unknown := c.unknown + 1)
      else
        var last := |c.interfaces| - 1;
        var cur := c.interfaces[last];
        c.(interfaces := c.interfaces[last := cur.(endpoints := cur.endpoints + [e])])
    case AnAssociation(a) => c.(associations := c.associations + [a])
    case Uninterpreted => c.(unknown := c.unknown + 1)
  }

  lemma DescribedMore(value: Octet, attributes: Octet, maxPower: Octet, ms: seq<Meaning>, m: Meaning)
    ensures Described(value, attributes, maxPower, ms + [m]) == Absorb(Described(value, attributes, maxPower, ms), m)
  {
    AssociationsConcat(ms, [m]);
    CountUninterpretedConcat(ms, [m]);
    GroupMore(ms, m);
    assert [m][1..] == [];
  }

  /** Attaching one more descriptor to a grouping from the front. */
  function Attach(g: Grouping, m: Meaning): Grouping {
    match m
    case AnInterface(i) => g.(interfaces := g.interfaces + [i])
    case AnEndpoint(e) =>
      if g.interfaces == [] then g.(orphans := g.orphans + [e])
      else
        var last := |g.interfaces| - 1;
        var cur := g.interfaces[last];
        g.(interfaces := g.interfaces[last := cur.(endpoints := cur.endpoints + [e])])
    case _ => g
  }

  lemma {:induction false} GroupMore(ms: seq<Meaning>, m: Meaning)
    ensures Group(ms + [m]) == Attach(Group(ms), m)
  {
    if ms == [] {
      assert [m][1..] == [] && ms + [m] == [m];
      if m.AnInterface? {
        assert m.iface.(endpoints := m.iface.endpoints + []) == m.iface;
      }
    } else {
      assert (ms + [m])[1..] == ms[1..] + [m];
      GroupMore(ms[1..], m);
      AttachBehind(ms[0], Group(ms[1..]), m);
    }
  }

  /** Growing a grouping at the front and at the back commute. */
  lemma AttachBehind(m0: Meaning, g: Grouping, m: Meaning)
    ensures Prepend(m0, Attach(g, m)) == Attach(Prepend(m0, g), m)
  {
    if m.AnEndpoint? {
      var e := m.endpoint;
      if g.interfaces == [] {
        if m0.AnInterface? {
          assert m0.iface.endpoints + (g.orphans + [e]) == (m0.iface.endpoints + g.orphans) + [e];
        } else if m0.AnEndpoint? {
          assert [m0.endpoint] + (g.orphans + [e]) == ([m0.endpoint] + g.orphans) + [e];
        }
      } else if m0.AnInterface? {
        var last := |g.interfaces| - 1;
        var cur := g.interfaces[last];
        var more := cur.(endpoints := cur.endpoints + [e]);
        var j := m0.iface.(endpoints := m0.iface.endpoints + g.orphans);
        assert [j] + g.interfaces[last := more] == ([j] + g.interfaces)[last + 1 := more];
      }
    } else if m.AnInterface? && m0.AnInterface? {
      var j := m0.iface.(endpoints := m0.iface.endpoints + g.orphans);
      assert [j] + (g.interfaces + [m.iface]) == ([j] + g.interfaces) + [m.iface];
    }
  }

  lemma {:induction false} AssociationsConcat(a: seq<Meaning>, b: seq<Meaning>)
    ensures Associations(a + b) == Associations(a) + Associations(b)
  {
    if a == [] {
      assert a + b == b;
    } else {
      assert (a + b)[1..] == a[1..] + b;
      AssociationsConcat(a[1..], b);
      var x := if a[0].AnAssociation? then [a[0].association] else [];
      assert x + (Associations(a[1..]) + Associations(b)) == (x + Associations(a[1..])) + Associations(b);
    }
  }

  lemma {:induction false} CountUninterpretedConcat(a: seq<Meaning>, b: seq<Meaning>)
    ensures CountUninterpreted(a + b) == CountUninterpreted(a) + CountUninterpreted(b)
  {
    if a == [] {
      assert a + b == b;
    } else {
      assert (a + b)[1..] == a[1..] + b;
      CountUninterpretedConcat(a[1..], b);
    }
  }
}
