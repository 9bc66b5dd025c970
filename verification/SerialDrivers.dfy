/** Which drivers leave a port as Port.Configure of serial/serial.go was asked to. */
module SerialDrivers {
  import opened Wrappers
  import opened TermiosModel
  import opened FlagWords
  import opened SerialPort

  /** How a driver treats a rate, given the one in force: whether it takes a
      termios with it and the rate it then stores, whether it takes it through
      IOSSIOSPEED and the rate it then sets. Neither need be the one it was given,
      and the two calls may round differently. */
  datatype Rates = Rates(accepts: (uint64, uint64) -> bool, takes: (uint64, uint64) -> bool,
                         stores: (uint64, uint64) -> uint64, sets: (uint64, uint64) -> uint64)

  /** The flag bits and control characters a driver leaves alone when it accepts a termios. */
  datatype Ignored = Ignored(iflag: bv64, oflag: bv64, cflag: bv64, lflag: bv64, cc: set<nat>)

  const NOTHING: Ignored := Ignored(0, 0, 0, 0, {})

  function AtRate(t: Termios, rate: uint64): Termios { t.(ispeed := rate, ospeed := rate) }

  /** A word written over another by a driver that leaves some bits alone. */
  function Mixed(held: bv64, asked: bv64, ignored: bv64): bv64 { Put(asked, ignored, And(held, ignored)) }

  function Stored(held: Termios, t: Termios, ig: Ignored): Termios {
    Termios(Mixed(held.iflag, t.iflag, ig.iflag), Mixed(held.oflag, t.oflag, ig.oflag),
            Mixed(held.cflag, t.cflag, ig.cflag), Mixed(held.lflag, t.lflag, ig.lflag),
            seq(NCCS, i requires 0 <= i < NCCS => if i in ig.cc then held.cc[i] else t.cc[i]),
            t.ispeed, t.ospeed)
  }

  /** A driver that stores a termios but for the bits it ignores and the rate it
      rounds, or refuses it over its rate and stores nothing. `view` is the
      termios it holds. */
  ghost predicate RateDriver<S(!new)>(d: Driver<S>, view: S -> Termios, r: Rates, ig: Ignored) {
    && (forall s :: d.control(s).None?)
    && (forall s :: d.get(s).1 == Ok(view(s)) && view(d.get(s).0) == view(s))
    && (forall s, t: Termios :: t.ispeed == t.ospeed ==> Writes(d, view, r, ig, s, t))
    && (forall s, b :: Insists(d, view, r, s, b))
  }

  predicate Writes<S>(d: Driver<S>, view: S -> Termios, r: Rates, ig: Ignored, s: S, t: Termios) {
    var (s', e) := d.set_(s, t);
    var held := view(s).ospeed;
    if r.accepts(held, t.ospeed) then e.None? && view(s') == AtRate(Stored(view(s), t, ig), r.stores(held, t.ospeed))
    else e.Some? && view(s') == view(s)
  }

  predicate Insists<S>(d: Driver<S>, view: S -> Termios, r: Rates, s: S, b: int64) {
    var (s', e) := d.speed(s, b);
    var held := view(s).ospeed;
    if r.takes(held, Unsigned(b)) then e.None? && view(s') == AtRate(view(s), r.sets(held, Unsigned(b)))
    else e.Some? && view(s') == view(s)
  }

  /** The driver that holds a termios and does just that. */
  function PlainDriver(r: Rates, ig: Ignored): Driver<Termios> {
    Driver(_ => None, t => (t, Ok(t)),
           (held: Termios, t: Termios) =>
             if r.accepts(held.ospeed, t.ospeed)
             then (AtRate(Stored(held, t, ig), r.stores(held.ospeed, t.ospeed)), None) else (held, Some(0)),
           (held: Termios, b: int64) =>
             if r.takes(held.ospeed, Unsigned(b))
             then (AtRate(held, r.sets(held.ospeed, Unsigned(b))), None) else (held, Some(0)))
  }

  /** So there is a driver for any rates and anything ignored. */
  lemma PlainDriverExists(r: Rates, ig: Ignored)
    ensures RateDriver(PlainDriver(r, ig), t => t, r, ig)
  {
    hide Stored, Unsigned;
  }

  /** Whether a rate gets through, in the termios or by itself at the rate in force. */
  predicate GetsThrough(r: Rates, held: uint64, asked: uint64) {
    || r.accepts(held, asked)
    || (Signed(held) > 0 && r.accepts(held, held) && r.takes(r.stores(held, held), asked))
  }

  /** The rate reached when it does: what the first call or the fallback left,
      after being asked once more. */
  function RateReached(r: Rates, held: uint64, asked: uint64): uint64 {
    var first := if r.accepts(held, asked) then r.stores(held, asked) else r.sets(r.stores(held, held), asked);
    if r.takes(first, asked) then r.sets(first, asked) else first
  }

  /** Whether nothing that is read back is ignored where it matters: every bit
      the driver left alone is held as asked, but for the sense of a parity that is
      off and one of the two bits of a flow control that is on. */
  predicate Heeded(cfg: Config, held: Termios, ig: Ignored) {
    var off := And(ig.cflag, Xor(held.cflag, ControlBits(cfg)));
    && And(off, CSIZE) == 0 && And(off, CSTOPB) == 0 && And(off, PARENB) == 0
    && And(off, CLOCAL) == 0 && And(off, HUPCL) == 0
    && (And(off, PARODD) == 0 || Settled(cfg).parity == PARITY_NONE)
    && (And(off, CRTSCTS) == 0 || (cfg.rtscts && And(off, CRTSCTS) != CRTSCTS))
    && (VMIN in ig.cc ==> held.cc[VMIN] == cfg.readMin)
    && (VTIME in ig.cc ==> held.cc[VTIME] == cfg.readTimeout)
  }

  /** Against any such driver Configure succeeds exactly when the rate gets
      through, it then ends with all but the ignored bits and the rate as asked, and
      the configuration read back is the one requested exactly when the rate
      reached is and nothing that matters was ignored. */
  lemma AsAskedIff<S(!new)>(d: Driver<S>, view: S -> Termios, r: Rates, ig: Ignored, s: S, cfg: Config)
    requires RateDriver(d, view, r, ig) && Validate(cfg).None?
    ensures var talk := Negotiate(d, s, cfg);
            var held, asked := view(s), Unsigned(cfg.baud);
            var reached := RateReached(r, held.ospeed, asked);
            && (talk.result.Ok? <==> GetsThrough(r, held.ospeed, asked))
            && (talk.result.Ok? ==>
                  && talk.result.value == AtRate(Stored(held, Apply(cfg, held), ig), reached)
                  && (ConfigOf(talk.result.value) == Settled(cfg) <==> reached == asked && Heeded(cfg, held, ig)))
  {
    var held := view(s);
    ReadBackIgnoring(cfg, held, ig, RateReached(r, held.ospeed, Unsigned(cfg.baud)));
    hide Settled, ConfigOf, Stored, Heeded;
    TalkReaches(d, view, r, ig, s, cfg);
  }

  lemma TalkReaches<S(!new)>(d: Driver<S>, view: S -> Termios, r: Rates, ig: Ignored, s: S, cfg: Config)
    requires RateDriver(d, view, r, ig)
    ensures var talk := Negotiate(d, s, cfg);
            var held, asked := view(s), Unsigned(cfg.baud);
            && (talk.result.Ok? <==> GetsThrough(r, held.ospeed, asked))
            && (talk.result.Ok? ==>
                  talk.result.value == AtRate(Stored(held, Apply(cfg, held), ig), RateReached(r, held.ospeed, asked)))
  {
    var cur := view(s);
    var s1 := d.get(s).0;
    SpeedsOfApply(cfg, cur);
    hide Apply, Stored, Finish, Retry;
    assert Writes(d, view, r, ig, s1, Apply(cfg, cur));
    assert d.get(s).1 == Ok(cur) && view(s1) == cur;
    hide RateDriver;
    var s2 := d.set_(s1, Apply(cfg, cur)).0;
    if r.accepts(cur.ospeed, Unsigned(cfg.baud)) {
      FinishReaches(d, view, r, ig, s2, cfg);
    } else {
      RetryReaches(d, view, r, ig, s2, cfg, d.set_(s1, Apply(cfg, cur)).1.value);
    }
  }

  /** The fallback, as what its two calls answer. */
  lemma RetryIs<S>(d: Driver<S>, s: S, cfg: Config, cur: Termios, refusal: Errno)
    ensures var (s1, e1) := d.set_(s, Apply(Keeping(cfg, cur), cur));
            var (s2, e2) := d.speed(s1, cfg.baud);
            Retry(d, s, cfg, cur, refusal).result ==
              if Signed(cur.ospeed) <= 0 || e1.Some? || e2.Some? then Err(refusal) else Finish(d, s2, cfg).result
  {
    hide Apply, Finish, Signed;
  }

  lemma RetryReaches<S(!new)>(d: Driver<S>, view: S -> Termios, r: Rates, ig: Ignored, s: S, cfg: Config,
                              refusal: Errno)
    requires RateDriver(d, view, r, ig)
    ensures var held, asked := view(s).ospeed, Unsigned(cfg.baud);
            var talk := Retry(d, s, cfg, view(s), refusal);
            var first := r.sets(r.stores(held, held), asked);
            && (talk.result.Ok? <==> Signed(held) > 0 && r.accepts(held, held) && r.takes(r.stores(held, held), asked))
            && (talk.result.Ok? ==>
                  talk.result.value ==
                  AtRate(Stored(view(s), Apply(cfg, view(s)), ig),
                         if r.takes(first, asked) then r.sets(first, asked) else first))
  {
    var cur := view(s);
    var keep := Apply(Keeping(cfg, cur), cur);
    KeepingWrites(cfg, cur);
    SpeedsOfApply(cfg, cur);
    StoredAtRate(cur, Apply(cfg, cur), ig, cur.ospeed);
    RetryIs(d, s, cfg, cur, refusal);
    hide Apply, Stored, Finish, Retry, Signed, Unsigned;
    assert Writes(d, view, r, ig, s, keep);
    var s1 := d.set_(s, keep).0;
    assert Insists(d, view, r, s1, cfg.baud);
    hide RateDriver;
    FinishReaches(d, view, r, ig, d.speed(s1, cfg.baud).0, cfg);
  }

  lemma StoredAtRate(held: Termios, t: Termios, ig: Ignored, rate: uint64)
    ensures Stored(held, AtRate(t, rate), ig) == AtRate(Stored(held, t, ig), rate)
  {
    hide Mixed;
  }

  lemma FinishReaches<S(!new)>(d: Driver<S>, view: S -> Termios, r: Rates, ig: Ignored, s: S, cfg: Config)
    requires RateDriver(d, view, r, ig)
    ensures var held, asked := view(s).ospeed, Unsigned(cfg.baud);
            Finish(d, s, cfg).result ==
              Ok(if r.takes(held, asked) then AtRate(view(s), r.sets(held, asked)) else view(s))
  {
    assert Insists(d, view, r, s, cfg.baud);
    var s1 := d.speed(s, cfg.baud).0;
    assert Finish(d, s, cfg).result == d.get(s1).1;
  }

  // ----- Reading back what a driver ignored in part -----

  lemma ReadBackIgnoring(cfg: Config, held: Termios, ig: Ignored, rate: uint64)
    ensures ConfigOf(AtRate(Stored(held, Apply(cfg, held), ig), rate)) == Settled(cfg)
            <==> rate == Unsigned(cfg.baud) && Heeded(cfg, held, ig)
  {
    ReadsControl(cfg, held, ig, rate);
    ReadsRest(cfg, held, ig, rate);
    hide ConfigOf, AtRate, Stored, Apply, And, Xor, ControlBits, Unsigned;
  }

  /** Each field read back is as asked exactly when its bits are, where they matter. */
  lemma ReadsControl(cfg: Config, held: Termios, ig: Ignored, rate: uint64)
    ensures var got, want := ConfigOf(AtRate(Stored(held, Apply(cfg, held), ig), rate)), Settled(cfg);
            var off := And(ig.cflag, Xor(held.cflag, ControlBits(cfg)));
            && (got.dataBits == want.dataBits <==> And(off, CSIZE) == 0)
            && (got.stopBits == want.stopBits <==> And(off, CSTOPB) == 0)
            && (got.parity == want.parity <==>
                  And(off, PARENB) == 0 && (And(off, PARODD) == 0 || want.parity == PARITY_NONE))
            && (got.clocal == want.clocal <==> And(off, CLOCAL) == 0)
            && (got.hupcl == want.hupcl <==> And(off, HUPCL) == 0)
            && (got.rtscts == want.rtscts <==>
                  And(off, CRTSCTS) == 0 || (cfg.rtscts && And(off, CRTSCTS) != CRTSCTS))
  {
    var off := And(ig.cflag, Xor(held.cflag, ControlBits(cfg)));
    FieldsOfMixed(cfg, held.cflag, ig.cflag);
    SizeOff(cfg, off);
    FlagsOff(cfg, off);
    ParityOff(cfg, off);
    FlowOff(cfg, off);
    hide And, Or, Xor, Put, Mixed, SizeBits, StopBit, ParityBits, Bits, ControlBits, Without;
  }

  lemma ReadsRest(cfg: Config, held: Termios, ig: Ignored, rate: uint64)
    ensures var got, want := ConfigOf(AtRate(Stored(held, Apply(cfg, held), ig), rate)), Settled(cfg);
            && (got.baud == want.baud <==> rate == Unsigned(cfg.baud))
            && (got.readMin == want.readMin <==> VMIN in ig.cc ==> held.cc[VMIN] == cfg.readMin)
            && (got.readTimeout == want.readTimeout <==> VTIME in ig.cc ==> held.cc[VTIME] == cfg.readTimeout)
  {
    hide And, Mixed, Put, Without, ControlBits;
  }

  /** Each field of the word stored is the one asked for, but for the bits left other than asked. */
  lemma FieldsOfMixed(cfg: Config, x: bv64, ignored: bv64)
    ensures var w := Mixed(x, Put(x, OWNED, ControlBits(cfg)), ignored);
            var off := And(ignored, Xor(x, ControlBits(cfg)));
            && And(w, CSIZE) == Xor(SizeBits(cfg), And(off, CSIZE))
            && And(w, CSTOPB) == Xor(StopBit(cfg), And(off, CSTOPB))
            && And(w, PARENB) == Xor(And(ParityBits(cfg), PARENB), And(off, PARENB))
            && And(w, PARODD) == Xor(And(ParityBits(cfg), PARODD), And(off, PARODD))
            && And(w, CLOCAL) == Xor(Bits(cfg.clocal, CLOCAL), And(off, CLOCAL))
            && And(w, HUPCL) == Xor(Bits(cfg.hupcl, HUPCL), And(off, HUPCL))
            && And(w, CRTSCTS) == Xor(Bits(cfg.rtscts, CRTSCTS), And(off, CRTSCTS))
  {
    var b := ControlBits(cfg);
    hide And, Or, Xor, Put, Within, Mixed, SizeBits, StopBit, ParityBits, Bits;
    FieldsWithin(cfg);
    FieldsReadBack(x, SizeBits(cfg), StopBit(cfg), ParityBits(cfg),
                   Bits(cfg.clocal, CLOCAL), Bits(cfg.hupcl, HUPCL), Bits(cfg.rtscts, CRTSCTS));
    hide ControlBits;
    OwnedFields();
    ControlWithin(cfg);
    MixedField(x, b, ignored, CSIZE);
    MixedField(x, b, ignored, CSTOPB);
    MixedField(x, b, ignored, PARENB);
    MixedField(x, b, ignored, PARODD);
    MixedField(x, b, ignored, CLOCAL);
    MixedField(x, b, ignored, HUPCL);
    MixedField(x, b, ignored, CRTSCTS);
  }

  lemma OwnedFields()
    ensures Within(CSIZE, OWNED) && Within(CSTOPB, OWNED) && Within(PARENB, OWNED) && Within(PARODD, OWNED)
    ensures Within(CLOCAL, OWNED) && Within(HUPCL, OWNED) && Within(CRTSCTS, OWNED)
  {}

  lemma MixedField(x: bv64, b: bv64, ignored: bv64, m: bv64)
    requires Within(m, OWNED) && Within(b, OWNED)
    ensures And(Mixed(x, Put(x, OWNED, b), ignored), m) ==
            Xor(And(Put(x, OWNED, b), m), And(And(ignored, Xor(x, b)), m))
  {}

  lemma SizeOff(cfg: Config, off: bv64)
    ensures var size := Xor(SizeBits(cfg), And(off, CSIZE));
            Settled(cfg).dataBits ==
              (if size == CS5 then 5 else if size == CS6 then 6 else if size == CS7 then 7 else 8)
            <==> And(off, CSIZE) == 0
  {}

  lemma FlagsOff(cfg: Config, off: bv64)
    ensures (Xor(StopBit(cfg), And(off, CSTOPB)) != 0 <==> Settled(cfg).stopBits == 2) <==> And(off, CSTOPB) == 0
    ensures (Xor(Bits(cfg.clocal, CLOCAL), And(off, CLOCAL)) != 0 <==> cfg.clocal) <==> And(off, CLOCAL) == 0
    ensures (Xor(Bits(cfg.hupcl, HUPCL), And(off, HUPCL)) != 0 <==> cfg.hupcl) <==> And(off, HUPCL) == 0
  {}

  lemma ParityOff(cfg: Config, off: bv64)
    ensures var enabled := Xor(And(ParityBits(cfg), PARENB), And(off, PARENB));
            var odd := Xor(And(ParityBits(cfg), PARODD), And(off, PARODD));
            Settled(cfg).parity == (if enabled == 0 then PARITY_NONE else if odd != 0 then PARITY_ODD else PARITY_EVEN)
            <==> And(off, PARENB) == 0 && (And(off, PARODD) == 0 || Settled(cfg).parity == PARITY_NONE)
  {}

  lemma FlowOff(cfg: Config, off: bv64)
    ensures (Xor(Bits(cfg.rtscts, CRTSCTS), And(off, CRTSCTS)) != 0 <==> cfg.rtscts)
            <==> And(off, CRTSCTS) == 0 || (cfg.rtscts && And(off, CRTSCTS) != CRTSCTS)
  {}

  /** A driver that ignores nothing stores a termios whole, and nothing is amiss. */
  lemma NothingIgnored(cfg: Config, held: Termios, t: Termios)
    ensures Stored(held, t, NOTHING) == t && Heeded(cfg, held, NOTHING)
  {
    MixedNothing(held.iflag, t.iflag);
    MixedNothing(held.oflag, t.oflag);
    MixedNothing(held.cflag, t.cflag);
    MixedNothing(held.lflag, t.lflag);
    NothingOff(Xor(held.cflag, ControlBits(cfg)));
    hide And, Or, Xor, Put, Mixed, ControlBits;
  }

  lemma MixedNothing(x: bv64, asked: bv64)
    ensures Mixed(x, asked, 0) == asked
  {}

  lemma NothingOff(x: bv64)
    ensures forall m: bv64 :: And(And(0, x), m) == 0
  {}

  // ----- A driver that takes the rate literally through IOSSIOSPEED -----

  /** Rounds the rate in a termios as it likes, and takes it literally by itself. */
  function LiteralRates(accepts: (uint64, uint64) -> bool, stores: (uint64, uint64) -> uint64): Rates {
    Rates(accepts, (_: uint64, _: uint64) => true, stores, (_: uint64, asked: uint64) => asked)
  }

  /** The last call repairs whatever the termios call did to the rate: against
      such a driver success means the rate requested, however the driver rounds. */
  lemma LiteralDriverReached<S(!new)>(d: Driver<S>, view: S -> Termios, accepts: (uint64, uint64) -> bool,
                                      stores: (uint64, uint64) -> uint64, ig: Ignored, s: S, cfg: Config)
    requires RateDriver(d, view, LiteralRates(accepts, stores), ig) && Validate(cfg).None?
    ensures var talk := Negotiate(d, s, cfg);
            var held, asked := view(s), Unsigned(cfg.baud);
            && (talk.result.Ok? <==>
                  accepts(held.ospeed, asked) || (Signed(held.ospeed) > 0 && accepts(held.ospeed, held.ospeed)))
            && (talk.result.Ok? ==>
                  && talk.result.value == Stored(held, Apply(cfg, held), ig)
                  && (ConfigOf(talk.result.value) == Settled(cfg) <==> Heeded(cfg, held, ig)))
  {
    AsAskedIff(d, view, LiteralRates(accepts, stores), ig, s, cfg);
    StoredAtRate(view(s), Apply(cfg, view(s)), ig, Unsigned(cfg.baud));
    SpeedsOfApply(cfg, view(s));
    hide Apply, ConfigOf, Settled, Stored, Heeded, RateDriver, Negotiate;
  }

  /** A driver that takes a whole termios or refuses it over its rate, always
      accepts the rate in force, and honours IOSSIOSPEED. `view` is the termios
      it holds; `table` says which rates it lists. */
  ghost predicate TableDriver<S(!new)>(d: Driver<S>, view: S -> Termios, table: uint64 -> bool) {
    && (forall s :: d.control(s).None?)
    && (forall s :: d.get(s).1 == Ok(view(s)) && view(d.get(s).0) == view(s))
    && (forall s, t :: Accepts(view, table, s, t) ==> d.set_(s, t).1.None? && view(d.set_(s, t).0) == t)
    && (forall s, t :: !Accepts(view, table, s, t) ==> d.set_(s, t).1.Some? && view(d.set_(s, t).0) == view(s))
    && (forall s, b :: d.speed(s, b).1.None?
                       && view(d.speed(s, b).0) == view(s).(ispeed := Unsigned(b), ospeed := Unsigned(b)))
  }

  predicate Accepts<S>(view: S -> Termios, table: uint64 -> bool, s: S, t: Termios) {
    table(t.ospeed) || t.ospeed == view(s).ospeed
  }

  function TableRates(table: uint64 -> bool): Rates {
    LiteralRates((held: uint64, asked: uint64) => table(asked) || asked == held, (_: uint64, asked: uint64) => asked)
  }

  /** Against such a driver a valid configuration is reached exactly when its
      rate is listed or the rate in force is positive, and then completely. */
  lemma TableDriverReached<S(!new)>(d: Driver<S>, view: S -> Termios, table: uint64 -> bool, s: S, cfg: Config)
    requires TableDriver(d, view, table) && Validate(cfg).None?
    ensures var talk := Negotiate(d, s, cfg);
            && (talk.result.Ok? <==> table(Unsigned(cfg.baud)) || Signed(view(s).ospeed) > 0)
            && (talk.result.Ok? ==>
                  talk.result.value == Apply(cfg, view(s)) && ConfigOf(talk.result.value) == Settled(cfg))
  {
    var r := TableRates(table);
    NothingIgnored(cfg, view(s), Apply(cfg, view(s)));
    hide Apply, ConfigOf, Settled, Stored, Heeded, Negotiate;
    TableIsRates(d, view, table);
    LiteralDriverReached(d, view, r.accepts, r.stores, NOTHING, s, cfg);
  }

  lemma TableIsRates<S(!new)>(d: Driver<S>, view: S -> Termios, table: uint64 -> bool)
    requires TableDriver(d, view, table)
    ensures RateDriver(d, view, TableRates(table), NOTHING)
  {
    var r := TableRates(table);
    hide Stored;
    forall s, t: Termios | t.ispeed == t.ospeed
      ensures Writes(d, view, r, NOTHING, s, t)
    {
      StoredWhole(view(s), t);
      assert Accepts(view, table, s, t) || !Accepts(view, table, s, t);
    }
  }

  lemma StoredWhole(held: Termios, t: Termios)
    ensures Stored(held, t, NOTHING) == t
  {
    MixedNothing(held.iflag, t.iflag);
    MixedNothing(held.oflag, t.oflag);
    MixedNothing(held.cflag, t.cflag);
    MixedNothing(held.lflag, t.lflag);
    hide Mixed;
  }

  // ----- A driver that rounds or refuses silently -----

  /** Accepts every call and rounds as it likes, either way. */
  function WilfulRates(stores: (uint64, uint64) -> uint64, sets: (uint64, uint64) -> uint64): Rates {
    Rates((_: uint64, _: uint64) => true, (_: uint64, _: uint64) => true, stores, sets)
  }

  /** Configure does not compare what it reads back with what it asked for: a
      driver that never refuses is always answered with success, and the port is as
      requested exactly when the rate it settles on is the one requested and
      nothing that matters was ignored. */
  lemma SilentRefusalSucceeds<S(!new)>(d: Driver<S>, view: S -> Termios, stores: (uint64, uint64) -> uint64,
                                       sets: (uint64, uint64) -> uint64, ig: Ignored, s: S, cfg: Config)
    requires RateDriver(d, view, WilfulRates(stores, sets), ig) && Validate(cfg).None?
    ensures var talk := Negotiate(d, s, cfg);
            var asked := Unsigned(cfg.baud);
            && talk.result.Ok?
            && (ConfigOf(talk.result.value) == Settled(cfg) <==>
                  sets(stores(view(s).ospeed, asked), asked) == asked && Heeded(cfg, view(s), ig))
  {
    hide Apply, ConfigOf, Settled, Negotiate, RateDriver, Stored, Heeded;
    AsAskedIff(d, view, WilfulRates(stores, sets), ig, s, cfg);
  }

  /** Leaves alone its rate and whatever else it ignores, whatever it is asked,
      and says nothing. */
  function DeafRates(): Rates {
    WilfulRates((held: uint64, _: uint64) => held, (held: uint64, _: uint64) => held)
  }

  /** Against such a driver success is certain, and the result is as asked
      exactly when the rate asked for was in force already and nothing that matters was
      ignored. */
  lemma DeafDriverAsAskedIff(held: Termios, ig: Ignored, cfg: Config)
    requires Validate(cfg).None?
    ensures var talk := Negotiate(PlainDriver(DeafRates(), ig), held, cfg);
            && talk.result.Ok?
            && (ConfigOf(talk.result.value) == Settled(cfg) <==>
                  held.ospeed == Unsigned(cfg.baud) && Heeded(cfg, held, ig))
  {
    var r := DeafRates();
    PlainDriverExists(r, ig);
    hide Apply, ConfigOf, Settled, Negotiate, Stored, Heeded, PlainDriver, RateDriver;
    SilentRefusalSucceeds(PlainDriver(r, ig), t => t, r.stores, r.sets, ig, held, cfg);
  }
}
