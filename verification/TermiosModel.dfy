/** The termios half of serial/termios.go: what a line configuration does to the
    four flag words, the control characters and the speeds, and how it is read
    back. Flag words are those of section 11.2 of IEEE Std 1003.1 with BSD's bit
    values. */
module TermiosModel {
  import opened FlagWords
  import opened Octets
  import opened Wrappers

  type int64 = x: int | -0x8000_0000_0000_0000 <= x < 0x8000_0000_0000_0000
  type uint64 = x: int | 0 <= x < 0x1_0000_0000_0000_0000

  const NCCS: nat := 20
  const VMIN: nat := 16
  const VTIME: nat := 17

  type ControlChars = s: seq<Octet> | |s| == 20 witness seq(20, _ => 0)

  datatype Termios = Termios(iflag: bv64, oflag: bv64, cflag: bv64, lflag: bv64,
                             cc: ControlChars, ispeed: uint64, ospeed: uint64)

  /** Parity is an integer: 0 none, 1 odd, 2 even, anything else invalid. */
  datatype Config = Config(baud: int64, dataBits: int, stopBits: int, parity: int,
                           clocal: bool, hupcl: bool, rtscts: bool, readMin: Octet, readTimeout: Octet)

  const PARITY_NONE: int := 0
  const PARITY_ODD: int := 1
  const PARITY_EVEN: int := 2

  datatype BadConfig = BadBaud(value: int) | BadDataBits(value: int) | BadStopBits(value: int) | BadParity(value: int)

  function Validate(c: Config): Option<BadConfig> {
    if c.baud <= 0 then Some(BadBaud(c.baud))
    else if c.dataBits !in {0, 5, 6, 7, 8} then Some(BadDataBits(c.dataBits))
    else if c.stopBits !in {0, 1, 2} then Some(BadStopBits(c.stopBits))
    else if c.parity !in {PARITY_NONE, PARITY_ODD, PARITY_EVEN} then Some(BadParity(c.parity))
    else None
  }

  // ----- Flag words -----

  // IGNBRK, BRKINT, PARMRK, ISTRIP, INLCR, IGNCR, ICRNL and IXON
  const RAW_INPUT: bv64 := 0x0001 | 0x0002 | 0x0008 | 0x0020 | 0x0040 | 0x0080 | 0x0100 | 0x0200
  const OPOST: bv64 := 0x0001
  // ECHO, ECHOE, ECHOK, ECHONL, ICANON, ISIG and IEXTEN
  const RAW_LOCAL: bv64 := 0x0008 | 0x0002 | 0x0004 | 0x0010 | 0x0100 | 0x0080 | 0x0400

  const CSIZE: bv64 := 0x0300
  const CS5: bv64 := 0x0000
  const CS6: bv64 := 0x0100
  const CS7: bv64 := 0x0200
  const CS8: bv64 := 0x0300
  const CSTOPB: bv64 := 0x0400
  const CREAD: bv64 := 0x0800
  const PARENB: bv64 := 0x1000
  const PARODD: bv64 := 0x2000
  const PARITY_BITS: bv64 := 0x3000
  const HUPCL: bv64 := 0x4000
  const CLOCAL: bv64 := 0x8000
  const CRTSCTS: bv64 := 0x30000

  /** Every control bit a configuration decides. */
  const OWNED: bv64 := 0x3FF00

  function SizeBits(c: Config): bv64 {
    if c.dataBits == 5 then CS5 else if c.dataBits == 6 then CS6 else if c.dataBits == 7 then CS7 else CS8
  }

  function StopBit(c: Config): bv64 { if c.stopBits == 2 then CSTOPB else 0 }

  function ParityBits(c: Config): bv64 {
    if c.parity == PARITY_ODD then PARITY_BITS else if c.parity == PARITY_EVEN then PARENB else 0
  }

  function Bits(on: bool, bits: bv64): bv64 { if on then bits else 0 }

  /** The control bits a configuration stands for. */
  function ControlBits(c: Config): bv64 {
    Or(Or(Or(Or(Or(Or(CREAD, SizeBits(c)), StopBit(c)), ParityBits(c)),
             Bits(c.clocal, CLOCAL)), Bits(c.hupcl, HUPCL)), Bits(c.rtscts, CRTSCTS))
  }

  /** The conversions between a signed and an unsigned 64-bit word. */
  function Unsigned(x: int64): uint64 { if x < 0 then x + 0x1_0000_0000_0000_0000 else x }

  function Signed(x: uint64): int64 {
    if x < 0x8000_0000_0000_0000 then x else x - 0x1_0000_0000_0000_0000
  }

  /** The configuration applied to a termios, stated as what it keeps and what it sets. */
  function Apply(c: Config, t: Termios): Termios {
    Termios(Without(t.iflag, RAW_INPUT), Without(t.oflag, OPOST), Put(t.cflag, OWNED, ControlBits(c)),
            Without(t.lflag, RAW_LOCAL), t.cc[VMIN := c.readMin][VTIME := c.readTimeout],
            Unsigned(c.baud), Unsigned(c.baud))
  }

  lemma FieldsWithin(c: Config)
    ensures Within(CREAD, CREAD) && Within(SizeBits(c), CSIZE) && Within(StopBit(c), CSTOPB)
    ensures Within(ParityBits(c), PARITY_BITS)
    ensures Within(Bits(c.clocal, CLOCAL), CLOCAL) && Within(Bits(c.hupcl, HUPCL), HUPCL)
    ensures Within(Bits(c.rtscts, CRTSCTS), CRTSCTS)
  {}

  lemma MasksDisjoint()
    ensures And(CREAD, CSIZE) == 0 && Or(CREAD, CSIZE) == 0xB00
    ensures And(0xB00, CSTOPB) == 0 && Or(0xB00, CSTOPB) == 0xF00
    ensures And(0xF00, PARITY_BITS) == 0 && Or(0xF00, PARITY_BITS) == 0x3F00
    ensures And(0x3F00, CLOCAL) == 0 && Or(0x3F00, CLOCAL) == 0xBF00
    ensures And(0xBF00, HUPCL) == 0 && Or(0xBF00, HUPCL) == 0xFF00
    ensures And(0xFF00, CRTSCTS) == 0 && Or(0xFF00, CRTSCTS) == OWNED
  {}

  /** Editing field after field amounts to one replacement of the owned bits. */
  lemma EditsAreOnePut(x: bv64, c: Config)
    ensures Put(Put(Put(Put(Put(Put(Put(x, CREAD, CREAD), CSIZE, SizeBits(c)), CSTOPB, StopBit(c)),
                            PARITY_BITS, ParityBits(c)), CLOCAL, Bits(c.clocal, CLOCAL)),
                    HUPCL, Bits(c.hupcl, HUPCL)), CRTSCTS, Bits(c.rtscts, CRTSCTS))
            == Put(x, OWNED, ControlBits(c))
  {
    hide Put, Within, And, Or, SizeBits, StopBit, ParityBits, Bits;
    FieldsWithin(c);
    MasksDisjoint();
    var b1 := Or(CREAD, SizeBits(c));
    var b2 := Or(b1, StopBit(c));
    var b3 := Or(b2, ParityBits(c));
    var b4 := Or(b3, Bits(c.clocal, CLOCAL));
    var b5 := Or(b4, Bits(c.hupcl, HUPCL));
    PutPut(x, CREAD, CREAD, CSIZE, SizeBits(c));
    PutPut(x, 0xB00, b1, CSTOPB, StopBit(c));
    PutPut(x, 0xF00, b2, PARITY_BITS, ParityBits(c));
    PutPut(x, 0x3F00, b3, CLOCAL, Bits(c.clocal, CLOCAL));
    PutPut(x, 0xBF00, b4, HUPCL, Bits(c.hupcl, HUPCL));
    PutPut(x, 0xFF00, b5, CRTSCTS, Bits(c.rtscts, CRTSCTS));
  }

  /** The closure `set` of the source. */
  function SetFlag(x: bv64, on: bool, m: bv64): (r: bv64)
    ensures r == Put(x, m, Bits(on, m))
  {
    PutFlag(x, m);
    if on then Or(x, m) else Without(x, m)
  }

  /** The edits of the control word. */
  method EditControl(c: Config, cur: bv64) returns (w: bv64)
    ensures w == Put(cur, OWNED, ControlBits(c))
  {
    hide And, Or, Without, Put, ControlBits;
    PutFlag(cur, CREAD);
    w := Or(cur, CREAD);
    ghost var w1 := w;

    w := Without(w, CSIZE);
    match c.dataBits {
      case 5 => w := Or(w, CS5);
      case 6 => w := Or(w, CS6);
      case 7 => w := Or(w, CS7);
      case _ => w := Or(w, CS8);
    }
    PutIsOr(w1, CSIZE, SizeBits(c));
    assert w == Put(w1, CSIZE, SizeBits(c));
    hide SizeBits;
    ghost var w2 := w;

    PutFlag(w, CSTOPB);
    if c.stopBits == 2 {
      w := Or(w, CSTOPB);
    } else {
      w := Without(w, CSTOPB);
    }
    assert w == Put(w2, CSTOPB, StopBit(c));
    hide StopBit;
    ghost var w3 := w;

    w := Without(w, PARITY_BITS);
    OrNothing(w);
    match c.parity {
      case 1 => w := Or(w, PARITY_BITS);
      case 2 => w := Or(w, PARENB);
      case _ =>
    }
    PutIsOr(w3, PARITY_BITS, ParityBits(c));
    assert w == Put(w3, PARITY_BITS, ParityBits(c));
    hide ParityBits, Bits;
    w := SetFlag(w, c.clocal, CLOCAL);
    w := SetFlag(w, c.hupcl, HUPCL);
    w := SetFlag(w, c.rtscts, CRTSCTS);
    EditsAreOnePut(cur, c);
  }

  /** Config.Termios: the edits of the source, one after another on a copy. */
  method ToTermios(c: Config, cur: Termios) returns (t: Termios)
    ensures t == Apply(c, cur)
  {
    hide And, Or, Without, Put, Unsigned, ControlBits;
    t := cur;
    t := t.(iflag := Without(t.iflag, RAW_INPUT));
    t := t.(oflag := Without(t.oflag, OPOST));
    t := t.(lflag := Without(t.lflag, RAW_LOCAL));
    var cflag := EditControl(c, t.cflag);
    t := t.(cflag := cflag);
    t := t.(cc := t.cc[VMIN := c.readMin]);
    t := t.(cc := t.cc[VTIME := c.readTimeout]);
    t := t.(ispeed := Unsigned(c.baud));
    t := t.(ospeed := Unsigned(c.baud));
  }

  // ----- Reading a configuration back -----

  function ConfigOf(t: Termios): Config {
    Config(Signed(t.ospeed),
           var size := And(t.cflag, CSIZE);
           if size == CS5 then 5 else if size == CS6 then 6 else if size == CS7 then 7 else 8,
           if And(t.cflag, CSTOPB) != 0 then 2 else 1,
           if And(t.cflag, PARENB) == 0 then PARITY_NONE
           else if And(t.cflag, PARODD) != 0 then PARITY_ODD else PARITY_EVEN,
           And(t.cflag, CLOCAL) != 0, And(t.cflag, HUPCL) != 0, And(t.cflag, CRTSCTS) != 0,
           t.cc[VMIN], t.cc[VTIME])
  }

  /** What a configuration means: unlisted sizes read as 8, anything but 2 stop
      bits as 1, an unknown parity as none. */
  function Settled(c: Config): Config {
    c.(dataBits := if c.dataBits in {5, 6, 7} then c.dataBits else 8,
       stopBits := if c.stopBits == 2 then 2 else 1,
       parity := if c.parity in {PARITY_ODD, PARITY_EVEN} then c.parity else PARITY_NONE)
  }

  /** Every field of a control word is found again, whatever the word was before. */
  lemma FieldsReadBack(x: bv64, size: bv64, stop: bv64, parity: bv64, clocal: bv64, hupcl: bv64, rtscts: bv64)
    requires Within(size, CSIZE) && Within(stop, CSTOPB) && Within(parity, PARITY_BITS)
    requires Within(clocal, CLOCAL) && Within(hupcl, HUPCL) && Within(rtscts, CRTSCTS)
    ensures var w := Put(x, OWNED, Or(Or(Or(Or(Or(Or(CREAD, size), stop), parity), clocal), hupcl), rtscts));
            && And(w, CSIZE) == size && And(w, CSTOPB) == stop
            && And(w, PARENB) == And(parity, PARENB) && And(w, PARODD) == And(parity, PARODD)
            && And(w, CLOCAL) == clocal && And(w, HUPCL) == hupcl && And(w, CRTSCTS) == rtscts
            && And(w, CREAD) == CREAD
  {}

  lemma ParityReads(c: Config)
    ensures And(ParityBits(c), PARENB) == 0 <==> Settled(c).parity == PARITY_NONE
    ensures And(ParityBits(c), PARODD) != 0 <==> Settled(c).parity == PARITY_ODD
  {}

  lemma SizeReads(c: Config)
    ensures Settled(c).dataBits ==
            if SizeBits(c) == CS5 then 5 else if SizeBits(c) == CS6 then 6 else if SizeBits(c) == CS7 then 7 else 8
  {}

  lemma FlagReads(c: Config)
    ensures StopBit(c) != 0 <==> Settled(c).stopBits == 2
    ensures Bits(c.clocal, CLOCAL) != 0 <==> c.clocal
    ensures Bits(c.hupcl, HUPCL) != 0 <==> c.hupcl
    ensures Bits(c.rtscts, CRTSCTS) != 0 <==> c.rtscts
  {}

  /** Reading back what was applied gives what the configuration means, for any starting termios. */
  lemma ReadBack(c: Config, t: Termios)
    ensures ConfigOf(Apply(c, t)) == Settled(c)
  {
    hide And, Or, Put, Within, Without, SizeBits, StopBit, ParityBits, Bits;
    FieldsWithin(c);
    FieldsReadBack(t.cflag, SizeBits(c), StopBit(c), ParityBits(c),
                   Bits(c.clocal, CLOCAL), Bits(c.hupcl, HUPCL), Bits(c.rtscts, CRTSCTS));
    SizeReads(c);
    FlagReads(c);
    ParityReads(c);
  }

  /** A configuration is accepted exactly when its rate is positive and only the
      two zero defaults are filled in. */
  lemma ValidSettles(c: Config)
    ensures Validate(c).None? <==>
      && c.baud > 0
      && Settled(c) == c.(dataBits := if c.dataBits == 0 then 8 else c.dataBits,
                          stopBits := if c.stopBits == 0 then 1 else c.stopBits)
  {}

  /** A refusal names the first field that is wrong, with its value. */
  lemma RefusalNames(c: Config)
    ensures Validate(c) == Some(BadBaud(c.baud)) <==> c.baud <= 0
    ensures Validate(c) == Some(BadDataBits(c.dataBits)) <==>
      c.baud > 0 && c.dataBits != 0 && !(5 <= c.dataBits <= 8)
    ensures Validate(c) == Some(BadStopBits(c.stopBits)) <==>
      c.baud > 0 && (c.dataBits == 0 || 5 <= c.dataBits <= 8) && !(0 <= c.stopBits <= 2)
    ensures Validate(c) == Some(BadParity(c.parity)) <==>
      c.baud > 0 && (c.dataBits == 0 || 5 <= c.dataBits <= 8) && 0 <= c.stopBits <= 2 && !(0 <= c.parity <= 2)
  {}

  /** What applying a configuration leaves, in numbers: raw input, output and
      local modes, and each field of the control word. */
  lemma AppliedInNumbers(c: Config, t: Termios)
    ensures var u := Apply(c, t);
      && And(u.iflag, 0x3EB) == 0 && Without(u.iflag, 0x3EB) == Without(t.iflag, 0x3EB)
      && And(u.oflag, 1) == 0 && Without(u.oflag, 1) == Without(t.oflag, 1)
      && And(u.lflag, 0x59E) == 0 && Without(u.lflag, 0x59E) == Without(t.lflag, 0x59E)
      && Without(u.cflag, 0x3FF00) == Without(t.cflag, 0x3FF00)
      && And(u.cflag, 0x800) == 0x800
      && And(u.cflag, 0x300) ==
          (if c.dataBits == 5 then 0 else if c.dataBits == 6 then 0x100 else if c.dataBits == 7 then 0x200 else 0x300)
      && And(u.cflag, 0x400) == (if c.stopBits == 2 then 0x400 else 0)
      && And(u.cflag, 0x3000) == (if c.parity == 1 then 0x3000 else if c.parity == 2 then 0x1000 else 0)
      && And(u.cflag, 0x8000) == (if c.clocal then 0x8000 else 0)
      && And(u.cflag, 0x4000) == (if c.hupcl then 0x4000 else 0)
      && And(u.cflag, 0x30000) == (if c.rtscts then 0x30000 else 0)
      && u.cc[16] == c.readMin && u.cc[17] == c.readTimeout
  {
    MasksInNumbers();
    ApplyPreserves(c, t);
    FieldsWithin(c);
    hide Apply, And, Or, Put, Within, Without;
    ControlOfApply(c, t);
    FieldsReadBack(t.cflag, SizeBits(c), StopBit(c), ParityBits(c),
                   Bits(c.clocal, CLOCAL), Bits(c.hupcl, HUPCL), Bits(c.rtscts, CRTSCTS));
    BothParityBits(Apply(c, t).cflag, ParityBits(c));
  }

  lemma ControlOfApply(c: Config, t: Termios)
    ensures Apply(c, t).cflag == Put(t.cflag, OWNED, ControlBits(c))
  {}

  lemma MasksInNumbers()
    ensures RAW_INPUT == 0x3EB && RAW_LOCAL == 0x59E
  {}

  lemma BothParityBits(w: bv64, parity: bv64)
    requires Within(parity, 0x3000) && And(w, 0x1000) == And(parity, 0x1000) && And(w, 0x2000) == And(parity, 0x2000)
    ensures And(w, 0x3000) == parity
  {}

  /** What is read from any termios, in numbers. */
  lemma ReadInNumbers(t: Termios)
    ensures var c, w := ConfigOf(t), t.cflag;
      && c.baud == (if t.ospeed < 0x8000_0000_0000_0000 then t.ospeed else t.ospeed - 0x1_0000_0000_0000_0000)
      && c.dataBits == 5 + (And(w, 0x300) / 0x100) as int
      && c.stopBits == (if And(w, 0x400) != 0 then 2 else 1)
      && c.parity == (if And(w, 0x1000) == 0 then 0 else if And(w, 0x2000) != 0 then 1 else 2)
      && (c.clocal <==> And(w, 0x8000) != 0) && (c.hupcl <==> And(w, 0x4000) != 0)
      && (c.rtscts <==> And(w, 0x30000) != 0)
      && c.readMin == t.cc[16] && c.readTimeout == t.cc[17]
  {
    SizeRead(t.cflag);
    hide And;
  }

  /** ConfigOf inverts Termios exactly on configurations that spell every field out. */
  lemma ReadBackIff(c: Config, t: Termios)
    ensures ConfigOf(Apply(c, t)) == c <==> 5 <= c.dataBits <= 8 && 1 <= c.stopBits <= 2 && 0 <= c.parity <= 2
  {
    ReadBack(c, t);
  }

  /** Only the last configuration applied matters. */
  lemma ApplyOverwrites(c: Config, d: Config, t: Termios)
    ensures Apply(c, Apply(d, t)) == Apply(c, t)
  {
    hide Or, Without, Put, Within, ControlBits;
    WithoutTwice(t.iflag, RAW_INPUT);
    WithoutTwice(t.oflag, OPOST);
    WithoutTwice(t.lflag, RAW_LOCAL);
    ControlWithin(d);
    PutTwice(t.cflag, OWNED, ControlBits(d), ControlBits(c));
  }

  lemma ControlWithin(c: Config)
    ensures Within(ControlBits(c), OWNED)
  {
    hide Within, Put, Or, And, SizeBits, StopBit, ParityBits, Bits;
    FieldsWithin(c);
    OrsWithin(SizeBits(c), StopBit(c), ParityBits(c),
              Bits(c.clocal, CLOCAL), Bits(c.hupcl, HUPCL), Bits(c.rtscts, CRTSCTS));
  }

  lemma OrsWithin(size: bv64, stop: bv64, parity: bv64, clocal: bv64, hupcl: bv64, rtscts: bv64)
    requires Within(size, CSIZE) && Within(stop, CSTOPB) && Within(parity, PARITY_BITS)
    requires Within(clocal, CLOCAL) && Within(hupcl, HUPCL) && Within(rtscts, CRTSCTS)
    ensures Within(Or(Or(Or(Or(Or(Or(CREAD, size), stop), parity), clocal), hupcl), rtscts), OWNED)
  {}

  /** Bits and control characters outside the documented ones survive; those
      inside are cleared for raw input, or are what the configuration says. */
  lemma ApplyPreserves(c: Config, t: Termios)
    ensures var u := Apply(c, t);
            && Without(u.iflag, RAW_INPUT) == Without(t.iflag, RAW_INPUT) && And(u.iflag, RAW_INPUT) == 0
            && Without(u.oflag, OPOST) == Without(t.oflag, OPOST) && And(u.oflag, OPOST) == 0
            && Without(u.cflag, OWNED) == Without(t.cflag, OWNED) && And(u.cflag, OWNED) == ControlBits(c)
            && Without(u.lflag, RAW_LOCAL) == Without(t.lflag, RAW_LOCAL) && And(u.lflag, RAW_LOCAL) == 0
            && (forall i :: 0 <= i < NCCS && i != VMIN && i != VTIME ==> u.cc[i] == t.cc[i])
            && u.cc[VMIN] == c.readMin && u.cc[VTIME] == c.readTimeout
            && Signed(u.ispeed) == Signed(u.ospeed) == c.baud
  {
    hide Or, And, Without, Put, Within, ControlBits;
    WithoutTwice(t.iflag, RAW_INPUT);
    WithoutTwice(t.oflag, OPOST);
    WithoutTwice(t.lflag, RAW_LOCAL);
    WithoutLeaves(t.iflag, RAW_INPUT);
    WithoutLeaves(t.oflag, OPOST);
    WithoutLeaves(t.lflag, RAW_LOCAL);
    ControlWithin(c);
    WithoutPut(t.cflag, OWNED, ControlBits(c));
    AndPut(t.cflag, OWNED, ControlBits(c));
  }

  // ----- Which termios a configuration can produce -----

  /** A raw-mode termios with one speed, a reader, and no half-set pair of bits. */
  predicate Canonical(u: Termios) {
    && And(u.iflag, RAW_INPUT) == 0 && And(u.oflag, OPOST) == 0 && And(u.lflag, RAW_LOCAL) == 0
    && u.ispeed == u.ospeed
    && CanonicalControl(u.cflag)
  }

  predicate CanonicalControl(w: bv64) {
    && And(w, CREAD) != 0
    && (And(w, PARENB) == 0 ==> And(w, PARODD) == 0)
    && (And(w, CRTSCTS) == 0 || And(w, CRTSCTS) == CRTSCTS)
  }

  /** Reading a termios and applying what was read changes nothing exactly when it is canonical. */
  lemma FixedIff(u: Termios)
    ensures Apply(ConfigOf(u), u) == u <==> Canonical(u)
  {
    hide And, Or, Without, Put, ControlBits, CanonicalControl;
    WithoutNothing(u.iflag, RAW_INPUT);
    WithoutNothing(u.oflag, OPOST);
    WithoutNothing(u.lflag, RAW_LOCAL);
    assert u.cc[VMIN := u.cc[VMIN]][VTIME := u.cc[VTIME]] == u.cc;
    ControlFixedIff(u);
  }

  lemma ControlFixedIff(u: Termios)
    ensures Put(u.cflag, OWNED, ControlBits(ConfigOf(u))) == u.cflag <==> CanonicalControl(u.cflag)
  {
    hide And, Or, Put, Within, CanonicalControl;
    var w, c := u.cflag, ConfigOf(u);
    SizeRead(w);
    FlagRead(w, CSTOPB);
    FlagRead(w, CLOCAL);
    FlagRead(w, HUPCL);
    ControlFixed(w, ParityBits(c), Bits(c.rtscts, CRTSCTS));
  }

  lemma SizeRead(w: bv64)
    ensures And(w, CSIZE) == CS5 || And(w, CSIZE) == CS6 || And(w, CSIZE) == CS7 || And(w, CSIZE) == CS8
  {}

  lemma FlagRead(w: bv64, m: bv64)
    requires m == CSTOPB || m == CLOCAL || m == HUPCL
    ensures And(w, m) == 0 || And(w, m) == m
  {}

  lemma ControlFixed(w: bv64, parity: bv64, rtscts: bv64)
    requires parity == if And(w, PARENB) == 0 then 0 else if And(w, PARODD) != 0 then PARITY_BITS else PARENB
    requires rtscts == if And(w, CRTSCTS) != 0 then CRTSCTS else 0
    ensures Put(w, OWNED, Or(Or(Or(Or(Or(Or(CREAD, And(w, CSIZE)), And(w, CSTOPB)), parity), And(w, CLOCAL)),
                                And(w, HUPCL)), rtscts)) == w
            <==> CanonicalControl(w)
  {
    hide And, Or, Put, Within, Without;
    AndWithin(w);
    ParityChoices(w);
    FieldsReadBack(w, And(w, CSIZE), And(w, CSTOPB), parity, And(w, CLOCAL), And(w, HUPCL), rtscts);
    PutSelf(w);
  }

  lemma AndWithin(w: bv64)
    ensures Within(And(w, CSIZE), CSIZE) && Within(And(w, CSTOPB), CSTOPB)
    ensures Within(And(w, CLOCAL), CLOCAL) && Within(And(w, HUPCL), HUPCL)
  {}

  lemma ParityChoices(w: bv64)
    ensures Within(0, PARITY_BITS) && Within(PARITY_BITS, PARITY_BITS) && Within(PARENB, PARITY_BITS)
    ensures Within(0, CRTSCTS) && Within(CRTSCTS, CRTSCTS)
    ensures And(0, PARODD) == 0
    ensures And(w, CREAD) != 0 ==> And(w, CREAD) == CREAD
    ensures And(w, PARITY_BITS) ==
            if And(w, PARENB) == 0 then And(w, PARODD) else if And(w, PARODD) != 0 then PARITY_BITS else PARENB
  {}

  lemma PutSelf(w: bv64)
    ensures Put(w, OWNED, Or(Or(Or(Or(Or(Or(And(w, CREAD), And(w, CSIZE)), And(w, CSTOPB)), And(w, PARITY_BITS)),
                                   And(w, CLOCAL)), And(w, HUPCL)), And(w, CRTSCTS))) == w
  {}

  /** The canonical termios are exactly those some configuration produces. */
  lemma CanonicalIff(u: Termios)
    ensures Canonical(u) <==> exists c: Config, t: Termios :: Produces(c, t, u)
  {
    FixedIff(u);
    if Canonical(u) {
      assert Produces(ConfigOf(u), u, u);
    }
    if c: Config, t: Termios :| Produces(c, t, u) {
      ProducedIsCanonical(c, t);
    }
  }

  predicate Produces(c: Config, t: Termios, u: Termios) { Apply(c, t) == u }

  lemma ProducedIsCanonical(c: Config, t: Termios)
    ensures Canonical(Apply(c, t))
  {
    hide And, Or, Put, Within, Without, ParityBits;
    WithoutLeaves(t.iflag, RAW_INPUT);
    WithoutLeaves(t.oflag, OPOST);
    WithoutLeaves(t.lflag, RAW_LOCAL);
    FieldsWithin(c);
    FieldsReadBack(t.cflag, SizeBits(c), StopBit(c), ParityBits(c),
                   Bits(c.clocal, CLOCAL), Bits(c.hupcl, HUPCL), Bits(c.rtscts, CRTSCTS));
    ParityReads(c);
  }

  /** What a configuration has produced stays put when it is read and applied again. */
  lemma ProducedIsFixed(c: Config, t: Termios)
    ensures Apply(ConfigOf(Apply(c, t)), Apply(c, t)) == Apply(c, t)
  {
    hide Apply, ConfigOf, Canonical;
    ProducedIsCanonical(c, t);
    FixedIff(Apply(c, t));
  }
}
