/** Port.Configure of serial/serial.go against a kernel whose answers are not known. */
module SerialPort {
  import opened Wrappers
  import opened TermiosModel
  import opened FlagWords

  type Errno = int

  /** The four system calls Configure makes, as what they do to an arbitrary
      kernel state: the state may hold clocks, faults or a script of answers. */
  datatype Driver<!S> = Driver(
    control: S -> Option<Errno>,
    get: S -> (S, Result<Termios, Errno>),
    set_: (S, Termios) -> (S, Option<Errno>),
    speed: (S, int64) -> (S, Option<Errno>))

  datatype Call = GetAttr | SetAttr(t: Termios) | SetSpeed(baud: int64)

  datatype Failure = Closed | Invalid(config: BadConfig) | System(errno: Errno)

  class Kernel<S(!new)> {
    const driver: Driver<S>
    var state: S
    var calls: seq<Call>

    constructor (driver: Driver<S>, state: S)
      ensures this.driver == driver && this.state == state && calls == []
    {
      this.driver := driver;
      this.state := state;
      calls := [];
    }

    method Get() returns (r: Result<Termios, Errno>)
      modifies this
      ensures (state, r) == driver.get(old(state)) && calls == old(calls) + [GetAttr]
    {
      var (s, got) := driver.get(state);
      state, r, calls := s, got, calls + [GetAttr];
    }

    method Set(t: Termios) returns (err: Option<Errno>)
      modifies this
      ensures (state, err) == driver.set_(old(state), t) && calls == old(calls) + [SetAttr(t)]
    {
      var (s, e) := driver.set_(state, t);
      state, err, calls := s, e, calls + [SetAttr(t)];
    }

    method Speed(baud: int64) returns (err: Option<Errno>)
      modifies this
      ensures (state, err) == driver.speed(old(state), baud) && calls == old(calls) + [SetSpeed(baud)]
    {
      var (s, e) := driver.speed(state, baud);
      state, err, calls := s, e, calls + [SetSpeed(baud)];
    }
  }

  /** Where a conversation with the kernel ends: the state, the calls made, and the termios read or the error. */
  datatype Talk<!S> = Talk(state: S, calls: seq<Call>, result: Result<Termios, Errno>)

  /** The configuration with the rate already in force. */
  function Keeping(cfg: Config, cur: Termios): Config { cfg.(baud := Signed(cur.ospeed)) }

  /** Insist on the rate once more, whatever the answer, and read back. */
  function Finish<S>(d: Driver<S>, s: S, cfg: Config): Talk<S> {
    var (s1, _) := d.speed(s, cfg.baud);
    var (s2, got) := d.get(s1);
    Talk(s2, [SetSpeed(cfg.baud), GetAttr], got)
  }

  /** After a refused termios: everything else at the rate in force, then the
      rate by itself. The error reported is that of the first refusal. */
  function Retry<S>(d: Driver<S>, s: S, cfg: Config, cur: Termios, refusal: Errno): Talk<S> {
    if Keeping(cfg, cur).baud <= 0 then Talk(s, [], Err(refusal))
    else
      var t := Apply(Keeping(cfg, cur), cur);
      var (s1, e1) := d.set_(s, t);
      if e1.Some? then Talk(s1, [SetAttr(t)], Err(refusal))
      else
        var (s2, e2) := d.speed(s1, cfg.baud);
        if e2.Some? then Talk(s2, [SetAttr(t), SetSpeed(cfg.baud)], Err(refusal))
        else
          var f := Finish(d, s2, cfg);
          f.(calls := [SetAttr(t), SetSpeed(cfg.baud)] + f.calls)
  }

  function Negotiate<S>(d: Driver<S>, s: S, cfg: Config): Talk<S> {
    var (s1, cur) := d.get(s);
    if cur.Err? then Talk(s1, [GetAttr], Err(cur.error))
    else
      var t := Apply(cfg, cur.value);
      var (s2, refused) := d.set_(s1, t);
      var rest := if refused.Some? then Retry(d, s2, cfg, cur.value, refused.value) else Finish(d, s2, cfg);
      rest.(calls := [GetAttr, SetAttr(t)] + rest.calls)
  }

  class Port<S(!new)> {
    var isOpen: bool
    var cfg: Config
    const kernel: Kernel<S>

    constructor (kernel: Kernel<S>, cfg: Config)
      ensures isOpen && this.kernel == kernel && this.cfg == cfg
    {
      this.kernel := kernel;
      this.cfg := cfg;
      isOpen := true;
    }

    /** Success leaves the port with the configuration read back; every failure
        leaves its configuration as it was. */
    method Configure(cfg: Config) returns (err: Option<Failure>)
      modifies this`cfg, kernel
      ensures var d, s := kernel.driver, old(kernel.state);
              if Validate(cfg).Some? then
                err == Some(Invalid(Validate(cfg).value)) && this.cfg == old(this.cfg)
                && kernel.state == s && kernel.calls == old(kernel.calls)
              else if !isOpen then
                err == Some(Closed) && this.cfg == old(this.cfg)
                && kernel.state == s && kernel.calls == old(kernel.calls)
              else if d.control(s).Some? then
                err == Some(System(d.control(s).value)) && this.cfg == old(this.cfg)
                && kernel.state == s && kernel.calls == old(kernel.calls)
              else
                var talk := Negotiate(d, s, cfg);
                && kernel.state == talk.state && kernel.calls == old(kernel.calls) + talk.calls
                && match talk.result
                   case Ok(got) => err == None && this.cfg == ConfigOf(got)
                   case Err(e) => err == Some(System(e)) && this.cfg == old(this.cfg)
    {
      var bad := Validate(cfg);
      if bad.Some? {
        return Some(Invalid(bad.value));
      }
      if !isOpen {
        return Some(Closed);
      }
      var unreachable := kernel.driver.control(kernel.state);
      if unreachable.Some? {
        return Some(System(unreachable.value));
      }
      var got := Converse(cfg);
      if got.Err? {
        return Some(System(got.error));
      }
      this.cfg := ConfigOf(got.value);
      return None;
    }

    /** The closure Configure runs with the descriptor. */
    method Converse(cfg: Config) returns (r: Result<Termios, Errno>)
      modifies kernel
      ensures var talk := Negotiate(kernel.driver, old(kernel.state), cfg);
              kernel.state == talk.state && kernel.calls == old(kernel.calls) + talk.calls && r == talk.result
    {
      hide Apply;
      r := kernel.Get();
      if r.Err? {
        return;
      }
      var cur := r.value;
      var t := ToTermios(cfg, cur);
      var err := kernel.Set(t);
      if err.Some? {
        r := TryKeepingRate(cfg, cur, err.value);
      } else {
        r := Conclude(cfg);
      }
    }

    /** What follows a refused termios. */
    method TryKeepingRate(cfg: Config, cur: Termios, refusal: Errno) returns (r: Result<Termios, Errno>)
      modifies kernel
      ensures var f := Retry(kernel.driver, old(kernel.state), cfg, cur, refusal);
              kernel.state == f.state && kernel.calls == old(kernel.calls) + f.calls && r == f.result
    {
      hide Apply;
      var keep := cfg.(baud := Signed(cur.ospeed));
      if keep.baud <= 0 {
        return Err(refusal);
      }
      var t := ToTermios(keep, cur);
      var err := kernel.Set(t);
      if err.Some? {
        return Err(refusal);
      }
      err := kernel.Speed(cfg.baud);
      if err.Some? {
        return Err(refusal);
      }
      r := Conclude(cfg);
    }

    /** The last two calls: the rate once more, its answer ignored, and the read-back. */
    method Conclude(cfg: Config) returns (r: Result<Termios, Errno>)
      modifies kernel
      ensures var f := Finish(kernel.driver, old(kernel.state), cfg);
              kernel.state == f.state && kernel.calls == old(kernel.calls) + f.calls && r == f.result
    {
      var _ := kernel.Speed(cfg.baud);
      r := kernel.Get();
    }
  }

  // ----- What the conversation guarantees against any driver -----

  /** A successful conversation ends with a read-back, and its answer is the result. */
  lemma SuccessIsReadBack<S>(d: Driver<S>, s: S, cfg: Config)
    requires Negotiate(d, s, cfg).result.Ok?
    ensures var talk := Negotiate(d, s, cfg);
            && talk.calls != [] && talk.calls[|talk.calls| - 1] == GetAttr
            && exists before: S :: d.get(before) == (talk.state, talk.result)
  {
    var (s1, cur) := d.get(s);
    var t := Apply(cfg, cur.value);
    var (s2, refused) := d.set_(s1, t);
    if refused.Some? {
      var keep := Apply(Keeping(cfg, cur.value), cur.value);
      var (s3, _) := d.set_(s2, keep);
      var (s4, _) := d.speed(s3, cfg.baud);
      var (s5, _) := d.speed(s4, cfg.baud);
      assert d.get(s5) == (Negotiate(d, s, cfg).state, Negotiate(d, s, cfg).result);
    } else {
      var (s3, _) := d.speed(s2, cfg.baud);
      assert d.get(s3) == (Negotiate(d, s, cfg).state, Negotiate(d, s, cfg).result);
    }
  }

  /** Everything written in one conversation is what was asked for; a second
      write differs from the first in the two speeds only, which it leaves at
      the rate in force. */
  lemma WritesAreAsAsked<S>(d: Driver<S>, s: S, cfg: Config)
    ensures var calls := Negotiate(d, s, cfg).calls;
            forall k :: 0 <= k < |calls| && calls[k].SetAttr? ==>
              && d.get(s).1.Ok?
              && var cur, asked := d.get(s).1.value, Apply(cfg, d.get(s).1.value);
                 calls[k].t == if k == 1 then asked else asked.(ispeed := cur.ospeed, ospeed := cur.ospeed)
  {
    var cur := d.get(s).1;
    if cur.Ok? {
      KeepingWrites(cfg, cur.value);
    }
  }

  lemma KeepingWrites(cfg: Config, cur: Termios)
    ensures Apply(Keeping(cfg, cur), cur) == Apply(cfg, cur).(ispeed := cur.ospeed, ospeed := cur.ospeed)
  {
    ControlIgnoresBaud(cfg, Signed(cur.ospeed));
    hide ControlBits, Put, Without;
  }

  lemma ControlIgnoresBaud(cfg: Config, baud: int64)
    ensures ControlBits(cfg.(baud := baud)) == ControlBits(cfg)
  {
    hide Or;
  }

  /** The whole conversation, call by call: which calls are made and what comes of
      them. A failure is reported as the first refusal, whatever the later calls answered,
      or as the failure of the read the conversation ended with. */
  lemma Conversation<S>(d: Driver<S>, s: S, cfg: Config)
    ensures var talk := Negotiate(d, s, cfg);
      var (s1, cur) := d.get(s);
      if cur.Err? then talk.calls == [GetAttr] && talk.result == cur && talk.state == s1
      else
        var t := Apply(cfg, cur.value);
        var (s2, refused) := d.set_(s1, t);
        var (s3, kept) := d.set_(s2, t.(ispeed := cur.value.ospeed, ospeed := cur.value.ospeed));
        var (s4, taken) := d.speed(s3, cfg.baud);
        var first := [GetAttr, SetAttr(t)];
        var again := first + [SetAttr(t.(ispeed := cur.value.ospeed, ospeed := cur.value.ospeed))];
        if refused == None then EndsWith(d, s2, cfg.baud, talk, first)
        else if cur.value.ospeed == 0 || cur.value.ospeed >= 0x8000_0000_0000_0000 then
          talk.calls == first && talk.result == Err(refused.value) && talk.state == s2
        else if kept != None then
          talk.calls == again && talk.result == Err(refused.value) && talk.state == s3
        else if taken != None then
          talk.calls == again + [SetSpeed(cfg.baud)] && talk.result == Err(refused.value) && talk.state == s4
        else EndsWith(d, s4, cfg.baud, talk, again + [SetSpeed(cfg.baud)])
  {
    if d.get(s).1.Ok? {
      KeepingWrites(cfg, d.get(s).1.value);
    }
    hide Apply;
  }

  /** The conversation went so far, and ends by asking for the rate once more, whatever the answer, and a read. */
  ghost predicate EndsWith<S>(d: Driver<S>, s: S, baud: int64, talk: Talk<S>, soFar: seq<Call>) {
    talk.calls == soFar + [SetSpeed(baud), GetAttr] && (talk.state, talk.result) == d.get(d.speed(s, baud).0)
  }

  /** Asking for a rate always means asking for the rate that was requested. */
  lemma SpeedsAreAsAsked<S>(d: Driver<S>, s: S, cfg: Config)
    ensures var calls := Negotiate(d, s, cfg).calls;
            forall k :: 0 <= k < |calls| && calls[k].SetSpeed? ==> calls[k].baud == cfg.baud
  {}

  lemma SpeedsOfApply(cfg: Config, cur: Termios)
    ensures Apply(cfg, cur).ispeed == Apply(cfg, cur).ospeed == Unsigned(cfg.baud)
    ensures Signed(Unsigned(cfg.baud)) == cfg.baud && Unsigned(Signed(cur.ospeed)) == cur.ospeed
  {}
}
