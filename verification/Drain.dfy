/** The bounded read loop of serial/serial.go, against any reader and any clock. */
module Drain {
  import opened Bytes
  import opened Wrappers
  import Scanner
  import Viture

  datatype ReadError = TimedOut | EndOfFile | Other(code: int)

  /** What happens around the k-th read: whether the deadline can be set, the
      bytes on offer, how the read ends, and the time when it has ended. A read
      takes as many of the bytes on offer as it has room for. */
  datatype Event<+T> = Event(deadlineError: Option<int>, chunk: seq<T>, error: Option<ReadError>, now: int)

  datatype DrainError = DeadlineFailed(code: int) | ReadFailed(code: int)

  class Reader<T> {
    const script: nat -> Event<T>
    var calls: nat
    var now: int

    constructor (script: nat -> Event<T>, now: int)
      ensures this.script == script && calls == 0 && this.now == now
    {
      this.script := script;
      this.now := now;
      calls := 0;
    }

    method SetReadDeadline() returns (err: Option<int>)
      ensures err == script(calls).deadlineError
    {
      err := script(calls).deadlineError;
    }

    /** Reads into buf[from..]. */
    method Read(buf: array<T>, from: nat) returns (m: nat, err: Option<ReadError>)
      requires from <= buf.Length
      modifies this, buf
      ensures var e := script(old(calls));
              var got := Taken(e, buf.Length - from);
              && m == |got| && err == e.error && now == e.now && calls == old(calls) + 1
              && buf[..] == old(buf[..])[..from] + got + old(buf[..])[from + |got|..]
    {
      var e := script(calls);
      var got := Taken(e, buf.Length - from);
      forall i | 0 <= i < |got| {
        buf[from + i] := got[i];
      }
      m, err, now, calls := |got|, e.error, e.now, calls + 1;
    }
  }

  /** The bytes of an event a read with this much room takes. */
  function Taken<T>(e: Event<T>, room: nat): (r: seq<T>)
    ensures |r| <= room && (|r| == room || r == e.chunk) && (room > 0 && e.chunk != [] ==> r != [])
  {
    if |e.chunk| <= room then e.chunk else e.chunk[..room]
  }

  /** What k reads from event `from` on put into a buffer of the given capacity. */
  function Delivered<T>(script: nat -> Event<T>, from: nat, k: nat, cap: nat): (r: seq<T>)
    ensures |r| <= cap
    decreases k
  {
    if k == 0 then []
    else
      var d := Delivered(script, from, k - 1, cap);
      d + Taken(script(from + k - 1), cap - |d|)
  }

  /** A read after which the loop goes on, if there is room: no error, and not yet time. */
  predicate GoesOn<T>(script: nat -> Event<T>, from: nat, j: nat, until: int) {
    var e := script(from + j);
    e.error.None? && e.now < until
  }

  /** The j-th read is made: there is room, and the deadline can be set. */
  predicate Reads<T>(script: nat -> Event<T>, from: nat, j: nat, cap: nat) {
    |Delivered(script, from, j, cap)| < cap && script(from + j).deadlineError.None?
  }

  /** How a call that made k reads may end. */
  ghost predicate Ends<T>(script: nat -> Event<T>, from: nat, k: nat, cap: nat, until: int, err: Option<DrainError>) {
    var full := |Delivered(script, from, k, cap)| == cap;
    if k > 0 && !GoesOn(script, from, k - 1, until) then
      err == match script(from + k - 1).error
             case Some(Other(code)) => Some(ReadFailed(code))
             case _ => None
    else if full then err == None
    else script(from + k).deadlineError.Some? && err == Some(DeadlineFailed(script(from + k).deadlineError.value))
  }

  /** After k reads there is a reason to return. */
  predicate StopsAfter<T>(script: nat -> Event<T>, from: nat, k: nat, cap: nat, until: int) {
    || (k > 0 && !GoesOn(script, from, k - 1, until))
    || |Delivered(script, from, k, cap)| == cap
    || script(from + k).deadlineError.Some?
  }

  /** From event k on the clock never runs backwards, and a read without error
      delivers something or takes time. */
  ghost predicate Progresses<T>(script: nat -> Event<T>, k: nat, now: int) {
    && (script(k).error.None? ==> now <= script(k).now && (script(k).chunk != [] || now < script(k).now))
    && forall j :: k < j ==> ProgressAt(script, j)
  }

  predicate ProgressAt<T>(script: nat -> Event<T>, j: nat)
    requires j > 0
  {
    var before, e := script(j - 1).now, script(j);
    e.error.None? ==> before <= e.now && (e.chunk != [] || before < e.now)
  }

  function TimeLeft(now: int, until: int): nat { if now < until then until - now else 0 }

  /** After k reads the buffer starts with what they delivered and is otherwise
      untouched, and none of them followed one that failed or came too late. */
  ghost predicate Filled<T>(script: nat -> Event<T>, from: nat, k: nat, until: int, before: seq<T>, now: seq<T>) {
    var d := Delivered(script, from, k, |before|);
    && now == d + before[|d|..]
    && (forall j :: 0 <= j < k ==> Reads(script, from, j, |before|))
    && (forall j :: 0 <= j < k - 1 ==> GoesOn(script, from, j, until))
  }

  /** The loop is about to test for room again, after k reads. */
  ghost predicate Going<T>(script: nat -> Event<T>, from: nat, k: nat, until: int, before: seq<T>, now: seq<T>,
                           n: nat) {
    && Filled(script, from, k, until, before, now)
    && n == |Delivered(script, from, k, |before|)|
    && (k > 0 ==> GoesOn(script, from, k - 1, until))
  }

  /** The call has returned n and err, after k reads. */
  ghost predicate Done<T>(script: nat -> Event<T>, from: nat, k: nat, until: int, before: seq<T>, now: seq<T>,
                          n: nat, err: Option<DrainError>)
  {
    && Filled(script, from, k, until, before, now)
    && n == |Delivered(script, from, k, |before|)|
    && Ends(script, from, k, |before|, until, err)
  }

  /** The call returns whenever there is ever a reason to, after as many reads as it takes. */
  method Drain<T>(r: Reader<T>, buf: array<T>, until: int) returns (n: nat, err: Option<DrainError>)
    requires exists k :: StopsAfter(r.script, r.calls, k, buf.Length, until)
    modifies r, buf
    ensures old(r.calls) <= r.calls
    ensures Done(r.script, old(r.calls), r.calls - old(r.calls), until, old(buf[..]), buf[..], n, err)
  {
    hide Going, Done, Taken, StopsAfter;
    n := 0;
    var cap := buf.Length;
    ghost var script, from, before := r.script, r.calls, buf[..];
    ghost var last :| StopsAfter(script, from, last, cap, until);
    GoingFirst(script, from, until, before);
    while n < cap
      invariant from <= r.calls <= from + last && n <= cap
      invariant Going(script, from, r.calls - from, until, before, buf[..], n)
      decreases from + last - r.calls
    {
      ghost var k, was, at := r.calls - from, buf[..], n;
      var stop;
      n, stop, err := ReadOnce(r, buf, n, until);
      Advance(script, from, k, until, before, was, at, buf[..], err);
      if stop {
        return;
      }
      NotYet(script, from, k, until, before, was, at, last);
    }
    DoneWhenFull(script, from, r.calls - from, until, before, buf[..]);
    return n, None;
  }

  /** A turn that goes on was not the last one there was a reason to take. */
  lemma NotYet<T>(script: nat -> Event<T>, from: nat, k: nat, until: int, before: seq<T>, was: seq<T>, n: nat,
                  last: nat)
    requires Going(script, from, k, until, before, was, n) && n < |before| && k <= last
    requires script(from + k).deadlineError.None?
    requires StopsAfter(script, from, last, |before|, until)
    ensures k < last
  {}

  lemma GoingFirst<T>(script: nat -> Event<T>, from: nat, until: int, before: seq<T>)
    ensures Going(script, from, 0, until, before, before, 0)
  {}

  lemma DoneWhenFull<T>(script: nat -> Event<T>, from: nat, k: nat, until: int, before: seq<T>, now: seq<T>)
    requires Going(script, from, k, until, before, now, |before|)
    ensures Done(script, from, k, until, before, now, |before|, None)
  {
    EndsWhenFull(script, from, k, |before|, until);
  }

  /** One turn of the loop ends the call or leaves it going. */
  lemma Advance<T>(script: nat -> Event<T>, from: nat, k: nat, until: int, before: seq<T>, was: seq<T>, n: nat,
                   now: seq<T>,
                   err: Option<DrainError>)
    requires Going(script, from, k, until, before, was, n) && n < |before| && |was| == |before|
    requires var e := script(from + k);
             if e.deadlineError.Some? then now == was && err == Some(DeadlineFailed(e.deadlineError.value))
             else
               var got := Taken(e, |before| - n);
               && now == was[..n] + got + was[n + |got|..]
               && err == match e.error
                         case Some(Other(code)) => Some(ReadFailed(code))
                         case _ => None
    ensures var e := script(from + k);
            if e.deadlineError.Some? then Done(script, from, k, until, before, now, n, err)
            else
              var n' := n + |Taken(e, |before| - n)|;
              && (e.error.None? && e.now < until ==> Going(script, from, k + 1, until, before, now, n'))
              && (e.error.Some? || e.now >= until ==> Done(script, from, k + 1, until, before, now, n', err))
  {
    var e := script(from + k);
    hide Filled, Delivered, Taken, Ends;
    if e.deadlineError.Some? {
      EndsAtDeadline(script, from, k, |before|, until);
    } else {
      FilledMore(script, from, k, until, before, was, n, now);
      EndsAfterRead(script, from, k, |before|, until, err);
    }
  }

  /** A read that goes on uses up room or time. */
  lemma Spends(cap: nat, n: nat, n': nat, now: int, now': int, until: int)
    requires n <= n' <= cap && now <= now' < until && (n < n' || now < now')
    ensures (cap - n') + TimeLeft(now', until) < (cap - n) + TimeLeft(now, until)
  {}

  lemma EndsAfterRead<T>(script: nat -> Event<T>, from: nat, k: nat, cap: nat, until: int, err: Option<DrainError>)
    requires err == match script(from + k).error
                    case Some(Other(code)) => Some(ReadFailed(code))
                    case _ => None
    ensures GoesOn(script, from, k, until) <==> script(from + k).error.None? && script(from + k).now < until
    ensures !GoesOn(script, from, k, until) ==> Ends(script, from, k + 1, cap, until, err)
  {}

  lemma {:induction false} EndsAtDeadline<T>(script: nat -> Event<T>, from: nat, k: nat, cap: nat, until: int)
    requires k > 0 ==> GoesOn(script, from, k - 1, until)
    requires |Delivered(script, from, k, cap)| < cap && script(from + k).deadlineError.Some?
    ensures Ends(script, from, k, cap, until, Some(DeadlineFailed(script(from + k).deadlineError.value)))
  {}

  lemma {:induction false} EndsWhenFull<T>(script: nat -> Event<T>, from: nat, k: nat, cap: nat, until: int)
    requires k > 0 ==> GoesOn(script, from, k - 1, until)
    requires |Delivered(script, from, k, cap)| == cap
    ensures Ends(script, from, k, cap, until, None)
  {}

  /** One more read into the free part of the buffer. */
  lemma FilledMore<T>(script: nat -> Event<T>, from: nat, k: nat, until: int,
                   before: seq<T>, was: seq<T>, n: nat, now: seq<T>)
    requires Filled(script, from, k, until, before, was) && n == |Delivered(script, from, k, |before|)| < |before|
    requires k > 0 ==> GoesOn(script, from, k - 1, until)
    requires script(from + k).deadlineError.None?
    requires |was| == |before|
    requires var got := Taken(script(from + k), |before| - n); now == was[..n] + got + was[n + |got|..]
    ensures Filled(script, from, k + 1, until, before, now)
    ensures |Delivered(script, from, k + 1, |before|)| == n + |Taken(script(from + k), |before| - n)|
  {
    var d, got := Delivered(script, from, k, |before|), Taken(script(from + k), |before| - n);
    DeliveredMore(script, from, k, |before|);
    OneMoreRead(script, from, k, until, |before|);
    hide Delivered, Taken, GoesOn, Reads;
    Splice(d, before, got, was);
  }

  lemma DeliveredMore<T>(script: nat -> Event<T>, from: nat, k: nat, cap: nat)
    ensures var d := Delivered(script, from, k, cap);
            Delivered(script, from, k + 1, cap) == d + Taken(script(from + k), cap - |d|)
  {}

  lemma {:induction false} OneMoreRead<T>(script: nat -> Event<T>, from: nat, k: nat, until: int, cap: nat)
    requires forall j :: 0 <= j < k ==> Reads(script, from, j, cap)
    requires forall j :: 0 <= j < k - 1 ==> GoesOn(script, from, j, until)
    requires k > 0 ==> GoesOn(script, from, k - 1, until)
    requires |Delivered(script, from, k, cap)| < cap && script(from + k).deadlineError.None?
    ensures forall j :: 0 <= j < k + 1 ==> Reads(script, from, j, cap)
    ensures forall j :: 0 <= j < k ==> GoesOn(script, from, j, until)
  {
    assert Reads(script, from, k, cap);
    hide Delivered, GoesOn, Reads;
  }

  lemma Splice<T>(d: seq<T>, before: seq<T>, got: seq<T>, was: seq<T>)
    requires |d| + |got| <= |before| && was == d + before[|d|..]
    ensures was[..|d|] + got + was[|d| + |got|..] == (d + got) + before[|d| + |got|..]
  {
    assert was[..|d|] == d;
    assert was[|d| + |got|..] == before[|d| + |got|..];
  }

  /** The body of the loop: whether it returns, and with what. */
  method ReadOnce<T>(r: Reader<T>, buf: array<T>, n: nat, until: int)
    returns (total: nat, stop: bool, err: Option<DrainError>)
    requires n < buf.Length
    modifies r, buf
    ensures var e := r.script(old(r.calls));
            if e.deadlineError.Some? then
              && stop && err == Some(DeadlineFailed(e.deadlineError.value))
              && total == n && buf[..] == old(buf[..]) && r.calls == old(r.calls) && r.now == old(r.now)
            else
              var got := Taken(e, buf.Length - n);
              && buf[..] == old(buf[..])[..n] + got + old(buf[..])[n + |got|..]
              && total == n + |got| && r.calls == old(r.calls) + 1 && r.now == e.now
              && (stop <==> e.error.Some? || e.now >= until)
              && err == match e.error
                        case Some(Other(code)) => Some(ReadFailed(code))
                        case _ => None
  {
    hide Taken;
    var bad := r.SetReadDeadline();
    if bad.Some? {
      return n, true, Some(DeadlineFailed(bad.value));
    }
    var m, error := r.Read(buf, n);
    total := n + m;
    if error.Some? {
      match error.value {
        case TimedOut => return total, true, None;
        case EndOfFile => return total, true, None;
        case Other(code) => return total, true, Some(ReadFailed(code));
      }
    }
    if r.now >= until {
      return total, true, None;
    }
    return total, false, None;
  }

  // ----- When a call returns, and how soon -----

  /** No call makes more reads than there is a reason to: it returns at the first one. */
  lemma ReturnsAtFirstReason<T>(script: nat -> Event<T>, from: nat, k: nat, until: int, before: seq<T>, now: seq<T>,
                                n: nat, err: Option<DrainError>, other: nat)
    requires Done(script, from, k, until, before, now, n, err) && StopsAfter(script, from, other, |before|, until)
    ensures k <= other
  {
    assert forall j :: 0 <= j < k ==> Reads(script, from, j, |before|);
    assert forall j :: 0 <= j < k - 1 ==> GoesOn(script, from, j, until);
    assert 0 <= other < k ==> Reads(script, from, other, |before|);
  }

  /** Nor does it return without one. */
  lemma ReturnsForAReason<T>(script: nat -> Event<T>, from: nat, k: nat, until: int, before: seq<T>, now: seq<T>,
                             n: nat, err: Option<DrainError>)
    requires Done(script, from, k, until, before, now, n, err)
    ensures StopsAfter(script, from, k, |before|, until)
  {}

  /** What a returned call reports: the error of the deadline that could not be
      set, when there was room and time; that of the last read, unless it timed out or
      met the end; and none when the buffer is full, or the time has come. No read j
      but the last failed or came too late. */
  lemma DoneSays<T>(script: nat -> Event<T>, from: nat, k: nat, until: int, before: seq<T>, now: seq<T>,
                    n: nat, err: Option<DrainError>, j: nat)
    requires Done(script, from, k, until, before, now, n, err)
    ensures k > 0 && script(from + k - 1).error == Some(TimedOut) ==> err == None
    ensures k > 0 && script(from + k - 1).error == Some(EndOfFile) ==> err == None
    ensures forall code :: k > 0 && script(from + k - 1).error == Some(Other(code)) ==> err == Some(ReadFailed(code))
    ensures k > 0 && script(from + k - 1).error == None && script(from + k - 1).now >= until ==> err == None
    ensures k == 0 || (script(from + k - 1).error == None && script(from + k - 1).now < until) ==>
      if n == |before| then err == None
      else script(from + k).deadlineError.Some? && err == Some(DeadlineFailed(script(from + k).deadlineError.value))
    ensures j < k - 1 ==> script(from + j).error == None && script(from + j).now < until
    ensures j < k ==> script(from + j).deadlineError == None
  {
    assert j < k ==> Reads(script, from, j, |before|);
    assert j < k - 1 ==> GoesOn(script, from, j, until);
    hide Delivered;
  }

  lemma ProgressesOn<T>(script: nat -> Event<T>, k: nat, now: int)
    requires Progresses(script, k, now)
    ensures Progresses(script, k + 1, script(k).now)
    ensures script(k).error.None? ==> now <= script(k).now && (script(k).chunk != [] || now < script(k).now)
  {
    assert ProgressAt(script, k + 1);
  }

  /** When every error-free read delivers a byte or takes time, a reason comes
      within one read for each byte of room and each tick left, and one more. */
  lemma ProgressStops<T>(script: nat -> Event<T>, from: nat, cap: nat, until: int, now: int) returns (last: nat)
    requires Progresses(script, from, now)
    ensures last <= cap + TimeLeft(now, until) + 1 && StopsAfter(script, from, last, cap, until)
  {
    last := StopsFrom(script, from, 0, cap, until, now);
  }

  lemma {:induction false} StopsFrom<T>(script: nat -> Event<T>, from: nat, k: nat, cap: nat, until: int, now: int)
    returns (last: nat)
    requires Progresses(script, from + k, now)
    ensures last <= k + (cap - |Delivered(script, from, k, cap)|) + TimeLeft(now, until) + 1
    ensures StopsAfter(script, from, last, cap, until)
    decreases cap - |Delivered(script, from, k, cap)| + TimeLeft(now, until)
  {
    hide Progresses;
    var d, e := Delivered(script, from, k, cap), script(from + k);
    if |d| == cap || e.deadlineError.Some? {
      last := k;
    } else if !GoesOn(script, from, k, until) {
      last := k + 1;
    } else {
      ProgressesOn(script, from + k, now);
      Spends(cap, |d|, |d| + |Taken(e, cap - |d|)|, now, e.now, until);
      last := StopsFrom(script, from, k + 1, cap, until, e.now);
    }
  }

  // ----- What the result does not depend on -----

  /** All bytes on offer in k events. */
  function Offered<T>(script: nat -> Event<T>, from: nat, k: nat): seq<T>
    decreases k
  {
    if k == 0 then [] else Offered(script, from, k - 1) + script(from + k - 1).chunk
  }

  /** With room for everything, the buffer holds what was offered however it was
      cut into chunks; with less room, as much of its beginning as fits. */
  lemma {:induction false} DeliveredIsPrefix<T>(script: nat -> Event<T>, from: nat, k: nat, cap: nat)
    ensures var all := Offered(script, from, k);
            Delivered(script, from, k, cap) == if |all| <= cap then all else all[..cap]
    decreases k
  {
    if k == 0 {
    } else {
      DeliveredIsPrefix(script, from, k - 1, cap);
      var all, e := Offered(script, from, k - 1), script(from + k - 1);
      var d := Delivered(script, from, k - 1, cap);
      if |all| > cap {
        assert d == all[..cap] && Taken(e, 0) == [];
        assert (all + e.chunk)[..cap] == all[..cap];
      } else if |all| + |e.chunk| > cap {
        assert (all + e.chunk)[..cap] == all + e.chunk[..cap - |all|];
      }
    }
  }

  /** A packet offered in any pieces, among any other bytes, is found in what
      Drain leaves in the buffer, as long as the buffer holds it all. */
  lemma {:induction false} DrainedPacketIsFound(script: nat -> Event<byte>, from: nat, k: nat, cap: nat,
                             pre: seq<byte>, cmd: bv16, counter: bv16, payload: seq<byte>, post: seq<byte>,
                             reports: seq<Scanner.Report>)
    requires Offered(script, from, k) == pre + Viture.PacketBytes(cmd, counter, payload) + post
    requires |pre| + |Viture.PacketBytes(cmd, counter, payload)| <= cap
    requires Scanner.Decoded(Delivered(script, from, k, cap), reports)
    ensures Scanner.Reported(reports, |pre|)
  {
    hide Viture.PacketBytes, Scanner.Decoded;
    var p := Viture.PacketBytes(cmd, counter, payload);
    DeliveredIsPrefix(script, from, k, cap);
    var left := if |pre + p + post| <= cap then post else post[..cap - |pre| - |p|];
    assert Delivered(script, from, k, cap) == pre + p + left;
    Scanner.PacketIsFound(pre, cmd, counter, payload, left, reports);
  }

  // ----- Why a reader must be able to time out -----

  /** A reader that returns nothing, without error, on a clock that stands still. */
  function Stalled(now: int): nat -> Event<byte> { _ => Event(None, [], None, now) }

  /** No number of its reads gives a reason to return while there is room and time left. */
  lemma {:induction false} StalledNeverEnds(now: int, k: nat, cap: nat, until: int)
    requires now < until && cap > 0
    ensures !StopsAfter(Stalled(now), 0, k, cap, until)
  {
    StalledDelivers(now, k, cap);
  }

  lemma {:induction false} StalledDelivers(now: int, k: nat, cap: nat)
    ensures Delivered(Stalled(now), 0, k, cap) == []
    decreases k
  {
    if k == 0 {
    } else {
      StalledDelivers(now, k - 1, cap);
    }
  }
}
