/** Polynomials over the two-element field, as bit strings with the highest
    power first, and their division by the generator of section 2 of
    ITU-T V.41. Nothing here knows about shift registers. */
module Gf2 {
  import opened Bytes

  /** Addition of polynomials: exclusive or of the coefficients. */
  function Plus(a: seq<bool>, b: seq<bool>): (r: seq<bool>)
    requires |a| == |b|
    ensures |r| == |a|
    ensures forall i :: 0 <= i < |a| ==> r[i] == (a[i] != b[i])
  {
    seq(|a|, i requires 0 <= i < |a| => a[i] != b[i])
  }

  /** Schoolbook product. */
  function Times(q: seq<bool>, g: seq<bool>): (r: seq<bool>)
    requires |g| >= 1
    ensures |r| == |q| + |g| - 1
  {
    if q == [] then Zeros(|g| - 1)
    else Plus((if q[0] then g else Zeros(|g|)) + Zeros(|q| - 1), [false] + Times(q[1..], g))
  }

  /** x^15 down to x^0 of the generator x^16 + x^12 + x^5 + 1. */
  const GENERATOR_LOW: seq<bool> :=
    [false, false, false, true] + [false, false, false, false]
    + [false, false, true, false] + [false, false, false, true]

  const GENERATOR: seq<bool> := [true] + GENERATOR_LOW

  /** r is a remainder of p: p = q * G + r for some quotient q, deg r < 16. */
  ghost predicate IsRemainder(p: seq<bool>, r: seq<bool>) {
    && |p| >= 16 && |r| == 16
    && exists q: seq<bool> :: |q| == |p| - 16 && Divides(p, q, r)
  }

  predicate Divides(p: seq<bool>, q: seq<bool>, r: seq<bool>)
    requires |p| >= 16 && |r| == 16 && |q| == |p| - 16
  {
    p == Plus(Times(q, GENERATOR), Zeros(|q|) + r)
  }

  /** One step of long division: cancel the leading coefficient. */
  function Cancel(p: seq<bool>): (r: seq<bool>)
    requires |p| > 16
    ensures |r| == |p| - 1
  {
    if p[0] then Plus(p[1..], GENERATOR_LOW + Zeros(|p| - 17)) else p[1..]
  }

  /** Long division. */
  function Rem(p: seq<bool>): (r: seq<bool>)
    requires |p| >= 16
    ensures |r| == 16
    decreases |p|
  {
    if |p| == 16 then p else Rem(Cancel(p))
  }

  function Quot(p: seq<bool>): (q: seq<bool>)
    requires |p| >= 16
    ensures |q| == |p| - 16
    decreases |p|
  {
    if |p| == 16 then [] else [p[0]] + Quot(Cancel(p))
  }

  /** Long division is division. */
  lemma {:induction false} DivisionWorks(p: seq<bool>)
    requires |p| >= 16
    ensures Divides(p, Quot(p), Rem(p))
    decreases |p|
  {
    if |p| == 16 {
    } else {
      DivisionWorks(Cancel(p));
      assert Quot(p)[1..] == Quot(Cancel(p));
      Uncancel(p, Quot(p), Rem(p));
    }
  }

  lemma Uncancel(p: seq<bool>, q: seq<bool>, r: seq<bool>)
    requires |p| > 16 && |r| == 16 && |q| == |p| - 16
    requires q[0] == p[0] && Divides(Cancel(p), q[1..], r)
    ensures Divides(p, q, r)
  {
    TimesSplits(q);
    assert |q[1..]| == |q| - 1;
    hide Times;
    UncancelTop(p, Times(q[1..], GENERATOR), r);
  }

  /** Taking back the cancelling of the leading coefficient. */
  lemma UncancelTop(p: seq<bool>, t: seq<bool>, r: seq<bool>)
    requires |p| > 16 && |t| == |p| - 1 && |r| == 16 && Cancel(p) == Plus(t, Zeros(|p| - 17) + r)
    ensures p == Plus(Plus((if p[0] then GENERATOR else Zeros(17)) + Zeros(|p| - 17), [false] + t), Zeros(|p| - 16) + r)
  {
    var c := p[0];
    var g := (if c then GENERATOR else Zeros(17)) + Zeros(|p| - 17);
    var z := Zeros(|p| - 16) + r;
    GeneratorTail(c, |p| - 17);
    ZerosTail(|p| - 16, r);
    var s := Plus(Plus(g, [false] + t), z);
    PlusTails(s, g, [false] + t, z);
    assert ([false] + t)[1..] == t;
    hide Zeros, Plus;
    AddBack(p[1..], g[1..], t, z[1..]);
    assert p == [p[0]] + p[1..] && s == [s[0]] + s[1..];
  }

  lemma AddBack(p: seq<bool>, g: seq<bool>, t: seq<bool>, z: seq<bool>)
    requires |p| == |g| == |t| == |z|
    ensures Plus(p, g) == Plus(t, z) ==> p == Plus(Plus(g, t), z)
    ensures g == Zeros(|g|) && p == Plus(t, z) ==> p == Plus(Plus(g, t), z)
  {
    if Plus(p, g) == Plus(t, z) {
      forall k | 0 <= k < |p|
        ensures p[k] == Plus(Plus(g, t), z)[k]
      {
        assert Plus(p, g)[k] == Plus(t, z)[k];
      }
    }
  }

  /** Quotient and remainder are determined by the dividend. */
  lemma {:induction false} DivisionUnique(p: seq<bool>, q: seq<bool>, r: seq<bool>, q': seq<bool>, r': seq<bool>)
    requires |p| >= 16 && |r| == 16 && |r'| == 16 && |q| == |p| - 16 && |q'| == |p| - 16
    requires Divides(p, q, r) && Divides(p, q', r')
    ensures q == q' && r == r'
    decreases |p|
  {
    if |p| == 16 {
      assert r == p;
      assert r' == p;
    } else {
      LeadingCoefficient(p, q, r);
      LeadingCoefficient(p, q', r');
      DivisionUnique(Cancel(p), q[1..], r, q'[1..], r');
      assert q == [q[0]] + q[1..];
    }
  }

  lemma LeadingCoefficient(p: seq<bool>, q: seq<bool>, r: seq<bool>)
    requires |p| > 16 && |r| == 16 && |q| == |p| - 16 && Divides(p, q, r)
    ensures q[0] == p[0] && Divides(Cancel(p), q[1..], r)
  {
    var t := Times(q[1..], GENERATOR);
    TimesSplits(q);
    hide Times;
    CancelTop(p, q[0], t, r);
    assert |q[1..]| == |q| - 1;
  }

  lemma {:induction false} TimesSplits(q: seq<bool>)
    requires q != []
    ensures |Times(q[1..], GENERATOR)| == |q| + 15
    ensures Times(q, GENERATOR) ==
            Plus((if q[0] then GENERATOR else Zeros(17)) + Zeros(|q| - 1), [false] + Times(q[1..], GENERATOR))
  {}

  /** Cancelling a polynomial with leading coefficient c takes off c times the generator. */
  lemma CancelTop(p: seq<bool>, c: bool, t: seq<bool>, r: seq<bool>)
    requires |p| > 16 && |t| == |p| - 1 && |r| == 16
    requires p == Plus(Plus((if c then GENERATOR else Zeros(17)) + Zeros(|p| - 17), [false] + t), Zeros(|p| - 16) + r)
    ensures p[0] == c && Cancel(p) == Plus(t, Zeros(|p| - 17) + r)
  {
    var g := (if c then GENERATOR else Zeros(17)) + Zeros(|p| - 17);
    var z := Zeros(|p| - 16) + r;
    GeneratorTail(c, |p| - 17);
    ZerosTail(|p| - 16, r);
    PlusTails(p, g, [false] + t, z);
    assert ([false] + t)[1..] == t;
    hide Zeros, Plus;
    CancelTwice(g[1..], t, z[1..]);
  }

  lemma ZerosTail(n: nat, r: seq<bool>)
    requires n > 0
    ensures (Zeros(n) + r)[0] == false && (Zeros(n) + r)[1..] == Zeros(n - 1) + r
  {}

  lemma PlusTails(p: seq<bool>, a: seq<bool>, b: seq<bool>, c: seq<bool>)
    requires |a| == |b| == |c| > 0 && p == Plus(Plus(a, b), c)
    ensures p[1..] == Plus(Plus(a[1..], b[1..]), c[1..]) && p[0] == ((a[0] != b[0]) != c[0])
  {}

  lemma GeneratorTail(c: bool, n: nat)
    ensures var g := (if c then GENERATOR else Zeros(17)) + Zeros(n);
            g[0] == c && g[1..] == if c then GENERATOR_LOW + Zeros(n) else Zeros(16 + n)
  {}

  /** Adding the same twice takes it off. */
  lemma CancelTwice(g: seq<bool>, t: seq<bool>, z: seq<bool>)
    requires |g| == |t| == |z|
    ensures Plus(Plus(Plus(g, t), z), g) == Plus(t, z)
    ensures g == Zeros(|g|) ==> Plus(Plus(g, t), z) == Plus(t, z)
  {}

  lemma {:induction false} RemainderExistsOnce(p: seq<bool>, r: seq<bool>)
    requires |p| >= 16
    ensures IsRemainder(p, r) <==> r == Rem(p)
  {
    DivisionWorks(p);
    if IsRemainder(p, r) {
      var q :| |q| == |p| - 16 && Divides(p, q, r);
      DivisionUnique(p, q, r, Quot(p), Rem(p));
    }
  }

  /** Division is linear. */
  lemma {:induction false} RemPlus(p: seq<bool>, q: seq<bool>)
    requires |p| == |q| >= 16
    ensures Rem(Plus(p, q)) == Plus(Rem(p), Rem(q))
    decreases |p|
  {
    if |p| == 16 {
    } else {
      CancelPlus(p, q);
      RemPlus(Cancel(p), Cancel(q));
    }
  }

  lemma CancelPlus(p: seq<bool>, q: seq<bool>)
    requires |p| == |q| > 16
    ensures Cancel(Plus(p, q)) == Plus(Cancel(p), Cancel(q))
  {}

  /** A prefix may be divided first: only its remainder matters to what follows. */
  lemma {:induction false} RemPrefix(p: seq<bool>, t: seq<bool>)
    requires |p| >= 16
    ensures Rem(p + t) == Rem(Rem(p) + t)
    decreases |p|
  {
    if |p| == 16 {
    } else {
      assert Cancel(p + t) == Cancel(p) + t;
      RemPrefix(Cancel(p), t);
    }
  }

  lemma {:induction false} RemLeadingZeros(n: nat, p: seq<bool>)
    requires |p| >= 16
    ensures Rem(Zeros(n) + p) == Rem(p)
    decreases n
  {
    if n == 0 {
      assert Zeros(0) + p == p;
    } else {
      assert (Zeros(n) + p)[1..] == Zeros(n - 1) + p;
      RemLeadingZeros(n - 1, p);
    }
  }

  lemma CancelShifts(r: seq<bool>, m: nat)
    requires |r| == 16 && m > 0
    ensures Cancel(r + Zeros(m)) == Cancel(r + [false]) + Zeros(m - 1)
  {
    assert r + Zeros(m) == (r + [false]) + Zeros(m - 1);
  }

  lemma CancelKeepsNonzero(r: seq<bool>)
    requires |r| == 16 && true in r
    ensures true in Cancel(r + [false])
  {
    var c := Cancel(r + [false]);
    if r[0] {
      assert c[15];
    } else {
      var i :| 0 <= i < 16 && r[i];
      assert c[i - 1];
    }
  }

  /** A non-zero polynomial of degree below 16, times any power of x, is not a
      multiple of the generator: x is invertible modulo it. */
  lemma {:induction false} ShiftedResidueNonzero(r: seq<bool>, m: nat)
    requires |r| == 16 && true in r
    ensures Rem(r + Zeros(m)) != Zeros(16)
    decreases m
  {
    if m == 0 {
      assert r + Zeros(0) == r;
    } else {
      hide Cancel;
      CancelShifts(r, m);
      CancelKeepsNonzero(r);
      ShiftedResidueNonzero(Cancel(r + [false]), m - 1);
    }
  }

  /** A polynomial whose set coefficients fit in sixteen consecutive places is no multiple. */
  lemma {:induction false} BurstNotMultiple(s: seq<bool>, k: nat)
    requires k + 16 <= |s| && true in s
    requires forall j :: 0 <= j < |s| && s[j] ==> k <= j < k + 16
    ensures Rem(s) != Zeros(16)
  {
    var window := s[k..k + 16];
    var m := |s| - k - 16;
    WindowOf(s, k);
    hide Rem;
    RemLeadingZeros(k, window + Zeros(m));
    ShiftedResidueNonzero(window, m);
  }

  lemma WindowOf(s: seq<bool>, k: nat)
    requires k + 16 <= |s| && true in s
    requires forall j :: 0 <= j < |s| && s[j] ==> k <= j < k + 16
    ensures s == Zeros(k) + (s[k..k + 16] + Zeros(|s| - k - 16)) && true in s[k..k + 16]
  {
    var j :| 0 <= j < |s| && s[j];
    assert s[k..k + 16][j - k];
  }

  /** Dividing off the top eight coefficients first. */
  lemma {:induction false} RemChain(top: seq<bool>, next: seq<bool>, n: nat, tail: seq<bool>)
    requires |top| == 16 && next == Rem(top + Zeros(8)) && |tail| == n + 16
    ensures Rem(Plus((top + Zeros(8)) + Zeros(n), Zeros(8) + tail)) == Rem(Plus(next + Zeros(n), tail))
  {
    RemPlus((top + Zeros(8)) + Zeros(n), Zeros(8) + tail);
    RemPrefix(top + Zeros(8), Zeros(n));
    RemLeadingZeros(8, tail);
    RemPlus(next + Zeros(n), tail);
  }

  lemma PlusConcat(a: seq<bool>, b: seq<bool>, c: seq<bool>, d: seq<bool>)
    requires |a| == |b| && |c| == |d|
    ensures Plus(a + c, b + d) == Plus(a, b) + Plus(c, d)
  {
    forall i | 0 <= i < |a| + |c| ensures Plus(a + c, b + d)[i] == (Plus(a, b) + Plus(c, d))[i] {}
  }

  lemma PlusExchange(a: seq<bool>, b: seq<bool>, c: seq<bool>, d: seq<bool>)
    requires |a| == |b| == |c| == |d|
    ensures Plus(Plus(a, b), Plus(c, d)) == Plus(Plus(a, c), Plus(b, d))
  {}

  lemma PlusZeros(a: seq<bool>)
    ensures Plus(a, Zeros(|a|)) == a && Plus(Zeros(|a|), a) == a
  {}

  // ----- Parity: x + 1 divides the generator -----

  lemma {:induction false} OnesConcat(a: seq<bool>, b: seq<bool>)
    ensures Ones(a + b) == Ones(a) + Ones(b)
  {
    if a == [] {
      assert a + b == b;
    } else {
      assert (a + b)[1..] == a[1..] + b;
      OnesConcat(a[1..], b);
    }
  }

  lemma {:induction false} OnesPlus(a: seq<bool>, b: seq<bool>)
    requires |a| == |b|
    ensures Ones(Plus(a, b)) % 2 == (Ones(a) + Ones(b)) % 2
  {
    if a == [] {
    } else {
      assert Plus(a, b)[1..] == Plus(a[1..], b[1..]);
      OnesPlus(a[1..], b[1..]);
    }
  }

  lemma {:induction false} OnesZeros(n: nat)
    ensures Ones(Zeros(n)) == 0
  {
    if n == 0 {
    } else {
      assert Zeros(n)[1..] == Zeros(n - 1);
      OnesZeros(n - 1);
    }
  }

  lemma {:induction false} CancelParity(p: seq<bool>)
    requires |p| > 16
    ensures Ones(Cancel(p)) % 2 == Ones(p) % 2
  {
    OnesOfRest(p);
    hide Ones, Plus;
    if p[0] { ParityOfCancelled(p[1..]); }
  }

  lemma {:induction false} OnesOfRest(p: seq<bool>)
    requires p != []
    ensures Ones(p) == (if p[0] then 1 else 0) + Ones(p[1..])
  {}

  lemma ParityOfCancelled(t: seq<bool>)
    requires |t| >= 16
    ensures Ones(Plus(t, GENERATOR_LOW + Zeros(|t| - 16))) % 2 == (Ones(t) + 1) % 2
  {
    assert |GENERATOR_LOW| == 16;
    hide *;
    GeneratorParity(|t| - 16);
    OnesPlus(t, GENERATOR_LOW + Zeros(|t| - 16));
  }

  lemma {:induction false} RemParity(p: seq<bool>)
    requires |p| >= 16
    ensures Ones(Rem(p)) % 2 == Ones(p) % 2
    decreases |p|
  {
    if |p| == 16 {
    } else {
      CancelParity(p);
      RemParity(Cancel(p));
    }
  }

  lemma GeneratorParity(n: nat)
    ensures Ones(GENERATOR_LOW + Zeros(n)) == 3
  {
    OnesConcat(GENERATOR_LOW, Zeros(n));
    OnesZeros(n);
    OnesOfFour(false, false, false, true);
    OnesOfFour(false, false, false, false);
    OnesOfFour(false, false, true, false);
    OnesOfQuarters([false, false, false, true], [false, false, false, false],
                   [false, false, true, false], [false, false, false, true]);
  }

  lemma {:induction false} OnesOfQuarters(a: seq<bool>, b: seq<bool>, c: seq<bool>, d: seq<bool>)
    ensures Ones(a + b + c + d) == Ones(a) + Ones(b) + Ones(c) + Ones(d)
  {
    OnesConcat(a, b);
    OnesConcat(a + b, c);
    OnesConcat(a + b + c, d);
  }

  lemma OnesOfFour(a: bool, b: bool, c: bool, d: bool)
    ensures Ones([a, b, c, d]) ==
            (if a then 1 else 0) + (if b then 1 else 0) + (if c then 1 else 0) + (if d then 1 else 0)
  {
    assert [a, b, c, d] == [a] + ([b] + ([c] + [d]));
    OnesConcat([a], [b] + ([c] + [d]));
    OnesConcat([b], [c] + [d]);
    OnesConcat([c], [d]);
  }
}
