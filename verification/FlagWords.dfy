/** Clearing and setting fields of a 64-bit flag word. */
module FlagWords {
  function And(a: bv64, b: bv64): bv64 { a & b }

  function Or(a: bv64, b: bv64): bv64 { a | b }

  function Xor(a: bv64, b: bv64): bv64 { a ^ b }

  /** a with the bits of m cleared. */
  function Without(a: bv64, m: bv64): bv64 { And(a, Not(m)) }

  function Not(a: bv64): bv64 { !a }

  /** The word x with the bits of the mask m replaced by a. */
  function Put(x: bv64, m: bv64, a: bv64): bv64 { Or(Without(x, m), a) }

  predicate Within(a: bv64, m: bv64) { Without(a, m) == 0 }

  /** Two edits of separate fields are one edit of both. */
  lemma PutPut(x: bv64, m: bv64, a: bv64, n: bv64, b: bv64)
    requires Within(a, m) && Within(b, n) && And(m, n) == 0
    ensures Put(Put(x, m, a), n, b) == Put(x, Or(m, n), Or(a, b))
    ensures Within(Or(a, b), Or(m, n))
  {
    WithinBoth(m, a, n, b);
    WithoutOr(Without(x, m), a, n);
    WithoutWithout(x, m, n);
    WithoutOther(a, m, n);
    hide Or, Without, Within, And;
    OrAssociative(Without(x, Or(m, n)), a, b);
  }

  lemma WithinBoth(m: bv64, a: bv64, n: bv64, b: bv64)
    requires Within(a, m) && Within(b, n)
    ensures Within(Or(a, b), Or(m, n))
  {}

  lemma WithoutOr(x: bv64, a: bv64, n: bv64)
    ensures Without(Or(x, a), n) == Or(Without(x, n), Without(a, n))
  {
    hide And, Or, Not;
    AndOr(x, a, Not(n));
  }

  lemma AndOr(x: bv64, a: bv64, k: bv64)
    ensures And(Or(x, a), k) == Or(And(x, k), And(a, k))
  {
    calc {
      And(Or(x, a), k);
      And(x | a, k);
      (x | a) & k;
      { PlainAndOr(x, a, k); }
      (x & k) | (a & k);
      Or(x & k, a & k);
      Or(And(x, k), a & k);
      Or(And(x, k), And(a, k));
    }
  }

  lemma PlainAndOr(x: bv64, a: bv64, k: bv64)
    ensures (x | a) & k == (x & k) | (a & k)
  {}

  lemma WithoutWithout(x: bv64, m: bv64, n: bv64)
    ensures Without(Without(x, m), n) == Without(x, Or(m, n))
  {
    calc {
      Without(Without(x, m), n);
      And(Without(x, m), !n);
      And(x & !m, !n);
      (x & !m) & !n;
      { PlainWithout(x, m, n); }
      x & !(m | n);
      And(x, !(m | n));
      Without(x, m | n);
      Without(x, Or(m, n));
    }
  }

  lemma PlainWithout(x: bv64, m: bv64, n: bv64)
    ensures (x & !m) & !n == x & !(m | n)
  {}

  lemma WithoutOther(a: bv64, m: bv64, n: bv64)
    requires And(m, n) == 0 && Within(a, m)
    ensures Without(a, n) == a
  {}

  lemma OrAssociative(a: bv64, b: bv64, c: bv64)
    ensures Or(Or(a, b), c) == Or(a, Or(b, c))
  {
    calc {
      Or(Or(a, b), c);
      Or(a | b, c);
      (a | b) | c;
      { PlainOr(a, b, c); }
      a | (b | c);
      Or(a, b | c);
      Or(a, Or(b, c));
    }
  }

  lemma PlainOr(a: bv64, b: bv64, c: bv64)
    ensures (a | b) | c == a | (b | c)
  {}

  /** Setting or clearing a flag puts it. */
  lemma PutFlag(x: bv64, m: bv64)
    ensures Or(x, m) == Put(x, m, m) && Without(x, m) == Put(x, m, 0)
  {
    RaiseFlag(x, m);
    OrNothing(Without(x, m));
  }

  lemma RaiseFlag(x: bv64, m: bv64)
    ensures x | m == (x & !m) | m
  {}

  lemma PutIsOr(x: bv64, m: bv64, a: bv64)
    ensures Or(Without(x, m), a) == Put(x, m, a)
  {}

  lemma OrNothing(x: bv64)
    ensures Or(x, 0) == x
  {}

  lemma WithoutTwice(x: bv64, m: bv64)
    ensures Without(Without(x, m), m) == Without(x, m)
  {}

  lemma PutTwice(x: bv64, m: bv64, a: bv64, b: bv64)
    requires Within(a, m)
    ensures Put(Put(x, m, a), m, b) == Put(x, m, b)
  {}

  lemma WithoutPut(x: bv64, m: bv64, a: bv64)
    requires Within(a, m)
    ensures Without(Put(x, m, a), m) == Without(x, m)
  {}

  lemma WithoutNothing(x: bv64, m: bv64)
    ensures Without(x, m) == x <==> And(x, m) == 0
  {}

  lemma WithoutLeaves(x: bv64, m: bv64)
    ensures And(Without(x, m), m) == 0
  {}

  lemma AndPut(x: bv64, m: bv64, a: bv64)
    requires Within(a, m)
    ensures And(Put(x, m, a), m) == a
  {}
}
