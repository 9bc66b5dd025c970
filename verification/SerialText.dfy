/** The decimal formatter of serial/termios.go and the rendering of a line configuration. */
module SerialText {
  import opened Wrappers
  import opened TermiosModel

  const MIN_INT64: int := -0x8000_0000_0000_0000

  /** Negation on 64-bit integers, which leaves the smallest one as it is. */
  function Negated(v: int64): int64 { if v == MIN_INT64 then v else -v }

  predicate IsDigit(c: char) { '0' <= c <= '9' }

  function Digit(n: nat): (c: char)
    requires n < 10
    ensures IsDigit(c)
  {
    '0' + n as char
  }

  /** The decimal digits of a positive number; none for zero. */
  function Digits(n: nat): (s: string)
    ensures forall k :: 0 <= k < |s| ==> IsDigit(s[k])
    ensures s == [] <==> n == 0
  {
    if n == 0 then [] else Digits(n / 10) + [Digit(n % 10)]
  }

  function DigitValue(c: char): (n: nat)
    requires IsDigit(c)
    ensures n < 10 && Digit(n) == c
  {
    c as nat - '0' as nat
  }

  /** The number some decimal digits spell. */
  function Spelled(s: string): nat
    requires forall k :: 0 <= k < |s| ==> IsDigit(s[k])
  {
    if s == [] then 0 else 10 * Spelled(s[..|s| - 1]) + DigitValue(s[|s| - 1])
  }

  lemma {:induction false} DigitsSpell(n: nat)
    ensures Spelled(Digits(n)) == n
  {
    if n == 0 {
    } else {
      DigitsSpell(n / 10);
      assert Digits(n)[..|Digits(n)| - 1] == Digits(n / 10);
    }
  }

  /** No number below ten to the k has more than k digits. */
  lemma {:induction false} DigitsAreFew(n: nat, k: nat)
    requires n < Pow10(k)
    ensures |Digits(n)| <= k
  {
    if n == 0 {
    } else {
      DigitsAreFew(n / 10, k - 1);
    }
  }

  function Pow10(k: nat): (p: nat)
    ensures p > 0
  {
    if k == 0 then 1 else 10 * Pow10(k - 1)
  }

  lemma NineteenDigits()
    ensures Pow10(19) == 10_000_000_000_000_000_000
  {
    assert Pow10(4) == 10_000;
    assert Pow10(8) == 100_000_000;
    assert Pow10(12) == 1_000_000_000_000;
    assert Pow10(16) == 10_000_000_000_000_000;
  }

  function Decimal(v: int): string {
    if v == 0 then "0" else if v < 0 then "-" + Digits(-v) else Digits(v)
  }

  /** What the formatter prints: the smallest integer has lost its digits. */
  function Printed(v: int): string { if v == MIN_INT64 then "-" else Decimal(v) }

  /** The loop: the digits are written from the end of the array. */
  method FillDigits(b: array<char>, v: nat) returns (i: nat)
    requires b.Length == 20 && v < Pow10(19)
    modifies b
    ensures 0 < i <= 20 && b[i..] == Digits(v)
  {
    DigitsAreFew(v, 19);
    var u := v;
    i := 20;
    while u > 0
      invariant i <= 20 && |Digits(u)| + (20 - i) == |Digits(v)|
      invariant Digits(u) + b[i..] == Digits(v)
    {
      ghost var was := b[i..];
      DigitsMore(u);
      Shifted(Digits(u / 10), Digit(u % 10), was);
      hide Digits;
      i := i - 1;
      b[i] := Digit(u % 10);
      Prepended(b, i, was);
      u := u / 10;
    }
  }

  lemma Prepended(b: array<char>, i: nat, was: seq<char>)
    requires i < b.Length && was == b[i + 1..]
    ensures b[i..] == [b[i]] + was
  {}

  lemma {:induction false} DigitsMore(n: nat)
    requires n > 0
    ensures Digits(n) == Digits(n / 10) + [Digit(n % 10)]
  {}

  lemma Shifted(s: string, c: char, t: string)
    ensures (s + [c]) + t == s + ([c] + t)
  {}

  /** The smallest integer, whose negation is negative still, comes out as a bare sign. */
  method Itoa(v: int64) returns (s: string)
    ensures s == Printed(v)
  {
    if v == 0 { return "0"; }
    var neg := v < 0;
    var u := if neg then Negated(v) else v;
    var b := new char[20];
    NineteenDigits();
    var i := FillDigits(b, if u > 0 then u else 0);
    if neg {
      ghost var was := b[i..];
      i := i - 1;
      b[i] := '-';
      assert b[i..] == ['-'] + was;
    }
    s := b[i..];
  }

  predicate IsNumeric(c: char) { IsDigit(c) || c == '-' }

  function ReadDecimal(s: string): int
    requires forall k :: 0 <= k < |s| ==> IsNumeric(s[k])
    requires forall k :: 0 < k < |s| ==> IsDigit(s[k])
  {
    if s != [] && s[0] == '-' then -(Spelled(s[1..]) as int)
    else
      assert s != [] ==> IsNumeric(s[0]);
      Spelled(s)
  }

  /** Reading back what was printed gives the number, the smallest one excepted. */
  lemma PrintedReadsBackIff(v: int64)
    ensures forall k :: 0 <= k < |Printed(v)| ==> IsNumeric(Printed(v)[k])
    ensures forall k :: 0 < k < |Printed(v)| ==> IsDigit(Printed(v)[k])
    ensures Printed(v) != []
    ensures ReadDecimal(Printed(v)) == v <==> v != MIN_INT64
  {
    if v == 0 {
      assert "0"[..0] == "";
    } else if v == MIN_INT64 {
      assert "-"[1..] == "";
    } else if v < 0 {
      DigitsSpell(-v);
      assert Printed(v)[1..] == Digits(-v);
    } else {
      DigitsSpell(v);
    }
  }

  /** No two integers print the same, the smallest one included. */
  lemma PrintedInjective(v: int64, w: int64)
    requires Printed(v) == Printed(w)
    ensures v == w
  {
    PrintedReadsBackIff(v);
    PrintedReadsBackIff(w);
    if v == MIN_INT64 { BareSign(w); }
    if w == MIN_INT64 { BareSign(v); }
  }

  lemma BareSign(v: int64)
    ensures Printed(v) == "-" ==> v == MIN_INT64
  {
    if v > 0 {
      assert IsDigit(Printed(v)[0]);
    } else if v < 0 && v != MIN_INT64 {
      assert |Printed(v)| == 1 + |Digits(-v)|;
    }
  }

  // ----- Rendering a configuration -----

  function ParityLetter(parity: int): char {
    if parity == PARITY_ODD then 'O' else if parity == PARITY_EVEN then 'E' else 'N'
  }

  function Flag(on: bool, name: string): string { if on then name else "" }

  /** The text, innermost part last. */
  function Text(c: Config): string {
    Printed(c.baud) + (" " + (Printed(c.dataBits) + ([ParityLetter(c.parity)] + (Printed(c.stopBits) + Tail(c)))))
  }

  function Tail(c: Config): string {
    Flag(c.clocal, " clocal") + (Flag(c.hupcl, " hupcl") + (Flag(c.rtscts, " rtscts") + Limits(c)))
  }

  function Limits(c: Config): string {
    " vmin=" + (Printed(c.readMin) + (" vtime=" + Printed(c.readTimeout)))
  }

  /** A configuration whose counts are machine integers, as all of Go's are. */
  predicate Machine(c: Config) {
    MIN_INT64 <= c.dataBits < -MIN_INT64 && MIN_INT64 <= c.stopBits < -MIN_INT64
  }

  function Flags(flags: seq<(bool, string)>, k: nat): string
    requires k <= |flags|
  {
    if k == 0 then "" else Flags(flags, k - 1) + Flag(flags[k - 1].0, flags[k - 1].1)
  }

  method Render(c: Config) returns (s: string)
    requires Machine(c)
    ensures s == Text(c)
  {
    hide Tail, Printed;
    var baud := Itoa(c.baud);
    var dataBits := Itoa(c.dataBits);
    s := baud + " " + dataBits;
    if c.parity == PARITY_ODD {
      s := s + ['O'];
    } else if c.parity == PARITY_EVEN {
      s := s + ['E'];
    } else {
      s := s + ['N'];
    }
    assert s == baud + " " + dataBits + [ParityLetter(c.parity)];
    hide ParityLetter;
    var stopBits := Itoa(c.stopBits);
    var tail := RenderTail(c);
    s := s + stopBits + tail;
    Regrouped(baud, dataBits, [ParityLetter(c.parity)], stopBits, tail);
  }

  lemma Regrouped(a: string, b: string, p: string, s: string, t: string)
    ensures a + " " + b + p + s + t == a + (" " + (b + (p + (s + t))))
  {}

  method RenderTail(c: Config) returns (s: string)
    ensures s == Tail(c)
  {
    hide Printed;
    var flags := [(c.clocal, " clocal"), (c.hupcl, " hupcl"), (c.rtscts, " rtscts")];
    s := RenderFlags(flags);
    FlagsOfThree(flags);
    hide Flags;
    var readMin := Itoa(c.readMin);
    var readTimeout := Itoa(c.readTimeout);
    s := s + (" vmin=" + (readMin + (" vtime=" + readTimeout)));
    RegroupedTail(Flag(c.clocal, " clocal"), Flag(c.hupcl, " hupcl"), Flag(c.rtscts, " rtscts"), Limits(c));
  }

  lemma RegroupedTail(a: string, b: string, r: string, t: string)
    ensures a + b + r + t == a + (b + (r + t))
  {}

  method RenderFlags(flags: seq<(bool, string)>) returns (s: string)
    ensures s == Flags(flags, |flags|)
  {
    s := "";
    for k := 0 to |flags|
      invariant s == Flags(flags, k)
    {
      assert s + "" == s;
      if flags[k].0 { s := s + flags[k].1; }
    }
  }

  lemma {:induction false} FlagsOfThree(flags: seq<(bool, string)>)
    requires |flags| == 3
    ensures Flags(flags, 3) ==
        Flag(flags[0].0, flags[0].1) + Flag(flags[1].0, flags[1].1) + Flag(flags[2].0, flags[2].1)
  {
    hide Flag;
    assert Flags(flags, 1) == "" + Flag(flags[0].0, flags[0].1);
    assert "" + Flag(flags[0].0, flags[0].1) == Flag(flags[0].0, flags[0].1);
    assert Flags(flags, 2) == Flag(flags[0].0, flags[0].1) + Flag(flags[1].0, flags[1].1);
  }

  /** A number is told apart from what follows it, when that cannot belong to a number. */
  lemma NumberSplits(v: int64, x: string, w: int64, y: string)
    requires x == [] || !IsNumeric(x[0])
    requires y == [] || !IsNumeric(y[0])
    requires Printed(v) + x == Printed(w) + y
    ensures v == w && x == y
  {
    PrintedReadsBackIff(v);
    PrintedReadsBackIff(w);
    NumericSplits(Printed(v), x, Printed(w), y);
    PrintedInjective(v, w);
  }

  lemma NumericSplits(a: string, x: string, b: string, y: string)
    requires x == [] || !IsNumeric(x[0])
    requires y == [] || !IsNumeric(y[0])
    requires forall k :: 0 <= k < |a| ==> IsNumeric(a[k])
    requires forall k :: 0 <= k < |b| ==> IsNumeric(b[k])
    requires a + x == b + y
    ensures a == b && x == y
  {
    assert (a + x)[|a|..] == x && (b + y)[|b|..] == y;
    assert x != [] ==> (a + x)[|a|] == x[0];
    assert y != [] ==> (b + y)[|b|] == y[0];
    assert forall k :: 0 <= k < |a| ==> (a + x)[k] == a[k];
    assert forall k :: 0 <= k < |b| ==> (b + y)[k] == b[k];
    assert a == (a + x)[..|a|] && b == (b + y)[..|b|];
  }

  /** What begins with a space and not with this flag's letter. */
  predicate Follows(s: string, letter: char) { |s| >= 2 && s[0] == ' ' && s[1] != letter }

  lemma SecondLetter(on: bool, name: string, x: string)
    requires |name| >= 2 && |x| >= 2
    ensures |Flag(on, name) + x| >= 2 && (Flag(on, name) + x)[1] == (if on then name else x)[1]
    ensures (Flag(on, name) + x)[|Flag(on, name)|..] == x
  {}

  lemma FlagSplits(p: bool, x: string, q: bool, y: string, name: string)
    requires |name| >= 2 && name[0] == ' ' && Follows(x, name[1]) && Follows(y, name[1])
    requires Flag(p, name) + x == Flag(q, name) + y
    ensures p == q && x == y
  {
    hide Flag;
    SecondLetter(p, name, x);
    SecondLetter(q, name, y);
  }

  lemma FlagFollows(on: bool, name: string, x: string, letter: char)
    requires Follows(x, letter) && Follows(name, letter)
    ensures Follows(Flag(on, name) + x, letter)
  {}

  lemma Prefixed(p: string, x: string, y: string)
    requires p + x == p + y
    ensures x == y
  {
    assert (p + x)[|p|..] == x && (p + y)[|p|..] == y;
  }

  lemma LimitsInjective(c: Config, d: Config)
    requires Limits(c) == Limits(d)
    ensures c.readMin == d.readMin && c.readTimeout == d.readTimeout
  {
    hide Printed;
    var v, w := " vtime=" + Printed(c.readTimeout), " vtime=" + Printed(d.readTimeout);
    Prefixed(" vmin=", Printed(c.readMin) + v, Printed(d.readMin) + w);
    NumberSplits(c.readMin, v, d.readMin, w);
    Prefixed(" vtime=", Printed(c.readTimeout), Printed(d.readTimeout));
    PrintedInjective(c.readTimeout, d.readTimeout);
  }

  lemma LimitsStart(c: Config)
    ensures |Limits(c)| >= 2 && Limits(c)[0] == ' ' && Limits(c)[1] == 'v'
  {}

  lemma TailInjective(c: Config, d: Config)
    requires Tail(c) == Tail(d)
    ensures c.clocal == d.clocal && c.hupcl == d.hupcl && c.rtscts == d.rtscts
    ensures c.readMin == d.readMin && c.readTimeout == d.readTimeout
  {
    var lc, ld := Limits(c), Limits(d);
    var rc, rd := Flag(c.rtscts, " rtscts") + lc, Flag(d.rtscts, " rtscts") + ld;
    var hc, hd := Flag(c.hupcl, " hupcl") + rc, Flag(d.hupcl, " hupcl") + rd;
    hide Limits, Flag;
    LimitsStart(c);
    LimitsStart(d);
    FlagFollows(c.rtscts, " rtscts", lc, 'h');
    FlagFollows(d.rtscts, " rtscts", ld, 'h');
    FlagFollows(c.rtscts, " rtscts", lc, 'c');
    FlagFollows(d.rtscts, " rtscts", ld, 'c');
    FlagFollows(c.hupcl, " hupcl", rc, 'c');
    FlagFollows(d.hupcl, " hupcl", rd, 'c');
    FlagSplits(c.clocal, hc, d.clocal, hd, " clocal");
    FlagSplits(c.hupcl, rc, d.hupcl, rd, " hupcl");
    FlagSplits(c.rtscts, lc, d.rtscts, ld, " rtscts");
    LimitsInjective(c, d);
  }

  /** Two configurations render alike exactly when they agree in everything but
      the spelling of an invalid parity; valid ones only when they are the same. */
  lemma TextInjectiveIff(c: Config, d: Config)
    requires Machine(c) && Machine(d)
    ensures Text(c) == Text(d) <==>
      c.(parity := 0) == d.(parity := 0) && ParityLetter(c.parity) == ParityLetter(d.parity)
    ensures Validate(c) == None && Validate(d) == None && Text(c) == Text(d) ==> c == d
  {
    if Text(c) == Text(d) {
      TextDetermines(c, d);
    } else if c.(parity := 0) == d.(parity := 0) {
      assert Tail(c) == Tail(d);
    }
  }

  lemma TailStarts(c: Config)
    ensures Tail(c) != [] && Tail(c)[0] == ' '
  {
    assert Limits(c)[0] == ' ';
  }

  lemma TextDetermines(c: Config, d: Config)
    requires Machine(c) && Machine(d) && Text(c) == Text(d)
    ensures c.(parity := 0) == d.(parity := 0) && ParityLetter(c.parity) == ParityLetter(d.parity)
  {
    TailStarts(c);
    TailStarts(d);
    hide Tail, Printed;
    var sc, sd := Printed(c.stopBits) + Tail(c), Printed(d.stopBits) + Tail(d);
    var pc, pd := [ParityLetter(c.parity)] + sc, [ParityLetter(d.parity)] + sd;
    var bc, bd := Printed(c.dataBits) + pc, Printed(d.dataBits) + pd;
    NumberSplits(c.baud, " " + bc, d.baud, " " + bd);
    Prefixed(" ", bc, bd);
    NumberSplits(c.dataBits, pc, d.dataBits, pd);
    assert pc[0] == ParityLetter(c.parity) && pd[0] == ParityLetter(d.parity);
    Prefixed([ParityLetter(c.parity)], sc, sd);
    NumberSplits(c.stopBits, Tail(c), d.stopBits, Tail(d));
    TailInjective(c, d);
  }

  // ----- Letter by letter -----

  lemma {:induction false} DigitsOnce(n: nat)
    requires n > 0
    ensures Digits(n) == Digits(n / 10) + [Digit(n % 10)] && Digits(0) == ""
  {}

  lemma DigitLetters()
    ensures [Digit(0), Digit(1), Digit(2), Digit(3), Digit(4)] == "01234"
    ensures [Digit(5), Digit(6), Digit(7), Digit(8), Digit(9)] == "56789"
  {}

  lemma SampleNumbers()
    ensures Printed(0) == "0" && Printed(1) == "1" && Printed(8) == "8" && Printed(42) == "42" && Printed(-8) == "-8"
  {
    DigitLetters();
    DigitsOnce(1);
    DigitsOnce(8);
    DigitsOnce(42);
    DigitsOnce(4);
    hide Digits, Digit;
    assert "" + ['1'] == "1" && "" + ['8'] == "8" && "" + ['4'] == "4" && "4" + ['2'] == "42";
    assert "-" + "8" == "-8";
  }

  lemma ParityLetters(parity: int)
    ensures ParityLetter(parity) == if parity == 1 then 'O' else if parity == 2 then 'E' else 'N'
  {}

  /** A configuration with every flag, letter by letter. */
  const SAMPLE: Config := Config(8, 8, 1, 2, true, true, true, 1, 0)

  lemma SampleLimits()
    ensures Limits(SAMPLE) == " vmin=1 vtime=0"
  {
    SampleNumbers();
    hide Printed;
    assert " vtime=" + "0" == " vtime=0";
    assert "1" + " vtime=0" == "1 vtime=0";
    assert " vmin=" + "1 vtime=0" == " vmin=1 vtime=0";
  }

  lemma SampleTail()
    ensures Tail(SAMPLE) == " clocal hupcl rtscts" + " vmin=1 vtime=0"
  {
    SampleLimits();
    hide Limits;
    assert " clocal" + (" hupcl" + " rtscts") == " clocal hupcl rtscts";
    RegroupedTail(" clocal", " hupcl", " rtscts", " vmin=1 vtime=0");
    TailGroups(" clocal", " hupcl", " rtscts", " vmin=1 vtime=0");
  }

  lemma TailGroups(a: string, b: string, r: string, t: string)
    ensures a + (b + (r + t)) == (a + (b + r)) + t
  {}

  lemma SampleText()
    ensures Text(SAMPLE) == "8 8E1" + (" clocal hupcl rtscts" + " vmin=1 vtime=0")
  {
    SampleNumbers();
    SampleTail();
    hide Printed, Tail;
    TextGroups("8", "8", ['E'], "1", " clocal hupcl rtscts" + " vmin=1 vtime=0");
    assert "8" + (" " + ("8" + (['E'] + "1"))) == "8 8E1";
  }

  lemma TextGroups(a: string, b: string, p: string, s: string, t: string)
    ensures a + (" " + (b + (p + (s + t)))) == (a + (" " + (b + (p + s)))) + t
  {}

  /** Without flags the shorthand is followed by the limits. */
  lemma BareTail(c: Config)
    requires !c.clocal && !c.hupcl && !c.rtscts
    ensures Tail(c) == Limits(c)
  {
    hide Limits;
    assert "" + Limits(c) == Limits(c);
  }
}
