/** The report frames of viture/beast.go: events, their text, and commands. */
module Beast {
  import opened Octets
  import opened Wrappers

  type Word = x: int | 0 <= x < 0x10000

  const EVENT_HEADER: Octet := 0x10
  const DIR_WRITE: Octet := 0x01
  const DIR_READ: Octet := 0x31
  const MSG_DISPLAY_MODE: Octet := 0x24
  const REPORT_SIZE: nat := 64
  /** The bytes before the text: the header, the value and one status byte. */
  const TEXT_START: nat := 9

  datatype Event = Event(counter: Octet, id: Octet, kind: Octet, value: Word, text: seq<Octet>)

  function LittleEndian(lo: Octet, hi: Octet): (w: Word) { lo + 256 * hi }

  predicate Padding(b: Octet) { b == 0x00 || b == 0xFF }

  /** t is s without its trailing padding: the longest prefix not ending in any. */
  predicate Trims(s: seq<Octet>, t: seq<Octet>) {
    && t <= s && (t == [] || !Padding(t[|t| - 1]))
    && forall k :: |t| <= k < |s| ==> Padding(s[k])
  }

  function Trimmed(s: seq<Octet>): (t: seq<Octet>)
    ensures Trims(s, t)
  {
    if s != [] && Padding(s[|s| - 1]) then Trimmed(s[..|s| - 1]) else s
  }

  lemma {:induction false} TrimsOnce(s: seq<Octet>, t: seq<Octet>)
    requires Trims(s, t)
    ensures t == Trimmed(s)
  {
    var u := Trimmed(s);
    assert u != [] ==> s[|u| - 1] == u[|u| - 1];
    assert t != [] ==> s[|t| - 1] == t[|t| - 1];
    assert t == s[..|t|] && u == s[..|u|];
  }

  /** The bytes the length field leaves to the text, cut to the frame. */
  function Field(b: seq<Octet>): seq<Octet> {
    if |b| < TEXT_START then []
    else
      var end := TEXT_START + LittleEndian(b[4], b[5]) - 1;
      if end <= TEXT_START then [] else b[TEXT_START..if end > |b| then |b| else end]
  }

  method TextOf(b: seq<Octet>) returns (text: seq<Octet>)
    ensures text == Trimmed(Field(b))
  {
    if |b| < TEXT_START { return []; }
    var n := LittleEndian(b[4], b[5]);
    if n < 1 { return []; }
    var end := TEXT_START + n - 1;
    if end > |b| { end := |b|; }
    if end <= TEXT_START { return []; }
    text := b[TEXT_START..end];
    while |text| > 0 && (text[|text| - 1] == 0x00 || text[|text| - 1] == 0xFF)
      invariant text <= Field(b)
      invariant forall k :: |text| <= k < |Field(b)| ==> Padding(Field(b)[k])
    {
      text := text[..|text| - 1];
    }
    TrimsOnce(Field(b), text);
  }

  predicate IsEvent(b: seq<Octet>) { |b| >= 8 && b[0] == EVENT_HEADER && b[5] == 0x00 }

  method ParseEvent(b: seq<Octet>) returns (e: Option<Event>)
    ensures e == if IsEvent(b) then Some(EventOf(b)) else None
  {
    if |b| < 8 || b[0] != EVENT_HEADER || b[5] != 0x00 { return None; }
    var text := TextOf(b);
    return Some(Event(b[1], b[2], b[3], LittleEndian(b[6], b[7]), text));
  }

  function EventOf(b: seq<Octet>): Event
    requires IsEvent(b)
  {
    Event(b[1], b[2], b[3], LittleEndian(b[6], b[7]), Trimmed(Field(b)))
  }

  /** Which frames are events, and which bytes they are read from. */
  lemma EventIff(b: seq<Octet>)
    ensures IsEvent(b) <==> |b| >= 8 && b[0] == 0x10 && b[5] == 0
    ensures IsEvent(b) ==>
      var e := EventOf(b);
      && e.counter == b[1] && e.id == b[2] && e.kind == b[3] && e.value == (b[6] as int) + 256 * (b[7] as int)
      && (|b| < 9 || b[4] <= 1 ==> e.text == [])
      && (|b| >= 9 && b[4] >= 1 ==> e.text <= b[9..])
  {
    if IsEvent(b) {
      assert Trimmed(Field(b)) <= Field(b);
    }
  }

  /** Zeros and 0xFF are trimmed off the end, and nothing else is. */
  lemma {:induction false} TrimmedEnd(s: seq<Octet>, c: Octet)
    ensures Trimmed(s + [c]) == if c == 0 || c == 0xFF then Trimmed(s) else s + [c]
  {
    assert (s + [c])[..|s|] == s;
  }

  function Low(w: Word): Octet { w % 256 }

  function High(w: Word): Octet { w / 256 }

  /** The frame that answers with text, as the length field counts it. */
  function TextFrame(e: Event, status: Octet, rest: seq<Octet>): (b: seq<Octet>)
    requires |e.text| < 255
  {
    [0x10, e.counter, e.id, e.kind, |e.text| + 1, 0x00, e.value % 256, e.value / 256, status] + e.text + rest
  }

  /** Every field of such a frame is read back, whatever follows it; the text
      is the one sent exactly when that does not end in padding. */
  lemma TextRoundTrip(e: Event, status: Octet, rest: seq<Octet>)
    requires |e.text| < 255
    ensures IsEvent(TextFrame(e, status, rest))
    ensures EventOf(TextFrame(e, status, rest)) == e.(text := Trimmed(e.text))
    ensures Trimmed(e.text) == e.text <==> e.text == [] || !Padding(e.text[|e.text| - 1])
  {
    var b := TextFrame(e, status, rest);
    assert LittleEndian(b[4], b[5]) == |e.text| + 1;
    assert b[TEXT_START..TEXT_START + |e.text|] == e.text;
    assert Field(b) == e.text;
  }

  /** A field that claims all of the frame or more is all of the rest of it. */
  lemma FieldCut(b: seq<Octet>, n: nat)
    requires TEXT_START <= |b| <= TEXT_START + n - 1 && LittleEndian(b[4], b[5]) == n
    ensures Field(b) == b[TEXT_START..]
  {}

  /** A frame cut short, with a length field claiming more than it holds, gives
      the part of the text that is there. */
  lemma CutFrame(e: Event, status: Octet, n: nat)
    requires |e.text| < 255 && TEXT_START <= n <= TEXT_START + |e.text|
    ensures var b := TextFrame(e, status, [])[..n];
      IsEvent(b) && EventOf(b) == e.(text := Trimmed(e.text[..n - TEXT_START]))
  {
    var b := TextFrame(e, status, [])[..n];
    assert b[4] == |e.text| + 1 && b[5] == 0;
    assert LittleEndian(b[4], b[5]) == |e.text| + 1;
    hide Trimmed;
    FieldCut(b, |e.text| + 1);
    assert b[TEXT_START..] == e.text[..n - TEXT_START];
  }

  // ----- Commands -----

  /** A command frame: the value packed twice, little-endian, the rest zero. */
  predicate IsCommand(b: seq<Octet>, msg: Octet, length: Octet, value: Word) {
    && |b| == 64 && b[0] == 0x10 && b[1] == 0 && b[2] == msg
    && b[3] == (if length == 0x03 && value == 0 then 0x31 else 0x01)
    && b[4] == length && b[5] == 0
    && LittleEndian(b[6], b[7]) == value && LittleEndian(b[8], b[9]) == value
    && forall k :: 10 <= k < 64 ==> b[k] == 0
  }

  lemma WordOfBytes(w: Word)
    ensures LittleEndian(Low(w), High(w)) == w
  {}

  method Command(msg: Octet, length: Octet, value: Word) returns (b: array<Octet>)
    ensures fresh(b) && IsCommand(b[..], msg, length, value)
  {
    WordOfBytes(value);
    hide Low, High, LittleEndian;
    b := new Octet[REPORT_SIZE](_ => 0);
    var dir := DIR_WRITE;
    if length == 0x03 && value == 0 { dir := DIR_READ; }
    b[0], b[2], b[3], b[4] := EVENT_HEADER, msg, dir, length;
    b[6], b[7], b[8], b[9] := Low(value), High(value), Low(value), High(value);
  }

  method SetDisplayMode(mode: Word) returns (b: array<Octet>)
    ensures fresh(b) && IsCommand(b[..], 0x24, 0x02, mode)
  {
    b := Command(MSG_DISPLAY_MODE, 0x02, mode);
  }

  method ReadDisplayMode() returns (b: array<Octet>)
    ensures fresh(b) && IsCommand(b[..], 0x24, 0x03, 0)
  {
    b := Command(MSG_DISPLAY_MODE, 0x03, 0);
  }

  /** A command, byte by byte: ten bytes that matter and 54 zeros. */
  lemma CommandInBytes(b: seq<Octet>, msg: Octet, length: Octet, value: Word)
    ensures IsCommand(b, msg, length, value) <==>
      && |b| == 64 && b[..6] == [0x10, 0, msg, if length == 3 && value == 0 then 0x31 else 0x01, length, 0]
      && b[6..10] == [value % 256, value / 256, value % 256, value / 256]
      && forall k :: 10 <= k < 64 ==> b[k] == 0
  {
    if |b| == 64 {
      assert b[..6] == [b[0], b[1], b[2], b[3], b[4], b[5]];
      assert b[6..10] == [b[6], b[7], b[8], b[9]];
      ValueInBytes(b[6], b[7], value);
      ValueInBytes(b[8], b[9], value);
    }
  }

  lemma ValueInBytes(low: Octet, high: Octet, value: Word)
    ensures LittleEndian(low, high) == value <==> low == value % 256 && high == value / 256
  {}

  /** A command is determined by what it asks, and says all of it: message,
      length and value are read back by the event parser, and only a read goes out
      in the read direction. */
  lemma CommandRoundTrip(b: seq<Octet>, msg: Octet, length: Octet, value: Word)
    requires IsCommand(b, msg, length, value)
    ensures IsEvent(b) && EventOf(b).id == msg && EventOf(b).value == value && b[4] == length
    ensures EventOf(b).kind == 0x31 <==> length == 3 && value == 0
    ensures (b[6] as int) + 256 * (b[7] as int) == value && (b[8] as int) + 256 * (b[9] as int) == value
  {}

  lemma CommandsDiffer(a: seq<Octet>, b: seq<Octet>, msg: Octet, length: Octet, value: Word,
                       msg': Octet, length': Octet, value': Word)
    requires IsCommand(a, msg, length, value) && IsCommand(b, msg', length', value')
    ensures a == b <==> msg == msg' && length == length' && value == value'
  {
    CommandRoundTrip(a, msg, length, value);
    CommandRoundTrip(b, msg', length', value');
    if msg == msg' && length == length' && value == value' {
      SameWord(a[6], a[7], b[6], b[7]);
      SameWord(a[8], a[9], b[8], b[9]);
      assert forall k :: 0 <= k < 10 ==> a[k] == b[k];
    }
  }

  lemma SameWord(a: Octet, b: Octet, c: Octet, d: Octet)
    requires LittleEndian(a, b) == LittleEndian(c, d)
    ensures a == c && b == d
  {}
}
