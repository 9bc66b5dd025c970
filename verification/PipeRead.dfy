/** darwinReadPipe of usb/iface_darwin.go: one bulk read through C memory. */
module PipeRead {
  import opened IOReturn
  import opened Octets

  /** The C heap: the blocks from malloc not yet freed. */
  class Memory {
    var live: set<object>

    constructor ()
      ensures live == {}
    {
      live := {};
    }

    /** A cleared block, or null when the answer is that there is no memory. */
    method Malloc(n: nat, ok: bool) returns (p: array?<Octet>)
      modifies this
      ensures !ok ==> p == null && live == old(live)
      ensures ok ==> p != null && fresh(p) && p.Length == n && live == old(live) + {p}
      ensures ok ==> forall k :: 0 <= k < n ==> p[k] == 0
    {
      if !ok { return null; }
      p := new Octet[n](_ => 0);
      live := live + {p};
    }

    method MallocWord(v: nat, ok: bool) returns (p: array?<nat>)
      modifies this
      ensures !ok ==> p == null && live == old(live)
      ensures ok ==> p != null && fresh(p) && p.Length == 1 && p[0] == v && live == old(live) + {p}
    {
      if !ok { return null; }
      p := new nat[1](_ => v);
      live := live + {p};
    }

    method Free(p: object)
      requires p in live
      modifies this
      ensures live == old(live) - {p}
    {
      live := live - {p};
    }
  }

  /** What the device interface answers: a code, and what it leaves in the two
      blocks, which on a failure may be anything. */
  datatype Reply = Reply(code: int, bytes: seq<Octet>, count: nat)

  /** The kernel is told the room there is in the size word, and writes into both
      blocks, whatever its code. */
  method ReadPipeTO(data: array<Octet>, size: array<nat>, reply: Reply) returns (code: int)
    requires |reply.bytes| == data.Length && size.Length == 1 && size[0] == data.Length
    modifies data, size
    ensures code == reply.code && data[..] == reply.bytes && size[0] == reply.count
  {
    forall k | 0 <= k < data.Length { data[k] := reply.bytes[k]; }
    size[0] := reply.count;
    code := reply.code;
  }

  datatype Result = Delegated | Done(n: nat, code: int)

  const TRANSFER_INTERRUPT: Octet := 3

  /** What GetPipeProperties answers: a code, and what it leaves in the block of
      eight bytes, which on a failure may be anything. The type is at offset 4. */
  datatype Properties = Properties(code: int, block: seq<Octet>)

  /** The kernel writes through pointers into the block, whatever its code. */
  method GetPipeProperties(block: array<Octet>, props: Properties) returns (code: int)
    requires block.Length == |props.block|
    modifies block
    ensures code == props.code && block[..] == props.block
  {
    forall k | 0 <= k < block.Length { block[k] := props.block[k]; }
    code := props.code;
  }

  /** The kind of a pipe, asked for through a block that is given back on every path. */
  method PipeTypeOf(mem: Memory, blockOk: bool, props: Properties) returns (kind: Octet, code: int)
    requires |props.block| == 8
    modifies mem
    ensures mem.live == old(mem.live)
    ensures code == (if blockOk then props.code else ERR_NO_MEMORY)
    ensures kind == if code == SUCCESS then props.block[4] else 0
  {
    var block := mem.Malloc(8, blockOk);
    if block == null { return 0, ERR_NO_MEMORY; }
    code := GetPipeProperties(block, props);
    kind := if code != 0 then 0 else block[..][4];
    mem.Free(block);
  }

  /** A read that is refused, has no memory or fails says so with a count of
      zero and leaves the caller's buffer alone. One that succeeds has put the bytes
      reported at the start of the buffer, cut to its length, and reports how many. A
      pipe of interrupt type (3, at offset 4 of the answer) is handed to the other read;
      one whose kind is not learnt is read as a bulk one. Every block is given back on
      every path, the first of them before the other read is handed the pipe. */
  method DarwinReadPipe(mem: Memory, attached: bool, buf: array<Octet>, blockOk: bool, props: Properties,
                        dataOk: bool, sizeOk: bool, reply: Reply)
    returns (r: Result)
    requires |props.block| == 8 && |reply.bytes| == buf.Length && buf !in mem.live
    modifies mem, buf
    ensures mem.live == old(mem.live)
    ensures !attached ==> r == Done(0, ERR_NOT_OPEN)
    ensures attached && buf.Length == 0 ==> r == Done(0, ERR_BAD_ARGUMENT)
    ensures r == Delegated <==>
      attached && buf.Length > 0 && blockOk && props.code == 0 && props.block[4] == 3
    ensures attached && buf.Length > 0 && r != Delegated ==>
      if !dataOk || !sizeOk then r == Done(0, ERR_NO_MEMORY)
      else if reply.code != 0 then r == Done(0, reply.code)
      else r == Done(Least(reply.count, buf.Length), 0)
    ensures var n := if r.Done? && r.code == 0 then Least(reply.count, buf.Length) else 0;
      buf[..] == reply.bytes[..n] + old(buf[..])[n..]
  {
    if !attached { return Done(0, ERR_NOT_OPEN); }
    if buf.Length == 0 { return Done(0, ERR_BAD_ARGUMENT); }
    var kind, asked := PipeTypeOf(mem, blockOk, props);
    if asked == SUCCESS && kind == TRANSFER_INTERRUPT { return Delegated; }
    var data := mem.Malloc(buf.Length, dataOk);
    if data == null { return Done(0, ERR_NO_MEMORY); }
    var size := mem.MallocWord(buf.Length, sizeOk);
    if size == null {
      mem.Free(data);
      return Done(0, ERR_NO_MEMORY);
    }
    var code := ReadPipeTO(data, size, reply);
    if code != 0 {
      r := Done(0, code);
    } else {
      var got := size[0];
      if got > buf.Length { got := buf.Length; }
      if got > 0 {
        forall k | 0 <= k < got { buf[k] := data[k]; }
      }
      r := Done(got, SUCCESS);
    }
    mem.Free(size);
    mem.Free(data);
  }
}
