/** What a peek at the head of a connection concludes, and the bounds-checked
    cursor that the parsers read through (`parser.rs`). */
module Prelude {
  import opened Basics
  import opened Hostnames

  /** 8 KiB, the most that is ever peeked. */
  const MAX_PEEK: nat := 8192
  const FUEL: nat := 1024

  datatype Peek = NeedMore | HostFound(host: Hostname) | NoHostname

  /** Out of bytes: not sent yet, or never to be looked at? */
  function Incomplete(streamLength: nat): Peek {
    if streamLength >= MAX_PEEK then NoHostname else NeedMore
  }

  function Verdict(name: seq<byte>): Peek {
    match ParsedName(name)
    case Some(h) => HostFound(h)
    case None => NoHostname
  }

  function U16(hi: byte, lo: byte): (n: nat)
    ensures n < 0x1_0000
  {
    hi * 256 + lo
  }

  function U24(a: byte, b: byte, c: byte): (n: nat)
    ensures n < 0x100_0000
  {
    (a * 256 + b) * 256 + c
  }

  class Reader {
    const buf: seq<byte>
    var pos: nat

    predicate Valid()
      reads this
    {
      pos <= |buf|
    }

    constructor (buf: seq<byte>)
      ensures Valid() && this.buf == buf && pos == 0
    {
      this.buf := buf;
      pos := 0;
    }

    /** Exactly `n` bytes, or nothing consumed when fewer remain. */
    method Take(n: nat) returns (r: Option<seq<byte>>)
      requires Valid()
      modifies this
      ensures Valid()
      ensures if old(pos) + n <= |buf|
              then r == Some(buf[old(pos)..old(pos) + n]) && pos == old(pos) + n
              else r == None && pos == old(pos)
    {
      if n > |buf| - pos {
        return None;
      }
      r := Some(buf[pos..pos + n]);
      pos := pos + n;
    }

    method TakeU8() returns (r: Option<byte>)
      requires Valid()
      modifies this
      ensures Valid()
      ensures if old(pos) + 1 <= |buf|
              then r == Some(buf[old(pos)]) && pos == old(pos) + 1
              else r == None && pos == old(pos)
    {
      var bytes := Take(1);
      r := if bytes.Some? then Some(bytes.value[0]) else None;
    }

    method TakeU16() returns (r: Option<nat>)
      requires Valid()
      modifies this
      ensures Valid()
      ensures if old(pos) + 2 <= |buf|
              then r == Some(U16(buf[old(pos)], buf[old(pos) + 1])) && pos == old(pos) + 2
              else r == None && pos == old(pos)
    {
      var bytes := Take(2);
      r := if bytes.Some? then Some(U16(bytes.value[0], bytes.value[1])) else None;
    }

    method TakeU24() returns (r: Option<nat>)
      requires Valid()
      modifies this
      ensures Valid()
      ensures if old(pos) + 3 <= |buf|
              then r == Some(U24(buf[old(pos)], buf[old(pos) + 1], buf[old(pos) + 2])) && pos == old(pos) + 3
              else r == None && pos == old(pos)
    {
      var bytes := Take(3);
      r := if bytes.Some? then Some(U24(bytes.value[0], bytes.value[1], bytes.value[2])) else None;
    }
  }
}
