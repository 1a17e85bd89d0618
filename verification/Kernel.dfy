/** The environment of a relay: sockets, pipes and `splice`, with every choice the
    kernel and the peers can make read from a script. A socket event is only
    promised when an empty socket becomes readable or a full one writable, the
    weakest reading of edge triggering. */
module Kernel {
  import opened Basics

  /** What reaches a socket between two system calls. */
  datatype Arrival = Arrival(bytes: seq<byte>, close: bool, room: nat)

  /** One connected socket: what has been read from it, what is waiting, whether
      the peer has closed, how much it will accept and what it was sent. `pin` is
      the interface it is bound to. */
  datatype Sock = Sock(
    read: seq<byte>, unread: seq<byte>, closed: bool,
    room: nat, sent: seq<byte>, halfCloses: nat,
    readEdge: bool, writeEdge: bool, pin: Option<string>)

  datatype Pipe = Pipe(capacity: nat, content: seq<byte>)

  /** What one `splice` call meets: arrivals just before it, whether it fails, and
      how many bytes it prefers to move. */
  datatype Choice = Choice(fail: bool, amount: nat, src: Arrival, dst: Arrival)

  datatype Splice = SpliceFailed | SpliceMoved(n: nat) | WouldBlock | SpliceEof

  /** A source, a destination and the choices still to come. Past the end of the
      script nothing arrives and everything moves. */
  datatype Wire = Wire(src: Sock, dst: Sock, script: seq<Choice>)

  const NOTHING := Arrival([], false, 0)
  const CALM := Choice(false, U64_MAX, NOTHING, NOTHING)

  function Opened(room: nat, pin: Option<string>): Sock { Sock([], [], false, room, [], 0, false, false, pin) }

  function Arrive(s: Sock, a: Arrival): Sock {
    var bytes := if s.closed then [] else a.bytes;
    s.(unread := s.unread + bytes,
       closed := s.closed || a.close,
       room := s.room + a.room,
       readEdge := s.readEdge || (s.unread == [] && !s.closed && (bytes != [] || a.close)),
       writeEdge := s.writeEdge || (s.room == 0 && a.room > 0))
  }

  function NextChoice(w: Wire): Choice { if w.script == [] then CALM else w.script[0] }

  /** The wire as the next system call finds it. */
  function Advanced(w: Wire): Wire {
    var c := NextChoice(w);
    Wire(Arrive(w.src, c.src), Arrive(w.dst, c.dst), if w.script == [] then [] else w.script[1..])
  }

  function Between(x: nat, low: nat, high: nat): (r: nat)
    requires low <= high
    ensures low <= r <= high && (low <= x <= high ==> r == x)
  {
    Max(low, Min(x, high))
  }

  datatype Spliced = Spliced(wire: Wire, pipe: Pipe, outcome: Splice)

  function SpliceIn(w: Wire, pipe: Pipe, want: nat): Spliced
    requires want > 0
  {
    var a := Advanced(w);
    if NextChoice(w).fail then Spliced(a, pipe, SpliceFailed)
    else if a.src.unread == [] then Spliced(a, pipe, if a.src.closed then SpliceEof else WouldBlock)
    else
      var n := Between(NextChoice(w).amount, 1, Min(want, |a.src.unread|));
      var moved := a.src.unread[..n];
      Spliced(a.(src := a.src.(unread := a.src.unread[n..], read := a.src.read + moved)),
              pipe.(content := pipe.content + moved), SpliceMoved(n))
  }

  function SpliceOut(w: Wire, pipe: Pipe, want: nat): Spliced
    requires want > 0
  {
    var a := Advanced(w);
    if NextChoice(w).fail then Spliced(a, pipe, SpliceFailed)
    else if pipe.content == [] then Spliced(a, pipe, SpliceEof)
    else if a.dst.room == 0 then Spliced(a, pipe, WouldBlock)
    else
      var n := Between(NextChoice(w).amount, 1, Min(Min(want, |pipe.content|), a.dst.room));
      var moved := pipe.content[..n];
      Spliced(a.(dst := a.dst.(sent := a.dst.sent + moved, room := a.dst.room - n)),
              pipe.(content := pipe.content[n..]), SpliceMoved(n))
  }

  function ShutdownWrite(w: Wire): Wire { w.(dst := w.dst.(halfCloses := w.dst.halfCloses + 1)) }
}
