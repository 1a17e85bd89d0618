/** The pipe pool and one direction of a flow (`relay.rs`). */
module Relay {
  import opened Basics
  import opened Kernel

  const HEALTHY_PIPE_BYTES: nat := 64 * 1024

  // ---- the pool ----------------------------------------------------------------------

  datatype Pool = Pool(idle: seq<Pipe>, requested: nat, limit: nat, live: nat, degraded: bool)

  function EmptyPool(requested: nat, limit: nat): Pool { Pool([], requested, limit, 0, false) }

  /** `None` inside `Ok`: the limit is reached. `Err`: the kernel refused a pipe. */
  datatype Acquired = Acquired(pool: Pool, pipe: Result<Option<Pipe>, ()>)

  /** `made` is the capacity of the pipe the kernel would create, if it would. */
  function Acquire(pool: Pool, made: Option<nat>): Acquired {
    if pool.idle != [] then
      Acquired(pool.(idle := pool.idle[..|pool.idle| - 1]), Ok(Some(pool.idle[|pool.idle| - 1])))
    else if pool.live >= pool.limit then Acquired(pool, Ok(None))
    else if made.None? then Acquired(pool, Err(()))
    else
      Acquired(pool.(live := pool.live + 1,
                     degraded := pool.degraded || made.value < Min(pool.requested, HEALTHY_PIPE_BYTES)),
               Ok(Some(Pipe(made.value, []))))
  }

  /** A pipe that holds bytes is dropped, never recycled. */
  function Release(pool: Pool, pipe: Pipe, buffered: nat): Pool {
    if buffered > 0 then pool.(live := Max(pool.live - 1, 0)) else pool.(idle := pool.idle + [pipe])
  }

  class PipePool {
    var idle: seq<Pipe>
    const requested: nat
    const limit: nat
    var live: nat
    var degraded: bool

    function State(): Pool
      reads this
    {
      Pool(idle, requested, limit, live, degraded)
    }

    constructor (requested: nat, limit: nat)
      ensures State() == EmptyPool(requested, limit)
    {
      this.idle, this.requested, this.limit, this.live, this.degraded := [], requested, limit, 0, false;
    }

    method TakePipe(made: Option<nat>) returns (pipe: Result<Option<Pipe>, ()>)
      modifies this`idle, this`live, this`degraded
      ensures Acquired(State(), pipe) == Acquire(old(State()), made)
    {
      if idle != [] {
        pipe := Ok(Some(idle[|idle| - 1]));
        idle := idle[..|idle| - 1];
        return;
      }
      if live >= limit {
        return Ok(None);
      }
      if made.None? {
        return Err(());
      }
      if made.value < Min(requested, HEALTHY_PIPE_BYTES) {
        degraded := true;
      }
      live := live + 1;
      return Ok(Some(Pipe(made.value, [])));
    }

    method GiveBack(pipe: Pipe, buffered: nat)
      modifies this`idle, this`live
      ensures State() == Release(old(State()), pipe, buffered)
    {
      if buffered > 0 {
        live := Max(live - 1, 0);
        return;
      }
      idle := idle + [pipe];
    }
  }

  // ---- one direction ------------------------------------------------------------------

  datatype Step = Moved(n: nat) | Blocked | Eof

  datatype PumpState = PumpState(pipe: Pipe, buffered: nat, sourceEof: bool, shutdownSent: bool, moved: nat)

  function NewPump(pipe: Pipe): PumpState { PumpState(pipe, 0, false, false, 0) }

  predicate Finished(p: PumpState) { p.sourceEof && p.buffered == 0 }

  function Space(p: PumpState): nat { Max(p.pipe.capacity - p.buffered, 0) }

  /** A pump on its wire, and what one call on it achieved. */
  datatype Lane = Lane(pump: PumpState, wire: Wire)
  datatype Tried = Tried(lane: Lane, step: Result<Step, ()>)

  function Fill(l: Lane, limit: nat): Tried {
    var p := l.pump;
    var want := Min(Space(p), limit);
    if p.sourceEof || want == 0 then Tried(l, Ok(Blocked))
    else
      var s := SpliceIn(l.wire, p.pipe, want);
      match s.outcome
      case SpliceFailed => Tried(Lane(p.(pipe := s.pipe), s.wire), Err(()))
      case SpliceMoved(n) => Tried(Lane(p.(pipe := s.pipe, buffered := p.buffered + n), s.wire), Ok(Moved(n)))
      case WouldBlock => Tried(Lane(p.(pipe := s.pipe), s.wire), Ok(Blocked))
      case SpliceEof => Tried(Lane(p.(pipe := s.pipe, sourceEof := true), s.wire), Ok(Eof))
  }

  function Drain(l: Lane): Tried {
    var p := l.pump;
    if p.buffered == 0 then Tried(l, Ok(Blocked))
    else
      var s := SpliceOut(l.wire, p.pipe, p.buffered);
      match s.outcome
      case SpliceFailed => Tried(Lane(p.(pipe := s.pipe), s.wire), Err(()))
      case SpliceMoved(n) =>
        Tried(Lane(p.(pipe := s.pipe, buffered := Max(p.buffered - n, 0), moved := p.moved + n), s.wire), Ok(Moved(n)))
      case WouldBlock => Tried(Lane(p.(pipe := s.pipe), s.wire), Ok(Blocked))
      case SpliceEof => Tried(Lane(p.(pipe := s.pipe), s.wire), Ok(Blocked))
  }

  function Finish(l: Lane): Lane {
    if !Finished(l.pump) || l.pump.shutdownSent then l
    else Lane(l.pump.(shutdownSent := true), ShutdownWrite(l.wire))
  }

  class Pump {
    var pipe: Pipe
    var buffered: nat
    var sourceEof: bool
    var shutdownSent: bool
    var moved: nat

    function State(): PumpState
      reads this
    {
      PumpState(pipe, buffered, sourceEof, shutdownSent, moved)
    }

    constructor (pipe: Pipe)
      ensures State() == NewPump(pipe)
    {
      this.pipe, buffered, sourceEof, shutdownSent, moved := pipe, 0, false, false, 0;
    }

    /** A pump taken out of the flow that owns it. */
    constructor Owned(p: PumpState)
      ensures State() == p
    {
      pipe, buffered, sourceEof, shutdownSent, moved := p.pipe, p.buffered, p.sourceEof, p.shutdownSent, p.moved;
    }

    /** End of file is reported once; later calls report `Blocked`. */
    method FillFrom(wire: Wire, limit: nat) returns (after: Wire, step: Result<Step, ()>)
      modifies this`pipe, this`buffered, this`sourceEof
      ensures Tried(Lane(State(), after), step) == Fill(Lane(old(State()), wire), limit)
    {
      after := wire;
      if sourceEof {
        return after, Ok(Blocked);
      }
      var want := Min(Max(pipe.capacity - buffered, 0), limit);
      if want == 0 {
        return after, Ok(Blocked);
      }
      var s := SpliceIn(wire, pipe, want);
      after, pipe := s.wire, s.pipe;
      match s.outcome
      case SpliceFailed => step := Err(());
      case SpliceMoved(n) =>
        buffered := buffered + n;
        step := Ok(Moved(n));
      case WouldBlock => step := Ok(Blocked);
      case SpliceEof =>
        sourceEof := true;
        step := Ok(Eof);
    }

    method DrainTo(wire: Wire) returns (after: Wire, step: Result<Step, ()>)
      modifies this`pipe, this`buffered, this`moved
      ensures Tried(Lane(State(), after), step) == Drain(Lane(old(State()), wire))
    {
      after := wire;
      if buffered == 0 {
        return after, Ok(Blocked);
      }
      var s := SpliceOut(wire, pipe, buffered);
      after, pipe := s.wire, s.pipe;
      match s.outcome
      case SpliceFailed => step := Err(());
      case SpliceMoved(n) =>
        buffered := Max(buffered - n, 0);
        moved := moved + n;
        step := Ok(Moved(n));
      // A pipe with bytes in it cannot be at end of file: "not now".
      case WouldBlock => step := Ok(Blocked);
      case SpliceEof => step := Ok(Blocked);
    }

    /** Half-close the destination once the stream has ended. */
    method FinishTo(wire: Wire) returns (after: Wire)
      modifies this`shutdownSent
      ensures Lane(State(), after) == Finish(Lane(old(State()), wire))
    {
      after := wire;
      if !(sourceEof && buffered == 0) || shutdownSent {
        return;
      }
      shutdownSent := true;
      after := ShutdownWrite(wire);
    }

    method Recycle(pool: PipePool)
      modifies pool`idle, pool`live
      ensures pool.State() == Release(old(pool.State()), pipe, buffered)
    {
      pool.GiveBack(pipe, buffered);
    }
  }
}
