/** One relay pass (`worker.rs`, `step` and the loop of `Worker::relay`): pump
    both directions until neither moves. */
module Pass {
  import opened Basics
  import opened Kernel
  import opened Relay

  /** What one direction's fill-then-drain achieved. */
  datatype Stepped = Stepped(lane: Lane, ok: bool, moved: nat, progress: bool)

  function StepLane(l: Lane, budget: nat): Stepped {
    var f := if budget > 0 then Fill(l, budget) else Tried(l, Ok(Blocked));
    if f.step.Err? then Stepped(f.lane, false, 0, false)
    else
      var d := Drain(f.lane);
      if d.step.Err? then Stepped(d.lane, false, 0, false)
      else
        Stepped(if Finished(d.lane.pump) then Finish(d.lane) else d.lane, true,
                if f.step.value.Moved? then f.step.value.n else 0,
                !f.step.value.Blocked? || d.step.value.Moved?)
  }

  method Step(pump: Pump, wire: Wire, budget: nat)
      returns (after: Wire, result: Result<(nat, bool), ()>)
    modifies pump
    ensures var s := StepLane(Lane(old(pump.State()), wire), budget);
            && Lane(pump.State(), after) == s.lane
            && result == if s.ok then Ok((s.moved, s.progress)) else Err(())
  {
    var moved, progress := 0, false;
    after := wire;
    if budget > 0 {
      var filled;
      after, filled := pump.FillFrom(after, budget);
      match filled {
        case Ok(Moved(n)) => moved, progress := moved + n, true;
        case Ok(Blocked) =>
        case Ok(Eof) => progress := true;
        case Err(_) => return after, Err(());
      }
    }
    var drained;
    after, drained := pump.DrainTo(after);
    match drained {
      case Ok(Moved(_)) => progress := true;
      case Ok(Blocked) =>
      case Ok(Eof) =>
      case Err(_) => return after, Err(());
    }
    if pump.sourceEof && pump.buffered == 0 {
      after := pump.FinishTo(after);
    }
    result := Ok((moved, progress));
  }

  /** Both sockets and both pumps of a relaying flow. */
  datatype Link = Link(client: Sock, upstream: Sock, out: PumpState, back: PumpState, script: seq<Choice>)

  function OutLane(k: Link): Lane { Lane(k.out, Wire(k.client, k.upstream, k.script)) }
  function BackLane(k: Link): Lane { Lane(k.back, Wire(k.upstream, k.client, k.script)) }
  function WithOut(l: Lane, back: PumpState): Link { Link(l.wire.src, l.wire.dst, l.pump, back, l.wire.script) }
  function WithBack(l: Lane, out: PumpState): Link { Link(l.wire.dst, l.wire.src, out, l.pump, l.wire.script) }

  /** A pass in progress. `ok` turns false when a step fails. */
  datatype Run = Run(link: Link, ok: bool, budget: nat, movedOut: nat, movedIn: nat)

  /** One turn of the loop: outbound, then inbound on what is left of the budget. */
  function Turn(r: Run): Run {
    var a := StepLane(OutLane(r.link), r.budget);
    var link1 := WithOut(a.lane, r.link.back);
    if !a.ok then r.(link := link1, ok := false)
    else
      var budget1 := Max(r.budget - a.moved, 0);
      var b := StepLane(BackLane(link1), budget1);
      var link2 := WithBack(b.lane, link1.out);
      if !b.ok then Run(link2, false, budget1, r.movedOut + a.moved, r.movedIn)
      else Run(link2, true, Max(budget1 - b.moved, 0), r.movedOut + a.moved, r.movedIn + b.moved)
  }

  predicate Progressed(r: Run) {
    var a := StepLane(OutLane(r.link), r.budget);
    var b := StepLane(BackLane(WithOut(a.lane, r.link.back)), Max(r.budget - a.moved, 0));
    a.ok && b.ok && (a.progress || b.progress)
  }

  // ---- the measure that makes the loop end ----------------------------------------------

  /** Bytes still to arrive during the pass. */
  function ToArrive(script: seq<Choice>): nat {
    if script == [] then 0 else |script[0].src.bytes| + |script[0].dst.bytes| + ToArrive(script[1..])
  }

  function EofLeft(p: PumpState): nat { if p.sourceEof then 0 else 1 }

  /** Twice the unread bytes (present or yet to arrive), plus the bytes in the
      pipe, plus the end-of-file transition not yet reported. */
  function LaneMeasure(l: Lane): nat {
    2 * (|l.wire.src.unread| + |l.wire.dst.unread| + ToArrive(l.wire.script))
    + |l.pump.pipe.content| + EofLeft(l.pump)
  }

  function Measure(k: Link): nat {
    2 * (|k.client.unread| + |k.upstream.unread| + ToArrive(k.script))
    + |k.out.pipe.content| + |k.back.pipe.content| + EofLeft(k.out) + EofLeft(k.back)
  }

  lemma {:induction false} AdvanceConserves(w: Wire)
    ensures var a := Advanced(w);
      |a.src.unread| + |a.dst.unread| + ToArrive(a.script) <= |w.src.unread| + |w.dst.unread| + ToArrive(w.script)
  {
  }

  lemma {:induction false} FillMeasure(l: Lane, limit: nat)
    ensures var t := Fill(l, limit);
      && LaneMeasure(t.lane) <= LaneMeasure(l)
      && (t.step.Ok? && !t.step.value.Blocked? ==> LaneMeasure(t.lane) < LaneMeasure(l))
  {
    hide ToArrive, Advanced;
    AdvanceConserves(l.wire);
  }

  lemma {:induction false} DrainMeasure(l: Lane)
    ensures var t := Drain(l);
      && LaneMeasure(t.lane) <= LaneMeasure(l)
      && (t.step.Ok? && t.step.value.Moved? ==> LaneMeasure(t.lane) < LaneMeasure(l))
  {
    hide ToArrive, Advanced;
    AdvanceConserves(l.wire);
  }

  lemma {:induction false} StepMeasure(l: Lane, budget: nat)
    ensures var s := StepLane(l, budget);
      && LaneMeasure(s.lane) <= LaneMeasure(l)
      && (s.ok && s.progress ==> LaneMeasure(s.lane) < LaneMeasure(l))
  {
    hide Fill, Drain, ToArrive;
    FillMeasure(l, budget);
    DrainMeasure(if budget > 0 then Fill(l, budget).lane else l);
  }

  /** Every turn that makes progress uses up some of a finite amount of work,
      whatever arrives while the pass runs. */
  lemma {:induction false} TurnMeasure(r: Run)
    ensures Measure(Turn(r).link) <= Measure(r.link)
    ensures Progressed(r) ==> Measure(Turn(r).link) < Measure(r.link)
  {
    hide StepLane, ToArrive;
    var a := StepLane(OutLane(r.link), r.budget);
    StepMeasure(OutLane(r.link), r.budget);
    StepMeasure(BackLane(WithOut(a.lane, r.link.back)), Max(r.budget - a.moved, 0));
  }

  /** The whole pass. */
  function Passed(r: Run): Run
    decreases Measure(r.link)
  {
    TurnMeasure(r);
    if Progressed(r) then Passed(Turn(r)) else Turn(r)
  }

  /** The loop of `relay`: outbound then inbound, until neither gets anywhere. */
  method RunPass(out: Pump, back: Pump, start: Wire, allowance: nat)
      returns (wire: Wire, ok: bool, budget: nat, movedOut: nat, movedIn: nat)
    requires out != back
    modifies out, back
    ensures Run(Link(wire.src, wire.dst, out.State(), back.State(), wire.script), ok, budget, movedOut, movedIn)
         == Passed(Run(Link(start.src, start.dst, old(out.State()), old(back.State()), start.script),
                       true, allowance, 0, 0))
  {
    hide StepLane, Measure;
    wire, ok, budget, movedOut, movedIn := start, true, allowance, 0, 0;
    ghost var begun := Run(Link(start.src, start.dst, out.State(), back.State(), start.script), true, allowance, 0, 0);
    ghost var r := begun;
    var progress := true;
    while progress
      invariant r == Run(Link(wire.src, wire.dst, out.State(), back.State(), wire.script),
                         ok, budget, movedOut, movedIn)
      invariant progress ==> Passed(r) == Passed(begun) && ok
      invariant !progress ==> r == Passed(begun)
      decreases progress, Measure(r.link)
    {
      TurnMeasure(r);
      ghost var next := Turn(r);
      ghost var more := Progressed(r);
      var outbound;
      wire, outbound := Step(out, wire, budget);
      if outbound.Err? {
        ok := false;
        r := next;
        return;
      }
      budget, movedOut := Max(budget - outbound.value.0, 0), movedOut + outbound.value.0;
      var flipped, inbound := Step(back, Wire(wire.dst, wire.src, wire.script), budget);
      wire := Wire(flipped.dst, flipped.src, flipped.script);
      if inbound.Err? {
        ok := false;
        r := next;
        return;
      }
      budget, movedIn := Max(budget - inbound.value.0, 0), movedIn + inbound.value.0;
      progress := outbound.value.1 || inbound.value.1;
      r := next;
      assert progress == more;
    }
  }
}
