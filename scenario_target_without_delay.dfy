/** A target that supports no delay on any qubit: padding adds nothing, and the
    circuit comes back unchanged in either mode. */
module TargetWithoutDelay {
  import opened Circuits
  import opened Timing
  import opened Durations
  import opened Constraints
  import opened Padding
  import Asap
  import Alap

  /** The circuit is well formed. */
  lemma NoDelayWellFormed(c: Circuit)
    requires c.numQubits == 3 && c.numClbits == 0 && |c.ops| == 1
    requires c.ops[0] == Op(Gate("cx"), [1, 2], [], [])
    ensures WellFormed(c)
  {
    assert WellFormedOp(c.ops[0], 3, 0);
  }

  /** ASAP from instruction 0 on, given when each wire is free. */
  lemma NoDelayAsapFrom0(a: Avail, ops: seq<Op>, durs: seq<nat>)
    requires |ops| == 1 && |durs| == 1
    requires ops[0] == Op(Gate("cx"), [1, 2], [], []) && durs[0] == 1000
    requires Get(a, Qubit(0)) == 0 && Get(a, Qubit(1)) == 0 && Get(a, Qubit(2)) == 0
    ensures var r := Asap.RunFrom(a, ops[0..], durs[0..], DefaultLatency);
      r.starts == [0] && Span(r.avail, 3, 0) == 1000
  {
    var p0 := Asap.Step(a, ops[0], durs[0], DefaultLatency);
    assert p0.start == 0 && Get(p0.avail, Qubit(0)) == 0 && Get(p0.avail, Qubit(1)) == 1000 && Get(p0.avail, Qubit(2)) == 1000 by {
      assert QubitWires([1, 2]) == [Qubit(1), Qubit(2)] && MaxOver(a, [Qubit(2)]) == 0 && MaxOver(a, [Qubit(1), Qubit(2)]) == 0;
    }
    Asap.RunFromSteps([a, p0.avail], ops[0..], durs[0..], [0], DefaultLatency);
    assert Span(p0.avail, 3, 0) == 1000 by {
      assert AllWires(3, 0) == [Qubit(0), Qubit(1), Qubit(2)] && MaxOver(p0.avail, [Qubit(2)]) == 1000 && MaxOver(p0.avail, [Qubit(1), Qubit(2)]) == 1000 && MaxOver(p0.avail, [Qubit(0), Qubit(1), Qubit(2)]) == 1000;
    }
  }

  /** ASAP scheduling starts the instructions at [0], and the circuit lasts 1000. */
  lemma NoDelayAsap(c: Circuit, durs: seq<nat>)
    requires c.numQubits == 3 && c.numClbits == 0 && |c.ops| == 1 && |durs| == 1
    requires c.ops[0] == Op(Gate("cx"), [1, 2], [], []) && durs[0] == 1000
    ensures WellFormed(c)
    ensures Asap.Schedule(c, durs, DefaultLatency) == Timing.Schedule([0], durs, 1000)
  {
    NoDelayWellFormed(c);
    WellFormedSchedulable(c);
    Asap.RunIsRunFrom(c.ops, durs, DefaultLatency);
    assert c.ops[0..] == c.ops && durs[0..] == durs;
    NoDelayAsapFrom0(map[], c.ops, durs);
  }

  /** ALAP over the instructions before 1, given when each wire is needed by the later ones. */
  lemma NoDelayAlapTo1(a: Avail, ops: seq<Op>, durs: seq<nat>)
    requires |ops| == 1 && |durs| == 1
    requires ops[0] == Op(Gate("cx"), [1, 2], [], []) && durs[0] == 1000
    requires Get(a, Qubit(0)) == 0 && Get(a, Qubit(1)) == 0 && Get(a, Qubit(2)) == 0
    ensures var r := Alap.RunFrom(a, ops[..1], durs[..1], DefaultLatency);
      r.starts == [0] && Span(r.avail, 3, 0) == 1000
  {
    var p0 := Alap.Step(a, ops[0], durs[0], DefaultLatency);
    assert p0.start == 0 && Get(p0.avail, Qubit(0)) == 0 && Get(p0.avail, Qubit(1)) == 1000 && Get(p0.avail, Qubit(2)) == 1000 by {
      assert QubitWires([1, 2]) == [Qubit(1), Qubit(2)] && MaxOver(a, [Qubit(2)]) == 0 && MaxOver(a, [Qubit(1), Qubit(2)]) == 0;
    }
    Alap.RunFromSteps([p0.avail, a], ops[0..1], durs[0..1], [0], DefaultLatency);
    Alap.RunFromSplit(a, ops, durs, DefaultLatency, 0, 1);
    assert Span(p0.avail, 3, 0) == 1000 by {
      assert AllWires(3, 0) == [Qubit(0), Qubit(1), Qubit(2)] && MaxOver(p0.avail, [Qubit(2)]) == 1000 && MaxOver(p0.avail, [Qubit(1), Qubit(2)]) == 1000 && MaxOver(p0.avail, [Qubit(0), Qubit(1), Qubit(2)]) == 1000;
    }
  }

  /** Start times counted from the beginning. */
  lemma NoDelayAlapFlip(ends: seq<int>, durs: seq<nat>)
    requires ends == [0] && |durs| == 1
    requires durs[0] == 1000
    ensures Alap.Flip(ends, durs, 1000) == [0]
  {
  }
  /** ALAP scheduling starts the instructions at [0], and the circuit lasts 1000. */
  lemma NoDelayAlap(c: Circuit, durs: seq<nat>)
    requires c.numQubits == 3 && c.numClbits == 0 && |c.ops| == 1 && |durs| == 1
    requires c.ops[0] == Op(Gate("cx"), [1, 2], [], []) && durs[0] == 1000
    ensures WellFormed(c)
    ensures Alap.Schedule(c, durs, DefaultLatency) == Timing.Schedule([0], durs, 1000)
  {
    NoDelayWellFormed(c);
    WellFormedSchedulable(c);
    Alap.RunIsRunFrom(c.ops, durs, DefaultLatency);
    assert c.ops[..1] == c.ops && durs[..1] == durs;
    NoDelayAlapTo1(map[], c.ops, durs);
    NoDelayAlapFlip(Alap.Run(c.ops, durs, DefaultLatency).starts, durs);
  }

  /** Padding from instruction 0 on, given each qubit's cursor. */
  lemma NoDelayAsapPadFrom0(cur: Avail, o: seq<Timed>, ops: seq<Op>, starts: seq<int>, durs: seq<nat>)
    requires |ops| == 1 && |starts| == 1 && |durs| == 1
    requires ops[0] == Op(Gate("cx"), [1, 2], [], []) && starts[0] == 0 && durs[0] == 1000
    requires Get(cur, Qubit(0)) == 0 && Get(cur, Qubit(1)) == 0 && Get(cur, Qubit(2)) == 0
    ensures var r := PadFrom(PadState(cur, o), ops[0..], starts[0..], durs[0..], Some(Target(map[("cx", [1, 2]) := 1000], {})));
      r.out == o + [Timed(Op(Gate("cx"), [1, 2], [], []), 0, 1000)] && Get(r.cursor, Qubit(0)) == 0 && Get(r.cursor, Qubit(1)) == 1000 && Get(r.cursor, Qubit(2)) == 1000
  {
    PadFromAt(PadState(cur, o), ops, starts, durs, Some(Target(map[("cx", [1, 2]) := 1000], {})), 0);
    var s0 := PlaceOp(PadState(cur, []), ops[0], starts[0], durs[0], Some(Target(map[("cx", [1, 2]) := 1000], {})));
    assert s0.out == [Timed(Op(Gate("cx"), [1, 2], [], []), 0, 1000)] && Get(s0.cursor, Qubit(0)) == 0 && Get(s0.cursor, Qubit(1)) == 1000 && Get(s0.cursor, Qubit(2)) == 1000;
    PlaceOpOut(cur, o, ops[0], starts[0], durs[0], Some(Target(map[("cx", [1, 2]) := 1000], {})));
    assert ops[1..] == [] && starts[1..] == [] && durs[1..] == [];
  }

  /** The latest end of any instruction. */
  lemma NoDelayAsapPadLatestEnd(starts: seq<int>, durs: seq<nat>)
    requires starts == [0] && |durs| == 1
    requires durs[0] == 1000
    ensures LatestEnd(starts, durs) == 1000
  {
  }

  /** The delays after the last instruction. */
  lemma NoDelayAsapPadEndGaps(cur: Avail)
    requires Get(cur, Qubit(0)) == 0 && Get(cur, Qubit(1)) == 1000 && Get(cur, Qubit(2)) == 1000
    ensures EndGaps(cur, 3, 1000, Some(Target(map[("cx", [1, 2]) := 1000], {}))) == []
  {
    assert true && EndGaps(cur, 1, 1000, Some(Target(map[("cx", [1, 2]) := 1000], {}))) == [] && EndGaps(cur, 2, 1000, Some(Target(map[("cx", [1, 2]) := 1000], {}))) == [];
  }

  /** The padded instructions in order. */
  lemma NoDelayAsapPaddedOut(body: seq<Timed>, tail: seq<Timed>)
    requires body == [] + [Timed(Op(Gate("cx"), [1, 2], [], []), 0, 1000)] && tail == []
    ensures body + tail == [Timed(Op(Gate("cx"), [1, 2], [], []), 0, 1000)]
  {
  }

  /** Padding the ASAP schedule gives these instructions, in this order, and the duration 1000. */
  lemma NoDelayAsapPadded(c: Circuit, durs: seq<nat>)
    requires c.numQubits == 3 && c.numClbits == 0 && |c.ops| == 1 && |durs| == 1
    requires c.ops[0] == Op(Gate("cx"), [1, 2], [], []) && durs[0] == 1000
    ensures Pad(c, Some(StartTimes(Asap.Schedule(c, durs, DefaultLatency))), durs, Some(Target(map[("cx", [1, 2]) := 1000], {})), true) == Success(Padded([Timed(Op(Gate("cx"), [1, 2], [], []), 0, 1000)], 1000))
  {
    NoDelayAsap(c, durs);
    var s := Timing.Schedule([0], durs, 1000);
    NoDelayAsapPadFrom0(map[], [], c.ops, s.starts, durs);
    assert c.ops[0..] == c.ops && s.starts[0..] == s.starts && durs[0..] == durs;
    var st := PadFrom(PadState(map[], []), c.ops, s.starts, durs, Some(Target(map[("cx", [1, 2]) := 1000], {})));
    NoDelayAsapPadLatestEnd(s.starts, durs);
    PadOfSchedule(c, s, Some(Target(map[("cx", [1, 2]) := 1000], {})), true, st, 1000);
    NoDelayAsapPadEndGaps(st.cursor);
    NoDelayAsapPaddedOut(st.out, []);
  }

  /** The padded instructions in order. */
  lemma NoDelayAlapPaddedOut(body: seq<Timed>, tail: seq<Timed>)
    requires body == [] + [Timed(Op(Gate("cx"), [1, 2], [], []), 0, 1000)] && tail == []
    ensures body + tail == [Timed(Op(Gate("cx"), [1, 2], [], []), 0, 1000)]
  {
  }

  /** Padding the ALAP schedule gives these instructions, in this order, and the duration 1000. */
  lemma NoDelayAlapPadded(c: Circuit, durs: seq<nat>)
    requires c.numQubits == 3 && c.numClbits == 0 && |c.ops| == 1 && |durs| == 1
    requires c.ops[0] == Op(Gate("cx"), [1, 2], [], []) && durs[0] == 1000
    ensures Pad(c, Some(StartTimes(Alap.Schedule(c, durs, DefaultLatency))), durs, Some(Target(map[("cx", [1, 2]) := 1000], {})), true) == Success(Padded([Timed(Op(Gate("cx"), [1, 2], [], []), 0, 1000)], 1000))
  {
    NoDelayAlap(c, durs);
    var s := Timing.Schedule([0], durs, 1000);
    NoDelayAsapPadFrom0(map[], [], c.ops, s.starts, durs);
    assert c.ops[0..] == c.ops && s.starts[0..] == s.starts && durs[0..] == durs;
    var st := PadFrom(PadState(map[], []), c.ops, s.starts, durs, Some(Target(map[("cx", [1, 2]) := 1000], {})));
    NoDelayAsapPadLatestEnd(s.starts, durs);
    PadOfSchedule(c, s, Some(Target(map[("cx", [1, 2]) := 1000], {})), true, st, 1000);
    NoDelayAsapPadEndGaps(st.cursor);
    NoDelayAlapPaddedOut(st.out, []);
  }

  /** The duration of each instruction, as the scheduling passes look it up. */
  lemma NoDelayDurations(c: Circuit)
    requires |c.ops| == 1
    requires c.ops[0] == Op(Gate("cx"), [1, 2], [], [])
    ensures AllResolved(map[], FromTarget(Target(map[("cx", [1, 2]) := 1000], {})), c.ops) && DurationsOf(map[], FromTarget(Target(map[("cx", [1, 2]) := 1000], {})), c.ops) == [1000]
  {
    var t := FromTarget(Target(map[("cx", [1, 2]) := 1000], {}));
    assert NodeDuration(map[], t, c.ops[0]) == Some(1000);
    DurationsAre(map[], t, c.ops, [1000]);
  }
}
