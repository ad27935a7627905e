/** Without filling the very end, the circuit comes back unchanged: the idle
    qubit after its X gate gets no trailing delay. */
module NoPadAtEnd {
  import opened Circuits
  import opened Timing
  import opened Durations
  import opened Constraints
  import opened Padding
  import Asap
  import Alap

  /** The circuit is well formed. */
  lemma OpenWellFormed(c: Circuit)
    requires c.numQubits == 2 && c.numClbits == 1 && |c.ops| == 3
    requires c.ops[0] == Op(Delay(100), [0], [], [])
    requires c.ops[1] == Op(Gate("x"), [1], [], [])
    requires c.ops[2] == Op(Measure, [0], [0], [])
    ensures WellFormed(c)
  {
    assert WellFormedOp(c.ops[0], 2, 1);
    assert WellFormedOp(c.ops[1], 2, 1);
    assert WellFormedOp(c.ops[2], 2, 1);
  }

  /** ASAP from instruction 0 on, given when each wire is free. */
  lemma OpenAsapFrom0(a: Avail, ops: seq<Op>, durs: seq<nat>)
    requires |ops| == 3 && |durs| == 3
    requires ops[0] == Op(Delay(100), [0], [], []) && durs[0] == 100
    requires ops[1] == Op(Gate("x"), [1], [], []) && durs[1] == 160
    requires ops[2] == Op(Measure, [0], [0], []) && durs[2] == 1000
    requires Get(a, Qubit(0)) == 0 && Get(a, Qubit(1)) == 0 && Get(a, Clbit(0)) == 0
    ensures var r := Asap.RunFrom(a, ops[0..], durs[0..], DefaultLatency);
      r.starts == [0, 0] + ([100]) && Span(r.avail, 2, 1) == 1100
  {
    var p0 := Asap.Step(a, ops[0], durs[0], DefaultLatency);
    assert p0.start == 0 && Get(p0.avail, Qubit(0)) == 100 && Get(p0.avail, Qubit(1)) == 0 && Get(p0.avail, Clbit(0)) == 0 by {
      assert QubitWires([0]) == [Qubit(0)] && MaxOver(a, [Qubit(0)]) == 0;
    }
    var p1 := Asap.Step(p0.avail, ops[1], durs[1], DefaultLatency);
    assert p1.start == 0 && Get(p1.avail, Qubit(0)) == 100 && Get(p1.avail, Qubit(1)) == 160 && Get(p1.avail, Clbit(0)) == 0 by {
      assert QubitWires([1]) == [Qubit(1)] && MaxOver(p0.avail, [Qubit(1)]) == 0;
    }
    Asap.RunFromSteps([a, p0.avail, p1.avail], ops[0..2], durs[0..2], [0, 0], DefaultLatency);
    Asap.RunFromSplit(a, ops, durs, DefaultLatency, 0, 2);
    OpenAsapFrom2(p1.avail, ops, durs);
  }

  /** ASAP from instruction 2 on, given when each wire is free. */
  lemma OpenAsapFrom2(a: Avail, ops: seq<Op>, durs: seq<nat>)
    requires |ops| == 3 && |durs| == 3
    requires ops[2] == Op(Measure, [0], [0], []) && durs[2] == 1000
    requires Get(a, Qubit(0)) == 100 && Get(a, Qubit(1)) == 160 && Get(a, Clbit(0)) == 0
    ensures var r := Asap.RunFrom(a, ops[2..], durs[2..], DefaultLatency);
      r.starts == [100] && Span(r.avail, 2, 1) == 1100
  {
    var p2 := Asap.Step(a, ops[2], durs[2], DefaultLatency);
    assert p2.start == 100 && Get(p2.avail, Qubit(0)) == 1100 && Get(p2.avail, Qubit(1)) == 160 && Get(p2.avail, Clbit(0)) == 1100 by {
      assert QubitWires([0]) == [Qubit(0)] && MaxOver(a, [Qubit(0)]) == 100 && ClbitWires([0]) == [Clbit(0)] && MaxOver(a, [Clbit(0)]) == 0;
    }
    Asap.RunFromSteps([a, p2.avail], ops[2..], durs[2..], [100], DefaultLatency);
    assert Span(p2.avail, 2, 1) == 1100 by {
      assert AllWires(2, 1) == [Qubit(0), Qubit(1), Clbit(0)] && MaxOver(p2.avail, [Clbit(0)]) == 1100 && MaxOver(p2.avail, [Qubit(1), Clbit(0)]) == 1100 && MaxOver(p2.avail, [Qubit(0), Qubit(1), Clbit(0)]) == 1100;
    }
  }

  /** The start times, gathered. */
  lemma OpenAsapStarts(starts: seq<int>)
    requires starts == [0, 0] + ([100])
    ensures starts == [0, 0, 100]
  {
  }

  /** ASAP scheduling starts the instructions at [0, 0, 100], and the circuit lasts 1100. */
  lemma OpenAsap(c: Circuit, durs: seq<nat>)
    requires c.numQubits == 2 && c.numClbits == 1 && |c.ops| == 3 && |durs| == 3
    requires c.ops[0] == Op(Delay(100), [0], [], []) && durs[0] == 100
    requires c.ops[1] == Op(Gate("x"), [1], [], []) && durs[1] == 160
    requires c.ops[2] == Op(Measure, [0], [0], []) && durs[2] == 1000
    ensures WellFormed(c)
    ensures Asap.Schedule(c, durs, DefaultLatency) == Timing.Schedule([0, 0, 100], durs, 1100)
  {
    OpenWellFormed(c);
    WellFormedSchedulable(c);
    Asap.RunIsRunFrom(c.ops, durs, DefaultLatency);
    assert c.ops[0..] == c.ops && durs[0..] == durs;
    OpenAsapFrom0(map[], c.ops, durs);
    OpenAsapStarts(Asap.Run(c.ops, durs, DefaultLatency).starts);
  }

  /** Padding from instruction 0 on, given each qubit's cursor. */
  lemma OpenAsapPadFrom0(cur: Avail, o: seq<Timed>, ops: seq<Op>, starts: seq<int>, durs: seq<nat>)
    requires |ops| == 3 && |starts| == 3 && |durs| == 3
    requires ops[0] == Op(Delay(100), [0], [], []) && starts[0] == 0 && durs[0] == 100
    requires ops[1] == Op(Gate("x"), [1], [], []) && starts[1] == 0 && durs[1] == 160
    requires ops[2] == Op(Measure, [0], [0], []) && starts[2] == 100 && durs[2] == 1000
    requires Get(cur, Qubit(0)) == 0 && Get(cur, Qubit(1)) == 0
    ensures var r := PadFrom(PadState(cur, o), ops[0..], starts[0..], durs[0..], None);
      r.out == (o + [Timed(Op(Gate("x"), [1], [], []), 0, 160)]) + [Idle(0, 0, 100), Timed(Op(Measure, [0], [0], []), 100, 1000)] && Get(r.cursor, Qubit(0)) == 1100 && Get(r.cursor, Qubit(1)) == 160
  {
    PadFromAt(PadState(cur, o), ops, starts, durs, None, 0);
    OpenAsapPadFrom1(cur, o, ops, starts, durs);
  }

  /** Padding from instruction 1 on, given each qubit's cursor. */
  lemma OpenAsapPadFrom1(cur: Avail, o: seq<Timed>, ops: seq<Op>, starts: seq<int>, durs: seq<nat>)
    requires |ops| == 3 && |starts| == 3 && |durs| == 3
    requires ops[1] == Op(Gate("x"), [1], [], []) && starts[1] == 0 && durs[1] == 160
    requires ops[2] == Op(Measure, [0], [0], []) && starts[2] == 100 && durs[2] == 1000
    requires Get(cur, Qubit(0)) == 0 && Get(cur, Qubit(1)) == 0
    ensures var r := PadFrom(PadState(cur, o), ops[1..], starts[1..], durs[1..], None);
      r.out == (o + [Timed(Op(Gate("x"), [1], [], []), 0, 160)]) + [Idle(0, 0, 100), Timed(Op(Measure, [0], [0], []), 100, 1000)] && Get(r.cursor, Qubit(0)) == 1100 && Get(r.cursor, Qubit(1)) == 160
  {
    PadFromAt(PadState(cur, o), ops, starts, durs, None, 1);
    var s1 := PlaceOp(PadState(cur, []), ops[1], starts[1], durs[1], None);
    assert s1.out == [Timed(Op(Gate("x"), [1], [], []), 0, 160)] && Get(s1.cursor, Qubit(0)) == 0 && Get(s1.cursor, Qubit(1)) == 160;
    PlaceOpOut(cur, o, ops[1], starts[1], durs[1], None);
    OpenAsapPadFrom2(s1.cursor, o + [Timed(Op(Gate("x"), [1], [], []), 0, 160)], ops, starts, durs);
  }

  /** Padding from instruction 2 on, given each qubit's cursor. */
  lemma OpenAsapPadFrom2(cur: Avail, o: seq<Timed>, ops: seq<Op>, starts: seq<int>, durs: seq<nat>)
    requires |ops| == 3 && |starts| == 3 && |durs| == 3
    requires ops[2] == Op(Measure, [0], [0], []) && starts[2] == 100 && durs[2] == 1000
    requires Get(cur, Qubit(0)) == 0 && Get(cur, Qubit(1)) == 160
    ensures var r := PadFrom(PadState(cur, o), ops[2..], starts[2..], durs[2..], None);
      r.out == o + [Idle(0, 0, 100), Timed(Op(Measure, [0], [0], []), 100, 1000)] && Get(r.cursor, Qubit(0)) == 1100 && Get(r.cursor, Qubit(1)) == 160
  {
    PadFromAt(PadState(cur, o), ops, starts, durs, None, 2);
    var s2 := PlaceOp(PadState(cur, []), ops[2], starts[2], durs[2], None);
    assert s2.out == [Idle(0, 0, 100), Timed(Op(Measure, [0], [0], []), 100, 1000)] && Get(s2.cursor, Qubit(0)) == 1100 && Get(s2.cursor, Qubit(1)) == 160;
    PlaceOpOut(cur, o, ops[2], starts[2], durs[2], None);
    assert ops[3..] == [] && starts[3..] == [] && durs[3..] == [];
  }

  /** The latest end of any instruction. */
  lemma OpenAsapPadLatestEnd(starts: seq<int>, durs: seq<nat>)
    requires starts == [0, 0, 100] && |durs| == 3
    requires durs[0] == 100
    requires durs[1] == 160
    requires durs[2] == 1000
    ensures LatestEnd(starts, durs) == 1100
  {
  }

  /** The padded instructions in order. */
  lemma OpenAsapPaddedOut(body: seq<Timed>, tail: seq<Timed>)
    requires body == ([] + [Timed(Op(Gate("x"), [1], [], []), 0, 160)]) + [Idle(0, 0, 100), Timed(Op(Measure, [0], [0], []), 100, 1000)] && tail == []
    ensures body + tail == [Timed(Op(Gate("x"), [1], [], []), 0, 160), Idle(0, 0, 100), Timed(Op(Measure, [0], [0], []), 100, 1000)]
  {
  }

  /** Padding the ASAP schedule gives these instructions, in this order, and the duration 1100. */
  lemma OpenAsapPadded(c: Circuit, durs: seq<nat>)
    requires c.numQubits == 2 && c.numClbits == 1 && |c.ops| == 3 && |durs| == 3
    requires c.ops[0] == Op(Delay(100), [0], [], []) && durs[0] == 100
    requires c.ops[1] == Op(Gate("x"), [1], [], []) && durs[1] == 160
    requires c.ops[2] == Op(Measure, [0], [0], []) && durs[2] == 1000
    ensures Pad(c, Some(StartTimes(Asap.Schedule(c, durs, DefaultLatency))), durs, None, false) == Success(Padded([Timed(Op(Gate("x"), [1], [], []), 0, 160), Idle(0, 0, 100), Timed(Op(Measure, [0], [0], []), 100, 1000)], 1100))
  {
    OpenAsap(c, durs);
    var s := Timing.Schedule([0, 0, 100], durs, 1100);
    OpenAsapPadFrom0(map[], [], c.ops, s.starts, durs);
    assert c.ops[0..] == c.ops && s.starts[0..] == s.starts && durs[0..] == durs;
    var st := PadFrom(PadState(map[], []), c.ops, s.starts, durs, None);
    OpenAsapPadLatestEnd(s.starts, durs);
    PadOfSchedule(c, s, None, false, st, 1100);
    OpenAsapPaddedOut(st.out, []);
  }

  /** The duration of each instruction, as the scheduling passes look it up. */
  lemma OpenDurations(c: Circuit)
    requires |c.ops| == 3
    requires c.ops[0] == Op(Delay(100), [0], [], [])
    requires c.ops[1] == Op(Gate("x"), [1], [], [])
    requires c.ops[2] == Op(Measure, [0], [0], [])
    ensures AllResolved(map[], FromEntries([Entry("x", None, 160), Entry("measure", None, 1000)]), c.ops) && DurationsOf(map[], FromEntries([Entry("x", None, 160), Entry("measure", None, 1000)]), c.ops) == [100, 160, 1000]
  {
    var t := FromEntries([Entry("x", None, 160), Entry("measure", None, 1000)]);
    assert NodeDuration(map[], t, c.ops[0]) == Some(100);
    assert NodeDuration(map[], t, c.ops[1]) == Some(160);
    assert NodeDuration(map[], t, c.ops[2]) == Some(1000);
    DurationsAre(map[], t, c.ops, [100, 160, 1000]);
  }
}
