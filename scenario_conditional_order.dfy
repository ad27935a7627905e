/** Two conditional gates on the same bit keep their program order: the second
    one, free from time 0 on its own qubit, does not start before the first. */
module ConditionalOrder {
  import opened Circuits
  import opened Timing
  import opened Durations
  import opened Constraints
  import opened Padding
  import Asap
  import Alap

  /** The circuit is well formed. */
  lemma OrderWellFormed(c: Circuit)
    requires c.numQubits == 2 && c.numClbits == 1 && |c.ops| == 3
    requires c.ops[0] == Op(Delay(100), [0], [], [])
    requires c.ops[1] == Op(Gate("x"), [0], [], [0])
    requires c.ops[2] == Op(Gate("x"), [1], [], [0])
    ensures WellFormed(c)
  {
    assert WellFormedOp(c.ops[0], 2, 1);
    assert WellFormedOp(c.ops[1], 2, 1);
    assert WellFormedOp(c.ops[2], 2, 1);
  }

  /** ASAP from instruction 0 on, given when each wire is free. */
  lemma OrderAsapFrom0(a: Avail, ops: seq<Op>, durs: seq<nat>)
    requires |ops| == 3 && |durs| == 3
    requires ops[0] == Op(Delay(100), [0], [], []) && durs[0] == 100
    requires ops[1] == Op(Gate("x"), [0], [], [0]) && durs[1] == 160
    requires ops[2] == Op(Gate("x"), [1], [], [0]) && durs[2] == 160
    requires Get(a, Qubit(0)) == 0 && Get(a, Qubit(1)) == 0 && Get(a, Clbit(0)) == 0
    ensures var r := Asap.RunFrom(a, ops[0..], durs[0..], DefaultLatency);
      r.starts == [0, 100] + ([100]) && Span(r.avail, 2, 1) == 260
  {
    var p0 := Asap.Step(a, ops[0], durs[0], DefaultLatency);
    assert p0.start == 0 && Get(p0.avail, Qubit(0)) == 100 && Get(p0.avail, Qubit(1)) == 0 && Get(p0.avail, Clbit(0)) == 0 by {
      assert QubitWires([0]) == [Qubit(0)] && MaxOver(a, [Qubit(0)]) == 0;
    }
    var p1 := Asap.Step(p0.avail, ops[1], durs[1], DefaultLatency);
    assert p1.start == 100 && Get(p1.avail, Qubit(0)) == 260 && Get(p1.avail, Qubit(1)) == 0 && Get(p1.avail, Clbit(0)) == 100 by {
      assert QubitWires([0]) == [Qubit(0)] && MaxOver(p0.avail, [Qubit(0)]) == 100 && ClbitWires([0]) == [Clbit(0)] && MaxOver(p0.avail, [Clbit(0)]) == 0;
    }
    Asap.RunFromSteps([a, p0.avail, p1.avail], ops[0..2], durs[0..2], [0, 100], DefaultLatency);
    Asap.RunFromSplit(a, ops, durs, DefaultLatency, 0, 2);
    OrderAsapFrom2(p1.avail, ops, durs);
  }

  /** ASAP from instruction 2 on, given when each wire is free. */
  lemma OrderAsapFrom2(a: Avail, ops: seq<Op>, durs: seq<nat>)
    requires |ops| == 3 && |durs| == 3
    requires ops[2] == Op(Gate("x"), [1], [], [0]) && durs[2] == 160
    requires Get(a, Qubit(0)) == 260 && Get(a, Qubit(1)) == 0 && Get(a, Clbit(0)) == 100
    ensures var r := Asap.RunFrom(a, ops[2..], durs[2..], DefaultLatency);
      r.starts == [100] && Span(r.avail, 2, 1) == 260
  {
    var p2 := Asap.Step(a, ops[2], durs[2], DefaultLatency);
    assert p2.start == 100 && Get(p2.avail, Qubit(0)) == 260 && Get(p2.avail, Qubit(1)) == 260 && Get(p2.avail, Clbit(0)) == 100 by {
      assert QubitWires([1]) == [Qubit(1)] && MaxOver(a, [Qubit(1)]) == 0 && ClbitWires([0]) == [Clbit(0)] && MaxOver(a, [Clbit(0)]) == 100;
    }
    Asap.RunFromSteps([a, p2.avail], ops[2..], durs[2..], [100], DefaultLatency);
    assert Span(p2.avail, 2, 1) == 260 by {
      assert AllWires(2, 1) == [Qubit(0), Qubit(1), Clbit(0)] && MaxOver(p2.avail, [Clbit(0)]) == 100 && MaxOver(p2.avail, [Qubit(1), Clbit(0)]) == 260 && MaxOver(p2.avail, [Qubit(0), Qubit(1), Clbit(0)]) == 260;
    }
  }

  /** The start times, gathered. */
  lemma OrderAsapStarts(starts: seq<int>)
    requires starts == [0, 100] + ([100])
    ensures starts == [0, 100, 100]
  {
  }

  /** ASAP scheduling starts the instructions at [0, 100, 100], and the circuit lasts 260. */
  lemma OrderAsap(c: Circuit, durs: seq<nat>)
    requires c.numQubits == 2 && c.numClbits == 1 && |c.ops| == 3 && |durs| == 3
    requires c.ops[0] == Op(Delay(100), [0], [], []) && durs[0] == 100
    requires c.ops[1] == Op(Gate("x"), [0], [], [0]) && durs[1] == 160
    requires c.ops[2] == Op(Gate("x"), [1], [], [0]) && durs[2] == 160
    ensures WellFormed(c)
    ensures Asap.Schedule(c, durs, DefaultLatency) == Timing.Schedule([0, 100, 100], durs, 260)
  {
    OrderWellFormed(c);
    WellFormedSchedulable(c);
    Asap.RunIsRunFrom(c.ops, durs, DefaultLatency);
    assert c.ops[0..] == c.ops && durs[0..] == durs;
    OrderAsapFrom0(map[], c.ops, durs);
    OrderAsapStarts(Asap.Run(c.ops, durs, DefaultLatency).starts);
  }

  /** Padding from instruction 0 on, given each qubit's cursor. */
  lemma OrderAsapPadFrom0(cur: Avail, o: seq<Timed>, ops: seq<Op>, starts: seq<int>, durs: seq<nat>)
    requires |ops| == 3 && |starts| == 3 && |durs| == 3
    requires ops[0] == Op(Delay(100), [0], [], []) && starts[0] == 0 && durs[0] == 100
    requires ops[1] == Op(Gate("x"), [0], [], [0]) && starts[1] == 100 && durs[1] == 160
    requires ops[2] == Op(Gate("x"), [1], [], [0]) && starts[2] == 100 && durs[2] == 160
    requires Get(cur, Qubit(0)) == 0 && Get(cur, Qubit(1)) == 0
    ensures var r := PadFrom(PadState(cur, o), ops[0..], starts[0..], durs[0..], None);
      r.out == (o + [Idle(0, 0, 100), Timed(Op(Gate("x"), [0], [], [0]), 100, 160)]) + [Idle(1, 0, 100), Timed(Op(Gate("x"), [1], [], [0]), 100, 160)] && Get(r.cursor, Qubit(0)) == 260 && Get(r.cursor, Qubit(1)) == 260
  {
    PadFromAt(PadState(cur, o), ops, starts, durs, None, 0);
    OrderAsapPadFrom1(cur, o, ops, starts, durs);
  }

  /** Padding from instruction 1 on, given each qubit's cursor. */
  lemma OrderAsapPadFrom1(cur: Avail, o: seq<Timed>, ops: seq<Op>, starts: seq<int>, durs: seq<nat>)
    requires |ops| == 3 && |starts| == 3 && |durs| == 3
    requires ops[1] == Op(Gate("x"), [0], [], [0]) && starts[1] == 100 && durs[1] == 160
    requires ops[2] == Op(Gate("x"), [1], [], [0]) && starts[2] == 100 && durs[2] == 160
    requires Get(cur, Qubit(0)) == 0 && Get(cur, Qubit(1)) == 0
    ensures var r := PadFrom(PadState(cur, o), ops[1..], starts[1..], durs[1..], None);
      r.out == (o + [Idle(0, 0, 100), Timed(Op(Gate("x"), [0], [], [0]), 100, 160)]) + [Idle(1, 0, 100), Timed(Op(Gate("x"), [1], [], [0]), 100, 160)] && Get(r.cursor, Qubit(0)) == 260 && Get(r.cursor, Qubit(1)) == 260
  {
    PadFromAt(PadState(cur, o), ops, starts, durs, None, 1);
    var s1 := PlaceOp(PadState(cur, []), ops[1], starts[1], durs[1], None);
    assert s1.out == [Idle(0, 0, 100), Timed(Op(Gate("x"), [0], [], [0]), 100, 160)] && Get(s1.cursor, Qubit(0)) == 260 && Get(s1.cursor, Qubit(1)) == 0;
    PlaceOpOut(cur, o, ops[1], starts[1], durs[1], None);
    OrderAsapPadFrom2(s1.cursor, o + [Idle(0, 0, 100), Timed(Op(Gate("x"), [0], [], [0]), 100, 160)], ops, starts, durs);
  }

  /** Padding from instruction 2 on, given each qubit's cursor. */
  lemma OrderAsapPadFrom2(cur: Avail, o: seq<Timed>, ops: seq<Op>, starts: seq<int>, durs: seq<nat>)
    requires |ops| == 3 && |starts| == 3 && |durs| == 3
    requires ops[2] == Op(Gate("x"), [1], [], [0]) && starts[2] == 100 && durs[2] == 160
    requires Get(cur, Qubit(0)) == 260 && Get(cur, Qubit(1)) == 0
    ensures var r := PadFrom(PadState(cur, o), ops[2..], starts[2..], durs[2..], None);
      r.out == o + [Idle(1, 0, 100), Timed(Op(Gate("x"), [1], [], [0]), 100, 160)] && Get(r.cursor, Qubit(0)) == 260 && Get(r.cursor, Qubit(1)) == 260
  {
    PadFromAt(PadState(cur, o), ops, starts, durs, None, 2);
    var s2 := PlaceOp(PadState(cur, []), ops[2], starts[2], durs[2], None);
    assert s2.out == [Idle(1, 0, 100), Timed(Op(Gate("x"), [1], [], [0]), 100, 160)] && Get(s2.cursor, Qubit(0)) == 260 && Get(s2.cursor, Qubit(1)) == 260;
    PlaceOpOut(cur, o, ops[2], starts[2], durs[2], None);
    assert ops[3..] == [] && starts[3..] == [] && durs[3..] == [];
  }

  /** The latest end of any instruction. */
  lemma OrderAsapPadLatestEnd(starts: seq<int>, durs: seq<nat>)
    requires starts == [0, 100, 100] && |durs| == 3
    requires durs[0] == 100
    requires durs[1] == 160
    requires durs[2] == 160
    ensures LatestEnd(starts, durs) == 260
  {
  }

  /** The delays after the last instruction. */
  lemma OrderAsapPadEndGaps(cur: Avail)
    requires Get(cur, Qubit(0)) == 260 && Get(cur, Qubit(1)) == 260
    ensures EndGaps(cur, 2, 260, None) == []
  {
    assert true && EndGaps(cur, 1, 260, None) == [];
  }

  /** The padded instructions in order. */
  lemma OrderAsapPaddedOut(body: seq<Timed>, tail: seq<Timed>)
    requires body == ([] + [Idle(0, 0, 100), Timed(Op(Gate("x"), [0], [], [0]), 100, 160)]) + [Idle(1, 0, 100), Timed(Op(Gate("x"), [1], [], [0]), 100, 160)] && tail == []
    ensures body + tail == [Idle(0, 0, 100), Timed(Op(Gate("x"), [0], [], [0]), 100, 160), Idle(1, 0, 100), Timed(Op(Gate("x"), [1], [], [0]), 100, 160)]
  {
  }

  /** Padding the ASAP schedule gives these instructions, in this order, and the duration 260. */
  lemma OrderAsapPadded(c: Circuit, durs: seq<nat>)
    requires c.numQubits == 2 && c.numClbits == 1 && |c.ops| == 3 && |durs| == 3
    requires c.ops[0] == Op(Delay(100), [0], [], []) && durs[0] == 100
    requires c.ops[1] == Op(Gate("x"), [0], [], [0]) && durs[1] == 160
    requires c.ops[2] == Op(Gate("x"), [1], [], [0]) && durs[2] == 160
    ensures Pad(c, Some(StartTimes(Asap.Schedule(c, durs, DefaultLatency))), durs, None, true) == Success(Padded([Idle(0, 0, 100), Timed(Op(Gate("x"), [0], [], [0]), 100, 160), Idle(1, 0, 100), Timed(Op(Gate("x"), [1], [], [0]), 100, 160)], 260))
  {
    OrderAsap(c, durs);
    var s := Timing.Schedule([0, 100, 100], durs, 260);
    OrderAsapPadFrom0(map[], [], c.ops, s.starts, durs);
    assert c.ops[0..] == c.ops && s.starts[0..] == s.starts && durs[0..] == durs;
    var st := PadFrom(PadState(map[], []), c.ops, s.starts, durs, None);
    OrderAsapPadLatestEnd(s.starts, durs);
    PadOfSchedule(c, s, None, true, st, 260);
    OrderAsapPadEndGaps(st.cursor);
    OrderAsapPaddedOut(st.out, []);
  }

  /** The duration of each instruction, as the scheduling passes look it up. */
  lemma OrderDurations(c: Circuit)
    requires |c.ops| == 3
    requires c.ops[0] == Op(Delay(100), [0], [], [])
    requires c.ops[1] == Op(Gate("x"), [0], [], [0])
    requires c.ops[2] == Op(Gate("x"), [1], [], [0])
    ensures AllResolved(map[], FromEntries([Entry("x", None, 160)]), c.ops) && DurationsOf(map[], FromEntries([Entry("x", None, 160)]), c.ops) == [100, 160, 160]
  {
    var t := FromEntries([Entry("x", None, 160)]);
    assert NodeDuration(map[], t, c.ops[0]) == Some(100);
    assert NodeDuration(map[], t, c.ops[1]) == Some(160);
    assert NodeDuration(map[], t, c.ops[2]) == Some(160);
    DurationsAre(map[], t, c.ops, [100, 160, 160]);
  }
}
