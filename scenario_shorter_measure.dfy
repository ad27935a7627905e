/** A shorter measure after a longer one that writes the same bit starts when
    the longer one has ended, so the two writes keep their order. */
module ShorterMeasure {
  import opened Circuits
  import opened Timing
  import opened Durations
  import opened Constraints
  import opened Padding
  import Asap
  import Alap

  /** The circuit is well formed. */
  lemma ShortWellFormed(c: Circuit)
    requires c.numQubits == 2 && c.numClbits == 1 && |c.ops| == 2
    requires c.ops[0] == Op(Measure, [0], [0], [])
    requires c.ops[1] == Op(Measure, [1], [0], [])
    ensures WellFormed(c)
  {
    assert WellFormedOp(c.ops[0], 2, 1);
    assert WellFormedOp(c.ops[1], 2, 1);
  }

  /** ASAP from instruction 0 on, given when each wire is free. */
  lemma ShortAsapFrom0(a: Avail, ops: seq<Op>, durs: seq<nat>)
    requires |ops| == 2 && |durs| == 2
    requires ops[0] == Op(Measure, [0], [0], []) && durs[0] == 1000
    requires ops[1] == Op(Measure, [1], [0], []) && durs[1] == 700
    requires Get(a, Qubit(0)) == 0 && Get(a, Qubit(1)) == 0 && Get(a, Clbit(0)) == 0
    ensures var r := Asap.RunFrom(a, ops[0..], durs[0..], DefaultLatency);
      r.starts == [0, 1000] && Span(r.avail, 2, 1) == 1700
  {
    var p0 := Asap.Step(a, ops[0], durs[0], DefaultLatency);
    assert p0.start == 0 && Get(p0.avail, Qubit(0)) == 1000 && Get(p0.avail, Qubit(1)) == 0 && Get(p0.avail, Clbit(0)) == 1000 by {
      assert QubitWires([0]) == [Qubit(0)] && MaxOver(a, [Qubit(0)]) == 0 && ClbitWires([0]) == [Clbit(0)] && MaxOver(a, [Clbit(0)]) == 0;
    }
    var p1 := Asap.Step(p0.avail, ops[1], durs[1], DefaultLatency);
    assert p1.start == 1000 && Get(p1.avail, Qubit(0)) == 1000 && Get(p1.avail, Qubit(1)) == 1700 && Get(p1.avail, Clbit(0)) == 1700 by {
      assert QubitWires([1]) == [Qubit(1)] && MaxOver(p0.avail, [Qubit(1)]) == 0 && ClbitWires([0]) == [Clbit(0)] && MaxOver(p0.avail, [Clbit(0)]) == 1000;
    }
    Asap.RunFromSteps([a, p0.avail, p1.avail], ops[0..], durs[0..], [0, 1000], DefaultLatency);
    assert Span(p1.avail, 2, 1) == 1700 by {
      assert AllWires(2, 1) == [Qubit(0), Qubit(1), Clbit(0)] && MaxOver(p1.avail, [Clbit(0)]) == 1700 && MaxOver(p1.avail, [Qubit(1), Clbit(0)]) == 1700 && MaxOver(p1.avail, [Qubit(0), Qubit(1), Clbit(0)]) == 1700;
    }
  }

  /** ASAP scheduling starts the instructions at [0, 1000], and the circuit lasts 1700. */
  lemma ShortAsap(c: Circuit, durs: seq<nat>)
    requires c.numQubits == 2 && c.numClbits == 1 && |c.ops| == 2 && |durs| == 2
    requires c.ops[0] == Op(Measure, [0], [0], []) && durs[0] == 1000
    requires c.ops[1] == Op(Measure, [1], [0], []) && durs[1] == 700
    ensures WellFormed(c)
    ensures Asap.Schedule(c, durs, DefaultLatency) == Timing.Schedule([0, 1000], durs, 1700)
  {
    ShortWellFormed(c);
    WellFormedSchedulable(c);
    Asap.RunIsRunFrom(c.ops, durs, DefaultLatency);
    assert c.ops[0..] == c.ops && durs[0..] == durs;
    ShortAsapFrom0(map[], c.ops, durs);
  }

  /** ALAP over the instructions before 2, given when each wire is needed by the later ones. */
  lemma ShortAlapTo2(a: Avail, ops: seq<Op>, durs: seq<nat>)
    requires |ops| == 2 && |durs| == 2
    requires ops[0] == Op(Measure, [0], [0], []) && durs[0] == 1000
    requires ops[1] == Op(Measure, [1], [0], []) && durs[1] == 700
    requires Get(a, Qubit(0)) == 0 && Get(a, Qubit(1)) == 0 && Get(a, Clbit(0)) == 0
    ensures var r := Alap.RunFrom(a, ops[..2], durs[..2], DefaultLatency);
      r.starts == [700, 0] && Span(r.avail, 2, 1) == 1700
  {
    var p1 := Alap.Step(a, ops[1], durs[1], DefaultLatency);
    assert p1.start == 0 && Get(p1.avail, Qubit(0)) == 0 && Get(p1.avail, Qubit(1)) == 700 && Get(p1.avail, Clbit(0)) == 700 by {
      assert QubitWires([1]) == [Qubit(1)] && MaxOver(a, [Qubit(1)]) == 0 && ClbitWires([0]) == [Clbit(0)] && MaxOver(a, [Clbit(0)]) == 0;
    }
    var p0 := Alap.Step(p1.avail, ops[0], durs[0], DefaultLatency);
    assert p0.start == 700 && Get(p0.avail, Qubit(0)) == 1700 && Get(p0.avail, Qubit(1)) == 700 && Get(p0.avail, Clbit(0)) == 1700 by {
      assert QubitWires([0]) == [Qubit(0)] && MaxOver(p1.avail, [Qubit(0)]) == 0 && ClbitWires([0]) == [Clbit(0)] && MaxOver(p1.avail, [Clbit(0)]) == 700;
    }
    Alap.RunFromSteps([p0.avail, p1.avail, a], ops[0..2], durs[0..2], [700, 0], DefaultLatency);
    Alap.RunFromSplit(a, ops, durs, DefaultLatency, 0, 2);
    assert Span(p0.avail, 2, 1) == 1700 by {
      assert AllWires(2, 1) == [Qubit(0), Qubit(1), Clbit(0)] && MaxOver(p0.avail, [Clbit(0)]) == 1700 && MaxOver(p0.avail, [Qubit(1), Clbit(0)]) == 1700 && MaxOver(p0.avail, [Qubit(0), Qubit(1), Clbit(0)]) == 1700;
    }
  }

  /** Start times counted from the beginning. */
  lemma ShortAlapFlip(ends: seq<int>, durs: seq<nat>)
    requires ends == [700, 0] && |durs| == 2
    requires durs[0] == 1000
    requires durs[1] == 700
    ensures Alap.Flip(ends, durs, 1700) == [0, 1000]
  {
  }
  /** ALAP scheduling starts the instructions at [0, 1000], and the circuit lasts 1700. */
  lemma ShortAlap(c: Circuit, durs: seq<nat>)
    requires c.numQubits == 2 && c.numClbits == 1 && |c.ops| == 2 && |durs| == 2
    requires c.ops[0] == Op(Measure, [0], [0], []) && durs[0] == 1000
    requires c.ops[1] == Op(Measure, [1], [0], []) && durs[1] == 700
    ensures WellFormed(c)
    ensures Alap.Schedule(c, durs, DefaultLatency) == Timing.Schedule([0, 1000], durs, 1700)
  {
    ShortWellFormed(c);
    WellFormedSchedulable(c);
    Alap.RunIsRunFrom(c.ops, durs, DefaultLatency);
    assert c.ops[..2] == c.ops && durs[..2] == durs;
    ShortAlapTo2(map[], c.ops, durs);
    ShortAlapFlip(Alap.Run(c.ops, durs, DefaultLatency).starts, durs);
  }

  /** Padding from instruction 0 on, given each qubit's cursor. */
  lemma ShortAsapPadFrom0(cur: Avail, o: seq<Timed>, ops: seq<Op>, starts: seq<int>, durs: seq<nat>)
    requires |ops| == 2 && |starts| == 2 && |durs| == 2
    requires ops[0] == Op(Measure, [0], [0], []) && starts[0] == 0 && durs[0] == 1000
    requires ops[1] == Op(Measure, [1], [0], []) && starts[1] == 1000 && durs[1] == 700
    requires Get(cur, Qubit(0)) == 0 && Get(cur, Qubit(1)) == 0
    ensures var r := PadFrom(PadState(cur, o), ops[0..], starts[0..], durs[0..], None);
      r.out == (o + [Timed(Op(Measure, [0], [0], []), 0, 1000)]) + [Idle(1, 0, 1000), Timed(Op(Measure, [1], [0], []), 1000, 700)] && Get(r.cursor, Qubit(0)) == 1000 && Get(r.cursor, Qubit(1)) == 1700
  {
    PadFromAt(PadState(cur, o), ops, starts, durs, None, 0);
    var s0 := PlaceOp(PadState(cur, []), ops[0], starts[0], durs[0], None);
    assert s0.out == [Timed(Op(Measure, [0], [0], []), 0, 1000)] && Get(s0.cursor, Qubit(0)) == 1000 && Get(s0.cursor, Qubit(1)) == 0;
    PlaceOpOut(cur, o, ops[0], starts[0], durs[0], None);
    ShortAsapPadFrom1(s0.cursor, o + [Timed(Op(Measure, [0], [0], []), 0, 1000)], ops, starts, durs);
  }

  /** Padding from instruction 1 on, given each qubit's cursor. */
  lemma ShortAsapPadFrom1(cur: Avail, o: seq<Timed>, ops: seq<Op>, starts: seq<int>, durs: seq<nat>)
    requires |ops| == 2 && |starts| == 2 && |durs| == 2
    requires ops[1] == Op(Measure, [1], [0], []) && starts[1] == 1000 && durs[1] == 700
    requires Get(cur, Qubit(0)) == 1000 && Get(cur, Qubit(1)) == 0
    ensures var r := PadFrom(PadState(cur, o), ops[1..], starts[1..], durs[1..], None);
      r.out == o + [Idle(1, 0, 1000), Timed(Op(Measure, [1], [0], []), 1000, 700)] && Get(r.cursor, Qubit(0)) == 1000 && Get(r.cursor, Qubit(1)) == 1700
  {
    PadFromAt(PadState(cur, o), ops, starts, durs, None, 1);
    var s1 := PlaceOp(PadState(cur, []), ops[1], starts[1], durs[1], None);
    assert s1.out == [Idle(1, 0, 1000), Timed(Op(Measure, [1], [0], []), 1000, 700)] && Get(s1.cursor, Qubit(0)) == 1000 && Get(s1.cursor, Qubit(1)) == 1700;
    PlaceOpOut(cur, o, ops[1], starts[1], durs[1], None);
    assert ops[2..] == [] && starts[2..] == [] && durs[2..] == [];
  }

  /** The latest end of any instruction. */
  lemma ShortAsapPadLatestEnd(starts: seq<int>, durs: seq<nat>)
    requires starts == [0, 1000] && |durs| == 2
    requires durs[0] == 1000
    requires durs[1] == 700
    ensures LatestEnd(starts, durs) == 1700
  {
  }

  /** The delays after the last instruction. */
  lemma ShortAsapPadEndGaps(cur: Avail)
    requires Get(cur, Qubit(0)) == 1000 && Get(cur, Qubit(1)) == 1700
    ensures EndGaps(cur, 2, 1700, None) == [Idle(0, 1000, 1700)]
  {
    assert true && EndGaps(cur, 1, 1700, None) == [Idle(0, 1000, 1700)];
  }

  /** The padded instructions in order. */
  lemma ShortAsapPaddedOut(body: seq<Timed>, tail: seq<Timed>)
    requires body == ([] + [Timed(Op(Measure, [0], [0], []), 0, 1000)]) + [Idle(1, 0, 1000), Timed(Op(Measure, [1], [0], []), 1000, 700)] && tail == [Idle(0, 1000, 1700)]
    ensures body + tail == [Timed(Op(Measure, [0], [0], []), 0, 1000), Idle(1, 0, 1000), Timed(Op(Measure, [1], [0], []), 1000, 700), Idle(0, 1000, 1700)]
  {
  }

  /** Padding the ASAP schedule gives these instructions, in this order, and the duration 1700. */
  lemma ShortAsapPadded(c: Circuit, durs: seq<nat>)
    requires c.numQubits == 2 && c.numClbits == 1 && |c.ops| == 2 && |durs| == 2
    requires c.ops[0] == Op(Measure, [0], [0], []) && durs[0] == 1000
    requires c.ops[1] == Op(Measure, [1], [0], []) && durs[1] == 700
    ensures Pad(c, Some(StartTimes(Asap.Schedule(c, durs, DefaultLatency))), durs, None, true) == Success(Padded([Timed(Op(Measure, [0], [0], []), 0, 1000), Idle(1, 0, 1000), Timed(Op(Measure, [1], [0], []), 1000, 700), Idle(0, 1000, 1700)], 1700))
  {
    ShortAsap(c, durs);
    var s := Timing.Schedule([0, 1000], durs, 1700);
    ShortAsapPadFrom0(map[], [], c.ops, s.starts, durs);
    assert c.ops[0..] == c.ops && s.starts[0..] == s.starts && durs[0..] == durs;
    var st := PadFrom(PadState(map[], []), c.ops, s.starts, durs, None);
    ShortAsapPadLatestEnd(s.starts, durs);
    PadOfSchedule(c, s, None, true, st, 1700);
    ShortAsapPadEndGaps(st.cursor);
    ShortAsapPaddedOut(st.out, [Idle(0, 1000, 1700)]);
  }

  /** The padded instructions in order. */
  lemma ShortAlapPaddedOut(body: seq<Timed>, tail: seq<Timed>)
    requires body == ([] + [Timed(Op(Measure, [0], [0], []), 0, 1000)]) + [Idle(1, 0, 1000), Timed(Op(Measure, [1], [0], []), 1000, 700)] && tail == [Idle(0, 1000, 1700)]
    ensures body + tail == [Timed(Op(Measure, [0], [0], []), 0, 1000), Idle(1, 0, 1000), Timed(Op(Measure, [1], [0], []), 1000, 700), Idle(0, 1000, 1700)]
  {
  }

  /** Padding the ALAP schedule gives these instructions, in this order, and the duration 1700. */
  lemma ShortAlapPadded(c: Circuit, durs: seq<nat>)
    requires c.numQubits == 2 && c.numClbits == 1 && |c.ops| == 2 && |durs| == 2
    requires c.ops[0] == Op(Measure, [0], [0], []) && durs[0] == 1000
    requires c.ops[1] == Op(Measure, [1], [0], []) && durs[1] == 700
    ensures Pad(c, Some(StartTimes(Alap.Schedule(c, durs, DefaultLatency))), durs, None, true) == Success(Padded([Timed(Op(Measure, [0], [0], []), 0, 1000), Idle(1, 0, 1000), Timed(Op(Measure, [1], [0], []), 1000, 700), Idle(0, 1000, 1700)], 1700))
  {
    ShortAlap(c, durs);
    var s := Timing.Schedule([0, 1000], durs, 1700);
    ShortAsapPadFrom0(map[], [], c.ops, s.starts, durs);
    assert c.ops[0..] == c.ops && s.starts[0..] == s.starts && durs[0..] == durs;
    var st := PadFrom(PadState(map[], []), c.ops, s.starts, durs, None);
    ShortAsapPadLatestEnd(s.starts, durs);
    PadOfSchedule(c, s, None, true, st, 1700);
    ShortAsapPadEndGaps(st.cursor);
    ShortAlapPaddedOut(st.out, [Idle(0, 1000, 1700)]);
  }

  /** The duration of each instruction, as the scheduling passes look it up. */
  lemma ShortDurations(c: Circuit)
    requires |c.ops| == 2
    requires c.ops[0] == Op(Measure, [0], [0], [])
    requires c.ops[1] == Op(Measure, [1], [0], [])
    ensures AllResolved(map[], FromEntries([Entry("measure", Some([0]), 1000), Entry("measure", Some([1]), 700)]), c.ops) && DurationsOf(map[], FromEntries([Entry("measure", Some([0]), 1000), Entry("measure", Some([1]), 700)]), c.ops) == [1000, 700]
  {
    var t := FromEntries([Entry("measure", Some([0]), 1000), Entry("measure", Some([1]), 700)]);
    assert NodeDuration(map[], t, c.ops[0]) == Some(1000);
    assert NodeDuration(map[], t, c.ops[1]) == Some(700);
    DurationsAre(map[], t, c.ops, [1000, 700]);
  }
}
