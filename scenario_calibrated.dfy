/** A calibration of X on qubit 0 makes that gate last 300 instead of the
    table's 160. */
module Calibrated {
  import opened Circuits
  import opened Timing
  import opened Durations
  import opened Constraints
  import opened Padding
  import Asap
  import Alap

  /** The circuit is well formed. */
  lemma CalWellFormed(c: Circuit)
    requires c.numQubits == 2 && c.numClbits == 0 && |c.ops| == 4
    requires c.ops[0] == Op(Gate("x"), [0], [], [])
    requires c.ops[1] == Op(Gate("cx"), [0, 1], [], [])
    requires c.ops[2] == Op(Gate("x"), [1], [], [])
    requires c.ops[3] == Op(Gate("cx"), [0, 1], [], [])
    ensures WellFormed(c)
  {
    assert WellFormedOp(c.ops[0], 2, 0);
    assert WellFormedOp(c.ops[1], 2, 0);
    assert WellFormedOp(c.ops[2], 2, 0);
    assert WellFormedOp(c.ops[3], 2, 0);
  }

  /** ASAP from instruction 0 on, given when each wire is free. */
  lemma CalAsapFrom0(a: Avail, ops: seq<Op>, durs: seq<nat>)
    requires |ops| == 4 && |durs| == 4
    requires ops[0] == Op(Gate("x"), [0], [], []) && durs[0] == 300
    requires ops[1] == Op(Gate("cx"), [0, 1], [], []) && durs[1] == 600
    requires ops[2] == Op(Gate("x"), [1], [], []) && durs[2] == 160
    requires ops[3] == Op(Gate("cx"), [0, 1], [], []) && durs[3] == 600
    requires Get(a, Qubit(0)) == 0 && Get(a, Qubit(1)) == 0
    ensures var r := Asap.RunFrom(a, ops[0..], durs[0..], DefaultLatency);
      r.starts == [0, 300] + ([900, 1060]) && Span(r.avail, 2, 0) == 1660
  {
    var p0 := Asap.Step(a, ops[0], durs[0], DefaultLatency);
    assert p0.start == 0 && Get(p0.avail, Qubit(0)) == 300 && Get(p0.avail, Qubit(1)) == 0 by {
      assert QubitWires([0]) == [Qubit(0)] && MaxOver(a, [Qubit(0)]) == 0;
    }
    var p1 := Asap.Step(p0.avail, ops[1], durs[1], DefaultLatency);
    assert p1.start == 300 && Get(p1.avail, Qubit(0)) == 900 && Get(p1.avail, Qubit(1)) == 900 by {
      assert QubitWires([0, 1]) == [Qubit(0), Qubit(1)] && MaxOver(p0.avail, [Qubit(1)]) == 0 && MaxOver(p0.avail, [Qubit(0), Qubit(1)]) == 300;
    }
    Asap.RunFromSteps([a, p0.avail, p1.avail], ops[0..2], durs[0..2], [0, 300], DefaultLatency);
    Asap.RunFromSplit(a, ops, durs, DefaultLatency, 0, 2);
    CalAsapFrom2(p1.avail, ops, durs);
  }

  /** ASAP from instruction 2 on, given when each wire is free. */
  lemma CalAsapFrom2(a: Avail, ops: seq<Op>, durs: seq<nat>)
    requires |ops| == 4 && |durs| == 4
    requires ops[2] == Op(Gate("x"), [1], [], []) && durs[2] == 160
    requires ops[3] == Op(Gate("cx"), [0, 1], [], []) && durs[3] == 600
    requires Get(a, Qubit(0)) == 900 && Get(a, Qubit(1)) == 900
    ensures var r := Asap.RunFrom(a, ops[2..], durs[2..], DefaultLatency);
      r.starts == [900, 1060] && Span(r.avail, 2, 0) == 1660
  {
    var p2 := Asap.Step(a, ops[2], durs[2], DefaultLatency);
    assert p2.start == 900 && Get(p2.avail, Qubit(0)) == 900 && Get(p2.avail, Qubit(1)) == 1060 by {
      assert QubitWires([1]) == [Qubit(1)] && MaxOver(a, [Qubit(1)]) == 900;
    }
    var p3 := Asap.Step(p2.avail, ops[3], durs[3], DefaultLatency);
    assert p3.start == 1060 && Get(p3.avail, Qubit(0)) == 1660 && Get(p3.avail, Qubit(1)) == 1660 by {
      assert QubitWires([0, 1]) == [Qubit(0), Qubit(1)] && MaxOver(p2.avail, [Qubit(1)]) == 1060 && MaxOver(p2.avail, [Qubit(0), Qubit(1)]) == 1060;
    }
    Asap.RunFromSteps([a, p2.avail, p3.avail], ops[2..], durs[2..], [900, 1060], DefaultLatency);
    assert Span(p3.avail, 2, 0) == 1660 by {
      assert AllWires(2, 0) == [Qubit(0), Qubit(1)] && MaxOver(p3.avail, [Qubit(1)]) == 1660 && MaxOver(p3.avail, [Qubit(0), Qubit(1)]) == 1660;
    }
  }

  /** The start times, gathered. */
  lemma CalAsapStarts(starts: seq<int>)
    requires starts == [0, 300] + ([900, 1060])
    ensures starts == [0, 300, 900, 1060]
  {
  }

  /** ASAP scheduling starts the instructions at [0, 300, 900, 1060], and the circuit lasts 1660. */
  lemma CalAsap(c: Circuit, durs: seq<nat>)
    requires c.numQubits == 2 && c.numClbits == 0 && |c.ops| == 4 && |durs| == 4
    requires c.ops[0] == Op(Gate("x"), [0], [], []) && durs[0] == 300
    requires c.ops[1] == Op(Gate("cx"), [0, 1], [], []) && durs[1] == 600
    requires c.ops[2] == Op(Gate("x"), [1], [], []) && durs[2] == 160
    requires c.ops[3] == Op(Gate("cx"), [0, 1], [], []) && durs[3] == 600
    ensures WellFormed(c)
    ensures Asap.Schedule(c, durs, DefaultLatency) == Timing.Schedule([0, 300, 900, 1060], durs, 1660)
  {
    CalWellFormed(c);
    WellFormedSchedulable(c);
    Asap.RunIsRunFrom(c.ops, durs, DefaultLatency);
    assert c.ops[0..] == c.ops && durs[0..] == durs;
    CalAsapFrom0(map[], c.ops, durs);
    CalAsapStarts(Asap.Run(c.ops, durs, DefaultLatency).starts);
  }

  /** Padding from instruction 0 on, given each qubit's cursor. */
  lemma CalAsapPadFrom0(cur: Avail, o: seq<Timed>, ops: seq<Op>, starts: seq<int>, durs: seq<nat>)
    requires |ops| == 4 && |starts| == 4 && |durs| == 4
    requires ops[0] == Op(Gate("x"), [0], [], []) && starts[0] == 0 && durs[0] == 300
    requires ops[1] == Op(Gate("cx"), [0, 1], [], []) && starts[1] == 300 && durs[1] == 600
    requires ops[2] == Op(Gate("x"), [1], [], []) && starts[2] == 900 && durs[2] == 160
    requires ops[3] == Op(Gate("cx"), [0, 1], [], []) && starts[3] == 1060 && durs[3] == 600
    requires Get(cur, Qubit(0)) == 0 && Get(cur, Qubit(1)) == 0
    ensures var r := PadFrom(PadState(cur, o), ops[0..], starts[0..], durs[0..], None);
      r.out == (((o + [Timed(Op(Gate("x"), [0], [], []), 0, 300)]) + [Idle(1, 0, 300), Timed(Op(Gate("cx"), [0, 1], [], []), 300, 600)]) + [Timed(Op(Gate("x"), [1], [], []), 900, 160)]) + [Idle(0, 900, 1060), Timed(Op(Gate("cx"), [0, 1], [], []), 1060, 600)] && Get(r.cursor, Qubit(0)) == 1660 && Get(r.cursor, Qubit(1)) == 1660
  {
    PadFromAt(PadState(cur, o), ops, starts, durs, None, 0);
    var s0 := PlaceOp(PadState(cur, []), ops[0], starts[0], durs[0], None);
    assert s0.out == [Timed(Op(Gate("x"), [0], [], []), 0, 300)] && Get(s0.cursor, Qubit(0)) == 300 && Get(s0.cursor, Qubit(1)) == 0;
    PlaceOpOut(cur, o, ops[0], starts[0], durs[0], None);
    CalAsapPadFrom1(s0.cursor, o + [Timed(Op(Gate("x"), [0], [], []), 0, 300)], ops, starts, durs);
  }

  /** Padding from instruction 1 on, given each qubit's cursor. */
  lemma CalAsapPadFrom1(cur: Avail, o: seq<Timed>, ops: seq<Op>, starts: seq<int>, durs: seq<nat>)
    requires |ops| == 4 && |starts| == 4 && |durs| == 4
    requires ops[1] == Op(Gate("cx"), [0, 1], [], []) && starts[1] == 300 && durs[1] == 600
    requires ops[2] == Op(Gate("x"), [1], [], []) && starts[2] == 900 && durs[2] == 160
    requires ops[3] == Op(Gate("cx"), [0, 1], [], []) && starts[3] == 1060 && durs[3] == 600
    requires Get(cur, Qubit(0)) == 300 && Get(cur, Qubit(1)) == 0
    ensures var r := PadFrom(PadState(cur, o), ops[1..], starts[1..], durs[1..], None);
      r.out == ((o + [Idle(1, 0, 300), Timed(Op(Gate("cx"), [0, 1], [], []), 300, 600)]) + [Timed(Op(Gate("x"), [1], [], []), 900, 160)]) + [Idle(0, 900, 1060), Timed(Op(Gate("cx"), [0, 1], [], []), 1060, 600)] && Get(r.cursor, Qubit(0)) == 1660 && Get(r.cursor, Qubit(1)) == 1660
  {
    PadFromAt(PadState(cur, o), ops, starts, durs, None, 1);
    var s1 := PlaceOp(PadState(cur, []), ops[1], starts[1], durs[1], None);
    assert s1.out == [Idle(1, 0, 300), Timed(Op(Gate("cx"), [0, 1], [], []), 300, 600)] && Get(s1.cursor, Qubit(0)) == 900 && Get(s1.cursor, Qubit(1)) == 900;
    PlaceOpOut(cur, o, ops[1], starts[1], durs[1], None);
    CalAsapPadFrom2(s1.cursor, o + [Idle(1, 0, 300), Timed(Op(Gate("cx"), [0, 1], [], []), 300, 600)], ops, starts, durs);
  }

  /** Padding from instruction 2 on, given each qubit's cursor. */
  lemma CalAsapPadFrom2(cur: Avail, o: seq<Timed>, ops: seq<Op>, starts: seq<int>, durs: seq<nat>)
    requires |ops| == 4 && |starts| == 4 && |durs| == 4
    requires ops[2] == Op(Gate("x"), [1], [], []) && starts[2] == 900 && durs[2] == 160
    requires ops[3] == Op(Gate("cx"), [0, 1], [], []) && starts[3] == 1060 && durs[3] == 600
    requires Get(cur, Qubit(0)) == 900 && Get(cur, Qubit(1)) == 900
    ensures var r := PadFrom(PadState(cur, o), ops[2..], starts[2..], durs[2..], None);
      r.out == (o + [Timed(Op(Gate("x"), [1], [], []), 900, 160)]) + [Idle(0, 900, 1060), Timed(Op(Gate("cx"), [0, 1], [], []), 1060, 600)] && Get(r.cursor, Qubit(0)) == 1660 && Get(r.cursor, Qubit(1)) == 1660
  {
    PadFromAt(PadState(cur, o), ops, starts, durs, None, 2);
    var s2 := PlaceOp(PadState(cur, []), ops[2], starts[2], durs[2], None);
    assert s2.out == [Timed(Op(Gate("x"), [1], [], []), 900, 160)] && Get(s2.cursor, Qubit(0)) == 900 && Get(s2.cursor, Qubit(1)) == 1060;
    PlaceOpOut(cur, o, ops[2], starts[2], durs[2], None);
    CalAsapPadFrom3(s2.cursor, o + [Timed(Op(Gate("x"), [1], [], []), 900, 160)], ops, starts, durs);
  }

  /** Padding from instruction 3 on, given each qubit's cursor. */
  lemma CalAsapPadFrom3(cur: Avail, o: seq<Timed>, ops: seq<Op>, starts: seq<int>, durs: seq<nat>)
    requires |ops| == 4 && |starts| == 4 && |durs| == 4
    requires ops[3] == Op(Gate("cx"), [0, 1], [], []) && starts[3] == 1060 && durs[3] == 600
    requires Get(cur, Qubit(0)) == 900 && Get(cur, Qubit(1)) == 1060
    ensures var r := PadFrom(PadState(cur, o), ops[3..], starts[3..], durs[3..], None);
      r.out == o + [Idle(0, 900, 1060), Timed(Op(Gate("cx"), [0, 1], [], []), 1060, 600)] && Get(r.cursor, Qubit(0)) == 1660 && Get(r.cursor, Qubit(1)) == 1660
  {
    PadFromAt(PadState(cur, o), ops, starts, durs, None, 3);
    var s3 := PlaceOp(PadState(cur, []), ops[3], starts[3], durs[3], None);
    assert s3.out == [Idle(0, 900, 1060), Timed(Op(Gate("cx"), [0, 1], [], []), 1060, 600)] && Get(s3.cursor, Qubit(0)) == 1660 && Get(s3.cursor, Qubit(1)) == 1660;
    PlaceOpOut(cur, o, ops[3], starts[3], durs[3], None);
    assert ops[4..] == [] && starts[4..] == [] && durs[4..] == [];
  }

  /** The latest end of any instruction. */
  lemma CalAsapPadLatestEnd(starts: seq<int>, durs: seq<nat>)
    requires starts == [0, 300, 900, 1060] && |durs| == 4
    requires durs[0] == 300
    requires durs[1] == 600
    requires durs[2] == 160
    requires durs[3] == 600
    ensures LatestEnd(starts, durs) == 1660
  {
  }

  /** The delays after the last instruction. */
  lemma CalAsapPadEndGaps(cur: Avail)
    requires Get(cur, Qubit(0)) == 1660 && Get(cur, Qubit(1)) == 1660
    ensures EndGaps(cur, 2, 1660, None) == []
  {
    assert true && EndGaps(cur, 1, 1660, None) == [];
  }

  /** The padded instructions in order. */
  lemma CalAsapPaddedOut(body: seq<Timed>, tail: seq<Timed>)
    requires body == ((([] + [Timed(Op(Gate("x"), [0], [], []), 0, 300)]) + [Idle(1, 0, 300), Timed(Op(Gate("cx"), [0, 1], [], []), 300, 600)]) + [Timed(Op(Gate("x"), [1], [], []), 900, 160)]) + [Idle(0, 900, 1060), Timed(Op(Gate("cx"), [0, 1], [], []), 1060, 600)] && tail == []
    ensures body + tail == [Timed(Op(Gate("x"), [0], [], []), 0, 300), Idle(1, 0, 300), Timed(Op(Gate("cx"), [0, 1], [], []), 300, 600), Timed(Op(Gate("x"), [1], [], []), 900, 160), Idle(0, 900, 1060), Timed(Op(Gate("cx"), [0, 1], [], []), 1060, 600)]
  {
  }

  /** Padding the ASAP schedule gives these instructions, in this order, and the duration 1660. */
  lemma CalAsapPadded(c: Circuit, durs: seq<nat>)
    requires c.numQubits == 2 && c.numClbits == 0 && |c.ops| == 4 && |durs| == 4
    requires c.ops[0] == Op(Gate("x"), [0], [], []) && durs[0] == 300
    requires c.ops[1] == Op(Gate("cx"), [0, 1], [], []) && durs[1] == 600
    requires c.ops[2] == Op(Gate("x"), [1], [], []) && durs[2] == 160
    requires c.ops[3] == Op(Gate("cx"), [0, 1], [], []) && durs[3] == 600
    ensures Pad(c, Some(StartTimes(Asap.Schedule(c, durs, DefaultLatency))), durs, None, true) == Success(Padded([Timed(Op(Gate("x"), [0], [], []), 0, 300), Idle(1, 0, 300), Timed(Op(Gate("cx"), [0, 1], [], []), 300, 600), Timed(Op(Gate("x"), [1], [], []), 900, 160), Idle(0, 900, 1060), Timed(Op(Gate("cx"), [0, 1], [], []), 1060, 600)], 1660))
  {
    CalAsap(c, durs);
    var s := Timing.Schedule([0, 300, 900, 1060], durs, 1660);
    CalAsapPadFrom0(map[], [], c.ops, s.starts, durs);
    assert c.ops[0..] == c.ops && s.starts[0..] == s.starts && durs[0..] == durs;
    var st := PadFrom(PadState(map[], []), c.ops, s.starts, durs, None);
    CalAsapPadLatestEnd(s.starts, durs);
    PadOfSchedule(c, s, None, true, st, 1660);
    CalAsapPadEndGaps(st.cursor);
    CalAsapPaddedOut(st.out, []);
  }

  /** The duration of each instruction, as the scheduling passes look it up. */
  lemma CalDurations(c: Circuit)
    requires |c.ops| == 4
    requires c.ops[0] == Op(Gate("x"), [0], [], [])
    requires c.ops[1] == Op(Gate("cx"), [0, 1], [], [])
    requires c.ops[2] == Op(Gate("x"), [1], [], [])
    requires c.ops[3] == Op(Gate("cx"), [0, 1], [], [])
    ensures AllResolved(map[("x", [0]) := 300], FromEntries([Entry("x", None, 160), Entry("cx", None, 600)]), c.ops) && DurationsOf(map[("x", [0]) := 300], FromEntries([Entry("x", None, 160), Entry("cx", None, 600)]), c.ops) == [300, 600, 160, 600]
  {
    var t := FromEntries([Entry("x", None, 160), Entry("cx", None, 600)]);
    assert NodeDuration(map[("x", [0]) := 300], t, c.ops[0]) == Some(300);
    assert NodeDuration(map[("x", [0]) := 300], t, c.ops[1]) == Some(600);
    assert NodeDuration(map[("x", [0]) := 300], t, c.ops[2]) == Some(160);
    assert NodeDuration(map[("x", [0]) := 300], t, c.ops[3]) == Some(600);
    DurationsAre(map[("x", [0]) := 300], t, c.ops, [300, 600, 160, 600]);
  }
}
