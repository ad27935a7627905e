/** Delay padding: turn a schedule into a circuit in which every qubit that
    supports delays is busy from 0 to the circuit's duration. Instructions are
    visited in program order with a cursor per qubit; a gap between the cursor and
    an instruction's start becomes a delay. Delays of the input circuit are
    dropped, so that the idle time they stood for merges with the gaps around
    them. */
module Padding {
  import opened Circuits
  import opened Timing
  import opened Durations
  import opened Constraints

  /** An instruction of the padded circuit, with its start time and duration. */
  datatype Timed = Timed(op: Op, start: int, duration: nat)

  /** The padded circuit: its instructions in order, and its duration. */
  datatype Padded = Padded(ops: seq<Timed>, duration: int)

  /** The cursor per qubit (a `Qubit` wire's time in `cursor`), and the
      instructions emitted so far. */
  datatype PadState = PadState(cursor: Avail, out: seq<Timed>)

  /** A delay on qubit `q` covering `[from, to)`. */
  function Idle(q: nat, from: int, to: int): (e: Timed)
    requires from < to
  {
    Timed(Op(Delay(to - from), [q], [], []), from, to - from)
  }

  /** Fill the gap on qubit `q` before `t0`, if there is one and the qubit
      supports delays. The cursor is left as it is. */
  function GapFill(st: PadState, q: nat, t0: int, target: Option<Target>): (r: PadState)
  {
    var from := Get(st.cursor, Qubit(q));
    if t0 - from > 0 && DelaySupported(target, q) then PadState(st.cursor, st.out + [Idle(q, from, t0)])
    else st
  }

  /** Visit the qubits of an instruction running over `[t0, t1)` in order: fill
      each one's gap and move its cursor to `t1`. */
  function Visit(st: PadState, qs: seq<nat>, t0: int, t1: int, target: Option<Target>): (r: PadState)
    decreases |qs|
  {
    if qs == [] then st
    else
      var g := GapFill(st, qs[0], t0, target);
      Visit(PadState(g.cursor[Qubit(qs[0]) := t1], g.out), qs[1..], t0, t1, target)
  }

  /** Place one scheduled instruction; a delay of the input is dropped. */
  function PlaceOp(st: PadState, op: Op, t0: int, dur: nat, target: Option<Target>): (r: PadState)
  {
    if op.kind.Delay? then st
    else
      var v := Visit(st, op.qubits, t0, t0 + dur, target);
      PadState(v.cursor, v.out + [Timed(op, t0, dur)])
  }

  /** Every instruction has a start time. */
  predicate Scheduled(m: map<nat, int>, n: nat)
  {
    forall i :: 0 <= i < n ==> i in m
  }

  /** The start times of the first `n` instructions. */
  function StartsOf(m: map<nat, int>, n: nat): (r: seq<int>)
    requires Scheduled(m, n)
    ensures |r| == n && forall i :: 0 <= i < n ==> r[i] == m[i]
  {
    if n == 0 then [] else StartsOf(m, n - 1) + [m[n - 1]]
  }

  /** Place the instructions in program order, from the state `st`. */
  function PadFrom(st: PadState, ops: seq<Op>, starts: seq<int>, durs: seq<nat>, target: Option<Target>): (r: PadState)
    requires |starts| == |ops| && |durs| == |ops|
    decreases |ops|
  {
    if ops == [] then st
    else PadFrom(PlaceOp(st, ops[0], starts[0], durs[0], target), ops[1..], starts[1..], durs[1..], target)
  }

  /** Place the instructions in program order, every cursor at 0 and nothing emitted. */
  function PadOps(ops: seq<Op>, starts: seq<int>, durs: seq<nat>, target: Option<Target>): (r: PadState)
    requires |starts| == |ops| && |durs| == |ops|
  {
    PadFrom(PadState(map[], []), ops, starts, durs, target)
  }

  /** Placing the instructions is placing all but the last, then the last. */
  lemma {:induction false} PadFromLast(st: PadState, ops: seq<Op>, starts: seq<int>, durs: seq<nat>, target: Option<Target>)
    requires |starts| == |ops| && |durs| == |ops| && ops != []
    ensures var n := |ops| - 1;
      PadFrom(st, ops, starts, durs, target) ==
      PlaceOp(PadFrom(st, ops[..n], starts[..n], durs[..n], target), ops[n], starts[n], durs[n], target)
    decreases |ops|
  {
    var n := |ops| - 1;
    if n > 0 {
      var st1 := PlaceOp(st, ops[0], starts[0], durs[0], target);
      PadFromLast(st1, ops[1..], starts[1..], durs[1..], target);
      assert ops[1..][..n - 1] == ops[..n][1..] && starts[1..][..n - 1] == starts[..n][1..] && durs[1..][..n - 1] == durs[..n][1..];
      assert ops[..n][0] == ops[0] && starts[..n][0] == starts[0] && durs[..n][0] == durs[0];
    } else {
      assert ops[..n] == [] && ops[1..] == [];
    }
  }

  /** Placing the instructions from `i` on is placing instruction `i`, then the rest. */
  lemma PadFromAt(st: PadState, ops: seq<Op>, starts: seq<int>, durs: seq<nat>, target: Option<Target>, i: nat)
    requires |starts| == |ops| && |durs| == |ops| && i < |ops|
    ensures PadFrom(st, ops[i..], starts[i..], durs[i..], target) ==
      PadFrom(PlaceOp(st, ops[i], starts[i], durs[i], target), ops[i + 1..], starts[i + 1..], durs[i + 1..], target)
  {
    assert ops[i..][1..] == ops[i + 1..] && starts[i..][1..] == starts[i + 1..] && durs[i..][1..] == durs[i + 1..];
  }

  /** The instructions emitted before a placement stay in front of what it emits. */
  lemma {:induction false} VisitOut(cursor: Avail, o: seq<Timed>, qs: seq<nat>, t0: int, t1: int, target: Option<Target>)
    ensures var v := Visit(PadState(cursor, []), qs, t0, t1, target);
      Visit(PadState(cursor, o), qs, t0, t1, target) == PadState(v.cursor, o + v.out)
    decreases |qs|
  {
    if qs != [] {
      var g := GapFill(PadState(cursor, []), qs[0], t0, target);
      var c1 := cursor[Qubit(qs[0]) := t1];
      assert GapFill(PadState(cursor, o), qs[0], t0, target) == PadState(cursor, o + g.out);
      VisitOut(c1, o + g.out, qs[1..], t0, t1, target);
      VisitOut(c1, g.out, qs[1..], t0, t1, target);
      var w := Visit(PadState(c1, []), qs[1..], t0, t1, target);
      assert (o + g.out) + w.out == o + (g.out + w.out);
    }
  }

  /** Likewise for placing one instruction. */
  lemma PlaceOpOut(cursor: Avail, o: seq<Timed>, op: Op, t0: int, dur: nat, target: Option<Target>)
    ensures var p := PlaceOp(PadState(cursor, []), op, t0, dur, target);
      PlaceOp(PadState(cursor, o), op, t0, dur, target) == PadState(p.cursor, o + p.out)
  {
    if !op.kind.Delay? {
      VisitOut(cursor, o, op.qubits, t0, t0 + dur, target);
      var v := Visit(PadState(cursor, []), op.qubits, t0, t0 + dur, target);
      assert (o + v.out) + [Timed(op, t0, dur)] == o + (v.out + [Timed(op, t0, dur)]);
    } else {
      assert o + [] == o;
    }
  }

  /** Fill every one of qubits `0 .. n - 1` up to `total`. */
  function FillEnd(st: PadState, n: nat, total: int, target: Option<Target>): (r: PadState)
  {
    if n == 0 then st else GapFill(FillEnd(st, n - 1, total, target), n - 1, total, target)
  }

  /** The padding pass. It fails when no schedule is given, or at the first
      instruction without a start time; the duration is the latest end of any
      instruction, input delays included. */
  function Pad(c: Circuit, schedule: Option<map<nat, int>>, durs: seq<nat>, target: Option<Target>, fillVeryEnd: bool): (r: Result<Padded>)
    requires |durs| == |c.ops|
  {
    if schedule.None? then Failure(MissingSchedule)
    else if !Scheduled(schedule.value, |c.ops|) then Failure(UnscheduledOp(FirstUnscheduled(schedule.value, |c.ops|)))
    else
      var starts := StartsOf(schedule.value, |c.ops|);
      var total := LatestEnd(starts, durs);
      var st := PadOps(c.ops, starts, durs, target);
      var filled := if fillVeryEnd then FillEnd(st, c.numQubits, total, target) else st;
      Success(Padded(filled.out, total))
  }

  /** The first instruction without a start time. */
  function FirstUnscheduled(m: map<nat, int>, n: nat): (i: nat)
    requires !Scheduled(m, n)
    ensures i < n && i !in m && Scheduled(m, i)
  {
    if Scheduled(m, n - 1) then n - 1 else FirstUnscheduled(m, n - 1)
  }

  /** The start times of a schedule, per instruction. */
  function StartTimes(s: Schedule): (m: map<nat, int>)
    ensures Scheduled(m, |s.starts|) && StartsOf(m, |s.starts|) == s.starts
  {
    map i | 0 <= i < |s.starts| :: s.starts[i]
  }

  /** The padding pass, visiting the instructions and then the qubits with a
      cursor per qubit. */
  method PadDelay(c: Circuit, schedule: Option<map<nat, int>>, durs: seq<nat>, target: Option<Target>, fillVeryEnd: bool)
    returns (r: Result<Padded>)
    requires |durs| == |c.ops|
    ensures r == Pad(c, schedule, durs, target, fillVeryEnd)
  {
    if schedule.None? {
      return Failure(MissingSchedule);
    }
    var found := CollectStarts(schedule.value, durs);
    if found.Failure? {
      return Failure(found.error);
    }
    var starts := found.value;
    var total := CircuitDuration(starts, durs);
    var st := PadAll(c.ops, starts, durs, target);
    if fillVeryEnd {
      st := FillAll(st, c.numQubits, total, target);
    }
    r := Success(Padded(st.out, total));
  }

  /** The start time of every instruction, or the first instruction without one. */
  method CollectStarts(m: map<nat, int>, durs: seq<nat>) returns (r: Result<seq<int>>)
    ensures r.Success? <==> Scheduled(m, |durs|)
    ensures r.Success? ==> r.value == StartsOf(m, |durs|)
    ensures r.Failure? ==> r.error == UnscheduledOp(FirstUnscheduled(m, |durs|))
  {
    var starts: seq<int> := [];
    var i := 0;
    while i < |durs|
      invariant 0 <= i <= |durs| && Scheduled(m, i) && starts == StartsOf(m, i)
    {
      if i !in m {
        FirstUnscheduledIs(m, |durs|, i);
        return Failure(UnscheduledOp(i));
      }
      starts := starts + [m[i]];
      i := i + 1;
    }
    r := Success(starts);
  }

  /** The first instruction without a start time is the first one the scan meets. */
  lemma {:induction false} FirstUnscheduledIs(m: map<nat, int>, n: nat, i: nat)
    requires i < n && i !in m && Scheduled(m, i)
    ensures !Scheduled(m, n) && FirstUnscheduled(m, n) == i
  {
    if Scheduled(m, n - 1) {
    } else if n - 1 > i {
      FirstUnscheduledIs(m, n - 1, i);
    }
  }

  /** The latest end of any instruction. */
  method CircuitDuration(starts: seq<int>, durs: seq<nat>) returns (total: int)
    requires |starts| == |durs|
    ensures total == LatestEnd(starts, durs)
  {
    total := 0;
    var i := 0;
    while i < |starts|
      invariant 0 <= i <= |starts| && total == LatestEnd(starts[..i], durs[..i])
    {
      assert starts[..i + 1][..i] == starts[..i] && durs[..i + 1][..i] == durs[..i];
      LatestEndLast(starts[..i + 1], durs[..i + 1]);
      total := Max(total, starts[i] + durs[i]);
      i := i + 1;
    }
    assert starts[..i] == starts && durs[..i] == durs;
  }

  /** Place every instruction in program order. */
  method PadAll(ops: seq<Op>, starts: seq<int>, durs: seq<nat>, target: Option<Target>) returns (st: PadState)
    requires |starts| == |ops| && |durs| == |ops|
    ensures st == PadOps(ops, starts, durs, target)
  {
    st := PadState(map[], []);
    var i := 0;
    while i < |ops|
      invariant 0 <= i <= |ops|
      invariant st == PadOps(ops[..i], starts[..i], durs[..i], target)
    {
      assert ops[..i + 1][..i] == ops[..i] && starts[..i + 1][..i] == starts[..i] && durs[..i + 1][..i] == durs[..i];
      PadFromLast(PadState(map[], []), ops[..i + 1], starts[..i + 1], durs[..i + 1], target);
      st := PlaceAt(st, ops[i], starts[i], durs[i], target);
      i := i + 1;
    }
    assert ops[..i] == ops && starts[..i] == starts && durs[..i] == durs;
  }

  /** Fill every qubit up to the circuit's duration. */
  method FillAll(st0: PadState, n: nat, total: int, target: Option<Target>) returns (st: PadState)
    ensures st == FillEnd(st0, n, total, target)
  {
    st := st0;
    var q := 0;
    while q < n
      invariant 0 <= q <= n && st == FillEnd(st0, q, total, target)
    {
      st := Fill(st, q, total, target);
      q := q + 1;
    }
  }

  /** Fill the gap on one qubit. */
  method Fill(st: PadState, q: nat, t0: int, target: Option<Target>) returns (r: PadState)
    ensures r == GapFill(st, q, t0, target)
  {
    r := st;
    var from := Get(st.cursor, Qubit(q));
    if t0 - from > 0 && DelaySupported(target, q) {
      r := PadState(st.cursor, st.out + [Idle(q, from, t0)]);
    }
  }

  /** Place one instruction: pad each of its qubits in turn, then emit it. */
  method PlaceAt(st: PadState, op: Op, t0: int, dur: nat, target: Option<Target>) returns (r: PadState)
    ensures r == PlaceOp(st, op, t0, dur, target)
  {
    if op.kind.Delay? {
      return st;
    }
    r := st;
    var k := 0;
    while k < |op.qubits|
      invariant 0 <= k <= |op.qubits|
      invariant Visit(r, op.qubits[k..], t0, t0 + dur, target) == Visit(st, op.qubits, t0, t0 + dur, target)
    {
      assert op.qubits[k..][0] == op.qubits[k] && op.qubits[k..][1..] == op.qubits[k + 1..];
      var g := Fill(r, op.qubits[k], t0, target);
      r := PadState(g.cursor[Qubit(op.qubits[k]) := t0 + dur], g.out);
      k := k + 1;
    }
    assert op.qubits[k..] == [];
    r := PadState(r.cursor, r.out + [Timed(op, t0, dur)]);
  }

  /** The instructions of `out` that act on qubit `q`, in order. */
  function Track(out: seq<Timed>, q: nat): (r: seq<Timed>)
  {
    if out == [] then []
    else
      var n := |out| - 1;
      if q in out[n].op.qubits then Track(out[..n], q) + [out[n]] else Track(out[..n], q)
  }

  lemma {:induction false} TrackAppend(a: seq<Timed>, b: seq<Timed>, q: nat)
    ensures Track(a + b, q) == Track(a, q) + Track(b, q)
  {
    if b == [] {
      assert a + b == a;
    } else {
      var n := |b| - 1;
      var ab := a + b;
      assert ab[..|ab| - 1] == a + b[..n] && ab[|ab| - 1] == b[n];
      TrackAppend(a, b[..n], q);
    }
  }

  /** Tracking one more instruction of `out`. */
  lemma TrackPrefix(out: seq<Timed>, k: nat, q: nat)
    requires k < |out|
    ensures Track(out[..k + 1], q) == if q in out[k].op.qubits then Track(out[..k], q) + [out[k]] else Track(out[..k], q)
  {
    assert out[..k + 1][..k] == out[..k];
  }

  /** `track` covers `[from, to)` exactly: the first instruction starts at `from`
      and each of the others where the previous one ends. */
  predicate Contiguous(track: seq<Timed>, from: int, to: int)
  {
    if track == [] then from == to
    else
      var n := |track| - 1;
      Contiguous(track[..n], from, track[n].start) && to == track[n].start + track[n].duration
  }

  lemma ContiguousExtend(track: seq<Timed>, from: int, e: Timed)
    requires Contiguous(track, from, e.start)
    ensures Contiguous(track + [e], from, e.start + e.duration)
  {
    assert (track + [e])[..|track|] == track;
  }

  /** Filling the gap up to `t0` extends a contiguous track to `t0`. */
  lemma ContiguousFill(track: seq<Timed>, q: nat, last: int, t0: int, target: Option<Target>)
    requires Contiguous(track, 0, last) && last <= t0 && DelaySupported(target, q)
    ensures Contiguous(track + GapTrack(q, last, t0, target), 0, t0)
  {
    if t0 - last > 0 {
      ContiguousExtend(track, 0, Idle(q, last, t0));
    } else {
      assert track + GapTrack(q, last, t0, target) == track;
    }
  }

  /** A contiguous track stays contiguous when the gap up to `t0` is filled and
      an instruction starting at `t0` follows. */
  lemma ContiguousStep(track: seq<Timed>, q: nat, last: int, t0: int, target: Option<Target>, e: Timed)
    requires Contiguous(track, 0, last) && last <= t0 && DelaySupported(target, q) && e.start == t0
    ensures Contiguous((track + GapTrack(q, last, t0, target)) + [e], 0, t0 + e.duration)
  {
    ContiguousFill(track, q, last, t0, target);
    ContiguousExtend(track + GapTrack(q, last, t0, target), 0, e);
  }

  /** What filling the gap on `q` before `t0` adds. */
  function GapTrack(q: nat, from: int, t0: int, target: Option<Target>): (r: seq<Timed>)
  {
    if t0 - from > 0 && DelaySupported(target, q) then [Idle(q, from, t0)] else []
  }

  lemma GapFillFacts(st: PadState, q: nat, t0: int, target: Option<Target>, p: nat)
    ensures GapFill(st, q, t0, target).cursor == st.cursor
    ensures Track(GapFill(st, q, t0, target).out, p) ==
      Track(st.out, p) + (if p == q then GapTrack(q, Get(st.cursor, Qubit(q)), t0, target) else [])
  {
    var from := Get(st.cursor, Qubit(q));
    if t0 - from > 0 && DelaySupported(target, q) {
      var e := Idle(q, from, t0);
      var out := st.out + [e];
      assert out[..|out| - 1] == st.out && out[|out| - 1] == e;
      assert p in e.op.qubits <==> p == q;
      assert Track(out, p) == Track(st.out, p) + (if p in e.op.qubits then [e] else []);
    }
  }

  /** Visiting qubits moves each one's cursor to `t1`. */
  lemma {:induction false} VisitCursor(st: PadState, qs: seq<nat>, t0: int, t1: int, target: Option<Target>, p: nat)
    ensures Get(Visit(st, qs, t0, t1, target).cursor, Qubit(p)) == if p in qs then t1 else Get(st.cursor, Qubit(p))
    decreases |qs|
  {
    if qs != [] {
      var g := GapFill(st, qs[0], t0, target);
      assert p in qs <==> p == qs[0] || p in qs[1..];
      GapFillFacts(st, qs[0], t0, target, p);
      VisitCursor(PadState(g.cursor[Qubit(qs[0]) := t1], g.out), qs[1..], t0, t1, target, p);
    }
  }

  /** Visiting distinct qubits adds to each one's track at most the delay
      filling its gap, and nothing to the track of any other qubit. */
  lemma {:induction false} VisitTrack(st: PadState, qs: seq<nat>, t0: int, t1: int, target: Option<Target>, p: nat)
    requires Distinct(qs)
    ensures p in qs ==>
      Track(Visit(st, qs, t0, t1, target).out, p) == Track(st.out, p) + GapTrack(p, Get(st.cursor, Qubit(p)), t0, target)
    ensures p !in qs ==> Track(Visit(st, qs, t0, t1, target).out, p) == Track(st.out, p)
    decreases |qs|
  {
    if qs != [] {
      var g := GapFill(st, qs[0], t0, target);
      var st1 := PadState(g.cursor[Qubit(qs[0]) := t1], g.out);
      assert Distinct(qs[1..]) by {
        assert forall i :: 1 <= i < |qs| ==> qs[1..][i - 1] == qs[i];
      }
      assert qs[0] !in qs[1..] by {
        assert forall i :: 1 <= i < |qs| ==> qs[1..][i - 1] == qs[i];
      }
      assert p in qs <==> p == qs[0] || p in qs[1..];
      GapFillFacts(st, qs[0], t0, target, p);
      VisitTrack(st1, qs[1..], t0, t1, target, p);
      if p == qs[0] {
        assert Track(st1.out, p) == Track(st.out, p) + GapTrack(p, Get(st.cursor, Qubit(p)), t0, target);
      } else {
        assert Track(st1.out, p) == Track(st.out, p) + [];
        assert Get(st1.cursor, Qubit(p)) == Get(st.cursor, Qubit(p));
      }
    }
  }

  /** The end of the last instruction on qubit `q` that padding keeps, or 0. */
  function LastEnd(ops: seq<Op>, starts: seq<int>, durs: seq<nat>, q: nat): (r: int)
    requires |starts| == |ops| && |durs| == |ops|
  {
    if ops == [] then 0
    else
      var n := |ops| - 1;
      if !ops[n].kind.Delay? && q in ops[n].qubits then starts[n] + durs[n]
      else LastEnd(ops[..n], starts[..n], durs[..n], q)
  }

  lemma {:induction false} LastEndIs(ops: seq<Op>, starts: seq<int>, durs: seq<nat>, q: nat)
    requires |starts| == |ops| && |durs| == |ops|
    ensures LastEnd(ops, starts, durs, q) == 0 ||
      (exists i :: 0 <= i < |ops| && q in ops[i].qubits && LastEnd(ops, starts, durs, q) == starts[i] + durs[i])
  {
    if ops != [] {
      var n := |ops| - 1;
      if ops[n].kind.Delay? || q !in ops[n].qubits {
        LastEndIs(ops[..n], starts[..n], durs[..n], q);
        if LastEnd(ops, starts, durs, q) != 0 {
          var i :| 0 <= i < n && q in ops[..n][i].qubits && LastEnd(ops, starts, durs, q) == starts[..n][i] + durs[..n][i];
          assert ops[..n][i] == ops[i];
        }
      }
    }
  }

  /** Every instruction has distinct qubits and starts no earlier than 0. */
  predicate Placeable(ops: seq<Op>, starts: seq<int>)
    requires |starts| == |ops|
  {
    forall i :: 0 <= i < |ops| ==> Distinct(ops[i].qubits) && starts[i] >= 0
  }

  /** The last instruction kept on a qubit ends before the next one starts. */
  lemma LastEndBefore(ops: seq<Op>, s: Schedule, q: nat, j: nat)
    requires Shaped(ops, s) && QubitsExclusive(ops, s) && Placeable(ops, s.starts)
    requires j < |ops| && q in ops[j].qubits
    ensures LastEnd(ops[..j], s.starts[..j], s.durations[..j], q) <= s.starts[j]
  {
    LastEndIs(ops[..j], s.starts[..j], s.durations[..j], q);
    if LastEnd(ops[..j], s.starts[..j], s.durations[..j], q) != 0 {
      var i :| 0 <= i < j && q in ops[..j][i].qubits &&
        LastEnd(ops[..j], s.starts[..j], s.durations[..j], q) == s.starts[..j][i] + s.durations[..j][i];
      assert ops[..j][i] == ops[i];
      assert End(s, i) <= s.starts[j];
    }
  }

  /** The cursor of a qubit is where its last kept instruction ends. */
  lemma {:induction false} CursorIsLastEnd(ops: seq<Op>, starts: seq<int>, durs: seq<nat>, target: Option<Target>)
    requires |starts| == |ops| && |durs| == |ops| && Placeable(ops, starts)
    ensures forall q :: Get(PadOps(ops, starts, durs, target).cursor, Qubit(q)) == LastEnd(ops, starts, durs, q)
  {
    if ops != [] {
      var n := |ops| - 1;
      assert Placeable(ops[..n], starts[..n]) by {
        forall i | 0 <= i < n ensures Distinct(ops[..n][i].qubits) && starts[..n][i] >= 0 {
          assert ops[..n][i] == ops[i];
        }
      }
      CursorIsLastEnd(ops[..n], starts[..n], durs[..n], target);
      var st := PadOps(ops[..n], starts[..n], durs[..n], target);
      PadFromLast(PadState(map[], []), ops, starts, durs, target);
      forall q ensures Get(PadOps(ops, starts, durs, target).cursor, Qubit(q)) == LastEnd(ops, starts, durs, q) {
        if !ops[n].kind.Delay? {
          VisitCursor(st, ops[n].qubits, starts[n], starts[n] + durs[n], target, q);
        }
      }
    }
  }

  lemma PlaceablePrefix(ops: seq<Op>, starts: seq<int>, n: nat)
    requires |starts| == |ops| && n <= |ops| && Placeable(ops, starts)
    ensures Placeable(ops[..n], starts[..n])
  {
    forall i | 0 <= i < n ensures Distinct(ops[..n][i].qubits) && starts[..n][i] >= 0 {
      assert ops[..n][i] == ops[i];
    }
  }

  /** The first `n` instructions keep to their qubits as the whole schedule does. */
  lemma ExclusivePrefix(ops: seq<Op>, s: Schedule, n: nat)
    requires Shaped(ops, s) && QubitsExclusive(ops, s) && n <= |ops|
    ensures Shaped(ops[..n], Schedule(s.starts[..n], s.durations[..n], s.total))
    ensures QubitsExclusive(ops[..n], Schedule(s.starts[..n], s.durations[..n], s.total))
  {
    var pre := Schedule(s.starts[..n], s.durations[..n], s.total);
    var head := ops[..n];
    forall i, j, q | 0 <= i < j < n && q in head[i].qubits && q in head[j].qubits
      ensures End(pre, i) <= pre.starts[j]
    {
      assert head[i] == ops[i] && head[j] == ops[j];
      assert End(pre, i) == End(s, i) && pre.starts[j] == s.starts[j];
    }
  }

  /** Placing an instruction adds to the track of each of its qubits the delay
      filling that qubit's gap and then the instruction; other tracks stay. */
  lemma PlaceOpTrack(st: PadState, op: Op, t0: int, dur: nat, target: Option<Target>, p: nat)
    requires Distinct(op.qubits)
    ensures op.kind.Delay? || p !in op.qubits ==> Track(PlaceOp(st, op, t0, dur, target).out, p) == Track(st.out, p)
    ensures !op.kind.Delay? && p in op.qubits ==>
      Track(PlaceOp(st, op, t0, dur, target).out, p) ==
      (Track(st.out, p) + GapTrack(p, Get(st.cursor, Qubit(p)), t0, target)) + [Timed(op, t0, dur)]
  {
    if !op.kind.Delay? {
      var v := Visit(st, op.qubits, t0, t0 + dur, target);
      VisitTrack(st, op.qubits, t0, t0 + dur, target, p);
      var out := v.out + [Timed(op, t0, dur)];
      assert out[..|out| - 1] == v.out && out[|out| - 1] == Timed(op, t0, dur);
    }
  }

  /** After the instructions are placed, the track of a qubit that supports
      delays covers `[0, end of its last instruction)` without a gap. */
  lemma {:induction false} TrackContiguous(ops: seq<Op>, s: Schedule, target: Option<Target>, q: nat)
    requires Shaped(ops, s) && QubitsExclusive(ops, s) && Placeable(ops, s.starts) && DelaySupported(target, q)
    ensures Contiguous(Track(PadOps(ops, s.starts, s.durations, target).out, q), 0, LastEnd(ops, s.starts, s.durations, q))
  {
    if ops != [] {
      var n := |ops| - 1;
      var pre := Schedule(s.starts[..n], s.durations[..n], s.total);
      ExclusivePrefix(ops, s, n);
      PlaceablePrefix(ops, s.starts, n);
      TrackContiguous(ops[..n], pre, target, q);
      var st := PadOps(ops[..n], pre.starts, pre.durations, target);
      PadFromLast(PadState(map[], []), ops, s.starts, s.durations, target);
      assert PadOps(ops, s.starts, s.durations, target) == PlaceOp(st, ops[n], s.starts[n], s.durations[n], target);
      PlaceOpTrack(st, ops[n], s.starts[n], s.durations[n], target, q);
      if !ops[n].kind.Delay? && q in ops[n].qubits {
        CursorIsLastEnd(ops[..n], pre.starts, pre.durations, target);
        LastEndBefore(ops, s, q, n);
        var last := LastEnd(ops[..n], pre.starts, pre.durations, q);
        assert LastEnd(ops, s.starts, s.durations, q) == s.starts[n] + s.durations[n];
        ContiguousStep(Track(st.out, q), q, last, s.starts[n], target, Timed(ops[n], s.starts[n], s.durations[n]));
      } else {
        assert LastEnd(ops, s.starts, s.durations, q) == LastEnd(ops[..n], pre.starts, pre.durations, q);
      }
    }
  }

  /** Filling the end adds to the track of each of qubits `0 .. n - 1` the delay
      up to `total`, and moves no cursor. */
  lemma {:induction false} FillEndCursor(st: PadState, n: nat, total: int, target: Option<Target>)
    ensures FillEnd(st, n, total, target).cursor == st.cursor
  {
    if n > 0 {
      FillEndCursor(st, n - 1, total, target);
    }
  }

  /** The delays filling the end of qubits `0 .. n - 1`, from their cursors to `total`. */
  function EndGaps(cursor: Avail, n: nat, total: int, target: Option<Target>): (r: seq<Timed>)
  {
    if n == 0 then []
    else
      var prev := EndGaps(cursor, n - 1, total, target);
      var from := Get(cursor, Qubit(n - 1));
      if total - from > 0 && DelaySupported(target, n - 1) then prev + [Idle(n - 1, from, total)] else prev
  }

  lemma {:induction false} FillEndIs(st: PadState, n: nat, total: int, target: Option<Target>)
    ensures FillEnd(st, n, total, target).out == st.out + EndGaps(st.cursor, n, total, target)
  {
    if n == 0 {
      assert st.out + [] == st.out;
    } else {
      FillEndIs(st, n - 1, total, target);
      FillEndCursor(st, n - 1, total, target);
      var prev := EndGaps(st.cursor, n - 1, total, target);
      var from := Get(st.cursor, Qubit(n - 1));
      if total - from > 0 && DelaySupported(target, n - 1) {
        assert (st.out + prev) + [Idle(n - 1, from, total)] == st.out + (prev + [Idle(n - 1, from, total)]);
      }
    }
  }

  /** Padding a schedule is placing its instructions from empty cursors, then
      (when the end is filled) the delays from the last cursors up to the latest end. */
  lemma PadOfSchedule(c: Circuit, s: Schedule, target: Option<Target>, fillVeryEnd: bool, st: PadState, total: int)
    requires Shaped(c.ops, s)
    requires PadFrom(PadState(map[], []), c.ops, s.starts, s.durations, target) == st
    requires LatestEnd(s.starts, s.durations) == total
    ensures var tail := if fillVeryEnd then EndGaps(st.cursor, c.numQubits, total, target) else [];
      Pad(c, Some(StartTimes(s)), s.durations, target, fillVeryEnd) == Success(Padded(st.out + tail, total))
  {
    FillEndIs(st, c.numQubits, total, target);
    if !fillVeryEnd {
      assert st.out + [] == st.out;
    }
  }

  lemma {:induction false} EndGapsTrack(cursor: Avail, n: nat, total: int, target: Option<Target>, p: nat)
    ensures Track(EndGaps(cursor, n, total, target), p) ==
      if p < n then GapTrack(p, Get(cursor, Qubit(p)), total, target) else []
  {
    if n > 0 {
      var prev := EndGaps(cursor, n - 1, total, target);
      var from := Get(cursor, Qubit(n - 1));
      EndGapsTrack(cursor, n - 1, total, target, p);
      if total - from > 0 && DelaySupported(target, n - 1) {
        var e := Idle(n - 1, from, total);
        var all := prev + [e];
        assert all[..|all| - 1] == prev && all[|all| - 1] == e;
        assert p in e.op.qubits <==> p == n - 1;
      }
    }
  }

  /** The gap delay of qubit `q` is on `q` alone. */
  lemma GapTrackOn(q: nat, from: int, t0: int, target: Option<Target>, p: nat)
    ensures Track(GapTrack(q, from, t0, target), p) == if p == q then GapTrack(q, from, t0, target) else []
  {
    var gap := GapTrack(q, from, t0, target);
    if gap != [] {
      assert gap[..0] == [];
      assert p in gap[0].op.qubits <==> p == q;
    }
  }

  /** Filling the end adds to the track of each of qubits `0 .. n - 1` the delay
      up to `total`. */
  lemma FillEndTrack(st: PadState, n: nat, total: int, target: Option<Target>, p: nat)
    ensures Track(FillEnd(st, n, total, target).out, p) ==
      Track(st.out, p) + (if p < n then GapTrack(p, Get(st.cursor, Qubit(p)), total, target) else [])
  {
    FillEndIs(st, n, total, target);
    TrackAppend(st.out, EndGaps(st.cursor, n, total, target), p);
    EndGapsTrack(st.cursor, n, total, target, p);
  }

  /** The last instruction on a qubit ends by the circuit's duration. */
  lemma LastEndWithin(ops: seq<Op>, starts: seq<int>, durs: seq<nat>, q: nat)
    requires |starts| == |ops| && |durs| == |ops|
    ensures LastEnd(ops, starts, durs, q) <= LatestEnd(starts, durs)
  {
    LastEndIs(ops, starts, durs, q);
  }

  /** Padding a valid schedule with `fill_very_end` succeeds, its duration covers
      every instruction, and every qubit that supports delays is busy from 0 to
      that duration without a gap. */
  lemma PadGapFree(c: Circuit, s: Schedule, target: Option<Target>, q: nat)
    requires WellFormed(c) && Shaped(c.ops, s) && QubitsExclusive(c.ops, s)
    requires forall i :: 0 <= i < |c.ops| ==> s.starts[i] >= 0
    requires q < c.numQubits && DelaySupported(target, q)
    ensures Pad(c, Some(StartTimes(s)), s.durations, target, true).Success?
    ensures forall i :: 0 <= i < |c.ops| ==> End(s, i) <= Pad(c, Some(StartTimes(s)), s.durations, target, true).value.duration
    ensures Contiguous(Track(Pad(c, Some(StartTimes(s)), s.durations, target, true).value.ops, q),
                       0, Pad(c, Some(StartTimes(s)), s.durations, target, true).value.duration)
  {
    var r := Pad(c, Some(StartTimes(s)), s.durations, target, true);
    var total := LatestEnd(s.starts, s.durations);
    assert r.value.duration == total;
    assert Placeable(c.ops, s.starts) by {
      forall i | 0 <= i < |c.ops| ensures Distinct(c.ops[i].qubits) {
        assert WellFormedOp(c.ops[i], c.numQubits, c.numClbits);
      }
    }
    TrackContiguous(c.ops, s, target, q);
    var st := PadOps(c.ops, s.starts, s.durations, target);
    CursorIsLastEnd(c.ops, s.starts, s.durations, target);
    FillEndTrack(st, c.numQubits, total, target, q);
    LastEndWithin(c.ops, s.starts, s.durations, q);
    ContiguousFill(Track(st.out, q), q, LastEnd(c.ops, s.starts, s.durations, q), total, target);
  }

  /** Padding fails exactly when there is no schedule or an instruction has no
      start time, and then it names the first such instruction. */
  lemma PadFailure(c: Circuit, schedule: Option<map<nat, int>>, durs: seq<nat>, target: Option<Target>, fillVeryEnd: bool)
    requires |durs| == |c.ops|
    ensures Pad(c, schedule, durs, target, fillVeryEnd).Failure? <==>
      schedule.None? || exists i :: 0 <= i < |c.ops| && i !in schedule.value
    ensures schedule.None? ==> Pad(c, schedule, durs, target, fillVeryEnd) == Failure(MissingSchedule)
    ensures Pad(c, schedule, durs, target, fillVeryEnd).Failure? && schedule.Some? ==>
      var e := Pad(c, schedule, durs, target, fillVeryEnd).error;
      e.UnscheduledOp? && e.index < |c.ops| && e.index !in schedule.value &&
      forall k :: 0 <= k < e.index ==> k in schedule.value
  {
  }

  /** The instructions of `out` that are not delays. */
  function Kept(out: seq<Timed>): (r: seq<Timed>)
  {
    if out == [] then []
    else
      var n := |out| - 1;
      if out[n].op.kind.Delay? then Kept(out[..n]) else Kept(out[..n]) + [out[n]]
  }

  lemma {:induction false} KeptAppend(a: seq<Timed>, b: seq<Timed>)
    ensures Kept(a + b) == Kept(a) + Kept(b)
  {
    if b == [] {
      assert a + b == a;
    } else {
      var n := |b| - 1;
      var ab := a + b;
      assert ab[..|ab| - 1] == a + b[..n] && ab[|ab| - 1] == b[n];
      KeptAppend(a, b[..n]);
    }
  }

  /** The instructions of a schedule that are not delays, each at its start time
      and with its duration. */
  function Timings(ops: seq<Op>, starts: seq<int>, durs: seq<nat>): (r: seq<Timed>)
    requires |starts| == |ops| && |durs| == |ops|
  {
    if ops == [] then []
    else
      var n := |ops| - 1;
      if ops[n].kind.Delay? then Timings(ops[..n], starts[..n], durs[..n])
      else Timings(ops[..n], starts[..n], durs[..n]) + [Timed(ops[n], starts[n], durs[n])]
  }

  /** A delay in the padded circuit is one padding inserted: positive, of its own
      length, on one qubit that supports delays, with no clbit and no condition. */
  predicate Inserted(e: Timed, target: Option<Target>)
  {
    e.op.kind.Delay? ==>
      e.duration > 0 && e.op.kind.length == e.duration && |e.op.qubits| == 1 &&
      DelaySupported(target, e.op.qubits[0]) && e.op.clbits == [] && e.op.condition == []
  }

  predicate AllInserted(out: seq<Timed>, target: Option<Target>)
  {
    forall i :: 0 <= i < |out| ==> Inserted(out[i], target)
  }

  lemma GapFillKeeps(st: PadState, q: nat, t0: int, target: Option<Target>)
    requires AllInserted(st.out, target)
    ensures Kept(GapFill(st, q, t0, target).out) == Kept(st.out)
    ensures AllInserted(GapFill(st, q, t0, target).out, target)
  {
    var from := Get(st.cursor, Qubit(q));
    if t0 - from > 0 && DelaySupported(target, q) {
      var out := st.out + [Idle(q, from, t0)];
      assert out[..|out| - 1] == st.out;
    }
  }

  lemma {:induction false} VisitKeeps(st: PadState, qs: seq<nat>, t0: int, t1: int, target: Option<Target>)
    requires AllInserted(st.out, target)
    ensures Kept(Visit(st, qs, t0, t1, target).out) == Kept(st.out)
    ensures AllInserted(Visit(st, qs, t0, t1, target).out, target)
    decreases |qs|
  {
    if qs != [] {
      var g := GapFill(st, qs[0], t0, target);
      GapFillKeeps(st, qs[0], t0, target);
      VisitKeeps(PadState(g.cursor[Qubit(qs[0]) := t1], g.out), qs[1..], t0, t1, target);
    }
  }

  /** Placing an instruction that is not a delay keeps it, at its start time;
      everything else it adds is an inserted delay. */
  lemma PlaceOpKeeps(st: PadState, op: Op, t0: int, dur: nat, target: Option<Target>)
    requires AllInserted(st.out, target)
    ensures op.kind.Delay? ==> PlaceOp(st, op, t0, dur, target) == st
    ensures !op.kind.Delay? ==> Kept(PlaceOp(st, op, t0, dur, target).out) == Kept(st.out) + [Timed(op, t0, dur)]
    ensures AllInserted(PlaceOp(st, op, t0, dur, target).out, target)
  {
    if !op.kind.Delay? {
      var v := Visit(st, op.qubits, t0, t0 + dur, target);
      VisitKeeps(st, op.qubits, t0, t0 + dur, target);
      var out := v.out + [Timed(op, t0, dur)];
      assert out[..|out| - 1] == v.out && out[|out| - 1] == Timed(op, t0, dur);
    }
  }

  /** Placing the instructions keeps each one that is not a delay, in program
      order and at its start time, and adds nothing but inserted delays. */
  lemma {:induction false} PadOpsKeeps(ops: seq<Op>, starts: seq<int>, durs: seq<nat>, target: Option<Target>)
    requires |starts| == |ops| && |durs| == |ops|
    ensures Kept(PadOps(ops, starts, durs, target).out) == Timings(ops, starts, durs)
    ensures AllInserted(PadOps(ops, starts, durs, target).out, target)
  {
    if ops != [] {
      var n := |ops| - 1;
      PadOpsKeeps(ops[..n], starts[..n], durs[..n], target);
      PadFromLast(PadState(map[], []), ops, starts, durs, target);
      PlaceOpKeeps(PadOps(ops[..n], starts[..n], durs[..n], target), ops[n], starts[n], durs[n], target);
    }
  }

  /** A delay ending at `total`. */
  predicate EndsAt(e: Timed, total: int)
  {
    e.op.kind.Delay? && e.start + e.duration == total
  }

  /** The end delays are inserted delays, each ending at `total`. */
  lemma {:induction false} EndGapsFacts(cursor: Avail, n: nat, total: int, target: Option<Target>)
    ensures forall k :: 0 <= k < |EndGaps(cursor, n, total, target)| ==>
      EndsAt(EndGaps(cursor, n, total, target)[k], total) && Inserted(EndGaps(cursor, n, total, target)[k], target)
  {
    if n > 0 {
      EndGapsFacts(cursor, n - 1, total, target);
      var prev := EndGaps(cursor, n - 1, total, target);
      var from := Get(cursor, Qubit(n - 1));
      if total - from > 0 && DelaySupported(target, n - 1) {
        var all := prev + [Idle(n - 1, from, total)];
        forall k | 0 <= k < |all| ensures EndsAt(all[k], total) && Inserted(all[k], target) {
          if k < |prev| {
            assert all[k] == prev[k];
          }
        }
      }
    }
  }

  /** A padded circuit holds every instruction of the input that is not a delay,
      in program order and at its scheduled start time, and besides them only
      inserted delays. */
  lemma PadKeepsOps(c: Circuit, m: map<nat, int>, durs: seq<nat>, target: Option<Target>, fillVeryEnd: bool)
    requires |durs| == |c.ops| && Pad(c, Some(m), durs, target, fillVeryEnd).Success?
    ensures Kept(Pad(c, Some(m), durs, target, fillVeryEnd).value.ops) == Timings(c.ops, StartsOf(m, |c.ops|), durs)
    ensures AllInserted(Pad(c, Some(m), durs, target, fillVeryEnd).value.ops, target)
  {
    var starts := StartsOf(m, |c.ops|);
    var st := PadOps(c.ops, starts, durs, target);
    PadOpsKeeps(c.ops, starts, durs, target);
    if fillVeryEnd {
      var total := LatestEnd(starts, durs);
      var gaps := EndGaps(st.cursor, c.numQubits, total, target);
      assert Pad(c, Some(m), durs, target, fillVeryEnd).value.ops == st.out + gaps by {
        FillEndIs(st, c.numQubits, total, target);
      }
      EndGapsFacts(st.cursor, c.numQubits, total, target);
      KeptOfDelays(gaps);
      KeptAppend(st.out, gaps);
      assert AllInserted(st.out + gaps, target) by {
        forall k | 0 <= k < |st.out + gaps| ensures Inserted((st.out + gaps)[k], target) {
          if k >= |st.out| {
            assert (st.out + gaps)[k] == gaps[k - |st.out|];
          }
        }
      }
    }
  }

  /** Filling the very end only appends delays that end at the circuit's
      duration to what padding without it gives. */
  lemma PadFillVeryEnd(c: Circuit, m: map<nat, int>, durs: seq<nat>, target: Option<Target>)
    requires |durs| == |c.ops| && Pad(c, Some(m), durs, target, true).Success?
    ensures Pad(c, Some(m), durs, target, false).Success?
    ensures var bare := Pad(c, Some(m), durs, target, false).value;
      var r := Pad(c, Some(m), durs, target, true).value;
      |r.ops| >= |bare.ops| && r.ops[..|bare.ops|] == bare.ops && r.duration == bare.duration &&
      forall k :: |bare.ops| <= k < |r.ops| ==> EndsAt(r.ops[k], r.duration)
  {
    var starts := StartsOf(m, |c.ops|);
    var st := PadOps(c.ops, starts, durs, target);
    var total := LatestEnd(starts, durs);
    var gaps := EndGaps(st.cursor, c.numQubits, total, target);
    assert Pad(c, Some(m), durs, target, false).value == Padded(st.out, total);
    assert Pad(c, Some(m), durs, target, true).value == Padded(st.out + gaps, total) by {
      FillEndIs(st, c.numQubits, total, target);
    }
    EndGapsFacts(st.cursor, c.numQubits, total, target);
    var out := st.out + gaps;
    assert out[..|st.out|] == st.out;
    forall k | |st.out| <= k < |out| ensures EndsAt(out[k], total) {
      assert out[k] == gaps[k - |st.out|];
    }
  }

  lemma {:induction false} KeptOfDelays(out: seq<Timed>)
    requires forall k :: 0 <= k < |out| ==> out[k].op.kind.Delay?
    ensures Kept(out) == []
  {
    if out != [] {
      KeptOfDelays(out[..|out| - 1]);
    }
  }
}
