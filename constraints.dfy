/** The timing constraints a schedule of a circuit must respect, whichever way it
    was computed, and what follows from them. */
module Constraints {
  import opened Circuits
  import opened Timing

  predicate Writes(op: Op, b: nat)
  {
    op.kind.Measure? && b in op.clbits
  }

  predicate Reads(op: Op, b: nat)
  {
    Conditional(op) && b in op.condition
  }

  /** Instruction `i` is the last one before `j` that writes clbit `b`. */
  predicate LastWriterBefore(ops: seq<Op>, i: nat, j: nat, b: nat)
  {
    && i < j <= |ops|
    && Writes(ops[i], b)
    && forall k :: i < k < j ==> !Writes(ops[k], b)
  }

  /** No instruction strictly between `i` and `j` writes clbit `b`. */
  predicate UnwrittenBetween(ops: seq<Op>, i: nat, j: nat, b: nat)
  {
    && i < j <= |ops|
    && forall k :: i < k < j ==> !Writes(ops[k], b)
  }

  predicate Shaped(ops: seq<Op>, s: Schedule)
  {
    |s.starts| == |ops| && |s.durations| == |ops|
  }

  function End(s: Schedule, i: nat): int
    requires i < |s.starts| && i < |s.durations|
  {
    s.starts[i] + s.durations[i]
  }

  /** The latest end of any instruction, and 0 when there is none. */
  function LatestEnd(starts: seq<int>, durs: seq<nat>): (r: int)
    requires |starts| == |durs|
    ensures r >= 0
    ensures forall i :: 0 <= i < |starts| ==> starts[i] + durs[i] <= r
    ensures r == 0 || exists i :: 0 <= i < |starts| && starts[i] + durs[i] == r
  {
    if starts == [] then 0
    else
      var m := LatestEnd(starts[1..], durs[1..]);
      assert forall i :: 1 <= i < |starts| ==> starts[1..][i - 1] == starts[i] && durs[1..][i - 1] == durs[i];
      Max(starts[0] + durs[0], m)
  }

  /** The latest end over one more instruction is the later of the two. */
  lemma {:induction false} LatestEndLast(starts: seq<int>, durs: seq<nat>)
    requires |starts| == |durs| && starts != []
    ensures var n := |starts| - 1;
      LatestEnd(starts, durs) == Max(LatestEnd(starts[..n], durs[..n]), starts[n] + durs[n])
  {
    var n := |starts| - 1;
    if n > 0 {
      LatestEndLast(starts[1..], durs[1..]);
      assert starts[1..][..n - 1] == starts[..n][1..] && durs[1..][..n - 1] == durs[..n][1..];
    } else {
      assert starts[1..] == [] && starts[..n] == [];
    }
  }

  /** Every instruction lies within `[0, total]`. */
  predicate WithinSpan(ops: seq<Op>, s: Schedule)
    requires Shaped(ops, s)
  {
    forall i :: 0 <= i < |ops| ==> 0 <= s.starts[i] && End(s, i) <= s.total
  }

  /** Two instructions on a common qubit run one after the other, in program order. */
  predicate QubitsExclusive(ops: seq<Op>, s: Schedule)
    requires Shaped(ops, s)
  {
    forall i, j, q :: 0 <= i < j < |ops| && q in ops[i].qubits && q in ops[j].qubits ==>
      End(s, i) <= s.starts[j]
  }

  /** A conditional instruction starts no earlier than `conditional` latency after
      the end of the measure whose result it reads. */
  ghost predicate ReadsAfterWrite(ops: seq<Op>, s: Schedule, lat: IOLatency)
    requires Shaped(ops, s)
  {
    forall i: nat, j: nat, b: nat :: LastWriterBefore(ops, i, j, b) && j < |ops| && Reads(ops[j], b) ==>
      End(s, i) + lat.conditional <= s.starts[j]
  }

  /** A measure writing a clbit starts no earlier than `clbitWrite` latency before
      the previous write of that clbit ends. */
  ghost predicate WritesInOrder(ops: seq<Op>, s: Schedule, lat: IOLatency)
    requires Shaped(ops, s)
  {
    forall i: nat, k: nat, b: nat :: LastWriterBefore(ops, i, k, b) && k < |ops| && Writes(ops[k], b) ==>
      End(s, i) <= s.starts[k] + lat.clbitWrite
  }

  /** Two conditional instructions reading a clbit that nothing writes between
      them start at least `conditional` latency apart, in program order. */
  ghost predicate ReadsInOrder(ops: seq<Op>, s: Schedule, lat: IOLatency)
    requires Shaped(ops, s)
  {
    forall i: nat, j: nat, b: nat :: UnwrittenBetween(ops, i, j, b) && j < |ops| && Reads(ops[i], b) && Reads(ops[j], b) ==>
      s.starts[i] + lat.conditional <= s.starts[j]
  }

  /** A measure that overwrites a clbit read before it, with no write between the
      two, starts no earlier than `clbitWrite` latency before the read starts. */
  ghost predicate ReadsBeforeWrite(ops: seq<Op>, s: Schedule, lat: IOLatency)
    requires Shaped(ops, s)
  {
    forall i: nat, j: nat, b: nat :: UnwrittenBetween(ops, i, j, b) && j < |ops| && Reads(ops[i], b) && Writes(ops[j], b) ==>
      s.starts[i] <= s.starts[j] + lat.clbitWrite
  }

  ghost predicate Respects(ops: seq<Op>, s: Schedule, lat: IOLatency)
  {
    && Shaped(ops, s)
    && WithinSpan(ops, s)
    && QubitsExclusive(ops, s)
    && ReadsAfterWrite(ops, s, lat)
    && WritesInOrder(ops, s, lat)
    && ReadsInOrder(ops, s, lat)
    && ReadsBeforeWrite(ops, s, lat)
  }

  /** A barrier is a join: whatever ends before it on one of its qubits ends
      before anything that follows it on any of its qubits starts. */
  lemma BarrierJoin(ops: seq<Op>, s: Schedule, lat: IOLatency, k: nat, i: nat, j: nat, q1: nat, q2: nat)
    requires Respects(ops, s, lat)
    requires k < i < j < |ops| && ops[i].kind.Barrier?
    requires q1 in ops[k].qubits && q1 in ops[i].qubits
    requires q2 in ops[i].qubits && q2 in ops[j].qubits
    ensures End(s, k) <= s.starts[j]
  {
    assert End(s, k) <= s.starts[i];
    assert End(s, i) <= s.starts[j];
  }
}
