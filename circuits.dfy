/** Quantum circuits as the scheduling passes see them: a program-ordered list of
    operations over numbered qubits and clbits. */
module Circuits {

  datatype Option<+T> = None | Some(value: T)

  /** The errors the scheduling and padding passes raise. */
  datatype Error =
    | UnresolvedDuration(index: nat)   // no duration known for operation `index`
    | MissingSchedule                  // padding run on a circuit that was never scheduled
    | UnscheduledOp(index: nat)        // operation `index` has no start time in the schedule
    | UnsupportedCondition(index: nat) // operation `index` is conditional but neither a gate nor a delay

  datatype Result<+T> = Success(value: T) | Failure(error: Error)

  /** A timeline: one qubit or one classical bit. */
  datatype Wire = Qubit(q: nat) | Clbit(c: nat)

  /** The categories of instruction the scheduler tells apart. */
  datatype Kind =
    | Gate(name: string)   // any unitary gate (x, h, cx, ...)
    | Delay(length: nat)   // an explicit idle period, its length in dt
    | Measure              // writes its clbits
    | Barrier              // zero-duration synchronisation point

  /** One instruction: its qubits, the clbits it writes (measure only) and the
      clbits of its `c_if` condition (empty when unconditional). */
  datatype Op = Op(kind: Kind, qubits: seq<nat>, clbits: seq<nat>, condition: seq<nat>)

  datatype Circuit = Circuit(numQubits: nat, numClbits: nat, ops: seq<Op>)

  /** The instruction name under which durations and calibrations are looked up. */
  function Name(k: Kind): string
  {
    match k
    case Gate(n) => n
    case Delay(_) => "delay"
    case Measure => "measure"
    case Barrier => "barrier"
  }

  predicate Distinct(s: seq<nat>)
  {
    forall i, j :: 0 <= i < j < |s| ==> s[i] != s[j]
  }

  predicate AllBelow(s: seq<nat>, n: nat)
  {
    forall i :: 0 <= i < |s| ==> s[i] < n
  }

  /** What a circuit guarantees of every instruction appended to it: at least one
      qubit, no repeated qubit, only bits of the circuit, and a measure writes a bit. */
  predicate WellFormedOp(op: Op, numQubits: nat, numClbits: nat)
  {
    && |op.qubits| > 0
    && Distinct(op.qubits)
    && AllBelow(op.qubits, numQubits)
    && AllBelow(op.clbits, numClbits)
    && AllBelow(op.condition, numClbits)
    && (op.kind.Measure? ==> |op.clbits| > 0)
  }

  /** A circuit the passes can run on; it has at least one wire, since the
      circuit's duration is a maximum over its wires. */
  predicate WellFormed(c: Circuit)
  {
    && c.numQubits + c.numClbits > 0
    && forall i :: 0 <= i < |c.ops| ==> WellFormedOp(c.ops[i], c.numQubits, c.numClbits)
  }

  /** Appending a well-formed instruction keeps a circuit well formed. */
  lemma AppendWellFormed(c: Circuit, op: Op)
    requires WellFormed(c) && WellFormedOp(op, c.numQubits, c.numClbits)
    ensures WellFormed(Circuit(c.numQubits, c.numClbits, c.ops + [op]))
  {
    var ops := c.ops + [op];
    assert forall i :: 0 <= i < |c.ops| ==> ops[i] == c.ops[i];
  }

  predicate Conditional(op: Op)
  {
    (op.kind.Gate? || op.kind.Delay?) && |op.condition| > 0
  }

  /** An instruction that touches no clbit: the schedulers place it by its qubits alone. */
  predicate QubitsOnly(op: Op)
  {
    !op.kind.Measure? && !Conditional(op) && op.clbits == []
  }

  /** Only gates and delays may carry a condition; the scheduling passes reject
      a conditional measure or barrier. */
  predicate ConditionSupported(op: Op)
  {
    |op.condition| > 0 ==> op.kind.Gate? || op.kind.Delay?
  }

  predicate AllSupported(ops: seq<Op>)
  {
    forall i :: 0 <= i < |ops| ==> ConditionSupported(ops[i])
  }

  lemma AllSupportedExtend(ops: seq<Op>, i: nat)
    requires i < |ops| && AllSupported(ops[..i]) && ConditionSupported(ops[i])
    ensures AllSupported(ops[..i + 1])
  {
    assert forall k :: 0 <= k < i ==> ops[..i + 1][k] == ops[..i][k];
  }

  lemma AllSupportedPrepend(ops: seq<Op>, i: nat)
    requires 0 < i <= |ops| && AllSupported(ops[i..]) && ConditionSupported(ops[i - 1])
    ensures AllSupported(ops[i - 1..])
  {
    var tail := ops[i - 1..];
    forall k | 0 <= k < |tail| ensures ConditionSupported(tail[k]) {
      if k > 0 {
        assert tail[k] == ops[i..][k - 1];
      }
    }
  }

  /** The elements in reverse order. */
  function Reversed<T>(s: seq<T>): (r: seq<T>)
    ensures |r| == |s|
    ensures forall i :: 0 <= i < |s| ==> r[i] == s[|s| - 1 - i]
  {
    if s == [] then [] else Reversed(s[1..]) + [s[0]]
  }

  /** The circuit with its instructions in reverse order, each one unchanged. */
  function Reverse(c: Circuit): (r: Circuit)
    ensures r.numQubits == c.numQubits && r.numClbits == c.numClbits
    ensures |r.ops| == |c.ops| && forall i :: 0 <= i < |c.ops| ==> r.ops[i] == c.ops[|c.ops| - 1 - i]
    ensures WellFormed(c) ==> WellFormed(r)
  {
    Circuit(c.numQubits, c.numClbits, Reversed(c.ops))
  }

  lemma ReversedInvolutive<T>(s: seq<T>)
    ensures Reversed(Reversed(s)) == s
  {
    var r := Reversed(Reversed(s));
    forall i | 0 <= i < |s| ensures r[i] == s[i] {
      assert r[i] == Reversed(s)[|s| - 1 - i];
    }
  }

  lemma ReverseInvolutive(c: Circuit)
    ensures Reverse(Reverse(c)) == c
  {
    ReversedInvolutive(c.ops);
  }
}
