/** What the scheduling passes share: the I/O latency configuration, the schedule
    they produce and the per-wire "time available" table they update. */
module Timing {
  import opened Circuits

  /** The two latencies set before scheduling; both default to 0. */
  datatype IOLatency = IOLatency(conditional: nat, clbitWrite: nat)

  const DefaultLatency := IOLatency(0, 0)

  /** A start time and a duration per instruction (program order), and the
      duration of the whole circuit. */
  datatype Schedule = Schedule(starts: seq<int>, durations: seq<nat>, total: int)

  /** What the scheduling rules need of an instruction: it has a qubit, and a
      measure has a clbit to write. */
  predicate Schedulable(op: Op)
  {
    |op.qubits| > 0 && (op.kind.Measure? ==> |op.clbits| > 0)
  }

  predicate AllSchedulable(ops: seq<Op>)
  {
    forall i :: 0 <= i < |ops| ==> Schedulable(ops[i])
  }

  lemma WellFormedSchedulable(c: Circuit)
    requires WellFormed(c)
    ensures AllSchedulable(c.ops)
  {
    forall i | 0 <= i < |c.ops| ensures Schedulable(c.ops[i]) {
      assert WellFormedOp(c.ops[i], c.numQubits, c.numClbits);
    }
  }

  /** Per wire, the time from which the wire is free; a wire never touched is free at 0. */
  type Avail = map<Wire, int>

  function Get(a: Avail, w: Wire): int
  {
    if w in a then a[w] else 0
  }

  function Max(x: int, y: int): int { if x < y then y else x }

  /** The wire of each qubit. */
  function QubitWires(qs: seq<nat>): (r: seq<Wire>)
    ensures |r| == |qs|
  {
    if qs == [] then [] else [Qubit(qs[0])] + QubitWires(qs[1..])
  }

  lemma {:induction false} QubitWiresFacts(qs: seq<nat>)
    ensures forall i :: 0 <= i < |qs| ==> QubitWires(qs)[i] == Qubit(qs[i])
    ensures forall w :: w in QubitWires(qs) <==> w.Qubit? && w.q in qs
  {
    if qs != [] {
      QubitWiresFacts(qs[1..]);
      assert forall i :: 1 <= i < |qs| ==> qs[i] == qs[1..][i - 1];
    }
  }

  /** The wire of each clbit. */
  function ClbitWires(cs: seq<nat>): (r: seq<Wire>)
    ensures |r| == |cs|
  {
    if cs == [] then [] else [Clbit(cs[0])] + ClbitWires(cs[1..])
  }

  lemma {:induction false} ClbitWiresFacts(cs: seq<nat>)
    ensures forall i :: 0 <= i < |cs| ==> ClbitWires(cs)[i] == Clbit(cs[i])
    ensures forall w :: w in ClbitWires(cs) <==> w.Clbit? && w.c in cs
  {
    if cs != [] {
      ClbitWiresFacts(cs[1..]);
      assert forall i :: 1 <= i < |cs| ==> cs[i] == cs[1..][i - 1];
    }
  }

  /** The latest availability over a non-empty list of wires. */
  function MaxOver(a: Avail, ws: seq<Wire>): int
    requires |ws| > 0
  {
    if |ws| == 1 then Get(a, ws[0]) else Max(Get(a, ws[0]), MaxOver(a, ws[1..]))
  }

  /** `MaxOver` bounds every wire of the list and is reached by one of them. */
  lemma {:induction false} MaxOverFacts(a: Avail, ws: seq<Wire>)
    requires |ws| > 0
    ensures forall i :: 0 <= i < |ws| ==> Get(a, ws[i]) <= MaxOver(a, ws)
    ensures forall w :: w in ws ==> Get(a, w) <= MaxOver(a, ws)
    ensures exists i :: 0 <= i < |ws| && Get(a, ws[i]) == MaxOver(a, ws)
  {
    if |ws| > 1 {
      MaxOverFacts(a, ws[1..]);
      assert forall i :: 1 <= i < |ws| ==> ws[i] == ws[1..][i - 1];
      if Get(a, ws[0]) < MaxOver(a, ws[1..]) {
        var k :| 0 <= k < |ws[1..]| && Get(a, ws[1..][k]) == MaxOver(a, ws[1..]);
        assert ws[k + 1] == ws[1..][k];
      } else {
        assert Get(a, ws[0]) == MaxOver(a, ws);
      }
    } else {
      assert Get(a, ws[0]) == MaxOver(a, ws);
    }
  }

  /** Every wire of `ws` becomes available at `t`; the others keep their time. */
  function SetAll(a: Avail, ws: seq<Wire>, t: int): Avail
    decreases |ws|
  {
    if ws == [] then a else SetAll(a[ws[0] := t], ws[1..], t)
  }

  lemma {:induction false} SetAllFacts(a: Avail, ws: seq<Wire>, t: int)
    ensures forall w :: Get(SetAll(a, ws, t), w) == if w in ws then t else Get(a, w)
    decreases |ws|
  {
    if ws != [] {
      SetAllFacts(a[ws[0] := t], ws[1..], t);
      assert forall w :: w in ws <==> w == ws[0] || w in ws[1..];
    }
  }

  /** `MaxOver` on the wires of some qubits, stated per qubit. */
  lemma MaxOverQubits(a: Avail, qs: seq<nat>)
    requires |qs| > 0
    ensures forall q :: q in qs ==> Get(a, Qubit(q)) <= MaxOver(a, QubitWires(qs))
    ensures exists q :: q in qs && Get(a, Qubit(q)) == MaxOver(a, QubitWires(qs))
  {
    QubitWiresFacts(qs);
    MaxOverFacts(a, QubitWires(qs));
    var i :| 0 <= i < |qs| && Get(a, QubitWires(qs)[i]) == MaxOver(a, QubitWires(qs));
    assert qs[i] in qs && QubitWires(qs)[i] == Qubit(qs[i]);
  }

  /** `MaxOver` on the wires of some clbits, stated per clbit. */
  lemma MaxOverClbits(a: Avail, cs: seq<nat>)
    requires |cs| > 0
    ensures forall b :: b in cs ==> Get(a, Clbit(b)) <= MaxOver(a, ClbitWires(cs))
  {
    ClbitWiresFacts(cs);
    MaxOverFacts(a, ClbitWires(cs));
  }

  /** `SetAll` on the wires of some qubits, stated per qubit and per clbit. */
  lemma SetQubits(a: Avail, qs: seq<nat>, t: int)
    ensures forall q :: Get(SetAll(a, QubitWires(qs), t), Qubit(q)) == if q in qs then t else Get(a, Qubit(q))
    ensures forall b :: Get(SetAll(a, QubitWires(qs), t), Clbit(b)) == Get(a, Clbit(b))
  {
    QubitWiresFacts(qs);
    SetAllFacts(a, QubitWires(qs), t);
  }

  /** `SetAll` on the wires of some clbits, stated per qubit and per clbit. */
  lemma SetClbits(a: Avail, cs: seq<nat>, t: int)
    ensures forall q :: Get(SetAll(a, ClbitWires(cs), t), Qubit(q)) == Get(a, Qubit(q))
    ensures forall b :: Get(SetAll(a, ClbitWires(cs), t), Clbit(b)) == if b in cs then t else Get(a, Clbit(b))
  {
    ClbitWiresFacts(cs);
    SetAllFacts(a, ClbitWires(cs), t);
  }

  /** Where one instruction is placed, and the availability table after it. */
  datatype Placed = Placed(start: int, avail: Avail)

  /** An availability table and one start time per instruction visited. */
  datatype State = State(avail: Avail, starts: seq<int>)

  /** 0, 1, ..., n - 1 */
  function Range(n: nat): (r: seq<nat>)
    ensures |r| == n
  {
    if n == 0 then [] else Range(n - 1) + [n - 1]
  }

  lemma {:induction false} RangeFacts(n: nat)
    ensures forall i: nat :: i in Range(n) <==> i < n
  {
    if n > 0 {
      RangeFacts(n - 1);
      assert forall i: nat :: i in Range(n) <==> i in Range(n - 1) || i == n - 1;
    }
  }

  /** A wire of a circuit with `nq` qubits and `nc` clbits. */
  predicate InCircuit(w: Wire, nq: nat, nc: nat)
  {
    (w.Qubit? && w.q < nq) || (w.Clbit? && w.c < nc)
  }

  /** Every wire of a circuit with `nq` qubits and `nc` clbits. */
  function AllWires(nq: nat, nc: nat): (r: seq<Wire>)
    ensures |r| == nq + nc
  {
    QubitWires(Range(nq)) + ClbitWires(Range(nc))
  }

  lemma AllWiresFacts(nq: nat, nc: nat)
    ensures forall w :: w in AllWires(nq, nc) <==> InCircuit(w, nq, nc)
  {
    RangeFacts(nq);
    RangeFacts(nc);
    QubitWiresFacts(Range(nq));
    ClbitWiresFacts(Range(nc));
  }

  /** The circuit's duration: the latest availability over all its wires. */
  function Span(a: Avail, nq: nat, nc: nat): int
    requires nq + nc > 0
  {
    MaxOver(a, AllWires(nq, nc))
  }

  /** The duration bounds every wire of the circuit and is reached by one of them. */
  lemma SpanFacts(a: Avail, nq: nat, nc: nat)
    requires nq + nc > 0
    ensures forall w :: InCircuit(w, nq, nc) ==> Get(a, w) <= Span(a, nq, nc)
    ensures exists w :: InCircuit(w, nq, nc) && Get(a, w) == Span(a, nq, nc)
  {
    var ws := AllWires(nq, nc);
    AllWiresFacts(nq, nc);
    MaxOverFacts(a, ws);
    var i :| 0 <= i < |ws| && Get(a, ws[i]) == MaxOver(a, ws);
    assert InCircuit(ws[i], nq, nc);
  }

  /** The duration is the availability of a wire that no other wire exceeds. */
  lemma SpanIs(a: Avail, nq: nat, nc: nat, w: Wire)
    requires InCircuit(w, nq, nc)
    requires forall v :: InCircuit(v, nq, nc) ==> Get(a, v) <= Get(a, w)
    ensures Span(a, nq, nc) == Get(a, w)
  {
    SpanFacts(a, nq, nc);
  }
}
