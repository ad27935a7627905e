/** ALAP scheduling is ASAP scheduling of the reversed circuit, read backwards in
    time, as long as no instruction is conditional and writing a clbit has no
    latency: then the two rules place every instruction alike. */
module Duality {
  import opened Circuits
  import opened Timing
  import opened Constraints
  import Asap
  import Alap

  predicate Unconditional(ops: seq<Op>)
  {
    forall i :: 0 <= i < |ops| ==> !Conditional(ops[i])
  }

  /** A schedule read backwards in time: the instruction that ended last starts
      first, and the duration is kept. */
  function Mirror(s: Schedule): (r: Schedule)
    requires |s.starts| == |s.durations|
    ensures |r.starts| == |r.durations| == |s.starts| && r.total == s.total
    ensures forall i :: 0 <= i < |s.starts| ==>
      r.durations[i] == s.durations[|s.starts| - 1 - i] && r.starts[i] == s.total - End(s, |s.starts| - 1 - i)
  {
    var n := |s.starts|;
    Schedule(seq(n, i requires 0 <= i < n => s.total - End(s, n - 1 - i)), Reversed(s.durations), s.total)
  }

  /** Reading a schedule backwards twice gives it back. */
  lemma MirrorInvolutive(s: Schedule)
    requires |s.starts| == |s.durations|
    ensures Mirror(Mirror(s)) == s
  {
    var m := Mirror(Mirror(s));
    var n := |s.starts|;
    forall i | 0 <= i < n ensures m.starts[i] == s.starts[i] && m.durations[i] == s.durations[i] {
      assert Mirror(s).durations[n - 1 - i] == s.durations[i];
    }
  }

  /** Reading a schedule backwards keeps instructions on a common qubit apart. */
  lemma MirrorExclusive(ops: seq<Op>, s: Schedule)
    requires Shaped(ops, s) && QubitsExclusive(ops, s)
    ensures Shaped(Reversed(ops), Mirror(s)) && QubitsExclusive(Reversed(ops), Mirror(s))
  {
    var r := Reversed(ops);
    var m := Mirror(s);
    var n := |ops|;
    forall i, j, q | 0 <= i < j < n && q in r[i].qubits && q in r[j].qubits
      ensures End(m, i) <= m.starts[j]
    {
      assert r[i] == ops[n - 1 - i] && r[j] == ops[n - 1 - j];
      assert End(s, n - 1 - j) <= s.starts[n - 1 - i];
    }
  }

  /** Without conditions and without write latency, the ALAP rule places an
      instruction exactly as the ASAP rule does. */
  lemma StepsAgree(a: Avail, op: Op, dur: nat, lat: IOLatency)
    requires Schedulable(op) && !Conditional(op) && lat.clbitWrite == 0
    ensures Alap.Step(a, op, dur, lat) == Asap.Step(a, op, dur, lat)
  {
  }

  lemma ReversedSchedulable(ops: seq<Op>)
    requires AllSchedulable(ops)
    ensures AllSchedulable(Reversed(ops))
  {
    forall i | 0 <= i < |ops| ensures Schedulable(Reversed(ops)[i]) {
      assert Reversed(ops)[i] == ops[|ops| - 1 - i];
    }
  }

  /** Reversing a sequence with one more element at its end puts it first. */
  lemma ReversedSnoc<T>(s: seq<T>, x: T)
    ensures Reversed(s + [x]) == [x] + Reversed(s)
  {
    var l := Reversed(s + [x]);
    var r := [x] + Reversed(s);
    forall i | 0 <= i < |l| ensures l[i] == r[i] {
      if i > 0 {
        assert (s + [x])[|s| - i] == s[|s| - 1 - (i - 1)];
      }
    }
  }

  /** The ALAP run over `ops` is the ASAP run over the reversed instructions, with
      the places read backwards. */
  lemma {:induction false} RunsMirror(ops: seq<Op>, durs: seq<nat>, lat: IOLatency)
    requires |durs| == |ops| && AllSchedulable(ops) && Unconditional(ops) && lat.clbitWrite == 0
    ensures AllSchedulable(Reversed(ops))
    ensures Alap.Run(ops, durs, lat).avail == Asap.Run(Reversed(ops), Reversed(durs), lat).avail
    ensures Alap.Run(ops, durs, lat).starts == Reversed(Asap.Run(Reversed(ops), Reversed(durs), lat).starts)
  {
    ReversedSchedulable(ops);
    if ops != [] {
      Alap.RunFirst(ops, durs, lat);
      var rest := ops[1..];
      assert Unconditional(rest) by {
        forall k | 0 <= k < |rest| ensures !Conditional(rest[k]) {
          assert rest[k] == ops[k + 1];
        }
      }
      RunsMirror(rest, durs[1..], lat);
      var r := Reversed(ops);
      var rd := Reversed(durs);
      var n := |r| - 1;
      assert r[..n] == Reversed(rest) && r[n] == ops[0];
      assert rd[..n] == Reversed(durs[1..]) && rd[n] == durs[0];
      Asap.RunLast(r, rd, lat);
      var prev := Asap.Run(Reversed(rest), Reversed(durs[1..]), lat);
      StepsAgree(prev.avail, ops[0], durs[0], lat);
      var p := Asap.Step(prev.avail, ops[0], durs[0], lat);
      ReversedSnoc(prev.starts, p.start);
    }
  }

  /** One place of a turned-around reversed-time run is the matching place of
      the forward schedule read backwards. */
  lemma FlipAt(ends: seq<int>, starts: seq<int>, durs: seq<nat>, total: int, i: nat)
    requires |starts| == |durs| && ends == Reversed(starts) && i < |durs|
    ensures Alap.Flip(ends, durs, total)[i] == Mirror(Schedule(starts, Reversed(durs), total)).starts[i]
  {
    var fwd := Schedule(starts, Reversed(durs), total);
    var k := |durs| - 1 - i;
    assert Mirror(fwd).starts[i] == total - End(fwd, k);
    assert ends[i] == starts[k] && Reversed(durs)[k] == durs[i];
  }

  /** Turning reversed-time places around against the duration is reading the
      forward schedule of the reversed instructions backwards. */
  lemma FlipIsMirror(ends: seq<int>, starts: seq<int>, durs: seq<nat>, total: int)
    requires |starts| == |durs| && ends == Reversed(starts)
    ensures Schedule(Alap.Flip(ends, durs, total), durs, total) == Mirror(Schedule(starts, Reversed(durs), total))
  {
    var m := Mirror(Schedule(starts, Reversed(durs), total));
    var flipped := Alap.Flip(ends, durs, total);
    forall i | 0 <= i < |durs| ensures flipped[i] == m.starts[i] {
      FlipAt(ends, starts, durs, total, i);
    }
    ReversedInvolutive(durs);
  }

  /** The ALAP schedule of a circuit without conditions, when writing a clbit has
      no latency, is the ASAP schedule of the reversed circuit read backwards in
      time. */
  lemma AlapIsMirroredAsap(c: Circuit, durs: seq<nat>, lat: IOLatency)
    requires WellFormed(c) && |durs| == |c.ops| && Unconditional(c.ops) && lat.clbitWrite == 0
    ensures Alap.Schedule(c, durs, lat) == Mirror(Asap.Schedule(Reverse(c), Reversed(durs), lat))
  {
    WellFormedSchedulable(c);
    RunsMirror(c.ops, durs, lat);
    var rc := Reverse(c);
    assert rc == Circuit(c.numQubits, c.numClbits, Reversed(c.ops));
    var st := Alap.Run(c.ops, durs, lat);
    var ar := Asap.Run(rc.ops, Reversed(durs), lat);
    var total := Span(st.avail, c.numQubits, c.numClbits);
    assert Schedule(ar.starts, Reversed(durs), total) == Asap.Schedule(rc, Reversed(durs), lat);
    assert Schedule(Alap.Flip(st.starts, durs, total), durs, total) == Alap.Schedule(c, durs, lat);
    FlipIsMirror(st.starts, ar.starts, durs, total);
  }
}
