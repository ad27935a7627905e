/** The passes run one after another, as a transpiler pass manager runs them:
    first a scheduling pass (ASAP or ALAP), then delay padding. */
module Pipeline {
  import opened Circuits
  import opened Timing
  import opened Durations
  import opened Constraints
  import opened Padding
  import Asap
  import Alap

  /** Padding a schedule that keeps instructions on a common qubit apart and
      starts none of them before 0 leaves no gap on any qubit that supports
      delays. */
  lemma RespectedPadsGapFree(c: Circuit, s: Schedule, lat: IOLatency, target: Option<Target>, q: nat)
    requires WellFormed(c) && Respects(c.ops, s, lat)
    requires q < c.numQubits && DelaySupported(target, q)
    ensures Pad(c, Some(StartTimes(s)), s.durations, target, true).Success?
    ensures Contiguous(Track(Pad(c, Some(StartTimes(s)), s.durations, target, true).value.ops, q),
                       0, Pad(c, Some(StartTimes(s)), s.durations, target, true).value.duration)
  {
    assert forall i :: 0 <= i < |c.ops| ==> s.starts[i] >= 0;
    PadGapFree(c, s, target, q);
  }

  /** ASAP scheduling followed by delay padding keeps every qubit that supports
      delays busy from 0 to the end of the circuit. */
  lemma AsapPaddedGapFree(c: Circuit, durs: seq<nat>, lat: IOLatency, target: Option<Target>, q: nat)
    requires WellFormed(c) && |durs| == |c.ops| && q < c.numQubits && DelaySupported(target, q)
    ensures var s := Asap.Schedule(c, durs, lat);
      Pad(c, Some(StartTimes(s)), durs, target, true).Success? &&
      Contiguous(Track(Pad(c, Some(StartTimes(s)), durs, target, true).value.ops, q),
                 0, Pad(c, Some(StartTimes(s)), durs, target, true).value.duration)
  {
    Asap.AsapRespects(c, durs, lat);
    RespectedPadsGapFree(c, Asap.Schedule(c, durs, lat), lat, target, q);
  }

  /** ALAP scheduling followed by delay padding keeps every qubit that supports
      delays busy from 0 to the end of the circuit. */
  lemma AlapPaddedGapFree(c: Circuit, durs: seq<nat>, lat: IOLatency, target: Option<Target>, q: nat)
    requires WellFormed(c) && |durs| == |c.ops| && q < c.numQubits && DelaySupported(target, q)
    ensures var s := Alap.Schedule(c, durs, lat);
      Pad(c, Some(StartTimes(s)), durs, target, true).Success? &&
      Contiguous(Track(Pad(c, Some(StartTimes(s)), durs, target, true).value.ops, q),
                 0, Pad(c, Some(StartTimes(s)), durs, target, true).value.duration)
  {
    Alap.AlapRespects(c, durs, lat);
    RespectedPadsGapFree(c, Alap.Schedule(c, durs, lat), lat, target, q);
  }
}
