/** Where instruction durations come from: an instruction-duration table (entries
    keyed by name and qubits, with `None` qubits as a wildcard), a backend target,
    and per-circuit calibrations, which take precedence over both. */
module Durations {
  import opened Circuits

  /** One `(name, qubits, duration)` entry; `qubits == None` applies on any qubits. */
  datatype Entry = Entry(name: string, qubits: Option<seq<nat>>, duration: nat)

  /** The two lookup dictionaries of an instruction-duration table. */
  datatype DurationTable = DurationTable(byQubits: map<(string, seq<nat>), nat>, byName: map<string, nat>)

  /** Calibrated instructions of a circuit, keyed by name and qubits, with the
      duration of their pulse schedule. */
  type Calibrations = map<(string, seq<nat>), nat>

  /** A backend description: a duration per supported (name, qubits) pair, and
      the qubits on which a `delay` instruction is supported. */
  datatype Target = Target(durations: map<(string, seq<nat>), nat>, delayQubits: set<nat>)

  const EmptyTable := DurationTable(map[], map[])

  /** Record one entry; a later entry for the same key replaces an earlier one. */
  function Add(t: DurationTable, e: Entry): DurationTable
  {
    match e.qubits
    case None => t.(byName := t.byName[e.name := e.duration])
    case Some(qs) => t.(byQubits := t.byQubits[(e.name, qs) := e.duration])
  }

  /** Record the entries one after another, in order. */
  function AddAll(t: DurationTable, entries: seq<Entry>): DurationTable
    decreases |entries|
  {
    if entries == [] then t else AddAll(Add(t, entries[0]), entries[1..])
  }

  /** The table built from a list of entries, in order. */
  function FromEntries(entries: seq<Entry>): DurationTable
  {
    AddAll(EmptyTable, entries)
  }

  /** Recording the entries is recording all but the last, then the last. */
  lemma {:induction false} AddAllLast(t: DurationTable, entries: seq<Entry>)
    requires entries != []
    ensures var n := |entries| - 1;
      AddAll(t, entries) == Add(AddAll(t, entries[..n]), entries[n])
    decreases |entries|
  {
    var n := |entries| - 1;
    if n > 0 {
      AddAllLast(Add(t, entries[0]), entries[1..]);
      assert entries[1..][..n - 1] == entries[..n][1..];
    } else {
      assert entries[..n] == [];
    }
  }

  /** The durations a target reports: qubit-specific only, no wildcard. */
  function FromTarget(t: Target): DurationTable
  {
    DurationTable(t.durations, map[])
  }

  predicate ExactFor(e: Entry, name: string, qs: seq<nat>)
  {
    e.name == name && e.qubits == Some(qs)
  }

  predicate WildcardFor(e: Entry, name: string)
  {
    e.name == name && e.qubits.None?
  }

  /** Recording one entry touches the exact lookup of its own name and qubits only. */
  lemma AddExact(t: DurationTable, e: Entry, name: string, qs: seq<nat>)
    ensures (name, qs) in Add(t, e).byQubits <==> (name, qs) in t.byQubits || ExactFor(e, name, qs)
    ensures ExactFor(e, name, qs) ==> Add(t, e).byQubits[(name, qs)] == e.duration
    ensures !ExactFor(e, name, qs) && (name, qs) in t.byQubits ==> Add(t, e).byQubits[(name, qs)] == t.byQubits[(name, qs)]
  {
  }

  /** Recording one entry touches the wildcard lookup of its own name only. */
  lemma AddWildcard(t: DurationTable, e: Entry, name: string)
    ensures name in Add(t, e).byName <==> name in t.byName || WildcardFor(e, name)
    ensures WildcardFor(e, name) ==> Add(t, e).byName[name] == e.duration
    ensures !WildcardFor(e, name) && name in t.byName ==> Add(t, e).byName[name] == t.byName[name]
  {
  }

  /** The table answers for (name, qubits) exactly when some entry names them,
      and with the duration of the last such entry. */
  lemma {:induction false} ExactLookupIsLastEntry(entries: seq<Entry>, name: string, qs: seq<nat>)
    ensures (name, qs) in FromEntries(entries).byQubits
        <==> exists i :: 0 <= i < |entries| && ExactFor(entries[i], name, qs)
    ensures (name, qs) in FromEntries(entries).byQubits ==>
      exists i :: 0 <= i < |entries| && ExactFor(entries[i], name, qs)
        && entries[i].duration == FromEntries(entries).byQubits[(name, qs)]
        && forall j :: i < j < |entries| ==> !ExactFor(entries[j], name, qs)
  {
    if entries != [] {
      var n := |entries| - 1;
      var init := entries[..n];
      var t := FromEntries(entries);
      AddAllLast(EmptyTable, entries);
      assert t == Add(FromEntries(init), entries[n]);
      AddExact(FromEntries(init), entries[n], name, qs);
      ExactLookupIsLastEntry(init, name, qs);
      assert forall i :: 0 <= i < n ==> init[i] == entries[i];
      if ExactFor(entries[n], name, qs) {
        assert (name, qs) in t.byQubits && t.byQubits[(name, qs)] == entries[n].duration;
      } else if (name, qs) in FromEntries(init).byQubits {
        var i :| 0 <= i < n && ExactFor(init[i], name, qs)
          && init[i].duration == FromEntries(init).byQubits[(name, qs)]
          && forall j :: i < j < n ==> !ExactFor(init[j], name, qs);
        assert entries[i] == init[i];
      } else {
        assert (name, qs) !in t.byQubits;
        assert forall i :: 0 <= i < n ==> !ExactFor(entries[i], name, qs);
      }
    }
  }

  /** Likewise for the wildcard entries of a name. */
  lemma {:induction false} WildcardLookupIsLastEntry(entries: seq<Entry>, name: string)
    ensures name in FromEntries(entries).byName
        <==> exists i :: 0 <= i < |entries| && WildcardFor(entries[i], name)
    ensures name in FromEntries(entries).byName ==>
      exists i :: 0 <= i < |entries| && WildcardFor(entries[i], name)
        && entries[i].duration == FromEntries(entries).byName[name]
        && forall j :: i < j < |entries| ==> !WildcardFor(entries[j], name)
  {
    if entries != [] {
      var n := |entries| - 1;
      var init := entries[..n];
      var t := FromEntries(entries);
      AddAllLast(EmptyTable, entries);
      assert t == Add(FromEntries(init), entries[n]);
      AddWildcard(FromEntries(init), entries[n], name);
      WildcardLookupIsLastEntry(init, name);
      assert forall i :: 0 <= i < n ==> init[i] == entries[i];
      if WildcardFor(entries[n], name) {
        assert name in t.byName && t.byName[name] == entries[n].duration;
      } else if name in FromEntries(init).byName {
        var i :| 0 <= i < n && WildcardFor(init[i], name)
          && init[i].duration == FromEntries(init).byName[name]
          && forall j :: i < j < n ==> !WildcardFor(init[j], name);
        assert entries[i] == init[i];
      } else {
        assert name !in t.byName;
        assert forall i :: 0 <= i < n ==> !WildcardFor(entries[i], name);
      }
    }
  }

  /** The table's duration for an instruction on given qubits: a barrier takes 0,
      a delay its own length, otherwise the qubit-specific entry wins over the
      wildcard one, and `None` means the duration is unknown. */
  function Lookup(t: DurationTable, k: Kind, qs: seq<nat>): (r: Option<nat>)
    ensures k.Barrier? ==> r == Some(0)
    ensures k.Delay? ==> r == Some(k.length)
    ensures (k.Gate? || k.Measure?) ==>
      (r.Some? <==> (Name(k), qs) in t.byQubits || Name(k) in t.byName)
    ensures (k.Gate? || k.Measure?) && (Name(k), qs) in t.byQubits ==> r == Some(t.byQubits[(Name(k), qs)])
    ensures (k.Gate? || k.Measure?) && (Name(k), qs) !in t.byQubits && Name(k) in t.byName ==>
      r == Some(t.byName[Name(k)])
  {
    match k
    case Barrier => Some(0)
    case Delay(d) => Some(d)
    case _ =>
      if (Name(k), qs) in t.byQubits then Some(t.byQubits[(Name(k), qs)])
      else if Name(k) in t.byName then Some(t.byName[Name(k)])
      else None
  }

  /** The duration the scheduler uses for one instruction: a calibration of the
      circuit for this name and these qubits overrides the table. */
  function NodeDuration(cal: Calibrations, t: DurationTable, op: Op): (r: Option<nat>)
    ensures (Name(op.kind), op.qubits) in cal ==> r == Some(cal[(Name(op.kind), op.qubits)])
    ensures (Name(op.kind), op.qubits) !in cal ==> r == Lookup(t, op.kind, op.qubits)
  {
    var key := (Name(op.kind), op.qubits);
    if key in cal then Some(cal[key]) else Lookup(t, op.kind, op.qubits)
  }

  /** The duration of an instruction under a table built from a list of
      entries: its calibration if the circuit has one; otherwise, for a gate or
      a measure, the last entry for its name on exactly its qubits, failing that
      the last wildcard entry for its name, and failing both none at all. */
  lemma CalibrationThenLastEntry(cal: Calibrations, entries: seq<Entry>, op: Op)
    ensures var name := Name(op.kind);
      var r := NodeDuration(cal, FromEntries(entries), op);
      && ((name, op.qubits) in cal ==> r == Some(cal[(name, op.qubits)]))
      && ((name, op.qubits) !in cal && op.kind.Barrier? ==> r == Some(0))
      && ((name, op.qubits) !in cal && op.kind.Delay? ==> r == Some(op.kind.length))
      && ((name, op.qubits) !in cal && (op.kind.Gate? || op.kind.Measure?) &&
          (exists i :: 0 <= i < |entries| && ExactFor(entries[i], name, op.qubits)) ==>
          exists i :: 0 <= i < |entries| && ExactFor(entries[i], name, op.qubits)
            && r == Some(entries[i].duration)
            && forall j :: i < j < |entries| ==> !ExactFor(entries[j], name, op.qubits))
      && ((name, op.qubits) !in cal && (op.kind.Gate? || op.kind.Measure?) &&
          (forall i :: 0 <= i < |entries| ==> !ExactFor(entries[i], name, op.qubits)) &&
          (exists i :: 0 <= i < |entries| && WildcardFor(entries[i], name)) ==>
          exists i :: 0 <= i < |entries| && WildcardFor(entries[i], name)
            && r == Some(entries[i].duration)
            && forall j :: i < j < |entries| ==> !WildcardFor(entries[j], name))
      && ((name, op.qubits) !in cal && (op.kind.Gate? || op.kind.Measure?) &&
          (forall i :: 0 <= i < |entries| ==> !ExactFor(entries[i], name, op.qubits)) &&
          (forall i :: 0 <= i < |entries| ==> !WildcardFor(entries[i], name)) ==>
          r == None)
  {
    ExactLookupIsLastEntry(entries, Name(op.kind), op.qubits);
    WildcardLookupIsLastEntry(entries, Name(op.kind));
  }

  /** Every instruction of the list has a known duration. */
  predicate AllResolved(cal: Calibrations, t: DurationTable, ops: seq<Op>)
  {
    forall i :: 0 <= i < |ops| ==> NodeDuration(cal, t, ops[i]).Some?
  }

  /** The duration of each instruction, in order. */
  function DurationsOf(cal: Calibrations, t: DurationTable, ops: seq<Op>): (r: seq<nat>)
    requires AllResolved(cal, t, ops)
    ensures |r| == |ops|
    ensures forall i :: 0 <= i < |ops| ==> NodeDuration(cal, t, ops[i]) == Some(r[i])
  {
    if ops == [] then []
    else
      assert forall i :: 1 <= i < |ops| ==> ops[1..][i - 1] == ops[i];
      [NodeDuration(cal, t, ops[0]).value] + DurationsOf(cal, t, ops[1..])
  }

  /** One more instruction with a known duration keeps every duration known. */
  lemma AllResolvedSnoc(cal: Calibrations, t: DurationTable, ops: seq<Op>, op: Op)
    requires AllResolved(cal, t, ops) && NodeDuration(cal, t, op).Some?
    ensures AllResolved(cal, t, ops + [op])
  {
    var all := ops + [op];
    assert forall i :: 0 <= i < |ops| ==> all[i] == ops[i];
    assert all[|ops|] == op;
  }

  /** Resolving one more instruction extends the durations by its own. */
  lemma {:induction false} DurationsOfSnoc(cal: Calibrations, t: DurationTable, ops: seq<Op>, op: Op)
    requires AllResolved(cal, t, ops) && NodeDuration(cal, t, op).Some?
    ensures AllResolved(cal, t, ops + [op])
    ensures DurationsOf(cal, t, ops + [op]) == DurationsOf(cal, t, ops) + [NodeDuration(cal, t, op).value]
    decreases |ops|
  {
    AllResolvedSnoc(cal, t, ops, op);
    var all := ops + [op];
    var d := NodeDuration(cal, t, op).value;
    if ops == [] {
      assert all[1..] == [];
      assert DurationsOf(cal, t, all) == [d] + DurationsOf(cal, t, []);
    } else {
      var rest := ops[1..];
      assert all[0] == ops[0] && all[1..] == rest + [op];
      assert AllResolved(cal, t, rest) by {
        assert forall i :: 1 <= i < |ops| ==> rest[i - 1] == ops[i];
      }
      DurationsOfSnoc(cal, t, rest, op);
      var d0 := [NodeDuration(cal, t, ops[0]).value];
      calc {
        DurationsOf(cal, t, all);
        d0 + DurationsOf(cal, t, rest + [op]);
        d0 + (DurationsOf(cal, t, rest) + [d]);
        (d0 + DurationsOf(cal, t, rest)) + [d];
        DurationsOf(cal, t, ops) + [d];
      }
    }
  }

  /** The durations are fixed instruction by instruction. */
  lemma DurationsAre(cal: Calibrations, t: DurationTable, ops: seq<Op>, durs: seq<nat>)
    requires |durs| == |ops| && forall k :: 0 <= k < |ops| ==> NodeDuration(cal, t, ops[k]) == Some(durs[k])
    ensures AllResolved(cal, t, ops) && DurationsOf(cal, t, ops) == durs
  {
  }

  /** Resolve the duration of every instruction in order, as the time-unit
      conversion run before scheduling does; it fails at the first instruction
      whose duration is unknown. */
  method ResolveDurations(cal: Calibrations, t: DurationTable, ops: seq<Op>) returns (r: Result<seq<nat>>)
    ensures r.Success? <==> AllResolved(cal, t, ops)
    ensures r.Success? ==> r.value == DurationsOf(cal, t, ops)
    ensures r.Failure? ==>
      && r.error.UnresolvedDuration? && r.error.index < |ops|
      && NodeDuration(cal, t, ops[r.error.index]).None?
      && AllResolved(cal, t, ops[..r.error.index])
  {
    var durs: seq<nat> := [];
    var i := 0;
    while i < |ops|
      invariant 0 <= i <= |ops|
      invariant AllResolved(cal, t, ops[..i]) && durs == DurationsOf(cal, t, ops[..i])
    {
      var d := NodeDuration(cal, t, ops[i]);
      if d.None? {
        return Failure(UnresolvedDuration(i));
      }
      assert ops[..i + 1] == ops[..i] + [ops[i]];
      DurationsOfSnoc(cal, t, ops[..i], ops[i]);
      durs := durs + [d.value];
      i := i + 1;
    }
    assert ops[..i] == ops;
    r := Success(durs);
  }

  /** Whether padding may place a delay on qubit `q`: always without a target,
      otherwise only where the target supports `delay`. */
  predicate DelaySupported(target: Option<Target>, q: nat)
  {
    target.None? || q in target.value.delayQubits
  }
}
