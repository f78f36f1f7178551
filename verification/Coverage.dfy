/**
 Which checks of the durable state can ever fail: none but the comparison of admission times with
 the time stamps of what was executed under them.
 */
module Coverage {
  import opened Common
  import opened Gates
  import opened Replay
  import opened History
  import opened Scoring
  import opened Campaign
  import opened Script
  import opened Ledger
  import opened Provenance
  import opened Durable
  import opened Environment
  import opened Steps
  import Admission

  // ---------------------------------------------------------------------------
  // Coverage
  // ---------------------------------------------------------------------------

  function StartedAt(j: CellJournal): Option<int> {
    if j.Finished? then Some(j.startedAt) else j.started
  }

  /** Every control on disk has a start event, and one admitted calibration precedes them all. */
  predicate ControlsTimely(admissions: Admissions, raw: Raw) {
    var controls := set c | c in raw && !c.Search?;
    controls == {} ||
    (&& (forall c :: c in controls ==> StartedAt(raw[c]).Some?)
     && exists a :: a in admissions && IsAdmittedCalibration(a)
                    && forall c :: c in controls ==> a.body.observation.observedAt <= StartedAt(raw[c]).value)
  }

  /** The calibration half of the execution coverage check. */
  predicate ControlsCovered(admissions: Admissions, raw: Raw, calibrationExists: bool) {
    && (ControlA in raw || ControlB in raw || calibrationExists ==> exists a :: a in admissions && IsAdmittedCalibration(a))
    && ControlsTimely(admissions, raw)
  }

  /** No execution carries an earlier time stamp than every admission of it. */
  ghost predicate Timely(f: Frozen, d: Store)
    requires |d.past| == |d.records| + 1
  {
    StartsTimely(f, d.admissions, d.records, d.past) && ControlsTimely(d.admissions, d.raw)
  }

  /** The provenance checks pass on everything the controller keeps, but for time stamps. */
  lemma {:induction false} ChecksOfKept(f: Frozen, results: Results, d: Store)
    requires Kept(f, results, d)
    ensures f.policy.primaryCaseIds != []
    ensures Admission.ValidChain(d.admissions, f.binding, d.records)
    ensures forall a :: a in d.admissions ==> 0 <= a.body.eventCount <= |d.records|
    ensures TargetsBound(f, d.admissions, d.records)
    ensures |d.past| == |d.records| + 1
    ensures StartsCovered(f, d.admissions, d.records) && ControlsCovered(d.admissions, d.raw, d.calibration.Some?)
            <==> Timely(f, d)
  {
    hide Sound, Topology, Remembered, Admission.ValidChain, StartsCovered, TargetsBound, StartsTimely, ControlsTimely;
    PrimaryCases(f);
    AttributedPassesChecks(f, results, d.admissions, d.records, d.past);
  }

  // ---------------------------------------------------------------------------
  // Admissions
  // ---------------------------------------------------------------------------

  lemma {:induction false} ObservationReadsBack(b: Admission.Binding, at: int, r: Reading)
    ensures var o := Admission.Observe(b, at, r.memory, r.swap, r.harness, r.harnessFiles);
            && (o.None? <==> !ReadingIsSound(r))
            && (o.Some? ==> o.value.observedAt == at
                            && o == Admission.Observe(b, o.value.observedAt, o.value.memory, o.value.swap, o.value.harness,
                                                      o.value.harnessFiles)
                            && (o.value.blockers == [] <==> o.value.outcome == Admission.Admitted))
  {
  }

  /** An admitted record for the target, and with it whatever the next steps need. */
  ghost predicate AdmittedTarget(f: Frozen, d: Store, t: Target) {
    && |d.past| == |d.records| + 1
    && (d.calibration.None? ==> AdmittedCalibration(d.admissions))
    && (TargetOf(f, d.Current()) == Some(t) ==> AdmittedNow(f, d))
  }

  lemma {:induction false} AdmissionTaken(f: Frozen, d: Store, t: Target, o: Admission.Observation)
    requires |d.past| == |d.records| + 1 && Admissible(f, d, t)
    ensures Grew(d, WithAdmission(f, d, t, o))
    ensures o.outcome == Admission.Admitted ==> AdmittedTarget(f, WithAdmission(f, d, t, o), t)
  {
    hide TargetOf;
    var a, after := NewAdmission(f, d, t, o), WithAdmission(f, d, t, o);
    assert a in after.admissions;
    if TargetOf(f, d.Current()) == Some(t) && o.outcome == Admission.Admitted {
      assert AdmittedFor(f, a, |d.records|, after.past);
    }
  }

  // ---------------------------------------------------------------------------
  // Attestation
  // ---------------------------------------------------------------------------

  /** The journal replays, with and without its raw cells, and the raw search cells lie where it says they may. */
  ghost predicate Attested(f: Frozen, d: Store)
    requires f.policy.primaryCaseIds != []
  {
    var structural, strict := FrozenReplay(f, map[], false, d.records), FrozenReplay(f, d.raw, true, d.records);
    && structural.Ok? && strict.Ok?
    && (forall c :: PairStarts(EventsOf(Unrepeated(d.records)), c) <= 2)
    && StartedCells(d.raw, EventsOf(Unrepeated(d.records)))
    && (IsPair(structural.value.machine) ==> exists prefix :: PendingPrefix(d.raw, structural.value.machine, prefix))
  }

  lemma {:induction false} AttestedMeans(f: Frozen, results: Results, d: Store)
    requires Kept(f, results, d)
    ensures f.policy.primaryCaseIds != [] && d.past != []
    ensures var structural, strict := FrozenReplay(f, map[], false, d.records), FrozenReplay(f, d.raw, true, d.records);
            && (structural.Ok? ==> Reads(structural.value.machine, d.Current()))
            && (Attested(f, d) ==>
                  && structural.Ok? && strict.Ok?
                  && (forall c :: PairStarts(EventsOf(Unrepeated(d.records)), c) <= 2)
                  && StartedCells(d.raw, EventsOf(Unrepeated(d.records)))
                  && (IsPair(structural.value.machine) ==>
                        exists prefix :: PendingPrefix(d.raw, structural.value.machine, prefix)))
  {
    hide Sound, Topology, CalibrationKept, Admission.ValidChain, Attributed, FrozenReplay, StartedCells, PendingPrefix, OnTrack,
         History.Valid, Reads;
    PrimaryCases(f);
    KeptTrack(f, results, d);
    assert d.records[..|d.records|] == d.records;
    assert Placed(f, results, d.records, d.Current());
    StateReads(f.policy, d.Current());
  }

  /** Everything that the controller keeps attests itself. */
  lemma {:induction false} KeptIsAttested(f: Frozen, results: Results, d: Store)
    requires Kept(f, results, d)
    ensures f.policy.primaryCaseIds != [] && Attested(f, d)
  {
    hide CalibrationKept, Admission.ValidChain, Attributed, FrozenReplay, StartedCells, PendingPrefix, OnTrack, History.Valid,
         Reads, IsPair, ReplayRecords, Indexed, ArmsWritten, OrderedCells;
    KeptReplays(f, results, d);
    KeptTrack(f, results, d);
    assert d.records[..|d.records|] == d.records;
    assert Placed(f, results, d.records, d.Current());
    StateReads(f.policy, d.Current());
    forall c
      ensures PairStarts(EventsOf(d.records), c) <= 2
    {
      OccurrencesAreStarts(f, d.raw, d.records, c);
    }
    if IsPair(d.Current().State()) {
      PendingExists(d.raw, d.Current().State(), d.Current());
    }
  }

  /** The missing cells of the running pair are written in order. */
  lemma {:induction false} PendingExists(raw: Raw, m: Machine, h: History)
    requires Reads(m, h) && IsPair(m) && OrderedCells(raw, h)
    ensures exists prefix :: PendingPrefix(raw, m, prefix)
  {
    ReadsPair(m, h);
    PairCells(m, h, 0);
    PairCells(m, h, 1);
    assert PairCell(h, 1) in raw ==> PairCell(h, 0) in raw;
    hide Reads, PairCell, PairsOf, PairOrder, CellAt, MachineStage, CurrentPair, CellEvent, OrderedCells;
    var a := |m.completedArms|;
    var missing := Missing(m);
    var present := if a == 0 then if PairCell(h, 0) !in raw then 0 else if PairCell(h, 1) !in raw then 1 else 2
                   else if a == 1 && PairCell(h, 1) in raw then 1 else 0;
    assert PendingPrefix(raw, m, missing[..present]) by {
      forall k | 0 <= k < |missing|
        ensures PendingCell(m, missing[k]) == PairCell(h, a + k)
      {
      }
    }
  }

  /** On a spaced clock, no pair start is stamped before its admission. */
  ghost predicate Punctual(f: Frozen, world: nat -> World, admissions: Admissions, records: seq<Record>, past: seq<History>)
    requires |past| == |records| + 1
  {
    Spaced(world) ==> StartsTimely(f, admissions, records, past)
  }

  predicate ClockAhead(admissions: Admissions, clock: int) {
    admissions != [] ==> admissions[|admissions| - 1].body.observation.observedAt <= clock
  }

  lemma {:induction false} AdmissionsBefore(records: Admissions, b: Admission.Binding, events: seq<Record>, clock: int)
    requires Admission.ValidChain(records, b, events) && ClockAhead(records, clock)
    ensures forall a :: a in records ==> a.body.observation.observedAt <= clock
    decreases |records|
  {
    if records != [] {
      var n := |records| - 1;
      AdmissionsBefore(records[..n], b, events, clock);
      assert records == records[..n] + [records[n]];
    }
  }

  /** A pair start stamped after all admissions of its pair keeps the starts timely. */
  lemma {:induction false} TimelyAppend(f: Frozen, admissions: Admissions, records: seq<Record>, past: seq<History>, r: Record, h: History)
    requires |past| == |records| + 1 && StartsTimely(f, admissions, records, past)
    requires r.event.PairStarted? ==> exists a :: a in admissions && AdmittedFor(f, a, |records|, past)
    requires r.timestamp.Aware? && forall a :: a in admissions ==> a.body.observation.observedAt <= r.timestamp.instant
    ensures StartsTimely(f, admissions, records + [r], past + [h])
  {
    hide TargetOf;
    var longer, all := records + [r], past + [h];
    forall i | 0 <= i < |longer| && longer[i].event.PairStarted?
      ensures exists a :: a in admissions && AdmittedFor(f, a, i, all) && longer[i].timestamp.Aware?
                          && a.body.observation.observedAt <= longer[i].timestamp.instant
    {
      if i < |records| {
        var a :| a in admissions && AdmittedFor(f, a, i, past) && records[i].timestamp.Aware?
                 && a.body.observation.observedAt <= records[i].timestamp.instant;
        assert AdmittedFor(f, a, i, all);
      } else {
        var a :| a in admissions && AdmittedFor(f, a, |records|, past);
        assert AdmittedFor(f, a, i, all);
      }
    }
  }

  lemma {:induction false} PunctualAppend(f: Frozen, results: Results, world: nat -> World, d: Store, e: Event, h: History, clock: int, look: nat)
    requires Kept(f, results, d) && |d.past| == |d.records| + 1 && ClockAhead(d.admissions, clock) && Permitted(f, d, e)
    requires Punctual(f, world, d.admissions, d.records, d.past)
    ensures var r := Record(f.Bind(e), e, Aware(Stamp(clock + world(look).delay)));
            Punctual(f, world, d.admissions, d.records + [r], d.past + [h])
  {
    hide Kept, TargetOf, StartsTimely, AdmittedFor;
    if Spaced(world) {
      ChecksOfKept(f, results, d);
      AdmissionsBefore(d.admissions, f.binding, d.records, clock);
      TimelyAppend(f, d.admissions, d.records, d.past, Record(f.Bind(e), e, Aware(Stamp(clock + world(look).delay))), h);
    }
  }

  /**
   Exactly when a pair start passes the coverage check that reads it back: when some admission of its pair was
   observed no later than the start's stamp, which is truncated to the millisecond.
   */
  lemma {:induction false} PairStartCovered(f: Frozen, results: Results, d: Store, e: Event, at: int)
    requires Kept(f, results, d) && Driven(f, results, d.raw, d.Current(), e) && Permitted(f, d, e)
    requires e.PairStarted? && StartsCovered(f, d.admissions, d.records)
    ensures f.policy.primaryCaseIds != [] && |d.past| == |d.records| + 1
    ensures StartsCovered(f, d.admissions, d.records + [Record(f.Bind(e), e, Aware(Stamp(at)))])
            <==> exists a :: a in d.admissions && AdmittedFor(f, a, |d.records|, d.past)
                             && a.body.observation.observedAt <= Stamp(at)
  {
    hide Kept, Driven, Permitted, StartsCovered, TargetOf, GapBreaks, Extend, Advances, AdmittedFor, StartsTimely;
    ChecksOfKept(f, results, d);
    KeepAppend(f, results, d, e, Aware(Stamp(at)));
    NoGapAtStart(results, d.Current(), e);
    var after := Appended(d, f, e, Aware(Stamp(at)));
    CheckedStarts(f, results, d);
    CheckedStarts(f, results, after);
    LastStartTimely(f, d.admissions, d.records, d.past, after.records[|d.records|], after.past[|d.records| + 1]);
    assert after.past == d.past + [after.past[|d.records| + 1]];
  }

  lemma {:induction false} NoGapAtStart(results: Results, h: History, e: Event)
    requires e.PairStarted?
    ensures !GapBreaks(results, h, e)
  {
  }

  lemma {:induction false} CheckedStarts(f: Frozen, results: Results, d: Store)
    requires Kept(f, results, d)
    ensures f.policy.primaryCaseIds != [] && |d.past| == |d.records| + 1
    ensures StartsCovered(f, d.admissions, d.records) <==> StartsTimely(f, d.admissions, d.records, d.past)
  {
    hide Sound, Topology, Remembered, Admission.ValidChain, StartsCovered, TargetsBound, StartsTimely, CalibrationKept;
    PrimaryCases(f);
    AttributedPassesChecks(f, results, d.admissions, d.records, d.past);
  }

  lemma {:induction false} LastStartTimely(f: Frozen, admissions: Admissions, records: seq<Record>, past: seq<History>, r: Record, h: History)
    requires |past| == |records| + 1 && StartsTimely(f, admissions, records, past) && r.event.PairStarted?
    ensures StartsTimely(f, admissions, records + [r], past + [h])
            <==> exists a :: a in admissions && AdmittedFor(f, a, |records|, past) && r.timestamp.Aware?
                             && a.body.observation.observedAt <= r.timestamp.instant
  {
    hide TargetOf;
    var longer, all := records + [r], past + [h];
    assert forall i, a :: 0 <= i <= |records| ==> (AdmittedFor(f, a, i, all) <==> AdmittedFor(f, a, i, past));
    assert longer[|records|] == r;
    if StartsTimely(f, admissions, longer, all) {
      var a :| a in admissions && AdmittedFor(f, a, |records|, all) && r.timestamp.Aware?
               && a.body.observation.observedAt <= r.timestamp.instant;
      assert AdmittedFor(f, a, |records|, past);
    }
  }

  /**
   Provenance can be lost although the controller did everything in order. A pair whose only admission was observed
   at one instant and that starts at a later one is refused exactly if both fall into one millisecond and the
   admission is inside it.
   */
  lemma {:induction false} LaterStartCovered(f: Frozen, results: Results, d: Store, e: Event, admittedAt: int, startedAt: int)
    requires Kept(f, results, d) && Driven(f, results, d.raw, d.Current(), e) && Permitted(f, d, e)
    requires e.PairStarted? && StartsCovered(f, d.admissions, d.records) && admittedAt <= startedAt
    requires forall a :: a in d.admissions && AdmittedFor(f, a, |d.records|, d.past) ==> a.body.observation.observedAt == admittedAt
    ensures StartsCovered(f, d.admissions, d.records + [Record(f.Bind(e), e, Aware(Stamp(startedAt)))])
            <==> Stamp(admittedAt) != Stamp(startedAt) || admittedAt == Stamp(admittedAt)
  {
    AdmissionOf(f, d, e);
    hide Kept, Driven, Permitted, StartsCovered, AdmittedFor;
    PairStartCovered(f, results, d, e, startedAt);
    StampPrecedesAdmission(admittedAt, startedAt);
  }

  lemma {:induction false} AdmissionOf(f: Frozen, d: Store, e: Event)
    requires |d.past| == |d.records| + 1 && Permitted(f, d, e) && e.PairStarted?
    ensures exists a :: a in d.admissions && AdmittedFor(f, a, |d.records|, d.past)
  {
  }

  lemma {:induction false} PunctualAdmission(f: Frozen, world: nat -> World, d: Store, t: Target, o: Admission.Observation)
    requires |d.past| == |d.records| + 1 && Punctual(f, world, d.admissions, d.records, d.past)
    ensures Punctual(f, world, WithAdmission(f, d, t, o).admissions, d.records, d.past)
  {
    hide TargetOf, AdmittedFor;
  }

  // ---------------------------------------------------------------------------
  // Controls
  // ---------------------------------------------------------------------------

  /**
   Exactly when writing a control keeps the controls covered: when its journal names a start, and some admitted
   calibration was observed no later than that.
   */
  lemma {:induction false} ControlStartCovered(admissions: Admissions, raw: Raw, cell: Cell, content: CellJournal)
    requires ControlsTimely(admissions, raw) && cell !in raw && !cell.Search?
    ensures ControlsTimely(admissions, raw[cell := content])
            <==> StartedAt(content).Some?
                 && exists a :: a in admissions && IsAdmittedCalibration(a)
                                && a.body.observation.observedAt <= StartedAt(content).value
  {
    var more := raw[cell := content];
    var controls := set c | c in more && !c.Search?;
    assert cell in controls;
    if ControlsTimely(admissions, more) {
      var a :| a in admissions && IsAdmittedCalibration(a)
               && forall c :: c in controls ==> a.body.observation.observedAt <= StartedAt(more[c]).value;
      assert a.body.observation.observedAt <= StartedAt(more[cell]).value;
    }
    if StartedAt(content).Some? {
      if a :| a in admissions && IsAdmittedCalibration(a) && a.body.observation.observedAt <= StartedAt(content).value {
        EarlierCalibration(admissions, raw, a);
        var b :| b in admissions && IsAdmittedCalibration(b)
                 && b.body.observation.observedAt <= a.body.observation.observedAt
                 && forall c :: c in raw && !c.Search? ==> b.body.observation.observedAt <= StartedAt(raw[c]).value;
        assert forall c :: c in more && !c.Search? ==> StartedAt(more[c]).Some? && b.body.observation.observedAt <= StartedAt(more[c]).value;
      }
    }
  }

  /** Of two admitted calibrations the earlier one precedes whatever either of them precedes. */
  lemma {:induction false} EarlierCalibration(admissions: Admissions, raw: Raw, a: Admission.Record)
    requires ControlsTimely(admissions, raw) && a in admissions && IsAdmittedCalibration(a)
    ensures forall c :: c in raw && !c.Search? ==> StartedAt(raw[c]).Some?
    ensures exists b :: b in admissions && IsAdmittedCalibration(b)
                        && b.body.observation.observedAt <= a.body.observation.observedAt
                        && forall c :: c in raw && !c.Search? ==> b.body.observation.observedAt <= StartedAt(raw[c]).value
  {
    var controls := set c | c in raw && !c.Search?;
    if controls == {} {
      assert forall c :: c in raw && !c.Search? ==> c in controls;
    } else {
      var b :| b in admissions && IsAdmittedCalibration(b)
               && forall c :: c in controls ==> b.body.observation.observedAt <= StartedAt(raw[c]).value;
      assert forall c :: c in raw && !c.Search? ==> c in controls;
      if a.body.observation.observedAt < b.body.observation.observedAt {
        assert forall c :: c in raw && !c.Search? ==> a.body.observation.observedAt <= StartedAt(raw[c]).value;
      }
    }
  }

  /** The journal of every launched control names a start that is not before the millisecond of its launch. */
  ghost predicate HonestStarts(raw: Raw, launched: seq<Cell>, instants: seq<int>)
    requires |instants| == |launched|
  {
    forall i :: 0 <= i < |launched| && launched[i] in raw && !launched[i].Search? ==>
      StartedAt(raw[launched[i]]).Some? && StartedAt(raw[launched[i]]).value >= Stamp(instants[i])
  }

  /** Every cell that is written is written whole, as a finished result. */
  ghost predicate NeverTorn(world: nat -> World, results: Results) {
    (forall k: nat :: !world(k).wrote.Torn?) && (forall c :: results(c).Finished?)
  }

  /**
   What is on disk was launched; if cells are honest and the clock spaced, then after its admission; and nothing is
   torn unless the world or a result tears it.
   */
  ghost predicate Traced(
    world: nat -> World, results: Results, admissions: Admissions, raw: Raw, launched: seq<Cell>, instants: seq<int>)
    requires |instants| == |launched|
  {
    && (forall c :: c in raw ==> c in launched)
    && (Spaced(world) && HonestStarts(raw, launched, instants) ==> ControlsTimely(admissions, raw))
    && (NeverTorn(world, results) ==> forall c :: c in raw ==> raw[c].Finished?)
  }

  lemma {:induction false} AdmissionsChain(f: Frozen, results: Results, d: Store)
    requires Kept(f, results, d)
    ensures Admission.ValidChain(d.admissions, f.binding, d.records)
  {
  }

  /** The journal that an attempt at a cell leaves. */
  function WrittenBy(results: Results, cell: Cell, wrote: Wrote): CellJournal
    requires wrote != NoJournal
  {
    if wrote == Whole then results(cell) else Broken(wrote.kind, wrote.started)
  }

  lemma {:induction false} NothingIsTraced(world: nat -> World, results: Results)
    ensures Traced(world, results, [], map[], [], [])
  {
  }

  /** A further admission covers no less. */
  lemma {:induction false} TracedAdmission(world: nat -> World, results: Results, admissions: Admissions, raw: Raw, launched: seq<Cell>,
                        instants: seq<int>, a: Admission.Record)
    requires |instants| == |launched| && Traced(world, results, admissions, raw, launched, instants)
    ensures Traced(world, results, admissions + [a], raw, launched, instants)
  {
    if ControlsTimely(admissions, raw) {
      MoreAdmissions(admissions, raw, a);
    }
  }

  lemma {:induction false} MoreAdmissions(admissions: Admissions, raw: Raw, a: Admission.Record)
    requires ControlsTimely(admissions, raw)
    ensures ControlsTimely(admissions + [a], raw)
  {
    var controls := set c | c in raw && !c.Search?;
    if controls != {} {
      var b :| b in admissions && IsAdmittedCalibration(b)
               && forall c :: c in controls ==> b.body.observation.observedAt <= StartedAt(raw[c]).value;
      assert b in admissions + [a];
    }
  }

  /** A launch that leaves no journal. */
  lemma {:induction false} TracedAttempt(world: nat -> World, results: Results, admissions: Admissions, raw: Raw, launched: seq<Cell>,
                      instants: seq<int>, cell: Cell, at: int)
    requires |instants| == |launched| && Traced(world, results, admissions, raw, launched, instants)
    ensures Traced(world, results, admissions, raw, launched + [cell], instants + [at])
  {
    if HonestStarts(raw, launched + [cell], instants + [at]) {
      HonestBefore(raw, raw, launched, instants, cell, at);
    }
  }

  lemma {:induction false} HonestBefore(raw: Raw, more: Raw, launched: seq<Cell>, instants: seq<int>, cell: Cell, at: int)
    requires |instants| == |launched| && Extends(raw, more)
    requires HonestStarts(more, launched + [cell], instants + [at])
    ensures HonestStarts(raw, launched, instants)
    ensures cell in more && !cell.Search? ==> StartedAt(more[cell]).Some? && StartedAt(more[cell]).value >= Stamp(at)
  {
    var cells, times := launched + [cell], instants + [at];
    assert cells[|launched|] == cell && times[|launched|] == at;
    forall i | 0 <= i < |launched| && launched[i] in raw && !launched[i].Search?
      ensures StartedAt(raw[launched[i]]).Some? && StartedAt(raw[launched[i]]).value >= Stamp(instants[i])
    {
      assert cells[i] == launched[i] && times[i] == instants[i];
    }
  }

  /** A control launched after its admission, on a spaced clock, starts after it. */
  lemma {:induction false} LaunchedControlIsTimely(f: Frozen, d: Store, cell: Cell, content: CellJournal, clock: int, at: int)
    requires d.past != [] && Admission.ValidChain(d.admissions, f.binding, d.records) && ClockAhead(d.admissions, clock)
    requires Launchable(d, cell) && !cell.Search? && at >= clock + 1000
    requires ControlsTimely(d.admissions, d.raw) && StartedAt(content).Some? && StartedAt(content).value >= Stamp(at)
    ensures ControlsTimely(d.admissions, d.raw[cell := content])
  {
    hide ControlsTimely, ClockAhead, Admission.ValidChain;
    AdmissionsBefore(d.admissions, f.binding, d.records, clock);
    var a :| a in d.admissions && IsAdmittedCalibration(a);
    assert a.body.observation.observedAt <= clock < Stamp(at);
    ControlStartCovered(d.admissions, d.raw, cell, content);
  }

  /** A launch that leaves a journal: after the last admission, so a control starts after its calibration's. */
  lemma {:induction false} TracedLaunch(world: nat -> World, results: Results, f: Frozen, d: Store, launched: seq<Cell>, instants: seq<int>,
                     cell: Cell, content: CellJournal, clock: int, look: nat)
    requires d.past != [] && Admission.ValidChain(d.admissions, f.binding, d.records) && ClockAhead(d.admissions, clock)
    requires Launchable(d, cell) && |instants| == |launched| && Traced(world, results, d.admissions, d.raw, launched, instants)
    requires world(look).wrote != NoJournal && content == WrittenBy(results, cell, world(look).wrote)
    ensures Traced(world, results, d.admissions, d.raw[cell := content], launched + [cell], instants + [clock + world(look).delay])
  {
    hide Admission.ValidChain, ControlsTimely, HonestStarts, ClockAhead;
    LaunchIsPristine(d, cell);
    hide Launchable;
    var more, at := d.raw[cell := content], clock + world(look).delay;
    assert forall c :: c in more ==> c in launched + [cell];
    if Spaced(world) && HonestStarts(more, launched + [cell], instants + [at]) {
      HonestBefore(d.raw, more, launched, instants, cell, at);
      if cell.Search? {
        SearchCellsAreNoControls(d.admissions, d.raw, cell, content);
      } else {
        LaunchedControlIsTimely(f, d, cell, content, clock, at);
      }
    }
  }

  lemma {:induction false} SearchCellsAreNoControls(admissions: Admissions, raw: Raw, cell: Cell, content: CellJournal)
    requires cell.Search? && cell !in raw
    ensures ControlsTimely(admissions, raw[cell := content]) <==> ControlsTimely(admissions, raw)
  {
    assert (set c | c in raw[cell := content] && !c.Search?) == (set c | c in raw && !c.Search?);
  }

  /** On a spaced clock and over honest cells, every admission check passes. */
  lemma {:induction false} HonestIsTimely(f: Frozen, world: nat -> World, results: Results, d: Store, launched: seq<Cell>, instants: seq<int>)
    requires |d.past| == |d.records| + 1 && Punctual(f, world, d.admissions, d.records, d.past)
    requires |instants| == |launched| && Traced(world, results, d.admissions, d.raw, launched, instants)
    requires Spaced(world) && HonestStarts(d.raw, launched, instants)
    ensures Timely(f, d)
  {
    hide StartsTimely, ControlsTimely, HonestStarts;
  }
}
