/**
 Everything a campaign keeps on disk, what the controller maintains about it, and the four kinds of
 durable write that maintain it: a controller transition, a cell journal, the calibration record and
 an admission record.
 */
module Durable {
  import opened Common
  import opened Gates
  import opened Replay
  import opened History
  import opened Scoring
  import opened Campaign
  import opened Script
  import opened Ledger
  import opened Provenance
  import Admission

  // ---------------------------------------------------------------------------
  // Calibration
  // ---------------------------------------------------------------------------

  datatype CalibrationRecord = CalibrationRecord(observation: Observation, passed: bool, reasons: seq<Reason>)

  /** The two controls that have been projected. */
  datatype Controls = Controls(a: Option<CellJournal>, b: Option<CellJournal>)
  {
    predicate Complete() {
      a.Some? && b.Some?
    }

    predicate Valid() {
      (a.Some? ==> a.value.Finished?) && (b.Some? ==> b.value.Finished?)
    }
  }

  function ProjectControl(raw: Raw, cell: Cell): Result<Option<CellJournal>, Failure> {
    if cell !in raw then Ok(None)
    else if raw[cell].Broken? then Err(CellFailure(raw[cell].kind))
    else Ok(Some(raw[cell]))
  }

  function ControlTopology(raw: Raw): (r: Result<Controls, Failure>)
    ensures r.Ok? ==> r.value.Valid()
  {
    if ControlB in raw && ControlA !in raw then Err(Planning)
    else
      var a, b := ProjectControl(raw, ControlA), ProjectControl(raw, ControlB);
      if a.Err? then Err(a.error) else if b.Err? then Err(b.error) else Ok(Controls(a.value, b.value))
  }

  function Recomputed(f: Frozen, c: Controls): Result<CalibrationRecord, Failure>
    requires f.policy.primaryCaseIds != [] && c.Valid()
  {
    if !c.Complete() then Err(Planning)
    else if !GapHolds(c.a.value, c.b.value) then Err(CellFailure(Measurement))
    else
      var o := Score(f, 0, c.a.value, c.b.value);
      if o.None? then Err(CellFailure(Measurement))
      else
        var reasons := CalibrationReasons(f.policy, o.value);
        Ok(CalibrationRecord(o.value, reasons == [], reasons))
  }

  /** A calibration record counts only if both raw controls still recompute to it. */
  function VerifyCalibration(f: Frozen, raw: Raw, record: Option<CalibrationRecord>): Result<Option<CalibrationRecord>, Failure>
    requires f.policy.primaryCaseIds != []
  {
    if record.None? then Ok(None)
    else
      var controls := ControlTopology(raw);
      if controls.Err? then Err(controls.error)
      else
        var expected := Recomputed(f, controls.value);
        if expected.Err? then Err(expected.error)
        else if expected.value != record.value then Err(Planning)
        else Ok(record)
  }

  // ---------------------------------------------------------------------------
  // The durable state
  // ---------------------------------------------------------------------------

  /** Number of pair starts recorded for a candidate. */
  function PairStarts(events: seq<Event>, c: string): nat {
    if events == [] then 0
    else
      var n := |events| - 1;
      PairStarts(events[..n], c) + if events[n].PairStarted? && events[n].candidateId == c then 1 else 0
  }

  /** How many pair starts a search cell needs before it may have raw artifacts. */
  function StartsBefore(stage: Stage): nat {
    if stage == ScreenStage then 1 else 2
  }

  datatype Store = Store(
    records: seq<Record>, raw: Raw, calibration: Option<CalibrationRecord>, admissions: Admissions, past: seq<History>)
  {
    function Current(): History
      requires past != []
    {
      past[|past| - 1]
    }

    predicate Calibrated() {
      calibration.Some? && calibration.value.passed
    }
  }

  /** A cell with a finished journal holds its frozen result. */
  ghost predicate FrozenCells(results: Results, raw: Raw) {
    forall c :: c in raw && raw[c].Finished? ==> raw[c] == results(c)
  }

  /** Search cells are written only after their pair has started. */
  ghost predicate StartedCells(raw: Raw, events: seq<Event>) {
    forall c :: c in raw && c.Search? ==> PairStarts(events, c.candidateId) >= StartsBefore(c.stage)
  }

  /** The second cell of the running pair is written only after the first. */
  ghost predicate OrderedCells(raw: Raw, h: History) {
    h.Campaign? && h.open.Running? ==>
      var n := PairsOf(h.blocks) + h.open.Confirmed();
      CellAt(h.open, n, 1) in raw ==> CellAt(h.open, n, 0) in raw
  }

  ghost predicate Topology(results: Results, raw: Raw, records: seq<Record>, h: History) {
    FrozenCells(results, raw) && StartedCells(raw, EventsOf(records)) && OrderedCells(raw, h)
  }

  predicate IsAdmittedCalibration(a: Admission.Record) {
    !IsSearch(a) && a.body.observation.outcome == Admission.Admitted
  }

  ghost predicate AdmittedCalibration(admissions: Admissions) {
    exists a :: a in admissions && IsAdmittedCalibration(a)
  }

  /** Calibration precedes the search and is attested by its controls. */
  ghost predicate CalibrationKept(f: Frozen, d: Store)
    requires f.policy.primaryCaseIds != [] && d.past != []
  {
    && (ControlB in d.raw ==> ControlA in d.raw)
    && (ControlA in d.raw || d.calibration.Some? ==> AdmittedCalibration(d.admissions))
    && VerifyCalibration(f, d.raw, d.calibration) == Ok(d.calibration)
    && (d.Current().Campaign? && (d.Current().blocks != [] || !d.Current().open.Nothing?) ==> d.Calibrated())
    && (d.calibration.None? ==> forall a :: a in d.admissions ==> !IsSearch(a))
  }

  /** What holds of the durable state between any two writes, whatever crashed before. */
  ghost predicate Kept(f: Frozen, results: Results, d: Store) {
    && f.Valid()
    && |d.past| == |d.records| + 1
    && Remembered(f, results, d.records, d.past)
    && Sound(f, results, d.raw, d.records, d.Current())
    && Topology(results, d.raw, d.records, d.Current())
    && CalibrationKept(f, d)
    && Admission.ValidChain(d.admissions, f.binding, d.records)
    && Attributed(f, d.admissions, d.records, d.past)
  }

  const NOTHING_WRITTEN := Store([], map[], None, [], [Unstarted])

  lemma {:induction false} NothingWrittenIsKept(f: Frozen, results: Results)
    requires f.Valid()
    ensures Kept(f, results, NOTHING_WRITTEN)
  {
    hide IsSafeId, IsSha256, Header.Valid;
    assert ReplayRecords(f.policy, []) == Ok(START);
    assert EventsOf([]) == Unstarted.Events(f.policy) == [];
    assert NOTHING_WRITTEN.records[..0] == [];
    assert Placed(f, results, [], Unstarted);
  }

  // ---------------------------------------------------------------------------
  // A controller transition
  // ---------------------------------------------------------------------------

  function Appended(d: Store, f: Frozen, e: Event, t: Timestamp): Store
    requires d.past != []
    requires d.Current().Unstarted? ==> e.CampaignStarted?
    requires d.Current().Campaign? && d.Current().open.Nothing? && Advances(e) ==> e.CandidateStarted?
  {
    d.(records := d.records + [Record(f.Bind(e), e, t)], past := d.past + [Extend(d.Current(), e)])
  }

  /** What the controller checks before it starts a candidate or a pair. */
  ghost predicate Permitted(f: Frozen, d: Store, e: Event)
    requires |d.past| == |d.records| + 1
  {
    && (e.CandidateStarted? ==> d.Calibrated())
    && (e.PairStarted? ==> exists a :: a in d.admissions && AdmittedFor(f, a, |d.records|, d.past))
  }

  lemma {:induction false} OccurrencesAreStarts(f: Frozen, raw: Raw, records: seq<Record>, c: string)
    requires f.policy.primaryCaseIds != [] && FrozenFold(f, raw, true, records).Ok?
    ensures FrozenFold(f, raw, true, records).value.Occurrences(c) == PairStarts(EventsOf(records), c) <= 2
    decreases |records|
  {
    if records != [] {
      var n := |records| - 1;
      OccurrencesAreStarts(f, raw, records[..n], c);
      assert EventsOf(records)[..n] == EventsOf(records[..n]);
    }
  }

  /** The current candidate has started exactly the pairs its history says. */
  lemma {:induction false} StartsOfCurrent(f: Frozen, results: Results, raw: Raw, records: seq<Record>, h: History)
    requires Sound(f, results, raw, records, h) && h.Campaign? && !h.open.Nothing?
    ensures PairStarts(EventsOf(records), h.open.header.candidateId) == StartedPairs(h.open)
  {
    hide OnTrack, History.State, History.Events, ReplayRecords, FrozenStep, ArmsWritten, IsSafeId, IsSha256, Header.Valid;
    OccurrencesAreStarts(f, raw, records, h.open.header.candidateId);
  }

  /** Before a pair starts, neither of its cells has been written. */
  lemma {:induction false} FreshPairIsPristine(f: Frozen, results: Results, raw: Raw, records: seq<Record>, h: History, arm: Arm)
    requires Sound(f, results, raw, records, h) && Topology(results, raw, records, h) && h.Campaign? && h.open.Waiting?
    ensures Search(h.open.header.candidateId, StageOf(h.open), arm) !in raw
  {
    hide OnTrack, Records, ArmsWritten, IsSafeId, IsSha256, Header.Valid;
    StartsOfCurrent(f, results, raw, records, h);
  }

  lemma {:induction false} OrderSurvives(f: Frozen, results: Results, raw: Raw, h: History, e: Event)
    requires f.Valid() && OrderedCells(raw, h) && Driven(f, results, raw, h, e)
    requires h.Campaign? && h.open.Nothing? && Advances(e) ==> e.CandidateStarted?
    requires e.PairStarted? && h.Campaign? && h.open.Waiting? ==>
               forall arm: Arm :: Search(h.open.header.candidateId, StageOf(h.open), arm) !in raw
    ensures OrderedCells(raw, Extend(h, e))
  {
    hide IsSafeId, IsSha256, Header.Valid, PairsOf, PairOrder, PairResult, FirstVerdict, FinalVerdict, Exhausted,
         Timing.FailedBudgets, Frozen.Valid;
    if h.Campaign? && h.open.Waiting? && e.PairStarted? {
      assert Extend(h, e).open == Running(h.open.header, h.open.first, 0);
      assert StageOf(Extend(h, e).open) == StageOf(h.open);
    }
  }

  lemma {:induction false} StartedCellsSurvive(raw: Raw, records: seq<Record>, r: Record)
    requires StartedCells(raw, EventsOf(records))
    ensures StartedCells(raw, EventsOf(records + [r]))
  {
    assert EventsOf(records + [r])[..|records|] == EventsOf(records);
  }

  lemma {:induction false} TopologyGrows(f: Frozen, results: Results, raw: Raw, records: seq<Record>, h: History, e: Event, t: Timestamp)
    requires Sound(f, results, raw, records, h) && Topology(results, raw, records, h) && Driven(f, results, raw, h, e)
    requires h.Campaign? && h.open.Nothing? && Advances(e) ==> e.CandidateStarted?
    ensures Topology(results, raw, records + [Record(f.Bind(e), e, t)], Extend(h, e))
  {
    hide OnTrack, Records, ArmsWritten, Driven, OrderedCells, StartedCells, FrozenCells, Extend, Advances;
    if h.Campaign? && h.open.Waiting? && e.PairStarted? {
      forall arm: Arm
        ensures Search(h.open.header.candidateId, StageOf(h.open), arm) !in raw
      {
        FreshPairIsPristine(f, results, raw, records, h, arm);
      }
    }
    OrderSurvives(f, results, raw, h, e);
    StartedCellsSurvive(raw, records, Record(f.Bind(e), e, t));
  }

  lemma {:induction false} RememberedGrows(f: Frozen, results: Results, records: seq<Record>, past: seq<History>, r: Record, h: History)
    requires Remembered(f, results, records, past) && Placed(f, results, records + [r], h)
    ensures Remembered(f, results, records + [r], past + [h])
  {
    hide Placed;
    var longer, all := records + [r], past + [h];
    forall i | 0 <= i <= |longer|
      ensures Placed(f, results, longer[..i], all[i])
    {
      if i == |longer| {
        assert longer[..i] == longer;
      } else {
        assert longer[..i] == records[..i];
      }
    }
  }

  lemma {:induction false} AttributedGrows(f: Frozen, admissions: Admissions, records: seq<Record>, past: seq<History>, r: Record, h: History)
    requires |past| == |records| + 1 && Attributed(f, admissions, records, past)
    requires r.event.PairStarted? ==> exists a :: a in admissions && AdmittedFor(f, a, |records|, past)
    ensures Attributed(f, admissions, records + [r], past + [h])
  {
    hide TargetOf, CalibrationPrefix;
    var longer, all := records + [r], past + [h];
    assert forall i :: 0 <= i <= |records| ==> longer[..i] == records[..i];
    assert forall i :: 0 <= i <= |records| ==> all[i] == past[i];
    forall i | 0 <= i < |longer| && longer[i].event.PairStarted?
      ensures exists a :: a in admissions && AdmittedFor(f, a, i, all)
    {
      var a :| a in admissions && AdmittedFor(f, a, i, past);
      assert AdmittedFor(f, a, i, all);
    }
  }

  /**
   Appending the controller's next permitted transition keeps the durable state; the one exception is
   a second cell across a broken gap, which the frozen replay refuses to append.
   */
  lemma {:induction false} KeepAppend(f: Frozen, results: Results, d: Store, e: Event, t: Timestamp)
    requires Kept(f, results, d) && Driven(f, results, d.raw, d.Current(), e) && Permitted(f, d, e)
    requires t != Malformed && e != Unrecognised
    ensures d.Current().Unstarted? ==> e.CampaignStarted?
    ensures d.Current().Campaign? && d.Current().open.Nothing? && Advances(e) ==> e.CandidateStarted?
    ensures if GapBreaks(results, d.Current(), e)
            then FrozenReplay(f, d.raw, true, d.records + [Record(f.Bind(e), e, t)]) == Err(CellFailure(Measurement))
            else Kept(f, results, Appended(d, f, e, t))
  {
    hide Driven, Sound, Topology, Attributed, Remembered, Admission.ValidChain, GapBreaks, FrozenReplay, CalibrationKept,
         Frozen.Valid, Extend, Advances, AdmittedFor, Placed, OnTrack, History.Valid;
    var h := d.Current();
    AppendDriven(f, results, d.raw, d.records, h, e, t);
    if !GapBreaks(results, h, e) {
      var r, g := Record(f.Bind(e), e, t), Extend(h, e);
      SoundIsPlaced(f, results, d.raw, d.records + [r], g);
      RememberedGrows(f, results, d.records, d.past, r, g);
      AttributedGrows(f, d.admissions, d.records, d.past, r, g);
      Admission.ChainSurvivesGrowth(d.admissions, f.binding, d.records, [r]);
      TopologyGrows(f, results, d.raw, d.records, h, e, t);
      SearchNeedsCalibration(f, results, d, e, t);
      assert Appended(d, f, e, t).Current() == g;
    }
  }

  /** The controller's next transition is new to the journal, so it is never taken for a retry. */
  lemma {:induction false} DrivenIsNoRepeat(f: Frozen, results: Results, d: Store, e: Event)
    requires Kept(f, results, d) && Driven(f, results, d.raw, d.Current(), e)
    ensures !RepeatOf(Record(f.Bind(e), e, NoTimestamp), d.records)
  {
    hide Driven, OnTrack, Topology, CalibrationKept, Attributed, Remembered, Admission.ValidChain, History.State,
         History.Events, ArmsWritten, FrozenFold, Unrepeated, IsSafeId, IsSha256, Apply;
    DrivenIsFresh(f, results, d.raw, d.Current(), e);
    SeenRecords(f.policy, START, d.records);
  }

  /** The frozen replay of the whole journal, and of the journal with the next transition. */
  lemma {:induction false} KeptReplays(f: Frozen, results: Results, d: Store)
    requires Kept(f, results, d)
    ensures f.policy.primaryCaseIds != []
    ensures FrozenReplay(f, d.raw, true, d.records).Ok?
    ensures FrozenReplay(f, d.raw, true, d.records).value.machine == d.Current().State()
  {
    hide OnTrack, Topology, CalibrationKept, Attributed, Remembered, Admission.ValidChain, History.State,
         History.Events, ArmsWritten, FrozenReplay;
    PrimaryCases(f);
    SoundReplays(f, results, d.raw, d.records, d.Current());
  }

  /** Only a candidate start takes a campaign from calibration to search. */
  lemma {:induction false} SearchNeedsCalibration(f: Frozen, results: Results, d: Store, e: Event, t: Timestamp)
    requires f.Valid() && d.past != [] && CalibrationKept(f, d) && Driven(f, results, d.raw, d.Current(), e)
    requires e.CandidateStarted? ==> d.Calibrated()
    requires d.Current().Unstarted? ==> e.CampaignStarted?
    requires d.Current().Campaign? && d.Current().open.Nothing? && Advances(e) ==> e.CandidateStarted?
    ensures CalibrationKept(f, Appended(d, f, e, t))
  {
    hide VerifyCalibration, AdmittedCalibration, IsSafeId, IsSha256, Header.Valid, PairsOf, PairOrder, PairResult,
         FirstVerdict, FinalVerdict, Timing.FailedBudgets, Exhausted;
  }

  // ---------------------------------------------------------------------------
  // A cell journal
  // ---------------------------------------------------------------------------

  function Written(d: Store, cell: Cell, content: CellJournal): Store {
    d.(raw := d.raw[cell := content])
  }

  /** A cell that may be launched now: pristine, admitted, and next in the order of its pair. */
  ghost predicate Launchable(d: Store, cell: Cell)
    requires d.past != []
  {
    && cell !in d.raw
    && var h := d.Current();
       match cell
       case ControlA => d.calibration.None? && AdmittedCalibration(d.admissions)
       case ControlB => d.calibration.None? && AdmittedCalibration(d.admissions) && ControlA in d.raw
       case Search(_, _, _) =>
         && h.Campaign? && h.open.Running?
         && var n := PairsOf(h.blocks) + h.open.Confirmed();
            cell == CellAt(h.open, n, 0) || (cell == CellAt(h.open, n, 1) && CellAt(h.open, n, 0) in d.raw)
  }

  lemma {:induction false} KeepCell(f: Frozen, results: Results, d: Store, cell: Cell, content: CellJournal)
    requires Kept(f, results, d) && Launchable(d, cell) && (content.Finished? ==> content == results(cell))
    ensures Kept(f, results, Written(d, cell, content))
  {
    hide Sound, Attributed, Remembered, Admission.ValidChain, Frozen.Valid, Placed, AdmittedCalibration, Topology,
         CalibrationKept, CellAt, PairsOf;
    var h, more := d.Current(), d.raw[cell := content];
    SoundWithMoreCells(f, results, d.raw, more, d.records, h);
    CellTopology(f, results, d, cell, content);
    PrimaryCases(f);
    CellCalibration(f, d, cell, content);
  }

  lemma {:induction false} CellTopology(f: Frozen, results: Results, d: Store, cell: Cell, content: CellJournal)
    requires |d.past| == |d.records| + 1 && Sound(f, results, d.raw, d.records, d.Current())
    requires Topology(results, d.raw, d.records, d.Current())
    requires Launchable(d, cell) && (content.Finished? ==> content == results(cell))
    ensures Topology(results, d.raw[cell := content], d.records, d.Current())
  {
    hide Sound, PairOrder, PairStarts;
    if cell.Search? {
      StartsOfCurrent(f, results, d.raw, d.records, d.Current());
    }
  }

  lemma {:induction false} CellCalibration(f: Frozen, d: Store, cell: Cell, content: CellJournal)
    requires f.policy.primaryCaseIds != [] && d.past != [] && CalibrationKept(f, d) && Launchable(d, cell)
    ensures CalibrationKept(f, Written(d, cell, content))
  {
    hide Recomputed, PairOrder, PairsOf, Score, GapHolds;
    if d.calibration.Some? {
      assert ControlTopology(Written(d, cell, content).raw) == ControlTopology(d.raw);
    }
  }

  // ---------------------------------------------------------------------------
  // The calibration record
  // ---------------------------------------------------------------------------

  lemma {:induction false} KeepCalibration(f: Frozen, results: Results, d: Store)
    requires Kept(f, results, d) && d.calibration.None?
    requires ControlTopology(d.raw).Ok? && Recomputed(f, ControlTopology(d.raw).value).Ok?
    ensures Kept(f, results, d.(calibration := Some(Recomputed(f, ControlTopology(d.raw).value).value)))
  {
    hide Sound, Attributed, Remembered, Admission.ValidChain, Frozen.Valid, Placed, AdmittedCalibration, Topology;
    assert ControlTopology(d.raw).value.Complete();
    assert ControlA in d.raw;
  }

  // ---------------------------------------------------------------------------
  // An admission
  // ---------------------------------------------------------------------------

  function NewAdmission(f: Frozen, d: Store, t: Target, o: Admission.Observation): Admission.Record {
    Admission.NewRecord(f.binding, t, o, d.records, |d.admissions| + 1, Admission.TailDigest(d.admissions))
  }

  function WithAdmission(f: Frozen, d: Store, t: Target, o: Admission.Observation): Store {
    d.(admissions := d.admissions + [NewAdmission(f, d, t, o)])
  }

  /** The target that an admission may name now: calibration until it is recorded, then the pair at hand. */
  ghost predicate Admissible(f: Frozen, d: Store, t: Target)
    requires d.past != []
  {
    if d.calibration.None? then t == CALIBRATION && CalibrationPrefix(d.records)
    else TargetOf(f, d.Current()) == Some(t)
  }

  lemma {:induction false} TargetsAreValid(f: Frozen, results: Results, h: History, t: Target)
    requires f.Valid() && OnTrack(f, results, h) && TargetOf(f, h) == Some(t)
    ensures t.Valid() && IsSearchTarget(t)
  {
    hide CanonBlocks, CanonFirst, PairResult, PairsOf, IsSha256, Promoted;
  }

  predicate IsSearchTarget(t: Target) {
    t.kind != Admission.Calibration
  }

  lemma {:induction false} KeepAdmission(f: Frozen, results: Results, d: Store, t: Target, o: Admission.Observation)
    requires Kept(f, results, d) && Admissible(f, d, t)
    requires Some(o) == Admission.Observe(f.binding, o.observedAt, o.memory, o.swap, o.harness, o.harnessFiles)
    requires d.admissions != [] ==> d.admissions[|d.admissions| - 1].body.observation.observedAt <= o.observedAt
    ensures Kept(f, results, WithAdmission(f, d, t, o))
  {
    hide Sound, Remembered, Admission.ValidChain, Frozen.Valid, Placed, Topology, Admission.Observe, VerifyCalibration,
         TargetOf, CalibrationPrefix, OnTrack;
    if d.calibration.Some? {
      TrackOf(f, results, d);
      TargetsAreValid(f, results, d.Current(), t);
    }
    Admission.AppendKeepsChain(d.admissions, f.binding, t, o, d.records);
    AdmissionAttributed(f, d, t, o);
  }

  lemma {:induction false} TrackOf(f: Frozen, results: Results, d: Store)
    requires d.past != [] && Sound(f, results, d.raw, d.records, d.Current())
    ensures f.Valid() && d.Current().Valid(f.policy) && OnTrack(f, results, d.Current())
  {
  }

  lemma {:induction false} AdmissionAttributed(f: Frozen, d: Store, t: Target, o: Admission.Observation)
    requires |d.past| == |d.records| + 1 && Attributed(f, d.admissions, d.records, d.past) && Admissible(f, d, t)
    requires d.calibration.None? ==> forall a :: a in d.admissions ==> !IsSearch(a)
    requires d.calibration.Some? ==> IsSearchTarget(t)
    ensures Attributed(f, WithAdmission(f, d, t, o).admissions, d.records, d.past)
  {
    hide TargetOf, CalibrationPrefix;
    var all := WithAdmission(f, d, t, o).admissions;
    assert d.records[..|d.records|] == d.records;
    forall i | 0 <= i < |d.records| && d.records[i].event.PairStarted?
      ensures exists a :: a in all && AdmittedFor(f, a, i, d.past)
    {
      var a :| a in d.admissions && AdmittedFor(f, a, i, d.past);
      assert a in all;
    }
  }
}
