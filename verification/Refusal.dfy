/**
 A durable store, as the controller writes it, whose next pair start the admission check then refuses: the pair is
 started in the millisecond of its admission.
 */
module Refusal {
  import opened Common
  import opened Gates
  import opened Replay
  import opened History
  import opened Scoring
  import opened Campaign
  import opened Script
  import opened Ledger
  import opened Provenance
  import opened Durable
  import opened Environment
  import opened Steps
  import opened Progress
  import opened Coverage
  import opened Setbacks
  import Admission

  /** Time and room for an admission at an instant. */
  predicate HasTime(f: Frozen, at: int) {
    && f.Valid() && f.binding.cutoff == f.cutoff && f.cutoff - at >= 900 * SECOND
    && f.cutoff - at >= f.binding.requiredRemaining && IsSha256(f.binding.harness) && f.binding.harnessFiles > 0
  }

  /** The observation of a host with just enough memory. */
  function Ready(f: Frozen, at: int): (o: Admission.Observation)
    requires HasTime(f, at)
    ensures o.outcome == Admission.Admitted && o.observedAt == at
    ensures Some(o) == Admission.Observe(f.binding, o.observedAt, o.memory, o.swap, o.harness, o.harnessFiles)
  {
    Admission.Observe(f.binding, at, f.binding.requiredMemory, 0, f.binding.harness, f.binding.harnessFiles).value
  }

  /** Calibration is admitted, and the campaign started. */
  lemma {:induction false} StartedStore(f: Frozen, results: Results, at: int) returns (d: Store)
    requires HasTime(f, at)
    ensures Kept(f, results, d) && d.Current() == Campaign(f.id, [], Nothing, Ongoing) && |d.records| == 1
    ensures d.raw == map[] && d.calibration.None? && !d.records[0].event.PairStarted?
    ensures |d.admissions| == 1 && IsAdmittedCalibration(d.admissions[0]) && d.admissions[0].body.observation.observedAt == at
  {
    var empty, e := NOTHING_WRITTEN, CampaignStarted(f.id, f.policy.digest);
    NothingWrittenIsKept(f, results);
    KeepAdmission(f, results, empty, CALIBRATION, Ready(f, at));
    var admitted := WithAdmission(f, empty, CALIBRATION, Ready(f, at));
    hide Kept, Driven, Admission.Observe, IsSafeId, IsSha256, Frozen.Valid;
    StartIsDriven(f, results, admitted);
    PermittedWithoutAdmission(f, admitted, e);
    KeepAppend(f, results, admitted, e, Aware(Stamp(at)));
    d := Appended(admitted, f, e, Aware(Stamp(at)));
  }

  /** Both controls have run. */
  lemma {:induction false} ControlsStore(f: Frozen, results: Results, at: int) returns (d: Store)
    requires HasTime(f, at) && forall c :: results(c) == SteadyCell(f, at)
    ensures Kept(f, results, d) && d.Current() == Campaign(f.id, [], Nothing, Ongoing) && |d.records| == 1
    ensures d.calibration.None? && !d.records[0].event.PairStarted?
    ensures d.raw == map[ControlA := SteadyCell(f, at), ControlB := SteadyCell(f, at)]
    ensures |d.admissions| == 1 && IsAdmittedCalibration(d.admissions[0]) && d.admissions[0].body.observation.observedAt == at
  {
    var started := StartedStore(f, results, at);
    assert started.admissions[0] in started.admissions && AdmittedCalibration(started.admissions);
    hide Kept, SteadyCell, AdmittedCalibration, IsAdmittedCalibration, Launchable, HasTime;
    ControlLaunches(started, ControlA);
    KeepCell(f, results, started, ControlA, results(ControlA));
    var first := Written(started, ControlA, results(ControlA));
    ControlLaunches(first, ControlB);
    KeepCell(f, results, first, ControlB, results(ControlB));
    d := Written(first, ControlB, results(ControlB));
  }

  lemma {:induction false} ControlLaunches(d: Store, cell: Cell)
    requires d.past != [] && cell !in d.raw && !cell.Search? && (cell == ControlB ==> ControlA in d.raw)
    requires d.calibration.None? && AdmittedCalibration(d.admissions)
    ensures Launchable(d, cell)
  {
  }

  /** Two equal steady controls calibrate. */
  lemma {:induction false} SteadyControls(f: Frozen, raw: Raw, at: int)
    requires HasTime(f, at) && raw == map[ControlA := SteadyCell(f, at), ControlB := SteadyCell(f, at)]
    ensures f.policy.primaryCaseIds != []
    ensures ControlTopology(raw).Ok? && Recomputed(f, ControlTopology(raw).value).Ok?
    ensures Recomputed(f, ControlTopology(raw).value).value.passed
    ensures forall c :: c in raw ==> StartedAt(raw[c]) == Some(at)
  {
    var o := SteadyScore(f, 0, at);
    hide Score, CalibrationReasons, IsSafeId, IsSha256, Frozen.Valid;
    assert ControlTopology(raw) == Ok(Controls(Some(SteadyCell(f, at)), Some(SteadyCell(f, at))));
  }

  /** And calibrate. */
  lemma {:induction false} CalibratedStore(f: Frozen, results: Results, at: int) returns (d: Store)
    requires HasTime(f, at) && forall c :: results(c) == SteadyCell(f, at)
    ensures Kept(f, results, d) && d.Current() == Campaign(f.id, [], Nothing, Ongoing) && |d.records| == 1
    ensures d.Calibrated() && ControlsTimely(d.admissions, d.raw) && !d.records[0].event.PairStarted?
    ensures |d.admissions| == 1 && IsAdmittedCalibration(d.admissions[0]) && d.admissions[0].body.observation.observedAt == at
  {
    var both := ControlsStore(f, results, at);
    SteadyControls(f, both.raw, at);
    hide Kept, IsSafeId, IsSha256, Frozen.Valid, SteadyCell, Recomputed, ControlTopology, IsAdmittedCalibration, StartedAt;
    KeepCalibration(f, results, both);
    d := both.(calibration := Some(Recomputed(f, ControlTopology(both.raw).value).value));
    assert d.admissions[0] in d.admissions;
  }

  function FirstPair(f: Frozen): Target
    requires f.proposals != []
  {
    Admission.Target(Admission.Screen, f.proposals[0].candidateId, 0)
  }

  /** The controls calibrate, and the first screen was admitted at an instant. */
  ghost predicate FirstAdmitted(f: Frozen, results: Results, d: Store, at: int) {
    && Kept(f, results, d) && f.proposals != [] && |d.past| == |d.records| + 1 && AdmittedNow(f, d)
    && d.Current() == Campaign(f.id, [], Nothing, Ongoing) && TargetOf(f, d.Current()) == Some(FirstPair(f))
    && |d.records| == 1 && !d.records[0].event.PairStarted?
    && d.Calibrated() && ControlsTimely(d.admissions, d.raw)
    && |d.admissions| == 2 && IsAdmittedCalibration(d.admissions[0]) && d.admissions[1].body.observation.observedAt == at
  }

  lemma {:induction false} AdmittedStore(f: Frozen, results: Results, controls: int, at: int) returns (d: Store)
    requires HasTime(f, at) && controls <= at && forall c :: results(c) == SteadyCell(f, controls)
    ensures FirstAdmitted(f, results, d, at)
  {
    hide Kept, Admission.Observe, ControlsTimely, SteadyCell, IsAdmittedCalibration, CalibrationPrefix, AdmittedNow, Frozen.Valid;
    var calibrated := CalibratedStore(f, results, controls);
    var o := Ready(f, at);
    EmptyIsUnstarted(f, results, calibrated);
    FirstTarget(f, calibrated.Current());
    hide TargetOf, HasTime;
    KeepAdmission(f, results, calibrated, FirstPair(f), o);
    AdmissionTaken(f, calibrated, FirstPair(f), o);
    d := WithAdmission(f, calibrated, FirstPair(f), o);
    MoreAdmissions(calibrated.admissions, calibrated.raw, d.admissions[1]);
  }

  lemma {:induction false} FirstTarget(f: Frozen, h: History)
    requires f.Valid() && h == Campaign(f.id, [], Nothing, Ongoing)
    ensures f.proposals != [] && TargetOf(f, h) == Some(FirstPair(f))
  {
  }

  /** And its candidate is started. */
  ghost predicate FirstOpened(f: Frozen, results: Results, d: Store, at: int) {
    && Kept(f, results, d) && f.proposals != [] && |d.past| == |d.records| + 1 && AdmittedNow(f, d)
    && d.Current() == Campaign(f.id, [], Waiting(f.proposals[0], None), Ongoing)
    && |d.records| == 2 && !d.records[0].event.PairStarted? && !d.records[1].event.PairStarted?
    && ControlsTimely(d.admissions, d.raw)
    && |d.admissions| == 2 && IsAdmittedCalibration(d.admissions[0]) && d.admissions[1].body.observation.observedAt == at
  }

  lemma {:induction false} StartFirst(f: Frozen, results: Results, d: Store, at: int) returns (later: Store)
    requires FirstAdmitted(f, results, d, at)
    ensures FirstOpened(f, results, later, at)
  {
    hide Kept, Driven, AdmittedNow, Permitted, TargetOf, GapBreaks, FrozenReplay, Extend, ControlsTimely, IsAdmittedCalibration;
    var next, t := f.proposals[0], Aware(Stamp(at));
    var e := CandidateStarted(next.candidateId, next.axis, next.deltaDigest);
    CandidateWaits(results, d.Current(), next);
    assert !Exhausted(f, d.Current().blocks) && IsIdle(d.Current());
    hide Exhausted, IsIdle;
    CandidateIsDriven(f, results, d);
    StillAdmitted(f, results, d, e);
    KeepAppend(f, results, d, e, t);
    later := Appended(d, f, e, t);
  }

  lemma {:induction false} CandidateWaits(results: Results, h: History, next: Header)
    requires h.Campaign? && h.open.Nothing?
    ensures var e := CandidateStarted(next.candidateId, next.axis, next.deltaDigest);
            !GapBreaks(results, h, e) && Extend(h, e) == h.(open := Waiting(next, None))
  {
  }

  /** The pair start is next, its only admission is the one at `at`, and every admission check passes. */
  lemma {:induction false} PairIsNext(f: Frozen, results: Results, controls: int, at: int) returns (d: Store, e: Event)
    requires HasTime(f, at) && controls <= at && forall c :: results(c) == SteadyCell(f, controls)
    ensures Kept(f, results, d) && Driven(f, results, d.raw, d.Current(), e) && Permitted(f, d, e) && e.PairStarted?
    ensures Timely(f, d)
    ensures forall a :: a in d.admissions && AdmittedFor(f, a, |d.records|, d.past) ==> a.body.observation.observedAt == at
  {
    hide FirstAdmitted, AdmittedFor, Driven, Permitted, Timely, HasTime, SteadyCell;
    var admitted := AdmittedStore(f, results, controls, at);
    d := StartFirst(f, results, admitted, at);
    e := OpenedPair(f, results, d, at);
  }

  lemma {:induction false} OpenedPair(f: Frozen, results: Results, d: Store, at: int) returns (e: Event)
    requires FirstOpened(f, results, d, at)
    ensures f.policy.primaryCaseIds != [] && |d.past| == |d.records| + 1
    ensures Driven(f, results, d.raw, d.Current(), e) && Permitted(f, d, e) && e.PairStarted? && Timely(f, d)
    ensures forall a :: a in d.admissions && AdmittedFor(f, a, |d.records|, d.past) ==> a.body.observation.observedAt == at
  {
    hide Kept, ControlsTimely, Driven, AdmittedNow, Permitted, AdmittedFor, IsAdmittedCalibration;
    PairIsDriven(f, results, d);
    e := PairStarted(d.Current().open.header.candidateId, CurrentPair(d.Current()), PairOrder(CurrentPair(d.Current())));
    PermittedNow(f, d, e);
    OnlyScreenAdmitted(f, d, at);
  }

  lemma {:induction false} PermittedNow(f: Frozen, d: Store, e: Event)
    requires |d.past| == |d.records| + 1 && AdmittedNow(f, d) && e.PairStarted?
    ensures Permitted(f, d, e)
  {
  }

  lemma {:induction false} OnlyScreenAdmitted(f: Frozen, d: Store, at: int)
    requires |d.past| == |d.records| + 1 && |d.admissions| == 2 && IsAdmittedCalibration(d.admissions[0])
    requires d.admissions[1].body.observation.observedAt == at
    requires d.Current().Campaign? && d.Current().open.Waiting?
    ensures forall a :: a in d.admissions && AdmittedFor(f, a, |d.records|, d.past) ==> a.body.observation.observedAt == at
  {
  }

  /**
   Provenance can be lost although the controller did everything in order. Any frozen campaign can reach a store, by
   its own durable writes and with every check passing, whose next pair was admitted at a given instant; if the pair
   then starts at a later one, the next invocation refuses the journal exactly when the start falls into the
   millisecond of its admission and the admission is inside it.
   */
  lemma {:induction false} SameMillisecondIsRefused(f: Frozen, results: Results, controls: int, at: int) returns (d: Store, e: Event)
    requires HasTime(f, at) && controls <= at && forall c :: results(c) == SteadyCell(f, controls)
    ensures Kept(f, results, d) && Driven(f, results, d.raw, d.Current(), e) && Permitted(f, d, e) && e.PairStarted?
    ensures f.policy.primaryCaseIds != [] && Timely(f, d) && StartsCovered(f, d.admissions, d.records)
    ensures forall started :: started >= at ==>
              (StartsCovered(f, d.admissions, StartedAfter(f, d, e, started))
               <==> Stamp(at) != Stamp(started) || at == Stamp(at))
  {
    d, e := PairIsNext(f, results, controls, at);
    hide Kept, Driven, Permitted, Timely, AdmittedFor, StartsCovered, TargetsBound, ControlsCovered, HasTime, SteadyCell;
    ChecksOfKept(f, results, d);
    forall started | started >= at
      ensures StartsCovered(f, d.admissions, StartedAfter(f, d, e, started))
              <==> Stamp(at) != Stamp(started) || at == Stamp(at)
    {
      LaterStartCovered(f, results, d, e, at, started);
    }
  }

  /** The journal with the pair start, stamped to the millisecond. */
  function StartedAfter(f: Frozen, d: Store, e: Event, started: int): seq<Record> {
    d.records + [Record(f.Bind(e), e, Aware(Stamp(started)))]
  }

  // ---------------------------------------------------------------------------
  // One campaign
  // ---------------------------------------------------------------------------

  const DIGEST := seq(64, _ => 'a')
  const MIDNIGHT := 1_767_225_600_000_000  // 2026-01-01T00:00:00Z
  const HALF_PAST_ONE := MIDNIGHT + 5400 * SECOND + 500
  const CUTOFF := MIDNIGHT + 8 * 3600 * SECOND

  /** A campaign of one proposal with eight hours to its cutoff. */
  const CAMPAIGN := Frozen(
    "campaign", DIGEST, Policy(["decode"], ["cache"], DIGEST), [Header("larger-cache", "cache", DIGEST)], CUTOFF,
    Admission.Binding("campaign", DIGEST, DIGEST, DIGEST, CUTOFF, 4930 * SECOND, 64, 0, DIGEST, 3))

  lemma {:induction false} CampaignHasTime(at: int)
    requires at <= CUTOFF - 4930 * SECOND
    ensures HasTime(CAMPAIGN, at)
  {
    assert IsSha256(DIGEST) && IsSafeId("campaign") && IsSafeId("decode") && IsSafeId("cache") && IsSafeId("larger-cache");
    assert "larger-cache" != "control" by { assert |"larger-cache"| != |"control"|; }
  }

  /** A pair admitted half way through a millisecond is refused if it starts within it, and accepted from the next one on. */
  lemma {:induction false} RefusedThenAccepted(f: Frozen, results: Results, controls: int, at: int) returns (d: Store, e: Event)
    requires HasTime(f, at) && controls <= at && at % 1000 == 500 && forall c :: results(c) == SteadyCell(f, controls)
    ensures Kept(f, results, d) && Driven(f, results, d.raw, d.Current(), e) && Permitted(f, d, e) && e.PairStarted?
    ensures f.policy.primaryCaseIds != [] && Timely(f, d) && StartsCovered(f, d.admissions, d.records)
    ensures !StartsCovered(f, d.admissions, StartedAfter(f, d, e, at + 200))
    ensures StartsCovered(f, d.admissions, StartedAfter(f, d, e, at + 500))
  {
    hide Kept, Driven, Permitted, Timely, StartsCovered, HasTime, SteadyCell, StartedAfter;
    d, e := SameMillisecondIsRefused(f, results, controls, at);
    assert Stamp(at) == at - 500 == Stamp(at + 200) && Stamp(at + 500) == at + 500;
  }

  /** This happens: in that campaign, to a pair admitted at half past one in the morning and 500 microseconds. */
  lemma {:induction false} HalfPastOneIsRefused() returns (results: Results, d: Store, e: Event)
    ensures Kept(CAMPAIGN, results, d) && Driven(CAMPAIGN, results, d.raw, d.Current(), e) && Permitted(CAMPAIGN, d, e)
    ensures CAMPAIGN.policy.primaryCaseIds != [] && e.PairStarted? && Timely(CAMPAIGN, d)
    ensures StartsCovered(CAMPAIGN, d.admissions, d.records)
    ensures !StartsCovered(CAMPAIGN, d.admissions, StartedAfter(CAMPAIGN, d, e, HALF_PAST_ONE + 200))
    ensures StartsCovered(CAMPAIGN, d.admissions, StartedAfter(CAMPAIGN, d, e, HALF_PAST_ONE + 500))
  {
    hide Kept, Driven, Permitted, Timely, StartsCovered, HasTime, SteadyCell, StartedAfter, AdmittedFor;
    CampaignHasTime(HALF_PAST_ONE);
    results := _ => SteadyCell(CAMPAIGN, MIDNIGHT);
    d, e := RefusedThenAccepted(CAMPAIGN, results, MIDNIGHT, HALF_PAST_ONE);
  }
}
