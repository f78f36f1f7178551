/**
 What may stop an invocation short of its work or end a campaign in failure: a disturbance of the outside world,
 a torn cell, a blocked admission, a pair whose results cannot pass, or a second cell that came too late.
 */
module Setbacks {
  import opened Common
  import opened Gates
  import opened Replay
  import opened History
  import opened Scoring
  import opened Campaign
  import opened Script
  import opened Ledger
  import opened Provenance
  import opened Durable
  import opened Environment
  import opened Steps
  import opened Progress
  import opened Coverage
  import Admission

  // ---------------------------------------------------------------------------
  // Causes
  // ---------------------------------------------------------------------------

  ghost predicate Disturbed(world: nat -> World, from: nat, to: nat) {
    exists k :: from <= k < to && !Calm(world(k))
  }

  predicate WithinBudgets(j: CellJournal)
    requires j.Finished?
  {
    j.projection.measurementS <= CELL_TIMEOUT_S && j.projection.cleanupS <= CLEANUP_TIMEOUT_S
  }

  /** The frozen results of a pair are complete, within budgets, close enough together, and may be decided on. */
  ghost predicate PairPasses(f: Frozen, results: Results, c: string, stage: Stage, n: nat)
    requires f.policy.primaryCaseIds != []
  {
    var first := results(Search(c, stage, PairOrder(n)[0]));
    first.Finished? && WithinBudgets(first) && EligibleResult(f, results, c, stage, n).Some?
  }

  /** The same for the two controls, whose observation must calibrate. */
  ghost predicate ControlsPass(f: Frozen, results: Results)
    requires f.policy.primaryCaseIds != []
  {
    var a, b := results(ControlA), results(ControlB);
    && a.Finished? && b.Finished? && WithinBudgets(a)
    && Recomputed(f, Controls(Some(a), Some(b))).Ok? && Recomputed(f, Controls(Some(a), Some(b))).value.passed
  }

  /** The pair that has started in a history cannot pass. */
  ghost predicate PairFails(f: Frozen, results: Results, h: History)
    requires f.policy.primaryCaseIds != []
  {
    h.Campaign? && (h.open.Running? || h.open.Scored?)
    && !PairPasses(f, results, h.open.header.candidateId, StageOf(h.open), CurrentPair(h))
  }

  predicate SomeBroken(raw: Raw) {
    exists c :: c in raw && raw[c].Broken?
  }

  /** An admission that was not admitted, over the reading of one look at the world. */
  predicate Blocked(f: Frozen, a: Admission.Record, w: World) {
    && a.body.observation.outcome != Admission.Admitted && w.reading.Some?
    && var o, r := a.body.observation, w.reading.value;
       Some(o) == Admission.Observe(f.binding, o.observedAt, r.memory, r.swap, r.harness, r.harnessFiles)
  }

  /** Going from one durable state to another was hindered by something other than the controller. */
  ghost predicate Hindered(f: Frozen, results: Results, world: nat -> World, before: Store, after: Store, from: nat, to: nat)
    requires f.policy.primaryCaseIds != []
  {
    || Disturbed(world, from, to)
    || SomeBroken(after.raw)
    || (exists k, j :: |before.admissions| <= k < |after.admissions| && from <= j < to && Blocked(f, after.admissions[k], world(j)))
    || (exists k :: |before.past| - 1 <= k < |after.past| && k >= 0 && PairFails(f, results, after.past[k]))
    || (!before.Calibrated() && ControlA in after.raw && !ControlsPass(f, results))
  }

  /** The next cell would follow its predecessor too late, or before its end. */
  predicate OutOfGap(j: CellJournal, now: int) {
    j.Finished? && !(0 <= now - j.stoppedAt <= GAP_LIMIT)
  }

  /** The second cell may start now: the first kept its budgets and stopped within the last 120 seconds. */
  predicate InTime(first: CellJournal, now: int) {
    && first.Finished? && first.stoppedAt <= now <= first.stoppedAt + 120_000_000
    && first.projection.measurementS <= 1800.0 && first.projection.cleanupS <= 120.0
  }

  /** It could start at some instant of a span. */
  ghost predicate InTimeWithin(first: CellJournal, from: int, to: int) {
    exists t :: from <= t <= to && InTime(first, t)
  }

  /** The second cell of the pair at hand is still missing at an instant out of the allowed gap. */
  ghost predicate Overdue(d: Store, now: int)
    requires d.past != []
  {
    || (ControlA in d.raw && ControlB !in d.raw && OutOfGap(d.raw[ControlA], now))
    || (d.Current().Campaign? && d.Current().open.Running? && d.Current().open.arms == 1
        && PairCell(d.Current(), 0) in d.raw && PairCell(d.Current(), 1) !in d.raw
        && OutOfGap(d.raw[PairCell(d.Current(), 0)], now))
  }

  ghost predicate Setback(
    f: Frozen, results: Results, world: nat -> World, before: Store, after: Store, from: nat, to: nat, now: int)
    requires f.policy.primaryCaseIds != [] && after.past != []
  {
    Hindered(f, results, world, before, after, from, to) || Overdue(after, now)
  }

  /** The cause of an invocation that paused or ended the campaign in failure; the latter reads the clock once more. */
  ghost predicate Explained(
    f: Frozen, results: Results, world: nat -> World, before: Store, after: Store, from: nat, to: nat, now: int)
    requires f.policy.primaryCaseIds != [] && after.past != []
  {
    Hindered(f, results, world, before, after, from, to) || (to > from && Overdue(after, now - world(to - 1).delay))
  }

  /** A campaign that was ended by a failure. */
  predicate EndedInFailure(h: History) {
    h.Campaign? && h.ending.Aborted?
  }

  /** A campaign that was ended by this failure. */
  predicate EndedAs(h: History, kind: FailureKind, cleanupVerified: bool) {
    h.Campaign? && h.ending == Aborted(kind, cleanupVerified, false)
  }

  /** Two campaigns with the same blocks and the same open candidate, however they end. */
  predicate SameWork(a: History, b: History) {
    a.Campaign? && b.Campaign? && b.blocks == a.blocks && b.open == a.open
  }

  const WRITES_PER_INVOCATION: nat := 24

  /** At most n durable writes, and death only when they were not all granted. */
  predicate Spent(before: nat, after: nat, n: nat, r: Outcome) {
    after <= before <= after + n && (r == Died ==> before < n)
  }

  // ---------------------------------------------------------------------------
  // Composition
  // ---------------------------------------------------------------------------

  /** What hindered a part of the way hindered the whole. */
  lemma {:induction false} HinderedWithin(
    f: Frozen, results: Results, world: nat -> World, before: Store, a: Store, b: Store, after: Store,
    from: nat, start: nat, end: nat, to: nat)
    requires f.policy.primaryCaseIds != [] && before.past != []
    requires Grew(before, a) && Grew(a, b) && Grew(b, after) && from <= start && end <= to
    requires Hindered(f, results, world, a, b, start, end)
    ensures Hindered(f, results, world, before, after, from, to)
  {
    if k, j :| |a.admissions| <= k < |b.admissions| && start <= j < end && Blocked(f, b.admissions[k], world(j)) {
      assert after.admissions[k] == b.admissions[k] && from <= j < to;
    }
    if k :| |a.past| - 1 <= k < |b.past| && k >= 0 && PairFails(f, results, b.past[k]) {
      assert after.past[k] == b.past[k];
    }
  }

  lemma {:induction false} SetbackSince(
    f: Frozen, results: Results, world: nat -> World, before: Store, middle: Store, after: Store,
    from: nat, start: nat, to: nat, now: int)
    requires f.policy.primaryCaseIds != [] && before.past != [] && after.past != []
    requires Grew(before, middle) && Grew(middle, after) && from <= start
    ensures Setback(f, results, world, middle, after, start, to, now) ==> Setback(f, results, world, before, after, from, to, now)
  {
    if Hindered(f, results, world, middle, after, start, to) {
      GrowthIsReflexive(after);
      HinderedWithin(f, results, world, before, middle, after, after, from, start, to, to);
    }
  }

  lemma {:induction false} DisturbedWithin(world: nat -> World, from: nat, start: nat, to: nat)
    requires from <= start
    ensures Disturbed(world, start, to) ==> Disturbed(world, from, to)
  {
  }

  lemma {:induction false} DisturbedHere(world: nat -> World, from: nat, to: nat)
    requires to > from
    ensures !Calm(world(to - 1)) ==> Disturbed(world, from, to)
  {
  }

  /** What hinders at the end hinders all the way. */
  lemma {:induction false} SetbackHere(
    f: Frozen, results: Results, world: nat -> World, before: Store, after: Store, from: nat, to: nat, now: int)
    requires f.policy.primaryCaseIds != [] && before.past != [] && after.past != [] && Grew(before, after)
    ensures Disturbed(world, from, to) || SomeBroken(after.raw) || PairFails(f, results, after.Current()) || Overdue(after, now)
            ==> Setback(f, results, world, before, after, from, to, now)
    ensures !before.Calibrated() && ControlA in after.raw && !ControlsPass(f, results)
            ==> Setback(f, results, world, before, after, from, to, now)
  {
    HinderedHere(f, results, world, before, after, from, to);
  }

  lemma {:induction false} HinderedHere(f: Frozen, results: Results, world: nat -> World, before: Store, after: Store, from: nat, to: nat)
    requires f.policy.primaryCaseIds != [] && before.past != [] && after.past != [] && Grew(before, after)
    ensures Disturbed(world, from, to) || SomeBroken(after.raw) || PairFails(f, results, after.Current())
            ==> Hindered(f, results, world, before, after, from, to)
    ensures !before.Calibrated() && ControlA in after.raw && !ControlsPass(f, results)
            ==> Hindered(f, results, world, before, after, from, to)
  {
    assert after.Current() == after.past[|after.past| - 1];
  }

  lemma {:induction false} BlockedHere(
    f: Frozen, results: Results, world: nat -> World, before: Store, after: Store, a: Admission.Record,
    from: nat, look: nat, to: nat)
    requires f.policy.primaryCaseIds != [] && after.admissions == before.admissions + [a]
    requires from <= look < to && Blocked(f, a, world(look))
    ensures Hindered(f, results, world, before, after, from, to)
  {
    assert after.admissions[|before.admissions|] == a;
  }

  /** A hindrance explains whatever follows it. */
  lemma {:induction false} HinderedExplains(
    f: Frozen, results: Results, world: nat -> World, before: Store, a: Store, b: Store, after: Store,
    from: nat, start: nat, end: nat, to: nat, now: int)
    requires f.policy.primaryCaseIds != [] && before.past != [] && after.past != []
    requires Grew(before, a) && Grew(a, b) && Grew(b, after) && from <= start && end <= to
    ensures Hindered(f, results, world, a, b, start, end) ==> Explained(f, results, world, before, after, from, to, now)
  {
    hide Hindered;
    if Hindered(f, results, world, a, b, start, end) {
      HinderedWithin(f, results, world, before, a, b, after, from, start, end, to);
    }
  }

  lemma {:induction false} OverdueStays(ran: Store, after: Store, now: int)
    requires ran.past != [] && after.past != [] && after.raw == ran.raw && SameWork(ran.Current(), after.Current())
    ensures Overdue(ran, now) ==> Overdue(after, now)
  {
    hide OutOfGap, PairsOf;
  }

  /** A setback explains the failure that is then recorded. */
  lemma {:induction false} SetbackExplains(
    f: Frozen, results: Results, world: nat -> World, before: Store, ran: Store, after: Store, from: nat, to: nat, now: int)
    requires f.policy.primaryCaseIds != [] && before.past != [] && ran.past != [] && after.past != [] && from <= to
    requires Grew(before, ran) && Grew(ran, after) && after.raw == ran.raw && SameWork(ran.Current(), after.Current())
    requires Setback(f, results, world, before, ran, from, to, now)
    ensures Explained(f, results, world, before, after, from, to + 1, now + world(to).delay)
  {
    hide Hindered, Overdue, Grew;
    GrowthIsReflexive(before);
    HinderedExplains(f, results, world, before, before, ran, after, from, from, to, to + 1, now + world(to).delay);
    OverdueStays(ran, after, now);
  }

  /** An explained ending of a part of the way, which reaches its end. */
  lemma {:induction false} ExplainedSince(
    f: Frozen, results: Results, world: nat -> World, before: Store, middle: Store, after: Store,
    from: nat, start: nat, to: nat, now: int)
    requires f.policy.primaryCaseIds != [] && before.past != [] && after.past != []
    requires Grew(before, middle) && Grew(middle, after) && from <= start
    ensures Explained(f, results, world, middle, after, start, to, now) ==> Explained(f, results, world, before, after, from, to, now)
  {
    hide Hindered, Overdue;
    GrowthIsReflexive(after);
    HinderedExplains(f, results, world, before, middle, after, after, from, start, to, to, now);
  }

  // ---------------------------------------------------------------------------
  // The pair at hand
  // ---------------------------------------------------------------------------

  /** A second cell across a broken gap means that the pair cannot pass. */
  lemma {:induction false} GapFails(f: Frozen, results: Results, d: Store, e: Event)
    requires Kept(f, results, d)
    ensures f.policy.primaryCaseIds != [] && d.past != []
    ensures GapBreaks(results, d.Current(), e) ==> PairFails(f, results, d.Current())
  {
    hide Kept, OnTrack, History.Valid, Frozen.Valid, GapBreaks, PairFails;
    KeptTrack(f, results, d);
    BrokenGapFails(f, results, d.Current(), e);
  }

  lemma {:induction false} BrokenGapFails(f: Frozen, results: Results, h: History, e: Event)
    requires f.policy.primaryCaseIds != []
    ensures GapBreaks(results, h, e) ==> PairFails(f, results, h)
  {
    hide Timing.FailedBudgets, Eligibility.FailedGates, GapHolds, PairsOf, Score;
  }

  /** A fully indexed pair without a score cannot pass. */
  lemma {:induction false} UnscoredFails(f: Frozen, results: Results, d: Store)
    requires Kept(f, results, d) && RunningBelow(d.Current(), 3) && d.Current().open.arms == 2
    ensures f.policy.primaryCaseIds != []
    ensures var h := d.Current();
            var c, stage, n := h.open.header.candidateId, StageOf(h.open), CurrentPair(h);
            && Search(c, stage, Champion) in d.raw && d.raw[Search(c, stage, Champion)].Finished?
            && Search(c, stage, Candidate) in d.raw && d.raw[Search(c, stage, Candidate)].Finished?
            && (Score(f, n, d.raw[Search(c, stage, Champion)], d.raw[Search(c, stage, Candidate)]).None?
                ==> PairFails(f, results, h))
  {
    hide Topology, CalibrationKept, Attributed, Remembered, Admission.ValidChain, PairsOf, Records, Score, OnTrack,
         IsSafeId, IsSha256, GapHolds, PairResult, ArmsWritten, Timing.FailedBudgets, Eligibility.FailedGates;
    PrimaryCases(f);
    RawScoreIsResult(f, results, d.raw, d.Current());
  }

  /** A scored pair that may not be decided on cannot pass. */
  lemma {:induction false} IneligibleFails(f: Frozen, results: Results, d: Store)
    requires Kept(f, results, d) && d.Current().Campaign? && d.Current().ending == Ongoing && d.Current().open.Scored?
    ensures f.policy.primaryCaseIds != []
    ensures IneligibilityKind(d.Current().open.last).Some? ==>
              PairFails(f, results, d.Current()) && IneligibilityKind(d.Current().open.last) == Some(Measurement)
  {
    hide Kept, PairFails, IneligibilityKind, OnTrack, History.Valid;
    KeptTrack(f, results, d);
    IneligiblePairFails(f, results, d.Current());
    OnlyTimingIsIneligible(f, results, d.Current());
  }

  lemma {:induction false} IneligiblePairFails(f: Frozen, results: Results, h: History)
    requires f.policy.primaryCaseIds != [] && OnTrack(f, results, h) && h.Campaign? && h.open.Scored?
    ensures IneligibilityKind(h.open.last).Some? ==> PairFails(f, results, h)
  {
    hide Timing.FailedBudgets, Eligibility.FailedGates, PairsOf, PairResult, CanonBlocks, CanonFirst, IneligibilityKind, Promoted,
         Observation.WellFormed;
    EligibleHasNoFailures(h.open.last);
    assert PairResult(f, results, h.open.header.candidateId, StageOf(h.open), CurrentPair(h)) == Some(h.open.last);
  }

  /** A first cell over its budgets, or a second one on disk out of its gap, means that the pair cannot pass. */
  lemma {:induction false} SecondArmFails(f: Frozen, results: Results, d: Store)
    requires Kept(f, results, d) && RunningBelow(d.Current(), 2) && d.Current().open.arms == 1
    ensures f.policy.primaryCaseIds != []
    ensures var first, second := PairCell(d.Current(), 0), PairCell(d.Current(), 1);
            && first in d.raw && d.raw[first].Finished?
            && (!WithinBudgets(d.raw[first]) ==> PairFails(f, results, d.Current()))
            && (second in d.raw && d.raw[second].Finished? && !GapHolds(d.raw[first], d.raw[second])
                ==> PairFails(f, results, d.Current()))
  {
    hide Sound, CalibrationKept, Attributed, Remembered, Admission.ValidChain, PairsOf, PairOrder, Score, WithinBudgets,
         Timing.FailedBudgets, Eligibility.FailedGates, StartedCells, OrderedCells;
    KeptTrack(f, results, d);
    FirstArmIsWritten(f, results, d);
  }

  /** Neither cell of a pair that has not started is on disk. */
  lemma {:induction false} WaitingIsPristine(f: Frozen, results: Results, d: Store, arm: Arm)
    requires Kept(f, results, d) && d.Current().Campaign? && d.Current().open.Waiting?
    ensures Search(d.Current().open.header.candidateId, StageOf(d.Current().open), arm) !in d.raw
  {
    hide Sound, CalibrationKept, Attributed, Remembered, Admission.ValidChain, Topology;
    FreshPairIsPristine(f, results, d.raw, d.records, d.Current(), arm);
  }

  /** The cells of the running pair are always on disk in order. */
  lemma {:induction false} PrefixExists(f: Frozen, results: Results, d: Store, m: Machine)
    requires Kept(f, results, d) && Reads(m, d.Current()) && IsPair(m)
    ensures exists prefix :: PendingPrefix(d.raw, m, prefix)
  {
    hide Sound, CalibrationKept, Attributed, Remembered, Admission.ValidChain, FrozenCells, StartedCells, OrderedCells, Reads,
         PendingPrefix, IsPair;
    PendingExists(d.raw, m, d.Current());
  }

  // ---------------------------------------------------------------------------
  // The controls
  // ---------------------------------------------------------------------------

  /** Two controls on disk that do not recompute to a passing record cannot pass. */
  lemma {:induction false} ControlsFail(f: Frozen, results: Results, d: Store)
    requires Kept(f, results, d) && ControlTopology(d.raw).Ok?
    ensures f.policy.primaryCaseIds != []
    ensures ControlTopology(d.raw).value.Complete()
            && (var r := Recomputed(f, ControlTopology(d.raw).value); r.Err? || !r.value.passed)
            ==> ControlA in d.raw && !ControlsPass(f, results)
  {
    hide Sound, CalibrationKept, Attributed, Remembered, Admission.ValidChain, StartedCells, OrderedCells, Recomputed, WithinBudgets;
    PrimaryCases(f);
  }

  /** A recorded calibration that did not pass, or a torn control. */
  lemma {:induction false} ControlTrouble(f: Frozen, results: Results, d: Store)
    requires Kept(f, results, d)
    ensures f.policy.primaryCaseIds != []
    ensures d.calibration.Some? && !d.calibration.value.passed ==> ControlA in d.raw && !ControlsPass(f, results)
    ensures ControlTopology(d.raw).Err? ==> SomeBroken(d.raw)
  {
    hide Sound, Attributed, Remembered, Admission.ValidChain, Topology, GapHolds, Score, CalibrationReasons, ControlsPass, AdmittedCalibration;
    PrimaryCases(f);
    if ControlTopology(d.raw).Ok? {
      ControlsFail(f, results, d);
    }
  }

  /** The controls ran in order, close enough together, and their observation calibrates within every band around one. */
  ghost predicate Calibrates(f: Frozen, a: CellJournal, b: CellJournal)
    requires f.policy.primaryCaseIds != []
  {
    && a.Finished? && b.Finished? && a.stoppedAt <= b.startedAt <= a.stoppedAt + 120_000_000
    && Score(f, 0, a, b).Some?
    && var o := Score(f, 0, a, b).value;
       && CleanPair(f.policy, o)
       && Power(0.97, |o.ratios|) <= Product(o.ratios) <= Power(1.03, |o.ratios|)
       && (forall r :: r in o.ratios ==> 0.95 <= r <= 1.05)
       && 0.9 <= o.ttftRatio <= 1.1
  }

  lemma {:induction false} RecomputedMeans(f: Frozen, a: CellJournal, b: CellJournal)
    requires f.policy.primaryCaseIds != [] && a.Finished? && b.Finished?
    ensures var r := Recomputed(f, Controls(Some(a), Some(b)));
            r.Ok? && r.value.passed <==> Calibrates(f, a, b)
  {
    hide Score, CalibrationReasons, CleanPair, Product, Power;
    if Score(f, 0, a, b).Some? {
      CalibrationMeans(f.policy, Score(f, 0, a, b).value);
    }
  }

  /** No candidate is touched before the controls have calibrated the campaign. */
  lemma {:induction false} SearchIsCalibrated(f: Frozen, results: Results, d: Store)
    requires Kept(f, results, d)
    ensures d.past != [] && f.policy.primaryCaseIds != []
    ensures d.Calibrated() ==> Calibrates(f, results(ControlA), results(ControlB))
    ensures d.Current().Campaign? && (d.Current().blocks != [] || !d.Current().open.Nothing?) ==> d.Calibrated()
    ensures (exists cell :: cell in d.raw && cell.Search?) ==> d.Calibrated()
  {
    hide Sound, Attributed, Remembered, Admission.ValidChain, StartedCells, OrderedCells, AdmittedCalibration, Calibrates, Score, GapHolds, CalibrationReasons;
    PrimaryCases(f);
    if d.Calibrated() {
      assert ControlTopology(d.raw).value.Complete();
      RecomputedMeans(f, d.raw[ControlA], d.raw[ControlB]);
    }
    if cell :| cell in d.raw && cell.Search? {
      SearchHasStarted(f, results, d, cell);
    }
  }

  lemma {:induction false} NothingStarted(events: seq<Event>, c: string)
    requires forall e :: e in events ==> !e.PairStarted?
    ensures PairStarts(events, c) == 0
    decreases |events|
  {
    if events != [] {
      NothingStarted(events[..|events| - 1], c);
    }
  }

  lemma {:induction false} IdleStartsNothing(p: Policy, h: History)
    requires h.Unstarted? || (h.blocks == [] && h.open.Nothing?)
    ensures forall e :: e in h.Events(p) ==> !e.PairStarted?
  {
    if h.Campaign? {
      NothingIsOpen(p, 0);
      assert BlockEvents(h.blocks) == [];
    }
  }

  lemma {:induction false} SearchHasStarted(f: Frozen, results: Results, d: Store, cell: Cell)
    requires Kept(f, results, d) && cell in d.raw && cell.Search?
    ensures d.past != [] && d.Current().Campaign? && (d.Current().blocks != [] || !d.Current().open.Nothing?)
  {
    hide CalibrationKept, Attributed, Remembered, Admission.ValidChain, OrderedCells, FrozenCells, PairStarts, History.Events,
         OnTrack, History.State, ReplayRecords, ArmsWritten, Indexed, FrozenFold;
    var h := d.Current();
    if h.Unstarted? || (h.blocks == [] && h.open.Nothing?) {
      IdleStartsNothing(f.policy, h);
      NothingStarted(EventsOf(d.records), cell.candidateId);
    }
  }

  /** A first control over its budgets. */
  lemma {:induction false} FirstControlFails(f: Frozen, results: Results, d: Store)
    requires Kept(f, results, d) && ControlA in d.raw && d.raw[ControlA].Finished?
    ensures f.policy.primaryCaseIds != []
    ensures !WithinBudgets(d.raw[ControlA]) ==> !ControlsPass(f, results)
  {
    hide Sound, CalibrationKept, Attributed, Remembered, Admission.ValidChain, StartedCells, OrderedCells, Recomputed, WithinBudgets;
    PrimaryCases(f);
  }

  /** The second control is missing out of the gap to the first. */
  lemma {:induction false} MissingControl(d: Store, now: int)
    requires d.past != []
    ensures ControlA in d.raw && ControlB !in d.raw && OutOfGap(d.raw[ControlA], now) ==> Overdue(d, now)
  {
  }

  // ---------------------------------------------------------------------------
  // Results that pass
  // ---------------------------------------------------------------------------

  /** One measurement for each case, all alike. */
  function Steadily(caseIds: seq<string>): seq<CaseMeasurement> {
    if caseIds == [] then [] else [CaseMeasurement(caseIds[0], 1.0, Higher, 1.0)] + Steadily(caseIds[1..])
  }

  lemma {:induction false} SteadilyWithout(caseIds: seq<string>, c: string)
    requires c !in caseIds
    ensures Matches(Steadily(caseIds), c) == []
  {
    if caseIds != [] {
      SteadilyWithout(caseIds[1..], c);
    }
  }

  lemma {:induction false} SteadilyOnce(caseIds: seq<string>, k: nat)
    requires Distinct(caseIds) && k < |caseIds|
    ensures Matches(Steadily(caseIds), caseIds[k]) == [CaseMeasurement(caseIds[k], 1.0, Higher, 1.0)]
  {
    if k == 0 {
      SteadilyWithout(caseIds[1..], caseIds[0]);
    } else {
      SteadilyOnce(caseIds[1..], k - 1);
    }
  }

  lemma {:induction false} SteadilyMeasured(caseIds: seq<string>, p: Projection)
    requires forall k :: 0 <= k < |caseIds| ==> p.Find(caseIds[k]) == Some(CaseMeasurement(caseIds[k], 1.0, Higher, 1.0))
    ensures CaseRatios(caseIds, p, p).Some?
  {
    if caseIds != [] {
      assert p.Find(caseIds[0]).Some?;
      SteadilyMeasured(caseIds[1..], p);
    }
  }

  function SteadyProjection(f: Frozen): SoundProjection {
    Projection(Steadily(f.policy.primaryCaseIds), 0.0, 0.0, 0.0, [])
  }

  /** A cell that finished instantly. */
  function SteadyCell(f: Frozen, at: int): CellJournal {
    Finished(SteadyProjection(f), at, at, at)
  }

  lemma {:induction false} SteadyScore(f: Frozen, n: nat, at: int) returns (o: Observation)
    requires f.Valid() && f.cutoff - at >= 900 * SECOND
    ensures f.policy.primaryCaseIds != []
    ensures Score(f, n, SteadyCell(f, at), SteadyCell(f, at)) == Some(o)
    ensures o.timing.FailedBudgets() == [] && o.eligibility.FailedGates() == [] && CalibrationReasons(f.policy, o) == []
  {
    hide CaseRatios, Median, CalibrationReasons, IsSafeId, IsSha256, Eligibility.FailedGates, Observation.WellFormed;
    PrimaryCases(f);
    var p, ids := SteadyProjection(f), f.policy.primaryCaseIds;
    forall k | 0 <= k < |ids|
      ensures p.Find(ids[k]) == Some(CaseMeasurement(ids[k], 1.0, Higher, 1.0))
    {
      SteadilyOnce(ids, k);
    }
    SteadilyMeasured(ids, p);
    var cell := SteadyCell(f, at);
    o := Score(f, n, cell, cell).value;
    var left := f.cutoff - at;
    assert ReserveS(f, cell, cell) == left as real / SECOND as real >= AUDIT_RESERVE_S;
    EqualCellsCalibrate(f.policy, p, p, n, ReserveS(f, cell, cell), o);
    EligibleCellsPass();
  }

  // ---------------------------------------------------------------------------
  // A favourable world
  // ---------------------------------------------------------------------------

  /** The host always has the memory, the swap and the harness that an admission asks for. */
  ghost predicate Roomy(f: Frozen, world: nat -> World) {
    forall k: nat :: world(k).reading.Some? && HasRoom(f, world(k).reading.value)
  }

  predicate HasRoom(f: Frozen, r: Reading) {
    && ReadingIsSound(r) && r.memory >= f.binding.requiredMemory && r.swap <= f.binding.maxSwap
    && r.harness == f.binding.harness && r.harnessFiles == f.binding.harnessFiles
  }

  /** Every cell finishes, the controls calibrate, and so does every pair that a history on track runs. */
  ghost predicate ResultsPass(f: Frozen, results: Results)
    requires f.policy.primaryCaseIds != []
  {
    && (forall c :: results(c).Finished?) && ControlsPass(f, results)
    && forall h: History :: h.Valid(f.policy) && OnTrack(f, results, h) ==> !PairFails(f, results, h)
  }

  ghost predicate AlwaysCalm(world: nat -> World) {
    forall k: nat :: Calm(world(k))
  }

  ghost predicate Favourable(f: Frozen, results: Results, world: nat -> World)
    requires f.policy.primaryCaseIds != []
  {
    AlwaysCalm(world) && Spaced(world) && Roomy(f, world) && ResultsPass(f, results)
  }

  lemma {:induction false} RoomyIsAdmitted(f: Frozen, a: Admission.Record, w: World)
    requires w.reading.Some? && HasRoom(f, w.reading.value)
    requires f.binding.cutoff - a.body.observation.observedAt >= f.binding.requiredRemaining
    ensures !Blocked(f, a, w)
  {
  }

  /** With time left, every admission in a roomy world is admitted. */
  lemma {:induction false} NothingIsBlocked(f: Frozen, results: Results, world: nat -> World, d: Store, now: int)
    requires Kept(f, results, d) && Roomy(f, world) && ClockAhead(d.admissions, now)
    requires f.binding.cutoff - now >= f.binding.requiredRemaining
    ensures forall k, j: nat :: 0 <= k < |d.admissions| ==> !Blocked(f, d.admissions[k], world(j))
  {
    hide Kept, Blocked, HasRoom;
    AdmissionsChain(f, results, d);
    AdmissionsBefore(d.admissions, f.binding, d.records, now);
    forall k, j: nat | 0 <= k < |d.admissions|
      ensures !Blocked(f, d.admissions[k], world(j))
    {
      assert d.admissions[k] in d.admissions;
      RoomyIsAdmitted(f, d.admissions[k], world(j));
    }
  }

  /** No history that the controller went through runs a pair that cannot pass. */
  lemma {:induction false} NoPairFails(f: Frozen, results: Results, d: Store)
    requires Kept(f, results, d) && f.policy.primaryCaseIds != [] && ResultsPass(f, results)
    ensures forall k :: 0 <= k < |d.past| ==> !PairFails(f, results, d.past[k])
  {
    hide Sound, Topology, CalibrationKept, Attributed, Admission.ValidChain, FrozenReplay, OnTrack, History.Valid, PairFails,
         ControlsPass;
    forall k | 0 <= k < |d.past|
      ensures !PairFails(f, results, d.past[k])
    {
      assert Placed(f, results, d.records[..k], d.past[k]);
    }
  }

  /** With time left, nothing hinders a favourable run, and its readings are sound. */
  lemma {:induction false} FavourableIsUnhindered(
    f: Frozen, results: Results, world: nat -> World, before: Store, after: Store, launched: seq<Cell>, instants: seq<int>,
    from: nat, to: nat, now: int)
    requires Kept(f, results, after) && f.policy.primaryCaseIds != [] && Favourable(f, results, world)
    requires |instants| == |launched| && Traced(world, results, after.admissions, after.raw, launched, instants)
    requires ClockAhead(after.admissions, now) && f.binding.cutoff - now >= f.binding.requiredRemaining
    ensures !Hindered(f, results, world, before, after, from, to) && SoundReadings(world) && Spaced(world)
  {
    hide Kept, PairFails, ControlsPass, HonestStarts, ControlsTimely, Blocked, OnTrack, History.Valid;
    assert forall k: nat :: Calm(world(k));
    assert NeverTorn(world, results) && !SomeBroken(after.raw);
    NothingIsBlocked(f, results, world, after, now);
    NoPairFails(f, results, after);
  }

  /** Every frozen campaign has results that pass, for the controls and for every pair. */
  lemma {:induction false} SomeResultsPass(f: Frozen) returns (results: Results)
    requires f.Valid()
    ensures f.policy.primaryCaseIds != []
    ensures ResultsPass(f, results)
    ensures forall c, stage, n: nat :: PairPasses(f, results, c, stage, n)
  {
    hide Score, CalibrationReasons, Timing.FailedBudgets, Eligibility.FailedGates, IsSafeId, IsSha256;
    PrimaryCases(f);
    var at := f.cutoff - 900 * SECOND;
    results := _ => SteadyCell(f, at);
    var calibrating := SteadyScore(f, 0, at);
    forall c, stage, n: nat
      ensures PairPasses(f, results, c, stage, n)
    {
      var scored := SteadyScore(f, n, at);
    }
  }
}
