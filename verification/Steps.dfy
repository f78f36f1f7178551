/**
 What the controller's replayed state says about the history, which transitions it may append from
 there, and how the cells of the running pair lie on disk.
 */
module Steps {
  import opened Common
  import opened Gates
  import opened Replay
  import opened History
  import opened Scoring
  import opened Campaign
  import opened Script
  import opened Ledger
  import opened Provenance
  import opened Durable
  import Admission

  // ---------------------------------------------------------------------------
  // The replayed state of a history
  // ---------------------------------------------------------------------------

  /** What the replayed machine says about the history, field by field. */
  ghost predicate Reads(m: Machine, h: History) {
    && (m.phase == New <==> h.Unstarted?)
    && (m.phase == Terminal <==> h.Campaign? && h.ending != Ongoing)
    && (m.phase == Idle <==> h.Campaign? && h.ending == Ongoing && h.open.Nothing?)
    && (m.phase == CandidatePhase <==> h.Campaign? && h.ending == Ongoing && h.open.Waiting?)
    && (m.phase == PairPhase <==> h.Campaign? && h.ending == Ongoing && h.open.Running?)
    && (m.phase == ScoredPhase <==> h.Campaign? && h.ending == Ongoing && h.open.Scored?)
    && (h.Campaign? && !h.open.Nothing? ==>
          var n := PairsOf(h.blocks) + h.open.Confirmed();
          && m.candidateId == Some(h.open.header.candidateId)
          && m.mode == (if h.open.first.None? then None else Some(h.open.first.value.mode))
          && m.observations == h.open.Observations() + (if h.open.Scored? then [h.open.last] else [])
          && (h.open.Waiting? ==> m.nextPairIndex == n)
          && (h.open.Running? ==> m.activePairIndex == Some(n) && m.activeOrder == PairOrder(n)
                                  && h.open.arms <= 2 && m.completedArms == PairOrder(n)[..h.open.arms]))
  }

  lemma {:induction false} StateReads(p: Policy, h: History)
    requires h.Valid(p)
    ensures Reads(h.State(), h)
  {
    hide BlocksValid, Header.Valid, First.Valid, PairsOf, PairReasons, IsSafeId, IsSha256, Observation.WellFormed;
  }

  function CurrentPair(h: History): nat
    requires h.Campaign?
  {
    PairsOf(h.blocks) + h.open.Confirmed()
  }

  /** The cell of the running pair in position i, and its completion. */
  function PairCell(h: History, i: nat): Cell
    requires h.Campaign? && !h.open.Nothing? && i < 2
  {
    CellAt(h.open, CurrentPair(h), i)
  }

  function CellEvent(h: History, i: nat): Event
    requires h.Campaign? && !h.open.Nothing? && i < 2
  {
    CellCompleted(h.open.header.candidateId, CurrentPair(h), PairOrder(CurrentPair(h))[i])
  }

  // ---------------------------------------------------------------------------
  // What the controller may append
  // ---------------------------------------------------------------------------

  lemma {:induction false} StartIsDriven(f: Frozen, results: Results, d: Store)
    requires Kept(f, results, d) && d.Current().Unstarted?
    ensures f.policy.primaryCaseIds != []
    ensures Driven(f, results, d.raw, d.Current(), CampaignStarted(f.id, f.policy.digest))
  {
    hide Sound, Topology, CalibrationKept, Attributed, Remembered, Admission.ValidChain;
    PrimaryCases(f);
  }

  lemma {:induction false} TerminationIsDriven(f: Frozen, results: Results, d: Store, kind: KnownFailure, cleanupVerified: bool)
    requires Kept(f, results, d) && d.Current().Campaign? && d.Current().ending == Ongoing
    ensures f.policy.primaryCaseIds != []
    ensures Driven(f, results, d.raw, d.Current(), CampaignTerminated(kind, cleanupVerified, false))
  {
    hide Sound, Topology, CalibrationKept, Attributed, Remembered, Admission.ValidChain;
    PrimaryCases(f);
  }

  lemma {:induction false} CandidateIsDriven(f: Frozen, results: Results, d: Store)
    requires Kept(f, results, d) && d.Current().Campaign? && d.Current().ending == Ongoing && d.Current().open.Nothing?
    ensures f.policy.primaryCaseIds != []
    ensures Exhausted(f, d.Current().blocks) ==> Driven(f, results, d.raw, d.Current(), CampaignCompleted)
    ensures !Exhausted(f, d.Current().blocks) ==>
              && |d.Current().blocks| < |f.proposals|
              && var next := f.proposals[|d.Current().blocks|];
                 Driven(f, results, d.raw, d.Current(), CandidateStarted(next.candidateId, next.axis, next.deltaDigest))
  {
    hide Sound, Topology, CalibrationKept, Attributed, Remembered, Admission.ValidChain, Promoted, CanonBlock;
    PrimaryCases(f);
    TrackOf(f, results, d);
    BlocksWithinQueue(f, results, |d.Current().blocks|);
  }

  lemma {:induction false} BlocksWithinQueue(f: Frozen, results: Results, n: nat)
    requires f.policy.primaryCaseIds != [] && CanonBlocks(f, results, n).Some?
    ensures n <= |f.proposals|
  {
    hide CanonBlock, Promoted;
  }

  lemma {:induction false} PairIsDriven(f: Frozen, results: Results, d: Store)
    requires Kept(f, results, d) && d.Current().Campaign? && d.Current().ending == Ongoing && d.Current().open.Waiting?
    ensures f.policy.primaryCaseIds != []
    ensures var h := d.Current();
            var n := CurrentPair(h);
            Driven(f, results, d.raw, h, PairStarted(h.open.header.candidateId, n, PairOrder(n)))
  {
    hide Sound, Topology, CalibrationKept, Attributed, Remembered, Admission.ValidChain, PairsOf;
    PrimaryCases(f);
  }

  lemma {:induction false} CellIsDriven(f: Frozen, results: Results, d: Store, arms: nat)
    requires Kept(f, results, d) && d.Current().Campaign? && d.Current().ending == Ongoing
    requires d.Current().open.Running? && d.Current().open.arms == arms < 2
    requires PairCell(d.Current(), arms) in d.raw && d.raw[PairCell(d.Current(), arms)].Finished?
    ensures f.policy.primaryCaseIds != []
    ensures Driven(f, results, d.raw, d.Current(), CellEvent(d.Current(), arms))
  {
    hide Sound, CalibrationKept, Attributed, Remembered, Admission.ValidChain, PairsOf, PairStarts;
    PrimaryCases(f);
  }

  /** The two cells of a fully indexed pair, scored from disk, give the observation their results dictate. */
  lemma {:induction false} RawScoreIsResult(f: Frozen, results: Results, raw: Raw, h: History)
    requires f.policy.primaryCaseIds != [] && OnTrack(f, results, h) && ArmsWritten(results, raw, h)
    requires h.Campaign? && h.open.Running? && h.open.arms == 2
    ensures var c, stage, n := h.open.header.candidateId, StageOf(h.open), CurrentPair(h);
            && Search(c, stage, Champion) in raw && raw[Search(c, stage, Champion)].Finished?
            && Search(c, stage, Candidate) in raw && raw[Search(c, stage, Candidate)].Finished?
            && Score(f, n, raw[Search(c, stage, Champion)], raw[Search(c, stage, Candidate)])
               == PairResult(f, results, c, stage, n)
  {
    hide PairsOf, Score, CanonBlocks, CanonFirst, GapHolds;
    var n := CurrentPair(h);
    assert IsWritten(results, raw, CellAt(h.open, n, 0)) && IsWritten(results, raw, CellAt(h.open, n, 1));
  }

  lemma {:induction false} ScoreIsDriven(f: Frozen, results: Results, d: Store)
    requires Kept(f, results, d) && d.Current().Campaign? && d.Current().ending == Ongoing
    requires d.Current().open.Running? && d.Current().open.arms == 2
    ensures f.policy.primaryCaseIds != []
    ensures var h := d.Current();
            var c, stage, n := h.open.header.candidateId, StageOf(h.open), CurrentPair(h);
            && Search(c, stage, Champion) in d.raw && d.raw[Search(c, stage, Champion)].Finished?
            && Search(c, stage, Candidate) in d.raw && d.raw[Search(c, stage, Candidate)].Finished?
            && var o := Score(f, n, d.raw[Search(c, stage, Champion)], d.raw[Search(c, stage, Candidate)]);
               o.Some? ==> Driven(f, results, d.raw, h, PairScored(c, n, o.value))
  {
    hide Topology, CalibrationKept, Attributed, Remembered, Admission.ValidChain, PairsOf, Records, Score, OnTrack,
         IsSafeId, IsSha256, GapHolds, PairResult, ArmsWritten;
    PrimaryCases(f);
    RawScoreIsResult(f, results, d.raw, d.Current());
  }

  function VerdictOf(p: Policy, open: Open): Decision
    requires open.Scored?
  {
    if open.first.None? then FirstVerdict(p, open.header.axis, open.last)
    else FinalVerdict(p, open.first.value.mode, open.first.value.observation, open.last)
  }

  lemma {:induction false} DecisionIsDriven(f: Frozen, results: Results, d: Store)
    requires Kept(f, results, d) && d.Current().Campaign? && d.Current().ending == Ongoing && d.Current().open.Scored?
    requires d.Current().open.last.timing.FailedBudgets() == []
    ensures f.policy.primaryCaseIds != []
    ensures var open := d.Current().open;
            Driven(f, results, d.raw, d.Current(), CandidateDecided(open.header.candidateId, VerdictOf(f.policy, open)))
  {
    hide Sound, Topology, CalibrationKept, Attributed, Remembered, Admission.ValidChain, Timing.FailedBudgets, FirstVerdict,
         FinalVerdict;
    PrimaryCases(f);
  }

  lemma {:induction false} KeptTrack(f: Frozen, results: Results, d: Store)
    requires Kept(f, results, d)
    ensures f.Valid() && f.policy.primaryCaseIds != [] && d.past != []
    ensures d.Current().Valid(f.policy) && OnTrack(f, results, d.Current())
  {
    hide Topology, CalibrationKept, Attributed, Remembered, Admission.ValidChain, Records, OnTrack, History.Valid, ArmsWritten;
    PrimaryCases(f);
  }

  lemma {:induction false} StructureReplays(f: Frozen, raw: Raw, records: seq<Record>)
    requires f.policy.primaryCaseIds != [] && FrozenReplay(f, raw, true, records).Ok?
    ensures ReplayRecords(f.policy, records).Ok?
  {
  }

  /** The frozen replay refuses the next transition exactly when it is a second cell across a broken gap. */
  lemma {:induction false} RefusalIsGap(f: Frozen, results: Results, d: Store, e: Event)
    requires Kept(f, results, d) && Driven(f, results, d.raw, d.Current(), e) && Permitted(f, d, e) && e != Unrecognised
    ensures f.policy.primaryCaseIds != []
    ensures var replayed := FrozenReplay(f, d.raw, true, d.records + [Record(f.Bind(e), e, NoTimestamp)]);
            if GapBreaks(results, d.Current(), e) then replayed == Err(CellFailure(Measurement))
            else replayed.Ok? && ReplayRecords(f.policy, d.records + [Record(f.Bind(e), e, NoTimestamp)]).Ok?
  {
    hide Kept, Driven, Permitted, GapBreaks, FrozenReplay, Extend, Advances, OnTrack, History.Valid, Frozen.Valid;
    KeptTrack(f, results, d);
    KeepAppend(f, results, d, e, NoTimestamp);
    if !GapBreaks(results, d.Current(), e) {
      KeptReplays(f, results, Appended(d, f, e, NoTimestamp));
      StructureReplays(f, d.raw, Appended(d, f, e, NoTimestamp).records);
    }
  }

  lemma {:induction false} EmptyIsUnstarted(f: Frozen, results: Results, d: Store)
    requires Kept(f, results, d)
    ensures |d.past| == |d.records| + 1
    ensures d.records == [] <==> d.Current().Unstarted?
    ensures EventsOf(d.records) == d.Current().Events(f.policy)
  {
    hide Topology, CalibrationKept, Attributed, Remembered, Admission.ValidChain, ArmsWritten, OnTrack, FrozenFold,
         Unrepeated, ReplayRecords, History.Valid, History.State;
    assert |EventsOf(d.records)| == |d.records|;
  }

  lemma {:induction false} PermittedWithoutAdmission(f: Frozen, d: Store, e: Event)
    requires |d.past| == |d.records| + 1 && !e.CandidateStarted? && !e.PairStarted?
    ensures Permitted(f, d, e)
  {
  }

  ghost predicate Ended(h: History) {
    h.Campaign? && h.ending != Ongoing
  }

  /** Nothing durable is ever rewritten or lost. */
  ghost predicate Grew(earlier: Store, later: Store) {
    && earlier.records <= later.records && earlier.past <= later.past
    && Extends(earlier.raw, later.raw)
    && (earlier.calibration.Some? ==> later.calibration == earlier.calibration)
    && earlier.admissions <= later.admissions
  }

  lemma {:induction false} GrowthIsReflexive(d: Store)
    ensures Grew(d, d)
  {
  }

  lemma {:induction false} GrowthKeeps(earlier: Store, later: Store)
    ensures Grew(earlier, later) ==> earlier.records <= later.records
  {
  }

  lemma {:induction false} WritingGrows(d: Store, cell: Cell, content: CellJournal)
    requires cell !in d.raw
    ensures Grew(d, Written(d, cell, content))
  {
  }

  lemma {:induction false} GrowthIsTransitive(a: Store, b: Store, c: Store)
    requires Grew(a, b) && Grew(b, c)
    ensures Grew(a, c)
  {
  }

  // ---------------------------------------------------------------------------
  // Topology
  // ---------------------------------------------------------------------------

  lemma {:induction false} StartsGrow(events: seq<Event>, n: nat, c: string)
    requires n <= |events|
    ensures PairStarts(events[..n], c) <= PairStarts(events, c)
    decreases |events|
  {
    if n == |events| {
      assert events[..n] == events;
    } else {
      assert events[..|events| - 1][..n] == events[..n];
      StartsGrow(events[..|events| - 1], n, c);
    }
  }

  predicate IsPair(m: Machine) {
    m.phase == PairPhase && m.candidateId.Some? && m.activePairIndex.Some? && |m.completedArms| <= |m.activeOrder|
  }

  function Missing(m: Machine): seq<Arm>
    requires IsPair(m)
  {
    m.activeOrder[|m.completedArms|..]
  }

  function MachineStage(m: Machine): Stage {
    if m.observations == [] then ScreenStage else ConfirmationStage
  }

  function PendingCell(m: Machine, arm: Arm): Cell
    requires IsPair(m)
  {
    Search(m.candidateId.value, MachineStage(m), arm)
  }

  /** The missing arms on disk are exactly the first |prefix| of them. */
  ghost predicate PendingPrefix(raw: Raw, m: Machine, prefix: seq<Arm>)
    requires IsPair(m)
  {
    var missing := Missing(m);
    prefix <= missing && forall k :: 0 <= k < |missing| ==> (PendingCell(m, missing[k]) in raw <==> k < |prefix|)
  }

  /** The same point of the campaign, up to indexed cells of the running pair. */
  ghost predicate SameStage(a: History, b: History) {
    a == b || (a.Campaign? && a.open.Running? && b.Campaign? && b.open.Running?
               && b == a.(open := a.open.(arms := b.open.arms)))
  }

  predicate RunningBelow(h: History, arms: nat) {
    h.Campaign? && h.ending == Ongoing && h.open.Running? && h.open.arms < arms
  }

  lemma {:induction false} PendingMembers(raw: Raw, m: Machine, prefix: seq<Arm>)
    requires IsPair(m) && PendingPrefix(raw, m, prefix)
    ensures |prefix| <= |Missing(m)|
    ensures forall i :: 0 <= i < |prefix| ==> PendingCell(m, Missing(m)[i]) in raw
  {
  }

  lemma {:induction false} PendingIsPairCell(m: Machine, h: History, i: nat)
    requires Reads(m, h) && IsPair(m) && i < |Missing(m)|
    ensures h.Campaign? && h.open.Running? && |m.completedArms| + i < 2
    ensures PendingCell(m, Missing(m)[i]) == PairCell(h, |m.completedArms| + i)
    ensures CellCompleted(m.candidateId.value, m.activePairIndex.value, Missing(m)[i]) == CellEvent(h, |m.completedArms| + i)
  {
    hide PairsOf;
  }

  lemma {:induction false} SameStageSamePair(a: History, b: History, i: nat)
    requires SameStage(a, b) && a.Campaign? && !a.open.Nothing? && i < 2
    ensures b.Campaign? && !b.open.Nothing? && CurrentPair(a) == CurrentPair(b)
    ensures PairCell(a, i) == PairCell(b, i) && CellEvent(a, i) == CellEvent(b, i)
  {
    hide PairsOf, PairOrder;
  }

  /** The calibration record, if there is one, is still the one its controls recompute to. */
  lemma {:induction false} RecordStands(f: Frozen, results: Results, d: Store)
    requires Kept(f, results, d)
    ensures f.policy.primaryCaseIds != []
    ensures VerifyCalibration(f, d.raw, d.calibration) == Ok(d.calibration)
    ensures ControlB in d.raw ==> ControlA in d.raw
    ensures ControlTopology(d.raw) != Err(Planning)
  {
    hide Sound, Topology, Remembered, Admission.ValidChain, Attributed, VerifyCalibration;
    PrimaryCases(f);
  }

  lemma {:induction false} LaunchIsPristine(d: Store, cell: Cell)
    requires d.past != [] && Launchable(d, cell)
    ensures cell !in d.raw
  {
  }

  /** Some of the two cells of one pair, in order. */
  predicate PairLaunches(cells: seq<Cell>, first: Cell, second: Cell) {
    cells == [] || cells == [first] || cells == [second] || cells == [first, second]
  }

  predicate Pristine(cells: seq<Cell>, raw: Raw) {
    forall c :: c in cells ==> c !in raw
  }

  /** The pair that is about to start has been admitted. */
  ghost predicate AdmittedNow(f: Frozen, d: Store)
    requires |d.past| == |d.records| + 1
  {
    exists a :: a in d.admissions && AdmittedFor(f, a, |d.records|, d.past)
  }

  lemma {:induction false} NextPairIndex(m: Machine, h: History)
    requires Reads(m, h) && m.phase == CandidatePhase
    ensures m.nextPairIndex == CurrentPair(h)
  {
    hide PairsOf;
  }

  lemma {:induction false} IndexedArm(results: Results, raw: Raw, h: History)
    requires ArmsWritten(results, raw, h) && RunningBelow(h, 2) && h.open.arms == 1
    ensures PairCell(h, 0) in raw && raw[PairCell(h, 0)].Finished?
  {
    hide PairsOf;
    assert IsWritten(results, raw, CellAt(h.open, PairsOf(h.blocks) + h.open.Confirmed(), 0));
  }

  lemma {:induction false} FirstArmIsWritten(f: Frozen, results: Results, d: Store)
    requires Kept(f, results, d) && RunningBelow(d.Current(), 2) && d.Current().open.arms == 1
    ensures PairCell(d.Current(), 0) in d.raw && d.raw[PairCell(d.Current(), 0)].Finished?
  {
    hide Topology, CalibrationKept, Attributed, Remembered, Admission.ValidChain, Records, OnTrack, History.Valid, PairsOf,
         Frozen.Valid, ArmsWritten, PairCell;
    IndexedArm(results, d.raw, d.Current());
  }

  lemma {:induction false} PairCellLaunches(f: Frozen, results: Results, d: Store, i: nat)
    requires Kept(f, results, d) && RunningBelow(d.Current(), 2) && d.Current().open.arms == i
    requires PairCell(d.Current(), i) !in d.raw
    ensures d.past != [] && Launchable(d, PairCell(d.Current(), i))
  {
    hide Kept, PairsOf, PairOrder, OnTrack, History.Valid, Frozen.Valid;
    KeptTrack(f, results, d);
    if i == 1 {
      FirstArmIsWritten(f, results, d);
    }
  }

  /** The running pair of one history has been scored in the other. */
  ghost predicate ScoredFrom(a: History, b: History) {
    && a.Campaign? && !a.open.Nothing? && b.Campaign? && b.open.Scored?
    && b == a.(open := Scored(a.open.header, a.open.first, b.open.last))
  }

  lemma {:induction false} ScoredThen(a: History, b: History, c: History)
    requires SameStage(a, b) && RunningBelow(b, 3)
    ensures ScoredFrom(b, c) ==> ScoredFrom(a, c)
    ensures c == b ==> SameStage(a, c)
  {
  }

  lemma {:induction false} ReadsPair(m: Machine, h: History)
    requires Reads(m, h) && m.phase == PairPhase
    ensures RunningBelow(h, 3)
    ensures m.candidateId == Some(h.open.header.candidateId) && MachineStage(m) == StageOf(h.open)
    ensures m.activePairIndex == Some(CurrentPair(h)) && |m.completedArms| == h.open.arms
    ensures m.activeOrder == PairOrder(CurrentPair(h)) && HasArm(m, 1)
    ensures |m.activeOrder| == 2 && m.activeOrder[0] != m.activeOrder[1]
  {
    hide PairsOf;
  }

  /** Launched cells are some of the two cells of one pair, in its frozen order. */
  ghost predicate OnePair(cells: seq<Cell>) {
    PairLaunches(cells, ControlA, ControlB)
    || exists c, stage, n: int ::
         PairLaunches(cells, Search(c, stage, PairOrder(n)[0]), Search(c, stage, PairOrder(n)[1]))
  }

  predicate HasArm(m: Machine, i: nat) {
    IsPair(m) && i < |m.activeOrder|
  }

  /** The cell of the i-th arm of the active pair. */
  function ArmCell(m: Machine, i: nat): Cell
    requires HasArm(m, i)
  {
    PendingCell(m, m.activeOrder[i])
  }

  /** What has been launched before the i-th arm of a pair. */
  ghost predicate ArmLaunches(m: Machine, cells: seq<Cell>, i: nat)
    requires HasArm(m, 1)
  {
    if i == 0 then cells == []
    else if i == 1 then cells == [] || cells == [ArmCell(m, 0)]
    else PairLaunches(cells, ArmCell(m, 0), ArmCell(m, 1))
  }

  lemma {:induction false} NothingLaunched(m: Machine, h: History, raw: Raw)
    ensures OnePair([]) && Pristine([], raw) && SameStage(h, h)
    ensures Reads(m, h) && m.phase == PairPhase ==> HasArm(m, 1) && ArmLaunches(m, [], |m.completedArms|)
  {
    hide PairsOf;
  }

  /** From the i-th arm on, the cells on disk are the ones in the prefix. */
  ghost predicate PrefixFrom(raw: Raw, m: Machine, prefix: seq<Arm>, i: nat)
    requires HasArm(m, 1)
  {
    forall k :: i <= k < 2 ==> (ArmCell(m, k) in raw <==> m.activeOrder[k] in prefix)
  }

  lemma {:induction false} PrefixMoves(m: Machine, prefix: seq<Arm>, before: Store, after: Store, i: nat)
    requires HasArm(m, 1) && m.activeOrder[0] != m.activeOrder[1] && PrefixFrom(before.raw, m, prefix, i) && i < 2
    requires Grew(before, after) && forall c :: c in after.raw && c != ArmCell(m, i) ==> c in before.raw
    ensures PrefixFrom(after.raw, m, prefix, i + 1)
  {
    assert ArmCell(m, 0) != ArmCell(m, 1);
  }

  lemma {:induction false} LaunchesOfPair(m: Machine, cells: seq<Cell>, more: seq<Cell>, i: nat)
    requires IsPair(m) && m.activeOrder == PairOrder(m.activePairIndex.value) && i < 2
    requires ArmLaunches(m, cells, i) || (more == [] && ArmLaunches(m, cells, i + 1))
    requires more == [] || more == [ArmCell(m, i)]
    ensures ArmLaunches(m, cells + more, i + 1) && OnePair(cells + more)
  {
    assert more == [] ==> cells + more == cells;
    assert PairLaunches(cells + more, ArmCell(m, 0), ArmCell(m, 1));
  }

  lemma {:induction false} FullyIndexed(m: Machine, h: History, g: History)
    requires Reads(m, h) && m.phase == PairPhase && SameStage(h, g) && g.Campaign? && g.open.Running? && g.open.arms == 2
    ensures Reads(m.(completedArms := m.activeOrder), g)
    ensures m.candidateId.Some? && m.activePairIndex.Some?
  {
    hide PairsOf;
  }

  lemma {:induction false} StillPristine(earlier: Store, later: Store, cells: seq<Cell>, more: seq<Cell>)
    requires Grew(earlier, later) && Pristine(cells, earlier.raw)
    requires forall c :: c in more ==> c !in later.raw
    ensures Pristine(cells + more, earlier.raw)
  {
  }

  lemma {:induction false} PrefixMembers(raw: Raw, m: Machine, prefix: seq<Arm>)
    requires HasArm(m, 1) && PendingPrefix(raw, m, prefix) && |m.activeOrder| == 2 && m.activeOrder[0] != m.activeOrder[1]
    ensures PrefixFrom(raw, m, prefix, |m.completedArms|)
  {
    forall k | |m.completedArms| <= k < 2
      ensures ArmCell(m, k) in raw <==> m.activeOrder[k] in prefix
    {
      assert Missing(m)[k - |m.completedArms|] == m.activeOrder[k];
    }
  }

  lemma {:induction false} PairCells(m: Machine, h: History, i: nat)
    requires Reads(m, h) && m.phase == PairPhase && i < 2
    ensures HasArm(m, 1) && |m.activeOrder| == 2
    ensures ArmCell(m, i) == PairCell(h, i)
    ensures CellCompleted(m.candidateId.value, m.activePairIndex.value, m.activeOrder[i]) == CellEvent(h, i)
  {
    hide PairsOf;
  }
}
