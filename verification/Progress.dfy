/** Decisions, what is left to do, and what one invocation does about it. */
module Progress {
  import opened Common
  import opened Gates
  import opened Replay
  import opened History
  import opened Scoring
  import opened Campaign
  import opened Script
  import opened Ledger
  import opened Provenance
  import opened Durable
  import opened Steps
  import Admission

  // ---------------------------------------------------------------------------
  // Decisions and progress
  // ---------------------------------------------------------------------------

  predicate IsIdle(h: History) {
    h.Campaign? && h.ending == Ongoing && h.open.Nothing?
  }

  /** The failure of a scored pair that may not be decided, in causal order. */
  function IneligibilityKind(o: Observation): Option<KnownFailure> {
    var gates := o.eligibility.FailedGates();
    if gates == [] && o.timing.FailedBudgets() == [] then None
    else if CleanupBreach in gates then Some(CleanupFailure)
    else if OwnershipAmbiguous in gates then Some(OwnershipAmbiguity)
    else if Oom in gates then Some(OomFailure)
    else if SwapPressure in gates then Some(SwapPressureFailure)
    else if MemoryPressure in gates then Some(MemoryPressureFailure)
    else if AuditRequirementPassed in gates then Some(Audit)
    else if ValidationPassed in gates then Some(Validation)
    else Some(Measurement)
  }

  lemma {:induction false} EligibleHasNoFailures(o: Observation)
    ensures IneligibilityKind(o).None? <==> o.eligibility.FailedGates() == [] && o.timing.FailedBudgets() == []
  {
  }

  /** The failure of an ineligible pair, by its recorded hazards and requirements, in causal order. */
  lemma {:induction false} IneligibilityMeans(o: Observation)
    ensures var kind, raised := IneligibilityKind(o), o.eligibility.raised;
            && (kind == Some(CleanupFailure) <==> CleanupBreach in raised)
            && (kind == Some(OwnershipAmbiguity) <==> OwnershipAmbiguous in raised && CleanupBreach !in raised)
            && (kind == Some(OomFailure) <==> Oom in raised && raised !! {CleanupBreach, OwnershipAmbiguous})
            && (kind == Some(SwapPressureFailure) <==> SwapPressure in raised && raised !! {CleanupBreach, OwnershipAmbiguous, Oom})
            && (kind == Some(MemoryPressureFailure) <==>
                  MemoryPressure in raised && raised !! {CleanupBreach, OwnershipAmbiguous, Oom, SwapPressure})
            && (kind == Some(Audit) <==> AuditRequirementPassed !in raised && forall g :: g in raised ==> !IsHazard(g))
            && (kind == Some(Validation) <==>
                  ValidationPassed !in raised && AuditRequirementPassed in raised && forall g :: g in raised ==> !IsHazard(g))
            && (kind.None? <==> (forall g: Gate :: g in raised <==> !IsHazard(g)) && o.timing.FailedBudgets() == [])
  {
    GatesMean(o.eligibility);
    hide Eligibility.FailedGates, Timing.FailedBudgets;
  }

  /** A scored pair on track passes every eligibility gate, so only its timing can stop a decision, as a measurement failure. */
  lemma {:induction false} OnlyTimingIsIneligible(f: Frozen, results: Results, h: History)
    requires f.Valid() && OnTrack(f, results, h) && h.Campaign? && h.open.Scored?
    ensures IneligibilityKind(h.open.last) == if h.open.last.timing.FailedBudgets() == [] then None else Some(Measurement)
  {
    hide CanonBlocks, CanonFirst, PairResult, PairsOf, IsSafeId, IsSha256, Header.Valid, Timing.FailedBudgets,
         Eligibility.FailedGates, Observation.WellFormed, PairReasons, Promoted;
    ResultIsSound(f, results, h.open.header.candidateId, StageOf(h.open), PairsOf(h.blocks) + h.open.Confirmed());
  }

  function ProposalOf(proposals: seq<Header>, c: string): Option<Header> {
    if proposals == [] then None
    else if proposals[0].candidateId == c then Some(proposals[0])
    else ProposalOf(proposals[1..], c)
  }

  lemma {:induction false} ProposalFound(proposals: seq<Header>, i: nat)
    requires i < |proposals|
    requires forall j, k :: 0 <= j < k < |proposals| ==> proposals[j].candidateId != proposals[k].candidateId
    ensures ProposalOf(proposals, proposals[i].candidateId) == Some(proposals[i])
  {
    if i != 0 {
      ProposalFound(proposals[1..], i - 1);
    }
  }

  lemma {:induction false} CurrentProposal(f: Frozen, results: Results, d: Store)
    requires Kept(f, results, d) && d.Current().Campaign? && !d.Current().open.Nothing?
    ensures ProposalOf(f.proposals, d.Current().open.header.candidateId) == Some(d.Current().open.header)
  {
    hide Kept, CanonBlocks, CanonFirst, PairResult, PairsOf, IsSafeId, IsSha256, Header.Valid, History.Valid;
    KeptTrack(f, results, d);
    ProposalFound(f.proposals, |d.Current().blocks|);
  }

  lemma {:induction false} ScoredObservations(m: Machine, h: History)
    requires Reads(m, h) && m.phase == ScoredPhase
    ensures h.Campaign? && h.ending == Ongoing && h.open.Scored? && m.candidateId == Some(h.open.header.candidateId)
    ensures m.observations == h.open.Observations() + [h.open.last] && 1 <= |m.observations| <= 2
    ensures m.observations[|m.observations| - 1] == h.open.last
    ensures |m.observations| == 2 <==> h.open.first.Some?
    ensures h.open.first.Some? ==> m.observations[0] == h.open.first.value.observation && m.mode == Some(h.open.first.value.mode)
  {
    hide PairsOf;
  }

  /**
   What is left to do: two pairs for each undecided candidate, one when its first pair is confirmed, and the
   calibration; a campaign that only waits to be closed still needs one invocation.
   */
  function Remaining(f: Frozen, h: History, calibrated: bool): nat {
    if h.Unstarted? then 2 * |f.proposals| + if calibrated then 0 else 1
    else if h.ending != Ongoing then 0
    else
      var left := 2 * (|f.proposals| - |h.blocks|) - h.open.Confirmed() + if calibrated then 0 else 1;
      if left <= 0 then 1 else left
  }

  lemma {:induction false} EndedLeavesNothing(f: Frozen, h: History)
    ensures Ended(h) ==> Remaining(f, h, true) == 0
    ensures h.Campaign? && !Ended(h) ==> Remaining(f, h, true) > 0
  {
  }

  /** A decision leaves less to do; when it leaves nothing to try, the decisions say so. */
  lemma {:induction false} AfterDecision(f: Frozen, results: Results, before: Store, after: Store, decision: Decision)
    requires Kept(f, results, before) && Kept(f, results, after)
    requires before.Current().Campaign? && before.Current().ending == Ongoing && before.Current().open.Scored?
    requires decision == VerdictOf(f.policy, before.Current().open)
    requires after.Current() == Extend(before.Current(), CandidateDecided(before.Current().open.header.candidateId, decision))
    ensures decision in {Promote, PromoteSimplification} ==> IsIdle(after.Current()) && Exhausted(f, after.Current().blocks)
    ensures decision == Reject ==>
              && IsIdle(after.Current())
              && (AllRejected(f, DecisionsFrom(map[], EventsOf(after.records))) <==> Exhausted(f, after.Current().blocks))
    ensures decision !in {Promote, PromoteSimplification, Reject} || !Exhausted(f, after.Current().blocks)
            ==> Remaining(f, after.Current(), true) < Remaining(f, before.Current(), true)
    ensures Remaining(f, before.Current(), true) > 0 && after.Current().Campaign? && after.Current().ending == Ongoing
  {
    hide Kept, CanonBlocks, CanonFirst, PairResult, PairsOf, IsSafeId, IsSha256, Header.Valid, History.Valid, ScreenPasses,
         SimplificationScreenPasses, PromotionPasses, SimplificationPromotionPasses, AllRejected, History.Events, AnyPromotion;
    KeptTrack(f, results, before);
    KeptTrack(f, results, after);
    EmptyIsUnstarted(f, results, after);
    if after.Current().open.Nothing? {
      HistoryDecisions(f, results, after.Current());
    }
  }

  lemma {:induction false} ReadsPhase(m: Machine, h: History)
    requires Reads(m, h)
    ensures m.phase == New <==> h.Unstarted?
    ensures m.phase == Terminal <==> Ended(h)
    ensures m.phase == Idle <==> IsIdle(h)
    ensures m.phase == CandidatePhase <==> h.Campaign? && h.ending == Ongoing && h.open.Waiting?
    ensures m.phase == PairPhase <==> h.Campaign? && h.ending == Ongoing && h.open.Running?
    ensures m.phase == ScoredPhase <==> h.Campaign? && h.ending == Ongoing && h.open.Scored?
  {
    hide PairsOf;
  }

  /** What the decisions in the journal say about what to do next. */
  lemma {:induction false} NextCandidate(f: Frozen, results: Results, d: Store, decisions: Decisions)
    requires Kept(f, results, d) && d.Current().Campaign? && d.Current().ending == Ongoing
    requires decisions == DecisionsFrom(map[], EventsOf(d.records))
    ensures AnyPromotion(decisions) ==> IsIdle(d.Current()) && Exhausted(f, d.Current().blocks)
    ensures IsIdle(d.Current()) && !AnyPromotion(decisions) ==>
              var blocks, next := d.Current().blocks, FirstUndecided(f.proposals, decisions);
              if next.None? then Exhausted(f, blocks)
              else !Exhausted(f, blocks) && |blocks| < |f.proposals| && next.value == f.proposals[|blocks|]
  {
    hide Kept, CanonBlocks, CanonFirst, PairResult, PairsOf, IsSafeId, IsSha256, Header.Valid, History.Valid, Promoted,
         AnyPromotion;
    KeptTrack(f, results, d);
    EmptyIsUnstarted(f, results, d);
    HistoryDecisions(f, results, d.Current());
    var k := |d.Current().blocks|;
    BlocksWithinQueue(f, results, k);
    if IsIdle(d.Current()) {
      assert forall i :: 0 <= i < k ==> Among(f, f.proposals[i].candidateId, k);
      assert k < |f.proposals| ==> !Among(f, f.proposals[k].candidateId, k);
      UndecidedAt(f.proposals, decisions, k);
    }
  }

  /** Starting and scoring a pair changes nothing about how much is left to do. */
  lemma {:induction false} RemainingUntilScored(f: Frozen, a: History, b: History, c: History)
    requires a.Campaign? && a.ending == Ongoing && b.Campaign? && b.blocks == a.blocks && b.ending == Ongoing
    requires b.open.Confirmed() == a.open.Confirmed() && (c == b || ScoredFrom(b, c))
    ensures Remaining(f, c, true) == Remaining(f, a, true)
  {
  }

  /** The admission taken for the next pair stands while its candidate starts. */
  lemma {:induction false} StillAdmitted(f: Frozen, results: Results, d: Store, e: Event)
    requires Kept(f, results, d) && IsIdle(d.Current()) && Driven(f, results, d.raw, d.Current(), e) && e.CandidateStarted?
    requires TargetOf(f, d.Current()).Some? ==> AdmittedNow(f, d)
    requires d.Calibrated()
    ensures d.past != [] && Permitted(f, d, e)
    ensures forall t: Timestamp :: AdmittedNow(f, Appended(d, f, e, t))
  {
    hide Kept, CanonBlocks, CanonFirst, PairResult, PairsOf, IsSafeId, IsSha256, Header.Valid, History.Valid, Promoted,
         TargetOf;
    KeptTrack(f, results, d);
    EmptyIsUnstarted(f, results, d);
    StartsMatchTarget(f, results, d.raw, d.Current(), e);
    TargetOfIdle(f, results, d.raw, d.Current(), e);
    var a :| a in d.admissions && AdmittedFor(f, a, |d.records|, d.past);
    forall t: Timestamp
      ensures AdmittedNow(f, Appended(d, f, e, t))
    {
      assert AdmittedFor(f, a, |d.records| + 1, Appended(d, f, e, t).past);
    }
  }

  lemma {:induction false} WaitingHasTarget(f: Frozen, h: History)
    ensures h.Campaign? && h.ending == Ongoing && h.open.Waiting? ==> TargetOf(f, h).Some?
  {
  }

  lemma {:induction false} TargetOfIdle(f: Frozen, results: Results, raw: Raw, h: History, e: Event)
    requires f.Valid() && IsIdle(h) && Driven(f, results, raw, h, e) && e.CandidateStarted?
    ensures TargetOf(f, h).Some?
  {
    hide Frozen.Valid;
  }

  // ---------------------------------------------------------------------------
  // One invocation
  // ---------------------------------------------------------------------------

  /** A new pair after a completed one waits for its checkpoint to be acknowledged. */
  predicate GateRequired(f: Frozen, calibration: Option<CalibrationRecord>, m: Machine, events: seq<Event>) {
    if calibration.None? || !calibration.value.passed || m.phase == New then false
    else if m.phase == CandidatePhase then |m.observations| == 1 && m.mode.Some?
    else if m.phase != Idle then false
    else
      var decisions := DecisionsFrom(map[], events);
      !AnyPromotion(decisions) && !AllRejected(f, decisions)
  }

  /** The failure recorded for a blocked admission, in causal order. */
  function BlockedKind(blockers: seq<Admission.Blocker>): KnownFailure {
    if Admission.HarnessChanged in blockers then Audit
    else if Admission.SwapAboveLimit in blockers then SwapPressureFailure
    else if Admission.InsufficientMemory in blockers then MemoryPressureFailure
    else Cutoff
  }

  /** A blocked admission ends the campaign as a cutoff exactly when time was all that was missing. */
  lemma {:induction false} CutoffMeansOnlyTime(b: Admission.Binding, at: int, memory: int, swap: int, harness: string, files: int)
    requires var o := Admission.Observe(b, at, memory, swap, harness, files);
             o.Some? && o.value.outcome != Admission.Admitted
    ensures var o := Admission.Observe(b, at, memory, swap, harness, files).value;
            BlockedKind(o.blockers) == Cutoff <==> o.outcome == Admission.CutoffReached
  {
  }

  /** The failure that a blocked admission is recorded as, by its readings: the harness first, then swap, memory and time. */
  lemma {:induction false} BlockedKindMeans(b: Admission.Binding, at: int, memory: int, swap: int, harness: string, files: int)
    requires var o := Admission.Observe(b, at, memory, swap, harness, files);
             o.Some? && o.value.outcome != Admission.Admitted
    ensures var kind := BlockedKind(Admission.Observe(b, at, memory, swap, harness, files).value.blockers);
            var bound := harness == b.harness && files == b.harnessFiles;
            && (kind == Audit <==> !bound)
            && (kind == SwapPressureFailure <==> bound && swap > b.maxSwap)
            && (kind == MemoryPressureFailure <==> bound && swap <= b.maxSwap && memory < b.requiredMemory)
            && (kind == Cutoff <==> bound && swap <= b.maxSwap && memory >= b.requiredMemory)
            && (kind == Cutoff ==> b.cutoff - at < b.requiredRemaining)
  {
    Admission.ObserveMeans(b, at, memory, swap, harness, files);
    hide Admission.Observe;
  }

  /** The gate is consulted exactly when a calibrated campaign is about to start a pair right after a completed one. */
  lemma {:induction false} GateMeansFreshPair(f: Frozen, results: Results, d: Store, m: Machine)
    requires Kept(f, results, d) && m == d.Current().State()
    ensures d.past != []
    ensures GateRequired(f, d.calibration, m, EventsOf(d.records))
            <==> && d.Calibrated() && TargetOf(f, d.Current()).Some?
                 && (IsIdle(d.Current()) || (d.Current().open.Waiting? && d.Current().open.first.Some?))
  {
    hide Kept, CanonBlocks, CanonFirst, PairResult, PairsOf, IsSafeId, IsSha256, Header.Valid, History.Valid, Promoted,
         AnyPromotion, AllRejected, History.State, History.Events, OnTrack, Reads;
    KeptTrack(f, results, d);
    EmptyIsUnstarted(f, results, d);
    StateReads(f.policy, d.Current());
    ReadsPhase(m, d.Current());
    if m.phase == CandidatePhase {
      WaitingReads(m, d.Current());
    }
    if d.Current().Campaign? {
      HistoryDecisions(f, results, d.Current());
      QueueLength(f, results, d.Current());
    }
  }

  lemma {:induction false} QueueLength(f: Frozen, results: Results, h: History)
    requires f.Valid() && OnTrack(f, results, h) && h.Campaign?
    ensures |h.blocks| <= |f.proposals|
  {
    hide CanonFirst, PairResult, PairsOf, IsSafeId, IsSha256, Header.Valid;
    BlocksWithinQueue(f, results, |h.blocks|);
  }

  lemma {:induction false} WaitingReads(m: Machine, h: History)
    requires Reads(m, h) && m.phase == CandidatePhase
    ensures |m.observations| == 1 && m.mode.Some? <==> h.open.first.Some?
  {
    hide PairsOf;
  }

  function Left(f: Frozen, d: Store): nat
    requires d.past != []
  {
    Remaining(f, d.Current(), d.calibration.Some?)
  }

  lemma {:induction false} LeftUntilEnded(f: Frozen, results: Results, d: Store)
    requires Kept(f, results, d) && !Ended(d.Current())
    ensures d.past != [] && Left(f, d) > 0
  {
    hide Kept, IsSafeId, IsSha256, Header.Valid, OnTrack, History.Valid;
    KeptTrack(f, results, d);
  }

  lemma {:induction false} ControlsArePair(cells: seq<Cell>)
    requires PairLaunches(cells, ControlA, ControlB)
    ensures OnePair(cells)
  {
  }

  /** Recording the calibration is progress. */
  lemma {:induction false} CalibrationLeavesLess(f: Frozen, results: Results, before: Store, after: Store)
    requires Kept(f, results, before) && before.past != [] && after.past != []
    requires before.calibration.None? && after.calibration.Some?
    requires after.Current() == before.Current() && before.Current().Campaign? && !Ended(before.Current())
    ensures Left(f, after) < Left(f, before)
  {
    hide Sound, Remembered, Topology, Admission.ValidChain, Attributed, VerifyCalibration, AdmittedCalibration;
    KeptTrack(f, results, before);
  }

  lemma {:induction false} StartLeavesNoMore(f: Frozen, before: Store, after: Store)
    requires before.past != [] && after.past != [] && after.calibration == before.calibration
    requires after.Current() == before.Current()
             || (before.Current().Unstarted? && before.calibration.None? && after.Current() == Campaign(f.id, [], Nothing, Ongoing))
    ensures Left(f, after) <= Left(f, before)
  {
  }

  /** No cell has been written before the campaign started. */
  ghost predicate Begun(d: Store)
    requires d.past != []
  {
    d.Current().Campaign? || d.raw == map[]
  }

  lemma {:induction false} BegunStays(f: Frozen, results: Results, before: Store, after: Store)
    requires Kept(f, results, before) && Kept(f, results, after) && before.past != [] && after.past != [] && Grew(before, after)
    ensures after.raw == before.raw || after.Current().Campaign? ==> Begun(before) ==> Begun(after)
  {
    hide Kept;
    EmptyIsUnstarted(f, results, before);
    EmptyIsUnstarted(f, results, after);
  }

  lemma {:induction false} IndexingLeavesSame(f: Frozen, before: Store, after: Store)
    requires before.past != [] && after.past != [] && after.calibration == before.calibration
    requires SameStage(before.Current(), after.Current())
    ensures Left(f, after) == Left(f, before)
    ensures Ended(after.Current()) <==> Ended(before.Current())
    ensures after.Current().Unstarted? <==> before.Current().Unstarted?
  {
  }

  lemma {:induction false} BegunBeforeCalibration(f: Frozen, results: Results, before: Store, after: Store, wrote: bool)
    requires Kept(f, results, before) && Kept(f, results, after) && before.past != [] && after.past != []
    requires SameStage(before.Current(), after.Current()) && after.raw == before.raw && !Ended(before.Current())
    requires if wrote then before.calibration.None? && after.calibration.Some? else after.calibration == before.calibration
    ensures after.records == [] <==> after.Current().Unstarted?
    ensures !wrote ==> Left(f, after) == Left(f, before)
    ensures after.Current().Campaign? ==> before.Current().Campaign?
    ensures after.calibration.Some? && Begun(before) ==> after.Current().Campaign?
    ensures wrote && Begun(before) ==> Left(f, after) < Left(f, before) && after.Current().Campaign?
  {
    hide Sound, Remembered, Topology, Admission.ValidChain, Attributed, AdmittedCalibration, GapHolds, Score, CalibrationReasons;
    KeptTrack(f, results, before);
    EmptyIsUnstarted(f, results, after);
  }

  lemma {:induction false} FinishedLeavesLess(f: Frozen, results: Results, before: Store, after: Store)
    requires Kept(f, results, before) && before.past != [] && after.past != []
    ensures Ended(after.Current()) && !Ended(before.Current()) ==> Left(f, after) < Left(f, before)
    ensures Ended(after.Current()) ==> after.Current().Campaign?
  {
    hide Kept;
    if !Ended(before.Current()) {
      LeftUntilEnded(f, results, before);
    }
  }

  lemma {:induction false} CampaignIsBegun(d: Store)
    requires d.past != [] && d.Current().Campaign?
    ensures Begun(d)
  {
  }

  lemma {:induction false} MachineOf(f: Frozen, results: Results, d: Store)
    requires Kept(f, results, d)
    ensures d.past != []
    ensures ReplayRecords(f.policy, d.records).Ok? && ReplayRecords(f.policy, d.records).value.machine == d.Current().State()
  {
    hide Topology, CalibrationKept, Attributed, Remembered, Admission.ValidChain, ArmsWritten, OnTrack, FrozenFold, Unrepeated,
         ReplayRecords, History.Valid, History.State;
  }

  lemma {:induction false} EndedHasNothingLeft(f: Frozen, d: Store)
    requires d.past != [] && Ended(d.Current())
    ensures Left(f, d) == 0
  {
  }

  /** The next target never fails on what the controller keeps, and an admission may name it. */
  lemma {:induction false} NextTargetIs(f: Frozen, results: Results, d: Store, m: Machine)
    requires Kept(f, results, d) && !Ended(d.Current()) && m == d.Current().State()
    requires d.calibration.Some? ==> d.Current().Campaign?
    ensures d.past != []
    ensures var t := NextTarget(f, if d.records == [] then None else Some(m), EventsOf(d.records), d.calibration.Some?);
            && t.Ok?
            && (t.value.Some? ==> Admissible(f, d, t.value.value))
            && (d.calibration.None? ==> t.value == Some(CALIBRATION))
            && (d.calibration.Some? ==> t.value == TargetOf(f, d.Current()))
  {
    hide Sound, Remembered, Topology, Admission.ValidChain, Attributed, VerifyCalibration, TargetOf, OnTrack, AdmittedCalibration,
         IsSafeId, IsSha256, Header.Valid;
    KeptTrack(f, results, d);
    EmptyIsUnstarted(f, results, d);
    if d.calibration.Some? {
      LiveTargetIs(f, results, d.Current());
    } else if d.Current().Campaign? {
      OnlyStarted(f, d.Current());
      assert |EventsOf(d.records)| == |d.records|;
      assert d.records[0].event == EventsOf(d.records)[0];
    }
  }

  lemma {:induction false} OnlyStarted(f: Frozen, h: History)
    requires h.Campaign? && h.blocks == [] && h.open.Nothing? && h.ending == Ongoing
    ensures h.Events(f.policy) == [CampaignStarted(h.id, f.policy.digest)]
    ensures h.State().phase == Idle && h.State().nextPairIndex == 0
  {
  }

  // ---------------------------------------------------------------------------
  // Checkpoint sequence numbers
  // ---------------------------------------------------------------------------

  /** The sequence of the latest completed pair: one for the calibration, its pair index plus two for a search pair. */
  function CheckpointSequence(events: seq<Event>): int {
    if events == [] then 1
    else
      var n := |events| - 1;
      if events[n].PairScored? then events[n].pairIndex + 2 else CheckpointSequence(events[..n])
  }

  lemma {:induction false} ScoresSnoc(events: seq<Event>, e: Event)
    ensures Scores(events + [e]) == Scores(events) + if e.PairScored? then 1 else 0
    decreases |events|
  {
    if events == [] {
      assert [e][1..] == [];
    } else {
      assert (events + [e])[1..] == events[1..] + [e];
      ScoresSnoc(events[1..], e);
    }
  }

  lemma {:induction false} ScoredIndex(p: Policy, m: Machine, h: History, e: Event)
    requires h.Valid(p) && m == h.State() && e.PairScored? && Apply(p, m, e).Ok?
    ensures e.pairIndex == m.nextPairIndex
  {
    hide PairsOf, BlocksValid, Header.Valid, First.Valid, IsSafeId, IsSha256, PairOrder, Observation.WellFormed;
  }

  /** Along every accepted journal the checkpoint sequence counts the completed pairs, so each score raises it by one. */
  lemma {:induction false} SequenceCountsPairs(p: Policy, events: seq<Event>)
    requires Run(p, INITIAL, events).Ok?
    ensures CheckpointSequence(events) == 1 + Scores(events)
    decreases |events|
  {
    if events != [] {
      var n := |events| - 1;
      var before, e := events[..n], events[n];
      assert events == before + [e];
      RunSnoc(p, INITIAL, before, e);
      ScoresSnoc(before, e);
      if e.PairScored? {
        var h := AcceptedIsHistory(p, before);
        PairIndexCountsScores(p, INITIAL, before);
        ScoredIndex(p, Run(p, INITIAL, before).value, h, e);
      } else {
        SequenceCountsPairs(p, before);
      }
    }
  }

  lemma {:induction false} PairsWithinQueue(f: Frozen, results: Results, n: nat)
    requires f.policy.primaryCaseIds != [] && CanonBlocks(f, results, n).Some?
    ensures PairsOf(CanonBlocks(f, results, n).value) <= 2 * n
  {
    hide EligibleResult, CanonFirst, FinalVerdict, Promoted;
    if n != 0 {
      var before := CanonBlocks(f, results, n - 1).value;
      var b := CanonBlock(f, results, f.proposals[n - 1], PairsOf(before)).value;
      PairsWithinQueue(f, results, n - 1);
      assert (before + [b])[..|before|] == before;
    }
  }

  /** A campaign of n proposals never needs a checkpoint beyond 1 + 2n: the bound of seven is for three proposals. */
  lemma {:induction false} SequenceIsBounded(f: Frozen, results: Results, h: History)
    requires f.Valid() && h.Valid(f.policy) && OnTrack(f, results, h)
    ensures CheckpointSequence(h.Events(f.policy)) <= 1 + 2 * |f.proposals|
  {
    hide CanonBlocks, CanonFirst, PairResult, PairsOf, IsSafeId, IsSha256, Header.Valid, History.Valid, Promoted, Open.Events,
         BlockEvents, Apply, Run, CheckpointSequence;
    HistoryIsAccepted(f.policy, h);
    SequenceCountsPairs(f.policy, h.Events(f.policy));
    PairIndexCountsScores(f.policy, INITIAL, h.Events(f.policy));
    if h.Campaign? {
      assert CanonBlocks(f, results, |h.blocks|) == Some(h.blocks);
      PairsWithinQueue(f, results, |h.blocks|);
      BlocksWithinQueue(f, results, |h.blocks|);
    }
  }
}
