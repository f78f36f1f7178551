/**
 The canonical outcome of a campaign as a function of its cell results, what it means for a history
 to be on the way to it, and the events a controller may append next.
 */
module Script {
  import opened Common
  import opened Gates
  import opened Replay
  import opened History
  import opened Scoring
  import opened Campaign

  /** What each frozen cell writes if it is launched. */
  type Results = Cell -> CellJournal

  function PairResult(f: Frozen, results: Results, c: string, stage: Stage, n: int): Option<Observation>
    requires f.policy.primaryCaseIds != []
  {
    var first, second := results(Search(c, stage, PairOrder(n)[0])), results(Search(c, stage, PairOrder(n)[1]));
    if first.Broken? || second.Broken? || !GapHolds(first, second) then None
    else Score(f, n, results(Search(c, stage, Champion)), results(Search(c, stage, Candidate)))
  }

  /**
   When a pair has a score, and what it says: both cells finished, the second in its order started within 120 seconds
   after the first had stopped, and every primary case can be compared. The even pairs run the champion first.
   */
  lemma {:induction false} PairResultMeans(f: Frozen, results: Results, c: string, stage: Stage, n: int)
    requires f.policy.primaryCaseIds != []
    ensures var a, b := results(Search(c, stage, Champion)), results(Search(c, stage, Candidate));
            var first, second := if n % 2 == 0 then a else b, if n % 2 == 0 then b else a;
            PairResult(f, results, c, stage, n).Some? <==>
            && a.Finished? && b.Finished? && first.stoppedAt <= second.startedAt <= first.stoppedAt + 120_000_000
            && forall k :: 0 <= k < |f.policy.primaryCaseIds| ==> Comparable(f.policy.primaryCaseIds[k], a.projection, b.projection)
    ensures var a, b := results(Search(c, stage, Champion)), results(Search(c, stage, Candidate));
            var first, second := if n % 2 == 0 then a else b, if n % 2 == 0 then b else a;
            var ids, r := f.policy.primaryCaseIds, PairResult(f, results, c, stage, n);
            r.Some? ==>
              var o, last := r.value, if a.completedAt >= b.completedAt then a.completedAt else b.completedAt;
              && o.pairIndex == n && o.caseIds == ids && |o.ratios| == |ids|
              && (forall k :: 0 <= k < |ids| ==>
                    ComparesSpeed(o.ratios[k], a.projection.Find(ids[k]).value, b.projection.Find(ids[k]).value))
              && o.timing.firstCellS == first.projection.measurementS && o.timing.secondCellS == second.projection.measurementS
              && o.timing.reserveS * 1000000.0 == (if f.cutoff <= last then 0.0 else (f.cutoff - last) as real)
              && o.simplification.gainGib == b.projection.memAvailableGib - a.projection.memAvailableGib
  {
    hide ObservationFromCells, Comparable, ComparesSpeed, FirstTokenMedian, ReserveS, Projection.Find;
    var a, b := results(Search(c, stage, Champion)), results(Search(c, stage, Candidate));
    if a.Finished? && b.Finished? {
      ObservationMeans(f.policy, n, a.projection, b.projection, ReserveS(f, a, b));
      ReserveMeans(f, a, b, if a.completedAt >= b.completedAt then a.completedAt else b.completedAt);
    }
  }

  function FirstVerdict(p: Policy, axis: string, o: Observation): Decision {
    if axis == "reasoning_policy" && SimplificationScreenPasses(p, o) then ConfirmSimplification
    else if ScreenPasses(p, o) then Confirm
    else Reject
  }

  function FinalVerdict(p: Policy, mode: Mode, first: Observation, last: Observation): Decision {
    if mode == Simplified then if SimplificationPromotionPasses(p, first, last) then PromoteSimplification else Reject
    else if PromotionPasses(p, first, last) then Promote else Reject
  }

  /** A scored pair that the controller may decide on. */
  function EligibleResult(f: Frozen, results: Results, c: string, stage: Stage, n: int): Option<Observation>
    requires f.policy.primaryCaseIds != []
  {
    var o := PairResult(f, results, c, stage, n);
    if o.Some? && o.value.timing.FailedBudgets() == [] && o.value.eligibility.FailedGates() == [] then o else None
  }

  function CanonFirst(f: Frozen, results: Results, h: Header, base: int): Option<First>
    requires f.policy.primaryCaseIds != []
  {
    var o := EligibleResult(f, results, h.candidateId, ScreenStage, base);
    if o.None? then None
    else
      match FirstVerdict(f.policy, h.axis, o.value)
      case Confirm => Some(First(o.value, Standard))
      case ConfirmSimplification => Some(First(o.value, Simplified))
      case _ => None
  }

  /** The closed block of a candidate whose first pair has index `base`; none when a result cannot be scored. */
  function CanonBlock(f: Frozen, results: Results, h: Header, base: int): Option<Block>
    requires f.policy.primaryCaseIds != []
  {
    var c := h.candidateId;
    var screen := EligibleResult(f, results, c, ScreenStage, base);
    if screen.None? then None
    else
      var first := CanonFirst(f, results, h, base);
      if first.None? then Some(Block(Scored(h, None, screen.value), CandidateDecided(c, Reject)))
      else
        var last := EligibleResult(f, results, c, ConfirmationStage, base + 1);
        if last.None? then None
        else Some(Block(Scored(h, first, last.value),
                        CandidateDecided(c, FinalVerdict(f.policy, first.value.mode, screen.value, last.value))))
  }

  /** The first n closed blocks, if the campaign gets that far: each earlier candidate is rejected. */
  function CanonBlocks(f: Frozen, results: Results, n: nat): Option<seq<Block>>
    requires f.policy.primaryCaseIds != []
  {
    if n == 0 then Some([])
    else if n > |f.proposals| then None
    else
      var before := CanonBlocks(f, results, n - 1);
      if before.None? || Promoted(before.value) then None
      else
        var b := CanonBlock(f, results, f.proposals[n - 1], PairsOf(before.value));
        if b.None? then None else Some(before.value + [b.value])
  }

  predicate Promoted(blocks: seq<Block>) {
    blocks != [] && blocks[|blocks| - 1].Promotes()
  }

  /** Nothing is left to try. */
  predicate Exhausted(f: Frozen, blocks: seq<Block>) {
    Promoted(blocks) || |blocks| == |f.proposals|
  }

  function StageOf(open: Open): Stage {
    if open.Confirmed() == 0 then ScreenStage else ConfirmationStage
  }

  /** The cell of the current pair that runs in position `i`. */
  function CellAt(open: Open, n: int, i: nat): Cell
    requires !open.Nothing? && i < 2
  {
    Search(open.header.candidateId, StageOf(open), PairOrder(n)[i])
  }

  predicate OpenOnTrack(f: Frozen, results: Results, blocks: seq<Block>, open: Open)
    requires f.policy.primaryCaseIds != []
  {
    open.Nothing? ||
    (&& |blocks| < |f.proposals| && open.header == f.proposals[|blocks|] && !Promoted(blocks)
     && (open.first.Some? ==> open.first == CanonFirst(f, results, open.header, PairsOf(blocks)))
     && var n := PairsOf(blocks) + open.Confirmed();
        && (open.Running? && open.arms > 0 ==> results(CellAt(open, n, 0)).Finished?)
        && (open.Running? && open.arms > 1 ==>
              && results(CellAt(open, n, 1)).Finished?
              && GapHolds(results(CellAt(open, n, 0)), results(CellAt(open, n, 1))))
        && (open.Scored? ==> PairResult(f, results, open.header.candidateId, StageOf(open), n) == Some(open.last)))
  }

  /** A history that does exactly what the cell results dictate, up to its last event, or was aborted while doing so. */
  predicate OnTrack(f: Frozen, results: Results, h: History)
    requires f.policy.primaryCaseIds != []
  {
    h.Unstarted? ||
    (&& h.id == f.id
     && CanonBlocks(f, results, |h.blocks|) == Some(h.blocks)
     && OpenOnTrack(f, results, h.blocks, h.open)
     && (h.ending == Concluded ==> Exhausted(f, h.blocks)))
  }

  /**
   Confluence: the events of a finished history on track are determined by the frozen campaign and
   the cell results, however the controller got there.
   */
  lemma {:induction false} FinishedHistoriesAgree(f: Frozen, results: Results, g: History, h: History)
    requires f.Valid() && g.Valid(f.policy) && h.Valid(f.policy)
    requires OnTrack(f, results, g) && OnTrack(f, results, h)
    requires g.Campaign? && g.ending == Concluded && h.Campaign? && h.ending == Concluded
    ensures g == h
  {
    if |g.blocks| < |h.blocks| {
      ShorterIsNotExhausted(f, results, g.blocks, |h.blocks|);
    } else if |h.blocks| < |g.blocks| {
      ShorterIsNotExhausted(f, results, h.blocks, |g.blocks|);
    }
  }

  lemma {:induction false} ShorterIsNotExhausted(f: Frozen, results: Results, blocks: seq<Block>, n: nat)
    requires f.policy.primaryCaseIds != []
    requires CanonBlocks(f, results, |blocks|) == Some(blocks) && CanonBlocks(f, results, n).Some? && |blocks| < n
    ensures !Exhausted(f, blocks)
    decreases n
  {
    hide CanonBlock, Block.Promotes, PairsOf;
    if |blocks| < n - 1 {
      ShorterIsNotExhausted(f, results, blocks, n - 1);
    }
  }

  // ---------------------------------------------------------------------------
  // The events a controller may append
  // ---------------------------------------------------------------------------

  /** The next event on track from a history, given the cells that have been written. */
  predicate Driven(f: Frozen, results: Results, raw: Raw, h: History, e: Event)
    requires f.policy.primaryCaseIds != []
  {
    if h.Unstarted? then e == CampaignStarted(f.id, f.policy.digest)
    else if h.ending != Ongoing then false
    else if e.CampaignTerminated? then e.failureKind != UnknownFailure && !e.restoredPreflight
    else if h.open.Nothing? then
      if Exhausted(f, h.blocks) then e == CampaignCompleted
      else
        && |h.blocks| < |f.proposals|
        && var next := f.proposals[|h.blocks|];
           e == CandidateStarted(next.candidateId, next.axis, next.deltaDigest)
    else
      var c, n := h.open.header.candidateId, PairsOf(h.blocks) + h.open.Confirmed();
      match h.open
      case Waiting(_, _) => e == PairStarted(c, n, PairOrder(n))
      case Running(_, _, arms) =>
        if arms < 2 then
          var cell := CellAt(h.open, n, arms);
          e == CellCompleted(c, n, PairOrder(n)[arms]) && cell in raw && raw[cell].Finished? && raw[cell] == results(cell)
        else
          var o := PairResult(f, results, c, StageOf(h.open), n);
          o.Some? && e == PairScored(c, n, o.value)
      case Scored(_, first, last) =>
        && last.timing.FailedBudgets() == []
        && e == CandidateDecided(c, if first.None? then FirstVerdict(f.policy, h.open.header.axis, last)
                                    else FinalVerdict(f.policy, first.value.mode, first.value.observation, last))
  }

  /** The observation of a scored pair is well formed, indexed by its pair, and fails only on its timing. */
  lemma {:induction false} ResultIsSound(f: Frozen, results: Results, c: string, stage: Stage, n: nat)
    requires f.Valid() && PairResult(f, results, c, stage, n).Some?
    ensures var o := PairResult(f, results, c, stage, n).value;
            && o.WellFormed() && o.pairIndex == n && o.eligibility.FailedGates() == []
            && (PairReasons(f.policy, o) == [] <==> o.timing.FailedBudgets() == [])
            && (EligibleResult(f, results, c, stage, n) == if o.timing.FailedBudgets() == [] then Some(o) else None)
  {
    var champion, candidate := results(Search(c, stage, Champion)), results(Search(c, stage, Candidate));
    ObservationWellFormed(f.policy, n, champion.projection, candidate.projection, ReserveS(f, champion, candidate));
  }

  /** The controller's next event always fits the grammar of accepted histories. */
  lemma {:induction false} DrivenFits(f: Frozen, results: Results, raw: Raw, h: History, e: Event)
    requires f.Valid() && h.Valid(f.policy) && h.Campaign? && OnTrack(f, results, h)
    requires Driven(f, results, raw, h, e) && (Advances(e) || Closes(e))
    ensures Fits(f.policy, h.open, PairsOf(h.blocks), e)
  {
    hide IsSafeId, IsSha256, PairReasons, ScreenPasses, SimplificationScreenPasses, PromotionPasses,
         SimplificationPromotionPasses, Observation.WellFormed, PairResult, CanonFirst, CanonBlocks, Timing.FailedBudgets,
         BlocksValid, PairsOf, Exhausted, Promoted;
    var n := PairsOf(h.blocks) + h.open.Confirmed();
    if h.open.Running? && h.open.arms == 2 {
      ResultIsSound(f, results, h.open.header.candidateId, StageOf(h.open), n);
    } else if h.open.Scored? {
      ResultIsSound(f, results, h.open.header.candidateId, StageOf(h.open), n);
      DecisionFits(f, results, raw, h, e);
    }
  }

  lemma {:induction false} DecisionFits(f: Frozen, results: Results, raw: Raw, h: History, e: Event)
    requires f.Valid() && h.Valid(f.policy) && h.Campaign? && h.open.Scored?
    requires Driven(f, results, raw, h, e) && e.CandidateDecided? && PairReasons(f.policy, h.open.last) == []
    ensures Fits(f.policy, h.open, PairsOf(h.blocks), e)
  {
    hide IsSafeId, IsSha256, PairReasons, ScreenPasses, SimplificationScreenPasses, PromotionPasses,
         SimplificationPromotionPasses, Observation.WellFormed, Timing.FailedBudgets, BlocksValid, PairsOf;
  }

  /**
   Driver soundness: whatever the controller appends next is accepted by replay, and the journal stays a
   valid history.
   */
  lemma {:induction false} DrivenIsAccepted(f: Frozen, results: Results, raw: Raw, h: History, e: Event)
    requires f.Valid() && h.Valid(f.policy) && OnTrack(f, results, h) && Driven(f, results, raw, h, e)
    ensures h.Unstarted? ==> e.CampaignStarted?
    ensures h.Campaign? && h.open.Nothing? && Advances(e) ==> e.CandidateStarted?
    ensures var g := Extend(h, e);
            && g.Valid(f.policy) && g.Campaign?
            && g.Events(f.policy) == h.Events(f.policy) + [e]
            && Apply(f.policy, h.State(), e) == Ok(g.State())
  {
    hide IsSafeId, IsSha256, Apply, OpenState, BlocksValid, Open.Valid, Open.Events, PairResult, CanonFirst, CanonBlocks,
         FirstVerdict, FinalVerdict, Timing.FailedBudgets, PairsOf, BlockEvents, Fits, OpenOnTrack;
    if h.Unstarted? {
      NothingIsOpen(f.policy, 0);
      StartIsAccepted(f);
    } else if e.CampaignTerminated? {
      EndingFollows(f.policy, h, Aborted(e.failureKind, e.cleanupVerified, e.restoredPreflight));
    } else if e.CampaignCompleted? {
      EndingFollows(f.policy, h, Concluded);
    } else {
      DrivenFits(f, results, raw, h, e);
      if Advances(e) {
        AdvanceHistory(f.policy, h, e);
      } else {
        CloseHistory(f.policy, h, e);
      }
    }
  }

  lemma {:induction false} StartIsAccepted(f: Frozen)
    requires f.Valid()
    ensures var g := Campaign(f.id, [], Nothing, Ongoing);
            && g.Valid(f.policy) && g.Events(f.policy) == [CampaignStarted(f.id, f.policy.digest)]
            && Unstarted.Events(f.policy) == []
            && Apply(f.policy, Unstarted.State(), CampaignStarted(f.id, f.policy.digest)) == Ok(g.State())
  {
    hide IsSafeId, IsSha256;
  }

  /** The second cell of a pair leaves the track only when the gap between the two cells was out of bounds. */
  predicate GapBreaks(results: Results, h: History, e: Event) {
    && h.Campaign? && h.open.Running? && h.open.arms == 1 && e.CellCompleted?
    && var n := PairsOf(h.blocks) + h.open.Confirmed();
       && results(CellAt(h.open, n, 0)).Finished? && results(CellAt(h.open, n, 1)).Finished?
       && !GapHolds(results(CellAt(h.open, n, 0)), results(CellAt(h.open, n, 1)))
  }

  /** And it keeps the history on track. */
  lemma {:induction false} DrivenStaysOnTrack(f: Frozen, results: Results, raw: Raw, h: History, e: Event)
    requires f.Valid() && h.Valid(f.policy) && OnTrack(f, results, h) && Driven(f, results, raw, h, e)
    requires !GapBreaks(results, h, e)
    requires h.Campaign? && h.open.Nothing? && Advances(e) ==> e.CandidateStarted?
    ensures OnTrack(f, results, Extend(h, e))
  {
    hide IsSafeId, IsSha256, PairResult, CanonFirst, CanonBlock, FinalVerdict, FirstVerdict, Timing.FailedBudgets, PairsOf,
         Observation.WellFormed, BlocksValid, GapHolds, Header.Valid, First.Valid, Block.Valid;
    if h.Campaign? && h.open.Scored? && e.CandidateDecided? {
      DecisionStaysOnTrack(f, results, raw, h, e);
    }
  }

  lemma {:induction false} DecisionStaysOnTrack(f: Frozen, results: Results, raw: Raw, h: History, e: Event)
    requires f.Valid() && h.Valid(f.policy) && OnTrack(f, results, h) && Driven(f, results, raw, h, e)
    requires h.Campaign? && h.open.Scored? && e.CandidateDecided?
    ensures OnTrack(f, results, Extend(h, e))
  {
    hide OnTrack, Driven;
    if Closes(e) {
      ClosingStaysOnTrack(f, results, raw, h, e);
    } else {
      ConfirmingStaysOnTrack(f, results, raw, h, e);
    }
  }

  lemma {:induction false} ClosingStaysOnTrack(f: Frozen, results: Results, raw: Raw, h: History, e: Event)
    requires f.Valid() && h.Valid(f.policy) && OnTrack(f, results, h) && Driven(f, results, raw, h, e)
    requires h.Campaign? && h.open.Scored? && e.CandidateDecided? && Closes(e)
    ensures OnTrack(f, results, Extend(h, e))
  {
    hide IsSafeId, IsSha256, PairResult, Timing.FailedBudgets, PairsOf, Observation.WellFormed, BlocksValid, PairReasons,
         ScreenPasses, SimplificationScreenPasses, PromotionPasses, SimplificationPromotionPasses, Header.Valid, First.Valid;
    ResultIsSound(f, results, h.open.header.candidateId, StageOf(h.open), PairsOf(h.blocks) + h.open.Confirmed());
    assert (h.blocks + [Block(h.open, e)])[..|h.blocks|] == h.blocks;
  }

  lemma {:induction false} ConfirmingStaysOnTrack(f: Frozen, results: Results, raw: Raw, h: History, e: Event)
    requires f.Valid() && h.Valid(f.policy) && OnTrack(f, results, h) && Driven(f, results, raw, h, e)
    requires h.Campaign? && h.open.Scored? && e.CandidateDecided? && !Closes(e)
    ensures OnTrack(f, results, Extend(h, e))
  {
    hide IsSafeId, IsSha256, PairResult, Timing.FailedBudgets, PairsOf, Observation.WellFormed, BlocksValid, PairReasons,
         ScreenPasses, SimplificationScreenPasses, PromotionPasses, SimplificationPromotionPasses, Header.Valid, First.Valid,
         CanonBlocks;
    ResultIsSound(f, results, h.open.header.candidateId, StageOf(h.open), PairsOf(h.blocks) + h.open.Confirmed());
  }
}
