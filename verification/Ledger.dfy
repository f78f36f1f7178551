/**
 The controller journal of a campaign on track: its records are distinct, bound to the freeze, and
 attested by the raw cells; appending the controller's next event keeps all of that.
 */
module Ledger {
  import opened Common
  import opened Gates
  import opened Replay
  import opened History
  import opened Scoring
  import opened Campaign
  import opened Script

  // ---------------------------------------------------------------------------
  // Freshness
  // ---------------------------------------------------------------------------

  function Owner(e: Event): Option<string> {
    match e
    case CandidateStarted(c, _, _) => Some(c)
    case PairStarted(c, _, _) => Some(c)
    case CellCompleted(c, _, _) => Some(c)
    case PairScored(c, _, _) => Some(c)
    case CandidateDecided(c, _) => Some(c)
    case CandidateDiscarded(c, _, _, _) => Some(c)
    case _ => None
  }

  /** The candidate is among the first k proposals. */
  predicate Among(f: Frozen, c: string, k: nat) {
    exists i :: 0 <= i < k && i < |f.proposals| && f.proposals[i].candidateId == c
  }

  ghost predicate OwnedBy(events: seq<Event>, c: string) {
    forall e :: e in events ==> Owner(e) == Some(c)
  }

  lemma {:induction false} PairEventsOwned(c: string, n: int)
    ensures forall arms: nat :: OwnedBy(PairStart(c, n, arms), c)
    ensures forall o: Observation :: OwnedBy(PairEvents(c, n, o), c)
  {
    hide PairOrder;
  }

  lemma {:induction false} OpenEventsOwned(open: Open, base: nat)
    requires !open.Nothing?
    ensures OwnedBy(open.Events(base), open.header.candidateId)
  {
    hide PairStart, PairEvents;
    var c, n := open.header.candidateId, base + open.Confirmed();
    PairEventsOwned(c, base);
    PairEventsOwned(c, n);
  }

  ghost predicate OwnedAmong(f: Frozen, events: seq<Event>, k: nat) {
    forall e :: e in events ==> Owner(e).Some? && Among(f, Owner(e).value, k)
  }

  lemma {:induction false} BlockEventsOwned(f: Frozen, results: Results, n: nat)
    requires f.policy.primaryCaseIds != [] && CanonBlocks(f, results, n).Some?
    ensures |CanonBlocks(f, results, n).value| == n
    ensures OwnedAmong(f, BlockEvents(CanonBlocks(f, results, n).value), n)
  {
    hide EligibleResult, CanonFirst, FinalVerdict, PairsOf, Open.Events, Promoted;
    if n != 0 {
      var before := CanonBlocks(f, results, n - 1).value;
      var b := CanonBlock(f, results, f.proposals[n - 1], PairsOf(before)).value;
      BlockEventsOwned(f, results, n - 1);
      assert (before + [b])[..n - 1] == before;
      OpenEventsOwned(b.open, PairsOf(before));
      OwnedConcat(f, BlockEvents(before), b.Events(PairsOf(before)), n);
    }
  }

  lemma {:induction false} OwnedConcat(f: Frozen, before: seq<Event>, more: seq<Event>, n: nat)
    requires 0 < n <= |f.proposals| && OwnedAmong(f, before, n - 1)
    requires forall e :: e in more ==> Owner(e) == Some(f.proposals[n - 1].candidateId)
    ensures OwnedAmong(f, before + more, n)
  {
  }

  lemma {:induction false} FitsFresh(p: Policy, open: Open, base: nat, e: Event)
    requires !open.Nothing? && open.Valid(p, base) && Fits(p, open, base, e)
    ensures e !in open.Events(base)
  {
    if e.CellCompleted? {
      CellIsFresh(open, base, e);
    } else if e.PairStarted? || e.PairScored? {
      PairIsFresh(open, base, e);
    } else {
      hide IsSafeId, IsSha256, PairReasons, ScreenPasses, SimplificationScreenPasses, PromotionPasses,
           SimplificationPromotionPasses, Observation.WellFormed, Header.Valid, Open.Events, PairOrder;
      assert e.CandidateDecided? ==> (Closes(e) || open.first.None?);
      DecisionIsFresh(open, base, e);
    }
  }

  lemma {:induction false} PairIsFresh(open: Open, base: nat, e: Event)
    requires open.Waiting? || open.Running?
    requires e.PairStarted? || e.PairScored?
    requires (if e.PairStarted? then open.Waiting? else open.Running?) && e.pairIndex == base + open.Confirmed()
    ensures e !in open.Events(base)
  {
    hide PairOrder;
  }

  lemma {:induction false} DecisionIsFresh(open: Open, base: nat, e: Event)
    requires !open.Nothing? && (e.CandidateDiscarded? || (e.CandidateDecided? && (Closes(e) || open.first.None?)))
    ensures e !in open.Events(base)
  {
    hide PairStart, PairEvents;
    var c, n := open.header.candidateId, base + open.Confirmed();
    if open.first.Some? {
      NoPairEvent(c, base, open.first.value.observation, e);
    }
    if open.Running? {
      NoStartEvent(c, n, open.arms, e);
    } else if open.Scored? {
      NoPairEvent(c, n, open.last, e);
    }
  }

  lemma {:induction false} NoStartEvent(c: string, n: int, arms: nat, e: Event)
    requires e.CandidateDiscarded? || e.CandidateDecided?
    ensures e !in PairStart(c, n, arms)
  {
    hide PairOrder;
  }

  lemma {:induction false} NoPairEvent(c: string, n: int, o: Observation, e: Event)
    requires e.CandidateDiscarded? || e.CandidateDecided?
    ensures e !in PairEvents(c, n, o)
  {
    hide PairOrder;
  }

  lemma {:induction false} CellIsFresh(open: Open, base: nat, e: Event)
    requires open.Running? && open.arms < 2 && e.CellCompleted? && e.pairIndex == base + open.Confirmed()
    requires e.arm == PairOrder(e.pairIndex)[open.arms]
    ensures e !in open.Events(base)
  {
  }

  /** The next event of a campaign on track has not been recorded before. */
  lemma {:induction false} DrivenIsFresh(f: Frozen, results: Results, raw: Raw, h: History, e: Event)
    requires f.Valid() && h.Valid(f.policy) && OnTrack(f, results, h) && Driven(f, results, raw, h, e)
    ensures e !in h.Events(f.policy)
  {
    hide IsSafeId, IsSha256, Fits, Open.Events, Open.Valid, CanonBlocks, PairResult, CanonFirst, BlockEvents, PairsOf,
         BlocksValid, FirstVerdict, FinalVerdict, Timing.FailedBudgets, Exhausted, Promoted;
    if h.Campaign? {
      BlockEventsOwned(f, results, |h.blocks|);
      if h.open.Nothing? {
        NothingIsOpen(f.policy, PairsOf(h.blocks));
        assert e.CandidateStarted? ==> !Among(f, e.candidateId, |h.blocks|);
      } else {
        OpenEventsOwned(h.open, PairsOf(h.blocks));
        assert !Among(f, h.open.header.candidateId, |h.blocks|);
        if !e.CampaignTerminated? {
          DrivenFits(f, results, raw, h, e);
          FitsFresh(f.policy, h.open, PairsOf(h.blocks), e);
        }
      }
    }
  }

  // ---------------------------------------------------------------------------
  // The frozen index
  // ---------------------------------------------------------------------------

  function Cursor(h: History): nat {
    if h.Unstarted? then 0 else |h.blocks| + if h.open.Nothing? then 0 else 1
  }

  /** Pairs the current candidate has started. */
  function StartedPairs(open: Open): nat {
    open.Confirmed() + if open.Running? || open.Scored? then 1 else 0
  }

  function ArmsDone(n: int, arms: nat): set<Arm> {
    if arms == 0 then {} else if arms == 1 then {PairOrder(n)[0]} else BOTH
  }

  ghost predicate Indexed(f: Frozen, ix: Index, h: History) {
    && ix.cursor == Cursor(h)
    && (forall c :: c in ix.started ==> Among(f, c, Cursor(h)))
    && (forall c :: c in ix.pairs ==> Among(f, c, Cursor(h)))
    && (h.Campaign? && !h.open.Nothing? ==>
          var c, n := h.open.header.candidateId, PairsOf(h.blocks) + h.open.Confirmed();
          && ix.Occurrences(c) == StartedPairs(h.open)
          && (h.open.Running? ==>
                (c, n) in ix.active && ix.active[(c, n)] == ActivePair(StageOf(h.open), ArmsDone(n, h.open.arms))))
  }

  /** The cell is on disk with its frozen result. */
  predicate IsWritten(results: Results, raw: Raw, cell: Cell) {
    cell in raw && raw[cell].Finished? && raw[cell] == results(cell)
  }

  /** The completed arms of the running pair are on disk and finished. */
  ghost predicate ArmsWritten(results: Results, raw: Raw, h: History) {
    h.Campaign? && h.open.Running? ==>
      var n := PairsOf(h.blocks) + h.open.Confirmed();
      forall i :: 0 <= i < 2 && i < h.open.arms ==> IsWritten(results, raw, CellAt(h.open, n, i))
  }

  ghost predicate Stepped(f: Frozen, results: Results, raw: Raw, ix: Index, h: History, e: Event)
    requires f.policy.primaryCaseIds != []
    requires h.Unstarted? ==> e.CampaignStarted?
    requires h.Campaign? && h.open.Nothing? && Advances(e) ==> e.CandidateStarted?
  {
    var step := FrozenStep(f, raw, true, ix, e);
    if GapBreaks(results, h, e) then step == Err(CellFailure(Measurement))
    else step.Ok? && Indexed(f, step.value, Extend(h, e))
  }

  lemma {:induction false} IndexPassive(f: Frozen, results: Results, raw: Raw, ix: Index, h: History, e: Event)
    requires f.Valid() && h.Valid(f.policy) && Driven(f, results, raw, h, e) && Indexed(f, ix, h)
    requires h.Unstarted? || e.CampaignTerminated? || e.CampaignCompleted? || e.CandidateDecided?
    requires h.Campaign? && h.open.Nothing? && Advances(e) ==> e.CandidateStarted?
    ensures Stepped(f, results, raw, ix, h, e)
  {
    hide IsSafeId, IsSha256, Open.Valid, Timing.FailedBudgets, BlocksValid, Exhausted,
         Promoted, Header.Valid, GapHolds, Project, Score, PairsOf, PairOrder, ScreenPasses,
         SimplificationScreenPasses, PromotionPasses, SimplificationPromotionPasses;
  }

  lemma {:induction false} IndexCandidate(f: Frozen, results: Results, raw: Raw, ix: Index, h: History, e: Event)
    requires f.Valid() && OnTrack(f, results, h) && Driven(f, results, raw, h, e) && Indexed(f, ix, h)
    requires h.Campaign? && h.open.Nothing? && e.CandidateStarted?
    ensures Stepped(f, results, raw, ix, h, e)
  {
    hide IsSafeId, IsSha256, CanonBlocks, FirstVerdict, FinalVerdict, Timing.FailedBudgets, Exhausted,
         Promoted, Header.Valid, GapHolds, Project, Score, PairsOf, PairOrder;
    var k := |h.blocks|;
    assert !Among(f, e.candidateId, k);
    assert Among(f, e.candidateId, k + 1);
    forall c | Among(f, c, k)
      ensures Among(f, c, k + 1)
    {
    }
  }

  lemma {:induction false} IndexPair(f: Frozen, results: Results, raw: Raw, ix: Index, h: History, e: Event)
    requires f.Valid() && OnTrack(f, results, h) && Driven(f, results, raw, h, e) && Indexed(f, ix, h)
    requires h.Campaign? && h.open.Waiting? && e.PairStarted?
    ensures Stepped(f, results, raw, ix, h, e)
  {
    hide IsSafeId, IsSha256, CanonBlocks, FirstVerdict, FinalVerdict, Timing.FailedBudgets, Exhausted,
         Promoted, Header.Valid, GapHolds, Project, Score, PairsOf, PairOrder, CanonFirst;
    assert Among(f, e.candidateId, |h.blocks| + 1);
  }

  lemma {:induction false} IndexFirstCell(f: Frozen, results: Results, raw: Raw, ix: Index, h: History, e: Event)
    requires f.Valid() && OnTrack(f, results, h) && Driven(f, results, raw, h, e)
    requires Indexed(f, ix, h) && h.Campaign? && h.open.Running? && h.open.arms == 0 && !e.CampaignTerminated?
    ensures Stepped(f, results, raw, ix, h, e)
  {
    hide IsSafeId, IsSha256, Open.Valid, CanonBlocks, PairResult, CanonFirst, FirstVerdict, FinalVerdict,
         Timing.FailedBudgets, BlocksValid, Exhausted, Promoted, Header.Valid, GapHolds, Score, PairsOf;
    var n := PairsOf(h.blocks) + h.open.Confirmed();
    assert ArmsDone(n, 0) + {e.arm} == ArmsDone(n, 1) == {e.arm};
    assert ArmsDone(n, 1) != BOTH by { assert Champion in BOTH && Candidate in BOTH; }
  }

  lemma {:induction false} IndexSecondCell(f: Frozen, results: Results, raw: Raw, ix: Index, h: History, e: Event)
    requires f.Valid() && OnTrack(f, results, h) && Driven(f, results, raw, h, e)
    requires Indexed(f, ix, h) && ArmsWritten(results, raw, h)
    requires h.Campaign? && h.open.Running? && h.open.arms == 1 && !e.CampaignTerminated?
    ensures Stepped(f, results, raw, ix, h, e)
  {
    hide IsSafeId, IsSha256, Open.Valid, CanonBlocks, PairResult, CanonFirst, FirstVerdict, FinalVerdict,
         Timing.FailedBudgets, BlocksValid, Exhausted, Promoted, Header.Valid, GapHolds, Score, PairsOf;
    var n := PairsOf(h.blocks) + h.open.Confirmed();
    assert IsWritten(results, raw, CellAt(h.open, n, 0));
    assert ArmsDone(n, 1) + {e.arm} == BOTH;
  }

  lemma {:induction false} IndexScore(f: Frozen, results: Results, raw: Raw, ix: Index, h: History, e: Event)
    requires f.Valid() && h.Valid(f.policy) && OnTrack(f, results, h) && Driven(f, results, raw, h, e)
    requires Indexed(f, ix, h) && ArmsWritten(results, raw, h)
    requires h.Campaign? && h.open.Running? && h.open.arms == 2 && !e.CampaignTerminated?
    ensures Stepped(f, results, raw, ix, h, e)
  {
    hide IsSafeId, IsSha256, Open.Valid, CanonBlocks, CanonFirst, FirstVerdict, FinalVerdict,
         Timing.FailedBudgets, BlocksValid, Exhausted, Promoted, Header.Valid, GapHolds, Score, PairsOf;
    var n := PairsOf(h.blocks) + h.open.Confirmed();
    assert IsWritten(results, raw, CellAt(h.open, n, 0)) && IsWritten(results, raw, CellAt(h.open, n, 1));
  }

  /** The frozen replay accepts the controller's next event, unless it is the second cell across a broken gap. */
  lemma {:induction false} IndexStep(f: Frozen, results: Results, raw: Raw, ix: Index, h: History, e: Event)
    requires f.Valid() && h.Valid(f.policy) && OnTrack(f, results, h) && Driven(f, results, raw, h, e)
    requires Indexed(f, ix, h) && ArmsWritten(results, raw, h)
    requires h.Campaign? && h.open.Nothing? && Advances(e) ==> e.CandidateStarted?
    ensures Stepped(f, results, raw, ix, h, e)
  {
    hide IsSafeId, IsSha256, CanonBlocks, PairResult, FirstVerdict, FinalVerdict, Timing.FailedBudgets, BlocksValid,
         Exhausted, Promoted, Header.Valid, GapHolds, Score, PairsOf, PairOrder, Stepped, Indexed, OnTrack, ArmsWritten;
    if h.Unstarted? || e.CampaignTerminated? || e.CampaignCompleted? || h.open.Scored? {
      IndexPassive(f, results, raw, ix, h, e);
    } else if h.open.Nothing? {
      IndexCandidate(f, results, raw, ix, h, e);
    } else if h.open.Waiting? {
      IndexPair(f, results, raw, ix, h, e);
    } else if h.open.arms == 0 {
      IndexFirstCell(f, results, raw, ix, h, e);
    } else if h.open.arms == 1 {
      IndexSecondCell(f, results, raw, ix, h, e);
    } else {
      IndexScore(f, results, raw, ix, h, e);
    }
  }

  // ---------------------------------------------------------------------------
  // The journal
  // ---------------------------------------------------------------------------

  function EventsOf(records: seq<Record>): seq<Event> {
    seq(|records|, i requires 0 <= i < |records| => records[i].event)
  }

  /** The journal records exactly the history: bound, distinct, replayed to its state and attested by the cells. */
  ghost predicate Records(f: Frozen, results: Results, raw: Raw, records: seq<Record>, h: History)
    requires f.policy.primaryCaseIds != []
  {
    && EventsOf(records) == h.Events(f.policy)
    && Unrepeated(records) == records
    && (records != [] ==> records[0].event.CampaignStarted?)
    && (var s := ReplayRecords(f.policy, records);
        && s.Ok? && s.value.machine == h.State()
        && (forall id :: id in s.value.seen ==> id.Bound? && id == f.Bind(id.event) && id.event in h.Events(f.policy)))
    && (var ix := FrozenFold(f, raw, true, records);
        ix.Ok? && Indexed(f, ix.value, h))
  }

  /** A campaign whose durable state is on track. */
  ghost predicate Sound(f: Frozen, results: Results, raw: Raw, records: seq<Record>, h: History) {
    && f.Valid() && h.Valid(f.policy) && OnTrack(f, results, h)
    && Records(f, results, raw, records, h) && ArmsWritten(results, raw, h)
  }

  lemma {:induction false} SoundReplays(f: Frozen, results: Results, raw: Raw, records: seq<Record>, h: History)
    requires Sound(f, results, raw, records, h)
    ensures FrozenReplay(f, raw, true, records) == ReplayOk(f, records)
    ensures ReplayRecords(f.policy, records).Ok? && ReplayRecords(f.policy, records).value.machine == h.State()
  {
    hide OnTrack, Indexed, FrozenFold, ReplayRecords, Unrepeated;
  }

  function ReplayOk(f: Frozen, records: seq<Record>): Result<State, Failure> {
    var s := ReplayRecords(f.policy, records);
    if s.Err? then Err(Planning) else Ok(s.value)
  }

  /**
   Appending the controller's next event: the frozen replay of the longer journal refuses it exactly when it is
   a second cell across a broken gap, and otherwise the campaign stays sound with the extended history.
   */
  lemma {:induction false} AppendDriven(f: Frozen, results: Results, raw: Raw, records: seq<Record>, h: History, e: Event, t: Timestamp)
    requires Sound(f, results, raw, records, h) && Driven(f, results, raw, h, e) && t != Malformed && e != Unrecognised
    ensures h.Unstarted? ==> e.CampaignStarted?
    ensures h.Campaign? && h.open.Nothing? && Advances(e) ==> e.CandidateStarted?
    ensures var longer := records + [Record(f.Bind(e), e, t)];
            if GapBreaks(results, h, e) then FrozenReplay(f, raw, true, longer) == Err(CellFailure(Measurement))
            else Sound(f, results, raw, longer, Extend(h, e))
  {
    hide Driven, OnTrack, Indexed, FrozenStep, FrozenFold, FrozenReplay, ReplayRecords, Unrepeated, History.State,
         History.Events, History.Valid, Extend, GapBreaks, Apply, ArmsWritten, Advances, IsSafeId, IsSha256, Header.Valid;
    var r := Record(f.Bind(e), e, t);
    DrivenIsAccepted(f, results, raw, h, e);
    DrivenIsFresh(f, results, raw, h, e);
    JournalGrows(f.policy, records, r, h);
    UnrepeatedGrows(f.policy, records, r);
    IndexStep(f, results, raw, FrozenFold(f, raw, true, records).value, h, e);
    FoldGrows(f, raw, records, r);
    FirstIsStart(f, records, h, e);
    EventsSnoc(records, r);
    if GapBreaks(results, h, e) {
      FoldRefuses(f, raw, records + [r]);
    } else {
      DrivenStaysOnTrack(f, results, raw, h, e);
      ArmsStayWritten(f, results, raw, h, e);
    }
  }

  lemma {:induction false} EventsSnoc(records: seq<Record>, r: Record)
    ensures EventsOf(records + [r]) == EventsOf(records) + [r.event]
  {
  }

  lemma {:induction false} FoldGrows(f: Frozen, raw: Raw, records: seq<Record>, r: Record)
    requires f.policy.primaryCaseIds != [] && FrozenFold(f, raw, true, records).Ok? && r.id == f.Bind(r.event)
    ensures FrozenFold(f, raw, true, records + [r]) == FrozenStep(f, raw, true, FrozenFold(f, raw, true, records).value, r.event)
  {
    hide FrozenStep;
    assert (records + [r])[..|records|] == records;
  }

  lemma {:induction false} FoldRefuses(f: Frozen, raw: Raw, records: seq<Record>)
    requires f.policy.primaryCaseIds != [] && ReplayRecords(f.policy, records).Ok? && Unrepeated(records) == records
    requires records != [] && records[0].event.CampaignStarted? && FrozenFold(f, raw, true, records).Err?
    ensures FrozenReplay(f, raw, true, records) == Err(FrozenFold(f, raw, true, records).error)
  {
  }

  lemma {:induction false} FirstIsStart(f: Frozen, records: seq<Record>, h: History, e: Event)
    requires f.policy.primaryCaseIds != [] && EventsOf(records) == h.Events(f.policy)
    requires h.Unstarted? ==> e.CampaignStarted?
    ensures records == [] ==> e.CampaignStarted?
  {
    assert h.Campaign? ==> |h.Events(f.policy)| > 0;
    assert |EventsOf(records)| == |records|;
  }

  lemma {:induction false} JournalGrows(p: Policy, records: seq<Record>, r: Record, h: History)
    requires ReplayRecords(p, records).Ok? && ReplayRecords(p, records).value.machine == h.State()
    requires r.WellFormed() && r.id !in ReplayRecords(p, records).value.seen && Apply(p, h.State(), r.event).Ok?
    ensures var s, t := ReplayRecords(p, records).value, ReplayRecords(p, records + [r]);
            t.Ok? && t.value == State(Apply(p, h.State(), r.event).value, s.seen[r.id := r.event], s.ids + [r.id])
  {
    hide Apply, History.State;
    ReplayConcat(p, START, records, [r]);
    assert [r][1..] == [];
  }

  lemma {:induction false} UnrepeatedGrows(p: Policy, records: seq<Record>, r: Record)
    requires ReplayRecords(p, records).Ok? && r.id !in ReplayRecords(p, records).value.seen
    requires Unrepeated(records) == records
    ensures Unrepeated(records + [r]) == records + [r]
  {
    hide Apply;
    SeenRecords(p, START, records);
    assert (records + [r])[..|records|] == records;
  }

  lemma {:induction false} ArmsStayWritten(f: Frozen, results: Results, raw: Raw, h: History, e: Event)
    requires f.policy.primaryCaseIds != [] && ArmsWritten(results, raw, h) && Driven(f, results, raw, h, e)
    requires h.Campaign? && h.open.Nothing? && Advances(e) ==> e.CandidateStarted?
    ensures ArmsWritten(results, raw, Extend(h, e))
  {
    hide IsSafeId, IsSha256, FirstVerdict, FinalVerdict, PairResult, Timing.FailedBudgets, Exhausted, PairsOf, PairOrder;
    if h.Campaign? && h.open.Running? && e.CellCompleted? {
      CellStaysWritten(f, results, raw, h, e);
    }
  }

  lemma {:induction false} CellStaysWritten(f: Frozen, results: Results, raw: Raw, h: History, e: Event)
    requires f.policy.primaryCaseIds != [] && ArmsWritten(results, raw, h) && Driven(f, results, raw, h, e)
    requires h.Campaign? && h.open.Running? && e.CellCompleted?
    ensures ArmsWritten(results, raw, Extend(h, e))
  {
    hide IsSafeId, IsSha256, FirstVerdict, FinalVerdict, PairResult, Timing.FailedBudgets, Exhausted, PairsOf, PairOrder;
    var n := PairsOf(h.blocks) + h.open.Confirmed();
    var after := Extend(h, e);
    assert after.open == Running(h.open.header, h.open.first, h.open.arms + 1);
    assert IsWritten(results, raw, CellAt(h.open, n, h.open.arms));
    forall i | 0 <= i < 2 && i < after.open.arms
      ensures IsWritten(results, raw, CellAt(after.open, n, i))
    {
      assert CellAt(after.open, n, i) == CellAt(h.open, n, i);
    }
  }

  /** Writing further cell journals keeps a campaign sound. */
  lemma {:induction false} SoundWithMoreCells(f: Frozen, results: Results, raw: Raw, more: Raw, records: seq<Record>, h: History)
    requires Sound(f, results, raw, records, h) && Extends(raw, more)
    ensures Sound(f, results, more, records, h)
  {
    hide OnTrack, Indexed, FrozenStep, History.State, History.Events, PairsOf;
    FoldIgnoresNewCells(f, raw, more, records);
    if h.Campaign? && h.open.Running? {
      var n := PairsOf(h.blocks) + h.open.Confirmed();
      forall i | 0 <= i < 2 && i < h.open.arms
        ensures IsWritten(results, more, CellAt(h.open, n, i))
      {
        assert IsWritten(results, raw, CellAt(h.open, n, i));
      }
    }
  }
}
