/**
 What the controller decides, stated by the gates alone: the decision of every scored candidate, and which proposal
 of the queue a finished campaign promotes.
 */
module Verdicts {
  import opened Common
  import opened Gates
  import opened Replay
  import opened History
  import opened Scoring
  import opened Campaign
  import opened Script
  import opened Ledger
  import opened Provenance
  import opened Durable
  import opened Steps

  const REASONING := "reasoning_policy"

  // ---------------------------------------------------------------------------
  // One decision
  // ---------------------------------------------------------------------------

  /** A first pair is confirmed in a mode: simplification comes first, and only on the reasoning axis. */
  predicate ConfirmedAs(p: Policy, axis: string, o: Observation, mode: Mode) {
    var simplifies := axis == REASONING && SimplificationScreenPasses(p, o);
    if mode == Simplified then simplifies else !simplifies && ScreenPasses(p, o)
  }

  /** Two pairs pass the promotion gate of their mode. */
  predicate PromotedAs(p: Policy, mode: Mode, first: Observation, last: Observation) {
    if mode == Simplified then SimplificationPromotionPasses(p, first, last) else PromotionPasses(p, first, last)
  }

  /** The decision that the gates call for, after one observation or after two. */
  predicate GatesDecide(p: Policy, axis: string, first: Option<First>, last: Observation, d: Decision) {
    if first.None? then
      && (d == ConfirmSimplification <==> ConfirmedAs(p, axis, last, Simplified))
      && (d == Confirm <==> ConfirmedAs(p, axis, last, Standard))
      && (d == Reject <==> !ConfirmedAs(p, axis, last, Simplified) && !ConfirmedAs(p, axis, last, Standard))
    else
      var passes := PromotedAs(p, first.value.mode, first.value.observation, last);
      && (d == PromoteSimplification <==> first.value.mode == Simplified && passes)
      && (d == Promote <==> first.value.mode == Standard && passes)
      && (d == Reject <==> !passes)
  }

  /** The controller's decision on a scored candidate is the one that the gates call for, and no other is. */
  lemma {:induction false} VerdictIsGates(p: Policy, open: Open, d: Decision)
    requires open.Scored?
    ensures GatesDecide(p, open.header.axis, open.first, open.last, d) <==> d == VerdictOf(p, open)
  {
    hide ScreenPasses, SimplificationScreenPasses, PromotionPasses, SimplificationPromotionPasses;
  }

  // ---------------------------------------------------------------------------
  // The queue
  // ---------------------------------------------------------------------------

  /** The first pair of a proposal is scored, and confirmed in a mode. */
  ghost predicate GoesOn(f: Frozen, results: Results, h: Header, base: nat, mode: Mode)
    requires f.policy.primaryCaseIds != []
  {
    var first := PairResult(f, results, h.candidateId, ScreenStage, base);
    first.Some? && ConfirmedAs(f.policy, h.axis, first.value, mode)
  }

  /** And the second one, in the next slot, promotes it. */
  ghost predicate Wins(f: Frozen, results: Results, h: Header, base: nat, mode: Mode)
    requires f.policy.primaryCaseIds != []
  {
    && GoesOn(f, results, h, base, mode)
    && var first := PairResult(f, results, h.candidateId, ScreenStage, base).value;
       var last := PairResult(f, results, h.candidateId, ConfirmationStage, base + 1);
       last.Some? && PromotedAs(f.policy, mode, first, last.value)
  }

  /** The first pair of a proposal is scored and confirmed, in one mode or the other. */
  ghost predicate Confirmed(f: Frozen, results: Results, h: Header, base: nat)
    requires f.policy.primaryCaseIds != []
  {
    GoesOn(f, results, h, base, Standard) || GoesOn(f, results, h, base, Simplified)
  }

  /** A gate fails: the screen of the first pair, or the promotion gate of both. */
  ghost predicate Loses(f: Frozen, results: Results, h: Header, base: nat)
    requires f.policy.primaryCaseIds != []
  {
    var first := PairResult(f, results, h.candidateId, ScreenStage, base);
    var last := PairResult(f, results, h.candidateId, ConfirmationStage, base + 1);
    && first.Some?
    && (Confirmed(f, results, h, base) ==> last.Some?)
    && (GoesOn(f, results, h, base, Standard) ==> !PromotedAs(f.policy, Standard, first.value, last.value))
    && (GoesOn(f, results, h, base, Simplified) ==> !PromotedAs(f.policy, Simplified, first.value, last.value))
  }

  /** The pairs that the first n proposals use: two if the first pair is confirmed, else one. */
  ghost function PairsUsed(f: Frozen, results: Results, n: nat): nat
    requires f.policy.primaryCaseIds != [] && n <= |f.proposals|
  {
    if n == 0 then 0
    else
      var base := PairsUsed(f, results, n - 1);
      base + if Confirmed(f, results, f.proposals[n - 1], base) then 2 else 1
  }

  /** How a candidate was closed is what the gates say of its results. */
  ghost predicate FollowsGates(f: Frozen, results: Results, b: Block, h: Header, base: nat)
    requires f.policy.primaryCaseIds != []
  {
    && b.closing.CandidateDecided? && b.closing.candidateId == h.candidateId
    && (b.closing.decision == Promote <==> Wins(f, results, h, base, Standard))
    && (b.closing.decision == PromoteSimplification <==> Wins(f, results, h, base, Simplified))
    && (b.closing.decision == Reject <==> Loses(f, results, h, base))
    && b.open.Pairs() == if Confirmed(f, results, h, base) then 2 else 1
  }

  lemma {:induction false} BlockByGates(f: Frozen, results: Results, h: Header, base: nat)
    requires f.policy.primaryCaseIds != [] && CanonBlock(f, results, h, base).Some?
    ensures FollowsGates(f, results, CanonBlock(f, results, h, base).value, h, base)
  {
    hide ScreenPasses, SimplificationScreenPasses, PromotionPasses, SimplificationPromotionPasses, PairResult,
         Timing.FailedBudgets, Eligibility.FailedGates;
  }

  ghost predicate Rejects(b: Block) {
    b.closing.CandidateDecided? && b.closing.decision == Reject
  }

  /** The closed blocks of the queue follow the gates, and all but possibly the last are rejected. */
  ghost predicate QueueFollows(f: Frozen, results: Results, blocks: seq<Block>)
    requires f.policy.primaryCaseIds != []
  {
    && |blocks| <= |f.proposals| && PairsOf(blocks) == PairsUsed(f, results, |blocks|)
    && AllFollow(f, results, blocks) && (blocks != [] ==> AllReject(blocks[..|blocks| - 1]))
  }

  lemma {:induction false} PairsUsedNext(f: Frozen, results: Results, n: nat)
    requires f.policy.primaryCaseIds != [] && n < |f.proposals|
    ensures PairsUsed(f, results, n + 1)
            == PairsUsed(f, results, n) + if Confirmed(f, results, f.proposals[n], PairsUsed(f, results, n)) then 2 else 1
  {
  }

  ghost predicate AllFollow(f: Frozen, results: Results, blocks: seq<Block>)
    requires f.policy.primaryCaseIds != [] && |blocks| <= |f.proposals|
  {
    forall i :: 0 <= i < |blocks| ==> FollowsGates(f, results, blocks[i], f.proposals[i], PairsUsed(f, results, i))
  }

  ghost predicate AllReject(blocks: seq<Block>) {
    forall i :: 0 <= i < |blocks| ==> Rejects(blocks[i])
  }

  lemma {:induction false} FollowsSnoc(f: Frozen, results: Results, before: seq<Block>, b: Block)
    requires f.policy.primaryCaseIds != [] && |before| < |f.proposals| && AllFollow(f, results, before)
    requires FollowsGates(f, results, b, f.proposals[|before|], PairsUsed(f, results, |before|))
    ensures AllFollow(f, results, before + [b])
  {
    hide FollowsGates, PairsUsed;
    forall i | 0 <= i <= |before|
      ensures FollowsGates(f, results, (before + [b])[i], f.proposals[i], PairsUsed(f, results, i))
    {
      assert i < |before| ==> (before + [b])[i] == before[i];
    }
  }

  lemma {:induction false} RejectsSnoc(before: seq<Block>, b: Block)
    requires before != [] ==> AllReject(before[..|before| - 1]) && Rejects(before[|before| - 1])
    ensures AllReject((before + [b])[..|before|])
  {
    hide Rejects;
    assert (before + [b])[..|before|] == before;
    forall i | 0 <= i < |before|
      ensures Rejects(before[i])
    {
      if i < |before| - 1 {
        assert before[..|before| - 1][i] == before[i];
      }
    }
  }

  lemma {:induction false} QueueGrows(f: Frozen, results: Results, before: seq<Block>, b: Block)
    requires f.policy.primaryCaseIds != [] && QueueFollows(f, results, before) && |before| < |f.proposals|
    requires FollowsGates(f, results, b, f.proposals[|before|], PairsOf(before))
    requires before != [] ==> Rejects(before[|before| - 1])
    requires PairsOf(before + [b]) == PairsOf(before) + b.open.Pairs()
    ensures QueueFollows(f, results, before + [b])
  {
    hide FollowsGates, PairsOf, Rejects, PairsUsed, Confirmed, AllFollow, AllReject;
    var n := |before|;
    BlockPairs(f, results, b, f.proposals[n], PairsOf(before));
    PairsUsedNext(f, results, n);
    FollowsSnoc(f, results, before, b);
    RejectsSnoc(before, b);
  }

  lemma {:induction false} BlocksByGates(f: Frozen, results: Results, n: nat)
    requires f.policy.primaryCaseIds != [] && CanonBlocks(f, results, n).Some?
    ensures QueueFollows(f, results, CanonBlocks(f, results, n).value)
    ensures |CanonBlocks(f, results, n).value| == n
  {
    hide CanonBlock, FollowsGates, CanonBlocks, PairsOf, QueueFollows, AllFollow, AllReject;
    if n == 0 {
      NoBlocks(f, results);
    } else {
      var before, b := CanonSnoc(f, results, n);
      BlocksByGates(f, results, n - 1);
      BlockByGates(f, results, f.proposals[n - 1], PairsOf(before));
      if n > 1 {
        ClosedBlockVerdict(f, results, n - 1);
      }
      QueueGrows(f, results, before, b);
    }
  }

  lemma {:induction false} NoBlocks(f: Frozen, results: Results)
    requires f.policy.primaryCaseIds != []
    ensures CanonBlocks(f, results, 0) == Some([]) && QueueFollows(f, results, [])
  {
  }

  lemma {:induction false} CanonSnoc(f: Frozen, results: Results, n: nat) returns (before: seq<Block>, b: Block)
    requires f.policy.primaryCaseIds != [] && n > 0 && CanonBlocks(f, results, n).Some?
    ensures n <= |f.proposals| && CanonBlocks(f, results, n - 1) == Some(before) && !Promoted(before)
    ensures CanonBlocks(f, results, n).value == before + [b]
    ensures CanonBlock(f, results, f.proposals[n - 1], PairsOf(before)) == Some(b)
    ensures PairsOf(before + [b]) == PairsOf(before) + b.open.Pairs()
  {
    hide CanonBlock;
    before := CanonBlocks(f, results, n - 1).value;
    b := CanonBlock(f, results, f.proposals[n - 1], PairsOf(before)).value;
    assert (before + [b])[..|before|] == before;
  }

  lemma {:induction false} BlockPairs(f: Frozen, results: Results, b: Block, h: Header, base: nat)
    requires f.policy.primaryCaseIds != [] && FollowsGates(f, results, b, h, base)
    ensures b.open.Pairs() == if Confirmed(f, results, h, base) then 2 else 1
  {
  }

  /** Closed candidates are rejected or promoted. */
  lemma {:induction false} ClosedBlockVerdict(f: Frozen, results: Results, n: nat)
    requires f.policy.primaryCaseIds != [] && n > 0 && CanonBlocks(f, results, n).Some?
    ensures CanonBlocks(f, results, n).value != []
    ensures var blocks := CanonBlocks(f, results, n).value;
            var b := blocks[|blocks| - 1];
            b.closing.CandidateDecided? && (b.closing.decision == Reject <==> !b.Promotes())
  {
    hide CanonFirst, EligibleResult;
    var before := CanonBlocks(f, results, n - 1).value;
    ClosingVerdict(f, results, f.proposals[n - 1], PairsOf(before));
  }

  // ---------------------------------------------------------------------------
  // A finished campaign
  // ---------------------------------------------------------------------------

  /** The closing decision of a block is the last of its candidate. */
  lemma {:induction false} DecisionsSnoc(before: seq<Block>, b: Block)
    requires !b.open.Nothing? && b.closing.CandidateDecided? && b.closing.candidateId == b.open.header.candidateId
    ensures DecisionsFrom(map[], BlockEvents(before + [b]))
            == DecisionsFrom(map[], BlockEvents(before))[b.closing.candidateId := b.closing.decision]
  {
    hide PairsOf, Open.Events;
    assert (before + [b])[..|before|] == before;
    var d, base := DecisionsFrom(map[], BlockEvents(before)), PairsOf(before);
    DecisionsConcat(map[], BlockEvents(before), b.Events(base));
    DecisionsConcat(d, b.open.Events(base), [b.closing]);
    OpenDecisions(d, b.open, base);
    assert [b.closing][1..] == [];
  }

  lemma {:induction false} LastDecision(f: Frozen, results: Results, n: nat) returns (before: seq<Block>, b: Block)
    requires f.policy.primaryCaseIds != [] && n > 0 && CanonBlocks(f, results, n).Some?
    ensures n <= |f.proposals| && |before| == n - 1
    ensures CanonBlocks(f, results, n - 1) == Some(before) && CanonBlocks(f, results, n) == Some(before + [b])
    ensures b.closing.CandidateDecided? && b.closing.candidateId == f.proposals[n - 1].candidateId
    ensures DecisionsFrom(map[], BlockEvents(before + [b]))
            == DecisionsFrom(map[], BlockEvents(before))[f.proposals[n - 1].candidateId := b.closing.decision]
  {
    hide CanonBlock, CanonBlocks, PairsOf, BlockEvents, DecisionsFrom, Promoted;
    before, b := CanonSnoc(f, results, n);
    CanonLength(f, results, n - 1);
    ClosingVerdict(f, results, f.proposals[n - 1], PairsOf(before));
    DecisionsSnoc(before, b);
  }

  lemma {:induction false} DecisionOfBlock(f: Frozen, results: Results, n: nat, i: nat)
    requires f.policy.primaryCaseIds != [] && CanonBlocks(f, results, n).Some? && i < n
    requires forall j, k :: 0 <= j < k < |f.proposals| ==> f.proposals[j].candidateId != f.proposals[k].candidateId
    ensures |CanonBlocks(f, results, n).value| == n <= |f.proposals|
    ensures var d, b := DecisionsFrom(map[], BlockEvents(CanonBlocks(f, results, n).value)), CanonBlocks(f, results, n).value[i];
            && b.closing.CandidateDecided? && f.proposals[i].candidateId in d
            && d[f.proposals[i].candidateId] == b.closing.decision
  {
    hide CanonBlocks, BlockEvents, DecisionsFrom;
    var before, b := LastDecision(f, results, n);
    if i < n - 1 {
      DecisionOfBlock(f, results, n - 1, i);
    }
  }

  lemma {:induction false} CanonLength(f: Frozen, results: Results, n: nat)
    requires f.policy.primaryCaseIds != [] && CanonBlocks(f, results, n).Some?
    ensures |CanonBlocks(f, results, n).value| == n
  {
    hide CanonBlock, Promoted;
    if n != 0 {
      CanonLength(f, results, n - 1);
    }
  }

  /** What is decided while no candidate is open was decided by closing blocks. */
  lemma {:induction false} ClosedDecisions(f: Frozen, h: History)
    requires h.Campaign? && h.open.Nothing?
    ensures DecisionsFrom(map[], h.Events(f.policy)) == DecisionsFrom(map[], BlockEvents(h.blocks))
  {
    hide BlockEvents, PairsOf;
    var start, closed := [CampaignStarted(h.id, f.policy.digest)], BlockEvents(h.blocks);
    NothingIsOpen(f.policy, PairsOf(h.blocks));
    assert h.Events(f.policy) == start + closed + h.ending.Events();
    NoDecisions(map[], start);
    DecisionsConcat(map[], start, closed);
    DecisionsConcat(map[], start + closed, h.ending.Events());
    NoDecisions(DecisionsFrom(map[], closed), h.ending.Events());
  }

  /** The proposal wins in a mode, and every proposal before it in the queue fails a gate. */
  ghost predicate FirstWinner(f: Frozen, results: Results, i: nat, mode: Mode)
    requires f.policy.primaryCaseIds != [] && i < |f.proposals|
  {
    && Wins(f, results, f.proposals[i], PairsUsed(f, results, i), mode)
    && forall j :: 0 <= j < i ==> Loses(f, results, f.proposals[j], PairsUsed(f, results, j))
  }

  /** The proposal and all before it fail a gate. */
  ghost predicate AllLose(f: Frozen, results: Results, i: nat)
    requires f.policy.primaryCaseIds != [] && i < |f.proposals|
  {
    forall j :: 0 <= j <= i ==> Loses(f, results, f.proposals[j], PairsUsed(f, results, j))
  }

  /** What a finished campaign has decided about one proposal. */
  ghost predicate DecidedByGates(f: Frozen, results: Results, d: Decisions, i: nat)
    requires f.policy.primaryCaseIds != [] && i < |f.proposals|
  {
    var c := f.proposals[i].candidateId;
    && (c in d && d[c] == Promote <==> FirstWinner(f, results, i, Standard))
    && (c in d && d[c] == PromoteSimplification <==> FirstWinner(f, results, i, Simplified))
    && (c in d && d[c] == Reject <==> AllLose(f, results, i))
  }

  /**
   A finished campaign promotes exactly the first proposal of the queue whose two scored pairs pass the gates, and
   rejects exactly those before it, each of which failed one.
   */
  lemma {:induction false} FirstWinnerIsPromoted(f: Frozen, results: Results, h: History, i: nat)
    requires f.Valid() && OnTrack(f, results, h) && h.Campaign? && h.open.Nothing? && h.ending == Concluded && i < |f.proposals|
    ensures f.policy.primaryCaseIds != []
    ensures DecidedByGates(f, results, DecisionsFrom(map[], h.Events(f.policy)), i)
  {
    hide CanonBlock, CanonBlocks, PairsOf, BlockEvents, IsSafeId, IsSha256, Header.Valid, History.Events, Wins, Loses, PairsUsed;
    var n := |h.blocks|;
    ClosedDecisions(f, h);
    BlocksByGates(f, results, n);
    if i < n {
      DecisionOfBlock(f, results, n, i);
      assert FollowsGates(f, results, h.blocks[i], f.proposals[i], PairsUsed(f, results, i));
      EarlierLose(f, results, h.blocks, i);
    } else {
      BlockDecisions(f, results, n);
      assert !Among(f, f.proposals[i].candidateId, n);
      PromotedDoesNotLose(f, results, h.blocks);
    }
  }

  lemma {:induction false} EarlierLose(f: Frozen, results: Results, blocks: seq<Block>, i: nat)
    requires f.policy.primaryCaseIds != [] && QueueFollows(f, results, blocks) && i < |blocks|
    ensures forall j :: 0 <= j < i ==> Loses(f, results, f.proposals[j], PairsUsed(f, results, j))
  {
    hide Wins, Loses, PairsUsed, PairsOf;
    forall j | 0 <= j < i
      ensures Loses(f, results, f.proposals[j], PairsUsed(f, results, j))
    {
      assert FollowsGates(f, results, blocks[j], f.proposals[j], PairsUsed(f, results, j)) && Rejects(blocks[j]);
    }
  }

  lemma {:induction false} PromotedDoesNotLose(f: Frozen, results: Results, blocks: seq<Block>)
    requires f.policy.primaryCaseIds != [] && QueueFollows(f, results, blocks) && Promoted(blocks)
    ensures var k := |blocks| - 1; !Loses(f, results, f.proposals[k], PairsUsed(f, results, k))
  {
    hide Wins, Loses, PairsUsed, PairsOf;
    var k := |blocks| - 1;
    assert FollowsGates(f, results, blocks[k], f.proposals[k], PairsUsed(f, results, k));
  }
}
