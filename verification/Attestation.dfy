/**
 Which journals the raw-attested replay accepts (replay_frozen_campaign of
 bench/autoresearch_campaign.py): exactly those whose every distinct transition is bound to the
 freeze, follows the queue, and repeats what the raw cells of its pair say.
 */
module Attestation {
  import opened Common
  import opened Gates
  import opened Replay
  import opened History
  import opened Scoring
  import opened Campaign
  import opened Ledger
  import opened Durable

  function CandidateStarts(events: seq<Event>): nat {
    if events == [] then 0
    else CandidateStarts(events[..|events| - 1]) + if events[|events| - 1].CandidateStarted? then 1 else 0
  }

  predicate StartsPair(e: Event, c: string, n: int) {
    e.PairStarted? && e.candidateId == c && e.pairIndex == n
  }

  /** The last start of a pair is at position i. */
  ghost predicate LastStart(events: seq<Event>, c: string, n: int, i: int) {
    0 <= i < |events| && StartsPair(events[i], c, n) && forall j :: i < j < |events| ==> !StartsPair(events[j], c, n)
  }

  predicate CompletesArm(e: Event, c: string, n: int, arm: Arm) {
    e == CellCompleted(c, n, arm)
  }

  /** The arm was completed after that start. */
  ghost predicate CompletedSince(events: seq<Event>, i: int, c: string, n: int, arm: Arm) {
    exists j :: 0 <= i < j < |events| && CompletesArm(events[j], c, n, arm)
  }

  /** The cell of an arm of a pair whose last start is at i: screen at the first pair of its candidate, confirmation after. */
  function CellOf(events: seq<Event>, i: nat, c: string, arm: Arm): Cell
    requires i <= |events|
  {
    Search(c, if PairStarts(events[..i], c) == 0 then ScreenStage else ConfirmationStage, arm)
  }

  predicate IsFinished(raw: Raw, cell: Cell) {
    cell in raw && raw[cell].Finished?
  }

  /** Both cells of a pair finished, the second in its order at most 120 seconds after the first. */
  predicate RanTogether(raw: Raw, champion: Cell, candidate: Cell, n: int) {
    && IsFinished(raw, champion) && IsFinished(raw, candidate)
    && var (first, second) := if n % 2 == 0 then (raw[champion], raw[candidate]) else (raw[candidate], raw[champion]);
       first.stoppedAt <= second.startedAt <= first.stoppedAt + 120_000_000
  }

  /** What the freeze and the raw cells demand of one transition after those before it. */
  ghost predicate Attested(f: Frozen, raw: Raw, before: seq<Event>, e: Event)
    requires f.policy.primaryCaseIds != []
  {
    match e
    case CampaignStarted(id, digest) => id == f.id && digest == f.policy.digest
    case CandidateStarted(c, axis, digest) =>
      && CandidateStarts(before) < |f.proposals| && f.proposals[CandidateStarts(before)] == Header(c, axis, digest)
      && forall x :: x in before && x.CandidateStarted? ==> x.candidateId != c
    case PairStarted(c, _, _) =>
      PairStarts(before, c) < 2 && exists i :: 0 <= i < |f.proposals| && f.proposals[i].candidateId == c
    case CellCompleted(c, n, arm) =>
      arm != UnknownArm && exists i :: LastStart(before, c, n, i) && CompletionAttested(raw, before, i, c, n, arm)
    case PairScored(c, n, o) =>
      exists i :: LastStart(before, c, n, i) && ScoreAttested(f, raw, before, i, c, n, o)
    case _ => true
  }

  /** The arm's own cell finished; if this completes the pair, its two cells ran together. */
  ghost predicate CompletionAttested(raw: Raw, before: seq<Event>, i: nat, c: string, n: int, arm: Arm)
    requires i <= |before|
  {
    && IsFinished(raw, CellOf(before, i, c, arm))
    && ((forall x :: x in {Champion, Candidate} && x != arm ==> CompletedSince(before, i, c, n, x)) ==>
          RanTogether(raw, CellOf(before, i, c, Champion), CellOf(before, i, c, Candidate), n))
  }

  /** Both arms were completed, and the score is that of the raw cells. */
  ghost predicate ScoreAttested(f: Frozen, raw: Raw, before: seq<Event>, i: nat, c: string, n: int, o: Observation)
    requires i <= |before| && f.policy.primaryCaseIds != []
  {
    var champion, candidate := CellOf(before, i, c, Champion), CellOf(before, i, c, Candidate);
    && CompletedSince(before, i, c, n, Champion) && CompletedSince(before, i, c, n, Candidate)
    && IsFinished(raw, champion) && IsFinished(raw, candidate) && Score(f, n, raw[champion], raw[candidate]) == Some(o)
  }

  /** The index holds exactly what the events say. */
  ghost predicate Reflects(ix: Index, events: seq<Event>) {
    && ix.cursor == CandidateStarts(events)
    && (forall c :: c in ix.started <==> exists x :: x in events && x.CandidateStarted? && x.candidateId == c)
    && (forall c :: ix.Occurrences(c) == PairStarts(events, c))
    && (forall c, n :: ActiveReflects(ix, events, c, n))
  }

  ghost predicate ActiveReflects(ix: Index, events: seq<Event>, c: string, n: int) {
    && ((c, n) in ix.active ==> exists i :: LastStart(events, c, n, i))
    && (forall i :: LastStart(events, c, n, i) ==> (c, n) in ix.active && IsPending(ix.active[(c, n)], events, i, c, n))
  }

  /** The stage of the pair that last started at i, and the arms completed since. */
  ghost predicate IsPending(a: ActivePair, events: seq<Event>, i: int, c: string, n: int) {
    && 0 <= i < |events|
    && a.stage == CellOf(events, i, c, Champion).stage && a.projected <= BOTH
    && forall arm :: arm in BOTH ==> (arm in a.projected <==> CompletedSince(events, i, c, n, arm))
  }

  lemma {:induction false} OneLastStart(events: seq<Event>, c: string, n: int, i: int, j: int)
    ensures LastStart(events, c, n, i) && LastStart(events, c, n, j) ==> i == j
  {
  }

  lemma {:induction false} StartsSnoc(events: seq<Event>, e: Event, c: string)
    ensures CandidateStarts(events + [e]) == CandidateStarts(events) + if e.CandidateStarted? then 1 else 0
    ensures PairStarts(events + [e], c) == PairStarts(events, c) + if e.PairStarted? && e.candidateId == c then 1 else 0
  {
    assert (events + [e])[..|events|] == events;
  }

  lemma {:induction false} LastStartSnoc(events: seq<Event>, e: Event, c: string, n: int)
    ensures StartsPair(e, c, n) ==> forall i :: LastStart(events + [e], c, n, i) <==> i == |events|
    ensures !StartsPair(e, c, n) ==> forall i :: LastStart(events + [e], c, n, i) <==> LastStart(events, c, n, i)
  {
    var more := events + [e];
    assert more[|events|] == e && forall j :: 0 <= j < |events| ==> more[j] == events[j];
    forall i
      ensures !StartsPair(e, c, n) ==> (LastStart(more, c, n, i) <==> LastStart(events, c, n, i))
    {
      assert LastStart(more, c, n, i) && !StartsPair(e, c, n) ==> i != |events|;
    }
  }

  lemma {:induction false} CompletedSnoc(events: seq<Event>, e: Event, i: int, c: string, n: int, arm: Arm)
    requires 0 <= i < |events|
    ensures CompletedSince(events + [e], i, c, n, arm) <==> CompletedSince(events, i, c, n, arm) || CompletesArm(e, c, n, arm)
    ensures !CompletedSince(events + [e], |events|, c, n, arm)
  {
    var more := events + [e];
    assert more[|events|] == e;
    if j :| i < j < |events| && CompletesArm(events[j], c, n, arm) {
      assert CompletesArm(more[j], c, n, arm);
    }
    if CompletesArm(e, c, n, arm) {
      assert CompletesArm(more[|events|], c, n, arm);
    }
    if j :| i < j < |more| && CompletesArm(more[j], c, n, arm) && j < |events| {
      assert CompletesArm(events[j], c, n, arm);
    }
  }

  // ---------------------------------------------------------------------------
  // One transition
  // ---------------------------------------------------------------------------

  lemma {:induction false} CompletionAttests(f: Frozen, raw: Raw, ix: Index, events: seq<Event>, e: Event, i: nat)
    requires f.policy.primaryCaseIds != [] && e.CellCompleted? && e.arm != UnknownArm
    requires LastStart(events, e.candidateId, e.pairIndex, i) && ActiveReflects(ix, events, e.candidateId, e.pairIndex)
    ensures FrozenStep(f, raw, true, ix, e).Ok? <==> CompletionAttested(raw, events, i, e.candidateId, e.pairIndex, e.arm)
  {
    hide LastStart, CompletedSince, PairStarts;
    var a := ix.active[(e.candidateId, e.pairIndex)];
    assert a.projected + {e.arm} == BOTH <==> forall x :: x in {Champion, Candidate} && x != e.arm ==> x in a.projected;
  }

  lemma {:induction false} ScoreAttests(f: Frozen, raw: Raw, ix: Index, events: seq<Event>, e: Event, i: nat)
    requires f.policy.primaryCaseIds != [] && e.PairScored?
    requires LastStart(events, e.candidateId, e.pairIndex, i) && ActiveReflects(ix, events, e.candidateId, e.pairIndex)
    ensures FrozenStep(f, raw, true, ix, e).Ok? <==> ScoreAttested(f, raw, events, i, e.candidateId, e.pairIndex, e.observation)
  {
    hide LastStart, CompletedSince, PairStarts, Score;
    var a := ix.active[(e.candidateId, e.pairIndex)];
    assert a.projected == BOTH <==> Champion in a.projected && Candidate in a.projected;
  }

  lemma {:induction false} StepAttests(f: Frozen, raw: Raw, ix: Index, events: seq<Event>, e: Event)
    requires f.policy.primaryCaseIds != [] && Reflects(ix, events)
    ensures FrozenStep(f, raw, true, ix, e).Ok? <==> Attested(f, raw, events, e)
  {
    hide LastStart, CompletedSince, PairStarts, CandidateStarts, CompletionAttested, ScoreAttested;
    if e.CellCompleted? || e.PairScored? {
      var c, n := e.candidateId, e.pairIndex;
      assert ActiveReflects(ix, events, c, n);
      if i :| LastStart(events, c, n, i) {
        forall j | LastStart(events, c, n, j)
          ensures j == i
        {
          OneLastStart(events, c, n, i, j);
        }
        LastStartIsWithin(events, c, n, i);
        if e.CellCompleted? && e.arm != UnknownArm {
          CompletionAttests(f, raw, ix, events, e, i);
        } else if e.PairScored? {
          ScoreAttests(f, raw, ix, events, e, i);
        }
      }
    } else {
      hide ActiveReflects;
    }
  }

  lemma {:induction false} LastStartIsWithin(events: seq<Event>, c: string, n: int, i: int)
    ensures LastStart(events, c, n, i) ==> 0 <= i < |events|
  {
  }

  lemma {:induction false} PendingStart(events: seq<Event>, e: Event, c: string, n: int)
    ensures IsPending(ActivePair(StageAt(PairStarts(events, c)), {}), events + [e], |events|, c, n)
  {
    hide CompletedSince, PairStarts;
    assert (events + [e])[..|events|] == events;
    forall arm
      ensures !CompletedSince(events + [e], |events|, c, n, arm)
    {
      NothingSince(events + [e], |events|, c, n, arm);
    }
  }

  lemma {:induction false} PendingMoves(a: ActivePair, events: seq<Event>, e: Event, i: int, c: string, n: int)
    requires IsPending(a, events, i, c, n)
    requires e.CellCompleted? && e.candidateId == c && e.pairIndex == n ==> e.arm in BOTH
    ensures var arms := if e.CellCompleted? && e.candidateId == c && e.pairIndex == n then {e.arm} else {};
            IsPending(ActivePair(a.stage, a.projected + arms), events + [e], i, c, n)
  {
    hide CompletedSince, PairStarts;
    assert (events + [e])[..i] == events[..i];
    forall arm
      ensures CompletedSince(events + [e], i, c, n, arm) <==> CompletedSince(events, i, c, n, arm) || CompletesArm(e, c, n, arm)
    {
      CompletedSnoc(events, e, i, c, n, arm);
    }
  }

  lemma {:induction false} StepReflectsActive(f: Frozen, raw: Raw, ix: Index, events: seq<Event>, e: Event, c: string, n: int)
    requires f.policy.primaryCaseIds != [] && ActiveReflects(ix, events, c, n) && FrozenStep(f, raw, true, ix, e).Ok?
    requires ix.Occurrences(c) == PairStarts(events, c)
    ensures ActiveReflects(FrozenStep(f, raw, true, ix, e).value, events + [e], c, n)
  {
    hide LastStart, IsPending, PairStarts, Score, GapHolds, Project;
    var next, more := FrozenStep(f, raw, true, ix, e).value, events + [e];
    LastStartSnoc(events, e, c, n);
    PendingStart(events, e, c, n);
    if StartsPair(e, c, n) {
      assert LastStart(more, c, n, |events|);
    } else {
      forall i | LastStart(more, c, n, i)
        ensures (c, n) in next.active && IsPending(next.active[(c, n)], more, i, c, n)
      {
        var a := ix.active[(c, n)];
        PendingMoves(a, events, e, i, c, n);
        assert a.projected + {} == a.projected;
      }
      if i :| LastStart(events, c, n, i) {
        assert LastStart(more, c, n, i);
      }
    }
  }

  lemma {:induction false} NothingSince(events: seq<Event>, i: int, c: string, n: int, arm: Arm)
    requires i >= |events| - 1
    ensures !CompletedSince(events, i, c, n, arm)
  {
  }

  lemma {:induction false} StepReflects(f: Frozen, raw: Raw, ix: Index, events: seq<Event>, e: Event)
    requires f.policy.primaryCaseIds != [] && Reflects(ix, events) && FrozenStep(f, raw, true, ix, e).Ok?
    ensures Reflects(FrozenStep(f, raw, true, ix, e).value, events + [e])
  {
    hide ActiveReflects, PairStarts, CandidateStarts, Score, GapHolds, Project;
    var next, more := FrozenStep(f, raw, true, ix, e).value, events + [e];
    assert forall x :: x in more <==> x in events || x == e;
    forall c
      ensures c in next.started <==> exists x :: x in more && x.CandidateStarted? && x.candidateId == c
    {
      if e.CandidateStarted? && e.candidateId == c {
        assert e in more && e.CandidateStarted? && e.candidateId == c;
      } else if x :| x in events && x.CandidateStarted? && x.candidateId == c {
        assert x in more;
      }
    }
    StartsSnoc(events, e, "");
    forall c
      ensures next.Occurrences(c) == PairStarts(more, c) && next.cursor == CandidateStarts(more)
    {
      StartsSnoc(events, e, c);
    }
    forall c, n
      ensures ActiveReflects(next, more, c, n)
    {
      StepReflectsActive(f, raw, ix, events, e, c, n);
    }
  }

  // ---------------------------------------------------------------------------
  // A journal
  // ---------------------------------------------------------------------------

  /** Every distinct transition is bound to the freeze and attested after those before it. */
  ghost predicate AllAttested(f: Frozen, raw: Raw, records: seq<Record>)
    requires f.policy.primaryCaseIds != []
  {
    forall i :: 0 <= i < |records| ==>
      && records[i].id == Bound(f.integrity, records[i].event)
      && Attested(f, raw, EventsOf(records[..i]), records[i].event)
  }

  lemma {:induction false} FoldAttests(f: Frozen, raw: Raw, records: seq<Record>)
    requires f.policy.primaryCaseIds != []
    ensures FrozenFold(f, raw, true, records).Ok? <==> AllAttested(f, raw, records)
    ensures FrozenFold(f, raw, true, records).Ok? ==> Reflects(FrozenFold(f, raw, true, records).value, EventsOf(records))
    decreases |records|
  {
    hide Attested, Reflects, FrozenStep;
    if records == [] {
      NothingReflects();
    } else {
      var n := |records| - 1;
      FoldAttests(f, raw, records[..n]);
      assert forall i :: 0 <= i <= n ==> records[..n][..i] == records[..i];
      assert forall i :: 0 <= i < n ==> records[..n][i] == records[i];
      assert EventsOf(records) == EventsOf(records[..n]) + [records[n].event];
      if FrozenFold(f, raw, true, records[..n]).Ok? {
        var ix := FrozenFold(f, raw, true, records[..n]).value;
        StepAttests(f, raw, ix, EventsOf(records[..n]), records[n].event);
        if FrozenStep(f, raw, true, ix, records[n].event).Ok? {
          StepReflects(f, raw, ix, EventsOf(records[..n]), records[n].event);
        }
      }
    }
  }

  lemma {:induction false} NothingReflects()
    ensures Reflects(Index(0, {}, map[], map[]), [])
  {
  }

  /**
   The raw-attested replay accepts exactly the structurally valid journals that open with the campaign's start and
   whose distinct transitions are all attested.
   */
  lemma {:induction false} AttestedExactly(f: Frozen, raw: Raw, records: seq<Record>)
    requires f.policy.primaryCaseIds != []
    ensures FrozenReplay(f, raw, true, records).Ok? <==>
            && ReplayRecords(f.policy, records).Ok?
            && (records == [] || (Unrepeated(records) != [] && Unrepeated(records)[0].event.CampaignStarted?
                                  && AllAttested(f, raw, Unrepeated(records))))
  {
    hide ReplayRecords, FrozenFold, AllAttested;
    FoldAttests(f, raw, Unrepeated(records));
  }
}
