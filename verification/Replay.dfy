/**
 Replay of the append-only controller journal (bench/autoresearch.py): the state machine on events,
 the fold over records that skips repeated transition identities, and the durable append.
 */
module Replay {
  import opened Common
  import opened Gates

  datatype Decision = Reject | Confirm | ConfirmSimplification | Promote | PromoteSimplification | UnknownDecision

  datatype Event =
    | CampaignStarted(campaignId: string, policyDigest: string)
    | CandidateStarted(candidateId: string, axis: string, deltaDigest: string)
    | PairStarted(candidateId: string, pairIndex: int, order: seq<Arm>)
    | CellCompleted(candidateId: string, pairIndex: int, arm: Arm)
    | PairScored(candidateId: string, pairIndex: int, observation: Observation)
    | CandidateDecided(candidateId: string, decision: Decision)
    | CandidateDiscarded(candidateId: string, failureKind: FailureKind, cleanupVerified: bool, restoredPreflight: bool)
    | CampaignTerminated(failureKind: FailureKind, cleanupVerified: bool, restoredPreflight: bool)
    | CampaignCompleted
    | Unrecognised  // any object that is not one of the above with exactly its keys

  /**
   A transition identity is free text, or the digest that binds an event to one frozen campaign.
   The digest is an injective function of both, so it is represented by what it digests.
   */
  datatype TransitionId = Named(text: string) | Bound(campaign: string, event: Event)
  {
    predicate IsStable() {
      Named? ==> IsSafeId(text)
    }
  }

  /** An aware timestamp carries its instant; any other text is rejected. */
  datatype Timestamp = NoTimestamp | Aware(instant: int) | Malformed

  datatype Record = Record(id: TransitionId, event: Event, timestamp: Timestamp)
  {
    predicate WellFormed() {
      event != Unrecognised && timestamp != Malformed && id.IsStable()
    }
  }

  datatype Rejection =
    | MalformedRecord | IdCollision | AfterTerminal | AlreadyStarted | BadIdentity | PolicyMismatch
    | NotIdle | AxisNotAllowed | NoActiveCandidate | WrongCandidate | WrongPairIndex | WrongOrder
    | NoActivePair | UnknownArmName | PairAlreadyComplete | WrongArm | PairIncomplete | BadObservation
    | TooManyObservations | NotScored | UnknownDecisionName | HardIneligible | ConfirmationNeedsScreen
    | PromotionNeedsConfirmation | NotDiscardable | UnknownFailureKind | MustTerminate | NotStarted | MustDiscard
    | TimestampProvided

  datatype Phase = New | Idle | CandidatePhase | PairPhase | ScoredPhase | Terminal
  datatype Mode = Standard | Simplified
  datatype End = Completed | Failed(kind: FailureKind)

  datatype Machine = Machine(
    phase: Phase,
    campaignId: Option<string>,
    candidateId: Option<string>,
    candidateAxis: Option<string>,
    nextPairIndex: int,
    activePairIndex: Option<int>,
    activeOrder: seq<Arm>,
    completedArms: seq<Arm>,
    observations: seq<Observation>,
    mode: Option<Mode>,
    end: Option<End>)

  const INITIAL := Machine(New, None, None, None, 0, None, [], [], [], None, None)

  /** Leaving a candidate: everything it owned is forgotten. */
  function Release(m: Machine): Machine {
    m.(phase := Idle, candidateId := None, candidateAxis := None, activePairIndex := None, activeOrder := [],
       completedArms := [], observations := [], mode := None)
  }

  /** Awaiting the reverse confirmation pair. */
  function AwaitReverse(m: Machine, mode: Mode): Machine {
    m.(mode := Some(mode), phase := CandidatePhase, activePairIndex := None, activeOrder := [], completedArms := [])
  }

  function Decide(p: Policy, m: Machine, decision: Decision): Result<Machine, Rejection>
    requires m.observations != []
  {
    var o := m.observations;
    var latest := o[|o| - 1];
    if decision == UnknownDecision then Err(UnknownDecisionName)
    else if PairReasons(p, latest) != [] then Err(HardIneligible)
    else if decision == Confirm then
      if |o| != 1 || !ScreenPasses(p, latest) then Err(ConfirmationNeedsScreen) else Ok(AwaitReverse(m, Standard))
    else if decision == ConfirmSimplification then
      if |o| != 1 || !SimplificationScreenPasses(p, latest) then Err(ConfirmationNeedsScreen)
      else Ok(AwaitReverse(m, Simplified))
    else if decision == Promote && (|o| != 2 || m.mode != Some(Standard) || !PromotionPasses(p, o[0], o[1])) then
      Err(PromotionNeedsConfirmation)
    else if decision == PromoteSimplification
            && (|o| != 2 || m.mode != Some(Simplified) || !SimplificationPromotionPasses(p, o[0], o[1])) then
      Err(PromotionNeedsConfirmation)
    else Ok(Release(m))
  }

  /** One unseen event. */
  function Apply(p: Policy, m: Machine, e: Event): Result<Machine, Rejection> {
    if m.phase == Terminal then Err(AfterTerminal)
    else
      match e
      case CampaignStarted(campaignId, policyDigest) =>
        if m.phase != New then Err(AlreadyStarted)
        else if !IsSafeId(campaignId) || !IsSha256(policyDigest) then Err(BadIdentity)
        else if policyDigest != p.digest then Err(PolicyMismatch)
        else Ok(m.(campaignId := Some(campaignId), phase := Idle))
      case CandidateStarted(candidateId, axis, deltaDigest) =>
        if m.phase != Idle then Err(NotIdle)
        else if !IsSafeId(candidateId) || !IsSafeId(axis) then Err(BadIdentity)
        else if axis !in p.allowedAxes then Err(AxisNotAllowed)
        else if !IsSha256(deltaDigest) then Err(BadIdentity)
        else Ok(m.(candidateId := Some(candidateId), candidateAxis := Some(axis), observations := [], mode := None,
                   phase := CandidatePhase))
      case PairStarted(candidateId, pairIndex, order) =>
        if m.phase != CandidatePhase || m.candidateId == None then Err(NoActiveCandidate)
        else if !IsSafeId(candidateId) then Err(BadIdentity)
        else if Some(candidateId) != m.candidateId then Err(WrongCandidate)
        else if pairIndex < 0 || pairIndex != m.nextPairIndex then Err(WrongPairIndex)
        else if order != PairOrder(pairIndex) then Err(WrongOrder)
        else Ok(m.(activePairIndex := Some(pairIndex), activeOrder := order, completedArms := [], phase := PairPhase))
      case CellCompleted(candidateId, pairIndex, arm) =>
        if m.phase != PairPhase || m.candidateId == None || m.activePairIndex == None then Err(NoActivePair)
        else if !IsSafeId(candidateId) then Err(BadIdentity)
        else if Some(candidateId) != m.candidateId then Err(WrongCandidate)
        else if pairIndex < 0 || Some(pairIndex) != m.activePairIndex then Err(WrongPairIndex)
        else if arm == UnknownArm then Err(UnknownArmName)
        else if |m.completedArms| >= |m.activeOrder| then Err(PairAlreadyComplete)
        else if arm != m.activeOrder[|m.completedArms|] then Err(WrongArm)
        else Ok(m.(completedArms := m.completedArms + [arm]))
      case PairScored(candidateId, pairIndex, observation) =>
        if m.phase != PairPhase || m.candidateId == None || m.activePairIndex == None then Err(NoActivePair)
        else if m.completedArms != m.activeOrder then Err(PairIncomplete)
        else if !IsSafeId(candidateId) then Err(BadIdentity)
        else if Some(candidateId) != m.candidateId then Err(WrongCandidate)
        else if pairIndex < 0 || Some(pairIndex) != m.activePairIndex then Err(WrongPairIndex)
        else if !observation.WellFormed() || Some(observation.pairIndex) != m.activePairIndex then Err(BadObservation)
        else if |m.observations| + 1 > 2 then Err(TooManyObservations)
        else Ok(m.(observations := m.observations + [observation], nextPairIndex := m.nextPairIndex + 1,
                   phase := ScoredPhase))
      case CandidateDecided(candidateId, decision) =>
        if m.phase != ScoredPhase || m.candidateId == None || m.observations == [] then Err(NotScored)
        else if !IsSafeId(candidateId) then Err(BadIdentity)
        else if Some(candidateId) != m.candidateId then Err(WrongCandidate)
        else Decide(p, m, decision)
      case CandidateDiscarded(candidateId, failureKind, cleanupVerified, restoredPreflight) =>
        if (m.phase != CandidatePhase && m.phase != PairPhase) || m.candidateId == None then Err(NotDiscardable)
        else if !IsSafeId(candidateId) then Err(BadIdentity)
        else if Some(candidateId) != m.candidateId then Err(WrongCandidate)
        else if failureKind == UnknownFailure then Err(UnknownFailureKind)
        else if FailureDisposition(failureKind, cleanupVerified, restoredPreflight) != DiscardCandidate then
          Err(MustTerminate)
        else Ok(Release(m))
      case CampaignTerminated(failureKind, cleanupVerified, restoredPreflight) =>
        if m.phase == New then Err(NotStarted)
        else if failureKind == UnknownFailure then Err(UnknownFailureKind)
        else if FailureDisposition(failureKind, cleanupVerified, restoredPreflight) != TerminateCampaign then
          Err(MustDiscard)
        else Ok(m.(end := Some(Failed(failureKind)), phase := Terminal))
      case CampaignCompleted =>
        if m.phase != Idle then Err(NotIdle) else Ok(m.(end := Some(Completed), phase := Terminal))
      case Unrecognised => Err(MalformedRecord)
  }

  /** The machine with the identities seen so far, in order of first appearance. */
  datatype State = State(machine: Machine, seen: map<TransitionId, Event>, ids: seq<TransitionId>)

  const START := State(INITIAL, map[], [])

  function ReplayFrom(p: Policy, s: State, records: seq<Record>): Result<State, Rejection>
    decreases |records|
  {
    if records == [] then Ok(s)
    else
      var r := records[0];
      if !r.WellFormed() then Err(MalformedRecord)
      else if r.id in s.seen then
        if s.seen[r.id] != r.event then Err(IdCollision) else ReplayFrom(p, s, records[1..])
      else
        var m := Apply(p, s.machine, r.event);
        if m.Err? then Err(m.error)
        else ReplayFrom(p, State(m.value, s.seen[r.id := r.event], s.ids + [r.id]), records[1..])
  }

  function ReplayRecords(p: Policy, records: seq<Record>): Result<State, Rejection> {
    ReplayFrom(p, START, records)
  }

  /** The replay loop: one pass over the records with running variables, stopping at the first rejection. */
  method ReplayTransitions(p: Policy, records: seq<Record>) returns (r: Result<State, Rejection>)
    ensures r == ReplayRecords(p, records)
  {
    var machine := INITIAL;
    var seen: map<TransitionId, Event>, ids: seq<TransitionId> := map[], [];
    for i := 0 to |records|
      invariant ReplayFrom(p, State(machine, seen, ids), records[i..]) == ReplayRecords(p, records)
    {
      var record := records[i];
      assert records[i..][0] == record && records[i..][1..] == records[i + 1..];
      if !record.WellFormed() { return Err(MalformedRecord); }
      if record.id in seen {
        if seen[record.id] != record.event { return Err(IdCollision); }
        continue;
      }
      seen, ids := seen[record.id := record.event], ids + [record.id];
      var applied := Apply(p, machine, record.event);
      if applied.Err? { return Err(applied.error); }
      machine := applied.value;
    }
    r := Ok(State(machine, seen, ids));
  }

  // ---------------------------------------------------------------------------
  // Replay as a fold
  // ---------------------------------------------------------------------------

  lemma {:induction false} ReplayConcat(p: Policy, s: State, a: seq<Record>, b: seq<Record>)
    ensures var mid := ReplayFrom(p, s, a);
            ReplayFrom(p, s, a + b) == if mid.Err? then mid else ReplayFrom(p, mid.value, b)
    decreases |a|
  {
    if a == [] {
      assert a + b == b;
    } else {
      var r := a[0];
      assert (a + b)[1..] == a[1..] + b;
      if r.WellFormed() && r.id in s.seen && s.seen[r.id] == r.event {
        ReplayConcat(p, s, a[1..], b);
      } else if r.WellFormed() && r.id !in s.seen {
        var m := Apply(p, s.machine, r.event);
        if m.Ok? {
          ReplayConcat(p, State(m.value, s.seen[r.id := r.event], s.ids + [r.id]), a[1..], b);
        }
      }
    }
  }

  /** Every prefix of an accepted journal is accepted. */
  lemma {:induction false} PrefixesAreAccepted(p: Policy, records: seq<Record>, n: nat)
    requires n <= |records| && ReplayRecords(p, records).Ok?
    ensures ReplayRecords(p, records[..n]).Ok?
  {
    assert records == records[..n] + records[n..];
    ReplayConcat(p, START, records[..n], records[n..]);
  }

  /** What is seen is exactly what the records carry, and it is only ever extended. */
  lemma {:induction false} SeenRecords(p: Policy, s: State, records: seq<Record>)
    requires ReplayFrom(p, s, records).Ok?
    ensures var t := ReplayFrom(p, s, records).value;
            && (forall id :: id in s.seen ==> id in t.seen && t.seen[id] == s.seen[id])
            && (forall r :: r in records ==> r.WellFormed() && r.id in t.seen && t.seen[r.id] == r.event)
            && (forall id :: id in t.seen ==> id in s.seen || exists r :: r in records && r.id == id)
    decreases |records|
  {
    if records != [] {
      var r := records[0];
      var s' := if r.id in s.seen then s
                else State(Apply(p, s.machine, r.event).value, s.seen[r.id := r.event], s.ids + [r.id]);
      SeenRecords(p, s', records[1..]);
    }
  }

  ghost predicate RepeatOf(copy: Record, records: seq<Record>) {
    copy.timestamp != Malformed && exists r :: r in records && r.id == copy.id && r.event == copy.event
  }

  /**
   Retrying a transition is harmless: a copy of an earlier record, with any valid timestamp, may be
   inserted anywhere later, even after the campaign ended, without changing the result of replay.
   */
  lemma {:induction false} RepeatsChangeNothing(p: Policy, before: seq<Record>, copy: Record, after: seq<Record>)
    requires RepeatOf(copy, before)
    ensures ReplayRecords(p, before + [copy] + after) == ReplayRecords(p, before + after)
  {
    ReplayConcat(p, START, before, after);
    ReplayConcat(p, START, before, [copy] + after);
    assert before + [copy] + after == before + ([copy] + after);
    if ReplayRecords(p, before).Ok? {
      SeenRecords(p, START, before);
      assert ([copy] + after)[1..] == after;
    }
  }

  /** After the end of a campaign only repeats are accepted, and they leave the state as it was. */
  lemma {:induction false} TerminalAbsorbs(p: Policy, s: State, records: seq<Record>)
    requires s.machine.phase == Terminal && ReplayFrom(p, s, records).Ok?
    ensures ReplayFrom(p, s, records).value == s
    ensures forall r :: r in records ==> r.id in s.seen && s.seen[r.id] == r.event
    decreases |records|
  {
    if records != [] {
      TerminalAbsorbs(p, s, records[1..]);
    }
  }

  /** The events of the records whose identity has not been seen. */
  function Unseen(seen: map<TransitionId, Event>, records: seq<Record>): seq<Event>
    decreases |records|
  {
    if records == [] then []
    else
      var r := records[0];
      if r.id in seen then Unseen(seen, records[1..])
      else [r.event] + Unseen(seen[r.id := r.event], records[1..])
  }

  /** The state machine alone, on events that are all new. */
  function Run(p: Policy, m: Machine, events: seq<Event>): Result<Machine, Rejection>
    decreases |events|
  {
    if events == [] then Ok(m)
    else
      var next := Apply(p, m, events[0]);
      if next.Err? then Err(next.error) else Run(p, next.value, events[1..])
  }

  /** A failure that costs only the candidate: its own syntax or start failed, and the host is verifiably clean again. */
  predicate OnlyTheCandidate(kind: FailureKind, cleanupVerified: bool, restoredPreflight: bool) {
    (kind == CandidateSyntax || kind == CandidateStartup) && cleanupVerified && restoredPreflight
  }

  /** An accepted run discards candidates over exactly these failures, and ends the campaign over all others. */
  lemma {:induction false} FailuresAreSorted(p: Policy, m: Machine, events: seq<Event>)
    requires Run(p, m, events).Ok?
    ensures forall e :: e in events && e.CandidateDiscarded? ==>
              OnlyTheCandidate(e.failureKind, e.cleanupVerified, e.restoredPreflight)
    ensures forall e :: e in events && e.CampaignTerminated? ==>
              e.failureKind != UnknownFailure && !OnlyTheCandidate(e.failureKind, e.cleanupVerified, e.restoredPreflight)
    decreases |events|
  {
    if events != [] {
      FailuresAreSorted(p, Apply(p, m, events[0]).value, events[1..]);
      assert events == [events[0]] + events[1..];
      hide Decide, IsSafeId, IsSha256, PairOrder, Observation.WellFormed;
    }
  }

  /** No record is malformed and no identity is reused for another event. */
  ghost predicate Consistent(seen: map<TransitionId, Event>, records: seq<Record>) {
    && (forall r :: r in records ==> r.WellFormed())
    && (forall r :: r in records && r.id in seen ==> seen[r.id] == r.event)
    && (forall i, j :: 0 <= i < j < |records| && records[i].id == records[j].id ==> records[i].event == records[j].event)
  }

  /** Replay accepts exactly the consistent journals whose distinct events run through the machine, to the same state. */
  lemma {:induction false} ReplayRunsUnseenEvents(p: Policy, s: State, records: seq<Record>)
    ensures ReplayFrom(p, s, records).Ok?
            <==> Consistent(s.seen, records) && Run(p, s.machine, Unseen(s.seen, records)).Ok?
    ensures ReplayFrom(p, s, records).Ok?
            ==> Run(p, s.machine, Unseen(s.seen, records)) == Ok(ReplayFrom(p, s, records).value.machine)
    decreases |records|
  {
    if records != [] {
      var r, rest := records[0], records[1..];
      assert forall x :: x in records <==> x == r || x in rest;
      if r.id in s.seen {
        ReplayRunsUnseenEvents(p, s, rest);
        ConsistentCons(s.seen, records);
      } else {
        ConsistentCons(s.seen, records);
        var m := Apply(p, s.machine, r.event);
        assert ([r.event] + Unseen(s.seen[r.id := r.event], rest))[1..] == Unseen(s.seen[r.id := r.event], rest);
        if m.Ok? {
          ReplayRunsUnseenEvents(p, State(m.value, s.seen[r.id := r.event], s.ids + [r.id]), rest);
        }
      }
    }
  }

  lemma {:induction false} ConsistentCons(seen: map<TransitionId, Event>, records: seq<Record>)
    requires records != []
    ensures var r := records[0];
            Consistent(seen, records)
            <==> && r.WellFormed()
                 && (r.id in seen ==> seen[r.id] == r.event)
                 && Consistent(if r.id in seen then seen else seen[r.id := r.event], records[1..])
  {
    var r, rest := records[0], records[1..];
    assert forall i :: 0 <= i < |rest| ==> rest[i] == records[i + 1];
    var seen' := if r.id in seen then seen else seen[r.id := r.event];
    if Consistent(seen, records) {
      forall x | x in rest && x.id in seen'
        ensures seen'[x.id] == x.event
      {
        var i :| 0 <= i < |rest| && rest[i] == x;
        assert records[0].id == records[i + 1].id ==> records[0].event == records[i + 1].event;
      }
    }
    if r.WellFormed() && (r.id in seen ==> seen[r.id] == r.event) && Consistent(seen', rest) {
      forall i, j | 0 <= i < j < |records| && records[i].id == records[j].id
        ensures records[i].event == records[j].event
      {
        assert records[j] == rest[j - 1] && rest[j - 1] in rest;
        if i > 0 {
          assert records[i] == rest[i - 1];
        }
      }
    }
  }

  // ---------------------------------------------------------------------------
  // The durable append
  // ---------------------------------------------------------------------------

  /** An accepted candidate that is no repeat is accepted to the same state whatever its time stamp. */
  lemma {:induction false} StampDoesNotMatter(p: Policy, records: seq<Record>, candidate: Record, t: Timestamp)
    requires candidate.timestamp == NoTimestamp && t != Malformed && ReplayRecords(p, records + [candidate]).Ok?
    ensures ReplayRecords(p, records + [Record(candidate.id, candidate.event, t)]) == ReplayRecords(p, records + [candidate])
  {
    hide Apply;
    ReplayConcat(p, START, records, [candidate]);
    ReplayConcat(p, START, records, [Record(candidate.id, candidate.event, t)]);
  }

  /** A candidate whose identity is taken is a repeat, and changes nothing. */
  lemma {:induction false} TakenIdentityRepeats(p: Policy, records: seq<Record>, candidate: Record)
    requires ReplayRecords(p, records + [candidate]).Ok?
    ensures (exists k :: 0 <= k < |records| && records[k].id == candidate.id) <==> RepeatOf(candidate, records)
    ensures RepeatOf(candidate, records) ==> ReplayRecords(p, records) == ReplayRecords(p, records + [candidate])
  {
    hide Apply;
    ReplayConcat(p, START, records, [candidate]);
    SeenRecords(p, START, records);
  }

  /** The controller journal: an atomic append that stamps each record and reads back what it wrote. */
  class Journal {
    var records: seq<Record>

    constructor ()
      ensures records == []
    {
      records := [];
    }

    method Append(id: TransitionId, event: Event, now: int)
      modifies this
      ensures records == old(records) + [Record(id, event, Aware(Stamp(now)))]
    {
      records := records + [Record(id, event, Aware(Stamp(now)))];
    }

    /**
     Validate then durably append one transition. Success leaves an accepted journal whose state is the one returned;
     a retried transition leaves the journal alone; a rejection changes nothing.
     */
    method AppendTransition(p: Policy, candidate: Record, now: int) returns (r: Result<State, Rejection>)
      modifies this
      ensures r.Err? ==> records == old(records)
      ensures r.Ok? ==> ReplayRecords(p, records) == r
      ensures r.Ok? && RepeatOf(candidate, old(records)) ==> records == old(records)
      ensures r.Ok? && !RepeatOf(candidate, old(records))
              ==> records == old(records) + [Record(candidate.id, candidate.event, Aware(Stamp(now)))]
      ensures r.Ok? <==> candidate.timestamp == NoTimestamp && ReplayRecords(p, old(records) + [candidate]).Ok?
    {
      hide ReplayRecords, RepeatOf;
      if candidate.timestamp != NoTimestamp {
        return Err(TimestampProvided);
      }
      r := ReplayTransitions(p, records + [candidate]);
      if r.Err? { return; }
      TakenIdentityRepeats(p, records, candidate);
      for i := 0 to |records|
        invariant records == old(records)
        invariant forall k :: 0 <= k < i ==> records[k].id != candidate.id
      {
        if records[i].id == candidate.id {
          return;
        }
      }
      StampDoesNotMatter(p, records, candidate, Aware(Stamp(now)));
      Append(candidate.id, candidate.event, now);
    }
  }
}
