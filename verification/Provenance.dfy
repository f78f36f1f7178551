/**
 Admission provenance: which pair an admission is for. The live target and the historical target
 are computed by separate code from the controller state and from a journal prefix; both name the
 pair that the history is about to run. A journal whose pair starts were admitted passes the
 provenance checks exactly when no start carries an earlier time stamp than its admissions.
 */
module Provenance {
  import opened Common
  import opened Gates
  import opened Replay
  import opened History
  import opened Campaign
  import opened Script
  import opened Ledger
  import Admission

  type Target = Admission.Target

  type Decisions = map<string, Decision>

  /** The last decision recorded for each candidate. */
  function DecisionsFrom(d: Decisions, events: seq<Event>): Decisions
    decreases |events|
  {
    if events == [] then d
    else
      DecisionsFrom(if events[0].CandidateDecided? then d[events[0].candidateId := events[0].decision] else d, events[1..])
  }

  method CandidateDecisions(events: seq<Event>) returns (d: Decisions)
    ensures d == DecisionsFrom(map[], events)
  {
    d := map[];
    for i := 0 to |events|
      invariant DecisionsFrom(d, events[i..]) == DecisionsFrom(map[], events)
    {
      assert events[i..][0] == events[i] && events[i..][1..] == events[i + 1..];
      if events[i].CandidateDecided? {
        d := d[events[i].candidateId := events[i].decision];
      }
    }
  }

  predicate AnyPromotion(d: Decisions) {
    exists c :: c in d && d[c] in {Promote, PromoteSimplification}
  }

  predicate AllRejected(f: Frozen, d: Decisions) {
    forall i :: 0 <= i < |f.proposals| ==> f.proposals[i].candidateId in d && d[f.proposals[i].candidateId] == Reject
  }

  /** The first frozen proposal without a decision. */
  function FirstUndecided(proposals: seq<Header>, d: Decisions): Option<Header> {
    if proposals == [] then None
    else if proposals[0].candidateId !in d then Some(proposals[0])
    else FirstUndecided(proposals[1..], d)
  }

  function PairTarget(m: Machine, pairIndex: int): Option<Target> {
    if m.candidateId == None then None
    else Some(Admission.Target(if m.observations == [] then Admission.Screen else Admission.Confirmation,
                               m.candidateId.value, pairIndex))
  }

  function IdleTarget(f: Frozen, m: Machine, events: seq<Event>): Option<Target> {
    var d := DecisionsFrom(map[], events);
    if AnyPromotion(d) then None
    else
      var next := FirstUndecided(f.proposals, d);
      if next.None? then None else Some(Admission.Target(Admission.Screen, next.value.candidateId, m.nextPairIndex))
  }

  const CALIBRATION := Admission.Target(Admission.Calibration, "control", 0)

  /** The pair whose next cell this invocation could launch. */
  function NextTarget(f: Frozen, m: Option<Machine>, events: seq<Event>, calibrationReady: bool): Result<Option<Target>, Failure> {
    if !calibrationReady then
      if m.Some? && !(m.value.phase == Idle && m.value.nextPairIndex == 0 && |events| == 1 && events[0].CampaignStarted?)
      then Err(Planning)
      else Ok(Some(CALIBRATION))
    else if m.None? then Err(Planning)
    else
      match m.value.phase
      case PairPhase =>
        if m.value.candidateId == None || m.value.activePairIndex == None then Err(Planning)
        else if m.value.completedArms == m.value.activeOrder then Ok(None)
        else Ok(PairTarget(m.value, m.value.activePairIndex.value))
      case ScoredPhase => Ok(None)
      case Terminal => Ok(None)
      case CandidatePhase =>
        if m.value.candidateId == None then Err(Planning) else Ok(PairTarget(m.value, m.value.nextPairIndex))
      case Idle => Ok(IdleTarget(f, m.value, events))
      case New => Err(Planning)
  }

  /** The pair that a journal prefix was about to run, found again from the records alone. */
  function HistoricalTarget(f: Frozen, records: seq<Record>): Result<Option<Target>, Failure>
    requires f.policy.primaryCaseIds != []
  {
    if records == [] then Ok(None)
    else
      var s := FrozenReplay(f, map[], false, records);
      if s.Err? then Err(s.error)
      else
        var m := s.value.machine;
        if m.phase == PairPhase then
          if m.candidateId == None || m.activePairIndex == None then Err(Planning)
          else if m.completedArms == m.activeOrder then Ok(None)
          else Ok(PairTarget(m, m.activePairIndex.value))
        else if m.phase == CandidatePhase then
          if m.candidateId == None then Err(Planning) else Ok(PairTarget(m, m.nextPairIndex))
        else if m.phase != Idle then Ok(None)
        else Ok(IdleTarget(f, m, EventsOf(records)))
  }

  // ---------------------------------------------------------------------------
  // What both targets mean
  // ---------------------------------------------------------------------------

  function KindOf(stage: Stage): Admission.TargetKind {
    if stage == ScreenStage then Admission.Screen else Admission.Confirmation
  }

  /** The pair that a history is about to run or is running. */
  function TargetOf(f: Frozen, h: History): Option<Target> {
    if h.Unstarted? || h.ending != Ongoing || h.open.Scored? || (h.open.Running? && h.open.arms == 2) then None
    else if h.open.Nothing? then
      if |h.blocks| >= |f.proposals| || Promoted(h.blocks) then None
      else Some(Admission.Target(Admission.Screen, f.proposals[|h.blocks|].candidateId, PairsOf(h.blocks)))
    else Some(Admission.Target(KindOf(StageOf(h.open)), h.open.header.candidateId, PairsOf(h.blocks) + h.open.Confirmed()))
  }

  lemma {:induction false} DecisionsConcat(d: Decisions, a: seq<Event>, b: seq<Event>)
    ensures DecisionsFrom(d, a + b) == DecisionsFrom(DecisionsFrom(d, a), b)
    decreases |a|
  {
    if a == [] {
      assert a + b == b;
    } else {
      assert (a + b)[1..] == a[1..] + b;
      DecisionsConcat(if a[0].CandidateDecided? then d[a[0].candidateId := a[0].decision] else d, a[1..], b);
    }
  }

  /** Events that decide nothing but possibly a first confirmation. */
  lemma {:induction false} OpenDecisions(d: Decisions, open: Open, base: nat)
    requires !open.Nothing?
    ensures var c := open.header.candidateId;
            DecisionsFrom(d, open.Events(base)) == if open.first.Some? then d[c := open.first.value.Decision()] else d
  {
    hide PairOrder;
    var c, n := open.header.candidateId, base + open.Confirmed();
    var start := [CandidateStarted(c, open.header.axis, open.header.deltaDigest)];
    var middle := if open.first.None? then []
                  else PairEvents(c, base, open.first.value.observation) + [CandidateDecided(c, open.first.value.Decision())];
    var last := if open.Running? then PairStart(c, n, open.arms) else if open.Scored? then PairEvents(c, n, open.last) else [];
    assert open.Events(base) == start + middle + last;
    DecisionsConcat(d, start + middle, last);
    DecisionsConcat(d, start, middle);
    NoDecisions(d, start);
    PairsDecideNothing(c, base);
    PairsDecideNothing(c, n);
    hide PairEvents, PairStart;
    if open.first.Some? {
      DecisionsConcat(d, PairEvents(c, base, open.first.value.observation), [CandidateDecided(c, open.first.value.Decision())]);
      NoDecisions(d, PairEvents(c, base, open.first.value.observation));
    }
    NoDecisions(DecisionsFrom(d, start + middle), last);
  }

  ghost predicate DecideNothing(events: seq<Event>) {
    forall e :: e in events ==> !e.CandidateDecided?
  }

  lemma {:induction false} PairsDecideNothing(c: string, n: int)
    ensures forall arms: nat :: DecideNothing(PairStart(c, n, arms))
    ensures forall o: Gates.Observation :: DecideNothing(PairEvents(c, n, o))
  {
    hide PairOrder;
  }

  lemma {:induction false} NoDecisions(d: Decisions, events: seq<Event>)
    requires DecideNothing(events)
    ensures DecisionsFrom(d, events) == d
    decreases |events|
  {
    if events != [] {
      NoDecisions(d, events[1..]);
    }
  }

  /** Closed candidates are decided, in queue order, and all but possibly the last are rejected. */
  lemma {:induction false} BlockDecisions(f: Frozen, results: Results, n: nat)
    requires f.Valid() && CanonBlocks(f, results, n).Some?
    ensures var blocks := CanonBlocks(f, results, n).value;
            var d := DecisionsFrom(map[], BlockEvents(blocks));
            && |blocks| == n <= |f.proposals|
            && (forall c :: c in d <==> Among(f, c, n))
            && (forall c :: c in d && d[c] != Reject ==> Promoted(blocks))
            && (Promoted(blocks) ==> AnyPromotion(d) && !AllRejected(f, d))
            && (!Promoted(blocks) ==> !AnyPromotion(d))
  {
    hide EligibleResult, CanonFirst, FinalVerdict, PairsOf, Open.Events, IsSafeId, IsSha256, Header.Valid;
    if n != 0 {
      var before := CanonBlocks(f, results, n - 1).value;
      var b := CanonBlock(f, results, f.proposals[n - 1], PairsOf(before)).value;
      BlockDecisions(f, results, n - 1);
      assert (before + [b])[..n - 1] == before;
      var d := DecisionsFrom(map[], BlockEvents(before));
      var c := f.proposals[n - 1].candidateId;
      DecisionsConcat(map[], BlockEvents(before), b.Events(PairsOf(before)));
      DecisionsConcat(d, b.open.Events(PairsOf(before)), [b.closing]);
      OpenDecisions(d, b.open, PairsOf(before));
      ClosingVerdict(f, results, f.proposals[n - 1], PairsOf(before));
      var now := DecisionsFrom(map[], BlockEvents(before + [b]));
      assert now == d[c := b.closing.decision] by {
        assert b.open.header.candidateId == c;
        assert [b.closing][1..] == [];
      }
      assert now[c] == b.closing.decision;
    }
  }

  lemma {:induction false} ClosingVerdict(f: Frozen, results: Results, h: Header, base: nat)
    requires f.policy.primaryCaseIds != [] && CanonBlock(f, results, h, base).Some?
    ensures var b := CanonBlock(f, results, h, base).value;
            && b.open.Scored? && b.open.header == h && b.closing.CandidateDecided? && b.closing.candidateId == h.candidateId
            && b.closing.decision in {Reject, Promote, PromoteSimplification}
  {
    hide EligibleResult, CanonFirst;
  }

  /** What the decisions in a journal on track say about its history. */
  lemma {:induction false} HistoryDecisions(f: Frozen, results: Results, h: History)
    requires f.Valid() && OnTrack(f, results, h) && h.Campaign?
    ensures var d := DecisionsFrom(map[], h.Events(f.policy));
            && (AnyPromotion(d) <==> Promoted(h.blocks))
            && (h.open.Nothing? ==>
                  && (forall c :: c in d <==> Among(f, c, |h.blocks|))
                  && (AllRejected(f, d) <==> |h.blocks| == |f.proposals| && !Promoted(h.blocks)))
  {
    hide CanonBlocks, CanonFirst, PairResult, Open.Events, BlockEvents, PairsOf, Exhausted, Promoted, IsSafeId, IsSha256,
         Header.Valid;
    var closed := BlockEvents(h.blocks);
    var open := h.open.Events(PairsOf(h.blocks));
    BlockDecisions(f, results, |h.blocks|);
    var start := [CampaignStarted(h.id, f.policy.digest)];
    NoDecisions(map[], start);
    DecisionsConcat(map[], start, closed);
    DecisionsConcat(map[], start + closed, open);
    DecisionsConcat(map[], start + closed + open, h.ending.Events());
    var d := DecisionsFrom(map[], closed);
    var all := DecisionsFrom(map[], start + closed + open);
    NoDecisions(all, h.ending.Events());
    if h.open.Nothing? {
      NothingIsOpen(f.policy, PairsOf(h.blocks));
      assert all == d;
      EveryoneRejected(f, d, h.blocks);
    } else {
      OpenDecisions(d, h.open, PairsOf(h.blocks));
    }
  }

  lemma {:induction false} EveryoneRejected(f: Frozen, d: Decisions, blocks: seq<Block>)
    requires f.Valid() && |blocks| <= |f.proposals| && forall c :: c in d <==> Among(f, c, |blocks|)
    requires forall c :: c in d && d[c] != Reject ==> Promoted(blocks)
    requires Promoted(blocks) ==> !AllRejected(f, d)
    ensures AllRejected(f, d) <==> |blocks| == |f.proposals| && !Promoted(blocks)
  {
    hide Promoted, IsSafeId, IsSha256, Header.Valid;
    if |blocks| < |f.proposals| {
      assert !Among(f, f.proposals[|blocks|].candidateId, |blocks|);
    } else {
      assert forall i :: 0 <= i < |f.proposals| ==> Among(f, f.proposals[i].candidateId, |blocks|);
    }
  }

  lemma {:induction false} UndecidedAt(proposals: seq<Header>, d: Decisions, n: nat)
    requires n <= |proposals| && forall i :: 0 <= i < n ==> proposals[i].candidateId in d
    requires n < |proposals| ==> proposals[n].candidateId !in d
    ensures FirstUndecided(proposals, d) == if n == |proposals| then None else Some(proposals[n])
    decreases n
  {
    if n != 0 {
      UndecidedAt(proposals[1..], d, n - 1);
    }
  }

  lemma {:induction false} IdleTargetIs(f: Frozen, results: Results, h: History)
    requires f.Valid() && OnTrack(f, results, h) && h.Campaign? && h.ending == Ongoing && h.open.Nothing?
    ensures IdleTarget(f, h.State(), h.Events(f.policy)) == TargetOf(f, h)
  {
    hide CanonBlocks, Open.Events, BlockEvents, PairsOf, Exhausted, Promoted, IsSafeId, IsSha256, Header.Valid;
    var d, k := DecisionsFrom(map[], h.Events(f.policy)), |h.blocks|;
    HistoryDecisions(f, results, h);
    BlockDecisions(f, results, k);
    assert forall i :: 0 <= i < k ==> Among(f, f.proposals[i].candidateId, k);
    assert k < |f.proposals| ==> !Among(f, f.proposals[k].candidateId, k);
    UndecidedAt(f.proposals, d, k);
  }

  /** The live target of a campaign on track is the pair its history is about to run. */
  lemma {:induction false} LiveTargetIs(f: Frozen, results: Results, h: History)
    requires f.Valid() && h.Valid(f.policy) && OnTrack(f, results, h) && h.Campaign?
    ensures NextTarget(f, Some(h.State()), h.Events(f.policy), true) == Ok(TargetOf(f, h))
  {
    hide CanonBlocks, CanonFirst, PairResult, Open.Events, BlockEvents, PairsOf, Exhausted, Promoted, IsSafeId, IsSha256,
         Header.Valid, IdleTarget, BlocksValid, Open.Valid, First.Valid;
    if h.ending == Ongoing && h.open.Nothing? {
      IdleTargetIs(f, results, h);
    } else if h.ending == Ongoing && h.open.Running? {
      assert |h.State().completedArms| == h.open.arms by { RunningArms(f.policy, h); }
    }
  }

  lemma {:induction false} RunningArms(p: Policy, h: History)
    requires h.Campaign? && h.ending == Ongoing && h.open.Running? && h.Valid(p)
    ensures |h.State().completedArms| == h.open.arms <= 2 == |h.State().activeOrder|
    ensures h.open.arms == 2 ==> h.State().completedArms == h.State().activeOrder
  {
    hide BlocksValid, Header.Valid, First.Valid, PairsOf;
  }

  // ---------------------------------------------------------------------------
  // Prefixes
  // ---------------------------------------------------------------------------

  /** A journal prefix, and the history it records, found without looking at raw cells. */
  ghost predicate Placed(f: Frozen, results: Results, records: seq<Record>, h: History) {
    && f.Valid() && h.Valid(f.policy) && OnTrack(f, results, h)
    && EventsOf(records) == h.Events(f.policy)
    && var s := FrozenReplay(f, map[], false, records);
       s.Ok? && s.value.machine == h.State()
  }

  /** The same index, up to what raw cells contribute to it. */
  ghost predicate SameButRaw(a: Index, b: Index) {
    && a.cursor == b.cursor && a.started == b.started && a.pairs == b.pairs
    && a.active.Keys == b.active.Keys
    && forall k :: k in a.active ==> a.active[k].stage == b.active[k].stage
  }

  /** What a strict frozen replay accepts, the structural one accepts as well. */
  lemma {:induction false} FoldWithoutRaw(f: Frozen, raw: Raw, records: seq<Record>)
    requires f.policy.primaryCaseIds != [] && FrozenFold(f, raw, true, records).Ok?
    ensures FrozenFold(f, map[], false, records).Ok?
    ensures SameButRaw(FrozenFold(f, raw, true, records).value, FrozenFold(f, map[], false, records).value)
    decreases |records|
  {
    if records != [] {
      var n := |records| - 1;
      FoldWithoutRaw(f, raw, records[..n]);
      var strict, loose := FrozenFold(f, raw, true, records[..n]).value, FrozenFold(f, map[], false, records[..n]).value;
      StepWithoutRaw(f, raw, strict, loose, records[n].event);
      hide FrozenStep, SameButRaw;
    }
  }

  lemma {:induction false} StepWithoutRaw(f: Frozen, raw: Raw, strict: Index, loose: Index, e: Event)
    requires f.policy.primaryCaseIds != [] && SameButRaw(strict, loose) && FrozenStep(f, raw, true, strict, e).Ok?
    ensures FrozenStep(f, map[], false, loose, e).Ok?
    ensures SameButRaw(FrozenStep(f, raw, true, strict, e).value, FrozenStep(f, map[], false, loose, e).value)
  {
    hide Score, GapHolds, PairOrder, Project;
  }

  lemma {:induction false} SoundIsPlaced(f: Frozen, results: Results, raw: Raw, records: seq<Record>, h: History)
    requires Sound(f, results, raw, records, h)
    ensures Placed(f, results, records, h)
  {
    hide OnTrack, Indexed, FrozenStep, History.State, History.Events, ReplayRecords, ArmsWritten;
    FoldWithoutRaw(f, raw, records);
  }

  /** The historical target of a prefix is the pair its history was about to run. */
  lemma {:induction false} HistoricalTargetIs(f: Frozen, results: Results, records: seq<Record>, h: History)
    requires Placed(f, results, records, h)
    ensures HistoricalTarget(f, records) == Ok(TargetOf(f, h))
  {
    hide CanonBlocks, CanonFirst, PairResult, Open.Events, BlockEvents, PairsOf, Exhausted, Promoted, IsSafeId, IsSha256,
         Header.Valid, IdleTarget, BlocksValid, Open.Valid, First.Valid, FrozenReplay, History.State;
    assert |EventsOf(records)| == |records|;
    if h.Unstarted? {
    } else {
      assert records != [];
      LiveTargetIs(f, results, h);
      TargetPhases(f, h);
    }
  }

  lemma {:induction false} TargetPhases(f: Frozen, h: History)
    requires h.Campaign?
    ensures h.State().phase != New
  {
  }

  /** The live and the historical target agree on every prefix. */
  lemma {:induction false} TargetsAgree(f: Frozen, results: Results, records: seq<Record>, h: History)
    requires Placed(f, results, records, h) && records != []
    ensures NextTarget(f, Some(h.State()), EventsOf(records), true) == HistoricalTarget(f, records)
  {
    assert |EventsOf(records)| == |records|;
    LiveTargetIs(f, results, h);
    HistoricalTargetIs(f, results, records, h);
  }

  /** A pair start is for the target of the history it extends, and a candidate start does not change the target. */
  lemma {:induction false} StartsMatchTarget(f: Frozen, results: Results, raw: Raw, h: History, e: Event)
    requires f.Valid() && OnTrack(f, results, h) && Driven(f, results, raw, h, e)
    requires h.Campaign? && h.open.Nothing? && Advances(e) ==> e.CandidateStarted?
    ensures e.PairStarted? && h.Campaign?
            ==> TargetOf(f, h) == Some(Admission.Target(KindOf(StageOf(h.open)), e.candidateId, e.pairIndex))
    ensures e.CandidateStarted? && h.Campaign? ==> TargetOf(f, Extend(h, e)) == TargetOf(f, h)
    ensures e.PairStarted? && h.Campaign? ==> TargetOf(f, Extend(h, e)) == TargetOf(f, h)
  {
    hide CanonBlocks, CanonFirst, PairResult, PairsOf, IsSafeId, IsSha256, Header.Valid, FirstVerdict, FinalVerdict, Promoted;
  }

  // ---------------------------------------------------------------------------
  // The two provenance checks
  // ---------------------------------------------------------------------------

  type Admissions = seq<Admission.Record>

  predicate IsSearch(a: Admission.Record) {
    a.body.target.kind != Admission.Calibration
  }

  predicate CalibrationPrefix(prefix: seq<Record>) {
    prefix == [] || (|prefix| == 1 && prefix[0].event.CampaignStarted?)
  }

  predicate BoundTo(f: Frozen, a: Admission.Record, records: seq<Record>)
    requires f.policy.primaryCaseIds != [] && 0 <= a.body.eventCount <= |records|
  {
    var prefix := records[..a.body.eventCount];
    if IsSearch(a) then HistoricalTarget(f, prefix) == Ok(Some(a.body.target)) else CalibrationPrefix(prefix)
  }

  /** Every admission is for the pair its controller prefix was about to run, calibration first. */
  predicate TargetsBound(f: Frozen, admissions: Admissions, records: seq<Record>)
    requires f.policy.primaryCaseIds != []
    requires forall a :: a in admissions ==> 0 <= a.body.eventCount <= |records|
  {
    && (forall a :: a in admissions ==> BoundTo(f, a, records))
    && (forall i, j :: 0 <= i < j < |admissions| && IsSearch(admissions[i]) ==> IsSearch(admissions[j]))
  }

  /** The target history loop. */
  method ValidateTargetHistory(f: Frozen, admissions: Admissions, records: seq<Record>) returns (ok: bool)
    requires f.policy.primaryCaseIds != []
    requires forall a :: a in admissions ==> 0 <= a.body.eventCount <= |records|
    ensures ok <==> TargetsBound(f, admissions, records)
  {
    hide HistoricalTarget, BoundTo, IsSearch;
    var searchSeen := false;
    for i := 0 to |admissions|
      invariant forall k :: 0 <= k < i ==> BoundTo(f, admissions[k], records)
      invariant searchSeen <==> exists k :: 0 <= k < i && IsSearch(admissions[k])
      invariant forall j, k :: 0 <= j < k < i && IsSearch(admissions[j]) ==> IsSearch(admissions[k])
    {
      var a := admissions[i];
      assert a in admissions;
      if !BoundTo(f, a, records) || (searchSeen && !IsSearch(a)) {
        return false;
      }
      searchSeen := searchSeen || IsSearch(a);
    }
    return true;
  }

  /** An admitted record for this very pair that the journal position and the time stamp both follow. */
  predicate CoveredBy(a: Admission.Record, index: nat, target: Target, stamp: Timestamp) {
    && a.body.observation.outcome == Admission.Admitted && a.body.eventCount <= index && a.body.target == target
    && stamp.Aware? && a.body.observation.observedAt <= stamp.instant
  }

  predicate StartCovered(f: Frozen, admissions: Admissions, records: seq<Record>, i: nat)
    requires f.policy.primaryCaseIds != [] && i < |records|
  {
    var expected := HistoricalTarget(f, records[..i]);
    expected.Ok? && expected.value.Some?
    && exists a :: a in admissions && CoveredBy(a, i, expected.value.value, records[i].timestamp)
  }

  /** Every pair start has an admitted record for its own pair that precedes it in the journal and in time. */
  predicate StartsCovered(f: Frozen, admissions: Admissions, records: seq<Record>)
    requires f.policy.primaryCaseIds != []
  {
    forall i :: 0 <= i < |records| && records[i].event.PairStarted? ==> StartCovered(f, admissions, records, i)
  }

  /** The coverage loop over pair starts. */
  method ValidateStartsCovered(f: Frozen, admissions: Admissions, records: seq<Record>) returns (ok: bool)
    requires f.policy.primaryCaseIds != []
    ensures ok <==> StartsCovered(f, admissions, records)
  {
    hide HistoricalTarget, CoveredBy;
    for i := 0 to |records|
      invariant forall k :: 0 <= k < i && records[k].event.PairStarted? ==> StartCovered(f, admissions, records, k)
    {
      if records[i].event.PairStarted? {
        var expected := HistoricalTarget(f, records[..i]);
        if expected.Err? || expected.value.None? {
          return false;
        }
        var covered := false;
        for k := 0 to |admissions|
          invariant covered <==> exists j :: 0 <= j < k && CoveredBy(admissions[j], i, expected.value.value, records[i].timestamp)
        {
          covered := covered || CoveredBy(admissions[k], i, expected.value.value, records[i].timestamp);
        }
        if !covered {
          return false;
        }
      }
    }
    return true;
  }

  // ---------------------------------------------------------------------------
  // What a controller keeps, and what the checks then decide
  // ---------------------------------------------------------------------------

  /** One history per journal prefix. */
  ghost predicate Remembered(f: Frozen, results: Results, records: seq<Record>, past: seq<History>) {
    && |past| == |records| + 1
    && forall i :: 0 <= i <= |records| ==> Placed(f, results, records[..i], past[i])
  }

  ghost predicate AdmittedFor(f: Frozen, a: Admission.Record, i: nat, past: seq<History>)
    requires i < |past|
  {
    && a.body.observation.outcome == Admission.Admitted && a.body.eventCount <= i
    && TargetOf(f, past[i]) == Some(a.body.target)
  }

  /** Admissions name the pair of their prefix, and every pair start follows an admission of its pair. */
  ghost predicate Attributed(f: Frozen, admissions: Admissions, records: seq<Record>, past: seq<History>)
    requires |past| == |records| + 1
  {
    && (forall a :: a in admissions ==> 0 <= a.body.eventCount <= |records|)
    && (forall a :: a in admissions ==>
          if IsSearch(a) then TargetOf(f, past[a.body.eventCount]) == Some(a.body.target)
          else CalibrationPrefix(records[..a.body.eventCount]))
    && (forall i, j :: 0 <= i < j < |admissions| && IsSearch(admissions[i]) ==> IsSearch(admissions[j]))
    && (forall i :: 0 <= i < |records| && records[i].event.PairStarted? ==>
          exists a :: a in admissions && AdmittedFor(f, a, i, past))
  }

  /** No pair start is stamped before every one of its admissions. */
  ghost predicate StartsTimely(f: Frozen, admissions: Admissions, records: seq<Record>, past: seq<History>)
    requires |past| == |records| + 1
  {
    forall i :: 0 <= i < |records| && records[i].event.PairStarted? ==>
      exists a :: a in admissions && AdmittedFor(f, a, i, past) && records[i].timestamp.Aware?
                  && a.body.observation.observedAt <= records[i].timestamp.instant
  }

  /**
   What the controller keeps is enough for the target history check, and the coverage check then
   fails only on time stamps: exactly when some pair start is stamped before all of its admissions.
   */
  lemma {:induction false} AttributedPassesChecks(f: Frozen, results: Results, admissions: Admissions, records: seq<Record>, past: seq<History>)
    requires f.Valid() && Remembered(f, results, records, past) && Attributed(f, admissions, records, past)
    ensures TargetsBound(f, admissions, records)
    ensures StartsCovered(f, admissions, records) <==> StartsTimely(f, admissions, records, past)
  {
    hide HistoricalTarget, TargetOf, Placed, IsSafeId, IsSha256, Frozen.Valid, CalibrationPrefix;
    assert f.policy.primaryCaseIds != [] by { PrimaryCases(f); }
    forall i | 0 <= i <= |records|
      ensures HistoricalTarget(f, records[..i]) == Ok(TargetOf(f, past[i]))
    {
      HistoricalTargetIs(f, results, records[..i], past[i]);
    }
    forall i | 0 <= i < |records| && records[i].event.PairStarted?
      ensures StartCovered(f, admissions, records, i)
              <==> exists a :: a in admissions && AdmittedFor(f, a, i, past) && records[i].timestamp.Aware?
                               && a.body.observation.observedAt <= records[i].timestamp.instant
    {
      var target := TargetOf(f, past[i]);
      assert exists a :: a in admissions && AdmittedFor(f, a, i, past);
      forall a | a in admissions
        ensures CoveredBy(a, i, target.value, records[i].timestamp)
                <==> AdmittedFor(f, a, i, past) && records[i].timestamp.Aware?
                     && a.body.observation.observedAt <= records[i].timestamp.instant
      {
      }
    }
  }

  lemma {:induction false} PrimaryCases(f: Frozen)
    requires f.Valid()
    ensures f.policy.primaryCaseIds != []
  {
    hide IsSafeId, IsSha256;
  }

  /**
   The journal stamps whole milliseconds while admissions keep microseconds: a pair start at or after its
   admission is stamped before it exactly when both fall into one millisecond and the admission is inside it.
   */
  lemma {:induction false} StampPrecedesAdmission(observedAt: int, startedAt: int)
    requires observedAt <= startedAt
    ensures Stamp(startedAt) < observedAt <==> Stamp(observedAt) == Stamp(startedAt) && observedAt != Stamp(observedAt)
  {
    var a, b := Stamp(observedAt), Stamp(startedAt);
    if b < observedAt {
      assert a == b by { assert b <= a; }
    }
  }
}
