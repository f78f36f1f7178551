/**
 The frozen campaign of bench/autoresearch_campaign.py as values: its queue and cells, what a cell journal projects
 to, the durable reserve and score of a pair, and the frozen replay that binds every transition to the queue and to
 raw cell journals.
 */
module Campaign {
  import opened Common
  import opened Gates
  import opened Replay
  import opened History
  import opened Scoring
  import Admission

  const SECOND := 1_000_000
  const GAP_LIMIT := 120 * SECOND

  type KnownFailure = k: FailureKind | k != UnknownFailure witness Cutoff

  /** A cell error carries the kind that will terminate the campaign; a planning error is never recorded. */
  datatype Failure = Planning | CellFailure(kind: KnownFailure)

  datatype Stage = ScreenStage | ConfirmationStage
  datatype Cell = ControlA | ControlB | Search(candidateId: string, stage: Stage, arm: Arm)

  /** What a nonempty cell journal projects to. */
  datatype CellJournal =
    | Finished(projection: SoundProjection, startedAt: int, stoppedAt: int, completedAt: int)
    | Broken(kind: KnownFailure, started: Option<int>)

  type Raw = map<Cell, CellJournal>

  datatype Frozen = Frozen(
    id: string, integrity: string, policy: Policy, proposals: seq<Header>, cutoff: int, binding: Admission.Binding)
  {
    predicate Valid() {
      && IsSafeId(id) && IsSha256(policy.digest) && ValidPolicy(policy)
      && proposals != []
      && (forall i :: 0 <= i < |proposals| ==> proposals[i].Valid(policy) && proposals[i].candidateId != "control")
      && (forall i, j :: 0 <= i < j < |proposals| ==> proposals[i].candidateId != proposals[j].candidateId)
    }

    predicate Queued(candidateId: string) {
      exists i :: 0 <= i < |proposals| && proposals[i].candidateId == candidateId
    }

    function Bind(e: Event): TransitionId {
      Bound(integrity, e)
    }
  }

  function Project(raw: Raw, cell: Cell): Result<CellJournal, KnownFailure> {
    if cell !in raw then Err(Measurement)
    else if raw[cell].Broken? then Err(raw[cell].kind)
    else Ok(raw[cell])
  }

  predicate GapHolds(stopped: CellJournal, next: CellJournal)
    requires stopped.Finished? && next.Finished?
  {
    0 <= next.startedAt - stopped.stoppedAt <= GAP_LIMIT
  }

  function ReserveS(f: Frozen, champion: CellJournal, candidate: CellJournal): NonNegative
    requires champion.Finished? && candidate.Finished?
  {
    var last := if champion.completedAt >= candidate.completedAt then champion.completedAt else candidate.completedAt;
    if f.cutoff <= last then 0.0 else (f.cutoff - last) as real / SECOND as real
  }

  /** The reserve is what remains to the cutoff after the later of the two completions, in seconds; never negative. */
  lemma {:induction false} ReserveMeans(f: Frozen, champion: CellJournal, candidate: CellJournal, last: int)
    requires champion.Finished? && candidate.Finished?
    requires last >= champion.completedAt && last >= candidate.completedAt
    requires last == champion.completedAt || last == candidate.completedAt
    ensures ReserveS(f, champion, candidate) * 1000000.0 == if f.cutoff <= last then 0.0 else (f.cutoff - last) as real
  {
  }

  function Score(f: Frozen, n: int, champion: CellJournal, candidate: CellJournal): Option<Observation>
    requires f.policy.primaryCaseIds != [] && champion.Finished? && candidate.Finished?
  {
    ObservationFromCells(f.policy, n, champion.projection, candidate.projection, ReserveS(f, champion, candidate))
  }

  // ---------------------------------------------------------------------------
  // Frozen replay
  // ---------------------------------------------------------------------------

  datatype ActivePair = ActivePair(stage: Stage, projected: set<Arm>)

  datatype Index = Index(cursor: nat, started: set<string>, pairs: map<string, nat>, active: map<(string, int), ActivePair>)
  {
    function Occurrences(c: string): nat {
      if c in pairs then pairs[c] else 0
    }
  }

  function StageAt(occurrences: nat): Stage {
    if occurrences == 0 then ScreenStage else ConfirmationStage
  }

  const BOTH := {Champion, Candidate}

  function FrozenStep(f: Frozen, raw: Raw, verifyRaw: bool, ix: Index, e: Event): Result<Index, Failure>
    requires f.policy.primaryCaseIds != []
  {
    match e
    case CampaignStarted(id, digest) => if id != f.id || digest != f.policy.digest then Err(Planning) else Ok(ix)
    case CandidateStarted(c, axis, digest) =>
      if ix.cursor >= |f.proposals| || f.proposals[ix.cursor] != Header(c, axis, digest) || c in ix.started
      then Err(Planning)
      else Ok(ix.(started := ix.started + {c}, cursor := ix.cursor + 1))
    case PairStarted(c, n, _) =>
      if ix.Occurrences(c) > 1 || !f.Queued(c) then Err(Planning)
      else Ok(ix.(pairs := ix.pairs[c := ix.Occurrences(c) + 1],
                  active := ix.active[(c, n) := ActivePair(StageAt(ix.Occurrences(c)), {})]))
    case CellCompleted(c, n, arm) =>
      if (c, n) !in ix.active || arm == UnknownArm then Err(Planning)
      else if !verifyRaw then Ok(ix)
      else
        var a := ix.active[(c, n)];
        var projected := Project(raw, Search(c, a.stage, arm));
        if projected.Err? then Err(CellFailure(projected.error))
        else
          var order := PairOrder(n);
          var first, second := Project(raw, Search(c, a.stage, order[0])), Project(raw, Search(c, a.stage, order[1]));
          if a.projected + {arm} == BOTH && (first.Err? || second.Err? || !GapHolds(first.value, second.value))
          then Err(CellFailure(Measurement))
          else Ok(ix.(active := ix.active[(c, n) := ActivePair(a.stage, a.projected + {arm})]))
    case PairScored(c, n, o) =>
      if (c, n) !in ix.active then Err(Planning)
      else if !verifyRaw then Ok(ix)
      else
        var a := ix.active[(c, n)];
        var champion, candidate := Project(raw, Search(c, a.stage, Champion)), Project(raw, Search(c, a.stage, Candidate));
        if a.projected != BOTH || champion.Err? || candidate.Err? then Err(Planning)
        else
          var expected := Score(f, n, champion.value, candidate.value);
          if expected.None? then Err(CellFailure(Measurement))
          else if o != expected.value then Err(Planning)
          else Ok(ix)
    case _ => Ok(ix)
  }

  function FrozenFold(f: Frozen, raw: Raw, verifyRaw: bool, records: seq<Record>): Result<Index, Failure>
    requires f.policy.primaryCaseIds != []
  {
    if records == [] then Ok(Index(0, {}, map[], map[]))
    else
      var n := |records| - 1;
      var before := FrozenFold(f, raw, verifyRaw, records[..n]);
      if before.Err? then before
      else if records[n].id != f.Bind(records[n].event) then Err(Planning)
      else FrozenStep(f, raw, verifyRaw, before.value, records[n].event)
  }

  /** The records without repeats. */
  function Unrepeated(records: seq<Record>): seq<Record> {
    if records == [] then []
    else
      var n := |records| - 1;
      var before := Unrepeated(records[..n]);
      if exists r :: r in before && r.id == records[n].id then before else before + [records[n]]
  }

  /** Structural replay, then the bindings to the frozen queue and, when asked, to the raw cells. */
  function FrozenReplay(f: Frozen, raw: Raw, verifyRaw: bool, records: seq<Record>): Result<State, Failure>
    requires f.policy.primaryCaseIds != []
  {
    var s := ReplayRecords(f.policy, records);
    if s.Err? then Err(Planning)
    else if records == [] then Ok(s.value)
    else
      var unique := Unrepeated(records);
      if unique == [] || !unique[0].event.CampaignStarted? then Err(Planning)
      else
        var ix := FrozenFold(f, raw, verifyRaw, unique);
        if ix.Err? then Err(ix.error) else Ok(s.value)
  }

  /** The frozen replay's loop. */
  method ReplayFrozenCampaign(f: Frozen, raw: Raw, verifyRaw: bool, records: seq<Record>) returns (r: Result<State, Failure>)
    requires f.policy.primaryCaseIds != []
    ensures r == FrozenReplay(f, raw, verifyRaw, records)
  {
    var s := ReplayTransitions(f.policy, records);
    if s.Err? { return Err(Planning); }
    if records == [] { return Ok(s.value); }
    var unique := Unrepeated(records);
    if unique == [] || !unique[0].event.CampaignStarted? { return Err(Planning); }
    var ix := Index(0, {}, map[], map[]);
    for i := 0 to |unique|
      invariant FrozenFold(f, raw, verifyRaw, unique[..i]) == Ok(ix)
    {
      assert unique[..i + 1][..i] == unique[..i];
      var step := if unique[i].id != f.Bind(unique[i].event) then Err(Planning)
                  else FrozenStep(f, raw, verifyRaw, ix, unique[i].event);
      if step.Err? {
        FoldStopsAt(f, raw, verifyRaw, unique, i + 1);
        return Err(step.error);
      }
      ix := step.value;
    }
    assert unique[..|unique|] == unique;
    return Ok(s.value);
  }

  lemma {:induction false} FoldStopsAt(f: Frozen, raw: Raw, verifyRaw: bool, records: seq<Record>, n: nat)
    requires f.policy.primaryCaseIds != []
    requires n <= |records| && FrozenFold(f, raw, verifyRaw, records[..n]).Err?
    ensures FrozenFold(f, raw, verifyRaw, records) == FrozenFold(f, raw, verifyRaw, records[..n])
    decreases |records|
  {
    if n == |records| {
      assert records[..n] == records;
    } else {
      var m := |records| - 1;
      assert records[..m][..n] == records[..n];
      FoldStopsAt(f, raw, verifyRaw, records[..m], n);
    }
  }

  ghost predicate Extends(raw: Raw, more: Raw) {
    forall c :: c in raw ==> c in more && more[c] == raw[c]
  }

  /** Frozen replay only looks at indexed cells, so writing further cell journals cannot disturb it. */
  lemma {:induction false} FoldIgnoresNewCells(f: Frozen, raw: Raw, more: Raw, records: seq<Record>)
    requires f.policy.primaryCaseIds != [] && Extends(raw, more) && FrozenFold(f, raw, true, records).Ok?
    ensures FrozenFold(f, more, true, records) == FrozenFold(f, raw, true, records)
    decreases |records|
  {
    if records != [] {
      FoldIgnoresNewCells(f, raw, more, records[..|records| - 1]);
    }
  }
}
