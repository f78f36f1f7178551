/**
 The campaign controller of bench/autoresearch_campaign.py as a class over its durable files. An
 invocation may stop between any two durable writes and is then simply invoked again; cells, clock,
 host readings, checkpoint gates and recovery answer as an arbitrary environment dictates.
 */
module Controller {
  import opened Common
  import opened Gates
  import opened Replay
  import opened History
  import opened Scoring
  import opened Campaign
  import opened Script
  import opened Ledger
  import opened Provenance
  import opened Durable
  import opened Environment
  import opened Steps
  import opened Progress
  import opened Coverage
  import opened Setbacks
  import opened Verdicts
  import opened Authority
  import Admission

  class Controller {
    const f: Frozen
    const results: Results
    const world: nat -> World
    const journal: Journal
    var raw: Raw
    var calibration: Option<CalibrationRecord>
    var admissions: Admissions
    var clock: int
    var looks: nat
    var fuel: nat  // durable writes left before the process dies
    ghost var past: seq<History>
    ghost var launched: seq<Cell>
    ghost var instants: seq<int>  // when each of them was launched

    constructor (f: Frozen, results: Results, world: nat -> World, clock: int)
      requires f.Valid()
      ensures Valid() && fresh(journal) && Disk() == NOTHING_WRITTEN
      ensures this.f == f && this.results == results && this.world == world
    {
      this.f, this.results, this.world, this.clock := f, results, world, clock;
      journal := new Journal();
      raw, calibration, admissions, looks, fuel := map[], None, [], 0, 0;
      past, launched, instants := [Unstarted], [], [];
      new;
      NothingWrittenIsKept(f, results);
      NothingIsTraced(world, results);
      NothingIsAuthorised();
      PrimaryCases(f);
    }

    ghost function Disk(): Store
      reads this, journal
    {
      Store(journal.records, raw, calibration, admissions, past)
    }

    ghost predicate Valid()
      reads this, journal
    {
      && f.policy.primaryCaseIds != [] && |past| == |journal.records| + 1
      && Kept(f, results, Disk()) && ClockAhead(admissions, clock)
      && Punctual(f, world, admissions, journal.records, past)
      && |instants| == |launched| && Traced(world, results, admissions, raw, launched, instants)
      && Authorised(admissions, launched, instants, Now())
    }

    /** Every cell launched so far had an earlier admission of its pair whose readings met all limits. */
    ghost predicate LaunchesAllowed()
      reads this
    {
      |instants| == |launched|
      && forall k :: 0 <= k < |launched| ==> AllowedWithin(f.binding, admissions, launched[k], instants[k])
    }

    lemma {:induction false} LaunchesWithinLimits()
      requires Valid()
      ensures LaunchesAllowed()
    {
      hide Kept, Punctual, Traced, AuthorisedBy, RunningAuthorised;
      forall k | 0 <= k < |launched|
        ensures AllowedWithin(f.binding, admissions, launched[k], instants[k])
      {
        AuthorisedWithinLimits(f, results, Disk(), launched[k], instants[k]);
      }
    }

    ghost function Now(): History
      reads this
      requires past != []
    {
      past[|past| - 1]
    }

    method Look() returns (w: World)
      modifies this`clock, this`looks
      ensures w == world(old(looks)) && clock == old(clock) + w.delay && looks == old(looks) + 1
    {
      w := world(looks);
      clock, looks := clock + w.delay, looks + 1;
    }

    /** The replayed state, read back from the journal and attested by the raw cells. */
    method StrictReplay() returns (m: Machine)
      requires Valid()
      ensures m == Now().State()
      ensures Reads(m, Now())
    {
      hide Kept, Punctual, Traced, Authorised;
      var s := ReplayFrozenCampaign(f, raw, true, journal.records);
      KeptReplays(f, results, Disk());
      assert Now().Valid(f.policy) by { KeptTrack(f, results, Disk()); }
      StateReads(f.policy, Now());
      return s.value.machine;
    }

    /**
     Append one transition: it is replayed behind the whole journal first, so a second cell across a
     broken gap is refused; everything else that the controller appends is accepted.
     */
    method AppendFrozenTransition(e: Event) returns (r: Outcome)
      requires Valid() && e != Unrecognised
      requires Driven(f, results, raw, Now(), e) && Permitted(f, Disk(), e)
      modifies this`clock, this`looks, this`fuel, this`past, journal
      ensures Valid() && clock == old(clock) + world(old(looks)).delay && looks == old(looks) + 1 && Spent(old(fuel), fuel, 1, r)
      ensures r == Done || r == Died || r == Raised(CellFailure(Measurement))
      ensures r != Done ==> Disk() == old(Disk())
      ensures r == Done ==> old(Now()).Unstarted? ==> e.CampaignStarted?
      ensures r == Done ==> old(Now()).Campaign? && old(Now()).open.Nothing? && Advances(e) ==> e.CandidateStarted?
      ensures r == Done ==> Disk() == Appended(old(Disk()), f, e, Aware(Stamp(clock)))
      ensures r.Raised? ==> GapBreaks(results, old(Now()), e)
      ensures Grew(old(Disk()), Disk())
    {
      hide Kept, Punctual, Traced, Authorised, Driven, Permitted, GapBreaks, FrozenReplay, Extend, Advances, ReplayRecords, RepeatOf;
      var w := Look();
      var candidate := Record(f.Bind(e), e, NoTimestamp);
      KeepAppend(f, results, Disk(), e, Aware(Stamp(clock)));
      PunctualAppend(f, results, world, Disk(), e, Extend(Now(), e), old(clock), old(looks));
      AuthorisedTransition(f, results, Disk(), e, launched, instants);
      RefusalIsGap(f, results, Disk(), e);
      var replayed := ReplayFrozenCampaign(f, raw, true, journal.records + [candidate]);
      if replayed.Err? {
        return Raised(replayed.error);
      }
      if fuel == 0 {
        return Died;
      }
      DrivenIsNoRepeat(f, results, Disk(), e);
      var s := journal.AppendTransition(f.policy, candidate, clock);
      past, fuel := past + [Extend(Now(), e)], fuel - 1;
      return Done;
    }

    // -------------------------------------------------------------------------
    // Starting and ending
    // -------------------------------------------------------------------------

    method AppendCampaignStarted() returns (r: Outcome)
      requires Valid()
      modifies this`clock, this`looks, this`fuel, this`past, journal
      ensures Valid() && clock >= old(clock) && (r == Done || r == Died)
      ensures old(Now()).Campaign? ==> Disk() == old(Disk()) && r == Done && looks == old(looks) && clock == old(clock) && fuel == old(fuel)
      ensures old(Now()).Unstarted? ==> Now() == if r == Done then Campaign(f.id, [], Nothing, Ongoing) else Unstarted
      ensures Grew(old(Disk()), Disk()) && looks >= old(looks) && Spent(old(fuel), fuel, 1, r)
    {
      hide Kept, Punctual, Traced, Authorised, Driven, Permitted;
      EmptyIsUnstarted(f, results, Disk());
      if journal.records != [] {
        return Done;
      }
      StartIsDriven(f, results, Disk());
      PermittedWithoutAdmission(f, Disk(), CampaignStarted(f.id, f.policy.digest));
      r := AppendFrozenTransition(CampaignStarted(f.id, f.policy.digest));
    }

    method AppendTerminal(kind: KnownFailure, cleanupVerified: bool) returns (r: Outcome)
      requires Valid() && Now().Campaign?
      modifies this`clock, this`looks, this`fuel, this`past, journal
      ensures Valid() && clock >= old(clock) && (r == Done || r == Died)
      ensures r == Done ==> Ended(Now())
      ensures r == Done && !Ended(old(Now())) ==> EndedAs(Now(), kind, cleanupVerified)
      ensures looks >= old(looks) && Spent(old(fuel), fuel, 1, r) && SameWork(old(Now()), Now())
      ensures !Ended(old(Now())) ==> looks == old(looks) + 1 && clock == old(clock) + world(old(looks)).delay
      ensures Ended(old(Now())) ==> Disk() == old(Disk())
      ensures Grew(old(Disk()), Disk())
    {
      hide Kept, Punctual, Traced, Authorised, Driven, Permitted;
      var m := StrictReplay();
      if m.phase == Terminal {
        return Done;
      }
      TerminationIsDriven(f, results, Disk(), kind, cleanupVerified);
      PermittedWithoutAdmission(f, Disk(), CampaignTerminated(kind, cleanupVerified, false));
      r := AppendFrozenTransition(CampaignTerminated(kind, cleanupVerified, false));
    }

    /** A failure outside any pair: the campaign is started if need be, and ended. */
    method Terminalise(kind: KnownFailure, cleanupVerified: bool) returns (r: Outcome)
      requires Valid()
      modifies this`clock, this`looks, this`fuel, this`past, journal
      ensures Valid() && clock >= old(clock) && (r == Done || r == Died)
      ensures r == Done ==> Ended(Now())
      ensures r == Done && !Ended(old(Now())) ==> EndedAs(Now(), kind, cleanupVerified)
      ensures looks >= old(looks) && Spent(old(fuel), fuel, 2, r)
      ensures old(Now()).Campaign? && !Ended(old(Now())) ==>
                SameWork(old(Now()), Now()) && looks == old(looks) + 1 && clock == old(clock) + world(old(looks)).delay
      ensures Grew(old(Disk()), Disk())
    {
      hide Kept, Punctual, Traced, Authorised;
      r := AppendCampaignStarted();
      if r == Done {
        ghost var middle := Disk();
        r := AppendTerminal(kind, cleanupVerified);
        GrowthIsTransitive(old(Disk()), middle, Disk());
      }
    }

    // -------------------------------------------------------------------------
    // Admissions
    // -------------------------------------------------------------------------

    /** Read the admission journal back: its chain, its targets and its coverage of what has been executed. */
    method ReadAdmissions() returns (ok: bool)
      requires Valid()
      ensures ok <==> Timely(f, Disk())
    {
      hide Kept, Punctual, Traced, Authorised, Timely, Admission.ValidChain, TargetsBound, StartsCovered, ControlsCovered;
      ChecksOfKept(f, results, Disk());
      var chained := Admission.ValidateChain(admissions, f.binding, journal.records);
      var bound := ValidateTargetHistory(f, admissions, journal.records);
      var covered := ValidateStartsCovered(f, admissions, journal.records);
      return chained && bound && covered && ControlsCovered(admissions, raw, calibration.Some?);
    }

    // -------------------------------------------------------------------------
    // Raw topology
    // -------------------------------------------------------------------------

    /** Refuse raw search cells whose pair has not durably started. */
    method ValidateSearchArtifacts(events: seq<Event>) returns (r: Option<Failure>)
      ensures r == if exists c :: PairStarts(events, c) > 2 then Some(Planning)
                   else if StartedCells(raw, events) then None
                   else Some(CellFailure(Audit))
    {
      var occurrences: map<string, nat> := map[];
      var admitted: set<(string, Stage)> := {};
      for i := 0 to |events|
        invariant forall c :: (if c in occurrences then occurrences[c] else 0) == PairStarts(events[..i], c) <= 2
        invariant forall c, stage :: (c, stage) in admitted <==> PairStarts(events[..i], c) >= StartsBefore(stage)
      {
        assert events[..i + 1][..i] == events[..i];
        if events[i].PairStarted? {
          var c := events[i].candidateId;
          var occurrence := if c in occurrences then occurrences[c] else 0;
          if occurrence > 1 {
            StartsGrow(events, i + 1, c);
            return Some(Planning);
          }
          admitted := admitted + {(c, StageAt(occurrence))};
          occurrences := occurrences[c := occurrence + 1];
        }
      }
      assert events[..|events|] == events;
      if forall cell | cell in raw && cell.Search? :: (cell.candidateId, cell.stage) in admitted {
        return None;
      }
      return Some(CellFailure(Audit));
    }

    /** The arms still to be indexed whose cells are on disk, which must come first. */
    method RawSearchPrefix(m: Machine) returns (r: Result<seq<Arm>, Failure>)
      ensures !IsPair(m) ==> r == Ok([])
      ensures IsPair(m) && r.Ok? ==> PendingPrefix(raw, m, r.value)
      ensures r.Err? ==> r.error == CellFailure(Audit) && forall p :: !PendingPrefix(raw, m, p)
    {
      if !IsPair(m) {
        return Ok([]);
      }
      var missing := Missing(m);
      var prefix: seq<Arm> := [];
      var sawPristine := false;
      for i := 0 to |missing|
        invariant |prefix| <= i && (sawPristine <==> |prefix| < i)
        invariant prefix == missing[..|prefix|]
        invariant forall k :: 0 <= k < i ==> (PendingCell(m, missing[k]) in raw <==> k < |prefix|)
      {
        if PendingCell(m, missing[i]) !in raw {
          sawPristine := true;
        } else if sawPristine {
          assert PendingCell(m, missing[|prefix|]) !in raw && PendingCell(m, missing[i]) in raw;
          return Err(CellFailure(Audit));
        } else {
          prefix := prefix + [missing[i]];
        }
      }
      return Ok(prefix);
    }

    // -------------------------------------------------------------------------
    // Reconciliation
    // -------------------------------------------------------------------------

    /** Index the next cell of the running pair, which is on disk. */
    method AppendCell(e: Event) returns (r: Outcome)
      requires Valid() && RunningBelow(Now(), 2)
      requires var h := Now();
               && PairCell(h, h.open.arms) in raw && raw[PairCell(h, h.open.arms)].Finished?
               && e == CellEvent(h, h.open.arms)
      modifies this`clock, this`looks, this`fuel, this`past, journal
      ensures Valid() && clock >= old(clock) && Grew(old(Disk()), Disk())
      ensures r == Done || r == Died || r == Raised(CellFailure(Measurement))
      ensures looks >= old(looks) && Spent(old(fuel), fuel, 1, r)
      ensures r.Raised? ==> PairFails(f, results, Now())
      ensures r == Done ==> Now() == old(Now()).(open := old(Now()).open.(arms := old(Now()).open.arms + 1))
      ensures r != Done ==> Disk() == old(Disk())
    {
      hide Kept, Punctual, Traced, Authorised, Driven, Permitted, PairCell, CurrentPair, GapBreaks, Grew;
      CellIsDriven(f, results, Disk(), Now().open.arms);
      PermittedWithoutAdmission(f, Disk(), e);
      GapFails(f, results, Disk(), e);
      r := AppendFrozenTransition(e);
    }

    /** Index one arm that is on disk, if its cell finished. */
    method IndexPending(m: Machine, i: nat, ghost start: History) returns (r: Outcome)
      requires Valid() && Reads(m, start) && IsPair(m) && i < |Missing(m)| && PendingCell(m, Missing(m)[i]) in raw
      requires SameStage(start, Now()) && RunningBelow(Now(), 3) && Now().open.arms == |m.completedArms| + i
      modifies this`clock, this`looks, this`fuel, this`past, journal
      ensures Valid() && clock >= old(clock) && Grew(old(Disk()), Disk())
      ensures r == Done || r == Died || (r.Raised? && r.failure.CellFailure?)
      ensures looks >= old(looks) && Spent(old(fuel), fuel, 1, r)
      ensures r.Raised? ==> PairFails(f, results, Now()) || SomeBroken(raw)
      ensures SameStage(start, Now())
      ensures r == Done ==> RunningBelow(Now(), 3) && Now().open.arms == |m.completedArms| + i + 1
    {
      hide Kept, Punctual, Traced, Authorised, PairCell, CurrentPair, CellEvent, PendingCell, Grew, Reads;
      GrowthIsReflexive(Disk());
      PendingIsPairCell(m, start, i);
      SameStageSamePair(start, Now(), |m.completedArms| + i);
      var projected := Project(raw, PendingCell(m, Missing(m)[i]));
      if projected.Err? {
        return Raised(CellFailure(projected.error));
      }
      r := AppendCell(CellCompleted(m.candidateId.value, m.activePairIndex.value, Missing(m)[i]));
    }

    /** Index the first `count` missing arms, which are on disk. */
    method IndexPrefix(m: Machine, count: nat) returns (r: Outcome)
      requires Valid() && Reads(m, Now()) && IsPair(m) && count <= |Missing(m)| && count <= 2
      requires forall i :: 0 <= i < count ==> PendingCell(m, Missing(m)[i]) in raw
      requires RunningBelow(Now(), 3) && Now().open.arms == |m.completedArms|
      modifies this`clock, this`looks, this`fuel, this`past, journal
      ensures Valid() && clock >= old(clock) && Grew(old(Disk()), Disk())
      ensures r == Done || r == Died || (r.Raised? && r.failure.CellFailure?)
      ensures looks >= old(looks) && Spent(old(fuel), fuel, 2, r)
      ensures r.Raised? ==> PairFails(f, results, Now()) || SomeBroken(raw)
      ensures SameStage(old(Now()), Now())
      ensures r == Done ==> RunningBelow(Now(), 3) && Now().open.arms == |m.completedArms| + count
    {
      hide Kept, Punctual, Traced, Authorised, PendingCell, Grew, Reads, SameStage, Missing, PairFails, SomeBroken, IsPair;
      GrowthIsReflexive(Disk());
      NothingLaunched(m, Now(), raw);
      for i := 0 to count
        invariant Valid() && clock >= old(clock) && Grew(old(Disk()), Disk())
        invariant looks >= old(looks) && fuel <= old(fuel) <= fuel + i
        invariant SameStage(old(Now()), Now()) && RunningBelow(Now(), 3) && Now().open.arms == |m.completedArms| + i
      {
        ghost var before := Disk();
        r := IndexPending(m, i, old(Now()));
        GrowthIsTransitive(old(Disk()), before, Disk());
        if r != Done {
          return r;
        }
      }
      return Done;
    }

    /** Index the raw-complete prefix of the running pair, without launching anything. */
    method ReconcileRawSearchPrefix(m: Machine, prefix: seq<Arm>) returns (r: Outcome)
      requires Valid() && Reads(m, Now())
      requires if IsPair(m) then PendingPrefix(raw, m, prefix) else prefix == []
      modifies this`clock, this`looks, this`fuel, this`past, journal
      ensures Valid() && clock >= old(clock) && Grew(old(Disk()), Disk())
      ensures r == Done || r == Died || (r.Raised? && r.failure.CellFailure?)
      ensures looks >= old(looks) && Spent(old(fuel), fuel, 2, r)
      ensures r.Raised? ==> PairFails(f, results, Now()) || SomeBroken(raw)
      ensures SameStage(old(Now()), Now())
      ensures r == Done && !IsPair(m) ==> Disk() == old(Disk())
      ensures r == Done && IsPair(m) ==> RunningBelow(Now(), 3) && Now().open.arms == |m.completedArms| + |prefix|
    {
      hide Kept, Punctual, Traced, Authorised, PendingCell, Grew, PendingPrefix, PairFails, SomeBroken;
      GrowthIsReflexive(Disk());
      NothingLaunched(m, Now(), raw);
      if !IsPair(m) {
        return Done;
      }
      ReadsPair(m, Now());
      PendingMembers(raw, m, prefix);
      r := IndexPrefix(m, |prefix|);
    }

    // -------------------------------------------------------------------------
    // Calibration
    // -------------------------------------------------------------------------

    /** Recompute and record the calibration of two complete controls; a failing one is recorded too. */
    method WriteCalibration(controls: Controls) returns (r: Outcome)
      requires Valid() && calibration.None? && ControlTopology(raw) == Ok(controls) && controls.Complete()
      modifies this`calibration, this`fuel
      ensures Valid() && Grew(old(Disk()), Disk())
      ensures r == Done || r == Died || r == Raised(CellFailure(Measurement))
      ensures Spent(old(fuel), fuel, 1, r)
      ensures r.Raised? ==> ControlA in raw && !ControlsPass(f, results)
      ensures r == Done ==> Disk().Calibrated()
      ensures r == Died ==> Disk() == old(Disk())
    {
      hide Kept, Punctual, Traced, Authorised, ControlTopology, GapHolds, Score, CalibrationReasons, ControlsPass;
      ControlsFail(f, results, Disk());
      var record := Recomputed(f, controls);
      if record.Err? {
        return Raised(record.error);
      }
      if fuel == 0 {
        return Died;
      }
      KeepCalibration(f, results, Disk());
      calibration, fuel := Some(record.value), fuel - 1;
      if !record.value.passed {
        return Raised(CellFailure(Measurement));
      }
      return Done;
    }

    /** Write a missing calibration record from two complete controls, without inference. */
    method ReconcileRawCalibration() returns (r: Outcome, wrote: bool)
      requires Valid()
      modifies this`calibration, this`fuel
      ensures Valid() && Grew(old(Disk()), Disk())
      ensures r == Done || r == Died || (r.Raised? && r.failure.CellFailure?)
      ensures Spent(old(fuel), fuel, 1, r)
      ensures r.Raised? ==> !old(Disk()).Calibrated() && (SomeBroken(raw) || (ControlA in raw && !ControlsPass(f, results)))
      ensures r == Done && wrote ==> old(calibration).None? && Disk().Calibrated()
      ensures r == Done && !wrote ==> Disk() == old(Disk()) && (calibration.Some? ==> Disk().Calibrated())
      ensures r == Died ==> Disk() == old(Disk())
    {
      hide Kept, Punctual, Traced, Authorised, Recomputed, ControlsPass, SomeBroken;
      wrote := false;
      RecordStands(f, results, Disk());
      ControlTrouble(f, results, Disk());
      if calibration.Some? {
        return if calibration.value.passed then Done else Raised(CellFailure(Measurement)), false;
      }
      var controls := ControlTopology(raw);
      if controls.Err? {
        return Raised(controls.error), false;
      }
      if !controls.value.Complete() {
        return Done, false;
      }
      r := WriteCalibration(controls.value);
      wrote := true;
    }

    // -------------------------------------------------------------------------
    // Launching
    // -------------------------------------------------------------------------

    /**
     One attempt at a pristine cell. Whatever happens to the process, to the worker or to this controller, the cell
     ends with no journal, a torn one, or its frozen result.
     */
    method Attempt(cell: Cell) returns (w: World)
      requires Valid() && Launchable(Disk(), cell)
      modifies this`raw, this`clock, this`looks, this`launched, this`instants
      ensures Valid() && clock >= old(clock) && Grew(old(Disk()), Disk())
      ensures w == world(old(looks)) && looks == old(looks) + 2
      ensures launched == old(launched) + [cell] && instants == old(instants) + [old(clock) + w.delay] && cell !in old(raw)
      ensures raw == if w.wrote == NoJournal then old(raw) else old(raw)[cell := WrittenBy(results, cell, w.wrote)]
    {
      hide Kept, Punctual, Traced, Authorised, Launchable, Grew;
      LaunchIsPristine(Disk(), cell);
      GrowthIsReflexive(Disk());
      w := Look();
      AuthorisedAttempt(f, results, Disk(), cell, launched, instants, clock);
      if w.wrote == NoJournal {
        TracedAttempt(world, results, admissions, raw, launched, instants, cell, clock);
      } else {
        var content := WrittenBy(results, cell, w.wrote);
        AdmissionsChain(f, results, Disk());
        TracedLaunch(world, results, f, Disk(), launched, instants, cell, content, old(clock), old(looks));
        KeepCell(f, results, Disk(), cell, content);
        WritingGrows(Disk(), cell, content);
        raw := raw[cell := content];
      }
      launched, instants := launched + [cell], instants + [clock];
      var ran := Look();  // the cell took its time
    }

    /** Launch one pristine cell, and project what it left. */
    method Launch(cell: Cell) returns (r: Outcome)
      requires Valid() && Launchable(Disk(), cell)
      modifies this`raw, this`clock, this`looks, this`fuel, this`launched, this`instants
      ensures Valid() && clock >= old(clock) && Grew(old(Disk()), Disk())
      ensures launched == old(launched) + [cell] && old(clock) <= instants[|instants| - 1]
      ensures r == Done || r == Died || (r.Raised? && r.failure.CellFailure?)
      ensures looks >= old(looks) && Spent(old(fuel), fuel, 1, r)
      ensures r.Raised? ==> Disturbed(world, old(looks), looks) || SomeBroken(raw)
      ensures r.Raised? && world(old(looks)).fault.None? ==>
                r.failure.kind == if cell in raw && raw[cell].Broken? then raw[cell].kind else Measurement
      ensures r.Raised? && world(old(looks)).fault.Some? ==> r.failure.kind == world(old(looks)).fault.value
      ensures raw == old(raw) || (cell in raw && raw == old(raw)[cell := raw[cell]])
      ensures r == Done ==> cell in raw && raw[cell].Finished?
    {
      hide Kept, Punctual, Traced, Authorised, Launchable, Grew;
      var w := Attempt(cell);
      if fuel == 0 {
        return Died;
      }
      fuel := fuel - 1;
      if w.fault.Some? {
        return Raised(CellFailure(w.fault.value));
      }
      var projected := Project(raw, cell);
      if projected.Err? {
        return Raised(CellFailure(projected.error));
      }
      return Done;
    }

    /** The second control: the first within its budgets, the gap still open, then both recomputed and recorded. */
    method RunSecondControl() returns (r: Outcome, ghost cells: seq<Cell>)
      requires Valid() && calibration.None? && AdmittedCalibration(admissions)
      requires ControlA in raw && raw[ControlA].Finished? && ControlB !in raw
      modifies this`raw, this`calibration, this`clock, this`looks, this`fuel, this`launched, this`instants
      ensures Valid() && clock >= old(clock) && Grew(old(Disk()), Disk())
      ensures r == Done || r == Died || (r.Raised? && r.failure.CellFailure?)
      ensures looks >= old(looks) && Spent(old(fuel), fuel, 2, r)
      ensures r.Raised? ==> Setback(f, results, world, old(Disk()), Disk(), old(looks), looks, clock)
      ensures r == Done ==> Disk().Calibrated()
      ensures launched == old(launched) + cells && (cells == [] || cells == [ControlB])
      ensures cells != [] ==> ControlA in raw && InTimeWithin(raw[ControlA], old(clock), instants[|instants| - 1])
    {
      hide Kept, Punctual, Traced, Authorised, Recomputed, GapHolds, Grew, Setback, Overdue, SomeBroken, ControlsPass, Disturbed;
      cells := [];
      GrowthIsReflexive(Disk());
      var first := raw[ControlA];
      if first.projection.measurementS > CELL_TIMEOUT_S || first.projection.cleanupS > CLEANUP_TIMEOUT_S {
        FirstControlFails(f, results, Disk());
        SetbackHere(f, results, world, old(Disk()), Disk(), old(looks), looks, clock);
        return Raised(CellFailure(Measurement)), [];
      }
      var w := Look();
      if !(0 <= clock - first.stoppedAt <= GAP_LIMIT) {
        MissingControl(Disk(), clock);
        SetbackHere(f, results, world, old(Disk()), Disk(), old(looks), looks, clock);
        return Raised(CellFailure(Measurement)), [];
      }
      ghost var begun := looks;
      assert InTime(first, clock);
      r := Launch(ControlB);
      cells := [ControlB];
      DisturbedWithin(world, old(looks), begun, looks);
      SetbackHere(f, results, world, old(Disk()), Disk(), old(looks), looks, clock);
      if r != Done {
        return;
      }
      ghost var middle := Disk();
      r := WriteCalibration(ControlTopology(raw).value);
      GrowthIsTransitive(old(Disk()), middle, Disk());
      SetbackHere(f, results, world, old(Disk()), Disk(), old(looks), looks, clock);
    }

    /** Run or finish the control pair, unless its record already exists. */
    method RunCalibration() returns (r: Outcome, ghost cells: seq<Cell>)
      requires Valid() && (calibration.None? ==> AdmittedCalibration(admissions))
      modifies this`raw, this`calibration, this`clock, this`looks, this`fuel, this`launched, this`instants
      ensures Valid() && clock >= old(clock) && Grew(old(Disk()), Disk())
      ensures r == Done || r == Died || (r.Raised? && r.failure.CellFailure?)
      ensures looks >= old(looks) && Spent(old(fuel), fuel, 3, r)
      ensures r.Raised? ==> Setback(f, results, world, old(Disk()), Disk(), old(looks), looks, clock)
      ensures r == Done ==> Disk().Calibrated()
      ensures launched == old(launched) + cells && PairLaunches(cells, ControlA, ControlB) && Pristine(cells, old(raw))
      ensures old(calibration).Some? ==> Disk() == old(Disk()) && cells == []
    {
      hide Kept, Punctual, Traced, Authorised, Recomputed, GapHolds, Grew, Setback, SomeBroken, ControlsPass, Disturbed;
      cells := [];
      GrowthIsReflexive(Disk());
      RecordStands(f, results, Disk());
      ControlTrouble(f, results, Disk());
      SetbackHere(f, results, world, old(Disk()), Disk(), old(looks), looks, clock);
      if calibration.Some? {
        return if calibration.value.passed then Done else Raised(CellFailure(Measurement)), [];
      }
      var controls := ControlTopology(raw);
      if controls.Err? {
        return Raised(controls.error), [];
      }
      if controls.value.Complete() {
        r := WriteCalibration(controls.value);
        SetbackHere(f, results, world, old(Disk()), Disk(), old(looks), looks, clock);
        return;
      }
      if controls.value.a.None? {
        r := Launch(ControlA);
        cells := [ControlA];
        SetbackHere(f, results, world, old(Disk()), Disk(), old(looks), looks, clock);
        if r != Done {
          return;
        }
      }
      ghost var middle, begun := Disk(), looks;
      ghost var more: seq<Cell>;
      r, more := RunSecondControl();
      cells := cells + more;
      GrowthIsTransitive(old(Disk()), middle, Disk());
      SetbackSince(f, results, world, old(Disk()), middle, Disk(), old(looks), begun, looks, clock);
    }

    // -------------------------------------------------------------------------
    // A search pair
    // -------------------------------------------------------------------------

    /** Durably start the pair that an admission was taken for; neither of its cells may exist yet. */
    method StartPair(m: Machine) returns (r: Outcome)
      requires Valid() && Reads(m, Now()) && m.phase == CandidatePhase
      requires AdmittedNow(f, Disk())
      modifies this`clock, this`looks, this`fuel, this`past, journal
      ensures Valid() && clock >= old(clock) && Grew(old(Disk()), Disk())
      ensures (r == Done || r == Died) && looks >= old(looks) && Spent(old(fuel), fuel, 1, r)
      ensures r == Done ==> Now() == old(Now()).(open := Running(old(Now()).open.header, old(Now()).open.first, 0))
      ensures r != Done ==> Disk() == old(Disk())
    {
      hide Kept, Punctual, Traced, Authorised, Driven, CurrentPair, PairOrder, Grew, AdmittedFor, GapHolds;
      GrowthIsReflexive(Disk());
      var c := m.candidateId.value;
      var misplaced := Raised(CellFailure(Audit));
      WaitingIsPristine(f, results, Disk(), Champion);
      WaitingIsPristine(f, results, Disk(), Candidate);
      if Search(c, MachineStage(m), Champion) in raw || Search(c, MachineStage(m), Candidate) in raw {
        return misplaced;
      }
      PairIsDriven(f, results, Disk());
      NextPairIndex(m, Now());
      r := AppendFrozenTransition(PairStarted(c, m.nextPairIndex, PairOrder(m.nextPairIndex)));
    }

    /** The second arm may run if the first kept its budgets and the gap between them is not used up. */
    method WithinGap(cell: Cell, prior: Cell) returns (within: bool)
      requires Valid() && RunningBelow(Now(), 2) && Now().open.arms == 1
      requires cell == PairCell(Now(), 1) && prior == PairCell(Now(), 0)
      modifies this`clock, this`looks
      ensures clock >= old(clock) && Valid() && looks >= old(looks)
      ensures prior in raw
      ensures cell !in raw ==> (within <==> InTime(raw[prior], clock))
      ensures cell in raw ==> (within <==> StartedAt(raw[cell]).Some? && InTime(raw[prior], StartedAt(raw[cell]).value))
      ensures !within ==> PairFails(f, results, Now()) || SomeBroken(raw) || Overdue(Disk(), clock)
    {
      hide Kept, Punctual, Traced, Authorised, PairCell, PairFails;
      SecondArmFails(f, results, Disk());
      var first := raw[prior];
      var current: Option<int>;
      if cell in raw {
        current := StartedAt(raw[cell]);
      } else {
        var w := Look();
        current := Some(clock);
      }
      return current.Some? && 0 <= current.value - first.stoppedAt <= GAP_LIMIT
             && first.projection.measurementS <= CELL_TIMEOUT_S && first.projection.cleanupS <= CLEANUP_TIMEOUT_S;
    }

    /** The finished cell of an arm, from disk or by launching it. */
    method ObtainCell(i: nat, cell: Cell, rawComplete: bool) returns (r: Outcome, ghost cells: seq<Cell>)
      requires Valid() && RunningBelow(Now(), 2) && Now().open.arms == i && cell == PairCell(Now(), i)
      requires rawComplete <==> cell in raw
      modifies this`raw, this`clock, this`looks, this`fuel, this`launched, this`instants
      ensures Valid() && clock >= old(clock) && Grew(old(Disk()), Disk())
      ensures r == Done || r == Died || (r.Raised? && r.failure.CellFailure?)
      ensures looks >= old(looks) && Spent(old(fuel), fuel, 1, r)
      ensures r.Raised? ==> Disturbed(world, old(looks), looks) || SomeBroken(raw)
      ensures r == Done ==> cell in raw && raw[cell].Finished?
      ensures launched == old(launched) + cells && (cells == [] || (cells == [cell] && cell !in old(raw)))
      ensures forall c :: c in raw && c != cell ==> c in old(raw) && raw[c] == old(raw)[c]
      ensures forall c :: c in old(raw) ==> c in raw
      ensures cells != [] ==> old(clock) <= instants[|instants| - 1]
    {
      hide Kept, Punctual, Traced, Authorised, Grew, Launchable, PairCell, Disturbed;
      cells := [];
      GrowthIsReflexive(Disk());
      if !rawComplete {
        PairCellLaunches(f, results, Disk(), i);
        r := Launch(cell);
        cells := [cell];
        if r != Done {
          return;
        }
      }
      var projected := Project(raw, cell);
      r := if projected.Err? then Raised(CellFailure(projected.error)) else Done;
    }

    /** The finished cell of an arm that may still run; the second one only within the gap to the first. */
    method ObtainTimely(i: nat, cell: Cell, prior: Cell, rawComplete: bool) returns (r: Outcome, ghost cells: seq<Cell>)
      requires Valid() && RunningBelow(Now(), 2) && Now().open.arms == i
      requires cell == PairCell(Now(), i) && prior == PairCell(Now(), 0)
      requires rawComplete <==> cell in raw
      modifies this`raw, this`clock, this`looks, this`fuel, this`launched, this`instants
      ensures Valid() && clock >= old(clock) && Grew(old(Disk()), Disk())
      ensures r == Done || r == Died || (r.Raised? && r.failure.CellFailure?)
      ensures looks >= old(looks) && Spent(old(fuel), fuel, 1, r)
      ensures r.Raised? ==> Setback(f, results, world, old(Disk()), Disk(), old(looks), looks, clock)
      ensures r == Done ==> cell in raw && raw[cell].Finished?
      ensures launched == old(launched) + cells && (cells == [] || (cells == [cell] && cell !in old(raw)))
      ensures forall c :: c in raw && c != cell ==> c in old(raw)
      ensures i == 1 && cells != [] ==> prior in raw && InTimeWithin(raw[prior], old(clock), instants[|instants| - 1])
    {
      hide Kept, Punctual, Traced, Authorised, GapHolds, Grew, Launchable, PairCell, CurrentPair, Setback, Overdue, PairFails, SomeBroken, Disturbed;
      cells := [];
      GrowthIsReflexive(Disk());
      if i == 1 {
        var within := WithinGap(cell, prior);
        if !within {
          SetbackHere(f, results, world, old(Disk()), Disk(), old(looks), looks, clock);
          return Raised(CellFailure(Measurement)), [];
        }
      }
      ghost var begun, asked := looks, clock;
      r, cells := ObtainCell(i, cell, rawComplete);
      DisturbedWithin(world, old(looks), begun, looks);
      SetbackHere(f, results, world, old(Disk()), Disk(), old(looks), looks, clock);
      assert i == 1 && cells != [] ==> old(clock) <= asked <= instants[|instants| - 1] && InTime(raw[prior], asked);
    }

    /** Finish the next arm of the running pair: within the gap, from disk or by launching it, then indexed. */
    method RunArm(i: nat, cell: Cell, prior: Cell, e: Event, rawComplete: bool)
      returns (r: Outcome, ghost cells: seq<Cell>)
      requires Valid() && RunningBelow(Now(), 2) && Now().open.arms == i
      requires cell == PairCell(Now(), i) && prior == PairCell(Now(), 0) && e == CellEvent(Now(), i)
      requires rawComplete <==> cell in raw
      modifies this`raw, this`clock, this`looks, this`fuel, this`past, this`launched, this`instants, journal
      ensures Valid() && clock >= old(clock) && Grew(old(Disk()), Disk())
      ensures r == Done || r == Died || (r.Raised? && r.failure.CellFailure?)
      ensures looks >= old(looks) && Spent(old(fuel), fuel, 2, r)
      ensures r.Raised? ==> Setback(f, results, world, old(Disk()), Disk(), old(looks), looks, clock)
      ensures r == Done ==> Now() == old(Now()).(open := old(Now()).open.(arms := i + 1))
      ensures r != Done ==> Now() == old(Now())
      ensures launched == old(launched) + cells
      ensures cells == [] || (cells == [cell] && cell !in old(raw))
      ensures forall c :: c in raw && c != cell ==> c in old(raw)
      ensures i == 1 && cells != [] ==> prior in raw && InTimeWithin(raw[prior], old(clock), instants[|instants| - 1])
    {
      hide Kept, Punctual, Traced, Authorised, Grew, PairCell, CellEvent, CurrentPair, Setback, PairFails, InTimeWithin;
      r, cells := ObtainTimely(i, cell, prior, rawComplete);
      if r != Done {
        return;
      }
      ghost var middle := Disk();
      r := AppendCell(e);
      GrowthIsTransitive(old(Disk()), middle, Disk());
      SetbackHere(f, results, world, old(Disk()), Disk(), old(looks), looks, clock);
    }

    /** Score a fully indexed pair from its raw cells. */
    method ScorePair(m: Machine) returns (r: Outcome)
      requires Valid() && Reads(m, Now()) && m.phase == PairPhase && Now().open.arms == 2
      modifies this`clock, this`looks, this`fuel, this`past, journal
      ensures Valid() && clock >= old(clock) && Grew(old(Disk()), Disk())
      ensures r == Done || r == Died || r == Raised(CellFailure(Measurement))
      ensures looks >= old(looks) && Spent(old(fuel), fuel, 1, r)
      ensures r.Raised? ==> PairFails(f, results, Now())
      ensures r == Done ==> ScoredFrom(old(Now()), Now())
      ensures r != Done ==> Disk() == old(Disk())
    {
      hide Kept, Punctual, Traced, Authorised, Driven, Permitted, CurrentPair, Grew, GapHolds, PairFails;
      GrowthIsReflexive(Disk());
      ScoreIsDriven(f, results, Disk());
      UnscoredFails(f, results, Disk());
      var c, stage, n := m.candidateId.value, MachineStage(m), m.activePairIndex.value;
      ReadsPair(m, Now());
      var observation := Score(f, n, raw[Search(c, stage, Champion)], raw[Search(c, stage, Candidate)]);
      if observation.None? {
        return Raised(CellFailure(Measurement));
      }
      PermittedWithoutAdmission(f, Disk(), PairScored(c, n, observation.value));
      GapFails(f, results, Disk(), PairScored(c, n, observation.value));
      r := AppendFrozenTransition(PairScored(c, n, observation.value));
    }

    /** One turn of the arm loop of a pair whose state was read as m. */
    method NextArm(m: Machine, i: nat, rawComplete: bool, ghost start: History) returns (r: Outcome, ghost cells: seq<Cell>)
      requires Valid() && Reads(m, start) && m.phase == PairPhase && SameStage(start, Now())
      requires RunningBelow(Now(), 2) && Now().open.arms == i && HasArm(m, i)
      requires rawComplete <==> ArmCell(m, i) in raw
      modifies this`raw, this`clock, this`looks, this`fuel, this`past, this`launched, this`instants, journal
      ensures Valid() && clock >= old(clock) && Grew(old(Disk()), Disk())
      ensures r == Done || r == Died || (r.Raised? && r.failure.CellFailure?)
      ensures looks >= old(looks) && Spent(old(fuel), fuel, 2, r)
      ensures r.Raised? ==> Setback(f, results, world, old(Disk()), Disk(), old(looks), looks, clock)
      ensures SameStage(start, Now()) && (r == Done ==> RunningBelow(Now(), 3) && Now().open.arms == i + 1)
      ensures launched == old(launched) + cells
      ensures cells == [] || (cells == [ArmCell(m, i)] && ArmCell(m, i) !in old(raw))
      ensures forall c :: c in raw && c != ArmCell(m, i) ==> c in old(raw)
    {
      hide Kept, Punctual, Traced, Authorised, Grew, PairCell, CellEvent, CurrentPair, Setback;
      PairCells(m, start, i);
      PairCells(m, start, 0);
      SameStageSamePair(start, Now(), i);
      SameStageSamePair(start, Now(), 0);
      var c, n := m.candidateId.value, m.activePairIndex.value;
      r, cells := RunArm(i, ArmCell(m, i), ArmCell(m, 0), CellCompleted(c, n, m.activeOrder[i]), rawComplete);
    }

    /** Finish the missing arms of the running pair in order. */
    method FinishArms(m: Machine, prefix: seq<Arm>) returns (r: Outcome, ghost cells: seq<Cell>)
      requires Valid() && Reads(m, Now()) && m.phase == PairPhase && HasArm(m, 1) && PendingPrefix(raw, m, prefix)
      modifies this`raw, this`clock, this`looks, this`fuel, this`past, this`launched, this`instants, journal
      ensures Valid() && clock >= old(clock) && Grew(old(Disk()), Disk())
      ensures r == Done || r == Died || (r.Raised? && r.failure.CellFailure?)
      ensures looks >= old(looks) && Spent(old(fuel), fuel, 4, r)
      ensures r.Raised? ==> Setback(f, results, world, old(Disk()), Disk(), old(looks), looks, clock)
      ensures SameStage(old(Now()), Now()) && (r == Done ==> RunningBelow(Now(), 3) && Now().open.arms == 2)
      ensures launched == old(launched) + cells && Pristine(cells, old(raw)) && OnePair(cells)
    {
      hide Kept, Punctual, Traced, Authorised, Grew, PendingPrefix, OnePair, PendingCell, Reads, ArmCell, ArmLaunches, SameStage, Pristine, Setback;
      cells := [];
      NothingLaunched(m, Now(), raw);
      GrowthIsReflexive(Disk());
      ReadsPair(m, Now());
      PrefixMembers(raw, m, prefix);
      for i := |m.completedArms| to 2
        invariant Valid() && clock >= old(clock) && Grew(old(Disk()), Disk())
        invariant looks >= old(looks) && fuel <= old(fuel) <= fuel + 2 * i
        invariant SameStage(old(Now()), Now()) && RunningBelow(Now(), 3) && Now().open.arms == i
        invariant PrefixFrom(raw, m, prefix, i)
        invariant launched == old(launched) + cells && Pristine(cells, old(raw)) && ArmLaunches(m, cells, i) && OnePair(cells)
      {
        ghost var middle, begun, more := Disk(), looks, [];
        r, more := NextArm(m, i, m.activeOrder[i] in prefix, old(Now()));
        PrefixMoves(m, prefix, middle, Disk(), i);
        StillPristine(old(Disk()), middle, cells, more);
        GrowthIsTransitive(old(Disk()), middle, Disk());
        SetbackSince(f, results, world, old(Disk()), middle, Disk(), old(looks), begun, looks, clock);
        LaunchesOfPair(m, cells, more, i);
        cells := cells + more;
        if r != Done {
          return;
        }
      }
      r := Done;
    }

    /** Find out which arms of the running pair are on disk, and finish the others. */
    method FinishCells(m: Machine) returns (r: Outcome, ghost cells: seq<Cell>)
      requires Valid() && Reads(m, Now()) && m.phase == PairPhase
      modifies this`raw, this`clock, this`looks, this`fuel, this`past, this`launched, this`instants, journal
      ensures Valid() && clock >= old(clock) && Grew(old(Disk()), Disk())
      ensures r == Done || r == Died || (r.Raised? && r.failure.CellFailure?)
      ensures looks >= old(looks) && Spent(old(fuel), fuel, 4, r)
      ensures r.Raised? ==> Setback(f, results, world, old(Disk()), Disk(), old(looks), looks, clock)
      ensures SameStage(old(Now()), Now()) && (r == Done ==> RunningBelow(Now(), 3) && Now().open.arms == 2)
      ensures launched == old(launched) + cells && Pristine(cells, old(raw)) && OnePair(cells)
    {
      hide Kept, Punctual, Traced, Authorised, Grew, PendingPrefix, OnePair, Reads, SameStage, Setback;
      NothingLaunched(m, Now(), raw);
      GrowthIsReflexive(Disk());
      ReadsPair(m, Now());
      var misplaced := Raised(CellFailure(Audit));
      var prefix := RawSearchPrefix(m);
      if prefix.Err? {
        PrefixExists(f, results, Disk(), m);
        return misplaced, [];
      }
      r, cells := FinishArms(m, prefix.value);
    }

    /** Finish the running pair's arms, then score it. */
    method FinishPair(m: Machine) returns (r: Outcome, ghost cells: seq<Cell>)
      requires Valid() && Reads(m, Now()) && m.phase == PairPhase
      modifies this`raw, this`clock, this`looks, this`fuel, this`past, this`launched, this`instants, journal
      ensures Valid() && clock >= old(clock) && Grew(old(Disk()), Disk())
      ensures r == Done || r == Died || (r.Raised? && r.failure.CellFailure?)
      ensures looks >= old(looks) && Spent(old(fuel), fuel, 5, r)
      ensures r.Raised? ==> Setback(f, results, world, old(Disk()), Disk(), old(looks), looks, clock)
      ensures if r == Done then ScoredFrom(old(Now()), Now()) else SameStage(old(Now()), Now())
      ensures launched == old(launched) + cells && Pristine(cells, old(raw)) && OnePair(cells)
    {
      hide Kept, Punctual, Traced, Authorised, Grew, OnePair, Reads, SameStage, ScoredFrom, Setback, PairFails, Pristine;
      r, cells := FinishCells(m);
      if r != Done {
        return;
      }
      ghost var indexed := Disk();
      ReadsPair(m, old(Now()));
      FullyIndexed(m, old(Now()), Now());
      r := ScorePair(m.(completedArms := m.activeOrder));
      GrowthIsTransitive(old(Disk()), indexed, Disk());
      SetbackHere(f, results, world, old(Disk()), Disk(), old(looks), looks, clock);
      ScoredThen(old(Now()), indexed.Current(), Now());
    }

    /** Start the pair if it has not started, finish its arms, and score it. */
    method RunSearchPair(entry: Machine) returns (r: Outcome, ghost cells: seq<Cell>)
      requires Valid() && Reads(entry, Now()) && (entry.phase == CandidatePhase || entry.phase == PairPhase)
      requires entry.phase == CandidatePhase ==> AdmittedNow(f, Disk())
      modifies this`raw, this`clock, this`looks, this`fuel, this`past, this`launched, this`instants, journal
      ensures Valid() && clock >= old(clock) && Grew(old(Disk()), Disk())
      ensures r == Done || r == Died || (r.Raised? && r.failure.CellFailure?)
      ensures looks >= old(looks) && Spent(old(fuel), fuel, 6, r)
      ensures r.Raised? ==> Setback(f, results, world, old(Disk()), Disk(), old(looks), looks, clock)
      ensures r == Done ==> ScoredFrom(old(Now()), Now())
      ensures r != Done ==> Now().Campaign? && Now().ending == Ongoing
      ensures launched == old(launched) + cells && Pristine(cells, old(raw)) && OnePair(cells)
    {
      hide Kept, Punctual, Traced, Authorised, AdmittedNow, Grew, OnePair, Setback;
      cells := [];
      NothingLaunched(entry, Now(), raw);
      GrowthIsReflexive(Disk());
      var m := entry;
      if m.phase == CandidatePhase {
        r := StartPair(m);
        if r != Done {
          return;
        }
        m := StrictReplay();
      }
      ghost var started, begun := Disk(), looks;
      r, cells := FinishPair(m);
      GrowthIsTransitive(old(Disk()), started, Disk());
      SetbackSince(f, results, world, old(Disk()), started, Disk(), old(looks), begun, looks, clock);
    }

    // -------------------------------------------------------------------------
    // A decision
    // -------------------------------------------------------------------------

    /** Close the campaign: nothing is left to try. */
    method AppendCompleted() returns (r: Outcome)
      requires Valid() && IsIdle(Now()) && Exhausted(f, Now().blocks)
      modifies this`clock, this`looks, this`fuel, this`past, journal
      ensures Valid() && clock >= old(clock) && Grew(old(Disk()), Disk())
      ensures r == Done || r == Died
      ensures looks >= old(looks) && Spent(old(fuel), fuel, 1, r)
      ensures Now() == if r == Done then old(Now()).(ending := Concluded) else old(Now())
    {
      hide Kept, Punctual, Traced, Authorised, Driven, Permitted, Grew, Exhausted;
      CandidateIsDriven(f, results, Disk());
      PermittedWithoutAdmission(f, Disk(), CampaignCompleted);
      r := AppendFrozenTransition(CampaignCompleted);
    }

    /** The k-th record decides the scored candidate of a history as the gates say. */
    predicate RecordsDecision(h: History, k: nat)
      reads journal
    {
      && h.Campaign? && h.open.Scored? && k < |journal.records|
      && var e := journal.records[k].event;
         && e.CandidateDecided? && e.candidateId == h.open.header.candidateId
         && GatesDecide(f.policy, h.open.header.axis, h.open.first, h.open.last, e.decision)
    }

    /** Decide the scored candidate by the gates of its stage. */
    method AppendDecision(m: Machine) returns (r: Outcome, decision: Decision)
      requires Valid() && Reads(m, Now()) && m.phase == ScoredPhase
      modifies this`clock, this`looks, this`fuel, this`past, journal
      ensures Valid() && clock >= old(clock) && Grew(old(Disk()), Disk())
      ensures r == Done || r == Died || r == Raised(CellFailure(Measurement))
      ensures looks >= old(looks) && Spent(old(fuel), fuel, 1, r)
      ensures r.Raised? ==> PairFails(f, results, Now())
      ensures r != Done ==> Disk() == old(Disk())
      ensures old(Now()).Campaign? && old(Now()).ending == Ongoing && old(Now()).open.Scored?
      ensures r == Done ==>
                && decision == VerdictOf(f.policy, old(Now()).open)
                && RecordsDecision(old(Now()), |old(journal.records)|)
                && Now() == Extend(old(Now()), CandidateDecided(old(Now()).open.header.candidateId, decision))
    {
      hide Kept, Punctual, Traced, Authorised, Driven, Permitted, Grew, FirstVerdict, FinalVerdict, Extend, PairFails, GatesDecide;
      GrowthIsReflexive(Disk());
      var c, observations := m.candidateId.value, m.observations;
      decision := UnknownDecision;
      ScoredObservations(m, Now());
      var ineligible := IneligibilityKind(observations[|observations| - 1]);
      IneligibleFails(f, results, Disk());
      if ineligible.Some? {
        return Raised(CellFailure(ineligible.value)), decision;
      }
      EligibleHasNoFailures(observations[|observations| - 1]);
      var proposal := ProposalOf(f.proposals, c);
      CurrentProposal(f, results, Disk());
      decision := if |observations| == 1 then FirstVerdict(f.policy, proposal.value.axis, observations[0])
                  else FinalVerdict(f.policy, m.mode.value, observations[0], observations[1]);
      VerdictIsGates(f.policy, Now().open, decision);
      DecisionIsDriven(f, results, Disk());
      PermittedWithoutAdmission(f, Disk(), CandidateDecided(c, decision));
      GapFails(f, results, Disk(), CandidateDecided(c, decision));
      r := AppendFrozenTransition(CandidateDecided(c, decision));
    }

    /** Decide the scored candidate, and end the campaign if that leaves nothing to try. */
    method DecideCandidate(m: Machine) returns (r: Outcome)
      requires Valid() && Reads(m, Now()) && m.phase == ScoredPhase
      modifies this`clock, this`looks, this`fuel, this`past, journal
      ensures Valid() && clock >= old(clock) && Grew(old(Disk()), Disk())
      ensures r.Raised? ==> !Ended(Now())
      ensures r == Done || r == Died || (r.Raised? && r.failure.CellFailure?)
      ensures looks >= old(looks) && Spent(old(fuel), fuel, 2, r)
      ensures r.Raised? ==> Setback(f, results, world, old(Disk()), Disk(), old(looks), looks, clock)
      ensures Now().Campaign? && !EndedInFailure(Now())
      ensures r == Done ==> RecordsDecision(old(Now()), |old(journal.records)|)
      ensures r == Done ==> Remaining(f, Now(), true) < Remaining(f, old(Now()), true)
    {
      hide Kept, Punctual, Traced, Authorised, Grew, Remaining, VerdictOf, Exhausted, Extend, Setback, PairFails, GatesDecide, Advances;
      var decision: Decision;
      r, decision := AppendDecision(m);
      if r != Done {
        GrowthIsReflexive(Disk());
        SetbackHere(f, results, world, old(Disk()), Disk(), old(looks), looks, clock);
        return;
      }
      ghost var decided := Disk();
      AfterDecision(f, results, old(Disk()), decided, decision);
      if decision == Promote || decision == PromoteSimplification {
        r := AppendCompleted();
      } else if decision == Reject {
        var decisions := CandidateDecisions(EventsOf(journal.records));
        if AllRejected(f, decisions) {
          r := AppendCompleted();
        }
      }
      EndedLeavesNothing(f, Now());
      GrowthIsReflexive(decided);
      GrowthKeeps(decided, Disk());
      GrowthIsTransitive(old(Disk()), decided, Disk());
    }

    /** Run the pair at hand up to its score, then decide. */
    method RunAndDecide(entry: Machine) returns (r: Outcome, ghost cells: seq<Cell>)
      requires Valid() && Reads(entry, Now()) && entry.phase in {CandidatePhase, PairPhase, ScoredPhase}
      requires entry.phase == CandidatePhase ==> AdmittedNow(f, Disk())
      modifies this`raw, this`clock, this`looks, this`fuel, this`past, this`launched, this`instants, journal
      ensures Valid() && clock >= old(clock) && Grew(old(Disk()), Disk())
      ensures r.Raised? ==> !Ended(Now())
      ensures r == Done || r == Died || (r.Raised? && r.failure.CellFailure?)
      ensures looks >= old(looks) && Spent(old(fuel), fuel, 8, r)
      ensures r.Raised? ==> Setback(f, results, world, old(Disk()), Disk(), old(looks), looks, clock)
      ensures Now().Campaign? && !EndedInFailure(Now())
      ensures r == Done ==> Remaining(f, Now(), true) < Remaining(f, old(Now()), true)
      ensures launched == old(launched) + cells && Pristine(cells, old(raw)) && OnePair(cells)
    {
      hide Kept, Punctual, Traced, Authorised, Grew, Remaining, AdmittedNow, OnePair, Reads, Setback;
      cells := [];
      NothingLaunched(INITIAL, Now(), raw);
      GrowthIsReflexive(Disk());
      ReadsPhase(entry, Now());
      var m := entry;
      if m.phase == CandidatePhase || m.phase == PairPhase {
        r, cells := RunSearchPair(m);
        if r != Done {
          return;
        }
        m := StrictReplay();
        ReadsPhase(m, Now());
      }
      ghost var scored, begun := Disk(), looks;
      RemainingUntilScored(f, old(Now()), old(Now()), Now());
      r := DecideCandidate(m);
      GrowthIsTransitive(old(Disk()), scored, Disk());
      SetbackSince(f, results, world, old(Disk()), scored, Disk(), old(looks), begun, looks, clock);
    }

    /** Between pairs: close the campaign if nothing is left to try, or start the next candidate. */
    method OpenCandidate(m: Machine) returns (r: Outcome, closed: bool)
      requires Valid() && Reads(m, Now()) && Now().Campaign? && !Ended(Now()) && Disk().Calibrated()
      requires TargetOf(f, Now()).Some? ==> AdmittedNow(f, Disk())
      modifies this`clock, this`looks, this`fuel, this`past, journal
      ensures Valid() && clock >= old(clock) && Grew(old(Disk()), Disk())
      ensures (r == Done || r == Died) && looks >= old(looks) && Spent(old(fuel), fuel, 1, r)
      ensures Now().Campaign? && !EndedInFailure(Now())
      ensures r == Done && closed ==> Remaining(f, Now(), true) < Remaining(f, old(Now()), true)
      ensures r == Done && !closed ==>
                && !Ended(Now()) && !Now().open.Nothing? && (Now().open.Waiting? ==> AdmittedNow(f, Disk()))
                && Remaining(f, Now(), true) == Remaining(f, old(Now()), true)
    {
      hide Kept, Punctual, Traced, Authorised, Grew, AnyPromotion, FirstUndecided, AdmittedNow, Exhausted, TargetOf, Remaining;
      GrowthIsReflexive(Disk());
      EndedLeavesNothing(f, Now());
      WaitingHasTarget(f, Now());
      ReadsPhase(m, Now());
      var decisions := CandidateDecisions(EventsOf(journal.records));
      NextCandidate(f, results, Disk(), decisions);
      if AnyPromotion(decisions) {
        r := AppendCompleted();
        EndedLeavesNothing(f, Now());
        return r, true;
      }
      if m.phase != Idle {
        return Done, false;
      }
      var proposal := FirstUndecided(f.proposals, decisions);
      if proposal.None? {
        r := AppendCompleted();
        EndedLeavesNothing(f, Now());
        return r, true;
      }
      r := StartCandidate(proposal.value);
      closed := false;
      RemainingUntilScored(f, old(Now()), Now(), Now());
    }

    /** The body of the search loop, which one invocation enters once. */
    method SearchStep() returns (r: Outcome, ghost cells: seq<Cell>)
      requires Valid() && Now().Campaign? && Disk().Calibrated()
      requires TargetOf(f, Now()).Some? ==> AdmittedNow(f, Disk())
      modifies this`raw, this`clock, this`looks, this`fuel, this`past, this`launched, this`instants, journal
      ensures Valid() && clock >= old(clock) && Grew(old(Disk()), Disk())
      ensures r.Raised? ==> !Ended(Now())
      ensures r == Done || r == Died || (r.Raised? && r.failure.CellFailure?)
      ensures looks >= old(looks) && Spent(old(fuel), fuel, 9, r)
      ensures r.Raised? ==> Setback(f, results, world, old(Disk()), Disk(), old(looks), looks, clock)
      ensures Now().Campaign? && (EndedInFailure(Now()) ==> EndedInFailure(old(Now())))
      ensures r == Done ==> Remaining(f, Now(), true) < Remaining(f, old(Now()), true) || Ended(old(Now()))
      ensures launched == old(launched) + cells && Pristine(cells, old(raw)) && OnePair(cells)
    {
      hide Kept, Punctual, Traced, Authorised, Grew, Remaining, AdmittedNow, OnePair, Reads, Setback, TargetOf, Pristine, IsIdle;
      cells := [];
      NothingLaunched(INITIAL, Now(), raw);
      GrowthIsReflexive(Disk());
      var m := StrictReplay();
      ReadsPhase(m, Now());
      if m.phase == Terminal {
        return Done, [];
      }
      var closed: bool;
      r, closed := OpenCandidate(m);
      if r != Done || closed {
        return;
      }
      m := StrictReplay();
      ReadsPhase(m, Now());
      ghost var open, begun := Disk(), looks;
      r, cells := RunAndDecide(m);
      GrowthIsTransitive(old(Disk()), open, Disk());
      SetbackSince(f, results, world, old(Disk()), open, Disk(), old(looks), begun, looks, clock);
    }

    method StartCandidate(next: Header) returns (r: Outcome)
      requires Valid() && IsIdle(Now()) && Disk().Calibrated() && !Exhausted(f, Now().blocks)
      requires |Now().blocks| < |f.proposals| && next == f.proposals[|Now().blocks|]
      requires TargetOf(f, Now()).Some? ==> AdmittedNow(f, Disk())
      modifies this`clock, this`looks, this`fuel, this`past, journal
      ensures Valid() && clock >= old(clock) && Grew(old(Disk()), Disk())
      ensures r == Done || r == Died
      ensures looks >= old(looks) && Spent(old(fuel), fuel, 1, r)
      ensures Now() == if r == Done then old(Now()).(open := Waiting(next, None)) else old(Now())
      ensures r == Done ==> AdmittedNow(f, Disk())
    {
      hide Kept, Punctual, Traced, Authorised, Driven, Grew, Exhausted, AdmittedNow, GapHolds;
      var e := CandidateStarted(next.candidateId, next.axis, next.deltaDigest);
      CandidateIsDriven(f, results, Disk());
      StillAdmitted(f, results, Disk(), e);
      r := AppendFrozenTransition(e);
    }

    // -------------------------------------------------------------------------
    // One invocation
    // -------------------------------------------------------------------------

    /** Take one live admission for the target, append it to the chain, and read the chain back. */
    method AppendLiveAdmission(t: Target) returns (r: Outcome, blockers: seq<Admission.Blocker>)
      requires Valid() && Admissible(f, Disk(), t)
      modifies this`admissions, this`clock, this`looks, this`fuel
      ensures Valid() && clock >= old(clock) && Grew(old(Disk()), Disk())
      ensures r.Raised? ==> r == Raised(Planning) && (!Timely(f, Disk()) || !SoundReadings(world))
      ensures r != Paused
      ensures looks >= old(looks) && Spent(old(fuel), fuel, 1, r)
      ensures r == Done ==>
                && |admissions| == |old(admissions)| + 1 && old(admissions) <= admissions
                && admissions[|admissions| - 1].body.target == t && admissions[|admissions| - 1].body.observation.blockers == blockers
      ensures r == Done && blockers != [] ==> Hindered(f, results, world, old(Disk()), Disk(), old(looks), looks)
      ensures r == Done && blockers == [] ==> AdmittedTarget(f, Disk(), t)
    {
      hide Kept, Punctual, Traced, Authorised, Admission.Observe, Timely, Admissible, AdmittedTarget, Grew, Hindered;
      GrowthIsReflexive(Disk());
      blockers := [];
      var readable := ReadAdmissions();
      if !readable {
        return Raised(Planning), [];
      }
      var w := Look();
      if w.reading.None? {
        return Raised(Planning), [];
      }
      var reading := w.reading.value;
      var o := Admission.Observe(f.binding, clock, reading.memory, reading.swap, reading.harness, reading.harnessFiles);
      ObservationReadsBack(f.binding, clock, reading);
      if o.None? {
        return Raised(Planning), [];
      }
      if fuel == 0 {
        return Died, [];
      }
      KeepAdmission(f, results, Disk(), t, o.value);
      AdmissionTaken(f, Disk(), t, o.value);
      PunctualAdmission(f, world, Disk(), t, o.value);
      TracedAdmission(world, results, admissions, raw, launched, instants, NewAdmissionOf(t, o.value));
      AuthorisedAdmission(admissions, NewAdmissionOf(t, o.value), launched, instants, Now());
      admissions, fuel := admissions + [NewAdmissionOf(t, o.value)], fuel - 1;
      if o.value.outcome != Admission.Admitted {
        BlockedHere(f, results, world, old(Disk()), Disk(), admissions[|admissions| - 1], old(looks), looks - 1, looks);
      }
      readable := ReadAdmissions();
      if !readable {
        return Raised(Planning), [];
      }
      return Done, o.value.blockers;
    }

    function NewAdmissionOf(t: Target, o: Admission.Observation): Admission.Record
      reads this, journal
    {
      Admission.NewRecord(f.binding, t, o, journal.records, |admissions| + 1, Admission.TailDigest(admissions))
    }

    /** A failed cell ends the campaign; only a failed or ambiguous cleanup is recorded as unverified. */
    method FailWith(kind: KnownFailure) returns (r: Outcome)
      requires Valid()
      modifies this`clock, this`looks, this`fuel, this`past, journal
      ensures Valid() && clock >= old(clock) && (r == Done || r == Died)
      ensures r == Done ==> Ended(Now())
      ensures r == Done && !Ended(old(Now())) ==> EndedAs(Now(), kind, kind !in {CleanupFailure, OwnershipAmbiguity})
      ensures looks >= old(looks) && Spent(old(fuel), fuel, 2, r)
      ensures old(Now()).Campaign? && !Ended(old(Now())) ==>
                SameWork(old(Now()), Now()) && looks == old(looks) + 1 && clock == old(clock) + world(old(looks)).delay
      ensures Grew(old(Disk()), Disk())
    {
      r := Terminalise(kind, kind != CleanupFailure && kind != OwnershipAmbiguity);
    }

    /** The outcome of an attempt: a failed cell is recorded by ending the campaign. */
    method EndOnFailure(attempt: Outcome) returns (r: Outcome)
      requires Valid() && (attempt == Done || attempt == Died || (attempt.Raised? && attempt.failure.CellFailure?))
      modifies this`clock, this`looks, this`fuel, this`past, journal
      ensures Valid() && clock >= old(clock) && Grew(old(Disk()), Disk())
      ensures if attempt.Raised? then r == Died || (r == Done && Ended(Now()) && Left(f, Disk()) == 0)
              else r == attempt && Disk() == old(Disk()) && looks == old(looks) && clock == old(clock) && fuel == old(fuel)
      ensures attempt.Raised? && r == Done && !Ended(old(Now())) ==>
                EndedAs(Now(), attempt.failure.kind, attempt.failure.kind !in {CleanupFailure, OwnershipAmbiguity})
      ensures looks >= old(looks) && fuel <= old(fuel) <= fuel + 2 && (attempt.Raised? && r == Died ==> old(fuel) < 2)
      ensures attempt.Raised? && old(Now()).Campaign? && !Ended(old(Now())) ==>
                SameWork(old(Now()), Now()) && looks == old(looks) + 1 && clock == old(clock) + world(old(looks)).delay
    {
      hide Kept, Punctual, Traced, Authorised;
      r := attempt;
      if attempt.Raised? {
        r := FailWith(attempt.failure.kind);
        if r == Done {
          EndedHasNothingLeft(f, Disk());
        }
      }
    }

    /** A worker that could not be recovered ends the campaign, its cleanup unverified. */
    method EndUnrecovered(kind: KnownFailure, ghost from: nat) returns (r: Outcome)
      requires Valid() && from <= looks && Disturbed(world, from, looks)
      modifies this`clock, this`looks, this`fuel, this`past, journal
      ensures Valid() && clock >= old(clock) && Grew(old(Disk()), Disk()) && (r == Done || r == Died)
      ensures looks >= old(looks) && Spent(old(fuel), fuel, 2, r)
      ensures r == Done ==> Ended(Now()) && Explained(f, results, world, old(Disk()), Disk(), from, looks, clock)
      ensures r == Done && !Ended(old(Now())) ==> EndedAs(Now(), kind, false)
    {
      hide Kept, Punctual, Traced, Authorised, Grew, Explained, Hindered, Disturbed;
      GrowthIsReflexive(Disk());
      HinderedHere(f, results, world, Disk(), Disk(), from, looks);
      r := Terminalise(kind, false);
      HinderedExplains(f, results, world, old(Disk()), old(Disk()), old(Disk()), Disk(), from, from, old(looks), looks, clock);
    }

    /** Where the raw search cells lie: the first misplacement, or the indexable prefix of the running pair. */
    method LocateRaw(m: Machine) returns (misplaced: Option<Failure>, prefix: seq<Arm>)
      ensures misplaced.None? ==> if IsPair(m) then PendingPrefix(raw, m, prefix) else prefix == []
      ensures misplaced.Some? ==> misplaced == Some(Planning) || misplaced.value.CellFailure?
      ensures misplaced.Some? ==>
                || (exists c :: PairStarts(EventsOf(Unrepeated(journal.records)), c) > 2)
                || !StartedCells(raw, EventsOf(Unrepeated(journal.records)))
                || (IsPair(m) && forall p :: !PendingPrefix(raw, m, p))
    {
      hide StartedCells, PendingPrefix, IsPair;
      prefix := [];
      misplaced := ValidateSearchArtifacts(EventsOf(Unrepeated(journal.records)));
      if misplaced.None? {
        var pending := RawSearchPrefix(m);
        if pending.Ok? {
          prefix := pending.value;
        } else {
          misplaced := Some(pending.error);
        }
      }
    }

    /** Recovery, replay, admissions and raw topology: everything that is checked before anything is written. */
    method Inspect() returns (r: Option<Outcome>, m: Machine, prefix: seq<Arm>)
      requires Valid()
      modifies this`clock, this`looks, this`fuel, this`past, journal
      ensures Valid() && clock >= old(clock) && Grew(old(Disk()), Disk())
      ensures world(old(looks)).recovery.Some? ==> r.Some?
      ensures r == Some(Done) && !Ended(old(Now())) && world(old(looks)).recovery.Some? ==>
                EndedAs(Now(), world(old(looks)).recovery.value, false)
      ensures r.None? ==>
                && Disk() == old(Disk()) && Reads(m, Now()) && !Ended(Now())
                && (if IsPair(m) then PendingPrefix(raw, m, prefix) else prefix == [])
      ensures Ended(old(Now())) ==> Disk() == old(Disk())
      ensures looks >= old(looks) && Spent(old(fuel), fuel, 2, if r.Some? then r.value else Done)
      ensures r.None? ==> fuel == old(fuel)
      ensures r == Some(Done) && !Ended(old(Now())) ==> Explained(f, results, world, old(Disk()), Disk(), old(looks), looks, clock) || !Attested(f, old(Disk()))
      ensures r.Some? ==>
                match r.value
                case Done => Ended(Now())
                case Died => true
                case Paused => false
                case Raised(failure) =>
                  failure == Planning && Disk() == old(Disk())
                  && (!Timely(f, Disk()) || !Attested(f, Disk()) || (Ended(Now()) && world(old(looks)).recovery.Some?))
    {
      hide Kept, Punctual, Traced, Authorised, FrozenReplay, Timely, Attested, Reads, PendingPrefix, Grew, StartedCells, Explained, Disturbed;
      GrowthIsReflexive(Disk());
      m, prefix := INITIAL, [];
      var w := Look();
      var structural := ReplayFrozenCampaign(f, map[], false, journal.records);
      AttestedMeans(f, results, Disk());
      if structural.Err? {
        return Some(Raised(Planning)), m, prefix;
      }
      m := structural.value.machine;
      ReadsPhase(m, Now());
      var readable := ReadAdmissions();
      if !readable {
        return Some(Raised(Planning)), m, prefix;
      }
      if w.recovery.Some? {
        if m.phase == Terminal {
          return Some(Raised(Planning)), m, prefix;
        }
        DisturbedHere(world, old(looks), looks);
        var ended := EndUnrecovered(w.recovery.value, old(looks));
        return Some(ended), m, prefix;
      }
      var misplaced: Option<Failure>;
      misplaced, prefix := LocateRaw(m);
      if misplaced == Some(Planning) {
        return Some(Raised(Planning)), m, prefix;
      }
      var strict := ReplayFrozenCampaign(f, raw, true, journal.records);
      if strict.Err? {
        return Some(Raised(Planning)), m, prefix;
      }
      if misplaced.Some? {
        if m.phase == Terminal {
          return Some(Raised(Planning)), m, prefix;
        }
        var ended := Terminalise(misplaced.value.kind, true);
        return Some(ended), m, prefix;
      }
      r := if m.phase == Terminal then Some(Done) else None;
    }

    /** A calibrated campaign is about to start a pair right after a completed one. */
    ghost predicate GateAsks()
      reads this
      requires past != []
    {
      && calibration.Some? && calibration.value.passed && TargetOf(f, Now()).Some?
      && (IsIdle(Now()) || (Now().open.Waiting? && Now().open.first.Some?))
    }

    /** A new pair after a completed one waits for its checkpoint to be acknowledged. */
    method PassGate(m: Machine) returns (ready: bool)
      requires Valid()
      modifies this`clock, this`looks
      ensures Valid() && clock >= old(clock) && looks >= old(looks)
      ensures ready <==> (GateRequired(f, calibration, m, EventsOf(journal.records)) ==> world(old(looks)).gateReady)
      ensures !ready ==> Disturbed(world, old(looks), looks)
    {
      hide Kept, Punctual, Traced, Authorised, GateRequired;
      ready := true;
      if GateRequired(f, calibration, m, EventsOf(journal.records)) {
        var w := Look();
        ready := w.gateReady;
      }
    }

    /** Admit one target; a blocked admission ends the campaign, if it has started. */
    method AdmitTarget(t: Target) returns (r: Option<Outcome>)
      requires Valid() && Admissible(f, Disk(), t) && !Ended(Now())
      modifies this`admissions, this`clock, this`looks, this`fuel, this`past, journal
      ensures Valid() && clock >= old(clock) && Grew(old(Disk()), Disk())
      ensures looks >= old(looks) && Spent(old(fuel), fuel, 3, if r.Some? then r.value else Done)
      ensures r.None? ==> Now() == old(Now()) && AdmittedTarget(f, Disk(), t)
      ensures r.None? || r == Some(Done) || r == Some(Paused) ==>
                |admissions| == |old(admissions)| + 1 && admissions[|admissions| - 1].body.target == t
      ensures r == Some(Paused) ==> journal.records == old(journal.records) == []
      ensures r == Some(Done) ==>
                EndedAs(Now(), BlockedKind(admissions[|admissions| - 1].body.observation.blockers), true)
      ensures r.Some? && (r.value == Done || r.value == Paused) ==>
                Explained(f, results, world, old(Disk()), Disk(), old(looks), looks, clock)
      ensures r.Some? ==>
                match r.value
                case Done => Ended(Now())
                case Raised(failure) => failure == Planning && (!Timely(f, Disk()) || !SoundReadings(world))
                case _ => true
    {
      hide Kept, Punctual, Traced, Authorised, Grew, Timely, Admissible, AdmittedTarget, Explained, Hindered;
      GrowthIsReflexive(old(Disk()));
      var outcome, blockers := AppendLiveAdmission(t);
      if outcome != Done {
        return Some(outcome);
      }
      if blockers == [] {
        return None;
      }
      ghost var admitted, answered := Disk(), looks;
      GrowthIsReflexive(admitted);
      if journal.records == [] {
        outcome := Paused;
      } else {
        outcome := FailWith(BlockedKind(blockers));
      }
      GrowthIsTransitive(old(Disk()), admitted, Disk());
      HinderedExplains(f, results, world, old(Disk()), old(Disk()), admitted, Disk(), old(looks), old(looks), answered, looks, clock);
      return Some(outcome);
    }

    /** Pass the checkpoint gate and take the admission that the next launch needs. */
    method AdmitNext() returns (r: Option<Outcome>)
      requires Valid() && !Ended(Now()) && (calibration.Some? ==> Now().Campaign?)
      modifies this`admissions, this`clock, this`looks, this`fuel, this`past, journal
      ensures Valid() && clock >= old(clock) && Grew(old(Disk()), Disk())
      ensures looks >= old(looks) && Spent(old(fuel), fuel, 3, if r.Some? then r.value else Done)
      ensures r.Some? && (r.value == Done || r.value == Paused) ==>
                Explained(f, results, world, old(Disk()), Disk(), old(looks), looks, clock)
      ensures r.None? ==>
                && Now() == old(Now()) && Left(f, Disk()) == Left(f, old(Disk()))
                && (calibration.None? ==> AdmittedCalibration(admissions))
                && (calibration.Some? && TargetOf(f, Now()).Some? ==> AdmittedNow(f, Disk()))
      ensures old(GateAsks()) && !world(old(looks)).gateReady ==> r == Some(Paused) && Disk() == old(Disk())
      ensures r.Some? ==>
                match r.value
                case Done => Ended(Now())
                case Raised(failure) => failure == Planning && (!Timely(f, Disk()) || !SoundReadings(world))
                case _ => true
    {
      hide Kept, Punctual, Traced, Authorised, Grew, Timely, Admissible, Reads, GateRequired, TargetOf, AdmittedCalibration, Explained, Hindered, Disturbed;
      GrowthIsReflexive(Disk());
      var m := StrictReplay();
      GateMeansFreshPair(f, results, Disk(), m);
      var ready := PassGate(m);
      if !ready {
        HinderedHere(f, results, world, old(Disk()), Disk(), old(looks), looks);
        HinderedExplains(f, results, world, old(Disk()), old(Disk()), Disk(), Disk(), old(looks), old(looks), looks, looks, clock);
        return Some(Paused);
      }
      NextTargetIs(f, results, Disk(), m);
      var target := NextTarget(f, if journal.records == [] then None else Some(m), EventsOf(journal.records), calibration.Some?);
      if target.value.None? {
        return None;
      }
      ghost var asked := looks;
      r := AdmitTarget(target.value.value);
      ExplainedSince(f, results, world, old(Disk()), old(Disk()), Disk(), old(looks), asked, looks, clock);
    }

    /** The calibration pair, or one search pair; the first cell failure ends the attempt. */
    method RunAdmittedPair() returns (r: Outcome, ghost cells: seq<Cell>)
      requires Valid() && Now().Campaign? && !Ended(Now()) && (calibration.Some? ==> Disk().Calibrated())
      requires calibration.None? ==> AdmittedCalibration(admissions)
      requires calibration.Some? && TargetOf(f, Now()).Some? ==> AdmittedNow(f, Disk())
      modifies this`raw, this`calibration, this`clock, this`looks, this`fuel, this`past, this`launched, this`instants, journal
      ensures Valid() && clock >= old(clock) && Grew(old(Disk()), Disk())
      ensures r.Raised? ==> !Ended(Now())
      ensures r == Done || r == Died || (r.Raised? && r.failure.CellFailure?)
      ensures looks >= old(looks) && Spent(old(fuel), fuel, 12, r)
      ensures r.Raised? ==> Setback(f, results, world, old(Disk()), Disk(), old(looks), looks, clock)
      ensures !EndedInFailure(Now())
      ensures Now().Campaign? && (r == Done ==> Left(f, Disk()) < Left(f, old(Disk())))
      ensures launched == old(launched) + cells && Pristine(cells, old(raw)) && OnePair(cells)
    {
      hide Kept, Punctual, Traced, Authorised, Grew, OnePair, TargetOf, AdmittedNow, AdmittedCalibration, Remaining, Setback;
      var alreadyRecorded := calibration.Some?;
      r, cells := RunCalibration();
      ControlsArePair(cells);
      if r != Done {
        return;
      }
      if !alreadyRecorded {
        CalibrationLeavesLess(f, results, old(Disk()), Disk());
        return;
      }
      ghost var recorded, begun := Disk(), looks;
      r, cells := SearchStep();
      GrowthIsReflexive(recorded);
      SetbackSince(f, results, world, old(Disk()), recorded, Disk(), old(looks), begun, looks, clock);
    }

    /** Run the admitted pair of a started campaign; a failed cell ends it. */
    method RunAndRecord() returns (r: Outcome, ghost cells: seq<Cell>)
      requires Valid() && Now().Campaign? && !Ended(Now()) && (calibration.Some? ==> Disk().Calibrated())
      requires calibration.None? ==> AdmittedCalibration(admissions)
      requires calibration.Some? && TargetOf(f, Now()).Some? ==> AdmittedNow(f, Disk())
      modifies this`raw, this`calibration, this`clock, this`looks, this`fuel, this`past, this`launched, this`instants, journal
      ensures Valid() && clock >= old(clock) && Grew(old(Disk()), Disk())
      ensures looks >= old(looks) && Spent(old(fuel), fuel, 14, r) && (r == Done || r == Died)
      ensures r == Done && EndedInFailure(Now()) ==> Explained(f, results, world, old(Disk()), Disk(), old(looks), looks, clock)
      ensures Now().Campaign? && (r == Done ==> Left(f, Disk()) < Left(f, old(Disk())))
      ensures launched == old(launched) + cells && Pristine(cells, old(raw)) && OnePair(cells)
    {
      hide Kept, Punctual, Traced, Authorised, Grew, OnePair, TargetOf, AdmittedNow, AdmittedCalibration, Left, Pristine, Setback, Explained;
      LeftUntilEnded(f, results, Disk());
      var attempt: Outcome;
      attempt, cells := RunAdmittedPair();
      ghost var ran, ranTo, at := Disk(), looks, clock;
      r := EndOnFailure(attempt);
      GrowthIsTransitive(old(Disk()), ran, Disk());
      if attempt.Raised? {
        SetbackExplains(f, results, world, old(Disk()), ran, Disk(), old(looks), ranTo, at);
      }
    }

    /** Start the campaign if need be and run the admitted pair; a failed cell ends the campaign. */
    method Execute() returns (r: Outcome, ghost cells: seq<Cell>)
      requires Valid() && !Ended(Now()) && (calibration.Some? ==> Disk().Calibrated() && Now().Campaign?)
      requires calibration.None? ==> AdmittedCalibration(admissions)
      requires calibration.Some? && TargetOf(f, Now()).Some? ==> AdmittedNow(f, Disk())
      modifies this`raw, this`calibration, this`clock, this`looks, this`fuel, this`past, this`launched, this`instants, journal
      ensures Valid() && clock >= old(clock) && Grew(old(Disk()), Disk())
      ensures looks >= old(looks) && Spent(old(fuel), fuel, 15, r) && (r == Done || r == Died)
      ensures r == Done && EndedInFailure(Now()) ==> Explained(f, results, world, old(Disk()), Disk(), old(looks), looks, clock)
      ensures r == Done ==> Left(f, Disk()) < Left(f, old(Disk())) && Now().Campaign?
      ensures Now().Campaign? || raw == old(raw)
      ensures launched == old(launched) + cells && Pristine(cells, old(raw)) && OnePair(cells)
    {
      hide Kept, Punctual, Traced, Authorised, Grew, OnePair, TargetOf, AdmittedNow, AdmittedCalibration, Left, Pristine, Explained;
      cells := [];
      NothingLaunched(INITIAL, Now(), raw);
      r := AppendCampaignStarted();
      if r != Done {
        return;
      }
      ghost var started, begun := Disk(), looks;
      StartLeavesNoMore(f, old(Disk()), started);
      r, cells := RunAndRecord();
      GrowthIsTransitive(old(Disk()), started, Disk());
      ExplainedSince(f, results, world, old(Disk()), started, Disk(), old(looks), begun, looks, clock);
    }

    /** Index what is on disk of the running pair; a cell that cannot be indexed ends the campaign. */
    method SettlePair(m: Machine, prefix: seq<Arm>) returns (r: Option<Outcome>)
      requires Valid() && Reads(m, Now()) && !Ended(Now())
      requires if IsPair(m) then PendingPrefix(raw, m, prefix) else prefix == []
      modifies this`clock, this`looks, this`fuel, this`past, journal
      ensures Valid() && clock >= old(clock) && Grew(old(Disk()), Disk())
      ensures looks >= old(looks) && (if r.Some? then Spent(old(fuel), fuel, 4, r.value) else Spent(old(fuel), fuel, 2, Done))
      ensures r.None? ==> SameStage(old(Now()), Now())
      ensures r.Some? ==> r.value == Died || (r.value == Done && Ended(Now()))
      ensures r == Some(Done) ==> Explained(f, results, world, old(Disk()), Disk(), old(looks), looks, clock)
    {
      hide Kept, Punctual, Traced, Authorised, Grew, Reads, PendingPrefix, Explained, Hindered, PairFails, SomeBroken, SameStage;
      var outcome := ReconcileRawSearchPrefix(m, prefix);
      if outcome == Done {
        return None;
      }
      ghost var indexed, read := Disk(), looks;
      HinderedHere(f, results, world, old(Disk()), indexed, old(looks), read);
      outcome := EndOnFailure(outcome);
      GrowthIsReflexive(old(Disk()));
      GrowthIsTransitive(old(Disk()), indexed, Disk());
      HinderedExplains(f, results, world, old(Disk()), old(Disk()), indexed, Disk(), old(looks), old(looks), read, looks, clock);
      return Some(outcome);
    }

    /** Record a complete calibration; one that fails ends the campaign. */
    method SettleCalibration() returns (r: Option<Outcome>, wrote: bool)
      requires Valid() && !Ended(Now())
      modifies this`calibration, this`clock, this`looks, this`fuel, this`past, journal
      ensures Valid() && clock >= old(clock) && Grew(old(Disk()), Disk())
      ensures looks >= old(looks) && (if r.Some? then Spent(old(fuel), fuel, 3, r.value) else Spent(old(fuel), fuel, 1, Done))
      ensures r.None? ==> journal.records == old(journal.records) && Now() == old(Now())
      ensures r.None? && wrote ==> old(calibration).None? && Disk().Calibrated()
      ensures r.None? && !wrote ==> Disk() == old(Disk()) && (calibration.Some? ==> Disk().Calibrated())
      ensures r.Some? ==> r.value == Died || (r.value == Done && Ended(Now()))
      ensures r == Some(Done) ==> Explained(f, results, world, old(Disk()), Disk(), old(looks), looks, clock)
    {
      hide Kept, Punctual, Traced, Authorised, Grew, Explained, Hindered, SomeBroken, ControlsPass;
      var outcome: Outcome;
      outcome, wrote := ReconcileRawCalibration();
      if outcome == Done {
        return None, wrote;
      }
      ghost var recorded, read := Disk(), looks;
      HinderedHere(f, results, world, old(Disk()), recorded, old(looks), read);
      outcome := EndOnFailure(outcome);
      GrowthIsReflexive(old(Disk()));
      GrowthIsTransitive(old(Disk()), recorded, Disk());
      HinderedExplains(f, results, world, old(Disk()), old(Disk()), recorded, Disk(), old(looks), old(looks), read, looks, clock);
      return Some(outcome), wrote;
    }

    /** Turn raw-complete cells and controls into controller truth, without launching anything. */
    method Reconcile(m: Machine, prefix: seq<Arm>) returns (r: Option<Outcome>)
      requires Valid() && Reads(m, Now()) && !Ended(Now())
      requires if IsPair(m) then PendingPrefix(raw, m, prefix) else prefix == []
      modifies this`calibration, this`clock, this`looks, this`fuel, this`past, journal
      ensures Valid() && clock >= old(clock) && Grew(old(Disk()), Disk())
      ensures looks >= old(looks) && Spent(old(fuel), fuel, 6, if r.Some? then r.value else Done)
      ensures r == Some(Done) && EndedInFailure(Now()) ==> Explained(f, results, world, old(Disk()), Disk(), old(looks), looks, clock)
      ensures r.None? ==> !Ended(Now()) && (calibration.Some? ==> Disk().Calibrated() && Now().Campaign?)
      ensures r.None? ==> Left(f, Disk()) == Left(f, old(Disk())) && (Now().Unstarted? ==> old(Now()).Unstarted?)
      ensures r.Some? ==> r.value == Done || r.value == Died
      ensures r == Some(Done) && Begun(old(Disk())) ==> Left(f, Disk()) < Left(f, old(Disk())) && Now().Campaign?
    {
      hide Kept, Punctual, Traced, Authorised, Grew, Left, Reads, PendingPrefix, Begun, Explained, SameStage;
      r := SettlePair(m, prefix);
      FinishedLeavesLess(f, results, old(Disk()), Disk());
      if r.Some? {
        return;
      }
      ghost var indexed, read := Disk(), looks;
      IndexingLeavesSame(f, old(Disk()), indexed);
      var wrote: bool;
      r, wrote := SettleCalibration();
      GrowthIsTransitive(old(Disk()), indexed, Disk());
      FinishedLeavesLess(f, results, old(Disk()), Disk());
      ExplainedSince(f, results, world, old(Disk()), indexed, Disk(), old(looks), read, looks, clock);
      if r.Some? {
        return;
      }
      ghost var recorded := Disk();
      BegunBeforeCalibration(f, results, old(Disk()), recorded, wrote);
      if journal.records == [] && calibration.Some? {
        var outcome := AppendCampaignStarted();
        GrowthIsTransitive(old(Disk()), recorded, Disk());
        return Some(outcome);
      }
      if wrote {
        return Some(Done);
      }
      return None;
    }

    /** Admission, then whatever was admitted. */
    method AdmitAndExecute() returns (r: Outcome, ghost cells: seq<Cell>)
      requires Valid() && !Ended(Now()) && (calibration.Some? ==> Disk().Calibrated() && Now().Campaign?)
      modifies this`raw, this`calibration, this`admissions, this`clock, this`looks, this`fuel, this`past, this`launched, this`instants, journal
      ensures Valid() && clock >= old(clock) && Grew(old(Disk()), Disk())
      ensures Now().Campaign? || raw == old(raw)
      ensures looks >= old(looks) && Spent(old(fuel), fuel, 18, r)
      ensures (r == Done && EndedInFailure(Now())) || r == Paused ==> Explained(f, results, world, old(Disk()), Disk(), old(looks), looks, clock)
      ensures launched == old(launched) + cells && OnePair(cells) && Pristine(cells, old(raw))
      ensures old(GateAsks()) && !world(old(looks)).gateReady ==> r == Paused && cells == [] && Disk() == old(Disk())
      ensures r.Raised? ==> r.failure == Planning && (!Timely(f, Disk()) || !SoundReadings(world))
      ensures r == Done ==> Left(f, Disk()) < Left(f, old(Disk())) && Now().Campaign?
    {
      hide Kept, Punctual, Traced, Authorised, Grew, Left, OnePair, Timely, AdmittedNow, AdmittedCalibration, TargetOf, Explained, GateAsks;
      NothingLaunched(INITIAL, Now(), raw);
      var admitted := AdmitNext();
      if admitted.Some? {
        FinishedLeavesLess(f, results, old(Disk()), Disk());
        return admitted.value, [];
      }
      ghost var permitted, asked := Disk(), looks;
      r, cells := Execute();
      GrowthIsTransitive(old(Disk()), permitted, Disk());
      ExplainedSince(f, results, world, old(Disk()), permitted, Disk(), old(looks), asked, looks, clock);
    }

    /** From an attested, unfinished campaign: settle what is on disk, take the next admission, and run its pair. */
    method Proceed(m: Machine, prefix: seq<Arm>) returns (r: Outcome, ghost cells: seq<Cell>)
      requires Valid() && Reads(m, Now()) && !Ended(Now())
      requires if IsPair(m) then PendingPrefix(raw, m, prefix) else prefix == []
      modifies this`raw, this`calibration, this`admissions, this`clock, this`looks, this`fuel, this`past, this`launched, this`instants, journal
      ensures Valid() && clock >= old(clock) && Grew(old(Disk()), Disk())
      ensures looks >= old(looks) && Spent(old(fuel), fuel, WRITES_PER_INVOCATION, r)
      ensures (r == Done && EndedInFailure(Now())) || r == Paused ==>
                Explained(f, results, world, old(Disk()), Disk(), old(looks), looks, clock)
      ensures Begun(old(Disk())) ==> Begun(Disk())
      ensures launched == old(launched) + cells && OnePair(cells) && Pristine(cells, old(raw))
      ensures r.Raised? ==> r.failure == Planning && (!Timely(f, Disk()) || !SoundReadings(world))
      ensures r == Done && Begun(old(Disk())) ==> Left(f, Disk()) < Left(f, old(Disk())) && Now().Campaign?
    {
      hide Kept, Punctual, Traced, Authorised, Grew, Left, Reads, PendingPrefix, Begun, OnePair, Timely, AdmittedNow, AdmittedCalibration,
           TargetOf, Explained, SoundReadings;
      NothingLaunched(INITIAL, Now(), raw);
      var reconciled := Reconcile(m, prefix);
      BegunStays(f, results, old(Disk()), Disk());
      if reconciled.Some? {
        return reconciled.value, [];
      }
      ghost var ready, readyAt := Disk(), looks;
      r, cells := AdmitAndExecute();
      GrowthIsTransitive(old(Disk()), ready, Disk());
      ExplainedSince(f, results, world, old(Disk()), ready, Disk(), old(looks), readyAt, looks, clock);
      BegunStays(f, results, old(Disk()), Disk());
      StillPristine(old(Disk()), ready, [], cells);
    }

    /**
     One invocation. It writes what the campaign's history calls for next, launches at most the two cells of one
     pair, in order and only if they are pristine, and never rewrites anything; unless it stops early it leaves
     less to do. It refuses to go on only over admission time stamps, malformed host readings, or a recovery
     failure after the campaign has ended.
     */
    method RunCampaign(budget: nat) returns (r: Outcome, ghost cells: seq<Cell>)
      requires Valid()
      modifies this`raw, this`calibration, this`admissions, this`clock, this`looks, this`fuel, this`past, this`launched, this`instants, journal
      ensures Valid() && clock >= old(clock) && Grew(old(Disk()), Disk())
      ensures looks >= old(looks) && Spent(budget, fuel, WRITES_PER_INVOCATION, r)
      ensures !Ended(old(Now())) && ((r == Done && EndedInFailure(Now())) || r == Paused) ==>
                Explained(f, results, world, old(Disk()), Disk(), old(looks), looks, clock)
      ensures Begun(old(Disk())) ==> Begun(Disk())
      ensures launched == old(launched) + cells && OnePair(cells) && Pristine(cells, old(raw)) && LaunchesAllowed()
      ensures r.Raised? ==>
                && r.failure == Planning
                && (!Timely(f, Disk()) || !SoundReadings(world) || (Ended(old(Now())) && world(old(looks)).recovery.Some?))
      ensures Ended(old(Now())) ==> Disk() == old(Disk())
      ensures r == Done && !Ended(old(Now())) && Begun(old(Disk())) ==> Left(f, Disk()) < Left(f, old(Disk())) && Now().Campaign?
    {
      hide Kept, Punctual, Traced, Authorised, Grew, Left, Reads, PendingPrefix, Begun, OnePair, Timely, Attested, AdmittedNow, AdmittedCalibration, TargetOf, Explained, Pristine, SoundReadings, IsPair, Missing;
      cells := [];
      NothingLaunched(INITIAL, Now(), raw);
      KeptIsAttested(f, results, Disk());
      fuel := budget;
      var inspected, m, prefix := Inspect();
      if inspected.Some? {
        FinishedLeavesLess(f, results, old(Disk()), Disk());
        BegunStays(f, results, old(Disk()), Disk());
        LaunchesWithinLimits();
        return inspected.value, [];
      }
      ghost var known, inspectedTo := Disk(), looks;
      r, cells := Proceed(m, prefix);
      ExplainedSince(f, results, world, old(Disk()), known, Disk(), old(looks), inspectedTo, looks, clock);
      LaunchesWithinLimits();
    }

    /**
     Invoke the controller until the campaign ends or an invocation stops short of its work. Given its writes it
     does not die, and whatever made it pause or end in failure happened during the last invocation, from the
     durable state `before` and the look `from` on; otherwise the campaign is completed.
     */
    method RunToEnd(budget: nat) returns (r: Outcome, invocations: nat, ghost before: Store, ghost from: nat)
      requires Valid() && Begun(Disk()) && !Ended(Now())
      modifies this`raw, this`calibration, this`admissions, this`clock, this`looks, this`fuel, this`past, this`launched, this`instants, journal
      ensures Valid() && Grew(old(Disk()), Disk())
      ensures invocations <= Left(f, old(Disk()))
      ensures r == Done ==> Ended(Now())
      ensures r == Died ==> budget < WRITES_PER_INVOCATION
      ensures r.Raised? ==> r.failure == Planning && (!Timely(f, Disk()) || !SoundReadings(world))
      ensures r.Raised? ==> !SoundReadings(world) || !Spaced(world) || !HonestStarts(raw, launched, instants)
      ensures Grew(old(Disk()), before) && Grew(before, Disk())
      ensures (r == Done && Now().ending != Concluded) || r == Paused ==>
                Explained(f, results, world, before, Disk(), from, looks, clock)
    {
      hide Kept, Punctual, Traced, Authorised, Grew, Left, Reads, Begun, OnePair, Timely, Pristine, Explained, HonestStarts, Spaced, SoundReadings;
      GrowthIsReflexive(Disk());
      r, invocations, before, from := Done, 0, Disk(), looks;
      var m := StrictReplay();
      ReadsPhase(m, Now());
      while m.phase != Terminal
        invariant Valid() && Grew(old(Disk()), before) && Grew(before, Disk()) && Grew(old(Disk()), Disk())
        invariant Begun(Disk()) && Reads(m, Now())
        invariant m.phase == Terminal <==> Ended(Now())
        invariant invocations + Left(f, Disk()) <= Left(f, old(Disk())) && r == Done
        invariant EndedInFailure(Now()) ==> Explained(f, results, world, before, Disk(), from, looks, clock)
        decreases Left(f, Disk())
      {
        LeftUntilEnded(f, results, Disk());
        before, from := Disk(), looks;
        ghost var cells: seq<Cell>;
        r, cells := RunCampaign(budget);
        invocations := invocations + 1;
        GrowthIsTransitive(old(Disk()), before, Disk());
        if r != Done {
          HonestRunsAreTimely();
          return;
        }
        CampaignIsBegun(Disk());
        m := StrictReplay();
        ReadsPhase(m, Now());
      }
    }

    /** The admission checks can refuse only over a clock that stands still or a cell that misdates its start. */
    lemma {:induction false} HonestRunsAreTimely()
      requires Valid()
      ensures Spaced(world) && HonestStarts(raw, launched, instants) ==> Timely(f, Disk())
    {
      hide Kept, Punctual, Traced, Authorised, Timely, HonestStarts, Spaced;
      if Spaced(world) && HonestStarts(raw, launched, instants) {
        HonestIsTimely(f, world, results, Disk(), launched, instants);
      }
    }

    /**
     In a favourable world the campaign is completed, if time was left for one more pair, no cell misdated its start,
     and no second cell came too late.
     */
    method RunUnhindered(budget: nat) returns (r: Outcome)
      requires Valid() && Begun(Disk()) && !Ended(Now()) && Favourable(f, results, world) && budget >= WRITES_PER_INVOCATION
      modifies this`raw, this`calibration, this`admissions, this`clock, this`looks, this`fuel, this`past, this`launched, this`instants, journal
      ensures Valid() && Grew(old(Disk()), Disk())
      ensures f.binding.cutoff - clock >= f.binding.requiredRemaining && HonestStarts(raw, launched, instants) ==>
                || (r == Done && Now().Campaign? && Now().ending == Concluded)
                || (looks > 0 && Overdue(Disk(), clock - world(looks - 1).delay))
    {
      hide Kept, Punctual, Traced, Authorised, Grew, Left, Begun, Timely, Hindered, HonestStarts, Favourable, Spaced, Overdue, ClockAhead;
      var invocations: nat;
      ghost var before, from;
      r, invocations, before, from := RunToEnd(budget);
      if f.binding.cutoff - clock >= f.binding.requiredRemaining && HonestStarts(raw, launched, instants) {
        FavourableIsUnhindered(f, results, world, before, Disk(), launched, instants, from, looks, clock);
      }
    }
  }

  /** A new campaign of n proposals ends within 1 + 2n invocations that do their work. */
  lemma {:induction false} WorkAtFirst(f: Frozen)
    ensures Left(f, NOTHING_WRITTEN) == 1 + 2 * |f.proposals| && Begun(NOTHING_WRITTEN)
  {
  }

  /**
   Confluence: two controllers of one frozen campaign, over the same cell results, that both reach completion
   hold the same transitions in the same order, and so the same decisions, wherever either of them crashed and
   whatever else their environments did.
   */
  lemma {:induction false} CompletedJournalsAgree(a: Controller, b: Controller)
    requires a.Valid() && b.Valid() && a.f == b.f && a.results == b.results
    requires a.Now().Campaign? && a.Now().ending == Concluded && b.Now().Campaign? && b.Now().ending == Concluded
    ensures EventsOf(a.journal.records) == EventsOf(b.journal.records)
    ensures DecisionsFrom(map[], EventsOf(a.journal.records)) == DecisionsFrom(map[], EventsOf(b.journal.records))
    ensures ReplayRecords(a.f.policy, a.journal.records).Ok? && ReplayRecords(b.f.policy, b.journal.records).Ok?
    ensures ReplayRecords(a.f.policy, a.journal.records).value.machine == ReplayRecords(b.f.policy, b.journal.records).value.machine
  {
    hide Kept, Punctual, Traced, Authorised, OnTrack, History.Valid, FrozenReplay, ReplayRecords;
    KeptTrack(a.f, a.results, a.Disk());
    KeptTrack(b.f, b.results, b.Disk());
    EmptyIsUnstarted(a.f, a.results, a.Disk());
    EmptyIsUnstarted(b.f, b.results, b.Disk());
    FinishedHistoriesAgree(a.f, a.results, a.Now(), b.Now());
    MachineOf(a.f, a.results, a.Disk());
    MachineOf(b.f, b.results, b.Disk());
  }

  /**
   What a completed campaign promotes: exactly the first proposal of its queue whose two scored pairs pass the gates of
   one mode, after every earlier one failed a gate and was rejected.
   */
  lemma {:induction false} CompletedCampaignPromotes(a: Controller, i: nat)
    requires a.Valid() && a.Now().Campaign? && a.Now().ending == Concluded && i < |a.f.proposals|
    ensures DecidedByGates(a.f, a.results, DecisionsFrom(map[], EventsOf(a.journal.records)), i)
  {
    hide Kept, Punctual, Traced, Authorised, OnTrack, DecidedByGates, History.Events;
    KeptTrack(a.f, a.results, a.Disk());
    EmptyIsUnstarted(a.f, a.results, a.Disk());
    hide History.Valid;
    FirstWinnerIsPromoted(a.f, a.results, a.Now(), i);
  }
}
