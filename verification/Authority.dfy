/**
 What allows a cell to be launched: each launched cell belongs to the pair of an admission that was
 taken before it, and whose readings met every limit of the campaign.
 */
module Authority {
  import opened Common
  import opened Gates
  import opened Replay
  import opened History
  import opened Scoring
  import opened Campaign
  import opened Script
  import opened Ledger
  import opened Provenance
  import opened Durable
  import opened Steps
  import opened Coverage
  import Admission

  /** An admitted record for the pair of this cell. */
  predicate Authorises(a: Admission.Record, cell: Cell) {
    && a.body.observation.outcome == Admission.Admitted
    && match cell
       case Search(c, stage, _) => a.body.target.kind == KindOf(stage) && a.body.target.candidateId == c
       case _ => a.body.target.kind == Admission.Calibration
  }

  /** Some admission of the cell's pair was taken by this time. */
  ghost predicate AuthorisedBy(admissions: Admissions, cell: Cell, instant: int) {
    exists a :: a in admissions && Authorises(a, cell) && a.body.observation.observedAt <= instant
  }

  /** A running pair was admitted, whichever of its arms are still to come. */
  ghost predicate RunningAuthorised(admissions: Admissions, h: History) {
    h.Campaign? && h.open.Running? ==>
      exists a :: a in admissions && a.body.observation.outcome == Admission.Admitted
                  && a.body.target.kind == KindOf(StageOf(h.open)) && a.body.target.candidateId == h.open.header.candidateId
  }

  ghost predicate Authorised(admissions: Admissions, launched: seq<Cell>, instants: seq<int>, h: History) {
    && |launched| == |instants|
    && (forall k :: 0 <= k < |launched| ==> AuthorisedBy(admissions, launched[k], instants[k]))
    && RunningAuthorised(admissions, h)
  }

  lemma {:induction false} NothingIsAuthorised()
    ensures Authorised([], [], [], Unstarted)
  {
  }

  /** A transition starts a pair only if it was admitted. */
  lemma {:induction false} AuthorisedAppend(f: Frozen, results: Results, d: Store, e: Event, launched: seq<Cell>, instants: seq<int>)
    requires |d.past| == |d.records| + 1 && f.Valid() && OnTrack(f, results, d.Current())
    requires Driven(f, results, d.raw, d.Current(), e) && Permitted(f, d, e)
    requires d.Current().Campaign? && d.Current().open.Nothing? && Advances(e) ==> e.CandidateStarted?
    requires Authorised(d.admissions, launched, instants, d.Current())
    ensures Authorised(d.admissions, launched, instants, Extend(d.Current(), e))
  {
    hide AuthorisedBy, OnTrack, TargetOf, Driven, Extend, Advances, Frozen.Valid;
    var h := d.Current();
    StartsMatchTarget(f, results, d.raw, h, e);
    RunningExtends(f, results, d.raw, h, e);
    if e.PairStarted? && h.Campaign? {
      var a :| a in d.admissions && AdmittedFor(f, a, |d.records|, d.past);
      assert a.body.target == Admission.Target(KindOf(StageOf(h.open)), e.candidateId, e.pairIndex);
    }
  }

  lemma {:induction false} AuthorisedTransition(f: Frozen, results: Results, d: Store, e: Event, launched: seq<Cell>, instants: seq<int>)
    requires Kept(f, results, d) && Driven(f, results, d.raw, d.Current(), e) && Permitted(f, d, e)
    requires d.Current().Campaign? && d.Current().open.Nothing? && Advances(e) ==> e.CandidateStarted?
    requires Authorised(d.admissions, launched, instants, d.Current())
    ensures Authorised(d.admissions, launched, instants, Extend(d.Current(), e))
  {
    KeptTrack(f, results, d);
    hide *;
    AuthorisedAppend(f, results, d, e, launched, instants);
  }

  /** A running pair was running before, or its start is this transition. */
  lemma {:induction false} RunningExtends(f: Frozen, results: Results, raw: Raw, h: History, e: Event)
    requires f.Valid() && Driven(f, results, raw, h, e)
    requires h.Campaign? && h.open.Nothing? && Advances(e) ==> e.CandidateStarted?
    ensures var g := Extend(h, e);
            g.Campaign? && g.open.Running? ==>
              && h.Campaign? && !h.open.Nothing? && StageOf(g.open) == StageOf(h.open) && g.open.header == h.open.header
              && (h.open.Running? || (e.PairStarted? && e.candidateId == h.open.header.candidateId))
  {
    hide IsSafeId, IsSha256, Header.Valid, PairsOf, PairOrder, PairResult, FirstVerdict, FinalVerdict, Exhausted,
         Timing.FailedBudgets, Frozen.Valid;
  }

  /** A launch extends the list of launched cells by a cell of an admitted pair. */
  lemma {:induction false} AuthorisedLaunch(d: Store, cell: Cell, launched: seq<Cell>, instants: seq<int>, instant: int)
    requires d.past != [] && Launchable(d, cell) && Authorised(d.admissions, launched, instants, d.Current())
    requires forall a :: a in d.admissions ==> a.body.observation.observedAt <= instant
    ensures Authorised(d.admissions, launched + [cell], instants + [instant], d.Current())
  {
    hide PairsOf;
    match cell
    case Search(_, _, _) =>
      var h := d.Current();
      var a :| a in d.admissions && a.body.observation.outcome == Admission.Admitted
               && a.body.target.kind == KindOf(StageOf(h.open)) && a.body.target.candidateId == h.open.header.candidateId;
      assert Authorises(a, cell);
    case _ =>
      var a :| a in d.admissions && IsAdmittedCalibration(a);
      assert Authorises(a, cell);
  }

  lemma {:induction false} AuthorisedAttempt(f: Frozen, results: Results, d: Store, cell: Cell, launched: seq<Cell>, instants: seq<int>, instant: int)
    requires Kept(f, results, d) && Launchable(d, cell) && Authorised(d.admissions, launched, instants, d.Current())
    requires ClockAhead(d.admissions, instant)
    ensures Authorised(d.admissions, launched + [cell], instants + [instant], d.Current())
  {
    hide Launchable, Authorised;
    AdmissionsChain(f, results, d);
    hide Kept;
    AdmissionsBefore(d.admissions, f.binding, d.records, instant);
    AuthorisedLaunch(d, cell, launched, instants, instant);
  }

  lemma {:induction false} AuthorisedAdmission(admissions: Admissions, a: Admission.Record, launched: seq<Cell>, instants: seq<int>, h: History)
    requires Authorised(admissions, launched, instants, h)
    ensures Authorised(admissions + [a], launched, instants, h)
  {
    assert forall x :: x in admissions ==> x in admissions + [a];
  }

  /** A launched cell, and the admission that allowed it: admitted within every limit, before the launch. */
  ghost predicate AllowedWithin(b: Admission.Binding, admissions: Admissions, cell: Cell, instant: int) {
    exists a :: a in admissions && Authorises(a, cell) && a.body.observation.observedAt <= instant
                && Admission.WithinLimits(b, a.body.observation)
  }

  lemma {:induction false} AuthorisedWithinLimits(f: Frozen, results: Results, d: Store, cell: Cell, instant: int)
    requires Kept(f, results, d) && AuthorisedBy(d.admissions, cell, instant)
    ensures AllowedWithin(f.binding, d.admissions, cell, instant)
  {
    hide Sound, Topology, CalibrationKept, Attributed, Remembered, Admission.ValidChain, Admission.WithinLimits;
    var a :| a in d.admissions && Authorises(a, cell) && a.body.observation.observedAt <= instant;
    var i :| 0 <= i < |d.admissions| && d.admissions[i] == a;
    Admission.AdmittedWithinLimits(d.admissions, f.binding, d.records, i);
  }
}
