/**
 The admission budget (bench/autoresearch_campaign.py): the remaining time that a pair needs before it
 may start, against the timeline that live supervision then enforces. Instants are microseconds.
 */
module Budget {
  import opened Common
  import opened Gates
  import opened Replay
  import opened Scoring
  import opened Campaign
  import Admission
  import Framing
  import Probe
  import Wait

  const START_MARKER_TIMEOUT := 30 * SECOND
  const MEASUREMENT_LIMIT := 1800 * SECOND
  const CLEANUP_LIMIT := 120 * SECOND
  const FINALIZATION_LIMIT := 10 * SECOND
  const AUDIT_RESERVE := 900 * SECOND

  /** All phases of one cell. */
  const CELL_LIMIT := START_MARKER_TIMEOUT + MEASUREMENT_LIMIT + CLEANUP_LIMIT + FINALIZATION_LIMIT

  const PAIR_ADMISSION_REMAINING :=
    2 * MEASUREMENT_LIMIT + 2 * CLEANUP_LIMIT + 2 * START_MARKER_TIMEOUT + CLEANUP_LIMIT + FINALIZATION_LIMIT + AUDIT_RESERVE

  /** The lifecycle of one supervised cell. */
  datatype Span = Span(launched: int, started: int, complete: int, stopped: int, finalized: int)
  {
    /**
     Measurement and cleanup kept their limits by the cell's own markers; the start marker and the whole cell kept
     theirs by a supervisor that may notice a deadline late by `tolerance`.
     */
    predicate Supervised(tolerance: nat) {
      && launched <= started <= launched + START_MARKER_TIMEOUT + tolerance
      && started <= complete <= started + MEASUREMENT_LIMIT
      && complete <= stopped <= complete + CLEANUP_LIMIT
      && stopped <= finalized <= launched + CELL_LIMIT + tolerance
    }
  }

  /** An admitted pair: each controller step takes at most `slack`; the gap is measured when the second cell is due. */
  datatype Timeline = Timeline(observedAt: int, first: Span, due: int, second: Span, slack: nat, tolerance: nat)
  {
    predicate Holds() {
      && first.Supervised(tolerance) && second.Supervised(tolerance)
      && observedAt <= first.launched <= observedAt + slack
      && first.stopped <= due <= first.stopped + GAP_LIMIT
      && first.finalized <= due <= second.launched <= due + slack
    }

    /** What the controller and the supervisor may add to the limits: two launches, a late start and a late end. */
    function Overhead(): nat {
      2 * slack + 2 * tolerance
    }

    /** Time left to the cutoff at the last durable completion. */
    function Reserve(cutoff: int): int {
      cutoff - if Stamp(first.finalized) >= Stamp(second.finalized) then Stamp(first.finalized) else Stamp(second.finalized)
    }
  }

  /** The required remaining time leaves the whole audit reserve to every supervised pair, but for the overhead. */
  lemma {:induction false} AdmissionCoversPair(t: Timeline, cutoff: int)
    requires t.Holds()
    ensures t.Reserve(cutoff) >= cutoff - t.observedAt - PAIR_ADMISSION_REMAINING + AUDIT_RESERVE - t.Overhead()
  {
  }

  /** The slowest supervised pair. */
  function Slowest(observedAt: int): Timeline {
    var first := SlowestSpan(observedAt);
    var due := first.stopped + GAP_LIMIT;
    Timeline(observedAt, first, due, SlowestSpan(due), 0, 0)
  }

  function SlowestSpan(launched: int): Span {
    var started := launched + START_MARKER_TIMEOUT;
    var complete := started + MEASUREMENT_LIMIT;
    var stopped := complete + CLEANUP_LIMIT;
    Span(launched, started, complete, stopped, stopped + FINALIZATION_LIMIT)
  }

  ghost predicate Suffices(required: int) {
    forall t: Timeline, cutoff: int ::
      t.Holds() && t.Overhead() == 0 && cutoff - t.observedAt >= required ==> t.Reserve(cutoff) >= AUDIT_RESERVE
  }

  /**
   The constant is exact: it is the least remaining time that guarantees the audit reserve. The finalization of
   the first cell is not counted, because it falls inside the gap between the cells.
   */
  lemma {:induction false} AdmissionBudgetIsExact(required: int)
    ensures Suffices(required) <==> required >= PAIR_ADMISSION_REMAINING
    ensures PAIR_ADMISSION_REMAINING == 4930 * SECOND
  {
    if required >= PAIR_ADMISSION_REMAINING {
      forall t: Timeline, cutoff: int | t.Holds() && t.Overhead() == 0 && cutoff - t.observedAt >= required
        ensures t.Reserve(cutoff) >= AUDIT_RESERVE
      {
        AdmissionCoversPair(t, cutoff);
      }
    } else {
      var t := Slowest(0);
      assert t.Holds();
      assert t.second.finalized == PAIR_ADMISSION_REMAINING - AUDIT_RESERVE;
      assert Stamp(t.second.finalized) == t.second.finalized;
      assert t.Reserve(required) < AUDIT_RESERVE;
    }
  }

  /** The span of a completed cell, from the nanoseconds of its markers. */
  function SpanOf(p: Probe.Lifecycle, launched: int, finalized: int): Span
    requires p.startedNs.Some? && p.completeNs.Some? && p.stoppedNs.Some?
  {
    Span(launched, p.startedNs.value / 1000, p.completeNs.value / 1000, p.stoppedNs.value / 1000, finalized)
  }

  /** A completed cell whose markers the probe accepts kept its measurement and cleanup limits. */
  lemma {:induction false} ProbedCellIsSupervised(s: Probe.Settings, lines: seq<Framing.Bytes>, launched: int, finalized: int, tolerance: nat)
    requires s.measurementS * SECOND == MEASUREMENT_LIMIT && s.cleanupS * SECOND == CLEANUP_LIMIT
    requires Probe.ParseLines(s, Probe.NOTHING_PARSED, lines).Ok?
    requires var p := Probe.ParseLines(s, Probe.NOTHING_PARSED, lines).value.lifecycle;
             p.startedNs.Some? && p.completeNs.Some? && p.stoppedNs.Some?
    ensures var span := SpanOf(Probe.ParseLines(s, Probe.NOTHING_PARSED, lines).value.lifecycle, launched, finalized);
            span.Supervised(tolerance)
            <==> launched <= span.started <= launched + START_MARKER_TIMEOUT + tolerance
                 && span.stopped <= finalized <= launched + CELL_LIMIT + tolerance
  {
    hide Probe.Seconds, Probe.Distance, Probe.ParseLines;
    Probe.AcceptedWithinBudgets(s, Probe.NOTHING_PARSED, lines);
  }

  /** The frozen limits, as the supervised wait is given them. */
  const LIMITS: Wait.Durations := (phase: Probe.Phase) =>
    match phase
    case Measuring => Some(1800.0)
    case Cleaning => Some(120.0)
    case Finalizing => Some(10.0)

  /** The bound of the supervised wait under these limits is that of one cell, with a tolerance of 0.03 s and sixteen lags. */
  lemma {:induction false} WaitKeepsCellLimit(lag: real)
    requires lag >= 0.0
    ensures 30.0 + Wait.Granted(LIMITS, lag, 2) + 4.0 * lag == CELL_LIMIT as real / SECOND as real + 0.03 + 16.0 * lag
  {
  }

  /** Durable journals of a supervised pair, in execution order. */
  predicate Recorded(t: Timeline, first: CellJournal, second: CellJournal) {
    && first.Finished? && second.Finished?
    && first.completedAt == Stamp(t.first.finalized) && second.completedAt == Stamp(t.second.finalized)
    && first.projection.measurementS <= CELL_TIMEOUT_S && first.projection.cleanupS <= CLEANUP_TIMEOUT_S
    && second.projection.measurementS <= CELL_TIMEOUT_S && second.projection.cleanupS <= CLEANUP_TIMEOUT_S
  }

  /**
   A pair that was admitted and ran within its live limits fails no timing budget when it is scored, whichever arm
   ran first, unless the overhead ate into the audit reserve: the admission constant, the supervision deadlines and
   the score's budgets fit together.
   */
  lemma {:induction false} AdmittedPairFailsNoBudget(f: Frozen, n: int, t: Timeline, champion: CellJournal, candidate: CellJournal,
                                  memory: int, swap: int, harness: string, files: int)
    requires f.policy.primaryCaseIds != [] && f.binding.cutoff == f.cutoff
    requires f.binding.requiredRemaining == PAIR_ADMISSION_REMAINING
    requires var o := Admission.Observe(f.binding, t.observedAt, memory, swap, harness, files);
             o.Some? && o.value.outcome == Admission.Admitted
    requires t.Holds()
    requires if PairOrder(n)[0] == Champion then Recorded(t, champion, candidate) else Recorded(t, candidate, champion)
    ensures Score(f, n, champion, candidate).Some? ==>
              var failed := Score(f, n, champion, candidate).value.timing.FailedBudgets();
              && (failed == [] || (failed == [AuditReserve] && t.Reserve(f.cutoff) < AUDIT_RESERVE))
              && (f.cutoff - t.observedAt >= PAIR_ADMISSION_REMAINING + t.Overhead() ==> failed == [])
              && (t.Overhead() == 0 ==> failed == [])
  {
    AdmissionCoversPair(t, f.cutoff);
    assert f.cutoff - t.observedAt >= PAIR_ADMISSION_REMAINING;
    var reserve, left := ReserveS(f, champion, candidate), t.Reserve(f.cutoff);
    assert reserve == if left <= 0 then 0.0 else left as real / SECOND as real;
    assert left >= AUDIT_RESERVE ==> left as real / SECOND as real >= AUDIT_RESERVE as real / SECOND as real;
    hide CaseRatios, Median, Admission.Observe;
  }
}
