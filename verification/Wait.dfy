/**
 The supervised wait of bench/autoresearch_worker.py: a loop over the clock, the lifecycle probe and
 the child process. Whatever the probe reports and however the child behaves, the loop returns, and
 by a fixed time.
 */
module Wait {
  import opened Common
  import opened Probe

  datatype Return = Exited(code: int) | TimedOut(phase: Phase) | Failed(fault: Fault) | DeadlineInvalid

  /** The frozen duration of each phase; an absent or negative one is refused. */
  type Durations = Phase -> Option<real>

  const TOLERANCE := 0.01

  function RankOf(p: Option<WorkerProgress>): int {
    if p.None? then -1 else p.value.phase.Rank()
  }

  function Share(d: Option<real>): real {
    TOLERANCE + if d.Some? && d.value >= 0.0 then d.value else 0.0
  }

  /** Time that may have been granted once phases up to `rank` have been seen. */
  function Granted(durations: Durations, lag: real, rank: int): real {
    (if rank >= 0 then Share(durations(Measuring)) + 4.0 * lag else 0.0)
    + (if rank >= 1 then Share(durations(Cleaning)) + 4.0 * lag else 0.0)
    + (if rank >= 2 then Share(durations(Finalizing)) + 4.0 * lag else 0.0)
  }

  /** The validated deadline of a report, or the start marker's. */
  function DeadlineOf(p: Option<WorkerProgress>, start: real): real {
    if p.None? then start else p.value.deadline
  }

  /** The phase that a timeout is charged to. */
  function PhaseOf(p: Option<WorkerProgress>): Phase {
    if p.None? then Measuring else p.value.phase
  }

  /** A deadline beyond what its phase may grant, or a phase without a duration. */
  predicate Refusable(p: Option<WorkerProgress>, durations: Durations, now: real) {
    p.Some? && var d := durations(p.value.phase);
               d.None? || d.value < 0.0 || p.value.deadline > now + d.value + TOLERANCE
  }

  lemma {:induction false} ValidatedMoves(value: Option<WorkerProgress>, previous: Option<WorkerProgress>)
    requires Validated(value, previous).Ok?
    ensures Validated(value, previous).value == value && RankOf(value) >= RankOf(previous)
    ensures RankOf(value) == RankOf(previous) ==> value == previous
  {
  }

  /** Each phase seen for the first time grants at most its own duration, its tolerance and the lag around it. */
  lemma {:induction false} PhaseGrants(durations: Durations, lag: real, before: int, phase: Phase)
    requires lag >= 0.0 && -1 <= before < phase.Rank()
    ensures Granted(durations, lag, before) + Share(durations(phase)) + 4.0 * lag <= Granted(durations, lag, phase.Rank())
  {
  }

  lemma {:induction false} ShareIs(d: Option<real>)
    requires d.Some? && d.value >= 0.0
    ensures Share(d) == d.value + TOLERANCE
  {
  }

  lemma {:induction false} GrantedGrows(durations: Durations, lag: real, rank: int)
    requires lag >= 0.0 && rank <= 2
    ensures 0.0 <= Granted(durations, lag, rank) <= Granted(durations, lag, 2)
    ensures rank < 0 ==> Granted(durations, lag, rank) == 0.0
  {
  }

  /** Waits that remain before a deadline. */
  function Waits(now: real, deadline: real, poll: real): nat
    requires poll > 0.0
  {
    if now < deadline then Quotient(now, deadline, poll).Floor + 1 else 0
  }

  function Quotient(now: real, deadline: real, poll: real): (q: real)
    requires poll > 0.0
    ensures q * poll == deadline - now
    ensures now < deadline ==> q >= 0.0
  {
    var q := (deadline - now) / poll;
    assert q * poll == deadline - now;
    assert q < 0.0 ==> q * poll < 0.0;
    q
  }

  lemma {:induction false} WaitsShrink(now: real, later: real, deadline: real, poll: real)
    requires poll > 0.0 && now <= later
    ensures Waits(later, deadline, poll) <= Waits(now, deadline, poll)
    ensures now < deadline && (later >= now + poll || later >= deadline)
            ==> Waits(later, deadline, poll) < Waits(now, deadline, poll)
  {
    if later < deadline {
      var a, b := Quotient(now, deadline, poll), Quotient(later, deadline, poll);
      assert (a - b) * poll == later - now;
      NotBelow(a - b, 0.0, poll);
      if later >= now + poll {
        NotBelow(a - b, 1.0, poll);
      }
    }
  }

  lemma {:induction false} NotBelow(x: real, bound: real, scale: real)
    requires scale > 0.0 && x * scale >= bound * scale
    ensures x >= bound
  {
    assert (x - bound) * scale >= 0.0;
  }

  /** The time and the deadline granted so far; `seen` is the last phase whose deadline was checked. */
  ghost predicate OnSchedule(now: real, seen: int, p: Option<WorkerProgress>, start: real, durations: Durations, lag: real) {
    && -1 <= seen <= RankOf(p)
    && (seen == RankOf(p) ==> DeadlineOf(p, start) <= start + Granted(durations, lag, seen))
    && now <= start + Granted(durations, lag, seen) + if seen == RankOf(p) then lag else 3.0 * lag
  }

  lemma {:induction false} ScheduleStarts(now: real, start: real, durations: Durations, lag: real)
    requires now <= start && lag >= 0.0
    ensures OnSchedule(now, -1, None, start, durations, lag)
  {
    GrantedGrows(durations, lag, -1);
  }

  /** After a probe whose report was accepted, its phase counts. */
  lemma {:induction false} ScheduleProbed(now: real, later: real, seen: int, p: Option<WorkerProgress>, q: Option<WorkerProgress>,
                                          start: real, durations: Durations, lag: real)
    requires OnSchedule(now, seen, p, start, durations, lag) && lag >= 0.0 && now <= later <= now + lag
    requires RankOf(q) >= RankOf(p) && (RankOf(q) == RankOf(p) ==> q == p)
    requires !Refusable(q, durations, later)
    ensures DeadlineOf(q, start) <= start + Granted(durations, lag, RankOf(q))
    ensures later <= start + Granted(durations, lag, RankOf(q)) + 2.0 * lag <= start + Granted(durations, lag, 2) + 2.0 * lag
    ensures -1 <= RankOf(q) <= 2
  {
    hide Granted, Share;
    GrantedGrows(durations, lag, seen);
    GrantedGrows(durations, lag, RankOf(q));
    if seen < RankOf(q) {
      ShareIs(durations(q.value.phase));
      PhaseGrants(durations, lag, seen, q.value.phase);
    }
  }

  lemma {:induction false} ScheduleMoves(now: real, later: real, seen: int, q: Option<WorkerProgress>,
                                         start: real, durations: Durations, lag: real)
    requires -1 <= seen < RankOf(q) && later <= now + lag && now <= start + Granted(durations, lag, seen) + 2.0 * lag
    ensures OnSchedule(later, seen, q, start, durations, lag)
  {
  }

  lemma {:induction false} ScheduleWaits(now: real, p: Option<WorkerProgress>, start: real, durations: Durations, lag: real)
    requires DeadlineOf(p, start) <= start + Granted(durations, lag, RankOf(p)) && now <= DeadlineOf(p, start) + lag
    ensures OnSchedule(now, RankOf(p), p, start, durations, lag)
  {
  }

  /** However the probe ends, it is not late. */
  lemma {:induction false} ScheduleEnds(now: real, later: real, seen: int, p: Option<WorkerProgress>,
                                        start: real, durations: Durations, lag: real)
    requires OnSchedule(now, seen, p, start, durations, lag) && lag >= 0.0 && later <= now + lag
    ensures later <= start + Granted(durations, lag, 2) + 4.0 * lag
    ensures p.None? ==> now <= start + lag
    ensures RankOf(p) <= 2
  {
    GrantedGrows(durations, lag, seen);
    GrantedGrows(durations, lag, -1);
  }

  function Latest(a: real, b: real): real {
    if a >= b then a else b
  }

  lemma {:induction false} LatestIs(a: real, b: real)
    ensures Latest(a, b) >= a && Latest(a, b) >= b && (Latest(a, b) == a || Latest(a, b) == b)
  {
  }

  /** The phase that is active in a lifecycle has not used up its own budget, and its marker is not in the future. */
  ghost predicate Healthy(s: Settings, p: Lifecycle, t: real, start: real) {
    var ns := t * 1000000000.0;
    if p.stoppedNs.Some? then Within(p.stoppedNs.value, ns, s.finalizationS)
    else if p.completeNs.Some? then Within(p.completeNs.value, ns, s.cleanupS)
    else if p.startedNs.Some? then Within(p.startedNs.value, ns, s.measurementS)
    else t < start
  }

  predicate Within(marker: int, ns: real, budgetS: nat) {
    marker as real <= ns < (marker + 1000000000 * budgetS) as real
  }

  /** The supervisor grants the budgets that the probe uses. */
  ghost predicate Grants(s: Settings, durations: Durations) {
    && durations(Measuring) == Some(s.measurementS as real)
    && durations(Cleaning) == Some(s.cleanupS as real)
    && durations(Finalizing) == Some(s.finalizationS as real)
  }

  lemma {:induction false} HealthyHasTime(s: Settings, p: Lifecycle, t: real, start: real)
    requires Healthy(s, p, t, start)
    ensures t < DeadlineOf(Report(s, p), start)
  {
  }

  lemma {:induction false} HealthyIsNotRefused(s: Settings, p: Lifecycle, t: real, now: real, start: real, durations: Durations)
    requires Healthy(s, p, t, start) && Grants(s, durations) && t <= now
    ensures !Refusable(Report(s, p), durations, now)
  {
  }

  /** One probe: its step, and the time at which it began. */
  datatype ProbeAt = ProbeAt(step: nat, began: real)

  class Supervisor {
    const probe: nat -> Result<Option<WorkerProgress>, Fault>  // what the k-th probe reports
    const exits: nat -> Option<int>                            // whether the k-th wait ends in an exit
    const early: nat -> real                                   // and how soon
    const lags: nat -> real                                    // extra time of the k-th step
    const lag: real
    var now: real
    var step: nat
    var progress: Option<WorkerProgress>                       // the last observed report
    ghost var probes: seq<ProbeAt>                             // every probe so far

    constructor (probe: nat -> Result<Option<WorkerProgress>, Fault>, exits: nat -> Option<int>, early: nat -> real,
                 lags: nat -> real, lag: real, now: real)
      requires forall k: nat :: 0.0 <= lags(k) <= lag
      ensures Valid() && this.now == now && this.lag == lag && this.progress.None? && probes == []
    {
      this.probe, this.exits, this.early, this.lags, this.lag, this.now := probe, exits, early, lags, lag, now;
      step, progress, probes := 0, None, [];
      new;
      assert 0.0 <= lags(0) <= lag;
    }

    ghost predicate Valid()
      reads this
    {
      lag >= 0.0 && forall k: nat :: 0.0 <= lags(k) <= lag
    }

    /** The k-th probe failed, or its report contradicts the last observed one. */
    predicate Refused(fault: Fault, k: nat)
      reads this
    {
      probe(k) == Err(fault) || (probe(k).Ok? && Validated(probe(k).value, progress) == Err(fault))
    }

    /** The k-th probe reported a marker. */
    predicate Reports(k: nat) {
      probe(k).Ok? && probe(k).value.Some?
    }

    /** Some probe that began by the given time reported a marker. */
    ghost predicate ReportedBy(log: seq<ProbeAt>, time: real) {
      exists k :: 0 <= k < |log| && log[k].began <= time && Reports(log[k].step)
    }

    lemma {:induction false} ReportStays(log: seq<ProbeAt>, p: ProbeAt, time: real)
      ensures ReportedBy(log, time) || (p.began <= time && Reports(p.step)) ==> ReportedBy(log + [p], time)
    {
      assert (log + [p])[|log|] == p;
      if k :| 0 <= k < |log| && log[k].began <= time && Reports(log[k].step) {
        assert (log + [p])[k] == log[k];
      }
    }

    /** The last probe was before this step, and what it reported is the observed progress. */
    ghost predicate Observed()
      reads this
    {
      && (probes == [] ==> progress.None?)
      && (probes != [] ==> Last().step < step && Last().began <= now && probe(Last().step) == Ok(progress))
    }

    ghost function Last(): ProbeAt
      reads this
      requires probes != []
    {
      probes[|probes| - 1]
    }

    /** The next probe begins at most `gap` after this one. */
    ghost predicate Spaced(log: seq<ProbeAt>, gap: real) {
      forall k :: 0 < k < |log| ==> log[k].step > log[k - 1].step && log[k - 1].began <= log[k].began <= log[k - 1].began + gap
    }

    /** Why the wait ends. */
    ghost predicate Explains(r: Return, durations: Durations, start: real)
      reads this
    {
      match r
      case Exited(code) => step > 0 && exits(step - 1) == Some(code)
      // two probes in a row report the phase, the second begun at its deadline, and the child has not exited since
      case TimedOut(phase) =>
        && phase == PhaseOf(progress) && |probes| >= 2
        && probe(probes[|probes| - 2].step) == probe(Last().step) == Ok(progress)
        && Last().began >= DeadlineOf(progress, start) && forall j :: Last().step < j < step ==> exits(j).None?
      // the last probe failed or contradicts the one before it
      case Failed(fault) =>
        && probes != [] && step == Last().step + 1 && Refused(fault, Last().step)
        && (if |probes| == 1 then progress.None? else probe(probes[|probes| - 2].step) == Ok(progress))
      case DeadlineInvalid =>
        && probes != [] && step == Last().step + 1 && probe(Last().step) == Ok(progress)
        && Last().began <= now && Refusable(progress, durations, now)
    }

    /** The first of the probes in a row that report this. */
    ghost predicate FirstSight(log: seq<ProbeAt>, p: Option<WorkerProgress>, k: int) {
      0 <= k < |log| && probe(log[k].step) == Ok(p) && (k > 0 ==> probe(log[k - 1].step) != Ok(p))
    }

    /** What the log tells of the observed progress: since when it is reported, and that the probes are close together. */
    ghost predicate Tells(log: seq<ProbeAt>, p: Option<WorkerProgress>, since: real, start: real, gap: real) {
      && (if log == [] then p.None? else probe(log[|log| - 1].step) == Ok(p))
      && Spaced(log, gap)
      && (if p.None? then since == start
          else ReportedBy(log, start + 2.0 * lag) && exists k :: FirstSight(log, p, k) && log[k].began == since)
    }

    /** The next probe comes after the last and within the gap. */
    predicate Follows(log: seq<ProbeAt>, next: ProbeAt, gap: real) {
      log != [] ==> next.step > log[|log| - 1].step && log[|log| - 1].began <= next.began <= log[|log| - 1].began + gap
    }

    lemma {:induction false} TellsNothing(start: real, gap: real)
      ensures Tells([], None, start, start, gap)
    {
    }

    lemma {:induction false} TellsMore(log: seq<ProbeAt>, p: Option<WorkerProgress>, since: real, start: real, gap: real,
                                       next: ProbeAt, q: Option<WorkerProgress>)
      requires Tells(log, p, since, start, gap) && Follows(log, next, gap)
      requires probe(next.step) == Ok(q) && (q.None? ==> p.None?)
      requires p.None? ==> next.began <= start + 2.0 * lag
      ensures Tells(log + [next], q, if q == p then since else next.began, start, gap)
    {
      var more := log + [next];
      SpacedGrows(log, next, gap);
      ReportStays(log, next, start + 2.0 * lag);
      hide Spaced, ReportedBy;
      if q != p {
        assert FirstSight(more, q, |log|) && more[|log|].began == next.began;
      } else if p.Some? {
        var k :| FirstSight(log, p, k) && log[k].began == since;
        assert FirstSight(more, q, k) && more[k].began == since;
      }
    }

    /** What the log still tells when the last probe failed or the wait ends after it. */
    ghost predicate Tried(since: real, start: real, gap: real)
      reads this`probes, this`progress
    {
      && Spaced(probes, gap)
      && (progress.Some? ==>
            ReportedBy(probes, start + 2.0 * lag) && exists k :: FirstSight(probes, progress, k) && probes[k].began == since)
    }

    lemma {:induction false} TellsFault(log: seq<ProbeAt>, p: Option<WorkerProgress>, since: real, start: real, gap: real, next: ProbeAt)
      requires Tells(log, p, since, start, gap) && Follows(log, next, gap)
      requires probes == log + [next] && progress == p
      ensures Tried(since, start, gap)
    {
      SpacedGrows(log, next, gap);
      ReportStays(log, next, start + 2.0 * lag);
      hide Spaced, ReportedBy;
      if p.Some? {
        var k :| FirstSight(log, p, k) && log[k].began == since;
        assert FirstSight(probes, p, k) && probes[k].began == since;
      }
    }

    lemma {:induction false} TellsTried(since: real, start: real, gap: real)
      requires Tells(probes, progress, since, start, gap)
      ensures Tried(since, start, gap)
    {
    }

    lemma {:induction false} ExplainExit(code: int, durations: Durations, start: real)
      requires step > 0 && exits(step - 1) == Some(code)
      ensures Explains(Exited(code), durations, start)
    {
    }

    lemma {:induction false} ExplainInvalid(durations: Durations, start: real)
      requires Observed() && probes != [] && step == Last().step + 1 && Refusable(progress, durations, now)
      ensures Explains(DeadlineInvalid, durations, start)
    {
    }

    lemma {:induction false} SpacedGrows(log: seq<ProbeAt>, p: ProbeAt, gap: real)
      requires Spaced(log, gap)
      requires log != [] ==> p.step > log[|log| - 1].step && log[|log| - 1].began <= p.began <= log[|log| - 1].began + gap
      ensures Spaced(log + [p], gap)
    {
    }

    /** Probe, and validate the report against the last one. */
    method ProbeNow(ghost durations: Durations, ghost start: real) returns (r: Result<Option<WorkerProgress>, Fault>)
      requires Valid() && Observed()
      modifies this`now, this`step, this`progress, this`probes
      ensures Valid() && old(now) <= now <= old(now) + lag && step == old(step) + 1
      ensures probes == old(probes) + [ProbeAt(old(step), old(now))]
      ensures r.Err? ==> progress == old(progress) && Explains(Failed(r.error), durations, start)
      ensures r.Ok? ==> Observed() && progress == r.value && RankOf(progress) >= RankOf(old(progress))
      ensures r.Ok? && RankOf(progress) == RankOf(old(progress)) ==> progress == old(progress)
      ensures r.Ok? ==> probe(old(step)) == Ok(progress)
    {
      probes := probes + [ProbeAt(step, now)];
      assert |probes| > 1 ==> probes[|probes| - 2] == old(probes)[|old(probes)| - 1];
      var reported := probe(step);
      now, step := now + lags(step), step + 1;
      if reported.Err? {
        return reported;
      }
      r := Validated(reported.value, progress);
      if r.Ok? {
        ValidatedMoves(reported.value, progress);
        progress := r.value;
      }
    }

    /** Wait for the child: an exit within the timeout, or the whole timeout and a little more. */
    method WaitFor(timeout: real) returns (code: Option<int>)
      requires Valid() && timeout >= 0.0
      modifies this`now, this`step
      ensures Valid() && old(now) <= now <= old(now) + timeout + lag && step == old(step) + 1
      ensures code == exits(old(step))
      ensures code.None? ==> now >= old(now) + timeout
      ensures old(Observed()) ==> Observed()
    {
      code := exits(step);
      var spent := if code.Some? && 0.0 <= early(step) <= timeout then early(step) else timeout;
      now, step := now + spent + lags(step), step + 1;
    }

    /** Between two turns of the loop; `seen` is the last phase whose deadline was checked. */
    ghost predicate Running(durations: Durations, seen: int, since: real, start: real, gap: real)
      reads this
    {
      && Observed() && Tells(probes, progress, since, start, gap)
      && OnSchedule(now, seen, progress, start, durations, lag)
      && (probes != [] ==> now <= Last().began + gap)
      && now <= Latest(DeadlineOf(progress, start), since) + lag
    }

    lemma {:induction false} Starts(durations: Durations, start: real, gap: real)
      requires Valid() && probes == [] && progress.None? && now <= start
      ensures Running(durations, -1, start, start, gap)
    {
      ScheduleStarts(now, start, durations, lag);
      TellsNothing(start, gap);
    }

    /** After a probe whose report was accepted. */
    ghost predicate Probed(durations: Durations, since: real, start: real, gap: real)
      reads this
    {
      && Observed() && Tells(probes, progress, since, start, gap)
      && DeadlineOf(progress, start) <= start + Granted(durations, lag, RankOf(progress))
      && now <= start + Granted(durations, lag, RankOf(progress)) + 2.0 * lag <= start + Granted(durations, lag, 2) + 2.0 * lag
      && probes != [] && now <= Last().began + lag
      && now <= Latest(DeadlineOf(progress, start), since) + 2.0 * lag
    }

    /**
     How the wait ends: for an explained reason, within the whole time granted, soon after the last probe and, if
     timed out, soon after the deadline or the first report of the phase.
     */
    ghost predicate Ends(r: Return, durations: Durations, since: real, start: real, gap: real)
      reads this
    {
      && Explains(r, durations, start) && Tried(since, start, gap)
      && now <= start + Granted(durations, lag, 2) + 4.0 * lag
      && probes != [] && now <= Last().began + gap
      && (r.TimedOut? ==> now <= Latest(DeadlineOf(progress, start), since) + 4.0 * lag)
    }

    /** Probe, and keep what the log tells; `sighted` is when the new progress was first reported. */
    method Look(ghost durations: Durations, ghost seen: int, ghost since: real, ghost start: real, ghost gap: real)
        returns (r: Result<Option<WorkerProgress>, Fault>, ghost sighted: real)
      requires Valid() && Running(durations, seen, since, start, gap) && gap >= 2.0 * lag
      modifies this`now, this`step, this`progress, this`probes
      ensures Valid() && old(now) <= now && step > old(step)
      ensures r.Err? ==> Ends(Failed(r.error), durations, sighted, start, gap)
      ensures r.Ok? ==> RankOf(old(progress)) <= RankOf(progress) <= 2
      ensures r.Ok? && RankOf(progress) == RankOf(old(progress)) ==> progress == old(progress)
      ensures r.Ok? && Refusable(progress, durations, now) ==> Ends(DeadlineInvalid, durations, sighted, start, gap)
      ensures r.Ok? && !Refusable(progress, durations, now) ==> Probed(durations, sighted, start, gap)
    {
      hide Tells, Tried, Explains, Spaced, Granted, Latest, Refusable, OnSchedule;
      ghost var log, entered, head := probes, progress, now;
      r := ProbeNow(durations, start);
      ScheduleEnds(head, now, seen, entered, start, durations, lag);
      if r.Err? {
        TellsFault(log, progress, since, start, gap, Last());
        return r, since;
      }
      TellsMore(log, entered, since, start, gap, Last(), progress);
      sighted := if progress == entered then since else head;
      LatestIs(DeadlineOf(progress, start), sighted);
      if Refusable(progress, durations, now) {
        ExplainInvalid(durations, start);
        TellsTried(sighted, start, gap);
      } else {
        ScheduleProbed(head, now, seen, entered, progress, start, durations, lag);
      }
    }

    /** At the boundary: probe again at once, so that a marker written just in time wins; none means it did. */
    method Expire(ghost durations: Durations, ghost since: real, ghost start: real, ghost gap: real) returns (r: Option<Return>)
      requires Valid() && Probed(durations, since, start, gap) && gap >= 2.0 * lag && now >= DeadlineOf(progress, start)
      modifies this`now, this`step, this`progress, this`probes
      ensures Valid() && old(now) <= now && step > old(step)
      ensures r.None? ==> RankOf(progress) > RankOf(old(progress)) && Running(durations, RankOf(old(progress)), old(now), start, gap)
      ensures r.Some? ==> Ends(r.value, durations, since, start, gap)
    {
      hide Tells, Tried, Spaced, Granted, Latest, OnSchedule;
      ghost var log, head, was := probes, now, RankOf(progress);
      var before := progress;
      GrantedGrows(durations, lag, -1);
      var probed := ProbeNow(durations, start);
      assert probes[|probes| - 2] == log[|log| - 1];
      if probed.Err? {
        TellsFault(log, progress, since, start, gap, Last());
        return Some(Failed(probed.error));
      }
      TellsMore(log, before, since, start, gap, Last(), progress);
      if progress != before {
        LatestIs(DeadlineOf(progress, start), head);
        ScheduleMoves(head, now, was, progress, start, durations, lag);
        return None;
      }
      TellsTried(since, start, gap);
      var code := WaitFor(0.0);
      return Some(if code.Some? then Exited(code.value) else TimedOut(PhaseOf(progress)));
    }

    /** Wait for the child until the deadline, but no longer than the polling interval. */
    method Pause(deadline: real, poll: real, ghost durations: Durations, ghost since: real, ghost start: real)
        returns (code: Option<int>)
      requires Valid() && Probed(durations, since, start, poll + 2.0 * lag) && poll > 0.0
      requires deadline == DeadlineOf(progress, start) && now < deadline
      modifies this`now, this`step
      ensures Valid() && step > old(step)
      ensures code.Some? ==> Ends(Exited(code.value), durations, since, start, poll + 2.0 * lag)
      ensures code.None? ==> Running(durations, RankOf(progress), since, start, poll + 2.0 * lag)
      ensures code.None? ==> now >= old(now) + poll || now >= deadline
    {
      hide Tells, Tried, Spaced, Granted, Latest, OnSchedule, Explains;
      code := WaitFor(if poll <= deadline - now then poll else deadline - now);
      LatestIs(DeadlineOf(progress, start), since);
      if code.Some? {
        ExplainExit(code.value, durations, start);
        TellsTried(since, start, poll + 2.0 * lag);
      } else {
        ScheduleWaits(now, progress, start, durations, lag);
      }
    }

    /**
     Wait until the child exits or the active phase expires. It always returns, no later than the start-marker
     timeout plus every phase's duration and tolerance plus sixteen lags. Probes follow one another within the polling
     interval and two lags. A timeout comes at most four lags after the deadline, or after the first probe that
     reported the phase. The wait goes beyond the start-marker timeout only if a probe begun by then, but for two lags,
     reported the marker.
     */
    method WaitWithProgressDeadlines(startTimeout: real, poll: real, durations: Durations)
        returns (r: Return, ghost since: real)
      requires Valid() && progress.None? && probes == [] && startTimeout >= 0.0 && poll > 0.0
      modifies this`now, this`step, this`progress, this`probes
      ensures step > old(step) && Ends(r, durations, since, old(now) + startTimeout, poll + 2.0 * lag)
    {
      hide Ends, Running, Probed, Waits, Observed, Phase.Rank;
      var start := now + startTimeout;
      ghost var gap := poll + 2.0 * lag;
      ghost var seen := -1;
      since := start;
      Starts(durations, start, gap);
      while true
        invariant Valid() && step >= old(step) && Running(durations, seen, since, start, gap)
        decreases 2 - RankOf(progress), Waits(now, DeadlineOf(progress, start), poll)
      {
        ghost var head, entered := now, progress;
        var probed;
        probed, since := Look(durations, seen, since, start, gap);
        if probed.Err? {
          return Failed(probed.error), since;
        }
        WaitsShrink(head, now, DeadlineOf(entered, start), poll);
        var deadline := DeadlineOf(progress, start);
        if progress.Some? {
          var duration := durations(progress.value.phase);
          if duration.None? || duration.value < 0.0 || deadline > now + duration.value + TOLERANCE {
            return DeadlineInvalid, since;
          }
        }
        seen := RankOf(progress);
        head := now;
        if now >= deadline {
          var expired := Expire(durations, since, start, gap);
          if expired.Some? {
            return expired.value, since;
          }
          since := head;
          continue;
        }
        var code := Pause(deadline, poll, durations, since, start);
        if code.Some? {
          return Exited(code.value), since;
        }
        WaitsShrink(head, now, deadline, poll);
      }
    }

    /** The k-th probe reads the lifecycle that the cell has then. */
    ghost predicate Watches(s: Settings, cell: nat -> Lifecycle) {
      && (forall k: nat :: probe(k) == Ok(Report(s, cell(k))) && PositiveClocks(cell(k)))
      && forall j: nat, k: nat :: j <= k ==> Probe.Later(cell(j), cell(k))
    }

    /** A cell that keeps every budget is never stopped: whatever ends the wait, it is the child's own exit. */
    lemma {:induction false} HealthyCellIsLeftAlone(s: Settings, cell: nat -> Lifecycle, r: Return, durations: Durations,
                                                    since: real, start: real, gap: real)
      requires Watches(s, cell) && Grants(s, durations)
      requires forall k :: 0 <= k < |probes| ==> Healthy(s, cell(probes[k].step), probes[k].began, start)
      requires Ends(r, durations, since, start, gap)
      ensures r.Exited?
    {
      hide Healthy, Validated, Report, Refusable, PositiveClocks, Probe.Later;
      var last := cell(Last().step);
      assert Healthy(s, last, Last().began, start);
      match r
      case Exited(_) =>
      case TimedOut(_) =>
        HealthyHasTime(s, last, Last().began, start);
      case Failed(fault) =>
        var n := |probes| - 1;
        if n > 0 {
          assert probes[n].step > probes[n - 1].step;
          ReportsValidate(s, cell(probes[n - 1].step), last);
        } else {
          NothingReported(s);
          LaterThanNothing(last);
          ReportsValidate(s, PRISTINE, last);
        }
      case DeadlineInvalid =>
        HealthyIsNotRefused(s, last, Last().began, now, start, durations);
    }
  }
}
