/**
 Ownership of one worker process (bench/autoresearch_worker.py): launching, identity-checked
 signalling, bounded termination and recovery after a restart, against an operating system that may
 answer anything at all. Every call and its answer is kept in a ghost log, and the guarantees are
 about that log.
 */
module Worker {
  import opened Common
  import Probe
  import Wait

  datatype Identity = Identity(pid: int, pgid: int, startTicks: int, nonce: string)
  {
    function Snapshot(): StatAnswer {
      Process(pid, pgid, startTicks)
    }
  }

  datatype Signal = Presence | Interrupt | Kill

  datatype StatAnswer = Gone | StatUnreadable | StatMalformed | Process(pid: int, pgid: int, startTicks: int)
  datatype SignalAnswer = Delivered | NoSuchTarget | SignalRefused
  datatype ReapAnswer = Reaped(code: int) | StillRunning | ReapBroken
  datatype LoadAnswer = NoState | BadState(error: Error) | Holds(identity: Identity)

  datatype Call =
    | Stat(pid: int, stat: StatAnswer)
    | SignalGroup(pgid: int, signal: Signal, answer: SignalAnswer)
    | SignalProcess(target: int, signal: Signal, answer: SignalAnswer)
    | Reap(reaped: ReapAnswer)
    | Load(loaded: LoadAnswer)
    | Unlink(removed: bool)

  datatype Error =
    | OwnedProcessMissing | IdentityMismatch | ProcUnreadable | ProcMalformed | GroupProbeFailed | GroupSignalFailed
    | GroupSurvived | OwnershipAmbiguous | StateChanged | StateUnsafe | StateRemoveFailed | LookupRace | ReapTimeout
    | ReapFailed | TerminationTimeout | BoundsInvalid | StateExists | LaunchFailed | CaptureFailed | CaptureCleanupFailed
    | StateWriteFailed | CleanupEscalated | Original

  datatype CleanupOutcome = Completed | NoStateFound | AlreadyExited | Interrupted | Killed

  datatype Cleanup = Cleanup(
    outcome: CleanupOutcome, returnCode: Option<int>, sigintSent: bool, sigkillSent: bool, lookupRace: bool, stateRemoved: bool)

  datatype RunResult = RunResult(returnCode: int, timedOut: bool, cleanup: Cleanup, phase: Option<Probe.Phase>)

  type Log = seq<Call>

  // ---------------------------------------------------------------------------
  // What the log must show
  // ---------------------------------------------------------------------------

  /** The signal was delivered to the owned group. */
  ghost predicate Reached(log: Log, id: Identity, signal: Signal) {
    SignalGroup(id.pgid, signal, Delivered) in log
  }

  /**
   A real signal goes to the owned group only, straight after a stat that matched pid, group and start ticks, and
   a kill only after an interrupt of that group was delivered.
   */
  ghost predicate Justified(before: Log, id: Identity, call: Call) {
    match call
    case SignalGroup(pgid, signal, _) =>
      signal == Presence
      || (&& pgid == id.pgid
          && before != [] && before[|before| - 1] == Stat(id.pid, id.Snapshot())
          && (signal == Kill ==> Reached(before, id, Interrupt)))
    case SignalProcess(_, _, _) => false
    case _ => true
  }

  ghost predicate Safe(log: Log, id: Identity) {
    log == [] || (Safe(log[..|log| - 1], id) && Justified(log[..|log| - 1], id, log[|log| - 1]))
  }

  /** The group was observed absent, the state file still held the identity, and it was removed: nothing came after. */
  ghost predicate Certified(log: Log, id: Identity) {
    && |log| >= 3
    && log[|log| - 3..] == [SignalGroup(id.pgid, Presence, NoSuchTarget), Load(Holds(id)), Unlink(true)]
  }

  /** The reported flags are what happened. */
  ghost predicate Truthful(log: Log, id: Identity, c: Cleanup) {
    && (c.sigintSent <==> Reached(log, id, Interrupt))
    && (c.sigkillSent <==> Reached(log, id, Kill))
    && (c.sigkillSent || c.outcome == Killed ==> c.sigintSent)
  }

  /** A signal was sent to the owned group and got this answer. */
  ghost predicate Answered(log: Log, id: Identity, signal: Signal, answer: SignalAnswer) {
    SignalGroup(id.pgid, signal, answer) in log
  }

  ghost predicate KillTried(log: Log, id: Identity) {
    exists answer :: Answered(log, id, Kill, answer)
  }

  /** A stat that found the child leading its own group. */
  predicate LeadsOwnGroup(call: Call, child: int) {
    call.Stat? && call.pid == child && call.stat.Process? && call.stat.pid == call.stat.pgid == child
  }

  /** The error is what the last answer showed. */
  ghost predicate Shown(log: Log, id: Identity, e: Error) {
    log != [] &&
    var last := log[|log| - 1];
    || last == Load(BadState(e))
    || match e
       case ProcUnreadable => last == Stat(id.pid, StatUnreadable)
       case ProcMalformed => last.Stat? && last.pid == id.pid
                             && (last.stat == StatMalformed || (last.stat.Process? && last.stat.pid != id.pid))
       case IdentityMismatch => last.Stat? && last.pid == id.pid
                                && last.stat.Process? && last.stat.pid == id.pid && last.stat != id.Snapshot()
       case OwnedProcessMissing => last == Stat(id.pid, Gone) || (last == Reap(StillRunning) && Stat(id.pid, Gone) in log)
       case GroupProbeFailed => last == SignalGroup(id.pgid, Presence, SignalRefused)
       case GroupSignalFailed => last.SignalGroup? && last.pgid == id.pgid && last.signal != Presence && last.answer == SignalRefused
       case GroupSurvived => last == SignalGroup(id.pgid, Presence, Delivered)
       case OwnershipAmbiguous => |log| >= 2 && log[|log| - 2] == Stat(id.pid, Gone)
                                  && last == SignalGroup(id.pgid, Presence, Delivered)
       case StateChanged => last.Load? && last.loaded != Holds(id) && !last.loaded.BadState?
       case StateRemoveFailed => last == Unlink(false)
       case LookupRace => Answered(log, id, Interrupt, NoSuchTarget)
                          && (last == Reap(StillRunning) || last == Stat(id.pid, id.Snapshot()))
       case ReapTimeout => last == Reap(StillRunning) && KillTried(log, id)
       case ReapFailed => last == Reap(ReapBroken)
       case TerminationTimeout => last == Stat(id.pid, id.Snapshot()) && KillTried(log, id)
       case _ => false
  }

  lemma {:induction false} StaysAnswered(before: Log, after: Log, id: Identity)
    requires before <= after
    ensures forall signal, answer :: Answered(before, id, signal, answer) ==> Answered(after, id, signal, answer)
    ensures KillTried(before, id) ==> KillTried(after, id)
  {
    if KillTried(before, id) {
      var answer :| Answered(before, id, Kill, answer);
      assert Answered(after, id, Kill, answer);
    }
  }

  lemma {:induction false} QuietAnswers(before: Log, after: Log, id: Identity)
    requires QuietlyGrew(before, after)
    ensures forall signal, answer :: Answered(before, id, signal, answer) ==> Answered(after, id, signal, answer)
    ensures KillTried(before, id) ==> KillTried(after, id)
  {
    StaysAnswered(before, after, id);
  }

  /** No real signals. */
  ghost predicate Quiet(calls: seq<Call>) {
    forall call :: call in calls ==> !call.SignalProcess? && (call.SignalGroup? ==> call.signal == Presence)
  }

  ghost predicate QuietlyGrew(before: Log, after: Log) {
    before <= after && Quiet(after[|before|..])
  }

  lemma {:induction false} QuietGrowth(a: Log, b: Log, c: Log)
    requires QuietlyGrew(a, b) && QuietlyGrew(b, c)
    ensures QuietlyGrew(a, c)
  {
    assert c[|a|..] == b[|a|..] + c[|b|..];
  }

  /** Every signal goes to one child, and no signal follows a reap of it. */
  ghost predicate OwnChildOnly(log: Log, pid: int) {
    forall i :: 0 <= i < |log| ==>
      match log[i]
      case SignalGroup(target, _, _) => target == pid && Unreaped(log, i)
      case SignalProcess(target, _, _) => target == pid && Unreaped(log, i)
      case _ => true
  }

  /** The last three calls kill the child's group and the child itself, and reap it. */
  ghost predicate KillsThenReaps(log: Log, pid: int) {
    && |log| >= 3
    && var group, single, reap := log[|log| - 3], log[|log| - 2], log[|log| - 1];
       && group.SignalGroup? && group.pgid == pid && group.signal == Kill
       && single.SignalProcess? && single.target == pid && single.signal == Kill && reap.Reap?
  }

  /** Each kill was delivered or found nothing left, and the child is reaped. */
  ghost predicate KilledAndReaped(log: Log, pid: int) {
    && KillsThenReaps(log, pid)
    && log[|log| - 3].answer != SignalRefused && log[|log| - 2].answer != SignalRefused && log[|log| - 1].reaped.Reaped?
  }

  ghost predicate Unreaped(log: Log, i: nat)
    requires i <= |log|
  {
    forall j :: 0 <= j < i ==> !(log[j].Reap? && log[j].reaped.Reaped?)
  }

  lemma {:induction false} CapturedIsSafe(log: Log, id: Identity)
    requires log == [Stat(id.pid, id.Snapshot())]
    ensures Safe(log, id) && !Reached(log, id, Interrupt) && !Reached(log, id, Kill)
  {
    EmptyIsSafe(id);
    SafeSnoc([], id, Stat(id.pid, id.Snapshot()));
    assert log == [] + [Stat(id.pid, id.Snapshot())];
  }

  lemma {:induction false} QuietNothing(log: Log)
    ensures QuietlyGrew(log, log)
  {
  }

  lemma {:induction false} EmptyIsSafe(id: Identity)
    ensures Safe([], id)
  {
  }

  lemma {:induction false} QuietCall(log: Log, call: Call)
    requires !call.SignalProcess? && (call.SignalGroup? ==> call.signal == Presence)
    ensures QuietlyGrew(log, log + [call])
  {
    assert (log + [call])[|log|..] == [call];
  }

  lemma {:induction false} QuietReaches(before: Log, after: Log, id: Identity)
    requires QuietlyGrew(before, after)
    ensures Reached(after, id, Interrupt) <==> Reached(before, id, Interrupt)
    ensures Reached(after, id, Kill) <==> Reached(before, id, Kill)
  {
    assert after == before + after[|before|..];
  }

  lemma {:induction false} QuietIsSafe(before: Log, after: Log, id: Identity)
    requires Safe(before, id) && QuietlyGrew(before, after)
    ensures Safe(after, id)
    decreases |after|
  {
    if before == after {
    } else {
      var n := |after| - 1;
      assert after[..n][|before|..] == after[|before|..][..n - |before|];
      assert after[n] == after[|before|..][n - |before|];
      QuietIsSafe(before, after[..n], id);
    }
  }

  lemma {:induction false} SafeSnoc(log: Log, id: Identity, call: Call)
    ensures Safe(log + [call], id) <==> Safe(log, id) && Justified(log, id, call)
  {
    assert (log + [call])[..|log|] == log;
  }

  /** Every signal anywhere in a safe log is justified by what precedes it. */
  lemma {:induction false} SafeAt(log: Log, id: Identity, i: nat)
    requires Safe(log, id) && i < |log|
    ensures Justified(log[..i], id, log[i])
    decreases |log|
  {
    var n := |log| - 1;
    if i < n {
      SafeAt(log[..n], id, i);
      assert log[..n][..i] == log[..i];
    }
  }

  /** The worker is given its whole interrupt grace: it was still measuring, or never supervised. */
  predicate Graceful(persisted: bool, supervised: Wait.Return, active: Option<Probe.Phase>) {
    || !persisted
    || (supervised.TimedOut? && supervised.phase == Probe.Measuring)
    || (!supervised.TimedOut? && active !in {Some(Probe.Cleaning), Some(Probe.Finalizing)})
  }

  class OperatingSystem {
    const stats: nat -> StatAnswer
    const signals: nat -> SignalAnswer
    const reaps: nat -> ReapAnswer
    const loads: nat -> LoadAnswer
    const unlinks: nat -> bool
    const delays: nat -> real  // how long the k-th call took
    var step: nat
    var now: real
    ghost var log: Log

    constructor (stats: nat -> StatAnswer, signals: nat -> SignalAnswer, reaps: nat -> ReapAnswer, loads: nat -> LoadAnswer,
                 unlinks: nat -> bool, delays: nat -> real)
      ensures log == []
    {
      this.stats, this.signals, this.reaps, this.loads, this.unlinks, this.delays := stats, signals, reaps, loads, unlinks, delays;
      step, now, log := 0, 0.0, [];
    }

    method Advance()
      modifies this`step, this`now
      ensures now >= old(now)
    {
      if delays(step) > 0.0 {
        now := now + delays(step);
      }
      step := step + 1;
    }

    // -------------------------------------------------------------------------
    // Single calls
    // -------------------------------------------------------------------------

    /** One stat read; none means that no such process exists. */
    method SnapshotForPid(pid: int) returns (r: Result<Option<StatAnswer>, Error>, ghost answer: StatAnswer)
      modifies this
      ensures now >= old(now) && log == old(log) + [Stat(pid, answer)]
      ensures r == Ok(None) <==> answer == Gone
      ensures r.Ok? && r.value.Some? <==> answer.Process? && answer.pid == pid
      ensures r.Ok? && r.value.Some? ==> r.value.value == answer
      ensures r.Err? ==> if answer == StatUnreadable then r.error == ProcUnreadable else r.error == ProcMalformed
    {
      var found := stats(step);
      answer := found;
      Advance();
      log := log + [Stat(pid, answer)];
      match found
      case Gone => r := Ok(None);
      case StatUnreadable => r := Err(ProcUnreadable);
      case StatMalformed => r := Err(ProcMalformed);
      case Process(foundPid, _, _) => r := if foundPid != pid then Err(ProcMalformed) else Ok(Some(found));
    }

    /** The recorded process, exactly: any difference in pid, group or start ticks is refused. */
    method AssertOwnedProcess(id: Identity) returns (r: Option<Error>, ghost answer: StatAnswer)
      modifies this
      ensures now >= old(now) && log == old(log) + [Stat(id.pid, answer)]
      ensures r.None? <==> answer == id.Snapshot()
      ensures r.Some? ==> Shown(log, id, r.value)
    {
      var snapshot: Result<Option<StatAnswer>, Error>;
      snapshot, answer := SnapshotForPid(id.pid);
      if snapshot.Err? {
        return Some(snapshot.error), answer;
      }
      if snapshot.value.None? {
        return Some(OwnedProcessMissing), answer;
      }
      r := if snapshot.value.value != id.Snapshot() then Some(IdentityMismatch) else None;
    }

    method SendGroup(pgid: int, signal: Signal) returns (answer: SignalAnswer)
      modifies this
      ensures now >= old(now) && log == old(log) + [SignalGroup(pgid, signal, answer)]
    {
      answer := signals(step);
      Advance();
      log := log + [SignalGroup(pgid, signal, answer)];
    }

    method GroupExists(pgid: int) returns (r: Result<bool, Error>, ghost answer: SignalAnswer)
      modifies this
      ensures now >= old(now) && log == old(log) + [SignalGroup(pgid, Presence, answer)]
      ensures r == match answer
                   case NoSuchTarget => Ok(false)
                   case SignalRefused => Err(GroupProbeFailed)
                   case Delivered => Ok(true)
    {
      var got := SendGroup(pgid, Presence);
      answer := got;
      r := match got
           case NoSuchTarget => Ok(false)
           case SignalRefused => Err(GroupProbeFailed)
           case Delivered => Ok(true);
    }

    /** Signal the owned group, but only after a fresh identity comparison; false means that it was gone by then. */
    method SignalExactGroup(id: Identity, signal: Signal) returns (r: Result<bool, Error>)
      requires signal != Presence && Safe(log, id)
      requires signal == Kill ==> Reached(log, id, Interrupt)
      modifies this
      ensures Safe(log, id) && now >= old(now)
      ensures old(log) <= log && (Reached(log, id, signal) <==> Reached(old(log), id, signal) || r == Ok(true))
      ensures forall other :: other != signal ==> (Reached(log, id, other) <==> Reached(old(log), id, other))
      ensures r.Ok? ==> Answered(log, id, signal, if r.value then Delivered else NoSuchTarget)
      ensures r.Err? ==> Shown(log, id, r.error)
      ensures r == Err(OwnedProcessMissing) ==> Stat(id.pid, Gone) in log
    {
      var mismatch, answer := AssertOwnedProcess(id);
      ghost var statted := log;
      SafeSnoc(old(log), id, Stat(id.pid, answer));
      if mismatch.Some? {
        return Err(mismatch.value);
      }
      var sent := SendGroup(id.pgid, signal);
      SafeSnoc(statted, id, SignalGroup(id.pgid, signal, sent));
      r := match sent
           case NoSuchTarget => Ok(false)
           case SignalRefused => Err(GroupSignalFailed)
           case Delivered => Ok(true);
    }

    /** Wait for the child: if it still runs, the whole timeout has passed. */
    method ReapChild(timeout: real) returns (answer: ReapAnswer)
      modifies this
      ensures now >= old(now) && log == old(log) + [Reap(answer)]
      ensures answer.StillRunning? ==> now >= old(now) + timeout
    {
      answer := reaps(step);
      if answer.StillRunning? && timeout > 0.0 {
        now := now + timeout;
      }
      Advance();
      log := log + [Reap(answer)];
    }

    method LoadState() returns (answer: LoadAnswer)
      modifies this
      ensures now >= old(now) && log == old(log) + [Load(answer)]
    {
      answer := loads(step);
      Advance();
      log := log + [Load(answer)];
    }

    /** Remove the state file if it still holds exactly this identity. */
    method RemoveMatchingState(id: Identity) returns (r: Option<Error>)
      modifies this
      ensures now >= old(now) && QuietlyGrew(old(log), log)
      ensures r.None? ==> log == old(log) + [Load(Holds(id)), Unlink(true)]
      ensures r.Some? ==> Shown(log, id, r.value)
    {
      var current := LoadState();
      if current != Holds(id) {
        assert log[|old(log)|..] == [Load(current)];
        return Some(if current.BadState? then current.error else StateChanged);
      }
      var removed := unlinks(step);
      Advance();
      log := log + [Unlink(removed)];
      assert log == old(log) + [Load(Holds(id)), Unlink(removed)];
      assert log[|old(log)|..] == [Load(Holds(id)), Unlink(removed)];
      return if removed then None else Some(StateRemoveFailed);
    }

    // -------------------------------------------------------------------------
    // Termination of a child
    // -------------------------------------------------------------------------

    /** The end of every successful cleanup: no member of the group is left, and the matching state is removed. */
    method CertifyAbsentAndRemove(id: Identity, c: Cleanup, requireState: bool) returns (r: Result<Cleanup, Error>)
      modifies this
      ensures now >= old(now) && QuietlyGrew(old(log), log)
      ensures r.Ok? ==> r.value == c.(stateRemoved := r.value.stateRemoved)
      ensures r.Ok? && requireState ==> r.value.stateRemoved && Certified(log, id)
      ensures r.Err? ==> Shown(log, id, r.error)
    {
      hide Quiet, QuietlyGrew;
      var found, answer := GroupExists(id.pgid);
      ghost var probed := log;
      assert QuietlyGrew(old(log), probed) by { QuietCall(old(log), SignalGroup(id.pgid, Presence, answer)); }
      if found.Err? {
        return Err(found.error);
      }
      if found.value {
        return Err(GroupSurvived);
      }
      if !requireState {
        var current := LoadState();
        assert QuietlyGrew(probed, log) by { QuietCall(probed, Load(current)); }
        QuietGrowth(old(log), probed, log);
        if current != Holds(id) {
          return Ok(c.(stateRemoved := false));
        }
      }
      ghost var checked := log;
      var failed := RemoveMatchingState(id);
      QuietGrowth(old(log), checked, log);
      if failed.Some? {
        return Err(failed.value);
      }
      r := Ok(c.(stateRemoved := true));
    }

    /** Certify a child that has been reaped, with the flags of what was sent to it. */
    method Certify(id: Identity, outcome: CleanupOutcome, code: int, sigintSent: bool, sigkillSent: bool, lookupRace: bool,
                   requireState: bool)
      returns (r: Result<Cleanup, Error>)
      requires Safe(log, id)
      requires (sigintSent <==> Reached(log, id, Interrupt)) && (sigkillSent <==> Reached(log, id, Kill))
      requires sigkillSent || outcome == Killed ==> sigintSent
      modifies this
      ensures now >= old(now) && Safe(log, id) && (Reached(log, id, Kill) <==> Reached(old(log), id, Kill))
      ensures r.Ok? ==>
                && r.value.outcome == outcome && r.value.returnCode == Some(code) && Truthful(log, id, r.value)
                && (requireState ==> r.value.stateRemoved && Certified(log, id))
      ensures r.Err? ==> Shown(log, id, r.error)
    {
      hide Shown;
      r := CertifyAbsentAndRemove(id, Cleanup(outcome, Some(code), sigintSent, sigkillSent, lookupRace, false), requireState);
      QuietIsSafe(old(log), log, id);
      QuietReaches(old(log), log, id);
    }

    /**
     Stop the child this controller started: interrupt, and kill only a group whose interrupt was delivered. A
     normal return means that the child was reaped, its group observed absent and, if required, its state removed.
     */
    method TerminateCurrentProcess(id: Identity, interruptGrace: real, killGrace: real, requireState: bool)
      returns (r: Result<Cleanup, Error>)
      requires Safe(log, id) && !Reached(log, id, Interrupt) && !Reached(log, id, Kill)
      modifies this
      ensures now >= old(now) && Safe(log, id)
      ensures Reached(log, id, Kill) ==> now >= old(now) + interruptGrace
      ensures r.Ok? ==>
                && r.value.returnCode.Some? && r.value.outcome in {AlreadyExited, Interrupted, Killed}
                && Truthful(log, id, r.value)
                && (requireState ==> r.value.stateRemoved && Certified(log, id))
      ensures r.Err? ==> if interruptGrace < 0.0 || killGrace <= 0.0 then r.error == BoundsInvalid && log == old(log)
                         else Shown(log, id, r.error)
    {
      hide Safe, Reached;
      if interruptGrace < 0.0 || killGrace <= 0.0 {
        return Err(BoundsInvalid);
      }
      var polled := ReapQuietly(id, 0.0);
      if polled.ReapBroken? {
        return Err(ReapFailed);
      }
      if polled.Reaped? {
        r := Certify(id, AlreadyExited, polled.code, false, false, false, requireState);
        return;
      }
      var interrupted := SignalExactGroup(id, Interrupt);
      if interrupted.Err? {
        if interrupted.error != OwnedProcessMissing {
          return Err(interrupted.error);
        }
        var late := ReapQuietly(id, 0.0);
        if !late.Reaped? {
          return Err(if late.StillRunning? then OwnedProcessMissing else ReapFailed);
        }
        r := Certify(id, AlreadyExited, late.code, false, false, true, requireState);
        return;
      }
      var waited := ReapQuietly(id, interruptGrace);
      match waited
      case ReapBroken =>
        r := Err(ReapFailed);
      case Reaped(code) =>
        r := Certify(id, Interrupted, code, interrupted.value, false, !interrupted.value, requireState);
      case StillRunning =>
        if !interrupted.value {
          return Err(LookupRace);
        }
        r := KillChild(id, killGrace, requireState);
    }

    /** The interrupt was delivered and its grace has passed. */
    method KillChild(id: Identity, killGrace: real, requireState: bool) returns (r: Result<Cleanup, Error>)
      requires Safe(log, id) && Reached(log, id, Interrupt) && !Reached(log, id, Kill)
      modifies this
      ensures now >= old(now) && Safe(log, id)
      ensures r.Ok? ==>
                && r.value.returnCode.Some? && r.value.outcome == Killed && Truthful(log, id, r.value)
                && (requireState ==> r.value.stateRemoved && Certified(log, id))
      ensures r.Err? ==> Shown(log, id, r.error)
    {
      hide Safe, Reached;
      var killed := SignalExactGroup(id, Kill);
      if killed.Err? {
        return Err(killed.error);
      }
      ghost var before := log;
      var waited := ReapQuietly(id, killGrace);
      assert KillTried(before, id) by { assert Answered(before, id, Kill, if killed.value then Delivered else NoSuchTarget); }
      StaysAnswered(before, log, id);
      match waited
      case ReapBroken =>
        r := Err(ReapFailed);
      case StillRunning =>
        r := Err(ReapTimeout);
      case Reaped(code) =>
        r := Certify(id, Killed, code, true, killed.value, !killed.value, requireState);
    }

    method ReapQuietly(id: Identity, timeout: real) returns (answer: ReapAnswer)
      requires Safe(log, id)
      modifies this
      ensures answer.StillRunning? ==> now >= old(now) + timeout
      ensures now >= old(now) && Safe(log, id) && log == old(log) + [Reap(answer)]
      ensures forall signal :: Reached(log, id, signal) <==> Reached(old(log), id, signal)
    {
      answer := ReapChild(timeout);
      SafeSnoc(old(log), id, Reap(answer));
    }

    // -------------------------------------------------------------------------
    // Recovery after a restart
    // -------------------------------------------------------------------------

    method Sleep(duration: real)
      requires duration >= 0.0
      modifies this`step, this`now
      ensures now >= old(now) + duration
    {
      now := now + duration;
      Advance();
    }

    /** Poll until the recorded leader is gone with its whole group, or the time is up. */
    method WaitForRecoveryExit(id: Identity, timeout: real, poll: real) returns (r: Result<bool, Error>)
      requires poll > 0.0
      modifies this
      ensures now >= old(now) && QuietlyGrew(old(log), log)
      ensures r == Ok(true) ==> log != [] && log[|log| - 1] == SignalGroup(id.pgid, Presence, NoSuchTarget)
      ensures r == Ok(false) ==> now >= old(now) + timeout && log != [] && log[|log| - 1] == Stat(id.pid, id.Snapshot())
      ensures r.Err? ==> Shown(log, id, r.error)
    {
      hide QuietlyGrew;
      var deadline := now + timeout;
      QuietNothing(log);
      while true
        invariant now >= old(now) && QuietlyGrew(old(log), log)
        decreases Wait.Waits(now, deadline, poll)
      {
        ghost var head, before := now, log;
        var snapshot, answer := SnapshotForPid(id.pid);
        QuietCall(before, Stat(id.pid, answer));
        QuietGrowth(old(log), before, log);
        if snapshot.Err? {
          return Err(snapshot.error);
        }
        if snapshot.value.None? {
          ghost var statted := log;
          var found, present := GroupExists(id.pgid);
          QuietCall(statted, SignalGroup(id.pgid, Presence, present));
          QuietGrowth(old(log), statted, log);
          if found.Err? {
            return Err(found.error);
          }
          return if found.value then Err(OwnershipAmbiguous) else Ok(true);
        }
        if snapshot.value.value != id.Snapshot() {
          return Err(IdentityMismatch);
        }
        var remaining := deadline - now;
        if remaining <= 0.0 {
          return Ok(false);
        }
        Wait.WaitsShrink(head, now, deadline, poll);
        ghost var waiting := now;
        Sleep(if poll <= remaining then poll else remaining);
        Wait.WaitsShrink(waiting, now, deadline, poll);
      }
    }

    /** Remove the state of a group that was just observed absent. */
    method RemoveAbsent(id: Identity, c: Cleanup) returns (r: Result<Cleanup, Error>)
      requires Safe(log, id) && Truthful(log, id, c) && c.stateRemoved
      requires log != [] && log[|log| - 1] == SignalGroup(id.pgid, Presence, NoSuchTarget)
      modifies this
      ensures Safe(log, id) && now >= old(now) && (Reached(log, id, Kill) <==> Reached(old(log), id, Kill))
      ensures r.Ok? ==> r.value == c && Truthful(log, id, c) && Certified(log, id)
      ensures r.Err? ==> Shown(log, id, r.error)
    {
      var failed := RemoveMatchingState(id);
      QuietIsSafe(old(log), log, id);
      QuietReaches(old(log), log, id);
      r := if failed.Some? then Err(failed.value) else Ok(c);
    }

    /**
     Recover the worker that a state file names. A normal return, other than that there was no state, means that the
     named group was observed absent and the state removed; on the way every signal was justified by a fresh match.
     */
    method RecoverOwnedWorker(interruptGrace: real, killGrace: real, poll: real)
      returns (r: Result<Cleanup, Error>, ghost owner: Option<Identity>)
      requires log == []
      modifies this
      ensures if owner.None? then Quiet(log) else Safe(log, owner.value)
      ensures owner.Some? && Reached(log, owner.value, Kill) ==> now >= old(now) + interruptGrace
      ensures r.Ok? ==>
                if r.value.outcome == NoStateFound then owner.None?
                else owner.Some? && r.value.stateRemoved && Truthful(log, owner.value, r.value) && Certified(log, owner.value)
      ensures r.Err? ==>
                if interruptGrace < 0.0 || killGrace <= 0.0 || poll <= 0.0 then r.error == BoundsInvalid && log == []
                else if owner.None? then log == [Load(BadState(r.error))]
                else Shown(log, owner.value, r.error)
    {
      hide Safe, Certified;
      owner := None;
      if interruptGrace < 0.0 || killGrace <= 0.0 || poll <= 0.0 {
        return Err(BoundsInvalid), None;
      }
      var loaded := LoadState();
      if loaded.NoState? {
        return Ok(Cleanup(NoStateFound, None, false, false, false, false)), None;
      }
      if loaded.BadState? {
        return Err(loaded.error), None;
      }
      var id := loaded.identity;
      owner := Some(id);
      assert Safe(log, id) by { EmptyIsSafe(id); SafeSnoc([], id, Load(loaded)); assert log == [] + [Load(loaded)]; }
      ghost var before := log;
      var snapshot, answer := SnapshotForPid(id.pid);
      SafeSnoc(before, id, Stat(id.pid, answer));
      if snapshot.Err? {
        return Err(snapshot.error), owner;
      }
      if snapshot.value.None? {
        before := log;
        var found, present := GroupExists(id.pgid);
        SafeSnoc(before, id, SignalGroup(id.pgid, Presence, present));
        if found.Err? {
          return Err(found.error), owner;
        }
        if found.value {
          return Err(OwnershipAmbiguous), owner;
        }
        r := RemoveAbsent(id, Cleanup(AlreadyExited, None, false, false, true, true));
        return;
      }
      before := log;
      var mismatch, again := AssertOwnedProcess(id);
      SafeSnoc(before, id, Stat(id.pid, again));
      if mismatch.Some? {
        return Err(mismatch.value), owner;
      }
      r := InterruptThenKill(id, interruptGrace, killGrace, poll);
    }

    /** Interrupt, wait, and only then kill and wait again: no kill is delivered before the interrupt's grace is over. */
    method InterruptThenKill(id: Identity, interruptGrace: real, killGrace: real, poll: real)
      returns (r: Result<Cleanup, Error>)
      requires Safe(log, id) && !Reached(log, id, Interrupt) && !Reached(log, id, Kill) && poll > 0.0
      modifies this
      ensures Safe(log, id) && now >= old(now)
      ensures Reached(log, id, Kill) ==> now >= old(now) + interruptGrace
      ensures r.Ok? ==> r.value.stateRemoved && r.value.outcome in {Interrupted, Killed}
                        && Truthful(log, id, r.value) && Certified(log, id)
      ensures r.Err? ==> Shown(log, id, r.error)
    {
      hide Safe, Certified, QuietlyGrew, Reached;
      var interrupted := SignalExactGroup(id, Interrupt);
      if interrupted.Err? {
        return Err(interrupted.error);
      }
      ghost var signalled := log;
      var absent := WaitForRecoveryExit(id, interruptGrace, poll);
      QuietIsSafe(signalled, log, id);
      QuietReaches(signalled, log, id);
      QuietAnswers(signalled, log, id);
      if absent.Err? {
        return Err(absent.error);
      }
      if absent.value {
        r := RemoveAbsent(id, Cleanup(Interrupted, None, interrupted.value, false, !interrupted.value, true));
        return;
      }
      if !interrupted.value {
        return Err(LookupRace);
      }
      var killed := SignalExactGroup(id, Kill);
      if killed.Err? {
        return Err(killed.error);
      }
      signalled := log;
      assert KillTried(signalled, id) by { assert Answered(signalled, id, Kill, if killed.value then Delivered else NoSuchTarget); }
      absent := WaitForRecoveryExit(id, killGrace, poll);
      QuietIsSafe(signalled, log, id);
      QuietReaches(signalled, log, id);
      QuietAnswers(signalled, log, id);
      if absent.Err? {
        return Err(absent.error);
      }
      if !absent.value {
        return Err(TerminationTimeout);
      }
      r := RemoveAbsent(id, Cleanup(Killed, None, true, killed.value, !killed.value, true));
    }

    // -------------------------------------------------------------------------
    // A fresh worker
    // -------------------------------------------------------------------------

    /** The identity of a child that has just been launched as leader of its own group. */
    method CaptureIdentity(pid: int, nonce: string) returns (r: Result<Identity, Error>)
      modifies this
      ensures now >= old(now)
      ensures |log| == |old(log)| + 1 && old(log) <= log && log[|old(log)|].Stat? && log[|old(log)|].pid == pid
      ensures r.Err? <==> !LeadsOwnGroup(log[|old(log)|], pid)
      ensures r.Ok? ==> r.value.pid == r.value.pgid == pid && log == old(log) + [Stat(pid, r.value.Snapshot())]
    {
      var snapshot, answer := SnapshotForPid(pid);
      if snapshot.Err? {
        return Err(snapshot.error);
      }
      if snapshot.value.None? || snapshot.value.value.pgid != pid {
        return Err(CaptureFailed);
      }
      return Ok(Identity(pid, pid, snapshot.value.value.startTicks, nonce));
    }

    /** A child without a recorded identity is killed by its own pid, which nothing can reuse before it is reaped. */
    method CleanupUncapturedProcess(pid: int, killGrace: real) returns (r: Option<Error>)
      requires OwnChildOnly(log, pid) && Unreaped(log, |log|)
      modifies this
      ensures OwnChildOnly(log, pid) && old(log) <= log && |log| == |old(log)| + 3 && KillsThenReaps(log, pid)
      ensures r == if KilledAndReaped(log, pid) then None else Some(CaptureCleanupFailed)
    {
      var group := SendGroup(pid, Kill);
      var single := signals(step);
      Advance();
      log := log + [SignalProcess(pid, Kill, single)];
      var reaped := ReapChild(killGrace);
      if !reaped.Reaped? || group == SignalRefused || single == SignalRefused {
        return Some(CaptureCleanupFailed);
      }
      return None;
    }

    /**
     Run one worker. `persisted` is whether its ownership record could be installed, `supervised` how the supervised
     wait ended, and `active` the phase last observed. A normal return means that the child was reaped, its group
     observed absent and its state removed; a timeout is returned only after such a cleanup.
     */
    method RunOwnedWorker(
        nonce: string, timeout: real, interruptGrace: real, killGrace: real, stateAbsent: bool, child: Option<int>,
        persisted: bool, supervised: Wait.Return, active: Option<Probe.Phase>)
      returns (r: Result<RunResult, Error>, ghost owner: Option<Identity>)
      requires log == []
      modifies this
      ensures if owner.Some? then Safe(log, owner.value) else if child.Some? then OwnChildOnly(log, child.value) else log == []
      ensures owner.Some? && Reached(log, owner.value, Kill) && Graceful(persisted, supervised, active) ==> now >= old(now) + interruptGrace
      ensures r.Ok? ==>
                && owner.Some? && stateAbsent && persisted
                && r.value.cleanup.stateRemoved && Truthful(log, owner.value, r.value.cleanup) && Certified(log, owner.value)
                && (r.value.timedOut <==> supervised.TimedOut?)
                && (supervised.TimedOut? ==> r.value.phase == Some(supervised.phase))
                && (supervised.Exited? ==> r.value.returnCode == supervised.code)
      ensures r.Err? ==>
                if timeout <= 0.0 || interruptGrace < 0.0 || killGrace <= 0.0 then r.error == BoundsInvalid && log == []
                else if !stateAbsent then r.error == StateExists && log == []
                else if child.None? then r.error == LaunchFailed && log == []
                else if owner.None? then
                  log != [] && !LeadsOwnGroup(log[0], child.value) && (r.error == CaptureCleanupFailed || KilledAndReaped(log, child.value))
                else Shown(log, owner.value, r.error)
                     || (!persisted && r.error == StateWriteFailed)
                     || (persisted && !supervised.Exited? && !supervised.TimedOut?
                         && (r.error == Original || (r.error == CleanupEscalated && Reached(log, owner.value, Interrupt))))
    {
      hide Certified, Reached;
      owner := None;
      if timeout <= 0.0 || interruptGrace < 0.0 || killGrace <= 0.0 {
        return Err(BoundsInvalid), None;
      }
      if !stateAbsent {
        return Err(StateExists), None;
      }
      if child.None? {
        return Err(LaunchFailed), None;
      }
      var captured := CaptureIdentity(child.value, nonce);
      if captured.Err? {
        var failed := CleanupUncapturedProcess(child.value, killGrace);
        return Err(if failed.Some? then failed.value else captured.error), None;
      }
      var id := captured.value;
      owner := Some(id);
      CapturedIsSafe(log, id);
      if !persisted {
        var cleaned := TerminateCurrentProcess(id, interruptGrace, killGrace, false);
        return Err(if cleaned.Err? then cleaned.error else StateWriteFailed), owner;
      }
      match supervised
      case Exited(code) =>
        var cleaned := Certify(id, Completed, code, false, false, false, true);
        r := if cleaned.Err? then Err(cleaned.error) else Ok(RunResult(code, false, cleaned.value, None));
      case TimedOut(phase) =>
        var grace := if phase == Probe.Measuring then interruptGrace else 0.0;
        var cleaned := TerminateCurrentProcess(id, grace, killGrace, true);
        r := if cleaned.Err? then Err(cleaned.error)
             else Ok(RunResult(cleaned.value.returnCode.value, true, cleaned.value, Some(phase)));
      case _ =>
        var grace := if active in {Some(Probe.Cleaning), Some(Probe.Finalizing)} then 0.0 else interruptGrace;
        var cleaned := TerminateCurrentProcess(id, grace, killGrace, true);
        r := Err(if cleaned.Err? then cleaned.error
                 else if cleaned.value.outcome == Killed then CleanupEscalated else Original);
    }
  }
}
