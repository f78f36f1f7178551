/**
 The run-journal auditor of bench/audit.py: a pass over the journal that fills dictionaries and reports
 issues, and the status derived from the same journal. A clean audit and a complete status together
 say what became of every planned case.
 */
module Audit {
  import opened Common

  datatype Kind =
    | RunStart | RunComplete | RunAborted | ServerReady | FirstRequestComplete | ServerStopped | ServerKept | CleanupFailed
    | CaseStart | RequestComplete | CaseComplete | CaseFailed
    | SkippedUnimplemented | SkippedContextLimit | SkippedUnsupported | OtherEvent

  /** An identity is absent when the event has no string there; `described` says that an abort names its cause. */
  datatype Event = Event(
    kind: Kind, caseId: Option<string>, attemptId: Option<string>, validationFailed: bool, noWork: bool, described: bool)

  const SKIPS := {SkippedUnimplemented, SkippedContextLimit, SkippedUnsupported}
  const OUTCOMES := {CaseComplete, CaseFailed} + SKIPS
  const CASE_EVENTS := OUTCOMES + {CaseStart, RequestComplete}
  const ATTEMPT_EVENTS := {CaseStart, RequestComplete, CaseComplete, CaseFailed}
  const MEASURED := {CaseStart, RequestComplete, CaseComplete}

  datatype Issue =
    | MissingRunStart | MissingRunComplete | InvalidAbortContext | CaseWithoutId | UnplannedCase | MeasuredWithoutReady
    | MissingFirstRequest | MissingServerCleanup | MissingAttemptId | DuplicateStart | EventWithoutStart
    | DuplicateComplete | CompletedWithoutRequests | MissingOutcome | ConflictingOutcomes

  datatype Status = Complete | NotStarted | Aborted | Incomplete | Partial | NoWork

  predicate Named(id: Option<string>) {
    id.Some? && id.value != ""
  }

  /** The last position of a kind, or minus one. */
  function Last(events: seq<Event>, kinds: set<Kind>): (i: int)
    ensures -1 <= i < |events|
    ensures i >= 0 ==> events[i].kind in kinds
    ensures forall j :: i < j < |events| ==> events[j].kind !in kinds
  {
    if events == [] then -1
    else if events[|events| - 1].kind in kinds then |events| - 1
    else Last(events[..|events| - 1], kinds)
  }

  function Later(i: int, after: int): int {
    if i > after then i else -1
  }

  function Max(a: int, b: int): int {
    if a >= b then a else b
  }

  // ---------------------------------------------------------------------------
  // What each check asks of the journal
  // ---------------------------------------------------------------------------

  predicate AbortedTerminal(events: seq<Event>) {
    var start := Last(events, {RunStart});
    Later(Last(events, {RunAborted}), start) > Later(Last(events, {RunComplete}), start)
  }

  /** Where the final run attempt ends. */
  function Terminal(events: seq<Event>): int {
    var start := Last(events, {RunStart});
    var end := Max(Later(Last(events, {RunComplete}), start), Later(Last(events, {RunAborted}), start));
    if end < 0 then |events| else end
  }

  predicate Bounded(events: seq<Event>) {
    Last(events, {RunStart}) >= 0 && Terminal(events) < |events|
    && (AbortedTerminal(events) ==> Last(events, {RunAborted}) >= 0 && events[Last(events, {RunAborted})].described)
  }

  predicate CasesPlanned(events: seq<Event>, planned: set<string>) {
    forall i :: 0 <= i < |events| && events[i].kind in CASE_EVENTS ==> Named(events[i].caseId) && events[i].caseId.value in planned
  }

  predicate AttemptsNamed(events: seq<Event>) {
    forall i :: 0 <= i < |events| && events[i].kind in ATTEMPT_EVENTS ==> Named(events[i].attemptId)
  }

  /** Before the first measured case of the final attempt the server was ready and primed, and it was stopped after. */
  predicate Inside(events: seq<Event>, i: int) {
    Last(events, {RunStart}) < i < Terminal(events)
  }

  predicate HasInside(events: seq<Event>, kinds: set<Kind>, low: int, high: int) {
    exists i :: 0 <= i < |events| && low < i < high && events[i].kind in kinds
  }

  /** The last ready position of the final attempt, or minus one. */
  function LastReady(events: seq<Event>): int {
    var end := Terminal(events);
    var ready := Last(if 0 <= end <= |events| then events[..end] else events, {ServerReady});
    Later(ready, Last(events, {RunStart}))
  }

  /** The first measured position of the final attempt, or its end. */
  function FirstMeasured(events: seq<Event>, i: nat): int
    requires i <= |events|
    decreases |events| - i
  {
    if i == |events| then Terminal(events)
    else if Inside(events, i) && events[i].kind in MEASURED then i
    else FirstMeasured(events, i + 1)
  }

  predicate Served(events: seq<Event>) {
    var ready, end := LastReady(events), Terminal(events);
    var measured := HasInside(events, MEASURED, Last(events, {RunStart}), end);
    && (measured ==> ready >= 0)
    && (ready >= 0 ==>
          && (measured ==> HasInside(events, {FirstRequestComplete}, ready, FirstMeasured(events, 0)))
          && HasInside(events, {ServerStopped, ServerKept}, ready, if AbortedTerminal(events) then |events| else end))
  }

  /** The event is of this kind, case and attempt. */
  predicate Is(e: Event, kind: Kind, c: string, a: string) {
    e.kind == kind && e.caseId == Some(c) && e.attemptId == Some(a) && a != ""
  }

  function Positions(events: seq<Event>, kind: Kind, c: string, a: string): seq<nat> {
    if events == [] then []
    else
      var n := |events| - 1;
      Positions(events[..n], kind, c, a) + if Is(events[n], kind, c, a) then [n] else []
  }

  /** Completions of a case, whatever the attempt. */
  function Completions(events: seq<Event>, c: string): seq<nat> {
    if events == [] then []
    else
      var n := |events| - 1;
      Completions(events[..n], c)
      + if events[n].kind == CaseComplete && events[n].caseId == Some(c) && Named(events[n].attemptId) then [n] else []
  }

  /** An outcome that the pass records: attempt events without an attempt are skipped over. */
  predicate IsOutcome(e: Event, c: string) {
    e.kind in OUTCOMES && e.caseId == Some(c) && (e.kind in ATTEMPT_EVENTS ==> Named(e.attemptId))
  }

  function OutcomesOf(events: seq<Event>, c: string): seq<Kind> {
    if events == [] then []
    else
      var n := |events| - 1;
      OutcomesOf(events[..n], c) + if IsOutcome(events[n], c) then [events[n].kind] else []
  }

  type Attempts = map<(string, string), seq<nat>>

  function At<K, V>(m: map<K, seq<V>>, k: K): seq<V> {
    if k in m then m[k] else []
  }

  predicate StartedBefore(e: Event, i: nat, starts: seq<nat>) {
    e.kind in {RequestComplete, CaseComplete, CaseFailed} && e.caseId.Some? && e.attemptId.Some? ==>
      exists p :: p in starts && p < i
  }

  /** Each attempt starts once, and its other events come after its start. */
  ghost predicate AttemptsOrdered(events: seq<Event>) {
    && (forall c, a :: |Positions(events, CaseStart, c, a)| <= 1)
    && (forall i :: 0 <= i < |events| && events[i].caseId.Some? && events[i].attemptId.Some? ==>
          StartedBefore(events[i], i, Positions(events, CaseStart, events[i].caseId.value, events[i].attemptId.value)))
  }

  /** Each case completes at most once, after requests of the same attempt were recorded. */
  ghost predicate CompletionsBacked(events: seq<Event>) {
    forall c :: Completions(events, c) != [] ==>
      var done := Completions(events, c);
      |done| == 1 && done[0] < |events| && events[done[0]].attemptId.Some?
      && Positions(events, RequestComplete, c, events[done[0]].attemptId.value) != []
  }

  /** Every planned case has an outcome, unless the run was aborted before it started; and not both a skip and a completion. */
  ghost predicate OutcomesSettled(events: seq<Event>, planned: set<string>) {
    forall c :: c in planned ==>
      var outcomes := OutcomesOf(events, c);
      if outcomes == [] then AbortedTerminal(events) && forall a :: Positions(events, CaseStart, c, a) == []
      else !(CaseComplete in outcomes && exists k :: k in outcomes && k in SKIPS)
  }

  ghost predicate Clean(events: seq<Event>, planned: set<string>) {
    && Bounded(events) && CasesPlanned(events, planned) && Served(events) && AttemptsNamed(events)
    && AttemptsOrdered(events) && CompletionsBacked(events) && OutcomesSettled(events, planned)
  }

  // ---------------------------------------------------------------------------
  // The audit
  // ---------------------------------------------------------------------------

  /** The dictionaries of the audit's main pass. */
  datatype Ledger = Ledger(
    starts: Attempts, requests: Attempts, completions: map<string, seq<nat>>, outcomes: map<string, seq<Kind>>)

  ghost predicate NoneEmpty<K(!new), V>(m: map<K, seq<V>>) {
    forall k :: k in m ==> m[k] != []
  }

  ghost predicate Tracks(l: Ledger, events: seq<Event>) {
    && NoneEmpty(l.starts) && NoneEmpty(l.completions)
    && (forall c, a :: At(l.starts, (c, a)) == Positions(events, CaseStart, c, a))
    && (forall c, a :: At(l.requests, (c, a)) == Positions(events, RequestComplete, c, a))
    && (forall c :: At(l.completions, c) == Completions(events, c))
    && (forall c :: At(l.outcomes, c) == OutcomesOf(events, c))
  }

  function Added<K, V>(m: map<K, seq<V>>, condition: bool, k: K, v: V): map<K, seq<V>> {
    if condition then m[k := At(m, k) + [v]] else m
  }

  function Filed(l: Ledger, i: nat, e: Event): Ledger {
    if e.caseId.None? || (e.kind in ATTEMPT_EVENTS && !Named(e.attemptId)) then l
    else
      var c, a := e.caseId.value, if e.attemptId.Some? then e.attemptId.value else "";
      Ledger(Added(l.starts, e.kind == CaseStart, (c, a), i), Added(l.requests, e.kind == RequestComplete, (c, a), i),
             Added(l.completions, e.kind == CaseComplete, c, i), Added(l.outcomes, e.kind in OUTCOMES, c, e.kind))
  }

  lemma {:induction false} FilingPositions(m: Attempts, kind: Kind, events: seq<Event>, i: nat)
    requires i < |events| && (forall c, a :: At(m, (c, a)) == Positions(events[..i], kind, c, a))
    requires kind in {CaseStart, RequestComplete}
    ensures var e := events[i];
            var filed := if e.caseId.None? || (e.kind in ATTEMPT_EVENTS && !Named(e.attemptId)) then m
                         else Added(m, e.kind == kind, (e.caseId.value, if e.attemptId.Some? then e.attemptId.value else ""), i);
            (forall c, a :: At(filed, (c, a)) == Positions(events[..i + 1], kind, c, a)) && (NoneEmpty(m) ==> NoneEmpty(filed))
  {
    assert events[..i + 1][..i] == events[..i];
    assert kind in ATTEMPT_EVENTS;
  }

  lemma {:induction false} FilingCompletions(m: map<string, seq<nat>>, events: seq<Event>, i: nat)
    requires i < |events| && forall c :: At(m, c) == Completions(events[..i], c)
    ensures var e := events[i];
            var filed := if e.caseId.None? || (e.kind in ATTEMPT_EVENTS && !Named(e.attemptId)) then m
                         else Added(m, e.kind == CaseComplete, e.caseId.value, i);
            (forall c :: At(filed, c) == Completions(events[..i + 1], c)) && (NoneEmpty(m) ==> NoneEmpty(filed))
  {
    assert events[..i + 1][..i] == events[..i];
    assert CaseComplete in ATTEMPT_EVENTS;
  }

  lemma {:induction false} FilingOutcomes(m: map<string, seq<Kind>>, events: seq<Event>, i: nat)
    requires i < |events| && forall c :: At(m, c) == OutcomesOf(events[..i], c)
    ensures var e := events[i];
            var filed := if e.caseId.None? || (e.kind in ATTEMPT_EVENTS && !Named(e.attemptId)) then m
                         else Added(m, e.kind in OUTCOMES, e.caseId.value, e.kind);
            forall c :: At(filed, c) == OutcomesOf(events[..i + 1], c)
  {
    assert events[..i + 1][..i] == events[..i];
  }

  lemma {:induction false} FilingTracks(l: Ledger, events: seq<Event>, i: nat)
    requires i < |events| && Tracks(l, events[..i])
    ensures Tracks(Filed(l, i, events[i]), events[..i + 1])
  {
    hide Positions, Completions, OutcomesOf, Added, Named, At, NoneEmpty;
    FilingPositions(l.starts, CaseStart, events, i);
    FilingPositions(l.requests, RequestComplete, events, i);
    FilingCompletions(l.completions, events, i);
    FilingOutcomes(l.outcomes, events, i);
  }

  method CheckCaseIds(events: seq<Event>, planned: set<string>) returns (issues: seq<Issue>)
    ensures issues == [] <==> CasesPlanned(events, planned)
  {
    issues := [];
    for i := 0 to |events|
      invariant issues == [] <==>
                forall k :: 0 <= k < i && events[k].kind in CASE_EVENTS ==>
                  Named(events[k].caseId) && events[k].caseId.value in planned
    {
      if events[i].kind in CASE_EVENTS {
        if !Named(events[i].caseId) {
          issues := issues + [CaseWithoutId];
        } else if events[i].caseId.value !in planned {
          issues := issues + [UnplannedCase];
        }
      }
    }
  }

  method CheckServer(events: seq<Event>) returns (issues: seq<Issue>)
    ensures issues == [] <==> Served(events)
  {
    issues := [];
    var ready, end := LastReady(events), Terminal(events);
    var measured := HasInside(events, MEASURED, Last(events, {RunStart}), end);
    if measured && ready < 0 {
      issues := issues + [MeasuredWithoutReady];
    }
    if ready >= 0 {
      if measured && !HasInside(events, {FirstRequestComplete}, ready, FirstMeasured(events, 0)) {
        issues := issues + [MissingFirstRequest];
      }
      if !HasInside(events, {ServerStopped, ServerKept}, ready, if AbortedTerminal(events) then |events| else end) {
        issues := issues + [MissingServerCleanup];
      }
    }
  }

  /** The pass that fills the dictionaries. */
  method FileEvents(events: seq<Event>) returns (l: Ledger, issues: seq<Issue>)
    ensures Tracks(l, events) && (issues == [] <==> AttemptsNamed(events))
  {
    hide Tracks, Filed;
    l, issues := Ledger(map[], map[], map[], map[]), [];
    assert Tracks(l, events[..0]) by { NothingFiled(events[..0]); }
    for i := 0 to |events|
      invariant Tracks(l, events[..i])
      invariant issues == [] <==> forall k :: 0 <= k < i && events[k].kind in ATTEMPT_EVENTS ==> Named(events[k].attemptId)
    {
      if events[i].kind in ATTEMPT_EVENTS && !Named(events[i].attemptId) {
        issues := issues + [MissingAttemptId];
      }
      FilingTracks(l, events, i);
      l := Filed(l, i, events[i]);
    }
    assert events[..|events|] == events;
  }

  lemma {:induction false} NothingFiled(events: seq<Event>)
    requires events == []
    ensures Tracks(Ledger(map[], map[], map[], map[]), events)
  {
  }

  lemma {:induction false} StartsOnce(events: seq<Event>, l: Ledger)
    requires Tracks(l, events)
    ensures (forall c, a :: |Positions(events, CaseStart, c, a)| <= 1) <==> !exists k :: k in l.starts && |l.starts[k]| > 1
  {
    hide Positions, Completions, OutcomesOf;
    if forall k :: k in l.starts ==> |l.starts[k]| <= 1 {
      forall c, a
        ensures |Positions(events, CaseStart, c, a)| <= 1
      {
        assert At(l.starts, (c, a)) == Positions(events, CaseStart, c, a);
        assert (c, a) in l.starts ==> |l.starts[(c, a)]| <= 1;
      }
    } else {
      var k :| k in l.starts && |l.starts[k]| > 1;
      match k
      case (c, a) =>
        assert At(l.starts, (c, a)) == Positions(events, CaseStart, c, a);
        assert |Positions(events, CaseStart, c, a)| > 1;
    }
  }

  method CheckAttempts(events: seq<Event>, l: Ledger) returns (issues: seq<Issue>)
    requires Tracks(l, events)
    ensures issues == [] <==> AttemptsOrdered(events)
  {
    hide Positions, Completions, OutcomesOf;
    issues := [];
    StartsOnce(events, l);
    if exists k :: k in l.starts && |l.starts[k]| > 1 {
      issues := [DuplicateStart];
    }
    for i := 0 to |events|
      invariant issues == [] <==>
                && (forall c, a :: |Positions(events, CaseStart, c, a)| <= 1)
                && (forall n :: 0 <= n < i && events[n].caseId.Some? && events[n].attemptId.Some? ==>
                      StartedBefore(events[n], n, Positions(events, CaseStart, events[n].caseId.value, events[n].attemptId.value)))
    {
      var e := events[i];
      if e.caseId.Some? && e.attemptId.Some? && !StartedBefore(e, i, At(l.starts, (e.caseId.value, e.attemptId.value))) {
        issues := issues + [EventWithoutStart];
      }
    }
  }

  /** One case that completed: once, and with requests of the attempt that completed it. */
  predicate Backed(events: seq<Event>, l: Ledger, c: string)
    requires c in l.completions
  {
    var done := l.completions[c];
    |done| == 1 && done[0] < |events| && events[done[0]].attemptId.Some?
    && At(l.requests, (c, events[done[0]].attemptId.value)) != []
  }

  method CheckCompletions(events: seq<Event>, l: Ledger) returns (issues: seq<Issue>)
    requires Tracks(l, events)
    ensures issues == [] <==> CompletionsBacked(events)
  {
    hide Positions, Completions, OutcomesOf;
    issues := [];
    if exists c :: c in l.completions && !Backed(events, l, c) {
      var c :| c in l.completions && !Backed(events, l, c);
      assert At(l.completions, c) == Completions(events, c);
      issues := [if |l.completions[c]| > 1 then DuplicateComplete else CompletedWithoutRequests];
    }
    assert forall c :: At(l.completions, c) == Completions(events, c);
  }

  /** One planned case's outcomes. */
  predicate Settled(events: seq<Event>, l: Ledger, c: string) {
    var outcomes := At(l.outcomes, c);
    if outcomes == [] then AbortedTerminal(events) && forall k :: k in l.starts ==> k.0 != c
    else !(CaseComplete in outcomes && exists k :: k in outcomes && k in SKIPS)
  }

  method CheckOutcomes(events: seq<Event>, planned: set<string>, l: Ledger) returns (issues: seq<Issue>)
    requires Tracks(l, events)
    ensures issues == [] <==> OutcomesSettled(events, planned)
  {
    hide Positions, Completions, OutcomesOf, AbortedTerminal;
    issues := [];
    if exists c :: c in planned && !Settled(events, l, c) {
      var c :| c in planned && !Settled(events, l, c);
      issues := [if At(l.outcomes, c) == [] then MissingOutcome else ConflictingOutcomes];
      SettledMeans(events, l, c);
    } else {
      forall c | c in planned
        ensures var outcomes := OutcomesOf(events, c);
                if outcomes == [] then AbortedTerminal(events) && forall a :: Positions(events, CaseStart, c, a) == []
                else !(CaseComplete in outcomes && exists k :: k in outcomes && k in SKIPS)
      {
        SettledMeans(events, l, c);
      }
    }
  }

  lemma {:induction false} SettledMeans(events: seq<Event>, l: Ledger, c: string)
    requires Tracks(l, events)
    ensures var outcomes := OutcomesOf(events, c);
            Settled(events, l, c)
            <==> if outcomes == [] then AbortedTerminal(events) && forall a :: Positions(events, CaseStart, c, a) == []
                 else !(CaseComplete in outcomes && exists k :: k in outcomes && k in SKIPS)
  {
    hide Positions, Completions, OutcomesOf, AbortedTerminal;
    assert At(l.outcomes, c) == OutcomesOf(events, c);
    NeverStarted(events, l, c);
  }

  lemma {:induction false} NeverStarted(events: seq<Event>, l: Ledger, c: string)
    requires Tracks(l, events)
    ensures (forall k :: k in l.starts ==> k.0 != c) <==> (forall a :: Positions(events, CaseStart, c, a) == [])
  {
    hide Positions, Completions, OutcomesOf;
    if k :| k in l.starts && k.0 == c {
      match k
      case (d, a) =>
        assert At(l.starts, (c, a)) == Positions(events, CaseStart, c, a);
        assert Positions(events, CaseStart, c, a) != [];
    } else {
      forall a
        ensures Positions(events, CaseStart, c, a) == []
      {
        assert At(l.starts, (c, a)) == Positions(events, CaseStart, c, a);
        assert (c, a) in l.starts ==> (c, a).0 != c;
      }
    }
  }

  /** The lifecycle audit: it reports nothing exactly when every check holds. */
  method AuditLifecycle(events: seq<Event>, planned: set<string>) returns (issues: seq<Issue>)
    ensures issues == [] <==> Clean(events, planned)
  {
    hide Served, CasesPlanned, AttemptsNamed, AttemptsOrdered, CompletionsBacked, OutcomesSettled, Tracks;
    if Last(events, {RunStart}) < 0 {
      return [MissingRunStart];
    }
    issues := [];
    if Terminal(events) >= |events| {
      issues := [MissingRunComplete];
    }
    var abort := Last(events, {RunAborted});
    if AbortedTerminal(events) && abort >= 0 && !events[abort].described {
      issues := issues + [InvalidAbortContext];
    }
    var more := CheckCaseIds(events, planned);
    issues := issues + more;
    more := CheckServer(events);
    issues := issues + more;
    var l: Ledger;
    l, more := FileEvents(events);
    issues := issues + more;
    more := CheckAttempts(events, l);
    issues := issues + more;
    more := CheckCompletions(events, l);
    issues := issues + more;
    more := CheckOutcomes(events, planned, l);
    issues := issues + more;
  }

  // ---------------------------------------------------------------------------
  // What a served run is
  // ---------------------------------------------------------------------------

  /** The final run attempt: it starts at s, and ends at t with a completion or an abort, or with the journal. */
  ghost predicate RunSpan(events: seq<Event>, s: int, t: int) {
    && 0 <= s < t <= |events| && events[s].kind == RunStart && NoneAfter(events, {RunStart}, s)
    && (t < |events| ==> events[t].kind in {RunComplete, RunAborted})
    && NoneAfter(events, {RunComplete, RunAborted}, if t < |events| then t else s)
  }

  lemma {:induction false} SpanIs(events: seq<Event>, s: int, t: int)
    requires RunSpan(events, s, t)
    ensures Last(events, {RunStart}) == s && Terminal(events) == t
    ensures AbortedTerminal(events) <==> t < |events| && events[t].kind == RunAborted
  {
    hide Last;
    var start, finish, abort := Last(events, {RunStart}), Last(events, {RunComplete}), Last(events, {RunAborted});
    assert start == s;
    if t < |events| {
      assert events[t].kind == RunComplete ==> finish == t && abort < t;
      assert events[t].kind == RunAborted ==> abort == t && finish < t;
    } else {
      assert finish <= s && abort <= s;
    }
  }

  /** An event of this kind strictly between two positions. */
  predicate Between(events: seq<Event>, kinds: set<Kind>, low: int, high: int, q: int) {
    low < q < high && 0 <= q < |events| && events[q].kind in kinds
  }

  lemma {:induction false} FirstMeasuredIs(events: seq<Event>, s: int, t: int, i: nat)
    requires RunSpan(events, s, t) && i <= |events|
    ensures var m := FirstMeasured(events, i);
            && (forall q :: i <= q && Between(events, MEASURED, s, t, q) ==> m <= q)
            && (m == t || (i <= m && Between(events, MEASURED, s, t, m)))
    decreases |events| - i
  {
    hide RunSpan, Terminal, Last, AbortedTerminal;
    SpanIs(events, s, t);
    if i < |events| {
      FirstMeasuredIs(events, s, t, i + 1);
    }
  }

  lemma {:induction false} LastReadyIs(events: seq<Event>, s: int, t: int)
    requires RunSpan(events, s, t)
    ensures var r := LastReady(events);
            if r < 0 then forall q :: !Between(events, {ServerReady}, s, t, q)
            else Between(events, {ServerReady}, s, t, r) && forall q :: Between(events, {ServerReady}, s, t, q) ==> q <= r
  {
    SpanIs(events, s, t);
    hide Last, Terminal, AbortedTerminal;
    var before := events[..t];
    assert forall q :: 0 <= q < t ==> before[q] == events[q];
  }

  lemma {:induction false} InsideMeans(events: seq<Event>, kinds: set<Kind>, low: int, high: int)
    ensures HasInside(events, kinds, low, high) <==> exists q :: Between(events, kinds, low, high, q)
  {
    if q :| Between(events, kinds, low, high, q) {
      assert 0 <= q < |events| && low < q < high && events[q].kind in kinds;
    }
    if q :| 0 <= q < |events| && low < q < high && events[q].kind in kinds {
      assert Between(events, kinds, low, high, q);
    }
  }

  /** The last server that became ready in the attempt. */
  ghost predicate ReadyAt(events: seq<Event>, s: int, t: int, r: int) {
    Between(events, {ServerReady}, s, t, r) && forall q :: Between(events, {ServerReady}, s, t, q) ==> q <= r
  }

  /** After it, a first request came before everything measured. */
  ghost predicate Primed(events: seq<Event>, s: int, t: int, r: int) {
    exists q :: Between(events, {FirstRequestComplete}, r, t, q) && forall m :: Between(events, MEASURED, s, t, m) ==> q < m
  }

  lemma {:induction false} PrimedMeans(events: seq<Event>, s: int, t: int, r: int)
    requires RunSpan(events, s, t)
    ensures var first := FirstMeasured(events, 0);
            HasInside(events, {FirstRequestComplete}, r, first) <==> Primed(events, s, t, r)
  {
    FirstMeasuredIs(events, s, t, 0);
    hide RunSpan, FirstMeasured;
    var first := FirstMeasured(events, 0);
    InsideMeans(events, {FirstRequestComplete}, r, first);
    if q :| Between(events, {FirstRequestComplete}, r, first, q) {
      assert Between(events, {FirstRequestComplete}, r, t, q) && forall m :: Between(events, MEASURED, s, t, m) ==> q < m;
    }
    if q :| Between(events, {FirstRequestComplete}, r, t, q) && forall m :: Between(events, MEASURED, s, t, m) ==> q < m {
      assert Between(events, {FirstRequestComplete}, r, first, q);
    }
  }

  /**
   The server checks of a final run attempt from s to t. They pass exactly if measuring needs a ready server; and if
   one was ready, r being the last, then a first request came after r and before everything measured, and the server
   was stopped or deliberately kept after r, within the attempt unless it was aborted.
   */
  lemma {:induction false} ServedMeans(events: seq<Event>, s: int, t: int)
    requires RunSpan(events, s, t)
    ensures var measured := exists q :: Between(events, MEASURED, s, t, q);
            var end := if t < |events| && events[t].kind == RunAborted then |events| else t;
            Served(events) <==>
            && (measured ==> exists r :: Between(events, {ServerReady}, s, t, r))
            && forall r :: ReadyAt(events, s, t, r) ==>
                 && (exists q :: Between(events, {ServerStopped, ServerKept}, r, end, q))
                 && (measured ==> Primed(events, s, t, r))
  {
    SpanIs(events, s, t);
    LastReadyIs(events, s, t);
    var r, end := LastReady(events), if AbortedTerminal(events) then |events| else t;
    PrimedMeans(events, s, t, r);
    InsideMeans(events, MEASURED, s, t);
    InsideMeans(events, {ServerStopped, ServerKept}, r, end);
    hide Last, Terminal, AbortedTerminal, LastReady, FirstMeasured, RunSpan, HasInside, Primed;
    if r >= 0 {
      assert Between(events, {ServerReady}, s, t, r) && ReadyAt(events, s, t, r);
    }
  }

  // ---------------------------------------------------------------------------
  // The derived status
  // ---------------------------------------------------------------------------

  /** The identity as text; an absent one is the text None. */
  function Text(id: Option<string>): string {
    if id.Some? then id.value else "None"
  }

  /** The last completion of each case. */
  function LastCompletions(events: seq<Event>): map<string, Event> {
    if events == [] then map[]
    else
      var n := |events| - 1;
      var before := LastCompletions(events[..n]);
      if events[n].kind == CaseComplete then before[Text(events[n].caseId) := events[n]] else before
  }

  /** Cases with an event of this kind that never completed. */
  function Unfinished(events: seq<Event>, completed: map<string, Event>, kind: Kind): set<string> {
    set i | 0 <= i < |events| && events[i].kind == kind && Text(events[i].caseId) !in completed :: Text(events[i].caseId)
  }

  function StatusOf(events: seq<Event>, completed: map<string, Event>): Status {
    var start, finish, abort := Last(events, {RunStart}), Last(events, {RunComplete}), Last(events, {RunAborted});
    var failure, cleaned := Last(events, {CleanupFailed}), Last(events, {ServerStopped, ServerKept});
    if start < 0 then NotStarted
    else if abort > start && abort > finish then Aborted
    else if finish < start then Incomplete
    else if failure > Max(start, cleaned) then Partial
    else if finish >= 0 && events[finish].noWork then NoWork
    else if Unfinished(events, completed, CaseFailed) != {} || Unfinished(events, completed, SkippedUnimplemented) != {}
            || (exists c :: c in completed && completed[c].validationFailed) then Partial
    else Complete
  }

  method DeriveStatus(events: seq<Event>) returns (status: Status)
    ensures status == StatusOf(events, LastCompletions(events))
  {
    var completed: map<string, Event> := map[];
    for i := 0 to |events|
      invariant completed == LastCompletions(events[..i])
    {
      assert events[..i + 1][..i] == events[..i];
      if events[i].kind == CaseComplete {
        completed := completed[Text(events[i].caseId) := events[i]];
      }
    }
    assert events[..|events|] == events;
    status := StatusOf(events, completed);
  }

  // ---------------------------------------------------------------------------
  // What became of every planned case
  // ---------------------------------------------------------------------------

  lemma {:induction false} PositionsMean(events: seq<Event>, kind: Kind, c: string, a: string)
    ensures forall p :: p in Positions(events, kind, c, a) <==> 0 <= p < |events| && Is(events[p], kind, c, a)
    decreases |events|
  {
    if events != [] {
      PositionsMean(events[..|events| - 1], kind, c, a);
    }
  }

  lemma {:induction false} CompletionsMean(events: seq<Event>, c: string)
    ensures forall p :: p in Completions(events, c) <==>
              0 <= p < |events| && events[p].kind == CaseComplete && events[p].caseId == Some(c) && Named(events[p].attemptId)
    decreases |events|
  {
    if events != [] {
      CompletionsMean(events[..|events| - 1], c);
    }
  }

  lemma {:induction false} OutcomesMean(events: seq<Event>, c: string)
    ensures forall k :: k in OutcomesOf(events, c) <==> exists p :: 0 <= p < |events| && IsOutcome(events[p], c) && events[p].kind == k
    decreases |events|
  {
    if events != [] {
      var n := |events| - 1;
      OutcomesMean(events[..n], c);
      assert forall p :: 0 <= p < n ==> events[..n][p] == events[p];
      forall k | exists p :: 0 <= p < |events| && IsOutcome(events[p], c) && events[p].kind == k
        ensures k in OutcomesOf(events, c)
      {
        var p :| 0 <= p < |events| && IsOutcome(events[p], c) && events[p].kind == k;
        if p < n {
          assert IsOutcome(events[..n][p], c);
        }
      }
      forall k | k in OutcomesOf(events, c)
        ensures exists p :: 0 <= p < |events| && IsOutcome(events[p], c) && events[p].kind == k
      {
        if k in OutcomesOf(events[..n], c) {
          var p :| 0 <= p < n && IsOutcome(events[..n][p], c) && events[..n][p].kind == k;
          assert IsOutcome(events[p], c);
        } else {
          assert IsOutcome(events[n], c) && events[n].kind == k;
        }
      }
    }
  }

  lemma {:induction false} LastCompletionMeans(events: seq<Event>)
    ensures forall c :: c in LastCompletions(events) <==> exists p :: 0 <= p < |events| && Completes(events[p], c)
    ensures forall c :: c in LastCompletions(events) ==>
              exists p :: 0 <= p < |events| && Completes(events[p], c) && LastCompletions(events)[c] == events[p]
    decreases |events|
  {
    if events != [] {
      var n := |events| - 1;
      LastCompletionMeans(events[..n]);
      forall c
        ensures c in LastCompletions(events) <==> exists p :: 0 <= p < |events| && Completes(events[p], c)
        ensures c in LastCompletions(events) ==>
                  exists p :: 0 <= p < |events| && Completes(events[p], c) && LastCompletions(events)[c] == events[p]
      {
        if p :| 0 <= p < |events| && Completes(events[p], c) && p < n {
          assert Completes(events[..n][p], c);
        }
        if c in LastCompletions(events[..n]) {
          var p :| 0 <= p < n && Completes(events[..n][p], c) && LastCompletions(events[..n])[c] == events[..n][p];
          assert Completes(events[p], c);
        }
        if Completes(events[n], c) {
          assert LastCompletions(events)[c] == events[n];
        }
      }
    }
  }

  predicate Completes(e: Event, c: string) {
    e.kind == CaseComplete && Text(e.caseId) == c
  }

  /** No event of these kinds comes later. */
  predicate NoneAfter(events: seq<Event>, kinds: set<Kind>, p: int) {
    forall q :: 0 <= q < |events| && p < q ==> events[q].kind !in kinds
  }

  /** The last completion of a case. */
  predicate CompletesLast(events: seq<Event>, p: int, c: string) {
    0 <= p < |events| && Completes(events[p], c) && forall q :: p < q < |events| ==> !Completes(events[q], c)
  }

  lemma {:induction false} LastCompletionIsLast(events: seq<Event>, c: string)
    ensures c in LastCompletions(events) ==> exists p :: CompletesLast(events, p, c) && LastCompletions(events)[c] == events[p]
    ensures c !in LastCompletions(events) ==> forall p :: 0 <= p < |events| ==> !Completes(events[p], c)
    decreases |events|
  {
    if events != [] {
      var n := |events| - 1;
      var before := events[..n];
      LastCompletionIsLast(before, c);
      assert forall q :: 0 <= q < n ==> before[q] == events[q];
      if Completes(events[n], c) {
        assert CompletesLast(events, n, c);
      } else if c in LastCompletions(before) {
        var p :| CompletesLast(before, p, c) && LastCompletions(before)[c] == before[p];
        assert CompletesLast(events, p, c);
      }
    }
  }

  lemma {:induction false} CompletesLastOnce(events: seq<Event>, p: int, q: int, c: string)
    ensures CompletesLast(events, p, c) && CompletesLast(events, q, c) ==> p == q
  {
  }

  /** Some case failed or was left unimplemented and never completed, or its last completion did not validate. */
  ghost predicate SomeCaseOpen(events: seq<Event>) {
    || (exists p :: 0 <= p < |events| && NeverCompleted(events, p))
    || (exists p, c :: CompletesLast(events, p, c) && events[p].validationFailed)
  }

  ghost predicate NeverCompleted(events: seq<Event>, p: int)
    requires 0 <= p < |events|
  {
    && (events[p].kind == CaseFailed || events[p].kind == SkippedUnimplemented)
    && forall q :: 0 <= q < |events| ==> !Completes(events[q], Text(events[p].caseId))
  }

  lemma {:induction false} OpenCases(events: seq<Event>)
    ensures var completed := LastCompletions(events);
            SomeCaseOpen(events) <==>
            Unfinished(events, completed, CaseFailed) != {} || Unfinished(events, completed, SkippedUnimplemented) != {}
            || exists c :: c in completed && completed[c].validationFailed
  {
    hide LastCompletions, Completes, Unfinished, NeverCompleted, CompletesLast;
    var completed := LastCompletions(events);
    UnfinishedMeans(events, completed, CaseFailed);
    UnfinishedMeans(events, completed, SkippedUnimplemented);
    forall p | 0 <= p < |events|
      ensures NeverCompleted(events, p) <==>
              events[p].kind in {CaseFailed, SkippedUnimplemented} && Text(events[p].caseId) !in completed
    {
      NeverIsUnfinished(events, p);
    }
    InvalidLast(events);
  }

  lemma {:induction false} NeverIsUnfinished(events: seq<Event>, p: nat)
    requires p < |events|
    ensures NeverCompleted(events, p) <==>
            events[p].kind in {CaseFailed, SkippedUnimplemented} && Text(events[p].caseId) !in LastCompletions(events)
  {
    hide LastCompletions, Completes;
    LastCompletionIsLast(events, Text(events[p].caseId));
  }

  lemma {:induction false} InvalidLast(events: seq<Event>)
    ensures (exists p, c :: CompletesLast(events, p, c) && events[p].validationFailed)
            <==> exists c :: c in LastCompletions(events) && LastCompletions(events)[c].validationFailed
  {
    hide LastCompletions, Completes;
    var completed := LastCompletions(events);
    if p, c :| CompletesLast(events, p, c) && events[p].validationFailed {
      LastCompletionIsLast(events, c);
      var q :| CompletesLast(events, q, c) && completed[c] == events[q];
      CompletesLastOnce(events, p, q, c);
    }
    if c :| c in completed && completed[c].validationFailed {
      LastCompletionIsLast(events, c);
      var q :| CompletesLast(events, q, c) && completed[c] == events[q];
    }
  }

  lemma {:induction false} UnfinishedMeans(events: seq<Event>, completed: map<string, Event>, kind: Kind)
    ensures Unfinished(events, completed, kind) != {} <==>
            exists p :: 0 <= p < |events| && events[p].kind == kind && Text(events[p].caseId) !in completed
  {
    if p :| 0 <= p < |events| && events[p].kind == kind && Text(events[p].caseId) !in completed {
      assert Text(events[p].caseId) in Unfinished(events, completed, kind);
    }
  }

  /**
   What a status means. With p the last start, completion or abort of a started run: an abort there aborts it, a start
   leaves it incomplete, and after a completion it is partial over a cleanup that failed and was not made good or over
   a case left open, without work if it said so, and otherwise complete.
   */
  lemma {:induction false} StatusMeans(events: seq<Event>, p: nat)
    requires p < |events| && events[p].kind in {RunStart, RunComplete, RunAborted}
    requires NoneAfter(events, {RunStart, RunComplete, RunAborted}, p)
    ensures var started := exists q :: 0 <= q < |events| && events[q].kind == RunStart;
            var dirty := exists q :: 0 <= q < |events| && events[q].kind == CleanupFailed
                                     && NoneAfter(events, {RunStart, ServerStopped, ServerKept}, q);
            var status := StatusOf(events, LastCompletions(events));
            && (status == NotStarted <==> !started)
            && (status == Aborted <==> started && events[p].kind == RunAborted)
            && (status == Incomplete <==> events[p].kind == RunStart)
            && (status == NoWork <==> started && events[p].kind == RunComplete && !dirty && events[p].noWork)
            && (status == Complete <==>
                  started && events[p].kind == RunComplete && !dirty && !events[p].noWork && !SomeCaseOpen(events))
            && (status == Partial <==>
                  started && events[p].kind == RunComplete && (dirty || (!events[p].noWork && SomeCaseOpen(events))))
  {
    hide LastCompletions, Unfinished, SomeCaseOpen;
    OpenCases(events);
    CleanupIsDirty(events);
    hide Last;
    var start, finish, abort := Last(events, {RunStart}), Last(events, {RunComplete}), Last(events, {RunAborted});
    assert events[p].kind == RunStart ==> start == p;
    assert events[p].kind == RunComplete ==> finish == p;
    assert events[p].kind == RunAborted ==> abort == p;
    assert start <= p && finish <= p && abort <= p;
  }

  lemma {:induction false} CleanupIsDirty(events: seq<Event>)
    ensures Last(events, {CleanupFailed}) > Max(Last(events, {RunStart}), Last(events, {ServerStopped, ServerKept})) <==>
            exists q :: 0 <= q < |events| && events[q].kind == CleanupFailed && NoneAfter(events, {RunStart, ServerStopped, ServerKept}, q)
  {
    hide Last;
    var start, failure, cleaned := Last(events, {RunStart}), Last(events, {CleanupFailed}), Last(events, {ServerStopped, ServerKept});
    if failure > Max(start, cleaned) {
      assert NoneAfter(events, {RunStart, ServerStopped, ServerKept}, failure);
    }
    if q :| 0 <= q < |events| && events[q].kind == CleanupFailed && NoneAfter(events, {RunStart, ServerStopped, ServerKept}, q) {
      assert q <= failure && start < q && cleaned < q;
    }
  }

  lemma {:induction false} NeverRun(events: seq<Event>)
    requires forall q :: 0 <= q < |events| ==> events[q].kind !in {RunStart, RunComplete, RunAborted}
    ensures StatusOf(events, LastCompletions(events)) == NotStarted
  {
  }

  /** The case completed exactly once, in an attempt that had started before and recorded requests, and validated. */
  ghost predicate CompletedOnce(events: seq<Event>, c: string, p: nat, a: string) {
    && p < |events| && Is(events[p], CaseComplete, c, a) && !events[p].validationFailed
    && (forall q :: 0 <= q < |events| && events[q].kind == CaseComplete && events[q].caseId == Some(c) ==> q == p)
    && (exists q :: 0 <= q < p && Is(events[q], CaseStart, c, a))
    && (exists q :: 0 <= q < |events| && Is(events[q], RequestComplete, c, a))
    && (forall q :: 0 <= q < |events| && events[q].kind in SKIPS ==> events[q].caseId != Some(c))
  }

  /** The case was only ever skipped, as unsupported or for its context size. */
  ghost predicate OnlySkipped(events: seq<Event>, c: string) {
    && (exists q :: 0 <= q < |events| && events[q].kind in SKIPS && events[q].caseId == Some(c))
    && (forall q :: 0 <= q < |events| && events[q].kind in OUTCOMES && events[q].caseId == Some(c) ==>
          events[q].kind in {SkippedContextLimit, SkippedUnsupported})
  }

  lemma {:induction false} NotAborted(events: seq<Event>, completed: map<string, Event>)
    requires StatusOf(events, completed) == Complete
    ensures !AbortedTerminal(events)
    ensures Unfinished(events, completed, CaseFailed) == {} && Unfinished(events, completed, SkippedUnimplemented) == {}
    ensures forall c :: c in completed ==> !completed[c].validationFailed
  {
    hide Unfinished;
  }

  lemma {:induction false} OnlyCompletion(events: seq<Event>, c: string, p: nat)
    requires AttemptsNamed(events) && Completions(events, c) == [p]
    ensures p < |events| && events[p].kind == CaseComplete && events[p].caseId == Some(c) && Named(events[p].attemptId)
    ensures forall q :: 0 <= q < |events| && events[q].kind == CaseComplete && events[q].caseId == Some(c) ==> q == p
  {
    CompletionsMean(events, c);
    hide Completions;
    assert p in Completions(events, c);
    forall q | 0 <= q < |events| && events[q].kind == CaseComplete && events[q].caseId == Some(c)
      ensures q == p
    {
      assert CaseComplete in ATTEMPT_EVENTS;
      assert q in Completions(events, c);
    }
  }

  lemma {:induction false} NeverSkipped(events: seq<Event>, planned: set<string>, c: string, p: nat)
    requires OutcomesSettled(events, planned) && c in planned
    requires p < |events| && events[p].kind == CaseComplete && events[p].caseId == Some(c) && Named(events[p].attemptId)
    ensures forall q :: 0 <= q < |events| && events[q].kind in SKIPS ==> events[q].caseId != Some(c)
  {
    OutcomesRecorded(events, c);
    hide OutcomesOf, Positions, AbortedTerminal;
  }

  /** Skips are always recorded, and completions of a named attempt are. */
  lemma {:induction false} OutcomesRecorded(events: seq<Event>, c: string)
    ensures forall q :: 0 <= q < |events| && events[q].kind in SKIPS && events[q].caseId == Some(c) ==>
              events[q].kind in OutcomesOf(events, c)
    ensures (exists q :: 0 <= q < |events| && events[q].kind == CaseComplete && events[q].caseId == Some(c)
                         && Named(events[q].attemptId))
            ==> CaseComplete in OutcomesOf(events, c)
  {
    OutcomesMean(events, c);
    hide OutcomesOf;
    forall q | 0 <= q < |events| && events[q].kind in SKIPS && events[q].caseId == Some(c)
      ensures events[q].kind in OutcomesOf(events, c)
    {
      assert IsOutcome(events[q], c);
    }
    forall q | 0 <= q < |events| && events[q].kind == CaseComplete && events[q].caseId == Some(c) && Named(events[q].attemptId)
      ensures CaseComplete in OutcomesOf(events, c)
    {
      assert IsOutcome(events[q], c);
    }
  }

  lemma {:induction false} AttemptBacked(events: seq<Event>, c: string, a: string, p: nat)
    requires AttemptsOrdered(events) && CompletionsBacked(events) && Completions(events, c) == [p]
    requires p < |events| && Is(events[p], CaseComplete, c, a)
    ensures exists q :: 0 <= q < p && Is(events[q], CaseStart, c, a)
    ensures exists q :: 0 <= q < |events| && Is(events[q], RequestComplete, c, a)
  {
    PositionsMean(events, CaseStart, c, a);
    PositionsMean(events, RequestComplete, c, a);
    hide Positions, Completions;
    var starts, requests := Positions(events, CaseStart, c, a), Positions(events, RequestComplete, c, a);
    assert StartedBefore(events[p], p, starts);
    assert requests[0] in requests;
  }

  lemma {:induction false} ValidatedCompletion(events: seq<Event>, planned: set<string>, c: string, p: nat)
    requires CasesPlanned(events, planned) && p < |events| && Completes(events[p], c)
    requires forall q :: 0 <= q < |events| && events[q].kind == CaseComplete && events[q].caseId == Some(c) ==> q == p
    requires forall d :: d in LastCompletions(events) ==> !LastCompletions(events)[d].validationFailed
    ensures !events[p].validationFailed
  {
    LastCompletionMeans(events);
    hide LastCompletions;
    var q :| 0 <= q < |events| && Completes(events[q], c) && LastCompletions(events)[c] == events[q];
    assert CaseComplete in CASE_EVENTS;
  }

  lemma {:induction false} CompletedCase(events: seq<Event>, planned: set<string>, c: string)
    requires Clean(events, planned) && StatusOf(events, LastCompletions(events)) == Complete && c in planned
    requires Completions(events, c) != []
    ensures exists p, a :: CompletedOnce(events, c, p, a)
  {
    hide Served, Positions, OutcomesOf, Completions, Last, Terminal, LastCompletions, StatusOf, AbortedTerminal, Bounded,
         OutcomesSettled, AttemptsOrdered, CasesPlanned, AttemptsNamed;
    NotAborted(events, LastCompletions(events));
    var p := Completions(events, c)[0];
    assert Completions(events, c) == [p];
    hide CompletionsBacked;
    OnlyCompletion(events, c, p);
    var a := events[p].attemptId.value;
    NeverSkipped(events, planned, c, p);
    AttemptBacked(events, c, a, p);
    ValidatedCompletion(events, planned, c, p);
    assert CompletedOnce(events, c, p, a);
  }

  lemma {:induction false} NotInCompleted(events: seq<Event>, planned: set<string>, c: string)
    requires CasesPlanned(events, planned) && AttemptsNamed(events) && Completions(events, c) == []
    ensures c !in LastCompletions(events)
    ensures forall q :: 0 <= q < |events| ==> !(events[q].kind == CaseComplete && events[q].caseId == Some(c))
  {
    CompletionsMean(events, c);
    LastCompletionMeans(events);
    hide Completions, LastCompletions;
    forall q | 0 <= q < |events|
      ensures !(events[q].kind == CaseComplete && events[q].caseId == Some(c))
    {
      assert CaseComplete in ATTEMPT_EVENTS;
      assert q !in Completions(events, c);
    }
    assert CaseComplete in CASE_EVENTS;
  }

  lemma {:induction false} EveryOutcomeSkips(events: seq<Event>, completed: map<string, Event>, c: string)
    requires c !in completed
    requires Unfinished(events, completed, CaseFailed) == {} && Unfinished(events, completed, SkippedUnimplemented) == {}
    requires forall q :: 0 <= q < |events| ==> !(events[q].kind == CaseComplete && events[q].caseId == Some(c))
    ensures forall q :: 0 <= q < |events| && events[q].kind in OUTCOMES && events[q].caseId == Some(c) ==>
              events[q].kind in {SkippedContextLimit, SkippedUnsupported}
  {
    forall q | 0 <= q < |events| && events[q].kind in OUTCOMES && events[q].caseId == Some(c)
      ensures events[q].kind in {SkippedContextLimit, SkippedUnsupported}
    {
      assert events[q].kind == CaseFailed ==> c in Unfinished(events, completed, CaseFailed);
      assert events[q].kind == SkippedUnimplemented ==> c in Unfinished(events, completed, SkippedUnimplemented);
    }
  }

  lemma {:induction false} SkippedCase(events: seq<Event>, planned: set<string>, c: string)
    requires Clean(events, planned) && StatusOf(events, LastCompletions(events)) == Complete && c in planned
    requires Completions(events, c) == []
    ensures OnlySkipped(events, c) && forall p: nat :: p < |events| ==> !(events[p].kind == CaseComplete && events[p].caseId == Some(c))
  {
    NotAborted(events, LastCompletions(events));
    NotInCompleted(events, planned, c);
    EveryOutcomeSkips(events, LastCompletions(events), c);
    OutcomesMean(events, c);
    hide Served, Positions, OutcomesOf, Completions, Last, Terminal, LastCompletions, StatusOf, AbortedTerminal, Bounded,
         CompletionsBacked, AttemptsOrdered, CasesPlanned, AttemptsNamed, Unfinished;
    var outcomes := OutcomesOf(events, c);
    assert outcomes[0] in outcomes;
    var q :| 0 <= q < |events| && IsOutcome(events[q], c) && events[q].kind == outcomes[0];
    assert events[q].kind in SKIPS;
  }

  /**
   Audit partition: under a clean audit and a complete status every planned case either completed once, properly, or
   was only skipped as unsupported or too large; never both.
   */
  lemma {:induction false} CleanCompleteRunsSettleEveryCase(events: seq<Event>, planned: set<string>, c: string)
    requires Clean(events, planned) && StatusOf(events, LastCompletions(events)) == Complete && c in planned
    ensures (exists p, a :: CompletedOnce(events, c, p, a)) <==> !OnlySkipped(events, c)
  {
    hide Served, Positions, OutcomesOf, Completions, Last, Terminal, LastCompletions;
    OutcomesMean(events, c);
    CompletionsMean(events, c);
    if Completions(events, c) != [] {
      CompletedCase(events, planned, c);
    } else {
      SkippedCase(events, planned, c);
    }
  }
}
