/**
 The lifecycle probe of one running cell (bench/autoresearch_campaign.py): an incremental, chunked
 reader of an append-only journal. However the journal grows between calls, repeated reading equals
 reading it once, and the progress it reports never goes back.
 */
module Probe {
  import opened Common
  import opened Framing

  const MAX_LINE_BYTES := 16 * 1024 * 1024
  const MAX_JOURNAL_BYTES := 64 * 1024 * 1024
  const CHUNK_BYTES := 65_536
  const NS_PER_S := 1_000_000_000

  /**
   A decoded journal line. `wellShaped` says that a marker has exactly its keys and an aware timestamp; a clock
   that is not an integer, or a duration that is not finite and non-negative, is absent.
   */
  datatype Entry =
    | RunStart(wellShaped: bool, resumes: bool, fingerprint: string, nonce: string)
    | MeasurementStarted(wellShaped: bool, fingerprint: string, nonce: string, clock: Option<int>)
    | MeasurementComplete(wellShaped: bool, clock: Option<int>, elapsedS: Option<real>)
    | ServerStopped(wellShaped: bool, clock: Option<int>, cleanupS: Option<real>)
    | RunComplete(wellShaped: bool)
    | Unmarked

  datatype Fault = Malformed | BindingMismatch | MeasurementBudget | CleanupBudget | Regressed | Changed

  datatype Settings = Settings(
    fingerprint: string, nonce: string, measurementS: nat, cleanupS: nat, finalizationS: nat, decode: Bytes -> Option<Entry>)

  /** The lifecycle fields. */
  datatype Lifecycle = Lifecycle(
    runStarted: bool, startedNs: Option<int>, completeNs: Option<int>, stoppedNs: Option<int>, runCompleted: bool,
    measurementS: Option<real>, cleanupS: Option<real>)

  const PRISTINE := Lifecycle(false, None, None, None, false, None, None)

  function Seconds(ns: int): real {
    ns as real / NS_PER_S as real
  }

  function Distance(a: real, b: real): real {
    if a <= b then b - a else a - b
  }

  function Consume(s: Settings, p: Lifecycle, e: Entry): Result<Lifecycle, Fault> {
    match e
    case RunStart(wellShaped, resumes, fingerprint, nonce) =>
      if !wellShaped || p.runStarted || p.startedNs.Some? || resumes then Err(Malformed)
      else if fingerprint != s.fingerprint || nonce != s.nonce then Err(BindingMismatch)
      else Ok(p.(runStarted := true))
    case MeasurementStarted(wellShaped, fingerprint, nonce, clock) =>
      if !wellShaped || !p.runStarted || p.startedNs.Some? then Err(Malformed)
      else if fingerprint != s.fingerprint || nonce != s.nonce then Err(BindingMismatch)
      else if clock.None? || clock.value <= 0 then Err(Malformed)
      else Ok(p.(startedNs := clock))
    case MeasurementComplete(wellShaped, clock, elapsedS) =>
      if !wellShaped || p.startedNs.None? || p.completeNs.Some? || p.stoppedNs.Some? then Err(Malformed)
      else if clock.None? || clock.value <= 0 || elapsedS.None? || elapsedS.value < 0.0 then Err(Malformed)
      else
        var elapsedNs := clock.value - p.startedNs.value;
        if elapsedNs < 0 || elapsedNs > s.measurementS * NS_PER_S || elapsedS.value > s.measurementS as real
           || Distance(elapsedS.value, Seconds(elapsedNs)) > 0.000001
        then Err(MeasurementBudget)
        else Ok(p.(completeNs := clock, measurementS := elapsedS))
    case ServerStopped(wellShaped, clock, cleanupS) =>
      if !wellShaped || p.startedNs.None? || p.stoppedNs.Some? then Err(Malformed)
      else if clock.None? || clock.value <= 0 || cleanupS.None? || cleanupS.value < 0.0 then Err(Malformed)
      else if clock.value < p.startedNs.value || cleanupS.value > s.cleanupS as real then Err(CleanupBudget)
      else if p.completeNs.Some?
              && (clock.value < p.completeNs.value || clock.value - p.completeNs.value > s.cleanupS * NS_PER_S)
      then Err(CleanupBudget)
      else Ok(p.(stoppedNs := clock, cleanupS := cleanupS))
    case RunComplete(wellShaped) =>
      if !wellShaped || p.stoppedNs.None? || p.runCompleted then Err(Malformed) else Ok(p.(runCompleted := true))
    case Unmarked => Ok(p)
  }

  datatype Marker = Marker(offset: nat, line: Bytes)

  /** What complete lines contribute: the lifecycle, and where each marker lies. */
  datatype Parsed = Parsed(lifecycle: Lifecycle, markers: seq<Marker>, offset: nat)

  function ParseLine(s: Settings, p: Parsed, line: Bytes): Result<Parsed, Fault> {
    if line == [] || |line| > MAX_LINE_BYTES then Err(Malformed)
    else
      var e := s.decode(line);
      if e.None? then Err(Malformed)
      else
        var next := Consume(s, p.lifecycle, e.value);
        if next.Err? then Err(next.error)
        else Ok(Parsed(next.value, if e.value.Unmarked? then p.markers else p.markers + [Marker(p.offset, line)],
                       p.offset + |line| + 1))
  }

  function ParseLines(s: Settings, p: Parsed, lines: seq<Bytes>): Result<Parsed, Fault> {
    if lines == [] then Ok(p)
    else
      var before := ParseLines(s, p, lines[..|lines| - 1]);
      if before.Err? then before else ParseLine(s, before.value, lines[|lines| - 1])
  }

  const NOTHING_PARSED := Parsed(PRISTINE, [], 0)

  /** Reading a whole journal at once, line by line from the start. */
  function ReadOnce(s: Settings, journal: Bytes): Result<Parsed, Fault> {
    var split := SplitLines(journal);
    if |split.tail| > MAX_LINE_BYTES then Err(Malformed) else ParseLines(s, NOTHING_PARSED, split.lines)
  }

  lemma {:induction false} ParseConcat(s: Settings, p: Parsed, a: seq<Bytes>, b: seq<Bytes>)
    ensures var mid := ParseLines(s, p, a);
            ParseLines(s, p, a + b) == if mid.Err? then mid else ParseLines(s, mid.value, b)
    decreases |b|
  {
    if b == [] {
      assert a + b == a;
    } else {
      var n := |b| - 1;
      assert (a + b)[..|a + b| - 1] == a + b[..n];
      ParseConcat(s, p, a, b[..n]);
    }
  }

  /** The lines of a longer journal are the lines so far and those of the unfinished tail with the new bytes. */
  lemma {:induction false} SplitTail(journal: Bytes, more: Bytes)
    ensures var so, far := SplitLines(journal), SplitLines(SplitLines(journal).tail + more);
            SplitLines(journal + more) == Split(so.lines + far.lines, far.tail)
  {
    var so := SplitLines(journal);
    SplitConcat(Split([], []), journal, more);
    SplitConcat(Split([], []), so.tail, more);
    LinesHaveNoNewline(Split([], []), journal);
    SplitWithoutNewline(Split([], []), so.tail);
    assert [] + so.tail == so.tail;
    SplitPrefix(so.lines, Split([], so.tail), more);
    assert so.lines + [] == so.lines;
  }

  /** Lines already split off do not affect the rest. */
  lemma {:induction false} SplitPrefix(lines: seq<Bytes>, t: Split, more: Bytes)
    ensures SplitFrom(Split(lines + t.lines, t.tail), more)
            == Split(lines + SplitFrom(t, more).lines, SplitFrom(t, more).tail)
    decreases |more|
  {
    if more != [] {
      var b := more[0];
      assert b == NEWLINE ==> (lines + t.lines) + [t.tail] == lines + (t.lines + [t.tail]);
      SplitPrefix(lines, Feed(t, b), more[1..]);
    }
  }

  // ---------------------------------------------------------------------------
  // Which journals are accepted
  // ---------------------------------------------------------------------------

  /** The elapsed time that a completion claims agrees with the clocks to a microsecond, and both keep the budget. */
  predicate Took(s: Settings, startedNs: int, completeNs: int, elapsedS: real) {
    && 0 <= completeNs - startedNs <= 1000000000 * s.measurementS
    && elapsedS <= s.measurementS as real
    && -1000.0 <= elapsedS * 1000000000.0 - (completeNs - startedNs) as real <= 1000.0
  }

  /** What one entry may be, given all the entries before it. */
  ghost predicate Allowed(s: Settings, before: seq<Entry>, e: Entry) {
    match e
    case RunStart(wellShaped, resumes, fingerprint, nonce) =>
      && wellShaped && !resumes && fingerprint == s.fingerprint && nonce == s.nonce
      && forall x :: x in before ==> !x.RunStart?
    case MeasurementStarted(wellShaped, fingerprint, nonce, clock) =>
      && wellShaped && fingerprint == s.fingerprint && nonce == s.nonce && clock.Some? && clock.value > 0
      && (exists x :: x in before && x.RunStart?) && forall x :: x in before ==> !x.MeasurementStarted?
    case MeasurementComplete(wellShaped, clock, elapsedS) =>
      && wellShaped && clock.Some? && clock.value > 0 && elapsedS.Some? && elapsedS.value >= 0.0
      && (exists x :: x in before && x.MeasurementStarted? && x.clock.Some? && Took(s, x.clock.value, clock.value, elapsedS.value))
      && forall x :: x in before ==> !x.MeasurementComplete? && !x.ServerStopped?
    case ServerStopped(wellShaped, clock, cleanupS) =>
      && wellShaped && clock.Some? && clock.value > 0 && cleanupS.Some? && 0.0 <= cleanupS.value <= s.cleanupS as real
      && (exists x :: x in before && x.MeasurementStarted? && x.clock.Some? && x.clock.value <= clock.value)
      && (forall x :: x in before && x.MeasurementComplete? && x.clock.Some? ==>
            0 <= clock.value - x.clock.value <= 1000000000 * s.cleanupS)
      && forall x :: x in before ==> !x.ServerStopped?
    case RunComplete(wellShaped) =>
      wellShaped && (exists x :: x in before && x.ServerStopped?) && forall x :: x in before ==> !x.RunComplete?
    case Unmarked => true
  }

  /** A lifecycle that holds exactly what the entries say. */
  ghost predicate Holds(p: Lifecycle, entries: seq<Entry>) {
    && (p.runStarted <==> exists x :: x in entries && x.RunStart?)
    && (p.startedNs.Some? <==> exists x :: x in entries && x.MeasurementStarted?)
    && (p.completeNs.Some? <==> exists x :: x in entries && x.MeasurementComplete?)
    && (p.stoppedNs.Some? <==> exists x :: x in entries && x.ServerStopped?)
    && (p.runCompleted <==> exists x :: x in entries && x.RunComplete?)
    && (forall x :: x in entries && x.MeasurementStarted? ==> p.startedNs == x.clock)
    && (forall x :: x in entries && x.MeasurementComplete? ==> p.completeNs == x.clock && p.measurementS == x.elapsedS)
    && (forall x :: x in entries && x.ServerStopped? ==> p.stoppedNs == x.clock && p.cleanupS == x.cleanupS)
    && (p.startedNs.Some? ==> p.runStarted)
  }

  lemma {:induction false} TookMeans(s: Settings, startedNs: int, completeNs: int, elapsedS: real)
    ensures var elapsedNs := completeNs - startedNs;
            Took(s, startedNs, completeNs, elapsedS) <==>
            !(elapsedNs < 0 || elapsedNs > s.measurementS * NS_PER_S || elapsedS > s.measurementS as real
              || Distance(elapsedS, Seconds(elapsedNs)) > 0.000001)
  {
  }

  lemma {:induction false} ConsumeAllows(s: Settings, p: Lifecycle, before: seq<Entry>, e: Entry)
    requires Holds(p, before)
    ensures Consume(s, p, e).Ok? <==> Allowed(s, before, e)
  {
    hide Took, Distance, Seconds;
    if e.MeasurementComplete? && p.startedNs.Some? && e.clock.Some? && e.elapsedS.Some? {
      TookMeans(s, p.startedNs.value, e.clock.value, e.elapsedS.value);
    }
  }

  lemma {:induction false} ConsumeHolds(s: Settings, p: Lifecycle, before: seq<Entry>, e: Entry)
    requires Holds(p, before) && Consume(s, p, e).Ok?
    ensures Holds(Consume(s, p, e).value, before + [e])
  {
    hide Distance, Seconds;
    assert forall x :: x in before + [e] <==> x in before || x == e;
  }

  predicate Readable(s: Settings, line: Bytes) {
    0 < |line| <= MAX_LINE_BYTES && s.decode(line).Some?
  }

  function EntryOf(s: Settings, line: Bytes): Entry {
    if s.decode(line).Some? then s.decode(line).value else Unmarked
  }

  function Entries(s: Settings, lines: seq<Bytes>): seq<Entry> {
    seq(|lines|, i requires 0 <= i < |lines| => EntryOf(s, lines[i]))
  }

  /** Each line can be read, and each entry is allowed after those before it. */
  ghost predicate Lawful(s: Settings, lines: seq<Bytes>) {
    && (forall line :: line in lines ==> Readable(s, line))
    && forall i :: 0 <= i < |lines| ==> Allowed(s, Entries(s, lines)[..i], Entries(s, lines)[i])
  }

  lemma {:induction false} LawfulSnoc(s: Settings, lines: seq<Bytes>, line: Bytes)
    ensures Lawful(s, lines + [line]) <==>
            Lawful(s, lines) && Readable(s, line) && Allowed(s, Entries(s, lines), EntryOf(s, line))
    ensures Entries(s, lines + [line]) == Entries(s, lines) + [EntryOf(s, line)]
  {
    hide Allowed, Readable;
    assert forall x :: x in lines + [line] <==> x in lines || x == line;
    var before, all := Entries(s, lines), Entries(s, lines + [line]);
    assert all == before + [EntryOf(s, line)];
    assert forall i :: 0 <= i <= |lines| ==> all[..i] == before[..i];
    assert all[..|lines|] == before;
  }

  /** The lines accepted are exactly the lawful ones, and the lifecycle then holds exactly what their entries say. */
  lemma {:induction false} AcceptedExactly(s: Settings, lines: seq<Bytes>)
    ensures ParseLines(s, NOTHING_PARSED, lines).Ok? <==> Lawful(s, lines)
    ensures Lawful(s, lines) ==> Holds(ParseLines(s, NOTHING_PARSED, lines).value.lifecycle, Entries(s, lines))
    decreases |lines|
  {
    hide Allowed, Holds, Consume, Lawful;
    if lines == [] {
      NothingLawful(s);
    } else {
      var n := |lines| - 1;
      var rest, line := lines[..n], lines[n];
      assert lines == rest + [line];
      AcceptedExactly(s, rest);
      LawfulSnoc(s, rest, line);
      if Lawful(s, rest) && Readable(s, line) {
        var p, e := ParseLines(s, NOTHING_PARSED, rest).value, s.decode(line).value;
        ConsumeAllows(s, p.lifecycle, Entries(s, rest), e);
        if Allowed(s, Entries(s, rest), e) {
          ConsumeHolds(s, p.lifecycle, Entries(s, rest), e);
        }
      }
    }
  }

  lemma {:induction false} NothingLawful(s: Settings)
    ensures Lawful(s, []) && Holds(PRISTINE, Entries(s, []))
  {
  }

  // ---------------------------------------------------------------------------
  // Incremental reading
  // ---------------------------------------------------------------------------

  /** One more read: the unfinished tail with the new bytes, parsed on top of what has been parsed. */
  function ReadMore(s: Settings, tail: Bytes, p: Parsed, more: Bytes): Result<Parsed, Fault> {
    var split := SplitLines(tail + more);
    if |split.tail| > MAX_LINE_BYTES then Err(Malformed) else ParseLines(s, p, split.lines)
  }

  /** Incremental reading refines reading at once, to the same state or the same fault. */
  lemma {:induction false} ReadMoreIsReadOnce(s: Settings, journal: Bytes, more: Bytes)
    requires ReadOnce(s, journal).Ok?
    ensures ReadMore(s, SplitLines(journal).tail, ReadOnce(s, journal).value, more) == ReadOnce(s, journal + more)
    ensures SplitLines(SplitLines(journal).tail + more).tail == SplitLines(journal + more).tail
  {
    var so, far := SplitLines(journal), SplitLines(SplitLines(journal).tail + more);
    SplitTail(journal, more);
    ParseConcat(s, NOTHING_PARSED, so.lines, far.lines);
  }

  /** A journal that cannot be read stays unreadable however it grows. */
  lemma {:induction false} FaultsPersist(s: Settings, journal: Bytes, more: Bytes)
    requires ReadOnce(s, journal).Err?
    ensures ReadOnce(s, journal + more).Err?
  {
    var so, far := SplitLines(journal), SplitLines(SplitLines(journal).tail + more);
    SplitTail(journal, more);
    ParseConcat(s, NOTHING_PARSED, so.lines, far.lines);
    if |so.tail| > MAX_LINE_BYTES {
      LinesHaveNoNewline(Split([], []), journal);
      SplitConcat(Split([], []), so.tail, more);
      SplitWithoutNewline(Split([], []), so.tail);
      assert [] + so.tail == so.tail;
      FirstLineKeepsTail(Split([], so.tail), more);
      var p := ParseLines(s, NOTHING_PARSED, so.lines);
      if p.Ok? && far.lines != [] {
        LongLineFails(s, p.value, far.lines);
      }
    }
  }

  lemma {:induction false} FirstLineKeepsTail(t: Split, more: Bytes)
    ensures var r := SplitFrom(t, more);
            t.lines == [] ==> if r.lines == [] then |r.tail| >= |t.tail| else |r.lines[0]| >= |t.tail|
    ensures t.lines != [] ==> SplitFrom(t, more).lines != [] && SplitFrom(t, more).lines[0] == t.lines[0]
    decreases |more|
  {
    if more != [] {
      FirstLineKeepsTail(Feed(t, more[0]), more[1..]);
    }
  }

  lemma {:induction false} LongLineFails(s: Settings, p: Parsed, lines: seq<Bytes>)
    requires lines != [] && |lines[0]| > MAX_LINE_BYTES
    ensures ParseLines(s, p, lines).Err?
    decreases |lines|
  {
    if |lines| > 1 {
      LongLineFails(s, p, lines[..|lines| - 1]);
    }
  }

  /** Every marker lies where it was found, and the parsed lines end where the tail begins. */
  ghost predicate MarkersPoint(p: Parsed, journal: Bytes) {
    forall m :: m in p.markers ==> m.offset + |m.line| <= |journal| && journal[m.offset..m.offset + |m.line|] == m.line
  }

  lemma {:induction false} ParsedMarkers(s: Settings, lines: seq<Bytes>)
    requires ParseLines(s, NOTHING_PARSED, lines).Ok?
    ensures var p := ParseLines(s, NOTHING_PARSED, lines).value;
            p.offset == |Join(lines)| && MarkersPoint(p, Join(lines))
    decreases |lines|
  {
    if lines != [] {
      var n := |lines| - 1;
      ParsedMarkers(s, lines[..n]);
      var before, line := Join(lines[..n]), lines[n];
      var all := before + line + [NEWLINE];
      assert Join(lines) == all;
      assert all[|before|..|before| + |line|] == line;
      var p := ParseLines(s, NOTHING_PARSED, lines[..n]).value;
      forall m | m in p.markers
        ensures all[m.offset..m.offset + |m.line|] == m.line
      {
        assert all[m.offset..m.offset + |m.line|] == before[m.offset..m.offset + |m.line|];
      }
    }
  }

  /** Recorded markers always point at their own bytes, in the journal read and in all its extensions. */
  lemma {:induction false} MarkersStay(s: Settings, journal: Bytes, more: Bytes)
    requires ReadOnce(s, journal).Ok?
    ensures var p := ReadOnce(s, journal).value;
            MarkersPoint(p, journal + more) && p.offset + |SplitLines(journal).tail| == |journal|
  {
    var split, p := SplitLines(journal), ReadOnce(s, journal).value;
    ParsedMarkers(s, split.lines);
    SplitJoins(Split([], []), journal);
    assert Join([]) + [] + journal == journal;
    assert journal == Join(split.lines) + split.tail;
    forall m | m in p.markers
      ensures (journal + more)[m.offset..m.offset + |m.line|] == m.line
    {
      assert (journal + more)[m.offset..m.offset + |m.line|] == Join(split.lines)[m.offset..m.offset + |m.line|];
    }
  }

  // ---------------------------------------------------------------------------
  // The probe
  // ---------------------------------------------------------------------------

  /** What one call finds: no journal, or the file with its size when it was opened and its content when last read. */
  datatype View = Absent | Present(identity: nat, size: nat, content: Bytes)

  /** What the probe remembers between calls. */
  datatype Reader = Reader(identity: Option<nat>, offset: nat, tail: Bytes, parsed: Parsed)

  const FRESH := Reader(None, 0, [], NOTHING_PARSED)

  /** Reading the marker's length at its offset gives the marker's bytes. */
  predicate Unchanged(m: Marker, content: Bytes) {
    m.offset + |m.line| <= |content| && content[m.offset..m.offset + |m.line|] == m.line
  }

  function Fresh(offset: nat, content: Bytes): Bytes {
    if offset <= |content| then content[offset..] else []
  }

  /** One call, on any view at all. */
  function Read(s: Settings, r: Reader, view: View): Result<Reader, Fault> {
    if view.Absent? then if r.identity.Some? then Err(Regressed) else Ok(r)
    else if view.size > MAX_JOURNAL_BYTES then Err(Malformed)
    else if r.identity.Some? && (r.identity != Some(view.identity) || view.size < r.offset) then Err(Regressed)
    else if exists m :: m in r.parsed.markers && !Unchanged(m, view.content) then Err(Changed)
    else
      var more := Fresh(r.offset, view.content);
      var parsed := ReadMore(s, r.tail, r.parsed, more);
      if parsed.Err? then Err(parsed.error)
      else Ok(Reader(Some(view.identity), r.offset + |more|, SplitLines(r.tail + more).tail, parsed.value))
  }

  function ReadAll(s: Settings, views: seq<View>): Result<Reader, Fault> {
    if views == [] then Ok(FRESH)
    else
      var before := ReadAll(s, views[..|views| - 1]);
      if before.Err? then before else Read(s, before.value, views[|views| - 1])
  }

  predicate Coherent(view: View) {
    view.Present? ==> view.size <= |view.content|
  }

  /** The journal is only ever appended to: it stays present, keeps its identity, and grows. */
  predicate Growing(earlier: View, later: View) {
    && Coherent(earlier) && Coherent(later)
    && (earlier.Present? ==>
          later.Present? && later.identity == earlier.identity && earlier.content <= later.content
          && |earlier.content| <= later.size)
  }

  /** Two outcomes that succeed together, with the same reader. */
  predicate SameSuccess(a: Result<Reader, Fault>, b: Result<Reader, Fault>) {
    (a.Ok? <==> b.Ok?) && (a.Ok? ==> a == b)
  }

  lemma {:induction false} FirstRead(s: Settings, view: View)
    requires view.Present? && view.size <= MAX_JOURNAL_BYTES
    ensures Read(s, FRESH, view)
            == var parsed := ReadOnce(s, view.content);
               if parsed.Err? then Err(parsed.error)
               else Ok(Reader(Some(view.identity), |view.content|, SplitLines(view.content).tail, parsed.value))
  {
    assert [] + view.content == view.content;
    assert Fresh(0, view.content) == view.content;
  }

  lemma {:induction false} NextRead(s: Settings, u: View, v: View)
    requires Growing(u, v)
    ensures Read(s, FRESH, u).Err? ==> Read(s, FRESH, v).Err?
    ensures Read(s, FRESH, u).Ok? ==> SameSuccess(Read(s, Read(s, FRESH, u).value, v), Read(s, FRESH, v))
    ensures Read(s, FRESH, u).Ok? ==> Read(s, Read(s, FRESH, u).value, v) !in {Err(Regressed), Err(Changed)}
  {
    if u.Present? && u.size <= MAX_JOURNAL_BYTES && v.size <= MAX_JOURNAL_BYTES {
      FirstRead(s, u);
      FirstRead(s, v);
      var more := v.content[|u.content|..];
      assert v.content == u.content + more;
      if ReadOnce(s, u.content).Err? {
        FaultsPersist(s, u.content, more);
      } else {
        ReadMoreIsReadOnce(s, u.content, more);
        MarkersStay(s, u.content, more);
        ErrorsOfReading(s, v.content);
      }
    } else if u.Absent? && v.Present? {
      if v.size <= MAX_JOURNAL_BYTES {
        FirstRead(s, v);
        ErrorsOfReading(s, v.content);
      }
    }
  }

  lemma {:induction false} ErrorsOfParsing(s: Settings, p: Parsed, lines: seq<Bytes>)
    ensures ParseLines(s, p, lines) !in {Err(Regressed), Err(Changed)}
    decreases |lines|
  {
    if lines != [] {
      ErrorsOfParsing(s, p, lines[..|lines| - 1]);
    }
  }

  lemma {:induction false} ErrorsOfReading(s: Settings, journal: Bytes)
    ensures ReadOnce(s, journal) !in {Err(Regressed), Err(Changed)}
  {
    ErrorsOfParsing(s, NOTHING_PARSED, SplitLines(journal).lines);
  }

  ghost predicate AllGrowing(views: seq<View>) {
    (forall v :: v in views ==> Coherent(v)) && forall i :: 0 < i < |views| ==> Growing(views[i - 1], views[i])
  }

  /**
   Any number of calls while the journal grows ends as one call at the end would: in the same state, or both in a
   fault. The probe never takes a growing journal for a replaced, truncated or edited one.
   */
  lemma {:induction false} RepeatedReadingIsReadingOnce(s: Settings, views: seq<View>)
    requires views != [] && AllGrowing(views)
    ensures SameSuccess(ReadAll(s, views), Read(s, FRESH, views[|views| - 1]))
    ensures ReadAll(s, views) !in {Err(Regressed), Err(Changed)}
    decreases |views|
  {
    var n := |views| - 1;
    assert ReadAll(s, []) == Ok(FRESH);
    if n == 0 {
      assert views[..0] == [];
      NextRead(s, Absent, views[0]);
    } else {
      RepeatedReadingIsReadingOnce(s, views[..n]);
      NextRead(s, views[n - 1], views[n]);
    }
  }

  /** What has been read before stays as it was: the same file, no shorter, with every marker in its place. */
  ghost predicate StillThere(r: Reader, view: View) {
    r.identity.Some? ==>
      && view.Present? && Some(view.identity) == r.identity && view.size >= r.offset
      && forall m :: m in r.parsed.markers ==>
           m.offset + |m.line| <= |view.content| && view.content[m.offset..m.offset + |m.line|] == m.line
  }

  /** Nothing that a reader has recorded is forgotten. */
  ghost predicate Recalls(r: Reader, later: Reader) {
    && (r.identity.Some? ==> later.identity == r.identity) && r.offset <= later.offset
    && forall m :: m in r.parsed.markers ==> m in later.parsed.markers
  }

  lemma {:induction false} ParsingRecalls(s: Settings, p: Parsed, lines: seq<Bytes>)
    requires ParseLines(s, p, lines).Ok?
    ensures forall m :: m in p.markers ==> m in ParseLines(s, p, lines).value.markers
    decreases |lines|
  {
    hide Consume;
    if lines != [] {
      ParsingRecalls(s, p, lines[..|lines| - 1]);
    }
  }

  lemma {:induction false} ReadRecalls(s: Settings, r: Reader, view: View)
    requires Read(s, r, view).Ok?
    ensures StillThere(r, view) && Recalls(r, Read(s, r, view).value)
  {
    hide ParseLines, SplitLines;
    if view.Present? {
      ParsingRecalls(s, r.parsed, SplitLines(r.tail + Fresh(r.offset, view.content)).lines);
    }
  }

  lemma {:induction false} ReadingRecalls(s: Settings, views: seq<View>, i: nat)
    requires i <= |views| && ReadAll(s, views).Ok?
    ensures ReadAll(s, views[..i]).Ok? && Recalls(ReadAll(s, views[..i]).value, ReadAll(s, views).value)
    decreases |views|
  {
    hide Read;
    if i == |views| {
      assert views[..i] == views;
    } else {
      var n := |views| - 1;
      assert views[..n][..i] == views[..i];
      ReadingRecalls(s, views[..n], i);
      ReadRecalls(s, ReadAll(s, views[..n]).value, views[n]);
    }
  }

  /**
   However the journal changes between calls, the probe only goes on if the file it has read is still there: the same
   one, no shorter than what was read of it, and unchanged wherever a marker was found.
   */
  lemma {:induction false} TamperingIsRefused(s: Settings, views: seq<View>, i: nat)
    requires i < |views| && ReadAll(s, views).Ok?
    ensures ReadAll(s, views[..i]).Ok? && StillThere(ReadAll(s, views[..i]).value, views[|views| - 1])
  {
    var n := |views| - 1;
    ReadingRecalls(s, views[..n], i);
    assert views[..n][..i] == views[..i];
    ReadRecalls(s, ReadAll(s, views[..n]).value, views[n]);
    hide Read, ReadAll;
  }

  // ---------------------------------------------------------------------------
  // What the probe reports
  // ---------------------------------------------------------------------------

  datatype Phase = Measuring | Cleaning | Finalizing
  {
    function Rank(): nat {
      match this
      case Measuring => 0
      case Cleaning => 1
      case Finalizing => 2
    }
  }

  datatype WorkerProgress = WorkerProgress(phase: Phase, deadline: real)

  /** The active phase, and the deadline derived from its durable marker. */
  function Report(s: Settings, p: Lifecycle): Option<WorkerProgress> {
    if p.stoppedNs.Some? then Some(WorkerProgress(Finalizing, Seconds(p.stoppedNs.value) + s.finalizationS as real))
    else if p.completeNs.Some? then Some(WorkerProgress(Cleaning, Seconds(p.completeNs.value) + s.cleanupS as real))
    else if p.startedNs.Some? then Some(WorkerProgress(Measuring, Seconds(p.startedNs.value) + s.measurementS as real))
    else None
  }

  /** The supervisor's own check of what the probe reports (bench/autoresearch_worker.py). */
  function Validated(value: Option<WorkerProgress>, previous: Option<WorkerProgress>): Result<Option<WorkerProgress>, Fault> {
    if value.None? then if previous.Some? then Err(Regressed) else Ok(None)
    else if value.value.deadline <= 0.0 then Err(Malformed)
    else if previous.Some? && value.value.phase.Rank() < previous.value.phase.Rank() then Err(Regressed)
    else if previous.Some? && value.value.phase == previous.value.phase && value != previous then Err(Changed)
    else Ok(value)
  }

  /** Markers are only added; a measurement cannot complete once the server has stopped. */
  ghost predicate Later(p: Lifecycle, q: Lifecycle) {
    && (p.startedNs.Some? ==> q.startedNs == p.startedNs)
    && (p.completeNs.Some? ==> q.completeNs == p.completeNs)
    && (p.stoppedNs.Some? ==> q.stoppedNs == p.stoppedNs)
  }

  predicate PositiveClocks(p: Lifecycle) {
    && (p.startedNs.Some? ==> p.startedNs.value > 0)
    && (p.completeNs.Some? ==> p.completeNs.value > 0)
    && (p.stoppedNs.Some? ==> p.stoppedNs.value > 0)
  }

  lemma {:induction false} ParsingMovesOn(s: Settings, p: Parsed, lines: seq<Bytes>)
    requires ParseLines(s, p, lines).Ok? && PositiveClocks(p.lifecycle)
    ensures Later(p.lifecycle, ParseLines(s, p, lines).value.lifecycle)
    ensures PositiveClocks(ParseLines(s, p, lines).value.lifecycle)
    decreases |lines|
  {
    if lines != [] {
      ParsingMovesOn(s, p, lines[..|lines| - 1]);
    }
  }

  /** Durations between the markers stay within the frozen budgets. */
  predicate WithinBudgets(s: Settings, p: Lifecycle) {
    && (p.completeNs.Some? ==> p.startedNs.Some? && 0 <= p.completeNs.value - p.startedNs.value <= s.measurementS * NS_PER_S)
    && (p.stoppedNs.Some? ==> p.startedNs.Some? && p.startedNs.value <= p.stoppedNs.value)
    && (p.stoppedNs.Some? && p.completeNs.Some? ==> 0 <= p.stoppedNs.value - p.completeNs.value <= s.cleanupS * NS_PER_S)
    && (p.runCompleted ==> p.stoppedNs.Some?)
  }

  /** Whatever journal the probe accepts kept its measurement and cleanup budgets, marker by marker. */
  lemma {:induction false} AcceptedWithinBudgets(s: Settings, p: Parsed, lines: seq<Bytes>)
    requires ParseLines(s, p, lines).Ok? && WithinBudgets(s, p.lifecycle)
    ensures WithinBudgets(s, ParseLines(s, p, lines).value.lifecycle)
    decreases |lines|
  {
    hide Seconds, Distance;
    if lines != [] {
      AcceptedWithinBudgets(s, p, lines[..|lines| - 1]);
    }
  }

  /** A marker with a clock: the ones that begin a phase. */
  predicate BeginsPhase(s: Settings, line: Bytes) {
    var e := s.decode(line);
    e.Some? && (e.value.MeasurementStarted? || e.value.MeasurementComplete? || e.value.ServerStopped?)
  }

  ghost predicate LastBegun(s: Settings, lines: seq<Bytes>, i: int) {
    0 <= i < |lines| && BeginsPhase(s, lines[i]) && forall j :: i < j < |lines| ==> !BeginsPhase(s, lines[j])
  }

  /** The phase that a marker begins ends its own budget after it; nanoseconds on both sides. */
  predicate Begins(s: Settings, e: Entry, w: WorkerProgress) {
    match e
    case MeasurementStarted(_, _, _, clock) =>
      clock.Some? && w.phase == Measuring && w.deadline * 1000000000.0 == (clock.value + 1000000000 * s.measurementS) as real
    case MeasurementComplete(_, clock, _) =>
      clock.Some? && w.phase == Cleaning && w.deadline * 1000000000.0 == (clock.value + 1000000000 * s.cleanupS) as real
    case ServerStopped(_, clock, _) =>
      clock.Some? && w.phase == Finalizing && w.deadline * 1000000000.0 == (clock.value + 1000000000 * s.finalizationS) as real
    case _ => false
  }

  lemma {:induction false} ConsumedReports(s: Settings, p: Lifecycle, line: Bytes)
    requires WithinBudgets(s, p) && s.decode(line).Some? && Consume(s, p, s.decode(line).value).Ok?
    ensures var q := Consume(s, p, s.decode(line).value).value;
            if BeginsPhase(s, line) then Report(s, q).Some? && Begins(s, s.decode(line).value, Report(s, q).value)
            else Report(s, q) == Report(s, p)
  {
    hide Distance;
  }

  lemma {:induction false} NotLastBegun(s: Settings, lines: seq<Bytes>, i: nat)
    requires i < |lines| && BeginsPhase(s, lines[|lines| - 1])
    ensures LastBegun(s, lines, i) ==> i == |lines| - 1
  {
  }

  /**
   What is reported of a journal: nothing exactly if no phase has begun, and otherwise the phase begun by the last
   such marker, with the deadline that this marker and that phase's own budget make.
   */
  lemma {:induction false} ReportIsLastMarker(s: Settings, lines: seq<Bytes>)
    requires ParseLines(s, NOTHING_PARSED, lines).Ok?
    ensures var r := Report(s, ParseLines(s, NOTHING_PARSED, lines).value.lifecycle);
            && (r.None? <==> forall i :: 0 <= i < |lines| ==> !BeginsPhase(s, lines[i]))
            && (forall i :: LastBegun(s, lines, i) ==> r.Some? && Begins(s, s.decode(lines[i]).value, r.value))
    decreases |lines|
  {
    hide BeginsPhase, Begins, Report, Consume, WithinBudgets;
    if lines == [] {
      NothingReported(s);
    } else {
      var n := |lines| - 1;
      var rest := lines[..n];
      ReportIsLastMarker(s, rest);
      NothingExceeded(s);
      AcceptedWithinBudgets(s, NOTHING_PARSED, rest);
      ConsumedReports(s, ParseLines(s, NOTHING_PARSED, rest).value.lifecycle, lines[n]);
      assert forall j :: 0 <= j < n ==> rest[j] == lines[j];
      forall i | LastBegun(s, lines, i)
        ensures if BeginsPhase(s, lines[n]) then i == n else LastBegun(s, rest, i)
      {
        if BeginsPhase(s, lines[n]) {
          NotLastBegun(s, lines, i);
        }
      }
    }
  }

  /** However often a growing journal was read, what is reported is what its last such marker says. */
  lemma {:induction false} ProbeReportsLastMarker(s: Settings, views: seq<View>)
    requires views != [] && AllGrowing(views) && ReadAll(s, views).Ok? && views[|views| - 1].Present?
    ensures var lines := SplitLines(views[|views| - 1].content).lines;
            var r := Report(s, ReadAll(s, views).value.parsed.lifecycle);
            && Lawful(s, lines)
            && (r.None? <==> forall i :: 0 <= i < |lines| ==> !BeginsPhase(s, lines[i]))
            && (forall i :: LastBegun(s, lines, i) ==> r.Some? && Begins(s, s.decode(lines[i]).value, r.value))
  {
    hide BeginsPhase, Begins, Report, Lawful, ReadAll, AllGrowing;
    var last := views[|views| - 1];
    RepeatedReadingIsReadingOnce(s, views);
    FirstRead(s, last);
    ReportIsLastMarker(s, SplitLines(last.content).lines);
    AcceptedExactly(s, SplitLines(last.content).lines);
  }

  lemma {:induction false} NothingReported(s: Settings)
    ensures Report(s, PRISTINE) == None
  {
  }

  lemma {:induction false} LaterThanNothing(p: Lifecycle)
    ensures Later(PRISTINE, p)
  {
  }

  lemma {:induction false} NothingExceeded(s: Settings)
    ensures WithinBudgets(s, PRISTINE)
  {
  }

  lemma {:induction false} SecondsPositive(ns: int)
    requires ns > 0
    ensures Seconds(ns) > 0.0
  {
  }

  lemma {:induction false} ReportsValidate(s: Settings, p: Lifecycle, q: Lifecycle)
    requires Later(p, q) && PositiveClocks(q)
    ensures Validated(Report(s, q), Report(s, p)) == Ok(Report(s, q))
  {
    if q.stoppedNs.Some? {
      SecondsPositive(q.stoppedNs.value);
    }
    if q.completeNs.Some? {
      SecondsPositive(q.completeNs.value);
    }
    if q.startedNs.Some? {
      SecondsPositive(q.startedNs.value);
    }
  }

  /** On a growing journal the supervisor accepts every report: progress never regresses and deadlines never change. */
  lemma {:induction false} ReportsAreAccepted(s: Settings, views: seq<View>, i: nat, j: nat)
    requires AllGrowing(views) && i <= j <= |views| && ReadAll(s, views).Ok?
    ensures ReadAll(s, views[..i]).Ok? && ReadAll(s, views[..j]).Ok?
    ensures var earlier, later := ReadAll(s, views[..i]).value.parsed.lifecycle, ReadAll(s, views[..j]).value.parsed.lifecycle;
            Validated(Report(s, later), Report(s, earlier)) == Ok(Report(s, later))
  {
    ReadingMovesOn(s, views, j);
    ReadingMovesOn(s, views[..j], i);
    assert views[..j][..i] == views[..i];
    ReportsValidate(s, ReadAll(s, views[..i]).value.parsed.lifecycle, ReadAll(s, views[..j]).value.parsed.lifecycle);
  }

  lemma {:induction false} ReadingMovesOn(s: Settings, views: seq<View>, i: nat)
    requires i <= |views| && ReadAll(s, views).Ok?
    ensures ReadAll(s, views[..i]).Ok?
    ensures Later(ReadAll(s, views[..i]).value.parsed.lifecycle, ReadAll(s, views).value.parsed.lifecycle)
    ensures PositiveClocks(ReadAll(s, views).value.parsed.lifecycle)
    decreases |views|
  {
    var n := |views| - 1;
    if views != [] {
      ReadingMovesOn(s, views[..n], if i <= n then i else n);
      var before := ReadAll(s, views[..n]).value;
      if views[n].Present? {
        ParsingMovesOn(s, before.parsed, SplitLines(before.tail + Fresh(before.offset, views[n].content)).lines);
      }
      if i <= n {
        assert views[..n][..i] == views[..i];
      } else {
        assert views[..i] == views;
      }
    } else {
      assert views[..i] == views;
    }
  }

  // ---------------------------------------------------------------------------
  // The object
  // ---------------------------------------------------------------------------

  lemma {:induction false} ParsedOffset(s: Settings, p: Parsed, lines: seq<Bytes>)
    requires ParseLines(s, p, lines).Ok?
    ensures ParseLines(s, p, lines).value.offset == p.offset + |Join(lines)|
    decreases |lines|
  {
    if lines != [] {
      ParsedOffset(s, p, lines[..|lines| - 1]);
    }
  }

  lemma {:induction false} ParseStops(s: Settings, p: Parsed, lines: seq<Bytes>, n: nat)
    requires n <= |lines| && ParseLines(s, p, lines[..n]).Err?
    ensures ParseLines(s, p, lines) == ParseLines(s, p, lines[..n])
    decreases |lines|
  {
    if n == |lines| {
      assert lines[..n] == lines;
    } else {
      assert lines[..|lines| - 1][..n] == lines[..n];
      ParseStops(s, p, lines[..|lines| - 1], n);
    }
  }

  lemma {:induction false} SplitLengths(file: Bytes)
    ensures |Join(SplitLines(file).lines)| + |SplitLines(file).tail| == |file|
  {
    SplitJoins(Split([], []), file);
    assert Join([]) + [] + file == file;
  }

  class CellLifecycleProgress {
    const s: Settings
    var identity: Option<nat>
    var offset: nat
    var tail: Bytes
    var markers: seq<Marker>
    var lifecycle: Lifecycle

    constructor (s: Settings)
      ensures this.s == s && State() == FRESH && Valid()
    {
      this.s := s;
      identity, offset, tail, markers, lifecycle := None, 0, [], [], PRISTINE;
    }

    ghost function State(): Reader
      reads this
    {
      Reader(identity, offset, tail, Parsed(lifecycle, markers, if |tail| <= offset then offset - |tail| else 0))
    }

    ghost predicate Valid()
      reads this
    {
      |tail| <= offset
    }

    /** Everything beyond the offset, in chunks. */
    method ReadChunks(content: Bytes) returns (more: Bytes)
      modifies this`offset
      ensures more == Fresh(old(offset), content) && offset == old(offset) + |more|
    {
      more := [];
      while offset < |content|
        invariant old(offset) <= |content| ==> offset <= |content| && more == content[old(offset)..offset]
        invariant old(offset) > |content| ==> more == []
        invariant offset == old(offset) + |more|
      {
        var end := if offset + CHUNK_BYTES <= |content| then offset + CHUNK_BYTES else |content|;
        more := more + content[offset..end];
        offset := end;
      }
    }

    /** Consume complete lines in order, recording each marker where it lies. */
    method ConsumeLines(lines: seq<Bytes>, start: nat) returns (fault: Option<Fault>)
      modifies this`lifecycle, this`markers
      ensures var parsed := ParseLines(s, Parsed(old(lifecycle), old(markers), start), lines);
              if fault.None? then parsed == Ok(Parsed(lifecycle, markers, start + |Join(lines)|)) else parsed == Err(fault.value)
    {
      var lineOffset := start;
      for i := 0 to |lines|
        invariant lineOffset >= 0
        invariant ParseLines(s, Parsed(old(lifecycle), old(markers), start), lines[..i]) == Ok(Parsed(lifecycle, markers, lineOffset))
      {
        assert lines[..i + 1][..i] == lines[..i];
        var parsed := ParseLine(s, Parsed(lifecycle, markers, lineOffset), lines[i]);
        if parsed.Err? {
          ParseStops(s, Parsed(old(lifecycle), old(markers), start), lines, i + 1);
          return Some(parsed.error);
        }
        lifecycle, markers, lineOffset := parsed.value.lifecycle, parsed.value.markers, parsed.value.offset;
      }
      assert lines[..|lines|] == lines;
      ParsedOffset(s, Parsed(old(lifecycle), old(markers), start), lines);
      return None;
    }

    /** Read what is new, remember its markers, and stop at the first fault. */
    method ReadNewEvents(view: View) returns (fault: Option<Fault>)
      requires Valid()
      modifies this
      ensures fault.None? ==> Valid() && Read(s, old(State()), view) == Ok(State())
      ensures fault.Some? ==> Read(s, old(State()), view) == Err(fault.value)
    {
      if view.Absent? {
        return if identity.Some? then Some(Regressed) else None;
      }
      if view.size > MAX_JOURNAL_BYTES {
        return Some(Malformed);
      }
      if identity.Some? && (identity != Some(view.identity) || view.size < offset) {
        return Some(Regressed);
      }
      for i := 0 to |markers|
        invariant forall k :: 0 <= k < i ==> Unchanged(markers[k], view.content)
      {
        if !Unchanged(markers[i], view.content) {
          assert markers[i] in State().parsed.markers;
          return Some(Changed);
        }
      }
      hide Unchanged, SplitLines, ParseLines;
      identity := Some(view.identity);
      var payloadStart := offset - |tail|;
      var more := ReadChunks(view.content);
      var split := SplitLines(tail + more);
      SplitLengths(tail + more);
      tail := split.tail;
      if |tail| > MAX_LINE_BYTES {
        return Some(Malformed);
      }
      fault := ConsumeLines(split.lines, payloadStart);
    }

    /** One call: read what is new and report the active phase. */
    method Probe(view: View) returns (r: Result<Option<WorkerProgress>, Fault>)
      requires Valid()
      modifies this
      ensures var read := Read(s, old(State()), view);
              if read.Err? then r == Err(read.error)
              else Valid() && State() == read.value && r == Ok(Report(s, read.value.parsed.lifecycle))
    {
      var fault := ReadNewEvents(view);
      r := if fault.Some? then Err(fault.value) else Ok(Report(s, lifecycle));
    }
  }
}
