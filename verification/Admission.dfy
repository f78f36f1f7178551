/**
 The admission journal (bench/autoresearch_admission.py): a live preflight decision, the record
 that freezes it, the digest chain over records bound to controller prefixes, and its file.
 Instants and durations are whole microseconds.
 */
module Admission {
  import opened Common
  import opened Framing
  import Replay

  datatype TargetKind = Calibration | Screen | Confirmation

  datatype Target = Target(kind: TargetKind, candidateId: string, pairIndex: int)
  {
    predicate Valid() {
      && candidateId != "" && pairIndex >= 0
      && (if kind == Calibration then candidateId == "control" && pairIndex == 0 else candidateId != "control")
    }
  }

  datatype Binding = Binding(
    campaignId: string, integrity: string, preview: string, policy: string,
    cutoff: int, requiredRemaining: int, requiredMemory: nat, maxSwap: nat,
    harness: string, harnessFiles: nat)

  datatype Blocker = HarnessChanged | InsufficientTime | SwapAboveLimit | InsufficientMemory
  datatype Outcome = Admitted | CutoffReached | BlockedEnvironment

  datatype Observation = Observation(
    observedAt: int, remaining: int, memory: int, swap: int, harness: string, harnessFiles: int,
    harnessMatches: bool, blockers: seq<Blocker>, outcome: Outcome)

  /** One live decision, with its blockers in frozen order. Malformed readings are refused. */
  function Observe(b: Binding, observedAt: int, memory: int, swap: int, harness: string, files: int)
    : Option<Observation>
  {
    if memory < 0 || swap < 0 || !IsSha256(harness) || files <= 0 then None
    else
      var remaining := b.cutoff - observedAt;
      var matches := harness == b.harness && files == b.harnessFiles;
      var blockers := BlockersOf(b, remaining, memory, swap, matches);
      var outcome :=
        if blockers == [] then Admitted
        else if blockers == [InsufficientTime] then CutoffReached
        else BlockedEnvironment;
      Some(Observation(observedAt, remaining, memory, swap, harness, files, matches, blockers, outcome))
  }

  function BlockersOf(b: Binding, remaining: int, memory: int, swap: int, matches: bool): seq<Blocker> {
    (if !matches then [HarnessChanged] else [])
    + (if remaining < b.requiredRemaining then [InsufficientTime] else [])
    + (if swap > b.maxSwap then [SwapAboveLimit] else [])
    + (if memory < b.requiredMemory then [InsufficientMemory] else [])
  }

  /** The frozen order of the blockers. */
  function Position(blocker: Blocker): nat {
    match blocker
    case HarnessChanged => 0
    case InsufficientTime => 1
    case SwapAboveLimit => 2
    case InsufficientMemory => 3
  }

  /** The readings of a decision meet all four limits of the binding. */
  predicate WithinLimits(b: Binding, o: Observation) {
    && b.cutoff - o.observedAt >= b.requiredRemaining
    && o.swap <= b.maxSwap && o.memory >= b.requiredMemory
    && o.harness == b.harness && o.harnessFiles == b.harnessFiles
  }

  /**
   What a live decision means. It is admitted exactly within all four limits; each blocker is listed exactly when its
   own limit is broken, once and in order; a shortage of time alone means that the cutoff is reached.
   */
  lemma {:induction false} ObserveMeans(b: Binding, observedAt: int, memory: int, swap: int, harness: string, files: int)
    ensures Observe(b, observedAt, memory, swap, harness, files).None? <==>
            memory < 0 || swap < 0 || !IsSha256(harness) || files <= 0
    ensures var r := Observe(b, observedAt, memory, swap, harness, files);
            r.Some? ==>
              var o := r.value;
              && o.observedAt == observedAt && o.memory == memory && o.swap == swap && o.harness == harness && o.harnessFiles == files
              && o.remaining + observedAt == b.cutoff
              && (o.harnessMatches <==> harness == b.harness && files == b.harnessFiles)
              && (HarnessChanged in o.blockers <==> harness != b.harness || files != b.harnessFiles)
              && (InsufficientTime in o.blockers <==> b.cutoff - observedAt < b.requiredRemaining)
              && (SwapAboveLimit in o.blockers <==> swap > b.maxSwap)
              && (InsufficientMemory in o.blockers <==> memory < b.requiredMemory)
              && (forall i, j :: 0 <= i < j < |o.blockers| ==> Position(o.blockers[i]) < Position(o.blockers[j]))
    ensures var r := Observe(b, observedAt, memory, swap, harness, files);
            r.Some? ==>
              var o := r.value;
              && (o.outcome == Admitted <==> WithinLimits(b, o))
              && (o.outcome == CutoffReached <==>
                    !WithinLimits(b, o) && WithinLimits(b, o.(observedAt := b.cutoff - b.requiredRemaining)))
  {
    hide IsSha256;
    BlockersMean(b, b.cutoff - observedAt, memory, swap, harness == b.harness && files == b.harnessFiles);
  }

  lemma {:induction false} BlockersMean(b: Binding, remaining: int, memory: int, swap: int, matches: bool)
    ensures var blockers := BlockersOf(b, remaining, memory, swap, matches);
            && (HarnessChanged in blockers <==> !matches)
            && (InsufficientTime in blockers <==> remaining < b.requiredRemaining)
            && (SwapAboveLimit in blockers <==> swap > b.maxSwap)
            && (InsufficientMemory in blockers <==> memory < b.requiredMemory)
            && (forall i, j :: 0 <= i < j < |blockers| ==> Position(blockers[i]) < Position(blockers[j]))
            && (blockers == [] <==> matches && remaining >= b.requiredRemaining && swap <= b.maxSwap && memory >= b.requiredMemory)
            && (blockers == [InsufficientTime] <==>
                  matches && remaining < b.requiredRemaining && swap <= b.maxSwap && memory >= b.requiredMemory)
  {
    var blockers := BlockersOf(b, remaining, memory, swap, matches);
    assert blockers == [InsufficientTime] ==> HarnessChanged !in blockers && SwapAboveLimit !in blockers && InsufficientMemory !in blockers;
  }

  /** The first validator: each field against the readings it claims, built up with its own blocker list. */
  method ValidateObservation(b: Binding, o: Observation) returns (ok: bool)
    ensures ok <==> Some(o) == Observe(b, o.observedAt, o.memory, o.swap, o.harness, o.harnessFiles)
  {
    if o.remaining != b.cutoff - o.observedAt || o.memory < 0 || o.swap < 0 || !IsSha256(o.harness) || o.harnessFiles <= 0 {
      return false;
    }
    var expectedMatch := o.harness == b.harness && o.harnessFiles == b.harnessFiles;
    if o.harnessMatches != expectedMatch {
      return false;
    }
    var blockers: seq<Blocker> := [];
    if !expectedMatch { blockers := blockers + [HarnessChanged]; }
    if o.remaining < b.requiredRemaining { blockers := blockers + [InsufficientTime]; }
    if o.swap > b.maxSwap { blockers := blockers + [SwapAboveLimit]; }
    if o.memory < b.requiredMemory { blockers := blockers + [InsufficientMemory]; }
    assert blockers == BlockersOf(b, o.remaining, o.memory, o.swap, expectedMatch);
    if o.blockers != blockers {
      return false;
    }
    var outcome := BlockedEnvironment;
    if blockers == [] {
      outcome := Admitted;
    } else if blockers == [InsufficientTime] {
      outcome := CutoffReached;
    }
    return o.outcome == outcome;
  }

  /**
   SHA-256 of canonical JSON is injective, so a digest is represented by what it digests: a record
   digest by the record's whole body, a controller prefix digest by the prefix itself.
   */
  datatype Digest = Genesis | Of(body: Body)
  datatype PrefixDigest = PrefixDigest(events: seq<Replay.Record>)

  datatype Body = Body(
    sequence: int, previous: Digest, binding: Binding, eventCount: int, prefix: PrefixDigest,
    target: Target, observation: Observation)

  datatype Record = Record(body: Body, digest: Digest)

  function NewRecord(b: Binding, t: Target, o: Observation, events: seq<Replay.Record>, sequence: int, previous: Digest)
    : Record
  {
    var body := Body(sequence, previous, b, |events|, PrefixDigest(events), t, o);
    Record(body, Of(body))
  }

  /** The second validator, on a stored record. */
  predicate ValidRecord(r: Record, b: Binding, events: seq<Replay.Record>, sequence: int, previous: Digest) {
    && r.body.sequence == sequence && sequence > 0
    && r.body.previous == previous
    && r.digest == Of(r.body)
    && r.body.binding == b
    && 0 <= r.body.eventCount <= |events|
    && r.body.prefix == PrefixDigest(events[..r.body.eventCount])
    && r.body.target.Valid()
    && var o := r.body.observation;
       Some(o) == Observe(b, o.observedAt, o.memory, o.swap, o.harness, o.harnessFiles)
  }

  function TailDigest(records: seq<Record>): Digest {
    if records == [] then Genesis else records[|records| - 1].digest
  }

  predicate NotBefore(earlier: Record, later: Record) {
    && earlier.body.eventCount <= later.body.eventCount
    && earlier.body.observation.observedAt <= later.body.observation.observedAt
  }

  predicate ValidChain(records: seq<Record>, b: Binding, events: seq<Replay.Record>) {
    records == [] ||
    var n := |records| - 1;
    && ValidChain(records[..n], b, events)
    && ValidRecord(records[n], b, events, n + 1, TailDigest(records[..n]))
    && (n > 0 ==> NotBefore(records[n - 1], records[n]))
  }

  /** The chain validator's loop over running variables. */
  method ValidateChain(records: seq<Record>, b: Binding, events: seq<Replay.Record>) returns (ok: bool)
    ensures ok <==> ValidChain(records, b, events)
  {
    var previous := Genesis;
    var priorCount := 0;
    var priorObservedAt: Option<int> := None;
    for i := 0 to |records|
      invariant ValidChain(records[..i], b, events)
      invariant previous == TailDigest(records[..i])
      invariant i == 0 ==> priorCount == 0 && priorObservedAt == None
      invariant i > 0 ==> priorCount == records[i - 1].body.eventCount
                          && priorObservedAt == Some(records[i - 1].body.observation.observedAt)
    {
      var r := records[i];
      assert records[..i + 1][..i] == records[..i];
      if !ValidRecord(r, b, events, i + 1, previous)
         || r.body.eventCount < priorCount
         || (priorObservedAt.Some? && r.body.observation.observedAt < priorObservedAt.value) {
        ChainPrefix(records, b, events, i + 1);
        return false;
      }
      priorCount, priorObservedAt, previous := r.body.eventCount, Some(r.body.observation.observedAt), r.digest;
    }
    assert records[..|records|] == records;
    return true;
  }

  // ---------------------------------------------------------------------------
  // The chain
  // ---------------------------------------------------------------------------

  lemma {:induction false} ChainPrefix(records: seq<Record>, b: Binding, events: seq<Replay.Record>, n: nat)
    requires n <= |records|
    ensures ValidChain(records, b, events) ==> ValidChain(records[..n], b, events)
    decreases |records|
  {
    if n == |records| {
      assert records[..n] == records;
    } else {
      var m := |records| - 1;
      ChainPrefix(records[..m], b, events, n);
      assert records[..m][..n] == records[..n];
    }
  }

  /** Whatever a valid chain admits was within the limits when it was observed. */
  lemma {:induction false} AdmittedWithinLimits(records: seq<Record>, b: Binding, events: seq<Replay.Record>, i: nat)
    requires ValidChain(records, b, events) && i < |records| && records[i].body.observation.outcome == Admitted
    ensures WithinLimits(b, records[i].body.observation)
  {
    hide Observe;
    ChainPrefix(records, b, events, i + 1);
    assert records[..i + 1][i] == records[i];
    var o := records[i].body.observation;
    ObserveMeans(b, o.observedAt, o.memory, o.swap, o.harness, o.harnessFiles);
  }

  /**
   Appending a live decision to a valid chain keeps it valid exactly when the clock did not move
   backwards: both validators always accept what the decision function produced.
   */
  lemma {:induction false} AppendKeepsChain(records: seq<Record>, b: Binding, t: Target, o: Observation, events: seq<Replay.Record>)
    requires ValidChain(records, b, events) && t.Valid()
    requires Some(o) == Observe(b, o.observedAt, o.memory, o.swap, o.harness, o.harnessFiles)
    ensures ValidChain(records + [NewRecord(b, t, o, events, |records| + 1, TailDigest(records))], b, events)
            <==> (records != [] ==> records[|records| - 1].body.observation.observedAt <= o.observedAt)
  {
    var r := NewRecord(b, t, o, events, |records| + 1, TailDigest(records));
    NewRecordIsValid(b, t, o, events, |records| + 1, TailDigest(records));
    ChainSnoc(records, r, b, events);
    if records != [] {
      assert records[|records| - 1].body.eventCount <= |events|;
    }
  }

  /** The decision function's output passes the second validator inside the record built from it. */
  lemma {:induction false} NewRecordIsValid(b: Binding, t: Target, o: Observation, events: seq<Replay.Record>, sequence: nat, previous: Digest)
    requires t.Valid() && sequence > 0
    requires Some(o) == Observe(b, o.observedAt, o.memory, o.swap, o.harness, o.harnessFiles)
    ensures ValidRecord(NewRecord(b, t, o, events, sequence, previous), b, events, sequence, previous)
  {
    hide Observe;
    assert events[..|events|] == events;
  }

  lemma {:induction false} ChainSnoc(records: seq<Record>, r: Record, b: Binding, events: seq<Replay.Record>)
    ensures ValidChain(records + [r], b, events)
            <==> && ValidChain(records, b, events)
                 && ValidRecord(r, b, events, |records| + 1, TailDigest(records))
                 && (records != [] ==> NotBefore(records[|records| - 1], r))
  {
    hide ValidRecord;
    assert (records + [r])[..|records|] == records;
  }

  /** A chain stays valid as the controller journal grows. */
  lemma {:induction false} ChainSurvivesGrowth(records: seq<Record>, b: Binding, events: seq<Replay.Record>, more: seq<Replay.Record>)
    requires ValidChain(records, b, events)
    ensures ValidChain(records, b, events + more)
    decreases |records|
  {
    if records != [] {
      var n := |records| - 1;
      ChainSurvivesGrowth(records[..n], b, events, more);
      var c := records[n].body.eventCount;
      assert (events + more)[..c] == events[..c];
    }
  }

  /** And it pins the controller history: two journals under the same chain agree up to its last prefix. */
  lemma {:induction false} ChainPinsPrefix(records: seq<Record>, b: Binding, events: seq<Replay.Record>, other: seq<Replay.Record>)
    requires records != [] && ValidChain(records, b, events) && ValidChain(records, b, other)
    ensures var c := records[|records| - 1].body.eventCount;
            c <= |events| && c <= |other| && events[..c] == other[..c]
  {
    var r := records[|records| - 1];
    assert PrefixDigest(events[..r.body.eventCount]) == PrefixDigest(other[..r.body.eventCount]);
  }

  /** The tail digest determines the whole chain. */
  lemma {:induction false} TailDeterminesChain(a: seq<Record>, x: seq<Record>, b: Binding, c: Binding,
                                               events: seq<Replay.Record>, other: seq<Replay.Record>)
    requires ValidChain(a, b, events) && ValidChain(x, c, other) && TailDigest(a) == TailDigest(x)
    ensures a == x
    decreases |a|
  {
    if a != [] && x != [] {
      var m, n := |a| - 1, |x| - 1;
      assert a[m].body == x[n].body;
      TailDeterminesChain(a[..m], x[..n], b, c, events, other);
      assert a == a[..m] + [a[m]] && x == x[..n] + [x[n]];
    }
  }

  // ---------------------------------------------------------------------------
  // The file
  // ---------------------------------------------------------------------------

  datatype DecodeError = TornTail | EmptyLine | MalformedLine

  /** Universal line splitting: a newline, a carriage return, or both together end a line. */
  datatype Universal = Universal(lines: seq<Bytes>, current: Bytes, afterReturn: bool)

  function FeedUniversal(u: Universal, x: Byte): Universal {
    if x == RETURN then Universal(u.lines + [u.current], [], true)
    else if x == NEWLINE then
      if u.afterReturn then Universal(u.lines, [], false) else Universal(u.lines + [u.current], [], false)
    else Universal(u.lines, u.current + [x], false)
  }

  function UniversalFrom(u: Universal, file: Bytes): Universal
    decreases |file|
  {
    if file == [] then u else UniversalFrom(FeedUniversal(u, file[0]), file[1..])
  }

  function DecodeLines(codec: Codec<Record>, lines: seq<Bytes>): Result<seq<Record>, DecodeError> {
    if lines == [] then Ok([])
    else
      var before := DecodeLines(codec, lines[..|lines| - 1]);
      var line := lines[|lines| - 1];
      if before.Err? then before
      else if line == [] then Err(EmptyLine)
      else
        var r := codec.decode(line);
        if r.None? then Err(MalformedLine) else Ok(before.value + [r.value])
  }

  function DecodeRecords(codec: Codec<Record>, file: Bytes): Result<seq<Record>, DecodeError> {
    if file == [] then Ok([])
    else if file[|file| - 1] != NEWLINE then Err(TornTail)
    else DecodeLines(codec, UniversalFrom(Universal([], [], false), file).lines)
  }

  function EncodeRecords(codec: Codec<Record>, records: seq<Record>): Bytes {
    if records == [] then []
    else EncodeRecords(codec, records[..|records| - 1]) + codec.encode(records[|records| - 1]) + [NEWLINE]
  }

  lemma {:induction false} UniversalConcat(u: Universal, a: Bytes, b: Bytes)
    ensures UniversalFrom(u, a + b) == UniversalFrom(UniversalFrom(u, a), b)
    decreases |a|
  {
    if a == [] {
      assert a + b == b;
    } else {
      assert (a + b)[1..] == a[1..] + b;
      UniversalConcat(FeedUniversal(u, a[0]), a[1..], b);
    }
  }

  lemma {:induction false} UniversalLine(u: Universal, line: Bytes)
    requires NEWLINE !in line && RETURN !in line && !u.afterReturn
    ensures UniversalFrom(u, line) == Universal(u.lines, u.current + line, false)
    decreases |line|
  {
    if line == [] {
      assert u.current + line == u.current;
    } else {
      assert (u.current + [line[0]]) + line[1..] == u.current + line;
      UniversalLine(FeedUniversal(u, line[0]), line[1..]);
    }
  }

  /** What was appended reads back: decoding inverts encoding. */
  lemma {:induction false} DecodeInvertsEncode(codec: Codec<Record>, records: seq<Record>)
    requires Faithful(codec)
    ensures DecodeRecords(codec, EncodeRecords(codec, records)) == Ok(records)
    ensures var u := UniversalFrom(Universal([], [], false), EncodeRecords(codec, records));
            u.current == [] && !u.afterReturn && DecodeLines(codec, u.lines) == Ok(records)
    decreases |records|
  {
    if records != [] {
      var n := |records| - 1;
      var start, before, line := Universal([], [], false), EncodeRecords(codec, records[..n]), codec.encode(records[n]);
      DecodeInvertsEncode(codec, records[..n]);
      var u := UniversalFrom(start, before);
      UniversalConcat(start, before, line + [NEWLINE]);
      UniversalConcat(u, line, [NEWLINE]);
      assert before + (line + [NEWLINE]) == before + line + [NEWLINE];
      UniversalLine(u, line);
      assert u.current + line == line;
      assert UniversalFrom(FeedUniversal(Universal(u.lines, line, false), NEWLINE), []) == Universal(u.lines + [line], [], false);
      assert (u.lines + [line])[..|u.lines|] == u.lines;
      assert records == records[..n] + [records[n]];
    }
  }

  lemma {:induction false} EndsLine(u: Universal, file: Bytes)
    requires file != [] && file[|file| - 1] == NEWLINE
    ensures UniversalFrom(u, file).current == [] && !UniversalFrom(u, file).afterReturn
  {
    assert file == file[..|file| - 1] + [NEWLINE];
    UniversalConcat(u, file[..|file| - 1], [NEWLINE]);
    assert [NEWLINE][1..] == [];
  }

  lemma {:induction false} LineReads(u: Universal, line: Bytes)
    requires NEWLINE !in line && RETURN !in line && u.current == [] && !u.afterReturn
    ensures UniversalFrom(u, line + [NEWLINE]) == Universal(u.lines + [line], [], false)
  {
    UniversalConcat(u, line, [NEWLINE]);
    UniversalLine(u, line);
    assert u.current + line == line;
    assert UniversalFrom(FeedUniversal(Universal(u.lines, line, false), NEWLINE), []) == Universal(u.lines + [line], [], false);
  }

  lemma {:induction false} DecodeSnoc(codec: Codec<Record>, lines: seq<Bytes>, line: Bytes, r: Record)
    requires DecodeLines(codec, lines).Ok? && line != [] && codec.decode(line) == Some(r)
    ensures DecodeLines(codec, lines + [line]) == Ok(DecodeLines(codec, lines).value + [r])
  {
    var all := lines + [line];
    assert all[..|all| - 1] == lines && all[|all| - 1] == line;
  }

  /** Appending one encoded record to any readable file adds exactly that record to what is read. */
  lemma {:induction false} AppendReadsBack(codec: Codec<Record>, file: Bytes, r: Record)
    requires Faithful(codec) && DecodeRecords(codec, file).Ok?
    ensures DecodeRecords(codec, file + codec.encode(r) + [NEWLINE]) == Ok(DecodeRecords(codec, file).value + [r])
  {
    var start, line := Universal([], [], false), codec.encode(r);
    assert line != [] && NEWLINE !in line && RETURN !in line && codec.decode(line) == Some(r);
    hide UniversalFrom, FeedUniversal, Faithful, DecodeLines;
    var u := UniversalFrom(start, file);
    if file == [] {
      NothingRead(codec, start);
    } else {
      EndsLine(start, file);
    }
    UniversalConcat(start, file, line + [NEWLINE]);
    assert file + (line + [NEWLINE]) == file + line + [NEWLINE];
    LineReads(u, line);
    DecodeSnoc(codec, u.lines, line, r);
  }

  lemma {:induction false} NothingRead(codec: Codec<Record>, u: Universal)
    ensures UniversalFrom(u, []) == u && DecodeLines(codec, []) == Ok([])
  {
  }

  /** A truncated admission file either reads as a prefix of its records or is refused as torn. */
  lemma {:induction false} TruncationIsPrefixOrTorn(codec: Codec<Record>, records: seq<Record>, k: nat) returns (j: nat)
    requires Faithful(codec) && k <= |EncodeRecords(codec, records)|
    ensures j <= |records|
    ensures var cut := EncodeRecords(codec, records)[..k];
            DecodeRecords(codec, cut) == Err(TornTail) || DecodeRecords(codec, cut) == Ok(records[..j])
    decreases |records|
  {
    var file := EncodeRecords(codec, records);
    if k == |file| {
      assert file[..k] == file;
      DecodeInvertsEncode(codec, records);
      j := |records|;
      assert records[..j] == records;
    } else {
      var n := |records| - 1;
      var before, line := EncodeRecords(codec, records[..n]), codec.encode(records[n]);
      if k <= |before| {
        j := TruncationIsPrefixOrTorn(codec, records[..n], k);
        assert file[..k] == before[..k];
        assert records[..n][..j] == records[..j];
      } else {
        j := 0;
        var cut := file[..k];
        assert cut[k - 1] == line[k - 1 - |before|];
        assert NEWLINE !in line;
      }
    }
  }

  /** The admission file of one campaign. */
  class AdmissionJournal {
    const codec: Codec<Record>
    const maxBytes: nat
    var file: Bytes

    constructor (codec: Codec<Record>, maxBytes: nat)
      ensures this.codec == codec && this.maxBytes == maxBytes && file == []
    {
      this.codec, this.maxBytes := codec, maxBytes;
      file := [];
    }

    /** The chain as it is on file, extended by one record for an observation. */
    predicate Appendable(b: Binding, t: Target, o: Observation, events: seq<Replay.Record>)
      reads this
    {
      && Some(o) == Observe(b, o.observedAt, o.memory, o.swap, o.harness, o.harnessFiles)
      && DecodeRecords(codec, file).Ok?
      && var records := DecodeRecords(codec, file).value;
         var record := NewRecord(b, t, o, events, |records| + 1, TailDigest(records));
         && ValidChain(records, b, events) && ValidChain(records + [record], b, events)
         && |file| + |codec.encode(record)| + 1 <= maxBytes
    }

    /**
     Append one record exactly if the observation is a decision on its readings, the chain on file is valid, and the
     longer one is valid and fits.
     */
    method AppendRecord(b: Binding, t: Target, o: Observation, events: seq<Replay.Record>) returns (r: Option<Record>)
      requires Faithful(codec)
      modifies this`file
      ensures r.Some? <==> old(Appendable(b, t, o, events))
      ensures r.None? ==> file == old(file)
      ensures r.Some? ==>
                && var records := DecodeRecords(codec, old(file)).value;
                   && r.value == NewRecord(b, t, o, events, |records| + 1, TailDigest(records))
                   && file == old(file) + codec.encode(r.value) + [NEWLINE]
                   && DecodeRecords(codec, file) == Ok(records + [r.value])
    {
      var valid := ValidateObservation(b, o);
      if !valid { return None; }
      var decoded := DecodeRecords(codec, file);
      if decoded.Err? { return None; }
      var records := decoded.value;
      valid := ValidateChain(records, b, events);
      if !valid { return None; }
      var record := NewRecord(b, t, o, events, |records| + 1, TailDigest(records));
      valid := ValidateChain(records + [record], b, events);
      var appended := file + codec.encode(record) + [NEWLINE];
      if !valid || |appended| > maxBytes { return None; }
      file := appended;
      AppendReadsBack(codec, old(file), record);
      return Some(record);
    }
  }
}
