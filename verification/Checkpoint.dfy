/**
 Checkpoint acknowledgements (bench/autoresearch_checkpoint.py): the stored proof and its mapping, the
 journal prefix it pins, the double collect that creates it, and the gate that reads it.
 */
module Checkpoint {
  import opened Common
  import opened Framing
  import Admission
  import Replay

  const MAX_JOURNAL_BYTES := 4 * 1024 * 1024
  const MAX_JOURNAL_EVENTS := 10_000
  const MAX_CHECKPOINT_SEQUENCE := 7
  const ACK_SCHEMA := "sparkbench-autoresearch-checkpoint-v1"

  // ---------------------------------------------------------------------------
  // Proof values
  // ---------------------------------------------------------------------------

  predicate IsIdentifier(s: string) {
    1 <= |s| <= 256 && IsLowerAlnum(s[0]) && forall i :: 1 <= i < |s| ==> IsLowerAlnum(s[i]) || s[i] in "._-"
  }

  predicate IsAlnum(c: char) {
    IsLowerAlnum(c) || 'A' <= c <= 'Z'
  }

  predicate IsPublishedIdentifier(s: string) {
    1 <= |s| <= 256 && IsAlnum(s[0]) && forall i :: 1 <= i < |s| ==> IsAlnum(s[i]) || s[i] in "._-"
  }

  predicate IsObjectId(s: string) {
    |s| in {40, 64} && forall i :: 0 <= i < |s| ==> '0' <= s[i] <= '9' || 'a' <= s[i] <= 'f'
  }

  predicate EndsWith(s: string, end: string) {
    |end| <= |s| && s[|s| - |end|..] == end
  }

  predicate Contains(s: string, part: string) {
    part <= s || (s != "" && Contains(s[1..], part))
  }

  predicate IsGitRef(s: string, prefix: string) {
    && prefix <= s && |s| <= 255
    && !EndsWith(s, "/") && !EndsWith(s, ".") && !EndsWith(s, ".lock")
    && !Contains(s, "//") && !Contains(s, "..") && !Contains(s, "@{") && !Contains(s, "\\")
    && forall c :: c in s ==> c as int >= 32 && c !in " ~^:?*["
  }

  predicate IsRemoteName(s: string) {
    && 1 <= |s| <= 64 && IsAlnum(s[0]) && s !in {".", ".."}
    && forall i :: 1 <= i < |s| ==> IsAlnum(s[i]) || s[i] in "._-"
  }

  datatype Campaign = Campaign(id: string, integrity: string, preview: string, policy: string)
  {
    predicate Valid() {
      IsIdentifier(id) && IsSha256(integrity) && IsSha256(preview) && IsSha256(policy)
    }
  }

  datatype PairKind = CalibrationPair | ScreenPair | ConfirmationPair | UnknownKind

  datatype Two<T> = Two(first: T, second: T)

  datatype Completion = Completion(
    sequence: int, kind: PairKind, candidateId: string, searchPairIndex: Option<int>,
    cells: Two<string>, runs: Two<string>, plans: Two<string>, observation: string)
  {
    predicate Valid() {
      && 1 <= sequence <= MAX_CHECKPOINT_SEQUENCE && kind != UnknownKind && IsIdentifier(candidateId)
      && cells.first != cells.second && runs.first != runs.second
      && IsIdentifier(cells.first) && IsIdentifier(cells.second)
      && IsPublishedIdentifier(runs.first) && IsPublishedIdentifier(runs.second)
      && IsSha256(plans.first) && IsSha256(plans.second) && IsSha256(observation)
      && (if kind == CalibrationPair then sequence == 1 && candidateId == "control" && searchPairIndex.None?
          else candidateId != "control" && searchPairIndex == Some(sequence - 2))
    }
  }

  /** A SHA-256 is represented by the bytes it digests. */
  datatype JournalPrefix = JournalPrefix(events: nat, size: nat, digest: Bytes)
  {
    predicate Valid() {
      1 <= events <= MAX_JOURNAL_EVENTS && 1 <= size <= MAX_JOURNAL_BYTES
    }
  }

  datatype EvidenceCell = EvidenceCell(cellId: string, run: string, bundle: string, complete: bool, terminal: bool)
  {
    predicate Valid() {
      IsIdentifier(cellId) && IsPublishedIdentifier(run) && IsSha256(bundle) && complete && terminal
    }
  }

  datatype Evidence = Evidence(index: string, checksums: string, cells: Two<EvidenceCell>)
  {
    predicate Valid() {
      && IsSha256(index) && IsSha256(checksums) && cells.first.Valid() && cells.second.Valid()
      && cells.first.cellId != cells.second.cellId && cells.first.run != cells.second.run
    }

    /** The evidence is of this very pair, in its order. */
    predicate Covers(c: Completion) {
      Two(cells.first.cellId, cells.second.cellId) == c.cells && Two(cells.first.run, cells.second.run) == c.runs
    }
  }

  datatype Repository = Repository(
    head: string, branch: string, upstreamRef: string, upstream: string, remote: string, remoteRef: string, remoteCommit: string)
  {
    predicate Valid() {
      && IsObjectId(head) && IsObjectId(upstream) && IsObjectId(remoteCommit) && head == upstream == remoteCommit
      && IsGitRef(branch, "refs/heads/") && IsGitRef(upstreamRef, "refs/remotes/") && IsGitRef(remoteRef, "refs/heads/")
      && IsRemoteName(remote)
    }
  }

  datatype Acknowledgement = Acknowledgement(
    campaign: Campaign, completion: Completion, journal: JournalPrefix, evidence: Evidence, repository: Repository,
    acknowledgedAt: Replay.Timestamp)
  {
    predicate Valid() {
      && campaign.Valid() && completion.Valid() && journal.Valid() && evidence.Valid() && repository.Valid()
      && acknowledgedAt.Aware? && evidence.Covers(completion)
    }

    predicate SameProof(other: Acknowledgement) {
      this.(acknowledgedAt := other.acknowledgedAt) == other
    }
  }

  // ---------------------------------------------------------------------------
  // The stored mapping
  // ---------------------------------------------------------------------------

  datatype Payload = Payload(
    schema: string, campaign: Campaign, completion: Completion, pairState: Completion, journal: JournalPrefix,
    evidence: Evidence, repository: Repository, acknowledgedAt: Replay.Timestamp)

  /** Digests are injective, so each is represented by what it digests: the integrity hash by the payload. */
  datatype Mapping = Mapping(payload: Payload, integrity: Payload)

  function ToMapping(a: Acknowledgement): Mapping {
    var payload := Payload(ACK_SCHEMA, a.campaign, a.completion, a.completion, a.journal, a.evidence, a.repository, a.acknowledgedAt);
    Mapping(payload, payload)
  }

  function FromMapping(m: Mapping): Option<Acknowledgement> {
    var p := m.payload;
    if p.schema != ACK_SCHEMA || m.integrity != p || !p.completion.Valid() || p.pairState != p.completion then None
    else
      var a := Acknowledgement(p.campaign, p.completion, p.journal, p.evidence, p.repository, p.acknowledgedAt);
      if a.Valid() then Some(a) else None
  }

  /** Reading inverts writing, and nothing else can be read: a mapping is accepted only if it is the one written. */
  lemma {:induction false} MappingIsExact(m: Mapping, a: Acknowledgement)
    ensures FromMapping(m) == Some(a) <==> m == ToMapping(a) && a.Valid()
  {
  }

  /** Any change to a stored acknowledgement that leaves its integrity hash alone is refused. */
  lemma {:induction false} AlteredPayloadIsRefused(m: Mapping, other: Payload)
    requires FromMapping(m).Some? && other != m.payload
    ensures FromMapping(m.(payload := other)).None?
    ensures FromMapping(m.(integrity := other)).None?
  {
    MappingIsExact(m, FromMapping(m).value);
  }

  // ---------------------------------------------------------------------------
  // The journal prefix
  // ---------------------------------------------------------------------------

  type LineTest = Bytes -> bool  // whether a line decodes to a JSON object without duplicate keys

  function Lines(data: Bytes): seq<Bytes> {
    Admission.UniversalFrom(Admission.Universal([], [], false), data).lines
  }

  /** The number of events of a journal whose every line is one, and whose last line is whole. */
  function JournalEvents(test: LineTest, data: Bytes): Option<nat> {
    if data == [] || data[|data| - 1] != NEWLINE then None
    else
      var lines := Lines(data);
      if forall line :: line in lines ==> line != [] && test(line) then Some(|lines|) else None
  }

  function CaptureJournalPrefix(test: LineTest, data: Bytes): Option<JournalPrefix> {
    if |data| > MAX_JOURNAL_BYTES then None
    else
      var events := JournalEvents(test, data);
      if events.None? || !JournalPrefix(events.value, |data|, data).Valid() then None
      else Some(JournalPrefix(events.value, |data|, data))
  }

  predicate JournalPrefixHolds(test: LineTest, data: Bytes, prefix: JournalPrefix) {
    && |data| <= MAX_JOURNAL_BYTES
    && var events := JournalEvents(test, data);
       && events.Some?
       && |data| >= prefix.size && data[..prefix.size] == prefix.digest
       && JournalEvents(test, data[..prefix.size]) == Some(prefix.events)
       && events.value >= prefix.events
  }

  lemma {:induction false} LinesAccumulate(u: Admission.Universal, data: Bytes)
    ensures u.lines <= Admission.UniversalFrom(u, data).lines
    decreases |data|
  {
    if data != [] {
      LinesAccumulate(Admission.FeedUniversal(u, data[0]), data[1..]);
    }
  }

  lemma {:induction false} LinesGrow(data: Bytes, more: Bytes)
    ensures |Lines(data)| <= |Lines(data + more)|
  {
    var start := Admission.Universal([], [], false);
    Admission.UniversalConcat(start, data, more);
    LinesAccumulate(Admission.UniversalFrom(start, data), more);
  }

  /** Without carriage returns, the lines of a journal are those between its newlines. */
  lemma {:induction false} LinesAreSplit(u: Admission.Universal, data: Bytes)
    requires RETURN !in data && !u.afterReturn
    ensures var v, t := Admission.UniversalFrom(u, data), SplitFrom(Split(u.lines, u.current), data);
            v.lines == t.lines && v.current == t.tail && !v.afterReturn
    decreases |data|
  {
    if data != [] {
      assert forall b :: b in data[1..] ==> b in data;
      assert data[0] in data;
      LinesAreSplit(Admission.FeedUniversal(u, data[0]), data[1..]);
    }
  }

  lemma {:induction false} SplitOfJoin(lines: seq<Bytes>)
    requires forall line :: line in lines ==> NEWLINE !in line
    ensures SplitLines(Join(lines)) == Split(lines, [])
    decreases |lines|
  {
    if lines != [] {
      var n := |lines| - 1;
      var before, line := Join(lines[..n]), lines[n];
      SplitOfJoin(lines[..n]);
      SplitConcat(Split([], []), before, line + [NEWLINE]);
      assert before + (line + [NEWLINE]) == Join(lines);
      SplitConcat(Split(lines[..n], []), line, [NEWLINE]);
      SplitWithoutNewline(Split(lines[..n], []), line);
      assert [] + line == line && lines == lines[..n] + [line];
      assert SplitFrom(Feed(Split(lines[..n], line), NEWLINE), []) == Split(lines, []);
    }
  }

  /** The journal is these lines, each whole, nonempty and an event. */
  ghost predicate IsJournal(test: LineTest, data: Bytes, lines: seq<Bytes>) {
    lines != [] && data == Join(lines) && forall line :: line in lines ==> line != [] && NEWLINE !in line && test(line)
  }

  /** A journal without raw carriage returns has n events exactly if it is n whole, nonempty lines that are events. */
  lemma {:induction false} JournalMeans(test: LineTest, data: Bytes, n: nat)
    requires RETURN !in data
    ensures JournalEvents(test, data) == Some(n) <==> exists lines :: |lines| == n && IsJournal(test, data, lines)
  {
    LinesAreSplit(Admission.Universal([], [], false), data);
    var t := SplitLines(data);
    assert Lines(data) == t.lines;
    SplitJoins(Split([], []), data);
    LinesHaveNoNewline(Split([], []), data);
    assert Join([]) + [] + data == data;
    if JournalEvents(test, data) == Some(n) {
      Admission.EndsLine(Admission.Universal([], [], false), data);
      assert IsJournal(test, data, t.lines);
    }
    if lines :| |lines| == n && IsJournal(test, data, lines) {
      SplitOfJoin(lines);
      assert t.lines == lines;
      LastByte(lines);
    }
  }

  lemma {:induction false} LastByte(lines: seq<Bytes>)
    requires lines != []
    ensures Join(lines) != [] && Join(lines)[|Join(lines)| - 1] == NEWLINE
  {
  }

  /** A captured prefix is required exactly of the well-formed journals, within the size bound, that extend its bytes. */
  lemma {:induction false} PrefixHoldsForExtensions(test: LineTest, captured: Bytes, data: Bytes)
    requires CaptureJournalPrefix(test, captured).Some?
    ensures JournalPrefixHolds(test, data, CaptureJournalPrefix(test, captured).value)
            <==> |data| <= MAX_JOURNAL_BYTES && JournalEvents(test, data).Some? && captured <= data
  {
    if captured <= data {
      assert data == captured + data[|captured|..];
      LinesGrow(captured, data[|captured|..]);
    }
  }

  lemma {:induction false} CaptureIsExact(test: LineTest, a: Bytes, b: Bytes)
    requires CaptureJournalPrefix(test, a).Some? && CaptureJournalPrefix(test, a) == CaptureJournalPrefix(test, b)
    ensures a == b
  {
  }

  // ---------------------------------------------------------------------------
  // The double collect
  // ---------------------------------------------------------------------------

  /** The four inputs as they are at each instant; the evidence proof is for one completion. */
  datatype Inputs = Inputs(
    completions: nat -> Option<Completion>, journals: nat -> Bytes,
    repositories: nat -> Option<Repository>, evidences: nat -> Completion -> Option<Evidence>)

  /** An input that never returns to an earlier value: equal at two instants, it was equal throughout. */
  ghost predicate Steady<T(!new)>(input: nat -> T) {
    forall a: nat, b: nat, c: nat :: a <= b <= c && input(a) == input(c) ==> input(b) == input(a)
  }

  ghost predicate NothingReturns(w: Inputs) {
    Steady(w.completions) && Steady(w.journals) && Steady(w.repositories)
    && forall c: Completion :: SteadyEvidence(w, c)
  }

  ghost predicate SteadyEvidence(w: Inputs, c: Completion) {
    Steady((t: nat) => w.evidences(t)(c))
  }

  /** An append-only journal never returns to an earlier content. */
  lemma {:induction false} AppendOnlyIsSteady(journals: nat -> Bytes)
    requires forall a: nat, b: nat :: a <= b ==> journals(a) <= journals(b)
    ensures Steady(journals)
  {
    forall a: nat, b: nat, c: nat | a <= b <= c && journals(a) == journals(c)
      ensures journals(b) == journals(a)
    {
      assert journals(a) <= journals(b) <= journals(c);
    }
  }

  /** All four inputs have the acknowledged values at one instant. */
  ghost predicate HoldAt(w: Inputs, test: LineTest, a: Acknowledgement, t: nat) {
    && w.completions(t) == Some(a.completion)
    && CaptureJournalPrefix(test, w.journals(t)) == Some(a.journal)
    && w.repositories(t) == Some(a.repository)
    && w.evidences(t)(a.completion) == Some(a.evidence)
  }

  /** The eight reads of a double collect, in order. */
  datatype Instants = Instants(c1: nat, j1: nat, r1: nat, e1: nat, c2: nat, j2: nat, e2: nat, r2: nat)
  {
    predicate Ordered() {
      c1 <= j1 <= r1 <= e1 <= c2 <= j2 <= e2 <= r2
    }
  }

  /** Both collects read these values. */
  ghost predicate CollectedTwice(w: Inputs, test: LineTest, a: Acknowledgement, i: Instants) {
    && i.Ordered()
    && w.completions(i.c1) == w.completions(i.c2) == Some(a.completion)
    && CaptureJournalPrefix(test, w.journals(i.j1)) == CaptureJournalPrefix(test, w.journals(i.j2)) == Some(a.journal)
    && w.repositories(i.r1) == w.repositories(i.r2) == Some(a.repository)
    && w.evidences(i.e1)(a.completion) == w.evidences(i.e2)(a.completion) == Some(a.evidence)
  }

  /** If nothing returns to an earlier value, a double collect is a snapshot: everything held together in between. */
  lemma {:induction false} DoubleCollectIsSnapshot(w: Inputs, test: LineTest, a: Acknowledgement, i: Instants)
    requires NothingReturns(w) && CollectedTwice(w, test, a, i)
    ensures forall t: nat :: i.e1 <= t <= i.c2 ==> HoldAt(w, test, a, t)
  {
    CaptureIsExact(test, w.journals(i.j1), w.journals(i.j2));
    forall t: nat | i.e1 <= t <= i.c2
      ensures HoldAt(w, test, a, t)
    {
      assert w.completions(t) == w.completions(i.c1);
      assert w.journals(t) == w.journals(i.j1);
      assert w.repositories(t) == w.repositories(i.r1);
      var proofs := (u: nat) => w.evidences(u)(a.completion);
      assert SteadyEvidence(w, a.completion) && Steady(proofs);
      assert proofs(i.e1) == proofs(i.e2);
      assert proofs(t) == proofs(i.e1);
    }
  }

  /**
   The assumption is needed. A repository and an evidence tree that each flip away and back between their reads
   pass the double collect although they never held their values together.
   */
  lemma {:induction false} FlippingInputsPass(test: LineTest, a: Acknowledgement, journal: Bytes)
    requires CaptureJournalPrefix(test, journal) == Some(a.journal)
    ensures var w := Inputs(
              (t: nat) => Some(a.completion), (t: nat) => journal,
              (t: nat) => if t == 2 || t == 7 then Some(a.repository) else None,
              (t: nat) => (c: Completion) => if t == 3 || t == 6 then Some(a.evidence) else None);
            CollectedTwice(w, test, a, Instants(0, 1, 2, 3, 4, 5, 6, 7)) && forall t: nat :: !HoldAt(w, test, a, t)
  {
  }

  lemma {:induction false} SnapshotExists(w: Inputs, test: LineTest, a: Acknowledgement, i: Instants)
    requires CollectedTwice(w, test, a, i)
    ensures NothingReturns(w) ==> HoldAt(w, test, a, i.e1)
  {
    if NothingReturns(w) {
      DoubleCollectIsSnapshot(w, test, a, i);
    }
  }

  /** The acknowledged values hold all the time. */
  ghost predicate HeldThroughout(w: Inputs, test: LineTest, a: Acknowledgement, from: nat, to: nat) {
    forall t: nat :: from <= t <= to ==> HoldAt(w, test, a, t)
  }

  lemma {:induction false} HeldMeans(w: Inputs, test: LineTest, a: Acknowledgement, from: nat, to: nat, t: nat)
    requires from <= t <= to
    ensures HeldThroughout(w, test, a, from, to) ==> HoldAt(w, test, a, t)
  {
  }

  lemma {:induction false} HeldMeansCollected(w: Inputs, test: LineTest, a: Acknowledgement, from: nat, to: nat, i: Instants)
    requires i.Ordered() && from <= i.c1 && i.r2 <= to
    ensures HeldThroughout(w, test, a, from, to) ==> CollectedTwice(w, test, a, i)
  {
    hide CaptureJournalPrefix;
    if HeldThroughout(w, test, a, from, to) {
      assert HoldAt(w, test, a, i.c1) && HoldAt(w, test, a, i.j1) && HoldAt(w, test, a, i.r1) && HoldAt(w, test, a, i.e1);
      assert HoldAt(w, test, a, i.c2) && HoldAt(w, test, a, i.j2) && HoldAt(w, test, a, i.e2) && HoldAt(w, test, a, i.r2);
    }
  }

  lemma {:induction false} ValidCovers(a: Acknowledgement)
    ensures a.Valid() ==> a.evidence.Covers(a.completion)
  {
  }

  class AcknowledgementStore {
    const w: Inputs
    const test: LineTest
    const pauses: nat -> nat   // how far time moves before the k-th read
    const lands: nat -> bool  // whether the k-th write lands
    var time: nat
    var step: nat
    var stored: Option<Mapping>

    constructor (w: Inputs, test: LineTest, pauses: nat -> nat, lands: nat -> bool, stored: Option<Mapping>)
      ensures this.w == w && this.test == test && this.stored == stored
    {
      this.w, this.test, this.pauses, this.lands, this.stored := w, test, pauses, lands, stored;
      time, step := 0, 0;
    }

    method Pause()
      modifies this`time, this`step
      ensures time >= old(time)
    {
      time, step := time + pauses(step), step + 1;
    }

    /** An acknowledgement to be made, whose values have held since some instant. */
    ghost predicate Expected(campaign: Campaign, acknowledgedAt: Replay.Timestamp, held: Acknowledgement, since: nat)
      reads this
    {
      && held.campaign == campaign && held.acknowledgedAt == acknowledgedAt && held.Valid()
      && HeldThroughout(w, test, held, since, time)
    }

    /**
     The double collect. On success the four inputs were read twice with the acknowledged values; values that hold
     all the time are collected.
     */
    method Collect(campaign: Campaign, acknowledgedAt: Replay.Timestamp, ghost held: Acknowledgement)
      returns (r: Option<Acknowledgement>, ghost i: Instants)
      modifies this`time, this`step
      ensures old(time) <= time
      ensures r.Some? ==>
                && CollectedTwice(w, test, r.value, i) && old(time) <= i.c1 && i.r2 <= time && r.value.Valid()
                && r.value.campaign == campaign && r.value.acknowledgedAt == acknowledgedAt
      ensures Expected(campaign, acknowledgedAt, held, old(time)) ==> r == Some(held)
    {
      hide Acknowledgement.Valid, CaptureJournalPrefix, HeldThroughout;
      i := Instants(0, 0, 0, 0, 0, 0, 0, 0);
      ghost var from := time;
      Pause();
      var completion, c1 := w.completions(time), time;
      HeldMeans(w, test, held, from, time, c1);
      if completion.None? { return None, i; }
      Pause();
      var journal, j1 := CaptureJournalPrefix(test, w.journals(time)), time;
      HeldMeans(w, test, held, from, time, j1);
      if journal.None? { return None, i; }
      Pause();
      var repository, r1 := w.repositories(time), time;
      HeldMeans(w, test, held, from, time, r1);
      if repository.None? { return None, i; }
      Pause();
      var evidence, e1 := w.evidences(time)(completion.value), time;
      HeldMeans(w, test, held, from, time, c1);
      HeldMeans(w, test, held, from, time, e1);
      ValidCovers(held);
      if evidence.None? || !evidence.value.Covers(completion.value) { return None, i; }
      Pause();
      var completionAfter, c2 := w.completions(time), time;
      Pause();
      var journalAfter, j2 := CaptureJournalPrefix(test, w.journals(time)), time;
      HeldMeans(w, test, held, from, time, c2);
      HeldMeans(w, test, held, from, time, j2);
      if completionAfter.None? || journalAfter.None? { return None, i; }
      Pause();
      var evidenceAfter, e2 := w.evidences(time)(completionAfter.value), time;
      Pause();
      var repositoryAfter, r2 := w.repositories(time), time;
      i := Instants(c1, j1, r1, e1, c2, j2, e2, r2);
      HeldMeansCollected(w, test, held, from, time, i);
      if completion != completionAfter || journal != journalAfter || evidence != evidenceAfter || repository != repositoryAfter {
        return None, i;
      }
      var a := Acknowledgement(campaign, completion.value, journal.value, evidence.value, repository.value, acknowledgedAt);
      return if a.Valid() then Some(a) else None, i;
    }

    /**
     Create an acknowledgement, or keep the stored one if it proves the same. On success the four inputs were read
     twice with the acknowledged values, and the store holds exactly what is returned. Otherwise the store is
     untouched, and either the inputs did not hold all the time, or the store was unreadable or refused the write.
     */
    method Acknowledge(campaign: Campaign, acknowledgedAt: Replay.Timestamp, ghost held: Acknowledgement)
      returns (r: Option<Acknowledgement>, ghost i: Instants)
      modifies this
      ensures r.Some? ==>
                && CollectedTwice(w, test, r.value, i) && old(time) <= i.c1 && i.r2 <= time
                && r.value.campaign == campaign && r.value.evidence.Covers(r.value.completion)
                && stored.Some? && FromMapping(stored.value) == r
      ensures r.Some? && NothingReturns(w) ==> exists t: nat :: old(time) <= t <= time && HoldAt(w, test, r.value, t)
      ensures r.None? ==> stored == old(stored)
      ensures Expected(campaign, acknowledgedAt, held, old(time)) ==>
                if r.Some? then r.value.SameProof(held)
                else !lands(step) || (old(stored).Some? && FromMapping(old(stored).value).None?)
    {
      hide Acknowledgement.Valid, CaptureJournalPrefix, HeldThroughout, FromMapping, ToMapping, NothingReturns, HoldAt;
      var collected: Option<Acknowledgement>;
      collected, i := Collect(campaign, acknowledgedAt, held);
      if collected.None? { return None, i; }
      var a := collected.value;
      ValidCovers(a);
      if stored.Some? {
        var existing := FromMapping(stored.value);
        if existing.None? { return None, i; }
        if existing.value.SameProof(a) {
          SnapshotExists(w, test, existing.value, i);
          return existing, i;
        }
      }
      if !lands(step) { return None, i; }
      stored := Some(ToMapping(a));
      MappingIsExact(stored.value, a);
      SnapshotExists(w, test, a, i);
      return Some(a), i;
    }
  }

  // ---------------------------------------------------------------------------
  // The gate
  // ---------------------------------------------------------------------------

  datatype GateReason = Missing | NewPair | EvidenceChanged | RemoteUnverified | RepositoryChanged

  datatype ProofError = StateInvalid | Unverified | OtherProblem

  datatype Gate = Ready(sequence: int) | Required(reason: GateReason, sequence: int) | GateError

  /** The gate decision for the next pair, from the stored mapping and what the readers answer now. */
  function CheckpointGate(
      campaign: Campaign, completion: Option<Completion>, stored: Option<Mapping>, test: LineTest, journal: Bytes,
      evidence: Result<Evidence, ProofError>, repository: Result<Repository, ProofError>): Gate
  {
    if completion.None? then Ready(0)
    else if stored.None? then Required(Missing, completion.value.sequence)
    else
      var c, a := completion.value, FromMapping(stored.value);
      if a.None? || a.value.campaign != campaign then GateError
      else if a.value.completion != c then Required(NewPair, c.sequence)
      else if !JournalPrefixHolds(test, journal, a.value.journal) then GateError
      else if evidence.Err? then if evidence.error == StateInvalid then GateError else Required(EvidenceChanged, c.sequence)
      else if !evidence.value.Covers(c) || evidence.value != a.value.evidence then Required(EvidenceChanged, c.sequence)
      else if repository.Err? then
        match repository.error
        case StateInvalid => GateError
        case Unverified => Required(RemoteUnverified, c.sequence)
        case OtherProblem => Required(RepositoryChanged, c.sequence)
      else if repository.value != a.value.repository then Required(RepositoryChanged, c.sequence)
      else Ready(c.sequence)
  }

  /** After a completed pair the gate is ready exactly when that pair's acknowledgement still describes everything. */
  lemma {:induction false} ReadyMeansAcknowledged(
      campaign: Campaign, c: Completion, stored: Option<Mapping>, test: LineTest, journal: Bytes,
      evidence: Result<Evidence, ProofError>, repository: Result<Repository, ProofError>)
    ensures CheckpointGate(campaign, Some(c), stored, test, journal, evidence, repository).Ready?
            <==> evidence.Ok? && repository.Ok?
                 && exists a: Acknowledgement ::
                      && stored == Some(ToMapping(a)) && a.Valid()
                      && a.campaign == campaign && a.completion == c && a.evidence == evidence.value
                      && a.repository == repository.value && JournalPrefixHolds(test, journal, a.journal)
  {
    hide Acknowledgement.Valid, Completion.Valid, FromMapping, JournalPrefixHolds, ToMapping;
    if stored.Some? {
      var read := FromMapping(stored.value);
      if read.Some? {
        MappingIsExact(stored.value, read.value);
        ValidCovers(read.value);
      }
      forall a: Acknowledgement | stored == Some(ToMapping(a)) && a.Valid()
        ensures FromMapping(stored.value) == Some(a)
      {
        MappingIsExact(stored.value, a);
      }
    }
  }

  /** The store holds a readable acknowledgement of this campaign. */
  ghost predicate Holds(campaign: Campaign, stored: Option<Mapping>, a: Acknowledgement) {
    stored == Some(ToMapping(a)) && a.Valid() && a.campaign == campaign
  }

  /** It is of this completion, and the journal still extends what it captured. */
  ghost predicate StillOf(campaign: Campaign, c: Completion, stored: Option<Mapping>, test: LineTest, journal: Bytes, a: Acknowledgement) {
    Holds(campaign, stored, a) && a.completion == c && JournalPrefixHolds(test, journal, a.journal)
  }

  lemma {:induction false} HeldIsRead(campaign: Campaign, stored: Option<Mapping>)
    ensures forall a :: Holds(campaign, stored, a) <==> stored.Some? && FromMapping(stored.value) == Some(a) && a.campaign == campaign
  {
    hide FromMapping, ToMapping, Acknowledgement.Valid;
    forall a: Acknowledgement
      ensures Holds(campaign, stored, a) <==> stored.Some? && FromMapping(stored.value) == Some(a) && a.campaign == campaign
    {
      if stored.Some? {
        MappingIsExact(stored.value, a);
      }
    }
  }

  /**
   Every answer of the gate, by what is the first thing missing: a completed pair, an acknowledgement, one of this
   pair, then its evidence and its repository. It is an error exactly if the store is unreadable or another
   campaign's, the journal does not extend what was captured, or a reader finds its own state invalid.
   */
  lemma {:induction false} GateMeans(
      campaign: Campaign, completion: Option<Completion>, stored: Option<Mapping>, test: LineTest, journal: Bytes,
      evidence: Result<Evidence, ProofError>, repository: Result<Repository, ProofError>)
    requires completion.Some? ==> completion.value.Valid()
    ensures CheckpointGate(campaign, completion, stored, test, journal, evidence, repository) == Ready(0) <==> completion.None?
    ensures completion.Some? ==>
              var c, g := completion.value, CheckpointGate(campaign, completion, stored, test, journal, evidence, repository);
              && (g.GateError? || g.sequence == c.sequence)
              && (g == Required(Missing, c.sequence) <==> stored.None?)
              && (g == Required(NewPair, c.sequence) <==> exists a :: Holds(campaign, stored, a) && a.completion != c)
              && (g == Required(EvidenceChanged, c.sequence) <==>
                    exists a :: StillOf(campaign, c, stored, test, journal, a) && evidence !in {Ok(a.evidence), Err(StateInvalid)})
              && (g == Required(RemoteUnverified, c.sequence) <==>
                    exists a :: StillOf(campaign, c, stored, test, journal, a) && evidence == Ok(a.evidence) && repository == Err(Unverified))
    ensures completion.Some? ==>
              var c, g := completion.value, CheckpointGate(campaign, completion, stored, test, journal, evidence, repository);
              && (g == Required(RepositoryChanged, c.sequence) <==>
                    exists a :: StillOf(campaign, c, stored, test, journal, a) && evidence == Ok(a.evidence)
                                && repository !in {Ok(a.repository), Err(StateInvalid), Err(Unverified)})
              && (g == Ready(c.sequence) <==>
                    exists a :: StillOf(campaign, c, stored, test, journal, a) && evidence == Ok(a.evidence) && repository == Ok(a.repository))
              && (g == GateError <==>
                    || (stored.Some? && forall a :: !Holds(campaign, stored, a))
                    || (exists a :: Holds(campaign, stored, a) && a.completion == c
                                    && (!JournalPrefixHolds(test, journal, a.journal) || evidence == Err(StateInvalid)
                                        || (evidence == Ok(a.evidence) && repository == Err(StateInvalid)))))
  {
    hide Holds, FromMapping, JournalPrefixHolds, Acknowledgement.Valid;
    HeldIsRead(campaign, stored);
    if stored.Some? && FromMapping(stored.value).Some? {
      MappingIsExact(stored.value, FromMapping(stored.value).value);
      ValidCovers(FromMapping(stored.value).value);
      assert Holds(campaign, stored, FromMapping(stored.value).value) <==> FromMapping(stored.value).value.campaign == campaign;
    }
  }

  /**
   A ready gate vouches for the completed pair: its two cells and runs, in order, are in complete evidence with a
   terminal record each, and the commit checked out is the one upstream and on the remote.
   */
  lemma {:induction false} ReadyMeansPublished(
      campaign: Campaign, c: Completion, stored: Option<Mapping>, test: LineTest, journal: Bytes,
      evidence: Result<Evidence, ProofError>, repository: Result<Repository, ProofError>)
    requires CheckpointGate(campaign, Some(c), stored, test, journal, evidence, repository).Ready?
    ensures evidence.Ok? && repository.Ok?
    ensures var (first, second) := (evidence.value.cells.first, evidence.value.cells.second);
            && first.cellId == c.cells.first && second.cellId == c.cells.second && first.cellId != second.cellId
            && first.run == c.runs.first && second.run == c.runs.second && first.run != second.run
            && first.complete && first.terminal && second.complete && second.terminal
    ensures repository.value.head == repository.value.upstream == repository.value.remoteCommit
    ensures if c.kind == CalibrationPair then c.sequence == 1 && c.candidateId == "control" && c.searchPairIndex.None?
            else 1 <= c.sequence <= 7 && c.candidateId != "control" && c.searchPairIndex == Some(c.sequence - 2)
  {
    hide JournalPrefixHolds;
    ReadyMeansAcknowledged(campaign, c, stored, test, journal, evidence, repository);
    hide CheckpointGate, IsSha256, IsObjectId, IsIdentifier, IsPublishedIdentifier, IsGitRef, IsRemoteName;
  }

  /** The gate stays ready while the journal only grows by well-formed events. */
  lemma {:induction false} ReadyWhileJournalGrows(
      campaign: Campaign, c: Completion, a: Acknowledgement, test: LineTest, captured: Bytes, journal: Bytes)
    requires a.Valid() && a.campaign == campaign && a.completion == c
    requires CaptureJournalPrefix(test, captured) == Some(a.journal)
    ensures CheckpointGate(campaign, Some(c), Some(ToMapping(a)), test, journal, Ok(a.evidence), Ok(a.repository)) == Ready(c.sequence)
            <==> captured <= journal && |journal| <= MAX_JOURNAL_BYTES && JournalEvents(test, journal).Some?
  {
    MappingIsExact(ToMapping(a), a);
    PrefixHoldsForExtensions(test, captured, journal);
  }
}
