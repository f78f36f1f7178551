/**
 The bounded tool-use loop of bench/agentic_tools.py: whatever the model replies, its counters, its
 attempts and its transcript describe the same calls, and a pass means what the scenario asked for.
 */
module ToolLoop {
  import opened Common

  const MAX_TURNS := 8
  const MAX_TOOL_CALLS := 16
  const MAX_INTEGER := 1_000_000

  datatype ScenarioId = SelectAndCall | NoTool | TwoHop | ErrorRecovery

  datatype Tool = Multiply | AddIntegers | LookupNumber | UnstableLookup

  /** A parsed argument object: exactly the keys of one tool, or anything else. */
  datatype Arguments = Integers(a: int, b: int) | Label(name: string) | Key(key: string) | OtherObject

  /** One requested call: a name is absent when it is not a usable string, arguments when they do not parse. */
  datatype Call = Call(name: Option<string>, arguments: Option<Arguments>)

  datatype Finish = Stop | Length | ToolCalls | OtherFinish

  /** A model reply; the answer is the text after the final marker, if the whole content is one. */
  datatype Chat = RequestFailed | Reply(finish: Finish, calls: seq<Call>, answer: Option<string>)

  datatype Scenario = Scenario(
    id: ScenarioId, expectedAnswer: string, expectedCalls: seq<Tool>, tools: seq<Tool>, left: int, right: int, key: string)

  function ToolName(t: Tool): string {
    match t
    case Multiply => "multiply"
    case AddIntegers => "add_integers"
    case LookupNumber => "lookup_number"
    case UnstableLookup => "unstable_lookup"
  }

  function ToolNamed(tools: seq<Tool>, name: string): Option<Tool> {
    if tools == [] then None else if ToolName(tools[0]) == name then Some(tools[0]) else ToolNamed(tools[1..], name)
  }

  function Registry(entry: string): Option<int> {
    if entry == "cedar" then Some(17) else if entry == "amber" then Some(23) else if entry == "cobalt" then Some(31) else None
  }

  function Compass(key: string): Option<int> {
    if key == "north" then Some(44) else if key == "east" then Some(58) else if key == "west" then Some(73) else None
  }

  predicate ArgumentsValid(t: Tool, arguments: Arguments) {
    match t
    case LookupNumber => arguments.Label? && Registry(arguments.name).Some?
    case UnstableLookup => arguments.Key? && Compass(arguments.key).Some?
    case _ =>
      arguments.Integers? && -MAX_INTEGER <= arguments.a <= MAX_INTEGER && -MAX_INTEGER <= arguments.b <= MAX_INTEGER
  }

  /** What a tool returns; an unstable lookup fails the first time it is executed in an episode. */
  function Execute(t: Tool, arguments: Arguments, unstableCalls: nat): Option<int>
    requires ArgumentsValid(t, arguments)
  {
    match t
    case Multiply => Some(arguments.a * arguments.b)
    case AddIntegers => Some(arguments.a + arguments.b)
    case LookupNumber => Registry(arguments.name)
    case UnstableLookup => if unstableCalls == 0 then None else Compass(arguments.key)
  }

  /** An executed call; it has a value exactly when it succeeded. */
  datatype Attempt = Attempt(tool: Tool, arguments: Arguments, value: Option<int>, turn: nat)

  datatype Tally = Tally(
    executed: nat, succeeded: nat, errors: nat, malformed: nat, unknown: nat, attempts: seq<Attempt>, unstableCalls: nat)

  const NO_CALLS := Tally(0, 0, 0, 0, 0, [], 0)

  /** One call. */
  function Count(s: Scenario, turn: nat, t: Tally, c: Call): Tally {
    if c.name.None? || c.arguments.None? then t.(malformed := t.malformed + 1)
    else
      var tool := ToolNamed(s.tools, c.name.value);
      if tool.None? then t.(unknown := t.unknown + 1)
      else if !ArgumentsValid(tool.value, c.arguments.value) then t.(malformed := t.malformed + 1)
      else
        var value := Execute(tool.value, c.arguments.value, t.unstableCalls);
        t.(executed := t.executed + 1,
           succeeded := t.succeeded + if value.Some? then 1 else 0,
           errors := t.errors + if value.None? then 1 else 0,
           attempts := t.attempts + [Attempt(tool.value, c.arguments.value, value, turn)],
           unstableCalls := t.unstableCalls + if tool.value == UnstableLookup then 1 else 0)
  }

  function CountTurn(s: Scenario, turn: nat, t: Tally, calls: seq<Call>): Tally {
    if calls == [] then t
    else Count(s, turn, CountTurn(s, turn, t, calls[..|calls| - 1]), calls[|calls| - 1])
  }

  /** All calls of the recorded tool turns, numbered from one. */
  function CountAll(s: Scenario, turns: seq<seq<Call>>): Tally {
    if turns == [] then NO_CALLS
    else CountTurn(s, |turns|, CountAll(s, turns[..|turns| - 1]), turns[|turns| - 1])
  }

  function Calls(turns: seq<seq<Call>>): nat {
    if turns == [] then 0 else Calls(turns[..|turns| - 1]) + |turns[|turns| - 1]|
  }

  // ---------------------------------------------------------------------------
  // Conservation
  // ---------------------------------------------------------------------------

  function UnstableIn(attempts: seq<Attempt>): nat {
    if attempts == [] then 0
    else UnstableIn(attempts[..|attempts| - 1]) + if attempts[|attempts| - 1].tool == UnstableLookup then 1 else 0
  }

  /** Every call is counted once, every execution is an attempt, and only the first unstable lookup errs. */
  ghost predicate Conserved(t: Tally, calls: nat) {
    && calls == t.executed + t.malformed + t.unknown
    && t.executed == t.succeeded + t.errors == |t.attempts|
    && t.unstableCalls == UnstableIn(t.attempts)
    && t.errors == if t.unstableCalls == 0 then 0 else 1
  }

  ghost predicate OrderedUpTo(attempts: seq<Attempt>, turn: nat) {
    && (forall a :: a in attempts ==> 1 <= a.turn <= turn)
    && (forall i, j :: 0 <= i < j < |attempts| ==> attempts[i].turn <= attempts[j].turn)
  }

  lemma {:induction false} ExecutionFailsOnce(t: Tool, arguments: Arguments, unstableCalls: nat)
    requires ArgumentsValid(t, arguments)
    ensures Execute(t, arguments, unstableCalls).None? <==> t == UnstableLookup && unstableCalls == 0
  {
  }

  lemma {:induction false} CallConserves(s: Scenario, turn: nat, t: Tally, c: Call, before: nat)
    requires Conserved(t, before) && OrderedUpTo(t.attempts, turn) && turn >= 1
    ensures Conserved(Count(s, turn, t, c), before + 1) && OrderedUpTo(Count(s, turn, t, c).attempts, turn)
    ensures t.attempts <= Count(s, turn, t, c).attempts
  {
    hide ArgumentsValid, ToolNamed, Execute;
    var later := Count(s, turn, t, c);
    if later.attempts != t.attempts {
      ExecutionFailsOnce(ToolNamed(s.tools, c.name.value).value, c.arguments.value, t.unstableCalls);
      assert later.attempts[..|t.attempts|] == t.attempts;
    }
  }

  lemma {:induction false} TurnConserves(s: Scenario, turn: nat, t: Tally, calls: seq<Call>, before: nat)
    requires Conserved(t, before) && OrderedUpTo(t.attempts, turn) && turn >= 1
    ensures Conserved(CountTurn(s, turn, t, calls), before + |calls|)
    ensures OrderedUpTo(CountTurn(s, turn, t, calls).attempts, turn)
    ensures t.attempts <= CountTurn(s, turn, t, calls).attempts
    decreases |calls|
  {
    if calls != [] {
      var n := |calls| - 1;
      TurnConserves(s, turn, t, calls[..n], before);
      CallConserves(s, turn, CountTurn(s, turn, t, calls[..n]), calls[n], before + n);
    }
  }

  /** For any calls at all. */
  lemma {:induction false} CountsAreConserved(s: Scenario, turns: seq<seq<Call>>)
    ensures Conserved(CountAll(s, turns), Calls(turns))
    ensures OrderedUpTo(CountAll(s, turns).attempts, |turns|)
    decreases |turns|
  {
    if turns != [] {
      var n := |turns| - 1;
      CountsAreConserved(s, turns[..n]);
      TurnConserves(s, |turns|, CountAll(s, turns[..n]), turns[n], Calls(turns[..n]));
    }
  }

  // ---------------------------------------------------------------------------
  // Scenarios and their outcome
  // ---------------------------------------------------------------------------

  function Decimal(n: nat): string {
    if n < 10 then [('0' as int + n) as char] else Decimal(n / 10) + [('0' as int + n % 10) as char]
  }

  function ScenarioOf(id: ScenarioId, variant: nat): Scenario
    requires variant < 3
  {
    match id
    case SelectAndCall =>
      var (left, right) := [(6, 7), (8, 9), (12, 11)][variant];
      Scenario(id, Decimal(left * right), [Multiply], [Multiply, AddIntegers, LookupNumber], left, right, "")
    case NoTool =>
      Scenario(id, ["ORCHID-27", "EMBER-41", "QUARTZ-63"][variant], [], [LookupNumber, Multiply, AddIntegers], 0, 0, "")
    case TwoHop =>
      var (entry, factor) := [("cedar", 3), ("amber", 4), ("cobalt", 2)][variant];
      Scenario(id, Decimal(Registry(entry).value * factor), [LookupNumber, Multiply], [LookupNumber, AddIntegers, Multiply],
               Registry(entry).value, factor, entry)
    case ErrorRecovery =>
      var key := ["north", "east", "west"][variant];
      Scenario(id, Decimal(Compass(key).value), [UnstableLookup, UnstableLookup], [AddIntegers, UnstableLookup, Multiply], 0, 0, key)
  }

  predicate SameProduct(arguments: Arguments, left: int, right: int) {
    arguments.Integers? && (arguments == Integers(left, right) || arguments == Integers(right, left))
  }

  function Tools(attempts: seq<Attempt>): seq<Tool> {
    seq(|attempts|, i requires 0 <= i < |attempts| => attempts[i].tool)
  }

  /** The calls that the scenario asked for, in order, each returning what it should. */
  predicate SequenceCorrect(s: Scenario, t: Tally, limitExceeded: bool) {
    && t.malformed == 0 && t.unknown == 0 && !limitExceeded
    && |t.attempts| == |s.expectedCalls| && Tools(t.attempts) == s.expectedCalls
    && match s.id
       case NoTool => true
       case SelectAndCall =>
         |t.attempts| == 1
         && SameProduct(t.attempts[0].arguments, s.left, s.right) && t.attempts[0].value == Some(s.left * s.right)
       case TwoHop =>
         |t.attempts| == 2
         && t.attempts[0].arguments == Label(s.key) && t.attempts[0].value == Some(s.left)
         && t.attempts[1].turn > t.attempts[0].turn
         && SameProduct(t.attempts[1].arguments, s.left, s.right) && t.attempts[1].value == Some(s.left * s.right)
       case ErrorRecovery =>
         |t.attempts| == 2
         && t.attempts[0].arguments == Key(s.key) && t.attempts[1].arguments == Key(s.key)
         && t.attempts[1].turn > t.attempts[0].turn
         && t.attempts[0].value.None? && t.attempts[1].value.Some? && t.attempts[1].value == Compass(s.key)
  }

  /** A reply without tool calls. */
  datatype Closing = Closing(finish: Finish, answer: Option<string>)

  /** How an episode went: its tool turns, the size of a turn that broke the call limit, and the closing reply. */
  datatype Episode = Episode(turns: seq<seq<Call>>, overflow: Option<nat>, closing: Option<Closing>)
  {
    function TurnsUsed(): nat {
      |turns| + (if overflow.Some? then 1 else 0) + (if closing.Some? then 1 else 0)
    }

    function Requested(): nat {
      Calls(turns) + if overflow.Some? then overflow.value else 0
    }
  }

  datatype Failure =
    | ToolCallLimit | OutputLimit | MalformedToolCall | UnknownTool | TurnLimit | ToolSequence | MissingFinal | FinalAnswer

  datatype RunResult = RunResult(
    passed: bool, failure: Option<Failure>, turnsUsed: nat, requested: nat, tally: Tally,
    answerEmitted: bool, answerCorrect: bool, sequenceCorrect: bool,
    recoveryRequired: bool, recoverySucceeded: bool, turnLimitReached: bool)

  function FailureOf(passed: bool, limitExceeded: bool, t: Tally, turnLimitReached: bool, lengthTurns: nat,
                     sequenceCorrect: bool, answerEmitted: bool): Option<Failure>
  {
    if passed then None
    else if limitExceeded then Some(ToolCallLimit)
    else if lengthTurns > 0 then Some(OutputLimit)
    else if t.malformed > 0 then Some(MalformedToolCall)
    else if t.unknown > 0 then Some(UnknownTool)
    else if turnLimitReached then Some(TurnLimit)
    else if !sequenceCorrect then Some(ToolSequence)
    else if !answerEmitted then Some(MissingFinal)
    else Some(FinalAnswer)
  }

  function Conclude(s: Scenario, maxTurns: nat, turnsUsed: nat, requested: nat, t: Tally, limitExceeded: bool, lengthTurns: nat,
                    lastTurnHadTools: bool, answerEmitted: bool, answerCorrect: bool): RunResult
  {
    var turnLimitReached := !limitExceeded && turnsUsed == maxTurns && lastTurnHadTools && !answerEmitted;
    var sequenceCorrect := SequenceCorrect(s, t, limitExceeded);
    var recoveryRequired := s.id == ErrorRecovery;
    var passed := sequenceCorrect && answerEmitted && answerCorrect && !turnLimitReached && lengthTurns == 0;
    RunResult(passed, FailureOf(passed, limitExceeded, t, turnLimitReached, lengthTurns, sequenceCorrect, answerEmitted),
              turnsUsed, requested, t, answerEmitted, answerCorrect, sequenceCorrect, recoveryRequired,
              recoveryRequired && sequenceCorrect && t.errors == 1 && t.succeeded == 1, turnLimitReached)
  }

  // ---------------------------------------------------------------------------
  // The transcript
  // ---------------------------------------------------------------------------

  datatype CallId = CallId(turn: nat, index: nat)

  datatype Message = System | User | Assistant(ids: seq<CallId>) | ToolResult(id: CallId)

  function Ids(turn: nat, n: nat): seq<CallId> {
    seq(n, i requires 0 <= i < n => CallId(turn, i))
  }

  function Results(ids: seq<CallId>): seq<Message> {
    seq(|ids|, i requires 0 <= i < |ids| => ToolResult(ids[i]))
  }

  /** The messages after the recorded tool turns. */
  function Render(turns: seq<seq<Call>>): seq<Message> {
    if turns == [] then [System, User]
    else
      var n := |turns|;
      var ids := Ids(n, |turns[n - 1]|);
      Render(turns[..n - 1]) + [Assistant(ids)] + Results(ids)
  }

  function RequestedIds(messages: seq<Message>): seq<CallId> {
    if messages == [] then []
    else
      var n := |messages| - 1;
      RequestedIds(messages[..n]) + if messages[n].Assistant? then messages[n].ids else []
  }

  function AnsweredIds(messages: seq<Message>): seq<CallId> {
    if messages == [] then []
    else
      var n := |messages| - 1;
      AnsweredIds(messages[..n]) + if messages[n].ToolResult? then [messages[n].id] else []
  }

  lemma {:induction false} AnsweredResults(messages: seq<Message>, ids: seq<CallId>)
    ensures AnsweredIds(messages + Results(ids)) == AnsweredIds(messages) + ids
    ensures RequestedIds(messages + Results(ids)) == RequestedIds(messages)
    decreases |ids|
  {
    if ids == [] {
      assert messages + Results(ids) == messages;
    } else {
      var n := |ids| - 1;
      AnsweredResults(messages, ids[..n]);
      var all := messages + Results(ids);
      assert all[..|all| - 1] == messages + Results(ids[..n]);
      assert ids == ids[..n] + [ids[n]];
    }
  }

  /**
   Each recorded assistant call has exactly one tool message, in the same order, and all identities of an episode
   are different.
   */
  lemma {:induction false} TranscriptIsPaired(turns: seq<seq<Call>>)
    ensures RequestedIds(Render(turns)) == AnsweredIds(Render(turns))
    ensures Distinct(RequestedIds(Render(turns))) && |RequestedIds(Render(turns))| == Calls(turns)
    ensures forall id :: id in RequestedIds(Render(turns)) ==> id.turn <= |turns|
    decreases |turns|
  {
    if turns == [] {
      NothingAsked();
    } else {
      var n := |turns|;
      var before, ids := Render(turns[..n - 1]), Ids(n, |turns[n - 1]|);
      TranscriptIsPaired(turns[..n - 1]);
      assert Render(turns) == before + [Assistant(ids)] + Results(ids);
      assert Calls(turns) == Calls(turns[..n - 1]) + |turns[n - 1]|;
      hide *;
      RenderedTurn(before, ids);
      PairedStep(RequestedIds(before), n, |turns[n - 1]|);
    }
  }

  lemma {:induction false} PairedStep(asked: seq<CallId>, n: nat, k: nat)
    requires Distinct(asked) && forall id :: id in asked ==> id.turn < n
    ensures Distinct(asked + Ids(n, k)) && |asked + Ids(n, k)| == |asked| + k
    ensures forall id :: id in asked + Ids(n, k) ==> id.turn <= n
  {
    var ids := Ids(n, k);
    assert forall id :: id in ids ==> id.turn == n;
    DistinctConcat(asked, ids);
  }

  lemma {:induction false} NothingAsked()
    ensures RequestedIds([System, User]) == AnsweredIds([System, User]) == []
  {
    assert [System, User][..1] == [System];
    assert RequestedIds([]) == AnsweredIds([]) == [];
    assert [System][..0] == [];
    assert RequestedIds([System]) == AnsweredIds([System]) == [];
  }

  lemma {:induction false} RenderedTurn(before: seq<Message>, ids: seq<CallId>)
    ensures RequestedIds(before + [Assistant(ids)] + Results(ids)) == RequestedIds(before) + ids
    ensures AnsweredIds(before + [Assistant(ids)] + Results(ids)) == AnsweredIds(before) + ids
  {
    var asked := before + [Assistant(ids)];
    assert asked[..|before|] == before;
    AnsweredResults(asked, ids);
  }

  lemma {:induction false} DistinctConcat(a: seq<CallId>, b: seq<CallId>)
    requires Distinct(a) && Distinct(b) && forall x :: x in a ==> x !in b
    ensures Distinct(a + b)
  {
    forall i, j | 0 <= i < j < |a + b|
      ensures (a + b)[i] != (a + b)[j]
    {
      if i < |a| <= j {
        assert a[i] in a && b[j - |a|] in b;
      }
    }
  }

  // ---------------------------------------------------------------------------
  // What a result says
  // ---------------------------------------------------------------------------

  /** The result of an episode, from its turns alone. */
  function Assess(s: Scenario, maxTurns: nat, e: Episode): RunResult {
    var answer := if e.closing.Some? then e.closing.value.answer else None;
    Conclude(s, maxTurns, e.TurnsUsed(), e.Requested(), CountAll(s, e.turns), e.overflow.Some?,
             if e.closing.Some? && e.closing.value.finish == Length then 1 else 0,
             e.closing.None?, answer.Some?, answer == Some(s.expectedAnswer))
  }

  predicate IsToolTurn(reply: Chat, calls: seq<Call>) {
    reply.Reply? && reply.finish == ToolCalls && reply.calls == calls != []
  }

  /** The episode is what these model replies lead to. */
  ghost predicate Happened(model: nat -> Chat, maxTurns: nat, e: Episode) {
    var n := |e.turns|;
    && n <= maxTurns && Calls(e.turns) <= MAX_TOOL_CALLS
    && (forall i :: 0 <= i < n ==> IsToolTurn(model(i), e.turns[i]))
    && (e.overflow.Some? ==>
          && e.closing.None? && n < maxTurns && model(n).Reply? && IsToolTurn(model(n), model(n).calls)
          && e.overflow.value == |model(n).calls| && Calls(e.turns) + e.overflow.value > MAX_TOOL_CALLS)
    && (e.closing.Some? ==>
          && e.overflow.None? && n < maxTurns && model(n).Reply? && model(n).calls == []
          && model(n).finish in {Stop, Length} && e.closing.value == Closing(model(n).finish, model(n).answer))
    && (e.overflow.None? && e.closing.None? ==> n == maxTurns)
  }

  lemma {:induction false} EveryTurnCalls(turns: seq<seq<Call>>)
    requires forall i :: 0 <= i < |turns| ==> turns[i] != []
    ensures Calls(turns) >= |turns|
    decreases |turns|
  {
    if turns != [] {
      EveryTurnCalls(turns[..|turns| - 1]);
    }
  }

  /**
   Conservation, for any model behaviour: every requested call was executed, malformed or unknown, unless the call
   limit cut the last turn off; and the attempts are exactly the executed calls.
   */
  lemma {:induction false} RequestsAreConserved(s: Scenario, model: nat -> Chat, maxTurns: nat, e: Episode)
    requires Happened(model, maxTurns, e)
    ensures var r := Assess(s, maxTurns, e);
            && (r.requested == r.tally.executed + r.tally.malformed + r.tally.unknown <==> r.failure != Some(ToolCallLimit))
            && r.tally.executed == r.tally.succeeded + r.tally.errors == |r.tally.attempts| <= MAX_TOOL_CALLS
            && r.turnsUsed <= maxTurns
            && (r.passed <==> r.failure.None?)
  {
    hide CountAll, SequenceCorrect;
    CountsAreConserved(s, e.turns);
  }

  /** A recovery has succeeded exactly when it was required and the calls were the expected ones. */
  lemma {:induction false} RecoveryIsSequence(model: nat -> Chat, id: ScenarioId, variant: nat, maxTurns: nat, e: Episode)
    requires variant < 3 && Happened(model, maxTurns, e)
    ensures var r := Assess(ScenarioOf(id, variant), maxTurns, e);
            r.recoverySucceeded <==> r.recoveryRequired && r.sequenceCorrect
  {
    var s := ScenarioOf(id, variant);
    CountsAreConserved(s, e.turns);
    hide CountAll, Decimal;
    var t := CountAll(s, e.turns);
    if id == ErrorRecovery && SequenceCorrect(s, t, e.overflow.Some?) {
      assert Tools(t.attempts)[0] == Tools(t.attempts)[1] == UnstableLookup;
      assert t.attempts[..1][..0] == [];
    }
  }

  lemma {:induction false} PassedEpisode(s: Scenario, model: nat -> Chat, maxTurns: nat, e: Episode)
    requires Happened(model, maxTurns, e) && Assess(s, maxTurns, e).passed
    ensures var t := CountAll(s, e.turns);
            && SequenceCorrect(s, t, false) && OrderedUpTo(t.attempts, |e.turns|)
            && Calls(e.turns) == t.executed == |t.attempts| == |s.expectedCalls|
            && e.Requested() == Calls(e.turns) >= |e.turns| && e.TurnsUsed() == |e.turns| + 1
  {
    CountsAreConserved(s, e.turns);
    EveryTurnCalls(e.turns);
    hide CountAll, Tools;
  }

  lemma {:induction false} ExpectedCalls(id: ScenarioId, variant: nat)
    requires variant < 3
    ensures ScenarioOf(id, variant).id == id
    ensures |ScenarioOf(id, variant).expectedCalls| == if id == NoTool then 0 else if id == SelectAndCall then 1 else 2
  {
    hide Decimal;
  }

  /** A pass asked for exactly the expected calls, over the turns that they and the final answer need. */
  lemma {:induction false} PassesTakeTheirTurns(model: nat -> Chat, id: ScenarioId, variant: nat, maxTurns: nat, e: Episode)
    requires variant < 3 && Happened(model, maxTurns, e)
    requires Assess(ScenarioOf(id, variant), maxTurns, e).passed
    ensures var r := Assess(ScenarioOf(id, variant), maxTurns, e);
            && r.requested == r.tally.executed == |ScenarioOf(id, variant).expectedCalls|
            && (id == NoTool ==> r.turnsUsed == 1)
            && (id == SelectAndCall ==> r.turnsUsed == 2)
            && (id == TwoHop || id == ErrorRecovery ==> r.turnsUsed == 3)
  {
    hide CountAll, ScenarioOf, Tools, Happened;
    var s := ScenarioOf(id, variant);
    ExpectedCalls(id, variant);
    PassedEpisode(s, model, maxTurns, e);
    var t := CountAll(s, e.turns);
    if id != NoTool {
      assert t.attempts[0] in t.attempts;
    }
    if id == TwoHop || id == ErrorRecovery {
      assert t.attempts[1] in t.attempts;
    }
  }

  // ---------------------------------------------------------------------------
  // Exactly which episodes pass, and why the others fail
  // ---------------------------------------------------------------------------

  predicate IsProduct(c: Call, left: int, right: int) {
    c == Call(Some("multiply"), Some(Integers(left, right))) || c == Call(Some("multiply"), Some(Integers(right, left)))
  }

  /** The tool turns that a scenario asks for, one call each. */
  predicate AsAsked(s: Scenario, turns: seq<seq<Call>>) {
    && (forall i :: 0 <= i < |turns| ==> |turns[i]| == 1)
    && match s.id
       case NoTool => turns == []
       case SelectAndCall => |turns| == 1 && IsProduct(turns[0][0], s.left, s.right)
       case TwoHop =>
         && |turns| == 2
         && turns[0][0] == Call(Some("lookup_number"), Some(Label(s.key))) && IsProduct(turns[1][0], s.left, s.right)
       case ErrorRecovery =>
         |turns| == 2 && turns[0][0] == turns[1][0] == Call(Some("unstable_lookup"), Some(Key(s.key)))
  }

  lemma {:induction false} NamedTool(tools: seq<Tool>, name: string)
    ensures ToolNamed(tools, name).Some? ==> name == ToolName(ToolNamed(tools, name).value) && ToolNamed(tools, name).value in tools
    ensures ToolNamed(tools, name).None? ==> forall t :: t in tools ==> ToolName(t) != name
  {
    if tools != [] {
      NamedTool(tools[1..], name);
      assert tools == [tools[0]] + tools[1..];
    }
  }

  lemma {:induction false} NamesDiffer(a: Tool, b: Tool)
    ensures ToolName(a) == ToolName(b) ==> a == b
  {
  }

  lemma {:induction false} OneTurn(s: Scenario, c: Call)
    ensures CountAll(s, [[c]]) == Count(s, 1, NO_CALLS, c)
    ensures Calls([[c]]) == 1
  {
    assert [[c]][..0] == [] && [c][..0] == [];
    assert CountAll(s, []) == NO_CALLS && CountTurn(s, 1, NO_CALLS, []) == NO_CALLS;
  }

  lemma {:induction false} TwoTurns(s: Scenario, c: Call, d: Call)
    ensures CountAll(s, [[c], [d]]) == Count(s, 2, Count(s, 1, NO_CALLS, c), d)
  {
    hide Count;
    OneTurn(s, c);
    var t := Count(s, 1, NO_CALLS, c);
    assert [[c], [d]][..1] == [[c]] && [d][..0] == [];
    assert CountTurn(s, 2, t, []) == t;
  }

  /** A call of one tool, with arguments in its range, is executed. */
  lemma {:induction false} ExecutedCall(s: Scenario, turn: nat, t: Tally, c: Call)
    ensures var u := Count(s, turn, t, c);
            if u.malformed == t.malformed && u.unknown == t.unknown
            then c.name.Some? && c.arguments.Some? && ToolNamed(s.tools, c.name.value).Some?
                 && var tool := ToolNamed(s.tools, c.name.value).value;
                    && ArgumentsValid(tool, c.arguments.value) && c.name.value == ToolName(tool)
                    && u.attempts == t.attempts + [Attempt(tool, c.arguments.value, Execute(tool, c.arguments.value, t.unstableCalls), turn)]
                    && u.unstableCalls == t.unstableCalls + if tool == UnstableLookup then 1 else 0
            else u.attempts == t.attempts
    ensures Count(s, turn, t, c).malformed >= t.malformed && Count(s, turn, t, c).unknown >= t.unknown
  {
    hide Execute, ArgumentsValid, ToolNamed, ToolName;
    if c.name.Some? {
      NamedTool(s.tools, c.name.value);
    }
  }

  /** A passing tally has as many turns as calls, each of one call. */
  lemma {:induction false} SingleCalls(turns: seq<seq<Call>>)
    requires forall i :: 0 <= i < |turns| ==> turns[i] != []
    requires Calls(turns) == |turns|
    ensures forall i :: 0 <= i < |turns| ==> |turns[i]| == 1
    decreases |turns|
  {
    if turns != [] {
      var n := |turns| - 1;
      EveryTurnCalls(turns[..n]);
      SingleCalls(turns[..n]);
      assert forall i :: 0 <= i < n ==> turns[..n][i] == turns[i];
    }
  }

  /** What the scenarios have in common: their numbers are in range, and their keys are known. */
  predicate WellPosed(s: Scenario) {
    && -MAX_INTEGER <= s.left <= MAX_INTEGER && -MAX_INTEGER <= s.right <= MAX_INTEGER
    && (forall t :: t in s.expectedCalls ==> t in s.tools)
    && match s.id
       case NoTool => s.expectedCalls == []
       case SelectAndCall => s.expectedCalls == [Multiply]
       case TwoHop => s.expectedCalls == [LookupNumber, Multiply] && Registry(s.key) == Some(s.left)
       case ErrorRecovery => s.expectedCalls == [UnstableLookup, UnstableLookup] && Compass(s.key).Some?
  }

  lemma {:induction false} ScenariosAreWellPosed(id: ScenarioId, variant: nat)
    requires variant < 3
    ensures WellPosed(ScenarioOf(id, variant)) && ScenarioOf(id, variant).id == id
  {
    hide Decimal;
  }

  /** A call by the name of an available tool, with arguments in its range, is executed as that tool. */
  lemma {:induction false} CallExecutes(s: Scenario, turn: nat, t: Tally, c: Call, tool: Tool)
    requires tool in s.tools && c.name == Some(ToolName(tool)) && c.arguments.Some? && ArgumentsValid(tool, c.arguments.value)
    ensures ToolNamed(s.tools, c.name.value) == Some(tool)
    ensures Count(s, turn, t, c).malformed == t.malformed && Count(s, turn, t, c).unknown == t.unknown
  {
    NamedTool(s.tools, c.name.value);
    NamesDiffer(tool, ToolNamed(s.tools, c.name.value).value);
  }

  lemma {:induction false} OneCallCorrect(s: Scenario, c: Call)
    requires WellPosed(s) && s.id == SelectAndCall
    ensures SequenceCorrect(s, CountAll(s, [[c]]), false) <==> IsProduct(c, s.left, s.right)
  {
    hide CountAll, Count, ToolNamed, Registry, Compass;
    OneTurn(s, c);
    ExecutedCall(s, 1, NO_CALLS, c);
    var t := Count(s, 1, NO_CALLS, c);
    if SequenceCorrect(s, t, false) {
      assert Tools(t.attempts)[0] == Multiply;
    }
    if IsProduct(c, s.left, s.right) {
      CallExecutes(s, 1, NO_CALLS, c, Multiply);
      assert t.attempts == [Attempt(Multiply, c.arguments.value, Some(s.left * s.right), 1)];
    }
  }

  /** Two single calls in two turns, each executed as the tool that the scenario expects. */
  lemma {:induction false} TwoCallsExecuted(s: Scenario, c: Call, d: Call)
    ensures var t := CountAll(s, [[c], [d]]);
            t.malformed == 0 && t.unknown == 0 ==>
              && c.name.Some? && c.arguments.Some? && d.name.Some? && d.arguments.Some?
              && ToolNamed(s.tools, c.name.value).Some? && ToolNamed(s.tools, d.name.value).Some?
              && var (a, b) := (ToolNamed(s.tools, c.name.value).value, ToolNamed(s.tools, d.name.value).value);
                 && c.name.value == ToolName(a) && d.name.value == ToolName(b)
                 && ArgumentsValid(a, c.arguments.value) && ArgumentsValid(b, d.arguments.value)
                 && t.attempts == [Attempt(a, c.arguments.value, Execute(a, c.arguments.value, 0), 1),
                                   Attempt(b, d.arguments.value, Execute(b, d.arguments.value, if a == UnstableLookup then 1 else 0), 2)]
  {
    hide CountAll, Count, ToolNamed, Execute, ArgumentsValid, ToolName;
    TwoTurns(s, c, d);
    ExecutedCall(s, 1, NO_CALLS, c);
    ExecutedCall(s, 2, Count(s, 1, NO_CALLS, c), d);
  }

  lemma {:induction false} TwoCallsExecute(s: Scenario, c: Call, d: Call, a: Tool, b: Tool)
    requires a in s.tools && c.name == Some(ToolName(a)) && c.arguments.Some? && ArgumentsValid(a, c.arguments.value)
    requires b in s.tools && d.name == Some(ToolName(b)) && d.arguments.Some? && ArgumentsValid(b, d.arguments.value)
    ensures var t := CountAll(s, [[c], [d]]);
            && t.malformed == 0 && t.unknown == 0
            && t.attempts == [Attempt(a, c.arguments.value, Execute(a, c.arguments.value, 0), 1),
                              Attempt(b, d.arguments.value, Execute(b, d.arguments.value, if a == UnstableLookup then 1 else 0), 2)]
  {
    hide CountAll, Count, ToolNamed, Execute, ArgumentsValid, ToolName;
    TwoTurns(s, c, d);
    CallExecutes(s, 1, NO_CALLS, c, a);
    CallExecutes(s, 2, Count(s, 1, NO_CALLS, c), d, b);
    TwoCallsExecuted(s, c, d);
  }

  lemma {:induction false} TwoCallsCorrect(s: Scenario, c: Call, d: Call)
    requires WellPosed(s) && (s.id == TwoHop || s.id == ErrorRecovery)
    ensures SequenceCorrect(s, CountAll(s, [[c], [d]]), false) <==> AsAsked(s, [[c], [d]])
  {
    hide CountAll, ToolNamed, Registry, Compass;
    TwoCallsExecuted(s, c, d);
    var t := CountAll(s, [[c], [d]]);
    if SequenceCorrect(s, t, false) {
      assert Tools(t.attempts)[0] == s.expectedCalls[0] && Tools(t.attempts)[1] == s.expectedCalls[1];
    }
    if AsAsked(s, [[c], [d]]) {
      assert [[c], [d]][0][0] == c && [[c], [d]][1][0] == d;
      assert s.expectedCalls[0] in s.tools && s.expectedCalls[1] in s.tools;
      TwoCallsExecute(s, c, d, s.expectedCalls[0], s.expectedCalls[1]);
      assert Tools(t.attempts) == s.expectedCalls;
    }
  }

  lemma {:induction false} CorrectSpreads(s: Scenario, t: Tally, turns: nat)
    requires WellPosed(s) && SequenceCorrect(s, t, false) && OrderedUpTo(t.attempts, turns) && turns <= |t.attempts|
    ensures turns == |t.attempts| == |s.expectedCalls|
  {
    hide Tools, Registry, Compass, SameProduct;
    if |t.attempts| > 0 {
      assert t.attempts[0] in t.attempts;
    }
    if |t.attempts| > 1 {
      assert t.attempts[1] in t.attempts;
    }
  }

  /** As many turns as calls, and as many calls as asked for: all that a correct sequence leaves open are the calls. */
  lemma {:induction false} CorrectHasItsTurns(s: Scenario, turns: seq<seq<Call>>)
    requires WellPosed(s) && forall i :: 0 <= i < |turns| ==> turns[i] != []
    requires SequenceCorrect(s, CountAll(s, turns), false)
    ensures |turns| == |s.expectedCalls| && forall i :: 0 <= i < |turns| ==> |turns[i]| == 1
  {
    hide CountAll, WellPosed, Tools;
    CountsAreConserved(s, turns);
    EveryTurnCalls(turns);
    var t := CountAll(s, turns);
    assert t.malformed == 0 && t.unknown == 0;
    hide SequenceCorrect;
    CorrectSpreads(s, t, |turns|);
    SingleCalls(turns);
  }

  /** A sequence of calls is correct exactly if it is what the scenario asks for. */
  lemma {:induction false} CorrectExactly(id: ScenarioId, variant: nat, turns: seq<seq<Call>>)
    requires variant < 3 && forall i :: 0 <= i < |turns| ==> turns[i] != []
    ensures var s := ScenarioOf(id, variant); SequenceCorrect(s, CountAll(s, turns), false) <==> AsAsked(s, turns)
  {
    hide ScenarioOf, CountAll, IsProduct;
    var s := ScenarioOf(id, variant);
    ScenariosAreWellPosed(id, variant);
    if SequenceCorrect(s, CountAll(s, turns), false) {
      CorrectHasItsTurns(s, turns);
    }
    hide SequenceCorrect;
    if |turns| == |s.expectedCalls| && forall i :: 0 <= i < |turns| ==> |turns[i]| == 1 {
      match id
      case NoTool =>
        assert turns == [];
        NothingCorrect(s);
      case SelectAndCall =>
        assert turns[0] == [turns[0][0]];
        assert turns == [[turns[0][0]]];
        OneCallCorrect(s, turns[0][0]);
      case _ =>
        assert turns[0] == [turns[0][0]] && turns[1] == [turns[1][0]];
        assert turns == [[turns[0][0]], [turns[1][0]]];
        TwoCallsCorrect(s, turns[0][0], turns[1][0]);
    }
  }

  lemma {:induction false} NothingCorrect(s: Scenario)
    requires WellPosed(s) && s.id == NoTool
    ensures SequenceCorrect(s, CountAll(s, []), false)
  {
  }

  /** An episode passes exactly if it makes the calls that its scenario asks for and then stops with the expected answer. */
  lemma {:induction false} PassesExactly(model: nat -> Chat, id: ScenarioId, variant: nat, maxTurns: nat, e: Episode)
    requires variant < 3 && Happened(model, maxTurns, e)
    ensures var s := ScenarioOf(id, variant);
            Assess(s, maxTurns, e).passed <==>
            AsAsked(s, e.turns) && e.overflow.None? && e.closing == Some(Closing(Stop, Some(s.expectedAnswer)))
  {
    hide ScenarioOf, CountAll, AsAsked;
    var s := ScenarioOf(id, variant);
    CorrectExactly(id, variant, e.turns);
    FailureMeans(s, model, maxTurns, e);
    hide SequenceCorrect;
  }

  /** The answer a scenario expects is the decimal form of what its last call returns. */
  lemma {:induction false} AnswerIsLastValue(id: ScenarioId, variant: nat, turns: seq<seq<Call>>)
    requires variant < 3 && id != NoTool && AsAsked(ScenarioOf(id, variant), turns)
    ensures var s := ScenarioOf(id, variant);
            var t := CountAll(s, turns);
            && t.attempts != [] && t.attempts[|t.attempts| - 1].value.Some? && t.attempts[|t.attempts| - 1].value.value >= 0
            && s.expectedAnswer == Decimal(t.attempts[|t.attempts| - 1].value.value)
  {
    CorrectExactly(id, variant, turns);
    hide CountAll, Decimal;
  }

  /** Why an episode failed, in the order of precedence. */
  lemma {:induction false} FailureMeans(s: Scenario, model: nat -> Chat, maxTurns: nat, e: Episode)
    requires Happened(model, maxTurns, e)
    ensures var r := Assess(s, maxTurns, e);
            var silent, stopped := e.overflow.None? && e.closing.None?, e.closing.Some? && e.closing.value.finish == Stop;
            var orderly := r.tally.malformed == 0 && r.tally.unknown == 0;
            && (r.failure == Some(ToolCallLimit) <==> e.overflow.Some?)
            && (r.failure == Some(OutputLimit) <==> e.closing.Some? && e.closing.value.finish == Length)
            && (r.failure == Some(MalformedToolCall) <==> (silent || stopped) && r.tally.malformed > 0)
            && (r.failure == Some(UnknownTool) <==> (silent || stopped) && r.tally.malformed == 0 && r.tally.unknown > 0)
            && (r.failure == Some(TurnLimit) <==> silent && orderly)
            && (r.failure == Some(ToolSequence) <==> stopped && orderly && !r.sequenceCorrect)
            && (r.failure == Some(MissingFinal) <==> stopped && r.sequenceCorrect && e.closing.value.answer.None?)
            && (r.failure == Some(FinalAnswer) <==>
                  stopped && r.sequenceCorrect && e.closing.value.answer.Some? && e.closing.value.answer.value != s.expectedAnswer)
            && (r.failure.None? <==> stopped && r.sequenceCorrect && e.closing.value.answer == Some(s.expectedAnswer))
  {
    hide CountAll, Calls, IsToolTurn, Tools;
  }

  // ---------------------------------------------------------------------------
  // The loop
  // ---------------------------------------------------------------------------

  /** One tool turn: every call is counted, answered and recorded. */
  method RunTurn(s: Scenario, turn: nat, t: Tally, calls: seq<Call>) returns (after: Tally, messages: seq<Message>)
    ensures after == CountTurn(s, turn, t, calls)
    ensures messages == [Assistant(Ids(turn, |calls|))] + Results(Ids(turn, |calls|))
  {
    after := t;
    var ids: seq<CallId> := [];
    var answers: seq<Message> := [];
    for i := 0 to |calls|
      invariant after == CountTurn(s, turn, t, calls[..i])
      invariant ids == Ids(turn, i) && answers == Results(ids)
    {
      assert calls[..i + 1][..i] == calls[..i];
      var id := CallId(turn, i);
      after := Count(s, turn, after, calls[i]);
      ids, answers := ids + [id], answers + [ToolResult(id)];
    }
    assert calls[..|calls|] == calls;
    messages := [Assistant(ids)] + answers;
  }

  /** The bounded loop. It fails when the model does; otherwise its result and transcript are those of its episode. */
  method RunAgenticScenario(s: Scenario, maxTurns: nat, model: nat -> Chat)
    returns (r: Option<RunResult>, messages: seq<Message>, ghost e: Episode)
    ensures r.Some? ==> 1 <= maxTurns <= MAX_TURNS
    ensures r.Some? ==> Happened(model, maxTurns, e) && r.value == Assess(s, maxTurns, e) && messages == Render(e.turns)
    ensures r.None? && 1 <= maxTurns <= MAX_TURNS ==> exists i :: 0 <= i < maxTurns && !Acceptable(model(i))
  {
    hide Count, CountTurn, Conclude;
    e := Episode([], None, None);
    messages := [System, User];
    if maxTurns < 1 || maxTurns > MAX_TURNS {
      return None, messages, e;
    }
    var tally, requested := NO_CALLS, 0;
    for turn := 0 to maxTurns
      invariant |e.turns| == turn && e.overflow.None? && e.closing.None?
      invariant forall i :: 0 <= i < turn ==> IsToolTurn(model(i), e.turns[i])
      invariant requested == Calls(e.turns) <= MAX_TOOL_CALLS
      invariant tally == CountAll(s, e.turns) && messages == Render(e.turns)
    {
      var reply := model(turn);
      if reply.RequestFailed? {
        return None, messages, e;
      }
      if reply.calls == [] {
        if reply.finish != Stop && reply.finish != Length {
          return None, messages, e;
        }
        e := e.(closing := Some(Closing(reply.finish, reply.answer)));
        r := Some(Conclude(s, maxTurns, turn + 1, requested, tally, false, if reply.finish == Length then 1 else 0, false,
                           reply.answer.Some?, reply.answer == Some(s.expectedAnswer)));
        return;
      }
      if reply.finish != ToolCalls {
        return None, messages, e;
      }
      requested := requested + |reply.calls|;
      if requested > MAX_TOOL_CALLS {
        e := e.(overflow := Some(|reply.calls|));
        r := Some(Conclude(s, maxTurns, turn + 1, requested, tally, true, 0, true, false, false));
        return;
      }
      var more: seq<Message>;
      tally, more := RunTurn(s, turn + 1, tally, reply.calls);
      ghost var turns := e.turns + [reply.calls];
      assert turns[..turn] == e.turns;
      messages := messages + more;
      e := e.(turns := turns);
    }
    r := Some(Conclude(s, maxTurns, maxTurns, requested, tally, false, 0, true, false, false));
  }

  /** A reply that the loop can go on with. */
  predicate Acceptable(reply: Chat) {
    reply.Reply? && if reply.calls == [] then reply.finish in {Stop, Length} else reply.finish == ToolCalls
  }
}
