/**
 The grammar of accepted controller histories, written without reference to the replay machine:
 a campaign start, closed candidate blocks, at most one open candidate, and at most one ending.
 Replay accepts exactly these histories, and its state is a function of their structure.
 */
module History {
  import opened Common
  import opened Gates
  import opened Replay

  datatype Header = Header(candidateId: string, axis: string, deltaDigest: string)
  {
    predicate Valid(p: Policy) {
      IsSafeId(candidateId) && IsSafeId(axis) && axis in p.allowedAxes && IsSha256(deltaDigest)
    }
  }

  /** A first pair that was confirmed, and how. */
  datatype First = First(observation: Observation, mode: Mode)
  {
    function Decision(): Decision {
      if mode == Standard then Confirm else ConfirmSimplification
    }

    predicate Valid(p: Policy, pairIndex: int) {
      && observation.WellFormed() && observation.pairIndex == pairIndex
      && PairReasons(p, observation) == []
      && (if mode == Standard then ScreenPasses(p, observation) else SimplificationScreenPasses(p, observation))
    }
  }

  /** How far the current candidate has come. */
  datatype Open =
    | Nothing
    | Waiting(header: Header, first: Option<First>)
    | Running(header: Header, first: Option<First>, arms: nat)
    | Scored(header: Header, first: Option<First>, last: Observation)
  {
    /** Scored pairs before the current one. */
    function Confirmed(): nat {
      if Nothing? || first.None? then 0 else 1
    }

    function Pairs(): nat {
      Confirmed() + if Scored? then 1 else 0
    }

    function Observations(): seq<Observation>
      requires !Nothing?
    {
      if first.None? then [] else [first.value.observation]
    }

    predicate Valid(p: Policy, base: nat) {
      Nothing? ||
      (&& header.Valid(p)
       && (first.Some? ==> first.value.Valid(p, base))
       && (Running? ==> arms <= 2)
       && (Scored? ==> last.WellFormed() && last.pairIndex == base + Confirmed()))
    }

    /** The events since this candidate started, its first pair having index `base`. */
    function Events(base: nat): seq<Event> {
      if Nothing? then []
      else
        var c := header.candidateId;
        [CandidateStarted(c, header.axis, header.deltaDigest)]
        + (if first.None? then []
           else PairEvents(c, base, first.value.observation) + [CandidateDecided(c, first.value.Decision())])
        + (if Running? then PairStart(c, base + Confirmed(), arms)
           else if Scored? then PairEvents(c, base + Confirmed(), last)
           else [])
    }
  }

  /** A pair start followed by the first `arms` cells of its counterbalanced order. */
  function PairStart(c: string, pairIndex: int, arms: nat): seq<Event> {
    [PairStarted(c, pairIndex, PairOrder(pairIndex))]
    + (if arms == 0 then [] else [CellCompleted(c, pairIndex, PairOrder(pairIndex)[0])])
    + (if arms < 2 then [] else [CellCompleted(c, pairIndex, PairOrder(pairIndex)[1])])
  }

  function PairEvents(c: string, pairIndex: int, o: Observation): seq<Event> {
    PairStart(c, pairIndex, 2) + [PairScored(c, pairIndex, o)]
  }

  /** A finished candidate: how far it came and the event that closed it. */
  datatype Block = Block(open: Open, closing: Event)
  {
    function Events(base: nat): seq<Event> {
      open.Events(base) + [closing]
    }

    predicate Promotes() {
      closing.CandidateDecided? && closing.decision in {Promote, PromoteSimplification}
    }

    predicate Valid(p: Policy, base: nat) {
      && open.Valid(p, base)
      && !open.Nothing?
      && match closing
         case CandidateDecided(c, decision) =>
           && open.Scored? && c == open.header.candidateId
           && PairReasons(p, open.last) == []
           && (decision == Reject
               || (decision == Promote && open.first.Some? && open.first.value.mode == Standard
                   && PromotionPasses(p, open.first.value.observation, open.last))
               || (decision == PromoteSimplification && open.first.Some? && open.first.value.mode == Simplified
                   && SimplificationPromotionPasses(p, open.first.value.observation, open.last)))
         case CandidateDiscarded(c, kind, cleanupVerified, restoredPreflight) =>
           && (open.Waiting? || open.Running?) && c == open.header.candidateId
           && kind in {CandidateSyntax, CandidateStartup} && cleanupVerified && restoredPreflight
         case _ => false
    }
  }

  function PairsOf(blocks: seq<Block>): nat {
    if blocks == [] then 0 else PairsOf(blocks[..|blocks| - 1]) + blocks[|blocks| - 1].open.Pairs()
  }

  function BlockEvents(blocks: seq<Block>): seq<Event> {
    if blocks == [] then []
    else
      var before := blocks[..|blocks| - 1];
      BlockEvents(before) + blocks[|blocks| - 1].Events(PairsOf(before))
  }

  predicate BlocksValid(p: Policy, blocks: seq<Block>) {
    blocks == [] ||
    var before := blocks[..|blocks| - 1];
    BlocksValid(p, before) && blocks[|blocks| - 1].Valid(p, PairsOf(before))
  }

  datatype Ending = Ongoing | Concluded | Aborted(kind: FailureKind, cleanupVerified: bool, restoredPreflight: bool)
  {
    function Events(): seq<Event> {
      match this
      case Ongoing => []
      case Concluded => [CampaignCompleted]
      case Aborted(kind, cleanupVerified, restoredPreflight) =>
        [CampaignTerminated(kind, cleanupVerified, restoredPreflight)]
    }
  }

  datatype History =
    | Unstarted
    | Campaign(id: string, blocks: seq<Block>, open: Open, ending: Ending)
  {
    function Events(p: Policy): seq<Event> {
      if Unstarted? then []
      else [CampaignStarted(id, p.digest)] + BlockEvents(blocks) + open.Events(PairsOf(blocks)) + ending.Events()
    }

    predicate Valid(p: Policy) {
      Unstarted? ||
      (&& IsSafeId(id) && IsSha256(p.digest)
       && BlocksValid(p, blocks)
       && open.Valid(p, PairsOf(blocks))
       && (ending == Concluded ==> open.Nothing?)
       && (ending.Aborted? ==>
             && ending.kind != UnknownFailure
             && FailureDisposition(ending.kind, ending.cleanupVerified, ending.restoredPreflight) == TerminateCampaign))
    }

    /** The replay state this history leads to. */
    function State(): Machine {
      if Unstarted? then INITIAL
      else
        var m := OpenState(id, open, PairsOf(blocks));
        match ending
        case Ongoing => m
        case Concluded => m.(end := Some(Completed), phase := Terminal)
        case Aborted(kind, _, _) => m.(end := Some(Failed(kind)), phase := Terminal)
    }
  }

  function OpenState(id: string, open: Open, base: nat): Machine {
    if open.Nothing? then INITIAL.(phase := Idle, campaignId := Some(id), nextPairIndex := base)
    else
      var n := base + open.Confirmed();
      var m := INITIAL.(
        campaignId := Some(id), candidateId := Some(open.header.candidateId), candidateAxis := Some(open.header.axis),
        nextPairIndex := n, observations := open.Observations(),
        mode := if open.first.None? then None else Some(open.first.value.mode));
      if open.Waiting? then m.(phase := CandidatePhase)
      else if open.Running? then
        m.(phase := PairPhase, activePairIndex := Some(n), activeOrder := PairOrder(n),
           completedArms := PairOrder(n)[..if open.arms <= 2 then open.arms else 2])
      else
        m.(phase := ScoredPhase, activePairIndex := Some(n), activeOrder := PairOrder(n), completedArms := PairOrder(n),
           nextPairIndex := n + 1, observations := open.Observations() + [open.last])
  }

  /** The open candidate after an event that neither closes it nor ends the campaign. */
  function Advance(open: Open, e: Event): Open
    requires open.Nothing? ==> e.CandidateStarted?
  {
    match e
    case CandidateStarted(c, axis, digest) => Waiting(Header(c, axis, digest), None)
    case PairStarted(_, _, _) => Running(open.header, open.first, 0)
    case CellCompleted(_, _, _) => Running(open.header, open.first, if open.Running? then open.arms + 1 else 0)
    case PairScored(_, _, o) => Scored(open.header, open.first, o)
    case CandidateDecided(_, decision) =>
      if open.Scored? then
        Waiting(open.header, Some(First(open.last, if decision == Confirm then Standard else Simplified)))
      else open
    case _ => open
  }

  predicate Closes(e: Event) {
    e.CandidateDiscarded? || (e.CandidateDecided? && e.decision != Confirm && e.decision != ConfirmSimplification)
  }

  predicate Advances(e: Event) {
    || e.CandidateStarted? || e.PairStarted? || e.CellCompleted? || e.PairScored?
    || (e.CandidateDecided? && !Closes(e))
  }

  /** The history after one more event. */
  function Extend(h: History, e: Event): History
    requires h.Unstarted? ==> e.CampaignStarted?
    requires h.Campaign? && h.open.Nothing? && Advances(e) ==> e.CandidateStarted?
  {
    if e.CampaignStarted? then Campaign(e.campaignId, [], Nothing, Ongoing)
    else if Advances(e) then h.(open := Advance(h.open, e))
    else if Closes(e) then h.(blocks := h.blocks + [Block(h.open, e)], open := Nothing)
    else if e.CampaignTerminated? then h.(ending := Aborted(e.failureKind, e.cleanupVerified, e.restoredPreflight))
    else h.(ending := Concluded)
  }

  /** The events that may come next for the open candidate, read off its structure. */
  ghost predicate Fits(p: Policy, open: Open, base: nat, e: Event) {
    match e
    case CandidateStarted(c, axis, digest) => open.Nothing? && Header(c, axis, digest).Valid(p)
    case PairStarted(c, n, order) =>
      open.Waiting? && c == open.header.candidateId && n == base + open.Confirmed() && order == PairOrder(n)
    case CellCompleted(c, n, arm) =>
      && open.Running? && open.arms < 2 && c == open.header.candidateId && n == base + open.Confirmed()
      && arm == PairOrder(n)[open.arms]
    case PairScored(c, n, o) =>
      && open.Running? && open.arms == 2 && c == open.header.candidateId && n == base + open.Confirmed()
      && o.WellFormed() && o.pairIndex == n
    case CandidateDecided(c, decision) =>
      && open.Scored? && c == open.header.candidateId
      && (if Closes(e) then Block(open, e).Valid(p, base)
          else open.first.None? && Advance(open, e).Valid(p, base))
    case CandidateDiscarded(_, _, _, _) => !open.Nothing? && Block(open, e).Valid(p, base)
    case _ => false
  }

  lemma {:induction false} AcceptedFits(p: Policy, id: string, open: Open, base: nat, e: Event)
    requires open.Valid(p, base) && Apply(p, OpenState(id, open, base), e).Ok?
    requires Advances(e) || Closes(e)
    ensures Fits(p, open, base, e)
  {
    hide IsSafeId, IsSha256, PairReasons, ScreenPasses, SimplificationScreenPasses, PromotionPasses,
         SimplificationPromotionPasses, Observation.WellFormed;
    var m := OpenState(id, open, base);
    if e.PairScored? {
      assert |m.completedArms| == open.arms && |m.activeOrder| == 2;
    } else if e.CandidateDecided? {
      assert m.observations == open.Observations() + [open.last];
    }
  }

  lemma {:induction false} FittingValid(p: Policy, open: Open, base: nat, e: Event)
    requires open.Valid(p, base) && Fits(p, open, base, e) && Advances(e)
    ensures Advance(open, e).Valid(p, base) && !Advance(open, e).Nothing?
  {
    hide IsSafeId, IsSha256, PairReasons, ScreenPasses, SimplificationScreenPasses, PromotionPasses,
         SimplificationPromotionPasses, Observation.WellFormed;
  }

  /** The event between an open candidate and its advance, without the gates. */
  predicate Follows(open: Open, base: nat, e: Event, next: Open) {
    match e
    case CandidateStarted(c, axis, digest) => open.Nothing? && next == Waiting(Header(c, axis, digest), None)
    case PairStarted(c, n, order) =>
      && open.Waiting? && next == Running(open.header, open.first, 0)
      && c == open.header.candidateId && n == base + open.Confirmed() && order == PairOrder(n)
    case CellCompleted(c, n, arm) =>
      && open.Running? && open.arms < 2 && next == Running(open.header, open.first, open.arms + 1)
      && c == open.header.candidateId && n == base + open.Confirmed() && arm == PairOrder(n)[open.arms]
    case PairScored(c, n, o) =>
      && open.Running? && open.arms == 2 && next == Scored(open.header, open.first, o)
      && c == open.header.candidateId && n == base + open.Confirmed() && o.pairIndex == n
    case CandidateDecided(c, decision) =>
      && open.Scored? && open.first.None? && next.Waiting? && next.first.Some?
      && next.header == open.header && next.first.value.observation == open.last
      && c == open.header.candidateId && decision == next.first.value.Decision() && open.last.pairIndex == base
    case _ => false
  }

  lemma {:induction false} FittingFollows(p: Policy, open: Open, base: nat, e: Event)
    requires open.Valid(p, base) && Fits(p, open, base, e) && Advances(e)
    ensures Follows(open, base, e, Advance(open, e))
  {
    hide IsSafeId, IsSha256, PairReasons, ScreenPasses, SimplificationScreenPasses, PromotionPasses,
         SimplificationPromotionPasses, Observation.WellFormed;
  }

  lemma {:induction false} FollowingEvents(open: Open, base: nat, e: Event, next: Open)
    requires Follows(open, base, e, next)
    ensures next.Events(base) == open.Events(base) + [e]
  {
    if e.CellCompleted? || e.PairStarted? {
      FollowingStart(open, base, e, next);
    } else {
      hide PairStart, PairOrder;
    }
  }

  lemma {:induction false} FollowingStart(open: Open, base: nat, e: Event, next: Open)
    requires Follows(open, base, e, next) && (e.CellCompleted? || e.PairStarted?)
    ensures next.Events(base) == open.Events(base) + [e]
  {
    var c, n := open.header.candidateId, base + open.Confirmed();
    hide PairStart, PairEvents, Open.Events;
    var before := Waiting(open.header, open.first).Events(base);
    OpenCells(open.header, open.first, base, next.arms);
    StartGrows(c, n, next.arms);
    if open.Running? {
      OpenCells(open.header, open.first, base, open.arms);
      assert before + (PairStart(c, n, open.arms) + [e]) == (before + PairStart(c, n, open.arms)) + [e];
    }
  }

  lemma {:induction false} StartGrows(c: string, n: int, arms: nat)
    requires arms <= 2
    ensures PairStart(c, n, arms) == if arms == 0 then [PairStarted(c, n, PairOrder(n))]
                                     else PairStart(c, n, arms - 1) + [CellCompleted(c, n, PairOrder(n)[arms - 1])]
  {
  }

  lemma {:induction false} OpenCells(header: Header, first: Option<First>, base: nat, arms: nat)
    ensures Running(header, first, arms).Events(base)
            == Waiting(header, first).Events(base)
               + PairStart(header.candidateId, base + Running(header, first, arms).Confirmed(), arms)
  {
    hide PairStart, PairEvents;
  }

  lemma {:induction false} FittingState(p: Policy, id: string, open: Open, base: nat, e: Event)
    requires open.Valid(p, base) && Fits(p, open, base, e) && Advances(e)
    requires !e.CandidateDecided?
    ensures Apply(p, OpenState(id, open, base), e) == Ok(OpenState(id, Advance(open, e), base))
  {
    if e.CellCompleted? {
      FittingCellState(p, id, open, base, e);
    } else {
      hide IsSafeId, IsSha256, PairReasons, ScreenPasses, SimplificationScreenPasses, PromotionPasses,
           SimplificationPromotionPasses, Observation.WellFormed, First.Valid, Decide;
      if e.PairScored? {
        FittingScoreState(p, id, open, base, e);
      }
    }
  }

  lemma {:induction false} FittingScoreState(p: Policy, id: string, open: Open, base: nat, e: Event)
    requires open.Valid(p, base) && Fits(p, open, base, e) && e.PairScored?
    ensures Apply(p, OpenState(id, open, base), e) == Ok(OpenState(id, Advance(open, e), base))
  {
    hide IsSafeId, IsSha256, PairReasons, ScreenPasses, SimplificationScreenPasses, PromotionPasses,
         SimplificationPromotionPasses, Observation.WellFormed, First.Valid, Decide;
    assert OpenState(id, open, base).completedArms == OpenState(id, open, base).activeOrder;
  }

  lemma {:induction false} FittingCellState(p: Policy, id: string, open: Open, base: nat, e: Event)
    requires open.Valid(p, base) && Fits(p, open, base, e) && e.CellCompleted?
    ensures Apply(p, OpenState(id, open, base), e) == Ok(OpenState(id, Advance(open, e), base))
  {
    hide IsSafeId, IsSha256, PairReasons, ScreenPasses, SimplificationScreenPasses, PromotionPasses,
         SimplificationPromotionPasses, Observation.WellFormed, First.Valid, Decide;
    var order := PairOrder(base + open.Confirmed());
    assert order[..open.arms] + [order[open.arms]] == order[..open.arms + 1];
  }

  lemma {:induction false} FittingConfirmState(p: Policy, id: string, open: Open, base: nat, e: Event)
    requires open.Valid(p, base) && Fits(p, open, base, e) && Advances(e)
    requires e.CandidateDecided?
    ensures Apply(p, OpenState(id, open, base), e) == Ok(OpenState(id, Advance(open, e), base))
  {
    hide IsSafeId, IsSha256, PairReasons, ScreenPasses, SimplificationScreenPasses, PromotionPasses,
         SimplificationPromotionPasses, Observation.WellFormed, PairOrder, Open.Events, PairStart, PairEvents;
    assert OpenState(id, open, base).observations == [open.last];
    assert Advance(open, e).Observations() == [open.last];
  }

  lemma {:induction false} FittingClose(p: Policy, id: string, open: Open, base: nat, e: Event)
    requires open.Valid(p, base) && Fits(p, open, base, e) && Closes(e)
    ensures Block(open, e).Valid(p, base)
    ensures Apply(p, OpenState(id, open, base), e) == Ok(OpenState(id, Nothing, base + open.Pairs()))
  {
    hide IsSafeId, IsSha256, PairReasons, ScreenPasses, SimplificationScreenPasses, PromotionPasses,
         SimplificationPromotionPasses, Observation.WellFormed;
    if e.CandidateDecided? {
      assert OpenState(id, open, base).observations == open.Observations() + [open.last];
    }
  }

  lemma {:induction false} ClosedBlocks(p: Policy, blocks: seq<Block>, b: Block)
    ensures BlockEvents(blocks + [b]) == BlockEvents(blocks) + b.Events(PairsOf(blocks))
    ensures PairsOf(blocks + [b]) == PairsOf(blocks) + b.open.Pairs()
    ensures BlocksValid(p, blocks + [b]) <==> BlocksValid(p, blocks) && b.Valid(p, PairsOf(blocks))
  {
    assert (blocks + [b])[..|blocks|] == blocks;
  }

  lemma {:induction false} NothingIsOpen(p: Policy, base: nat)
    ensures Nothing.Valid(p, base) && Nothing.Events(base) == []
  {
  }

  lemma {:induction false} AdvanceHistory(p: Policy, h: History, e: Event)
    requires h.Valid(p) && h.Campaign? && h.ending == Ongoing
    requires Advances(e) && Fits(p, h.open, PairsOf(h.blocks), e)
    ensures var g := Extend(h, e);
            g.Valid(p) && g.Events(p) == h.Events(p) + [e] && Apply(p, h.State(), e) == Ok(g.State())
  {
    hide Apply, OpenState, Open.Valid, Open.Events, Block.Valid;
    var base := PairsOf(h.blocks);
    FittingValid(p, h.open, base, e);
    FittingFollows(p, h.open, base, e);
    FollowingEvents(h.open, base, e, Advance(h.open, e));
    if e.CandidateDecided? {
      FittingConfirmState(p, h.id, h.open, base, e);
    } else {
      FittingState(p, h.id, h.open, base, e);
    }
  }

  lemma {:induction false} CloseHistory(p: Policy, h: History, e: Event)
    requires h.Valid(p) && h.Campaign? && h.ending == Ongoing
    requires Closes(e) && Fits(p, h.open, PairsOf(h.blocks), e)
    ensures var g := Extend(h, e);
            g.Valid(p) && g.Events(p) == h.Events(p) + [e] && Apply(p, h.State(), e) == Ok(g.State())
  {
    hide Apply, OpenState, Block.Valid, Fits, BlocksValid, PairsOf, BlockEvents, Open.Events, Open.Valid, IsSafeId, IsSha256;
    NothingIsOpen(p, PairsOf(h.blocks) + h.open.Pairs());
    var base := PairsOf(h.blocks);
    FittingClose(p, h.id, h.open, base, e);
    ClosedBlocks(p, h.blocks, Block(h.open, e));
    var start, before, open := [CampaignStarted(h.id, p.digest)], BlockEvents(h.blocks), h.open.Events(base);
    assert start + (before + (open + [e])) == start + before + open + [e];
  }

  /** One accepted event extends a valid history by exactly that event and moves its state as the machine does. */
  lemma {:induction false} ExtendHistory(p: Policy, h: History, e: Event)
    requires h.Valid(p) && Apply(p, h.State(), e).Ok?
    ensures h.Unstarted? ==> e.CampaignStarted?
    ensures h.Campaign? && h.open.Nothing? && Advances(e) ==> e.CandidateStarted?
    ensures var g := Extend(h, e);
            g.Valid(p) && g.Events(p) == h.Events(p) + [e] && Apply(p, h.State(), e) == Ok(g.State())
  {
    hide IsSafeId, IsSha256, Block.Valid, Decide, PairOrder;
    if h.Campaign? && (Advances(e) || Closes(e)) {
      assert h.ending == Ongoing;
      AcceptedFits(p, h.id, h.open, PairsOf(h.blocks), e);
      if Advances(e) {
        AdvanceHistory(p, h, e);
      } else {
        CloseHistory(p, h, e);
      }
    }
  }

  lemma {:induction false} RunSnoc(p: Policy, m: Machine, events: seq<Event>, e: Event)
    ensures var mid := Run(p, m, events);
            Run(p, m, events + [e]) == if mid.Err? then mid else Apply(p, mid.value, e)
    decreases |events|
  {
    if events == [] {
      assert (events + [e])[1..] == [];
    } else {
      assert (events + [e])[1..] == events[1..] + [e];
      if Apply(p, m, events[0]).Ok? {
        RunSnoc(p, Apply(p, m, events[0]).value, events[1..], e);
      }
    }
  }

  /** Every accepted event sequence is the rendering of a valid history, and its state is that history's. */
  lemma {:induction false} AcceptedIsHistory(p: Policy, events: seq<Event>) returns (h: History)
    requires Run(p, INITIAL, events).Ok?
    ensures h.Valid(p) && h.Events(p) == events && Run(p, INITIAL, events) == Ok(h.State())
    decreases |events|
  {
    if events == [] {
      h := Unstarted;
    } else {
      var n := |events| - 1;
      assert events == events[..n] + [events[n]];
      RunSnoc(p, INITIAL, events[..n], events[n]);
      var before := AcceptedIsHistory(p, events[..n]);
      ExtendHistory(p, before, events[n]);
      h := Extend(before, events[n]);
    }
  }

  // ---------------------------------------------------------------------------
  // Every valid history is accepted
  // ---------------------------------------------------------------------------

  function Rank(open: Open): nat {
    match open
    case Nothing => 0
    case Waiting(_, first) => if first.None? then 1 else 6
    case Running(_, first, arms) => (if first.None? then 2 else 7) + if arms <= 2 then arms else 2
    case Scored(_, first, _) => if first.None? then 5 else 10
  }

  /** The open candidate one event earlier, and that event. */
  function Before(open: Open, base: nat): (Open, Event)
    requires !open.Nothing?
  {
    var c, n := open.header.candidateId, base + open.Confirmed();
    match open
    case Waiting(h, None) => (Nothing, CandidateStarted(c, h.axis, h.deltaDigest))
    case Waiting(h, Some(f)) => (Scored(h, None, f.observation), CandidateDecided(c, f.Decision()))
    case Running(h, first, arms) =>
      if arms == 0 then (Waiting(h, first), PairStarted(c, n, PairOrder(n)))
      else (Running(h, first, arms - 1), CellCompleted(c, n, PairOrder(n)[if arms == 1 then 0 else 1]))
    case Scored(h, first, last) => (Running(h, first, 2), PairScored(c, n, last))
  }

  lemma {:induction false} BeforeFits(p: Policy, open: Open, base: nat)
    requires !open.Nothing? && open.Valid(p, base)
    ensures var (earlier, e) := Before(open, base);
            && earlier.Valid(p, base) && Advances(e) && Fits(p, earlier, base, e)
            && (earlier.Nothing? ==> e.CandidateStarted?)
            && Advance(earlier, e) == open && Rank(earlier) < Rank(open)
  {
    hide IsSafeId, IsSha256, PairReasons, ScreenPasses, SimplificationScreenPasses, PromotionPasses,
         SimplificationPromotionPasses, Observation.WellFormed;
  }

  lemma {:induction false} ClosingFits(p: Policy, b: Block, base: nat)
    requires b.Valid(p, base)
    ensures Closes(b.closing) && Fits(p, b.open, base, b.closing) && b.open.Valid(p, base)
  {
    hide IsSafeId, IsSha256, PairReasons, ScreenPasses, SimplificationScreenPasses, PromotionPasses,
         SimplificationPromotionPasses, Observation.WellFormed, Open.Valid;
  }

  lemma {:induction false} OpenBefore(p: Policy, h: History) returns (g: History, e: Event)
    requires h.Valid(p) && h.Campaign? && h.ending == Ongoing && !h.open.Nothing?
    ensures g.Valid(p) && g.Campaign? && g.blocks == h.blocks && g.ending == Ongoing && Rank(g.open) < Rank(h.open)
    ensures h.Events(p) == g.Events(p) + [e] && Apply(p, g.State(), e) == Ok(h.State())
  {
    hide Apply, OpenState, Open.Events, Open.Valid, BlocksValid, IsSafeId, IsSha256, Fits, Before, Rank;
    BeforeFits(p, h.open, PairsOf(h.blocks));
    var (earlier, event) := Before(h.open, PairsOf(h.blocks));
    g, e := h.(open := earlier), event;
    AdvanceHistory(p, g, e);
    assert Extend(g, e) == h;
  }

  lemma {:induction false} BlockBefore(p: Policy, h: History) returns (g: History, e: Event)
    requires h.Valid(p) && h.Campaign? && h.ending == Ongoing && h.open.Nothing? && h.blocks != []
    ensures g.Valid(p) && g.Campaign? && |g.blocks| < |h.blocks|
    ensures h.Events(p) == g.Events(p) + [e] && Apply(p, g.State(), e) == Ok(h.State())
  {
    hide Apply, OpenState, Open.Events, Open.Valid, IsSafeId, IsSha256, Fits, Block.Valid;
    var n := |h.blocks| - 1;
    var b := h.blocks[n];
    assert h.blocks == h.blocks[..n] + [b];
    g, e := h.(blocks := h.blocks[..n], open := b.open), b.closing;
    ClosingFits(p, b, PairsOf(h.blocks[..n]));
    CloseHistory(p, g, e);
    assert b == Block(b.open, b.closing);
    assert Extend(g, e) == h;
  }

  /** Replay runs the events of every valid history to that history's state. */
  lemma {:induction false} HistoryIsAccepted(p: Policy, h: History)
    requires h.Valid(p)
    ensures Run(p, INITIAL, h.Events(p)) == Ok(h.State())
    decreases if h.Unstarted? then 0 else 1 + |h.blocks|,
              if h.Unstarted? then 0 else Rank(h.open), h.Campaign? && h.ending != Ongoing
  {
    hide Apply, OpenState, Open.Events, Open.Valid, BlocksValid, IsSafeId, IsSha256, Rank, BlockEvents, PairsOf, Run;
    if h.Unstarted? {
      RunNothing(p, INITIAL);
    } else {
      var g: History, e: Event;
      if h.ending != Ongoing {
        g, e := h.(ending := Ongoing), h.ending.Events()[0];
        EndingFollows(p, g, h.ending);
      } else if !h.open.Nothing? {
        g, e := OpenBefore(p, h);
      } else if h.blocks != [] {
        g, e := BlockBefore(p, h);
      } else {
        g, e := Unstarted, CampaignStarted(h.id, p.digest);
        StartFollows(p, h);
      }
      HistoryIsAccepted(p, g);
      RunSnoc(p, INITIAL, g.Events(p), e);
    }
  }

  lemma {:induction false} RunNothing(p: Policy, m: Machine)
    ensures Run(p, m, []) == Ok(m)
  {
  }

  lemma {:induction false} StartFollows(p: Policy, h: History)
    requires h.Valid(p) && h.Campaign? && h.blocks == [] && h.open.Nothing? && h.ending == Ongoing
    ensures h.Events(p) == Unstarted.Events(p) + [CampaignStarted(h.id, p.digest)]
    ensures Apply(p, Unstarted.State(), CampaignStarted(h.id, p.digest)) == Ok(h.State())
  {
  }

  lemma {:induction false} EndingFollows(p: Policy, g: History, ending: Ending)
    requires g.Campaign? && g.ending == Ongoing && ending != Ongoing && g.(ending := ending).Valid(p)
    ensures g.Valid(p) && g.(ending := ending).Events(p) == g.Events(p) + ending.Events()
    ensures Apply(p, g.State(), ending.Events()[0]) == Ok(g.(ending := ending).State())
  {
    hide IsSafeId, IsSha256, Open.Valid, BlocksValid, PairOrder, Open.Events;
  }

  /** Replay accepts exactly the event sequences of the grammar. */
  lemma {:induction false} AcceptedExactly(p: Policy, events: seq<Event>)
    ensures Run(p, INITIAL, events).Ok? <==> exists h: History :: h.Valid(p) && h.Events(p) == events
  {
    if Run(p, INITIAL, events).Ok? {
      var h := AcceptedIsHistory(p, events);
    }
    forall h: History | h.Valid(p) && h.Events(p) == events
      ensures Run(p, INITIAL, events).Ok?
    {
      HistoryIsAccepted(p, h);
    }
  }

  // ---------------------------------------------------------------------------
  // What the grammar says about accepted journals
  // ---------------------------------------------------------------------------

  /** The promoting decision of each mode, and the two gates that its pairs passed. */
  function Promoting(mode: Mode): Decision {
    if mode == Standard then Promote else PromoteSimplification
  }

  predicate GatesPass(p: Policy, mode: Mode, first: Observation, last: Observation) {
    if mode == Standard then ScreenPasses(p, first) && PromotionPasses(p, first, last)
    else SimplificationScreenPasses(p, first) && SimplificationPromotionPasses(p, first, last)
  }

  /**
   A promotion of either kind closes exactly this block: candidate start, pair n in order with its score, the
   confirmation of the same kind, pair n + 1 in the reversed order with its score, all of one candidate; and the
   pairs pass the screen and the promotion gate of that kind.
   */
  lemma {:induction false} PromotionFollowsReversedPairs(p: Policy, events: seq<Event>, i: nat, c: string, mode: Mode)
    returns (h: Header, n: nat, first: Observation, last: Observation)
    requires Run(p, INITIAL, events).Ok? && i < |events| && events[i] == CandidateDecided(c, Promoting(mode))
    ensures h.candidateId == c && i >= 10
    ensures events[i - 10..i] == [CandidateStarted(c, h.axis, h.deltaDigest)] + PairEvents(c, n, first)
                                 + [CandidateDecided(c, First(first, mode).Decision())] + PairEvents(c, n + 1, last)
    ensures PairOrder(n + 1) == [PairOrder(n)[1], PairOrder(n)[0]]
    ensures GatesPass(p, mode, first, last)
  {
    assert Closes(events[i]) && events[i].CandidateDecided?;
    hide Run, Apply, Open.Events, Open.Valid, BlocksValid, GatesPass, First.Decision, Promoting, PairEvents, Closes, PairOrder,
         BlockEvents, Fits, PairsOf;
    AcceptedBefore(p, events, i);
    var g, earlier := ClosingState(p, events[..i], events[i]);
    h, n, first, last := PromotedBlock(p, g.open, PairsOf(g.blocks), events[i], mode);
    ConsecutivePairsReverse(n);
    var block := g.open.Events(PairsOf(g.blocks));
    PairLength(c, n, first);
    PairLength(c, n + 1, last);
    assert |block| == 10 && events[..i] == earlier + block;
    assert events[i - 10..i] == block;
  }

  lemma {:induction false} PairLength(c: string, n: nat, o: Observation)
    ensures |PairEvents(c, n, o)| == 4
  {
  }

  lemma {:induction false} AcceptedBefore(p: Policy, events: seq<Event>, i: nat)
    requires Run(p, INITIAL, events).Ok? && i < |events|
    ensures Run(p, INITIAL, events[..i]).Ok? && Apply(p, Run(p, INITIAL, events[..i]).value, events[i]).Ok?
  {
    hide Apply;
    var before := events[..i];
    assert events == (before + [events[i]]) + events[i + 1..];
    RunConcat(p, INITIAL, before + [events[i]], events[i + 1..]);
    RunSnoc(p, INITIAL, before, events[i]);
  }

  /** The history that a closing decision ends, and the events before its open candidate. */
  lemma {:induction false} ClosingState(p: Policy, before: seq<Event>, e: Event) returns (g: History, earlier: seq<Event>)
    requires Run(p, INITIAL, before).Ok? && Apply(p, Run(p, INITIAL, before).value, e).Ok? && e.CandidateDecided? && Closes(e)
    ensures g.Campaign? && g.open.Valid(p, PairsOf(g.blocks)) && Fits(p, g.open, PairsOf(g.blocks), e)
    ensures before == earlier + g.open.Events(PairsOf(g.blocks))
  {
    hide Run, Apply, OpenState, Open.Events, Open.Valid, BlocksValid, Closes, BlockEvents, Fits;
    g := AcceptedIsHistory(p, before);
    DecisionState(p, g, e);
    earlier := [CampaignStarted(g.id, p.digest)] + BlockEvents(g.blocks);
    assert before == earlier + g.open.Events(PairsOf(g.blocks)) + [];
  }

  lemma {:induction false} DecisionState(p: Policy, g: History, e: Event)
    requires g.Valid(p) && Apply(p, g.State(), e).Ok? && e.CandidateDecided? && Closes(e)
    ensures g.Campaign? && g.ending == Ongoing
    ensures g.open.Valid(p, PairsOf(g.blocks)) && Fits(p, g.open, PairsOf(g.blocks), e)
  {
    AcceptedFits(p, g.id, g.open, PairsOf(g.blocks), e);
  }

  lemma {:induction false} PromotedBlock(p: Policy, open: Open, base: nat, e: Event, mode: Mode)
    returns (h: Header, n: nat, first: Observation, last: Observation)
    requires open.Valid(p, base) && Fits(p, open, base, e) && e.CandidateDecided? && e.decision == Promoting(mode)
    ensures h.candidateId == e.candidateId
    ensures open.Events(base) == [CandidateStarted(e.candidateId, h.axis, h.deltaDigest)] + PairEvents(e.candidateId, n, first)
                                 + [CandidateDecided(e.candidateId, First(first, mode).Decision())] + PairEvents(e.candidateId, n + 1, last)
    ensures GatesPass(p, mode, first, last)
  {
    hide IsSafeId, IsSha256, PairReasons, ScreenPasses, SimplificationScreenPasses, PromotionPasses,
         SimplificationPromotionPasses, Observation.WellFormed, PairEvents;
    assert Block(open, e).Valid(p, base);
    h, n, first, last := open.header, base, open.first.value.observation, open.last;
    var c := e.candidateId;
    var confirmed := [CandidateDecided(c, First(first, mode).Decision())];
    assert [CandidateStarted(c, h.axis, h.deltaDigest)] + (PairEvents(c, n, first) + confirmed)
           == [CandidateStarted(c, h.axis, h.deltaDigest)] + PairEvents(c, n, first) + confirmed;
  }

  lemma {:induction false} RunConcat(p: Policy, m: Machine, a: seq<Event>, b: seq<Event>)
    ensures var mid := Run(p, m, a);
            Run(p, m, a + b) == if mid.Err? then mid else Run(p, mid.value, b)
    decreases |a|
  {
    if a == [] {
      assert a + b == b;
    } else {
      assert (a + b)[1..] == a[1..] + b;
      if Apply(p, m, a[0]).Ok? {
        RunConcat(p, Apply(p, m, a[0]).value, a[1..], b);
      }
    }
  }

  /**
   Three guards of the protocol can never fire: no accepted journal leads to a third observation, and the two
   observations of a confirmation always have consecutive indices and opposite orders.
   */
  lemma {:induction false} ConfirmationGuardsAreUnreachable(p: Policy, events: seq<Event>, e: Event)
    requires Run(p, INITIAL, events).Ok?
    ensures var m := Run(p, INITIAL, events).value;
            && Apply(p, m, e) != Err(TooManyObservations)
            && (m.phase == ScoredPhase ==>
                  && 1 <= |m.observations| <= 2
                  && (|m.observations| == 2 ==>
                        ConfirmationPairIndexNotConsecutive !in ConfirmationReasons(p, m.observations[0], m.observations[1])
                        && ConfirmationOrderNotReversed !in ConfirmationReasons(p, m.observations[0], m.observations[1])))
  {
    var h := AcceptedIsHistory(p, events);
    hide *;
    ObservationsOfHistory(p, h);
    ThirdObservationNeedsTwo(p, h.State(), e);
  }

  lemma {:induction false} ThirdObservationNeedsTwo(p: Policy, m: Machine, e: Event)
    requires m.phase == PairPhase ==> |m.observations| <= 1
    ensures Apply(p, m, e) != Err(TooManyObservations)
  {
    hide IsSafeId, IsSha256, PairReasons, Observation.WellFormed, PairOrder, ScreenPasses, SimplificationScreenPasses,
         PromotionPasses, SimplificationPromotionPasses;
  }

  lemma {:induction false} ObservationsOfHistory(p: Policy, h: History)
    requires h.Valid(p)
    ensures var m := h.State();
            && (m.phase == PairPhase ==> |m.observations| <= 1)
            && (m.phase == ScoredPhase ==>
                  && 1 <= |m.observations| <= 2
                  && (|m.observations| == 2 ==>
                        ConfirmationPairIndexNotConsecutive !in ConfirmationReasons(p, m.observations[0], m.observations[1])
                        && ConfirmationOrderNotReversed !in ConfirmationReasons(p, m.observations[0], m.observations[1])))
  {
    hide IsSafeId, IsSha256, PairReasons, Observation.WellFormed, ConfirmationReasons, ScreenPasses,
         SimplificationScreenPasses, BlocksValid, PairOrder;
    if h.Campaign? && h.open.Scored? && h.open.first.Some? {
      ConsecutivePairsPassGuards(p, h.open.first.value.observation, h.open.last);
    }
  }

  function Scores(events: seq<Event>): nat {
    if events == [] then 0 else (if events[0].PairScored? then 1 else 0) + Scores(events[1..])
  }

  /** The next global pair index counts the accepted scores. */
  lemma {:induction false} PairIndexCountsScores(p: Policy, m: Machine, events: seq<Event>)
    requires Run(p, m, events).Ok?
    ensures Run(p, m, events).value.nextPairIndex == m.nextPairIndex + Scores(events)
    decreases |events|
  {
    if events != [] {
      PairIndexCountsScores(p, Apply(p, m, events[0]).value, events[1..]);
    }
  }

  /** The grammar at the level of journals: replay accepts exactly the consistent journals of valid histories. */
  lemma {:induction false} AcceptedJournals(p: Policy, records: seq<Record>)
    ensures ReplayRecords(p, records).Ok?
            <==> Consistent(map[], records) && exists h: History :: h.Valid(p) && h.Events(p) == Unseen(map[], records)
  {
    ReplayRunsUnseenEvents(p, START, records);
    AcceptedExactly(p, Unseen(map[], records));
  }
}
