/**
 Building one role-normalised observation from two projected cells
 (observation_from_cells of bench/autoresearch_campaign.py), and how its gates behave when the
 execution order or the two roles are exchanged.
 */
module Scoring {
  import opened Common
  import opened Gates

  type Positive = r: real | r > 0.0 witness 1.0
  type NonNegative = r: real | r >= 0.0

  datatype Direction = Lower | Higher | UnknownDirection

  datatype CaseMeasurement = CaseMeasurement(caseId: string, speed: Positive, direction: Direction, ttftS: Positive)

  datatype Projection = Projection(
    measurements: seq<CaseMeasurement>,
    measurementS: NonNegative,
    cleanupS: NonNegative,
    memAvailableGib: real,
    flags: seq<string>)
  {
    /** The unique measurement of a case. */
    function Find(caseId: string): Option<CaseMeasurement> {
      var matches := Matches(measurements, caseId);
      if |matches| == 1 then Some(matches[0]) else None
    }
  }

  function Matches(ms: seq<CaseMeasurement>, caseId: string): seq<CaseMeasurement> {
    if ms == [] then []
    else (if ms[0].caseId == caseId then [ms[0]] else []) + Matches(ms[1..], caseId)
  }

  /** Candidate over champion, so that above one always means the candidate is faster. */
  function SpeedRatio(champion: CaseMeasurement, candidate: CaseMeasurement): Positive
    requires champion.direction == candidate.direction != UnknownDirection
  {
    if champion.direction == Lower then Quotient(champion.speed, candidate.speed)
    else Quotient(candidate.speed, champion.speed)
  }

  function Quotient(a: Positive, b: Positive): (q: Positive)
    ensures q * b == a
  {
    QuotientPositive(a, b);
    a / b
  }

  lemma {:induction false} QuotientPositive(a: real, b: real)
    requires a > 0.0 && b > 0.0
    ensures a / b > 0.0
  {
    var q := a / b;
    assert q * b == a;
    assert q <= 0.0 ==> q * b <= 0.0;
  }

  datatype Ratios = Ratios(speed: seq<Positive>, ttft: seq<Positive>)

  /** The per-case speed and first-token ratios, or None when a case is missing or its direction is unusable. */
  function CaseRatios(caseIds: seq<string>, champion: Projection, candidate: Projection): (r: Option<Ratios>)
    ensures r.Some? ==> |r.value.speed| == |r.value.ttft| == |caseIds|
  {
    if caseIds == [] then Some(Ratios([], []))
    else
      var a, b := champion.Find(caseIds[0]), candidate.Find(caseIds[0]);
      if a.None? || b.None? || a.value.direction != b.value.direction || a.value.direction == UnknownDirection then None
      else
        var rest := CaseRatios(caseIds[1..], champion, candidate);
        if rest.None? then None
        else Some(Ratios([SpeedRatio(a.value, b.value)] + rest.value.speed,
                         [Quotient(b.value.ttftS, a.value.ttftS)] + rest.value.ttft))
  }

  function Insert(x: Positive, sorted: seq<Positive>): (r: seq<Positive>)
    ensures |r| == |sorted| + 1
  {
    if sorted == [] || x <= sorted[0] then [x] + sorted else [sorted[0]] + Insert(x, sorted[1..])
  }

  function Sort(s: seq<Positive>): (r: seq<Positive>)
    ensures |r| == |s|
  {
    if s == [] then [] else Insert(s[0], Sort(s[1..]))
  }

  function Median(s: seq<Positive>): Positive
    requires s != []
  {
    var sorted := Sort(s);
    var half := |s| / 2;
    if |s| % 2 == 1 then sorted[half] else (sorted[half - 1] + sorted[half]) / 2.0
  }

  function Max(a: real, b: real): real {
    if a >= b then a else b
  }

  /** Eligibility of a pair of projected cells: projection already rejected every hazard. */
  const ELIGIBLE := Eligibility(set g | g in POSITIVE_GATES)

  function ObservationFromCells(p: Policy, pairIndex: int, champion: Projection, candidate: Projection, reserveS: NonNegative)
    : Option<Observation>
    requires p.primaryCaseIds != []
  {
    var ratios := CaseRatios(p.primaryCaseIds, champion, candidate);
    if ratios.None? then None
    else
      var (first, second) := if PairOrder(pairIndex)[0] == Champion
                             then (champion.measurementS, candidate.measurementS)
                             else (candidate.measurementS, champion.measurementS);
      Some(Observation(
        pairIndex, p.primaryCaseIds, ratios.value.speed, Median(ratios.value.ttft),
        Timing(first, second, champion.measurementS + candidate.measurementS,
               Max(champion.cleanupS, candidate.cleanupS), reserveS),
        ELIGIBLE,
        Simplification(candidate.memAvailableGib - champion.memAvailableGib, champion.flags, candidate.flags)))
  }

  /** What the policy and projection constructors guarantee about their identifiers and flags. */
  predicate ValidPolicy(p: Policy) {
    p.primaryCaseIds != [] && Distinct(p.primaryCaseIds) && forall c :: c in p.primaryCaseIds ==> IsSafeId(c)
  }

  predicate ValidProjection(c: Projection) {
    Distinct(c.flags)
  }

  type SoundProjection = c: Projection | ValidProjection(c) witness Projection([], 0.0, 0.0, 0.0, [])

  lemma {:induction false} SelectedNothing(e: Eligibility, gates: seq<Gate>, flag: bool)
    requires forall g :: g in gates ==> (g in e.raised) != flag
    ensures e.Select(gates, flag) == []
  {
    if gates != [] {
      SelectedNothing(e, gates[1..], flag);
    }
  }

  /** An observation of two projected cells is well formed and can only fail on its cases or its timing. */
  lemma {:induction false} ObservationWellFormed(p: Policy, pairIndex: nat, champion: Projection, candidate: Projection, reserveS: NonNegative)
    requires ValidPolicy(p) && ValidProjection(champion) && ValidProjection(candidate)
    requires ObservationFromCells(p, pairIndex, champion, candidate, reserveS).Some?
    ensures var o := ObservationFromCells(p, pairIndex, champion, candidate, reserveS).value;
            && o.WellFormed()
            && o.eligibility.FailedGates() == []
            && (PairReasons(p, o) == [] <==> o.timing.FailedBudgets() == [])
  {
    ObservationIsWellFormed(p, pairIndex, champion, candidate, reserveS);
    EligibleCellsPass();
    hide Eligibility.FailedGates, Timing.FailedBudgets, Observation.WellFormed, CaseRatios, Median;
    var o := ObservationFromCells(p, pairIndex, champion, candidate, reserveS).value;
    assert o.caseIds == p.primaryCaseIds && o.eligibility == ELIGIBLE;
  }

  lemma {:induction false} EligibleCellsPass()
    ensures ELIGIBLE.FailedGates() == []
  {
    SelectedNothing(ELIGIBLE, POSITIVE_GATES, false);
    SelectedNothing(ELIGIBLE, HAZARD_GATES, true);
  }

  lemma {:induction false} ObservationIsWellFormed(p: Policy, pairIndex: nat, champion: Projection, candidate: Projection, reserveS: NonNegative)
    requires ValidPolicy(p) && ValidProjection(champion) && ValidProjection(candidate)
    requires ObservationFromCells(p, pairIndex, champion, candidate, reserveS).Some?
    ensures ObservationFromCells(p, pairIndex, champion, candidate, reserveS).value.WellFormed()
  {
    hide CaseRatios, Median, IsSafeId;
  }

  // ---------------------------------------------------------------------------
  // What an observation says
  // ---------------------------------------------------------------------------

  /** A projection finds a case exactly if it is measured once. */
  lemma {:induction false} FindMeans(p: Projection, c: string, m: CaseMeasurement)
    ensures p.Find(c) == Some(m) <==> exists i :: MeasuredOnce(p.measurements, c, m, i)
  {
    MatchesMean(p.measurements, c);
    var ms := p.measurements;
    if p.Find(c) == Some(m) {
      var i := OnlyMatch(ms, c, m);
    }
    if i :| MeasuredOnce(ms, c, m, i) {
      OneMeasurementMatches(ms, c, m, i);
    }
  }

  ghost predicate MeasuredOnce(ms: seq<CaseMeasurement>, c: string, m: CaseMeasurement, i: int) {
    0 <= i < |ms| && ms[i] == m && m.caseId == c && forall j :: 0 <= j < |ms| && j != i ==> ms[j].caseId != c
  }

  lemma {:induction false} MatchesMean(ms: seq<CaseMeasurement>, c: string)
    ensures forall m :: m in Matches(ms, c) <==> m in ms && m.caseId == c
    ensures Matches(ms, c) == [] <==> forall j :: 0 <= j < |ms| ==> ms[j].caseId != c
  {
    if ms != [] {
      MatchesMean(ms[1..], c);
      forall j | 0 < j < |ms|
        ensures ms[j] == ms[1..][j - 1]
      {
      }
    }
  }

  lemma {:induction false} OnlyMatch(ms: seq<CaseMeasurement>, c: string, m: CaseMeasurement) returns (i: nat)
    requires Matches(ms, c) == [m]
    ensures MeasuredOnce(ms, c, m, i)
  {
    MatchesMean(ms[1..], c);
    if ms[0].caseId == c {
      i := 0;
      assert Matches(ms, c)[0] == ms[0];
      assert |Matches(ms, c)| == 1 + |Matches(ms[1..], c)|;
      assert forall j :: 0 < j < |ms| ==> ms[j] == ms[1..][j - 1];
    } else {
      var k := OnlyMatch(ms[1..], c, m);
      i := k + 1;
      assert forall j :: 0 < j < |ms| ==> ms[j] == ms[1..][j - 1];
    }
  }

  lemma {:induction false} OneMeasurementMatches(ms: seq<CaseMeasurement>, c: string, m: CaseMeasurement, i: nat)
    requires MeasuredOnce(ms, c, m, i)
    ensures Matches(ms, c) == [m]
  {
    assert forall j :: 0 < j < |ms| ==> ms[j] == ms[1..][j - 1];
    if i == 0 {
      MatchesMean(ms[1..], c);
    } else {
      OneMeasurementMatches(ms[1..], c, m, i - 1);
    }
  }

  /** A case of both cells can be compared. */
  predicate Comparable(c: string, champion: Projection, candidate: Projection) {
    && champion.Find(c).Some? && candidate.Find(c).Some?
    && champion.Find(c).value.direction == candidate.Find(c).value.direction != UnknownDirection
  }

  /** What the two ratios of one case say: above one means that the candidate is faster, or later with its first token. */
  predicate Compares(speed: real, ttft: real, a: CaseMeasurement, b: CaseMeasurement) {
    && (a.direction == Lower ==> speed * b.speed == a.speed && (speed > 1.0 <==> b.speed < a.speed))
    && (a.direction == Higher ==> speed * a.speed == b.speed && (speed > 1.0 <==> b.speed > a.speed))
    && ttft * a.ttftS == b.ttftS && (ttft > 1.0 <==> b.ttftS > a.ttftS)
  }

  lemma {:induction false} QuotientAboveOne(q: real, x: real, y: real)
    requires x > 0.0 && q * x == y
    ensures q > 1.0 <==> y > x
  {
    if q > 1.0 {
      Scale(x, 1.0, q);
    } else {
      Scale(x, q, 1.0);
    }
  }

  lemma {:induction false} RatioCompares(a: CaseMeasurement, b: CaseMeasurement)
    requires a.direction == b.direction != UnknownDirection
    ensures Compares(SpeedRatio(a, b), Quotient(b.ttftS, a.ttftS), a, b)
  {
    QuotientAboveOne(Quotient(a.speed, b.speed), b.speed, a.speed);
    QuotientAboveOne(Quotient(b.speed, a.speed), a.speed, b.speed);
    QuotientAboveOne(Quotient(b.ttftS, a.ttftS), a.ttftS, b.ttftS);
  }

  /** There are ratios exactly if every case can be compared, and each compares its own case. */
  lemma {:induction false} RatiosMean(caseIds: seq<string>, champion: Projection, candidate: Projection)
    ensures CaseRatios(caseIds, champion, candidate).Some? <==> forall k :: 0 <= k < |caseIds| ==> Comparable(caseIds[k], champion, candidate)
    ensures var r := CaseRatios(caseIds, champion, candidate);
            r.Some? ==> forall k :: 0 <= k < |caseIds| ==>
                          Compares(r.value.speed[k], r.value.ttft[k], champion.Find(caseIds[k]).value, candidate.Find(caseIds[k]).value)
  {
    hide Projection.Find, Compares, SpeedRatio;
    if caseIds != [] {
      RatiosMean(caseIds[1..], champion, candidate);
      assert forall k :: 0 < k < |caseIds| ==> caseIds[k] == caseIds[1..][k - 1];
      if Comparable(caseIds[0], champion, candidate) {
        RatioCompares(champion.Find(caseIds[0]).value, candidate.Find(caseIds[0]).value);
      }
    }
  }

  ghost predicate Sorted(s: seq<real>) {
    forall i, j :: 0 <= i < j < |s| ==> s[i] <= s[j]
  }

  /** A median: the middle of the values in order, or the mean of the two in the middle. */
  ghost predicate IsMedian(s: seq<Positive>, m: real) {
    exists t: seq<Positive> :: multiset(t) == multiset(s) && Sorted(t) && MiddleOf(t, m)
  }

  predicate MiddleOf(t: seq<Positive>, m: real) {
    t != [] && m + m == t[(|t| - 1) / 2] + t[|t| / 2]
  }

  lemma {:induction false} InsertedFrom(x: Positive, s: seq<Positive>, r: seq<Positive>, k: nat)
    requires multiset(r) == multiset([x]) + multiset(s) && k < |r|
    ensures r[k] == x || r[k] in s
  {
    assert r[k] in multiset(r);
  }

  lemma {:induction false} InsertSorts(x: Positive, s: seq<Positive>)
    requires Sorted(s)
    ensures multiset(Insert(x, s)) == multiset([x]) + multiset(s) && Sorted(Insert(x, s))
  {
    if s != [] && x > s[0] {
      InsertSorts(x, s[1..]);
      assert s == [s[0]] + s[1..];
      var rest := Insert(x, s[1..]);
      assert multiset(rest) == multiset([x]) + multiset(s[1..]);
      hide Insert;
      forall k | 0 <= k < |rest|
        ensures s[0] <= rest[k]
      {
        InsertedFrom(x, s[1..], rest, k);
      }
    }
  }

  lemma {:induction false} SortSorts(s: seq<Positive>)
    ensures multiset(Sort(s)) == multiset(s) && Sorted(Sort(s))
  {
    if s != [] {
      SortSorts(s[1..]);
      InsertSorts(s[0], Sort(s[1..]));
      assert s == [s[0]] + s[1..];
    }
  }

  lemma {:induction false} MedianMeans(s: seq<Positive>)
    requires s != []
    ensures IsMedian(s, Median(s))
  {
    SortSorts(s);
    hide Sort, Sorted;
    var t := Sort(s);
    assert MiddleOf(t, Median(s));
  }

  /** First-token ratios of which a number is the median. */
  ghost predicate FirstTokenMedian(caseIds: seq<string>, champion: Projection, candidate: Projection, m: real) {
    exists t: seq<Positive> ::
      && |t| == |caseIds| && IsMedian(t, m)
      && forall k :: 0 <= k < |caseIds| ==>
        (Comparable(caseIds[k], champion, candidate)
         && t[k] * champion.Find(caseIds[k]).value.ttftS == candidate.Find(caseIds[k]).value.ttftS)
  }

  /**
   What an observation of two cells says, field by field; there is one exactly if every primary case can be compared.
   */
  lemma {:induction false} ObservationMeans(p: Policy, n: int, champion: Projection, candidate: Projection, reserveS: NonNegative)
    requires p.primaryCaseIds != []
    ensures var o := ObservationFromCells(p, n, champion, candidate, reserveS);
            o.Some? <==> forall k :: 0 <= k < |p.primaryCaseIds| ==> Comparable(p.primaryCaseIds[k], champion, candidate)
    ensures var ids, r := p.primaryCaseIds, ObservationFromCells(p, n, champion, candidate, reserveS);
            r.Some? ==>
              var o := r.value;
              && o.pairIndex == n && o.caseIds == ids && |o.ratios| == |ids|
              && (forall k :: 0 <= k < |ids| ==> ComparesSpeed(o.ratios[k], champion.Find(ids[k]).value, candidate.Find(ids[k]).value))
              && FirstTokenMedian(ids, champion, candidate, o.ttftRatio)
    ensures var r := ObservationFromCells(p, n, champion, candidate, reserveS);
            r.Some? ==>
              var t, s := r.value.timing, r.value.simplification;
              && t.firstCellS == (if n % 2 == 0 then champion else candidate).measurementS
              && t.secondCellS == (if n % 2 == 0 then candidate else champion).measurementS
              && t.pairS == champion.measurementS + candidate.measurementS
              && t.cleanupS >= champion.cleanupS && t.cleanupS >= candidate.cleanupS
              && (t.cleanupS == champion.cleanupS || t.cleanupS == candidate.cleanupS)
              && t.reserveS == reserveS
              && candidate.memAvailableGib == champion.memAvailableGib + s.gainGib
              && s.championFlags == champion.flags && s.candidateFlags == candidate.flags
  {
    hide Projection.Find, IsMedian, Median;
    var ids := p.primaryCaseIds;
    RatiosMean(ids, champion, candidate);
    var r := CaseRatios(ids, champion, candidate);
    if r.Some? {
      MedianMeans(r.value.ttft);
      assert FirstTokenMedian(ids, champion, candidate, Median(r.value.ttft));
    }
    hide FirstTokenMedian, CaseRatios;
  }

  predicate ComparesSpeed(speed: real, a: CaseMeasurement, b: CaseMeasurement) {
    && a.direction == b.direction != UnknownDirection
    && (a.direction == Lower ==> speed * b.speed == a.speed && (speed > 1.0 <==> b.speed < a.speed))
    && (a.direction == Higher ==> speed * a.speed == b.speed && (speed > 1.0 <==> b.speed > a.speed))
  }

  // ---------------------------------------------------------------------------
  // Exchanging execution order and roles
  // ---------------------------------------------------------------------------

  /** Screen, simplification and calibration verdicts ignore which arm ran first. */
  lemma {:induction false} OrderDoesNotMatter(p: Policy, i: nat, j: nat, champion: Projection, candidate: Projection, reserveS: NonNegative)
    requires p.primaryCaseIds != []
    requires ObservationFromCells(p, i, champion, candidate, reserveS).Some?
    ensures var a := ObservationFromCells(p, i, champion, candidate, reserveS);
            var b := ObservationFromCells(p, j, champion, candidate, reserveS);
            && b.Some?
            && ScreenReasons(p, a.value) == ScreenReasons(p, b.value)
            && SimplificationScreenReasons(p, a.value) == SimplificationScreenReasons(p, b.value)
            && CalibrationReasons(p, a.value) == CalibrationReasons(p, b.value)
  {
    var a := ObservationFromCells(p, i, champion, candidate, reserveS).value;
    var b := ObservationFromCells(p, j, champion, candidate, reserveS).value;
    assert a.timing.FailedBudgets() == b.timing.FailedBudgets();
    assert PairReasons(p, a) == PairReasons(p, b);
  }

  ghost predicate Inverses(a: seq<real>, b: seq<real>) {
    |a| == |b| && forall k :: 0 <= k < |a| ==> a[k] * b[k] == 1.0
  }

  lemma {:induction false} InversesCons(x: real, a: seq<real>, y: real, b: seq<real>)
    requires x * y == 1.0 && Inverses(a, b)
    ensures Inverses([x] + a, [y] + b)
  {
  }

  lemma {:induction false} SwapInvertsCase(a: CaseMeasurement, b: CaseMeasurement)
    requires a.direction == b.direction != UnknownDirection
    ensures SpeedRatio(a, b) * SpeedRatio(b, a) == 1.0
    ensures Quotient(b.ttftS, a.ttftS) * Quotient(a.ttftS, b.ttftS) == 1.0
  {
    InverseQuotients(a.speed, b.speed);
    InverseQuotients(b.ttftS, a.ttftS);
  }

  /** Exchanging champion and candidate inverts every speed and first-token ratio. */
  lemma {:induction false} SwapInvertsRatios(caseIds: seq<string>, champion: Projection, candidate: Projection)
    ensures var r, s := CaseRatios(caseIds, champion, candidate), CaseRatios(caseIds, candidate, champion);
            && (r.Some? <==> s.Some?)
            && (r.Some? ==> Inverses(r.value.speed, s.value.speed) && Inverses(r.value.ttft, s.value.ttft))
  {
    if caseIds != [] {
      SwapInvertsRatios(caseIds[1..], champion, candidate);
      var r, s := CaseRatios(caseIds[1..], champion, candidate), CaseRatios(caseIds[1..], candidate, champion);
      var a, b := champion.Find(caseIds[0]), candidate.Find(caseIds[0]);
      if r.Some? && a.Some? && b.Some? && a.value.direction == b.value.direction != UnknownDirection {
        SwapInvertsCase(a.value, b.value);
        InversesCons(SpeedRatio(a.value, b.value), r.value.speed, SpeedRatio(b.value, a.value), s.value.speed);
        InversesCons(Quotient(b.value.ttftS, a.value.ttftS), r.value.ttft,
                     Quotient(a.value.ttftS, b.value.ttftS), s.value.ttft);
      }
    }
  }

  lemma {:induction false} InverseQuotients(a: Positive, b: Positive)
    ensures Quotient(a, b) * Quotient(b, a) == 1.0
  {
    var x, y := Quotient(a, b), Quotient(b, a);
    assert (x * y) * a == x * (y * a) == x * b == a;
  }

  lemma {:induction false} InverseProducts(a: seq<real>, b: seq<real>)
    requires Inverses(a, b)
    ensures Product(a) * Product(b) == 1.0
  {
    if a != [] {
      InverseProducts(a[1..], b[1..]);
      var x, y, s, t := a[0], b[0], Product(a[1..]), Product(b[1..]);
      assert (x * s) * (y * t) == (x * y) * (s * t);
    }
  }

  /** Inverted ratios cannot both lie strictly above a geometric mean of one. */
  lemma {:induction false} InverseNotAboveOne(a: seq<real>, b: seq<real>)
    requires Inverses(a, b) && GeomeanAbove(a, PROMOTION_PAIR_GEOMEAN_STRICT_MIN)
    ensures !GeomeanAbove(b, PROMOTION_PAIR_GEOMEAN_STRICT_MIN)
  {
    InverseProducts(a, b);
    PowerOfOne(|a|);
    PowerOfOne(|b|);
    var x, y := Product(a), Product(b);
    assert y > 1.0 ==> x * y > x;
  }

  /**
   Promotion is antisymmetric: whatever the reserves and pair indices, two pairs that promote a
   candidate over a champion cannot promote that champion over that candidate.
   */
  lemma {:induction false} PromotionIsAntisymmetric(p: Policy, first: Observation, reverse: Observation,
                                 swappedFirst: Observation, swappedReverse: Observation,
                                 champion: Projection, candidate: Projection,
                                 i: nat, j: nat, reserve: NonNegative, swappedReserve: NonNegative)
    requires p.primaryCaseIds != []
    requires Some(first) == ObservationFromCells(p, i, champion, candidate, reserve)
    requires Some(swappedFirst) == ObservationFromCells(p, j, candidate, champion, swappedReserve)
    requires PromotionPasses(p, first, reverse)
    ensures !PromotionPasses(p, swappedFirst, swappedReverse)
    ensures !ScreenPasses(p, swappedFirst)
  {
    SwapInvertsRatios(p.primaryCaseIds, champion, candidate);
    InverseNotAboveOne(first.ratios, swappedFirst.ratios);
    if !GeomeanBelow(swappedFirst.ratios, SCREEN_GEOMEAN_MIN) {
      ScreenGeomeanAboveOne(swappedFirst.ratios);
    }
  }

  /** The benefit half of the simplification promotion gate. */
  predicate BenefitConfirmed(first: Observation, reverse: Observation) {
    || (GainsMemory(first) && GainsMemory(reverse))
    || (first.simplification.StrictlySimpler() && reverse.simplification.StrictlySimpler())
  }

  /**
   Simplification promotion is antisymmetric except for one trade: both directions show the
   benefit exactly when one side's two pairs gain the memory while the other side's flag bundle
   is strictly smaller.
   */
  lemma {:induction false} SimplificationReversesOnlyOnTrade(p: Policy, first: Observation, reverse: Observation,
                                          swappedFirst: Observation, swappedReverse: Observation,
                                          champion: Projection, candidate: Projection,
                                          champion': Projection, candidate': Projection,
                                          i: nat, reserve: NonNegative)
    requires p.primaryCaseIds != []
    requires champion'.flags == champion.flags && candidate'.flags == candidate.flags
    requires Some(first) == ObservationFromCells(p, i, champion, candidate, reserve)
    requires Some(reverse) == ObservationFromCells(p, i + 1, champion', candidate', reserve)
    requires Some(swappedFirst) == ObservationFromCells(p, i, candidate, champion, reserve)
    requires Some(swappedReverse) == ObservationFromCells(p, i + 1, candidate', champion', reserve)
    ensures BenefitConfirmed(first, reverse) && BenefitConfirmed(swappedFirst, swappedReverse)
            <==>
            || (GainsMemory(first) && GainsMemory(reverse) && swappedFirst.simplification.StrictlySimpler())
            || (GainsMemory(swappedFirst) && GainsMemory(swappedReverse) && first.simplification.StrictlySimpler())
  {
    assert first.simplification.gainGib == -swappedFirst.simplification.gainGib;
  }

  /**
   The trade happens: for every two equally fast cells within budget, if the candidate frees a
   gibibyte and needs strictly more flags, then both directions of the pair promote.
   */
  lemma {:induction false} TradesReverse(p: Policy, champion: Projection, candidate: Projection, i: nat, reserve: NonNegative,
                      first: Observation, reverse: Observation, swappedFirst: Observation, swappedReverse: Observation)
    requires ValidPolicy(p) && ValidProjection(champion) && ValidProjection(candidate)
    requires Some(first) == ObservationFromCells(p, i, champion, candidate, reserve)
    requires Some(reverse) == ObservationFromCells(p, i + 1, champion, candidate, reserve)
    requires Some(swappedFirst) == ObservationFromCells(p, i, candidate, champion, reserve)
    requires Some(swappedReverse) == ObservationFromCells(p, i + 1, candidate, champion, reserve)
    requires champion.measurements == candidate.measurements && first.timing.FailedBudgets() == []
    requires GainsMemory(first) && swappedFirst.simplification.StrictlySimpler()
    ensures SimplificationPromotionPasses(p, first, reverse)
    ensures SimplificationPromotionPasses(p, swappedFirst, swappedReverse)
  {
    SwappedPair(p, champion, candidate, i, reserve, first, swappedFirst);
    EqualSpeedPairPromotes(p, champion, candidate, i, reserve, first, reverse);
    EqualSpeedPairPromotes(p, candidate, champion, i, reserve, swappedFirst, swappedReverse);
  }

  lemma {:induction false} SwappedPair(p: Policy, champion: Projection, candidate: Projection, i: nat, reserve: NonNegative,
                    o: Observation, swapped: Observation)
    requires p.primaryCaseIds != []
    requires Some(o) == ObservationFromCells(p, i, champion, candidate, reserve)
    requires Some(swapped) == ObservationFromCells(p, i, candidate, champion, reserve)
    ensures swapped.timing.FailedBudgets() == [] <==> o.timing.FailedBudgets() == []
  {
    hide CaseRatios, Median;
  }

  lemma {:induction false} EqualSpeedPairPromotes(p: Policy, a: Projection, b: Projection, i: nat, reserve: NonNegative,
                               first: Observation, reverse: Observation)
    requires ValidPolicy(p) && ValidProjection(a) && ValidProjection(b) && a.measurements == b.measurements
    requires Some(first) == ObservationFromCells(p, i, a, b, reserve)
    requires Some(reverse) == ObservationFromCells(p, i + 1, a, b, reserve)
    requires first.timing.FailedBudgets() == [] && (GainsMemory(first) || first.simplification.StrictlySimpler())
    ensures SimplificationPromotionPasses(p, first, reverse)
  {
    hide CaseRatios, Median, IsSafeId, GeomeanBelow, BelowFloor, SimplificationScreenPasses, SimplificationPromotionPasses,
         Observation.WellFormed;
    EqualSpeedScreens(p, a, b, i, reserve, first);
    EqualSpeedScreens(p, a, b, i + 1, reserve, reverse);
    ConsecutivePairsReverse(i);
    PassingSimplificationScreensPromote(p, first, reverse);
  }

  lemma {:induction false} EqualSpeedScreens(p: Policy, a: Projection, b: Projection, i: nat, reserve: NonNegative, o: Observation)
    requires ValidPolicy(p) && ValidProjection(a) && ValidProjection(b)
    requires Some(o) == ObservationFromCells(p, i, a, b, reserve)
    requires a.measurements == b.measurements && o.timing.FailedBudgets() == []
    ensures o.WellFormed() && PairReasons(p, o) == []
    ensures SimplificationScreenPasses(p, o) <==> GainsMemory(o) || o.simplification.StrictlySimpler()
  {
    EqualSpeedRatios(p.primaryCaseIds, a, b);
    var r := CaseRatios(p.primaryCaseIds, a, b).value;
    SortedOnes(r.ttft);
    ProductOfOnes(r.speed);
    ObservationWellFormed(p, i, a, b, reserve);
  }

  /** Memory gained in both pairs at the price of more flags, or fewer flags at the price of memory in both. */
  predicate Trades(first: Observation, reverse: Observation) {
    || (GainsMemory(first) && GainsMemory(reverse) && NeedsMoreFlags(first))
    || (first.simplification.StrictlySimpler() && LosesMemory(first) && LosesMemory(reverse))
  }

  predicate NeedsMoreFlags(o: Observation) {
    (set f | f in o.simplification.championFlags) < (set f | f in o.simplification.candidateFlags)
  }

  predicate LosesMemory(o: Observation) {
    o.simplification.gainGib <= -SIMPLIFICATION_MEMAVAILABLE_GAIN_GIB
  }

  /** No case sped up by more than the screen floor would tolerate as a slowdown. */
  predicate NoCaseTooFast(ratios: seq<real>) {
    forall k :: 0 <= k < |ratios| ==> ratios[k] <= 1.0 / SCREEN_PRIMARY_RATIO_MIN
  }

  /** The two pairs together did not speed up by more than the simplification floor would tolerate as a slowdown. */
  predicate NotTooFastTogether(ratios: seq<real>) {
    Product(ratios) <= Power(1.0 / SIMPLIFICATION_COMBINED_GEOMEAN_MIN, |ratios|)
  }

  /**
   When a simplification promotion can be reversed: exactly if it trades memory against flags, did not speed things
   up by more than the gates tolerate as a slowdown, in any case or together, and did not improve the median time to
   the first token by more than the screen tolerates.
   */
  lemma {:induction false} SimplificationReverses(p: Policy, first: Observation, reverse: Observation,
                               swappedFirst: Observation, swappedReverse: Observation,
                               champion: Projection, candidate: Projection,
                               champion': Projection, candidate': Projection,
                               i: nat, reserve: NonNegative, reserve': NonNegative)
    requires p.primaryCaseIds != []
    requires Some(first) == ObservationFromCells(p, i, champion, candidate, reserve)
    requires Some(reverse) == ObservationFromCells(p, i + 1, champion', candidate', reserve')
    requires Some(swappedFirst) == ObservationFromCells(p, i, candidate, champion, reserve)
    requires Some(swappedReverse) == ObservationFromCells(p, i + 1, candidate', champion', reserve')
    requires SimplificationPromotionPasses(p, first, reverse)
    ensures SimplificationPromotionPasses(p, swappedFirst, swappedReverse)
            <==> && Trades(first, reverse)
                 && NotTooFastTogether(first.ratios + reverse.ratios)
                 && NoCaseTooFast(first.ratios) && NoCaseTooFast(reverse.ratios)
                 && swappedFirst.ttftRatio <= SCREEN_TTFT_RATIO_MAX && swappedReverse.ttftRatio <= SCREEN_TTFT_RATIO_MAX
  {
    hide GeomeanBelow, BelowFloor, ObservationFromCells, ConfirmationReasons, SimplificationPromotionPasses, Trades,
         BenefitConfirmed, NotTooFastTogether, NoCaseTooFast, Exchanged, SameFlags;
    SimplificationGate(p, first, reverse);
    SimplificationGate(p, swappedFirst, swappedReverse);
    SwappedRatios(p, champion, candidate, i, reserve, first, swappedFirst);
    SwappedRatios(p, champion', candidate', i + 1, reserve', reverse, swappedReverse);
    SwappedConfirmation(p, first, reverse, swappedFirst, swappedReverse);
    SwappedBenefit(first, reverse, swappedFirst, swappedReverse);
    InverseFloor(first, swappedFirst);
    InverseFloor(reverse, swappedReverse);
    InverseTogether(first, reverse, swappedFirst, swappedReverse);
  }

  /** The simplification promotion gate, reason by reason. */
  lemma {:induction false} SimplificationGate(p: Policy, first: Observation, reverse: Observation)
    ensures SimplificationPromotionPasses(p, first, reverse)
            <==> && ConfirmationReasons(p, first, reverse) == []
                 && !GeomeanBelow(first.ratios + reverse.ratios, SIMPLIFICATION_COMBINED_GEOMEAN_MIN)
                 && !BelowFloor(first.ratios, SCREEN_PRIMARY_RATIO_MIN) && first.ttftRatio <= SCREEN_TTFT_RATIO_MAX
                 && !BelowFloor(reverse.ratios, SCREEN_PRIMARY_RATIO_MIN) && reverse.ttftRatio <= SCREEN_TTFT_RATIO_MAX
                 && BenefitConfirmed(first, reverse)
    ensures SimplificationPromotionPasses(p, first, reverse) ==> SameFlags(first, reverse)
  {
    hide GeomeanBelow, BelowFloor, GainsMemory, PairReasons;
  }

  predicate SameFlags(first: Observation, reverse: Observation) {
    && first.simplification.championFlags == reverse.simplification.championFlags
    && first.simplification.candidateFlags == reverse.simplification.candidateFlags
  }

  predicate AllPositive(s: seq<real>) {
    forall k :: 0 <= k < |s| ==> s[k] > 0.0
  }

  /** One observation is the other with its roles exchanged. */
  ghost predicate Exchanged(a: Observation, b: Observation) {
    && Inverses(a.ratios, b.ratios) && AllPositive(a.ratios) && AllPositive(b.ratios)
    && b.pairIndex == a.pairIndex && b.caseIds == a.caseIds && b.eligibility == a.eligibility
    && (b.timing.FailedBudgets() == [] <==> a.timing.FailedBudgets() == [])
    && b.simplification == Simplification(-a.simplification.gainGib, a.simplification.candidateFlags, a.simplification.championFlags)
  }

  lemma {:induction false} SwappedRatios(p: Policy, champion: Projection, candidate: Projection, i: nat, reserve: NonNegative,
                      o: Observation, swapped: Observation)
    requires p.primaryCaseIds != []
    requires Some(o) == ObservationFromCells(p, i, champion, candidate, reserve)
    requires Some(swapped) == ObservationFromCells(p, i, candidate, champion, reserve)
    ensures Exchanged(o, swapped)
  {
    hide CaseRatios, Median;
    SwapInvertsRatios(p.primaryCaseIds, champion, candidate);
    SwappedPair(p, champion, candidate, i, reserve, o, swapped);
  }

  lemma {:induction false} SwappedConfirmation(p: Policy, first: Observation, reverse: Observation,
                            swappedFirst: Observation, swappedReverse: Observation)
    requires Exchanged(first, swappedFirst) && Exchanged(reverse, swappedReverse)
    ensures ConfirmationReasons(p, first, reverse) == [] <==> ConfirmationReasons(p, swappedFirst, swappedReverse) == []
  {
    hide Timing.FailedBudgets, Eligibility.FailedGates, Inverses, PairOrder;
  }

  lemma {:induction false} SwappedBenefit(first: Observation, reverse: Observation, swappedFirst: Observation, swappedReverse: Observation)
    requires Exchanged(first, swappedFirst) && Exchanged(reverse, swappedReverse) && SameFlags(first, reverse)
    requires BenefitConfirmed(first, reverse)
    ensures BenefitConfirmed(swappedFirst, swappedReverse) <==> Trades(first, reverse)
  {
    hide Timing.FailedBudgets, Inverses;
  }

  lemma {:induction false} InverseFloor(o: Observation, swapped: Observation)
    requires Exchanged(o, swapped)
    ensures !BelowFloor(swapped.ratios, SCREEN_PRIMARY_RATIO_MIN) <==> NoCaseTooFast(o.ratios)
  {
    hide Timing.FailedBudgets;
    var a, b := o.ratios, swapped.ratios;
    forall k | 0 <= k < |a|
      ensures b[k] >= SCREEN_PRIMARY_RATIO_MIN <==> a[k] <= 1.0 / SCREEN_PRIMARY_RATIO_MIN
    {
      InverseBounds(a[k], b[k], 1.0 / SCREEN_PRIMARY_RATIO_MIN, SCREEN_PRIMARY_RATIO_MIN);
    }
    AboveFloor(b, SCREEN_PRIMARY_RATIO_MIN);
  }

  lemma {:induction false} AboveFloor(s: seq<real>, floor: real)
    ensures !BelowFloor(s, floor) <==> forall k :: 0 <= k < |s| ==> s[k] >= floor
  {
    if k :| 0 <= k < |s| && s[k] < floor {
      assert s[k] in s;
    }
  }

  lemma {:induction false} InverseBounds(x: real, y: real, high: real, low: real)
    requires x > 0.0 && y > 0.0 && high > 0.0 && low > 0.0 && x * y == 1.0 && high * low == 1.0
    ensures y >= low <==> x <= high
  {
    if y >= low {
      Scale(x, low, y);
      assert x * low <= 1.0;
      assert x > high ==> x * low > high * low by {
        if x > high { Scale(low, high, x); }
      }
    } else {
      Scale(x, y, low);
      assert x <= high ==> x * low <= high * low by {
        if x <= high { Scale(low, x, high); }
      }
    }
  }

  lemma {:induction false} InversePowers(x: real, y: real, n: nat)
    requires x * y == 1.0
    ensures Power(x, n) * Power(y, n) == 1.0
  {
    if n != 0 {
      InversePowers(x, y, n - 1);
      var s, t := Power(x, n - 1), Power(y, n - 1);
      assert (x * s) * (y * t) == (x * y) * (s * t);
    }
  }

  lemma {:induction false} ProductPositive(s: seq<real>)
    requires AllPositive(s)
    ensures Product(s) > 0.0
  {
    if s != [] {
      ProductPositive(s[1..]);
    }
  }

  lemma {:induction false} InverseTogether(first: Observation, reverse: Observation, swappedFirst: Observation, swappedReverse: Observation)
    requires Exchanged(first, swappedFirst) && Exchanged(reverse, swappedReverse)
    ensures !GeomeanBelow(swappedFirst.ratios + swappedReverse.ratios, SIMPLIFICATION_COMBINED_GEOMEAN_MIN)
            <==> NotTooFastTogether(first.ratios + reverse.ratios)
  {
    hide Timing.FailedBudgets, Product, Power;
    var a, b := first.ratios + reverse.ratios, swappedFirst.ratios + swappedReverse.ratios;
    var high, low, n := 1.0 / SIMPLIFICATION_COMBINED_GEOMEAN_MIN, SIMPLIFICATION_COMBINED_GEOMEAN_MIN, |a|;
    InverseProducts(a, b);
    InversePowers(high, low, n);
    PowerPositive(high, n);
    PowerPositive(low, n);
    ProductPositive(a);
    ProductPositive(b);
    InverseBounds(Product(a), Product(b), Power(high, n), Power(low, n));
  }

  // ---------------------------------------------------------------------------
  // One trade that reverses and one that does not
  // ---------------------------------------------------------------------------

  const ONE_CASE := Policy(["decode"], [], "")

  function Measured(speed: Positive, memory: real, flags: seq<string>): Projection {
    Projection([CaseMeasurement("decode", speed, Higher, 1.0)], 600.0, 30.0, memory, flags)
  }

  function OneCase(i: nat, champion: Projection, candidate: Projection): Option<Observation> {
    ObservationFromCells(ONE_CASE, i, champion, candidate, 1000.0)
  }

  /** At equal speed, two gibibytes for one flag: the promotion also passes in reverse. */
  lemma {:induction false} EvenTradeReverses()
    ensures var lean, large := Measured(50.0, 64.0, []), Measured(50.0, 66.0, ["--cache"]);
            && OneCase(0, lean, large).Some? && OneCase(1, lean, large).Some?
            && OneCase(0, large, lean).Some? && OneCase(1, large, lean).Some?
            && SimplificationPromotionPasses(ONE_CASE, OneCase(0, lean, large).value, OneCase(1, lean, large).value)
            && SimplificationPromotionPasses(ONE_CASE, OneCase(0, large, lean).value, OneCase(1, large, lean).value)
  {
    hide SimplificationPromotionPasses, ObservationFromCells, Timing.FailedBudgets, ELIGIBLE;
    var lean, large := Measured(50.0, 64.0, []), Measured(50.0, 66.0, ["--cache"]);
    OneCaseObservation(0, 50.0, 50.0, 64.0, 66.0, [], ["--cache"]);
    OneCaseObservation(1, 50.0, 50.0, 64.0, 66.0, [], ["--cache"]);
    OneCaseObservation(0, 50.0, 50.0, 66.0, 64.0, ["--cache"], []);
    OneCaseObservation(1, 50.0, 50.0, 66.0, 64.0, ["--cache"], []);
    assert ValidPolicy(ONE_CASE);
    var swapped := OneCase(0, large, lean).value;
    OneFlagMore(OneCase(0, lean, large).value, swapped);
    TradesReverse(ONE_CASE, lean, large, 0, 1000.0, OneCase(0, lean, large).value, OneCase(1, lean, large).value,
                  swapped, OneCase(1, large, lean).value);
  }

  /** The same trade that also doubles the speed passes, but not in reverse. */
  lemma {:induction false} FastTradeDoesNotReverse()
    ensures var lean, large := Measured(50.0, 64.0, []), Measured(100.0, 66.0, ["--cache"]);
            && OneCase(0, lean, large).Some? && OneCase(1, lean, large).Some?
            && OneCase(0, large, lean).Some? && OneCase(1, large, lean).Some?
            && SimplificationPromotionPasses(ONE_CASE, OneCase(0, lean, large).value, OneCase(1, lean, large).value)
            && Trades(OneCase(0, lean, large).value, OneCase(1, lean, large).value)
            && !SimplificationPromotionPasses(ONE_CASE, OneCase(0, large, lean).value, OneCase(1, large, lean).value)
  {
    hide SimplificationPromotionPasses, ObservationFromCells, Timing.FailedBudgets, ELIGIBLE;
    var lean, large := Measured(50.0, 64.0, []), Measured(100.0, 66.0, ["--cache"]);
    OneCaseObservation(0, 50.0, 100.0, 64.0, 66.0, [], ["--cache"]);
    OneCaseObservation(1, 50.0, 100.0, 64.0, 66.0, [], ["--cache"]);
    OneCaseObservation(0, 100.0, 50.0, 66.0, 64.0, ["--cache"], []);
    OneCaseObservation(1, 100.0, 50.0, 66.0, 64.0, ["--cache"], []);
    var first, reverse := OneCase(0, lean, large).value, OneCase(1, lean, large).value;
    var swappedFirst, swappedReverse := OneCase(0, large, lean).value, OneCase(1, large, lean).value;
    OneFlagMore(first, swappedFirst);
    FasterPairPromotes(first, reverse);
    SimplificationReverses(ONE_CASE, first, reverse, swappedFirst, swappedReverse, lean, large, lean, large, 0, 1000.0, 1000.0);
    assert first.ratios[0] == 2.0;
  }

  /** Two pairs of the one case at twice the speed and with more memory promote. */
  lemma {:induction false} FasterPairPromotes(first: Observation, reverse: Observation)
    requires first.pairIndex == 0 && reverse.pairIndex == 1 && SameFlags(first, reverse)
    requires first.caseIds == reverse.caseIds == ONE_CASE.primaryCaseIds && first.eligibility == reverse.eligibility == ELIGIBLE
    requires first.timing.FailedBudgets() == [] && reverse.timing.FailedBudgets() == []
    requires first.ratios == reverse.ratios == [2.0] && first.ttftRatio == reverse.ttftRatio == 1.0
    requires GainsMemory(first) && GainsMemory(reverse)
    ensures SimplificationPromotionPasses(ONE_CASE, first, reverse)
  {
    hide Timing.FailedBudgets, Eligibility.FailedGates;
    EligibleCellsPass();
    assert first.ratios + reverse.ratios == [2.0, 2.0];
    assert [2.0, 2.0][1..] == [2.0] && [2.0][1..] == [];
    assert Product([2.0]) == 2.0 && Product([2.0, 2.0]) == 4.0;
    var floor := SIMPLIFICATION_COMBINED_GEOMEAN_MIN;
    assert Power(floor, 1) == floor && Power(floor, 2) == floor * floor;
    AboveFloor([2.0], SCREEN_PRIMARY_RATIO_MIN);
    SimplificationGate(ONE_CASE, first, reverse);
  }

  lemma {:induction false} OneFlagMore(o: Observation, swapped: Observation)
    requires o.simplification.championFlags == swapped.simplification.candidateFlags == []
    requires |o.simplification.candidateFlags| == 1 && swapped.simplification.championFlags == o.simplification.candidateFlags
    ensures NeedsMoreFlags(o) && swapped.simplification.StrictlySimpler()
  {
    var none, some := set f | f in o.simplification.championFlags, set f | f in o.simplification.candidateFlags;
    assert none == {};
    assert o.simplification.candidateFlags[0] in some;
  }

  lemma {:induction false} OneMatch(m: CaseMeasurement)
    ensures Matches([m], m.caseId) == [m]
  {
    assert [m][1..] == [];
    assert Matches([], m.caseId) == [];
  }

  lemma {:induction false} OneCaseObservation(i: nat, a: Positive, b: Positive, m: real, n: real, f: seq<string>, g: seq<string>)
    ensures var o := OneCase(i, Measured(a, m, f), Measured(b, n, g));
            && o.Some? && o.value.pairIndex == i && o.value.caseIds == ONE_CASE.primaryCaseIds
            && o.value.ratios == [Quotient(b, a)] && o.value.ttftRatio == 1.0
            && o.value.timing.FailedBudgets() == [] && o.value.eligibility == ELIGIBLE
            && o.value.simplification == Simplification(n - m, f, g)
  {
    var x, y := Measured(a, m, f), Measured(b, n, g);
    OneMatch(x.measurements[0]);
    OneMatch(y.measurements[0]);
    SelfQuotient(1.0);
    assert ["decode"][1..] == [];
    assert CaseRatios([], x, y) == Some(Ratios([], []));
    assert SpeedRatio(x.measurements[0], y.measurements[0]) == Quotient(b, a);
    assert CaseRatios(["decode"], x, y) == Some(Ratios([Quotient(b, a)] + [], [1.0] + []));
    assert [1.0][1..] == [];
    assert Sort([1.0]) == [1.0];
  }

  ghost predicate AllOnes(s: seq<real>) {
    forall k :: 0 <= k < |s| ==> s[k] == 1.0
  }

  lemma {:induction false} EqualSpeedRatios(caseIds: seq<string>, a: Projection, b: Projection)
    requires a.measurements == b.measurements
    ensures var r := CaseRatios(caseIds, a, b);
            r.Some? ==> AllOnes(r.value.speed) && AllOnes(r.value.ttft)
  {
    if caseIds != [] {
      EqualSpeedRatios(caseIds[1..], a, b);
      var m := a.Find(caseIds[0]);
      if m.Some? && m.value.direction != UnknownDirection {
        SelfQuotient(m.value.speed);
        SelfQuotient(m.value.ttftS);
      }
    }
  }

  lemma {:induction false} SelfQuotient(x: Positive)
    ensures Quotient(x, x) == 1.0
  {
    assert Quotient(x, x) * x == 1.0 * x;
  }

  lemma {:induction false} SortedOnes(s: seq<Positive>)
    requires AllOnes(s)
    ensures AllOnes(Sort(s))
  {
    if s != [] {
      SortedOnes(s[1..]);
      InsertedOne(Sort(s[1..]));
    }
  }

  lemma {:induction false} InsertedOne(sorted: seq<Positive>)
    requires AllOnes(sorted)
    ensures AllOnes(Insert(1.0, sorted))
  {
    assert sorted == [] || 1.0 <= sorted[0];
  }

  lemma {:induction false} ProductOfOnes(s: seq<real>)
    requires AllOnes(s)
    ensures Product(s) == 1.0 && !GeomeanBelow(s, SIMPLIFICATION_COMBINED_GEOMEAN_MIN)
  {
    if s != [] {
      ProductOfOnes(s[1..]);
      PowerPositive(SIMPLIFICATION_COMBINED_GEOMEAN_MIN, |s| - 1);
    }
  }

  lemma {:induction false} OnesAreCalibrated(s: seq<real>)
    requires AllOnes(s)
    ensures !GeomeanBelow(s, CALIBRATION_GEOMEAN_MIN) && !GeomeanAbove(s, CALIBRATION_GEOMEAN_MAX)
  {
    ProductOfOnes(s);
    PowerMonotone(CALIBRATION_GEOMEAN_MIN, 1.0, |s|);
    PowerMonotone(1.0, CALIBRATION_GEOMEAN_MAX, |s|);
    PowerOfOne(|s|);
  }

  /** Two cells with equal measurements calibrate exactly when they keep their timing budgets. */
  lemma {:induction false} EqualCellsCalibrate(p: Policy, a: Projection, b: Projection, i: nat, reserve: NonNegative, o: Observation)
    requires ValidPolicy(p) && ValidProjection(a) && ValidProjection(b)
    requires Some(o) == ObservationFromCells(p, i, a, b, reserve) && a.measurements == b.measurements
    ensures CalibrationPasses(p, o) <==> o.timing.FailedBudgets() == []
  {
    hide Observation.WellFormed, PairReasons, GeomeanBelow, GeomeanAbove, Timing.FailedBudgets, IsSafeId;
    EqualSpeedRatios(p.primaryCaseIds, a, b);
    var r := CaseRatios(p.primaryCaseIds, a, b).value;
    SortedOnes(r.ttft);
    OnesAreCalibrated(r.speed);
    ObservationWellFormed(p, i, a, b, reserve);
  }
}
