/**
 The paired-score gates of bench/autoresearch.py in exact arithmetic.

 A geometric mean of n ratios is compared with a threshold t through the product:
 geomean >= t exactly when the product is at least t to the power n.
 */
module Gates {
  import opened Common

  const CELL_TIMEOUT_S := 1800.0
  const PAIR_TIMEOUT_S := 3600.0
  const CLEANUP_TIMEOUT_S := 120.0
  const AUDIT_RESERVE_S := 900.0
  const SCREEN_GEOMEAN_MIN := 1.03
  const SCREEN_PRIMARY_RATIO_MIN := 0.95
  const SCREEN_TTFT_RATIO_MAX := 1.10
  const PROMOTION_PAIR_GEOMEAN_STRICT_MIN := 1.00
  const PROMOTION_COMBINED_GEOMEAN_MIN := 1.03
  const SIMPLIFICATION_COMBINED_GEOMEAN_MIN := 0.99
  const SIMPLIFICATION_MEMAVAILABLE_GAIN_GIB := 1.0
  const CALIBRATION_GEOMEAN_MIN := 0.97
  const CALIBRATION_GEOMEAN_MAX := 1.03
  const CALIBRATION_PRIMARY_RATIO_MIN := 0.95
  const CALIBRATION_PRIMARY_RATIO_MAX := 1.05
  const CALIBRATION_TTFT_RATIO_MIN := 0.90
  const CALIBRATION_TTFT_RATIO_MAX := 1.10

  /** The campaign-specific part of the frozen policy; every threshold is fixed above. */
  datatype Policy = Policy(primaryCaseIds: seq<string>, allowedAxes: seq<string>, digest: string)

  datatype Budget = CellTimeout | PairTimeout | CleanupTimeout | AuditReserve

  datatype Timing = Timing(firstCellS: real, secondCellS: real, pairS: real, cleanupS: real, reserveS: real)
  {
    predicate WellFormed() {
      firstCellS >= 0.0 && secondCellS >= 0.0 && pairS >= 0.0 && cleanupS >= 0.0 && reserveS >= 0.0
    }

    function FailedBudgets(): seq<Budget> {
      (if firstCellS > CELL_TIMEOUT_S || secondCellS > CELL_TIMEOUT_S then [CellTimeout] else [])
      + (if pairS > PAIR_TIMEOUT_S then [PairTimeout] else [])
      + (if cleanupS > CLEANUP_TIMEOUT_S then [CleanupTimeout] else [])
      + (if reserveS < AUDIT_RESERVE_S then [AuditReserve] else [])
    }
  }

  datatype Gate =
    | CellsCompleted | MeasurementValid | ValidationPassed | WorkloadMatched
    | ArtifactIdentityVerified | AuditRequirementPassed | CleanupVerified
    | MemoryPressure | SwapPressure | Oom | OwnershipAmbiguous | CleanupBreach

  const POSITIVE_GATES: seq<Gate> :=
    [CellsCompleted, MeasurementValid, ValidationPassed, WorkloadMatched,
     ArtifactIdentityVerified, AuditRequirementPassed, CleanupVerified]
  const HAZARD_GATES: seq<Gate> :=
    [MemoryPressure, SwapPressure, Oom, OwnershipAmbiguous, CleanupBreach]

  /** The gates of an observation whose recorded boolean is true. */
  datatype Eligibility = Eligibility(raised: set<Gate>)
  {
    function FailedGates(): seq<Gate> {
      Select(POSITIVE_GATES, false) + Select(HAZARD_GATES, true)
    }

    function Select(gates: seq<Gate>, flag: bool): seq<Gate> {
      if gates == [] then []
      else (if (gates[0] in raised) == flag then [gates[0]] else []) + Select(gates[1..], flag)
    }
  }

  datatype Simplification = Simplification(gainGib: real, championFlags: seq<string>, candidateFlags: seq<string>)
  {
    predicate WellFormed() {
      Distinct(championFlags) && Distinct(candidateFlags)
    }

    /** The candidate declares a strict subset of the champion's flags. */
    predicate StrictlySimpler() {
      (set f | f in candidateFlags) < (set f | f in championFlags)
    }
  }

  datatype Observation = Observation(
    pairIndex: int,
    caseIds: seq<string>,
    ratios: seq<real>,
    ttftRatio: real,
    timing: Timing,
    eligibility: Eligibility,
    simplification: Simplification)
  {
    /** What constructing an observation from its mapping enforces. */
    predicate WellFormed() {
      && 0 <= pairIndex
      && caseIds != [] && Distinct(caseIds) && (forall c :: c in caseIds ==> IsSafeId(c))
      && |ratios| == |caseIds|
      && (forall r :: r in ratios ==> r > 0.0)
      && ttftRatio > 0.0
      && timing.WellFormed()
      && simplification.WellFormed()
    }
  }

  datatype Reason =
    | PrimaryCasesMismatch
    | Ineligible(gate: Gate)
    | OverBudget(budget: Budget)
    | GeomeanBelowScreenMin
    | RatioBelowScreenFloor
    | TtftAboveScreenCeiling
    | ReverseRatioBelowScreenFloor
    | ReverseTtftAboveScreenCeiling
    | FirstRatioBelowScreenFloor
    | FirstTtftAboveScreenCeiling
    | ConfirmationPairIndexNotConsecutive
    | ConfirmationOrderNotReversed
    | ConfirmationPrimaryCasesMismatch
    | ConfirmationFlagBundlesMismatch
    | FirstPairDidNotPassScreen
    | FirstGeomeanNotAboveOne
    | ReverseGeomeanNotAboveOne
    | CombinedGeomeanBelowPromotionMin
    | GeomeanBelowSimplificationFloor
    | SimplificationBenefitMissing
    | CombinedGeomeanBelowSimplificationFloor
    | SimplificationBenefitNotConfirmedTwice
    | CalibrationGeomeanOutOfRange
    | CalibrationRatioOutOfRange
    | CalibrationTtftOutOfRange

  datatype Arm = Champion | Candidate | UnknownArm

  function PairOrder(pairIndex: int): seq<Arm> {
    if pairIndex % 2 == 0 then [Champion, Candidate] else [Candidate, Champion]
  }

  function Product(ratios: seq<real>): real {
    if ratios == [] then 1.0 else ratios[0] * Product(ratios[1..])
  }

  function Power(base: real, exponent: nat): real {
    if exponent == 0 then 1.0 else base * Power(base, exponent - 1)
  }

  predicate GeomeanBelow(ratios: seq<real>, threshold: real) {
    Product(ratios) < Power(threshold, |ratios|)
  }

  predicate GeomeanAbove(ratios: seq<real>, threshold: real) {
    Product(ratios) > Power(threshold, |ratios|)
  }

  /** `reason` when the condition holds: one conditional entry of a reason list. */
  function When(condition: bool, reason: Reason): seq<Reason> {
    if condition then [reason] else []
  }

  function IneligibleReasons(gates: seq<Gate>): seq<Reason> {
    seq(|gates|, i requires 0 <= i < |gates| => Ineligible(gates[i]))
  }

  function BudgetReasons(budgets: seq<Budget>): seq<Reason> {
    seq(|budgets|, i requires 0 <= i < |budgets| => OverBudget(budgets[i]))
  }

  function PairReasons(p: Policy, o: Observation): seq<Reason> {
    When(o.caseIds != p.primaryCaseIds, PrimaryCasesMismatch)
    + IneligibleReasons(o.eligibility.FailedGates())
    + BudgetReasons(o.timing.FailedBudgets())
  }

  predicate BelowFloor(ratios: seq<real>, floor: real) {
    exists r :: r in ratios && r < floor
  }

  function GuardrailReasons(o: Observation, ratioReason: Reason, ttftReason: Reason): seq<Reason> {
    When(BelowFloor(o.ratios, SCREEN_PRIMARY_RATIO_MIN), ratioReason)
    + When(o.ttftRatio > SCREEN_TTFT_RATIO_MAX, ttftReason)
  }

  function ScreenReasons(p: Policy, o: Observation): seq<Reason> {
    PairReasons(p, o)
    + When(GeomeanBelow(o.ratios, SCREEN_GEOMEAN_MIN), GeomeanBelowScreenMin)
    + GuardrailReasons(o, RatioBelowScreenFloor, TtftAboveScreenCeiling)
  }

  predicate ScreenPasses(p: Policy, o: Observation) {
    ScreenReasons(p, o) == []
  }

  function ConfirmationReasons(p: Policy, first: Observation, reverse: Observation): seq<Reason> {
    PairReasons(p, first)
    + PairReasons(p, reverse)
    + (if reverse.pairIndex != first.pairIndex + 1 then [ConfirmationPairIndexNotConsecutive]
       else When(PairOrder(first.pairIndex) == PairOrder(reverse.pairIndex), ConfirmationOrderNotReversed))
    + When(first.caseIds != reverse.caseIds, ConfirmationPrimaryCasesMismatch)
    + When(first.simplification.championFlags != reverse.simplification.championFlags
           || first.simplification.candidateFlags != reverse.simplification.candidateFlags,
           ConfirmationFlagBundlesMismatch)
  }

  function PromotionReasons(p: Policy, first: Observation, reverse: Observation): seq<Reason> {
    ConfirmationReasons(p, first, reverse)
    + When(!ScreenPasses(p, first), FirstPairDidNotPassScreen)
    + GuardrailReasons(reverse, ReverseRatioBelowScreenFloor, ReverseTtftAboveScreenCeiling)
    + When(!GeomeanAbove(first.ratios, PROMOTION_PAIR_GEOMEAN_STRICT_MIN), FirstGeomeanNotAboveOne)
    + When(!GeomeanAbove(reverse.ratios, PROMOTION_PAIR_GEOMEAN_STRICT_MIN), ReverseGeomeanNotAboveOne)
    + When(GeomeanBelow(first.ratios + reverse.ratios, PROMOTION_COMBINED_GEOMEAN_MIN),
           CombinedGeomeanBelowPromotionMin)
  }

  predicate PromotionPasses(p: Policy, first: Observation, reverse: Observation) {
    PromotionReasons(p, first, reverse) == []
  }

  predicate GainsMemory(o: Observation) {
    o.simplification.gainGib >= SIMPLIFICATION_MEMAVAILABLE_GAIN_GIB
  }

  function SimplificationScreenReasons(p: Policy, o: Observation): seq<Reason> {
    PairReasons(p, o)
    + When(GeomeanBelow(o.ratios, SIMPLIFICATION_COMBINED_GEOMEAN_MIN), GeomeanBelowSimplificationFloor)
    + GuardrailReasons(o, RatioBelowScreenFloor, TtftAboveScreenCeiling)
    + When(!(GainsMemory(o) || o.simplification.StrictlySimpler()), SimplificationBenefitMissing)
  }

  predicate SimplificationScreenPasses(p: Policy, o: Observation) {
    SimplificationScreenReasons(p, o) == []
  }

  function SimplificationPromotionReasons(p: Policy, first: Observation, reverse: Observation): seq<Reason> {
    ConfirmationReasons(p, first, reverse)
    + When(GeomeanBelow(first.ratios + reverse.ratios, SIMPLIFICATION_COMBINED_GEOMEAN_MIN),
           CombinedGeomeanBelowSimplificationFloor)
    + GuardrailReasons(first, FirstRatioBelowScreenFloor, FirstTtftAboveScreenCeiling)
    + GuardrailReasons(reverse, ReverseRatioBelowScreenFloor, ReverseTtftAboveScreenCeiling)
    + When(!((GainsMemory(first) && GainsMemory(reverse))
             || (first.simplification.StrictlySimpler() && reverse.simplification.StrictlySimpler())),
           SimplificationBenefitNotConfirmedTwice)
  }

  predicate SimplificationPromotionPasses(p: Policy, first: Observation, reverse: Observation) {
    SimplificationPromotionReasons(p, first, reverse) == []
  }

  function CalibrationReasons(p: Policy, o: Observation): seq<Reason> {
    PairReasons(p, o)
    + When(GeomeanBelow(o.ratios, CALIBRATION_GEOMEAN_MIN) || GeomeanAbove(o.ratios, CALIBRATION_GEOMEAN_MAX),
           CalibrationGeomeanOutOfRange)
    + When(exists r :: r in o.ratios && !(CALIBRATION_PRIMARY_RATIO_MIN <= r <= CALIBRATION_PRIMARY_RATIO_MAX),
           CalibrationRatioOutOfRange)
    + When(!(CALIBRATION_TTFT_RATIO_MIN <= o.ttftRatio <= CALIBRATION_TTFT_RATIO_MAX), CalibrationTtftOutOfRange)
  }

  predicate CalibrationPasses(p: Policy, o: Observation) {
    CalibrationReasons(p, o) == []
  }

  datatype FailureKind =
    | Cutoff | CandidateSyntax | CandidateStartup | Measurement | Validation | Audit
    | MemoryPressureFailure | SwapPressureFailure | OomFailure | OwnershipAmbiguity | CleanupFailure
    | UnknownFailure

  datatype Disposition = DiscardCandidate | TerminateCampaign

  function FailureDisposition(kind: FailureKind, cleanupVerified: bool, restoredPreflight: bool): Disposition
    requires kind != UnknownFailure
  {
    if (kind == CandidateSyntax || kind == CandidateStartup) && cleanupVerified && restoredPreflight
    then DiscardCandidate else TerminateCampaign
  }

  // ---------------------------------------------------------------------------
  // Algebra of the gates
  // ---------------------------------------------------------------------------

  lemma {:induction false} ProductConcat(a: seq<real>, b: seq<real>)
    ensures Product(a + b) == Product(a) * Product(b)
  {
    if a == [] {
      assert a + b == b;
    } else {
      assert (a + b)[1..] == a[1..] + b;
      ProductConcat(a[1..], b);
    }
  }

  lemma {:induction false} PowerSum(base: real, m: nat, n: nat)
    ensures Power(base, m + n) == Power(base, m) * Power(base, n)
  {
    if m != 0 {
      PowerSum(base, m - 1, n);
    }
  }

  lemma {:induction false} PowerAtLeastOne(base: real, n: nat)
    requires base >= 1.0
    ensures Power(base, n) >= 1.0
    ensures n > 0 ==> Power(base, n) >= base
  {
    if n != 0 {
      PowerAtLeastOne(base, n - 1);
    }
  }

  lemma {:induction false} PowerOfOne(n: nat)
    ensures Power(1.0, n) == 1.0
  {
    if n != 0 {
      PowerOfOne(n - 1);
    }
  }

  lemma {:induction false} PowerPositive(base: real, n: nat)
    requires base > 0.0
    ensures Power(base, n) > 0.0
  {
    if n != 0 {
      PowerPositive(base, n - 1);
    }
  }

  lemma {:induction false} Scale(factor: real, a: real, b: real)
    requires factor > 0.0 && a <= b
    ensures a * factor <= b * factor
    ensures a < b ==> a * factor < b * factor
  {
    assert (b - a) * factor >= 0.0;
  }

  lemma {:induction false} PowerMonotone(a: real, b: real, n: nat)
    requires 0.0 < a < b
    ensures Power(a, n) <= Power(b, n)
    ensures n > 0 ==> Power(a, n) < Power(b, n)
  {
    if n != 0 {
      PowerMonotone(a, b, n - 1);
      PowerPositive(a, n - 1);
      var x, y := Power(a, n - 1), Power(b, n - 1);
      assert Power(a, n) == a * x && Power(b, n) == b * y;
      Scale(x, a, b);
      Scale(b, x, y);
    }
  }

  /**
   The product form is the geometric mean: if g is the n-th root of the product of the n ratios,
   then the two comparisons with a threshold are comparisons of g itself.
   */
  lemma {:induction false} GeomeanComparisons(ratios: seq<real>, g: real, threshold: real)
    requires ratios != [] && g > 0.0 && threshold > 0.0
    requires Power(g, |ratios|) == Product(ratios)
    ensures GeomeanBelow(ratios, threshold) <==> g < threshold
    ensures GeomeanAbove(ratios, threshold) <==> g > threshold
  {
    if g < threshold {
      PowerMonotone(g, threshold, |ratios|);
    } else if threshold < g {
      PowerMonotone(threshold, g, |ratios|);
    }
  }

  /** Meeting a positive threshold in both pairs meets it in the combined geometric mean. */
  lemma {:induction false} CombinedGeomean(a: seq<real>, b: seq<real>, threshold: real)
    requires threshold > 0.0
    requires !GeomeanBelow(a, threshold) && !GeomeanBelow(b, threshold)
    ensures !GeomeanBelow(a + b, threshold)
  {
    ProductConcat(a, b);
    PowerSum(threshold, |a|, |b|);
    PowerPositive(threshold, |a|);
    PowerPositive(threshold, |b|);
    var pa, pb, qa, qb := Product(a), Product(b), Power(threshold, |a|), Power(threshold, |b|);
    Scale(qa, qb, pb);
    Scale(pb, qa, pa);
  }

  lemma {:induction false} ScreenGeomeanAboveOne(ratios: seq<real>)
    requires ratios != [] && !GeomeanBelow(ratios, SCREEN_GEOMEAN_MIN)
    ensures GeomeanAbove(ratios, PROMOTION_PAIR_GEOMEAN_STRICT_MIN)
  {
    PowerAtLeastOne(SCREEN_GEOMEAN_MIN, |ratios|);
    PowerOfOne(|ratios|);
  }

  /** Two passing screens that confirm one another always promote. */
  lemma {:induction false} PassingScreensPromote(p: Policy, first: Observation, reverse: Observation)
    requires first.WellFormed() && reverse.WellFormed()
    requires ScreenPasses(p, first) && ScreenPasses(p, reverse)
    requires ConfirmationReasons(p, first, reverse) == []
    ensures PromotionPasses(p, first, reverse)
  {
    CombinedGeomean(first.ratios, reverse.ratios, SCREEN_GEOMEAN_MIN);
    ScreenGeomeanAboveOne(first.ratios);
    ScreenGeomeanAboveOne(reverse.ratios);
  }

  /**
   Two passing simplification screens that confirm one another always promote the simplification:
   although either benefit may carry a screen, equal flag bundles leave no way to mix them.
   */
  lemma {:induction false} PassingSimplificationScreensPromote(p: Policy, first: Observation, reverse: Observation)
    requires first.WellFormed() && reverse.WellFormed()
    requires SimplificationScreenPasses(p, first) && SimplificationScreenPasses(p, reverse)
    requires ConfirmationReasons(p, first, reverse) == []
    ensures SimplificationPromotionPasses(p, first, reverse)
  {
    CombinedGeomean(first.ratios, reverse.ratios, SIMPLIFICATION_COMBINED_GEOMEAN_MIN);
    var a, b := first.simplification, reverse.simplification;
    assert a.championFlags == b.championFlags && a.candidateFlags == b.candidateFlags;
  }

  /** A pair whose index is next in the global order always runs its arms the other way round. */
  lemma {:induction false} ConsecutivePairsReverse(pairIndex: int)
    ensures PairOrder(pairIndex) != PairOrder(pairIndex + 1)
    ensures PairOrder(pairIndex + 1) == [PairOrder(pairIndex)[1], PairOrder(pairIndex)[0]]
  {
    assert (pairIndex + 1) % 2 != pairIndex % 2;
  }

  lemma {:induction false} ConsecutivePairsPassGuards(p: Policy, first: Observation, reverse: Observation)
    requires reverse.pairIndex == first.pairIndex + 1
    ensures ConfirmationPairIndexNotConsecutive !in ConfirmationReasons(p, first, reverse)
    ensures ConfirmationOrderNotReversed !in ConfirmationReasons(p, first, reverse)
  {
    ConsecutivePairsReverse(first.pairIndex);
  }

  // ---------------------------------------------------------------------------
  // What the gates compare
  // ---------------------------------------------------------------------------

  predicate IsHazard(g: Gate) {
    g == MemoryPressure || g == SwapPressure || g == Oom || g == OwnershipAmbiguous || g == CleanupBreach
  }

  /** A pair with the frozen cases, no failed eligibility gate and all budgets kept. */
  ghost predicate CleanPair(p: Policy, o: Observation) {
    && o.caseIds == p.primaryCaseIds
    && (forall g: Gate :: g in o.eligibility.raised <==> !IsHazard(g))
    && o.timing.firstCellS <= 1800.0 && o.timing.secondCellS <= 1800.0 && o.timing.pairS <= 3600.0
    && o.timing.cleanupS <= 120.0 && o.timing.reserveS >= 900.0
  }

  predicate NoRegression(o: Observation) {
    (forall r :: r in o.ratios ==> r >= 0.95) && o.ttftRatio <= 1.1
  }

  /** Two pairs in opposite orders over one pair of flag bundles. */
  predicate Confirms(first: Observation, reverse: Observation) {
    && reverse.pairIndex == first.pairIndex + 1
    && reverse.simplification.championFlags == first.simplification.championFlags
    && reverse.simplification.candidateFlags == first.simplification.candidateFlags
  }

  /** A gibibyte more, or a strict subset of the flags. */
  ghost predicate Leaner(o: Observation) {
    o.simplification.gainGib >= 1.0 || FewerFlags(o)
  }

  ghost predicate FewerFlags(o: Observation) {
    && (forall f :: f in o.simplification.candidateFlags ==> f in o.simplification.championFlags)
    && (exists f :: f in o.simplification.championFlags && f !in o.simplification.candidateFlags)
  }

  /** The geometric mean of equal ratios is that ratio. */
  lemma {:induction false} EqualRatios(ratios: seq<real>, r: real, threshold: real)
    requires ratios != [] && r > 0.0 && threshold > 0.0
    requires forall x :: x in ratios ==> x == r
    ensures GeomeanBelow(ratios, threshold) <==> r < threshold
    ensures GeomeanAbove(ratios, threshold) <==> r > threshold
  {
    ProductOfEqual(ratios, r);
    GeomeanComparisons(ratios, r, threshold);
  }

  lemma {:induction false} ProductOfEqual(ratios: seq<real>, r: real)
    requires forall x :: x in ratios ==> x == r
    ensures Product(ratios) == Power(r, |ratios|)
  {
    if ratios != [] {
      assert forall x :: x in ratios[1..] ==> x in ratios;
      assert ratios[0] in ratios;
      ProductOfEqual(ratios[1..], r);
    }
  }

  /** Each budget is reported exactly when its own limit is broken. */
  lemma {:induction false} BudgetsMean(t: Timing)
    ensures CellTimeout in t.FailedBudgets() <==> t.firstCellS > 1800.0 || t.secondCellS > 1800.0
    ensures PairTimeout in t.FailedBudgets() <==> t.pairS > 3600.0
    ensures CleanupTimeout in t.FailedBudgets() <==> t.cleanupS > 120.0
    ensures AuditReserve in t.FailedBudgets() <==> t.reserveS < 900.0
    ensures t.FailedBudgets() == [] <==> t.firstCellS <= 1800.0 && t.secondCellS <= 1800.0 && t.pairS <= 3600.0
                                         && t.cleanupS <= 120.0 && t.reserveS >= 900.0
  {
  }

  lemma {:induction false} SelectMeans(e: Eligibility, gates: seq<Gate>, flag: bool, g: Gate)
    ensures g in e.Select(gates, flag) <==> g in gates && (g in e.raised) == flag
  {
    if gates != [] {
      SelectMeans(e, gates[1..], flag, g);
      assert gates == [gates[0]] + gates[1..];
    }
  }

  /** A gate fails exactly when it is a hazard that was raised or a requirement that was not. */
  lemma {:induction false} GatesMean(e: Eligibility)
    ensures forall g: Gate :: g in e.FailedGates() <==> (g in e.raised <==> IsHazard(g))
    ensures e.FailedGates() == [] <==> forall g: Gate :: g in e.raised <==> !IsHazard(g)
  {
    forall g: Gate
      ensures g in e.FailedGates() <==> (g in e.raised <==> IsHazard(g))
    {
      SelectMeans(e, POSITIVE_GATES, false, g);
      SelectMeans(e, HAZARD_GATES, true, g);
    }
    if e.FailedGates() != [] {
      assert e.FailedGates()[0] in e.FailedGates();
    }
  }

  /** Each reason of a pair is given exactly when its own check fails. */
  lemma {:induction false} PairReasonsMean(p: Policy, o: Observation)
    ensures PrimaryCasesMismatch in PairReasons(p, o) <==> o.caseIds != p.primaryCaseIds
    ensures forall g :: Ineligible(g) in PairReasons(p, o) <==> g in o.eligibility.FailedGates()
    ensures forall b :: OverBudget(b) in PairReasons(p, o) <==> b in o.timing.FailedBudgets()
    ensures PairReasons(p, o) == [] <==> CleanPair(p, o)
  {
    GatesMean(o.eligibility);
    BudgetsMean(o.timing);
    hide Eligibility.FailedGates, Timing.FailedBudgets;
    var gates, budgets := o.eligibility.FailedGates(), o.timing.FailedBudgets();
    forall g
      ensures Ineligible(g) in IneligibleReasons(gates) <==> g in gates
    {
      if k :| 0 <= k < |gates| && gates[k] == g {
        assert IneligibleReasons(gates)[k] == Ineligible(g);
      }
    }
    forall b
      ensures OverBudget(b) in BudgetReasons(budgets) <==> b in budgets
    {
      if k :| 0 <= k < |budgets| && budgets[k] == b {
        assert BudgetReasons(budgets)[k] == OverBudget(b);
      }
    }
    assert |IneligibleReasons(gates)| == |gates| && |BudgetReasons(budgets)| == |budgets|;
  }

  lemma {:induction false} GuardrailsMean(o: Observation, ratioReason: Reason, ttftReason: Reason)
    ensures GuardrailReasons(o, ratioReason, ttftReason) == [] <==> NoRegression(o)
  {
  }

  /** A pair passes the screen exactly if it is clean, three per cent faster and without regression. */
  lemma {:induction false} ScreenMeans(p: Policy, o: Observation)
    ensures ScreenPasses(p, o) <==> CleanPair(p, o) && NoRegression(o) && Product(o.ratios) >= Power(1.03, |o.ratios|)
  {
    hide PairReasons, CleanPair, GuardrailReasons, NoRegression, Product, Power;
    PairReasonsMean(p, o);
    GuardrailsMean(o, RatioBelowScreenFloor, TtftAboveScreenCeiling);
  }

  lemma {:induction false} ConfirmationMeans(p: Policy, first: Observation, reverse: Observation)
    ensures ConfirmationReasons(p, first, reverse) == [] <==>
            CleanPair(p, first) && CleanPair(p, reverse) && Confirms(first, reverse)
  {
    PairReasonsMean(p, first);
    PairReasonsMean(p, reverse);
    ConsecutivePairsReverse(first.pairIndex);
    assert CleanPair(p, first) && CleanPair(p, reverse) ==> first.caseIds == reverse.caseIds;
    hide PairReasons, CleanPair;
  }

  lemma {:induction false} PromotionParts(p: Policy, first: Observation, reverse: Observation)
    ensures PromotionPasses(p, first, reverse) <==>
            && ConfirmationReasons(p, first, reverse) == [] && ScreenPasses(p, first)
            && GuardrailReasons(reverse, ReverseRatioBelowScreenFloor, ReverseTtftAboveScreenCeiling) == []
            && GeomeanAbove(first.ratios, 1.0) && GeomeanAbove(reverse.ratios, 1.0)
            && !GeomeanBelow(first.ratios + reverse.ratios, 1.03)
  {
    hide ConfirmationReasons, ScreenPasses, GuardrailReasons, GeomeanAbove, GeomeanBelow;
  }

  /**
   Two pairs promote exactly if they are clean and confirm one another, the first passes the screen, the second shows
   no regression, each is faster and together they are three per cent faster.
   */
  lemma {:induction false} PromotionMeans(p: Policy, first: Observation, reverse: Observation)
    ensures PromotionPasses(p, first, reverse) <==>
            && CleanPair(p, first) && CleanPair(p, reverse) && Confirms(first, reverse)
            && NoRegression(first) && NoRegression(reverse)
            && Product(first.ratios) >= Power(1.03, |first.ratios|) && Product(first.ratios) > 1.0 && Product(reverse.ratios) > 1.0
            && Product(first.ratios + reverse.ratios) >= Power(1.03, |first.ratios| + |reverse.ratios|)
  {
    hide PromotionPasses, ConfirmationReasons, ScreenPasses, CleanPair, Confirms, GuardrailReasons, NoRegression, Product, Power;
    PromotionParts(p, first, reverse);
    ConfirmationMeans(p, first, reverse);
    ScreenMeans(p, first);
    PowerOfOne(|first.ratios|);
    PowerOfOne(|reverse.ratios|);
    GuardrailsMean(reverse, ReverseRatioBelowScreenFloor, ReverseTtftAboveScreenCeiling);
  }

  /** A simplification may cost one per cent of speed if it saves memory or flags. */
  lemma {:induction false} SimplificationScreenMeans(p: Policy, o: Observation)
    ensures SimplificationScreenPasses(p, o) <==>
            CleanPair(p, o) && NoRegression(o) && Product(o.ratios) >= Power(0.99, |o.ratios|) && Leaner(o)
  {
    hide PairReasons, CleanPair, Simplification.StrictlySimpler, FewerFlags, GuardrailReasons, NoRegression, Product, Power;
    PairReasonsMean(p, o);
    SimplerMeans(o);
    GuardrailsMean(o, RatioBelowScreenFloor, TtftAboveScreenCeiling);
  }

  lemma {:induction false} SimplerMeans(o: Observation)
    ensures o.simplification.StrictlySimpler() <==> FewerFlags(o)
  {
    var a, b := set f | f in o.simplification.candidateFlags, set f | f in o.simplification.championFlags;
    assert forall f :: (f in a <==> f in o.simplification.candidateFlags) && (f in b <==> f in o.simplification.championFlags);
    if a < b {
      var f :| f in b && f !in a;
    } else if a <= b {
      assert b <= a;
    }
  }

  /** A simplification is promoted exactly if both pairs are clean, confirm one another, cost no more than that and save the same. */
  lemma {:induction false} SimplificationPromotionMeans(p: Policy, first: Observation, reverse: Observation)
    ensures SimplificationPromotionPasses(p, first, reverse) <==>
            && CleanPair(p, first) && CleanPair(p, reverse) && Confirms(first, reverse)
            && NoRegression(first) && NoRegression(reverse)
            && Product(first.ratios + reverse.ratios) >= Power(0.99, |first.ratios| + |reverse.ratios|)
            && ((first.simplification.gainGib >= 1.0 && reverse.simplification.gainGib >= 1.0)
                || (FewerFlags(first) && FewerFlags(reverse)))
  {
    hide ConfirmationReasons, CleanPair, Confirms, Simplification.StrictlySimpler, FewerFlags;
    hide GuardrailReasons, NoRegression, Product, Power;
    ConfirmationMeans(p, first, reverse);
    SimplerMeans(first);
    SimplerMeans(reverse);
    GuardrailsMean(first, FirstRatioBelowScreenFloor, FirstTtftAboveScreenCeiling);
    GuardrailsMean(reverse, ReverseRatioBelowScreenFloor, ReverseTtftAboveScreenCeiling);
  }

  /** The controls calibrate exactly if the pair is clean and every ratio lies in its band around one. */
  lemma {:induction false} CalibrationMeans(p: Policy, o: Observation)
    ensures CalibrationPasses(p, o) <==>
            && CleanPair(p, o)
            && Power(0.97, |o.ratios|) <= Product(o.ratios) <= Power(1.03, |o.ratios|)
            && (forall r :: r in o.ratios ==> 0.95 <= r <= 1.05)
            && 0.9 <= o.ttftRatio <= 1.1
  {
    hide PairReasons, CleanPair;
    PairReasonsMean(p, o);
  }
}
