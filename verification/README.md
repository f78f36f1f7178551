# Autoresearch campaign controller: a verified model

The repository benchmarks local inference servers. Its autoresearch controller compares candidate configurations with a
champion in paired measurements, scores every pair, and rejects, confirms or promotes each candidate. It is a
crash-tolerant, append-only protocol: every step is a durable record, and after a crash the controller is simply invoked
again. The same facts are computed in several independent places (the controller and the replay of its journal, live and
historical admission targets, the lifecycle probe and the supervisor, the admission constant and the enforced deadlines).
This project models those places in Dafny and proves that they agree, over every run, every crash and every behaviour of
the environment. `dafny verify dfyconfig.toml` checks everything.

## Main results

- **Driver soundness and crash safety** (`Controller.dfy`, over `Steps`, `Progress`, `Coverage`, `Durable`, `Ledger`,
  `Script`). An invocation may die between any two durable writes, and in the middle of a cell. Whatever happened before,
  each transition it appends is accepted by replay, nothing durable is rewritten, and it launches at most the two cells of
  one pair, in their frozen order, and only cells that were pristine. Its own consistency checks never fail: it refuses to
  continue only over admission time stamps, malformed host readings, or a recovery failure after the end.
- **Decisions** (`Verdicts.dfy`). A completed campaign promotes exactly the first proposal of its queue whose two scored
  pairs pass the gates of one mode, after every earlier one failed a gate (`Controller.CompletedCampaignPromotes`). The
  gates, the scores and the pairs that have one are characterised by the measurements themselves (`Gates.PromotionMeans`
  and its siblings, `Scoring.ObservationMeans`, `Script.PairResultMeans`).
- **Attestation** (`Attestation.dfy`). The raw-attested replay accepts exactly the journals whose every distinct transition
  follows the queue and repeats what the raw cells of its pair say: a changed score, a skipped proposal or a cell that
  did not finish is refused.
- **Authority** (`Authority.dfy`). Every cell ever launched belongs to the pair of an admission taken before its launch,
  whose recorded readings met all four limits; no candidate is touched before the controls calibrated.
- **Confluence.** Two controllers of one frozen campaign over the same cell results that reach completion hold the same
  transitions and decisions, wherever they crashed.
- **Progress.** An invocation that is not stopped leaves strictly less to do; n proposals take at most 1 + 2n invocations,
  and checkpoint sequences count completed pairs and stay within 1 + 2n.
- **Every stop has a cause** (`Setbacks.dfy`). Given the durable writes of one invocation (24), a controller that pauses or
  ends a campaign in failure does so only because of a disturbance in that invocation, a torn cell, a blocked admission, a
  started pair whose results cannot pass, or a second cell out of its gap. Without those, and without the refusals above,
  the campaign is completed. In a favourable world (`Controller.Controller.RunUnhindered`) only a second cell that came
  too late by the clock is left. Every frozen campaign has results that pass (`Setbacks.SomeResultsPass`).
- **Accepted-history grammar** (`History.dfy`). Replay accepts exactly the journals of a small grammar: a start, candidate
  blocks, at most one open candidate, at most one ending. Promotions follow two pairs in reversed orders; three guards of
  the protocol are unreachable. Replay is an idempotent prefix-closed fold (`Replay.dfy`).
- **Admission provenance** (`Provenance.dfy`, `Coverage.dfy`). The live and the historical admission target both name the
  pair that the history is about to run. See the first finding below for when the coverage check fails.
- **Admission chain and file** (`Admission.dfy`), **checkpoint double collect and gate** (`Checkpoint.dfy`),
  **incremental reading equals one-shot reading, of exactly the lawful journals** (`Probe.dfy`), **a bounded supervised
  wait that leaves a healthy cell alone** (`Wait.dfy`), **exact admission budget** (`Budget.dfy`), **worker ownership
  under PID reuse** (`Worker.dfy`), **gate algebra** (`Gates.dfy`, `Scoring.dfy`), **tool-loop conservation and exactly
  the episodes that pass** (`ToolLoop.dfy`) and **audit partition** (`Audit.dfy`).

## Where the code does not have the property

- *Provenance of a controller's own history.* The controller journal stamps whole milliseconds, admissions keep
  microseconds. A pair that starts in the millisecond of its admission can carry an earlier stamp than the admission, and
  every later invocation then refuses the journal. `Refusal.SameMillisecondIsRefused` gives the exact condition and
  a store of the controller's own writes at which it strikes, in any frozen campaign, and `Refusal.HalfPastOneIsRefused`
  one campaign and one time of day. On a clock that moves a millisecond between two looks, over cells that do not misdate
  their starts, it never happens (`Controller.Controller.HonestRunsAreTimely`).
- *A promoted pair cannot promote in reverse.* True of speed promotions (`Scoring.PromotionIsAntisymmetric`). A
  simplification promotion can be reversed exactly if it trades memory against flags and its speed ratios and first-token
  times did not improve by more than the gates tolerate as a loss (`Scoring.SimplificationReverses`). One trade that
  reverses is `Scoring.EvenTradeReverses`, one that does not `Scoring.FastTradeDoesNotReverse`.
- *A double collect is a snapshot.* Only if no input returns to an earlier value (`Checkpoint.DoubleCollectIsSnapshot`);
  without that it is not (`Checkpoint.FlippingInputsPass`).
- *Next pair in the gap.* The second cell of a pair is refused by the frozen replay exactly when the durable gap to the
  first is out of bounds (`Ledger.AppendDriven`, `Steps.RefusalIsGap`), and the campaign then ends in a measurement failure.

## Assumptions

- SHA-256 of canonical JSON is injective: a digest is represented by what it digests. JSON text itself is an injective
  codec whose lines hold no raw newline or carriage return (section 7 of RFC 8259).
- `Journal` in `bench/journal.py` is not part of this model; it is an atomic append that reads back what was written and
  stamps each record with the instant truncated to the millisecond. Every other durable write is atomic as well.
- One clock that never goes back; instants are whole microseconds. Controller bookkeeping takes no time, or an explicit
  `lag` (`Wait`) or `slack` (`Budget`).
- Arithmetic is exact, over `int` and `real`. A geometric mean of n ratios is compared with t as a product with t to the
  n-th power; `Gates.GeomeanComparisons` proves that this is the same comparison.
- The environment (cells, clock, host readings, gates, recovery, operating system, model replies, outside changes) is an
  arbitrary function, constrained only where a contract says so.

## Structure

| module | models |
|---|---|
| `Common` | identifiers, digests as text, journal time stamps |
| `Gates` | observations, thresholds, every `evaluate_*` gate, `failure_disposition` of `bench/autoresearch.py` |
| `Scoring` | `observation_from_cells`, and how gates react to exchanging order or roles |
| `Replay` | `Apply`, one unseen event of `replay_transitions`; the fold over records; `append_transition` |
| `History` | the grammar of accepted histories, independent of the replay machine |
| `Campaign` | the frozen campaign, `_replay_frozen_campaign` (`FrozenStep`, `FrozenFold`), durable reserve and score |
| `Attestation` | which journals the raw-attested replay accepts |
| `Script` | the canonical outcome as a function of the cell results; what the controller may append (`Driven`) |
| `Ledger` | a journal on track: distinct, bound, replayed and attested; appending keeps it |
| `Provenance` | decisions, live and historical targets, target history and coverage checks |
| `Durable` | calibration record, raw topology, the whole durable state `Kept`, and its four kinds of write |
| `Environment` | what the outside world may answer |
| `Steps`, `Progress`, `Coverage` | what the replayed state means, what is left to do, which checks can fail |
| `Setbacks` | what may stop an invocation short or end the campaign in failure |
| `Verdicts` | what is decided, by the gates alone |
| `Authority` | the admission under which each cell is launched |
| `Refusal` | a store whose next pair start is refused over its time stamp |
| `Controller` | the class with `RunCampaign` and everything it calls |
| `Framing`, `Admission` | newline framing; admission decisions, the digest chain and its file |
| `Probe`, `Wait`, `Budget`, `Worker` | supervision of one cell |
| `Checkpoint` | acknowledgement mapping, journal prefix, double collect, gate |
| `ToolLoop`, `Audit` | the bounded tool loop and the run-journal auditor |

Every lemma carries `{:induction false}`: each induction is written out in its body.

## Model

| member | source | states |
|---|---|---|
| `Gates.GeomeanComparisons` | bench/autoresearch.py:731-741 | comparing the product with a power of the threshold is comparing the geometric mean, in both directions |
| `Gates.CombinedGeomean` | bench/autoresearch.py:812-832 | two pairs at or above a threshold stay there combined |
| `Gates.PassingScreensPromote` | bench/autoresearch.py:778-832 | two passing screens with no confirmation reason always pass promotion |
| `Gates.PassingSimplificationScreensPromote` | bench/autoresearch.py:835-886 | likewise for simplification, since equal flag bundles leave no way to mix the two benefits |
| `Gates.ConsecutivePairsReverse` | bench/autoresearch.py:744-750 | consecutive pairs run in opposite orders |
| `Gates.ConsecutivePairsPassGuards` | bench/autoresearch.py:789-809 | consecutive observations never trip the consecutive-index and reversed-order guards |
| `Gates.EqualRatios` | bench/autoresearch.py:731-741 | the mean of equal ratios is that ratio, in both comparisons with a threshold |
| `Gates.BudgetsMean` | bench/autoresearch.py:618-628 | each budget is reported exactly when its own limit is broken: 1800 s a cell, 3600 s a pair, 120 s of cleanup, 900 s of reserve |
| `Gates.GatesMean` | bench/autoresearch.py:459-467 | a gate fails exactly if it is a raised hazard or a requirement that is not met |
| `Gates.PairReasonsMean` | bench/autoresearch.py:753-761 | each reason of a pair is given exactly when its own check fails; none if and only if the pair is clean |
| `Gates.ScreenMeans` | bench/autoresearch.py:764-786 | the screen passes if and only if the pair is clean, three per cent faster on geometric mean, no case below 0.95 and the first token no later than 1.10 |
| `Gates.PromotionMeans` | bench/autoresearch.py:789-832 | promotion passes if and only if two clean pairs in opposite orders over the same flags show no regression, the first passes the screen, each is faster and together they are three per cent faster |
| `Gates.SimplificationScreenMeans` | bench/autoresearch.py:835-850 | a simplification screen passes if and only if the pair is clean, costs at most one per cent, regresses nowhere, and saves a gibibyte or a strict subset of the flags |
| `Gates.SimplificationPromotionMeans` | bench/autoresearch.py:853-886 | and its promotion if and only if two such pairs confirm one another and save the same thing twice |
| `Gates.CalibrationMeans` | bench/autoresearch.py:889-907 | the controls calibrate if and only if the pair is clean and mean, ratios and first token lie in their bands around one |
| `Scoring.ObservationWellFormed` | bench/autoresearch_campaign.py:2218-2291 | an observation built from two projected cells is well formed, passes every eligibility gate, and can only fail on its timing budgets |
| `Scoring.FindMeans` | bench/autoresearch_campaign.py:322-332 | a projection has a measurement of a case if and only if exactly one of its measurements is of that case |
| `Scoring.RatiosMean` | bench/autoresearch_campaign.py:2228-2241 | there are ratios if and only if every case is measured once on both sides in the same known direction; above one means that the candidate is faster, by the time for lower-is-better cases and by the rate for higher-is-better ones, and later with its first token |
| `Scoring.MedianMeans` | bench/autoresearch_campaign.py:2256 | the median is the middle of a sorted permutation, or the mean of its two middle values |
| `Scoring.ObservationMeans` | bench/autoresearch_campaign.py:2218-2291 | an observation says of each case, the first token, each cell's time in execution order, cleanup, reserve, memory and flags exactly what the two cells measured |
| `Scoring.OrderDoesNotMatter` | bench/autoresearch_campaign.py:2228-2264 | screen, simplification and calibration verdicts do not depend on which arm ran first |
| `Scoring.SwapInvertsRatios` | bench/autoresearch_campaign.py:2228-2264 | exchanging champion and candidate inverts every speed and first-token ratio |
| `Scoring.PromotionIsAntisymmetric` | bench/autoresearch.py:812-832 | a pair of pairs that promotes the candidate cannot promote the champion when the roles are exchanged |
| `Scoring.SimplificationReverses` | bench/autoresearch.py:853-886 | a simplification promotion also promotes in reverse if and only if it trades memory against flags, its ratios are within the inverse floors, together and one by one, and the swapped first-token medians within their ceilings |
| `Scoring.EvenTradeReverses` | bench/autoresearch.py:853-886 | two concrete cells of equal speed, two gibibytes against one flag, promote in both directions |
| `Scoring.FastTradeDoesNotReverse` | bench/autoresearch.py:853-886 | the same trade at twice the speed promotes in one direction only |
| `Scoring.EqualCellsCalibrate` | bench/autoresearch.py:889-907 | two cells with equal measurements calibrate if and only if they keep their timing budgets |
| `Replay.ReplayTransitions` | bench/autoresearch.py:1049-1309 | the loop computes the fold of the transition function over unseen records, with the same rejections |
| `Replay.ReplayConcat` | bench/autoresearch.py:1049-1087 | replay of a concatenation continues from the state of its first part |
| `Replay.PrefixesAreAccepted` | bench/autoresearch.py:1049-1087 | every prefix of an accepted journal is accepted |
| `Replay.SeenRecords` | bench/autoresearch.py:1069-1087 | the seen transitions are exactly those of the records |
| `Replay.RepeatsChangeNothing` | bench/autoresearch.py:1069-1087 | a later copy of a seen transition, anywhere and with any valid time stamp, does not change the result of replay |
| `Replay.TerminalAbsorbs` | bench/autoresearch.py:1083-1087 | after the end only repeats are accepted and the state stays |
| `Replay.ReplayRunsUnseenEvents` | bench/autoresearch.py:1049-1309 | replay accepts exactly the consistent journals whose distinct events run through the machine, to the same state |
| `Replay.FailuresAreSorted` | bench/autoresearch.py:931-950 | an accepted run discards a candidate exactly over its own syntax or start on a verifiably clean host, and ends the campaign over every other failure |
| `Replay.Journal.AppendTransition` | bench/autoresearch.py:1312-1342 | success if and only if replay accepts the longer journal; a retry leaves the journal alone; a rejection changes nothing |
| `History.ExtendHistory` | bench/autoresearch.py:1086-1289 | each accepted event extends a history of the grammar by exactly that event and moves its state as the machine does |
| `History.AcceptedIsHistory` | bench/autoresearch.py:1049-1309 | every accepted event sequence renders a valid history, and its state is that history's |
| `History.HistoryIsAccepted` | bench/autoresearch.py:1049-1309 | every valid history is accepted, with its state |
| `History.AcceptedExactly` | bench/autoresearch.py:1049-1309 | replay accepts exactly the histories of the grammar |
| `History.AcceptedJournals` | bench/autoresearch.py:1049-1309 | the same for journals with repeats |
| `History.PromotionFollowsReversedPairs` | bench/autoresearch.py:1100-1240 | a promotion of either kind is preceded by exactly candidate start, pair n with both cells and score, the confirmation of that kind, pair n + 1 in reversed order and its score, all of one candidate, and both gates of that kind pass |
| `History.ConfirmationGuardsAreUnreachable` | bench/autoresearch.py:1176-1240 | no accepted journal leads to a third observation, a non-consecutive or a non-reversed confirmation |
| `History.PairIndexCountsScores` | bench/autoresearch.py:1198-1201 | the next pair index counts the accepted scores |
| `Campaign.ReplayFrozenCampaign` | bench/autoresearch_campaign.py:3168-3293 | the frozen replay loop computes its fold over the deduplicated records |
| `Campaign.FoldIgnoresNewCells` | bench/autoresearch_campaign.py:3168-3293 | writing further cell journals never changes what the frozen replay of a journal says |
| `Campaign.ReserveMeans` | bench/autoresearch_campaign.py:3152-3165 | the durable reserve is the time from the later of the two completions to the cutoff, never negative |
| `Attestation.AttestedExactly` | bench/autoresearch_campaign.py:3168-3293 | the raw-attested replay accepts exactly the structurally valid journals whose distinct transitions are bound to the freeze, take the proposals in queue order with at most two pairs each, complete only cells that finished on disk and within the gap, and carry the score of those very cells |
| `Script.PairResultMeans` | bench/autoresearch_campaign.py:3718-3770 | a pair has a score if and only if both cells finished, the second started within 120 s after the first stopped and every case can be compared; even pairs run the champion first, and the score says what the cells measured |
| `Script.FinishedHistoriesAgree` | bench/autoresearch_campaign.py:5064-5227 | two finished histories that follow the same cell results are equal |
| `Script.ResultIsSound` | bench/autoresearch_campaign.py:2218-2291 | an observation that results dictate is well formed, carries its pair index and fails at most on timing |
| `Script.DrivenFits` | bench/autoresearch_campaign.py:5064-5227 | the controller's next event fits the grammar of accepted histories |
| `Script.DrivenIsAccepted` | bench/autoresearch_campaign.py:5052-5236 | replay accepts whatever the controller appends next, from every history on track |
| `Script.DrivenStaysOnTrack` | bench/autoresearch_campaign.py:5064-5227 | and the history then still does exactly what the cell results dictate |
| `Ledger.DrivenIsFresh` | bench/autoresearch_campaign.py:3105-3127 | the next event has never been recorded, so its bound identity is new |
| `Ledger.IndexStep` | bench/autoresearch_campaign.py:3192-3291 | the frozen replay accepts the next event, except a second cell across a broken gap |
| `Ledger.AppendDriven` | bench/autoresearch_campaign.py:3305-3322 | the frozen replay of the longer journal fails exactly across a broken gap; otherwise the campaign stays sound |
| `Ledger.SoundReplays` | bench/autoresearch_campaign.py:3168-3293 | the journal of a sound campaign always passes the raw-attested frozen replay |
| `Ledger.SoundWithMoreCells` | bench/autoresearch_campaign.py:3168-3293 | launching further cells keeps a campaign sound |
| `Provenance.CandidateDecisions` | bench/autoresearch_campaign.py:3592-3602 | the loop keeps the last decision of each candidate |
| `Provenance.HistoryDecisions` | bench/autoresearch_campaign.py:3592-3602 | decisions name exactly the closed proposals; a promotion is recorded if and only if the last block promotes; all are rejected if and only if the queue is used up without one |
| `Provenance.LiveTargetIs` | bench/autoresearch_campaign.py:2363-2444 | the live target is the pair that the history is about to run |
| `Provenance.HistoricalTargetIs` | bench/autoresearch_campaign.py:2522-2580 | so is the target found again from a journal prefix |
| `Provenance.TargetsAgree` | bench/autoresearch_campaign.py:2363-2580 | the two agree on every prefix |
| `Provenance.StartsMatchTarget` | bench/autoresearch_campaign.py:2363-2444 | a pair start is for the admitted target, and starting a candidate does not change the target |
| `Provenance.FoldWithoutRaw` | bench/autoresearch_campaign.py:3296-3302 | what the raw-attested replay accepts, the structural one accepts, with the same index |
| `Provenance.ValidateTargetHistory` | bench/autoresearch_campaign.py:2583-2629 | true exactly when every admission is for its prefix's target and calibration comes first |
| `Provenance.ValidateStartsCovered` | bench/autoresearch_campaign.py:2700-2733 | true exactly when each pair start has an admitted record for its pair, earlier in the journal and no later in time |
| `Provenance.AttributedPassesChecks` | bench/autoresearch_campaign.py:2583-2733 | what the controller keeps passes the target check, and the coverage check fails only when a start is stamped before all its admissions |
| `Provenance.StampPrecedesAdmission` | bench/autoresearch_campaign.py:2717-2727 | a start at or after its admission is stamped before it exactly when both fall inside one millisecond |
| `Durable.KeepAppend` | bench/autoresearch_campaign.py:3305-3322 | a permitted next transition keeps everything the controller maintains on disk |
| `Durable.KeepCell` | bench/autoresearch_campaign.py:2867-2976 | so does any outcome of launching a launchable cell |
| `Durable.KeepCalibration` | bench/autoresearch_campaign.py:3400-3469 | so does recording the recomputed calibration |
| `Durable.KeepAdmission` | bench/autoresearch_campaign.py:2447-2507 | so does an admission for the current target |
| `Durable.FreshPairIsPristine` | bench/autoresearch_campaign.py:3684-3694 | before a pair starts neither of its cells exists |
| `Durable.OccurrencesAreStarts` | bench/autoresearch_campaign.py:3235-3241 | the frozen index counts pair starts, at most two per candidate |
| `Durable.DrivenIsNoRepeat` | bench/autoresearch_campaign.py:3105-3127 | a new transition is never mistaken for a retry |
| `Steps.RefusalIsGap` | bench/autoresearch_campaign.py:3305-3322 | the pre-append replay refuses exactly a second cell across a broken gap |
| `Steps.RawScoreIsResult` | bench/autoresearch_campaign.py:3762-3770 | the score computed from disk is the one the results dictate |
| `Steps.ScoreIsDriven` | bench/autoresearch_campaign.py:3762-3784 | and it is the next event |
| `Steps.DecisionIsDriven` | bench/autoresearch_campaign.py:5133-5190 | the decision read off the gates is the next event |
| `Verdicts.VerdictIsGates` | bench/autoresearch_campaign.py:5133-5190 | a decision on a scored candidate is the controller's if and only if the gates call for it: promotion of either kind exactly if both pairs pass the gate of its mode, confirmation of either kind exactly if its screen passes, simplification first and only on the reasoning axis, and rejection otherwise |
| `Verdicts.BlocksByGates` | bench/autoresearch_campaign.py:5064-5190 | each closed candidate was promoted, confirmed or rejected by the gates on the scores of its own pairs, and all but the last were rejected |
| `Verdicts.FirstWinnerIsPromoted` | bench/autoresearch_campaign.py:5064-5227 | a finished campaign promotes exactly the first proposal of its queue whose two scored pairs pass the gates, after every earlier one failed a gate |
| `Steps.RecordStands` | bench/autoresearch_campaign.py:3472-3496 | a calibration record always recomputes from its controls |
| `Setbacks.SearchIsCalibrated` | bench/autoresearch_campaign.py:3435-3496 | no candidate is touched before both controls finished, ran together and calibrated within every band |
| `Progress.OnlyTimingIsIneligible` | bench/autoresearch_campaign.py:3605-3628 | a scored pair is ineligible exactly when a timing budget failed, as a measurement failure |
| `Progress.IneligibilityMeans` | bench/autoresearch_campaign.py:3605-3628 | the failure recorded for an ineligible pair is the first hazard or missing requirement in causal order |
| `Progress.CutoffMeansOnlyTime` | bench/autoresearch_campaign.py:2510-2519 | a blocked admission ends as a cutoff if and only if time was all that was missing |
| `Progress.BlockedKindMeans` | bench/autoresearch_campaign.py:2510-2519 | a blocked admission is recorded by its readings: a changed harness first, then swap, memory and time |
| `Progress.GateMeansFreshPair` | bench/autoresearch_campaign.py:4005-4029 | the checkpoint gate is consulted exactly when a pair is about to start right after a completed one |
| `Progress.AfterDecision` | bench/autoresearch_campaign.py:5191-5223 | a decision leaves less to do; it promotes, or all proposals are rejected, if and only if nothing is left to try |
| `Progress.NextCandidate` | bench/autoresearch_campaign.py:5064-5100 | the decisions in the journal pick the next proposal of the queue, or none exactly when it is exhausted |
| `Progress.NextTargetIs` | bench/autoresearch_campaign.py:2363-2444 | choosing a target never fails on what the controller keeps |
| `Progress.SequenceCountsPairs` | bench/autoresearch_campaign.py:3994-4002 | the checkpoint sequence is one more than the number of scores, so each score raises it by one |
| `Progress.SequenceIsBounded` | bench/autoresearch_checkpoint.py:30 | it never exceeds 1 + 2n for n proposals: seven for three |
| `Coverage.ChecksOfKept` | bench/autoresearch_campaign.py:2736-2759 | of the admission checks only the time comparisons can fail |
| `Coverage.KeptIsAttested` | bench/autoresearch_campaign.py:4889-4940 | replay, artifact admission and raw order always pass on what the controller keeps |
| `Coverage.PairStartCovered` | bench/autoresearch_campaign.py:2700-2733 | a pair start is covered if and only if some admission of its pair was observed no later than the start's truncated stamp |
| `Coverage.LaterStartCovered` | bench/autoresearch_campaign.py:2717-2733 | a pair start at or after its only admission is refused exactly if both fall into one millisecond and the admission is inside it |
| `Refusal.SameMillisecondIsRefused` | bench/autoresearch_campaign.py:2700-2733 | any frozen campaign with time and room reaches, by the controller's own writes and with every check passing, a store whose next pair start is refused under exactly that condition |
| `Refusal.HalfPastOneIsRefused` | bench/autoresearch_campaign.py:2717-2733 | in one campaign, a pair admitted 500 microseconds past half past one is refused when it starts 200 later, and accepted when it starts 500 later |
| `Coverage.PunctualAppend` | bench/autoresearch_campaign.py:2700-2733 | on a clock that moves a millisecond between looks every start stays covered |
| `Coverage.ControlStartCovered` | bench/autoresearch_campaign.py:2648-2676 | a further control keeps the controls covered if and only if its journal names a start and some admitted calibration was observed no later |
| `Coverage.LaunchedControlIsTimely` | bench/autoresearch_campaign.py:2648-2676 | a control launched a millisecond after its admission, and starting no earlier than the millisecond of its launch, is covered |
| `Setbacks.SecondArmFails` | bench/autoresearch_campaign.py:3718-3736 | a first cell over its budgets, or a second one on disk out of its gap, belongs to a pair whose results cannot pass |
| `Setbacks.UnscoredFails` | bench/autoresearch_campaign.py:3762-3784 | so does a fully indexed pair without a score |
| `Setbacks.IneligibleFails` | bench/autoresearch_campaign.py:3605-3628 | so does a scored pair that may not be decided |
| `Setbacks.ControlTrouble` | bench/autoresearch_campaign.py:3509-3525 | a recorded calibration that failed recomputes to a failure from the controls' results; controls cannot be projected only if one is torn |
| `Setbacks.WaitingIsPristine` | bench/autoresearch_campaign.py:3684-3694 | the refusal to start a pair over existing cells is unreachable |
| `Setbacks.PrefixExists` | bench/autoresearch_campaign.py:3787-3819 | the cells of a running pair always lie on disk in order |
| `Setbacks.SetbackExplains` | bench/autoresearch_campaign.py:5228-5235 | what set an attempt back explains the failure that is then recorded |
| `Controller.Controller.constructor` | bench/autoresearch_campaign.py:4830-4870 | a new campaign satisfies the invariant |
| `Controller.Controller.AppendFrozenTransition` | bench/autoresearch_campaign.py:3305-3322 | exactly one bound, stamped record more, or nothing; refused only across a broken gap |
| `Controller.Controller.AppendCampaignStarted` | bench/autoresearch_campaign.py:3341-3356 | a started campaign is left alone, a new one gets its start |
| `Controller.Controller.AppendTerminal` | bench/autoresearch_campaign.py:3359-3379 | the campaign ends by exactly the given failure; one that was over is left alone |
| `Controller.Controller.ReadAdmissions` | bench/autoresearch_campaign.py:2736-2759 | reading succeeds if and only if no execution is stamped before all its admissions |
| `Controller.Controller.ValidateSearchArtifacts` | bench/autoresearch_campaign.py:3069-3102 | the exact verdict: too many pair starts, a raw cell without a started pair, or fine |
| `Controller.Controller.RawSearchPrefix` | bench/autoresearch_campaign.py:3787-3819 | the raw arms are exactly the returned prefix of the missing ones; an error means that no prefix fits |
| `Controller.Controller.ReconcileRawSearchPrefix` | bench/autoresearch_campaign.py:3822-3862 | indexes exactly the raw prefix and changes nothing else |
| `Controller.Controller.WriteCalibration` | bench/autoresearch_campaign.py:3400-3469 | a passing record, a recorded failure, or nothing |
| `Controller.Controller.ReconcileRawCalibration` | bench/autoresearch_campaign.py:3509-3525 | writes a missing record from two complete controls, otherwise nothing |
| `Controller.Controller.Launch` | bench/autoresearch_campaign.py:2867-2976 | only the launched cell's journal can appear; success means it is finished; a failure is the launch's own or the torn journal's |
| `Controller.Controller.WithinGap` | bench/autoresearch_campaign.py:3718-3736 | the second arm may run if and only if the first kept its budgets and stopped at most 120 s before the second's recorded start, or before now |
| `Controller.Controller.RunArm` | bench/autoresearch_campaign.py:3704-3760 | indexes exactly the next arm, and launches the second one only at an instant at which it was in time |
| `Controller.Controller.RunCalibration` | bench/autoresearch_campaign.py:3528-3589 | launches at most the pristine controls in order; success means a passing record |
| `Controller.Controller.RunSearchPair` | bench/autoresearch_campaign.py:3676-3784 | launches at most the pristine cells of one pair in order; success means that pair, and nothing else, was scored |
| `Controller.Controller.DecideCandidate` | bench/autoresearch_campaign.py:5133-5223 | records the decision that the gates call for and ends the campaign when nothing is left; less remains to be done |
| `Controller.Controller.SearchStep` | bench/autoresearch_campaign.py:5064-5227 | one turn of the search loop leaves less to do, or names what set it back |
| `Controller.Controller.AppendLiveAdmission` | bench/autoresearch_campaign.py:2447-2507 | extends the chain by one valid record for the target; fails only on stamps or malformed readings |
| `Controller.Controller.Inspect` | bench/autoresearch_campaign.py:4866-4942 | recovery, replay and topology: goes on only after a clean recovery, from an attested, unfinished campaign that it has not touched; a failed recovery ends the campaign by that failure, its cleanup unverified |
| `Controller.Controller.AdmitTarget` | bench/autoresearch_campaign.py:4985-5027 | takes one admission for the target; a blocked one ends the campaign by the failure that its blockers call for |
| `Controller.Controller.AdmitNext` | bench/autoresearch_campaign.py:4985-5027 | pauses without a trace if the gate is to be asked and is not ready; otherwise leaves an admission for the next pair, or stops |
| `Controller.Controller.Reconcile` | bench/autoresearch_campaign.py:4944-4983 | raw-complete work becomes controller truth without launching anything |
| `Controller.Controller.RunCampaign` | bench/autoresearch_campaign.py:4830-5236 | one invocation from any reachable state and under any crash: invariant kept, append-only, at most one pair launched in order and pristine, every launch under an earlier admission within all four limits, strict progress, the only reasons for refusing, and a cause for every pause or failure |
| `Controller.Controller.RunToEnd` | bench/autoresearch_campaign.py:4830-5236 | repeated invocation ends the campaign within its measure; it completes it unless the last invocation was hindered or refused, and a refusal means unsound readings, a clock that stood still, or a cell that misdated its start |
| `Controller.Controller.EndOnFailure` | bench/autoresearch_campaign.py:5228-5235 | a cell failure ends the campaign by that failure, its cleanup unverified exactly if the cleanup failed or ownership was ambiguous |
| `Controller.Controller.LaunchesWithinLimits` | bench/autoresearch_campaign.py:4999-5024 | every cell ever launched belongs to the pair of an admission taken before its launch, whose recorded time, swap, memory and harness met all limits |
| `Authority.AuthorisedTransition` | bench/autoresearch_campaign.py:3684-3702 | a pair is only ever running under an admission for it |
| `Controller.Controller.HonestRunsAreTimely` | bench/autoresearch_campaign.py:2736-2759 | on a clock that moves, over honest cells, every admission check passes |
| `Controller.Controller.RunUnhindered` | bench/autoresearch_campaign.py:4830-5236 | a calm world with room, moving clock and passing results completes the campaign, if time was left for one more pair, no control misdated its start and no second cell came too late |
| `Controller.CompletedJournalsAgree` | bench/autoresearch_campaign.py:4830-5236 | crash confluence: completed campaigns over the same cell results agree on transitions, decisions and replayed state |
| `Controller.CompletedCampaignPromotes` | bench/autoresearch_campaign.py:5064-5227 | a completed campaign's journal promotes a proposal if and only if it is the first of the queue whose two scored pairs pass the gates of one mode, and rejects it if and only if it and all before it failed one |
| `Admission.ObserveMeans` | bench/autoresearch_admission.py:158-213 | a decision is admitted if and only if time, swap, memory and harness meet their limits; each blocker is listed exactly under its own comparison, once and in order; time alone means that the cutoff is reached |
| `Admission.AdmittedWithinLimits` | bench/autoresearch_admission.py:467-613 | whatever a valid chain admits was within all limits when observed |
| `Admission.ValidateObservation` | bench/autoresearch_admission.py:216-271 | the first validator accepts exactly what the decision function produces |
| `Admission.ValidateChain` | bench/autoresearch_admission.py:467-496 | the loop decides chain validity |
| `Admission.NewRecordIsValid` | bench/autoresearch_admission.py:419-613 | the second validator accepts every record built from a decision |
| `Admission.AppendKeepsChain` | bench/autoresearch_admission.py:354-402 | appending keeps a chain valid if and only if the clock did not go back |
| `Admission.ChainSurvivesGrowth` | bench/autoresearch_admission.py:467-613 | a chain stays valid as the controller journal grows |
| `Admission.ChainPinsPrefix` | bench/autoresearch_admission.py:540-560 | two journals under one chain agree up to its last prefix |
| `Admission.TailDeterminesChain` | bench/autoresearch_admission.py:616-618 | equal tail digests mean equal chains |
| `Admission.DecodeInvertsEncode` | bench/autoresearch_admission.py:621-652 | the file reads back as its records |
| `Admission.TruncationIsPrefixOrTorn` | bench/autoresearch_admission.py:621-652 | a truncated file reads as a prefix of its records or is refused as torn |
| `Admission.AppendReadsBack` | bench/autoresearch_admission.py:621-652 | one encoded record behind any readable file adds exactly that record to what is read |
| `Admission.AdmissionJournal.AppendRecord` | bench/autoresearch_admission.py:310-416 | success if and only if the observation is a decision on its readings, the chain on file is valid and the longer one is valid and fits; then exactly one record more is read back |
| `Framing.SplitConcat` | bench/autoresearch_campaign.py:1651-1663 | splitting a file continues from splitting its first part |
| `Framing.SplitJoins` | bench/autoresearch_campaign.py:1651-1663 | lines, newlines and tail make up the file |
| `Probe.ReadMoreIsReadOnce` | bench/autoresearch_campaign.py:1601-1692 | one more incremental read equals reading the longer journal at once, faults included |
| `Probe.FaultsPersist` | bench/autoresearch_campaign.py:1601-1692 | an unreadable journal stays unreadable as it grows |
| `Probe.RepeatedReadingIsReadingOnce` | bench/autoresearch_campaign.py:1601-1714 | any number of calls on a growing journal ends as one call on the last content, in the same state or both in a fault, and never reports it replaced or edited |
| `Probe.MarkersStay` | bench/autoresearch_campaign.py:1640-1692 | recorded offsets always point at their marker's bytes |
| `Probe.ReportsAreAccepted` | bench/autoresearch_worker.py:764-809 | on a growing journal the supervisor accepts every later report after every earlier one |
| `Probe.AcceptedWithinBudgets` | bench/autoresearch_campaign.py:1429-1599 | an accepted journal kept its measurement and cleanup budgets |
| `Probe.AcceptedExactly` | bench/autoresearch_campaign.py:1429-1692 | the lines accepted are exactly those whose every entry is allowed after the ones before it, bindings, order, clocks and budgets included, and the lifecycle holds exactly what the entries say |
| `Probe.ReportIsLastMarker` | bench/autoresearch_campaign.py:1694-1714 | nothing is reported if and only if no phase has begun; otherwise the phase begun by the last such marker, with a deadline of that marker's clock plus that phase's own budget |
| `Probe.ProbeReportsLastMarker` | bench/autoresearch_campaign.py:1601-1714 | the same for any number of calls on a growing journal |
| `Probe.TamperingIsRefused` | bench/autoresearch_campaign.py:1601-1645 | however the journal changes between calls, the probe goes on only if it is the same file, no shorter than what was read, with every recorded marker in its place |
| `Probe.CellLifecycleProgress.ReadChunks` | bench/autoresearch_campaign.py:1646-1655 | chunked reading returns everything beyond the offset |
| `Probe.CellLifecycleProgress.ConsumeLines` | bench/autoresearch_campaign.py:1663-1690 | the line loop computes the parse of the lines |
| `Probe.CellLifecycleProgress.ReadNewEvents` | bench/autoresearch_campaign.py:1601-1692 | the object's new state, or its fault, is that of the specified read, on any view at all |
| `Probe.CellLifecycleProgress.Probe` | bench/autoresearch_campaign.py:1694-1714 | one call leaves the state of the specified read and reports its phase, which `Probe.ProbeReportsLastMarker` describes; a fault is that of the read |
| `Wait.Supervisor.ProbeNow` | bench/autoresearch_worker.py:764-809 | a validated report never goes back, and stays equal within a phase |
| `Wait.Supervisor.Expire` | bench/autoresearch_worker.py:844-857 | a later phase seen at the boundary wins; a timeout is charged to the phase still reported |
| `Wait.Supervisor.WaitWithProgressDeadlines` | bench/autoresearch_worker.py:812-862 | it returns, by start-marker timeout plus all durations plus 0.01 per phase plus lag; probes follow one another within the polling interval and two lags; a timeout is charged to a phase that two probes in a row report, the second begun after its deadline, and comes at most four lags after that deadline or the phase's first report; every other return is what the child or the last probe showed |
| `Wait.Supervisor.HealthyCellIsLeftAlone` | bench/autoresearch_worker.py:812-862 | a cell that is within the budget of its active phase at every probe is never timed out or refused: whatever ends the wait is its own exit |
| `Budget.AdmissionCoversPair` | bench/autoresearch_campaign.py:139-148 | a supervised pair keeps the audit reserve, plus what was admitted beyond 4930 s, minus controller and supervisor overhead |
| `Budget.ProbedCellIsSupervised` | bench/autoresearch_campaign.py:1521-1584 | a completed cell whose markers the probe accepts kept its measurement and cleanup limits, so only its start and its end are left to the supervisor |
| `Budget.WaitKeepsCellLimit` | bench/autoresearch_worker.py:812-862 | the bound of the supervised wait is the limit of one cell, with a tolerance of 0.03 s and sixteen lags |
| `Budget.AdmissionBudgetIsExact` | bench/autoresearch_campaign.py:139-148 | 4930 s is the least remaining time that guarantees it |
| `Budget.AdmittedPairFailsNoBudget` | bench/autoresearch.py:618-628 | an admitted, supervised pair can only fail the audit reserve when scored, and not even that if the overhead was admitted as well |
| `Worker.SafeAt` | bench/autoresearch_worker.py:516-541 | every real signal follows a matching identity read of the owned group, every kill a delivered interrupt |
| `Worker.OperatingSystem.SignalExactGroup` | bench/autoresearch_worker.py:516-541 | keeps the log safe and reports delivery truthfully |
| `Worker.OperatingSystem.CertifyAbsentAndRemove` | bench/autoresearch_worker.py:461-513 | success means group observed absent, state matched and removed, in that order; an error is what the last answer showed |
| `Worker.OperatingSystem.TerminateCurrentProcess` | bench/autoresearch_worker.py:544-689 | success means reaped, certified absent and truthful flags; no kill without a delivered interrupt and its whole grace; an error is what the last answer showed |
| `Worker.OperatingSystem.WaitForRecoveryExit` | bench/autoresearch_worker.py:1064-1097 | it terminates, signals nothing, and absence is the last thing observed; it gives up only after the timeout over a matching process |
| `Worker.OperatingSystem.RecoverOwnedWorker` | bench/autoresearch_worker.py:1100-1209 | under any operating system, a normal return other than no state certifies absence and removal, with safe signals and no kill before the interrupt's grace is over; an error is what the last answer showed |
| `Worker.OperatingSystem.CleanupUncapturedProcess` | bench/autoresearch_worker.py:714-754 | only the unreaped child is signalled: its group and itself are killed and it is reaped, and success means exactly that no kill was refused and the child is reaped |
| `Worker.OperatingSystem.RunOwnedWorker` | bench/autoresearch_worker.py:865-1061 | the same for a fresh worker, for every way the wait can end, and which errors each way can give |
| `Checkpoint.MappingIsExact` | bench/autoresearch_checkpoint.py:547-596 | reading inverts writing, and only what was written can be read |
| `Checkpoint.AlteredPayloadIsRefused` | bench/autoresearch_checkpoint.py:563-596 | an altered field is refused unless its integrity is recomputed |
| `Checkpoint.JournalMeans` | bench/autoresearch_checkpoint.py:689-710 | a journal without raw carriage returns has n events if and only if it is n whole, nonempty lines that are events |
| `Checkpoint.PrefixHoldsForExtensions` | bench/autoresearch_checkpoint.py:713-734 | a captured prefix holds exactly of the well-formed journals that extend its bytes |
| `Checkpoint.AppendOnlyIsSteady` | bench/autoresearch_checkpoint.py:713-718 | an append-only journal never returns to an earlier content |
| `Checkpoint.DoubleCollectIsSnapshot` | bench/autoresearch_checkpoint.py:1245-1268 | if nothing returns to an earlier value, all four inputs held together between the collects |
| `Checkpoint.FlippingInputsPass` | bench/autoresearch_checkpoint.py:1245-1268 | without that a passing double collect may describe no instant |
| `Checkpoint.AcknowledgementStore.Collect` | bench/autoresearch_checkpoint.py:1245-1268 | what it returns was read twice, and values that hold all the time are returned |
| `Checkpoint.AcknowledgementStore.Acknowledge` | bench/autoresearch_checkpoint.py:1212-1292 | success means collected twice, covered evidence, and stored exactly; failure leaves the store alone, and over inputs that hold it comes only from an unreadable store or a refused write |
| `Checkpoint.ReadyMeansAcknowledged` | bench/autoresearch_checkpoint.py:1295-1355 | after a pair the gate is ready if and only if its stored acknowledgement still describes campaign, completion, evidence, repository and journal |
| `Checkpoint.GateMeans` | bench/autoresearch_checkpoint.py:1295-1355 | every answer of the gate: ready at once exactly without a completed pair, missing exactly without a store, new pair exactly over an acknowledgement of another pair, evidence, remote and repository exactly when that proof is the first that no longer matches, an error exactly for an unreadable or foreign store, a journal that does not extend what was captured, or an invalid reader |
| `Checkpoint.ReadyMeansPublished` | bench/autoresearch_checkpoint.py:1295-1355 | a ready gate vouches for complete, terminal evidence of this very pair in order, at a commit that is head, upstream and remote |
| `Checkpoint.ReadyWhileJournalGrows` | bench/autoresearch_checkpoint.py:1318-1355 | it stays ready exactly while the journal extends the captured bytes and is well formed |
| `ToolLoop.CountsAreConserved` | bench/agentic_tools.py:765-805 | for any calls: each is executed, malformed or unknown once, attempts are the executions, and only the first unstable lookup errs |
| `ToolLoop.TranscriptIsPaired` | bench/agentic_tools.py:765-823 | each recorded call has exactly one tool message and an episode-unique identity |
| `ToolLoop.RequestsAreConserved` | bench/agentic_tools.py:706-872 | requested calls are conserved unless the call limit tripped; no failure code if and only if passed |
| `ToolLoop.RecoveryIsSequence` | bench/agentic_tools.py:845-851 | a recovery succeeded if and only if it was required and the sequence is correct |
| `ToolLoop.PassesTakeTheirTurns` | bench/agentic_tools.py:487-534 | a pass requested exactly the expected calls, in one, two or three turns |
| `ToolLoop.CorrectExactly` | bench/agentic_tools.py:487-534 | a sequence of calls is correct if and only if it is, call by call and turn by turn, what the scenario asks for |
| `ToolLoop.PassesExactly` | bench/agentic_tools.py:603-911 | an episode passes if and only if it makes those calls and then stops with the expected answer |
| `ToolLoop.FailureMeans` | bench/agentic_tools.py:573-600 | each failure code if and only if its own cause is the first in order of precedence |
| `ToolLoop.AnswerIsLastValue` | bench/agentic_tools.py:274-342 | the expected answer is the decimal form of what the last call asked for returns |
| `ToolLoop.RunTurn` | bench/agentic_tools.py:765-823 | the inner loop counts, answers and records every call |
| `ToolLoop.RunAgenticScenario` | bench/agentic_tools.py:603-911 | result and transcript are those of the episode that the replies lead to; it fails only on a bad limit or reply |
| `Audit.FileEvents` | bench/audit.py:553-580 | the pass fills the dictionaries with exactly the positions and outcomes of the journal |
| `Audit.AuditLifecycle` | bench/audit.py:465-675 | no issue if and only if every lifecycle condition holds |
| `Audit.ServedMeans` | bench/audit.py:527-580 | the server checks pass if and only if measuring had a ready server, primed after it became ready and before anything measured, and stopped or kept after it, within the attempt unless that was aborted |
| `Audit.DeriveStatus` | bench/audit.py:678-756 | the loop keeps the last completion of each case and derives the status from it |
| `Audit.StatusMeans` | bench/audit.py:678-756 | each status if and only if its condition on the last start, completion or abort, the last cleanup failure, and the cases that failed or whose last completion did not validate |
| `Audit.CleanCompleteRunsSettleEveryCase` | bench/audit.py:465-756 | under a clean audit and a complete status each planned case completed once, properly, or was only skipped as unsupported or too large, never both |

## Left out

- `Replay.ReplayTransitions`: the loop keeps the machine's state variables in one value that `Apply` updates, instead of about a dozen separate variables; the time stamps' text is not parsed.
- `Controller.Controller.AppendFrozenTransition`: the replays before and after the append are not repeated; `Ledger.SoundReplays` and `Durable.KeptReplays` show that they cannot fail.
- `Controller.Controller.RunUnhindered`: does not bound how late a second cell may come, because the time between cells is the environment's.
- `Controller.Controller.Launch`: profile and fingerprint comparisons, logs and the worker itself are reduced to what the cell leaves on disk and whether the launch failed; `Worker`, `Wait` and `Probe` model the worker on its own.
- `Controller.Controller.ReadAdmissions`: admissions are the decoded records; the file with its framing is `Admission.AdmissionJournal`.
- `Controller.Controller.AdmitNext`: the checkpoint gate's answer is arbitrary here; `Checkpoint.CheckpointGate` models it on its own.
- `Worker.OperatingSystem.RunOwnedWorker`: how the supervised wait ends is an argument; between the identity read and the signal the operating system may still reuse a PID, which no check can exclude.
- `Audit.AuditLifecycle`: issue texts and positions, the plan and summary audits, and the lists of the derived status.
- Scalar aggregates of the tool loop (tokens, timings), request validation and the prompts.
- File-descriptor hardening, modes, inode identity and fsync order: each is an atomic read or write.
- Docker, SGLang and Git subprocesses: recovery, evidence and repository proofs are environment answers.
- Manifest and TOML loading, pinned digests, the sealed legacy campaign and the field checks of freezing and loading a campaign.
- Floating-point rounding, `log` and `exp`, and JSON text syntax beyond newline framing.
- Liveness when a cell journal is torn or admissions are unsafe: the code stops by raising there, so only safety is stated.
- `bench/client.py`, `bench/diffusion_direct.py`, `bench/content_battery.py`, `bench/acquire.py` and other single-shot code: reading one branch settles their properties.
