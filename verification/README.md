# The recovery agent's guarded execution and its economics, in Dafny

A failed payment becomes a case. The recovery agent decides what to do about it, lets hard gates
veto each action, runs an adapter, and records every step in an append-only ledger. Beside that
product path it has a simulator that plays recovery policies against a hidden payer model and
prices them. This project models both and proves what they promise, for all inputs and over all
serial runs.

`dafny verify dfyconfig.toml` checks everything.

## How it is organised

The guarded machine:

- `Policy`, `Fingerprint`, `Gates`: actions, their idempotency keys, the six gates.
- `Ledger`: case rows, ledger rows, processed ids; the `Session` class holds the tables and the
  readers and writers loop over them as the code does.
- `Machine`: what each entry point does to a database, as functions; runs are sequences of four
  kinds of step: ingest a risk event, receive a paid webhook, call the pipeline (with an arbitrary
  executor outcome, or no executor), or a row that some other component appends. Such foreign rows
  may be of kind `action`, with or without an action, but carry no key.
- `Pipeline`, `Intake`: the step-by-step code, proved against `Machine`.
- `Deliveries`, `Stops`, `Traces`, `Once`, `Caps`: invariants and theorems over whole runs from the
  empty database. `Answers` holds what the entry points answer against what they did; `Scripts`
  spells runs out, to show that exceptional ones occur.

The simulator and its prices:

- `SimTypes`, `Simulator`, `Outreach`: plans, the played order, the payer model, `run_case` and `run_batch`.
  Dice are an arbitrary stream of numbers with a cursor; a retry that cannot succeed rolls none.
- `Multiples`, `Costing`, `Batches`, `Economics`: reconstruction, closed forms, conservation over
  segments, and the comparison of "ours" with the fixed ladder B2.
- `BreakEven`, `Percentiles`, `GateEstimate`: the bisection, the percentile, the block estimate;
  `Forecast` holds the estimate against the guarded machine.

Policy planning:

- `Timing`, `Engine`, `Salary`, `Validator`: waits on a 28-day circle, the actions of a taxonomy
  row, how the insufficient-funds plan meets the funded days, and the proposal validator. `Shipped`
  applies the theorems to the shipped taxonomy.

## Where code and documentation disagree

The model follows the code.

- `recovery-agent/policy/timing.py:23-25` says that without a hint the fan-out over days 1 to 7
  still hits a funded day. It does not: the fifth payday is cut off, so a failure on day 8 or later
  misses salaries credited on days 6 and 7, and four more pairs are missed.
  `Timing.FanOutHitsExactly` gives the exact set.
- `recovery-agent/guard/gates.py:2` speaks of five gates; there are six.
- `recovery-agent/guard/stops.py:7` says that on a closed case future events are only recorded. A paid
  webhook that resolves to a stopped case also moves it to recovered (`Stops.StatusMoves`) and adds a
  second stop row (`Stops.StoppedThenPaid`, `Stops.OptOutThenPaid`).
- `recovery-agent/policy/engine.py:225-240` describes the validator as bounding every proposal. It
  does so for a class if and only if the class's row is sound (`Validator.ValidationIsLegal`), as
  all shipped rows are; it does not clear the channel of a retry it lets through.
- `recovery-agent/guard/pipeline.py:109-112` says that rebuilding the keys from the ledger gives every
  path idempotency. That holds for fresh contexts. `Once.RepeatsExactly` says for which others it
  does: a context may carry a set or a cached key of its own, or be about another case - its
  `case_id` is a free string that goes into the key, while the replay uses the case's own id
  (`Once.MisaddressedContextRepeats`). `Once.RepeatingRuns` shows runs of each kind.
- The attempt and contact caps bound money-moving actions as long as no call of the run reports less
  than the case's own counters (`Caps.CapsBoundMoneyActions`, `Caps.OnlyUnderReportingBreaks`).
  `recovery-agent/demo/live_flow.py:300-301` reports exactly these;
  `recovery-agent/api/routes_execute.py:117-122` takes them from the request when a case is
  reused. `Caps.MoneyBoundBreaksExactly` says which call then takes the rows beyond the bound: one
  with which the attempts and contacts used exceed it, even if it reports honestly itself.
  `Caps.CapsBreakExactly` does so for the counters; `Scripts.StaleCountersBreakTheCap` and
  `Scripts.HonestCallBreaksTheBound` show such runs.
- `recovery-agent/eval/gate_estimate.py:47-50` says that counters advance as actions are allowed. They
  advance differently from the pipeline's, which does not count a contact as an attempt
  (`recovery-agent/execute/service.py:67-73`): `Forecast.EstimateAgreesExactly` says when the two
  agree.

## Reading the contracts

- Python's `%` by 28 rounds down, as Dafny's does. The IST clock counts minutes, with the same rounding.
- Exceptions are error values. A step that raises leaves no trace, as its transaction rolls back.
- A fresh context (`Once.IsFresh`) is about the case it is used on, with an empty idempotency set
  and a cached key that is empty or right. Every request builds one, so nothing survives a restart.
- Money and probabilities are exact real numbers.

## Model

| member | source | states |
|---|---|---|
| `Fingerprint.FaithfulWithinCase` | recovery-agent/guard/gates.py:149-175 | Within one case, whatever its id, two keys are equal exactly when verb, day offset (None or any natural), channel and reason code (any string, colons included) are equal |
| `Fingerprint.FingerprintFaithful` | recovery-agent/guard/gates.py:149-175 | Across colon-free case ids, such as the minted ones, two keys are equal exactly when the case and the four identifying fields are equal |
| `Fingerprint.CasesCollideExactly` | recovery-agent/guard/gates.py:164 | With arbitrary ids, two different cases have a common key if and only if one id reads like a key of the other, with or without its reason code |
| `Fingerprint.DecimalInjective` | recovery-agent/guard/gates.py:164 | Decimal day offsets are rendered injectively |
| `Fingerprint.KeyFormat` | recovery-agent/guard/gates.py:164 | A key is case id, verb, day offset, channel and reason code, in this order, joined by colons |
| `Gates.AdmissionRule` | recovery-agent/guard/gates.py:178-199 | The six gates, in DEFAULT_GATES order, all pass exactly when: the key is not in the set; unless the action escalates, the class is not prohibited, the attempt cap is not reached and the mandate is neither revoked nor expired; and a contact falls in the IST window below the contact cap |
| `Gates.CodesTell` | recovery-agent/guard/gates.py:47-146 | The codes of a passing gate say why: not applicable exactly when the action is none of the gate's business, and each gate reports only its own codes |
| `Gates.BlockingCodesTell` | recovery-agent/guard/gates.py:47-146 | A gate reports a blocking code exactly when it blocks |
| `Gates.HourOnIndianClock` | recovery-agent/guard/gates.py:67-90 | The hour of the contact window is the one an Indian clock, five and a half hours ahead of UTC, shows |
| `Gates.StripTakesEndsOff` | recovery-agent/guard/gates.py:54 | The failure class is compared with whitespace taken off both ends and nothing else |
| `Gates.RunGates` | recovery-agent/guard/gates.py:188-195 | Evaluates every gate even after a block; the key it caches is the composed one unless a non-empty one was there, and caching it changes no verdict |
| `Gates.FirstBlocked` | recovery-agent/guard/pipeline.py:129-130 | The reported gate is the first that failed |
| `Ledger.Session.AppendLedger` | recovery-agent/ledger/writer.py:33-64 | Adds one row at the end and returns its sequence number; earlier rows stay |
| `Ledger.Session.ExecutedFingerprints` | recovery-agent/ledger/reader.py:52-94 | The loop finds exactly the keys the case's action rows contribute: the stored one if non-empty, else the recomposed one, and nothing for rows without an action |
| `Ledger.ReplayMembers` | recovery-agent/ledger/reader.py:65-94 | A key is in the replayed set if and only if some action row of the case contributes it |
| `Ledger.ReplayRecomposesLiveKey` | recovery-agent/ledger/reader.py:82-93 | Recomposing the key from a dumped action yields the live context's key, character by character |
| `Ledger.Session.FindCaseIdByPlink` | recovery-agent/ledger/reader.py:97-111 | The newest-first scan returns the case of the latest matching outcome row |
| `Ledger.PlinkCaseIsLatest` | recovery-agent/ledger/reader.py:97-111 | None exactly if no outcome row carries the link; otherwise some matching row names the case and no later row matches |
| `Ledger.Session.ListLedger` | recovery-agent/ledger/reader.py:135-164 | Returns the case's trail in the order written |
| `Ledger.TrailMembers` | recovery-agent/ledger/reader.py:141-146 | The trail holds exactly the rows of its case |
| `Pipeline.ApplyStop` | recovery-agent/guard/stops.py:65-93 | Sets the terminal status and the reason on this case only and appends one stop row |
| `Pipeline.RecordGateChecks` | recovery-agent/guard/pipeline.py:38-75 | Appends one row per check, pass or block, in order, and returns their consecutive sequence numbers |
| `Pipeline.Exec` | recovery-agent/execute/service.py:53-74 | Runs the adapter once, appends its outcome, then either stops the case as recovered or bumps the one counter the verb uses up |
| `Pipeline.GuardAndMaybeExecute` | recovery-agent/guard/pipeline.py:78-176 | For every database, context and executor or none: the new database, the caller's context object, the result and the adapter calls are those of the step specification that the theorems below are about |
| `Answers.GuardedAnswerTells` | recovery-agent/guard/pipeline.py:93-176 | Allowed exactly if the case is open, the payer has not opted out and every gate row the call wrote has passed; executed exactly if the adapter ran, with its outcome; skipped exactly on a closed case or an opt-out, then naming the recorded reason or the opt-out |
| `Answers.SequenceNumbersTell` | recovery-agent/guard/pipeline.py:120-127 | The answer's sequence numbers lead, in the new ledger, to the rows with name, verdict and code of its checks |
| `Answers.StatusAfterGates` | recovery-agent/guard/pipeline.py:129-145 | Through the gates a case is left blocked if they refuse, else recovered if the money came back, else open |
| `Answers.ContextRemembers` | recovery-agent/guard/pipeline.py:165-167 | Handing in the same context object again after an execution never reaches the adapter, whatever happened in between |
| `Answers.LinkLeadsBack` | recovery-agent/ledger/reader.py:97-111 | A payment for the link an execution just created finds the case by the link alone and closes it as recovered |
| `Answers.LastActionTells` | recovery-agent/execute/service.py:70-73 | After any run last_action is the verb of the case's last unrecovered contact action row |
| `Intake.IngestRiskEvent` | recovery-agent/ledger/service.py:29-73 | Database and answer after a first-seen, a repeated and a clashing delivery are those of the step specification |
| `Intake.HandlePaymentLinkPaid` | recovery-agent/ledger/service.py:76-164 | The same for the paid webhook, with both of its lookup errors |
| `Answers.IngestAnswerTells` | recovery-agent/ledger/service.py:40-73 | The answer to a risk event names the case it is booked to and, if new, its row; the new case is open and untouched, with the event's payer and amount; an error, exactly on a taken id, writes nothing |
| `Answers.PaidAnswerTells` | recovery-agent/ledger/service.py:85-107 | The answer to a payment names the case it is booked to and, if new, its row; recovered exactly if that case now is; an error, exactly for a new event no known case answers for, writes nothing |
| `Answers.PaymentRowsTell` | recovery-agent/ledger/service.py:109-154 | A recorded payment adds its event row and, unless the case had recovered, the outcome with the link's id and the recovery stop |
| `Answers.PartiesStay` | recovery-agent/ledger/writer.py:76-86 | Through any run a case keeps the payer and amount it was opened with |
| `Machine.StepAppends` | recovery-agent/ledger/writer.py:33-64 | Every step of every entry point only appends to the ledger |
| `Deliveries.ProcessedEventsBijection` | recovery-agent/ledger/service.py:40-66 | After any run every processed id has exactly one event row, on the case it is booked to, and every event row's id is processed; risk and paid events share the ids |
| `Deliveries.TrailsOpenWithIngest` | recovery-agent/ledger/service.py:50-66 | After any run the known cases are exactly those with a trail; each trail opens with an ingest event and holds no other |
| `Deliveries.RedeliveryIsHarmless` | recovery-agent/ledger/service.py:29-48 | Dropping any deliveries that repeat an accepted id, from any sequence of steps, leaves the final database unchanged |
| `Deliveries.AcceptedStaysAccepted` | recovery-agent/ledger/service.py:92-96 | An accepted id stays accepted, on the same case, through any run |
| `Stops.StopRowsTellTheStatus` | recovery-agent/guard/stops.py:65-93 | After any run a case is closed exactly if it has a stop row; it has at most two, at most one says recovered and that one is last; stop_reason is the last row's reason |
| `Stops.StatusMoves` | recovery-agent/ledger/service.py:130-152 | One step: recovered rows never change; a stopped case changes if and only if a paid delivery is recorded for it, and then only its status and reason, to recovered |
| `Stops.StoppedThenPaid` | recovery-agent/ledger/service.py:130-152 | After any run a stopped case that is paid for becomes recovered and has exactly the stop rows opt-out, recovered |
| `Stops.OptOutThenPaid` | recovery-agent/ledger/service.py:130-152 | Such runs exist: risk event, opted-out call, payment |
| `Stops.ClosedIsTerminal` | recovery-agent/guard/stops.py:38-39 | Over whole runs closed stays closed, recovered is absorbing, and a case still stopped has not changed |
| `Stops.ClosedIgnoresPipeline` | recovery-agent/guard/pipeline.py:93-98 | Once a case is closed, removing all later pipeline calls on it from any run changes neither the final database nor the adapter calls |
| `Traces.ActionsFollowPassedGates` | recovery-agent/guard/pipeline.py:116-164 | In every run each gated action row closes a contiguous block: six passing gate rows in order with its own key, its outcome, and the stop row exactly if that outcome recovered |
| `Traces.BlockInTrail` | recovery-agent/guard/pipeline.py:150-164 | The same block is contiguous in the case's own trail, whatever other cases did |
| `Traces.RefusalWritesGatesOnly` | recovery-agent/guard/pipeline.py:129-140 | A refused call writes six gate rows and nothing else, blocks the case, does not reach the adapter and reports the first failing gate |
| `Traces.AdapterCallsMatchLedger` | recovery-agent/guard/pipeline.py:149-164 | Over any run from any database, adapter calls and new gated action rows correspond one to one, in order, with case, action and outcome |
| `Once.AtMostOnce` | recovery-agent/guard/pipeline.py:109-167 | Over any run with fresh contexts, restarts and foreign action rows included, the adapter never performs the same action twice on a case |
| `Once.IdempotencyGateIsExact` | recovery-agent/guard/gates.py:134-146 | After any such run the gate blocks an action if and only if an action row of the case stores the same one: no duplicate passes, no different action is mistaken for one, for any case id |
| `Once.InjectedSetIsTheOnlyHole` | recovery-agent/guard/pipeline.py:112-114 | For contexts in any state: an admitted execution keeps the case's keys unique if and only if its key was not written before, and a written key gets through only past a non-empty injected set that lacks it |
| `Once.ReplayKeepsKeysUnique` | recovery-agent/guard/pipeline.py:113-114 | As long as callers leave the set empty, whatever keys they cached, no two gated action rows of a case carry the same key |
| `Once.ReachesAdapterExactly` | recovery-agent/guard/pipeline.py:109-150 | In any database, for a context in any state that only the idempotency gate can stop: the adapter is called if and only if the carried key is not in the carried set (the replayed one if the caller's is empty) |
| `Once.RepeatsExactly` | recovery-agent/guard/gates.py:134-146 | After any fresh run, a call about a recorded action that only the idempotency gate can stop, with a context in any state - any case id, set or cached key - performs it again if and only if its key is missing from the caller's set or, when that is empty, is no recorded action's key; a fresh context never repeats |
| `Once.MisaddressedContextRepeats` | recovery-agent/guard/gates.py:167-175 | Where only the idempotency gate can stop the call, a context about another case, with set and key left empty, always repeats a recorded action when the ids hold no colon |
| `Once.RepeatingRuns` | recovery-agent/guard/pipeline.py:112-114 | From the empty database: a second call on an executed action, with any case id, set or key, performs it again exactly in those cases |
| `Caps.CountersCountRows` | recovery-agent/execute/service.py:67-73 | After any run attempts_used is the number of the case's unrecovered retry action rows and contacts_used that of its unrecovered contact action rows |
| `Caps.CapsBoundMoneyActions` | recovery-agent/guard/gates.py:93-131 | With fixed caps and counters never under-reported, neither counter exceeds its cap and money-moving action rows, the recovering one included, never exceed the two caps together |
| `Caps.MoneyRowsAreUsedUp` | recovery-agent/execute/service.py:65-73 | After any run, whatever contexts claimed, an open case has exactly as many money-moving action rows as attempts and contacts used; a closed one at most one more |
| `Caps.MoneyBoundBreaksExactly` | recovery-agent/guard/gates.py:93-131 | After any run, an admitted call takes the money-moving rows beyond the two caps together if and only if the attempts and contacts used, with this action if it moves money, exceed them, whatever the adapter answers; while no counter is beyond its cap yet: if and only if it moves money with both counters at their caps, and then it under-reports |
| `Caps.OnlyUnderReportingBreaks` | recovery-agent/guard/gates.py:93-131 | With fixed caps, a run that takes a counter or the money-moving rows beyond them contains a call whose context reports less than the case's own counters - not necessarily the call that does it |
| `Caps.CapsBreakExactly` | recovery-agent/guard/gates.py:93-131 | From within the caps, an admitted call keeps the counters within them for every answer of the adapter if and only if the counter it uses up is below its cap; otherwise every unrecovered answer breaks it, and the context under-reports |
| `Scripts.StaleCountersBreakTheCap` | recovery-agent/api/routes_execute.py:117-122 | Such runs exist: reporting zero attempts under a cap of one gets two retries through, recovered or not, and two money-moving rows |
| `Scripts.HonestCallBreaksTheBound` | recovery-agent/execute/service.py:67-73 | Such runs exist: after one unreported link, an honest retry whose own counter is below its cap makes five money-moving rows under caps of three and one |
| `Scripts.NewActionVerdict` | recovery-agent/guard/pipeline.py:113-140 | On an open case, a fresh call about an action not yet performed is admitted if and only if the gates other than idempotency pass, and refused otherwise |
| `SimTypes.SortByDayIsStableSort` | recovery-agent/eval/simulate.py:38 | The played order is chronological, a permutation of the plan, and keeps same-day actions in plan order |
| `SimTypes.StableSortIsUnique` | recovery-agent/eval/simulate.py:38 | Those facts determine the order |
| `Simulator.TryRetry` | recovery-agent/eval/payer_model.py:127-137 | A retry consumes one roll exactly if the class, the instrument and the funded day let it roll, and succeeds exactly if that roll is below the success rate |
| `Simulator.TryContact` | recovery-agent/eval/payer_model.py:140-152 | A contact always consumes one roll, compared with the probability fatigued by all earlier contacts, and adds one to the fatigue |
| `Simulator.RunCase` | recovery-agent/eval/simulate.py:27-97 | For every plan, case and dice state: the loop returns the outcome of the first winning action in played order, with counts, waste and notes of exactly the played actions, and consumes exactly their rolls |
| `Simulator.FirstWin` | recovery-agent/eval/simulate.py:64-83 | The winner wins and nothing before it does; none means nothing wins |
| `Simulator.OutcomeTells` | recovery-agent/eval/simulate.py:43-97 | For any plan and dice the counters count the notes, retries are wasted exactly where only the customer can act, the whole amount or nothing comes back, and the last note alone says ok exactly if an action recovered |
| `Outreach.ContactOnlyPlan` | recovery-agent/eval/payer_model.py:35 | A non-empty plan of contacts recovers if and only if some roll j is below the response probability times 0.55 to the power j |
| `Outreach.EmptyPlan` | recovery-agent/eval/simulate.py:43-62 | The empty plan recovers if and only if its one roll is below the natural recovery probability |
| `Timing.RetryRollsExactly` | recovery-agent/eval/payer_model.py:104-137 | A retry rolls if and only if the instrument works, retrying can help, and the failure needs no funds or the salary came in that day or up to two days before |
| `Simulator.RunBatch` | recovery-agent/eval/simulate.py:100-118 | Each case's outcome depends on its own dice only |
| `Simulator.LongerPlansNeverLose` | recovery-agent/eval/simulate.py:64-97 | If the played order of a non-empty plan is a prefix of another's, then on the same dice a recovery under the first is the same outcome under the second, and counters never shrink |
| `Simulator.AddingLaterActionsNeverLoses` | recovery-agent/eval/simulate.py:38 | Adding actions no earlier than any planned one keeps every recovering outcome |
| `Costing.ExecutedActions` | recovery-agent/eval/costing.py:47-66 | The loop with its early exit selects exactly the actions that spending the two counts along the plan selects |
| `Costing.ReconstructionIsExact` | recovery-agent/eval/costing.py:47-66 | For every plan, case and dice, what costing reconstructs from the two counts is precisely the retries and contacts that were played, in order |
| `Costing.ChargesClosedForm` | recovery-agent/eval/costing.py:140-155 | The charges accumulated action by action equal a closed form in the numbers of retries, contacts and nags, with excess counted from the scheme cap |
| `Costing.ComputeCaseCosts` | recovery-agent/eval/costing.py:117-169 | The one-pass loop returns that closed form of the reconstructed actions, plus MDR, breach flag and forgone recovery |
| `Costing.CaseCostClosedForm` | recovery-agent/eval/costing.py:117-169 | The cost of a simulated case is retries x fee + excess x penalty + nags x SMS + links x link price, excess x amount x decay, the charges for inappropriate contacts, and MDR on what was recovered, in the outcome's own counts |
| `Costing.CaseCostInFigures` | recovery-agent/eval/costing.py:117-169 | The bill in plain arithmetic over rates and counts: per retry, excess retry, nag and link; decay and exposure; wrong contacts; MDR on the rupees recovered; the breach flag; and the recovery forgone for each of three retries not made on fraud |
| `Batches.ComputeBatchCosts` | recovery-agent/eval/costing.py:172-211 | Sums of the case costs over the batch; lists of different lengths are an error |
| `Batches.ReportSumsShares` | recovery-agent/eval/metrics.py:77-106 | Every column of the report, net included, is the sum of the items' shares |
| `Batches.MdrIsOnGross` | recovery-agent/eval/metrics.py:85-106 | Over any batch rupees are paise by the hundred, and the MDR column is the MDR rate on the gross column |
| `Batches.TotalsAgree` | recovery-agent/eval/costing.py:194-197 | The batch's attempts are its retries and contacts, its waste the report's, its breaches the cases beyond the scheme cap |
| `Batches.BucketByClass` | recovery-agent/eval/segments.py:59-62 | Each bucket holds exactly the items of its class, in batch order |
| `Batches.ComputePolicySegments` | recovery-agent/eval/segments.py:51-93 | The rows are the reports of the buckets in class order, empty ones skipped |
| `Batches.SegmentsConserveBatch` | recovery-agent/eval/segments.py:51-93 | In each of fifteen columns - cases, retries, contacts, recoveries, waste, gross, every cost, net - the rows add up to exactly the whole-batch report |
| `Batches.RowsAreClasses` | recovery-agent/eval/segments.py:65-68 | No row is empty, no class appears twice, and every item's class has its row |
| `Economics.OursPlaysNoNags` | recovery-agent/policy/engine.py:285-315 | No batch of "ours" ever plays a nag, for any taxonomy and all dice |
| `Economics.NetAffine` | recovery-agent/eval/costing.py:123-157 | For each of the three knobs net recovery falls by the knob's value per unit of exposure: nags for the SMS price, links for the link price, what inappropriate and risky contacts put at stake for the churn probability |
| `Economics.ChargedExposureIsPlayed` | recovery-agent/eval/costing.py:123-149 | The exposure a batch is charged for is that of what the simulator played |
| `Economics.B2PlaysNoLinks` | recovery-agent/eval/baselines.py:34-49 | No batch of B2 ever plays a link |
| `Economics.NetDeltaAffine` | recovery-agent/eval/break_even.py:14-18 | For all three knobs the net delta ours - B2 is affine; its slope is by how much more what B2 played is exposed to the knob |
| `Economics.SlopesOfPrices` | recovery-agent/eval/break_even.py:63-65 | The slope is plus the nags B2 played for the SMS price, and minus the links ours played for the link price |
| `Economics.NetDeltaMoves` | recovery-agent/eval/break_even.py:63-65 | For all cases and dice the net delta never falls as the SMS price rises and never rises with the link price; for churn it moves with the sign of the slope |
| `Economics.BreakEvenAccuracy` | recovery-agent/eval/break_even.py:94-126 | For any of the three knobs and a comparison that is off by at most some error, as rounding makes it, a search that used up its rounds answers within (hi - lo) / 2^(n+1) of a value at which the exact net delta is at most that error; without error, ours and B2 draw level there |
| `Engine.OursRetriesAtMostFour` | recovery-agent/policy/engine.py:184-223 | For any taxonomy, however large its max_retries, a case under "ours" is retried at most four times |
| `Economics.SchemeCapNeverBreached` | recovery-agent/docs/LIMITATIONS.md:339-345 | For all cases and dice neither "ours" nor B2 ever breaches a scheme cap of at least four (the shipped one is 15) |
| `BreakEven.NetDeltaWithOverride` | recovery-agent/eval/break_even.py:36-47 | Compares under exactly one override and leaves none |
| `BreakEven.SolveBreakEven` | recovery-agent/eval/break_even.py:50-126 | No answer exactly if both bounds have the same strict sign; else the answer is the midpoint of the last of a chain of brackets, each the half of the one before that the signs select, none but the last with a midpoint within tolerance: within tolerance, or after all rounds; the default is the live override or the file's value; no override remains |
| `BreakEven.Signs` | recovery-agent/eval/break_even.py:79 | The product test is the sign test, zeros included |
| `BreakEven.AffineAccuracy` | recovery-agent/eval/break_even.py:94-126 | For a delta that follows a line up to an error, a point where the line is within that error of zero lies within half the width of the last bracket, itself the first halved once per round; without error it is a true zero |
| `BreakEven.EarlyExitAccuracy` | recovery-agent/eval/break_even.py:98-102 | Then an answer found early is off by at most the tolerance plus the error, over the slope |
| `BreakEven.HalvedIsQuotient` | recovery-agent/eval/break_even.py:96 | n halvings divide by 2^n |
| `Timing.SalaryWindowOffsets` | recovery-agent/policy/timing.py:16-54 | Appending, sorting, probing and deduplicating yields the specified waits; with a hint the deduplication never removes anything |
| `Timing.DropRepeats` | recovery-agent/policy/timing.py:47-54 | The deduplication loop keeps first occurrences in order |
| `Timing.FixedWaits` | recovery-agent/policy/timing.py:57-90 | The waits of the modes that ignore the salary, cut to max_retries where that counts |
| `Timing.SalaryTimingMeetsWindow` | recovery-agent/policy/timing.py:38-54 | For every integer failure day and credit day 1 to 28, the hinted waits strictly increase, avoid day 0, stay within 60 days; exactly the last three are funded, or the first two after a failure on the credit day |
| `Timing.FanOutHitsExactly` | recovery-agent/policy/timing.py:23-36 | Without a hint some wait hits the funded window of a salary on days 1 to 7 if and only if the pair of failure and credit day is not in the listed family (failures from day 8 on miss days 6 and 7) |
| `Salary.RetryOnlyWins` | recovery-agent/eval/payer_model.py:127-137 | A plan of retries recovers if and only if one of its first rolls, one per funded retry, is below the success rate |
| `Salary.SalaryPlanRecovery` | recovery-agent/policy/engine.py:184-223 | With a correct hint the insufficient-funds plan has exactly three funded retries (two after a failure on the credit day), uses at most that many rolls, and recovers if and only if one of them is below the success rate |
| `Engine.ActionsFromClassCfg` | recovery-agent/policy/engine.py:116-223 | The actions of a class: one escalation, a fix path with its follow-up, or one step per wait |
| `Engine.DecisionToPlannedActions` | recovery-agent/policy/engine.py:285-315 | The simulator plan keeps the actions' order, drops escalations and turns both contact verbs into links |
| `Engine.PlannedTells` | recovery-agent/policy/engine.py:299-314 | Non-escalations become one planned action each, in order, with their day, kind and note |
| `Engine.EscalationsVanish` | recovery-agent/policy/engine.py:296-298 | An escalation leaves no trace in the plan |
| `Engine.ActionsAreStamped` | recovery-agent/policy/engine.py:134-223 | Every action carries the row's reason code, the decision's stamp and, unless it escalates, the amount; exactly the contacts of a row that allows contact go over a link |
| `Engine.ClassConfigTells` | recovery-agent/policy/engine.py:65-69 | A class has its own row if there is one, else the fall-back row; the lookup fails exactly if both are missing |
| `Engine.OursNeverNags` | recovery-agent/policy/engine.py:285-315 | Plans of "ours" hold retries and links only |
| `Engine.RetriesOfPlan` | recovery-agent/policy/engine.py:150-223 | A plan starts with a retry or holds none, as the class's row alone decides, for any failure day and hint |
| `Engine.WasteIsDecidedByTheRow` | recovery-agent/policy/engine.py:150-182 | Where the customer must act, "ours" wastes nothing if and only if the row plans no retry, for all dice alike |
| `Engine.OursWastesNothing` | recovery-agent/policy/engine.py:150-182 | Under a taxonomy that contacts the customer there, a whole batch of "ours" wastes nothing and each such recovery came from a contact |
| `Validator.ValidateProposal` | recovery-agent/policy/engine.py:225-280 | The editing of the copy, with its early returns, computes the repaired action; a missing class without a fall-back row is an error |
| `Validator.ValidationIsLegal` | recovery-agent/policy/engine.py:253-276 | Every proposal lands in the legal set if and only if the row is sound |
| `Validator.LegalProposalsPass` | recovery-agent/policy/engine.py:247-251 | Every result is stamped; a legal proposal on a row that is not stop keeps verb, channel, day, reason code and note |
| `Validator.RepairsLand` | recovery-agent/policy/engine.py:253-276 | Stop: an escalation on no channel with RISK_ESCALATE; a forbidden contact: a retry if and only if the row allows retries, else an escalation, on no channel; a retry on a dead row: the default verb, over a link if contact is allowed, on day 0 |
| `Validator.DeadRetryBecomesFixPath` | recovery-agent/policy/engine.py:260-267 | On a dead row with a contact default a proposed retry becomes the verb, channel and day of the engine's own first action |
| `Validator.ValidatingTwice` | recovery-agent/policy/engine.py:260-280 | On a stable row a second validation changes at most the missing amount, exactly when that is, and a third nothing |
| `Validator.IdempotentExactlyOnStableRows` | recovery-agent/policy/engine.py:260-276 | With an amount set, validation is idempotent for all proposals if and only if the row is stable |
| `Validator.ShippedTaxonomyIsSound` | recovery-agent/policy/taxonomy.yaml:17-106 | Every shipped row is sound; the rows for customer action contact the customer |
| `Shipped.ShippedRulesQualify` | recovery-agent/fixtures/decline_codes.json:3-21 | The shipped taxonomy and decline codes meet the conditions of the policy theorems: fall-back row present, contacts where the customer must act, four retries along the salary window, every row sound |
| `Shipped.OursAsShipped` | recovery-agent/policy/engine.py:334-351 | Ours as shipped, for all cases and dice: it wastes nothing, never retries where the customer must act and recovers there by contacts only, never touches a fraud case, and a well-observed shortage of funds recovers if and only if one of its two or three funded rolls succeeds |
| `Shipped.UnrecoveredAsShipped` | recovery-agent/policy/engine.py:150-223 | What an unrecovered case went through, for all dice: links on days 0 and 3 where the customer must act, retries on days 0 and 1 for a transient failure, a retry on day 2 and a link on day 4 for do-not-honour, nothing for fraud |
| `Shipped.RecoveryAsShipped` | recovery-agent/policy/engine.py:150-223 | And exactly which rolls recover it, in the probabilities themselves |
| `Shipped.UnrecognisedIsLeftAlone` | recovery-agent/policy/taxonomy.yaml:98-106 | A class without a row is left alone |
| `Percentiles.PercentilesAreOrdered` | recovery-agent/eval/benchmark.py:181-192 | For 0 <= p <= q <= 100 and any non-empty list: min <= P(p) <= P(q) <= max, with equality at 0 and 100 |
| `Percentiles.PercentileIgnoresOrder` | recovery-agent/eval/benchmark.py:182 | Reordering the list changes no percentile |
| `Percentiles.PercentileIsLinear` | recovery-agent/eval/benchmark.py:187-192 | Between two neighbouring values of the ordered list the percentile runs along the straight line |
| `Percentiles.PercentileOfFew` | recovery-agent/eval/benchmark.py:183-186 | Of nothing it is zero, of one value that value |
| `GateEstimate.CountGateBlocks` | recovery-agent/eval/gate_estimate.py:40-89 | The nested loops, running the real gates on a fresh context per action, count the blocks of the specification |
| `GateEstimate.AdmittedExactly` | recovery-agent/eval/gate_estimate.py:65-80 | A planned action is admitted if and only if the case is neither fraud nor revoked mandate, fewer than three were admitted before, and a contact is inside the window and at most the second |
| `GateEstimate.BlocksAccountForPlan` | recovery-agent/eval/gate_estimate.py:61-88 | Blocks plus admitted actions are the non-noop actions; at most three admitted, two of them contacts; all blocked on fraud and revoked mandates |
| `GateEstimate.NothingAfterTheCap` | recovery-agent/eval/gate_estimate.py:78-88 | After the third admission everything is blocked |
| `GateEstimate.BatchBlocksAdd` | recovery-agent/eval/gate_estimate.py:52-89 | The blocks of a batch are the sum over its cases |
| `GateEstimate.BatchBlocksAccount` | recovery-agent/eval/gate_estimate.py:52-89 | Of a batch's planned actions all but at most three per case are blocked |
| `GateEstimate.ToActionTells` | recovery-agent/eval/gate_estimate.py:20-37 | The guard sees a planned action on its day under its code: a retry, a payment link for link and nag, an escalation for a no-op |
| `Forecast.MachineFollowsTally` | recovery-agent/eval/gate_estimate.py:61-88 | Playing a plan of different actions on the guarded machine, with the case's own counters and nothing recovering, the gates refuse exactly what a tally with separate attempt and contact counters blocks, and the case's counters follow it |
| `Forecast.EstimateAgreesExactly` | recovery-agent/eval/gate_estimate.py:81-88 | The estimate never counts fewer blocks than the machine refuses, and counts the same if and only if no action that the machine still admits follows three admitted ones of which one was a contact |
| `Forecast.TwoLinksTwoRetries` | recovery-agent/execute/service.py:67-73 | Two links and two retries: the estimate blocks one, the machine none |

## Left out

- Machine.StepAppends: true concurrency is not modelled; steps are serial transactions, while the
  code checks and then acts, as `recovery-agent/docs/LIMITATIONS.md:295-309` says.
- Pipeline.GuardAndMaybeExecute: timestamps, actors, policy versions and caller-supplied audit metadata
  of ledger rows are not modelled, nor an executor that raises.
- Ledger.Session.ExecutedFingerprints: JSON text is not modelled, hence neither are corrupt rows that
  the readers skip; payloads are records of the keys that are read, and verbs and channels in
  stored actions come from the closed sets.
- Intake.IngestRiskEvent: minted case ids are a parameter; an id that is taken is the database's error.
- Batches.ReportSumsShares: rates and ratios (recovery rate, contacts per recovery, cost per rupee) are
  not additive and are left out, as is measuring without a plan, which skips all costs.
- Costing.ComputeCaseCosts: rounding to four decimals is left out, as is rounding in batch totals,
  metrics, the net delta, break-even answers (BreakEven.SolveBreakEven) and percentiles.
- Percentiles.PercentilesAreOrdered: percentages outside 0 to 100, which the reports never ask for.
- Simulator.RunCase: amounts are naturals; the texts of notes are an enumeration with their day and result.
- Engine.ActionsFromClassCfg: rows are complete; the defaults for keys missing from the YAML are not modelled.
- Engine.OursWastesNothing: the classifier is an arbitrary function from failure reasons to class names,
  and score and effort bands an arbitrary stamp.
- BreakEven.SolveBreakEven: the comparison is an arbitrary function of the overrides in force; that a
  contest between "ours" and B2 is such a function of each knob is Economics.NetDeltaAffine.
- Economics.BreakEvenAccuracy: the size of the error that rounding makes is a parameter; it is not derived.
- Forecast.EstimateAgreesExactly: for plans whose actions differ; a repeated action is refused by the
  idempotency gate, which the estimate never sees.
- Closed sets of strings (gate names, reason codes, statuses, failure reasons) are enumerations; only the
  strings that enter a key or the fraud test are spelled out.
- `evaluate_stop_signals` (`recovery-agent/guard/stops.py:42-62`): nothing in the pipeline calls it.
- HTTP routes, templates, UI context, logging, configuration loading, the memory seeder.
- The Ollama, Razorpay and Inherent clients and webhook signatures: a model's proposal is an arbitrary
  action and an adapter's answer an arbitrary outcome.
- The fixture replay, which writes rows by hand. The ungated demo link is present only as the ledger row it
  leaves, a foreign row.
- Random batch generation: theorems hold for all cases and all dice.
- Segment comparison, scenario break-down, case filters, multi-seed aggregates other than percentiles:
  single expressions over results proved here.
