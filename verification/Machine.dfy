/**
 What each entry point does to the database, as functions on database values: the rows it
 appends and the new case row.  Pipeline.dfy and Intake.dfy prove the step-by-step code
 against these functions; Deliveries, Stops, Traces, Once and Caps prove what holds over
 whole runs of them.
 */
module Machine {
  import opened Wrappers
  import opened Policy
  import opened Gates
  import opened Ledger

  /******* Stops (guard/stops.py) *******/

  // is_case_stopped.
  predicate Closed(c: CaseRow) {
    c.status.Stopped? || c.status.Recovered?
  }

  function StopCase(c: CaseRow, reason: StopReason): CaseRow {
    c.(status := if reason.WasRecovered? then Recovered else Stopped, stopReason := Some(reason))
  }

  /******* Rows *******/

  function StopRowOf(caseId: string, reason: StopReason): Row {
    Row(caseId, StopRow, EMPTY_PAYLOAD.(stopReason := Some(reason)), OfStop(reason), None, None)
  }

  function GateRowOf(caseId: string, check: GateCheck, key: string): Row {
    Row(caseId, GateCheckRow, EMPTY_PAYLOAD.(verdict := Some(check.passed), actionFingerprint := Some(key)),
        OfGate(check.code), Some(check.name), Some(check.passed))
  }

  function GateRows(caseId: string, checks: seq<GateCheck>, key: string): seq<Row> {
    seq(|checks|, i requires 0 <= i < |checks| => GateRowOf(caseId, checks[i], key))
  }

  function OutcomeRowOf(caseId: string, out: Outcome): Row {
    Row(caseId, OutcomeRow, EMPTY_PAYLOAD.(externalId := out.externalId, outcome := Some(out)), OfStatus(out.status), None, None)
  }

  function ActionRowOf(caseId: string, a: Action, key: string, out: Outcome): Row {
    Row(caseId, ActionRow,
        EMPTY_PAYLOAD.(action := Some(Dump(a)), actionFingerprint := Some(key), outcome := Some(out)),
        if a.reasonCode != "" then Text(a.reasonCode) else OfVerb(a.verb), None, None)
  }

  /******* The guarded pipeline (guard/pipeline.py with execute/service.py's executor) *******/

  datatype Verdict = AlreadyClosed | OptedOut | Refused | Admitted

  // The idempotency set a call consults: the caller's, unless that is empty.
  function Carried(db: Db, caseId: string, ctx: Context): set<string> {
    if ctx.executed == {} then Replay(db.ledger, caseId) else ctx.executed
  }

  // The context once the pipeline has filled in the idempotency set and the key.
  function Live(db: Db, caseId: string, ctx: Context): Context {
    ctx.(executed := Carried(db, caseId, ctx),
         fingerprint := KeyOf(ctx))
  }

  function VerdictOf(db: Db, caseId: string, ctx: Context): Verdict
    requires caseId in db.cases
  {
    if Closed(db.cases[caseId]) then AlreadyClosed
    else if ctx.facts.optOut then OptedOut
    else if !AllPassed(Checks(Live(db, caseId, ctx))) then Refused
    else Admitted
  }

  // The executor's rows: its outcome, the stop if it recovered the money, then the action.
  function ExecutionRows(caseId: string, a: Action, key: string, out: Outcome): seq<Row> {
    [OutcomeRowOf(caseId, out)]
    + (if out.recovered then [StopRowOf(caseId, WasRecovered)] else [])
    + [ActionRowOf(caseId, a, key, out)]
  }

  // The executor's effect on the case row.
  function ExecutionCase(c: CaseRow, a: Action, out: Outcome): CaseRow {
    if out.recovered then StopCase(c, WasRecovered)
    else if a.verb.ScheduleRetry? then c.(attemptsUsed := c.attemptsUsed + 1)
    else if IsContactVerb(a.verb) then c.(contactsUsed := c.contactsUsed + 1, lastAction := Some(a.verb))
    else c
  }

  function GuardedRows(db: Db, caseId: string, ctx: Context, executor: Option<Outcome>): seq<Row>
    requires caseId in db.cases
  {
    var live := Live(db, caseId, ctx);
    match VerdictOf(db, caseId, ctx)
    case AlreadyClosed => []
    case OptedOut => [StopRowOf(caseId, OptOut)]
    case Refused => GateRows(caseId, Checks(live), live.fingerprint)
    case Admitted =>
      GateRows(caseId, Checks(live), live.fingerprint)
      + match executor
        case None => []
        case Some(out) => ExecutionRows(caseId, ctx.facts.action, live.fingerprint, out)
  }

  function Reopened(c: CaseRow): CaseRow {
    if c.status.Blocked? then c.(status := Open) else c
  }

  function GuardedCase(db: Db, caseId: string, ctx: Context, executor: Option<Outcome>): CaseRow
    requires caseId in db.cases
  {
    var c := db.cases[caseId];
    match VerdictOf(db, caseId, ctx)
    case AlreadyClosed => c
    case OptedOut => StopCase(c, OptOut)
    case Refused => c.(status := Blocked)
    case Admitted =>
      match executor
      case None => Reopened(c)
      case Some(out) => ExecutionCase(Reopened(c), ctx.facts.action, out)
  }

  function GuardedDb(db: Db, caseId: string, ctx: Context, executor: Option<Outcome>): Db
    requires caseId in db.cases
  {
    db.(ledger := db.ledger + GuardedRows(db, caseId, ctx, executor),
        cases := db.cases[caseId := GuardedCase(db, caseId, ctx, executor)])
  }

  // Who refused: a gate, an earlier stop with its reason if one is recorded, or an opt-out.
  datatype Blocker = ByGate(gate: GateName) | ByStop(reason: Option<StopReason>) | ByOptOut

  datatype GuardResult = GuardResult(
    allowed: bool,
    checks: seq<GateCheck>,
    executed: bool,
    executeResult: Option<Outcome>,
    blockedBy: Option<Blocker>,
    skippedBecauseStopped: bool,
    ledgerSeqs: seq<nat>)

  function GuardedResult(db: Db, caseId: string, ctx: Context, executor: Option<Outcome>): GuardResult
    requires caseId in db.cases
  {
    var checks := Checks(Live(db, caseId, ctx));
    var seqs := seq(|checks|, i requires 0 <= i < |checks| => |db.ledger| + i + 1);
    match VerdictOf(db, caseId, ctx)
    case AlreadyClosed =>
      GuardResult(false, [], false, None, Some(ByStop(db.cases[caseId].stopReason)), true, [])
    case OptedOut => GuardResult(false, [], false, None, Some(ByOptOut), true, [])
    case Refused => GuardResult(false, checks, false, None, Some(ByGate(checks[FirstBlocked(checks)].name)), false, seqs)
    case Admitted => GuardResult(true, checks, executor.Some?, executor, None, false, seqs)
  }

  /** What the call leaves in the caller's context object. */
  function GuardedContext(db: Db, caseId: string, ctx: Context, executor: Option<Outcome>): Context
    requires caseId in db.cases
  {
    var live := Live(db, caseId, ctx);
    match VerdictOf(db, caseId, ctx)
    case AlreadyClosed => ctx
    case OptedOut => ctx
    case Refused => live
    case Admitted => if executor.Some? then live.(executed := live.executed + {live.fingerprint}) else live
  }

  // Everything a guarded call leaves behind: database, context object, result.
  datatype Guarding = Guarding(db: Db, ctx: Context, result: GuardResult)

  function Guard(db: Db, caseId: string, ctx: Context, executor: Option<Outcome>): Guarding
    requires caseId in db.cases
  {
    Guarding(GuardedDb(db, caseId, ctx, executor),
             GuardedContext(db, caseId, ctx, executor),
             GuardedResult(db, caseId, ctx, executor))
  }

  // One run of the adapter.
  datatype Call = Call(caseId: string, action: Action, outcome: Outcome)

  function GuardedCalls(db: Db, caseId: string, ctx: Context, executor: Option<Outcome>): seq<Call>
    requires caseId in db.cases
  {
    if VerdictOf(db, caseId, ctx).Admitted? && executor.Some?
    then [Call(caseId, ctx.facts.action, executor.value)]
    else []
  }

  /******* Event intake (ledger/service.py) *******/

  datatype RiskEvent = RiskEvent(eventId: string, payerRef: string, amountPaise: nat, rawErrorReason: string)

  datatype PaidEvent = PaidEvent(eventId: string, eventName: string, paymentLinkId: string, caseId: Option<string>)

  function NewCase(ev: RiskEvent): CaseRow {
    CaseRow(Open, 0, 0, None, None, ev.payerRef, ev.amountPaise)
  }

  function RiskRow(caseId: string, ev: RiskEvent): Row {
    Row(caseId, Event, EMPTY_PAYLOAD.(eventId := Some(ev.eventId)), Text(ev.rawErrorReason), None, None)
  }

  function PaidRow(caseId: string, paid: PaidEvent): Row {
    Row(caseId, Event, EMPTY_PAYLOAD.(eventId := Some(paid.eventId), razorpayEvent := Some(paid.eventName)),
        OfPaidWebhook, None, None)
  }

  function PaidOutcomeRow(caseId: string, paid: PaidEvent): Row {
    var out := Outcome(true, Some(paid.paymentLinkId), true, PaidLink);
    Row(caseId, OutcomeRow, EMPTY_PAYLOAD.(externalId := out.externalId, outcome := Some(out)), OfPaidWebhook, None, None)
  }

  datatype IntakeError = CaseIdTaken | NoCaseForLink | CaseNotFound

  datatype IntakeResult = IntakeResult(
    caseId: string, eventId: string, duplicate: bool, recovered: bool, ledgerSeq: Option<nat>)

  function IngestedDb(db: Db, ev: RiskEvent, newId: string): Db {
    if ev.eventId in db.processed || newId in db.cases then db
    else
      Db(db.cases[newId := NewCase(ev)],
         db.ledger + [RiskRow(newId, ev)],
         db.processed[ev.eventId := newId])
  }

  function IngestedResult(db: Db, ev: RiskEvent, newId: string): Result<IntakeResult, IntakeError> {
    if ev.eventId in db.processed then Ok(IntakeResult(db.processed[ev.eventId], ev.eventId, true, false, None))
    else if newId in db.cases then Err(CaseIdTaken)
    else Ok(IntakeResult(newId, ev.eventId, false, false, Some(|db.ledger| + 1)))
  }

  function ResolvedCase(db: Db, paid: PaidEvent): Option<string> {
    if paid.caseId.GetOr("") != "" then paid.caseId else PlinkCase(db.ledger, paid.paymentLinkId)
  }

  // Whether a paid event would be recorded: it is new and some existing case answers for it.
  predicate Payable(db: Db, paid: PaidEvent) {
    paid.eventId !in db.processed && ResolvedCase(db, paid).Some? && ResolvedCase(db, paid).value in db.cases
  }

  function PaidRows(db: Db, paid: PaidEvent): seq<Row>
    requires Payable(db, paid)
  {
    var cid := ResolvedCase(db, paid).value;
    [PaidRow(cid, paid)]
    + if db.cases[cid].status.Recovered? then [] else [PaidOutcomeRow(cid, paid), StopRowOf(cid, WasRecovered)]
  }

  function PaidDb(db: Db, paid: PaidEvent): Db {
    if !Payable(db, paid) then db
    else
      var cid := ResolvedCase(db, paid).value;
      var c := db.cases[cid];
      Db(db.cases[cid := if c.status.Recovered? then c else StopCase(c, WasRecovered)],
         db.ledger + PaidRows(db, paid),
         db.processed[paid.eventId := cid])
  }

  function PaidResult(db: Db, paid: PaidEvent): Result<IntakeResult, IntakeError> {
    if paid.eventId in db.processed then
      var cid := db.processed[paid.eventId];
      Ok(IntakeResult(cid, paid.eventId, true, cid in db.cases && db.cases[cid].status.Recovered?, None))
    else if ResolvedCase(db, paid).None? then Err(NoCaseForLink)
    else if ResolvedCase(db, paid).value !in db.cases then Err(CaseNotFound)
    else Ok(IntakeResult(ResolvedCase(db, paid).value, paid.eventId, false, true, Some(|db.ledger| + 1)))
  }

  /******* Runs *******/

  // `newId` is the identifier the ingest call would mint; `executor` is what the adapter would
  // report, or None for a gates-only call.  Foreign rows are written beside the pipeline: agent
  // classifications and decisions, memory look-ups, message drafts (an action row without an
  // action) and the ungated demo link (an action row with one).  None carries a fingerprint.
  datatype Input =
    | Ingest(event: RiskEvent, newId: string)
    | Paid(paid: PaidEvent)
    | Guarded(caseId: string, ctx: Context, executor: Option<Outcome>)
    | Foreign(caseId: string, kind: LedgerKind, action: Option<Action>, reasonCode: string)

  predicate IsForeignKind(k: LedgerKind) {
    k.Classification? || k.Decision? || k.MemoryRetrieval? || k.ActionRow?
  }

  function ForeignRow(caseId: string, kind: LedgerKind, action: Option<Action>, reasonCode: string): Row {
    Row(caseId, kind,
        EMPTY_PAYLOAD.(action := if action.Some? then Some(Dump(action.value)) else None),
        Text(reasonCode), None, None)
  }

  function Step(db: Db, input: Input): Db {
    match input
    case Ingest(ev, newId) => IngestedDb(db, ev, newId)
    case Paid(paid) => PaidDb(db, paid)
    case Guarded(cid, ctx, executor) => if cid in db.cases then GuardedDb(db, cid, ctx, executor) else db
    case Foreign(cid, kind, action, reason) =>
      if cid in db.cases && IsForeignKind(kind) then db.(ledger := db.ledger + [ForeignRow(cid, kind, action, reason)])
      else db
  }

  function Emitted(db: Db, input: Input): seq<Row> {
    match input
    case Ingest(ev, newId) => if ev.eventId in db.processed || newId in db.cases then [] else [RiskRow(newId, ev)]
    case Paid(paid) => if Payable(db, paid) then PaidRows(db, paid) else []
    case Guarded(cid, ctx, executor) => if cid in db.cases then GuardedRows(db, cid, ctx, executor) else []
    case Foreign(cid, kind, action, reason) =>
      if cid in db.cases && IsForeignKind(kind) then [ForeignRow(cid, kind, action, reason)] else []
  }

  function Calls(db: Db, input: Input): seq<Call> {
    match input
    case Guarded(cid, ctx, executor) => if cid in db.cases then GuardedCalls(db, cid, ctx, executor) else []
    case _ => []
  }

  function Run(db: Db, inputs: seq<Input>): Db
    decreases |inputs|
  {
    if inputs == [] then db else Run(Step(db, inputs[0]), inputs[1..])
  }

  function RunCalls(db: Db, inputs: seq<Input>): seq<Call>
    decreases |inputs|
  {
    if inputs == [] then [] else Calls(db, inputs[0]) + RunCalls(Step(db, inputs[0]), inputs[1..])
  }

  /** The ledger is append-only: a step adds its rows at the end and rewrites nothing. */
  lemma StepAppends(db: Db, input: Input)
    ensures Step(db, input).ledger == db.ledger + Emitted(db, input)
  {
    assert db.ledger + [] == db.ledger;
  }

  /** A guarded call writes about its own case only, and never an event row. */
  lemma GuardedRowsOfCase(db: Db, caseId: string, ctx: Context, executor: Option<Outcome>)
    requires caseId in db.cases
    ensures var rows := GuardedRows(db, caseId, ctx, executor);
            forall i :: 0 <= i < |rows| ==> rows[i].caseId == caseId && !rows[i].kind.Event?
  {
  }

  // What an admitted execution writes before its action row.
  function Preamble(db: Db, caseId: string, ctx: Context, out: Outcome): seq<Row> {
    GateRows(caseId, Checks(Live(db, caseId, ctx)), KeyOf(ctx))
    + ([OutcomeRowOf(caseId, out)] + if out.recovered then [StopRowOf(caseId, WasRecovered)] else [])
  }

  lemma AdmittedRows(db: Db, caseId: string, ctx: Context, out: Outcome)
    requires caseId in db.cases && VerdictOf(db, caseId, ctx).Admitted?
    ensures GuardedRows(db, caseId, ctx, Some(out))
            == Preamble(db, caseId, ctx, out) + [ActionRowOf(caseId, ctx.facts.action, KeyOf(ctx), out)]
  {
  }

  lemma PreambleHasNoAction(db: Db, caseId: string, ctx: Context, out: Outcome)
    ensures forall r :: r in Preamble(db, caseId, ctx, out) ==> !r.kind.ActionRow?
  {
  }

  lemma UnexecutedHasNoAction(db: Db, caseId: string, ctx: Context, executor: Option<Outcome>)
    requires caseId in db.cases && !(VerdictOf(db, caseId, ctx).Admitted? && executor.Some?)
    ensures forall r :: r in GuardedRows(db, caseId, ctx, executor) ==> !r.kind.ActionRow?
  {
  }

  lemma {:induction false} RunAppend(db: Db, xs: seq<Input>, ys: seq<Input>)
    ensures Run(db, xs + ys) == Run(Run(db, xs), ys)
    decreases |xs|
  {
    if xs == [] {
      assert xs + ys == ys;
    } else {
      assert (xs + ys)[1..] == xs[1..] + ys;
      RunAppend(Step(db, xs[0]), xs[1..], ys);
    }
  }

  lemma RunOneMore(db: Db, inputs: seq<Input>, last: Input)
    ensures Run(db, inputs + [last]) == Step(Run(db, inputs), last)
  {
    RunAppend(db, inputs, [last]);
    assert [last][1..] == [];
    assert Run(Run(db, inputs), [last]) == Run(Step(Run(db, inputs), last), []);
  }
}
