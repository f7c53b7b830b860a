/**
 The shape of the audit trail over whole runs: no action row without six passing gate rows
 right before its execution, and the adapter ran exactly once per gated action row.
 */
module Traces {
  import opened Wrappers
  import opened Policy
  import opened Gates
  import opened Ledger
  import opened Machine

  // Action rows written by the pipeline carry their key; foreign ones never do.
  predicate IsGated(r: Row) {
    r.kind.ActionRow? && r.payload.actionFingerprint.Some?
  }

  predicate IsPassingGateRow(r: Row, gate: nat, caseId: string, key: Option<string>)
    requires gate < GATE_COUNT
  {
    && r.caseId == caseId && r.kind.GateCheckRow?
    && r.gateName == Some(GateNames()[gate]) && r.gatePassed == Some(true)
    && r.payload.verdict == Some(true) && r.payload.actionFingerprint == key
  }

  // The six rows from position `start` are passing gate rows, in gate order.
  predicate GatesPassedAt(ledger: seq<Row>, start: nat, caseId: string, key: Option<string>)
    requires start + GATE_COUNT <= |ledger|
  {
    var rows := ledger[start..start + GATE_COUNT];
    forall g :: 0 <= g < GATE_COUNT ==> IsPassingGateRow(rows[g], g, caseId, key)
  }

  // How many rows an execution puts between its last gate row and its action row.
  function Gap(action: Row): nat {
    if action.payload.outcome.Some? && action.payload.outcome.value.recovered then 2 else 1
  }

  // The row records this outcome under its status and its external id.
  predicate IsOutcomeRow(r: Row, caseId: string, out: Outcome) {
    && r.caseId == caseId && r.kind.OutcomeRow? && r.payload.outcome == Some(out)
    && r.payload.externalId == out.externalId && r.reason == OfStatus(out.status)
  }

  predicate IsRecoveryStop(r: Row, caseId: string) {
    r.caseId == caseId && r.kind.StopRow? && r.payload.stopReason == Some(WasRecovered) && r.reason == OfStop(WasRecovered)
  }

  // An action row's label: the action's own reason code, or for want of one its verb.
  predicate IsLabelled(r: Row, a: StoredAction) {
    a.verb.Some? && r.reason == if a.reasonCode.GetOr("") == "" then OfVerb(a.verb.value) else Text(a.reasonCode.value)
  }

  // Row i, a gated action, closes a full execution block: six passing gate rows in order with
  // its own key, then its outcome, then - exactly if the outcome recovered - the stop row.
  predicate ClosesBlock(ledger: seq<Row>, i: nat)
    requires i < |ledger|
  {
    var r := ledger[i];
    var gap := Gap(r);
    && r.payload.outcome.Some?
    && i >= GATE_COUNT + gap
    && IsOutcomeRow(ledger[i - gap], r.caseId, r.payload.outcome.value)
    && (gap == 2 ==> IsRecoveryStop(ledger[i - 1], r.caseId))
    && r.payload.action.Some? && IsLabelled(r, r.payload.action.value)
    && GatesPassedAt(ledger, i - gap - GATE_COUNT, r.caseId, r.payload.actionFingerprint)
  }

  predicate TraceShape(ledger: seq<Row>) {
    forall i :: 0 <= i < |ledger| && IsGated(ledger[i]) ==> ClosesBlock(ledger, i)
  }

  /******* Preservation *******/

  lemma BlockSurvives(ledger: seq<Row>, rows: seq<Row>, i: nat)
    requires i < |ledger| && ClosesBlock(ledger, i)
    ensures ClosesBlock(ledger + rows, i)
  {
    var all, start := ledger + rows, i - Gap(ledger[i]) - GATE_COUNT;
    assert all[i] == ledger[i];
    assert all[start..start + GATE_COUNT] == ledger[start..start + GATE_COUNT];
  }

  lemma ShapeAppend(ledger: seq<Row>, rows: seq<Row>)
    requires TraceShape(ledger)
    requires forall k :: 0 <= k < |rows| ==> !IsGated(rows[k])
    ensures TraceShape(ledger + rows)
  {
    var all := ledger + rows;
    forall i | 0 <= i < |all| && IsGated(all[i])
      ensures ClosesBlock(all, i)
    {
      if i < |ledger| {
        BlockSurvives(ledger, rows, i);
      }
    }
  }

  lemma PassingGateRows(caseId: string, c: Context, key: string)
    requires AllPassed(Checks(c))
    ensures var rows := GateRows(caseId, Checks(c), key);
            |rows| == GATE_COUNT && forall g :: 0 <= g < GATE_COUNT ==> IsPassingGateRow(rows[g], g, caseId, Some(key))
  {
    var checks, rows := Checks(c), GateRows(caseId, Checks(c), key);
    forall g | 0 <= g < GATE_COUNT
      ensures IsPassingGateRow(rows[g], g, caseId, Some(key))
    {
      assert checks[g].passed && checks[g].name == GateNames()[g];
    }
  }

  // Gate rows followed by an execution's rows close one block, at the very end.
  lemma BlockAppend(ledger: seq<Row>, gates: seq<Row>, caseId: string, a: Action, key: string, out: Outcome)
    requires TraceShape(ledger)
    requires |gates| == GATE_COUNT
    requires forall g :: 0 <= g < GATE_COUNT ==> IsPassingGateRow(gates[g], g, caseId, Some(key))
    ensures TraceShape(ledger + gates + ExecutionRows(caseId, a, key, out))
  {
    var stop := if out.recovered then [StopRowOf(caseId, WasRecovered)] else [];
    var head := ledger + gates + ([OutcomeRowOf(caseId, out)] + stop);
    var r := ActionRowOf(caseId, a, key, out);
    ShapeAppend(ledger, gates);
    ShapeAppend(ledger + gates, [OutcomeRowOf(caseId, out)] + stop);
    var all := head + [r];
    assert all == ledger + gates + ExecutionRows(caseId, a, key, out);
    forall i | 0 <= i < |all| && IsGated(all[i])
      ensures ClosesBlock(all, i)
    {
      if i < |head| {
        BlockSurvives(head, [r], i);
      } else {
        var start := |ledger|;
        assert i - Gap(r) - GATE_COUNT == start;
        assert all[start..start + GATE_COUNT] == gates;
        assert all[start + GATE_COUNT] == OutcomeRowOf(caseId, out);
        assert out.recovered ==> all[i - 1] == StopRowOf(caseId, WasRecovered);
        assert all[i] == r;
      }
    }
  }

  lemma GuardedKeepsShape(db: Db, caseId: string, ctx: Context, executor: Option<Outcome>)
    requires TraceShape(db.ledger) && caseId in db.cases
    ensures TraceShape(db.ledger + GuardedRows(db, caseId, ctx, executor))
  {
    var live := Live(db, caseId, ctx);
    var gates := GateRows(caseId, Checks(live), live.fingerprint);
    match VerdictOf(db, caseId, ctx)
    case AlreadyClosed => ShapeAppend(db.ledger, []);
    case OptedOut => ShapeAppend(db.ledger, [StopRowOf(caseId, OptOut)]);
    case Refused => ShapeAppend(db.ledger, gates);
    case Admitted =>
      match executor
      case None =>
        ShapeAppend(db.ledger, gates);
        assert gates + [] == gates;
      case Some(out) =>
        PassingGateRows(caseId, live, live.fingerprint);
        BlockAppend(db.ledger, gates, caseId, ctx.facts.action, live.fingerprint, out);
        assert db.ledger + gates + ExecutionRows(caseId, ctx.facts.action, live.fingerprint, out)
               == db.ledger + (gates + ExecutionRows(caseId, ctx.facts.action, live.fingerprint, out));
  }

  lemma StepKeepsShape(db: Db, input: Input)
    requires TraceShape(db.ledger)
    ensures TraceShape(Step(db, input).ledger)
  {
    StepAppends(db, input);
    match input
    case Ingest(ev, newId) => ShapeAppend(db.ledger, Emitted(db, input));
    case Paid(paid) => ShapeAppend(db.ledger, Emitted(db, input));
    case Guarded(cid, ctx, executor) =>
      if cid in db.cases {
        GuardedKeepsShape(db, cid, ctx, executor);
      }
    case Foreign(cid, kind, action, reason) => ShapeAppend(db.ledger, Emitted(db, input));
  }

  lemma {:induction false} RunKeepsShape(db: Db, inputs: seq<Input>)
    requires TraceShape(db.ledger)
    ensures TraceShape(Run(db, inputs).ledger)
    decreases |inputs|
  {
    if inputs != [] {
      StepKeepsShape(db, inputs[0]);
      RunKeepsShape(Step(db, inputs[0]), inputs[1..]);
    }
  }

  /******* Main results *******/

  /** In every run, every gated action row closes a contiguous execution block of its own case. */
  lemma ActionsFollowPassedGates(inputs: seq<Input>)
    ensures TraceShape(Run(EMPTY_DB, inputs).ledger)
  {
    RunKeepsShape(EMPTY_DB, inputs);
  }

  // The block of a gated action row, from its first gate row on.
  function BlockOf(ledger: seq<Row>, i: nat): seq<Row>
    requires i < |ledger| && ClosesBlock(ledger, i)
  {
    ledger[i - Gap(ledger[i]) - GATE_COUNT..i + 1]
  }

  /** The block is also contiguous in the case's own trail. */
  lemma BlockInTrail(inputs: seq<Input>, i: nat)
    requires i < |Run(EMPTY_DB, inputs).ledger| && IsGated(Run(EMPTY_DB, inputs).ledger[i])
    ensures var l := Run(EMPTY_DB, inputs).ledger;
            && ClosesBlock(l, i)
            && Trail(l, l[i].caseId)
               == Trail(l[..i + 1 - |BlockOf(l, i)|], l[i].caseId) + BlockOf(l, i) + Trail(l[i + 1..], l[i].caseId)
  {
    RunKeepsShape(EMPTY_DB, inputs);
    var l := Run(EMPTY_DB, inputs).ledger;
    BlockIsOfOneCase(l, i);
    TrailAroundSlice(l, i + 1 - |BlockOf(l, i)|, i + 1, l[i].caseId);
  }

  lemma BlockIsOfOneCase(l: seq<Row>, i: nat)
    requires i < |l| && ClosesBlock(l, i)
    ensures forall r :: r in BlockOf(l, i) ==> r.caseId == l[i].caseId
  {
    var block := BlockOf(l, i);
    var start := i + 1 - |block|;
    var gates := l[start..start + GATE_COUNT];
    forall k | 0 <= k < |block|
      ensures block[k].caseId == l[i].caseId
    {
      assert block[k] == l[start + k];
      if k < GATE_COUNT {
        assert gates[k] == l[start + k];
        assert IsPassingGateRow(gates[k], k, l[i].caseId, l[i].payload.actionFingerprint);
      }
    }
  }

  /** A call that some gate blocks writes its six gate rows and nothing else, marks the case
      blocked, does not reach the adapter, and reports the first gate that failed. */
  lemma RefusalWritesGatesOnly(db: Db, caseId: string, ctx: Context, executor: Option<Outcome>)
    requires caseId in db.cases && VerdictOf(db, caseId, ctx).Refused?
    ensures var rows := GuardedRows(db, caseId, ctx, executor);
            var result := GuardedResult(db, caseId, ctx, executor);
            && |rows| == GATE_COUNT
            && (forall g :: 0 <= g < GATE_COUNT ==> rows[g].kind.GateCheckRow? && rows[g].gateName == Some(GateNames()[g]))
            && GuardedCase(db, caseId, ctx, executor) == db.cases[caseId].(status := Blocked)
            && GuardedCalls(db, caseId, ctx, executor) == []
            && !result.allowed && !result.executed
            && exists k :: 0 <= k < GATE_COUNT && rows[k].gatePassed == Some(false)
                           && result.blockedBy == Some(ByGate(GateNames()[k]))
                           && forall j :: 0 <= j < k ==> rows[j].gatePassed == Some(true)
  {
    var live := Live(db, caseId, ctx);
    var checks, rows := Checks(live), GuardedRows(db, caseId, ctx, executor);
    AdmissionRule(live);
    assert forall g :: 0 <= g < GATE_COUNT ==> rows[g] == GateRowOf(caseId, checks[g], live.fingerprint);
    var k := FirstBlocked(checks);
    assert rows[k].gatePassed == Some(false);
    assert forall j :: 0 <= j < k ==> rows[j].gatePassed == Some(checks[j].passed);
  }

  /******* The adapter and the ledger *******/

  datatype Execution = Execution(caseId: string, action: Option<StoredAction>, outcome: Option<Outcome>)

  // The executions the ledger tells of, in order.
  function Executions(ledger: seq<Row>): seq<Execution> {
    if ledger == [] then []
    else
      var r := ledger[|ledger| - 1];
      Executions(ledger[..|ledger| - 1])
      + if IsGated(r) then [Execution(r.caseId, r.payload.action, r.payload.outcome)] else []
  }

  function Performed(calls: seq<Call>): seq<Execution> {
    seq(|calls|, i requires 0 <= i < |calls| =>
      Execution(calls[i].caseId, Some(Dump(calls[i].action)), Some(calls[i].outcome)))
  }

  lemma PerformedAppend(now: seq<Call>, later: seq<Call>)
    ensures Performed(now + later) == Performed(now) + Performed(later)
  {
  }

  lemma {:induction false} ExecutionsAppend(l: seq<Row>, m: seq<Row>)
    ensures Executions(l + m) == Executions(l) + Executions(m)
  {
    if m == [] {
      assert l + m == l;
    } else {
      assert (l + m)[..|l + m| - 1] == l + m[..|m| - 1];
      ExecutionsAppend(l, m[..|m| - 1]);
    }
  }

  lemma {:induction false} NoExecutions(l: seq<Row>)
    requires forall i :: 0 <= i < |l| ==> !IsGated(l[i])
    ensures Executions(l) == []
  {
    if l != [] {
      NoExecutions(l[..|l| - 1]);
    }
  }

  lemma OneExecution(caseId: string, a: Action, key: string, out: Outcome)
    ensures Executions([ActionRowOf(caseId, a, key, out)]) == [Execution(caseId, Some(Dump(a)), Some(out))]
  {
    assert Executions([]) == [];
  }

  lemma StepExecutes(db: Db, input: Input)
    ensures Executions(Emitted(db, input)) == Performed(Calls(db, input))
  {
    match input
    case Ingest(ev, newId) => NoExecutions(Emitted(db, input));
    case Paid(paid) => NoExecutions(Emitted(db, input));
    case Foreign(cid, kind, action, reason) => NoExecutions(Emitted(db, input));
    case Guarded(cid, ctx, executor) =>
      if cid in db.cases {
        GuardedExecutes(db, cid, ctx, executor);
      }
  }

  lemma PerformedOne(call: Call)
    ensures Performed([call]) == [Execution(call.caseId, Some(Dump(call.action)), Some(call.outcome))]
  {
  }

  lemma AdmittedExecutes(db: Db, caseId: string, ctx: Context, out: Outcome)
    requires caseId in db.cases && VerdictOf(db, caseId, ctx).Admitted?
    ensures Executions(GuardedRows(db, caseId, ctx, Some(out))) == [Execution(caseId, Some(Dump(ctx.facts.action)), Some(out))]
  {
    var before := Preamble(db, caseId, ctx, out);
    AdmittedRows(db, caseId, ctx, out);
    PreambleHasNoAction(db, caseId, ctx, out);
    NoExecutions(before);
    ExecutionsAppend(before, [ActionRowOf(caseId, ctx.facts.action, KeyOf(ctx), out)]);
    OneExecution(caseId, ctx.facts.action, KeyOf(ctx), out);
  }

  lemma GuardedExecutes(db: Db, caseId: string, ctx: Context, executor: Option<Outcome>)
    requires caseId in db.cases
    ensures Executions(GuardedRows(db, caseId, ctx, executor)) == Performed(GuardedCalls(db, caseId, ctx, executor))
  {
    if VerdictOf(db, caseId, ctx).Admitted? && executor.Some? {
      AdmittedExecutes(db, caseId, ctx, executor.value);
      PerformedOne(Call(caseId, ctx.facts.action, executor.value));
    } else {
      UnexecutedHasNoAction(db, caseId, ctx, executor);
      NoExecutions(GuardedRows(db, caseId, ctx, executor));
      assert Performed([]) == [];
    }
  }

  lemma StepAddsExecutions(db: Db, input: Input)
    ensures Executions(Step(db, input).ledger) == Executions(db.ledger) + Performed(Calls(db, input))
  {
    StepAppends(db, input);
    ExecutionsAppend(db.ledger, Emitted(db, input));
    StepExecutes(db, input);
  }

  lemma Chained(first: seq<Execution>, now: seq<Execution>, later: seq<Execution>)
    ensures first + now + later == first + (now + later)
  {
  }

  lemma RunsStepwise(db: Db, inputs: seq<Input>)
    requires inputs != []
    ensures Run(db, inputs) == Run(Step(db, inputs[0]), inputs[1..])
    ensures RunCalls(db, inputs) == Calls(db, inputs[0]) + RunCalls(Step(db, inputs[0]), inputs[1..])
  {
  }

  /** Over any run the adapter calls and the newly written gated action rows correspond one to
      one, in order: same case, same action, same outcome. */
  lemma {:induction false} AdapterCallsMatchLedger(db: Db, inputs: seq<Input>)
    ensures Executions(Run(db, inputs).ledger) == Executions(db.ledger) + Performed(RunCalls(db, inputs))
    decreases |inputs|
  {
    if inputs == [] {
      assert Performed([]) == [];
    } else {
      var db', now := Step(db, inputs[0]), Calls(db, inputs[0]);
      var later := RunCalls(db', inputs[1..]);
      RunsStepwise(db, inputs);
      StepAddsExecutions(db, inputs[0]);
      AdapterCallsMatchLedger(db', inputs[1..]);
      PerformedAppend(now, later);
      Chained(Executions(db.ledger), Performed(now), Performed(later));
    }
  }
}
