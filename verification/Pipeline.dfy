/**
 One guarded call, statement by statement - the gates, the adapter behind them and the rows
 written on the way (guard/pipeline.py, guard/stops.py, execute/service.py) - proved against
 Machine.dfy.
 */
module Pipeline {
  import opened Wrappers
  import opened Policy
  import opened Gates
  import opened Ledger
  import opened Machine

  // An adapter whose answers are arbitrary but fixed in advance; `calls` is what it was asked to do.
  class Executor {
    const script: nat -> Outcome
    var calls: seq<Call>

    constructor (script: nat -> Outcome)
      ensures calls == [] && this.script == script
    {
      this.script := script;
      calls := [];
    }

    method Perform(caseId: string, a: Action) returns (out: Outcome)
      modifies this
      ensures out == script(|old(calls)|)
      ensures calls == old(calls) + [Call(caseId, a, out)]
    {
      out := script(|calls|);
      calls := calls + [Call(caseId, a, out)];
    }
  }

  /** apply_stop: the terminal status and reason on the case, and one stop row. */
  method ApplyStop(session: Session, caseId: string, reason: StopReason)
    requires caseId in session.cases
    modifies session`cases, session`ledger
    ensures session.cases == old(session.cases)[caseId := StopCase(old(session.cases)[caseId], reason)]
    ensures session.ledger == old(session.ledger) + [StopRowOf(caseId, reason)]
  {
    var c := session.cases[caseId];
    if reason == WasRecovered {
      c := c.(status := Recovered);
    } else {
      c := c.(status := Stopped);
    }
    c := c.(stopReason := Some(reason));
    session.cases := session.cases[caseId := c];
    var _ := session.AppendLedger(StopRowOf(caseId, reason));
  }

  /** record_gate_checks: one row per gate, pass or block; returns their sequence numbers. */
  method RecordGateChecks(session: Session, caseId: string, checks: seq<GateCheck>, key: string) returns (seqs: seq<nat>)
    modifies session`ledger
    ensures session.ledger == old(session.ledger) + GateRows(caseId, checks, key)
    ensures seqs == seq(|checks|, i requires 0 <= i < |checks| => |old(session.ledger)| + i + 1)
  {
    seqs := [];
    ghost var before := session.ledger;
    for i := 0 to |checks|
      invariant session.ledger == before + GateRows(caseId, checks, key)[..i]
      invariant |seqs| == i && forall j :: 0 <= j < i ==> seqs[j] == |before| + j + 1
    {
      assert GateRows(caseId, checks, key)[..i + 1] == GateRows(caseId, checks, key)[..i] + [GateRowOf(caseId, checks[i], key)];
      var seqNo := session.AppendLedger(GateRowOf(caseId, checks[i], key));
      seqs := seqs + [seqNo];
    }
  }

  /** execute_with_guards' inner `_exec`: run the adapter, record the outcome, then stop the case
      if the money came back or else bump the counter that the verb uses up. */
  method Exec(session: Session, executor: Executor, caseId: string, a: Action) returns (out: Outcome)
    requires caseId in session.cases
    modifies session`cases, session`ledger, executor
    ensures out == executor.script(|old(executor.calls)|)
    ensures executor.calls == old(executor.calls) + [Call(caseId, a, out)]
    ensures session.cases == old(session.cases)[caseId := ExecutionCase(old(session.cases)[caseId], a, out)]
    ensures session.ledger == old(session.ledger) + [OutcomeRowOf(caseId, out)]
                              + if out.recovered then [StopRowOf(caseId, WasRecovered)] else []
  {
    out := executor.Perform(caseId, a);
    var _ := session.AppendLedger(OutcomeRowOf(caseId, out));
    var c := session.cases[caseId];
    if out.recovered {
      ApplyStop(session, caseId, WasRecovered);
    } else if a.verb.ScheduleRetry? {
      session.cases := session.cases[caseId := c.(attemptsUsed := c.attemptsUsed + 1)];
    } else if a.verb.SendPaymentLink? || a.verb.RequestMandateUpdate? {
      session.cases := session.cases[caseId := c.(contactsUsed := c.contactsUsed + 1, lastAction := Some(a.verb))];
    }
    assert session.cases == old(session.cases)[caseId := ExecutionCase(c, a, out)];
    assert session.ledger == old(session.ledger) + [OutcomeRowOf(caseId, out)]
                             + if out.recovered then [StopRowOf(caseId, WasRecovered)] else [];
  }

  function Answer(executor: Executor?): Option<Outcome>
    reads executor
  {
    if executor == null then None else Some(executor.script(|executor.calls|))
  }

  /** The gate half of guard_and_maybe_execute: rebuild the idempotency set unless the caller
      supplied one, evaluate the gates, record them all. */
  method HydrateAndCheck(session: Session, caseId: string, ctx: GuardContext)
    returns (checks: seq<GateCheck>, seqs: seq<nat>)
    modifies session`ledger, ctx
    ensures ctx.View() == Live(old(session.View()), caseId, old(ctx.View()))
    ensures checks == Checks(ctx.View())
    ensures session.ledger == old(session.ledger) + GateRows(caseId, checks, ctx.actionFingerprint)
    ensures seqs == seq(|checks|, i requires 0 <= i < |checks| => |old(session.ledger)| + i + 1)
  {
    if ctx.executedFingerprints == {} {
      ctx.executedFingerprints := session.ExecutedFingerprints(caseId);
    }
    checks := RunGates(ctx);
    seqs := RecordGateChecks(session, caseId, checks, ctx.actionFingerprint);
  }

  /** The execution half: run the adapter, append the action row after whatever the adapter's
      own rows were, and mark the key in memory. */
  method ExecuteAdmitted(session: Session, executor: Executor, caseId: string, ctx: GuardContext) returns (out: Outcome)
    requires caseId in session.cases
    modifies session`cases, session`ledger, ctx`executedFingerprints, executor
    ensures out == executor.script(|old(executor.calls)|)
    ensures executor.calls == old(executor.calls) + [Call(caseId, ctx.facts.action, out)]
    ensures session.cases == old(session.cases)[caseId := ExecutionCase(old(session.cases)[caseId], ctx.facts.action, out)]
    ensures session.ledger == old(session.ledger) + ExecutionRows(caseId, ctx.facts.action, ctx.actionFingerprint, out)
    ensures ctx.executedFingerprints == old(ctx.executedFingerprints) + {ctx.actionFingerprint}
  {
    out := Exec(session, executor, caseId, ctx.facts.action);
    var _ := session.AppendLedger(ActionRowOf(caseId, ctx.facts.action, ctx.actionFingerprint, out));
    ctx.executedFingerprints := ctx.executedFingerprints + {ctx.actionFingerprint};
  }

  /** Behind passed gates: reopen a blocked case and, given an executor, run it. */
  method Admit(session: Session, caseId: string, ctx: GuardContext, executor: Executor?) returns (execResult: Option<Outcome>)
    requires caseId in session.cases
    modifies session`cases, session`ledger, ctx`executedFingerprints, executor
    ensures execResult == old(Answer(executor))
    ensures session.ledger == old(session.ledger)
                              + match execResult
                                case None => []
                                case Some(out) => ExecutionRows(caseId, ctx.facts.action, ctx.actionFingerprint, out)
    ensures session.cases == old(session.cases)[caseId :=
                               var c := Reopened(old(session.cases)[caseId]);
                               match execResult case None => c case Some(out) => ExecutionCase(c, ctx.facts.action, out)]
    ensures ctx.executedFingerprints == old(ctx.executedFingerprints) + if executor != null then {ctx.actionFingerprint} else {}
    ensures executor != null ==>
              executor.calls == old(executor.calls) + [Call(caseId, ctx.facts.action, execResult.value)]
  {
    var c := session.cases[caseId];
    if c.status.Blocked? {
      session.cases := session.cases[caseId := c.(status := Open)];
    }
    assert session.cases == old(session.cases)[caseId := Reopened(c)];
    execResult := None;
    if executor != null {
      var out := ExecuteAdmitted(session, executor, caseId, ctx);
      execResult := Some(out);
    }
  }

  /** guard_and_maybe_execute; with an executor it is execute_with_guards. */
  method GuardAndMaybeExecute(session: Session, caseId: string, ctx: GuardContext, executor: Executor?)
    returns (result: GuardResult)
    requires caseId in session.cases
    modifies session`cases, session`ledger, ctx, executor
    ensures Guarding(session.View(), ctx.View(), result) == Guard(old(session.View()), caseId, old(ctx.View()), old(Answer(executor)))
    ensures executor != null ==>
              executor.calls == old(executor.calls)
                                + GuardedCalls(old(session.View()), caseId, old(ctx.View()), old(Answer(executor)))
  {
    ghost var db, c0 := session.View(), ctx.View();
    var c := session.cases[caseId];

    if Closed(c) {
      assert session.cases == db.cases[caseId := c];
      return GuardResult(false, [], false, None, Some(ByStop(c.stopReason)), true, []);
    }

    if ctx.facts.optOut {
      ApplyStop(session, caseId, OptOut);
      return GuardResult(false, [], false, None, Some(ByOptOut), true, []);
    }

    var checks, seqs := HydrateAndCheck(session, caseId, ctx);

    if !AllPassed(checks) {
      var blocked := FirstBlocked(checks);
      session.cases := session.cases[caseId := c.(status := Blocked)];
      return GuardResult(false, checks, false, None, Some(ByGate(checks[blocked].name)), false, seqs);
    }

    var execResult := Admit(session, caseId, ctx, executor);
    assert session.ledger == db.ledger + GuardedRows(db, caseId, c0, execResult);
    return GuardResult(true, checks, executor != null, execResult, None, false, seqs);
  }
}
