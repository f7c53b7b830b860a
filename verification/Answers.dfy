/**
 What the entry points answer, held against what they did: a guarded call's result against the rows
 it wrote, the adapter it ran and the context it leaves; an intake's result against the tables.
 */
module Answers {
  import opened Wrappers
  import opened Policy
  import opened Fingerprint
  import opened Gates
  import opened Ledger
  import opened Machine
  import opened Traces

  /******* The guarded call *******/

  predicate GateRowsPassed(rows: seq<Row>) {
    forall i :: 0 <= i < |rows| && rows[i].kind.GateCheckRow? ==> rows[i].gatePassed == Some(true)
  }

  lemma GateRowsTellChecks(caseId: string, c: Context, key: string, rest: seq<Row>)
    requires forall i :: 0 <= i < |rest| ==> !rest[i].kind.GateCheckRow?
    ensures GateRowsPassed(GateRows(caseId, Checks(c), key) + rest) <==> AllPassed(Checks(c))
  {
    var checks := Checks(c);
    var rows := GateRows(caseId, checks, key) + rest;
    assert forall i :: 0 <= i < |checks| ==> rows[i] == GateRowOf(caseId, checks[i], key);
    assert forall i :: |checks| <= i < |rows| ==> rows[i] == rest[i - |checks|];
    if !AllPassed(checks) {
      var i :| 0 <= i < |checks| && !checks[i].passed;
      assert rows[i].gatePassed == Some(false);
    }
  }

  lemma AllowedTells(db: Db, caseId: string, ctx: Context, executor: Option<Outcome>)
    requires caseId in db.cases && !Closed(db.cases[caseId]) && !ctx.facts.optOut
    ensures GuardedResult(db, caseId, ctx, executor).allowed <==> GateRowsPassed(GuardedRows(db, caseId, ctx, executor))
  {
    var live := Live(db, caseId, ctx);
    var gates := GateRows(caseId, Checks(live), live.fingerprint);
    assert gates + [] == gates;
    GateRowsTellChecks(caseId, live, live.fingerprint, []);
    if executor.Some? {
      GateRowsTellChecks(caseId, live, live.fingerprint, ExecutionRows(caseId, ctx.facts.action, live.fingerprint, executor.value));
    }
  }

  /** The answer of a guarded call, in any database, with any context and executor: allowed exactly if
      the case is open, the payer has not opted out and every gate row it wrote has passed; executed
      exactly if the adapter ran, with that run's outcome; skipped exactly on a closed case or an
      opt-out, and then it names the recorded stop reason or the opt-out. */
  lemma GuardedAnswerTells(db: Db, caseId: string, ctx: Context, executor: Option<Outcome>)
    requires caseId in db.cases
    ensures var r, c := GuardedResult(db, caseId, ctx, executor), db.cases[caseId];
            var rows, calls := GuardedRows(db, caseId, ctx, executor), GuardedCalls(db, caseId, ctx, executor);
            && (r.allowed <==> !Closed(c) && !ctx.facts.optOut && GateRowsPassed(rows))
            && (r.executed <==> calls != [])
            && r.executeResult == (if calls == [] then None else Some(calls[0].outcome))
            && (r.executed <==> r.allowed && executor.Some?)
            && (r.skippedBecauseStopped <==> Closed(c) || ctx.facts.optOut)
            && (Closed(c) ==> r.blockedBy == Some(ByStop(c.stopReason)) && r.checks == [])
            && (!Closed(c) && ctx.facts.optOut ==> r.blockedBy == Some(ByOptOut) && r.checks == [])
            && (r.blockedBy.None? <==> r.allowed)
  {
    if !Closed(db.cases[caseId]) && !ctx.facts.optOut {
      AllowedTells(db, caseId, ctx, executor);
    }
  }

  // The row reports this check of the case.
  predicate Reports(r: Row, caseId: string, check: GateCheck) {
    && r.caseId == caseId && r.kind.GateCheckRow? && r.gateName == Some(check.name)
    && r.gatePassed == r.payload.verdict == Some(check.passed) && r.reason == OfGate(check.code)
  }

  lemma CheckRowInLedger(db: Db, caseId: string, ctx: Context, executor: Option<Outcome>, i: nat)
    requires caseId in db.cases && !GuardedResult(db, caseId, ctx, executor).skippedBecauseStopped && i < GATE_COUNT
    ensures var live, ledger := Live(db, caseId, ctx), GuardedDb(db, caseId, ctx, executor).ledger;
            && |db.ledger| + i < |ledger|
            && ledger[|db.ledger| + i] == GateRowOf(caseId, Checks(live)[i], live.fingerprint)
  {
    var live := Live(db, caseId, ctx);
    assert GuardedDb(db, caseId, ctx, executor).ledger == db.ledger + GuardedRows(db, caseId, ctx, executor);
    assert GuardedRows(db, caseId, ctx, executor)[i] == GateRows(caseId, Checks(live), live.fingerprint)[i];
  }

  /** The sequence numbers of the answer lead to the rows of its checks, in the new ledger. */
  lemma SequenceNumbersTell(db: Db, caseId: string, ctx: Context, executor: Option<Outcome>)
    requires caseId in db.cases
    ensures var r, ledger := GuardedResult(db, caseId, ctx, executor), GuardedDb(db, caseId, ctx, executor).ledger;
            && |r.ledgerSeqs| == |r.checks| == (if r.skippedBecauseStopped then 0 else GATE_COUNT)
            && forall i :: 0 <= i < |r.checks| ==>
                 1 <= r.ledgerSeqs[i] <= |ledger| && Reports(ledger[r.ledgerSeqs[i] - 1], caseId, r.checks[i])
  {
    var r := GuardedResult(db, caseId, ctx, executor);
    if !r.skippedBecauseStopped {
      forall i | 0 <= i < |r.checks|
        ensures GuardedDb(db, caseId, ctx, executor).ledger[|db.ledger| + i]
                == GateRowOf(caseId, r.checks[i], Live(db, caseId, ctx).fingerprint)
      {
        CheckRowInLedger(db, caseId, ctx, executor, i);
      }
    }
  }

  /** A case that goes through the gates is left blocked if they refuse; otherwise it is open, unless the
      money came back. */
  lemma StatusAfterGates(db: Db, caseId: string, ctx: Context, executor: Option<Outcome>)
    requires caseId in db.cases && !GuardedResult(db, caseId, ctx, executor).skippedBecauseStopped
    ensures var r, c := GuardedResult(db, caseId, ctx, executor), GuardedDb(db, caseId, ctx, executor).cases[caseId];
            c.status == if !r.allowed then Blocked
                        else if r.executeResult.Some? && r.executeResult.value.recovered then Recovered else Open
  {
  }

  /** The context object remembers: whatever happens in between, handing it in again after an execution
      never reaches the adapter a second time. */
  lemma ContextRemembers(db: Db, caseId: string, ctx: Context, executor: Option<Outcome>, later: Db, again: Option<Outcome>)
    requires caseId in db.cases && GuardedCalls(db, caseId, ctx, executor) != [] && caseId in later.cases
    ensures GuardedCalls(later, caseId, GuardedContext(db, caseId, ctx, executor), again) == []
  {
    var left := GuardedContext(db, caseId, ctx, executor);
    FingerprintNotEmpty(ctx.facts.caseId, ctx.facts.action);
    assert KeyOf(left) in left.executed && left.executed != {};
    AdmissionRule(Live(later, caseId, left));
  }

  /******* From a created link to the paid webhook *******/

  lemma {:induction false} PlinkCaseOfLast(ledger: seq<Row>, after: seq<Row>, plinkId: string)
    requires forall i :: 0 <= i < |after| ==> !IsPlinkOutcome(after[i], plinkId)
    ensures PlinkCase(ledger + after, plinkId) == PlinkCase(ledger, plinkId)
  {
    if after == [] {
      assert ledger + after == ledger;
    } else {
      var n := |after| - 1;
      assert (ledger + after)[..|ledger + after| - 1] == ledger + after[..n];
      PlinkCaseOfLast(ledger, after[..n], plinkId);
    }
  }

  lemma ExecutionNamesLink(db: Db, caseId: string, ctx: Context, out: Outcome, plinkId: string)
    requires caseId in db.cases && VerdictOf(db, caseId, ctx).Admitted? && out.externalId == Some(plinkId)
    ensures PlinkCase(GuardedDb(db, caseId, ctx, Some(out)).ledger, plinkId) == Some(caseId)
  {
    var live := Live(db, caseId, ctx);
    var gates := GateRows(caseId, Checks(live), live.fingerprint);
    var outcome := OutcomeRowOf(caseId, out);
    var after := (if out.recovered then [StopRowOf(caseId, WasRecovered)] else [])
                 + [ActionRowOf(caseId, ctx.facts.action, live.fingerprint, out)];
    var upTo := db.ledger + gates + [outcome];
    assert upTo[..|upTo| - 1] == db.ledger + gates;
    assert PlinkCase(upTo, plinkId) == Some(caseId);
    assert GuardedDb(db, caseId, ctx, Some(out)).ledger == upTo + after;
    PlinkCaseOfLast(upTo, after, plinkId);
  }

  /** A payment for the link that an execution just created finds the case by the link alone and closes
      it as recovered. */
  lemma LinkLeadsBack(db: Db, caseId: string, ctx: Context, out: Outcome, paid: PaidEvent)
    requires caseId in db.cases && VerdictOf(db, caseId, ctx).Admitted?
    requires out.externalId == Some(paid.paymentLinkId)
    requires paid.caseId.GetOr("") == "" && paid.eventId !in db.processed
    ensures var db' := GuardedDb(db, caseId, ctx, Some(out));
            && ResolvedCase(db', paid) == Some(caseId) && PaidDb(db', paid).cases[caseId].status.Recovered?
            && PaidResult(db', paid) == Ok(IntakeResult(caseId, paid.eventId, false, true, Some(|db'.ledger| + 1)))
  {
    ExecutionNamesLink(db, caseId, ctx, out, paid.paymentLinkId);
  }

  /******* Intake *******/

  predicate IsEventRow(r: Row, caseId: string, eventId: string) {
    r.kind.Event? && r.caseId == caseId && r.payload.eventId == Some(eventId)
  }

  // The rows of a payment: its event, and unless the case had recovered before, its outcome and the stop.
  predicate PaymentRows(rows: seq<Row>, caseId: string, paid: PaidEvent, already: bool) {
    && |rows| == (if already then 1 else 3)
    && IsEventRow(rows[0], caseId, paid.eventId) && rows[0].reason == OfPaidWebhook
    && rows[0].payload.razorpayEvent == Some(paid.eventName)
    && (!already ==>
          && rows[1].caseId == caseId && rows[1].kind.OutcomeRow? && rows[1].reason == OfPaidWebhook
          && rows[1].payload.externalId == Some(paid.paymentLinkId)
          && rows[1].payload.outcome == Some(Outcome(true, Some(paid.paymentLinkId), true, PaidLink))
          && IsRecoveryStop(rows[2], caseId))
  }

  /** What a recorded payment adds to the ledger. */
  lemma PaymentRowsTell(db: Db, paid: PaidEvent)
    requires Payable(db, paid)
    ensures var cid := ResolvedCase(db, paid).value;
            && db.ledger <= PaidDb(db, paid).ledger
            && PaymentRows(PaidDb(db, paid).ledger[|db.ledger|..], cid, paid, db.cases[cid].status.Recovered?)
  {
    assert PaidDb(db, paid).ledger[|db.ledger|..] == PaidRows(db, paid);
  }

  // A case as an event opens it.
  predicate JustOpened(c: CaseRow, ev: RiskEvent) {
    && c.status.Open? && c.attemptsUsed == c.contactsUsed == 0 && c.stopReason.None? && c.lastAction.None?
    && c.payerRef == ev.payerRef && c.amountPaise == ev.amountPaise
  }

  // What an intake answers about the event, given the tables it leaves.
  predicate AnswersFor(r: IntakeResult, eventId: string, before: Db, after: Db) {
    && r.eventId == eventId && eventId in after.processed && r.caseId == after.processed[eventId]
    && (r.duplicate <==> eventId in before.processed)
    && (r.duplicate ==> after == before && r.ledgerSeq.None?)
    && (!r.duplicate ==>
          && r.ledgerSeq.Some? && |before.ledger| < r.ledgerSeq.value <= |after.ledger|
          && IsEventRow(after.ledger[r.ledgerSeq.value - 1], r.caseId, eventId))
  }

  /** The answer to a risk event: an error exactly for a new event whose minted id is taken, and then
      nothing is written; otherwise the case that the event is booked to, with the sequence number of
      its row if it is new - and then the case is open, untouched, with the event's payer and amount. */
  lemma IngestAnswerTells(db: Db, ev: RiskEvent, newId: string)
    ensures var r, db' := IngestedResult(db, ev, newId), IngestedDb(db, ev, newId);
            && (r.Err? <==> ev.eventId !in db.processed && newId in db.cases)
            && (r.Err? ==> db' == db && r.error == CaseIdTaken)
            && (r.Ok? ==> AnswersFor(r.value, ev.eventId, db, db') && !r.value.recovered)
            && (r.Ok? && !r.value.duplicate ==>
                  && r.value.caseId == newId && newId !in db.cases && newId in db'.cases && JustOpened(db'.cases[newId], ev)
                  && db'.ledger[r.value.ledgerSeq.value - 1].reason == Text(ev.rawErrorReason))
  {
  }

  /** The answer to a paid event: an error exactly for a new event that no known case answers for, and
      then nothing is written; otherwise the case it is booked to, the row's number if it is new, and
      recovered exactly if that case now is. */
  lemma PaidAnswerTells(db: Db, paid: PaidEvent)
    ensures var r, db' := PaidResult(db, paid), PaidDb(db, paid);
            && (r.Err? <==> paid.eventId !in db.processed
                            && (ResolvedCase(db, paid).None? || ResolvedCase(db, paid).value !in db.cases))
            && (r.Err? ==> db' == db && r.error == if ResolvedCase(db, paid).None? then NoCaseForLink else CaseNotFound)
            && (r.Ok? ==> AnswersFor(r.value, paid.eventId, db, db'))
            && (r.Ok? ==> (r.value.recovered <==> r.value.caseId in db'.cases && db'.cases[r.value.caseId].status.Recovered?))
            && (r.Ok? && !r.value.duplicate ==>
                  (if paid.caseId.GetOr("") != "" then paid.caseId else PlinkCase(db.ledger, paid.paymentLinkId)) == Some(r.value.caseId))
  {
  }

  // The case is there with the payer and the amount it had before.
  predicate SameParties(before: Db, after: Db, caseId: string) {
    && caseId in before.cases && caseId in after.cases
    && after.cases[caseId].payerRef == before.cases[caseId].payerRef
    && after.cases[caseId].amountPaise == before.cases[caseId].amountPaise
  }

  lemma GuardedKeepsParties(db: Db, id: string, ctx: Context, executor: Option<Outcome>, caseId: string)
    requires caseId in db.cases && id in db.cases
    ensures SameParties(db, GuardedDb(db, id, ctx, executor), caseId)
  {
  }

  lemma StepKeepsParties(db: Db, input: Input, caseId: string)
    requires caseId in db.cases
    ensures SameParties(db, Step(db, input), caseId)
  {
    if input.Guarded? && input.caseId in db.cases {
      GuardedKeepsParties(db, input.caseId, input.ctx, input.executor, caseId);
    }
  }

  /** Through any run a case keeps the payer and the amount it was opened with. */
  lemma {:induction false} PartiesStay(db: Db, inputs: seq<Input>, caseId: string)
    requires caseId in db.cases
    ensures SameParties(db, Run(db, inputs), caseId)
    decreases |inputs|
  {
    if inputs != [] {
      StepKeepsParties(db, inputs[0], caseId);
      PartiesStay(Step(db, inputs[0]), inputs[1..], caseId);
    }
  }

  /******* The last contact *******/

  // The verb of the case's last contact that did not bring the money back.
  function LastContact(ledger: seq<Row>, caseId: string): Option<ActionVerb> {
    if ledger == [] then None
    else
      var r := ledger[|ledger| - 1];
      if r.caseId == caseId && IsGated(r) && r.payload.outcome.Some? && !r.payload.outcome.value.recovered
         && r.payload.action.Some? && r.payload.action.value.verb in {Some(SendPaymentLink), Some(RequestMandateUpdate)}
      then r.payload.action.value.verb
      else LastContact(ledger[..|ledger| - 1], caseId)
  }

  lemma {:induction false} LastContactSkips(ledger: seq<Row>, rows: seq<Row>, caseId: string)
    requires forall i :: 0 <= i < |rows| ==> rows[i].caseId != caseId || !IsGated(rows[i])
    ensures LastContact(ledger + rows, caseId) == LastContact(ledger, caseId)
  {
    if rows == [] {
      assert ledger + rows == ledger;
    } else {
      assert (ledger + rows)[..|ledger + rows| - 1] == ledger + rows[..|rows| - 1];
      LastContactSkips(ledger, rows[..|rows| - 1], caseId);
    }
  }

  predicate ContactTold(db: Db, caseId: string) {
    if caseId in db.cases then db.cases[caseId].lastAction == LastContact(db.ledger, caseId)
    else forall i :: 0 <= i < |db.ledger| ==> db.ledger[i].caseId != caseId
  }

  lemma AdmittedTellsContact(db: Db, caseId: string, ctx: Context, out: Outcome)
    requires caseId in db.cases && ContactTold(db, caseId) && VerdictOf(db, caseId, ctx).Admitted?
    ensures ContactTold(GuardedDb(db, caseId, ctx, Some(out)), caseId)
  {
    var before, r := Preamble(db, caseId, ctx, out), ActionRowOf(caseId, ctx.facts.action, KeyOf(ctx), out);
    AdmittedRows(db, caseId, ctx, out);
    PreambleHasNoAction(db, caseId, ctx, out);
    LastContactSkips(db.ledger, before, caseId);
    var all := db.ledger + before + [r];
    assert all[..|all| - 1] == db.ledger + before;
    assert GuardedDb(db, caseId, ctx, Some(out)).ledger == all;
  }

  lemma QuietStepTellsContact(db: Db, input: Input, caseId: string)
    requires caseId in db.cases && ContactTold(db, caseId)
    requires forall r :: r in Emitted(db, input) ==> r.caseId != caseId || !IsGated(r)
    requires Step(db, input).cases[caseId].lastAction == db.cases[caseId].lastAction
    ensures ContactTold(Step(db, input), caseId)
  {
    StepAppends(db, input);
    LastContactSkips(db.ledger, Emitted(db, input), caseId);
  }

  // What a step writes while the case does not exist yet, or as it comes into being.
  lemma StrangerRows(db: Db, input: Input, caseId: string, r: Row)
    requires caseId !in db.cases && r in Emitted(db, input)
    ensures r.caseId != caseId || !IsGated(r)
    ensures caseId !in Step(db, input).cases ==> r.caseId != caseId
  {
    if input.Guarded? && input.caseId in db.cases {
      GuardedRowsOfCase(db, input.caseId, input.ctx, input.executor);
    }
  }

  lemma NewCaseHasNoContact(db: Db, input: Input, caseId: string)
    requires caseId !in db.cases && caseId in Step(db, input).cases
    ensures Step(db, input).cases[caseId].lastAction.None?
  {
  }

  lemma NewCaseTellsNoContact(db: Db, input: Input, caseId: string)
    requires caseId !in db.cases && ContactTold(db, caseId)
    ensures ContactTold(Step(db, input), caseId)
  {
    StepAppends(db, input);
    var rows := Emitted(db, input);
    forall r | r in rows
      ensures r.caseId != caseId || !IsGated(r)
      ensures caseId !in Step(db, input).cases ==> r.caseId != caseId
    {
      StrangerRows(db, input, caseId, r);
    }
    if caseId in Step(db, input).cases {
      NewCaseHasNoContact(db, input, caseId);
      LastContactSkips([], db.ledger, caseId);
      assert [] + db.ledger == db.ledger;
      LastContactSkips(db.ledger, rows, caseId);
    }
  }

  lemma StepTellsContact(db: Db, input: Input, caseId: string)
    requires ContactTold(db, caseId)
    ensures ContactTold(Step(db, input), caseId)
  {
    if caseId !in db.cases {
      NewCaseTellsNoContact(db, input, caseId);
    } else if input.Guarded? && input.caseId == caseId && VerdictOf(db, caseId, input.ctx).Admitted? && input.executor.Some? {
      AdmittedTellsContact(db, caseId, input.ctx, input.executor.value);
    } else {
      if input.Guarded? && input.caseId in db.cases {
        GuardedRowsOfCase(db, input.caseId, input.ctx, input.executor);
        if input.caseId == caseId {
          UnexecutedHasNoAction(db, caseId, input.ctx, input.executor);
        }
      }
      QuietStepTellsContact(db, input, caseId);
    }
  }

  lemma {:induction false} RunTellsContact(db: Db, inputs: seq<Input>, caseId: string)
    requires ContactTold(db, caseId)
    ensures ContactTold(Run(db, inputs), caseId)
    decreases |inputs|
  {
    if inputs != [] {
      StepTellsContact(db, inputs[0], caseId);
      RunTellsContact(Step(db, inputs[0]), inputs[1..], caseId);
    }
  }

  /** After any run, last_action is the verb of the case's last unrecovered contact action row. */
  lemma LastActionTells(inputs: seq<Input>, caseId: string)
    requires caseId in Run(EMPTY_DB, inputs).cases
    ensures var db := Run(EMPTY_DB, inputs);
            db.cases[caseId].lastAction == LastContact(db.ledger, caseId)
  {
    RunTellsContact(EMPTY_DB, inputs, caseId);
  }
}
