/**
 The attempt and contact caps over whole runs: the counters count the ledger's rows, and with
 contexts that carry the case's own counters the caps bound what a case can ever be charged.
 */
module Caps {
  import opened Wrappers
  import opened Policy
  import opened Gates
  import opened Ledger
  import opened Machine
  import opened Traces

  // What a gated action row did: it recovered the money, or used up a retry or a contact, or neither.
  datatype Charge = Recovery | RetryUsed | ContactUsed | NothingUsed

  function ChargeOf(a: StoredAction, out: Outcome): Charge {
    if out.recovered then Recovery
    else match a.verb
      case Some(ScheduleRetry) => RetryUsed
      case Some(SendPaymentLink) => ContactUsed
      case Some(RequestMandateUpdate) => ContactUsed
      case _ => NothingUsed
  }

  predicate IsExecutionOf(r: Row, caseId: string) {
    r.caseId == caseId && IsGated(r) && r.payload.action.Some? && r.payload.outcome.Some?
  }

  predicate MovesMoney(r: Row, caseId: string) {
    IsExecutionOf(r, caseId) && r.payload.action.value.verb.Some? && IsMoneyVerb(r.payload.action.value.verb.value)
  }

  function CountCharges(ledger: seq<Row>, caseId: string, charge: Charge): nat {
    if ledger == [] then 0
    else
      var r := ledger[|ledger| - 1];
      CountCharges(ledger[..|ledger| - 1], caseId, charge)
      + if IsExecutionOf(r, caseId) && ChargeOf(r.payload.action.value, r.payload.outcome.value) == charge then 1 else 0
  }

  function MoneyRows(ledger: seq<Row>, caseId: string): nat {
    if ledger == [] then 0
    else MoneyRows(ledger[..|ledger| - 1], caseId) + if MovesMoney(ledger[|ledger| - 1], caseId) then 1 else 0
  }

  lemma {:induction false} CountsAppend(l: seq<Row>, m: seq<Row>, caseId: string, charge: Charge)
    ensures CountCharges(l + m, caseId, charge) == CountCharges(l, caseId, charge) + CountCharges(m, caseId, charge)
    ensures MoneyRows(l + m, caseId) == MoneyRows(l, caseId) + MoneyRows(m, caseId)
  {
    if m == [] {
      assert l + m == l;
    } else {
      assert (l + m)[..|l + m| - 1] == l + m[..|m| - 1];
      CountsAppend(l, m[..|m| - 1], caseId, charge);
    }
  }

  lemma {:induction false} NothingCounted(l: seq<Row>, caseId: string, charge: Charge)
    requires forall i :: 0 <= i < |l| ==> l[i].caseId != caseId || !IsGated(l[i])
    ensures CountCharges(l, caseId, charge) == 0 && MoneyRows(l, caseId) == 0
  {
    if l != [] {
      NothingCounted(l[..|l| - 1], caseId, charge);
    }
  }

  lemma ExecutionCharges(caseId: string, gates: seq<Row>, a: Action, key: string, out: Outcome, charge: Charge)
    requires forall i :: 0 <= i < |gates| ==> !IsGated(gates[i])
    ensures var rows := gates + ExecutionRows(caseId, a, key, out);
            && CountCharges(rows, caseId, charge) == (if ChargeOf(Dump(a), out) == charge then 1 else 0)
            && MoneyRows(rows, caseId) == (if IsMoneyVerb(a.verb) then 1 else 0)
  {
    var head := gates + ([OutcomeRowOf(caseId, out)] + if out.recovered then [StopRowOf(caseId, WasRecovered)] else []);
    var last := [ActionRowOf(caseId, a, key, out)];
    assert gates + ExecutionRows(caseId, a, key, out) == head + last;
    NothingCounted(head, caseId, charge);
    CountsAppend(head, last, caseId, charge);
    assert last[..0] == [];
  }

  // What one step charges to a case.
  lemma StepCharges(db: Db, input: Input, caseId: string, charge: Charge)
    ensures CountCharges(Step(db, input).ledger, caseId, charge)
            == CountCharges(db.ledger, caseId, charge)
               + if Performs(db, input, caseId) && ChargeOf(Dump(input.ctx.facts.action), input.executor.value) == charge then 1 else 0
    ensures MoneyRows(Step(db, input).ledger, caseId)
            == MoneyRows(db.ledger, caseId)
               + if Performs(db, input, caseId) && IsMoneyVerb(input.ctx.facts.action.verb) then 1 else 0
  {
    StepAppends(db, input);
    var rows := Emitted(db, input);
    CountsAppend(db.ledger, rows, caseId, charge);
    if Performs(db, input, caseId) {
      var live := Live(db, caseId, input.ctx);
      var gates := GateRows(caseId, Checks(live), live.fingerprint);
      ExecutionCharges(caseId, gates, input.ctx.facts.action, live.fingerprint, input.executor.value, charge);
    } else {
      UnperformedRowsAreNotGated(db, input, caseId);
      NothingCounted(rows, caseId, charge);
    }
  }

  // The step runs the adapter on this case.
  predicate Performs(db: Db, input: Input, caseId: string) {
    && input.Guarded? && input.caseId == caseId && caseId in db.cases
    && VerdictOf(db, caseId, input.ctx).Admitted? && input.executor.Some?
  }

  lemma UnperformedRowsAreNotGated(db: Db, input: Input, caseId: string)
    requires !Performs(db, input, caseId)
    ensures var rows := Emitted(db, input);
            forall i :: 0 <= i < |rows| ==> rows[i].caseId != caseId || !IsGated(rows[i])
  {
    if input.Guarded? && input.caseId in db.cases {
      GuardedRowsOfCase(db, input.caseId, input.ctx, input.executor);
    }
  }

  /******* The counters count *******/

  predicate Tallied(db: Db, caseId: string) {
    if caseId in db.cases then
      && db.cases[caseId].attemptsUsed == CountCharges(db.ledger, caseId, RetryUsed)
      && db.cases[caseId].contactsUsed == CountCharges(db.ledger, caseId, ContactUsed)
    else
      forall i :: 0 <= i < |db.ledger| ==> db.ledger[i].caseId != caseId
  }

  // What one step does to a case's counters.
  lemma StepCounts(db: Db, input: Input, caseId: string)
    requires caseId in db.cases
    ensures caseId in Step(db, input).cases
    ensures var c, c' := db.cases[caseId], Step(db, input).cases[caseId];
            var charge := if Performs(db, input, caseId) then ChargeOf(Dump(input.ctx.facts.action), input.executor.value) else NothingUsed;
            && c'.attemptsUsed == c.attemptsUsed + (if charge == RetryUsed then 1 else 0)
            && c'.contactsUsed == c.contactsUsed + (if charge == ContactUsed then 1 else 0)
  {
  }

  lemma StepKeepsTally(db: Db, input: Input, caseId: string)
    requires Tallied(db, caseId)
    ensures Tallied(Step(db, input), caseId)
  {
    if caseId in db.cases {
      StepCounts(db, input, caseId);
      StepCharges(db, input, caseId, RetryUsed);
      StepCharges(db, input, caseId, ContactUsed);
    } else {
      StrangerStays(db, input, caseId);
    }
  }

  lemma StrangerStays(db: Db, input: Input, caseId: string)
    requires caseId !in db.cases && Tallied(db, caseId)
    ensures Tallied(Step(db, input), caseId)
    ensures CountCharges(Step(db, input).ledger, caseId, Recovery) == MoneyRows(Step(db, input).ledger, caseId) == 0
  {
    StepAppends(db, input);
    var db', rows := Step(db, input), Emitted(db, input);
    if input.Guarded? && input.caseId in db.cases {
      GuardedRowsOfCase(db, input.caseId, input.ctx, input.executor);
    }
    forall i | 0 <= i < |db'.ledger|
      ensures db'.ledger[i].caseId != caseId || !IsGated(db'.ledger[i])
      ensures caseId !in db'.cases ==> db'.ledger[i].caseId != caseId
    {
      if i >= |db.ledger| { assert db'.ledger[i] == rows[i - |db.ledger|]; }
    }
    NothingCounted(db'.ledger, caseId, RetryUsed);
    NothingCounted(db'.ledger, caseId, ContactUsed);
    NothingCounted(db'.ledger, caseId, Recovery);
  }

  lemma {:induction false} RunKeepsTally(db: Db, inputs: seq<Input>, caseId: string)
    requires Tallied(db, caseId)
    ensures Tallied(Run(db, inputs), caseId)
    decreases |inputs|
  {
    if inputs != [] {
      StepKeepsTally(db, inputs[0], caseId);
      RunKeepsTally(Step(db, inputs[0]), inputs[1..], caseId);
    }
  }

  /** After any run - whatever the contexts claimed - attempts_used is the number of the case's
      unrecovered retry actions and contacts_used that of its unrecovered contact actions. */
  lemma CountersCountRows(inputs: seq<Input>, caseId: string)
    requires caseId in Run(EMPTY_DB, inputs).cases
    ensures var db := Run(EMPTY_DB, inputs);
            && db.cases[caseId].attemptsUsed == CountCharges(db.ledger, caseId, RetryUsed)
            && db.cases[caseId].contactsUsed == CountCharges(db.ledger, caseId, ContactUsed)
  {
    RunKeepsTally(EMPTY_DB, inputs, caseId);
  }

  /******* The caps bound *******/

  // Along the run, every pipeline call on the case carries these caps and counters no lower than the
  // case's own.
  predicate NeverUnderReports(db: Db, inputs: seq<Input>, caseId: string, maxAttempts: int, maxContacts: int)
    decreases |inputs|
  {
    inputs != [] ==> (
    && (inputs[0].Guarded? && inputs[0].caseId == caseId && caseId in db.cases ==>
          var f := inputs[0].ctx.facts;
          && f.attemptsUsed >= db.cases[caseId].attemptsUsed && f.contactsUsed >= db.cases[caseId].contactsUsed
          && f.maxAttempts == maxAttempts && f.maxContacts == maxContacts)
    && NeverUnderReports(Step(db, inputs[0]), inputs[1..], caseId, maxAttempts, maxContacts))
  }

  predicate WithinCaps(db: Db, caseId: string, maxAttempts: int, maxContacts: int) {
    caseId in db.cases ==>
      var c, money := db.cases[caseId], MoneyRows(db.ledger, caseId);
      && c.attemptsUsed <= AtLeastZero(maxAttempts)
      && c.contactsUsed <= AtLeastZero(maxContacts)
      && c.attemptsUsed + c.contactsUsed <= money <= c.attemptsUsed + c.contactsUsed + 1
      // One more than the counters: the recovering action, which the attempt cap admitted.
      && (money > c.attemptsUsed + c.contactsUsed ==> Closed(c) && c.attemptsUsed < maxAttempts)
  }

  lemma PerformedWithinCaps(db: Db, caseId: string, ctx: Context, out: Outcome, maxAttempts: int, maxContacts: int)
    requires caseId in db.cases && WithinCaps(db, caseId, maxAttempts, maxContacts)
    requires VerdictOf(db, caseId, ctx).Admitted?
    requires ctx.facts.attemptsUsed >= db.cases[caseId].attemptsUsed && ctx.facts.contactsUsed >= db.cases[caseId].contactsUsed
    requires ctx.facts.maxAttempts == maxAttempts && ctx.facts.maxContacts == maxContacts
    ensures WithinCaps(GuardedDb(db, caseId, ctx, Some(out)), caseId, maxAttempts, maxContacts)
  {
    AdmissionRule(Live(db, caseId, ctx));
    StepCharges(db, Guarded(caseId, ctx, Some(out)), caseId, Recovery);
  }

  lemma StepKeepsCaps(db: Db, input: Input, caseId: string, maxAttempts: int, maxContacts: int)
    requires Tallied(db, caseId) && WithinCaps(db, caseId, maxAttempts, maxContacts)
    requires NeverUnderReports(db, [input], caseId, maxAttempts, maxContacts)
    ensures WithinCaps(Step(db, input), caseId, maxAttempts, maxContacts)
  {
    if caseId !in db.cases {
      StrangerStays(db, input, caseId);
    } else if Performs(db, input, caseId) {
      PerformedWithinCaps(db, caseId, input.ctx, input.executor.value, maxAttempts, maxContacts);
    } else {
      StepCharges(db, input, caseId, Recovery);
      StepCounts(db, input, caseId);
      if Closed(db.cases[caseId]) { IdleStepKeepsStatus(db, input, caseId); }
    }
  }

  lemma IdleStepKeepsStatus(db: Db, input: Input, caseId: string)
    requires caseId in db.cases && !Performs(db, input, caseId) && Closed(db.cases[caseId])
    ensures caseId in Step(db, input).cases && Closed(Step(db, input).cases[caseId])
  {
  }

  lemma {:induction false} RunKeepsCaps(db: Db, inputs: seq<Input>, caseId: string, maxAttempts: int, maxContacts: int)
    requires Tallied(db, caseId) && WithinCaps(db, caseId, maxAttempts, maxContacts)
    requires NeverUnderReports(db, inputs, caseId, maxAttempts, maxContacts)
    ensures WithinCaps(Run(db, inputs), caseId, maxAttempts, maxContacts)
    decreases |inputs|
  {
    if inputs != [] {
      StepKeepsCaps(db, inputs[0], caseId, maxAttempts, maxContacts);
      StepKeepsTally(db, inputs[0], caseId);
      RunKeepsCaps(Step(db, inputs[0]), inputs[1..], caseId, maxAttempts, maxContacts);
    }
  }

  /** With fixed caps and counters never under-reported, neither counter exceeds its cap, and the case's
      money-moving action rows - the recovering one included - never exceed the two caps together. */
  lemma CapsBoundMoneyActions(inputs: seq<Input>, caseId: string, maxAttempts: int, maxContacts: int)
    requires NeverUnderReports(EMPTY_DB, inputs, caseId, maxAttempts, maxContacts)
    requires caseId in Run(EMPTY_DB, inputs).cases
    ensures var db := Run(EMPTY_DB, inputs);
            && db.cases[caseId].attemptsUsed <= AtLeastZero(maxAttempts)
            && db.cases[caseId].contactsUsed <= AtLeastZero(maxContacts)
            && MoneyRows(db.ledger, caseId) <= AtLeastZero(maxAttempts) + AtLeastZero(maxContacts)
  {
    RunKeepsCaps(EMPTY_DB, inputs, caseId, maxAttempts, maxContacts);
  }

  /******* Counters and money rows, whatever the contexts claim *******/

  predicate Accounted(db: Db, caseId: string) {
    caseId in db.cases ==>
      var used, money := db.cases[caseId].attemptsUsed + db.cases[caseId].contactsUsed, MoneyRows(db.ledger, caseId);
      used <= money <= used + 1 && (!Closed(db.cases[caseId]) ==> money == used)
  }

  lemma StepKeepsAccounts(db: Db, input: Input, caseId: string)
    requires Tallied(db, caseId) && Accounted(db, caseId)
    ensures Accounted(Step(db, input), caseId)
  {
    if caseId !in db.cases {
      StrangerStays(db, input, caseId);
    } else {
      StepCharges(db, input, caseId, Recovery);
      StepCounts(db, input, caseId);
      if Performs(db, input, caseId) {
        OnlyRecoveryCloses(db, caseId, input.ctx, input.executor.value);
      } else if Closed(db.cases[caseId]) {
        IdleStepKeepsStatus(db, input, caseId);
      }
    }
  }

  lemma OnlyRecoveryCloses(db: Db, caseId: string, ctx: Context, out: Outcome)
    requires caseId in db.cases && VerdictOf(db, caseId, ctx).Admitted?
    ensures !Closed(db.cases[caseId])
    ensures Closed(GuardedDb(db, caseId, ctx, Some(out)).cases[caseId]) <==> out.recovered
  {
  }

  lemma {:induction false} RunKeepsAccounts(db: Db, inputs: seq<Input>, caseId: string)
    requires Tallied(db, caseId) && Accounted(db, caseId)
    ensures Accounted(Run(db, inputs), caseId)
    decreases |inputs|
  {
    if inputs != [] {
      StepKeepsAccounts(db, inputs[0], caseId);
      StepKeepsTally(db, inputs[0], caseId);
      RunKeepsAccounts(Step(db, inputs[0]), inputs[1..], caseId);
    }
  }

  /** After any run, whatever the contexts claimed, an open case has used up exactly one attempt or
      contact per money-moving action row; a closed one may have one row more, the recovering one. */
  lemma MoneyRowsAreUsedUp(inputs: seq<Input>, caseId: string)
    requires caseId in Run(EMPTY_DB, inputs).cases
    ensures var db := Run(EMPTY_DB, inputs);
            var used, money := db.cases[caseId].attemptsUsed + db.cases[caseId].contactsUsed, MoneyRows(db.ledger, caseId);
            used <= money <= used + 1 && (!Closed(db.cases[caseId]) ==> money == used)
  {
    RunKeepsAccounts(EMPTY_DB, inputs, caseId);
  }

  /******* When the caps break *******/

  predicate CountersWithin(c: CaseRow, f: Facts) {
    c.attemptsUsed <= AtLeastZero(f.maxAttempts) && c.contactsUsed <= AtLeastZero(f.maxContacts)
  }

  // Both of the case's own counters stand at their caps.
  predicate BothCapsReached(c: CaseRow, f: Facts) {
    c.attemptsUsed >= AtLeastZero(f.maxAttempts) && c.contactsUsed >= AtLeastZero(f.maxContacts)
  }

  // The counter that the action would use up stands at its cap already.
  predicate OwnCapReached(c: CaseRow, f: Facts) {
    || (f.action.verb.ScheduleRetry? && c.attemptsUsed >= AtLeastZero(f.maxAttempts))
    || (IsContactVerb(f.action.verb) && c.contactsUsed >= AtLeastZero(f.maxContacts))
  }

  predicate UnderReports(c: CaseRow, f: Facts) {
    f.attemptsUsed < c.attemptsUsed || f.contactsUsed < c.contactsUsed
  }

  // What a money verb adds to the case's money-moving action rows.
  function MoneyMoved(verb: ActionVerb): nat {
    if IsMoneyVerb(verb) then 1 else 0
  }

  /** The money bound fails exactly here: after any run, a call that is admitted - whatever its context
      claims and however the adapter answers - takes the case's money-moving action rows beyond
      the two caps together if and only if the attempts and contacts that the case has used up,
      with this action, exceed them.  While no counter stands beyond its cap yet, that means a
      money verb with both counters at their caps, and then this very context under-reports. */
  lemma MoneyBoundBreaksExactly(inputs: seq<Input>, caseId: string, ctx: Context, out: Outcome)
    requires caseId in Run(EMPTY_DB, inputs).cases && VerdictOf(Run(EMPTY_DB, inputs), caseId, ctx).Admitted?
    ensures var db, f := Run(EMPTY_DB, inputs), ctx.facts;
            var c, bound := db.cases[caseId], AtLeastZero(f.maxAttempts) + AtLeastZero(f.maxContacts);
            var breaks := MoneyRows(GuardedDb(db, caseId, ctx, Some(out)).ledger, caseId) > bound;
            && (breaks <==> c.attemptsUsed + c.contactsUsed + MoneyMoved(f.action.verb) > bound)
            && (CountersWithin(c, f) ==> (breaks <==> IsMoneyVerb(f.action.verb) && BothCapsReached(c, f)))
            && (CountersWithin(c, f) && breaks ==> UnderReports(c, f))
  {
    var db := Run(EMPTY_DB, inputs);
    MoneyRowsAreUsedUp(inputs, caseId);
    StepCharges(db, Guarded(caseId, ctx, Some(out)), caseId, Recovery);
    AdmissionRule(Live(db, caseId, ctx));
  }

  // Every pipeline call on the case carries these caps.
  predicate FixedCaps(inputs: seq<Input>, caseId: string, maxAttempts: int, maxContacts: int) {
    forall i :: 0 <= i < |inputs| && inputs[i].Guarded? && inputs[i].caseId == caseId ==>
      inputs[i].ctx.facts.maxAttempts == maxAttempts && inputs[i].ctx.facts.maxContacts == maxContacts
  }

  // The input is a pipeline call on the case whose context reports less than the case's own counters.
  predicate UnderReportingCall(db: Db, input: Input, caseId: string) {
    input.Guarded? && input.caseId == caseId && caseId in db.cases && UnderReports(db.cases[caseId], input.ctx.facts)
  }

  lemma {:induction false} SomeCallUnderReports(db: Db, inputs: seq<Input>, caseId: string, maxAttempts: int, maxContacts: int)
    returns (j: nat)
    requires FixedCaps(inputs, caseId, maxAttempts, maxContacts)
    requires !NeverUnderReports(db, inputs, caseId, maxAttempts, maxContacts)
    ensures j < |inputs| && UnderReportingCall(Run(db, inputs[..j]), inputs[j], caseId)
    decreases |inputs|
  {
    if UnderReportingCall(db, inputs[0], caseId) {
      assert inputs[..0] == [];
      return 0;
    }
    var rest := inputs[1..];
    assert forall i :: 0 <= i < |rest| ==> rest[i] == inputs[i + 1];
    var k := SomeCallUnderReports(Step(db, inputs[0]), rest, caseId, maxAttempts, maxContacts);
    assert inputs[..k + 1][0] == inputs[0] && inputs[..k + 1][1..] == rest[..k];
    return k + 1;
  }

  /** With fixed caps, no run takes a counter or the money-moving action rows beyond them unless some
      call of the run - not necessarily the one that does - under-reported the case's own counters. */
  lemma OnlyUnderReportingBreaks(inputs: seq<Input>, caseId: string, maxAttempts: int, maxContacts: int) returns (j: nat)
    requires FixedCaps(inputs, caseId, maxAttempts, maxContacts) && caseId in Run(EMPTY_DB, inputs).cases
    requires var db := Run(EMPTY_DB, inputs);
             || MoneyRows(db.ledger, caseId) > AtLeastZero(maxAttempts) + AtLeastZero(maxContacts)
             || db.cases[caseId].attemptsUsed > AtLeastZero(maxAttempts)
             || db.cases[caseId].contactsUsed > AtLeastZero(maxContacts)
    ensures j < |inputs| && UnderReportingCall(Run(EMPTY_DB, inputs[..j]), inputs[j], caseId)
  {
    if NeverUnderReports(EMPTY_DB, inputs, caseId, maxAttempts, maxContacts) {
      CapsBoundMoneyActions(inputs, caseId, maxAttempts, maxContacts);
      assert false;
    }
    j := SomeCallUnderReports(EMPTY_DB, inputs, caseId, maxAttempts, maxContacts);
  }

  lemma CapsBreakOn(db: Db, caseId: string, ctx: Context, out: Outcome)
    requires caseId in db.cases && CountersWithin(db.cases[caseId], ctx.facts)
    requires VerdictOf(db, caseId, ctx).Admitted?
    ensures !CountersWithin(GuardedDb(db, caseId, ctx, Some(out)).cases[caseId], ctx.facts)
            <==> OwnCapReached(db.cases[caseId], ctx.facts) && !out.recovered
  {
  }

  // For every answer of the adapter the case's counters stay within the caps.
  ghost predicate StaysWithin(db: Db, caseId: string, ctx: Context)
    requires caseId in db.cases
  {
    forall out: Outcome :: CountersWithin(GuardedDb(db, caseId, ctx, Some(out)).cases[caseId], ctx.facts)
  }

  /** Likewise for the counters: from within the caps, an admitted call can take one beyond its cap -
      and does, unless the money comes back - if and only if the counter it uses up stands at its
      cap.  Only an under-reporting context is admitted then. */
  lemma CapsBreakExactly(db: Db, caseId: string, ctx: Context)
    requires caseId in db.cases && CountersWithin(db.cases[caseId], ctx.facts)
    requires VerdictOf(db, caseId, ctx).Admitted?
    ensures var c, f := db.cases[caseId], ctx.facts;
            && (StaysWithin(db, caseId, ctx) <==> !OwnCapReached(c, f))
            && (forall out: Outcome ::
                  !CountersWithin(GuardedDb(db, caseId, ctx, Some(out)).cases[caseId], f) <==> OwnCapReached(c, f) && !out.recovered)
            && (OwnCapReached(c, f) ==> UnderReports(c, f))
  {
    AdmissionRule(Live(db, caseId, ctx));
    forall out: Outcome
      ensures !CountersWithin(GuardedDb(db, caseId, ctx, Some(out)).cases[caseId], ctx.facts)
              <==> OwnCapReached(db.cases[caseId], ctx.facts) && !out.recovered
    {
      CapsBreakOn(db, caseId, ctx, out);
    }
    var failing := Outcome(false, None, false, Failed);
    assert OwnCapReached(db.cases[caseId], ctx.facts) ==>
             !CountersWithin(GuardedDb(db, caseId, ctx, Some(failing)).cases[caseId], ctx.facts);
  }
}
