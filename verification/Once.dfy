/**
 Durable idempotency over whole runs: the set of executed keys is forgotten between calls and
 rebuilt from the ledger, and still no action is ever performed twice on a case.
 */
module Once {
  import opened Wrappers
  import opened Policy
  import opened Fingerprint
  import opened Gates
  import opened Ledger
  import opened Machine
  import opened Traces

  // A context nobody has tampered with: it is about the case it is used on, its idempotency set
  // is still empty, and a cached key, if any, is the right one.  Every call builds a new one,
  // so nothing here survives a restart.
  predicate IsFresh(caseId: string, ctx: Context) {
    && ctx.facts.caseId == caseId
    && ctx.executed == {}
    && (ctx.fingerprint == "" || ctx.fingerprint == FingerprintAction(caseId, ctx.facts.action))
  }

  predicate AllFresh(inputs: seq<Input>) {
    forall i :: 0 <= i < |inputs| && inputs[i].Guarded? ==> IsFresh(inputs[i].caseId, inputs[i].ctx)
  }

  // The row stores this action, and contributes exactly its key to the replay.
  predicate Tells(r: Row, a: Action) {
    && r.kind.ActionRow? && r.payload.action == Some(Dump(a))
    && RowFingerprint(r) == Some(FingerprintAction(r.caseId, a))
  }

  // Every action row tells some action, except drafts, which store none and contribute nothing.
  ghost predicate RowTells(r: Row) {
    r.kind.ActionRow? ==>
      (exists a: Action :: Tells(r, a)) || (r.payload.action.None? && !IsGated(r) && RowFingerprint(r).None?)
  }

  ghost predicate RowsTell(ledger: seq<Row>) {
    forall i :: 0 <= i < |ledger| ==> RowTells(ledger[i])
  }

  predicate SameExecution(e: Execution, e': Execution) {
    e.caseId == e'.caseId && e.action == e'.action
  }

  predicate NoRepeats(es: seq<Execution>) {
    forall i, j :: 0 <= i < j < |es| ==> !SameExecution(es[i], es[j])
  }

  ghost predicate OnceInv(db: Db) {
    RowsTell(db.ledger) && NoRepeats(Executions(db.ledger))
  }

  /******* Facts about single rows *******/

  lemma DumpKeepsIdentity(a: Action, b: Action)
    ensures Dump(a) == Dump(b) <==> IdentityOf(a) == IdentityOf(b)
    ensures Dump(a) == Dump(b) ==> forall c :: FingerprintAction(c, a) == FingerprintAction(c, b)
  {
  }

  lemma GatedRowTells(caseId: string, a: Action, out: Outcome)
    ensures Tells(ActionRowOf(caseId, a, FingerprintAction(caseId, a), out), a)
  {
    FingerprintNotEmpty(caseId, a);
  }

  lemma ForeignRowTells(caseId: string, kind: LedgerKind, action: Option<Action>, reasonCode: string)
    ensures RowTells(ForeignRow(caseId, kind, action, reasonCode))
  {
    var r := ForeignRow(caseId, kind, action, reasonCode);
    if kind.ActionRow? && action.Some? {
      ReplayRecomposesLiveKey(r, action.value);
      assert Tells(r, action.value);
    }
  }

  lemma {:induction false} ExecutionHasRow(ledger: seq<Row>, e: Execution)
    requires e in Executions(ledger)
    ensures exists i :: 0 <= i < |ledger| && IsGated(ledger[i])
                        && e == Execution(ledger[i].caseId, ledger[i].payload.action, ledger[i].payload.outcome)
  {
    var n := |ledger| - 1;
    var r := ledger[n];
    if e in Executions(ledger[..n]) {
      ExecutionHasRow(ledger[..n], e);
      var i :| 0 <= i < n && IsGated(ledger[..n][i])
               && e == Execution(ledger[..n][i].caseId, ledger[..n][i].payload.action, ledger[..n][i].payload.outcome);
      assert ledger[..n][i] == ledger[i];
    }
  }

  // A stored action is found by the replay under its key.
  lemma StoredActionIsReplayed(ledger: seq<Row>, i: nat, a: Action)
    requires RowsTell(ledger) && i < |ledger|
    requires ledger[i].kind.ActionRow? && ledger[i].payload.action == Some(Dump(a))
    ensures FingerprintAction(ledger[i].caseId, a) in Replay(ledger, ledger[i].caseId)
  {
    var r := ledger[i];
    assert RowTells(r);
    var b: Action :| Tells(r, b);
    DumpKeepsIdentity(a, b);
    assert Contributes(r, r.caseId, FingerprintAction(r.caseId, a));
    ReplayMembers(ledger, r.caseId, FingerprintAction(r.caseId, a));
  }

  lemma AdmittedIsNew(db: Db, caseId: string, ctx: Context, e: Execution)
    requires OnceInv(db) && caseId in db.cases && IsFresh(caseId, ctx)
    requires VerdictOf(db, caseId, ctx).Admitted?
    requires e in Executions(db.ledger)
    ensures e.caseId != caseId || e.action != Some(Dump(ctx.facts.action))
  {
    if e.caseId == caseId && e.action == Some(Dump(ctx.facts.action)) {
      ExecutionHasRow(db.ledger, e);
      var i :| 0 <= i < |db.ledger| && IsGated(db.ledger[i])
               && e == Execution(db.ledger[i].caseId, db.ledger[i].payload.action, db.ledger[i].payload.outcome);
      StoredActionIsReplayed(db.ledger, i, ctx.facts.action);
      AdmissionRule(Live(db, caseId, ctx));
      assert false;
    }
  }

  /******* Preservation *******/

  lemma RowsTellAppend(ledger: seq<Row>, rows: seq<Row>)
    requires RowsTell(ledger)
    requires forall k :: 0 <= k < |rows| ==> RowTells(rows[k])
    ensures RowsTell(ledger + rows)
  {
    forall i | 0 <= i < |ledger + rows|
      ensures RowTells((ledger + rows)[i])
    {
      if i >= |ledger| { assert (ledger + rows)[i] == rows[i - |ledger|]; }
    }
  }

  lemma GuardedRowsTell(db: Db, caseId: string, ctx: Context, executor: Option<Outcome>)
    requires caseId in db.cases && IsFresh(caseId, ctx)
    ensures RowsTell(GuardedRows(db, caseId, ctx, executor))
  {
    if VerdictOf(db, caseId, ctx).Admitted? && executor.Some? {
      AdmittedRows(db, caseId, ctx, executor.value);
      PreambleHasNoAction(db, caseId, ctx, executor.value);
      GatedRowTells(caseId, ctx.facts.action, executor.value);
      RowsTellAppend(Preamble(db, caseId, ctx, executor.value),
                     [ActionRowOf(caseId, ctx.facts.action, KeyOf(ctx), executor.value)]);
    } else {
      UnexecutedHasNoAction(db, caseId, ctx, executor);
    }
  }

  lemma NoRepeatsAppend(es: seq<Execution>, more: seq<Execution>)
    requires NoRepeats(es) && |more| <= 1
    requires forall e :: e in es && more != [] ==> !SameExecution(e, more[0])
    ensures NoRepeats(es + more)
  {
  }

  lemma GuardedKeepsOnce(db: Db, caseId: string, ctx: Context, executor: Option<Outcome>)
    requires OnceInv(db) && caseId in db.cases && IsFresh(caseId, ctx)
    ensures OnceInv(GuardedDb(db, caseId, ctx, executor))
  {
    var rows, calls := GuardedRows(db, caseId, ctx, executor), GuardedCalls(db, caseId, ctx, executor);
    GuardedRowsTell(db, caseId, ctx, executor);
    RowsTellAppend(db.ledger, rows);
    ExecutionsAppend(db.ledger, rows);
    GuardedExecutes(db, caseId, ctx, executor);
    forall e | e in Executions(db.ledger) && calls != []
      ensures !SameExecution(e, Performed(calls)[0])
    {
      AdmittedIsNew(db, caseId, ctx, e);
    }
    NoRepeatsAppend(Executions(db.ledger), Performed(calls));
  }

  lemma StepKeepsOnce(db: Db, input: Input)
    requires OnceInv(db)
    requires input.Guarded? ==> IsFresh(input.caseId, input.ctx)
    ensures OnceInv(Step(db, input))
  {
    if input.Guarded? {
      if input.caseId in db.cases {
        GuardedKeepsOnce(db, input.caseId, input.ctx, input.executor);
      }
    } else {
      StepAppends(db, input);
      if input.Foreign? {
        ForeignRowTells(input.caseId, input.kind, input.action, input.reasonCode);
      }
      RowsTellAppend(db.ledger, Emitted(db, input));
      ExecutionsAppend(db.ledger, Emitted(db, input));
      StepExecutes(db, input);
      assert Executions(db.ledger) + [] == Executions(db.ledger);
    }
  }

  lemma {:induction false} RunKeepsOnce(db: Db, inputs: seq<Input>)
    requires OnceInv(db) && AllFresh(inputs)
    ensures OnceInv(Run(db, inputs))
    decreases |inputs|
  {
    if inputs != [] {
      StepKeepsOnce(db, inputs[0]);
      assert forall i :: 0 <= i < |inputs[1..]| ==> inputs[1..][i] == inputs[i + 1];
      RunKeepsOnce(Step(db, inputs[0]), inputs[1..]);
    }
  }

  /******* Main results *******/

  /** Over any run with fresh contexts the adapter never performs the same action twice on a
      case: same case and same verb, day offset, channel and reason code. */
  lemma AtMostOnce(inputs: seq<Input>)
    requires AllFresh(inputs)
    ensures var calls := RunCalls(EMPTY_DB, inputs);
            forall i, j :: 0 <= i < j < |calls| && calls[i].caseId == calls[j].caseId ==>
              IdentityOf(calls[i].action) != IdentityOf(calls[j].action)
  {
    RunKeepsOnce(EMPTY_DB, inputs);
    AdapterCallsMatchLedger(EMPTY_DB, inputs);
    var calls, db := RunCalls(EMPTY_DB, inputs), Run(EMPTY_DB, inputs);
    var es := Performed(calls);
    assert Executions(db.ledger) == [] + es == es;
    forall i, j | 0 <= i < j < |calls| && calls[i].caseId == calls[j].caseId
      ensures IdentityOf(calls[i].action) != IdentityOf(calls[j].action)
    {
      assert !SameExecution(es[i], es[j]);
      DumpKeepsIdentity(calls[i].action, calls[j].action);
    }
  }

  // Some action row of the case stores an action with this identity.
  predicate OnRecord(ledger: seq<Row>, caseId: string, a: Action) {
    exists i :: 0 <= i < |ledger| && ledger[i].caseId == caseId && ledger[i].kind.ActionRow?
                && ledger[i].payload.action == Some(Dump(a))
  }

  /** The idempotency gate is exact: after any fresh run it blocks an action if and only if an action
      row of that case already stores the same one.  No duplicate gets through and no different
      action is mistaken for one. */
  lemma IdempotencyGateIsExact(inputs: seq<Input>, caseId: string, ctx: Context)
    requires AllFresh(inputs) && IsFresh(caseId, ctx)
    requires caseId in Run(EMPTY_DB, inputs).cases
    ensures var db := Run(EMPTY_DB, inputs);
            GateIdempotency(Live(db, caseId, ctx)).passed <==> !OnRecord(db.ledger, caseId, ctx.facts.action)
  {
    RunKeepsOnce(EMPTY_DB, inputs);
    var db, a := Run(EMPTY_DB, inputs), ctx.facts.action;
    var live, key := Live(db, caseId, ctx), FingerprintAction(caseId, a);
    FingerprintNotEmpty(caseId, a);
    assert KeyOf(live) == key && live.executed == Replay(db.ledger, caseId);
    if key in Replay(db.ledger, caseId) {
      ReplayMembers(db.ledger, caseId, key);
      var i :| 0 <= i < |db.ledger| && Contributes(db.ledger[i], caseId, key);
      assert RowTells(db.ledger[i]);
      var b: Action :| Tells(db.ledger[i], b);
      FaithfulWithinCase(caseId, a, b);
      DumpKeepsIdentity(a, b);
      assert OnRecord(db.ledger, caseId, a);
    }
    if i :| 0 <= i < |db.ledger| && db.ledger[i].caseId == caseId && db.ledger[i].kind.ActionRow?
            && db.ledger[i].payload.action == Some(Dump(a)) {
      StoredActionIsReplayed(db.ledger, i, a);
    }
  }

  /******* Contexts that are not fresh *******/

  predicate UniqueKeys(ledger: seq<Row>) {
    forall i, j :: 0 <= i < j < |ledger| && IsGated(ledger[i]) && IsGated(ledger[j]) && ledger[i].caseId == ledger[j].caseId ==>
      ledger[i].payload.actionFingerprint != ledger[j].payload.actionFingerprint
  }

  predicate KeyWritten(ledger: seq<Row>, caseId: string, key: string) {
    exists i :: 0 <= i < |ledger| && IsGated(ledger[i]) && ledger[i].caseId == caseId
                && ledger[i].payload.actionFingerprint == Some(key)
  }

  lemma UniqueKeysAppend(ledger: seq<Row>, quiet: seq<Row>, r: Row)
    requires UniqueKeys(ledger) && IsGated(r)
    requires forall k :: 0 <= k < |quiet| ==> !IsGated(quiet[k])
    ensures UniqueKeys(ledger + quiet + [r]) <==> !KeyWritten(ledger, r.caseId, r.payload.actionFingerprint.value)
  {
    var all := ledger + quiet + [r];
    var n := |all| - 1;
    assert all[n] == r;
    assert forall i :: 0 <= i < |ledger| ==> all[i] == ledger[i];
    assert forall i :: |ledger| <= i < n ==> all[i] == quiet[i - |ledger|];
    if KeyWritten(ledger, r.caseId, r.payload.actionFingerprint.value) {
      var i :| 0 <= i < |ledger| && IsGated(ledger[i]) && ledger[i].caseId == r.caseId
               && ledger[i].payload.actionFingerprint == r.payload.actionFingerprint;
      assert IsGated(all[i]) && IsGated(all[n]);
    }
  }

  /** For contexts in any state: an admitted execution keeps the case's keys unique exactly when
      its key has not been written before; the gates let a written key through only if the
      caller supplied a non-empty idempotency set that lacks it. */
  lemma InjectedSetIsTheOnlyHole(db: Db, caseId: string, ctx: Context, out: Outcome)
    requires caseId in db.cases && UniqueKeys(db.ledger)
    requires VerdictOf(db, caseId, ctx).Admitted?
    ensures UniqueKeys(GuardedDb(db, caseId, ctx, Some(out)).ledger) <==> !KeyWritten(db.ledger, caseId, KeyOf(ctx))
    ensures KeyWritten(db.ledger, caseId, KeyOf(ctx)) ==> ctx.executed != {} && KeyOf(ctx) !in ctx.executed
  {
    var live := Live(db, caseId, ctx);
    var key := KeyOf(ctx);
    FingerprintNotEmpty(ctx.facts.caseId, ctx.facts.action);
    var r, before := ActionRowOf(caseId, ctx.facts.action, key, out), Preamble(db, caseId, ctx, out);
    AdmittedRows(db, caseId, ctx, out);
    PreambleHasNoAction(db, caseId, ctx, out);
    UniqueKeysAppend(db.ledger, before, r);
    assert db.ledger + before + [r] == db.ledger + GuardedRows(db, caseId, ctx, Some(out));
    AdmissionRule(live);
    if KeyWritten(db.ledger, caseId, key) {
      var i :| 0 <= i < |db.ledger| && IsGated(db.ledger[i]) && db.ledger[i].caseId == caseId
               && db.ledger[i].payload.actionFingerprint == Some(key);
      assert Contributes(db.ledger[i], caseId, key);
      ReplayMembers(db.ledger, caseId, key);
    }
  }

  lemma UniqueKeysQuiet(ledger: seq<Row>, rows: seq<Row>)
    requires UniqueKeys(ledger)
    requires forall k :: 0 <= k < |rows| ==> !IsGated(rows[k])
    ensures UniqueKeys(ledger + rows)
  {
    var all := ledger + rows;
    forall i | |ledger| <= i < |all|
      ensures !IsGated(all[i])
    {
      assert all[i] == rows[i - |ledger|];
    }
  }

  lemma StepKeepsUniqueKeys(db: Db, input: Input)
    requires UniqueKeys(db.ledger)
    requires input.Guarded? ==> input.ctx.executed == {}
    ensures UniqueKeys(Step(db, input).ledger)
  {
    StepAppends(db, input);
    if input.Guarded? && input.caseId in db.cases && VerdictOf(db, input.caseId, input.ctx).Admitted? && input.executor.Some? {
      InjectedSetIsTheOnlyHole(db, input.caseId, input.ctx, input.executor.value);
    } else {
      UniqueKeysQuiet(db.ledger, Emitted(db, input));
    }
  }

  /** Whenever callers leave the idempotency set to the replay - whatever keys they cached - no two
      gated action rows of a case ever carry the same key. */
  lemma {:induction false} ReplayKeepsKeysUnique(db: Db, inputs: seq<Input>)
    requires UniqueKeys(db.ledger)
    requires forall i :: 0 <= i < |inputs| && inputs[i].Guarded? ==> inputs[i].ctx.executed == {}
    ensures UniqueKeys(Run(db, inputs).ledger)
    decreases |inputs|
  {
    if inputs != [] {
      StepKeepsUniqueKeys(db, inputs[0]);
      assert forall i :: 0 <= i < |inputs[1..]| ==> inputs[1..][i] == inputs[i + 1];
      ReplayKeepsKeysUnique(Step(db, inputs[0]), inputs[1..]);
    }
  }

  /******* When a performed action is performed again *******/

  // Nothing but the idempotency gate stands between the call and the adapter.
  predicate OnlyIdempotencyDecides(db: Db, caseId: string, ctx: Context) {
    && caseId in db.cases && !Closed(db.cases[caseId]) && !ctx.facts.optOut
    && AllPassed(Checks(Fresh(ctx.facts)))
  }

  /** A call that only the idempotency gate can stop reaches the adapter if and only if the key it
      carries is not in the set it consults - in any database, for a context in any state. */
  lemma ReachesAdapterExactly(db: Db, caseId: string, ctx: Context, out: Outcome)
    requires OnlyIdempotencyDecides(db, caseId, ctx)
    ensures GuardedCalls(db, caseId, ctx, Some(out))
            == if KeyOf(ctx) !in Carried(db, caseId, ctx) then [Call(caseId, ctx.facts.action, out)] else []
  {
    FingerprintNotEmpty(ctx.facts.caseId, ctx.facts.action);
    AdmissionRule(Fresh(ctx.facts));
    AdmissionRule(Live(db, caseId, ctx));
  }

  // The key is that of some action on the case's record.
  ghost predicate KeyOnRecord(ledger: seq<Row>, caseId: string, key: string) {
    exists b: Action :: OnRecord(ledger, caseId, b) && FingerprintAction(caseId, b) == key
  }

  lemma ReplayHoldsRecordedKeys(db: Db, caseId: string, key: string)
    requires RowsTell(db.ledger)
    ensures key in Replay(db.ledger, caseId) <==> KeyOnRecord(db.ledger, caseId, key)
  {
    ReplayMembers(db.ledger, caseId, key);
    if i :| 0 <= i < |db.ledger| && Contributes(db.ledger[i], caseId, key) {
      assert RowTells(db.ledger[i]);
      var b: Action :| Tells(db.ledger[i], b);
      assert OnRecord(db.ledger, caseId, b);
    }
    if b: Action :| OnRecord(db.ledger, caseId, b) && FingerprintAction(caseId, b) == key {
      var i :| 0 <= i < |db.ledger| && db.ledger[i].caseId == caseId && db.ledger[i].kind.ActionRow?
               && db.ledger[i].payload.action == Some(Dump(b));
      StoredActionIsReplayed(db.ledger, i, b);
    }
  }

  /** Freshness is needed, and exactly where: after any fresh run, a call that only the idempotency
      gate can stop, about an action that is already on record, with a context in any state -
      about any case, with any set, with any cached key - performs it again if and only if the key it carries is missing from what it is
      compared with: the caller's set or, when that is empty, the keys of the recorded actions. */
  lemma RepeatsExactly(inputs: seq<Input>, caseId: string, ctx: Context, out: Outcome)
    requires AllFresh(inputs) && OnlyIdempotencyDecides(Run(EMPTY_DB, inputs), caseId, ctx)
    requires OnRecord(Run(EMPTY_DB, inputs).ledger, caseId, ctx.facts.action)
    ensures var db := Run(EMPTY_DB, inputs);
            && (GuardedCalls(db, caseId, ctx, Some(out)) == [Call(caseId, ctx.facts.action, out)] <==>
                  if ctx.executed == {} then !KeyOnRecord(db.ledger, caseId, KeyOf(ctx)) else KeyOf(ctx) !in ctx.executed)
            && (IsFresh(caseId, ctx) ==> GuardedCalls(db, caseId, ctx, Some(out)) == [])
  {
    var db := Run(EMPTY_DB, inputs);
    RunKeepsOnce(EMPTY_DB, inputs);
    ReachesAdapterExactly(db, caseId, ctx, out);
    ReplayHoldsRecordedKeys(db, caseId, KeyOf(ctx));
  }

  /** One failing family: where only the idempotency gate can stop the call, a context about another
      case repeats whatever is on record, although it leaves both the set and the cached key to
      the pipeline - for ids without colons, such as the minted ones, always. */
  lemma MisaddressedContextRepeats(inputs: seq<Input>, caseId: string, ctx: Context, out: Outcome)
    requires AllFresh(inputs) && OnlyIdempotencyDecides(Run(EMPTY_DB, inputs), caseId, ctx)
    requires OnRecord(Run(EMPTY_DB, inputs).ledger, caseId, ctx.facts.action)
    requires ctx.facts.caseId != caseId && ColonFree(ctx.facts.caseId) && ColonFree(caseId)
    requires ctx.executed == {} && ctx.fingerprint == ""
    ensures GuardedCalls(Run(EMPTY_DB, inputs), caseId, ctx, Some(out)) == [Call(caseId, ctx.facts.action, out)]
  {
    RepeatsExactly(inputs, caseId, ctx, out);
    forall b: Action
      ensures FingerprintAction(caseId, b) != KeyOf(ctx)
    {
      FingerprintFaithful(caseId, b, ctx.facts.caseId, ctx.facts.action);
    }
  }

  lemma ReplayOfFirstExecution(ev: RiskEvent, f: Facts, out: Outcome)
    requires !f.optOut && AllPassed(Checks(Fresh(f)))
    ensures var db := IngestedDb(EMPTY_DB, ev, f.caseId);
            && VerdictOf(db, f.caseId, Fresh(f)).Admitted?
            && Replay(GuardedDb(db, f.caseId, Fresh(f), Some(out)).ledger, f.caseId) == {FingerprintAction(f.caseId, f.action)}
  {
    var c, own := f.caseId, FingerprintAction(f.caseId, f.action);
    var db1 := IngestedDb(EMPTY_DB, ev, c);
    FingerprintNotEmpty(c, f.action);
    AdmissionRule(Fresh(f));
    assert Replay(db1.ledger, c) == {} by {
      forall key | key in Replay(db1.ledger, c)
        ensures false
      {
        ReplayMembers(db1.ledger, c, key);
      }
    }
    AdmissionRule(Live(db1, c, Fresh(f)));
    assert VerdictOf(db1, c, Fresh(f)).Admitted?;
    OnlyKeyReplayed(db1, c, Fresh(f), out);
  }

  lemma ReplayOfLast(before: seq<Row>, r: Row, caseId: string, key: string)
    requires forall i :: 0 <= i < |before| ==> !before[i].kind.ActionRow?
    requires Contributes(r, caseId, key)
    ensures Replay(before + [r], caseId) == {key}
  {
    var ledger := before + [r];
    assert ledger[|before|] == r;
    forall k
      ensures k in Replay(ledger, caseId) <==> k == key
    {
      ReplayMembers(ledger, caseId, k);
    }
  }

  lemma OnlyKeyReplayed(db: Db, caseId: string, ctx: Context, out: Outcome)
    requires caseId in db.cases && VerdictOf(db, caseId, ctx).Admitted?
    requires forall i :: 0 <= i < |db.ledger| ==> !db.ledger[i].kind.ActionRow?
    ensures Replay(GuardedDb(db, caseId, ctx, Some(out)).ledger, caseId) == {KeyOf(ctx)}
  {
    FingerprintNotEmpty(ctx.facts.caseId, ctx.facts.action);
    AdmittedRows(db, caseId, ctx, out);
    PreambleHasNoAction(db, caseId, ctx, out);
    var before, r := Preamble(db, caseId, ctx, out), ActionRowOf(caseId, ctx.facts.action, KeyOf(ctx), out);
    ReplayOfLast(db.ledger + before, r, caseId, KeyOf(ctx));
    assert db.ledger + before + [r] == db.ledger + (before + [r]);
  }

  lemma CallsOfOne(db: Db, a: Input)
    ensures RunCalls(db, [a]) == Calls(db, a)
  {
    assert [a][1..] == [];
    assert Calls(db, a) + [] == Calls(db, a);
  }

  lemma CallsOfThree(db: Db, a: Input, b: Input, c: Input)
    ensures var db' := Step(db, a);
            RunCalls(db, [a, b, c]) == Calls(db, a) + (Calls(db', b) + Calls(Step(db', b), c))
  {
    assert [a, b, c][1..] == [b, c] && [b, c][1..] == [c];
    RunsStepwise(db, [a, b, c]);
    RunsStepwise(Step(db, a), [b, c]);
    CallsOfOne(Step(Step(db, a), b), c);
  }

  /** Such runs exist: from the empty database, after one admitted execution, a second call on the same
      action performs it again exactly if its key is neither in its own set nor, when that is
      empty, the first call's key.  The second context may have another case id, set or key. */
  lemma RepeatingRuns(ev: RiskEvent, f: Facts, out: Outcome, second: Context)
    requires !f.optOut && !out.recovered && AllPassed(Checks(Fresh(f)))
    requires second.facts.action == f.action && !second.facts.optOut && AllPassed(Checks(Fresh(second.facts)))
    ensures var call := Call(f.caseId, f.action, out);
            var known := if second.executed == {} then {FingerprintAction(f.caseId, f.action)} else second.executed;
            RunCalls(EMPTY_DB, [Ingest(ev, f.caseId), Guarded(f.caseId, Fresh(f), Some(out)), Guarded(f.caseId, second, Some(out))])
            == if KeyOf(second) !in known then [call, call] else [call]
  {
    var c, call := f.caseId, Call(f.caseId, f.action, out);
    var db1 := IngestedDb(EMPTY_DB, ev, c);
    var db2 := GuardedDb(db1, c, Fresh(f), Some(out));
    ReplayOfFirstExecution(ev, f, out);
    ReachesAdapterExactly(db2, c, second, out);
    assert Calls(db1, Guarded(c, Fresh(f), Some(out))) == [call];
    CallsOfThree(EMPTY_DB, Ingest(ev, c), Guarded(c, Fresh(f), Some(out)), Guarded(c, second, Some(out)));
  }
}
