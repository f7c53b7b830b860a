/** Terminal conditions over whole runs (guard/stops.py): once closed, never executed again. */
module Stops {
  import opened Wrappers
  import opened Policy
  import opened Gates
  import opened Ledger
  import opened Machine

  // The reasons of a case's stop rows, oldest first.
  function StopReasons(ledger: seq<Row>, caseId: string): seq<StopReason> {
    if ledger == [] then []
    else
      var last := ledger[|ledger| - 1];
      StopReasons(ledger[..|ledger| - 1], caseId)
      + if last.caseId == caseId && last.kind.StopRow? && last.payload.stopReason.Some? then [last.payload.stopReason.value] else []
  }

  lemma {:induction false} StopReasonsAppend(l: seq<Row>, m: seq<Row>, caseId: string)
    ensures StopReasons(l + m, caseId) == StopReasons(l, caseId) + StopReasons(m, caseId)
  {
    if m == [] {
      assert l + m == l;
    } else {
      assert (l + m)[..|l + m| - 1] == l + m[..|m| - 1];
      StopReasonsAppend(l, m[..|m| - 1], caseId);
    }
  }

  lemma {:induction false} NoStopReasons(l: seq<Row>, caseId: string)
    requires forall i :: 0 <= i < |l| ==> l[i].caseId != caseId || !l[i].kind.StopRow?
    ensures StopReasons(l, caseId) == []
  {
    if l != [] {
      NoStopReasons(l[..|l| - 1], caseId);
    }
  }

  lemma OneStopReason(caseId: string, reason: StopReason)
    ensures StopReasons([StopRowOf(caseId, reason)], caseId) == [reason]
  {
    assert StopReasons([], caseId) == [];
  }

  // Status, stop reason and the recorded stop rows of a case tell the same story.
  predicate StopsMatch(c: CaseRow, reasons: seq<StopReason>) {
    match c.status
    case Open => reasons == [] && c.stopReason == None
    case Blocked => reasons == [] && c.stopReason == None
    case Stopped => reasons == [OptOut] && c.stopReason == Some(OptOut)
    case Recovered => (reasons == [WasRecovered] || reasons == [OptOut, WasRecovered]) && c.stopReason == Some(WasRecovered)
  }

  ghost predicate StopInv(db: Db) {
    && (forall i :: 0 <= i < |db.ledger| ==> db.ledger[i].caseId in db.cases)
    && forall c :: c in db.cases ==> CaseMatches(db, c)
  }

  /******* Stop rows per step *******/

  lemma ExecutionStops(caseId: string, a: Action, key: string, out: Outcome)
    ensures StopReasons(ExecutionRows(caseId, a, key, out), caseId) == if out.recovered then [WasRecovered] else []
  {
    var stop := if out.recovered then [StopRowOf(caseId, WasRecovered)] else [];
    StopReasonsAppend([OutcomeRowOf(caseId, out)] + stop, [ActionRowOf(caseId, a, key, out)], caseId);
    StopReasonsAppend([OutcomeRowOf(caseId, out)], stop, caseId);
    NoStopReasons([OutcomeRowOf(caseId, out)], caseId);
    NoStopReasons([ActionRowOf(caseId, a, key, out)], caseId);
    OneStopReason(caseId, WasRecovered);
    NoStopReasons([], caseId);
  }

  lemma GuardedStops(db: Db, caseId: string, ctx: Context, executor: Option<Outcome>)
    requires caseId in db.cases
    ensures StopReasons(GuardedRows(db, caseId, ctx, executor), caseId)
            == match VerdictOf(db, caseId, ctx)
               case AlreadyClosed => []
               case OptedOut => [OptOut]
               case Refused => []
               case Admitted => if executor.Some? && executor.value.recovered then [WasRecovered] else []
  {
    var live := Live(db, caseId, ctx);
    var gates := GateRows(caseId, Checks(live), live.fingerprint);
    NoStopReasons(gates, caseId);
    OneStopReason(caseId, OptOut);
    match executor
    case None => assert gates + [] == gates;
    case Some(out) =>
      ExecutionStops(caseId, ctx.facts.action, live.fingerprint, out);
      StopReasonsAppend(gates, ExecutionRows(caseId, ctx.facts.action, live.fingerprint, out), caseId);
  }

  lemma PaidStops(db: Db, paid: PaidEvent)
    requires Payable(db, paid)
    ensures var cid := ResolvedCase(db, paid).value;
            StopReasons(PaidRows(db, paid), cid) == if db.cases[cid].status.Recovered? then [] else [WasRecovered]
  {
    var cid := ResolvedCase(db, paid).value;
    NoStopReasons([PaidRow(cid, paid)], cid);
    if db.cases[cid].status.Recovered? {
      assert PaidRows(db, paid) == [PaidRow(cid, paid)];
    } else {
      NoStopReasons([PaidRow(cid, paid), PaidOutcomeRow(cid, paid)], cid);
      OneStopReason(cid, WasRecovered);
      StopReasonsAppend([PaidRow(cid, paid), PaidOutcomeRow(cid, paid)], [StopRowOf(cid, WasRecovered)], cid);
      assert PaidRows(db, paid) == [PaidRow(cid, paid), PaidOutcomeRow(cid, paid)] + [StopRowOf(cid, WasRecovered)];
    }
  }

  /******* Preservation *******/

  ghost predicate CaseMatches(db: Db, caseId: string) {
    caseId in db.cases ==> StopsMatch(db.cases[caseId], StopReasons(db.ledger, caseId))
  }

  lemma OtherCaseMatches(db: Db, db': Db, rows: seq<Row>, caseId: string)
    requires CaseMatches(db, caseId)
    requires db'.ledger == db.ledger + rows
    requires forall i :: 0 <= i < |rows| ==> rows[i].caseId != caseId
    requires caseId in db'.cases ==> caseId in db.cases && db'.cases[caseId] == db.cases[caseId]
    ensures CaseMatches(db', caseId)
  {
    StopReasonsAppend(db.ledger, rows, caseId);
    NoStopReasons(rows, caseId);
    assert StopReasons(db.ledger, caseId) + [] == StopReasons(db.ledger, caseId);
  }

  lemma RowsStayOwned(db: Db, db': Db, rows: seq<Row>, caseId: string)
    requires forall i :: 0 <= i < |db.ledger| ==> db.ledger[i].caseId in db.cases
    requires db'.ledger == db.ledger + rows
    requires forall i :: 0 <= i < |rows| ==> rows[i].caseId == caseId
    requires caseId in db'.cases && db.cases.Keys <= db'.cases.Keys
    ensures forall i :: 0 <= i < |db'.ledger| ==> db'.ledger[i].caseId in db'.cases
  {
    forall i | 0 <= i < |db'.ledger|
      ensures db'.ledger[i].caseId in db'.cases
    {
      if i < |db.ledger| {
        assert db'.ledger[i] == db.ledger[i];
      } else {
        assert db'.ledger[i] == rows[i - |db.ledger|];
      }
    }
  }

  // A step writes rows for one case only and touches that case only.
  lemma StopsAppend(db: Db, db': Db, rows: seq<Row>, caseId: string)
    requires StopInv(db)
    requires db'.ledger == db.ledger + rows
    requires forall i :: 0 <= i < |rows| ==> rows[i].caseId == caseId
    requires caseId in db'.cases && db'.cases.Keys == db.cases.Keys + {caseId}
    requires forall c :: c in db.cases && c != caseId ==> db'.cases[c] == db.cases[c]
    requires StopsMatch(db'.cases[caseId], StopReasons(db.ledger, caseId) + StopReasons(rows, caseId))
    ensures StopInv(db')
  {
    RowsStayOwned(db, db', rows, caseId);
    StopReasonsAppend(db.ledger, rows, caseId);
    forall c | c in db'.cases
      ensures CaseMatches(db', c)
    {
      if c != caseId {
        OtherCaseMatches(db, db', rows, c);
      }
    }
  }

  lemma StopMatches(c: CaseRow, before: seq<StopReason>, reason: StopReason)
    requires StopsMatch(c, before) && !Closed(c) && (reason == OptOut || reason == WasRecovered)
    ensures StopsMatch(StopCase(c, reason), before + [reason])
  {
    assert before + [reason] == [reason];
  }

  // A case row that only moves between open and blocked, or not at all.
  lemma NoStopMatches(c: CaseRow, c': CaseRow, before: seq<StopReason>)
    requires StopsMatch(c, before) && c'.stopReason == c.stopReason
    requires if Closed(c) then c'.status == c.status else !Closed(c')
    ensures StopsMatch(c', before + [])
  {
    assert before + [] == before;
  }

  lemma AdmittedCaseMatches(db: Db, caseId: string, ctx: Context, executor: Option<Outcome>, before: seq<StopReason>)
    requires caseId in db.cases && StopsMatch(db.cases[caseId], before) && VerdictOf(db, caseId, ctx).Admitted?
    ensures StopsMatch(GuardedCase(db, caseId, ctx, executor),
                       before + if executor.Some? && executor.value.recovered then [WasRecovered] else [])
  {
    var c := db.cases[caseId];
    if executor.Some? && executor.value.recovered {
      StopMatches(Reopened(c), before, WasRecovered);
    } else {
      NoStopMatches(c, GuardedCase(db, caseId, ctx, executor), before);
    }
  }

  lemma UnadmittedCaseMatches(db: Db, caseId: string, ctx: Context, executor: Option<Outcome>, before: seq<StopReason>)
    requires caseId in db.cases && StopsMatch(db.cases[caseId], before) && !VerdictOf(db, caseId, ctx).Admitted?
    ensures StopsMatch(GuardedCase(db, caseId, ctx, executor),
                       before + if VerdictOf(db, caseId, ctx).OptedOut? then [OptOut] else [])
  {
    var c := db.cases[caseId];
    match VerdictOf(db, caseId, ctx)
    case AlreadyClosed => NoStopMatches(c, c, before);
    case OptedOut => StopMatches(c, before, OptOut);
    case Refused => NoStopMatches(c, c.(status := Blocked), before);
  }

  lemma GuardedCaseMatches(db: Db, caseId: string, ctx: Context, executor: Option<Outcome>, before: seq<StopReason>)
    requires caseId in db.cases && StopsMatch(db.cases[caseId], before)
    ensures StopsMatch(GuardedCase(db, caseId, ctx, executor),
                       before + StopReasons(GuardedRows(db, caseId, ctx, executor), caseId))
  {
    GuardedStops(db, caseId, ctx, executor);
    if VerdictOf(db, caseId, ctx).Admitted? {
      AdmittedCaseMatches(db, caseId, ctx, executor, before);
    } else {
      UnadmittedCaseMatches(db, caseId, ctx, executor, before);
    }
  }

  lemma GuardedKeepsStops(db: Db, caseId: string, ctx: Context, executor: Option<Outcome>)
    requires StopInv(db) && caseId in db.cases
    ensures StopInv(GuardedDb(db, caseId, ctx, executor))
  {
    var db', rows := GuardedDb(db, caseId, ctx, executor), GuardedRows(db, caseId, ctx, executor);
    assert CaseMatches(db, caseId);
    GuardedCaseMatches(db, caseId, ctx, executor, StopReasons(db.ledger, caseId));
    GuardedRowsOfCase(db, caseId, ctx, executor);
    assert db'.cases.Keys == db.cases.Keys + {caseId};
    StopsAppend(db, db', rows, caseId);
  }

  lemma PaidCaseMatches(db: Db, paid: PaidEvent, before: seq<StopReason>)
    requires Payable(db, paid) && StopsMatch(db.cases[ResolvedCase(db, paid).value], before)
    ensures var cid := ResolvedCase(db, paid).value;
            StopsMatch(PaidDb(db, paid).cases[cid], before + StopReasons(PaidRows(db, paid), cid))
  {
    PaidStops(db, paid);
    assert before + [] == before;
    if db.cases[ResolvedCase(db, paid).value].status.Stopped? {
      assert [OptOut] + [WasRecovered] == [OptOut, WasRecovered];
    } else if before == [] {
      assert before + [WasRecovered] == [WasRecovered];
    }
  }

  lemma PaidKeepsStops(db: Db, paid: PaidEvent)
    requires StopInv(db) && Payable(db, paid)
    ensures StopInv(PaidDb(db, paid))
  {
    var cid := ResolvedCase(db, paid).value;
    var db' := PaidDb(db, paid);
    assert CaseMatches(db, cid);
    PaidCaseMatches(db, paid, StopReasons(db.ledger, cid));
    assert db'.cases.Keys == db.cases.Keys + {cid};
    assert forall i :: 0 <= i < |PaidRows(db, paid)| ==> PaidRows(db, paid)[i].caseId == cid;
    StopsAppend(db, db', PaidRows(db, paid), cid);
  }

  lemma IngestKeepsStops(db: Db, ev: RiskEvent, newId: string)
    requires StopInv(db)
    ensures StopInv(IngestedDb(db, ev, newId))
  {
    if ev.eventId !in db.processed && newId !in db.cases {
      NoStopReasons(db.ledger, newId);
      NoStopReasons([RiskRow(newId, ev)], newId);
      StopsAppend(db, IngestedDb(db, ev, newId), [RiskRow(newId, ev)], newId);
    }
  }

  lemma StepKeepsStops(db: Db, input: Input)
    requires StopInv(db)
    ensures StopInv(Step(db, input))
  {
    match input
    case Ingest(ev, newId) => IngestKeepsStops(db, ev, newId);
    case Paid(paid) =>
      if Payable(db, paid) {
        PaidKeepsStops(db, paid);
      }
    case Guarded(cid, ctx, executor) =>
      if cid in db.cases {
        GuardedKeepsStops(db, cid, ctx, executor);
      }
    case Foreign(cid, kind, action, reason) =>
      if cid in db.cases && IsForeignKind(kind) {
        var r := ForeignRow(cid, kind, action, reason);
        NoStopReasons([r], cid);
        assert CaseMatches(db, cid);
        assert StopReasons(db.ledger, cid) + [] == StopReasons(db.ledger, cid);
        StopsAppend(db, Step(db, input), [r], cid);
      }
  }

  lemma {:induction false} RunKeepsStops(db: Db, inputs: seq<Input>)
    requires StopInv(db)
    ensures StopInv(Run(db, inputs))
    decreases |inputs|
  {
    if inputs != [] {
      StepKeepsStops(db, inputs[0]);
      RunKeepsStops(Step(db, inputs[0]), inputs[1..]);
    }
  }

  /******* Main results *******/

  lemma MatchingStops(c: CaseRow, reasons: seq<StopReason>)
    requires StopsMatch(c, reasons)
    ensures Closed(c) <==> reasons != []
    ensures |reasons| <= 2
    ensures forall i :: 0 <= i < |reasons| && reasons[i].WasRecovered? ==> i == |reasons| - 1
    ensures c.stopReason == (if reasons == [] then None else Some(reasons[|reasons| - 1]))
    ensures c.status.Recovered? <==> c.stopReason == Some(WasRecovered)
  {
  }

  /** After any run: a case is closed exactly when it has a stop row, it has at most two stop
      rows of which at most one says recovered (and then comes last), and the stop reason on
      the case is the reason of its last stop row. */
  lemma StopRowsTellTheStatus(inputs: seq<Input>, caseId: string)
    requires caseId in Run(EMPTY_DB, inputs).cases
    ensures var db := Run(EMPTY_DB, inputs);
            var c, reasons := db.cases[caseId], StopReasons(db.ledger, caseId);
            && (Closed(c) <==> reasons != [])
            && |reasons| <= 2
            && (forall i :: 0 <= i < |reasons| && reasons[i].WasRecovered? ==> i == |reasons| - 1)
            && c.stopReason == (if reasons == [] then None else Some(reasons[|reasons| - 1]))
            && (c.status.Recovered? <==> c.stopReason == Some(WasRecovered))
  {
    RunKeepsStops(EMPTY_DB, inputs);
    var db := Run(EMPTY_DB, inputs);
    assert CaseMatches(db, caseId);
    MatchingStops(db.cases[caseId], StopReasons(db.ledger, caseId));
  }

  // A paid delivery that is recorded for this case.
  predicate PaidFor(db: Db, input: Input, caseId: string) {
    input.Paid? && Payable(db, input.paid) && ResolvedCase(db, input.paid) == Some(caseId)
  }

  /** One step: cases persist, recovered is absorbing, and a stopped case moves if and only if a paid
      delivery is recorded for it, which makes it recovered and touches nothing else on it. */
  lemma StatusMoves(db: Db, input: Input, caseId: string)
    requires caseId in db.cases
    ensures caseId in Step(db, input).cases
    ensures db.cases[caseId].status.Recovered? ==> Step(db, input).cases[caseId] == db.cases[caseId]
    ensures db.cases[caseId].status.Stopped? ==>
              && (Step(db, input).cases[caseId] != db.cases[caseId] <==> PaidFor(db, input, caseId))
              && (PaidFor(db, input, caseId) ==>
                    Step(db, input).cases[caseId] == db.cases[caseId].(status := Recovered, stopReason := Some(WasRecovered)))
  {
  }

  lemma PaidStopsStopped(db: Db, paid: PaidEvent, caseId: string)
    requires caseId in db.cases && db.cases[caseId].status.Stopped? && PaidFor(db, Paid(paid), caseId)
    requires CaseMatches(db, caseId)
    ensures PaidDb(db, paid).cases[caseId].status.Recovered?
    ensures StopReasons(PaidDb(db, paid).ledger, caseId) == [OptOut, WasRecovered]
  {
    PaidStops(db, paid);
    StopReasonsAppend(db.ledger, PaidRows(db, paid), caseId);
    assert StopReasons(db.ledger, caseId) == [OptOut];
    assert StopReasons(PaidRows(db, paid), caseId) == [WasRecovered];
    assert PaidDb(db, paid).ledger == db.ledger + PaidRows(db, paid);
  }

  /** A stopped case that is paid for gets its second stop row, after any run. */
  lemma StoppedThenPaid(inputs: seq<Input>, paid: PaidEvent, caseId: string)
    requires var db := Run(EMPTY_DB, inputs);
             caseId in db.cases && db.cases[caseId].status.Stopped? && PaidFor(db, Paid(paid), caseId)
    ensures var db' := Run(EMPTY_DB, inputs + [Paid(paid)]);
            && caseId in db'.cases && db'.cases[caseId].status.Recovered?
            && StopReasons(db'.ledger, caseId) == [OptOut, WasRecovered]
  {
    RunKeepsStops(EMPTY_DB, inputs);
    assert CaseMatches(Run(EMPTY_DB, inputs), caseId);
    PaidStopsStopped(Run(EMPTY_DB, inputs), paid, caseId);
    RunOneMore(EMPTY_DB, inputs, Paid(paid));
  }

  /** Such runs exist: a case is opened, its payer opts out, and a payment arrives all the same. */
  lemma OptOutThenPaid(ev: RiskEvent, caseId: string, ctx: Context, executor: Option<Outcome>, paid: PaidEvent)
    requires ctx.facts.optOut && caseId != "" && paid.caseId == Some(caseId) && paid.eventId != ev.eventId
    ensures var inputs := [Ingest(ev, caseId), Guarded(caseId, ctx, executor)];
            && caseId in Run(EMPTY_DB, inputs).cases
            && Run(EMPTY_DB, inputs).cases[caseId].status.Stopped?
            && StopReasons(Run(EMPTY_DB, inputs + [Paid(paid)]).ledger, caseId) == [OptOut, WasRecovered]
  {
    var inputs := [Ingest(ev, caseId), Guarded(caseId, ctx, executor)];
    assert inputs[1..] == [Guarded(caseId, ctx, executor)] && inputs[1..][1..] == [];
    var db := IngestedDb(EMPTY_DB, ev, caseId);
    assert Run(EMPTY_DB, inputs) == Run(db, inputs[1..]) == GuardedDb(db, caseId, ctx, executor);
    StoppedThenPaid(inputs, paid, caseId);
  }

  /** Whole runs: a recovered case row never changes again; a stopped one only becomes recovered. */
  lemma {:induction false} ClosedIsTerminal(db: Db, inputs: seq<Input>, caseId: string)
    requires caseId in db.cases && Closed(db.cases[caseId])
    ensures caseId in Run(db, inputs).cases && Closed(Run(db, inputs).cases[caseId])
    ensures db.cases[caseId].status.Recovered? ==> Run(db, inputs).cases[caseId] == db.cases[caseId]
    ensures Run(db, inputs).cases[caseId].status.Stopped? ==> Run(db, inputs).cases[caseId] == db.cases[caseId]
    decreases |inputs|
  {
    if inputs != [] {
      StatusMoves(db, inputs[0], caseId);
      ClosedIsTerminal(Step(db, inputs[0]), inputs[1..], caseId);
    }
  }

  predicate Drives(input: Input, caseId: string) {
    input.Guarded? && input.caseId == caseId
  }

  function WithoutPipeline(inputs: seq<Input>, caseId: string): seq<Input> {
    if inputs == [] then []
    else (if Drives(inputs[0], caseId) then [] else [inputs[0]]) + WithoutPipeline(inputs[1..], caseId)
  }

  /** Once a case is closed, every later pipeline call on it might as well not have happened:
      same final database, same adapter calls. */
  lemma {:induction false} ClosedIgnoresPipeline(db: Db, inputs: seq<Input>, caseId: string)
    requires caseId in db.cases && Closed(db.cases[caseId])
    ensures Run(db, WithoutPipeline(inputs, caseId)) == Run(db, inputs)
    ensures RunCalls(db, WithoutPipeline(inputs, caseId)) == RunCalls(db, inputs)
    decreases |inputs|
  {
    if inputs != [] {
      var db' := Step(db, inputs[0]);
      var rest := WithoutPipeline(inputs[1..], caseId);
      if Drives(inputs[0], caseId) {
        assert db.cases[caseId := db.cases[caseId]] == db.cases;
        assert db' == db && Calls(db, inputs[0]) == [];
        assert WithoutPipeline(inputs, caseId) == rest;
      } else {
        StatusMoves(db, inputs[0], caseId);
        assert WithoutPipeline(inputs, caseId) == [inputs[0]] + rest;
        assert ([inputs[0]] + rest)[1..] == rest;
      }
      ClosedIgnoresPipeline(db', inputs[1..], caseId);
    }
  }
}
