/**
 Runs spelled out: an event opens a case, then any number of different actions are called on it
 with contexts of the caller's choosing.  Used to show that the runs which the exact conditions
 on the caps speak of do occur.
 */
module Scripts {
  import opened Wrappers
  import opened Policy
  import opened Fingerprint
  import opened Gates
  import opened Ledger
  import opened Machine
  import opened Caps

  // What an open case has behind it: the actions performed, and what they used up and moved.
  datatype Standing = Standing(done: seq<Action>, attempts: nat, contacts: nat, money: nat)

  const UNTOUCHED := Standing([], 0, 0, 0)

  function Next(s: Standing, a: Action): Standing {
    Standing(s.done + [a],
             s.attempts + (if a.verb.ScheduleRetry? then 1 else 0),
             s.contacts + (if IsContactVerb(a.verb) then 1 else 0),
             s.money + MoneyMoved(a.verb))
  }

  predicate IsNew(a: Action, done: seq<Action>) {
    forall k :: 0 <= k < |done| ==> IdentityOf(done[k]) != IdentityOf(a)
  }

  predicate KeyOfOne(key: string, caseId: string, done: seq<Action>) {
    exists k :: 0 <= k < |done| && FingerprintAction(caseId, done[k]) == key
  }

  // The case's action rows contribute keys of these actions only.
  predicate KeysFrom(ledger: seq<Row>, caseId: string, done: seq<Action>) {
    forall i :: 0 <= i < |ledger| && ledger[i].caseId == caseId && ledger[i].kind.ActionRow? ==>
      RowFingerprint(ledger[i]).Some? ==> KeyOfOne(RowFingerprint(ledger[i]).value, caseId, done)
  }

  predicate Stands(db: Db, caseId: string, s: Standing) {
    && caseId in db.cases && !Closed(db.cases[caseId])
    && db.cases[caseId].attemptsUsed == s.attempts && db.cases[caseId].contactsUsed == s.contacts
    && MoneyRows(db.ledger, caseId) == s.money
    && KeysFrom(db.ledger, caseId, s.done)
  }

  /******* One call *******/

  lemma NewKeyIsNotReplayed(db: Db, caseId: string, a: Action, done: seq<Action>)
    requires KeysFrom(db.ledger, caseId, done) && IsNew(a, done)
    ensures FingerprintAction(caseId, a) !in Replay(db.ledger, caseId)
  {
    var key := FingerprintAction(caseId, a);
    ReplayMembers(db.ledger, caseId, key);
    forall k | 0 <= k < |done|
      ensures FingerprintAction(caseId, done[k]) != key
    {
      FaithfulWithinCase(caseId, done[k], a);
    }
  }

  /** On an open case, a fresh call about a new action is admitted exactly if the other gates pass. */
  lemma NewActionVerdict(db: Db, f: Facts, s: Standing)
    requires Stands(db, f.caseId, s) && IsNew(f.action, s.done) && !f.optOut
    ensures VerdictOf(db, f.caseId, Fresh(f)) == if AllPassed(Checks(Fresh(f))) then Admitted else Refused
  {
    NewKeyIsNotReplayed(db, f.caseId, f.action, s.done);
    FingerprintNotEmpty(f.caseId, f.action);
    AdmissionRule(Fresh(f));
    AdmissionRule(Live(db, f.caseId, Fresh(f)));
  }

  lemma KeysAppend(ledger: seq<Row>, rows: seq<Row>, caseId: string, done: seq<Action>)
    requires KeysFrom(ledger, caseId, done)
    requires forall r :: r in rows ==> !r.kind.ActionRow?
    ensures KeysFrom(ledger + rows, caseId, done)
  {
    forall i | |ledger| <= i < |ledger + rows|
      ensures !(ledger + rows)[i].kind.ActionRow?
    {
      assert (ledger + rows)[i] == rows[i - |ledger|];
    }
  }

  lemma KeysAfterAction(ledger: seq<Row>, caseId: string, done: seq<Action>, a: Action, out: Outcome)
    requires KeysFrom(ledger, caseId, done)
    ensures KeysFrom(ledger + [ActionRowOf(caseId, a, FingerprintAction(caseId, a), out)], caseId, done + [a])
  {
    FingerprintNotEmpty(caseId, a);
    var all := ledger + [ActionRowOf(caseId, a, FingerprintAction(caseId, a), out)];
    forall i | 0 <= i < |all| && all[i].caseId == caseId && all[i].kind.ActionRow? && RowFingerprint(all[i]).Some?
      ensures KeyOfOne(RowFingerprint(all[i]).value, caseId, done + [a])
    {
      if i < |ledger| {
        var k :| 0 <= k < |done| && FingerprintAction(caseId, done[k]) == RowFingerprint(ledger[i]).value;
        assert (done + [a])[k] == done[k];
      } else {
        assert (done + [a])[|done|] == a;
      }
    }
  }

  lemma KeysAfterCall(db: Db, f: Facts, done: seq<Action>, out: Outcome)
    requires f.caseId in db.cases && KeysFrom(db.ledger, f.caseId, done)
    requires VerdictOf(db, f.caseId, Fresh(f)).Admitted?
    ensures KeysFrom(GuardedDb(db, f.caseId, Fresh(f), Some(out)).ledger, f.caseId, done + [f.action])
  {
    var before := Preamble(db, f.caseId, Fresh(f), out);
    AdmittedRows(db, f.caseId, Fresh(f), out);
    PreambleHasNoAction(db, f.caseId, Fresh(f), out);
    KeysAppend(db.ledger, before, f.caseId, done);
    KeysAfterAction(db.ledger + before, f.caseId, done, f.action, out);
    var r := ActionRowOf(f.caseId, f.action, FingerprintAction(f.caseId, f.action), out);
    assert db.ledger + before + [r] == db.ledger + (before + [r]);
  }

  lemma PerformNext(db: Db, f: Facts, s: Standing, out: Outcome)
    requires Stands(db, f.caseId, s) && IsNew(f.action, s.done) && !f.optOut && AllPassed(Checks(Fresh(f)))
    ensures VerdictOf(db, f.caseId, Fresh(f)).Admitted?
    ensures var db' := GuardedDb(db, f.caseId, Fresh(f), Some(out));
            && MoneyRows(db'.ledger, f.caseId) == Next(s, f.action).money
            && (if out.recovered
                then db'.cases[f.caseId].attemptsUsed == s.attempts && db'.cases[f.caseId].contactsUsed == s.contacts
                else Stands(db', f.caseId, Next(s, f.action)))
  {
    NewActionVerdict(db, f, s);
    KeysAfterCall(db, f, s.done, out);
    StepCharges(db, Guarded(f.caseId, Fresh(f), Some(out)), f.caseId, Recovery);
    StepCounts(db, Guarded(f.caseId, Fresh(f), Some(out)), f.caseId);
    OnlyRecoveryCloses(db, f.caseId, Fresh(f), out);
  }

  lemma RefuseNext(db: Db, f: Facts, s: Standing, out: Outcome)
    requires Stands(db, f.caseId, s) && IsNew(f.action, s.done) && !f.optOut && !AllPassed(Checks(Fresh(f)))
    ensures VerdictOf(db, f.caseId, Fresh(f)).Refused?
    ensures Stands(GuardedDb(db, f.caseId, Fresh(f), Some(out)), f.caseId, s)
  {
    NewActionVerdict(db, f, s);
    StepCharges(db, Guarded(f.caseId, Fresh(f), Some(out)), f.caseId, Recovery);
    UnexecutedHasNoAction(db, f.caseId, Fresh(f), Some(out));
    KeysAppend(db.ledger, GuardedRows(db, f.caseId, Fresh(f), Some(out)), f.caseId, s.done);
  }

  /******* Many calls *******/

  function Script(ev: RiskEvent, caseId: string, calls: seq<Facts>, out: Outcome): seq<Input> {
    if calls == [] then [Ingest(ev, caseId)]
    else Script(ev, caseId, calls[..|calls| - 1], out) + [Guarded(caseId, Fresh(calls[|calls| - 1]), Some(out))]
  }

  function After(calls: seq<Facts>): Standing {
    if calls == [] then UNTOUCHED else Next(After(calls[..|calls| - 1]), calls[|calls| - 1].action)
  }

  // Every call is about the case and a new action, and passes the gates other than idempotency.
  predicate Playable(caseId: string, calls: seq<Facts>) {
    calls != [] ==>
      var before, last := calls[..|calls| - 1], calls[|calls| - 1];
      && Playable(caseId, before) && last.caseId == caseId && !last.optOut
      && AllPassed(Checks(Fresh(last))) && IsNew(last.action, After(before).done)
  }

  lemma OneMoreCall(caseId: string, before: seq<Facts>, last: Facts)
    ensures After(before + [last]) == Next(After(before), last.action)
    ensures (Playable(caseId, before) && last.caseId == caseId && !last.optOut
             && AllPassed(Checks(Fresh(last))) && IsNew(last.action, After(before).done)) ==> Playable(caseId, before + [last])
  {
    assert (before + [last])[..|before|] == before;
  }

  lemma OpenedCaseIsUntouched(ev: RiskEvent, caseId: string)
    ensures Stands(Run(EMPTY_DB, [Ingest(ev, caseId)]), caseId, UNTOUCHED)
  {
    RunOneMore(EMPTY_DB, [], Ingest(ev, caseId));
    assert [] + [Ingest(ev, caseId)] == [Ingest(ev, caseId)];
    NewCaseStands(ev, caseId);
  }

  lemma NewCaseStands(ev: RiskEvent, caseId: string)
    ensures Stands(IngestedDb(EMPTY_DB, ev, caseId), caseId, UNTOUCHED)
  {
    var rows := [RiskRow(caseId, ev)];
    assert IngestedDb(EMPTY_DB, ev, caseId).ledger == [] + rows == rows;
    NothingCounted(rows, caseId, Recovery);
    KeysAppend([], rows, caseId, []);
  }

  lemma {:induction false} ScriptStands(ev: RiskEvent, caseId: string, calls: seq<Facts>, out: Outcome)
    requires Playable(caseId, calls) && !out.recovered
    ensures Stands(Run(EMPTY_DB, Script(ev, caseId, calls, out)), caseId, After(calls))
  {
    if calls == [] {
      OpenedCaseIsUntouched(ev, caseId);
    } else {
      var before, last := calls[..|calls| - 1], calls[|calls| - 1];
      ScriptStands(ev, caseId, before, out);
      PerformNext(Run(EMPTY_DB, Script(ev, caseId, before, out)), last, After(before), out);
      RunOneMore(EMPTY_DB, Script(ev, caseId, before, out), Guarded(caseId, Fresh(last), Some(out)));
    }
  }

  /******* Runs that break the caps *******/

  /** A caller that keeps reporting zero attempts under a cap of one gets two retries through, as long
      as the day offsets differ - two attempts used up, or one and a recovery, and without
      contacts allowed one money-moving row too many either way. */
  lemma StaleCountersBreakTheCap(ev: RiskEvent, f: Facts, later: Facts, out: Outcome, last: Outcome)
    requires f.action.verb.ScheduleRetry? && !f.optOut && !out.recovered
    requires f.attemptsUsed == 0 && f.maxAttempts == 1
    requires AllPassed(Checks(Fresh(f)))
    requires later == f.(action := f.action.(dayOffset := later.action.dayOffset)) && later.action != f.action
    ensures var inputs := [Ingest(ev, f.caseId),
                           Guarded(f.caseId, Fresh(f), Some(out)),
                           Guarded(f.caseId, Fresh(later), Some(last))];
            var db := Run(EMPTY_DB, inputs);
            && f.caseId in db.cases
            && db.cases[f.caseId].attemptsUsed == (if last.recovered then 1 else 2)
            && MoneyRows(db.ledger, f.caseId) == 2
            && (f.maxContacts <= 0 ==> MoneyRows(db.ledger, f.caseId) > AtLeastZero(f.maxAttempts) + AtLeastZero(f.maxContacts))
  {
    var before := [Ingest(ev, f.caseId), Guarded(f.caseId, Fresh(f), Some(out))];
    FirstCallStands(ev, f, out);
    SecondRetry(Run(EMPTY_DB, before), f, later, last);
    RunOneMore(EMPTY_DB, before, Guarded(f.caseId, Fresh(later), Some(last)));
    assert before + [Guarded(f.caseId, Fresh(later), Some(last))]
           == [Ingest(ev, f.caseId), Guarded(f.caseId, Fresh(f), Some(out)), Guarded(f.caseId, Fresh(later), Some(last))];
  }

  lemma SecondRetry(db: Db, f: Facts, later: Facts, last: Outcome)
    requires f.action.verb.ScheduleRetry? && !f.optOut && AllPassed(Checks(Fresh(f)))
    requires later == f.(action := f.action.(dayOffset := later.action.dayOffset)) && later.action != f.action
    requires Stands(db, f.caseId, Next(UNTOUCHED, f.action))
    ensures var db' := GuardedDb(db, f.caseId, Fresh(later), Some(last));
            db'.cases[f.caseId].attemptsUsed == (if last.recovered then 1 else 2) && MoneyRows(db'.ledger, f.caseId) == 2
  {
    LaterRetryPasses(f, later);
    PerformNext(db, later, Next(UNTOUCHED, f.action), last);
  }

  lemma LaterRetryPasses(f: Facts, later: Facts)
    requires AllPassed(Checks(Fresh(f))) && later == f.(action := f.action.(dayOffset := later.action.dayOffset))
    ensures AllPassed(Checks(Fresh(later)))
  {
    AdmissionRule(Fresh(f));
    AdmissionRule(Fresh(later));
  }

  lemma FirstCallStands(ev: RiskEvent, f: Facts, out: Outcome)
    requires !f.optOut && !out.recovered && AllPassed(Checks(Fresh(f)))
    ensures Stands(Run(EMPTY_DB, [Ingest(ev, f.caseId), Guarded(f.caseId, Fresh(f), Some(out))]), f.caseId, Next(UNTOUCHED, f.action))
  {
    OpenedCaseIsUntouched(ev, f.caseId);
    PerformNext(Run(EMPTY_DB, [Ingest(ev, f.caseId)]), f, UNTOUCHED, out);
    RunOneMore(EMPTY_DB, [Ingest(ev, f.caseId)], Guarded(f.caseId, Fresh(f), Some(out)));
    assert [Ingest(ev, f.caseId)] + [Guarded(f.caseId, Fresh(f), Some(out))]
           == [Ingest(ev, f.caseId), Guarded(f.caseId, Fresh(f), Some(out))];
  }

  function LinkOn(day: nat): Action {
    DefaultAction(SendPaymentLink).(dayOffset := Some(day))
  }

  function RetryOn(day: nat): Action {
    DefaultAction(ScheduleRetry).(dayOffset := Some(day))
  }

  function Reporting(f: Facts, a: Action, attempts: int, contacts: int): Facts {
    f.(action := a, attemptsUsed := attempts, contactsUsed := contacts)
  }

  // A case the gates have nothing against, at contact hours, under caps of three attempts and one contact.
  predicate ActiveByDay(f: Facts) {
    && !Prohibited(f) && f.mandateState == Some(Active) && !f.optOut
    && f.maxAttempts == 3 && f.maxContacts == 1 && f.windowStartIst <= HourIst(f.now) < f.windowEndIst
  }

  lemma LinkPasses(f: Facts, day: nat)
    requires ActiveByDay(f)
    ensures AllPassed(Checks(Fresh(Reporting(f, LinkOn(day), 0, 0))))
  {
    AdmissionRule(Fresh(Reporting(f, LinkOn(day), 0, 0)));
  }

  lemma RetryPasses(f: Facts, day: nat, attempts: nat)
    requires ActiveByDay(f) && attempts < 3
    ensures AllPassed(Checks(Fresh(Reporting(f, RetryOn(day), attempts, 2))))
  {
    AdmissionRule(Fresh(Reporting(f, RetryOn(day), attempts, 2)));
  }

  // Two links, the second of which goes unreported, then honest retries.
  function FourCalls(f: Facts): seq<Facts> {
    [Reporting(f, LinkOn(0), 0, 0), Reporting(f, LinkOn(1), 0, 0), Reporting(f, RetryOn(2), 0, 2), Reporting(f, RetryOn(3), 1, 2)]
  }

  lemma FourCallsPlay(f: Facts)
    requires ActiveByDay(f)
    ensures Playable(f.caseId, FourCalls(f))
    ensures After(FourCalls(f)) == Standing([LinkOn(0), LinkOn(1), RetryOn(2), RetryOn(3)], 2, 2, 4)
  {
    var calls := FourCalls(f);
    LinkPasses(f, 0);
    LinkPasses(f, 1);
    RetryPasses(f, 2, 0);
    RetryPasses(f, 3, 1);
    OneMoreCall(f.caseId, [], calls[0]);
    OneMoreCall(f.caseId, [calls[0]], calls[1]);
    OneMoreCall(f.caseId, [calls[0], calls[1]], calls[2]);
    OneMoreCall(f.caseId, [calls[0], calls[1], calls[2]], calls[3]);
    assert [] + [calls[0]] == [calls[0]];
    assert [calls[0]] + [calls[1]] == [calls[0], calls[1]];
    assert [calls[0], calls[1]] + [calls[2]] == [calls[0], calls[1], calls[2]];
    assert [calls[0], calls[1], calls[2]] + [calls[3]] == calls;
  }

  /** The call that breaks the money bound need not be the one that under-reports: after an unreported
      second link under caps of three attempts and one contact, the third honest retry makes five
      money-moving rows - with its own counters reported and the attempt counter below its cap. */
  lemma HonestCallBreaksTheBound(ev: RiskEvent, f: Facts, out: Outcome, last: Outcome)
    requires ActiveByDay(f) && !out.recovered
    ensures var db, third := Run(EMPTY_DB, Script(ev, f.caseId, FourCalls(f), out)), Reporting(f, RetryOn(4), 2, 2);
            && f.caseId in db.cases && VerdictOf(db, f.caseId, Fresh(third)).Admitted?
            && db.cases[f.caseId].attemptsUsed == third.attemptsUsed && db.cases[f.caseId].contactsUsed == third.contactsUsed
            && !BothCapsReached(db.cases[f.caseId], third)
            && MoneyRows(db.ledger, f.caseId) == 4 == AtLeastZero(f.maxAttempts) + AtLeastZero(f.maxContacts)
            && MoneyRows(GuardedDb(db, f.caseId, Fresh(third), Some(last)).ledger, f.caseId) == 5
  {
    FourCallsPlay(f);
    ScriptStands(ev, f.caseId, FourCalls(f), out);
    var third := Reporting(f, RetryOn(4), 2, 2);
    RetryPasses(f, 4, 2);
    PerformNext(Run(EMPTY_DB, Script(ev, f.caseId, FourCalls(f), out)), third, After(FourCalls(f)), last);
  }
}
