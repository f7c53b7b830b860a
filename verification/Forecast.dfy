/**
 The estimate of gate blocks (eval/gate_estimate.py) against the guarded machine itself: the same
 plan, called action by action on a case whose contexts carry the case's own counters, while
 nothing recovers.  The estimate charges a contact to the attempt cap, which the machine does
 not; that makes it pessimistic, and this module says exactly when.
 */
module Forecast {
  import opened Wrappers
  import opened Policy
  import opened Gates
  import opened Ledger
  import opened Machine
  import opened Scripts
  import opened SimTypes
  import opened GateEstimate

  // The hour of the calls, the reason code of each action, and what the adapter answers.
  datatype Setup = Setup(now: Clock, codeOf: PlannedAction -> string, answer: PlannedAction -> Outcome)

  ghost predicate NothingRecovers(s: Setup) {
    forall pa :: !s.answer(pa).recovered
  }

  /******* Playing the plan on the machine *******/

  function ContextFor(db: Db, c: SimCase, pa: PlannedAction, s: Setup): Context {
    var used := if c.caseKey in db.cases
                then Tally(0, db.cases[c.caseKey].contactsUsed, db.cases[c.caseKey].attemptsUsed) else Tally(0, 0, 0);
    Fresh(FactsFor(c, ToAction(pa, s.codeOf(pa)), used, s.now))
  }

  function InputFor(db: Db, c: SimCase, pa: PlannedAction, s: Setup): Input {
    Guarded(c.caseKey, ContextFor(db, c, pa, s), Some(s.answer(pa)))
  }

  // The database after the plan; no-ops call nothing.
  function Played(db: Db, c: SimCase, acts: seq<PlannedAction>, s: Setup): Db {
    if acts == [] then db
    else
      var before, pa := Played(db, c, acts[..|acts| - 1], s), acts[|acts| - 1];
      if pa.verb.Noop? then before else Step(before, InputFor(before, c, pa, s))
  }

  predicate Refuses(db: Db, c: SimCase, pa: PlannedAction, s: Setup) {
    !pa.verb.Noop? && c.caseKey in db.cases && VerdictOf(db, c.caseKey, ContextFor(db, c, pa, s)).Refused?
  }

  // The calls that some gate refused.
  function Refusals(db: Db, c: SimCase, acts: seq<PlannedAction>, s: Setup): nat {
    if acts == [] then 0
    else
      var before := acts[..|acts| - 1];
      Refusals(db, c, before, s) + if Refuses(Played(db, c, before, s), c, acts[|acts| - 1], s) then 1 else 0
  }

  // The plan's actions differ from each other as the guard sees them.
  predicate Different(acts: seq<PlannedAction>, s: Setup) {
    forall i, j :: 0 <= i < j < |acts| && !acts[i].verb.Noop? && !acts[j].verb.Noop? ==>
      IdentityOf(ToAction(acts[i], s.codeOf(acts[i]))) != IdentityOf(ToAction(acts[j], s.codeOf(acts[j])))
  }

  /******* What that comes to *******/

  // Admission with a retry counter and a contact counter of their own.
  predicate AdmitsLive(c: SimCase, pa: PlannedAction, t: Tally, now: Clock) {
    !Barred(c) && t.attempts < 3 && (IsContact(pa.verb) ==> t.contacts < 2 && InWindow(now))
  }

  function Live1(c: SimCase, pa: PlannedAction, t: Tally, now: Clock): Tally {
    if pa.verb.Noop? then t
    else if !AdmitsLive(c, pa, t, now) then t.(blocks := t.blocks + 1)
    else if IsRetry(pa.verb) then t.(attempts := t.attempts + 1)
    else t.(contacts := t.contacts + 1)
  }

  function LiveAll(c: SimCase, acts: seq<PlannedAction>, now: Clock): Tally {
    if acts == [] then Tally(0, 0, 0) else Live1(c, acts[|acts| - 1], LiveAll(c, acts[..|acts| - 1], now), now)
  }

  // The guard actions performed along the plan.
  function DoneAlong(c: SimCase, acts: seq<PlannedAction>, s: Setup): seq<Action> {
    if acts == [] then []
    else
      var before, pa := acts[..|acts| - 1], acts[|acts| - 1];
      DoneAlong(c, before, s)
      + if !pa.verb.Noop? && AdmitsLive(c, pa, LiveAll(c, before, s.now), s.now) then [ToAction(pa, s.codeOf(pa))] else []
  }

  lemma {:induction false} DoneIsPlanned(c: SimCase, acts: seq<PlannedAction>, s: Setup, a: Action)
    requires a in DoneAlong(c, acts, s)
    ensures exists i :: 0 <= i < |acts| && !acts[i].verb.Noop? && a == ToAction(acts[i], s.codeOf(acts[i]))
  {
    var before, pa := acts[..|acts| - 1], acts[|acts| - 1];
    if a in DoneAlong(c, before, s) {
      DoneIsPlanned(c, before, s, a);
      var i :| 0 <= i < |before| && !before[i].verb.Noop? && a == ToAction(before[i], s.codeOf(before[i]));
      assert before[i] == acts[i];
    }
  }

  lemma NextIsNew(c: SimCase, before: seq<PlannedAction>, pa: PlannedAction, s: Setup)
    requires Different(before + [pa], s) && !pa.verb.Noop?
    ensures IsNew(ToAction(pa, s.codeOf(pa)), DoneAlong(c, before, s))
  {
    var done, all := DoneAlong(c, before, s), before + [pa];
    forall k | 0 <= k < |done|
      ensures IdentityOf(done[k]) != IdentityOf(ToAction(pa, s.codeOf(pa)))
    {
      DoneIsPlanned(c, before, s, done[k]);
      var i :| 0 <= i < |before| && !before[i].verb.Noop? && done[k] == ToAction(before[i], s.codeOf(before[i]));
      assert all[i] == before[i] && all[|before|] == pa;
    }
  }

  // The case stands, after these actions, where the live tally says.
  predicate StandsAt(db: Db, c: SimCase, t: Tally, done: seq<Action>) {
    Stands(db, c.caseKey, Standing(done, t.attempts, t.contacts, t.attempts + t.contacts))
  }

  lemma AdmittedLive(c: SimCase, pa: PlannedAction, t: Tally, s: Setup)
    requires !pa.verb.Noop?
    ensures AllPassed(Checks(Fresh(FactsFor(c, ToAction(pa, s.codeOf(pa)), t, s.now)))) <==> AdmitsLive(c, pa, t, s.now)
  {
    AdmittedExactly(c, pa, t, s.now, s.codeOf);
  }

  lemma ContextCarriesTally(db: Db, c: SimCase, pa: PlannedAction, s: Setup, t: Tally, done: seq<Action>)
    requires StandsAt(db, c, t, done)
    ensures ContextFor(db, c, pa, s) == Fresh(FactsFor(c, ToAction(pa, s.codeOf(pa)), t, s.now))
  {
  }

  lemma PerformedStands(db: Db, c: SimCase, f: Facts, out: Outcome, t: Tally, done: seq<Action>)
    requires f.caseId == c.caseKey && !f.optOut && !out.recovered && StandsAt(db, c, t, done)
    requires IsNew(f.action, done) && AllPassed(Checks(Fresh(f))) && IsMoneyVerb(f.action.verb)
    ensures !VerdictOf(db, f.caseId, Fresh(f)).Refused?
    ensures StandsAt(GuardedDb(db, f.caseId, Fresh(f), Some(out)), c,
                     if f.action.verb.ScheduleRetry? then t.(attempts := t.attempts + 1) else t.(contacts := t.contacts + 1),
                     done + [f.action])
  {
    PerformNext(db, f, Standing(done, t.attempts, t.contacts, t.attempts + t.contacts), out);
  }

  lemma RefusedStands(db: Db, c: SimCase, f: Facts, out: Outcome, t: Tally, done: seq<Action>)
    requires f.caseId == c.caseKey && !f.optOut && StandsAt(db, c, t, done)
    requires IsNew(f.action, done) && !AllPassed(Checks(Fresh(f)))
    ensures VerdictOf(db, f.caseId, Fresh(f)).Refused?
    ensures StandsAt(GuardedDb(db, f.caseId, Fresh(f), Some(out)), c, t.(blocks := t.blocks + 1), done)
  {
    RefuseNext(db, f, Standing(done, t.attempts, t.contacts, t.attempts + t.contacts), out);
  }

  lemma PlayOne(db: Db, c: SimCase, pa: PlannedAction, s: Setup, t: Tally, done: seq<Action>)
    requires !pa.verb.Noop? && NothingRecovers(s) && StandsAt(db, c, t, done)
    requires IsNew(ToAction(pa, s.codeOf(pa)), done)
    ensures Refuses(db, c, pa, s) <==> !AdmitsLive(c, pa, t, s.now)
    ensures StandsAt(Step(db, InputFor(db, c, pa, s)), c, Live1(c, pa, t, s.now),
                     done + if AdmitsLive(c, pa, t, s.now) then [ToAction(pa, s.codeOf(pa))] else [])
  {
    var f := FactsFor(c, ToAction(pa, s.codeOf(pa)), t, s.now);
    ContextCarriesTally(db, c, pa, s, t, done);
    AdmittedLive(c, pa, t, s);
    assert Step(db, InputFor(db, c, pa, s)) == GuardedDb(db, f.caseId, Fresh(f), Some(s.answer(pa)));
    if AdmitsLive(c, pa, t, s.now) {
      PerformedStands(db, c, f, s.answer(pa), t, done);
    } else {
      RefusedStands(db, c, f, s.answer(pa), t, done);
      assert done + [] == done;
    }
  }

  /** The machine refuses exactly what the live tally blocks, and its counters follow the tally. */
  lemma {:induction false} MachineFollowsTally(db: Db, c: SimCase, acts: seq<PlannedAction>, s: Setup)
    requires StandsAt(db, c, Tally(0, 0, 0), []) && NothingRecovers(s) && Different(acts, s)
    ensures StandsAt(Played(db, c, acts, s), c, LiveAll(c, acts, s.now), DoneAlong(c, acts, s))
    ensures Refusals(db, c, acts, s) == LiveAll(c, acts, s.now).blocks
  {
    if acts != [] {
      var before, pa := acts[..|acts| - 1], acts[|acts| - 1];
      assert acts == before + [pa];
      MachineFollowsTally(db, c, before, s);
      if pa.verb.Noop? {
        assert DoneAlong(c, before, s) + [] == DoneAlong(c, before, s);
      } else {
        NextIsNew(c, before, pa, s);
        PlayOne(Played(db, c, before, s), c, pa, s, LiveAll(c, before, s.now), DoneAlong(c, before, s));
      }
    }
  }

  /******* Against the estimate *******/

  // The estimate's own admission, with contacts counted as attempts.
  function Estimate1(c: SimCase, pa: PlannedAction, t: Tally, now: Clock): Tally {
    if pa.verb.Noop? then t
    else if !AdmitsLive(c, pa, t, now) then t.(blocks := t.blocks + 1)
    else if IsRetry(pa.verb) then t.(attempts := t.attempts + 1)
    else t.(contacts := t.contacts + 1, attempts := t.attempts + 1)
  }

  function Estimated(c: SimCase, acts: seq<PlannedAction>, now: Clock): Tally {
    if acts == [] then Tally(0, 0, 0) else Estimate1(c, acts[|acts| - 1], Estimated(c, acts[..|acts| - 1], now), now)
  }

  lemma WeighIsEstimate(c: SimCase, pa: PlannedAction, t: Tally, s: Setup)
    ensures Weigh(c, pa, t, s.now, s.codeOf) == Estimate1(c, pa, t, s.now)
  {
    if !pa.verb.Noop? {
      AdmittedLive(c, pa, t, s);
    }
  }

  lemma {:induction false} EstimateIsTally(c: SimCase, acts: seq<PlannedAction>, s: Setup)
    ensures WeighAll(c, acts, s.now, s.codeOf) == Estimated(c, acts, s.now)
  {
    if acts != [] {
      EstimateIsTally(c, acts[..|acts| - 1], s);
      WeighIsEstimate(c, acts[|acts| - 1], Estimated(c, acts[..|acts| - 1], s.now), s);
    }
  }

  // At position k the estimate has admitted three actions, some of them contacts, and the plan goes on
  // with an action that the machine's own counters still admit.
  predicate Overlooked(c: SimCase, acts: seq<PlannedAction>, now: Clock, k: nat)
    requires k < |acts|
  {
    var t := Estimated(c, acts[..k], now);
    && t.attempts == 3 && t.contacts > 0
    && (IsRetry(acts[k].verb) || (IsContact(acts[k].verb) && t.contacts == 1))
  }

  predicate SomeOverlooked(c: SimCase, acts: seq<PlannedAction>, now: Clock) {
    exists k :: 0 <= k < |acts| && Overlooked(c, acts, now, k)
  }

  lemma OverlookedOneMore(c: SimCase, before: seq<PlannedAction>, pa: PlannedAction, now: Clock)
    ensures SomeOverlooked(c, before + [pa], now) <==> SomeOverlooked(c, before, now) || Overlooked(c, before + [pa], now, |before|)
  {
    var acts := before + [pa];
    forall k | 0 <= k < |before|
      ensures Overlooked(c, acts, now, k) <==> Overlooked(c, before, now, k)
    {
      assert acts[..k] == before[..k] && acts[k] == before[k];
    }
    if SomeOverlooked(c, before, now) {
      var k :| 0 <= k < |before| && Overlooked(c, before, now, k);
      assert Overlooked(c, acts, now, k);
    }
  }

  // The estimate's tally and the live one, while nothing was overlooked.
  predicate SameSoFar(w: Tally, l: Tally) {
    w.blocks == l.blocks && w.contacts == l.contacts && w.attempts == l.attempts + l.contacts
  }

  lemma {:induction false} TalliesCompare(c: SimCase, acts: seq<PlannedAction>, now: Clock)
    ensures var w, l := Estimated(c, acts, now), LiveAll(c, acts, now);
            && w.attempts <= 3 && w.contacts <= 2 && (w.contacts > 0 ==> !Barred(c) && InWindow(now))
            && w.blocks + w.attempts == l.blocks + l.attempts + l.contacts
            && (if SomeOverlooked(c, acts, now) then w.attempts == 3 < l.attempts + l.contacts else SameSoFar(w, l))
  {
    if acts != [] {
      var before, pa := acts[..|acts| - 1], acts[|acts| - 1];
      assert acts == before + [pa] && acts[..|before|] == before;
      TalliesCompare(c, before, now);
      OverlookedOneMore(c, before, pa, now);
    }
  }

  /** The estimate against the machine: for any plan of different actions, played on a freshly opened
      case with its own counters while nothing recovers, the estimate never counts fewer blocks
      than the machine, and it counts the same exactly when it overlooks nothing - when no action
      that the machine still admits follows three admitted ones of which one was a contact. */
  lemma EstimateAgreesExactly(db: Db, c: SimCase, acts: seq<PlannedAction>, s: Setup)
    requires Stands(db, c.caseKey, UNTOUCHED) && NothingRecovers(s) && Different(acts, s)
    ensures var blocks := WeighAll(c, acts, s.now, s.codeOf).blocks;
            && Refusals(db, c, acts, s) <= blocks
            && (Refusals(db, c, acts, s) == blocks <==> !SomeOverlooked(c, acts, s.now))
  {
    MachineFollowsTally(db, c, acts, s);
    EstimateIsTally(c, acts, s);
    TalliesCompare(c, acts, s.now);
  }

  /** The smallest plan it overlooks something in: two links, then two retries, at contact hours. */
  lemma TwoLinksTwoRetries(c: SimCase, s: Setup, first: PlannedAction, second: PlannedAction, third: PlannedAction, last: PlannedAction)
    requires !Barred(c) && InWindow(s.now)
    requires first.verb.PaymentLink? && second.verb.PaymentLink? && third.verb.Retry? && last.verb.Retry?
    ensures var acts := [first, second, third] + [last];
            && WeighAll(c, acts, s.now, s.codeOf) == Tally(1, 2, 3)
            && LiveAll(c, acts, s.now) == Tally(0, 2, 2)
            && SomeOverlooked(c, acts, s.now)
  {
    var three := [first, second, third];
    var acts := three + [last];
    assert acts[..3] == three && three[..2] == [first, second] && [first, second][..1] == [first] && [first][..0] == [];
    assert Estimated(c, [first], s.now) == Tally(0, 1, 1);
    assert Estimated(c, [first, second], s.now) == Tally(0, 2, 2);
    assert Estimated(c, three, s.now) == Tally(0, 2, 3);
    assert LiveAll(c, [first], s.now) == Tally(0, 1, 0);
    assert LiveAll(c, [first, second], s.now) == Tally(0, 2, 0);
    assert LiveAll(c, three, s.now) == Tally(0, 2, 1);
    EstimateIsTally(c, three, s);
    EstimateIsTally(c, acts, s);
    assert Overlooked(c, acts, s.now, 3);
  }
}
