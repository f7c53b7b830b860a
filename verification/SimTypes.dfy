/** The simulator's vocabulary (eval/types.py, eval/recovery_class.py) and the order in which a plan is played. */
module SimTypes {
  import opened Wrappers
  import opened Policy

  datatype SimVerb = Retry | PaymentLink | GenericNag | Noop

  datatype PlannedAction = PlannedAction(verb: SimVerb, dayOffset: nat, note: Label)

  datatype FailureReason =
    | InsufficientFunds | IssuerTransient | GatewayTimeout | CardExpired
    | TokenInvalid | MandateRevoked | RiskFraud | DoNotHonour

  datatype RecoveryClass = RetryFixable | CustomerAction | Ambiguous | Prohibited

  function RecoveryClassFor(reason: FailureReason): RecoveryClass {
    match reason
    case InsufficientFunds => RetryFixable
    case IssuerTransient => RetryFixable
    case GatewayTimeout => RetryFixable
    case CardExpired => CustomerAction
    case TokenInvalid => CustomerAction
    case MandateRevoked => CustomerAction
    case DoNotHonour => Ambiguous
    case RiskFraud => Prohibited
  }

  // Visible facts, hidden truth and failure day of one simulated case.
  datatype SimCase = SimCase(
    caseKey: string,
    amountPaise: nat,
    reason: FailureReason,
    observedCreditDay: Option<int>,
    instrumentValid: bool,
    trueCreditDay: int,
    naturalProb: real,
    contactProb: real,
    retryProb: real,
    failureDom: int)

  // One entry per played action, as the simulator's notes record it.
  datatype Note =
    | RetryNote(dayOffset: nat, ok: bool) | ContactNote(dayOffset: nat, ok: bool) | NoopNote(dayOffset: nat)
    | NaturalRecovery | NoActionNoNatural

  datatype CaseOutcome = CaseOutcome(
    caseKey: string,
    recovered: bool,
    recoveredPaise: int,
    contacts: nat,
    retries: nat,
    wasted: nat,
    natural: bool,
    notes: seq<Note>)

  type PlanFn = SimCase -> seq<PlannedAction>

  predicate IsRetry(v: SimVerb) { v.Retry? }

  predicate IsContact(v: SimVerb) { v.PaymentLink? || v.GenericNag? }

  /******* sorted(plan, key=day_offset) *******/

  function Insert(a: PlannedAction, s: seq<PlannedAction>): seq<PlannedAction> {
    if s == [] || a.dayOffset <= s[0].dayOffset then [a] + s
    else [s[0]] + Insert(a, s[1..])
  }

  function SortByDay(plan: seq<PlannedAction>): seq<PlannedAction> {
    if plan == [] then [] else Insert(plan[0], SortByDay(plan[1..]))
  }

  predicate Sorted(s: seq<PlannedAction>) {
    forall i, j :: 0 <= i < j < |s| ==> s[i].dayOffset <= s[j].dayOffset
  }

  function OnDay(s: seq<PlannedAction>, d: nat): seq<PlannedAction> {
    if s == [] then [] else (if s[0].dayOffset == d then [s[0]] else []) + OnDay(s[1..], d)
  }

  lemma {:induction false} InsertMembers(a: PlannedAction, s: seq<PlannedAction>)
    ensures multiset(Insert(a, s)) == multiset(s) + multiset{a}
    ensures forall x :: x in Insert(a, s) <==> x == a || x in s
  {
    if s != [] && s[0].dayOffset < a.dayOffset {
      InsertMembers(a, s[1..]);
      assert s == [s[0]] + s[1..];
    }
  }

  lemma {:induction false} InsertSorts(a: PlannedAction, s: seq<PlannedAction>)
    requires Sorted(s)
    ensures Sorted(Insert(a, s))
  {
    if s != [] && s[0].dayOffset < a.dayOffset {
      InsertSorts(a, s[1..]);
      InsertMembers(a, s[1..]);
      var rest := Insert(a, s[1..]);
      forall j | 0 <= j < |rest|
        ensures s[0].dayOffset <= rest[j].dayOffset
      {
        assert rest[j] in rest;
      }
    }
  }

  lemma OnDayFirst(x: PlannedAction, s: seq<PlannedAction>, d: nat)
    ensures OnDay([x] + s, d) == (if x.dayOffset == d then [x] else []) + OnDay(s, d)
  {
    assert ([x] + s)[1..] == s;
  }

  lemma {:induction false} InsertOnDay(a: PlannedAction, s: seq<PlannedAction>, d: nat)
    requires Sorted(s)
    ensures OnDay(Insert(a, s), d) == (if a.dayOffset == d then [a] else []) + OnDay(s, d)
  {
    if s == [] || a.dayOffset <= s[0].dayOffset {
      OnDayFirst(a, s, d);
    } else {
      InsertOnDay(a, s[1..], d);
      OnDayFirst(s[0], Insert(a, s[1..]), d);
      assert s == [s[0]] + s[1..];
      OnDayFirst(s[0], s[1..], d);
    }
  }

  /** The played order is chronological, loses and adds nothing, and keeps same-day actions in
      plan order; these three facts determine it. */
  lemma {:induction false} SortByDayIsStableSort(plan: seq<PlannedAction>)
    ensures Sorted(SortByDay(plan))
    ensures multiset(SortByDay(plan)) == multiset(plan)
    ensures forall d: nat :: OnDay(SortByDay(plan), d) == OnDay(plan, d)
  {
    if plan != [] {
      SortByDayIsStableSort(plan[1..]);
      InsertSorts(plan[0], SortByDay(plan[1..]));
      InsertMembers(plan[0], SortByDay(plan[1..]));
      assert plan == [plan[0]] + plan[1..];
      forall d: nat
        ensures OnDay(SortByDay(plan), d) == OnDay(plan, d)
      {
        InsertOnDay(plan[0], SortByDay(plan[1..]), d);
      }
    }
  }

  lemma {:induction false} NothingBeforeFirst(s: seq<PlannedAction>, d: nat)
    requires Sorted(s) && (s != [] ==> d < s[0].dayOffset)
    ensures OnDay(s, d) == []
  {
    if s != [] {
      NothingBeforeFirst(s[1..], d);
    }
  }

  lemma FirstIsOnItsDay(s: seq<PlannedAction>)
    requires s != []
    ensures OnDay(s, s[0].dayOffset) != []
  {
  }

  lemma {:induction false} StableSortIsUnique(s: seq<PlannedAction>, t: seq<PlannedAction>)
    requires Sorted(s) && Sorted(t)
    requires forall d: nat :: OnDay(s, d) == OnDay(t, d)
    ensures s == t
  {
    if s == [] || t == [] {
      if s != [] { FirstIsOnItsDay(s); }
      if t != [] { FirstIsOnItsDay(t); }
    } else {
      if s[0].dayOffset < t[0].dayOffset {
        NothingBeforeFirst(t, s[0].dayOffset);
      } else if t[0].dayOffset < s[0].dayOffset {
        NothingBeforeFirst(s, t[0].dayOffset);
      }
      assert OnDay(s, s[0].dayOffset)[0] == s[0] && OnDay(t, t[0].dayOffset)[0] == t[0];
      forall d: nat
        ensures OnDay(s[1..], d) == OnDay(t[1..], d)
      {
        assert OnDay(s, d) == OnDay(t, d);
        if d == s[0].dayOffset {
          assert OnDay(s, d)[1..] == OnDay(s[1..], d);
          assert OnDay(t, d)[1..] == OnDay(t[1..], d);
        } else {
          assert OnDay(s, d) == OnDay(s[1..], d) && OnDay(t, d) == OnDay(t[1..], d);
        }
      }
      StableSortIsUnique(s[1..], t[1..]);
      assert s == [s[0]] + s[1..] && t == [t[0]] + t[1..];
    }
  }

  lemma {:induction false} SortedStays(s: seq<PlannedAction>)
    requires Sorted(s)
    ensures SortByDay(s) == s
  {
    if s != [] {
      SortedStays(s[1..]);
      assert s == [s[0]] + s[1..];
    }
  }

  lemma {:induction false} InsertBeforeLater(a: PlannedAction, s: seq<PlannedAction>, later: seq<PlannedAction>)
    requires forall x :: x in later ==> a.dayOffset <= x.dayOffset
    ensures Insert(a, s + later) == Insert(a, s) + later
  {
    if s == [] {
      assert s + later == later;
      if later != [] { assert later[0] in later; }
    } else if a.dayOffset <= s[0].dayOffset {
      assert [a] + (s + later) == [a] + s + later;
    } else {
      assert (s + later)[1..] == s[1..] + later;
      InsertBeforeLater(a, s[1..], later);
      assert [s[0]] + (Insert(a, s[1..]) + later) == [s[0]] + Insert(a, s[1..]) + later;
    }
  }

  /** Adding actions no earlier than any planned one extends the played order at its end. */
  lemma {:induction false} LaterActionsPlayLater(plan: seq<PlannedAction>, more: seq<PlannedAction>)
    requires forall x, y :: x in plan && y in more ==> x.dayOffset <= y.dayOffset
    ensures SortByDay(plan + more) == SortByDay(plan) + SortByDay(more)
  {
    if plan == [] {
      assert plan + more == more;
    } else {
      assert (plan + more)[1..] == plan[1..] + more;
      LaterActionsPlayLater(plan[1..], more);
      SortByDayIsStableSort(more);
      forall x | x in SortByDay(more)
        ensures plan[0].dayOffset <= x.dayOffset
      {
        assert x in multiset(SortByDay(more));
        assert x in more;
      }
      InsertBeforeLater(plan[0], SortByDay(plan[1..]), SortByDay(more));
    }
  }
}
