/**
 The rules engine (policy/engine.py): from a taxonomy row to actions, from actions to a
 simulator plan, and the validator that bounds a proposed action.
 */
module Engine {
  import opened Wrappers
  import opened Policy
  import opened SimTypes
  import opened Simulator
  import opened Timing

  /******* Taxonomy *******/

  // A class name of the taxonomy: one of the failure reasons, "ambiguous", or something else.
  datatype ClassName = OfReason(reason: FailureReason) | AmbiguousClass | OtherClass(name: string)

  datatype Category = TimeShiftable | Transient | Dead | Stop | AmbiguousCategory

  datatype ClassCfg = ClassCfg(
    category: Category,
    defaultVerb: ActionVerb,
    allowContact: bool,
    maxRetries: int,
    timing: TimingMode,
    reasonCode: string)

  type Taxonomy = map<ClassName, ClassCfg>

  datatype MissingClass = MissingClass

  // class_config: unknown classes fall back on "ambiguous"; without that row the lookup fails.
  function ClassConfig(taxonomy: Taxonomy, name: ClassName): Result<ClassCfg, MissingClass> {
    if name in taxonomy then Ok(taxonomy[name])
    else if AmbiguousClass in taxonomy then Ok(taxonomy[AmbiguousClass])
    else Err(MissingClass)
  }

  /** A class has its own row if there is one; the lookup fails exactly if the fall-back row is missing, too. */
  lemma ClassConfigTells(taxonomy: Taxonomy, name: ClassName)
    ensures name in taxonomy ==> ClassConfig(taxonomy, name) == Ok(taxonomy[name])
    ensures ClassConfig(taxonomy, name).Err? <==> name !in taxonomy && AmbiguousClass !in taxonomy
    ensures name !in taxonomy && AmbiguousClass in taxonomy ==> ClassConfig(taxonomy, name) == Ok(taxonomy[AmbiguousClass])
  {
  }

  // The rows of policy/taxonomy.yaml.
  function ShippedRow(name: ClassName): ClassCfg {
    match name
    case OfReason(InsufficientFunds) => ClassCfg(TimeShiftable, ScheduleRetry, false, 4, SalaryWindow, "NSF_SALARY_WINDOW")
    case OfReason(IssuerTransient) => ClassCfg(Transient, ScheduleRetry, false, 2, ShortBackoff, "TRANSIENT_QUICK_RETRY")
    case OfReason(GatewayTimeout) => ClassCfg(Transient, ScheduleRetry, false, 2, ShortBackoff, "TIMEOUT_RECONCILE_RETRY")
    case OfReason(CardExpired) => ClassCfg(Dead, SendPaymentLink, true, 0, ImmediateContact, "DEAD_CARD_LINK")
    case OfReason(TokenInvalid) => ClassCfg(Dead, SendPaymentLink, true, 0, ImmediateContact, "DEAD_TOKEN_LINK")
    case OfReason(MandateRevoked) => ClassCfg(Dead, RequestMandateUpdate, true, 0, ImmediateContact, "DEAD_MANDATE_UPDATE")
    case OfReason(RiskFraud) => ClassCfg(Stop, EscalateHuman, false, 0, NoTiming, "RISK_ESCALATE")
    case OfReason(DoNotHonour) => ClassCfg(AmbiguousCategory, ScheduleRetry, true, 1, SpacedThenLink, "DNH_SPACED")
    case _ => ClassCfg(AmbiguousCategory, EscalateHuman, false, 0, NoTiming, "AMBIGUOUS_ESCALATE")
  }

  /******* From a row to actions *******/

  // What the engine stamps on every action of one decision.
  datatype Stamp = Stamp(failureClass: string, score: real, policyVersion: string, amountPaise: nat)

  function Stamped(verb: ActionVerb, day: nat, channel: Channel, amount: Option<nat>, cfg: ClassCfg, stamp: Stamp, note: Label): Action {
    Action(verb, Some(day), channel, amount, cfg.reasonCode, stamp.policyVersion, RulesFallback,
           stamp.failureClass, Some(stamp.score), note)
  }

  // The action for one retry day: the late step of a spaced plan is a link, if contact is allowed.
  function RetryStep(off: nat, cfg: ClassCfg, stamp: Stamp): Action {
    if cfg.timing.SpacedThenLink? && off >= 4 && cfg.allowContact
    then Stamped(SendPaymentLink, off, Link, Some(stamp.amountPaise), cfg, stamp, SpacedLink)
    else Stamped(ScheduleRetry, off, NoChannel, Some(stamp.amountPaise), cfg, stamp, RetryOffset(off))
  }

  function ClassActions(cfg: ClassCfg, stamp: Stamp, failureDom: int, observedCreditDay: Option<int>): seq<Action> {
    if cfg.defaultVerb.EscalateHuman? || cfg.timing.NoTiming? then
      [Stamped(EscalateHuman, 0, NoChannel, None, cfg, stamp, EscalateOrNoAuto)]
    else if IsContactVerb(cfg.defaultVerb) then
      [Stamped(cfg.defaultVerb, 0, if cfg.allowContact then Link else NoChannel, Some(stamp.amountPaise), cfg, stamp, DeadInstrumentFixPath)]
      + if cfg.allowContact then [Stamped(SendPaymentLink, 3, Link, Some(stamp.amountPaise), cfg, stamp, DeadInstrumentFollowupLink)] else []
    else
      var offsets := OffsetsForTiming(cfg.timing, failureDom, observedCreditDay, cfg.maxRetries);
      seq(|offsets|, i requires 0 <= i < |offsets| => RetryStep(offsets[i], cfg, stamp))
  }

  /** _actions_from_class_cfg: the primary fix path with a follow-up link, or one step per retry day. */
  method ActionsFromClassCfg(cfg: ClassCfg, stamp: Stamp, failureDom: int, observedCreditDay: Option<int>) returns (actions: seq<Action>)
    ensures actions == ClassActions(cfg, stamp, failureDom, observedCreditDay)
  {
    if cfg.defaultVerb == EscalateHuman || cfg.timing == NoTiming {
      return [Stamped(EscalateHuman, 0, NoChannel, None, cfg, stamp, EscalateOrNoAuto)];
    }
    var amount := Some(stamp.amountPaise);
    if IsContactVerb(cfg.defaultVerb) {
      var channel := if cfg.allowContact then Link else NoChannel;
      actions := [Stamped(cfg.defaultVerb, 0, channel, amount, cfg, stamp, DeadInstrumentFixPath)];
      if cfg.allowContact {
        actions := actions + [Stamped(SendPaymentLink, 3, Link, amount, cfg, stamp, DeadInstrumentFollowupLink)];
      }
      return;
    }
    var offsets := OffsetsForTiming(cfg.timing, failureDom, observedCreditDay, cfg.maxRetries);
    actions := [];
    for i := 0 to |offsets|
      invariant |actions| == i && forall j :: 0 <= j < i ==> actions[j] == RetryStep(offsets[j], cfg, stamp)
    {
      var off := offsets[i];
      if cfg.timing == SpacedThenLink && off >= 4 && cfg.allowContact {
        actions := actions + [Stamped(SendPaymentLink, off, Link, amount, cfg, stamp, SpacedLink)];
      } else {
        actions := actions + [Stamped(ScheduleRetry, off, NoChannel, amount, cfg, stamp, RetryOffset(off))];
      }
    }
  }

  /******* From actions to a simulator plan *******/

  function NoteFor(a: Action): Label {
    if a.note != NoLabel then a.note else Free(a.reasonCode)
  }

  // What an action becomes in the simulator; escalations become nothing.
  function PlannedFor(a: Action): seq<PlannedAction> {
    match a.verb
    case EscalateHuman => []
    case ScheduleRetry => [PlannedAction(Retry, a.dayOffset.GetOr(0), NoteFor(a))]
    case _ => [PlannedAction(PaymentLink, a.dayOffset.GetOr(0), NoteFor(a))]
  }

  function Planned(actions: seq<Action>): seq<PlannedAction> {
    if actions == [] then [] else Planned(actions[..|actions| - 1]) + PlannedFor(actions[|actions| - 1])
  }

  /** decision_to_planned_actions. */
  method DecisionToPlannedActions(actions: seq<Action>) returns (planned: seq<PlannedAction>)
    ensures planned == Planned(actions)
  {
    planned := [];
    for i := 0 to |actions|
      invariant planned == Planned(actions[..i])
    {
      assert actions[..i + 1][..i] == actions[..i];
      var a := actions[i];
      if a.verb == ScheduleRetry {
        planned := planned + [PlannedAction(Retry, a.dayOffset.GetOr(0), NoteFor(a))];
      } else if a.verb == SendPaymentLink || a.verb == RequestMandateUpdate {
        planned := planned + [PlannedAction(PaymentLink, a.dayOffset.GetOr(0), NoteFor(a))];
      }
    }
    assert actions[..|actions|] == actions;
  }

  // The policy "ours": a taxonomy that has its fall-back row, and the classifier's answers.
  datatype Rules = Rules(taxonomy: Taxonomy, classify: FailureReason -> ClassName, stamp: SimCase -> Stamp)

  predicate Loaded(rules: Rules) {
    AmbiguousClass in rules.taxonomy
  }

  function RowFor(rules: Rules, reason: FailureReason): ClassCfg
    requires Loaded(rules)
  {
    ClassConfig(rules.taxonomy, rules.classify(reason)).value
  }

  function OursPlan(rules: Rules, c: SimCase): seq<PlannedAction>
    requires Loaded(rules)
  {
    Planned(ClassActions(RowFor(rules, c.reason), rules.stamp(c), c.failureDom, c.observedCreditDay))
  }

  /******* What actions and plans carry *******/

  /** Every action of a class is stamped with the row's reason code and the decision's class, score and
      version, as a rules proposal; money actions carry the amount, and exactly the contacts of a row
      that allows contact go over a link. */
  lemma ActionsAreStamped(cfg: ClassCfg, stamp: Stamp, failureDom: int, observedCreditDay: Option<int>, a: Action)
    requires a in ClassActions(cfg, stamp, failureDom, observedCreditDay)
    ensures a.reasonCode == cfg.reasonCode && a.failureClass == stamp.failureClass && a.score == Some(stamp.score)
    ensures a.policyVersion == stamp.policyVersion && a.proposedBy == RulesFallback && a.dayOffset.Some?
    ensures a.amountPaise == if a.verb == EscalateHuman then None else Some(stamp.amountPaise)
    ensures a.channel == if a.verb in {SendPaymentLink, RequestMandateUpdate} && cfg.allowContact then Link else NoChannel
  {
  }

  lemma {:induction false} PlannedAppend(xs: seq<Action>, ys: seq<Action>)
    ensures Planned(xs + ys) == Planned(xs) + Planned(ys)
  {
    if ys == [] {
      assert xs + ys == xs;
    } else {
      assert (xs + ys)[..|xs + ys| - 1] == xs + ys[..|ys| - 1];
      PlannedAppend(xs, ys[..|ys| - 1]);
    }
  }

  /** An escalation leaves no trace in the simulator's plan. */
  lemma EscalationsVanish(xs: seq<Action>, a: Action, ys: seq<Action>)
    requires a.verb == EscalateHuman
    ensures Planned(xs + [a] + ys) == Planned(xs + ys)
  {
    assert [a][..0] == [];
    PlannedAppend(xs + [a], ys);
    PlannedAppend(xs, [a]);
    PlannedAppend(xs, ys);
    assert Planned([a]) == Planned([]) + PlannedFor(a) == [];
    assert Planned(xs) + [] == Planned(xs);
  }

  /** The other actions become one planned action each, in order: a retry a retry, a contact a link, on the
      action's day - day 0 if it names none - with its note, or its reason code for want of one. */
  lemma {:induction false} PlannedTells(actions: seq<Action>)
    requires forall a :: a in actions ==> a.verb != EscalateHuman
    ensures |Planned(actions)| == |actions|
    ensures forall i :: 0 <= i < |actions| ==>
              var a, p := actions[i], Planned(actions)[i];
              && p.verb == (if a.verb == ScheduleRetry then Retry else PaymentLink)
              && p.dayOffset == (if a.dayOffset == None then 0 else a.dayOffset.value)
              && p.note == (if a.note == NoLabel then Free(a.reasonCode) else a.note)
  {
    if actions != [] {
      assert actions[|actions| - 1] in actions;
      PlannedTells(actions[..|actions| - 1]);
    }
  }

  /******* What the plans of "ours" can contain *******/

  lemma {:induction false} PlannedMembers(actions: seq<Action>, p: PlannedAction)
    requires p in Planned(actions)
    ensures exists a :: a in actions && PlannedFor(a) == [p]
  {
    var n := |actions| - 1;
    if p in Planned(actions[..n]) {
      PlannedMembers(actions[..n], p);
      var a :| a in actions[..n] && PlannedFor(a) == [p];
      assert a in actions;
    } else {
      assert p in PlannedFor(actions[n]);
    }
  }

  /** No plan of "ours" ever holds a generic nag or a no-op. */
  lemma OursNeverNags(rules: Rules, c: SimCase, p: PlannedAction)
    requires Loaded(rules) && p in OursPlan(rules, c)
    ensures p.verb.Retry? || p.verb.PaymentLink?
  {
    PlannedMembers(ClassActions(RowFor(rules, c.reason), rules.stamp(c), c.failureDom, c.observedCreditDay), p);
  }

  // The row plans at least one retry, whatever the failure day and the hint.
  predicate PlansRetry(cfg: ClassCfg) {
    && cfg.defaultVerb.ScheduleRetry? && !cfg.timing.NoTiming?
    && (cfg.timing.SalaryWindow? || cfg.timing.ShortBackoff? || cfg.timing.OtherTiming? ==> cfg.maxRetries > 0)
  }

  lemma OffsetsExist(cfg: ClassCfg, failureDom: int, observedCreditDay: Option<int>)
    requires PlansRetry(cfg)
    ensures OffsetsForTiming(cfg.timing, failureDom, observedCreditDay, cfg.maxRetries) != []
    ensures cfg.timing.SpacedThenLink? ==> OffsetsForTiming(cfg.timing, failureDom, observedCreditDay, cfg.maxRetries) == [2, 4]
  {
    if cfg.timing.SalaryWindow? {
      SalaryOffsetsExist(failureDom, observedCreditDay);
    }
  }

  lemma SalaryOffsetsExist(failureDom: int, observedCreditDay: Option<int>)
    ensures SalaryOffsets(failureDom, observedCreditDay) != []
  {
    if observedCreditDay.None? {
      WaitsFromDay(OnCircle(failureDom));
      WaitsDependOnCircleOnly(failureDom);
    }
  }

  /** The plan holds a retry exactly if the row plans one, and then its first played action is one. */
  lemma RetriesOfPlan(rules: Rules, c: SimCase)
    requires Loaded(rules)
    ensures var plan := OursPlan(rules, c);
            if PlansRetry(RowFor(rules, c.reason)) then plan != [] && SortByDay(plan)[0].verb.Retry?
            else forall p :: p in plan ==> p.verb.PaymentLink?
  {
    var cfg, stamp := RowFor(rules, c.reason), rules.stamp(c);
    var actions := ClassActions(cfg, stamp, c.failureDom, c.observedCreditDay);
    var plan := OursPlan(rules, c);
    if PlansRetry(cfg) {
      OffsetsExist(cfg, c.failureDom, c.observedCreditDay);
      if cfg.timing.SpacedThenLink? {
        SpacedPlan(actions, cfg, stamp);
      } else {
        OnlyRetries(actions);
      }
      SortByDayIsStableSort(plan);
      FirstOfSorted(plan);
    } else {
      forall p | p in plan
        ensures p.verb.PaymentLink?
      {
        PlannedMembers(actions, p);
      }
    }
  }

  lemma {:induction false} OnlyRetries(actions: seq<Action>)
    requires actions != [] && forall a :: a in actions ==> a.verb.ScheduleRetry?
    ensures Planned(actions) != [] && forall p :: p in Planned(actions) ==> p.verb.Retry?
  {
    var n := |actions| - 1;
    assert actions[n] in actions;
    if n > 0 {
      OnlyRetries(actions[..n]);
    } else {
      assert actions[..0] == [];
    }
  }

  lemma SpacedPlan(actions: seq<Action>, cfg: ClassCfg, stamp: Stamp)
    requires actions == [RetryStep(2, cfg, stamp), RetryStep(4, cfg, stamp)]
    ensures |Planned(actions)| == 2 && Planned(actions)[0].verb.Retry? && Sorted(Planned(actions))
    ensures SortByDay(Planned(actions)) == Planned(actions)
  {
    assert actions[..1] == [RetryStep(2, cfg, stamp)] && actions[..1][..0] == [];
    assert Planned([]) == [];
    assert Planned(actions[..1]) == PlannedFor(actions[0]);
    assert Planned(actions) == PlannedFor(actions[0]) + PlannedFor(actions[1]);
    SortedStays(Planned(actions));
  }

  lemma FirstOfSorted(plan: seq<PlannedAction>)
    requires plan != []
    ensures SortByDay(plan) != [] && SortByDay(plan)[0] in plan
  {
    SortByDayIsStableSort(plan);
    assert SortByDay(plan) != [];
    assert SortByDay(plan)[0] in multiset(SortByDay(plan));
  }

  /******* Few actions *******/

  lemma {:induction false} PlannedIsNoLonger(actions: seq<Action>)
    ensures |Planned(actions)| <= |actions|
  {
    if actions != [] {
      PlannedIsNoLonger(actions[..|actions| - 1]);
    }
  }

  lemma {:induction false} RetriesAtMostAll(acts: seq<PlannedAction>)
    ensures RetriesIn(acts) <= |acts|
  {
    if acts != [] {
      RetriesAtMostAll(acts[..|acts| - 1]);
    }
  }

  lemma RetriesWithinPlan(c: SimCase, plan: seq<PlannedAction>, stream: nat -> real)
    ensures CaseResult(c, plan, stream).retries <= |plan|
  {
    var acts := SortByDay(plan);
    SortByDayIsStableSort(plan);
    assert |acts| == |multiset(acts)| == |multiset(plan)| == |plan|;
    RetriesAtMostAll(Played(c, acts, stream));
  }

  /** Whatever the taxonomy says - even with a large max_retries - a case under "ours" is retried at
      most four times. */
  lemma OursRetriesAtMostFour(rules: Rules, c: SimCase, stream: nat -> real)
    requires Loaded(rules)
    ensures CaseResult(c, OursPlan(rules, c), stream).retries <= 4
  {
    var actions := ClassActions(RowFor(rules, c.reason), rules.stamp(c), c.failureDom, c.observedCreditDay);
    assert |actions| <= 4;
    PlannedIsNoLonger(actions);
    RetriesWithinPlan(c, OursPlan(rules, c), stream);
  }

  /******* Waste *******/

  lemma {:induction false} NoRetriesCounted(acts: seq<PlannedAction>)
    requires forall p :: p in acts ==> !IsRetry(p.verb)
    ensures RetriesIn(acts) == 0
  {
    if acts != [] {
      assert acts[|acts| - 1] in acts;
      NoRetriesCounted(acts[..|acts| - 1]);
    }
  }

  lemma {:induction false} FirstRetryCounts(acts: seq<PlannedAction>)
    requires acts != [] && IsRetry(acts[0].verb)
    ensures RetriesIn(acts) > 0
  {
    if |acts| > 1 {
      FirstRetryCounts(acts[..|acts| - 1]);
    }
  }

  /** Where only the customer can act, "ours" wastes nothing exactly when the case's taxonomy row
      plans no retry - for all dice alike; a row that plans one wastes at least one, whatever falls. */
  lemma WasteIsDecidedByTheRow(rules: Rules, c: SimCase, stream: nat -> real)
    requires Loaded(rules) && RecoveryClassFor(c.reason).CustomerAction?
    ensures CaseResult(c, OursPlan(rules, c), stream).wasted == 0 <==> !PlansRetry(RowFor(rules, c.reason))
  {
    var plan := OursPlan(rules, c);
    RetriesOfPlan(rules, c);
    if plan != [] {
      var acts := SortByDay(plan);
      FirstOfSorted(plan);
      var played := Played(c, acts, stream);
      assert played != [] && played[0] == acts[0];
      if PlansRetry(RowFor(rules, c.reason)) {
        FirstRetryCounts(played);
      } else {
        SortByDayIsStableSort(plan);
        forall p | p in played
          ensures !IsRetry(p.verb)
        {
          assert p in acts;
          assert p in multiset(acts);
        }
        NoRetriesCounted(played);
      }
    }
  }

  // Every reason that needs the customer maps to a row with a contact verb that acts at all.
  predicate ContactsTheCustomer(rules: Rules)
    requires Loaded(rules)
  {
    forall reason: FailureReason :: RecoveryClassFor(reason).CustomerAction? ==>
      IsContactVerb(RowFor(rules, reason).defaultVerb) && !RowFor(rules, reason).timing.NoTiming?
  }

  /** Under such a taxonomy a whole batch of "ours" wastes nothing, for all dice, and each recovery
      where the customer had to act came from a contact. */
  lemma OursWastesNothing(rules: Rules, planFn: PlanFn, cases: seq<SimCase>, streams: string -> nat -> real, i: nat)
    requires Loaded(rules) && ContactsTheCustomer(rules)
    requires forall c :: planFn(c) == OursPlan(rules, c)
    requires i < |cases|
    ensures var out := BatchResult(streams, cases, planFn)[i];
            && out.wasted == 0
            && (RecoveryClassFor(cases[i].reason).CustomerAction? ==> out.retries == 0)
            && (RecoveryClassFor(cases[i].reason).CustomerAction? && out.recovered ==>
                  !out.natural && out.contacts > 0 && out.notes[|out.notes| - 1].ContactNote?)
  {
    var c := cases[i];
    var stream, plan := streams(c.caseKey), OursPlan(rules, c);
    if RecoveryClassFor(c.reason).CustomerAction? {
      WasteIsDecidedByTheRow(rules, c, stream);
      ContactPlanNotEmpty(rules, c);
      RetriesOfPlan(rules, c);
      OnlyLinksPlayed(c, plan, stream);
    } else {
      assert BatchResult(streams, cases, planFn)[i] == CaseResult(c, plan, stream);
    }
  }

  lemma ContactPlanNotEmpty(rules: Rules, c: SimCase)
    requires Loaded(rules) && ContactsTheCustomer(rules) && RecoveryClassFor(c.reason).CustomerAction?
    ensures OursPlan(rules, c) != []
  {
    var actions := ClassActions(RowFor(rules, c.reason), rules.stamp(c), c.failureDom, c.observedCreditDay);
    assert actions[..1][..0] == [];
    assert Planned(actions[..1]) != [];
    if |actions| == 2 {
      assert Planned(actions) == Planned(actions[..1]) + PlannedFor(actions[1]);
    } else {
      assert actions[..1] == actions;
    }
  }

  // A non-empty plan of links only: any recovery is the last played contact's.
  lemma OnlyLinksPlayed(c: SimCase, plan: seq<PlannedAction>, stream: nat -> real)
    requires plan != [] && forall p :: p in plan ==> p.verb.PaymentLink?
    ensures var out := CaseResult(c, plan, stream);
            out.retries == 0 && !out.natural
            && (out.recovered ==> out.contacts > 0 && out.notes[|out.notes| - 1].ContactNote?)
  {
    var acts := SortByDay(plan);
    SortByDayIsStableSort(plan);
    FirstOfSorted(plan);
    var played := Played(c, acts, stream);
    forall p | p in played
      ensures p.verb.PaymentLink?
    {
      assert p in acts;
      assert p in multiset(acts);
    }
    NoRetriesCounted(played);
    assert played[|played| - 1] in played;
  }
}
