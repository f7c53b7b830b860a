/**
 The shipped taxonomy and decline codes (policy/taxonomy.yaml, fixtures/decline_codes.json) put to
 the conditions of the policy theorems, and what follows for "ours" as shipped.
 */
module Shipped {
  import opened Policy
  import opened SimTypes
  import opened Simulator
  import opened Outreach
  import opened Timing
  import opened Engine
  import opened Salary
  import opened Validator

  const SHIPPED_NAMES: set<ClassName> := {
    OfReason(InsufficientFunds), OfReason(IssuerTransient), OfReason(GatewayTimeout), OfReason(CardExpired),
    OfReason(TokenInvalid), OfReason(MandateRevoked), OfReason(RiskFraud), OfReason(DoNotHonour), AmbiguousClass}

  const SHIPPED: Taxonomy := map name | name in SHIPPED_NAMES :: ShippedRow(name)

  // Every failure reason of the simulator is a key of the decline codes, mapped to the class of its name.
  function ShippedClassifier(reason: FailureReason): ClassName {
    OfReason(reason)
  }

  function ShippedRules(stamp: SimCase -> Stamp): Rules {
    Rules(SHIPPED, ShippedClassifier, stamp)
  }

  lemma ShippedRowFor(stamp: SimCase -> Stamp, reason: FailureReason)
    ensures Loaded(ShippedRules(stamp)) && RowFor(ShippedRules(stamp), reason) == ShippedRow(OfReason(reason))
  {
    assert OfReason(reason) in SHIPPED_NAMES;
  }

  /** The shipped files meet the conditions of OursWastesNothing and SalaryPlanRecovery. */
  lemma ShippedRulesQualify(stamp: SimCase -> Stamp)
    ensures Loaded(ShippedRules(stamp)) && ContactsTheCustomer(ShippedRules(stamp))
    ensures RetriesAlongSalary(RowFor(ShippedRules(stamp), InsufficientFunds))
    ensures forall name :: name in SHIPPED ==> Sound(SHIPPED[name])
  {
    forall reason: FailureReason
      ensures RowFor(ShippedRules(stamp), reason) == ShippedRow(OfReason(reason))
    {
      ShippedRowFor(stamp, reason);
    }
    forall name | name in SHIPPED
      ensures Sound(SHIPPED[name])
    {
      ShippedTaxonomyIsSound(name);
    }
  }

  /** "Ours" as shipped, for all cases and dice: where the customer must act it never retries and
      recovers by contacts only; a fraud case is never touched; and a shortage of funds with a
      correct hint recovers exactly if one of its two or three funded rolls succeeds. */
  lemma OursAsShipped(stamp: SimCase -> Stamp, c: SimCase, stream: nat -> real)
    ensures Loaded(ShippedRules(stamp))
    ensures var out := CaseResult(c, OursPlan(ShippedRules(stamp), c), stream);
            && out.wasted == 0
            && (RecoveryClassFor(c.reason).CustomerAction? ==> out.retries == 0 && !out.natural && (out.recovered ==> out.contacts > 0))
            && (c.reason.RiskFraud? ==> out.retries == out.contacts == 0)
            && (WellObserved(c) ==> (out.recovered <==> exists j: nat :: j < FundedRetries(c) && stream(j) < c.retryProb))
  {
    var rules := ShippedRules(stamp);
    ShippedRulesQualify(stamp);
    ShippedRowFor(stamp, c.reason);
    if RecoveryClassFor(c.reason).CustomerAction? {
      OursWastesNothing(rules, c' => OursPlan(rules, c'), [c], _ => stream, 0);
    } else if c.reason.RiskFraud? {
      FraudPlansNothing(stamp, c);
    } else if WellObserved(c) {
      SalaryPlanRecovery(rules, c, stream);
    }
  }

  lemma FraudPlansNothing(stamp: SimCase -> Stamp, c: SimCase)
    requires c.reason.RiskFraud?
    ensures Loaded(ShippedRules(stamp)) && OursPlan(ShippedRules(stamp), c) == []
  {
    ShippedRowFor(stamp, c.reason);
    var actions := ClassActions(RowFor(ShippedRules(stamp), c.reason), stamp(c), c.failureDom, c.observedCreditDay);
    assert |actions| == 1 && actions[..0] == [];
    assert Planned(actions[..0]) == [];
  }

  /******* What a case goes through *******/

  // The plan's verbs and days.
  predicate Plays(plan: seq<PlannedAction>, steps: seq<(SimVerb, nat)>) {
    |plan| == |steps| && forall i :: 0 <= i < |plan| ==> plan[i].verb == steps[i].0 && plan[i].dayOffset == steps[i].1
  }

  lemma TwoStepPlan(stamp: SimCase -> Stamp, c: SimCase, first: Action, second: Action)
    requires ClassActions(ShippedRow(OfReason(c.reason)), stamp(c), c.failureDom, c.observedCreditDay) == [first, second]
    requires first.verb != EscalateHuman && second.verb != EscalateHuman
    ensures Loaded(ShippedRules(stamp))
    ensures Plays(OursPlan(ShippedRules(stamp), c),
                  [(if first.verb == ScheduleRetry then Retry else PaymentLink, first.dayOffset.GetOr(0)),
                   (if second.verb == ScheduleRetry then Retry else PaymentLink, second.dayOffset.GetOr(0))])
  {
    ShippedRowFor(stamp, c.reason);
    PlannedTells([first, second]);
  }

  lemma ContactPlan(stamp: SimCase -> Stamp, c: SimCase)
    requires RecoveryClassFor(c.reason).CustomerAction?
    ensures Loaded(ShippedRules(stamp)) && Plays(OursPlan(ShippedRules(stamp), c), [(PaymentLink, 0), (PaymentLink, 3)])
  {
    var own := ClassActions(ShippedRow(OfReason(c.reason)), stamp(c), c.failureDom, c.observedCreditDay);
    assert own == [own[0], own[1]];
    TwoStepPlan(stamp, c, own[0], own[1]);
  }

  lemma TransientPlan(stamp: SimCase -> Stamp, c: SimCase)
    requires c.reason.IssuerTransient? || c.reason.GatewayTimeout?
    ensures Loaded(ShippedRules(stamp)) && Plays(OursPlan(ShippedRules(stamp), c), [(Retry, 0), (Retry, 1)])
  {
    var cfg := ShippedRow(OfReason(c.reason));
    assert OffsetsForTiming(cfg.timing, c.failureDom, c.observedCreditDay, cfg.maxRetries) == [0, 1];
    var own := ClassActions(cfg, stamp(c), c.failureDom, c.observedCreditDay);
    assert own == [own[0], own[1]];
    TwoStepPlan(stamp, c, own[0], own[1]);
  }

  lemma SpacedThenLinkPlan(stamp: SimCase -> Stamp, c: SimCase)
    requires c.reason.DoNotHonour?
    ensures Loaded(ShippedRules(stamp)) && Plays(OursPlan(ShippedRules(stamp), c), [(Retry, 2), (PaymentLink, 4)])
  {
    var own := ClassActions(ShippedRow(OfReason(c.reason)), stamp(c), c.failureDom, c.observedCreditDay);
    assert own == [own[0], own[1]];
    TwoStepPlan(stamp, c, own[0], own[1]);
  }

  function NoteOfStep(step: (SimVerb, nat)): Note {
    if step.0 == Retry then RetryNote(step.1, false)
    else if step.0 == Noop then NoopNote(step.1)
    else ContactNote(step.1, false)
  }

  lemma UnrecoveredPlaysAll(c: SimCase, plan: seq<PlannedAction>, steps: seq<(SimVerb, nat)>, stream: nat -> real)
    requires Plays(plan, steps) && plan != [] && Sorted(plan) && !CaseResult(c, plan, stream).recovered
    ensures CaseResult(c, plan, stream).notes == seq(|steps|, i requires 0 <= i < |steps| => NoteOfStep(steps[i]))
  {
    SortedStays(plan);
  }

  lemma TwoStepNotes(c: SimCase, plan: seq<PlannedAction>, first: (SimVerb, nat), second: (SimVerb, nat), stream: nat -> real)
    requires Plays(plan, [first, second]) && first.1 <= second.1 && !CaseResult(c, plan, stream).recovered
    ensures CaseResult(c, plan, stream).notes == [NoteOfStep(first), NoteOfStep(second)]
  {
    UnrecoveredPlaysAll(c, plan, [first, second], stream);
  }

  /** What "ours" as shipped does with a case that does not recover, for all dice: two links, on days 0 and
      3, where the customer must act; two quick retries for a transient failure; a spaced retry and
      then a link for do-not-honour; nothing at all for fraud. */
  lemma UnrecoveredAsShipped(stamp: SimCase -> Stamp, c: SimCase, stream: nat -> real)
    requires Loaded(ShippedRules(stamp)) && !CaseResult(c, OursPlan(ShippedRules(stamp), c), stream).recovered
    ensures var notes := CaseResult(c, OursPlan(ShippedRules(stamp), c), stream).notes;
            && (c.reason in {CardExpired, TokenInvalid, FailureReason.MandateRevoked} ==> notes == [ContactNote(0, false), ContactNote(3, false)])
            && (c.reason in {IssuerTransient, GatewayTimeout} ==> notes == [RetryNote(0, false), RetryNote(1, false)])
            && (c.reason == DoNotHonour ==> notes == [RetryNote(2, false), ContactNote(4, false)])
            && (c.reason == RiskFraud ==> notes == [NoActionNoNatural])
  {
    var plan := OursPlan(ShippedRules(stamp), c);
    match c.reason
    case InsufficientFunds =>
    case RiskFraud => FraudPlansNothing(stamp, c);
    case DoNotHonour => SpacedThenLinkPlan(stamp, c); TwoStepNotes(c, plan, (Retry, 2), (PaymentLink, 4), stream);
    case IssuerTransient => TransientPlan(stamp, c); TwoStepNotes(c, plan, (Retry, 0), (Retry, 1), stream);
    case GatewayTimeout => TransientPlan(stamp, c); TwoStepNotes(c, plan, (Retry, 0), (Retry, 1), stream);
    case _ => ContactPlan(stamp, c); TwoStepNotes(c, plan, (PaymentLink, 0), (PaymentLink, 3), stream);
  }

  /** And when they recover: the customer's link at full and the second at 0.55 of the response, a transient
      failure by either retry if the instrument works, do-not-honour by a funded retry or else the link. */
  lemma RecoveryAsShipped(stamp: SimCase -> Stamp, c: SimCase, stream: nat -> real)
    requires Loaded(ShippedRules(stamp))
    ensures var recovered := CaseResult(c, OursPlan(ShippedRules(stamp), c), stream).recovered;
            && (c.reason in {CardExpired, TokenInvalid, FailureReason.MandateRevoked} ==>
                  (recovered <==> stream(0) < c.contactProb || stream(1) < c.contactProb * 0.55))
            && (c.reason in {IssuerTransient, GatewayTimeout} ==>
                  (recovered <==> c.instrumentValid && (stream(0) < c.retryProb || stream(1) < c.retryProb)))
            && (c.reason == DoNotHonour ==>
                  (recovered <==> if c.instrumentValid && FundedWait(c.trueCreditDay, c.failureDom, 2)
                                  then stream(0) < c.retryProb || stream(1) < c.contactProb else stream(0) < c.contactProb))
            && (c.reason == RiskFraud ==> (recovered <==> stream(0) < c.naturalProb))
  {
    var plan := OursPlan(ShippedRules(stamp), c);
    match c.reason
    case InsufficientFunds =>
    case RiskFraud => FraudPlansNothing(stamp, c); EmptyPlan(c, stream);
    case DoNotHonour => SpacedThenLinkPlan(stamp, c); SpacedThenLinkRecovery(c, plan, stream);
    case IssuerTransient => TransientPlan(stamp, c); TransientRecovery(c, plan, stream);
    case GatewayTimeout => TransientPlan(stamp, c); TransientRecovery(c, plan, stream);
    case _ => ContactPlan(stamp, c); TwoLinksRecovery(c, plan, stream);
  }

  lemma TwoLinksRecovery(c: SimCase, plan: seq<PlannedAction>, stream: nat -> real)
    requires Plays(plan, [(PaymentLink, 0), (PaymentLink, 3)])
    ensures CaseResult(c, plan, stream).recovered <==> stream(0) < c.contactProb || stream(1) < c.contactProb * 0.55
  {
    ContactOnlyPlan(c, plan, stream);
    FirstTwoAnswers(c, stream);
  }

  lemma FirstTwoAnswers(c: SimCase, stream: nat -> real)
    ensures Answers(c, stream, 0) <==> stream(0) < c.contactProb
    ensures Answers(c, stream, 1) <==> stream(1) < c.contactProb * 0.55
  {
  }

  lemma TwoStepWin(c: SimCase, plan: seq<PlannedAction>, stream: nat -> real)
    requires |plan| == 2 && Sorted(plan)
    ensures CaseResult(c, plan, stream).recovered <==> Wins(c, plan, stream, 0) || Wins(c, plan, stream, 1)
  {
    SortedStays(plan);
  }

  lemma SecondStep(c: SimCase, plan: seq<PlannedAction>)
    requires |plan| == 2
    ensures plan[..0] == [] && RollsIn(c, plan[..1]) == (if Rolls(c, plan[0]) then 1 else 0)
    ensures ContactsIn(plan[..1]) == (if IsContact(plan[0].verb) then 1 else 0)
  {
    assert plan[..1][..0] == [];
  }

  lemma TransientRecovery(c: SimCase, plan: seq<PlannedAction>, stream: nat -> real)
    requires c.reason.IssuerTransient? || c.reason.GatewayTimeout?
    requires Plays(plan, [(Retry, 0), (Retry, 1)])
    ensures CaseResult(c, plan, stream).recovered <==> c.instrumentValid && (stream(0) < c.retryProb || stream(1) < c.retryProb)
  {
    TwoStepWin(c, plan, stream);
    SecondStep(c, plan);
  }

  lemma SpacedThenLinkRecovery(c: SimCase, plan: seq<PlannedAction>, stream: nat -> real)
    requires c.reason.DoNotHonour? && Plays(plan, [(Retry, 2), (PaymentLink, 4)])
    ensures CaseResult(c, plan, stream).recovered
            <==> if c.instrumentValid && FundedWait(c.trueCreditDay, c.failureDom, 2)
                 then stream(0) < c.retryProb || stream(1) < c.contactProb else stream(0) < c.contactProb
  {
    TwoStepWin(c, plan, stream);
    SecondStep(c, plan);
    assert ResponseProb(c.contactProb, 0) == c.contactProb;
  }

  /** A decline that no code recognises is left alone: its class falls back on the ambiguous row. */
  lemma UnrecognisedIsLeftAlone(rules: Rules, c: SimCase)
    requires rules.taxonomy == SHIPPED && rules.classify(c.reason) !in SHIPPED_NAMES
    ensures Loaded(rules) && OursPlan(rules, c) == []
  {
    assert RowFor(rules, c.reason) == ShippedRow(AmbiguousClass);
    var actions := ClassActions(RowFor(rules, c.reason), rules.stamp(c), c.failureDom, c.observedCreditDay);
    assert |actions| == 1 && actions[..0] == [];
    assert Planned(actions[..0]) == [];
  }
}
