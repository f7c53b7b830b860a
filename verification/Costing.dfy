/**
 Priced economics of a batch (eval/costing.py), in exact numbers.  Costing sees only how many
 retries and contacts were played; which ones they were it reconstructs from the plan.
 */
module Costing {
  import opened Wrappers
  import opened Policy
  import opened SimTypes
  import opened Simulator
  import opened Multiples

  // The rates of config/costs.json that pricing reads.
  datatype Rates = Rates(
    smsDlt: real,
    whatsappUtility: real,
    email: real,
    pspFee: real,
    excessPenalty: real,
    mdrPct: real,
    chargebackFee: real,
    supportTicket: real,
    decayPct: real,
    churnProb: real,
    ltv: real,
    schemeCap: int)

  datatype CaseCosts = CaseCosts(
    attempt: real, mdr: real, risk: real, customer: real, capBreach: bool, forgone: real)

  function PaiseToInr(paise: int): real {
    paise as real / 100.0
  }

  /******* Reconstruction *******/

  // The retries and contacts among some actions, in order.
  function MoneyActions(acts: seq<PlannedAction>): seq<PlannedAction> {
    if acts == [] then []
    else
      var last := acts[|acts| - 1];
      MoneyActions(acts[..|acts| - 1]) + if IsRetry(last.verb) || IsContact(last.verb) then [last] else []
  }

  function Spend(acts: seq<PlannedAction>, retries: nat, contacts: nat): seq<PlannedAction> {
    if acts == [] then []
    else if IsRetry(acts[0].verb) && retries > 0 then [acts[0]] + Spend(acts[1..], retries - 1, contacts)
    else if IsContact(acts[0].verb) && contacts > 0 then [acts[0]] + Spend(acts[1..], retries, contacts - 1)
    else Spend(acts[1..], retries, contacts)
  }

  lemma SpendFrom(planned: seq<PlannedAction>, i: nat, retries: nat, contacts: nat)
    requires i < |planned|
    ensures var rest := planned[i + 1..];
            Spend(planned[i..], retries, contacts)
            == if IsRetry(planned[i].verb) && retries > 0 then [planned[i]] + Spend(rest, retries - 1, contacts)
               else if IsContact(planned[i].verb) && contacts > 0 then [planned[i]] + Spend(rest, retries, contacts - 1)
               else Spend(rest, retries, contacts)
  {
    assert planned[i..][1..] == planned[i + 1..];
  }

  lemma Regrouped(executed: seq<PlannedAction>, a: PlannedAction, rest: seq<PlannedAction>)
    ensures executed + ([a] + rest) == executed + [a] + rest
  {
  }

  /** _executed_actions: spend the two counts along the plan. */
  method ExecutedActions(c: SimCase, outcome: CaseOutcome, planFn: PlanFn) returns (executed: seq<PlannedAction>)
    ensures executed == Spend(SortByDay(planFn(c)), outcome.retries, outcome.contacts)
  {
    var planned := SortByDay(planFn(c));
    var retriesLeft, contactsLeft := outcome.retries, outcome.contacts;
    executed := [];
    for i := 0 to |planned|
      invariant executed + Spend(planned[i..], retriesLeft, contactsLeft) == Spend(planned, outcome.retries, outcome.contacts)
    {
      var action := planned[i];
      SpendFrom(planned, i, retriesLeft, contactsLeft);
      if IsRetry(action.verb) && retriesLeft > 0 {
        Regrouped(executed, action, Spend(planned[i + 1..], retriesLeft - 1, contactsLeft));
        executed := executed + [action];
        retriesLeft := retriesLeft - 1;
      } else if IsContact(action.verb) && contactsLeft > 0 {
        Regrouped(executed, action, Spend(planned[i + 1..], retriesLeft, contactsLeft - 1));
        executed := executed + [action];
        contactsLeft := contactsLeft - 1;
      }
      if retriesLeft == 0 && contactsLeft == 0 {
        SpendNothing(planned[i + 1..]);
        return;
      }
    }
  }

  lemma {:induction false} SpendNothing(acts: seq<PlannedAction>)
    ensures Spend(acts, 0, 0) == []
  {
    if acts != [] {
      SpendNothing(acts[1..]);
    }
  }

  lemma {:induction false} CountsFromFront(acts: seq<PlannedAction>)
    requires acts != []
    ensures RetriesIn(acts) == RetriesIn(acts[1..]) + if IsRetry(acts[0].verb) then 1 else 0
    ensures ContactsIn(acts) == ContactsIn(acts[1..]) + if IsContact(acts[0].verb) then 1 else 0
    ensures MoneyActions(acts) == MoneyActions(acts[..1]) + MoneyActions(acts[1..])
  {
    var n := |acts| - 1;
    if n == 0 {
      assert acts[..0] == [] && acts[1..] == [];
    } else {
      assert acts[..n][1..] == acts[1..][..n - 1];
      assert acts[..n][..1] == acts[..1];
      CountsFromFront(acts[..n]);
    }
  }

  lemma {:induction false} SpendPrefix(acts: seq<PlannedAction>, n: nat)
    requires n <= |acts|
    ensures Spend(acts, RetriesIn(acts[..n]), ContactsIn(acts[..n])) == MoneyActions(acts[..n])
    decreases n
  {
    if n == 0 {
      SpendNothing(acts);
    } else {
      var front := acts[..n];
      CountsFromFront(front);
      assert front[1..] == acts[1..][..n - 1];
      SpendPrefix(acts[1..], n - 1);
      assert front[..1][..0] == [];
      assert MoneyActions(front[..1]) == if IsRetry(acts[0].verb) || IsContact(acts[0].verb) then [acts[0]] else [];
    }
  }

  // The retries and contacts that the simulator really played.
  function ReallyExecuted(c: SimCase, plan: seq<PlannedAction>, stream: nat -> real): seq<PlannedAction> {
    MoneyActions(Played(c, SortByDay(plan), stream))
  }

  /** Reconstruction is exact: from the two counts of run_case's outcome alone, costing recovers
      precisely the retries and contacts that were played, in order, whatever the dice. */
  lemma ReconstructionIsExact(c: SimCase, plan: seq<PlannedAction>, stream: nat -> real)
    ensures var out := CaseResult(c, plan, stream);
            Spend(SortByDay(plan), out.retries, out.contacts) == ReallyExecuted(c, plan, stream)
  {
    var acts := SortByDay(plan);
    var played := Played(c, acts, stream);
    if acts != [] {
      assert played == acts[..|played|];
      SpendPrefix(acts, |played|);
    }
  }

  /******* Pricing one case *******/

  function ContactUnitCost(v: SimVerb, rates: Rates): real {
    match v
    case GenericNag => rates.smsDlt
    case PaymentLink => rates.whatsappUtility
    case _ => rates.email
  }

  predicate IsInappropriateContact(c: SimCase, a: PlannedAction) {
    var rc := RecoveryClassFor(c.reason);
    rc.Prohibited? || (rc.CustomerAction? && a.verb.GenericNag?)
  }

  // The fixed ladder of the rival policy.
  function BaselineB2(c: SimCase): seq<PlannedAction> {
    [PlannedAction(Retry, 0, BaselineStep(0)), PlannedAction(GenericNag, 1, BaselineStep(1)),
     PlannedAction(Retry, 2, BaselineStep(2)), PlannedAction(Retry, 5, BaselineStep(5))]
  }

  // Expected recovery given up by refusing to automate prohibited cases; `ours` is the label test.
  function ForgoneProhibited(c: SimCase, outcome: CaseOutcome, ours: bool): real {
    if !ours || !RecoveryClassFor(c.reason).Prohibited? || outcome.recovered then 0.0
    else
      var refused := if RetriesIn(BaselineB2(c)) > outcome.retries then RetriesIn(BaselineB2(c)) - outcome.retries else 0;
      PaiseToInr(c.amountPaise) * c.retryProb * refused as real
  }

  function NagsIn(acts: seq<PlannedAction>): nat {
    if acts == [] then 0
    else NagsIn(acts[..|acts| - 1]) + if acts[|acts| - 1].verb.GenericNag? then 1 else 0
  }

  // Retries beyond the card scheme's cap.
  function Excess(retries: nat, cap: int): nat {
    AtLeastZero(retries - AtLeastZero(cap))
  }

  // How many of the contacts count as inappropriate: all of them on a prohibited case, the
  // generic nags where the customer must act.
  function Inappropriate(c: SimCase, contacts: nat, nags: nat): nat {
    match RecoveryClassFor(c.reason)
    case Prohibited => contacts
    case CustomerAction => nags
    case _ => 0
  }

  // The contacts of a case that nobody may automate; each exposes it to a chargeback.
  function RiskyContacts(c: SimCase, contacts: nat): nat {
    if RecoveryClassFor(c.reason).Prohibited? then contacts else 0
  }

  // The price of one excess retry in issuer goodwill, of one risky and of one inappropriate contact.
  function DecayCharge(c: SimCase, rates: Rates): real {
    PaiseToInr(c.amountPaise) * rates.decayPct
  }

  function RiskCharge(rates: Rates): real {
    rates.supportTicket + rates.churnProb * rates.chargebackFee
  }

  function ChurnCharge(rates: Rates): real {
    rates.churnProb * rates.ltv
  }

  function Mdr(paise: int, rates: Rates): real {
    PaiseToInr(paise) * rates.mdrPct
  }

  function AttemptPrice(retries: nat, links: nat, nags: nat, rates: Rates): real {
    Times(retries, rates.pspFee) + Times(Excess(retries, rates.schemeCap), rates.excessPenalty)
    + Times(nags, rates.smsDlt) + Times(links, rates.whatsappUtility)
  }

  function RiskPrice(c: SimCase, retries: nat, contacts: nat, rates: Rates): real {
    Times(Excess(retries, rates.schemeCap), DecayCharge(c, rates)) + Times(RiskyContacts(c, contacts), RiskCharge(rates))
  }

  function CustomerPrice(c: SimCase, contacts: nat, nags: nat, rates: Rates): real {
    Times(Inappropriate(c, contacts, nags), ChurnCharge(rates))
  }

  datatype Charges = Charges(attempt: real, risk: real, customer: real)

  // What some executed actions cost, in closed form.
  function ChargesOf(c: SimCase, executed: seq<PlannedAction>, rates: Rates): Charges {
    var retries, contacts, nags := RetriesIn(executed), ContactsIn(executed), NagsIn(executed);
    NagsAreContacts(executed);
    Charges(AttemptPrice(retries, contacts - nags, nags, rates),
            RiskPrice(c, retries, contacts, rates),
            CustomerPrice(c, contacts, nags, rates))
  }

  function Price(c: SimCase, executed: seq<PlannedAction>, outcome: CaseOutcome, ours: bool, rates: Rates): CaseCosts {
    var charges := ChargesOf(c, executed, rates);
    CaseCosts(charges.attempt, Mdr(outcome.recoveredPaise, rates), charges.risk, charges.customer,
              outcome.retries > rates.schemeCap, ForgoneProhibited(c, outcome, ours))
  }

  lemma RetryCharge(c: SimCase, retries: nat, links: nat, nags: nat, contacts: nat, rates: Rates)
    ensures AttemptPrice(retries + 1, links, nags, rates)
            == AttemptPrice(retries, links, nags, rates) + rates.pspFee
               + if retries + 1 > rates.schemeCap then rates.excessPenalty else 0.0
    ensures RiskPrice(c, retries + 1, contacts, rates)
            == RiskPrice(c, retries, contacts, rates)
               + if retries + 1 > rates.schemeCap then DecayCharge(c, rates) else 0.0
  {
    var excess := Excess(retries, rates.schemeCap);
    assert Excess(retries + 1, rates.schemeCap) == excess + if retries + 1 > rates.schemeCap then 1 else 0;
  }

  lemma ContactFee(retries: nat, links: nat, nags: nat, a: PlannedAction, rates: Rates)
    requires IsContact(a.verb)
    ensures var nag, link := if a.verb.GenericNag? then 1 else 0, if a.verb.PaymentLink? then 1 else 0;
            AttemptPrice(retries, links + link, nags + nag, rates)
            == AttemptPrice(retries, links, nags, rates) + ContactUnitCost(a.verb, rates)
  {
    if a.verb.GenericNag? {
      assert Times(nags + 1, rates.smsDlt) == Times(nags, rates.smsDlt) + rates.smsDlt;
    } else {
      assert Times(links + 1, rates.whatsappUtility) == Times(links, rates.whatsappUtility) + rates.whatsappUtility;
    }
  }

  lemma ContactRisk(c: SimCase, retries: nat, contacts: nat, rates: Rates)
    ensures RiskPrice(c, retries, contacts + 1, rates)
            == RiskPrice(c, retries, contacts, rates)
               + if RecoveryClassFor(c.reason).Prohibited? then RiskCharge(rates) else 0.0
  {
    assert Times(contacts + 1, RiskCharge(rates)) == Times(contacts, RiskCharge(rates)) + RiskCharge(rates);
  }

  lemma ContactAnnoyance(c: SimCase, contacts: nat, nags: nat, a: PlannedAction, rates: Rates)
    requires IsContact(a.verb)
    ensures CustomerPrice(c, contacts + 1, nags + (if a.verb.GenericNag? then 1 else 0), rates)
            == CustomerPrice(c, contacts, nags, rates)
               + if IsInappropriateContact(c, a) then ChurnCharge(rates) else 0.0
  {
    var charge, before := ChurnCharge(rates), Inappropriate(c, contacts, nags);
    assert Times(before + 1, charge) == Times(before, charge) + charge;
  }

  lemma {:induction false} NagsAreContacts(acts: seq<PlannedAction>)
    ensures NagsIn(acts) <= ContactsIn(acts)
  {
    if acts != [] {
      NagsAreContacts(acts[..|acts| - 1]);
    }
  }

  // The next action's own charges; `retryIndex` counts the retries up to and including it.
  function ChargeFor(c: SimCase, a: PlannedAction, retryIndex: nat, rates: Rates): Charges {
    if IsRetry(a.verb) then
      var over := retryIndex > rates.schemeCap;
      Charges(rates.pspFee + if over then rates.excessPenalty else 0.0,
              if over then DecayCharge(c, rates) else 0.0, 0.0)
    else if IsContact(a.verb) then
      Charges(ContactUnitCost(a.verb, rates),
              if RecoveryClassFor(c.reason).Prohibited? then RiskCharge(rates) else 0.0,
              if IsInappropriateContact(c, a) then ChurnCharge(rates) else 0.0)
    else Charges(0.0, 0.0, 0.0)
  }

  // The charges added one by one.
  function RunningCharges(c: SimCase, executed: seq<PlannedAction>, rates: Rates): Charges {
    if executed == [] then Charges(0.0, 0.0, 0.0)
    else
      var before := RunningCharges(c, executed[..|executed| - 1], rates);
      var one := ChargeFor(c, executed[|executed| - 1], RetriesIn(executed), rates);
      Charges(before.attempt + one.attempt, before.risk + one.risk, before.customer + one.customer)
  }

  lemma ChargesGrow(c: SimCase, before: seq<PlannedAction>, a: PlannedAction, rates: Rates)
    ensures var now, one := ChargesOf(c, before, rates), ChargeFor(c, a, RetriesIn(before + [a]), rates);
            ChargesOf(c, before + [a], rates)
            == Charges(now.attempt + one.attempt, now.risk + one.risk, now.customer + one.customer)
  {
    assert (before + [a])[..|before|] == before;
    NagsAreContacts(before);
    var retries, contacts, nags := RetriesIn(before), ContactsIn(before), NagsIn(before);
    if IsRetry(a.verb) {
      RetryCharge(c, retries, contacts - nags, nags, contacts, rates);
    } else if IsContact(a.verb) {
      ContactFee(retries, contacts - nags, nags, a, rates);
      ContactRisk(c, retries, contacts, rates);
      ContactAnnoyance(c, contacts, nags, a, rates);
    }
  }

  /** The running charges have a closed form in the counts of retries, contacts and nags. */
  lemma {:induction false} ChargesClosedForm(c: SimCase, executed: seq<PlannedAction>, rates: Rates)
    ensures RunningCharges(c, executed, rates) == ChargesOf(c, executed, rates)
  {
    if executed == [] {
      assert ChargesOf(c, [], rates) == Charges(0.0, 0.0, 0.0);
    } else {
      var before, a := executed[..|executed| - 1], executed[|executed| - 1];
      assert executed == before + [a];
      ChargesClosedForm(c, before, rates);
      ChargesGrow(c, before, a, rates);
    }
  }

  method ChargeExecuted(c: SimCase, executed: seq<PlannedAction>, rates: Rates) returns (charges: Charges)
    ensures charges == RunningCharges(c, executed, rates)
  {
    var attempt, risk, customer := 0.0, 0.0, 0.0;
    var retryIndex := 0;
    for i := 0 to |executed|
      invariant retryIndex == RetriesIn(executed[..i])
      invariant Charges(attempt, risk, customer) == RunningCharges(c, executed[..i], rates)
    {
      var action := executed[i];
      assert executed[..i + 1][..i] == executed[..i];
      if IsRetry(action.verb) {
        retryIndex := retryIndex + 1;
        attempt := attempt + rates.pspFee;
        if retryIndex > rates.schemeCap {
          attempt := attempt + rates.excessPenalty;
          risk := risk + DecayCharge(c, rates);
        }
      } else if IsContact(action.verb) {
        attempt := attempt + ContactUnitCost(action.verb, rates);
        if IsInappropriateContact(c, action) {
          customer := customer + ChurnCharge(rates);
          if RecoveryClassFor(c.reason) == Prohibited {
            risk := risk + rates.supportTicket;
            risk := risk + rates.churnProb * rates.chargebackFee;
          }
        }
      }
    }
    assert executed[..|executed|] == executed;
    return Charges(attempt, risk, customer);
  }

  /** compute_case_costs: one pass over the reconstructed actions, priced in closed form. */
  method ComputeCaseCosts(c: SimCase, outcome: CaseOutcome, planFn: PlanFn, ours: bool, rates: Rates) returns (costs: CaseCosts)
    ensures costs == Price(c, Spend(SortByDay(planFn(c)), outcome.retries, outcome.contacts), outcome, ours, rates)
  {
    var executed := ExecutedActions(c, outcome, planFn);
    var charges := ChargeExecuted(c, executed, rates);
    ChargesClosedForm(c, executed, rates);
    costs := CaseCosts(charges.attempt, PaiseToInr(outcome.recoveredPaise) * rates.mdrPct, charges.risk, charges.customer,
                       outcome.retries > rates.schemeCap, ForgoneProhibited(c, outcome, ours));
  }

  /******* What the price means for a played case *******/

  lemma CountsSnoc(acts: seq<PlannedAction>, a: PlannedAction)
    ensures RetriesIn(acts + [a]) == RetriesIn(acts) + if IsRetry(a.verb) then 1 else 0
    ensures ContactsIn(acts + [a]) == ContactsIn(acts) + if IsContact(a.verb) then 1 else 0
    ensures NagsIn(acts + [a]) == NagsIn(acts) + if a.verb.GenericNag? then 1 else 0
  {
    assert (acts + [a])[..|acts|] == acts;
  }

  lemma {:induction false} CountsOfMoneyActions(acts: seq<PlannedAction>)
    ensures RetriesIn(MoneyActions(acts)) == RetriesIn(acts)
    ensures ContactsIn(MoneyActions(acts)) == ContactsIn(acts)
    ensures NagsIn(MoneyActions(acts)) == NagsIn(acts)
  {
    if acts != [] {
      var before, last := acts[..|acts| - 1], acts[|acts| - 1];
      CountsOfMoneyActions(before);
      if IsRetry(last.verb) || IsContact(last.verb) {
        CountsSnoc(MoneyActions(before), last);
      } else {
        assert MoneyActions(acts) == MoneyActions(before);
      }
    }
  }

  function NagsPlayed(c: SimCase, plan: seq<PlannedAction>, stream: nat -> real): nat {
    NagsIn(Played(c, SortByDay(plan), stream))
  }

  // The bill of a case whose outcome has these counts.
  function BillOf(c: SimCase, out: CaseOutcome, nags: nat, ours: bool, rates: Rates): CaseCosts
    requires nags <= out.contacts
  {
    CaseCosts(AttemptPrice(out.retries, out.contacts - nags, nags, rates),
              Mdr(if out.recovered then c.amountPaise else 0, rates),
              RiskPrice(c, out.retries, out.contacts, rates),
              CustomerPrice(c, out.contacts, nags, rates),
              out.retries > rates.schemeCap,
              ForgoneProhibited(c, out, ours))
  }

  lemma PriceFromCounts(c: SimCase, executed: seq<PlannedAction>, out: CaseOutcome, nags: nat, ours: bool, rates: Rates)
    requires RetriesIn(executed) == out.retries && ContactsIn(executed) == out.contacts && NagsIn(executed) == nags
    requires out.recoveredPaise == if out.recovered then c.amountPaise else 0
    ensures nags <= out.contacts && Price(c, executed, out, ours, rates) == BillOf(c, out, nags, ours, rates)
  {
    NagsAreContacts(executed);
  }

  /** The cost of a simulated case in closed form: fees per retry, the scheme's penalty and the
      issuer's decay beyond the cap, SMS per nag and link charge per other contact, MDR on what
      was recovered - all in terms of the outcome's own counts. */
  lemma CaseCostClosedForm(c: SimCase, plan: seq<PlannedAction>, stream: nat -> real, ours: bool, rates: Rates)
    ensures var out, nags := CaseResult(c, plan, stream), NagsPlayed(c, plan, stream);
            nags <= out.contacts
            && Price(c, Spend(SortByDay(plan), out.retries, out.contacts), out, ours, rates) == BillOf(c, out, nags, ours, rates)
  {
    ReconstructionIsExact(c, plan, stream);
    CountsOfMoneyActions(Played(c, SortByDay(plan), stream));
    CountsMatchPlayed(c, plan, stream);
    PriceFromCounts(c, ReallyExecuted(c, plan, stream), CaseResult(c, plan, stream), NagsPlayed(c, plan, stream), ours, rates);
  }

  lemma CountsMatchPlayed(c: SimCase, plan: seq<PlannedAction>, stream: nat -> real)
    ensures var out, played := CaseResult(c, plan, stream), Played(c, SortByDay(plan), stream);
            && out.retries == RetriesIn(played) && out.contacts == ContactsIn(played)
            && out.recoveredPaise == if out.recovered then c.amountPaise else 0
  {
  }

  /******* The bill in figures *******/

  // max(0, retries - max(0, cap)).
  function Beyond(retries: nat, cap: int): int {
    var allowed := if cap > 0 then cap else 0;
    if retries > allowed then retries - allowed else 0
  }

  // How many contacts are inappropriate: all on fraud, the nags where the instrument is dead.
  function Wrong(reason: FailureReason, contacts: nat, nags: nat): nat {
    match reason
    case RiskFraud => contacts
    case CardExpired => nags
    case TokenInvalid => nags
    case MandateRevoked => nags
    case _ => 0
  }

  predicate AttemptFigure(x: real, retries: nat, contacts: nat, nags: nat, rates: Rates) {
    x == retries as real * rates.pspFee + Beyond(retries, rates.schemeCap) as real * rates.excessPenalty
         + nags as real * rates.smsDlt + (contacts - nags) as real * rates.whatsappUtility
  }

  predicate MdrFigure(x: real, paise: int, rates: Rates) {
    x == paise as real / 100.0 * rates.mdrPct
  }

  predicate RiskFigure(x: real, c: SimCase, retries: nat, contacts: nat, rates: Rates) {
    x == Beyond(retries, rates.schemeCap) as real * (c.amountPaise as real / 100.0 * rates.decayPct)
         + (if c.reason.RiskFraud? then contacts else 0) as real * (rates.supportTicket + rates.churnProb * rates.chargebackFee)
  }

  predicate CustomerFigure(x: real, reason: FailureReason, contacts: nat, nags: nat, rates: Rates) {
    x == Wrong(reason, contacts, nags) as real * (rates.churnProb * rates.ltv)
  }

  predicate ForgoneFigure(x: real, c: SimCase, out: CaseOutcome, ours: bool) {
    x == if ours && c.reason.RiskFraud? && !out.recovered
         then c.amountPaise as real / 100.0 * c.retryProb * (if out.retries < 3 then 3 - out.retries else 0) as real
         else 0.0
  }

  lemma AttemptInFigures(retries: nat, contacts: nat, nags: nat, rates: Rates)
    requires nags <= contacts
    ensures AttemptFigure(AttemptPrice(retries, contacts - nags, nags, rates), retries, contacts, nags, rates)
  {
    TimesIsProduct(retries, rates.pspFee);
    TimesIsProduct(Excess(retries, rates.schemeCap), rates.excessPenalty);
    TimesIsProduct(nags, rates.smsDlt);
    TimesIsProduct(contacts - nags, rates.whatsappUtility);
    assert Excess(retries, rates.schemeCap) == Beyond(retries, rates.schemeCap);
  }

  lemma RiskInFigures(c: SimCase, retries: nat, contacts: nat, rates: Rates)
    ensures RiskFigure(RiskPrice(c, retries, contacts, rates), c, retries, contacts, rates)
  {
    TimesIsProduct(Excess(retries, rates.schemeCap), DecayCharge(c, rates));
    TimesIsProduct(RiskyContacts(c, contacts), RiskCharge(rates));
    assert Excess(retries, rates.schemeCap) == Beyond(retries, rates.schemeCap);
  }

  lemma CustomerInFigures(c: SimCase, contacts: nat, nags: nat, rates: Rates)
    ensures CustomerFigure(CustomerPrice(c, contacts, nags, rates), c.reason, contacts, nags, rates)
  {
    TimesIsProduct(Inappropriate(c, contacts, nags), ChurnCharge(rates));
    assert Inappropriate(c, contacts, nags) == Wrong(c.reason, contacts, nags);
  }

  lemma LadderRetries(c: SimCase)
    ensures RetriesIn(BaselineB2(c)) == 3
  {
    var b2 := BaselineB2(c);
    assert b2[..3][..2] == b2[..2] && b2[..2][..1] == b2[..1] && b2[..1][..0] == [];
    assert RetriesIn(b2[..1]) == 1 && RetriesIn(b2[..2]) == 1 && RetriesIn(b2[..3]) == 2;
  }

  lemma ForgoneInFigures(c: SimCase, out: CaseOutcome, ours: bool)
    ensures ForgoneFigure(ForgoneProhibited(c, out, ours), c, out, ours)
  {
    LadderRetries(c);
  }

  lemma MdrInFigures(paise: int, rates: Rates)
    ensures MdrFigure(Mdr(paise, rates), paise, rates)
  {
  }

  /** The same bill in plain figures, from nothing but the rates and the outcome's own counts: what each
      retry, excess retry, nag, link and wrong contact costs, the MDR on the rupees recovered, and the
      recovery forgone - by "ours" on fraud - for each of B2's three retries not made. */
  lemma CaseCostInFigures(c: SimCase, plan: seq<PlannedAction>, stream: nat -> real, ours: bool, rates: Rates)
    ensures var out, nags := CaseResult(c, plan, stream), NagsPlayed(c, plan, stream);
            var bill := Price(c, Spend(SortByDay(plan), out.retries, out.contacts), out, ours, rates);
            && AttemptFigure(bill.attempt, out.retries, out.contacts, nags, rates)
            && MdrFigure(bill.mdr, if out.recovered then c.amountPaise else 0, rates)
            && RiskFigure(bill.risk, c, out.retries, out.contacts, rates)
            && CustomerFigure(bill.customer, c.reason, out.contacts, nags, rates)
            && (bill.capBreach <==> out.retries > rates.schemeCap)
            && ForgoneFigure(bill.forgone, c, out, ours)
  {
    CaseCostClosedForm(c, plan, stream, ours, rates);
    BillInFigures(c, CaseResult(c, plan, stream), NagsPlayed(c, plan, stream), ours, rates);
  }

  lemma BillInFigures(c: SimCase, out: CaseOutcome, nags: nat, ours: bool, rates: Rates)
    requires nags <= out.contacts
    ensures var bill := BillOf(c, out, nags, ours, rates);
            && AttemptFigure(bill.attempt, out.retries, out.contacts, nags, rates)
            && MdrFigure(bill.mdr, if out.recovered then c.amountPaise else 0, rates)
            && RiskFigure(bill.risk, c, out.retries, out.contacts, rates)
            && CustomerFigure(bill.customer, c.reason, out.contacts, nags, rates)
            && ForgoneFigure(bill.forgone, c, out, ours)
  {
    AttemptInFigures(out.retries, out.contacts, nags, rates);
    MdrInFigures(if out.recovered then c.amountPaise else 0, rates);
    RiskInFigures(c, out.retries, out.contacts, rates);
    CustomerInFigures(c, out.contacts, nags, rates);
    ForgoneInFigures(c, out, ours);
  }
}
