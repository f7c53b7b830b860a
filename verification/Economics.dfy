/**
 How the three cost knobs of the break-even search - SMS price, link price, churn probability -
 move the comparison of "ours" with the fixed ladder B2 (eval/costing.py, eval/baselines.py,
 eval/benchmark.py's compare_seed), and what the search then finds.
 */
module Economics {
  import opened SimTypes
  import opened Simulator
  import opened Multiples
  import opened Engine
  import opened Costing
  import opened Batches
  import B = BreakEven

  function Turned(rates: Rates, key: B.CostKey, value: real): Rates {
    match key
    case SmsDlt => rates.(smsDlt := value)
    case WhatsappUtility => rates.(whatsappUtility := value)
    case ChurnProb => rates.(churnProb := value)
  }

  function With(s: Setting, key: B.CostKey, value: real): Setting {
    s.(rates := Turned(s.rates, key, value))
  }

  // What one unit on the knob costs: every nag, every link, or what inappropriate and risky contacts
  // put at stake.
  function AttemptExposure(links: nat, nags: nat, key: B.CostKey): real {
    match key
    case SmsDlt => nags as real
    case WhatsappUtility => links as real
    case ChurnProb => 0.0
  }

  function RiskExposure(c: SimCase, contacts: nat, rates: Rates, key: B.CostKey): real {
    if key.ChurnProb? then Times(RiskyContacts(c, contacts), rates.chargebackFee) else 0.0
  }

  function CustomerExposure(c: SimCase, contacts: nat, nags: nat, rates: Rates, key: B.CostKey): real {
    if key.ChurnProb? then Times(Inappropriate(c, contacts, nags), rates.ltv) else 0.0
  }

  function CountExposure(c: SimCase, contacts: nat, nags: nat, rates: Rates, key: B.CostKey): real
    requires nags <= contacts
  {
    AttemptExposure(contacts - nags, nags, key) + RiskExposure(c, contacts, rates, key)
    + CustomerExposure(c, contacts, nags, rates, key)
  }

  function Exposure(c: SimCase, executed: seq<PlannedAction>, rates: Rates, key: B.CostKey): real {
    NagsAreContacts(executed);
    CountExposure(c, ContactsIn(executed), NagsIn(executed), rates, key)
  }

  // A cost at a value of the knob, the cost at zero, and the exposure that separates the two.
  predicate Separated(cost: real, free: real, exposure: real, value: real) {
    cost == free + Part(exposure, value)
  }

  lemma SeparatedSums(t: real, t0: real, e: real, i: real, i0: real, f: real, value: real)
    requires Separated(t, t0, e, value) && Separated(i, i0, f, value)
    ensures Separated(t + i, t0 + i0, e + f, value)
  {
    PartSplits(e, f, value);
  }

  /******* Costs are affine in each knob *******/

  lemma AttemptKnob(retries: nat, links: nat, nags: nat, rates: Rates, key: B.CostKey, value: real)
    ensures Separated(AttemptPrice(retries, links, nags, Turned(rates, key, value)),
                      AttemptPrice(retries, links, nags, Turned(rates, key, 0.0)), AttemptExposure(links, nags, key), value)
  {
    match key
    case SmsDlt => TimesZero(nags); TimesIsProduct(nags, value);
    case WhatsappUtility => TimesZero(links); TimesIsProduct(links, value);
    case ChurnProb => assert Part(0.0, value) == 0.0;
  }

  lemma ChargesFromFields(c: SimCase, rates: Rates)
    ensures DecayCharge(c, rates) == Part(PaiseToInr(c.amountPaise), rates.decayPct)
    ensures RiskCharge(rates) == rates.supportTicket + Part(rates.churnProb, rates.chargebackFee)
    ensures ChurnCharge(rates) == Part(rates.churnProb, rates.ltv)
  {
  }

  lemma SameCharges(c: SimCase, r: Rates, s: Rates)
    requires r.decayPct == s.decayPct && r.supportTicket == s.supportTicket && r.chargebackFee == s.chargebackFee && r.ltv == s.ltv
    ensures DecayCharge(c, r) == DecayCharge(c, s)
    ensures r.churnProb == s.churnProb ==> RiskCharge(r) == RiskCharge(s) && ChurnCharge(r) == ChurnCharge(s)
  {
    ChargesFromFields(c, r);
    ChargesFromFields(c, s);
  }

  // The charges with the churn probability at a value, in terms of that value.
  lemma ChargesAtChurn(c: SimCase, rates: Rates, value: real)
    ensures var turned := Turned(rates, B.ChurnProb, value);
            && RiskCharge(turned) == rates.supportTicket + Part(value, rates.chargebackFee)
            && ChurnCharge(turned) == 0.0 + Part(value, rates.ltv)
    ensures Part(0.0, rates.chargebackFee) == 0.0 == Part(0.0, rates.ltv)
  {
    ChargesFromFields(c, Turned(rates, B.ChurnProb, value));
  }

  lemma RiskKnob(c: SimCase, retries: nat, contacts: nat, rates: Rates, key: B.CostKey, value: real)
    ensures Separated(RiskPrice(c, retries, contacts, Turned(rates, key, value)),
                      RiskPrice(c, retries, contacts, Turned(rates, key, 0.0)), RiskExposure(c, contacts, rates, key), value)
  {
    SameCharges(c, Turned(rates, key, value), Turned(rates, key, 0.0));
    if key.ChurnProb? {
      ChargesAtChurn(c, rates, value);
      ChargesAtChurn(c, rates, 0.0);
      TimesAffine(RiskyContacts(c, contacts), rates.supportTicket, value, rates.chargebackFee);
    } else {
      assert Part(0.0, value) == 0.0;
    }
  }

  lemma CustomerKnob(c: SimCase, contacts: nat, nags: nat, rates: Rates, key: B.CostKey, value: real)
    ensures Separated(CustomerPrice(c, contacts, nags, Turned(rates, key, value)),
                      CustomerPrice(c, contacts, nags, Turned(rates, key, 0.0)), CustomerExposure(c, contacts, nags, rates, key), value)
  {
    SameCharges(c, Turned(rates, key, value), Turned(rates, key, 0.0));
    if key.ChurnProb? {
      ChargesAtChurn(c, rates, value);
      ChargesAtChurn(c, rates, 0.0);
      TimesAffine(Inappropriate(c, contacts, nags), 0.0, value, rates.ltv);
    } else {
      assert Part(0.0, value) == 0.0;
    }
  }

  function CountTotal(c: SimCase, retries: nat, contacts: nat, nags: nat, rates: Rates): real
    requires nags <= contacts
  {
    AttemptPrice(retries, contacts - nags, nags, rates) + RiskPrice(c, retries, contacts, rates)
    + CustomerPrice(c, contacts, nags, rates)
  }

  lemma CountsKnob(c: SimCase, retries: nat, contacts: nat, nags: nat, rates: Rates, key: B.CostKey, value: real)
    requires nags <= contacts
    ensures Separated(CountTotal(c, retries, contacts, nags, Turned(rates, key, value)),
                      CountTotal(c, retries, contacts, nags, Turned(rates, key, 0.0)),
                      CountExposure(c, contacts, nags, rates, key), value)
  {
    var links, turned, free := contacts - nags, Turned(rates, key, value), Turned(rates, key, 0.0);
    AttemptKnob(retries, links, nags, rates, key, value);
    RiskKnob(c, retries, contacts, rates, key, value);
    CustomerKnob(c, contacts, nags, rates, key, value);
    SeparatedSums(AttemptPrice(retries, links, nags, turned), AttemptPrice(retries, links, nags, free), AttemptExposure(links, nags, key),
                  RiskPrice(c, retries, contacts, turned), RiskPrice(c, retries, contacts, free), RiskExposure(c, contacts, rates, key), value);
    SeparatedSums(AttemptPrice(retries, links, nags, turned) + RiskPrice(c, retries, contacts, turned),
                  AttemptPrice(retries, links, nags, free) + RiskPrice(c, retries, contacts, free),
                  AttemptExposure(links, nags, key) + RiskExposure(c, contacts, rates, key),
                  CustomerPrice(c, contacts, nags, turned), CustomerPrice(c, contacts, nags, free),
                  CustomerExposure(c, contacts, nags, rates, key), value);
  }

  function ExecutedTotal(c: SimCase, executed: seq<PlannedAction>, rates: Rates): real {
    NagsAreContacts(executed);
    CountTotal(c, RetriesIn(executed), ContactsIn(executed), NagsIn(executed), rates)
  }

  function ExecutedOn(i: Item, planFn: PlanFn): seq<PlannedAction> {
    Spend(SortByDay(planFn(i.c)), i.out.retries, i.out.contacts)
  }

  // The exposure that costing charges for on a batch.
  function TotalExposure(items: seq<Item>, s: Setting, key: B.CostKey): real {
    if items == [] then 0.0
    else
      var last := items[|items| - 1];
      TotalExposure(items[..|items| - 1], s, key) + Exposure(last.c, ExecutedOn(last, s.planFn), s.rates, key)
  }

  // The knobs leave the MDR alone, so an item's total moves with its charges.
  lemma ItemTotal(i: Item, s: Setting, executed: seq<PlannedAction>)
    requires executed == ExecutedOn(i, s.planFn)
    ensures TotalCost(ItemCosts(i, s))
            == ExecutedTotal(i.c, executed, s.rates) + Mdr(i.out.recoveredPaise, s.rates)
  {
  }

  lemma MdrKnob(paise: int, rates: Rates, key: B.CostKey, value: real)
    ensures Mdr(paise, Turned(rates, key, value)) == Mdr(paise, rates)
  {
    assert Turned(rates, key, value).mdrPct == rates.mdrPct;
  }

  lemma ItemKnob(i: Item, s: Setting, key: B.CostKey, value: real)
    ensures TotalCost(ItemCosts(i, With(s, key, value)))
            == TotalCost(ItemCosts(i, With(s, key, 0.0))) + Part(Exposure(i.c, ExecutedOn(i, s.planFn), s.rates, key), value)
  {
    var executed := ExecutedOn(i, s.planFn);
    ItemTotal(i, With(s, key, value), executed);
    ItemTotal(i, With(s, key, 0.0), executed);
    MdrKnob(i.out.recoveredPaise, s.rates, key, value);
    MdrKnob(i.out.recoveredPaise, s.rates, key, 0.0);
    NagsAreContacts(executed);
    CountsKnob(i.c, RetriesIn(executed), ContactsIn(executed), NagsIn(executed), s.rates, key, value);
  }

  lemma TotalOfLast(items: seq<Item>, s: Setting)
    requires items != []
    ensures TotalCost(SumCosts(items, PricingOf(s)))
            == TotalCost(SumCosts(items[..|items| - 1], PricingOf(s))) + TotalCost(ItemCosts(items[|items| - 1], s))
  {
    AddTotal(SumCosts(items[..|items| - 1], PricingOf(s)), ItemCosts(items[|items| - 1], s));
  }

  lemma ExposureOfLast(items: seq<Item>, s: Setting, key: B.CostKey)
    requires items != []
    ensures var x := items[|items| - 1];
            TotalExposure(items, s, key)
            == TotalExposure(items[..|items| - 1], s, key) + Exposure(x.c, ExecutedOn(x, s.planFn), s.rates, key)
  {
  }

  lemma {:induction false} CostsAffine(items: seq<Item>, s: Setting, key: B.CostKey, value: real)
    ensures Separated(TotalCost(SumCosts(items, PricingOf(With(s, key, value)))), TotalCost(SumCosts(items, PricingOf(With(s, key, 0.0)))),
                      TotalExposure(items, s, key), value)
  {
    if items == [] {
      assert Part(0.0, value) == 0.0;
    } else {
      var before, x := items[..|items| - 1], items[|items| - 1];
      CostsAffine(before, s, key, value);
      ItemKnob(x, s, key, value);
      TotalOfLast(items, With(s, key, value));
      TotalOfLast(items, With(s, key, 0.0));
      ExposureOfLast(items, s, key);
      SeparatedSums(TotalCost(SumCosts(before, PricingOf(With(s, key, value)))), TotalCost(SumCosts(before, PricingOf(With(s, key, 0.0)))),
                    TotalExposure(before, s, key),
                    TotalCost(ItemCosts(x, With(s, key, value))), TotalCost(ItemCosts(x, With(s, key, 0.0))),
                    Exposure(x.c, ExecutedOn(x, s.planFn), s.rates, key), value);
    }
  }

  function Net(items: seq<Item>, s: Setting): real {
    Report(items, PricingOf(s)).netInr
  }

  /** Net recovery of a batch falls with each knob by the knob's value for every unit of exposure:
      nags for the SMS price, links for the link price, what is at stake for the churn probability. */
  lemma NetAffine(items: seq<Item>, s: Setting, key: B.CostKey, value: real)
    ensures Net(items, With(s, key, value)) == Net(items, With(s, key, 0.0)) - Part(TotalExposure(items, s, key), value)
  {
    CostsAffine(items, s, key, value);
  }

  /******* Which exposure is charged *******/

  // The nags and links a batch really played, and its exposure.
  function PlayedNags(cases: seq<SimCase>, planFn: PlanFn, streams: string -> nat -> real): nat {
    if cases == [] then 0
    else
      var c := cases[|cases| - 1];
      PlayedNags(cases[..|cases| - 1], planFn, streams) + NagsPlayed(c, planFn(c), streams(c.caseKey))
  }

  function PlayedLinks(cases: seq<SimCase>, planFn: PlanFn, streams: string -> nat -> real): nat {
    if cases == [] then 0
    else
      var c := cases[|cases| - 1];
      var played := Played(c, SortByDay(planFn(c)), streams(c.caseKey));
      NagsAreContacts(played);
      PlayedLinks(cases[..|cases| - 1], planFn, streams) + (ContactsIn(played) - NagsIn(played))
  }

  function PlayedExposure(cases: seq<SimCase>, s: Setting, streams: string -> nat -> real, key: B.CostKey): real {
    if cases == [] then 0.0
    else
      var c := cases[|cases| - 1];
      PlayedExposure(cases[..|cases| - 1], s, streams, key)
      + Exposure(c, Played(c, SortByDay(s.planFn(c)), streams(c.caseKey)), s.rates, key)
  }

  function BatchItems(cases: seq<SimCase>, planFn: PlanFn, streams: string -> nat -> real): seq<Item> {
    Zip(cases, BatchResult(streams, cases, planFn))
  }

  /** What a batch is charged for is what the simulator played. */
  lemma {:induction false} ChargedExposureIsPlayed(cases: seq<SimCase>, s: Setting, streams: string -> nat -> real, key: B.CostKey)
    ensures TotalExposure(BatchItems(cases, s.planFn, streams), s, key) == PlayedExposure(cases, s, streams, key)
  {
    if cases != [] {
      var before, c := cases[..|cases| - 1], cases[|cases| - 1];
      var items := BatchItems(cases, s.planFn, streams);
      ChargedExposureIsPlayed(before, s, streams, key);
      assert items[..|items| - 1] == BatchItems(before, s.planFn, streams);
      ReconstructionIsExact(c, s.planFn(c), streams(c.caseKey));
      CountsOfMoneyActions(Played(c, SortByDay(s.planFn(c)), streams(c.caseKey)));
    }
  }

  // The net recovery of a batch played under a setting.
  function PlayedNet(cases: seq<SimCase>, s: Setting, streams: string -> nat -> real): real {
    Net(BatchItems(cases, s.planFn, streams), s)
  }

  lemma PlayedNetAffine(cases: seq<SimCase>, s: Setting, streams: string -> nat -> real, key: B.CostKey, value: real)
    ensures PlayedNet(cases, With(s, key, value), streams)
            == PlayedNet(cases, With(s, key, 0.0), streams) - Part(PlayedExposure(cases, s, streams, key), value)
  {
    NetAffine(BatchItems(cases, s.planFn, streams), s, key, value);
    ChargedExposureIsPlayed(cases, s, streams, key);
  }

  lemma {:induction false} ExposureOfPrices(cases: seq<SimCase>, s: Setting, streams: string -> nat -> real)
    ensures PlayedExposure(cases, s, streams, B.SmsDlt) == PlayedNags(cases, s.planFn, streams) as real
    ensures PlayedExposure(cases, s, streams, B.WhatsappUtility) == PlayedLinks(cases, s.planFn, streams) as real
  {
    if cases != [] {
      ExposureOfPrices(cases[..|cases| - 1], s, streams);
    }
  }

  lemma {:induction false} NoNags(acts: seq<PlannedAction>)
    requires forall p :: p in acts ==> !p.verb.GenericNag?
    ensures NagsIn(acts) == 0
  {
    if acts != [] {
      assert acts[|acts| - 1] in acts;
      NoNags(acts[..|acts| - 1]);
    }
  }

  lemma {:induction false} OursPlaysNoNags(rules: Rules, cases: seq<SimCase>, planFn: PlanFn, streams: string -> nat -> real)
    requires Loaded(rules) && forall c :: planFn(c) == OursPlan(rules, c)
    ensures PlayedNags(cases, planFn, streams) == 0
  {
    if cases != [] {
      var c := cases[|cases| - 1];
      OursPlaysNoNags(rules, cases[..|cases| - 1], planFn, streams);
      var acts := SortByDay(planFn(c));
      SortByDayIsStableSort(planFn(c));
      forall p | p in Played(c, acts, streams(c.caseKey))
        ensures !p.verb.GenericNag?
      {
        assert p in acts;
        assert p in multiset(acts);
        OursNeverNags(rules, c, p);
      }
      NoNags(Played(c, acts, streams(c.caseKey)));
    }
  }

  lemma {:induction false} ContactsAreNags(acts: seq<PlannedAction>)
    requires forall p :: p in acts ==> !p.verb.PaymentLink?
    ensures ContactsIn(acts) == NagsIn(acts)
  {
    if acts != [] {
      assert acts[|acts| - 1] in acts;
      ContactsAreNags(acts[..|acts| - 1]);
    }
  }

  lemma B2Links(c: SimCase, stream: nat -> real)
    ensures var played := Played(c, SortByDay(BaselineB2(c)), stream);
            ContactsIn(played) == NagsIn(played)
  {
    SortedStays(BaselineB2(c));
    ContactsAreNags(Played(c, BaselineB2(c), stream));
  }

  lemma {:induction false} B2PlaysNoLinks(cases: seq<SimCase>, planFn: PlanFn, streams: string -> nat -> real)
    requires forall c :: planFn(c) == BaselineB2(c)
    ensures PlayedLinks(cases, planFn, streams) == 0
  {
    if cases != [] {
      var c := cases[|cases| - 1];
      B2PlaysNoLinks(cases[..|cases| - 1], planFn, streams);
      B2Links(c, streams(c.caseKey));
    }
  }

  /******* Ours against B2 *******/

  datatype Contest = Contest(rules: Rules, ours: Setting, b2: Setting, cases: seq<SimCase>, streams: string -> nat -> real)

  // Both policies face the same cases and the same dice.
  ghost predicate IsContest(k: Contest) {
    && Loaded(k.rules)
    && (forall c :: k.ours.planFn(c) == OursPlan(k.rules, c))
    && (forall c :: k.b2.planFn(c) == BaselineB2(c))
  }

  function NetDelta(k: Contest, key: B.CostKey, value: real): real {
    PlayedNet(k.cases, With(k.ours, key, value), k.streams) - PlayedNet(k.cases, With(k.b2, key, value), k.streams)
  }

  // How much more B2 is exposed to the knob than ours.
  function Slope(k: Contest, key: B.CostKey): real {
    PlayedExposure(k.cases, k.b2, k.streams, key) - PlayedExposure(k.cases, k.ours, k.streams, key)
  }

  /** For each of the three knobs the net delta ours - B2 is affine, and its slope is the difference
      of what the two policies played: by how much more B2 is exposed to the knob. */
  lemma NetDeltaAffine(k: Contest, key: B.CostKey, value: real)
    ensures NetDelta(k, key, value) == NetDelta(k, key, 0.0) + Part(Slope(k, key), value)
  {
    DeltaFromSlope(k, key, value, PlayedExposure(k.cases, k.ours, k.streams, key), PlayedExposure(k.cases, k.b2, k.streams, key),
                   Slope(k, key));
  }

  lemma Differences(ours: real, b2: real, e: real, f: real, slope: real, value: real)
    requires slope == f - e
    ensures (ours - Part(e, value)) - (b2 - Part(f, value)) == ours - b2 + Part(slope, value)
  {
    PartSplits(f, e, value);
  }

  lemma DeltaFromSlope(k: Contest, key: B.CostKey, value: real, e: real, f: real, slope: real)
    requires e == PlayedExposure(k.cases, k.ours, k.streams, key) && f == PlayedExposure(k.cases, k.b2, k.streams, key)
    requires slope == f - e
    ensures NetDelta(k, key, value) == NetDelta(k, key, 0.0) + Part(slope, value)
  {
    var ours, b2 := PlayedNet(k.cases, With(k.ours, key, 0.0), k.streams), PlayedNet(k.cases, With(k.b2, key, 0.0), k.streams);
    PlayedNetAffine(k.cases, k.ours, k.streams, key, value);
    PlayedNetAffine(k.cases, k.b2, k.streams, key, value);
    assert NetDelta(k, key, value) == (ours - Part(e, value)) - (b2 - Part(f, value));
    Differences(ours, b2, e, f, slope, value);
  }

  /** For the two prices the slope is a count: plus the nags that B2 got to play for the SMS price,
      minus the links that ours got to play for the link price. */
  lemma SlopesOfPrices(k: Contest)
    requires IsContest(k)
    ensures Slope(k, B.SmsDlt) == PlayedNags(k.cases, k.b2.planFn, k.streams) as real
    ensures Slope(k, B.WhatsappUtility) == -(PlayedLinks(k.cases, k.ours.planFn, k.streams) as real)
  {
    ExposureOfPrices(k.cases, k.ours, k.streams);
    ExposureOfPrices(k.cases, k.b2, k.streams);
    OursPlaysNoNags(k.rules, k.cases, k.ours.planFn, k.streams);
    B2PlaysNoLinks(k.cases, k.b2.planFn, k.streams);
  }

  /** So, whatever the cases and the dice, the net delta never falls as the SMS price rises and never
      rises with the link price; for churn it moves with the sign of the slope. */
  lemma NetDeltaMoves(k: Contest, key: B.CostKey, value: real, higher: real)
    requires IsContest(k) && value <= higher
    ensures key.SmsDlt? || Slope(k, key) >= 0.0 ==> NetDelta(k, key, value) <= NetDelta(k, key, higher)
    ensures key.WhatsappUtility? || Slope(k, key) <= 0.0 ==> NetDelta(k, key, value) >= NetDelta(k, key, higher)
  {
    SlopesOfPrices(k);
    NetDeltaAffine(k, key, value);
    NetDeltaAffine(k, key, higher);
    PartMoves(Slope(k, key), value, higher);
  }

  lemma PartMoves(t: real, d: real, e: real)
    requires d <= e
    ensures t >= 0.0 ==> Part(t, d) <= Part(t, e)
    ensures t <= 0.0 ==> Part(t, d) >= Part(t, e)
  {
    if t >= 0.0 {
      PartMonotone(t, d, e);
    }
    if t <= 0.0 {
      PartMonotone(-t, d, e);
      PartSplits(0.0, t, d);
      PartSplits(0.0, t, e);
    }
  }

  lemma {:induction false} NoBreaches(items: seq<Item>, s: Setting)
    requires forall i :: i in items ==> i.out.retries <= s.rates.schemeCap
    ensures SumCosts(items, PricingOf(s)).capBreaches == 0
  {
    if items != [] {
      assert items[|items| - 1] in items;
      NoBreaches(items[..|items| - 1], s);
    }
  }

  /** Neither policy ever breaches the card scheme's retry cap, as long as that cap is at least four. */
  lemma SchemeCapNeverBreached(k: Contest)
    requires IsContest(k) && k.ours.rates.schemeCap >= 4 && k.b2.rates.schemeCap >= 4
    ensures Report(BatchItems(k.cases, k.ours.planFn, k.streams), PricingOf(k.ours)).costs.capBreaches == 0
    ensures Report(BatchItems(k.cases, k.b2.planFn, k.streams), PricingOf(k.b2)).costs.capBreaches == 0
  {
    var ours, b2 := BatchItems(k.cases, k.ours.planFn, k.streams), BatchItems(k.cases, k.b2.planFn, k.streams);
    forall i | 0 <= i < |k.cases|
      ensures ours[i].out.retries <= 4 && b2[i].out.retries <= 4
    {
      var c := k.cases[i];
      OursRetriesAtMostFour(k.rules, c, k.streams(c.caseKey));
      RetriesWithinPlan(c, BaselineB2(c), k.streams(c.caseKey));
    }
    NoBreaches(ours, k.ours);
    NoBreaches(b2, k.b2);
  }

  /******* Break-even *******/

  // The benchmark's comparison, seen as a function of one override: the net delta up to an error, such
  // as what compare_seed's rounding adds up to.
  ghost predicate Compares(compare: B.Comparison, k: Contest, key: B.CostKey, error: real) {
    forall value: real :: B.Within(error, B.DeltaAt(compare, key, value), NetDelta(k, key, value))
  }

  lemma NetDeltaOnLine(k: Contest, key: B.CostKey, value: real)
    ensures NetDelta(k, key, value) == B.Line(NetDelta(k, key, 0.0), Slope(k, key), value)
  {
    NetDeltaAffine(k, key, value);
    LineIsPart(NetDelta(k, key, 0.0), Slope(k, key), value);
  }

  lemma LineIsPart(a: real, b: real, v: real)
    ensures B.Line(a, b, v) == a + Part(b, v)
  {
  }

  lemma WithinOfLine(k: Contest, key: B.CostKey, value: real, delta: real, error: real)
    requires B.Within(error, delta, NetDelta(k, key, value))
    ensures B.Within(error, delta, B.Line(NetDelta(k, key, 0.0), Slope(k, key), value))
  {
    NetDeltaOnLine(k, key, value);
  }

  lemma ComparisonIsAffine(compare: B.Comparison, k: Contest, key: B.CostKey, error: real)
    requires Compares(compare, k, key, error)
    ensures B.Affine(compare, key, NetDelta(k, key, 0.0), Slope(k, key), error)
  {
    forall value: real
      ensures B.Within(error, B.DeltaAt(compare, key, value), B.Line(NetDelta(k, key, 0.0), Slope(k, key), value))
    {
      assert B.Within(error, B.DeltaAt(compare, key, value), NetDelta(k, key, value));
      WithinOfLine(k, key, value, B.DeltaAt(compare, key, value), error);
    }
  }

  /** The break-even search over a contest, for any of the three knobs: when it ends by running out of
      rounds, its answer is within (hi - lo) / 2^(n+1) of a value at which the exact net delta is no
      larger than the comparison's error - at which ours and B2 draw level, if it makes none. */
  lemma BreakEvenAccuracy(compare: B.Comparison, k: Contest, key: B.CostKey, error: real,
                          lo: real, hi: real, n: nat, left: real, right: real)
    returns (drawAt: real)
    requires Compares(compare, k, key, error) && B.Bracket(compare, key, lo, hi, n, left, right)
    ensures B.Abs(NetDelta(k, key, drawAt)) <= error && B.Between(lo, hi, drawAt)
    ensures B.Abs((left + right) / 2.0 - drawAt) <= B.Halved(B.Abs(hi - lo), n + 1)
  {
    ComparisonIsAffine(compare, k, key, error);
    drawAt := B.AffineAccuracy(compare, key, NetDelta(k, key, 0.0), Slope(k, key), error, lo, hi, n, left, right);
    NetDeltaOnLine(k, key, drawAt);
  }
}
