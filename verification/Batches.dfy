/**
 Batch totals and their break-down by recovery class (eval/costing.py's batch loop,
 eval/metrics.py, eval/segments.py), in exact numbers.
 */
module Batches {
  import opened Wrappers
  import opened SimTypes
  import opened Costing
  import opened Multiples

  // One case with the outcome one policy got on it.
  datatype Item = Item(c: SimCase, out: CaseOutcome)

  function Zip(cases: seq<SimCase>, outcomes: seq<CaseOutcome>): seq<Item>
    requires |cases| == |outcomes|
  {
    seq(|cases|, i requires 0 <= i < |cases| => Item(cases[i], outcomes[i]))
  }

  datatype LengthMismatch = LengthMismatch

  // The policy under evaluation: its plan, whether it carries the label "ours", and the rates.
  datatype Setting = Setting(planFn: PlanFn, ours: bool, rates: Rates)

  function CostsOf(i: Item, s: Setting): CaseCosts {
    Price(i.c, Spend(SortByDay(s.planFn(i.c)), i.out.retries, i.out.contacts), i.out, s.ours, s.rates)
  }

  /******* compute_batch_costs *******/

  datatype BatchCosts = BatchCosts(
    attempt: real, mdr: real, risk: real, customer: real,
    wasted: nat, attempts: nat, capBreaches: nat, forgone: real)

  function TotalCost(b: BatchCosts): real {
    b.attempt + b.mdr + b.risk + b.customer
  }

  function AddCosts(b: BatchCosts, d: BatchCosts): BatchCosts {
    BatchCosts(b.attempt + d.attempt, b.mdr + d.mdr, b.risk + d.risk, b.customer + d.customer,
               b.wasted + d.wasted, b.attempts + d.attempts, b.capBreaches + d.capBreaches, b.forgone + d.forgone)
  }

  const NO_COSTS := BatchCosts(0.0, 0.0, 0.0, 0.0, 0, 0, 0, 0.0)

  // What one case adds to the totals, once it is priced.
  function Billed(row: CaseCosts, out: CaseOutcome): BatchCosts {
    BatchCosts(row.attempt, row.mdr, row.risk, row.customer,
               out.wasted, out.retries + out.contacts, if row.capBreach then 1 else 0, row.forgone)
  }

  function ItemCosts(i: Item, s: Setting): BatchCosts {
    Billed(CostsOf(i, s), i.out)
  }

  // What each item adds to the totals; the laws below hold of any pricing.
  type Pricing = Item -> BatchCosts

  function PricingOf(s: Setting): Pricing {
    i => ItemCosts(i, s)
  }

  function SumCosts(items: seq<Item>, f: Pricing): BatchCosts {
    if items == [] then NO_COSTS
    else AddCosts(SumCosts(items[..|items| - 1], f), f(items[|items| - 1]))
  }

  lemma SumCostsStep(items: seq<Item>, i: nat, f: Pricing)
    requires i < |items|
    ensures SumCosts(items[..i + 1], f) == AddCosts(SumCosts(items[..i], f), f(items[i]))
  {
    assert items[..i + 1][..i] == items[..i];
  }

  // The next item's price, and what it adds to the totals so far.
  method PriceItem(items: seq<Item>, i: nat, s: Setting) returns (row: CaseCosts)
    requires i < |items|
    ensures SumCosts(items[..i + 1], PricingOf(s)) == AddCosts(SumCosts(items[..i], PricingOf(s)), Billed(row, items[i].out))
  {
    row := ComputeCaseCosts(items[i].c, items[i].out, s.planFn, s.ours, s.rates);
    SumCostsStep(items, i, PricingOf(s));
    assert row == CostsOf(items[i], s);
  }

  // The loop of compute_batch_costs over the zipped lists.
  method AddUp(items: seq<Item>, s: Setting) returns (total: BatchCosts)
    ensures total == SumCosts(items, PricingOf(s))
  {
    var attempt, mdr, risk, customer, forgone := 0.0, 0.0, 0.0, 0.0, 0.0;
    var wasted: nat, attempts: nat, capBreaches: nat := 0, 0, 0;
    for i := 0 to |items|
      invariant SumCosts(items[..i], PricingOf(s)) == BatchCosts(attempt, mdr, risk, customer, wasted, attempts, capBreaches, forgone)
    {
      var outcome := items[i].out;
      var row := PriceItem(items, i, s);
      attempt := attempt + row.attempt;
      mdr := mdr + row.mdr;
      risk := risk + row.risk;
      customer := customer + row.customer;
      wasted := wasted + outcome.wasted;
      attempts := attempts + (outcome.retries + outcome.contacts);
      if row.capBreach {
        capBreaches := capBreaches + 1;
      }
      forgone := forgone + row.forgone;
    }
    assert items[..|items|] == items;
    return BatchCosts(attempt, mdr, risk, customer, wasted, attempts, capBreaches, forgone);
  }

  /** compute_batch_costs: prices every case and adds up; refuses lists of different lengths. */
  method ComputeBatchCosts(cases: seq<SimCase>, outcomes: seq<CaseOutcome>, s: Setting)
    returns (r: Result<BatchCosts, LengthMismatch>)
    ensures r == if |cases| == |outcomes| then Ok(SumCosts(Zip(cases, outcomes), PricingOf(s))) else Err(LengthMismatch)
  {
    if |cases| != |outcomes| {
      return Err(LengthMismatch);
    }
    var total := AddUp(Zip(cases, outcomes), s);
    return Ok(total);
  }

  /******* compute_metrics *******/

  function Sum(items: seq<Item>, column: Item -> int): int {
    if items == [] then 0 else Sum(items[..|items| - 1], column) + column(items[|items| - 1])
  }

  function AmountPaise(i: Item): int { i.c.amountPaise }

  function RecoveredPaise(i: Item): int { i.out.recoveredPaise }

  function Contacts(i: Item): int { i.out.contacts }

  function Retries(i: Item): int { i.out.retries }

  function Recoveries(i: Item): int { if i.out.recovered then 1 else 0 }

  function Naturals(i: Item): int { if i.out.natural then 1 else 0 }

  function Wasted(i: Item): int { i.out.wasted }

  datatype Metrics = Metrics(
    n: int, atRiskInr: real, grossInr: real, netInr: real, contacts: int, retries: int,
    recoveries: int, naturals: int, wasted: int, costs: BatchCosts)

  // What compute_metrics reports: column sums, the batch costs, and net as gross minus total cost.
  function Report(items: seq<Item>, f: Pricing): Metrics {
    var costs, gross := SumCosts(items, f), PaiseToInr(Sum(items, RecoveredPaise));
    Metrics(|items|, PaiseToInr(Sum(items, AmountPaise)), gross, gross - TotalCost(costs),
            Sum(items, Contacts), Sum(items, Retries), Sum(items, Recoveries), Sum(items, Naturals), Sum(items, Wasted), costs)
  }

  // The columns of a report, so that a law can speak about each of them.
  datatype Column =
    | CasesCol | AtRiskCol | GrossCol | NetCol | ContactsCol | RetriesCol | RecoveriesCol | NaturalsCol | WastedCol
    | AttemptCol | MdrCol | RiskCol | CustomerCol | BreachesCol | ForgoneCol

  function Value(m: Metrics, col: Column): real {
    match col
    case CasesCol => m.n as real
    case AtRiskCol => m.atRiskInr
    case GrossCol => m.grossInr
    case NetCol => m.netInr
    case ContactsCol => m.contacts as real
    case RetriesCol => m.retries as real
    case RecoveriesCol => m.recoveries as real
    case NaturalsCol => m.naturals as real
    case WastedCol => m.wasted as real
    case AttemptCol => m.costs.attempt
    case MdrCol => m.costs.mdr
    case RiskCol => m.costs.risk
    case CustomerCol => m.costs.customer
    case BreachesCol => m.costs.capBreaches as real
    case ForgoneCol => m.costs.forgone
  }

  // One item's share of a column.
  function Share(i: Item, f: Pricing, col: Column): real {
    var costs := f(i);
    match col
    case CasesCol => 1.0
    case AtRiskCol => PaiseToInr(i.c.amountPaise)
    case GrossCol => PaiseToInr(i.out.recoveredPaise)
    case NetCol => PaiseToInr(i.out.recoveredPaise) - TotalCost(costs)
    case ContactsCol => i.out.contacts as real
    case RetriesCol => i.out.retries as real
    case RecoveriesCol => if i.out.recovered then 1.0 else 0.0
    case NaturalsCol => if i.out.natural then 1.0 else 0.0
    case WastedCol => i.out.wasted as real
    case AttemptCol => costs.attempt
    case MdrCol => costs.mdr
    case RiskCol => costs.risk
    case CustomerCol => costs.customer
    case BreachesCol => costs.capBreaches as real
    case ForgoneCol => costs.forgone
  }

  function SumShares(items: seq<Item>, f: Pricing, col: Column): real {
    if items == [] then 0.0 else SumShares(items[..|items| - 1], f, col) + Share(items[|items| - 1], f, col)
  }

  lemma PaiseAdd(a: int, b: int)
    ensures PaiseToInr(a + b) == PaiseToInr(a) + PaiseToInr(b)
    ensures PaiseToInr(0) == 0.0
  {
  }

  lemma AddTotal(b: BatchCosts, d: BatchCosts)
    ensures TotalCost(AddCosts(b, d)) == TotalCost(b) + TotalCost(d)
  {
  }

  predicate IsCostColumn(col: Column) {
    col.AttemptCol? || col.MdrCol? || col.RiskCol? || col.CustomerCol? || col.BreachesCol? || col.ForgoneCol?
  }

  // What the last item adds to a column: of costs, of counts and amounts, and to the net.
  lemma CostColumnGrows(items: seq<Item>, f: Pricing, col: Column)
    requires items != [] && IsCostColumn(col)
    ensures Value(Report(items, f), col)
            == Value(Report(items[..|items| - 1], f), col) + Share(items[|items| - 1], f, col)
  {
  }

  lemma CountColumnGrows(items: seq<Item>, f: Pricing, col: Column)
    requires items != [] && !IsCostColumn(col) && !col.NetCol?
    ensures Value(Report(items, f), col)
            == Value(Report(items[..|items| - 1], f), col) + Share(items[|items| - 1], f, col)
  {
    var before, x := items[..|items| - 1], items[|items| - 1];
    PaiseAdd(Sum(before, AmountPaise), x.c.amountPaise);
    PaiseAdd(Sum(before, RecoveredPaise), x.out.recoveredPaise);
  }

  lemma NetColumnGrows(items: seq<Item>, f: Pricing)
    requires items != []
    ensures Value(Report(items, f), NetCol)
            == Value(Report(items[..|items| - 1], f), NetCol) + Share(items[|items| - 1], f, NetCol)
  {
    var before, x := items[..|items| - 1], items[|items| - 1];
    PaiseAdd(Sum(before, RecoveredPaise), x.out.recoveredPaise);
    AddTotal(SumCosts(before, f), f(x));
  }

  /** Column by column, the report is the sum of the items' shares. */
  lemma {:induction false} ReportSumsShares(items: seq<Item>, f: Pricing, col: Column)
    ensures Value(Report(items, f), col) == SumShares(items, f, col)
  {
    if items == [] {
      PaiseAdd(0, 0);
    } else {
      ReportSumsShares(items[..|items| - 1], f, col);
      if IsCostColumn(col) {
        CostColumnGrows(items, f, col);
      } else if col.NetCol? {
        NetColumnGrows(items, f);
      } else {
        CountColumnGrows(items, f, col);
      }
    }
  }

  /******* What the totals mean *******/

  // The share of a rate in some paise, in rupees.
  function ShareOfPaise(paise: int, pct: real): real {
    Part(paise as real / 100.0, pct)
  }

  lemma SharesAdd(a: int, b: int, pct: real)
    ensures ShareOfPaise(a + b, pct) == ShareOfPaise(a, pct) + ShareOfPaise(b, pct)
    ensures ShareOfPaise(0, pct) == 0.0
  {
    assert (a + b) as real / 100.0 == a as real / 100.0 + b as real / 100.0;
    PartSplits(a as real / 100.0, b as real / 100.0, pct);
  }

  lemma MdrShare(i: Item, s: Setting)
    ensures ItemCosts(i, s).mdr == ShareOfPaise(i.out.recoveredPaise, s.rates.mdrPct)
  {
  }

  lemma MdrOneMore(items: seq<Item>, s: Setting)
    requires items != []
    ensures SumCosts(items, PricingOf(s)).mdr
            == SumCosts(items[..|items| - 1], PricingOf(s)).mdr + ShareOfPaise(items[|items| - 1].out.recoveredPaise, s.rates.mdrPct)
  {
    MdrShare(items[|items| - 1], s);
  }

  lemma {:induction false} MdrOfPaise(items: seq<Item>, s: Setting)
    ensures SumCosts(items, PricingOf(s)).mdr == ShareOfPaise(Sum(items, RecoveredPaise), s.rates.mdrPct)
  {
    if items == [] {
      SharesAdd(0, 0, s.rates.mdrPct);
    } else {
      MdrOfPaise(items[..|items| - 1], s);
      MdrOneMore(items, s);
      SharesAdd(Sum(items[..|items| - 1], RecoveredPaise), items[|items| - 1].out.recoveredPaise, s.rates.mdrPct);
    }
  }

  predicate AtRate(charge: real, base: real, rate: real) {
    charge == base * rate
  }

  lemma RupeesByTheHundred(paise: int, inr: real, pct: real, charge: real)
    requires inr == PaiseToInr(paise) && charge == ShareOfPaise(paise, pct)
    ensures 100.0 * inr == paise as real && AtRate(charge, inr, pct)
  {
  }

  lemma HundredPaise(paise: int)
    ensures 100.0 * PaiseToInr(paise) == paise as real
  {
  }

  /** Rupees are paise by the hundred, and the MDR column is the MDR rate on the gross column. */
  lemma MdrIsOnGross(items: seq<Item>, s: Setting)
    ensures 100.0 * Report(items, PricingOf(s)).grossInr == Sum(items, RecoveredPaise) as real
    ensures 100.0 * Report(items, PricingOf(s)).atRiskInr == Sum(items, AmountPaise) as real
    ensures AtRate(Report(items, PricingOf(s)).costs.mdr, Report(items, PricingOf(s)).grossInr, s.rates.mdrPct)
  {
    MdrOfPaise(items, s);
    HundredPaise(Sum(items, AmountPaise));
    RupeesByTheHundred(Sum(items, RecoveredPaise), Report(items, PricingOf(s)).grossInr, s.rates.mdrPct,
                       Report(items, PricingOf(s)).costs.mdr);
  }

  // The items with more retries than the scheme's cap.
  function Breaches(items: seq<Item>, cap: int): nat {
    if items == [] then 0
    else Breaches(items[..|items| - 1], cap) + if items[|items| - 1].out.retries > cap then 1 else 0
  }

  lemma OneMoreTotal(items: seq<Item>, s: Setting)
    requires items != []
    ensures var x, all, before := items[|items| - 1], SumCosts(items, PricingOf(s)), SumCosts(items[..|items| - 1], PricingOf(s));
            && all.attempts == before.attempts + x.out.retries + x.out.contacts
            && all.wasted == before.wasted + x.out.wasted
            && all.capBreaches == before.capBreaches + if x.out.retries > s.rates.schemeCap then 1 else 0
  {
  }

  lemma {:induction false} CountsOfCosts(items: seq<Item>, s: Setting)
    ensures var costs := SumCosts(items, PricingOf(s));
            && costs.attempts == Sum(items, Retries) + Sum(items, Contacts) && costs.wasted == Sum(items, Wasted)
            && costs.capBreaches == Breaches(items, s.rates.schemeCap)
  {
    if items != [] {
      CountsOfCosts(items[..|items| - 1], s);
      OneMoreTotal(items, s);
    }
  }

  /** The batch's attempts are its retries and contacts, the waste that costing adds up is the report's,
      and the breaches are the cases with more retries than the scheme's cap. */
  lemma TotalsAgree(items: seq<Item>, s: Setting)
    ensures var m := Report(items, PricingOf(s));
            && m.costs.attempts == m.retries + m.contacts && m.costs.wasted == m.wasted
            && m.costs.capBreaches == Breaches(items, s.rates.schemeCap)
  {
    CountsOfCosts(items, s);
  }

  /******* compute_policy_segments *******/

  function ClassOrder(): seq<RecoveryClass> {
    [RetryFixable, CustomerAction, Ambiguous, Prohibited]
  }

  function ClassOf(i: Item): RecoveryClass {
    RecoveryClassFor(i.c.reason)
  }

  // The sub-batch of one class, in batch order.
  function OfClass(items: seq<Item>, rc: RecoveryClass): seq<Item> {
    if items == [] then []
    else OfClass(items[..|items| - 1], rc) + if ClassOf(items[|items| - 1]) == rc then [items[|items| - 1]] else []
  }

  datatype SegmentRow = SegmentRow(recoveryClass: RecoveryClass, metrics: Metrics)

  // The rows of the first k classes, empty classes skipped.
  function SegmentRows(items: seq<Item>, f: Pricing, k: nat): seq<SegmentRow>
    requires k <= 4
  {
    if k == 0 then []
    else
      var rc := ClassOrder()[k - 1];
      SegmentRows(items, f, k - 1)
      + if OfClass(items, rc) == [] then [] else [SegmentRow(rc, Report(OfClass(items, rc), f))]
  }

  function Bucket(buckets: map<RecoveryClass, seq<Item>>, rc: RecoveryClass): seq<Item> {
    if rc in buckets then buckets[rc] else []
  }

  method BucketByClass(items: seq<Item>) returns (buckets: map<RecoveryClass, seq<Item>>)
    ensures forall rc :: Bucket(buckets, rc) == OfClass(items, rc)
  {
    buckets := map[];
    for i := 0 to |items|
      invariant forall rc :: Bucket(buckets, rc) == OfClass(items[..i], rc)
    {
      assert items[..i + 1][..i] == items[..i];
      var rc := ClassOf(items[i]);
      buckets := buckets[rc := Bucket(buckets, rc) + [items[i]]];
    }
    assert items[..|items|] == items;
  }

  // The row of the next class, if the class occurs.
  method AddSegment(items: seq<Item>, f: Pricing, k: nat, group: seq<Item>, rows: seq<SegmentRow>) returns (more: seq<SegmentRow>)
    requires k < 4 && group == OfClass(items, ClassOrder()[k]) && rows == SegmentRows(items, f, k)
    ensures more == SegmentRows(items, f, k + 1)
  {
    more := rows;
    if group != [] {
      more := more + [SegmentRow(ClassOrder()[k], Report(group, f))];
    }
  }

  // The rows of all classes, in class order.
  method AddSegments(items: seq<Item>, f: Pricing, buckets: map<RecoveryClass, seq<Item>>) returns (rows: seq<SegmentRow>)
    requires forall rc :: Bucket(buckets, rc) == OfClass(items, rc)
    ensures rows == SegmentRows(items, f, 4)
  {
    rows := [];
    for k := 0 to 4
      invariant rows == SegmentRows(items, f, k)
    {
      rows := AddSegment(items, f, k, Bucket(buckets, ClassOrder()[k]), rows);
    }
  }

  /** compute_policy_segments: bucket the batch by recovery class, then measure every bucket. */
  method ComputePolicySegments(cases: seq<SimCase>, outcomes: seq<CaseOutcome>, s: Setting)
    returns (r: Result<seq<SegmentRow>, LengthMismatch>)
    ensures r == if |cases| == |outcomes| then Ok(SegmentRows(Zip(cases, outcomes), PricingOf(s), 4)) else Err(LengthMismatch)
  {
    if |cases| != |outcomes| {
      return Err(LengthMismatch);
    }
    var items := Zip(cases, outcomes);
    var buckets := BucketByClass(items);
    var rows := AddSegments(items, PricingOf(s), buckets);
    return Ok(rows);
  }

  /******* Conservation *******/

  function SumRows(rows: seq<SegmentRow>, col: Column): real {
    if rows == [] then 0.0
    else SumRows(rows[..|rows| - 1], col) + Value(rows[|rows| - 1].metrics, col)
  }

  lemma {:induction false} ClassesConserve(items: seq<Item>, f: Pricing, col: Column)
    ensures SumShares(items, f, col)
            == SumShares(OfClass(items, RetryFixable), f, col) + SumShares(OfClass(items, CustomerAction), f, col)
               + SumShares(OfClass(items, Ambiguous), f, col) + SumShares(OfClass(items, Prohibited), f, col)
  {
    if items != [] {
      var before, x := items[..|items| - 1], items[|items| - 1];
      ClassesConserve(before, f, col);
      ClassGains(items, RetryFixable, f, col);
      ClassGains(items, CustomerAction, f, col);
      ClassGains(items, Ambiguous, f, col);
      ClassGains(items, Prohibited, f, col);
    }
  }

  // The last item adds its share to its own class and leaves the other classes alone.
  lemma ClassGains(items: seq<Item>, rc: RecoveryClass, f: Pricing, col: Column)
    requires items != []
    ensures var before, x := items[..|items| - 1], items[|items| - 1];
            SumShares(OfClass(items, rc), f, col)
            == SumShares(OfClass(before, rc), f, col) + if ClassOf(x) == rc then Share(x, f, col) else 0.0
  {
    var own, x := OfClass(items[..|items| - 1], rc), items[|items| - 1];
    assert (own + [x])[..|own|] == own;
    assert own + [] == own;
  }

  lemma RowsUpTo(items: seq<Item>, f: Pricing, k: nat, col: Column)
    requires k < 4
    ensures SumRows(SegmentRows(items, f, k + 1), col)
            == SumRows(SegmentRows(items, f, k), col) + SumShares(OfClass(items, ClassOrder()[k]), f, col)
  {
    var rows, group := SegmentRows(items, f, k), OfClass(items, ClassOrder()[k]);
    if group == [] {
      assert rows + [] == rows;
    } else {
      ReportSumsShares(group, f, col);
      var row := SegmentRow(ClassOrder()[k], Report(group, f));
      assert (rows + [row])[..|rows|] == rows;
    }
  }

  /** Segments conserve the batch: in every column - cases, retries, contacts, recoveries, waste,
      gross, each cost and net - the rows add up to exactly the whole-batch report. */
  lemma SegmentsConserveBatch(items: seq<Item>, f: Pricing, col: Column)
    ensures SumRows(SegmentRows(items, f, 4), col) == Value(Report(items, f), col)
  {
    RowsUpTo(items, f, 0, col);
    RowsUpTo(items, f, 1, col);
    RowsUpTo(items, f, 2, col);
    RowsUpTo(items, f, 3, col);
    ClassesConserve(items, f, col);
    ReportSumsShares(items, f, col);
  }

  lemma {:induction false} RowsInOrder(items: seq<Item>, f: Pricing, k: nat)
    requires k <= 4
    ensures forall r :: r in SegmentRows(items, f, k) ==> r.metrics.n > 0 && r.recoveryClass in ClassOrder()[..k]
    ensures forall i, j :: 0 <= i < j < |SegmentRows(items, f, k)| ==>
              SegmentRows(items, f, k)[i].recoveryClass != SegmentRows(items, f, k)[j].recoveryClass
  {
    if k > 0 {
      RowsInOrder(items, f, k - 1);
      assert ClassOrder()[..k] == ClassOrder()[..k - 1] + [ClassOrder()[k - 1]];
      assert ClassOrder()[k - 1] !in ClassOrder()[..k - 1];
    }
  }

  lemma {:induction false} RowForMember(items: seq<Item>, f: Pricing, k: nat, x: Item)
    requires k <= 4 && x in items && ClassOf(x) in ClassOrder()[..k]
    ensures SegmentRow(ClassOf(x), Report(OfClass(items, ClassOf(x)), f)) in SegmentRows(items, f, k)
  {
    if ClassOf(x) == ClassOrder()[k - 1] {
      MembersOfClass(items, x);
    } else {
      assert ClassOrder()[..k] == ClassOrder()[..k - 1] + [ClassOrder()[k - 1]];
      RowForMember(items, f, k - 1, x);
    }
  }

  /** The rows are the classes that occur: none is empty, no class appears twice, and every item's
      class has its row, holding the report of exactly the items of that class. */
  lemma RowsAreClasses(items: seq<Item>, f: Pricing)
    ensures var rows := SegmentRows(items, f, 4);
            && (forall r :: r in rows ==> r.metrics.n > 0)
            && (forall i, j :: 0 <= i < j < |rows| ==> rows[i].recoveryClass != rows[j].recoveryClass)
            && (forall x :: x in items ==> SegmentRow(ClassOf(x), Report(OfClass(items, ClassOf(x)), f)) in rows)
  {
    RowsInOrder(items, f, 4);
    forall x | x in items
      ensures SegmentRow(ClassOf(x), Report(OfClass(items, ClassOf(x)), f)) in SegmentRows(items, f, 4)
    {
      assert ClassOrder()[..4] == ClassOrder() && ClassOf(x) in ClassOrder();
      RowForMember(items, f, 4, x);
    }
  }

  lemma {:induction false} MembersOfClass(items: seq<Item>, x: Item)
    requires x in items
    ensures x in OfClass(items, ClassOf(x))
  {
    var n := |items| - 1;
    if x in items[..n] {
      MembersOfClass(items[..n], x);
    }
  }
}
