/** When to act, on a 28-day circle (policy/timing.py), and how that meets the payer's funded days. */
module Timing {
  import opened Wrappers
  import opened SimTypes
  import opened Simulator

  datatype TimingMode = SalaryWindow | ShortBackoff | ImmediateContact | SpacedThenLink | NoTiming | OtherTiming

  /******* salary_window_offsets *******/

  // Days from the failure to the next credit day; a failure on the credit day waits one day.
  function Delta(failureDom: int, creditDay: int): nat {
    var delta := (creditDay - failureDom) % 28;
    if delta == 0 then 1 else delta
  }

  function InsertDay(d: nat, s: seq<nat>): seq<nat> {
    if s == [] || d <= s[0] then [d] + s else [s[0]] + InsertDay(d, s[1..])
  }

  function SortDays(s: seq<nat>): seq<nat> {
    if s == [] then [] else InsertDay(s[0], SortDays(s[1..]))
  }

  function Take(s: seq<nat>, n: int): seq<nat> {
    if n <= 0 then [] else if n >= |s| then s else s[..n]
  }

  function AddNew(s: seq<nat>, d: nat): seq<nat> {
    if d in s then s else s + [d]
  }

  // The distinct waits to the usual paydays 1, 2, 3, 5 and 7.
  function PaydayWaits(failureDom: int): seq<nat> {
    AddNew(AddNew(AddNew(AddNew([Delta(failureDom, 1)], Delta(failureDom, 2)), Delta(failureDom, 3)),
                  Delta(failureDom, 5)), Delta(failureDom, 7))
  }

  // The hinted waits: the credit day and the two days after it, and an early probe before a long wait.
  function HintedWaits(delta: nat): seq<nat> {
    (if delta >= 4 then [delta / 2] else []) + [delta, delta + 1, delta + 2]
  }

  function SalaryOffsets(failureDom: int, observedCreditDay: Option<int>): seq<nat> {
    match observedCreditDay
    case None => Take(SortDays(PaydayWaits(failureDom)), 4)
    case Some(creditDay) => HintedWaits(Delta(failureDom, creditDay))
  }

  // The waits collected after the first i targets.
  function WaitsTo(failureDom: int, targets: seq<int>, i: nat): seq<nat>
    requires i <= |targets|
  {
    if i == 0 then [] else AddNew(WaitsTo(failureDom, targets, i - 1), Delta(failureDom, targets[i - 1]))
  }

  lemma AllTargets(failureDom: int, targets: seq<int>)
    requires targets == [1, 2, 3, 5, 7]
    ensures WaitsTo(failureDom, targets, 5) == PaydayWaits(failureDom)
  {
    assert WaitsTo(failureDom, targets, 1) == [Delta(failureDom, 1)];
    assert WaitsTo(failureDom, targets, 2) == AddNew([Delta(failureDom, 1)], Delta(failureDom, 2));
    assert WaitsTo(failureDom, targets, 3) == AddNew(WaitsTo(failureDom, targets, 2), Delta(failureDom, 3));
    assert WaitsTo(failureDom, targets, 4) == AddNew(WaitsTo(failureDom, targets, 3), Delta(failureDom, 5));
  }

  // The branch without a hint.
  method FanOut(failureDom: int) returns (out: seq<nat>)
    ensures out == SalaryOffsets(failureDom, None)
  {
    var targets := [1, 2, 3, 5, 7];
    var candidates: seq<nat> := [];
    for i := 0 to |targets|
      invariant candidates == WaitsTo(failureDom, targets, i)
    {
      var delta := (targets[i] - failureDom) % 28;
      if delta == 0 {
        delta := 1;
      }
      if delta !in candidates {
        candidates := candidates + [delta];
      }
    }
    AllTargets(failureDom, targets);
    return Take(SortDays(candidates), 4);
  }

  /** salary_window_offsets: candidates appended one by one; an early probe put in front of a long
      wait; duplicates dropped in order.  With a hint no duplicate ever arises. */
  method SalaryWindowOffsets(failureDom: int, observedCreditDay: Option<int>) returns (out: seq<nat>)
    ensures out == SalaryOffsets(failureDom, observedCreditDay)
  {
    if observedCreditDay.None? {
      out := FanOut(failureDom);
      return;
    }

    var delta: nat := (observedCreditDay.value - failureDom) % 28;
    if delta == 0 {
      delta := 1;
    }
    var offs := [delta, delta + 1, delta + 2];
    if delta >= 4 {
      var probe := delta / 2;
      offs := [if probe > 1 then probe else 1] + offs;
    }
    assert offs == HintedWaits(Delta(failureDom, observedCreditDay.value));
    NothingRepeats(offs);
    out := DropRepeats(offs);
  }

  // The list without its repetitions, in order of first occurrence.
  function FirstSeen(s: seq<nat>): seq<nat> {
    if s == [] then [] else AddNew(FirstSeen(s[..|s| - 1]), s[|s| - 1])
  }

  lemma {:induction false} NothingRepeats(s: seq<nat>)
    requires forall i, j :: 0 <= i < j < |s| ==> s[i] < s[j]
    ensures FirstSeen(s) == s
  {
    if s != [] {
      NothingRepeats(s[..|s| - 1]);
      assert s == s[..|s| - 1] + [s[|s| - 1]];
    }
  }

  method DropRepeats(offs: seq<nat>) returns (out: seq<nat>)
    ensures out == FirstSeen(offs)
  {
    var seen: set<nat> := {};
    out := [];
    for i := 0 to |offs|
      invariant out == FirstSeen(offs[..i])
      invariant forall o :: o in seen <==> o in out
    {
      assert offs[..i + 1][..i] == offs[..i];
      var o := offs[i];
      if o !in seen && o >= 0 {
        seen := seen + {o};
        out := out + [o];
      }
    }
    assert offs[..|offs|] == offs;
  }

  /******* offsets_for_timing *******/

  function OffsetsForTiming(timing: TimingMode, failureDom: int, observedCreditDay: Option<int>, maxRetries: int): seq<nat> {
    match timing
    case SalaryWindow => Take(SalaryOffsets(failureDom, observedCreditDay), maxRetries)
    case ShortBackoff => Take([0, 1], maxRetries)
    case ImmediateContact => [0]
    case SpacedThenLink => [2, 4]
    case NoTiming => []
    case OtherTiming => Take([1], maxRetries)
  }

  /******* The funded window *******/

  lemma CircleShift(dom: int, shift: int)
    ensures OnCircle(OnCircle(dom) + shift) == OnCircle(dom + shift)
    ensures 1 <= OnCircle(dom) <= 28
  {
  }

  lemma WaitReaches(from: int, to: int)
    ensures (from + (to - from) % 28) % 28 == to % 28
  {
    var q := (to - from) / 28;
    assert to - from == 28 * q + (to - from) % 28;
    assert from + (to - from) % 28 == to - 28 * q;
    WholeCircles(to, q);
  }

  lemma WholeCircles(x: int, q: int)
    ensures (x - 28 * q) % 28 == x % 28
  {
  }

  lemma DeltaOnCircle(dom: int, creditDay: int)
    requires 1 <= creditDay <= 28
    ensures 1 <= Delta(dom, creditDay) <= 27
    ensures OnCircle(dom) == creditDay ==> Delta(dom, creditDay) == 1
    ensures OnCircle(dom) != creditDay ==> OnCircle(dom + Delta(dom, creditDay)) == creditDay
  {
    var m := (creditDay - dom) % 28;
    assert (creditDay - 1) - (dom - 1) == creditDay - dom;
    WaitReaches(dom - 1, creditDay - 1);
    assert OnCircle(dom + m) == creditDay;
    if m == 0 {
      assert OnCircle(dom) == creditDay;
    } else if OnCircle(dom) == creditDay {
      SameDayNoWait(dom, creditDay);
    }
  }

  lemma SameDayNoWait(dom: int, creditDay: int)
    requires OnCircle(dom) == creditDay
    ensures (creditDay - dom) % 28 == 0
  {
    var q := (dom - 1) / 28;
    assert dom - 1 == 28 * q + (dom - 1) % 28;
    assert creditDay - dom == 0 - 28 * q;
    WholeCircles(0, q);
  }

  lemma OnceAround(x: int)
    requires 1 <= x <= 56
    ensures OnCircle(x) == if x <= 28 then x else x - 28
  {
  }

  // A day that lies k days after the credit day (0 <= k < 28) is funded exactly for k < 3.
  lemma WindowIsThreeDays(creditDay: int, dom: int, k: int)
    requires 1 <= creditDay <= 28 && 0 <= k < 28
    requires OnCircle(dom - k) == creditDay
    ensures OnCircle(dom) in CreditWindow(creditDay) <==> k < 3
  {
    CircleShift(dom - k, k);
    assert CreditWindow(creditDay) == {creditDay, OnCircle(creditDay + 1), OnCircle(creditDay + 2)};
    InWindowExactly(creditDay, k);
  }

  lemma InWindowExactly(creditDay: int, k: int)
    requires 1 <= creditDay <= 28 && 0 <= k < 28
    ensures OnCircle(creditDay + k) in {creditDay, OnCircle(creditDay + 1), OnCircle(creditDay + 2)} <==> k < 3
  {
    OnceAround(creditDay + k);
    OnceAround(creditDay + 1);
    OnceAround(creditDay + 2);
  }

  // The retries of an insufficient-funds plan with these waits.
  predicate FundedWait(creditDay: int, failureDom: int, wait: nat) {
    OnCircle(failureDom + wait) in CreditWindow(creditDay)
  }

  lemma FundedAfterCreditDay(failureDom: int, creditDay: int)
    requires 1 <= creditDay <= 28 && OnCircle(failureDom) == creditDay
    ensures FundedWait(creditDay, failureDom, 1) && FundedWait(creditDay, failureDom, 2) && !FundedWait(creditDay, failureDom, 3)
  {
    assert OnCircle(failureDom + 1 - 1) == OnCircle(failureDom + 2 - 2) == OnCircle(failureDom + 3 - 3) == creditDay;
    WindowIsThreeDays(creditDay, failureDom + 1, 1);
    WindowIsThreeDays(creditDay, failureDom + 2, 2);
    WindowIsThreeDays(creditDay, failureDom + 3, 3);
  }

  lemma FundedFromCreditDay(failureDom: int, creditDay: int)
    requires 1 <= creditDay <= 28 && OnCircle(failureDom) != creditDay
    ensures var delta := Delta(failureDom, creditDay);
            FundedWait(creditDay, failureDom, delta) && FundedWait(creditDay, failureDom, delta + 1) && FundedWait(creditDay, failureDom, delta + 2)
  {
    var delta := Delta(failureDom, creditDay);
    DeltaOnCircle(failureDom, creditDay);
    WindowIsThreeDays(creditDay, failureDom + delta, 0);
    WindowIsThreeDays(creditDay, failureDom + (delta + 1), 1);
    WindowIsThreeDays(creditDay, failureDom + (delta + 2), 2);
  }

  lemma ProbeIsEarly(failureDom: int, creditDay: int)
    requires 1 <= creditDay <= 28 && OnCircle(failureDom) != creditDay && Delta(failureDom, creditDay) >= 4
    ensures !FundedWait(creditDay, failureDom, Delta(failureDom, creditDay) / 2)
  {
    var delta := Delta(failureDom, creditDay);
    DeltaOnCircle(failureDom, creditDay);
    var probe := failureDom + delta / 2;
    var k := 28 - (delta - delta / 2);
    assert 3 <= k < 28;
    assert OnCircle(probe - k) == OnCircle(failureDom + delta - 28) == OnCircle(failureDom + delta);
    WindowIsThreeDays(creditDay, probe, k);
  }

  // Which of the hinted waits are funded, given which days are.
  lemma FundedPattern(delta: nat, sameDay: bool, funded: nat -> bool)
    requires funded(delta) && funded(delta + 1) && (funded(delta + 2) <==> !sameDay)
    requires delta >= 4 ==> !funded(delta / 2)
    ensures var offs := HintedWaits(delta);
            forall i :: 0 <= i < |offs| ==> (funded(offs[i]) <==> |offs| - 3 <= i && !(sameDay && i == |offs| - 1))
  {
  }

  lemma HintedWaitsAscend(delta: nat)
    requires 1 <= delta <= 27
    ensures var offs := HintedWaits(delta);
            && 3 <= |offs| <= 4
            && (forall i, j :: 0 <= i < j < |offs| ==> offs[i] < offs[j])
            && (forall i :: 0 <= i < |offs| ==> 0 < offs[i] <= 60)
  {
  }

  lemma FundedHintedWaits(failureDom: int, creditDay: int)
    requires 1 <= creditDay <= 28
    ensures var offs := SalaryOffsets(failureDom, Some(creditDay));
            forall i :: 0 <= i < |offs| ==>
              (FundedWait(creditDay, failureDom, offs[i])
               <==> |offs| - 3 <= i && !(OnCircle(failureDom) == creditDay && i == |offs| - 1))
  {
    var delta := Delta(failureDom, creditDay);
    DeltaOnCircle(failureDom, creditDay);
    if OnCircle(failureDom) == creditDay {
      FundedAfterCreditDay(failureDom, creditDay);
    } else {
      FundedFromCreditDay(failureDom, creditDay);
      if delta >= 4 {
        ProbeIsEarly(failureDom, creditDay);
      }
    }
    FundedPattern(delta, OnCircle(failureDom) == creditDay, (wait: nat) => FundedWait(creditDay, failureDom, wait));
  }

  /** With a correct hint the waits are strictly increasing, never day 0 and within the 60-day
      limit; the early probe is unfunded, the other three are funded - except that after a
      failure on the credit day itself only the first two are. */
  lemma SalaryTimingMeetsWindow(failureDom: int, creditDay: int)
    requires 1 <= creditDay <= 28
    ensures var offs := SalaryOffsets(failureDom, Some(creditDay));
            var sameDay := OnCircle(failureDom) == creditDay;
            && 3 <= |offs| <= 4
            && (forall i, j :: 0 <= i < j < |offs| ==> offs[i] < offs[j])
            && (forall i :: 0 <= i < |offs| ==> 0 < offs[i] <= 60)
            && (forall i :: 0 <= i < |offs| ==>
                  (FundedWait(creditDay, failureDom, offs[i]) <==> |offs| - 3 <= i && !(sameDay && i == |offs| - 1)))
  {
    DeltaOnCircle(failureDom, creditDay);
    HintedWaitsAscend(Delta(failureDom, creditDay));
    FundedHintedWaits(failureDom, creditDay);
  }

  // The salary came in on this day or on one of the two days before.
  predicate SalaryJustIn(creditDay: int, dom: int) {
    OnCircle(dom) == creditDay || OnCircle(dom - 1) == creditDay || OnCircle(dom - 2) == creditDay
  }

  lemma OnceIn28(creditDay: int, dom: int, k: int)
    requires 1 <= creditDay <= 28 && 0 <= k < 28 && OnCircle(dom - k) == creditDay
    ensures SalaryJustIn(creditDay, dom) <==> k < 3
  {
    CircleShift(dom - k, k);
    CircleShift(dom - k, k - 1);
    CircleShift(dom - k, k - 2);
    BackFrom(creditDay, k);
  }

  lemma BackFrom(creditDay: int, k: int)
    requires 1 <= creditDay <= 28 && 0 <= k < 28
    ensures (OnCircle(creditDay + k) == creditDay <==> k == 0)
    ensures (OnCircle(creditDay + (k - 1)) == creditDay <==> k == 1)
    ensures (OnCircle(creditDay + (k - 2)) == creditDay <==> k == 2)
  {
  }

  lemma FundedAfterSalary(creditDay: int, dom: int)
    requires 1 <= creditDay <= 28
    ensures OnCircle(dom) in CreditWindow(creditDay) <==> SalaryJustIn(creditDay, dom)
  {
    var k := (dom - creditDay) % 28;
    BackOnCircle(dom, creditDay);
    WindowIsThreeDays(creditDay, dom, k);
    OnceIn28(creditDay, dom, k);
  }

  /** When a retry gets as far as the dice: the instrument works, retrying can help, and either the failure
      is one that needs no funds or the salary came in on that day or one of the two days before. */
  lemma RetryRollsExactly(c: SimCase, wait: nat)
    requires 1 <= c.trueCreditDay <= 28
    ensures RetryRolls(c, wait)
            <==> && c.instrumentValid && c.reason !in {CardExpired, TokenInvalid, MandateRevoked}
                 && (c.reason in {IssuerTransient, GatewayTimeout, RiskFraud} || SalaryJustIn(c.trueCreditDay, c.failureDom + wait))
  {
    FundedAfterSalary(c.trueCreditDay, c.failureDom + wait);
  }

  lemma BackOnCircle(dom: int, creditDay: int)
    requires 1 <= creditDay <= 28
    ensures OnCircle(dom - (dom - creditDay) % 28) == creditDay
  {
    var q := (dom - creditDay) / 28;
    assert dom - creditDay == 28 * q + (dom - creditDay) % 28;
    assert dom - (dom - creditDay) % 28 - 1 == (creditDay - 1) - 28 * -q;
    WholeCircles(creditDay - 1, -q);
  }

  /** The waits of the modes that do not look at the salary: as many as max_retries allows, where it counts. */
  lemma FixedWaits(failureDom: int, observedCreditDay: Option<int>, maxRetries: int)
    ensures var of := (mode: TimingMode) => OffsetsForTiming(mode, failureDom, observedCreditDay, maxRetries);
            && of(ShortBackoff) == (if maxRetries <= 0 then [] else if maxRetries == 1 then [0] else [0, 1])
            && of(OtherTiming) == (if maxRetries <= 0 then [] else [1])
            && of(ImmediateContact) == [0] && of(SpacedThenLink) == [2, 4] && of(NoTiming) == []
  {
  }

  /******* No hint *******/

  predicate AscendingDays(s: seq<nat>) {
    forall i, j :: 0 <= i < j < |s| ==> s[i] < s[j]
  }

  lemma {:induction false} InsertAfter(d: nat, early: seq<nat>, late: seq<nat>)
    requires forall i :: 0 <= i < |early| ==> early[i] < d
    requires late != [] ==> d <= late[0]
    ensures InsertDay(d, early + late) == early + [d] + late
  {
    if early == [] {
      assert early + late == late;
    } else {
      assert (early + late)[1..] == early[1..] + late;
      InsertAfter(d, early[1..], late);
      assert [early[0]] + (early[1..] + [d] + late) == early + [d] + late;
    }
  }

  predicate Precedes(early: seq<nat>, late: seq<nat>) {
    forall i, j :: 0 <= i < |early| && 0 <= j < |late| ==> early[i] < late[j]
  }

  lemma {:induction false} AscendingDaysStay(s: seq<nat>)
    requires AscendingDays(s)
    ensures SortDays(s) == s
  {
    if s != [] {
      AscendingDaysStay(s[1..]);
      assert s == [s[0]] + s[1..];
    }
  }

  lemma SortMovesOne(d: nat, late: seq<nat>, early: seq<nat>)
    requires SortDays(late + early) == early + late
    requires (forall i :: 0 <= i < |early| ==> early[i] < d) && (late != [] ==> d <= late[0])
    ensures SortDays([d] + (late + early)) == early + [d] + late
  {
    assert ([d] + (late + early))[1..] == late + early;
    InsertAfter(d, early, late);
  }

  // Sorting moves the paydays of the next month, which come first in payday order, to the end.
  lemma {:induction false} SortRotates(late: seq<nat>, early: seq<nat>)
    requires AscendingDays(early) && AscendingDays(late) && Precedes(early, late)
    ensures SortDays(late + early) == early + late
    decreases |late|
  {
    if late == [] {
      AscendingDaysStay(early);
      assert late + early == early == early + late;
    } else {
      var d, rest := late[0], late[1..];
      SortRotates(rest, early);
      SortMovesOne(d, rest, early);
      Regroup(d, late, rest, early);
    }
  }

  lemma Regroup(d: nat, late: seq<nat>, rest: seq<nat>, early: seq<nat>)
    requires late != [] && d == late[0] && rest == late[1..]
    ensures [d] + (rest + early) == late + early && early + [d] + rest == early + late
  {
  }

  // Four waits or days, in order.
  datatype Four = Four(w0: nat, w1: nat, w2: nat, w3: nat)

  predicate AreWaits(f: Four, failureDom: int) {
    var offs := SalaryOffsets(failureDom, None);
    |offs| == 4 && offs[0] == f.w0 && offs[1] == f.w1 && offs[2] == f.w2 && offs[3] == f.w3
  }

  // The hint-free waits, by day of failure.
  function WaitsFrom(d: int): Four
    requires 1 <= d <= 28
  {
    match d
    case 1 => Four(1, 2, 4, 6)
    case 2 => Four(1, 3, 5, 27)
    case 3 => Four(1, 2, 4, 26)
    case 4 => Four(1, 3, 25, 26)
    case 5 => Four(1, 2, 24, 25)
    case 6 => Four(1, 23, 24, 25)
    case 7 => Four(1, 22, 23, 24)
    case _ => Four(29 - d, 30 - d, 31 - d, 33 - d)
  }

  lemma FromRotation(failureDom: int, late: seq<nat>, early: seq<nat>)
    requires PaydayWaits(failureDom) == late + early && |early + late| >= 4
    requires AscendingDays(early) && AscendingDays(late) && Precedes(early, late)
    ensures var sorted := early + late;
            AreWaits(Four(sorted[0], sorted[1], sorted[2], sorted[3]), failureDom)
  {
    SortRotates(late, early);
  }

  predicate AllDifferent(a: nat, b: nat, c: nat, d: nat, e: nat) {
    a != b && a != c && a != d && a != e && b != c && b != d && b != e && c != d && c != e && d != e
  }

  lemma AllNew(a: nat, b: nat, c: nat, d: nat, e: nat)
    requires AllDifferent(a, b, c, d, e)
    ensures AddNew(AddNew(AddNew(AddNew([a], b), c), d), e) == [a, b, c, d, e]
  {
  }

  // From day 3 on the five waits differ.
  lemma FiveWaits(d: int, a: nat, b: nat, c: nat, e: nat, f: nat)
    requires a == Delta(d, 1) && b == Delta(d, 2) && c == Delta(d, 3) && e == Delta(d, 5) && f == Delta(d, 7)
    requires AllDifferent(a, b, c, e, f)
    ensures PaydayWaits(d) == [a, b, c, e, f]
  {
    AllNew(a, b, c, e, f);
  }

  lemma FailureOnDay1()
    ensures AreWaits(Four(1, 2, 4, 6), 1)
  {
    FromRotation(1, [], [1, 2, 4, 6]);
  }

  lemma FailureOnDay2()
    ensures AreWaits(Four(1, 3, 5, 27), 2)
  {
    FromRotation(2, [27], [1, 3, 5]);
  }

  lemma FailureOnDay3()
    ensures AreWaits(Four(1, 2, 4, 26), 3)
  {
    FiveWaits(3, 26, 27, 1, 2, 4);
    FromRotation(3, [26, 27], [1, 2, 4]);
  }

  lemma FailureOnDay4()
    ensures AreWaits(Four(1, 3, 25, 26), 4)
  {
    FiveWaits(4, 25, 26, 27, 1, 3);
    FromRotation(4, [25, 26, 27], [1, 3]);
  }

  lemma FailureOnDay5()
    ensures AreWaits(Four(1, 2, 24, 25), 5)
  {
    FiveWaits(5, 24, 25, 26, 1, 2);
    FromRotation(5, [24, 25, 26], [1, 2]);
  }

  lemma FailureOnDay6()
    ensures AreWaits(Four(1, 23, 24, 25), 6)
  {
    FiveWaits(6, 23, 24, 25, 27, 1);
    FromRotation(6, [23, 24, 25, 27], [1]);
  }

  lemma FailureOnDay7()
    ensures AreWaits(Four(1, 22, 23, 24), 7)
  {
    FiveWaits(7, 22, 23, 24, 26, 1);
    FromRotation(7, [22, 23, 24, 26], [1]);
  }

  lemma DeltaToNextMonth(d: int, target: int)
    requires 1 <= target < d <= 28
    ensures Delta(d, target) == 28 + target - d
  {
  }

  lemma FiveAscending(d: int, a: nat, b: nat, c: nat, e: nat, f: nat)
    requires PaydayWaits(d) == [a, b, c, e, f] && a < b < c < e < f
    ensures AreWaits(Four(a, b, c, e), d)
  {
    AscendingDaysStay([a, b, c, e, f]);
  }

  lemma FailureFromDay8(d: int)
    requires 8 <= d <= 28
    ensures AreWaits(Four(29 - d, 30 - d, 31 - d, 33 - d), d)
  {
    var a, b, c, e, f := Delta(d, 1), Delta(d, 2), Delta(d, 3), Delta(d, 5), Delta(d, 7);
    DeltaToNextMonth(d, 1);
    DeltaToNextMonth(d, 2);
    DeltaToNextMonth(d, 3);
    DeltaToNextMonth(d, 5);
    DeltaToNextMonth(d, 7);
    FiveWaits(d, a, b, c, e, f);
    FiveAscending(d, a, b, c, e, f);
  }

  lemma WaitsFromDay(d: int)
    requires 1 <= d <= 28
    ensures AreWaits(WaitsFrom(d), d)
  {
    match d
    case 1 => FailureOnDay1();
    case 2 => FailureOnDay2();
    case 3 => FailureOnDay3();
    case 4 => FailureOnDay4();
    case 5 => FailureOnDay5();
    case 6 => FailureOnDay6();
    case 7 => FailureOnDay7();
    case _ => FailureFromDay8(d);
  }

  lemma SameDeltaOnCircle(failureDom: int, creditDay: int)
    ensures Delta(failureDom, creditDay) == Delta(OnCircle(failureDom), creditDay)
  {
  }

  lemma WaitsDependOnCircleOnly(failureDom: int)
    ensures SalaryOffsets(failureDom, None) == SalaryOffsets(OnCircle(failureDom), None)
  {
    SameDeltaOnCircle(failureDom, 1);
    SameDeltaOnCircle(failureDom, 2);
    SameDeltaOnCircle(failureDom, 3);
    SameDeltaOnCircle(failureDom, 5);
    SameDeltaOnCircle(failureDom, 7);
  }

  // Some hint-free wait after this failure lands in the funded window.
  predicate FanOutHits(failureDom: int, creditDay: int) {
    var offs := SalaryOffsets(failureDom, None);
    exists i :: 0 <= i < |offs| && FundedWait(creditDay, failureDom, offs[i])
  }

  // The days of failure for which four hint-free waits miss a salary credited on day 1 to 7.
  predicate Missed(dom: int, creditDay: int) {
    || (dom == 5 && creditDay == 3)
    || (dom == 6 && creditDay == 4)
    || (dom == 7 && (creditDay == 4 || creditDay == 5))
    || (dom >= 8 && (creditDay == 6 || creditDay == 7))
  }

  lemma SameWindow(failureDom: int, wait: nat, creditDay: int)
    ensures FundedWait(creditDay, failureDom, wait) <==> FundedWait(creditDay, OnCircle(failureDom), wait)
  {
    CircleShift(failureDom, wait);
  }

  lemma HitsDependOnCircleOnly(failureDom: int, creditDay: int)
    ensures FanOutHits(failureDom, creditDay) <==> FanOutHits(OnCircle(failureDom), creditDay)
  {
    WaitsDependOnCircleOnly(failureDom);
    var offs := SalaryOffsets(failureDom, None);
    forall i | 0 <= i < |offs|
      ensures FundedWait(creditDay, failureDom, offs[i]) <==> FundedWait(creditDay, OnCircle(failureDom), offs[i])
    {
      SameWindow(failureDom, offs[i], creditDay);
    }
  }

  // A wait of at most 28 days lands on one of the three funded days after a credit on day 1 to 7.
  predicate Lands(d: int, wait: nat, creditDay: int) {
    creditDay <= (if d + wait > 28 then d + wait - 28 else d + wait) <= creditDay + 2
  }

  lemma FundedByDay(d: int, wait: nat, creditDay: int)
    requires 1 <= d <= 28 && wait <= 28 && 1 <= creditDay <= 7
    ensures FundedWait(creditDay, d, wait) <==> Lands(d, wait, creditDay)
  {
    assert OnCircle(d + wait) == if d + wait > 28 then d + wait - 28 else d + wait;
  }

  lemma HitsByDay(d: int, f: Four, creditDay: int)
    requires AreWaits(f, d) && 1 <= d <= 28 && 1 <= creditDay <= 7
    requires f.w0 <= 28 && f.w1 <= 28 && f.w2 <= 28 && f.w3 <= 28
    ensures FanOutHits(d, creditDay)
            <==> SomeLands(d, f, creditDay)
  {
    var offs := SalaryOffsets(d, None);
    assert offs == [f.w0, f.w1, f.w2, f.w3];
    FundedByDay(d, f.w0, creditDay);
    FundedByDay(d, f.w1, creditDay);
    FundedByDay(d, f.w2, creditDay);
    FundedByDay(d, f.w3, creditDay);
  }

  predicate SomeLands(d: int, f: Four, creditDay: int) {
    Lands(d, f.w0, creditDay) || Lands(d, f.w1, creditDay) || Lands(d, f.w2, creditDay) || Lands(d, f.w3, creditDay)
  }

  lemma EarlyFailureHits(d: int, creditDay: int)
    requires 1 <= d <= 7 && 1 <= creditDay <= 7
    ensures SomeLands(d, WaitsFrom(d), creditDay) <==> !Missed(d, creditDay)
  {
  }

  lemma LateFailureHits(d: int, creditDay: int)
    requires 8 <= d <= 28 && 1 <= creditDay <= 7
    ensures SomeLands(d, WaitsFrom(d), creditDay) <==> !Missed(d, creditDay)
  {
  }

  /** Without a hint the fan-out is meant to still hit a funded day whenever the salary falls in
      the usual cluster, days 1 to 7.  It does so exactly outside the cases listed in Missed:
      the fifth payday is cut off, and for failures on day 8 or later that one was day 7. */
  lemma FanOutHitsExactly(failureDom: int, creditDay: int)
    requires 1 <= creditDay <= 7
    ensures FanOutHits(failureDom, creditDay) <==> !Missed(OnCircle(failureDom), creditDay)
  {
    var d := OnCircle(failureDom);
    CircleShift(failureDom, 0);
    HitsDependOnCircleOnly(failureDom, creditDay);
    WaitsFromDay(d);
    HitsByDay(d, WaitsFrom(d), creditDay);
    if d <= 7 {
      EarlyFailureHits(d, creditDay);
    } else {
      LateFailureHits(d, creditDay);
    }
  }
}
