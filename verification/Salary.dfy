/**
 The insufficient-funds plan of "ours" against the payer model: how many of its retries are
 funded, how many dice it can use, and when it recovers.
 */
module Salary {
  import opened Wrappers
  import opened Policy
  import opened SimTypes
  import opened Simulator
  import opened Timing
  import opened Engine

  /******* Plans made of retries only *******/

  /** A plan of retries recovers exactly when one of its first rolls is below the success rate -
      one roll per funded retry - and never uses more rolls than that. */
  lemma {:induction false} RetryOnlyWins(c: SimCase, acts: seq<PlannedAction>, stream: nat -> real)
    requires forall a :: a in acts ==> a.verb.Retry?
    ensures (exists k :: 0 <= k < |acts| && Wins(c, acts, stream, k))
            <==> exists j: nat :: j < RollsIn(c, acts) && stream(j) < c.retryProb
  {
    if acts != [] {
      var n := |acts| - 1;
      var before := acts[..n];
      RetryOnlyWins(c, before, stream);
      assert acts[n] in acts && acts == before + [acts[n]];
      forall k | 0 <= k < n
        ensures Wins(c, acts, stream, k) <==> Wins(c, before, stream, k)
      {
        WinsIsPrefixLocal(c, before, [acts[n]], stream, k);
      }
      var rolls := RollsIn(c, before);
      if j: nat :| j < RollsIn(c, acts) && stream(j) < c.retryProb {
        if j == rolls {
          assert Wins(c, acts, stream, n);
        } else {
          var k :| 0 <= k < n && Wins(c, before, stream, k);
          assert Wins(c, acts, stream, k);
        }
      }
      if k :| 0 <= k < |acts| && Wins(c, acts, stream, k) {
        if k == n {
          assert rolls < RollsIn(c, acts) && stream(rolls) < c.retryProb;
        } else {
          assert Wins(c, before, stream, k);
          var j: nat :| j < rolls && stream(j) < c.retryProb;
          assert j < RollsIn(c, acts);
        }
      }
    }
  }

  lemma {:induction false} RollsGrow(c: SimCase, acts: seq<PlannedAction>, n: nat)
    requires n <= |acts|
    ensures RollsIn(c, acts[..n]) <= RollsIn(c, acts)
  {
    if n < |acts| {
      var before := acts[..|acts| - 1];
      assert before[..n] == acts[..n];
      RollsGrow(c, before, n);
    } else {
      assert acts[..n] == acts;
    }
  }

  lemma RetryOnlyPlan(c: SimCase, plan: seq<PlannedAction>, stream: nat -> real)
    requires plan != [] && Sorted(plan) && forall a :: a in plan ==> a.verb.Retry?
    ensures CaseResult(c, plan, stream).recovered
            <==> exists j: nat :: j < RollsIn(c, plan) && stream(j) < c.retryProb
    ensures RollsUsed(c, plan, stream) <= RollsIn(c, plan)
  {
    SortedStays(plan);
    RetryOnlyWins(c, plan, stream);
    var w := FirstWin(c, plan, stream, 0);
    if w.Some? {
      assert Wins(c, plan, stream, w.value);
      RollsGrow(c, plan, w.value + 1);
    }
  }

  /******* The insufficient-funds plan *******/

  function RetryPlan(offsets: seq<nat>): seq<PlannedAction> {
    seq(|offsets|, i requires 0 <= i < |offsets| => PlannedAction(Retry, offsets[i], RetryOffset(offsets[i])))
  }

  lemma {:induction false} PlannedRetries(offsets: seq<nat>, cfg: ClassCfg, stamp: Stamp, actions: seq<Action>)
    requires |actions| == |offsets| && !cfg.timing.SpacedThenLink?
    requires forall i :: 0 <= i < |offsets| ==> actions[i] == RetryStep(offsets[i], cfg, stamp)
    ensures Planned(actions) == RetryPlan(offsets)
  {
    if offsets != [] {
      var n := |offsets| - 1;
      PlannedRetries(offsets[..n], cfg, stamp, actions[..n]);
      assert RetryPlan(offsets) == RetryPlan(offsets[..n]) + PlannedFor(actions[n]);
    } else {
      assert actions == [];
    }
  }

  // The row retries along the salary window and keeps all of its (at most four) waits.
  predicate RetriesAlongSalary(cfg: ClassCfg) {
    cfg.defaultVerb.ScheduleRetry? && cfg.timing.SalaryWindow? && cfg.maxRetries >= 4
  }

  // A genuine shortage of funds on a working instrument, with the right credit day observed.
  predicate WellObserved(c: SimCase) {
    && c.reason.InsufficientFunds? && c.instrumentValid
    && 1 <= c.trueCreditDay <= 28 && c.observedCreditDay == Some(c.trueCreditDay)
  }

  function FundedRetries(c: SimCase): nat {
    if OnCircle(c.failureDom) == c.trueCreditDay then 2 else 3
  }

  lemma SalaryPlan(rules: Rules, c: SimCase)
    requires Loaded(rules) && WellObserved(c) && RetriesAlongSalary(RowFor(rules, c.reason))
    ensures OursPlan(rules, c)
            == RetryPlan(SalaryOffsets(c.failureDom, Some(c.trueCreditDay)))
  {
    var cfg, stamp := RowFor(rules, c.reason), rules.stamp(c);
    var offsets := SalaryOffsets(c.failureDom, Some(c.trueCreditDay));
    SalaryTimingMeetsWindow(c.failureDom, c.trueCreditDay);
    assert OffsetsForTiming(cfg.timing, c.failureDom, c.observedCreditDay, cfg.maxRetries) == offsets;
    PlannedRetries(offsets, cfg, stamp, ClassActions(cfg, stamp, c.failureDom, c.observedCreditDay));
  }

  // Which retries of the plan roll: the last three, or all but the last of these after a failure on
  // the credit day.
  lemma RollPattern(c: SimCase, plan: seq<PlannedAction>, offsets: seq<nat>, i: nat)
    requires WellObserved(c) && offsets == SalaryOffsets(c.failureDom, Some(c.trueCreditDay))
    requires i < |plan| == |offsets| && plan[i].verb.Retry? && plan[i].dayOffset == offsets[i]
    ensures 3 <= |plan| <= 4
    ensures Rolls(c, plan[i]) <==> |plan| - 3 <= i && !(OnCircle(c.failureDom) == c.trueCreditDay && i == |plan| - 1)
  {
    SalaryTimingMeetsWindow(c.failureDom, c.trueCreditDay);
    assert Rolls(c, plan[i]) <==> FundedWait(c.trueCreditDay, c.failureDom, offsets[i]);
  }

  lemma RollsOfLastThree(c: SimCase, plan: seq<PlannedAction>)
    requires 3 <= |plan| <= 4
    ensures var n := |plan|;
            RollsIn(c, plan) == (if n == 4 && Rolls(c, plan[0]) then 1 else 0) + (if Rolls(c, plan[n - 3]) then 1 else 0)
                                + (if Rolls(c, plan[n - 2]) then 1 else 0) + (if Rolls(c, plan[n - 1]) then 1 else 0)
  {
    var n := |plan|;
    assert plan[..n] == plan && plan[..0] == [];
    RollsStep(c, plan, n - 1);
    RollsStep(c, plan, n - 2);
    RollsStep(c, plan, n - 3);
    if n == 4 {
      RollsStep(c, plan, 0);
    }
  }

  lemma RollsAreFundedRetries(c: SimCase, plan: seq<PlannedAction>, offsets: seq<nat>)
    requires WellObserved(c) && offsets == SalaryOffsets(c.failureDom, Some(c.trueCreditDay))
    requires 3 <= |plan| == |offsets| && forall i :: 0 <= i < |plan| ==> plan[i].verb.Retry? && plan[i].dayOffset == offsets[i]
    ensures RollsIn(c, plan) == FundedRetries(c)
  {
    var n := |plan|;
    RollPattern(c, plan, offsets, 0);
    RollPattern(c, plan, offsets, n - 3);
    RollPattern(c, plan, offsets, n - 2);
    RollPattern(c, plan, offsets, n - 1);
    RollsOfLastThree(c, plan);
  }

  lemma RollsStep(c: SimCase, acts: seq<PlannedAction>, i: nat)
    requires i < |acts|
    ensures RollsIn(c, acts[..i + 1]) == RollsIn(c, acts[..i]) + if Rolls(c, acts[i]) then 1 else 0
  {
    assert acts[..i + 1][..i] == acts[..i];
  }

  /** With a correct hint, exactly three retries of the plan are funded - two after a failure on the
      credit day itself.  So the case uses at most that many rolls and recovers if and only if
      one of them is below the success rate. */
  lemma SalaryPlanRecovery(rules: Rules, c: SimCase, stream: nat -> real)
    requires Loaded(rules) && WellObserved(c) && RetriesAlongSalary(RowFor(rules, c.reason))
    ensures var plan := OursPlan(rules, c);
            && RollsIn(c, plan) == FundedRetries(c)
            && RollsUsed(c, plan, stream) <= FundedRetries(c)
            && (CaseResult(c, plan, stream).recovered <==> exists j: nat :: j < FundedRetries(c) && stream(j) < c.retryProb)
  {
    var plan, offsets := OursPlan(rules, c), SalaryOffsets(c.failureDom, Some(c.trueCreditDay));
    SalaryPlan(rules, c);
    SalaryTimingMeetsWindow(c.failureDom, c.trueCreditDay);
    RollsAreFundedRetries(c, plan, offsets);
    RetryOnlyPlan(c, plan, stream);
  }
}
