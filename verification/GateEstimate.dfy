/** How many planned actions the gates would refuse (eval/gate_estimate.py). */
module GateEstimate {
  import opened Wrappers
  import opened Policy
  import opened Gates
  import opened SimTypes

  function ReasonValue(r: FailureReason): string {
    match r
    case InsufficientFunds => "insufficient_funds"
    case IssuerTransient => "issuer_transient"
    case GatewayTimeout => "gateway_timeout"
    case CardExpired => "card_expired"
    case TokenInvalid => "token_invalid"
    case MandateRevoked => "mandate_revoked"
    case RiskFraud => RISK_FRAUD
    case DoNotHonour => "do_not_honour"
  }

  // The guard action of a planned one.  `reasonCode` stands for the plan note's text or "EVAL_PLAN".
  function ToAction(pa: PlannedAction, reasonCode: string): Action {
    var verb := match pa.verb
      case Retry => ScheduleRetry
      case PaymentLink => SendPaymentLink
      case GenericNag => SendPaymentLink
      case Noop => EscalateHuman;
    var channel := if pa.verb.PaymentLink? || pa.verb.GenericNag? then Link else NoChannel;
    DefaultAction(verb).(dayOffset := Some(pa.dayOffset), channel := channel, reasonCode := reasonCode)
  }

  /** The guard sees a planned action on its day, under its code, as a rules proposal: a retry on no
      channel, a link or a nag as a payment link over one, a no-op as an escalation. */
  lemma ToActionTells(pa: PlannedAction, reasonCode: string)
    ensures var a, contact := ToAction(pa, reasonCode), pa.verb in {PaymentLink, GenericNag};
            && a.dayOffset == Some(pa.dayOffset) && a.reasonCode == reasonCode && a.proposedBy == RulesFallback
            && (a.verb == SendPaymentLink <==> contact) && (a.verb == ScheduleRetry <==> pa.verb == Retry)
            && (a.verb == EscalateHuman <==> pa.verb == Noop) && a.channel == (if contact then Link else NoChannel)
  {
  }

  // What has happened to a case's plan so far.
  datatype Tally = Tally(blocks: nat, contacts: nat, attempts: nat)

  function FactsFor(c: SimCase, a: Action, t: Tally, now: int): Facts {
    Facts(c.caseKey, a, now, t.attempts, t.contacts, 3, 2,
          Some(if c.reason.MandateRevoked? then Revoked else Active), false, 9, 21, Some(ReasonValue(c.reason)))
  }

  type Clock = int

  // One planned action against the gates: refused, or admitted and counted.
  function Weigh(c: SimCase, pa: PlannedAction, t: Tally, now: Clock, codeOf: PlannedAction -> string): Tally {
    if pa.verb.Noop? then t
    else
      var a := ToAction(pa, codeOf(pa));
      if !AllPassed(Checks(Fresh(FactsFor(c, a, t, now)))) then t.(blocks := t.blocks + 1)
      else if a.verb.ScheduleRetry? then t.(attempts := t.attempts + 1)
      else t.(contacts := t.contacts + 1, attempts := t.attempts + 1)
  }

  function WeighAll(c: SimCase, acts: seq<PlannedAction>, now: Clock, codeOf: PlannedAction -> string): Tally {
    if acts == [] then Tally(0, 0, 0)
    else Weigh(c, acts[|acts| - 1], WeighAll(c, acts[..|acts| - 1], now, codeOf), now, codeOf)
  }

  function TotalBlocks(cases: seq<SimCase>, planFn: PlanFn, now: Clock, codeOf: PlannedAction -> string): nat {
    if cases == [] then 0
    else TotalBlocks(cases[..|cases| - 1], planFn, now, codeOf)
         + WeighAll(cases[|cases| - 1], SortByDay(planFn(cases[|cases| - 1])), now, codeOf).blocks
  }

  // One planned action against the gates, in a fresh context.
  method WeighNext(c: SimCase, acts: seq<PlannedAction>, j: nat, t: Tally, now: Clock, codeOf: PlannedAction -> string)
    returns (next: Tally)
    requires j < |acts| && t == WeighAll(c, acts[..j], now, codeOf)
    ensures next == WeighAll(c, acts[..j + 1], now, codeOf)
  {
    assert acts[..j + 1][..j] == acts[..j];
    var pa := acts[j];
    next := t;
    if pa.verb.Noop? {
      return;
    }
    var action := ToAction(pa, codeOf(pa));
    var ctx := new GuardContext(FactsFor(c, action, t, now));
    var checks := RunGates(ctx);
    if !AllPassed(checks) {
      next := t.(blocks := t.blocks + 1);
      return;
    }
    if action.verb == ScheduleRetry {
      next := t.(attempts := t.attempts + 1);
    } else if action.verb == SendPaymentLink || action.verb == RequestMandateUpdate {
      next := t.(contacts := t.contacts + 1, attempts := t.attempts + 1);
    }
  }

  // One case's walk: the inner loop.
  method WalkPlan(c: SimCase, acts: seq<PlannedAction>, now: Clock, codeOf: PlannedAction -> string) returns (blocks: nat)
    ensures blocks == WeighAll(c, acts, now, codeOf).blocks
  {
    var t := Tally(0, 0, 0);
    for j := 0 to |acts|
      invariant t == WeighAll(c, acts[..j], now, codeOf)
    {
      t := WeighNext(c, acts, j, t, now, codeOf);
    }
    assert acts[..|acts|] == acts;
    return t.blocks;
  }

  /** count_gate_blocks: walk every case's plan through the gates, each action in a fresh context;
      the counters advance only for admitted actions. */
  method CountGateBlocks(cases: seq<SimCase>, planFn: PlanFn, now: Clock, codeOf: PlannedAction -> string) returns (blocks: nat)
    ensures blocks == TotalBlocks(cases, planFn, now, codeOf)
  {
    blocks := 0;
    for i := 0 to |cases|
      invariant blocks == TotalBlocks(cases[..i], planFn, now, codeOf)
    {
      assert cases[..i + 1][..i] == cases[..i];
      var here := WalkPlan(cases[i], SortByDay(planFn(cases[i])), now, codeOf);
      blocks := blocks + here;
    }
    assert cases[..|cases|] == cases;
  }

  /******* Accounting *******/

  function NonNoops(acts: seq<PlannedAction>): nat {
    if acts == [] then 0
    else NonNoops(acts[..|acts| - 1]) + if acts[|acts| - 1].verb.Noop? then 0 else 1
  }

  lemma StripKeeps(s: string)
    requires s != "" && !IsSpace(s[0]) && !IsSpace(s[|s| - 1])
    ensures Strip(s) == s
  {
  }

  lemma ReasonValueIsFraud(r: FailureReason)
    ensures Strip(ReasonValue(r)) == RISK_FRAUD <==> r.RiskFraud?
  {
    StripKeeps(ReasonValue(r));
    assert |RISK_FRAUD| == 10;
  }

  // The reasons whose cases the gates close to all automation.
  predicate Barred(c: SimCase) {
    c.reason.RiskFraud? || c.reason.MandateRevoked?
  }

  predicate InWindow(now: Clock) {
    9 <= HourIst(now) < 21
  }

  /** When a planned action is admitted: the case is not barred, fewer than three actions were
      admitted before, and a contact falls inside the window and is at most the second. */
  lemma AdmittedExactly(c: SimCase, pa: PlannedAction, t: Tally, now: Clock, codeOf: PlannedAction -> string)
    requires !pa.verb.Noop?
    ensures AllPassed(Checks(Fresh(FactsFor(c, ToAction(pa, codeOf(pa)), t, now)))) <==>
            !Barred(c) && t.attempts < 3 && (IsContact(pa.verb) ==> t.contacts < 2 && InWindow(now))
  {
    AdmissionRule(Fresh(FactsFor(c, ToAction(pa, codeOf(pa)), t, now)));
    ReasonValueIsFraud(c.reason);
  }

  /** Every planned action except no-ops is either blocked or admitted; at most three are admitted,
      at most two of them contacts; and on a barred case all are blocked. */
  lemma {:induction false} BlocksAccountForPlan(c: SimCase, acts: seq<PlannedAction>, now: Clock, codeOf: PlannedAction -> string)
    ensures var t := WeighAll(c, acts, now, codeOf);
            && t.blocks + t.attempts == NonNoops(acts)
            && t.attempts <= 3 && t.contacts <= 2 && t.contacts <= t.attempts
            && (Barred(c) ==> t.attempts == 0 && t.blocks == NonNoops(acts))
  {
    if acts != [] {
      var before, pa := acts[..|acts| - 1], acts[|acts| - 1];
      BlocksAccountForPlan(c, before, now, codeOf);
      if !pa.verb.Noop? {
        AdmittedExactly(c, pa, WeighAll(c, before, now, codeOf), now, codeOf);
      }
    }
  }

  /** Once three actions have been admitted, everything after them is blocked. */
  lemma {:induction false} NothingAfterTheCap(c: SimCase, acts: seq<PlannedAction>, more: seq<PlannedAction>, now: Clock, codeOf: PlannedAction -> string)
    requires WeighAll(c, acts, now, codeOf).attempts == 3
    ensures var t, u := WeighAll(c, acts, now, codeOf), WeighAll(c, acts + more, now, codeOf);
            u == t.(blocks := t.blocks + NonNoops(more))
  {
    if more == [] {
      assert acts + more == acts;
    } else {
      var before, pa := more[..|more| - 1], more[|more| - 1];
      assert (acts + more)[..|acts + more| - 1] == acts + before;
      NothingAfterTheCap(c, acts, before, now, codeOf);
      if !pa.verb.Noop? {
        AdmittedExactly(c, pa, WeighAll(c, acts + before, now, codeOf), now, codeOf);
      }
    }
  }

  /******* Over a batch *******/

  /** The batch's blocks are the sum of its cases': one case counts its own, two batches add up. */
  lemma {:induction false} BatchBlocksAdd(xs: seq<SimCase>, ys: seq<SimCase>, planFn: PlanFn, now: Clock, codeOf: PlannedAction -> string)
    ensures TotalBlocks(xs + ys, planFn, now, codeOf) == TotalBlocks(xs, planFn, now, codeOf) + TotalBlocks(ys, planFn, now, codeOf)
    ensures |ys| == 1 ==> TotalBlocks(ys, planFn, now, codeOf) == WeighAll(ys[0], SortByDay(planFn(ys[0])), now, codeOf).blocks
  {
    if ys == [] {
      assert xs + ys == xs;
    } else {
      var n := |ys| - 1;
      assert (xs + ys)[..|xs + ys| - 1] == xs + ys[..n];
      BatchBlocksAdd(xs, ys[..n], planFn, now, codeOf);
    }
  }

  // The batch's planned actions that do something.
  function PlannedSteps(cases: seq<SimCase>, planFn: PlanFn): nat {
    if cases == [] then 0
    else PlannedSteps(cases[..|cases| - 1], planFn) + NonNoops(SortByDay(planFn(cases[|cases| - 1])))
  }

  /** Of a batch's planned actions all but at most three per case are blocked. */
  lemma {:induction false} BatchBlocksAccount(cases: seq<SimCase>, planFn: PlanFn, now: Clock, codeOf: PlannedAction -> string)
    ensures TotalBlocks(cases, planFn, now, codeOf) <= PlannedSteps(cases, planFn)
            <= TotalBlocks(cases, planFn, now, codeOf) + 3 * |cases|
  {
    if cases != [] {
      var c := cases[|cases| - 1];
      BatchBlocksAccount(cases[..|cases| - 1], planFn, now, codeOf);
      BlocksAccountForPlan(c, SortByDay(planFn(c)), now, codeOf);
    }
  }
}
