/** The six hard gates that can veto an action (guard/gates.py, guard/context.py). */
module Gates {
  import opened Wrappers
  import opened Policy
  import opened Fingerprint

  datatype MandateState = Active | Paused | Revoked | Expired | Unknown

  // The part of a guard context that no code changes.  `now` counts minutes UTC.
  datatype Facts = Facts(
    caseId: string,
    action: Action,
    now: int,
    attemptsUsed: int,
    contactsUsed: int,
    maxAttempts: int,
    maxContacts: int,
    mandateState: Option<MandateState>,
    optOut: bool,
    windowStartIst: int,
    windowEndIst: int,
    failureClass: Option<string>)

  // A whole guard context as a value: the facts, the idempotency set and the cached key.
  datatype Context = Context(facts: Facts, executed: set<string>, fingerprint: string)

  class GuardContext {
    const facts: Facts
    var executedFingerprints: set<string>
    var actionFingerprint: string

    constructor (facts: Facts)
      ensures View() == Fresh(facts)
    {
      this.facts := facts;
      executedFingerprints := {};
      actionFingerprint := "";
    }

    function View(): Context
      reads this
    {
      Context(facts, executedFingerprints, actionFingerprint)
    }
  }

  function Fresh(facts: Facts): Context {
    Context(facts, {}, "")
  }

  // The gates' names, in DEFAULT_GATES order, and the reason codes they report; closed sets of strings.
  datatype GateName = ProhibitedRecovery | ContactWindow | FrequencyCap | MandateValidity | AttemptCap | Idempotency

  datatype GateCode =
    | GATE_PROHIBITED_N_A | GATE_PROHIBITED_ESCALATE_OK | GATE_PROHIBITED
    | GATE_WINDOW_N_A | GATE_WINDOW_OK | GATE_WINDOW
    | GATE_FREQ_N_A | GATE_FREQ_OK | GATE_FREQ
    | GATE_MANDATE_N_A | GATE_MANDATE_UNKNOWN_ALLOW | GATE_MANDATE_OK | GATE_MANDATE
    | GATE_ATTEMPTS_N_A | GATE_ATTEMPTS_OK | GATE_ATTEMPTS
    | GATE_IDEM_OK | GATE_IDEM

  datatype GateCheck = GateCheck(name: GateName, passed: bool, code: GateCode)

  /******* Action kinds *******/

  predicate IsContactAction(a: Action) {
    IsContactVerb(a.verb) || !a.channel.NoChannel?
  }

  /******* The gates *******/

  // Python's str.strip(): the characters for which str.isspace() holds.
  predicate IsSpace(c: char) {
    var n := c as int;
    || 0x09 <= n <= 0x0D || 0x1C <= n <= 0x20 || n == 0x85 || n == 0xA0 || n == 0x1680
    || 0x2000 <= n <= 0x200A || n == 0x2028 || n == 0x2029 || n == 0x202F || n == 0x205F || n == 0x3000
  }

  function Strip(s: string): string {
    if s != "" && IsSpace(s[0]) then Strip(s[1..])
    else if s != "" && IsSpace(s[|s| - 1]) then Strip(s[..|s| - 1])
    else s
  }

  const RISK_FRAUD := "risk_fraud"

  predicate Prohibited(f: Facts) {
    Strip(f.failureClass.GetOr("")) == RISK_FRAUD
  }

  function GateProhibitedRecovery(f: Facts): GateCheck {
    var name := ProhibitedRecovery;
    if !Prohibited(f) then GateCheck(name, true, GATE_PROHIBITED_N_A)
    else if f.action.verb.EscalateHuman? then GateCheck(name, true, GATE_PROHIBITED_ESCALATE_OK)
    else if IsMoneyVerb(f.action.verb) || IsContactAction(f.action) then GateCheck(name, false, GATE_PROHIBITED)
    else GateCheck(name, true, GATE_PROHIBITED_N_A)
  }

  // IST is UTC+5:30; Dafny's division and modulus by a positive number round down, as clocks do.
  function HourIst(now: int): int {
    ((now + 330) / 60) % 24
  }

  function GateContactWindow(f: Facts): GateCheck {
    var name := ContactWindow;
    if !IsContactAction(f.action) then GateCheck(name, true, GATE_WINDOW_N_A)
    else
      var ok := f.windowStartIst <= HourIst(f.now) < f.windowEndIst;
      GateCheck(name, ok, if ok then GATE_WINDOW_OK else GATE_WINDOW)
  }

  function GateFrequencyCap(f: Facts): GateCheck {
    var name := FrequencyCap;
    if !IsContactAction(f.action) then GateCheck(name, true, GATE_FREQ_N_A)
    else
      var ok := f.contactsUsed < f.maxContacts;
      GateCheck(name, ok, if ok then GATE_FREQ_OK else GATE_FREQ)
  }

  function GateMandateValidity(f: Facts): GateCheck {
    var name := MandateValidity;
    if !IsMoneyVerb(f.action.verb) then GateCheck(name, true, GATE_MANDATE_N_A)
    else
      match f.mandateState
      case None => GateCheck(name, true, GATE_MANDATE_UNKNOWN_ALLOW)
      case Some(state) =>
        var bad := state.Revoked? || state.Expired?;
        GateCheck(name, !bad, if bad then GATE_MANDATE else GATE_MANDATE_OK)
  }

  function GateAttemptCap(f: Facts): GateCheck {
    var name := AttemptCap;
    if f.action.verb.EscalateHuman? then GateCheck(name, true, GATE_ATTEMPTS_N_A)
    else
      var ok := f.attemptsUsed < f.maxAttempts;
      GateCheck(name, ok, if ok then GATE_ATTEMPTS_OK else GATE_ATTEMPTS)
  }

  function KeyOf(c: Context): string {
    if c.fingerprint != "" then c.fingerprint else FingerprintAction(c.facts.caseId, c.facts.action)
  }

  function GateIdempotency(c: Context): GateCheck {
    var ok := KeyOf(c) !in c.executed;
    GateCheck(Idempotency, ok, if ok then GATE_IDEM_OK else GATE_IDEM)
  }

  const GATE_COUNT := 6

  function GateNames(): seq<GateName> {
    [ProhibitedRecovery, ContactWindow, FrequencyCap, MandateValidity, AttemptCap, Idempotency]
  }

  // Every gate is evaluated, even after a block.
  function Checks(c: Context): seq<GateCheck> {
    [GateProhibitedRecovery(c.facts),
     GateContactWindow(c.facts),
     GateFrequencyCap(c.facts),
     GateMandateValidity(c.facts),
     GateAttemptCap(c.facts),
     GateIdempotency(c)]
  }

  predicate AllPassed(checks: seq<GateCheck>) {
    forall i :: 0 <= i < |checks| ==> checks[i].passed
  }

  /** The position of the first failing check; the pipeline reports its name. */
  function FirstBlocked(checks: seq<GateCheck>): (k: nat)
    requires !AllPassed(checks)
    ensures k < |checks| && !checks[k].passed
    ensures forall j :: 0 <= j < k ==> checks[j].passed
  {
    if !checks[0].passed then 0
    else
      assert forall i :: 1 <= i < |checks| ==> checks[i] == checks[1..][i - 1];
      1 + FirstBlocked(checks[1..])
  }

  /** run_gates: caches the key on the context, then evaluates the six gates in order. */
  method RunGates(ctx: GuardContext) returns (checks: seq<GateCheck>)
    modifies ctx`actionFingerprint
    ensures ctx.actionFingerprint == KeyOf(old(ctx.View()))
    ensures checks == Checks(ctx.View()) == Checks(old(ctx.View()))
  {
    if ctx.actionFingerprint == "" {
      ctx.actionFingerprint := FingerprintAction(ctx.facts.caseId, ctx.facts.action);
      FingerprintNotEmpty(ctx.facts.caseId, ctx.facts.action);
    }
    checks := [GateProhibitedRecovery(ctx.facts),
               GateContactWindow(ctx.facts),
               GateFrequencyCap(ctx.facts),
               GateMandateValidity(ctx.facts),
               GateAttemptCap(ctx.facts),
               GateIdempotency(ctx.View())];
  }

  /******* What the gates admit *******/

  /** The whole gate battery as one condition, independent of the order of the gates. */
  lemma AdmissionRule(c: Context)
    ensures AllPassed(Checks(c)) <==>
            && KeyOf(c) !in c.executed
            && (!c.facts.action.verb.EscalateHuman? ==>
                  && !Prohibited(c.facts)
                  && c.facts.attemptsUsed < c.facts.maxAttempts
                  && c.facts.mandateState !in {Some(Revoked), Some(Expired)})
            && (IsContactAction(c.facts.action) ==>
                  && c.facts.windowStartIst <= HourIst(c.facts.now) < c.facts.windowEndIst
                  && c.facts.contactsUsed < c.facts.maxContacts)
    ensures |Checks(c)| == GATE_COUNT
    ensures forall i :: 0 <= i < GATE_COUNT ==> Checks(c)[i].name == GateNames()[i]
  {
    var checks := Checks(c);
    assert AllPassed(checks) <==>
           && checks[0].passed && checks[1].passed && checks[2].passed
           && checks[3].passed && checks[4].passed && checks[5].passed;
  }

  predicate BlockingCode(code: GateCode) {
    || code.GATE_PROHIBITED? || code.GATE_WINDOW? || code.GATE_FREQ?
    || code.GATE_MANDATE? || code.GATE_ATTEMPTS? || code.GATE_IDEM?
  }

  predicate TouchesCustomer(a: Action) {
    a.verb in {SendPaymentLink, RequestMandateUpdate} || a.channel in {Sms, Email, Link}
  }

  /** A gate reports a blocking code exactly when it blocks. */
  lemma BlockingCodesTell(c: Context)
    ensures forall i :: 0 <= i < GATE_COUNT ==> (BlockingCode(Checks(c)[i].code) <==> !Checks(c)[i].passed)
  {
  }

  /** The other codes say why a gate passes: not applicable exactly when the action is none of its business. */
  lemma CodesTell(c: Context)
    ensures var f, checks := c.facts, Checks(c);
            && (checks[0].code == GATE_PROHIBITED_ESCALATE_OK <==> Prohibited(f) && f.action.verb == EscalateHuman)
            && (checks[1].code == GATE_WINDOW_N_A <==> !TouchesCustomer(f.action))
            && (checks[2].code == GATE_FREQ_N_A <==> !TouchesCustomer(f.action))
            && (checks[3].code == GATE_MANDATE_N_A <==> f.action.verb == EscalateHuman)
            && (checks[3].code == GATE_MANDATE_UNKNOWN_ALLOW <==> f.action.verb != EscalateHuman && f.mandateState == None)
            && (checks[4].code == GATE_ATTEMPTS_N_A <==> f.action.verb == EscalateHuman)
            && checks[0].code in {GATE_PROHIBITED_N_A, GATE_PROHIBITED_ESCALATE_OK, GATE_PROHIBITED}
            && checks[1].code in {GATE_WINDOW_N_A, GATE_WINDOW_OK, GATE_WINDOW}
            && checks[2].code in {GATE_FREQ_N_A, GATE_FREQ_OK, GATE_FREQ}
            && checks[3].code in {GATE_MANDATE_N_A, GATE_MANDATE_UNKNOWN_ALLOW, GATE_MANDATE_OK, GATE_MANDATE}
            && checks[4].code in {GATE_ATTEMPTS_N_A, GATE_ATTEMPTS_OK, GATE_ATTEMPTS}
            && checks[5].code in {GATE_IDEM_OK, GATE_IDEM}
  {
  }

  /** The hour on an Indian clock: `now` minutes after a UTC midnight it shows the hour that started most
      recently five and a half hours ahead of UTC. */
  lemma HourOnIndianClock(now: int, day: int, hour: int)
    requires 0 <= hour < 24
    requires 24 * 60 * day + 60 * hour <= now + 5 * 60 + 30 < 24 * 60 * day + 60 * (hour + 1)
    ensures HourIst(now) == hour
  {
    assert (now + 330) / 60 == 24 * day + hour;
  }

  lemma JoinFront(c: char, front: string, middle: string, back: string)
    ensures [c] + (front + middle + back) == ([c] + front) + middle + back
  {
  }

  lemma JoinBack(c: char, front: string, middle: string, back: string)
    ensures (front + middle + back) + [c] == front + middle + (back + [c])
  {
  }

  predicate Blank(s: string) {
    forall i :: 0 <= i < |s| ==> IsSpace(s[i])
  }

  predicate Trimmed(s: string) {
    s != "" ==> !IsSpace(s[0]) && !IsSpace(s[|s| - 1])
  }

  /** Stripping takes whitespace off both ends and nothing else. */
  lemma {:induction false} StripTakesEndsOff(s: string) returns (front: string, back: string)
    ensures s == front + Strip(s) + back
    ensures Blank(front) && Blank(back) && Trimmed(Strip(s))
    decreases |s|
  {
    front, back := "", "";
    if s != "" && IsSpace(s[0]) {
      front, back := StripTakesEndsOff(s[1..]);
      JoinFront(s[0], front, Strip(s), back);
      front := [s[0]] + front;
    } else if s != "" && IsSpace(s[|s| - 1]) {
      front, back := StripTakesEndsOff(s[..|s| - 1]);
      JoinBack(s[|s| - 1], front, Strip(s), back);
      back := back + [s[|s| - 1]];
    }
  }
}
