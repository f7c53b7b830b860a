/** The closed vocabulary of an intervention (policy/schemas.py). */
module Policy {
  import opened Wrappers

  datatype ActionVerb = ScheduleRetry | SendPaymentLink | RequestMandateUpdate | EscalateHuman

  datatype Channel = NoChannel | Sms | Email | Link

  datatype ProposedBy = Llm | RulesFallback

  // The free-text notes that actions carry, as the closed set the code writes plus anything else.
  datatype Label =
    | NoLabel | EscalateOrNoAuto | DeadInstrumentFixPath | DeadInstrumentFollowupLink | SpacedLink | RetryOffset(day: nat)
    | ValidatorForcedEscalate | ValidatorBlockedRetryOnDead | ValidatorBlockedContact
    | BaselineStep(day: nat) | Free(text: string)

  // `when` and the amounts' currency are not read by any modelled code.
  datatype Action = Action(
    verb: ActionVerb,
    dayOffset: Option<nat>,
    channel: Channel,
    amountPaise: Option<nat>,
    reasonCode: string,
    policyVersion: string,
    proposedBy: ProposedBy,
    failureClass: string,
    score: Option<real>,
    note: Label)

  // The four fields that make two actions "the same action" for idempotency.
  datatype Identity = Identity(
    verb: ActionVerb, dayOffset: Option<nat>, channel: Channel, reasonCode: string)

  function IdentityOf(a: Action): Identity {
    Identity(a.verb, a.dayOffset, a.channel, a.reasonCode)
  }

  predicate IsContactVerb(v: ActionVerb) {
    v.SendPaymentLink? || v.RequestMandateUpdate?
  }

  predicate IsMoneyVerb(v: ActionVerb) {
    v.ScheduleRetry? || IsContactVerb(v)
  }

  function VerbValue(v: ActionVerb): string {
    match v
    case ScheduleRetry => "schedule_retry"
    case SendPaymentLink => "send_payment_link"
    case RequestMandateUpdate => "request_mandate_update"
    case EscalateHuman => "escalate_human"
  }

  function ChannelValue(c: Channel): string {
    match c
    case NoChannel => "none"
    case Sms => "sms"
    case Email => "email"
    case Link => "link"
  }

  function DefaultAction(verb: ActionVerb): Action {
    Action(verb, None, NoChannel, None, "", "unset", RulesFallback, "", None, NoLabel)
  }
}
