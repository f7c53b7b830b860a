/** Bounding a proposed action (policy/engine.py, `validate_proposal`). */
module Validator {
  import opened Wrappers
  import opened Policy
  import opened SimTypes
  import opened Engine

  function Restamped(p: Action, failureClass: string, score: real, policyVersion: string): Action {
    p.(policyVersion := policyVersion, failureClass := failureClass, score := Some(score), proposedBy := Llm)
  }

  // Which repair the validator applies.
  datatype Repair = ForcedEscalation | RetryOnDead | ContactForbidden | PassedThrough

  function RepairOf(cfg: ClassCfg, verb: ActionVerb): Repair {
    if cfg.category.Stop? then ForcedEscalation
    else if cfg.category.Dead? && verb.ScheduleRetry? then RetryOnDead
    else if !cfg.allowContact && IsContactVerb(verb) then ContactForbidden
    else PassedThrough
  }

  function Validated(cfg: ClassCfg, p: Action, failureClass: string, amountPaise: nat, score: real, policyVersion: string): Action {
    var q := Restamped(p, failureClass, score, policyVersion);
    match RepairOf(cfg, p.verb)
    case ForcedEscalation =>
      q.(verb := EscalateHuman, channel := NoChannel, reasonCode := "RISK_ESCALATE", note := ValidatorForcedEscalate)
    case RetryOnDead =>
      q.(verb := cfg.defaultVerb, channel := if cfg.allowContact then Link else NoChannel, dayOffset := Some(0),
         note := ValidatorBlockedRetryOnDead)
    case ContactForbidden =>
      q.(verb := if cfg.maxRetries > 0 then ScheduleRetry else EscalateHuman, channel := NoChannel,
         note := ValidatorBlockedContact)
    case PassedThrough =>
      if q.amountPaise.None? && !q.verb.EscalateHuman? then q.(amountPaise := Some(amountPaise)) else q
  }

  /** validate_proposal: edits a copy of the proposal, returning early from each repair; fails only
      if the taxonomy has neither the class nor a fall-back row. */
  method ValidateProposal(taxonomy: Taxonomy, name: ClassName, proposal: Action, failureClass: string,
                          amountPaise: nat, score: real, policyVersion: string)
    returns (r: Result<Action, MissingClass>)
    ensures r == match ClassConfig(taxonomy, name)
                 case Err(e) => Err(e)
                 case Ok(cfg) => Ok(Validated(cfg, proposal, failureClass, amountPaise, score, policyVersion))
  {
    var lookup := ClassConfig(taxonomy, name);
    if lookup.Err? {
      return Err(lookup.error);
    }
    var cfg := lookup.value;
    var verb := proposal.verb;
    var repaired := proposal;
    repaired := repaired.(policyVersion := policyVersion);
    repaired := repaired.(failureClass := failureClass);
    repaired := repaired.(score := Some(score));
    repaired := repaired.(proposedBy := Llm);

    if cfg.category == Stop {
      repaired := repaired.(verb := EscalateHuman);
      repaired := repaired.(channel := NoChannel);
      repaired := repaired.(reasonCode := "RISK_ESCALATE");
      repaired := repaired.(note := ValidatorForcedEscalate);
      return Ok(repaired);
    }
    if cfg.category == Dead && verb == ScheduleRetry {
      repaired := repaired.(verb := cfg.defaultVerb);
      repaired := repaired.(channel := if cfg.allowContact then Link else NoChannel);
      repaired := repaired.(dayOffset := Some(0));
      repaired := repaired.(note := ValidatorBlockedRetryOnDead);
      return Ok(repaired);
    }
    if !cfg.allowContact && (verb == SendPaymentLink || verb == RequestMandateUpdate) {
      repaired := repaired.(verb := if cfg.maxRetries > 0 then ScheduleRetry else EscalateHuman);
      repaired := repaired.(channel := NoChannel);
      repaired := repaired.(note := ValidatorBlockedContact);
      return Ok(repaired);
    }
    if repaired.amountPaise.None? && repaired.verb != EscalateHuman {
      repaired := repaired.(amountPaise := Some(amountPaise));
    }
    return Ok(repaired);
  }

  /******* The legal set *******/

  // A verb the class may carry: only escalation on stop, no retry on dead, no contact where forbidden.
  predicate Legal(cfg: ClassCfg, verb: ActionVerb) {
    && (cfg.category.Stop? ==> verb.EscalateHuman?)
    && (cfg.category.Dead? ==> !verb.ScheduleRetry?)
    && (!cfg.allowContact ==> !IsContactVerb(verb))
  }

  // A dead row that forbids contact neither defaults to a contact nor allows retries: otherwise its
  // two repairs undo each other.
  predicate Stable(cfg: ClassCfg) {
    cfg.category.Dead? && !cfg.allowContact ==> !IsContactVerb(cfg.defaultVerb) && cfg.maxRetries <= 0
  }

  // The row lets every repair land somewhere legal: besides, a dead row's default is not a retry.
  predicate Sound(cfg: ClassCfg) {
    Stable(cfg) && (cfg.category.Dead? ==> !cfg.defaultVerb.ScheduleRetry?)
  }

  /** Validation lands in the legal set for every proposal exactly when the row is sound. */
  lemma ValidationIsLegal(cfg: ClassCfg, failureClass: string, amountPaise: nat, score: real, version: string)
    ensures (forall p: Action :: Legal(cfg, Validated(cfg, p, failureClass, amountPaise, score, version).verb)) <==> Sound(cfg)
  {
    var retry, link := DefaultAction(ScheduleRetry), DefaultAction(SendPaymentLink);
    if !Sound(cfg) {
      var v1 := Validated(cfg, retry, failureClass, amountPaise, score, version);
      var v2 := Validated(cfg, link, failureClass, amountPaise, score, version);
      assert !Legal(cfg, v1.verb) || !Legal(cfg, v2.verb);
    }
  }

  /** What the validator leaves alone: a legal, non-stop proposal keeps its verb, channel, day,
      reason code and note; and every result is stamped as a bounded model proposal. */
  lemma LegalProposalsPass(cfg: ClassCfg, p: Action, failureClass: string, amountPaise: nat, score: real, version: string)
    ensures var q := Validated(cfg, p, failureClass, amountPaise, score, version);
            && q.policyVersion == version && q.failureClass == failureClass && q.score == Some(score) && q.proposedBy.Llm?
            && (Legal(cfg, p.verb) && !cfg.category.Stop? ==>
                  && IdentityOf(q) == IdentityOf(p) && q.note == p.note
                  && q.amountPaise == if p.amountPaise.None? && !p.verb.EscalateHuman? then Some(amountPaise) else p.amountPaise)
  {
  }

  /** Where the repairs land.  On stop: an escalation on no channel under its own code.  On another row,
      a contact that the row forbids - unless the proposal is a retry on a dead row - becomes a retry if
      and only if the row allows retries, and an escalation otherwise, on no channel either way. */
  lemma RepairsLand(cfg: ClassCfg, p: Action, failureClass: string, amountPaise: nat, score: real, version: string)
    ensures var q := Validated(cfg, p, failureClass, amountPaise, score, version);
            && (cfg.category.Stop? ==>
                  && q.verb == EscalateHuman && q.channel == NoChannel && q.reasonCode == "RISK_ESCALATE"
                  && q.note == ValidatorForcedEscalate && q.dayOffset == p.dayOffset && q.amountPaise == p.amountPaise)
            && (!cfg.category.Stop? && !cfg.allowContact && p.verb in {SendPaymentLink, RequestMandateUpdate} ==>
                  && (q.verb == ScheduleRetry <==> cfg.maxRetries > 0) && (q.verb == EscalateHuman <==> cfg.maxRetries <= 0)
                  && q.channel == NoChannel && q.note == ValidatorBlockedContact
                  && q.dayOffset == p.dayOffset && q.reasonCode == p.reasonCode && q.amountPaise == p.amountPaise)
            && (cfg.category.Dead? && p.verb == ScheduleRetry ==>
                  && q.verb == cfg.defaultVerb && q.channel == (if cfg.allowContact then Link else NoChannel) && q.dayOffset == Some(0)
                  && q.note == ValidatorBlockedRetryOnDead && q.reasonCode == p.reasonCode && q.amountPaise == p.amountPaise)
  {
  }

  /** A retry proposed on a dead row that defaults to a contact is repaired into what the engine itself
      would do first: same verb, same channel, same day. */
  lemma DeadRetryBecomesFixPath(cfg: ClassCfg, p: Action, failureClass: string, amountPaise: nat, score: real, version: string,
                                stamp: Stamp, failureDom: int, observedCreditDay: Option<int>)
    requires cfg.category.Dead? && IsContactVerb(cfg.defaultVerb) && !cfg.timing.NoTiming? && p.verb.ScheduleRetry?
    ensures var q, own := Validated(cfg, p, failureClass, amountPaise, score, version), ClassActions(cfg, stamp, failureDom, observedCreditDay);
            own != [] && q.verb == own[0].verb && q.channel == own[0].channel && q.dayOffset == own[0].dayOffset
  {
  }

  /** On a stable row, validating again changes nothing - except that an action repaired by an early
      return still lacks an amount, which the second pass fills in; a third changes nothing at all. */
  lemma ValidatingTwice(cfg: ClassCfg, p: Action, failureClass: string, amountPaise: nat, score: real, version: string)
    requires Stable(cfg)
    ensures var once := Validated(cfg, p, failureClass, amountPaise, score, version);
            var twice := Validated(cfg, once, failureClass, amountPaise, score, version);
            && (twice == once <==> p.amountPaise.Some? || once.verb.EscalateHuman? || RepairOf(cfg, p.verb).PassedThrough?
                                   || (RepairOf(cfg, p.verb).RetryOnDead? && cfg.defaultVerb.ScheduleRetry?))
            && twice.(amountPaise := once.amountPaise) == once
            && Validated(cfg, twice, failureClass, amountPaise, score, version) == twice
  {
  }

  /** For proposals with an amount, validation is idempotent exactly on the stable rows. */
  lemma IdempotentExactlyOnStableRows(cfg: ClassCfg, failureClass: string, amountPaise: nat, score: real, version: string)
    ensures (forall p: Action :: p.amountPaise.Some? ==>
               Validated(cfg, Validated(cfg, p, failureClass, amountPaise, score, version), failureClass, amountPaise, score, version)
               == Validated(cfg, p, failureClass, amountPaise, score, version))
            <==> Stable(cfg)
  {
    if Stable(cfg) {
      forall p: Action | p.amountPaise.Some?
        ensures Validated(cfg, Validated(cfg, p, failureClass, amountPaise, score, version), failureClass, amountPaise, score, version)
                == Validated(cfg, p, failureClass, amountPaise, score, version)
      {
        ValidatingTwice(cfg, p, failureClass, amountPaise, score, version);
      }
    } else {
      var p := DefaultAction(if IsContactVerb(cfg.defaultVerb) then ScheduleRetry else SendPaymentLink).(amountPaise := Some(amountPaise));
      var once := Validated(cfg, p, failureClass, amountPaise, score, version);
      var twice := Validated(cfg, once, failureClass, amountPaise, score, version);
      assert twice.verb != once.verb || twice.note != once.note;
    }
  }

  /** Every row of the shipped taxonomy is sound. */
  lemma ShippedTaxonomyIsSound(name: ClassName)
    ensures Sound(ShippedRow(name))
    ensures name == OfReason(InsufficientFunds) ==>
              ShippedRow(name).defaultVerb.ScheduleRetry? && ShippedRow(name).maxRetries == 4
    ensures name.OfReason? && RecoveryClassFor(name.reason).CustomerAction? ==>
              IsContactVerb(ShippedRow(name).defaultVerb) && !ShippedRow(name).timing.NoTiming?
    // The taxonomy's categories and the simulator's recovery classes cut the reasons alike.
    ensures name.OfReason? ==>
              && (ShippedRow(name).category == Dead <==> RecoveryClassFor(name.reason) == CustomerAction)
              && (ShippedRow(name).category == Stop <==> RecoveryClassFor(name.reason) == Prohibited)
              && (ShippedRow(name).category in {TimeShiftable, Transient} <==> RecoveryClassFor(name.reason) == RetryFixable)
              && (ShippedRow(name).category == AmbiguousCategory <==> RecoveryClassFor(name.reason) == Ambiguous)
  {
  }
}
