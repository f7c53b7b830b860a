/** Idempotent event intake (ledger/service.py with ledger/writer.py), proved against Machine.dfy. */
module Intake {
  import opened Wrappers
  import opened Ledger
  import opened Machine
  import opened Pipeline

  /** ingest_risk_event: one case, one event row and one processed id per first-seen event.
      `newId` is the identifier minted for the case; a clash with an existing key is the
      database's integrity error, and the transaction leaves no trace. */
  method IngestRiskEvent(session: Session, ev: RiskEvent, newId: string) returns (r: Result<IntakeResult, IntakeError>)
    modifies session
    ensures session.View() == IngestedDb(old(session.View()), ev, newId)
    ensures r == IngestedResult(old(session.View()), ev, newId)
  {
    if ev.eventId in session.processed {
      return Ok(IntakeResult(session.processed[ev.eventId], ev.eventId, true, false, None));
    }
    if newId in session.cases {
      return Err(CaseIdTaken);
    }
    session.cases := session.cases[newId := NewCase(ev)];
    var seqNo := session.AppendLedger(RiskRow(newId, ev));
    session.processed := session.processed[ev.eventId := newId];
    return Ok(IntakeResult(newId, ev.eventId, false, false, Some(seqNo)));
  }

  /** handle_payment_link_paid: resolve the case, record the event, and close the case as
      recovered unless it already is. */
  method HandlePaymentLinkPaid(session: Session, paid: PaidEvent) returns (r: Result<IntakeResult, IntakeError>)
    modifies session
    ensures session.View() == PaidDb(old(session.View()), paid)
    ensures r == PaidResult(old(session.View()), paid)
  {
    if paid.eventId in session.processed {
      var cid := session.processed[paid.eventId];
      var recovered := cid in session.cases && session.cases[cid].status.Recovered?;
      return Ok(IntakeResult(cid, paid.eventId, true, recovered, None));
    }

    var resolved := paid.caseId;
    if resolved.GetOr("") == "" {
      resolved := session.FindCaseIdByPlink(paid.paymentLinkId);
    }
    if resolved.None? {
      return Err(NoCaseForLink);
    }
    var cid := resolved.value;
    if cid !in session.cases {
      return Err(CaseNotFound);
    }

    ghost var db := session.View();
    var seqNo := session.AppendLedger(PaidRow(cid, paid));
    if !session.cases[cid].status.Recovered? {
      var _ := session.AppendLedger(PaidOutcomeRow(cid, paid));
      ApplyStop(session, cid, WasRecovered);
    }
    assert session.ledger == db.ledger + PaidRows(db, paid);
    assert db.cases[cid := db.cases[cid]] == db.cases;
    session.processed := session.processed[paid.eventId := cid];
    return Ok(IntakeResult(cid, paid.eventId, false, true, Some(seqNo)));
  }
}
