/**
 Idempotent delivery over whole runs: processed ids and event rows are in bijection, every
 case's trail opens with its one ingest event, and repeated deliveries change nothing.
 */
module Deliveries {
  import opened Wrappers
  import opened Gates
  import opened Ledger
  import opened Machine

  predicate IsIngestRow(r: Row) {
    r.kind.Event? && r.payload.razorpayEvent.None?
  }

  // Row i is the case's first row, an ingest event, and the case has no other ingest event.
  predicate Opens(ledger: seq<Row>, i: nat, caseId: string) {
    && i < |ledger| && ledger[i].caseId == caseId && IsIngestRow(ledger[i])
    && forall j :: 0 <= j < |ledger| && j != i && ledger[j].caseId == caseId ==> i < j && !IsIngestRow(ledger[j])
  }

  predicate RowsHaveCases(db: Db) {
    forall i :: 0 <= i < |db.ledger| ==> db.ledger[i].caseId in db.cases
  }

  predicate Records(r: Row, id: string) {
    r.kind.Event? && r.payload.eventId == Some(id)
  }

  // An event row's id is booked to the row's own case.
  predicate Booked(r: Row, processed: map<string, string>) {
    r.kind.Event? ==>
      && r.payload.eventId.Some? && r.payload.eventId.value in processed
      && processed[r.payload.eventId.value] == r.caseId
  }

  predicate EventsBooked(db: Db) {
    forall i :: 0 <= i < |db.ledger| ==> Booked(db.ledger[i], db.processed)
  }

  // Row i is the only event row under the id.
  predicate OnlyRecord(ledger: seq<Row>, i: nat, id: string) {
    && i < |ledger| && Records(ledger[i], id)
    && forall j :: 0 <= j < |ledger| && j != i ==> !Records(ledger[j], id)
  }

  ghost predicate ProcessedRecorded(db: Db) {
    forall id :: id in db.processed ==> exists i: nat :: OnlyRecord(db.ledger, i, id)
  }

  ghost predicate CasesOpened(db: Db) {
    forall c :: c in db.cases ==> exists i: nat :: Opens(db.ledger, i, c)
  }

  ghost predicate DeliveryInv(db: Db) {
    RowsHaveCases(db) && EventsBooked(db) && ProcessedRecorded(db) && CasesOpened(db)
  }

  /******* Preservation *******/

  lemma OpensAppend(ledger: seq<Row>, rows: seq<Row>, i: nat, caseId: string)
    requires Opens(ledger, i, caseId)
    requires forall k :: 0 <= k < |rows| ==> rows[k].caseId == caseId ==> !IsIngestRow(rows[k])
    ensures Opens(ledger + rows, i, caseId)
  {
    var all := ledger + rows;
    forall j | 0 <= j < |all| && j != i && all[j].caseId == caseId
      ensures i < j && !IsIngestRow(all[j])
    {
      if j >= |ledger| { assert all[j] == rows[j - |ledger|]; }
    }
  }

  lemma OnlyRecordAppend(ledger: seq<Row>, rows: seq<Row>, i: nat, id: string)
    requires OnlyRecord(ledger, i, id)
    requires forall k :: 0 <= k < |rows| ==> !Records(rows[k], id)
    ensures OnlyRecord(ledger + rows, i, id)
  {
    var all := ledger + rows;
    forall j | 0 <= j < |all| && j != i
      ensures !Records(all[j], id)
    {
      if j >= |ledger| { assert all[j] == rows[j - |ledger|]; }
    }
  }

  lemma BookedAppend(db: Db, db': Db, rows: seq<Row>)
    requires RowsHaveCases(db) && EventsBooked(db)
    requires db'.ledger == db.ledger + rows && db.cases.Keys <= db'.cases.Keys
    requires forall id :: id in db.processed ==> id in db'.processed && db'.processed[id] == db.processed[id]
    requires forall k :: 0 <= k < |rows| ==> rows[k].caseId in db'.cases && Booked(rows[k], db'.processed)
    ensures RowsHaveCases(db') && EventsBooked(db')
  {
    forall i | 0 <= i < |db'.ledger|
      ensures db'.ledger[i].caseId in db'.cases && Booked(db'.ledger[i], db'.processed)
    {
      if i < |db.ledger| {
        assert db'.ledger[i] == db.ledger[i] && Booked(db.ledger[i], db.processed);
      } else {
        assert db'.ledger[i] == rows[i - |db.ledger|];
      }
    }
  }

  // Appending rows of known cases that are not events, with no new case and no new id.
  lemma QuietAppend(db: Db, db': Db, rows: seq<Row>)
    requires DeliveryInv(db)
    requires db'.ledger == db.ledger + rows && db'.processed == db.processed && db'.cases.Keys == db.cases.Keys
    requires forall k :: 0 <= k < |rows| ==> rows[k].caseId in db.cases && !rows[k].kind.Event?
    ensures DeliveryInv(db')
  {
    BookedAppend(db, db', rows);
    forall id | id in db'.processed
      ensures exists i: nat :: OnlyRecord(db'.ledger, i, id)
    {
      var i: nat :| OnlyRecord(db.ledger, i, id);
      OnlyRecordAppend(db.ledger, rows, i, id);
    }
    forall c | c in db'.cases
      ensures exists i: nat :: Opens(db'.ledger, i, c)
    {
      var i: nat :| Opens(db.ledger, i, c);
      OpensAppend(db.ledger, rows, i, c);
    }
  }

  lemma RecordsAfterEvent(db: Db, r: Row, id: string, k: string)
    requires EventsBooked(db) && ProcessedRecorded(db)
    requires id !in db.processed && Records(r, id)
    requires k in db.processed || k == id
    ensures exists i: nat :: OnlyRecord(db.ledger + [r], i, k)
  {
    var n := |db.ledger|;
    if k == id {
      forall j | 0 <= j < n
        ensures !Records((db.ledger + [r])[j], id)
      {
        assert Booked(db.ledger[j], db.processed);
      }
      assert OnlyRecord(db.ledger + [r], n, k);
    } else {
      var i: nat :| OnlyRecord(db.ledger, i, k);
      OnlyRecordAppend(db.ledger, [r], i, k);
    }
  }

  lemma OpensAfterEvent(db: Db, r: Row, c: string)
    requires RowsHaveCases(db) && CasesOpened(db)
    requires IsIngestRow(r) <==> r.caseId !in db.cases
    requires c in db.cases || c == r.caseId
    ensures exists i: nat :: Opens(db.ledger + [r], i, c)
  {
    if c in db.cases {
      var i: nat :| Opens(db.ledger, i, c);
      OpensAppend(db.ledger, [r], i, c);
    } else {
      assert Opens(db.ledger + [r], |db.ledger|, c);
    }
  }

  // Appending one event row under a fresh id, for a case that is known or is just being opened.
  lemma EventAppend(db: Db, db': Db, r: Row, id: string)
    requires DeliveryInv(db)
    requires id !in db.processed && Records(r, id)
    requires db'.ledger == db.ledger + [r] && db'.processed == db.processed[id := r.caseId]
    requires db'.cases.Keys == db.cases.Keys + {r.caseId}
    requires IsIngestRow(r) <==> r.caseId !in db.cases
    ensures DeliveryInv(db')
  {
    BookedAppend(db, db', [r]);
    forall k | k in db'.processed
      ensures exists i: nat :: OnlyRecord(db'.ledger, i, k)
    {
      RecordsAfterEvent(db, r, id, k);
    }
    forall c | c in db'.cases
      ensures exists i: nat :: Opens(db'.ledger, i, c)
    {
      OpensAfterEvent(db, r, c);
    }
  }

  lemma IngestKeepsDelivery(db: Db, ev: RiskEvent, newId: string)
    requires DeliveryInv(db)
    ensures DeliveryInv(IngestedDb(db, ev, newId))
  {
    if ev.eventId !in db.processed && newId !in db.cases {
      EventAppend(db, IngestedDb(db, ev, newId), RiskRow(newId, ev), ev.eventId);
    }
  }

  // An event row for a known case, followed by quiet rows.
  lemma EventBatch(db: Db, db': Db, r: Row, quiet: seq<Row>, id: string)
    requires DeliveryInv(db)
    requires id !in db.processed && Records(r, id) && !IsIngestRow(r)
    requires r.caseId in db.cases && db'.cases.Keys == db.cases.Keys
    requires forall k :: 0 <= k < |quiet| ==> quiet[k].caseId in db.cases && !quiet[k].kind.Event?
    requires db'.ledger == db.ledger + [r] + quiet && db'.processed == db.processed[id := r.caseId]
    ensures DeliveryInv(db')
  {
    var mid := Db(db.cases, db.ledger + [r], db'.processed);
    assert db.cases.Keys + {r.caseId} == db.cases.Keys;
    EventAppend(db, mid, r, id);
    QuietAppend(mid, db', quiet);
  }

  // The rows after the paid event's own.
  function PaidTail(db: Db, paid: PaidEvent): seq<Row>
    requires Payable(db, paid)
  {
    var cid := ResolvedCase(db, paid).value;
    if db.cases[cid].status.Recovered? then [] else [PaidOutcomeRow(cid, paid), StopRowOf(cid, WasRecovered)]
  }

  lemma PaidParts(db: Db, paid: PaidEvent)
    requires Payable(db, paid)
    ensures var cid, db' := ResolvedCase(db, paid).value, PaidDb(db, paid);
            && db'.ledger == db.ledger + [PaidRow(cid, paid)] + PaidTail(db, paid)
            && db'.processed == db.processed[paid.eventId := cid]
            && db'.cases.Keys == db.cases.Keys
            && forall k :: 0 <= k < |PaidTail(db, paid)| ==> PaidTail(db, paid)[k].caseId == cid && !PaidTail(db, paid)[k].kind.Event?
  {
  }

  lemma PaidKeepsDelivery(db: Db, paid: PaidEvent)
    requires DeliveryInv(db)
    ensures DeliveryInv(PaidDb(db, paid))
  {
    if Payable(db, paid) {
      PaidParts(db, paid);
      EventBatch(db, PaidDb(db, paid), PaidRow(ResolvedCase(db, paid).value, paid), PaidTail(db, paid), paid.eventId);
    }
  }

  lemma GuardedKeepsDelivery(db: Db, caseId: string, ctx: Context, executor: Option<Outcome>)
    requires DeliveryInv(db) && caseId in db.cases
    ensures DeliveryInv(GuardedDb(db, caseId, ctx, executor))
  {
    GuardedRowsOfCase(db, caseId, ctx, executor);
    var rows, db' := GuardedRows(db, caseId, ctx, executor), GuardedDb(db, caseId, ctx, executor);
    assert db'.cases.Keys == db.cases.Keys;
    QuietAppend(db, db', rows);
  }

  lemma StepKeepsDelivery(db: Db, input: Input)
    requires DeliveryInv(db)
    ensures DeliveryInv(Step(db, input))
  {
    match input
    case Ingest(ev, newId) => IngestKeepsDelivery(db, ev, newId);
    case Paid(paid) => PaidKeepsDelivery(db, paid);
    case Guarded(cid, ctx, executor) =>
      if cid in db.cases {
        GuardedKeepsDelivery(db, cid, ctx, executor);
      }
    case Foreign(cid, kind, action, reason) =>
      if cid in db.cases && IsForeignKind(kind) {
        QuietAppend(db, Step(db, input), [ForeignRow(cid, kind, action, reason)]);
      }
  }

  lemma {:induction false} RunKeepsDelivery(db: Db, inputs: seq<Input>)
    requires DeliveryInv(db)
    ensures DeliveryInv(Run(db, inputs))
    decreases |inputs|
  {
    if inputs != [] {
      StepKeepsDelivery(db, inputs[0]);
      RunKeepsDelivery(Step(db, inputs[0]), inputs[1..]);
    }
  }

  /******* Main results *******/

  /** After any run, each processed id has exactly one event row, on the case it is booked to,
      and each event row's id is processed. */
  lemma ProcessedEventsBijection(inputs: seq<Input>)
    ensures var db := Run(EMPTY_DB, inputs);
            && (forall id :: id in db.processed ==>
                  exists i: nat :: OnlyRecord(db.ledger, i, id) && db.ledger[i].caseId == db.processed[id])
            && (forall i :: 0 <= i < |db.ledger| && db.ledger[i].kind.Event? ==>
                  db.ledger[i].payload.eventId.Some? && db.ledger[i].payload.eventId.value in db.processed)
  {
    RunKeepsDelivery(EMPTY_DB, inputs);
    var db := Run(EMPTY_DB, inputs);
    forall id | id in db.processed
      ensures exists i: nat :: OnlyRecord(db.ledger, i, id) && db.ledger[i].caseId == db.processed[id]
    {
      var i: nat :| OnlyRecord(db.ledger, i, id);
      assert Booked(db.ledger[i], db.processed);
    }
    forall i | 0 <= i < |db.ledger| && db.ledger[i].kind.Event?
      ensures db.ledger[i].payload.eventId.Some? && db.ledger[i].payload.eventId.value in db.processed
    {
      assert Booked(db.ledger[i], db.processed);
    }
  }

  lemma OpenedTrail(ledger: seq<Row>, i: nat, caseId: string)
    requires Opens(ledger, i, caseId)
    ensures var trail := Trail(ledger, caseId);
            trail != [] && IsIngestRow(trail[0]) && forall k :: 1 <= k < |trail| ==> !IsIngestRow(trail[k])
  {
    var before, after := ledger[..i], ledger[i + 1..];
    TrailOfOtherCase(before, caseId);
    assert ledger[i..i + 1] == [ledger[i]];
    TrailAroundSlice(ledger, i, i + 1, caseId);
    var trail, rest := Trail(ledger, caseId), Trail(after, caseId);
    assert trail == [ledger[i]] + rest;
    forall k | 1 <= k < |trail|
      ensures !IsIngestRow(trail[k])
    {
      assert trail[k] == rest[k - 1];
      TrailMembers(after, caseId, rest[k - 1]);
      var j :| 0 <= j < |after| && after[j] == rest[k - 1];
      assert after[j] == ledger[i + 1 + j];
    }
  }

  /** After any run, the trail of every case starts with an ingest event and holds no other,
      and every row belongs to a case. */
  lemma TrailsOpenWithIngest(inputs: seq<Input>, caseId: string)
    ensures var db := Run(EMPTY_DB, inputs);
            var trail := Trail(db.ledger, caseId);
            && (caseId in db.cases <==> trail != [])
            && (trail != [] ==> IsIngestRow(trail[0]))
            && forall i :: 1 <= i < |trail| ==> !IsIngestRow(trail[i])
  {
    RunKeepsDelivery(EMPTY_DB, inputs);
    var db := Run(EMPTY_DB, inputs);
    if caseId in db.cases {
      var i: nat :| Opens(db.ledger, i, caseId);
      OpenedTrail(db.ledger, i, caseId);
    } else {
      TrailOfOtherCase(db.ledger, caseId);
    }
  }

  /******* Dropping repeated deliveries *******/

  // Risk events and paid events share one id space.
  function DeliveryId(input: Input): Option<string> {
    match input
    case Ingest(ev, _) => Some(ev.eventId)
    case Paid(paid) => Some(paid.eventId)
    case _ => None
  }

  predicate Repeated(db: Db, input: Input) {
    DeliveryId(input).Some? && DeliveryId(input).value in db.processed
  }

  lemma RepeatChangesNothing(db: Db, input: Input)
    requires Repeated(db, input)
    ensures Step(db, input) == db && Emitted(db, input) == []
  {
  }

  lemma StepKeepsProcessed(db: Db, input: Input)
    ensures db.processed.Keys <= Step(db, input).processed.Keys
    ensures forall id :: id in db.processed ==> Step(db, input).processed[id] == db.processed[id]
  {
  }

  // One choice per input: whether the redelivery channel lets it through.
  function Kept(inputs: seq<Input>, keep: seq<bool>): seq<Input>
    requires |keep| == |inputs|
  {
    if inputs == [] then []
    else (if keep[0] then [inputs[0]] else []) + Kept(inputs[1..], keep[1..])
  }

  // Whatever is dropped at position j repeats an id accepted somewhere before j.
  ghost predicate OnlyRepeatsDropped(db: Db, inputs: seq<Input>, keep: seq<bool>)
    requires |keep| == |inputs|
  {
    forall j :: 0 <= j < |inputs| && !keep[j] ==> Repeated(Run(db, inputs[..j]), inputs[j])
  }

  /** Dropping any deliveries whose id had already been accepted leaves the final database as it was. */
  lemma {:induction false} RedeliveryIsHarmless(db: Db, inputs: seq<Input>, keep: seq<bool>)
    requires |keep| == |inputs|
    requires OnlyRepeatsDropped(db, inputs, keep)
    ensures Run(db, Kept(inputs, keep)) == Run(db, inputs)
    decreases |inputs|
  {
    if inputs != [] {
      var db' := Step(db, inputs[0]);
      forall j | 0 <= j < |inputs[1..]| && !keep[1..][j]
        ensures Repeated(Run(db', inputs[1..][..j]), inputs[1..][j])
      {
        assert Repeated(Run(db, inputs[..j + 1]), inputs[j + 1]);
        assert inputs[..j + 1][0] == inputs[0];
        assert inputs[..j + 1][1..] == inputs[1..][..j];
      }
      RedeliveryIsHarmless(db', inputs[1..], keep[1..]);
      var rest := Kept(inputs[1..], keep[1..]);
      if keep[0] {
        assert Kept(inputs, keep) == [inputs[0]] + rest;
        assert ([inputs[0]] + rest)[1..] == rest;
      } else {
        assert Kept(inputs, keep) == rest;
        assert inputs[..0] == [];
        assert Repeated(Run(db, []), inputs[0]);
        RepeatChangesNothing(db, inputs[0]);
      }
    }
  }

  /** Once accepted, always a repeat: later deliveries under the same id are droppable. */
  lemma {:induction false} AcceptedStaysAccepted(db: Db, inputs: seq<Input>, id: string)
    requires id in db.processed
    ensures id in Run(db, inputs).processed && Run(db, inputs).processed[id] == db.processed[id]
    decreases |inputs|
  {
    if inputs != [] {
      StepKeepsProcessed(db, inputs[0]);
      AcceptedStaysAccepted(Step(db, inputs[0]), inputs[1..], id);
    }
  }
}
