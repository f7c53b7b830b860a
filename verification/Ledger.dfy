/**
 The database: mutable case rows, the append-only ledger and the processed-events table
 (ledger/models.py), with the write helpers (ledger/writer.py) and the readers that rebuild
 state from the log (ledger/reader.py).
 */
module Ledger {
  import opened Wrappers
  import opened Policy
  import opened Fingerprint
  import opened Gates

  datatype CaseStatus = Open | Blocked | Stopped | Recovered

  // guard/stops.py's closed set of reasons.
  datatype StopReason = WasRecovered | MandateRevoked | AttemptsExhausted | OptOut | HumanOverride

  datatype LedgerKind =
    | Event | Classification | Decision | GateCheckRow | ActionRow | OutcomeRow | StopRow | MemoryRetrieval

  datatype CaseRow = CaseRow(
    status: CaseStatus,
    attemptsUsed: nat,
    contactsUsed: nat,
    stopReason: Option<StopReason>,
    lastAction: Option<ActionVerb>,
    payerRef: string,
    amountPaise: nat)

  // What an executor reports back (execute/base.py), or what the paid webhook records as outcome.
  datatype OutcomeStatus = Done | Failed | Skipped | CreatedLink | Escalated | ReconciledSkip | PaidLink

  datatype Outcome = Outcome(ok: bool, externalId: Option<string>, recovered: bool, status: OutcomeStatus)

  // The JSON object of a dumped Action, as far as the replay looks into it.
  datatype StoredAction = StoredAction(
    verb: Option<ActionVerb>, dayOffset: Option<nat>, channel: Option<Channel>, reasonCode: Option<string>)

  const EMPTY_OBJECT := StoredAction(None, None, None, None)

  function Dump(a: Action): StoredAction {
    StoredAction(Some(a.verb), a.dayOffset, Some(a.channel), Some(a.reasonCode))
  }

  // The key recomposed from a stored action, with the defaults the replay uses for absent fields.
  function Recompose(caseId: string, a: StoredAction): string {
    Compose(caseId,
            if a.verb.Some? then VerbValue(a.verb.value) else "",
            a.dayOffset,
            if a.channel.Some? then ChannelValue(a.channel.value) else "none",
            a.reasonCode.GetOr(""))
  }

  // The JSON keys of a ledger payload that matter here; None is an absent key.  `outcome` is the
  // dumped Outcome: an outcome row's own payload, or an action row's `execute_result`.
  datatype Payload = Payload(
    eventId: Option<string>,
    razorpayEvent: Option<string>,
    verdict: Option<bool>,
    actionFingerprint: Option<string>,
    action: Option<StoredAction>,
    outcome: Option<Outcome>,
    externalId: Option<string>,
    stopReason: Option<StopReason>)

  const EMPTY_PAYLOAD := Payload(None, None, None, None, None, None, None, None)

  // A row's reason code: a gate's code, a stop reason, an outcome's status, a verb's value, the
  // webhook's event name "payment_link.paid", or free text.
  datatype Reason =
    | OfGate(code: GateCode) | OfStop(stop: StopReason) | OfStatus(status: OutcomeStatus)
    | OfVerb(verb: ActionVerb) | OfPaidWebhook | Text(text: string)

  datatype Row = Row(
    caseId: string,
    kind: LedgerKind,
    payload: Payload,
    reason: Reason,
    gateName: Option<GateName>,
    gatePassed: Option<bool>)

  // The database as a value.  A row's sequence number is its position plus one.
  datatype Db = Db(cases: map<string, CaseRow>, ledger: seq<Row>, processed: map<string, string>)

  const EMPTY_DB := Db(map[], [], map[])

  /******* Reading the log *******/

  // The trail of a case: its rows in the order they were written.
  function Trail(ledger: seq<Row>, caseId: string): seq<Row> {
    if ledger == [] then []
    else
      var rest := Trail(ledger[..|ledger| - 1], caseId);
      var last := ledger[|ledger| - 1];
      if last.caseId == caseId then rest + [last] else rest
  }

  lemma {:induction false} TrailAppend(l: seq<Row>, m: seq<Row>, caseId: string)
    ensures Trail(l + m, caseId) == Trail(l, caseId) + Trail(m, caseId)
  {
    if m == [] {
      assert l + m == l;
    } else {
      assert (l + m)[..|l + m| - 1] == l + m[..|m| - 1];
      TrailAppend(l, m[..|m| - 1], caseId);
    }
  }

  lemma {:induction false} TrailOfOneCase(l: seq<Row>, caseId: string)
    requires forall i :: 0 <= i < |l| ==> l[i].caseId == caseId
    ensures Trail(l, caseId) == l
  {
    if l != [] {
      TrailOfOneCase(l[..|l| - 1], caseId);
    }
  }

  lemma {:induction false} TrailOfOtherCase(l: seq<Row>, caseId: string)
    requires forall i :: 0 <= i < |l| ==> l[i].caseId != caseId
    ensures Trail(l, caseId) == []
  {
    if l != [] {
      TrailOfOtherCase(l[..|l| - 1], caseId);
    }
  }

  /** A trail holds exactly the rows of its case. */
  lemma {:induction false} TrailMembers(l: seq<Row>, caseId: string, r: Row)
    ensures r in Trail(l, caseId) <==> r in l && r.caseId == caseId
  {
    if l != [] {
      TrailMembers(l[..|l| - 1], caseId, r);
      assert l == l[..|l| - 1] + [l[|l| - 1]];
    }
  }

  lemma TrailOfThree(a: seq<Row>, b: seq<Row>, c: seq<Row>, caseId: string)
    ensures Trail(a + b + c, caseId) == Trail(a, caseId) + Trail(b, caseId) + Trail(c, caseId)
  {
    TrailAppend(a, b, caseId);
    TrailAppend(a + b, c, caseId);
  }

  // A slice about one case is contiguous in that case's trail.
  lemma TrailAroundSlice(l: seq<Row>, from: nat, to: nat, caseId: string)
    requires from <= to <= |l|
    requires forall r :: r in l[from..to] ==> r.caseId == caseId
    ensures Trail(l, caseId) == Trail(l[..from], caseId) + l[from..to] + Trail(l[to..], caseId)
  {
    TrailOfOneCase(l[from..to], caseId);
    TrailOfThree(l[..from], l[from..to], l[to..], caseId);
    assert l == l[..from] + l[from..to] + l[to..];
  }

  // The key a ledger row contributes to the replay, if any (executed_fingerprints' loop body).
  function RowFingerprint(r: Row): Option<string> {
    if r.payload.actionFingerprint.GetOr("") != "" then r.payload.actionFingerprint
    else
      match r.payload.action
      case None => None
      case Some(a) => if a == EMPTY_OBJECT then None else Some(Recompose(r.caseId, a))
  }

  predicate Contributes(r: Row, caseId: string, key: string) {
    r.caseId == caseId && r.kind.ActionRow? && RowFingerprint(r) == Some(key)
  }

  function Replay(ledger: seq<Row>, caseId: string): set<string> {
    set i | 0 <= i < |ledger| && Contributes(ledger[i], caseId, RowFingerprint(ledger[i]).GetOr(""))
      :: RowFingerprint(ledger[i]).GetOr("")
  }

  lemma ReplayMembers(ledger: seq<Row>, caseId: string, key: string)
    ensures key in Replay(ledger, caseId) <==> exists i :: 0 <= i < |ledger| && Contributes(ledger[i], caseId, key)
  {
    if i :| 0 <= i < |ledger| && Contributes(ledger[i], caseId, key) {
      assert RowFingerprint(ledger[i]).GetOr("") == key;
    }
  }

  /** Recomposing the key from a dumped action gives the live context's key, byte for byte. */
  lemma ReplayRecomposesLiveKey(r: Row, a: Action)
    requires r.payload.action == Some(Dump(a)) && r.payload.actionFingerprint.GetOr("") == ""
    ensures RowFingerprint(r) == Some(FingerprintAction(r.caseId, a))
  {
  }

  predicate IsPlinkOutcome(r: Row, plinkId: string) {
    r.kind.OutcomeRow? && r.payload.externalId.GetOr("") == plinkId
  }

  // The most recent outcome row with the given external id decides the case.
  function PlinkCase(ledger: seq<Row>, plinkId: string): Option<string> {
    if ledger == [] then None
    else if IsPlinkOutcome(ledger[|ledger| - 1], plinkId) then Some(ledger[|ledger| - 1].caseId)
    else PlinkCase(ledger[..|ledger| - 1], plinkId)
  }

  lemma {:induction false} PlinkCaseIsLatest(ledger: seq<Row>, plinkId: string)
    ensures PlinkCase(ledger, plinkId).None? <==> forall i :: 0 <= i < |ledger| ==> !IsPlinkOutcome(ledger[i], plinkId)
    ensures PlinkCase(ledger, plinkId).Some? ==>
              exists i :: 0 <= i < |ledger| && IsPlinkOutcome(ledger[i], plinkId)
                          && PlinkCase(ledger, plinkId) == Some(ledger[i].caseId)
                          && forall j :: i < j < |ledger| ==> !IsPlinkOutcome(ledger[j], plinkId)
  {
    if ledger != [] {
      var n := |ledger| - 1;
      if !IsPlinkOutcome(ledger[n], plinkId) {
        PlinkCaseIsLatest(ledger[..n], plinkId);
        if PlinkCase(ledger, plinkId).Some? {
          var i :| 0 <= i < n && IsPlinkOutcome(ledger[..n][i], plinkId)
                   && PlinkCase(ledger[..n], plinkId) == Some(ledger[..n][i].caseId)
                   && forall j :: i < j < n ==> !IsPlinkOutcome(ledger[..n][j], plinkId);
          forall j | i < j < |ledger|
            ensures !IsPlinkOutcome(ledger[j], plinkId)
          {
            if j < n { assert ledger[..n][j] == ledger[j]; }
          }
          assert IsPlinkOutcome(ledger[i], plinkId);
        } else {
          assert forall j :: 0 <= j < n ==> ledger[..n][j] == ledger[j];
        }
      }
    }
  }

  /******* The session *******/

  class Session {
    var cases: map<string, CaseRow>
    var ledger: seq<Row>
    var processed: map<string, string>

    constructor ()
      ensures View() == EMPTY_DB
    {
      cases, ledger, processed := map[], [], map[];
    }

    function View(): Db
      reads this
    {
      Db(cases, ledger, processed)
    }

    /** append_ledger: one immutable fact at the end; returns its sequence number. */
    method AppendLedger(r: Row) returns (seqNo: nat)
      modifies this`ledger
      ensures ledger == old(ledger) + [r]
      ensures seqNo == |ledger| && ledger[seqNo - 1] == r
    {
      ledger := ledger + [r];
      seqNo := |ledger|;
    }

    /** executed_fingerprints: one pass over the case's action rows. */
    method ExecutedFingerprints(caseId: string) returns (found: set<string>)
      ensures found == Replay(ledger, caseId)
    {
      found := {};
      for i := 0 to |ledger|
        invariant forall key :: key in found <==> exists j :: 0 <= j < i && Contributes(ledger[j], caseId, key)
      {
        var r := ledger[i];
        if r.caseId == caseId && r.kind.ActionRow? {
          var stored := r.payload.actionFingerprint.GetOr("");
          if stored != "" {
            found := found + {stored};
          } else {
            match r.payload.action
            case None =>
            case Some(a) =>
              if a != EMPTY_OBJECT {
                found := found + {Recompose(r.caseId, a)};
              }
          }
        }
        assert forall key :: Contributes(r, caseId, key) <==> r.caseId == caseId && r.kind.ActionRow? && RowFingerprint(r) == Some(key);
      }
      forall key
        ensures key in found <==> key in Replay(ledger, caseId)
      {
        ReplayMembers(ledger, caseId, key);
      }
    }

    /** find_case_id_by_plink: newest outcome row first. */
    method FindCaseIdByPlink(plinkId: string) returns (caseId: Option<string>)
      ensures caseId == PlinkCase(ledger, plinkId)
    {
      var i := |ledger|;
      assert ledger[..i] == ledger;
      while i > 0
        invariant 0 <= i <= |ledger|
        invariant PlinkCase(ledger[..i], plinkId) == PlinkCase(ledger, plinkId)
      {
        assert ledger[..i][..i - 1] == ledger[..i - 1];
        i := i - 1;
        if ledger[i].kind.OutcomeRow? && ledger[i].payload.externalId.GetOr("") == plinkId {
          return Some(ledger[i].caseId);
        }
      }
      return None;
    }

    /** list_ledger: the full ordered trail of a case. */
    method ListLedger(caseId: string) returns (views: seq<Row>)
      ensures views == Trail(ledger, caseId)
    {
      views := [];
      for i := 0 to |ledger|
        invariant views == Trail(ledger[..i], caseId)
      {
        assert ledger[..i + 1][..i] == ledger[..i];
        if ledger[i].caseId == caseId {
          views := views + [ledger[i]];
        }
      }
      assert ledger[..|ledger|] == ledger;
    }
  }
}
