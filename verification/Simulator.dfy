/**
 Playing a plan against the hidden payer model (eval/simulate.py, eval/payer_model.py).
 The dice are an arbitrary stream of numbers; a retry that cannot be funded rolls none.
 */
module Simulator {
  import opened Wrappers
  import opened SimTypes

  /******* Dice and fatigue *******/

  // random.Random: each call of random() consumes the next number.
  class Dice {
    const stream: nat -> real
    var cursor: nat

    constructor (stream: nat -> real)
      ensures this.stream == stream && cursor == 0
    {
      this.stream := stream;
      cursor := 0;
    }

    method Random() returns (v: real)
      modifies this
      ensures v == stream(old(cursor)) && cursor == old(cursor) + 1
    {
      v := stream(cursor);
      cursor := cursor + 1;
    }
  }

  function Fatigue(contacts: nat): real {
    if contacts == 0 then 1.0 else 0.55 * Fatigue(contacts - 1)
  }

  function ResponseProb(base: real, contacts: nat): real {
    base * Fatigue(contacts)
  }

  class FatigueState {
    var contactsSoFar: nat

    constructor ()
      ensures contactsSoFar == 0
    {
      contactsSoFar := 0;
    }
  }

  /******* The payer model *******/

  // Day-of-month arithmetic on the 28-day circle; Python's % and Dafny's agree for the modulus 28.
  function OnCircle(dom: int): int {
    (dom - 1) % 28 + 1
  }

  function CreditWindow(credit: int): set<int> {
    {credit, credit % 28 + 1, (credit + 1) % 28 + 1}
  }

  predicate FundsAvailableOnDay(c: SimCase, absoluteDom: int) {
    if c.reason.IssuerTransient? || c.reason.GatewayTimeout? || c.reason.RiskFraud? then true
    else c.instrumentValid && OnCircle(absoluteDom) in CreditWindow(c.trueCreditDay)
  }

  // Whether a retry on this day gets as far as rolling the dice.
  predicate RetryRolls(c: SimCase, dayOffset: nat) {
    && !RecoveryClassFor(c.reason).CustomerAction?
    && c.instrumentValid
    && FundsAvailableOnDay(c, c.failureDom + dayOffset)
  }

  /** try_retry: structurally dead, invalid or unfunded retries fail without a roll. */
  method TryRetry(dice: Dice, c: SimCase, dayOffset: nat) returns (ok: bool)
    modifies dice
    ensures dice.cursor == old(dice.cursor) + if RetryRolls(c, dayOffset) then 1 else 0
    ensures ok <==> RetryRolls(c, dayOffset) && dice.stream(old(dice.cursor)) < c.retryProb
  {
    if RecoveryClassFor(c.reason) == CustomerAction {
      return false;
    }
    if !c.instrumentValid {
      return false;
    }
    if !FundsAvailableOnDay(c, c.failureDom + dayOffset) {
      return false;
    }
    var v := dice.Random();
    return v < c.retryProb;
  }

  /** try_contact: the response probability falls with every earlier contact. */
  method TryContact(dice: Dice, c: SimCase, fatigue: FatigueState) returns (ok: bool)
    modifies dice, fatigue
    ensures dice.cursor == old(dice.cursor) + 1 && fatigue.contactsSoFar == old(fatigue.contactsSoFar) + 1
    ensures ok <==> dice.stream(old(dice.cursor)) < ResponseProb(c.contactProb, old(fatigue.contactsSoFar))
  {
    var p := ResponseProb(c.contactProb, fatigue.contactsSoFar);
    fatigue.contactsSoFar := fatigue.contactsSoFar + 1;
    var v := dice.Random();
    return v < p;
  }

  /******* What playing a plan means *******/

  function RetriesIn(acts: seq<PlannedAction>): nat {
    if acts == [] then 0
    else RetriesIn(acts[..|acts| - 1]) + if IsRetry(acts[|acts| - 1].verb) then 1 else 0
  }

  function ContactsIn(acts: seq<PlannedAction>): nat {
    if acts == [] then 0
    else ContactsIn(acts[..|acts| - 1]) + if IsContact(acts[|acts| - 1].verb) then 1 else 0
  }

  predicate Rolls(c: SimCase, a: PlannedAction) {
    IsContact(a.verb) || (IsRetry(a.verb) && RetryRolls(c, a.dayOffset))
  }

  function RollsIn(c: SimCase, acts: seq<PlannedAction>): nat {
    if acts == [] then 0
    else RollsIn(c, acts[..|acts| - 1]) + if Rolls(c, acts[|acts| - 1]) then 1 else 0
  }

  // Action k would recover the case, supposing all earlier ones failed.
  predicate Wins(c: SimCase, acts: seq<PlannedAction>, stream: nat -> real, k: nat)
    requires k < |acts|
  {
    var v := stream(RollsIn(c, acts[..k]));
    && Rolls(c, acts[k])
    && v < if IsRetry(acts[k].verb) then c.retryProb else ResponseProb(c.contactProb, ContactsIn(acts[..k]))
  }

  /** The first winning action from k on, if any. */
  function FirstWin(c: SimCase, acts: seq<PlannedAction>, stream: nat -> real, k: nat): (w: Option<nat>)
    requires k <= |acts|
    ensures w.None? ==> forall j :: k <= j < |acts| ==> !Wins(c, acts, stream, j)
    ensures w.Some? ==> k <= w.value < |acts| && Wins(c, acts, stream, w.value)
                        && forall j :: k <= j < w.value ==> !Wins(c, acts, stream, j)
    decreases |acts| - k
  {
    if k == |acts| then None
    else if Wins(c, acts, stream, k) then Some(k)
    else FirstWin(c, acts, stream, k + 1)
  }

  // The actions played: up to and including the first winner, or all of them.
  function Played(c: SimCase, acts: seq<PlannedAction>, stream: nat -> real): seq<PlannedAction> {
    match FirstWin(c, acts, stream, 0)
    case None => acts
    case Some(k) => acts[..k + 1]
  }

  function Waste(c: SimCase, retries: nat): nat {
    if RecoveryClassFor(c.reason).CustomerAction? then retries else 0
  }

  function NoteOf(a: PlannedAction, ok: bool): Note {
    match a.verb
    case Retry => RetryNote(a.dayOffset, ok)
    case PaymentLink => ContactNote(a.dayOffset, ok)
    case GenericNag => ContactNote(a.dayOffset, ok)
    case Noop => NoopNote(a.dayOffset)
  }

  // One note per played action; only the last one can say ok.
  function NotesOf(acts: seq<PlannedAction>, recovered: bool): seq<Note> {
    seq(|acts|, i requires 0 <= i < |acts| => NoteOf(acts[i], recovered && i == |acts| - 1))
  }

  function OutcomeOf(c: SimCase, played: seq<PlannedAction>, recovered: bool): CaseOutcome {
    CaseOutcome(c.caseKey, recovered, if recovered then c.amountPaise else 0,
                ContactsIn(played), RetriesIn(played), Waste(c, RetriesIn(played)), false, NotesOf(played, recovered))
  }

  function CaseResult(c: SimCase, plan: seq<PlannedAction>, stream: nat -> real): CaseOutcome {
    var acts := SortByDay(plan);
    if acts == [] then
      var natural := stream(0) < c.naturalProb;
      CaseOutcome(c.caseKey, natural, if natural then c.amountPaise else 0, 0, 0, 0, natural,
                  [if natural then NaturalRecovery else NoActionNoNatural])
    else OutcomeOf(c, Played(c, acts, stream), FirstWin(c, acts, stream, 0).Some?)
  }

  function RollsUsed(c: SimCase, plan: seq<PlannedAction>, stream: nat -> real): nat {
    var acts := SortByDay(plan);
    if acts == [] then 1 else RollsIn(c, Played(c, acts, stream))
  }

  // What is left of a stream after `used` rolls.
  function From(stream: nat -> real, used: nat): nat -> real {
    (n: nat) => stream(used + n)
  }

  // The empty plan: one roll for a recovery without any action.
  method WaitAndSee(dice: Dice, c: SimCase) returns (out: CaseOutcome)
    modifies dice
    ensures out == CaseResult(c, [], From(dice.stream, old(dice.cursor)))
    ensures dice.cursor == old(dice.cursor) + 1
  {
    var v := dice.Random();
    if v < c.naturalProb {
      return CaseOutcome(c.caseKey, true, c.amountPaise, 0, 0, 0, true, [NaturalRecovery]);
    }
    return CaseOutcome(c.caseKey, false, 0, 0, 0, 0, false, [NoActionNoNatural]);
  }

  /** run_case: play the plan in chronological order and stop at the first recovery. */
  method RunCase(dice: Dice, c: SimCase, planFn: PlanFn) returns (out: CaseOutcome)
    modifies dice
    ensures out == CaseResult(c, planFn(c), From(dice.stream, old(dice.cursor)))
    ensures dice.cursor == old(dice.cursor) + RollsUsed(c, planFn(c), From(dice.stream, old(dice.cursor)))
  {
    var acts := SortByDay(planFn(c));
    ghost var used := dice.cursor;
    ghost var stream := From(dice.stream, used);
    var fatigue := new FatigueState();
    var contacts, retries, wasted := 0, 0, 0;
    var notes: seq<Note> := [];

    if acts == [] {
      out := WaitAndSee(dice, c);
      return;
    }

    for i := 0 to |acts|
      invariant FirstWin(c, acts, stream, 0) == FirstWin(c, acts, stream, i)
      invariant contacts == ContactsIn(acts[..i]) == fatigue.contactsSoFar
      invariant retries == RetriesIn(acts[..i]) && wasted == Waste(c, retries)
      invariant dice.cursor == used + RollsIn(c, acts[..i])
      invariant notes == NotesOf(acts[..i], false)
    {
      var action := acts[i];
      PrefixGrows(c, acts, i);
      var ok := false;
      if IsRetry(action.verb) {
        retries := retries + 1;
        if RecoveryClassFor(c.reason) == CustomerAction {
          wasted := wasted + 1;
        }
        ok := TryRetry(dice, c, action.dayOffset);
        notes := notes + [RetryNote(action.dayOffset, ok)];
      } else if IsContact(action.verb) {
        contacts := contacts + 1;
        ok := TryContact(dice, c, fatigue);
        notes := notes + [ContactNote(action.dayOffset, ok)];
      } else {
        notes := notes + [NoopNote(action.dayOffset)];
      }
      NotesGrow(acts, i, ok);
      assert ok <==> Wins(c, acts, stream, i);
      if ok {
        assert Played(c, acts, stream) == acts[..i + 1];
        return CaseOutcome(c.caseKey, true, c.amountPaise, contacts, retries, wasted, false, notes);
      }
    }
    assert acts[..|acts|] == acts;
    assert FirstWin(c, acts, stream, 0) == None;
    return CaseOutcome(c.caseKey, false, 0, contacts, retries, wasted, false, notes);
  }

  lemma {:induction false} FromStart(c: SimCase, plan: seq<PlannedAction>, stream: nat -> real)
    ensures CaseResult(c, plan, From(stream, 0)) == CaseResult(c, plan, stream)
  {
    var acts := SortByDay(plan);
    forall k | 0 <= k < |acts|
      ensures Wins(c, acts, From(stream, 0), k) <==> Wins(c, acts, stream, k)
    {
    }
  }

  lemma PrefixGrows(c: SimCase, acts: seq<PlannedAction>, i: nat)
    requires i < |acts|
    ensures RetriesIn(acts[..i + 1]) == RetriesIn(acts[..i]) + if IsRetry(acts[i].verb) then 1 else 0
    ensures ContactsIn(acts[..i + 1]) == ContactsIn(acts[..i]) + if IsContact(acts[i].verb) then 1 else 0
    ensures RollsIn(c, acts[..i + 1]) == RollsIn(c, acts[..i]) + if Rolls(c, acts[i]) then 1 else 0
  {
    assert acts[..i + 1][..i] == acts[..i];
  }

  lemma NotesGrow(acts: seq<PlannedAction>, i: nat, ok: bool)
    requires i < |acts|
    ensures NotesOf(acts[..i + 1], ok) == NotesOf(acts[..i], false) + [NoteOf(acts[i], ok)]
  {
  }

  /** run_batch: every case gets its own dice, whatever happened to the others. */
  method RunBatch(streams: string -> nat -> real, cases: seq<SimCase>, planFn: PlanFn) returns (outcomes: seq<CaseOutcome>)
    ensures outcomes == BatchResult(streams, cases, planFn)
  {
    outcomes := [];
    for i := 0 to |cases|
      invariant outcomes == BatchResult(streams, cases[..i], planFn)
    {
      var dice := new Dice(streams(cases[i].caseKey));
      var out := RunCase(dice, cases[i], planFn);
      FromStart(cases[i], planFn(cases[i]), dice.stream);
      outcomes := outcomes + [out];
    }
    assert cases[..|cases|] == cases;
  }

  function BatchResult(streams: string -> nat -> real, cases: seq<SimCase>, planFn: PlanFn): seq<CaseOutcome> {
    seq(|cases|, i requires 0 <= i < |cases| => CaseResult(cases[i], planFn(cases[i]), streams(cases[i].caseKey)))
  }

  /******* What an outcome tells *******/

  function RetryNotes(notes: seq<Note>): nat {
    if notes == [] then 0 else RetryNotes(notes[..|notes| - 1]) + if notes[|notes| - 1].RetryNote? then 1 else 0
  }

  function ContactNotes(notes: seq<Note>): nat {
    if notes == [] then 0 else ContactNotes(notes[..|notes| - 1]) + if notes[|notes| - 1].ContactNote? then 1 else 0
  }

  predicate SaysOk(n: Note) {
    (n.RetryNote? || n.ContactNote?) && n.ok
  }

  lemma {:induction false} NotesCount(acts: seq<PlannedAction>, recovered: bool)
    ensures RetryNotes(NotesOf(acts, recovered)) == RetriesIn(acts)
    ensures ContactNotes(NotesOf(acts, recovered)) == ContactsIn(acts)
  {
    if acts != [] {
      var n := |acts| - 1;
      NotesCount(acts[..n], false);
      assert NotesOf(acts, recovered) == NotesOf(acts[..n], false) + [NoteOf(acts[n], recovered)];
    }
  }

  /** An outcome's fields tell one story, whatever the plan and the dice: the counters count the notes,
      retries are wasted exactly where only the customer can act, the whole amount or nothing comes
      back, and the last note - and no other - says ok exactly if an action brought it back. */
  lemma OutcomeTells(c: SimCase, plan: seq<PlannedAction>, stream: nat -> real)
    ensures var out := CaseResult(c, plan, stream);
            && out.caseKey == c.caseKey
            && out.recoveredPaise == (if out.recovered then c.amountPaise else 0)
            && out.retries == RetryNotes(out.notes) && out.contacts == ContactNotes(out.notes)
            && out.wasted == (if c.reason in {CardExpired, TokenInvalid, MandateRevoked} then out.retries else 0)
            && out.notes != [] && (forall i :: 0 <= i < |out.notes| - 1 ==> !SaysOk(out.notes[i]))
            && (SaysOk(out.notes[|out.notes| - 1]) <==> out.recovered && plan != [])
            && (out.natural <==> out.recovered && plan == [])
  {
    var acts := SortByDay(plan);
    SortedIsEmptyOnlyIfPlanIs(plan);
    if plan == [] {
      var note := CaseResult(c, plan, stream).notes;
      assert note[..0] == [];
    } else {
      var w, played := FirstWin(c, acts, stream, 0), Played(c, acts, stream);
      NotesCount(played, w.Some?);
      assert played != [];
      if w.Some? {
        assert Wins(c, acts, stream, w.value) && played[|played| - 1] == acts[w.value];
      }
    }
  }

  /******* Longer plans *******/

  lemma WinsIsPrefixLocal(c: SimCase, acts: seq<PlannedAction>, more: seq<PlannedAction>, stream: nat -> real, k: nat)
    requires k < |acts|
    ensures Wins(c, acts + more, stream, k) <==> Wins(c, acts, stream, k)
  {
    assert (acts + more)[..k] == acts[..k];
  }

  lemma {:induction false} CountsGrow(acts: seq<PlannedAction>, more: seq<PlannedAction>)
    ensures RetriesIn(acts) <= RetriesIn(acts + more)
    ensures ContactsIn(acts) <= ContactsIn(acts + more)
  {
    if more == [] {
      assert acts + more == acts;
    } else {
      assert (acts + more)[..|acts + more| - 1] == acts + more[..|more| - 1];
      CountsGrow(acts, more[..|more| - 1]);
    }
  }

  lemma SortedIsEmptyOnlyIfPlanIs(p: seq<PlannedAction>)
    ensures SortByDay(p) == [] <==> p == []
  {
  }

  lemma FirstWinOfLonger(c: SimCase, acts: seq<PlannedAction>, rest: seq<PlannedAction>, stream: nat -> real)
    ensures var w, w' := FirstWin(c, acts, stream, 0), FirstWin(c, acts + rest, stream, 0);
            && (w.Some? ==> w' == w)
            && (w.None? && w'.Some? ==> w'.value >= |acts|)
  {
    forall k | 0 <= k < |acts|
      ensures Wins(c, acts + rest, stream, k) <==> Wins(c, acts, stream, k)
    {
      WinsIsPrefixLocal(c, acts, rest, stream, k);
    }
  }

  lemma PlayedOfLonger(c: SimCase, acts: seq<PlannedAction>, rest: seq<PlannedAction>, stream: nat -> real)
    ensures var less, more := Played(c, acts, stream), Played(c, acts + rest, stream);
            && (FirstWin(c, acts, stream, 0).Some? ==> more == less)
            && RetriesIn(less) <= RetriesIn(more) && ContactsIn(less) <= ContactsIn(more)
  {
    FirstWinOfLonger(c, acts, rest, stream);
    var w, more := FirstWin(c, acts, stream, 0), Played(c, acts + rest, stream);
    if w.Some? {
      assert (acts + rest)[..w.value + 1] == acts[..w.value + 1];
    } else {
      assert more == acts + more[|acts|..];
      CountsGrow(acts, more[|acts|..]);
    }
  }

  /** Longer plans never lose a recovery: if one non-empty plan's played order is a prefix of
      another's, then on the same dice a recovery under the first is the very same outcome under
      the second, and otherwise the second has tried at least as much. */
  lemma LongerPlansNeverLose(c: SimCase, p: seq<PlannedAction>, q: seq<PlannedAction>, stream: nat -> real)
    requires p != [] && SortByDay(p) <= SortByDay(q)
    ensures var less, more := CaseResult(c, p, stream), CaseResult(c, q, stream);
            && (less.recovered ==> more == less)
            && less.retries <= more.retries && less.contacts <= more.contacts && less.wasted <= more.wasted
  {
    SortedIsEmptyOnlyIfPlanIs(p);
    var acts, all := SortByDay(p), SortByDay(q);
    var rest := all[|acts|..];
    assert all == acts + rest;
    FirstWinOfLonger(c, acts, rest, stream);
    PlayedOfLonger(c, acts, rest, stream);
  }

  /** In particular, adding actions no earlier than any planned one never loses a recovery. */
  lemma AddingLaterActionsNeverLoses(c: SimCase, p: seq<PlannedAction>, more: seq<PlannedAction>, stream: nat -> real)
    requires p != [] && forall x, y :: x in p && y in more ==> x.dayOffset <= y.dayOffset
    ensures CaseResult(c, p, stream).recovered ==> CaseResult(c, p + more, stream) == CaseResult(c, p, stream)
  {
    LaterActionsPlayLater(p, more);
    LongerPlansNeverLose(c, p, p + more, stream);
  }
}
