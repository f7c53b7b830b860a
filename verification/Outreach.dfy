/** Plans made of contacts only, and the empty plan: when they recover, in the probabilities and rolls themselves. */
module Outreach {
  import opened SimTypes
  import opened Simulator
  import opened Multiples

  const WEAR := 0.55

  // What is left of the response after some contacts is a power of the wear.
  lemma {:induction false} ResponseWears(base: real, contacts: nat)
    ensures ResponseProb(base, contacts) == base * Power(WEAR, contacts)
  {
    FatigueIsPower(contacts);
  }

  lemma {:induction false} FatigueIsPower(contacts: nat)
    ensures Fatigue(contacts) == Power(WEAR, contacts)
  {
    if contacts > 0 {
      FatigueIsPower(contacts - 1);
    }
  }

  lemma {:induction false} ContactsRoll(c: SimCase, acts: seq<PlannedAction>)
    requires forall a :: a in acts ==> IsContact(a.verb)
    ensures ContactsIn(acts) == RollsIn(c, acts) == |acts|
  {
    if acts != [] {
      var n := |acts| - 1;
      assert acts[n] in acts;
      ContactsRoll(c, acts[..n]);
    }
  }

  // The j-th of several contacts succeeds.
  predicate Answers(c: SimCase, stream: nat -> real, j: nat) {
    stream(j) < c.contactProb * Power(WEAR, j)
  }

  lemma ContactWins(c: SimCase, acts: seq<PlannedAction>, stream: nat -> real, k: nat)
    requires k < |acts| && forall a :: a in acts ==> IsContact(a.verb)
    ensures Wins(c, acts, stream, k) <==> Answers(c, stream, k)
  {
    forall a | a in acts[..k]
      ensures IsContact(a.verb)
    {
      assert a in acts;
    }
    ContactsRoll(c, acts[..k]);
    ResponseWears(c.contactProb, k);
    assert acts[k] in acts;
  }

  /** A non-empty plan of contacts recovers if and only if one of its rolls is below the response
      probability, worn down by a factor 0.55 for each contact before it. */
  lemma ContactOnlyPlan(c: SimCase, plan: seq<PlannedAction>, stream: nat -> real)
    requires plan != [] && forall a :: a in plan ==> IsContact(a.verb)
    ensures CaseResult(c, plan, stream).recovered <==> exists j: nat :: j < |plan| && Answers(c, stream, j)
    ensures !CaseResult(c, plan, stream).natural
  {
    var acts := SortByDay(plan);
    SortByDayIsStableSort(plan);
    SortedIsEmptyOnlyIfPlanIs(plan);
    assert |acts| == |multiset(acts)| == |multiset(plan)| == |plan|;
    forall a | a in acts
      ensures IsContact(a.verb)
    {
      assert a in multiset(acts);
      assert a in plan;
    }
    forall k | 0 <= k < |acts|
      ensures Wins(c, acts, stream, k) <==> Answers(c, stream, k)
    {
      ContactWins(c, acts, stream, k);
    }
    var w := FirstWin(c, acts, stream, 0);
    if w.Some? {
      assert Answers(c, stream, w.value);
    }
  }

  /** The empty plan recovers if and only if its one roll is below the natural recovery probability; then
      the whole amount comes back, without any retry or contact. */
  lemma EmptyPlan(c: SimCase, stream: nat -> real)
    ensures var out := CaseResult(c, [], stream);
            && (out.recovered <==> stream(0) < c.naturalProb)
            && (out.natural <==> out.recovered) && out.retries == out.contacts == out.wasted == 0
            && out.recoveredPaise == (if stream(0) < c.naturalProb then c.amountPaise else 0)
  {
  }
}
