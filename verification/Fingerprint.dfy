/**
 The idempotency key of an action (guard/gates.py, `compose_fingerprint`): five fields
 joined by colons.  Verb, day offset and channel never hold a colon and the reason code,
 which may, comes last, so the key is faithful within a case; across cases it is, too,
 unless one case id reads like a key of the other.
 */
module Fingerprint {
  import opened Wrappers
  import opened Policy

  /******* Decimal rendering of day offsets *******/

  function Digit(d: nat): char
    requires d < 10
  {
    '0' + d as char
  }

  function Decimal(n: nat): string {
    if n < 10 then [Digit(n)] else Decimal(n / 10) + [Digit(n % 10)]
  }

  predicate IsDigit(c: char) {
    '0' <= c <= '9'
  }

  lemma {:induction false} DecimalIsDigits(n: nat)
    ensures |Decimal(n)| > 0
    ensures forall i :: 0 <= i < |Decimal(n)| ==> IsDigit(Decimal(n)[i])
  {
    if n >= 10 {
      DecimalIsDigits(n / 10);
    }
  }

  lemma {:induction false} DecimalInjective(m: nat, n: nat)
    requires Decimal(m) == Decimal(n)
    ensures m == n
    decreases m
  {
    DecimalIsDigits(m / 10);
    DecimalIsDigits(n / 10);
    if m < 10 || n < 10 {
      assert |Decimal(m)| == 1 <==> m < 10;
    } else {
      assert Decimal(m)[..|Decimal(m)| - 1] == Decimal(m / 10);
      assert Decimal(n)[..|Decimal(n)| - 1] == Decimal(n / 10);
      DecimalInjective(m / 10, n / 10);
      assert Decimal(m)[|Decimal(m)| - 1] == Digit(m % 10);
      assert Decimal(n)[|Decimal(n)| - 1] == Digit(n % 10);
      assert m % 10 == n % 10;
    }
  }

  function RenderOffset(o: Option<nat>): string {
    match o
    case None => "None"
    case Some(n) => Decimal(n)
  }

  lemma RenderOffsetInjective(o: Option<nat>, p: Option<nat>)
    requires RenderOffset(o) == RenderOffset(p)
    ensures o == p
  {
    if o.Some? { DecimalIsDigits(o.value); }
    if p.Some? { DecimalIsDigits(p.value); }
    assert !IsDigit("None"[0]);
    if o.Some? && p.Some? {
      DecimalInjective(o.value, p.value);
    }
  }

  /******* Composition *******/

  predicate ColonFree(s: string) {
    forall i :: 0 <= i < |s| ==> s[i] != ':'
  }

  function Join(head: string, tail: string): string {
    head + [':'] + tail
  }

  function Compose(caseId: string, verb: string, dayOffset: Option<nat>, channel: string, reasonCode: string): string {
    Join(caseId, Join(verb, Join(RenderOffset(dayOffset), Join(channel, reasonCode))))
  }

  function FingerprintAction(caseId: string, a: Action): string {
    Compose(caseId, VerbValue(a.verb), a.dayOffset, ChannelValue(a.channel), a.reasonCode)
  }

  /******* Faithfulness *******/

  lemma JoinInjective(a: string, b: string, s: string, t: string)
    requires ColonFree(a) && ColonFree(b)
    requires Join(a, s) == Join(b, t)
    ensures a == b && s == t
  {
    var l, r := Join(a, s), Join(b, t);
    assert l[|a|] == ':' && r[|b|] == ':';
    if |a| == |b| {
      assert l[..|a|] == a && r[..|b|] == b;
      assert l[|a| + 1..] == s && r[|b| + 1..] == t;
    }
  }

  lemma VerbColonFree(v: ActionVerb)
    ensures ColonFree(VerbValue(v))
  {
  }

  lemma ChannelColonFree(c: Channel)
    ensures ColonFree(ChannelValue(c))
  {
  }

  lemma OffsetColonFree(o: Option<nat>)
    ensures ColonFree(RenderOffset(o))
  {
    if o.Some? {
      DecimalIsDigits(o.value);
    }
  }

  lemma ClosedFieldsAreColonFree(a: Action)
    ensures ColonFree(VerbValue(a.verb))
    ensures ColonFree(RenderOffset(a.dayOffset))
    ensures ColonFree(ChannelValue(a.channel))
  {
    VerbColonFree(a.verb);
    OffsetColonFree(a.dayOffset);
    ChannelColonFree(a.channel);
  }

  lemma VerbValueInjective(v: ActionVerb, w: ActionVerb)
    requires VerbValue(v) == VerbValue(w)
    ensures v == w
  {
    assert VerbValue(v)[1] == VerbValue(w)[1];
    assert |VerbValue(v)| == |VerbValue(w)|;
  }

  lemma ChannelValueInjective(c: Channel, d: Channel)
    requires ChannelValue(c) == ChannelValue(d)
    ensures c == d
  {
    assert ChannelValue(c)[0] == ChannelValue(d)[0];
    assert |ChannelValue(c)| == |ChannelValue(d)|;
  }

  /** The format of a key: case, verb, day offset, channel and reason code, in this order. */
  lemma KeyFormat(id: string, a: Action)
    ensures FingerprintAction(id, a)
            == id + ":" + VerbValue(a.verb) + ":" + RenderOffset(a.dayOffset) + ":" + ChannelValue(a.channel) + ":" + a.reasonCode
  {
  }

  // The part of a fingerprint after the case id.
  function Tail(a: Action): string {
    Join(VerbValue(a.verb), Join(RenderOffset(a.dayOffset), Join(ChannelValue(a.channel), a.reasonCode)))
  }

  lemma TailFaithful(a: Action, b: Action)
    ensures Tail(a) == Tail(b) <==> IdentityOf(a) == IdentityOf(b)
  {
    if Tail(a) == Tail(b) {
      ClosedFieldsAreColonFree(a);
      ClosedFieldsAreColonFree(b);
      var a3, b3 := Join(ChannelValue(a.channel), a.reasonCode), Join(ChannelValue(b.channel), b.reasonCode);
      JoinInjective(VerbValue(a.verb), VerbValue(b.verb), Join(RenderOffset(a.dayOffset), a3), Join(RenderOffset(b.dayOffset), b3));
      JoinInjective(RenderOffset(a.dayOffset), RenderOffset(b.dayOffset), a3, b3);
      JoinInjective(ChannelValue(a.channel), ChannelValue(b.channel), a.reasonCode, b.reasonCode);
      VerbValueInjective(a.verb, b.verb);
      RenderOffsetInjective(a.dayOffset, b.dayOffset);
      ChannelValueInjective(a.channel, b.channel);
    }
  }

  /** Within one case - whatever its id - two fingerprints agree exactly when the actions are the same. */
  lemma FaithfulWithinCase(id: string, a: Action, b: Action)
    ensures FingerprintAction(id, a) == FingerprintAction(id, b) <==> IdentityOf(a) == IdentityOf(b)
  {
    TailFaithful(a, b);
    assert FingerprintAction(id, a)[|id| + 1..] == Tail(a);
    assert FingerprintAction(id, b)[|id| + 1..] == Tail(b);
  }

  /** Across cases with colon-free ids, two fingerprints agree exactly when the case and the action's
      identity agree. */
  lemma FingerprintFaithful(id: string, a: Action, id': string, b: Action)
    requires ColonFree(id) && ColonFree(id')
    ensures FingerprintAction(id, a) == FingerprintAction(id', b)
            <==> id == id' && IdentityOf(a) == IdentityOf(b)
  {
    TailFaithful(a, b);
    if FingerprintAction(id, a) == FingerprintAction(id', b) {
      JoinInjective(id, id', Tail(a), Tail(b));
    }
  }

  /******* Ids with colons *******/

  // A fingerprint without its reason code.
  function Unreasoned(id: string, a: Action): string {
    Join(id, Join(VerbValue(a.verb), Join(RenderOffset(a.dayOffset), ChannelValue(a.channel))))
  }

  // The one case id reads like a fingerprint of the other, with or without the reason code.
  ghost predicate ReadsLikeKeyOf(x: string, id: string) {
    exists c: Action :: IsKeyOf(x, id, c)
  }

  predicate IsKeyOf(x: string, id: string, c: Action) {
    x == Unreasoned(id, c) || x == FingerprintAction(id, c)
  }

  lemma JoinAssociates(a: string, b: string, c: string)
    ensures Join(Join(a, b), c) == Join(a, Join(b, c))
  {
  }

  lemma NoColonBefore(a: string, t: string, s: string, u: string)
    requires ColonFree(a) && Join(a, t) == Join(s, u)
    ensures |a| <= |s| && (|a| == |s| ==> a == s && t == u)
  {
    var j := Join(a, t);
    assert Join(s, u)[|s|] == ':';
    assert forall i :: 0 <= i < |a| ==> j[i] == a[i];
    assert j[..|a|] == a && j[|a| + 1..] == t;
    assert Join(s, u)[..|s|] == s && Join(s, u)[|s| + 1..] == u;
  }

  lemma SameLengthHeads(x: string, t: string, y: string, u: string)
    requires |x| == |y| && Join(x, t) == Join(y, u)
    ensures x == y
  {
    assert Join(x, t)[..|x|] == x && Join(y, u)[..|y|] == y;
  }

  // Splitting a joined string elsewhere: at the same colon, or at a later one.
  lemma JoinSplit(a: string, t: string, s: string, u: string) returns (later: Option<string>)
    requires ColonFree(a) && Join(a, t) == Join(s, u)
    ensures later.None? ==> s == a && t == u
    ensures later.Some? ==> s == Join(a, later.value) && t == Join(later.value, u)
  {
    NoColonBefore(a, t, s, u);
    if |s| == |a| {
      return None;
    }
    var j := Join(a, t);
    assert j[..|s|] == s && j[|s| + 1..] == u;
    var rest := j[|a| + 1..|s|];
    assert s == Join(a, rest);
    JoinAssociates(a, rest, u);
    assert j[|a| + 1..] == t && Join(a, Join(rest, u))[|a| + 1..] == Join(rest, u);
    return Some(rest);
  }

  lemma OffsetIsNoVerb(o: Option<nat>, v: ActionVerb)
    ensures RenderOffset(o) != VerbValue(v)
  {
    assert !IsDigit(VerbValue(v)[0]) && VerbValue(v)[0] != 'N';
    if o.Some? {
      DecimalIsDigits(o.value);
    }
  }

  lemma ChannelIsNoVerb(c: Channel, v: ActionVerb)
    ensures ChannelValue(c) != VerbValue(v)
  {
    assert |ChannelValue(c)| < 10 < |VerbValue(v)|;
  }

  // What a tail that ends in another tail looks like in front of it.
  lemma TailWithinTail(a: Action, s: string, b: Action) returns (reason: Option<string>)
    requires Tail(a) == Join(s, Tail(b))
    ensures var front := Join(VerbValue(a.verb), Join(RenderOffset(a.dayOffset), ChannelValue(a.channel)));
            s == match reason case None => front case Some(r) => Tail(a.(reasonCode := r))
  {
    ClosedFieldsAreColonFree(a);
    ClosedFieldsAreColonFree(b);
    var verb, off, chan := VerbValue(a.verb), RenderOffset(a.dayOffset), ChannelValue(a.channel);
    var b2 := Join(RenderOffset(b.dayOffset), Join(ChannelValue(b.channel), b.reasonCode));
    var s1 := JoinSplit(verb, Join(off, Join(chan, a.reasonCode)), s, Tail(b));
    if s1.None? {
      JoinInjective(off, VerbValue(b.verb), Join(chan, a.reasonCode), b2);
      OffsetIsNoVerb(a.dayOffset, b.verb);
    } else {
      var s2 := JoinSplit(off, Join(chan, a.reasonCode), s1.value, Tail(b));
      if s2.None? {
        JoinInjective(chan, VerbValue(b.verb), a.reasonCode, b2);
        ChannelIsNoVerb(a.channel, b.verb);
      } else {
        reason := JoinSplit(chan, a.reasonCode, s2.value, Tail(b));
      }
    }
  }

  lemma HeadSplit(x: string, t: string, y: string, u: string) returns (between: string)
    requires |x| < |y| && Join(x, t) == Join(y, u)
    ensures y == Join(x, between) && t == Join(between, u)
  {
    var j := Join(x, t);
    between := y[|x| + 1..];
    assert j[..|y|] == y && j[|x|] == ':' && j[..|x|] == x;
    assert y == Join(x, between);
    JoinAssociates(x, between, u);
    assert j[|x| + 1..] == t && Join(x, Join(between, u))[|x| + 1..] == Join(between, u);
  }

  lemma LongerIdReadsLikeKey(id: string, a: Action, id': string, b: Action)
    requires FingerprintAction(id, a) == FingerprintAction(id', b) && |id| < |id'|
    ensures ReadsLikeKeyOf(id', id)
  {
    var s := HeadSplit(id, Tail(a), id', Tail(b));
    var reason := TailWithinTail(a, s, b);
    if reason.Some? {
      assert IsKeyOf(id', id, a.(reasonCode := reason.value));
    } else {
      assert IsKeyOf(id', id, a);
    }
  }

  lemma KeyLikeIdCollides(id: string, id': string, c: Action, b: Action) returns (a: Action)
    requires IsKeyOf(id', id, c)
    ensures FingerprintAction(id, a) == FingerprintAction(id', b)
  {
    var verb, off, chan := VerbValue(c.verb), RenderOffset(c.dayOffset), ChannelValue(c.channel);
    if id' == Unreasoned(id, c) {
      a := c.(reasonCode := Tail(b));
      JoinAssociates(id, Join(verb, Join(off, chan)), Tail(b));
      JoinAssociates(verb, Join(off, chan), Tail(b));
      JoinAssociates(off, chan, Tail(b));
    } else {
      a := c.(reasonCode := Join(c.reasonCode, Tail(b)));
      JoinAssociates(id, Tail(c), Tail(b));
      JoinAssociates(verb, Join(off, Join(chan, c.reasonCode)), Tail(b));
      JoinAssociates(off, Join(chan, c.reasonCode), Tail(b));
      JoinAssociates(chan, c.reasonCode, Tail(b));
    }
  }

  /** With arbitrary ids, two different cases can share a fingerprint exactly when one id reads like a
      fingerprint of the other. */
  lemma CasesCollideExactly(id: string, id': string)
    requires id != id'
    ensures (exists a, b :: FingerprintAction(id, a) == FingerprintAction(id', b))
            <==> ReadsLikeKeyOf(id', id) || ReadsLikeKeyOf(id, id')
  {
    if a, b :| FingerprintAction(id, a) == FingerprintAction(id', b) {
      if |id| < |id'| {
        LongerIdReadsLikeKey(id, a, id', b);
      } else if |id'| < |id| {
        LongerIdReadsLikeKey(id', b, id, a);
      } else {
        SameLengthHeads(id, Tail(a), id', Tail(b));
      }
    }
    var b := DefaultAction(EscalateHuman);
    if c :| IsKeyOf(id', id, c) {
      var a := KeyLikeIdCollides(id, id', c, b);
    } else if c :| IsKeyOf(id, id', c) {
      var a := KeyLikeIdCollides(id', id, c, b);
      assert FingerprintAction(id, b) == FingerprintAction(id', a);
    }
  }

  /** A composed fingerprint is never the empty string, which the code treats as "not set". */
  lemma FingerprintNotEmpty(caseId: string, a: Action)
    ensures FingerprintAction(caseId, a) != ""
  {
    assert |FingerprintAction(caseId, a)| > |caseId|;
  }
}
