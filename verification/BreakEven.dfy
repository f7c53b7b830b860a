/** The break-even search over one cost knob (eval/break_even.py, config/costs.py's overrides). */
module BreakEven {
  import opened Wrappers
  import opened Multiples

  // The cost knobs the search may turn.
  datatype CostKey = SmsDlt | WhatsappUtility | ChurnProb

  // config/costs.py: file defaults and the live overrides on top of them.
  class CostBook {
    const defaults: CostKey -> real
    var overrides: map<CostKey, real>

    constructor (defaults: CostKey -> real)
      ensures this.defaults == defaults && overrides == map[]
    {
      this.defaults := defaults;
      overrides := map[];
    }

    function CostValue(key: CostKey): real
      reads this
    {
      if key in overrides then overrides[key] else defaults(key)
    }
  }

  // What the benchmark compares: net delta (ours - b2) as a function of the overrides in force.
  type Comparison = map<CostKey, real> -> real

  function DeltaAt(compare: Comparison, key: CostKey, value: real): real {
    compare(map[key := value])
  }

  /** _net_delta_with_override: set the one override, compare, and clear all overrides. */
  method NetDeltaWithOverride(book: CostBook, compare: Comparison, key: CostKey, value: real) returns (delta: real)
    modifies book
    ensures book.overrides == map[]
    ensures delta == DeltaAt(compare, key, value)
  {
    book.overrides := map[key := value];
    delta := compare(book.overrides);
    book.overrides := map[];
  }

  datatype SearchNote = NoCrossing | WithinTolerance | Approximate

  datatype BreakEvenResult = BreakEvenResult(
    defaultValue: real, breakEven: Option<real>, deltaAtDefault: real, raisingHelpsOurs: bool, note: SearchNote)

  function Abs(x: real): real {
    if x < 0.0 then -x else x
  }

  predicate Between(lo: real, hi: real, x: real) {
    lo <= x <= hi || hi <= x <= lo
  }

  // w halved n times.
  function Halved(w: real, n: nat): real {
    if n == 0 then w else Halved(w, n - 1) / 2.0
  }

  lemma {:induction false} HalvedIsQuotient(w: real, n: nat)
    ensures Halved(w, n) * Power(2.0, n) == w
  {
    if n > 0 {
      HalvedIsQuotient(w, n - 1);
      var h, p := Halved(w, n - 1), Power(2.0, n - 1);
      assert h / 2.0 * (2.0 * p) == h * p;
    }
  }

  predicate SignChange(a: real, b: real) {
    a * b <= 0.0
  }

  /** A product is not positive exactly when the factors do not share a strict sign. */
  lemma Signs(a: real, b: real)
    ensures SignChange(a, b) <==> (a >= 0.0 && b <= 0.0) || (a <= 0.0 && b >= 0.0)
  {
    if a >= 0.0 && b >= 0.0 {
      NonNegative(a, b);
    } else if a >= 0.0 {
      NonNegative(a, -b);
      assert a * -b == -(a * b);
    } else if b >= 0.0 {
      NonNegative(-a, b);
      assert -a * b == -(a * b);
    } else {
      NonNegative(-a, -b);
      assert -a * -b == a * b;
    }
  }

  // A bracket of the search: inside the original bounds, halved n times, with a sign change.
  predicate Bracket(compare: Comparison, key: CostKey, lo: real, hi: real, n: nat, left: real, right: real) {
    && Between(lo, hi, left) && Between(lo, hi, right)
    && right - left == Halved(hi - lo, n)
    && SignChange(DeltaAt(compare, key, left), DeltaAt(compare, key, right))
  }

  lemma MidpointBetween(lo: real, hi: real, left: real, right: real)
    requires Between(lo, hi, left) && Between(lo, hi, right)
    ensures Between(lo, hi, (left + right) / 2.0)
  {
  }

  function Midpoint(bracket: (real, real)): real {
    (bracket.0 + bracket.1) / 2.0
  }

  // The search goes from one bracket to the next: the midpoint was not within the tolerance, and the half
  // kept is the left one if the sign changes there, else the right one.
  predicate Refines(compare: Comparison, key: CostKey, tol: real, bracket: (real, real), next: (real, real)) {
    var mid := Midpoint(bracket);
    && Abs(DeltaAt(compare, key, mid)) > tol
    && next == if SignChange(DeltaAt(compare, key, bracket.0), DeltaAt(compare, key, mid)) then (bracket.0, mid) else (mid, bracket.1)
  }

  predicate Bisects(compare: Comparison, key: CostKey, lo: real, hi: real, tol: real, tried: seq<(real, real)>) {
    && tried != [] && tried[0] == (lo, hi)
    && forall i :: 0 <= i < |tried| - 1 ==> Refines(compare, key, tol, tried[i], tried[i + 1])
  }

  lemma BisectsOn(compare: Comparison, key: CostKey, lo: real, hi: real, tol: real, tried: seq<(real, real)>, next: (real, real))
    requires Bisects(compare, key, lo, hi, tol, tried) && Refines(compare, key, tol, tried[|tried| - 1], next)
    ensures Bisects(compare, key, lo, hi, tol, tried + [next])
  {
    var all := tried + [next];
    forall i | 0 <= i < |all| - 1
      ensures Refines(compare, key, tol, all[i], all[i + 1])
    {
      if i < |tried| - 1 { assert all[i] == tried[i] && all[i + 1] == tried[i + 1]; }
    }
  }

  lemma RightHalf(deltaLeft: real, deltaMid: real, deltaRight: real)
    requires SignChange(deltaLeft, deltaRight) && !SignChange(deltaLeft, deltaMid)
    ensures SignChange(deltaMid, deltaRight)
  {
    Signs(deltaLeft, deltaMid);
    Signs(deltaLeft, deltaRight);
    Signs(deltaMid, deltaRight);
  }

  lemma BracketHalves(compare: Comparison, key: CostKey, lo: real, hi: real, n: nat, left: real, right: real, mid: real)
    requires Bracket(compare, key, lo, hi, n, left, right) && mid == (left + right) / 2.0
    ensures SignChange(DeltaAt(compare, key, left), DeltaAt(compare, key, mid)) ==> Bracket(compare, key, lo, hi, n + 1, left, mid)
    ensures !SignChange(DeltaAt(compare, key, left), DeltaAt(compare, key, mid)) ==> Bracket(compare, key, lo, hi, n + 1, mid, right)
  {
    MidpointBetween(lo, hi, left, right);
    if !SignChange(DeltaAt(compare, key, left), DeltaAt(compare, key, mid)) {
      RightHalf(DeltaAt(compare, key, left), DeltaAt(compare, key, mid), DeltaAt(compare, key, right));
    }
  }

  /** solve_break_even.  No answer exactly when both bounds have the same strict sign.  Otherwise `tried`
      lists the brackets of the search, each the half of the one before that the signs select, none but
      the last with a midpoint within the tolerance.  The answer is the last one's midpoint: within the
      tolerance, or after all rounds, and then the last bracket - returned as left and right - was
      halved in each and still changes sign.  Whatever overrides were live before, none is afterwards. */
  method SolveBreakEven(book: CostBook, compare: Comparison, key: CostKey, lo: real, hi: real, tol: real, maxIter: int)
    returns (r: BreakEvenResult, ghost left: real, ghost right: real, ghost tried: seq<(real, real)>)
    modifies book
    ensures book.overrides == map[]
    ensures r.defaultValue == old(book.CostValue(key)) && r.deltaAtDefault == DeltaAt(compare, key, r.defaultValue)
    ensures r.defaultValue == if key in old(book.overrides) then old(book.overrides)[key] else book.defaults(key)
    ensures r.raisingHelpsOurs <==> DeltaAt(compare, key, hi) >= DeltaAt(compare, key, lo)
    ensures r.breakEven.None? <==> !SignChange(DeltaAt(compare, key, lo), DeltaAt(compare, key, hi))
    ensures r.breakEven.None? <==> r.note.NoCrossing?
    ensures r.breakEven.Some? ==> Bisects(compare, key, lo, hi, tol, tried) && r.breakEven.value == Midpoint(tried[|tried| - 1])
    ensures r.breakEven.Some? ==> Between(lo, hi, r.breakEven.value)
    ensures r.note.WithinTolerance? ==>
              Abs(DeltaAt(compare, key, r.breakEven.value)) <= tol && |tried| <= AtLeastZero(maxIter)
    ensures r.note.Approximate? ==>
              && Bracket(compare, key, lo, hi, AtLeastZero(maxIter), left, right)
              && r.breakEven.value == (left + right) / 2.0
              && |tried| == AtLeastZero(maxIter) + 1 && tried[|tried| - 1] == (left, right)
  {
    var default := book.CostValue(key);
    var deltaDefault := NetDeltaWithOverride(book, compare, key, default);
    var deltaLo := NetDeltaWithOverride(book, compare, key, lo);
    var deltaHi := NetDeltaWithOverride(book, compare, key, hi);
    var raising := deltaHi >= deltaLo;
    var l, h := lo, hi;
    tried := [(l, h)];

    if !SignChange(deltaLo, deltaHi) {
      return BreakEvenResult(default, None, deltaDefault, raising, NoCrossing), l, h, tried;
    }

    for i := 0 to AtLeastZero(maxIter)
      invariant book.overrides == map[]
      invariant deltaLo == DeltaAt(compare, key, l) && deltaHi == DeltaAt(compare, key, h)
      invariant Bracket(compare, key, lo, hi, i, l, h)
      invariant |tried| == i + 1 && tried[i] == (l, h) && Bisects(compare, key, lo, hi, tol, tried)
    {
      var mid := (l + h) / 2.0;
      MidpointBetween(lo, hi, l, h);
      var deltaMid := NetDeltaWithOverride(book, compare, key, mid);
      if Abs(deltaMid) <= tol {
        return BreakEvenResult(default, Some(mid), deltaDefault, raising, WithinTolerance), l, h, tried;
      }
      BracketHalves(compare, key, lo, hi, i, l, h, mid);
      if SignChange(deltaLo, deltaMid) {
        h := mid;
        deltaHi := deltaMid;
      } else {
        l := mid;
        deltaLo := deltaMid;
      }
      BisectsOn(compare, key, lo, hi, tol, tried, (l, h));
      tried := tried + [(l, h)];
    }
    MidpointBetween(lo, hi, l, h);
    return BreakEvenResult(default, Some((l + h) / 2.0), deltaDefault, raising, Approximate), l, h, tried;
  }

  /******* Accuracy for affine deltas *******/

  predicate Within(error: real, x: real, y: real) {
    Abs(x - y) <= error
  }

  // A line's value: its value at zero, and its slope times the distance.
  function Line(a: real, b: real, v: real): real {
    a + b * v
  }

  // The comparison follows a line, up to an error such as that of rounding; exactly if the error is 0.
  ghost predicate Affine(compare: Comparison, key: CostKey, a: real, b: real, error: real) {
    forall v: real :: Within(error, DeltaAt(compare, key, v), Line(a, b, v))
  }

  lemma AtLeast(t: real, bound: real, d: real)
    requires t >= bound && d >= 0.0
    ensures t * d >= bound * d
  {
    assert (t - bound) * d >= 0.0;
    assert (t - bound) * d == t * d - bound * d;
  }

  lemma FractionInUnit(x: real, d: real)
    requires 0.0 < x < d
    ensures 0.0 < x / d < 1.0 && x / d * d == x
  {
    var t := x / d;
    assert t * d == x;
    if t <= 0.0 {
      AtLeast(-t, 0.0, d);
    }
    if t >= 1.0 {
      AtLeast(t, 1.0, d);
    }
  }

  // The zero between a positive and a negative value.
  lemma ZeroBetween(a: real, b: real, up: real, down: real) returns (root: real)
    requires Line(a, b, up) > 0.0 && Line(a, b, down) < 0.0
    ensures Line(a, b, root) == 0.0 && Between(up, down, root)
  {
    var u, d := a + b * up, a + b * down;
    FractionInUnit(u, u - d);
    var t := u / (u - d);
    root := up + Part(t, down - up);
    BetweenByFraction(up, down, t);
    calc {
      a + b * root;
    ==
      u + b * (t * (down - up));
    == { assert b * (t * (down - up)) == t * (b * (down - up)); }
      u + t * (b * (down - up));
    == { assert b * (down - up) == d - u; }
      u + t * (d - u);
    == { assert t * (d - u) == -(t * (u - d)); }
      u - t * (u - d);
    ==
      0.0;
    }
  }

  lemma PartWithin(t: real, d: real)
    requires 0.0 <= t <= 1.0
    ensures d >= 0.0 ==> 0.0 <= Part(t, d) <= d
    ensures d <= 0.0 ==> d <= Part(t, d) <= 0.0
  {
    var u := 1.0 - t;
    assert d == Part(t, d) + Part(u, d);
    if d >= 0.0 {
      NonNegative(t, d);
      NonNegative(u, d);
    } else {
      NonNegative(t, -d);
      NonNegative(u, -d);
      assert t * -d == -Part(t, d) && u * -d == -Part(u, d);
    }
  }

  lemma BetweenByFraction(left: real, right: real, t: real)
    requires 0.0 <= t <= 1.0
    ensures Between(left, right, left + Part(t, right - left))
  {
    PartWithin(t, right - left);
  }

  // Between two points where, up to the error, the line is not negative and not positive, it comes
  // within the error of zero.
  lemma AlmostZero(a: real, b: real, error: real, up: real, down: real) returns (point: real)
    requires 0.0 <= error && Line(a, b, up) >= -error && Line(a, b, down) <= error
    ensures Abs(Line(a, b, point)) <= error && Between(up, down, point)
  {
    if Line(a, b, up) <= error {
      point := Endpoint(up, down);
    } else if Line(a, b, down) >= -error {
      point := Endpoint(down, up);
    } else {
      point := ZeroBetween(a, b, up, down);
    }
  }

  lemma Endpoint(x: real, y: real) returns (point: real)
    ensures point == x && Between(x, y, point) && Between(y, x, point)
  {
    point := x;
  }

  lemma AlmostZeroInBracket(a: real, b: real, error: real, left: real, right: real, deltaLeft: real, deltaRight: real) returns (point: real)
    requires 0.0 <= error && SignChange(deltaLeft, deltaRight)
    requires Within(error, deltaLeft, Line(a, b, left)) && Within(error, deltaRight, Line(a, b, right))
    ensures Abs(Line(a, b, point)) <= error && Between(left, right, point)
  {
    var upward := UpwardEnd(deltaLeft, deltaRight);
    if upward {
      point := AlmostZero(a, b, error, right, left);
    } else {
      point := AlmostZero(a, b, error, left, right);
    }
  }

  lemma UpwardEnd(deltaLeft: real, deltaRight: real) returns (upward: bool)
    requires SignChange(deltaLeft, deltaRight)
    ensures if upward then deltaLeft <= 0.0 <= deltaRight else deltaRight <= 0.0 <= deltaLeft
  {
    Signs(deltaLeft, deltaRight);
    upward := deltaLeft <= 0.0 && deltaRight >= 0.0;
  }

  lemma BracketMidpoint(w: real, lo: real, hi: real, n: nat, left: real, right: real, point: real)
    requires w == hi - lo && right - left == Halved(w, n)
    requires Between(lo, hi, left) && Between(lo, hi, right) && Between(left, right, point)
    ensures Between(lo, hi, point) && Abs((left + right) / 2.0 - point) <= Halved(Abs(w), n + 1)
  {
    HalvedAbs(w, n);
  }

  /** When the delta follows a line up to an error, an answer that used up all its rounds lies within
      (hi - lo) / 2^(n+1) of a point where the line is no further from zero than that error; without
      error, of a true zero. */
  lemma AffineAccuracy(compare: Comparison, key: CostKey, a: real, b: real, error: real,
                       lo: real, hi: real, n: nat, left: real, right: real)
    returns (point: real)
    requires Affine(compare, key, a, b, error) && Bracket(compare, key, lo, hi, n, left, right)
    ensures Abs(Line(a, b, point)) <= error && Between(lo, hi, point)
    ensures error == 0.0 ==> DeltaAt(compare, key, point) == 0.0
    ensures Abs((left + right) / 2.0 - point) <= Halved(Abs(hi - lo), n + 1)
  {
    assert Within(error, DeltaAt(compare, key, left), Line(a, b, left));
    assert Within(error, DeltaAt(compare, key, right), Line(a, b, right));
    point := AlmostZeroInBracket(a, b, error, left, right, DeltaAt(compare, key, left), DeltaAt(compare, key, right));
    assert Within(error, DeltaAt(compare, key, point), Line(a, b, point));
    BracketMidpoint(hi - lo, lo, hi, n, left, right, point);
  }

  lemma {:induction false} HalvedAbs(w: real, n: nat)
    ensures Abs(Halved(w, n)) == Halved(Abs(w), n)
  {
    if n > 0 {
      HalvedAbs(w, n - 1);
    }
  }

  /** And an answer found early is off by no more than the tolerance and the error allow at that slope. */
  lemma EarlyExitAccuracy(compare: Comparison, key: CostKey, a: real, b: real, error: real, answer: real, root: real, tol: real)
    requires Affine(compare, key, a, b, error) && Line(a, b, root) == 0.0
    requires Abs(DeltaAt(compare, key, answer)) <= tol
    ensures Abs(b * (answer - root)) <= tol + error
  {
    assert Within(error, DeltaAt(compare, key, answer), Line(a, b, answer));
    assert b * (answer - root) == b * answer - b * root;
  }
}
