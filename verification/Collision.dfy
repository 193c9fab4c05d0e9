/** Projectile::CheckEnemyCollision: the swept circle test, against what it is meant to decide. */
module Collision {
  import opened Geometry

  const PROJECTILE_RADIUS := 0.1
  const ENEMY_RADIUS := 0.5
  const REACH := PROJECTILE_RADIUS + ENEMY_RADIUS
  const CUTOFF := 0.000001

  // The point of the move that is compared with the enemy; for a move at or below the cutoff, its end.
  function TestedPoint(previous: Point, current: Point, enemy: Point): Point
  {
    var d := Minus(current, previous);
    if Dot(d, d) <= CUTOFF then current else NearestPoint(previous, d, enemy)
  }

  // The clamped projection of the enemy on a move from p by d.
  function NearestPoint(p: Point, d: Point, enemy: Point): Point
    requires Dot(d, d) > CUTOFF
  {
    Along(p, d, Clamp01(Dot(Minus(enemy, p), d) / Dot(d, d)))
  }

  predicate Hits(previous: Point, current: Point, enemy: Point)
  {
    Near(enemy, TestedPoint(previous, current, enemy))
  }

  predicate Near(e: Point, q: Point)
  {
    DistSq(e, q) <= REACH * REACH
  }

  /** The circles overlap at some time between lo and hi of a straight flight. */
  ghost predicate Touches(p: Point, v: Point, lo: real, hi: real, e: Point)
  {
    exists s :: lo <= s <= hi && Near(e, Along(p, v, s))
  }

  /** Above the cutoff the test is exact: it succeeds iff the circles overlap somewhere on the segment. */
  lemma HitsIffTouches(previous: Point, current: Point, e: Point)
    requires var d := Minus(current, previous); Dot(d, d) > CUTOFF
    ensures Hits(previous, current, e) <==> Touches(previous, Minus(current, previous), 0.0, 1.0, e)
  {
    var d := Minus(current, previous);
    var c := Clamp01(Dot(Minus(e, previous), d) / Dot(d, d));
    forall t | 0.0 <= t <= 1.0 && Near(e, Along(previous, d, t))
      ensures Near(e, Along(previous, d, c))
    {
      ClampedProjectionIsNearest(e, previous, d, t);
    }
  }

  lemma EndOfSegment(previous: Point, current: Point)
    ensures Along(previous, Minus(current, previous), 1.0) == current
    ensures Along(previous, Minus(current, previous), 0.0) == previous
  {
  }

  /** At any length, a reported hit is an overlap. */
  lemma HitsImpliesTouches(previous: Point, current: Point, e: Point)
    requires Hits(previous, current, e)
    ensures Touches(previous, Minus(current, previous), 0.0, 1.0, e)
  {
    var d := Minus(current, previous);
    if Dot(d, d) > CUTOFF {
      HitsIffTouches(previous, current, e);
    } else {
      EndOfSegment(previous, current);
      assert Near(e, Along(previous, d, 1.0));
    }
  }

  // -------- No tunnelling --------

  // The move from time a to time b is long enough for the swept test.
  predicate LongMove(v: Point, a: real, b: real)
  {
    a < b && Dot(v, v) * ((b - a) * (b - a)) > CUTOFF
  }

  // Time t of the segment from time a to time b of a flight is time s of the flight.
  lemma AlongAlong(p: Point, v: Point, a: real, b: real, w: real, t: real, s: real)
    requires w == b - a && s == a + w * t
    ensures Along(Along(p, v, a), Minus(Along(p, v, b), Along(p, v, a)), t) == Along(p, v, s)
  {
    var d := Minus(Along(p, v, b), Along(p, v, a));
    AlongAlongAxis(p.x, v.x, a, b, w, t, s, d.x);
    AlongAlongAxis(p.y, v.y, a, b, w, t, s, d.y);
  }

  lemma AlongAlongAxis(p: real, v: real, a: real, b: real, w: real, t: real, s: real, d: real)
    requires w == b - a && s == a + w * t && d == (p + v * b) - (p + v * a)
    ensures (p + v * a) + d * t == p + v * s
  {
    assert d == v * w;
  }

  lemma MoveLength(p: Point, v: Point, a: real, b: real)
    ensures var d := Minus(Along(p, v, b), Along(p, v, a));
            Dot(d, d) == Dot(v, v) * ((b - a) * (b - a))
  {
    MoveLengthAxis(p.x, v.x, a, b);
    MoveLengthAxis(p.y, v.y, a, b);
  }

  lemma MoveLengthAxis(p: real, v: real, a: real, b: real)
    ensures ((p + v * b) - (p + v * a)) * ((p + v * b) - (p + v * a)) == (v * v) * ((b - a) * (b - a))
  {
  }

  // A point of the segment between two moments of a flight is a moment of the flight, and back.
  lemma SegmentInFlight(p: Point, v: Point, a: real, b: real, t: real, e: Point)
    requires a < b && 0.0 <= t <= 1.0
    requires Near(e, Along(Along(p, v, a), Minus(Along(p, v, b), Along(p, v, a)), t))
    ensures Touches(p, v, a, b, e)
  {
    var s := Between(a, b - a, t);
    AlongAlong(p, v, a, b, b - a, t, s);
    TouchesAt(p, v, a, b, e, s);
  }

  lemma FlightInSegment(p: Point, v: Point, a: real, b: real, s: real, e: Point)
    requires a < b && a <= s <= b && Near(e, Along(p, v, s))
    ensures Touches(Along(p, v, a), Minus(Along(p, v, b), Along(p, v, a)), 0.0, 1.0, e)
  {
    var t := Fraction(s - a, b - a);
    AlongAlong(p, v, a, b, b - a, t, s);
    TouchesAt(Along(p, v, a), Minus(Along(p, v, b), Along(p, v, a)), 0.0, 1.0, e, t);
  }

  lemma Between(a: real, w: real, t: real) returns (s: real)
    requires w > 0.0 && 0.0 <= t <= 1.0
    ensures s == a + w * t && a <= s <= a + w
  {
    var ahead := Product(w, t);
    var left := Product(w, 1.0 - t);
    s := a + ahead;
    assert ahead + left == w;
  }

  lemma Fraction(n: real, w: real) returns (t: real)
    requires 0.0 <= n <= w && w > 0.0
    ensures 0.0 <= t <= 1.0 && w * t == n
  {
    t := n / w;
  }

  lemma TouchesAt(p: Point, v: Point, lo: real, hi: real, e: Point, s: real)
    requires lo <= s <= hi && Near(e, Along(p, v, s))
    ensures Touches(p, v, lo, hi, e)
  {
  }

  // One long move of a straight flight hits iff the flight touches during it.
  lemma MoveIff(p: Point, v: Point, a: real, b: real, e: Point)
    requires LongMove(v, a, b)
    ensures Hits(Along(p, v, a), Along(p, v, b), e) <==> Touches(p, v, a, b, e)
  {
    MoveLength(p, v, a, b);
    HitsIffTouches(Along(p, v, a), Along(p, v, b), e);
    var pa, d := Along(p, v, a), Minus(Along(p, v, b), Along(p, v, a));
    if Touches(pa, d, 0.0, 1.0, e) {
      var t :| 0.0 <= t <= 1.0 && Near(e, Along(pa, d, t));
      SegmentInFlight(p, v, a, b, t, e);
    }
    if Touches(p, v, a, b, e) {
      var s :| a <= s <= b && Near(e, Along(p, v, s));
      FlightInSegment(p, v, a, b, s, e);
    }
  }

  // Some move between consecutive times hits.
  predicate HitsOnTheWay(p: Point, v: Point, times: seq<real>, e: Point)
  {
    |times| >= 2 &&
    (Hits(Along(p, v, times[0]), Along(p, v, times[1]), e) || HitsOnTheWay(p, v, times[1..], e))
  }

  predicate LongMoves(v: Point, times: seq<real>)
  {
    |times| >= 2 && LongMove(v, times[0], times[1]) && (|times| > 2 ==> LongMoves(v, times[1..]))
  }

  lemma LongerStill(v: Point, a: real, b: real, c: real)
    requires LongMove(v, a, b) && b < c
    ensures LongMove(v, a, c)
  {
    DotSelf(v);
    var more := Product(c - b, (c - a) + (b - a));
    var gain := Product(Dot(v, v), more);
    assert (c - a) * (c - a) == (b - a) * (b - a) + more;
  }

  lemma {:induction false} LastIsLater(v: Point, times: seq<real>)
    requires LongMoves(v, times)
    ensures LongMove(v, times[0], times[|times| - 1])
    ensures |times| > 2 ==> times[1] < times[|times| - 1]
  {
    if |times| > 2 {
      LastIsLater(v, times[1..]);
      LongerStill(v, times[0], times[1], times[|times| - 1]);
    }
  }

  lemma {:induction false} OnTheWayIff(p: Point, v: Point, times: seq<real>, e: Point)
    requires LongMoves(v, times)
    ensures HitsOnTheWay(p, v, times, e) <==> Touches(p, v, times[0], times[|times| - 1], e)
    decreases |times|
  {
    MoveIff(p, v, times[0], times[1], e);
    if |times| > 2 {
      LastIsLater(v, times);
      OnTheWayIff(p, v, times[1..], e);
      SplitTouches(p, v, times[0], times[1], times[|times| - 1], e);
    }
  }

  lemma SplitTouches(p: Point, v: Point, lo: real, mid: real, hi: real, e: Point)
    requires lo <= mid <= hi
    ensures Touches(p, v, lo, hi, e) <==> Touches(p, v, lo, mid, e) || Touches(p, v, mid, hi, e)
  {
    if Touches(p, v, lo, hi, e) {
      var s :| lo <= s <= hi && Near(e, Along(p, v, s));
      assert if s <= mid then Touches(p, v, lo, mid, e) else Touches(p, v, mid, hi, e);
    }
  }

  /** No tunnelling, at any frame rate: however a straight flight is cut into moves above the cutoff,
      some move hits the enemy iff one single move over the whole flight would. */
  lemma NoTunnelling(p: Point, v: Point, times: seq<real>, e: Point)
    requires LongMoves(v, times)
    ensures HitsOnTheWay(p, v, times, e)
            <==> Hits(Along(p, v, times[0]), Along(p, v, times[|times| - 1]), e)
  {
    OnTheWayIff(p, v, times, e);
    LastIsLater(v, times);
    MoveIff(p, v, times[0], times[|times| - 1], e);
  }

  // -------- At or below the cutoff --------

  // The least k for which k moves would carry the projectile out of reach.
  function StepsOut(l: real, k: nat): (r: nat)
    requires l > 0.0 && (k as real) * (k as real) * l <= REACH * REACH
    ensures (r as real) * (r as real) * l <= REACH * REACH < ((r + 1) as real) * ((r + 1) as real) * l
    decreases (REACH * REACH / l).Floor + 1 - k
  {
    if ((k + 1) as real) * ((k + 1) as real) * l <= REACH * REACH then
      StepsBounded(l, k + 1);
      StepsOut(l, k + 1)
    else k
  }

  lemma StepsBounded(l: real, k: nat)
    requires l > 0.0 && k >= 1 && (k as real) * (k as real) * l <= REACH * REACH
    ensures k <= (REACH * REACH / l).Floor
  {
    var kr, q := k as real, REACH * REACH / l;
    var kl := Product(kr, l);
    var more := Product(kr - 1.0, kl);
    assert kl + more == kr * kr * l;
    if kr > q { var gap := Product(l, kr - q); }
  }

  // The squared distance between two moments of a flight.
  lemma BehindBy(p: Point, d: Point, a: real, b: real)
    ensures DistSq(Along(p, d, a), Along(p, d, b)) == (b - a) * (b - a) * Dot(d, d)
  {
    var w := (b - a) * (b - a);
    BehindAxis(p.x, d.x, a, b, w);
    BehindAxis(p.y, d.y, a, b, w);
    SumScaled(w, d.x * d.x, d.y * d.y);
  }

  lemma BehindAxis(p: real, d: real, a: real, b: real, w: real)
    requires w == (b - a) * (b - a)
    ensures Sq((p + d * a) - (p + d * b)) == w * (d * d)
  {
  }

  lemma SumScaled(k: real, a: real, b: real)
    ensures k * a + k * b == k * (a + b)
  {
  }

  lemma Positive(d: Point)
    requires d.x != 0.0 || d.y != 0.0
    ensures Dot(d, d) > 0.0
  {
    DotSelf(d);
    if d.x != 0.0 { SqPositive(d.x); } else { SqPositive(d.y); }
  }

  lemma SqPositive(a: real)
    requires a != 0.0
    ensures Sq(a) > 0.0
  {
    var square := Product(a, a);
  }

  lemma NearBehind(p: Point, d: Point, k: real, within: real, m: real)
    requires within == k * k * Dot(d, d) && m == -k
    ensures DistSq(Along(p, d, m), Along(p, d, 0.0)) == within
  {
    BehindBy(p, d, m, 0.0);
    assert (0.0 - m) * (0.0 - m) == k * k;
  }

  lemma FarBehind(p: Point, d: Point, k: real, beyond: real, m: real)
    requires beyond == (k + 1.0) * (k + 1.0) * Dot(d, d) && m == -k
    ensures DistSq(Along(p, d, m), Along(p, d, 1.0)) == beyond
  {
    BehindBy(p, d, m, 1.0);
    assert (1.0 - m) * (1.0 - m) == (k + 1.0) * (k + 1.0);
  }

  lemma LastStepInReach(l: real) returns (k: real, within: real, beyond: real)
    requires l > 0.0
    ensures within == k * k * l && beyond == (k + 1.0) * (k + 1.0) * l && within <= REACH * REACH < beyond
  {
    var steps := StepsOut(l, 0);
    k := steps as real;
    assert (steps + 1) as real == k + 1.0;
    within, beyond := k * k * l, (k + 1.0) * (k + 1.0) * l;
  }

  // A short move leaves some enemy unhit that it grazed at its start.
  lemma GrazeMissed(previous: Point, current: Point) returns (e: Point)
    requires var d := Minus(current, previous); 0.0 < Dot(d, d) <= CUTOFF
    ensures Touches(previous, Minus(current, previous), 0.0, 1.0, e) && !Hits(previous, current, e)
  {
    var d := Minus(current, previous);
    var k, within, beyond := LastStepInReach(Dot(d, d));
    e := Along(previous, d, -k);
    EndOfSegment(previous, current);
    NearBehind(previous, d, k, within, -k);
    FarBehind(previous, d, k, beyond, -k);
    TouchesAt(previous, d, 0.0, 1.0, e, 0.0);
  }

  lemma ShortHits(previous: Point, current: Point, d: Point, e: Point)
    requires d == Minus(current, previous) && Dot(d, d) <= CUTOFF
    ensures Hits(previous, current, e) <==> Near(e, current)
  {
  }

  lemma StandingTouches(p: Point, d: Point, e: Point)
    requires d == Point(0.0, 0.0)
    ensures Touches(p, d, 0.0, 1.0, e) <==> Near(e, p)
  {
    Standing(p, d, 0.0);
    if Touches(p, d, 0.0, 1.0, e) {
      var s :| 0.0 <= s <= 1.0 && Near(e, Along(p, d, s));
      Standing(p, d, s);
    }
  }

  lemma Standing(p: Point, d: Point, s: real)
    requires d.x == 0.0 && d.y == 0.0
    ensures Along(p, d, s) == p
  {
  }

  lemma NoMove(d: Point)
    requires d == Point(0.0, 0.0)
    ensures Dot(d, d) <= CUTOFF
  {
  }

  lemma NoMoveTouches(previous: Point, current: Point, d: Point, e: Point)
    requires d == Point(0.0, 0.0) && previous == current
    ensures Touches(previous, d, 0.0, 1.0, e) <==> Near(e, current)
  {
    StandingTouches(previous, d, e);
  }

  lemma NoMoveIsExact(previous: Point, current: Point, d: Point, e: Point)
    requires d == Minus(current, previous) && Dot(d, d) <= CUTOFF
    requires Touches(previous, d, 0.0, 1.0, e) <==> Near(e, current)
    ensures Hits(previous, current, e) <==> Touches(previous, d, 0.0, 1.0, e)
  {
    ShortHits(previous, current, d, e);
  }

  /** Exactly when the test is right about every enemy: when the move is above the cutoff, or is no move.
      A shorter move can leave behind an enemy it grazed at its start. */
  lemma ExactIff(previous: Point, current: Point)
    ensures var d := Minus(current, previous);
            (forall e :: Hits(previous, current, e) <==> Touches(previous, d, 0.0, 1.0, e))
            <==> Dot(d, d) > CUTOFF || d == Point(0.0, 0.0)
  {
    var d := Minus(current, previous);
    if d == Point(0.0, 0.0) {
      forall e ensures Hits(previous, current, e) <==> Touches(previous, d, 0.0, 1.0, e) {
        NoMove(d);
        NoMoveTouches(previous, current, d, e);
        NoMoveIsExact(previous, current, d, e);
      }
    } else if Dot(d, d) > CUTOFF {
      forall e { HitsIffTouches(previous, current, e); }
    } else {
      Positive(d);
      var e := GrazeMissed(previous, current);
    }
  }

  // -------- How wrong a short move can be --------

  /** An enemy that a short move touches but does not hit is at most a thousandth beyond reach of its end. */
  lemma ShortMoveError(previous: Point, current: Point, e: Point)
    requires var d := Minus(current, previous); Dot(d, d) <= CUTOFF
    requires Touches(previous, Minus(current, previous), 0.0, 1.0, e)
    ensures DistSq(e, current) <= (REACH + 0.001) * (REACH + 0.001)
  {
    var d := Minus(current, previous);
    var t :| 0.0 <= t <= 1.0 && Near(e, Along(previous, d, t));
    var q := Along(previous, d, t);
    var w, u := Minus(e, q), Minus(q, current);
    RestOfMove(previous, current, t);
    DistIsDot(e, q);
    SumOfSquares(e, q, current);
    DotBound(w, u);
  }

  lemma DotBound(w: Point, u: Point)
    requires Dot(w, w) <= REACH * REACH && Dot(u, u) <= CUTOFF
    ensures Dot(w, u) <= REACH * 0.001
  {
    var square, bound := CauchySchwarz(w, u);
    DotSelf(w);
    DotSelf(u);
    BoundOfProduct(Dot(w, w), Dot(u, u), bound);
    RootBound(Dot(w, u), 0.0006);
  }

  lemma BoundOfProduct(a: real, b: real, ab: real)
    requires 0.0 <= a <= REACH * REACH && 0.0 <= b <= CUTOFF && ab == a * b
    ensures ab <= Sq(0.0006)
  {
    var slack := Product(a, 0.000001 - b);
    assert Sq(0.0006) == 0.00000036;
  }

  lemma RestOfMove(previous: Point, current: Point, t: real)
    requires 0.0 <= t <= 1.0
    ensures var d := Minus(current, previous);
            var u := Minus(Along(previous, d, t), current);
            Dot(u, u) <= Dot(d, d)
  {
    var d := Minus(current, previous);
    var u := Minus(Along(previous, d, t), current);
    RestShrinks(previous.x, current.x, d.x, t, 1.0 - t, u.x);
    RestShrinks(previous.y, current.y, d.y, t, 1.0 - t, u.y);
  }

  lemma RestShrinks(p: real, c: real, d: real, t: real, r: real, u: real)
    requires d == c - p && u == (p + d * t) - c && r == 1.0 - t && 0.0 <= r <= 1.0
    ensures u * u <= d * d
  {
    var rd := r * d;
    var square := Product(d, d);
    assert u == -rd;
    var unit := Product(1.0 - r, 1.0 + r);
    var slack := Product(square, unit);
    assert slack == square - rd * rd;
  }
}
