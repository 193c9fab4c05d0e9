/** Enemy movement along waypoints. The square root is a parameter, known only by its law. */
module Movement {
  import opened Geometry

  ghost predicate IsSqrt(sqrt: real -> real)
  {
    forall x :: x >= 0.0 ==> sqrt(x) >= 0.0 && sqrt(x) * sqrt(x) == x
  }

  const ARRIVED := 0.001

  datatype Mover = Mover(position: Point, waypoints: seq<Point>, index: nat)

  function Dist(sqrt: real -> real, a: Point, b: Point): real
  {
    sqrt(DistSq(a, b))
  }

  datatype Moved = Moved(mover: Mover, arrived: bool)

  // UpdateMovementLocked for an enemy that is not stunned.
  function Move(sqrt: real -> real, m: Mover, moveDistance: real): Moved
  {
    if m.index >= |m.waypoints| then Moved(m, true)
    else
      var target := m.waypoints[m.index];
      var distance := Dist(sqrt, target, m.position);
      if distance <= ARRIVED then Moved(m.(index := m.index + 1), false)
      else if moveDistance >= distance then Moved(m.(position := target, index := m.index + 1), false)
      else Moved(m.(position := Toward(m.position, target, distance, moveDistance)), false)
  }

  function Toward(p: Point, target: Point, distance: real, moveDistance: real): Point
    requires distance != 0.0
  {
    Point(p.x + (target.x - p.x) / distance * moveDistance, p.y + (target.y - p.y) / distance * moveDistance)
  }

  // -------- Distances --------

  lemma DistIsRoot(sqrt: real -> real, a: Point, b: Point)
    requires IsSqrt(sqrt)
    ensures Dist(sqrt, a, b) >= 0.0 && Sq(Dist(sqrt, a, b)) == DistSq(a, b)
  {
  }

  lemma RootIs(sqrt: real -> real, a: Point, b: Point, r: real)
    requires IsSqrt(sqrt) && r >= 0.0 && Sq(r) == DistSq(a, b)
    ensures Dist(sqrt, a, b) == r
  {
    DistIsRoot(sqrt, a, b);
    RootBound(Dist(sqrt, a, b), r);
    RootBound(r, Dist(sqrt, a, b));
  }

  lemma SquareOfProduct(a: real, b: real, p: real, x: real, y: real) returns (xy: real)
    requires p == a * b && x == Sq(a) && y == Sq(b)
    ensures xy == x * y && Sq(p) == xy
  {
    xy := x * y;
  }

  lemma SquareOfSum(a: real, b: real, p: real)
    requires p == a * b
    ensures Sq(a + b) == Sq(a) + 2.0 * p + Sq(b)
  {
  }

  lemma DotOfRoots(w: Point, u: Point, a: real, b: real) returns (p: real)
    requires a >= 0.0 && b >= 0.0 && Sq(a) == Dot(w, w) && Sq(b) == Dot(u, u)
    ensures p == a * b && Dot(w, u) <= p
  {
    var square, bound := CauchySchwarz(w, u);
    p := Product(a, b);
    var xy := SquareOfProduct(a, b, p, Dot(w, w), Dot(u, u));
    RootBound(Dot(w, u), p);
  }

  lemma Triangle(sqrt: real -> real, a: Point, b: Point, c: Point)
    requires IsSqrt(sqrt)
    ensures Dist(sqrt, a, c) <= Dist(sqrt, a, b) + Dist(sqrt, b, c)
  {
    var ab, bc, ac := Dist(sqrt, a, b), Dist(sqrt, b, c), Dist(sqrt, a, c);
    DistIsRoot(sqrt, a, b);
    DistIsRoot(sqrt, b, c);
    DistIsRoot(sqrt, a, c);
    DistIsDot(a, b);
    DistIsDot(b, c);
    var p := DotOfRoots(Minus(a, b), Minus(b, c), ab, bc);
    SumOfSquares(a, b, c);
    SquareOfSum(ab, bc, p);
    RootBound(ac, ab + bc);
  }

  // One coordinate of a step towards the target: what is left is the direction times the rest.
  lemma TowardAxis(p: real, target: real, distance: real, m: real) returns (dir: real)
    requires distance > 0.0
    ensures dir * distance == target - p
    ensures target - (p + (target - p) / distance * m) == dir * (distance - m)
  {
    dir := (target - p) / distance;
    StepBack(target, p, dir, distance, m);
  }

  lemma StepBack(target: real, p: real, dir: real, distance: real, m: real)
    requires dir * distance == target - p
    ensures target - (p + dir * m) == dir * (distance - m)
  {
  }

  lemma UnitDirection(x: real, y: real, distance: real, rest: real)
    requires distance > 0.0 && Sq(x * distance) + Sq(y * distance) == Sq(distance)
    ensures Sq(x * rest) + Sq(y * rest) == Sq(rest)
  {
    var norm := Sq(x) + Sq(y);
    Factor(x, y, distance, norm);
    Factor(x, y, rest, norm);
    var d2 := Product(distance, distance);
    assert (norm - 1.0) * d2 == 0.0;
    NoZeroFactor(norm - 1.0, d2);
  }

  lemma Factor(x: real, y: real, r: real, norm: real)
    requires norm == Sq(x) + Sq(y)
    ensures Sq(x * r) + Sq(y * r) == norm * Sq(r)
  {
  }

  lemma NoZeroFactor(a: real, b: real)
    requires a * b == 0.0 && b > 0.0
    ensures a == 0.0
  {
    var n := -a;
    assert n * b == -(a * b);
    if a > 0.0 { var ab := Product(a, b); }
    if a < 0.0 { var nb := Product(n, b); }
  }

  /** A step that does not reach the waypoint brings it nearer by exactly its length. */
  lemma StepShortens(sqrt: real -> real, p: Point, target: Point, m: real)
    requires IsSqrt(sqrt) && Dist(sqrt, target, p) > 0.0 && m <= Dist(sqrt, target, p)
    ensures var d := Dist(sqrt, target, p); Dist(sqrt, target, Toward(p, target, d, m)) == d - m
  {
    var d := Dist(sqrt, target, p);
    DistIsRoot(sqrt, target, p);
    var ux := TowardAxis(p.x, target.x, d, m);
    var uy := TowardAxis(p.y, target.y, d, m);
    UnitDirection(ux, uy, d, d - m);
    RootIs(sqrt, target, Toward(p, target, d, m), d - m);
  }

  // -------- Progress --------

  function Legs(sqrt: real -> real, waypoints: seq<Point>, from: nat): real
    requires from < |waypoints|
    decreases |waypoints| - from
  {
    if from + 1 == |waypoints| then 0.0
    else Dist(sqrt, waypoints[from], waypoints[from + 1]) + Legs(sqrt, waypoints, from + 1)
  }

  // The way still to go.
  function Route(sqrt: real -> real, m: Mover): real
  {
    if m.index >= |m.waypoints| then 0.0
    else Dist(sqrt, m.waypoints[m.index], m.position) + Legs(sqrt, m.waypoints, m.index)
  }

  lemma {:induction false} LegsNonNegative(sqrt: real -> real, waypoints: seq<Point>, from: nat)
    requires IsSqrt(sqrt) && from < |waypoints|
    ensures Legs(sqrt, waypoints, from) >= 0.0
    decreases |waypoints| - from
  {
    if from + 1 < |waypoints| {
      DistIsRoot(sqrt, waypoints[from], waypoints[from + 1]);
      LegsNonNegative(sqrt, waypoints, from + 1);
    }
  }

  lemma DistSymmetric(sqrt: real -> real, a: Point, b: Point)
    ensures Dist(sqrt, a, b) == Dist(sqrt, b, a)
  {
    SqEven(a.x - b.x, b.x - a.x);
    SqEven(a.y - b.y, b.y - a.y);
  }

  lemma SqEven(a: real, b: real)
    requires b == -a
    ensures Sq(a) == Sq(b)
  {
  }

  /** Every step before the waypoints run out either goes on to the next waypoint, from where it stands or
      from the waypoint reached, or shortens the distance to the current one by exactly its length. */
  lemma MoveProgress(sqrt: real -> real, m: Mover, moveDistance: real)
    requires IsSqrt(sqrt) && m.index < |m.waypoints|
    ensures var m', target := Move(sqrt, m, moveDistance).mover, m.waypoints[m.index];
            && !Move(sqrt, m, moveDistance).arrived && m'.waypoints == m.waypoints
            && (|| (m'.index == m.index + 1
                    && (m'.position == target || (m'.position == m.position && Dist(sqrt, target, m.position) <= ARRIVED)))
                || (m'.index == m.index
                    && Dist(sqrt, target, m'.position) == Dist(sqrt, target, m.position) - moveDistance
                    && Dist(sqrt, target, m'.position) > 0.0))
  {
    var target := m.waypoints[m.index];
    var distance := Dist(sqrt, target, m.position);
    if ARRIVED < distance && moveDistance < distance {
      StepShortens(sqrt, m.position, target, moveDistance);
    }
  }

  // Going on to the next waypoint from p costs no more than going there through this one.
  lemma SkipShortens(sqrt: real -> real, m: Mover, p: Point)
    requires IsSqrt(sqrt) && m.index < |m.waypoints|
    ensures Route(sqrt, m.(position := p, index := m.index + 1))
         <= Dist(sqrt, m.waypoints[m.index], p) + Legs(sqrt, m.waypoints, m.index)
  {
    DistIsRoot(sqrt, m.waypoints[m.index], p);
    if m.index + 1 < |m.waypoints| {
      var here, next := m.waypoints[m.index], m.waypoints[m.index + 1];
      Triangle(sqrt, p, here, next);
      DistSymmetric(sqrt, next, p);
      DistSymmetric(sqrt, here, p);
    }
  }

  /** The route never gets longer, and a step that stays on its waypoint shortens it by the step's length. */
  lemma RouteShrinks(sqrt: real -> real, m: Mover, moveDistance: real)
    requires IsSqrt(sqrt) && m.index < |m.waypoints| && moveDistance >= 0.0
    ensures var m' := Move(sqrt, m, moveDistance).mover;
            && m'.waypoints == m.waypoints && m.index <= m'.index <= m.index + 1
            && Route(sqrt, m') <= Route(sqrt, m)
            && (m'.index == m.index ==> Route(sqrt, m') == Route(sqrt, m) - moveDistance)
  {
    var m', target := Move(sqrt, m, moveDistance).mover, m.waypoints[m.index];
    MoveProgress(sqrt, m, moveDistance);
    if m'.index == m.index + 1 {
      SkipShortens(sqrt, m, m'.position);
      DistIsRoot(sqrt, target, m.position);
      if m'.position == target { RootIs(sqrt, target, target, 0.0); }
    }
  }

  lemma RouteNonNegative(sqrt: real -> real, m: Mover)
    requires IsSqrt(sqrt)
    ensures Route(sqrt, m) >= 0.0
  {
    if m.index < |m.waypoints| {
      DistIsRoot(sqrt, m.waypoints[m.index], m.position);
      LegsNonNegative(sqrt, m.waypoints, m.index);
    }
  }

  predicate ArrivesWithin(sqrt: real -> real, m: Mover, steps: seq<real>)
    decreases |steps|
  {
    steps != [] &&
    (Move(sqrt, m, steps[0]).arrived || ArrivesWithin(sqrt, Move(sqrt, m, steps[0]).mover, steps[1..]))
  }

  function StepsOver(m: Mover, n: nat): int
  {
    n - (|m.waypoints| - m.index)
  }

  /** Termination, with a bound: if every step is at least delta long, the arrival callback has fired once
      there have been more steps than waypoints left plus route length over delta. */
  lemma ArrivalBound(sqrt: real -> real, m: Mover, steps: seq<real>, delta: real)
    requires IsSqrt(sqrt) && delta > 0.0 && m.index <= |m.waypoints|
    requires forall i :: 0 <= i < |steps| ==> steps[i] >= delta
    requires delta * (StepsOver(m, |steps|) as real) > Route(sqrt, m)
    ensures ArrivesWithin(sqrt, m, steps)
  {
    ArrivesOnBudget(sqrt, m, steps, delta, delta * (StepsOver(m, |steps|) as real));
  }

  // n steps to come, each at least delta long, are more than the route and the waypoints left can take.
  ghost predicate OverBudget(sqrt: real -> real, m: Mover, n: nat, delta: real, budget: real)
  {
    m.index <= |m.waypoints| && budget == delta * (StepsOver(m, n) as real) && budget > Route(sqrt, m)
  }

  lemma StepOnBudget(sqrt: real -> real, m: Mover, m': Mover, step: real, n: nat, delta: real, budget: real)
      returns (left: real)
    requires delta > 0.0 && step >= delta && n > 0
    requires OverBudget(sqrt, m, n, delta, budget) && m.index < |m.waypoints|
    requires m'.waypoints == m.waypoints && m.index <= m'.index <= m.index + 1
    requires Route(sqrt, m') <= Route(sqrt, m)
    requires m'.index == m.index ==> Route(sqrt, m') == Route(sqrt, m) - step
    ensures OverBudget(sqrt, m', n - 1, delta, left)
  {
    left := BudgetLeft(m, m', n, delta, budget);
  }

  lemma BudgetLeft(m: Mover, m': Mover, n: nat, delta: real, budget: real) returns (left: real)
    requires n > 0 && m'.waypoints == m.waypoints && m.index <= m'.index <= m.index + 1
    requires budget == delta * (StepsOver(m, n) as real)
    ensures left == delta * (StepsOver(m', n - 1) as real)
    ensures left == if m'.index == m.index then budget - delta else budget
  {
    if m'.index == m.index {
      OneLess(delta, StepsOver(m, n), budget);
      left := budget - delta;
    } else {
      left := budget;
    }
  }

  lemma {:induction false} ArrivesOnBudget(sqrt: real -> real, m: Mover, steps: seq<real>, delta: real, budget: real)
    requires IsSqrt(sqrt) && delta > 0.0
    requires forall i :: 0 <= i < |steps| ==> steps[i] >= delta
    requires OverBudget(sqrt, m, |steps|, delta, budget)
    ensures ArrivesWithin(sqrt, m, steps)
    decreases |steps|
  {
    RouteNonNegative(sqrt, m);
    StepsRemain(delta, StepsOver(m, |steps|), budget);
    if m.index < |m.waypoints| {
      var m' := Move(sqrt, m, steps[0]).mover;
      RouteShrinks(sqrt, m, steps[0]);
      var left := StepOnBudget(sqrt, m, m', steps[0], |steps|, delta, budget);
      ArrivesOnBudget(sqrt, m', steps[1..], delta, left);
    }
  }

  lemma StepsRemain(delta: real, n: int, budget: real)
    requires delta > 0.0 && budget == delta * (n as real) && budget > 0.0
    ensures n > 0
  {
    var m := -(n as real);
    assert delta * m == -budget;
    if n <= 0 { var dm := Product(delta, m); }
  }

  lemma OneLess(delta: real, n: int, budget: real)
    requires budget == delta * (n as real)
    ensures budget - delta == delta * ((n - 1) as real)
  {
    assert (n - 1) as real == n as real - 1.0;
  }
}
