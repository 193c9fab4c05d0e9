/** What debuffs do to an enemy: how far the slows let it walk, how long a stun holds it, what burning costs. */
module EnemyLaws {
  import opened Geometry
  import opened Movement
  import opened Debuffs
  import opened Enemies

  // What is left of the speed: each slow that outlasts dt takes its percentage of what the others leave, and one of
  // a hundred percent or more takes everything.
  function Pace(slows: seq<Slow>, dt: real): real
  {
    if slows == [] then 1.0
    else if slows[0].remaining <= dt then Pace(slows[1..], dt)
    else if slows[0].percent >= 100.0 then 0.0
    else Pace(slows[1..], dt) * (100.0 - slows[0].percent) / 100.0
  }

  lemma NothingBefore(x: Slow, rest: seq<Slow>)
    ensures [] + [x] + rest == [x] + rest && [] + rest == rest
  {
  }

  lemma MultiplierCons(x: Slow, rest: seq<Slow>)
    ensures Multiplier([x] + rest) == Multiplier(rest) * Ratio(x)
  {
    NothingBefore(x, rest);
    MultiplierTakesOut([], x, rest);
  }

  lemma RatioLeft(m: real, x: Slow, p: real)
    requires p == if x.percent >= 100.0 then 0.0 else m * (100.0 - x.percent) / 100.0
    ensures m * Ratio(x) == p
  {
    if x.percent >= 100.0 { assert Ratio(x) == 0.0; }
  }

  lemma PaceCons(slows: seq<Slow>, dt: real)
    requires slows != [] && slows[0].remaining > dt
    requires Multiplier(AgeSlows(slows[1..], dt)) == Pace(slows[1..], dt)
    ensures Multiplier(AgeSlows(slows, dt)) == Pace(slows, dt)
  {
    var s, rest := slows[0].(remaining := slows[0].remaining - dt), AgeSlows(slows[1..], dt);
    RatioLeft(Multiplier(rest), s, Pace(slows, dt));
    MultiplierCons(s, rest);
    assert AgeSlows(slows, dt) == [s] + rest;
  }

  /** The multiplier kept in the cached percentage is the pace, whatever slows have run out. */
  lemma {:induction false} MultiplierIsPace(slows: seq<Slow>, dt: real)
    ensures Multiplier(AgeSlows(slows, dt)) == Pace(slows, dt)
  {
    if slows != [] {
      MultiplierIsPace(slows[1..], dt);
      if slows[0].remaining > dt {
        PaceCons(slows, dt);
      } else {
        assert [] + AgeSlows(slows[1..], dt) == AgeSlows(slows[1..], dt);
      }
    }
  }

  // The percentage in between loses nothing.
  lemma SpeedIsPace(slows: seq<Slow>, dt: real)
    requires Positive(slows)
    ensures SpeedMultiplier(SlowPercent(Multiplier(AgeSlows(slows, dt)))) == Pace(slows, dt)
  {
    AgedStayPositive(slows, dt);
    SpeedIsProduct(AgeSlows(slows, dt));
    MultiplierIsPace(slows, dt);
  }

  lemma LengthIs(speed: real, percent: real, dt: real, pace: real, step: real)
    requires pace == SpeedMultiplier(percent) && step == speed * pace * dt
    ensures StepLength(speed, percent, dt) == step
  {
  }

  lemma MoveIs(sqrt: real -> real, b: Body, dt: real, step: real)
    requires !b.health.dead && (!b.stun.on || b.stun.duration <= dt)
    requires StepLength(b.moveSpeed, Aged(b, dt).slowPercent, dt) == step
    ensures UpdateBody(sqrt, b, dt).body.mover == Move(sqrt, b.mover, step).mover
    ensures UpdateBody(sqrt, b, dt).arrived == Move(sqrt, b.mover, step).arrived
  {
  }

  // The step of an enemy that is not stunned when it walks.
  lemma StepIsPaced(sqrt: real -> real, b: Body, dt: real, pace: real, step: real)
    requires Wellformed(b) && !b.health.dead && (!b.stun.on || b.stun.duration <= dt)
    requires pace == Pace(b.slows, dt) && step == b.moveSpeed * pace * dt
    ensures UpdateBody(sqrt, b, dt).body.mover == Move(sqrt, b.mover, step).mover
    ensures UpdateBody(sqrt, b, dt).arrived == Move(sqrt, b.mover, step).arrived
  {
    SpeedIsPace(b.slows, dt);
    LengthIs(b.moveSpeed, Aged(b, dt).slowPercent, dt, pace, step);
    MoveIs(sqrt, b, dt, step);
  }

  lemma StepLands(sqrt: real -> real, p: Point, target: Point, d: real, m: real)
    requires IsSqrt(sqrt) && d == Dist(sqrt, target, p) && d > 0.0 && m >= 0.0
    ensures Dist(sqrt, Toward(p, target, d, m), p) == m
  {
    DistIsRoot(sqrt, target, p);
    var x, y := (target.x - p.x) / d, (target.y - p.y) / d;
    UnitDirection(x, y, d, m);
    RootIs(sqrt, Toward(p, target, d, m), p, m);
  }

  /** An enemy that no stun holds walks its speed times its pace times the time, straight at its waypoint: it
      is there exactly if that is at least the distance, and nearer by exactly that otherwise. A waypoint within
      0.001 is passed without a step. */
  lemma WalksItsPace(sqrt: real -> real, b: Body, dt: real, pace: real, step: real)
    requires IsSqrt(sqrt) && Wellformed(b) && !b.health.dead && (!b.stun.on || b.stun.duration <= dt)
    requires pace == Pace(b.slows, dt) && step == b.moveSpeed * pace * dt >= 0.0
    requires b.mover.index < |b.mover.waypoints|
    ensures var m, target := UpdateBody(sqrt, b, dt).body.mover, b.mover.waypoints[b.mover.index];
            var distance := Dist(sqrt, target, b.mover.position);
            && !UpdateBody(sqrt, b, dt).arrived
            && (distance <= ARRIVED ==> m == b.mover.(index := b.mover.index + 1))
            && (ARRIVED < distance <= step ==> m == b.mover.(index := b.mover.index + 1, position := target))
            && (ARRIVED < distance && step < distance ==>
                  && m == b.mover.(position := m.position)
                  && Dist(sqrt, target, m.position) == distance - step
                  && Dist(sqrt, m.position, b.mover.position) == step)
  {
    var target := b.mover.waypoints[b.mover.index];
    var distance := Dist(sqrt, target, b.mover.position);
    StepIsPaced(sqrt, b, dt, pace, step);
    if ARRIVED < distance && step < distance {
      StepShortens(sqrt, b.mover.position, target, step);
      StepLands(sqrt, b.mover.position, target, distance, step);
    }
  }

  /** One that a stun outlasting dt holds stays where it is; one past its last waypoint arrives, and stays too. */
  lemma StandsStill(sqrt: real -> real, b: Body, dt: real)
    requires !b.health.dead
    ensures b.stun.on && b.stun.duration > dt ==>
              UpdateBody(sqrt, b, dt).body.mover == b.mover && !UpdateBody(sqrt, b, dt).arrived
    ensures (!b.stun.on || b.stun.duration <= dt) && b.mover.index >= |b.mover.waypoints| ==>
              UpdateBody(sqrt, b, dt).body.mover == b.mover && UpdateBody(sqrt, b, dt).arrived
  {
  }

  // -------- A new enemy, and new debuffs --------

  /** A new enemy is whole and free, and walks at full speed from where it is put to the second point of its path. */
  lemma StartsFree(sqrt: real -> real, maxHp: int, speed: real, position: Point, path: seq<Point>, dt: real)
    requires IsSqrt(sqrt) && maxHp > 0 && speed * dt >= 0.0 && |path| > 1
    requires Dist(sqrt, path[1], position) > ARRIVED && Dist(sqrt, path[1], position) > speed * dt
    ensures var b := NewBody(maxHp, speed, position, path);
            var m := UpdateBody(sqrt, b, dt).body.mover;
            && Wellformed(b) && b.health == Health(maxHp, false) && b.stun == Stun(false, 0.0) && b.dots == []
            && Dist(sqrt, path[1], m.position) == Dist(sqrt, path[1], position) - speed * dt
            && Dist(sqrt, m.position, position) == speed * dt
  {
    var b := NewBody(maxHp, speed, position, path);
    assert Pace([], dt) == 1.0;
    WalksItsPace(sqrt, b, dt, 1.0, speed * dt);
  }

  // What is left of a speed with this slow on it.
  function Slowed(pace: real, percent: real): real
  {
    if percent >= 100.0 then 0.0 else pace * (100.0 - percent) / 100.0
  }

  lemma SlowedTwice(pace: real, p: real, q: real)
    ensures Slowed(Slowed(pace, p), q) == Slowed(Slowed(pace, q), p)
  {
    if p < 100.0 && q < 100.0 {
      Commute(pace, 100.0 - p, 100.0 - q);
    }
  }

  lemma Commute(a: real, p: real, q: real)
    ensures a * p / 100.0 * q / 100.0 == a * q / 100.0 * p / 100.0
  {
    assert a * p * q == a * q * p;
    assert a * p / 100.0 * q == a * p * q / 100.0;
    assert a * q / 100.0 * p == a * q * p / 100.0;
  }

  lemma {:induction false} PaceSnoc(slows: seq<Slow>, s: Slow, dt: real)
    ensures Pace(slows + [s], dt) == if s.remaining <= dt then Pace(slows, dt) else Slowed(Pace(slows, dt), s.percent)
  {
    if slows == [] {
      assert ([] + [s])[1..] == [];
    } else {
      assert (slows + [s])[1..] == slows[1..] + [s];
      PaceSnoc(slows[1..], s, dt);
      if slows[0].remaining > dt && s.remaining > dt {
        SlowedTwice(Pace(slows[1..], dt), slows[0].percent, s.percent);
      }
    }
  }

  /** A slow takes its percentage of the pace for as long as it lasts, and nothing else; without strength or duration
      it is no slow. */
  lemma SlowTakesPace(b: Body, percent: real, duration: real, dt: real)
    ensures var r := Afflicted(b, Slowing(percent, duration));
            if percent <= 0.0 || duration <= 0.0 then r == b
            else
              && Pace(r.slows, dt) == (if dt < duration then Slowed(Pace(b.slows, dt), percent) else Pace(b.slows, dt))
              && r == b.(slows := r.slows, slowPercent := r.slowPercent)
  {
    PaceSnoc(b.slows, Slow(percent, duration), dt);
  }

  /** A stun holds an enemy until the longer of it and the one before is over. */
  lemma StunHolds(sqrt: real -> real, b: Body, duration: real, dt: real)
    requires !b.health.dead
    ensures var r := Afflicted(b, Stunning(duration));
            if duration <= 0.0 then r == b
            else
              && r == b.(stun := r.stun) && r.stun.on
              && (UpdateBody(sqrt, r, dt).body.stun.on <==> dt < duration || dt < b.stun.duration)
  {
  }

  // What is left of a stun after some time.
  function StunLeft(s: Stun, time: real): Stun
  {
    if s.on && time < s.duration then Stun(true, s.duration - time)
    else if s.on then Stun(false, 0.0)
    else s
  }

  lemma StunPasses(s: Stun, a: real, b: real)
    requires a >= 0.0 && b >= 0.0 && (s.on ==> s.duration > 0.0)
    ensures StunLeft(AgeStun(s, a), b) == StunLeft(s, a + b)
    ensures AgeStun(s, a).on ==> AgeStun(s, a).duration > 0.0
  {
  }

  /** A stun lasts its time, over any frames, as long as the enemy lives. */
  lemma {:induction false} StunLasts(sqrt: real -> real, b: Body, dts: seq<real>)
    requires Forward(dts) && (b.stun.on ==> b.stun.duration > 0.0) && !After(sqrt, b, dts).health.dead
    ensures After(sqrt, b, dts).stun == StunLeft(b.stun, Sum(dts))
    decreases |dts|
  {
    if b.health.dead {
      DeadStays(sqrt, b, dts);
    } else if dts != [] {
      SumNonNegative(dts[1..]);
      StunPasses(b.stun, dts[0], Sum(dts[1..]));
      StunLasts(sqrt, UpdateBody(sqrt, b, dts[0]).body, dts[1..]);
    }
  }

  lemma {:induction false} DeadStays(sqrt: real -> real, b: Body, dts: seq<real>)
    requires b.health.dead
    ensures After(sqrt, b, dts) == b
    decreases |dts|
  {
    if dts != [] { DeadStays(sqrt, b, dts[1..]); }
  }

  /** Damage adds up until it kills; a dead enemy takes none. */
  lemma DamageAdds(h: Health, a: nat, b: nat)
    requires !h.dead ==> h.hp > 0
    ensures var r := TakeDamage(TakeDamage(h, a), b);
            if h.dead then r == h
            else if h.hp <= a then r == Health(h.hp - a, true)
            else r == Health(h.hp - (a + b), h.hp <= a + b)
  {
  }

  lemma {:induction false} OwedSnoc(dots: seq<Dot>, d: Dot, dts: seq<real>)
    ensures Owed(dots + [d], dts)
         == Owed(dots, dts) + WholeTicks(d.elapsed + Lifetime(d.remaining, dts)) * Trunc(d.damagePerTick)
  {
    if dots == [] {
      assert ([] + [d])[1..] == [];
    } else {
      assert (dots + [d])[1..] == dots[1..] + [d];
      OwedSnoc(dots[1..], d, dts);
    }
  }

  /** Burning costs its damage once for every whole second of its lifetime, over any frames, and the enemy owes it on
      top of what it owed. */
  lemma BurningCosts(b: Body, damage: real, duration: real, dts: seq<real>)
    ensures var r := Afflicted(b, Burning(damage, duration));
            if damage <= 0.0 || duration <= 0.0 then r == b
            else
              && Owed(r.dots, dts) == Owed(b.dots, dts) + WholeTicks(Lifetime(duration, dts)) * Trunc(damage)
              && r == b.(dots := r.dots)
  {
    OwedSnoc(b.dots, Dot(damage, duration, 0.0), dts);
    assert 0.0 + Lifetime(duration, dts) == Lifetime(duration, dts);
  }

  /** New debuffs keep an enemy as one in play should be: none has run out, and the slow percentage is theirs. */
  lemma AfflictedStaysWellformed(b: Body, d: Debuff)
    requires Wellformed(b)
    ensures Wellformed(Afflicted(b, d))
  {
    match d
    case Slowing(percent, duration) =>
    case Stunning(duration) =>
    case Burning(damage, duration) =>
  }
}
