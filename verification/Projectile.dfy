/** Projectile: straight flight, the sweep over the enemies passed, and what a hit does. */
module Projectiles {
  import opened Wire
  import opened Geometry
  import opened Collision
  import opened Sorting
  import Movement

  datatype HitType = Impact | Pierce | NoHitType

  datatype Shot = Shot(
    active: bool, isChase: bool, hitType: HitType, target: Option<nat>,
    position: Point, direction: Point, speed: real, duration: real, elapsed: real,
    hit: set<nat>)

  // ReturnToPool: deactivated and reset; the hit type is not reset.
  function Returned(s: Shot): Shot
  {
    if !s.active then s
    else Shot(false, false, s.hitType, None, Point(0.0, 0.0), Point(0.0, 0.0), 0.0, 0.0, 0.0, {})
  }

  datatype Swept = Swept(shot: Shot, struck: seq<nat>)

  // OnHit: a chasing impact shot strikes its target only; nobody is struck twice.
  function Strike(s: Shot, id: nat): Swept
  {
    if (s.hitType == Impact && s.isChase && s.target != Some(id)) || id in s.hit then Swept(s, [])
    else
      var struck := s.(hit := s.hit + {id});
      if s.hitType == Impact || (s.hitType == Pierce && s.isChase && s.target == Some(id)) then
        Swept(Returned(struck), [id])
      else Swept(struck, [id])
  }

  // CheckCollision over the enemies in id order, until the shot is returned.
  function Sweep(s: Shot, previous: Point, current: Point, enemies: seq<Keyed<Point>>): Swept
    decreases |enemies|
  {
    if enemies == [] then Swept(s, [])
    else
      var e := enemies[0];
      if e.id in s.hit || !Hits(previous, current, e.value) then Sweep(s, previous, current, enemies[1..])
      else
        var first := Strike(s, e.id);
        if !first.shot.active then first
        else
          var more := Sweep(first.shot, previous, current, enemies[1..]);
          more.(struck := first.struck + more.struck)
  }

  // How far a shot moves.
  function Reach(s: Shot, deltaTime: real): real
  {
    s.speed * deltaTime
  }

  function Advanced(s: Shot, deltaTime: real): Point
  {
    Point(s.position.x + s.direction.x * Reach(s, deltaTime), s.position.y + s.direction.y * Reach(s, deltaTime))
  }

  function Flown(s: Shot, deltaTime: real): Shot
  {
    s.(position := Advanced(s, deltaTime))
  }

  function FlyOn(s: Shot, deltaTime: real, enemies: seq<Keyed<Point>>): Swept
  {
    Sweep(Flown(s, deltaTime), s.position, Advanced(s, deltaTime), enemies)
  }

  // Direct: expire, or move and sweep the way moved.
  function DirectStep(s: Shot, deltaTime: real, enemies: seq<Keyed<Point>>): Swept
  {
    var older := s.(elapsed := s.elapsed + deltaTime);
    if older.elapsed >= s.duration then Swept(Returned(older), [])
    else
      FlyOn(older, deltaTime, enemies)
  }

  const OVERLAPPING := 0.0001

  // Where a chasing shot goes: onto its target, or straight towards it.
  function Chased(sqrt: real -> real, s: Shot, target: Point, deltaTime: real): Shot
  {
    var distance := Movement.Dist(sqrt, target, s.position);
    if distance <= OVERLAPPING || Reach(s, deltaTime) >= distance then s.(position := target)
    else s.(direction := Toward(s.position, target, distance),
            position := Movement.Toward(s.position, target, distance, Reach(s, deltaTime)))
  }

  function Toward(p: Point, target: Point, distance: real): Point
    requires distance != 0.0
  {
    Point((target.x - p.x) / distance, (target.y - p.y) / distance)
  }

  // Chase: back to the pool when the target is gone or inactive, or move and sweep the way moved.
  // `target` is where the target is, if it is still active.
  function ChaseStep(sqrt: real -> real, s: Shot, target: Option<Point>, deltaTime: real, enemies: seq<Keyed<Point>>): Swept
  {
    if s.target.None? || target.None? then Swept(Returned(s), [])
    else
      var moved := Chased(sqrt, s, target.value, deltaTime);
      Sweep(moved, s.position, moved.position, enemies)
  }

  // What a shot meets in one update.
  datatype Surroundings = Surroundings(deltaTime: real, target: Option<Point>, enemies: seq<Keyed<Point>>)

  // Update: a shot that has been returned stays inactive.
  function Tick(sqrt: real -> real, s: Shot, u: Surroundings): Swept
  {
    if !s.active then Swept(s, [])
    else if s.isChase then ChaseStep(sqrt, s, u.target, u.deltaTime, u.enemies)
    else DirectStep(s, u.deltaTime, u.enemies)
  }

  class Projectile {
    var m_active: bool
    var m_isChase: bool
    var m_hitType: HitType
    var m_target: Option<nat>
    var m_position: Point
    var m_direction: Point
    var m_speed: real
    var m_activeDuration: real
    var m_elapsedTime: real
    var m_hitedEnemies: set<nat>
    var attacked: seq<nat>  // calls of the attack callback

    function State(): Shot
      reads this
    {
      Shot(m_active, m_isChase, m_hitType, m_target, m_position, m_direction, m_speed, m_activeDuration,
           m_elapsedTime, m_hitedEnemies)
    }

    constructor (shot: Shot)
      ensures State() == shot && attacked == []
    {
      m_active, m_isChase, m_hitType, m_target := shot.active, shot.isChase, shot.hitType, shot.target;
      m_position, m_direction, m_speed := shot.position, shot.direction, shot.speed;
      m_activeDuration, m_elapsedTime, m_hitedEnemies := shot.duration, shot.elapsed, shot.hit;
      attacked := [];
    }

    method ReturnToPool()
      modifies this
      ensures State() == Returned(old(State())) && attacked == old(attacked)
    {
      if !m_active {
        return;
      }
      m_active, m_isChase, m_target := false, false, None;
      m_position, m_direction := Point(0.0, 0.0), Point(0.0, 0.0);
      m_speed, m_activeDuration, m_elapsedTime, m_hitedEnemies := 0.0, 0.0, 0.0, {};
    }

    method OnHit(enemyId: nat)
      modifies this
      ensures var r := Strike(old(State()), enemyId);
              State() == r.shot && attacked == old(attacked) + r.struck
    {
      if m_hitType == Impact {
        if m_isChase {
          if m_target.None? || m_target.value != enemyId {
            return;
          }
        }
      }
      if enemyId in m_hitedEnemies {
        return;
      }
      m_hitedEnemies := m_hitedEnemies + {enemyId};
      attacked := attacked + [enemyId];
      if m_hitType == Impact {
        ReturnToPool();
        return;
      }
      if m_hitType == Pierce {
        if m_isChase {
          if m_target == Some(enemyId) {
            ReturnToPool();
          }
        }
      }
    }

    /** The sweep does not depend on the order of the snapshot: it runs over the enemies sorted by id. */
    method CheckCollision(previous: Point, current: Point, snapshot: seq<Keyed<Point>>)
      returns (ghost enemies: seq<Keyed<Point>>)
      requires m_active && DistinctIds(snapshot)
      requires forall e | e in snapshot :: e.key == 0.0
      modifies this
      ensures StrictlySorted(enemies) && SameElements(snapshot, enemies)
      ensures var r := Sweep(old(State()), previous, current, enemies);
              State() == r.shot && attacked == old(attacked) + r.struck
    {
      var sorted := Sort(snapshot);
      enemies := sorted;
      var i := 0;
      assert attacked + Sweep(State(), previous, current, sorted[0..]).struck
          == old(attacked) + Sweep(State(), previous, current, sorted).struck;
      while i < |sorted|
        invariant 0 <= i <= |sorted| && m_active
        invariant var all, rest := Sweep(old(State()), previous, current, sorted),
                                   Sweep(State(), previous, current, sorted[i..]);
                  all.shot == rest.shot && old(attacked) + all.struck == attacked + rest.struck
      {
        var e := sorted[i];
        assert sorted[i..][1..] == sorted[i + 1..];
        i := i + 1;
        if e.id in m_hitedEnemies || !Hits(previous, current, e.value) {
          continue;
        }
        ghost var before := State();
        ConcatAssoc(attacked, Strike(before, e.id).struck,
                    Sweep(Strike(before, e.id).shot, previous, current, sorted[i..]).struck);
        OnHit(e.id);
        if !m_active {
          return;
        }
      }
    }

    method Direct(deltaTime: real, snapshot: seq<Keyed<Point>>) returns (ghost enemies: seq<Keyed<Point>>)
      requires m_active && DistinctIds(snapshot)
      requires forall e | e in snapshot :: e.key == 0.0
      modifies this
      ensures old(m_elapsedTime) + deltaTime < old(m_activeDuration) ==>
                StrictlySorted(enemies) && SameElements(snapshot, enemies)
      ensures var r := DirectStep(old(State()), deltaTime, enemies);
              State() == r.shot && attacked == old(attacked) + r.struck
    {
      m_elapsedTime := m_elapsedTime + deltaTime;
      if m_elapsedTime >= m_activeDuration {
        enemies := [];
        ReturnToPool();
        assert attacked + [] == attacked;
        return;
      }
      enemies := Advance(deltaTime, snapshot);
    }

    method Advance(deltaTime: real, snapshot: seq<Keyed<Point>>) returns (ghost enemies: seq<Keyed<Point>>)
      requires m_active && DistinctIds(snapshot)
      requires forall e | e in snapshot :: e.key == 0.0
      modifies this
      ensures StrictlySorted(enemies) && SameElements(snapshot, enemies)
      ensures var r := FlyOn(old(State()), deltaTime, enemies);
              State() == r.shot && attacked == old(attacked) + r.struck
    {
      var previous, next := m_position, Advanced(State(), deltaTime);
      m_position := next;
      enemies := CheckCollision(previous, next, snapshot);
    }

    // Towards where the target is now, or onto it.
    method Steer(sqrt: real -> real, target: Point, deltaTime: real)
      modifies this`m_position, this`m_direction
      ensures State() == Chased(sqrt, old(State()), target, deltaTime)
    {
      var distance, moveDistance := Movement.Dist(sqrt, target, m_position), Reach(State(), deltaTime);
      if distance <= OVERLAPPING || moveDistance >= distance {
        m_position := target;
      } else {
        m_direction, m_position :=
          Toward(m_position, target, distance), Movement.Toward(m_position, target, distance, moveDistance);
      }
    }

    method Chase(sqrt: real -> real, target: Option<Point>, deltaTime: real, snapshot: seq<Keyed<Point>>)
      returns (ghost enemies: seq<Keyed<Point>>)
      requires m_active && DistinctIds(snapshot)
      requires forall e | e in snapshot :: e.key == 0.0
      modifies this
      ensures old(m_target).Some? && target.Some? ==> StrictlySorted(enemies) && SameElements(snapshot, enemies)
      ensures var r := ChaseStep(sqrt, old(State()), target, deltaTime, enemies);
              State() == r.shot && attacked == old(attacked) + r.struck
    {
      if m_target.None? || target.None? {
        enemies := [];
        ReturnToPool();
        assert attacked + [] == attacked;
        return;
      }
      var previous := m_position;
      Steer(sqrt, target.value, deltaTime);
      enemies := CheckCollision(previous, m_position, snapshot);
    }
  }

  // -------- What one sweep strikes --------

  // The enemies a sweep can reach: crossed now, not struck before.
  ghost predicate Crossed(s: Shot, previous: Point, current: Point, e: Keyed<Point>)
  {
    e.id !in s.hit && Hits(previous, current, e.value)
  }

  ghost predicate IdOrder(enemies: seq<Keyed<Point>>)
  {
    forall i, j :: 0 <= i < j < |enemies| ==> enemies[i].id < enemies[j].id
  }

  /** A straight piercing shot strikes exactly the enemies it crosses and has not struck, and flies on. */
  lemma {:induction false} PierceStrikesAllCrossed(s: Shot, previous: Point, current: Point, enemies: seq<Keyed<Point>>)
    requires s.active && !s.isChase && s.hitType == Pierce && IdOrder(enemies)
    ensures var r := Sweep(s, previous, current, enemies);
            && r.shot == s.(hit := r.shot.hit) && s.hit <= r.shot.hit
            && (forall i :: 0 <= i < |enemies| ==>
                  (enemies[i].id in r.struck <==> Crossed(s, previous, current, enemies[i])))
            && (forall id :: id in r.shot.hit <==> id in s.hit || id in r.struck)
            && (forall id | id in r.struck :: id !in s.hit && exists i :: 0 <= i < |enemies| && enemies[i].id == id)
    decreases |enemies|
  {
    if enemies != [] {
      var e := enemies[0];
      if Crossed(s, previous, current, e) {
        var s' := Strike(s, e.id).shot;
        PierceStrikesAllCrossed(s', previous, current, enemies[1..]);
      } else {
        PierceStrikesAllCrossed(s, previous, current, enemies[1..]);
      }
    }
  }

  /** A straight impact shot strikes the lowest id it crosses, and only that one, and is gone. */
  lemma {:induction false} ImpactStrikesFirst(s: Shot, previous: Point, current: Point, enemies: seq<Keyed<Point>>, k: nat)
    requires s.active && !s.isChase && s.hitType == Impact && IdOrder(enemies)
    requires k <= |enemies| && forall i :: 0 <= i < k ==> !Crossed(s, previous, current, enemies[i])
    requires k < |enemies| ==> Crossed(s, previous, current, enemies[k])
    ensures var r := Sweep(s, previous, current, enemies);
            if k < |enemies| then r.struck == [enemies[k].id] && !r.shot.active else r == Swept(s, [])
    decreases |enemies|
  {
    if k > 0 {
      assert !Crossed(s, previous, current, enemies[0]);
      ImpactStrikesFirst(s, previous, current, enemies[1..], k - 1);
    }
  }

  /** A chasing impact shot passes through everyone but its target, which it strikes iff it crosses it. */
  lemma {:induction false} ChaseImpactStrikesTarget(s: Shot, previous: Point, current: Point, enemies: seq<Keyed<Point>>)
    requires s.active && s.isChase && s.hitType == Impact && IdOrder(enemies)
    ensures var r := Sweep(s, previous, current, enemies);
            if exists i :: 0 <= i < |enemies| && Crossed(s, previous, current, enemies[i]) && s.target == Some(enemies[i].id)
            then r.struck == [s.target.value] && !r.shot.active
            else r == Swept(s, [])
    decreases |enemies|
  {
    if enemies != [] {
      ChaseImpactStrikesTarget(s, previous, current, enemies[1..]);
      var tail := enemies[1..];
      assert forall i :: 0 < i < |enemies| ==> enemies[i] == tail[i - 1];
      if i :| 0 <= i < |tail| && Crossed(s, previous, current, tail[i]) && s.target == Some(tail[i].id) {
        assert Crossed(s, previous, current, enemies[i + 1]) && s.target == Some(enemies[i + 1].id);
        assert enemies[0].id < enemies[i + 1].id;
      }
    }
  }

  // -------- A whole piercing flight --------

  function Velocity(s: Shot): Point
  {
    Point(s.direction.x * s.speed, s.direction.y * s.speed)
  }

  // The moments between moves.
  function Moments(t: real, steps: seq<real>): (ts: seq<real>)
    ensures |ts| == |steps| + 1 && ts[0] == t
    decreases |steps|
  {
    if steps == [] then [t] else [t] + Moments(t + steps[0], steps[1..])
  }

  function Fly(s: Shot, steps: seq<real>, enemies: seq<Keyed<Point>>): Swept
    decreases |steps|
  {
    if steps == [] then Swept(s, [])
    else
      var first := DirectStep(s, steps[0], enemies);
      var more := Fly(first.shot, steps[1..], enemies);
      more.(struck := first.struck + more.struck)
  }

  // The shot outlives the flight.
  predicate Outlives(elapsed: real, duration: real, steps: seq<real>)
    decreases |steps|
  {
    steps == [] || (elapsed + steps[0] < duration && Outlives(elapsed + steps[0], duration, steps[1..]))
  }

  lemma AdvanceAlong(s: Shot, p: Point, t: real, dt: real)
    requires s.position == Along(p, Velocity(s), t)
    ensures Advanced(s, dt) == Along(p, Velocity(s), t + dt)
  {
    var v, m := Velocity(s), s.speed * dt;
    AdvanceAxis(s.direction.x, s.speed, v.x, dt, m);
    AdvanceAxis(s.direction.y, s.speed, v.y, dt, m);
    Distributes(v.x, t, dt);
    Distributes(v.y, t, dt);
  }

  lemma AdvanceAxis(d: real, speed: real, v: real, dt: real, m: real)
    requires v == d * speed && m == speed * dt
    ensures d * m == v * dt
  {
  }

  lemma Distributes(v: real, t: real, dt: real)
    ensures v * t + v * dt == v * (t + dt)
  {
  }

  // A piercing shot at time t of a flight that began at p with velocity v.
  ghost predicate InFlight(s: Shot, p: Point, v: Point, t: real)
  {
    s.active && !s.isChase && s.hitType == Pierce && v == Velocity(s) && s.position == Along(p, v, t)
  }

  predicate HitsNext(p: Point, v: Point, t: real, dt: real, e: Point)
  {
    Hits(Along(p, v, t), Along(p, v, t + dt), e)
  }

  // Some move of the remaining flight hits.
  predicate HitsLater(p: Point, v: Point, t: real, steps: seq<real>, e: Point)
    decreases |steps|
  {
    steps != [] && (HitsNext(p, v, t, steps[0], e) || HitsLater(p, v, t + steps[0], steps[1..], e))
  }

  // A step that does not expire is one sweep.
  lemma StepIsSweep(s: Shot, dt: real, enemies: seq<Keyed<Point>>, to: Point)
    requires s.elapsed + dt < s.duration && to == Advanced(s, dt)
    ensures DirectStep(s, dt, enemies) == Sweep(s.(elapsed := s.elapsed + dt, position := to), s.position, to, enemies)
  {
    var older := s.(elapsed := s.elapsed + dt);
    assert Advanced(older, dt) == to;
    assert Flown(older, dt) == s.(elapsed := s.elapsed + dt, position := to);
  }

  lemma SweptFlight(moved: Shot, from: Point, to: Point, enemies: seq<Keyed<Point>>, k: nat)
    requires moved.active && !moved.isChase && moved.hitType == Pierce && IdOrder(enemies) && k < |enemies|
    ensures var r, id := Sweep(moved, from, to, enemies), enemies[k].id;
            && r.shot == moved.(hit := r.shot.hit)
            && (id in r.struck <==> id !in moved.hit && Hits(from, to, enemies[k].value))
            && (id in r.shot.hit <==> id in moved.hit || id in r.struck)
  {
    PierceStrikesAllCrossed(moved, from, to, enemies);
  }

  // One step of a straight piercing flight that does not expire.
  lemma FlightStep(s: Shot, p: Point, v: Point, t: real, dt: real, enemies: seq<Keyed<Point>>, k: nat)
    requires InFlight(s, p, v, t) && IdOrder(enemies) && k < |enemies| && s.elapsed + dt < s.duration
    ensures var r, id := DirectStep(s, dt, enemies), enemies[k].id;
            && InFlight(r.shot, p, v, t + dt)
            && r.shot.elapsed == s.elapsed + dt && r.shot.duration == s.duration
            && (id in r.struck <==> id !in s.hit && HitsNext(p, v, t, dt, enemies[k].value))
            && (id in r.shot.hit <==> id in s.hit || id in r.struck)
  {
    var to := Along(p, v, t + dt);
    AdvanceAlong(s, p, t, dt);
    StepIsSweep(s, dt, enemies, to);
    SweptFlight(s.(elapsed := s.elapsed + dt, position := to), s.position, to, enemies, k);
  }

  // p and t: where and when the flight began.
  lemma {:induction false} FlightStrikes(s: Shot, p: Point, v: Point, t: real, steps: seq<real>,
                                         enemies: seq<Keyed<Point>>, k: nat)
    requires InFlight(s, p, v, t) && IdOrder(enemies) && k < |enemies| && Outlives(s.elapsed, s.duration, steps)
    ensures enemies[k].id in Fly(s, steps, enemies).struck
            <==> enemies[k].id !in s.hit && HitsLater(p, v, t, steps, enemies[k].value)
    decreases |steps|
  {
    if steps != [] {
      FlightStep(s, p, v, t, steps[0], enemies, k);
      FlightStrikes(DirectStep(s, steps[0], enemies).shot, p, v, t + steps[0], steps[1..], enemies, k);
    }
  }

  lemma {:induction false} HitsLaterIsOnTheWay(p: Point, v: Point, t: real, steps: seq<real>, e: Point)
    ensures HitsLater(p, v, t, steps, e) <==> HitsOnTheWay(p, v, Moments(t, steps), e)
    decreases |steps|
  {
    if steps != [] {
      HitsLaterIsOnTheWay(p, v, t + steps[0], steps[1..], e);
      assert Moments(t, steps)[1..] == Moments(t + steps[0], steps[1..]);
    }
  }

  lemma {:induction false} SweepStrikesOnce(s: Shot, previous: Point, current: Point, enemies: seq<Keyed<Point>>, id: nat)
    ensures var r := Sweep(s, previous, current, enemies);
            && multiset(r.struck)[id] <= (if id in s.hit then 0 else 1)
            && (r.shot.active && (id in s.hit || id in r.struck) ==> id in r.shot.hit)
    decreases |enemies|
  {
    if enemies != [] {
      var e := enemies[0];
      if e.id in s.hit || !Hits(previous, current, e.value) {
        SweepStrikesOnce(s, previous, current, enemies[1..], id);
      } else {
        SweepStrikesOnce(Strike(s, e.id).shot, previous, current, enemies[1..], id);
      }
    }
  }

  lemma TickStrikesOnce(sqrt: real -> real, s: Shot, u: Surroundings, id: nat)
    ensures var r := Tick(sqrt, s, u);
            && multiset(r.struck)[id] <= (if s.active && id !in s.hit then 1 else 0)
            && (r.shot.active && (id in s.hit || id in r.struck) ==> id in r.shot.hit)
            && (!s.active ==> r == Swept(s, []))
  {
    if s.active && s.isChase {
      if u.target.Some? {
        var moved := Chased(sqrt, s, u.target.value, u.deltaTime);
        SweepStrikesOnce(moved, s.position, moved.position, u.enemies, id);
      }
    } else if s.active {
      var moved := Flown(s.(elapsed := s.elapsed + u.deltaTime), u.deltaTime);
      SweepStrikesOnce(moved, s.position, moved.position, u.enemies, id);
    }
  }

  /** Over any flight, straight or chasing, of whatever hit type, no enemy is struck twice. */
  lemma {:induction false} NobodyStruckTwice(sqrt: real -> real, s: Shot, us: seq<Surroundings>, id: nat)
    ensures multiset(Struck(sqrt, s, us))[id] <= if s.active && id !in s.hit then 1 else 0
    decreases |us|
  {
    if us != [] {
      var first := Tick(sqrt, s, us[0]);
      TickStrikesOnce(sqrt, s, us[0], id);
      NobodyStruckTwice(sqrt, first.shot, us[1..], id);
      CountBoth(first.struck, Struck(sqrt, first.shot, us[1..]), id);
    }
  }

  lemma CountBoth(a: seq<nat>, b: seq<nat>, id: nat)
    ensures multiset(a + b)[id] == multiset(a)[id] + multiset(b)[id]
    ensures multiset(a)[id] > 0 <==> id in a
  {
  }

  // Everyone struck while time passes and enemies come, move and go.
  function Struck(sqrt: real -> real, s: Shot, us: seq<Surroundings>): seq<nat>
    decreases |us|
  {
    if us == [] then []
    else
      var first := Tick(sqrt, s, us[0]);
      first.struck + Struck(sqrt, first.shot, us[1..])
  }

  // -------- Chasing --------

  /** A chasing shot that cannot reach its target yet gets nearer by exactly the way it moves. */
  lemma ChaseApproaches(sqrt: real -> real, s: Shot, target: Point, dt: real)
    requires Movement.IsSqrt(sqrt)
    requires OVERLAPPING < Movement.Dist(sqrt, target, s.position) && Reach(s, dt) < Movement.Dist(sqrt, target, s.position)
    ensures Movement.Dist(sqrt, target, Chased(sqrt, s, target, dt).position)
            == Movement.Dist(sqrt, target, s.position) - Reach(s, dt)
  {
    Movement.StepShortens(sqrt, s.position, target, Reach(s, dt));
  }

  // Where a move ends it hits, whatever its length.
  lemma EndHits(previous: Point, e: Point)
    ensures Hits(previous, e, e)
  {
    var d := Minus(e, previous);
    assert Near(e, e);
    if Dot(d, d) > CUTOFF {
      EndOfSegment(previous, e);
      HitsIffTouches(previous, e, e);
      assert Near(e, Along(previous, d, 1.0));
    }
  }

  /** And once it can reach it, a chasing impact shot strikes its target, and nobody else. */
  lemma ChaseArrives(sqrt: real -> real, s: Shot, dt: real, enemies: seq<Keyed<Point>>, k: nat)
    requires s.active && s.isChase && s.hitType == Impact && IdOrder(enemies)
    requires k < |enemies| && s.target == Some(enemies[k].id) && enemies[k].id !in s.hit
    requires Reach(s, dt) >= Movement.Dist(sqrt, enemies[k].value, s.position)
    ensures var r := ChaseStep(sqrt, s, Some(enemies[k].value), dt, enemies);
            r.struck == [enemies[k].id] && !r.shot.active
  {
    var moved := Chased(sqrt, s, enemies[k].value, dt);
    EndHits(s.position, enemies[k].value);
    assert Crossed(moved, s.position, moved.position, enemies[k]);
    ChaseImpactStrikesTarget(moved, s.position, moved.position, enemies);
  }

  /** Frame rate does not matter to a piercing flight: over any moves above the cutoff, an enemy standing
      still is struck if the whole way swept at once would hit it, and never otherwise. */
  lemma PierceFlight(s: Shot, steps: seq<real>, enemies: seq<Keyed<Point>>, k: nat)
    requires s.active && !s.isChase && s.hitType == Pierce && IdOrder(enemies) && k < |enemies|
    requires enemies[k].id !in s.hit
    requires Outlives(s.elapsed, s.duration, steps) && LongMoves(Velocity(s), Moments(0.0, steps))
    ensures var end := Along(s.position, Velocity(s), Moments(0.0, steps)[|steps|]);
            enemies[k].id in Fly(s, steps, enemies).struck <==> Hits(s.position, end, enemies[k].value)
  {
    var p, v, times := s.position, Velocity(s), Moments(0.0, steps);
    assert Along(p, v, 0.0) == p;
    FlightStrikes(s, p, v, 0.0, steps, enemies, k);
    HitsLaterIsOnTheWay(p, v, 0.0, steps, enemies[k].value);
    NoTunnelling(p, v, times, enemies[k].value);
  }
}
