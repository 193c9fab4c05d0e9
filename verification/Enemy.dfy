/** Enemy: debuffs, damage and movement of one enemy, updated in place. */
module Enemies {
  import opened Wire
  import opened Geometry
  import opened Movement
  import opened Debuffs

  datatype Body = Body(
    health: Health, moveSpeed: real, slowPercent: real, stun: Stun, mover: Mover,
    slows: seq<Slow>, dots: seq<Dot>)

  // UpdateDebuffs.
  function Aged(b: Body, dt: real): Body
  {
    var slows := AgeSlows(b.slows, dt);
    var dosed := AgeDots(b.health, b.dots, dt);
    b.(slows := slows, slowPercent := SlowPercent(Multiplier(slows)), stun := AgeStun(b.stun, dt),
       health := dosed.health, dots := dosed.dots)
  }

  function StepLength(moveSpeed: real, slowPercent: real, dt: real): real
  {
    moveSpeed * SpeedMultiplier(slowPercent) * dt
  }

  // UpdateMovementLocked, unless stunned.
  function Walked(sqrt: real -> real, b: Body, dt: real): Moved
  {
    Move(sqrt, b.mover, StepLength(b.moveSpeed, b.slowPercent, dt))
  }

  datatype Updated = Updated(body: Body, died: bool, arrived: bool)

  // Update: which callbacks fire, and the body after.
  function UpdateBody(sqrt: real -> real, b: Body, dt: real): Updated
  {
    if b.health.dead then Updated(b, false, false)
    else
      var a := Aged(b, dt);
      if a.stun.on then Updated(a, a.health.dead, false)
      else
        var m := Walked(sqrt, a, dt);
        Updated(a.(mover := m.mover), a.health.dead, m.arrived)
  }

  // What every enemy in play satisfies: its debuffs are under way and the slow percentage is theirs.
  ghost predicate Wellformed(b: Body)
  {
    && Positive(b.slows) && Running(b.dots)
    && b.slowPercent == SlowPercent(Multiplier(b.slows))
    && (!b.health.dead ==> b.health.hp > 0)
  }

  // Init after Reset, and SetPath.
  function NewBody(maxHp: int, moveSpeed: real, position: Point, waypoints: seq<Point>): Body
  {
    Body(Health(maxHp, false), moveSpeed, 0.0, Stun(false, 0.0), Mover(position, waypoints, 1), [], [])
  }

  datatype Debuff = Slowing(percent: real, duration: real) | Stunning(duration: real) | Burning(damage: real, duration: real)

  // ApplySlow, ApplyStun and ApplyDamageOverTime: without strength or duration they do nothing.
  function Afflicted(b: Body, d: Debuff): (r: Body)
    ensures r.health == b.health && r.mover == b.mover
  {
    match d
    case Slowing(percent, duration) =>
      if percent <= 0.0 || duration <= 0.0 then b
      else
        var slows := b.slows + [Slow(percent, duration)];
        b.(slows := slows, slowPercent := SlowPercent(Multiplier(slows)))
    case Stunning(duration) =>
      if duration <= 0.0 then b else b.(stun := Stun(true, Max(b.stun.duration, duration)))
    case Burning(damage, duration) =>
      if damage <= 0.0 || duration <= 0.0 then b else b.(dots := b.dots + [Dot(damage, duration, 0.0)])
  }

  class Enemy {
    var m_hp: int
    var m_isDead: bool
    var m_moveSpeed: real
    var m_slowPercent: real
    var m_isStunned: bool
    var m_stunDuration: real
    var m_position: Point
    var m_waypoints: seq<Point>
    var m_currentWaypointIndex: nat
    var m_slowDebuffs: seq<Slow>
    var m_damageOverTimeDebuffs: seq<Dot>

    function State(): Body
      reads this
    {
      Body(Health(m_hp, m_isDead), m_moveSpeed, m_slowPercent, Stun(m_isStunned, m_stunDuration),
           Mover(m_position, m_waypoints, m_currentWaypointIndex), m_slowDebuffs, m_damageOverTimeDebuffs)
    }

    constructor (maxHp: int, moveSpeed: real, position: Point, waypoints: seq<Point>)
      ensures State() == NewBody(maxHp, moveSpeed, position, waypoints)
      ensures maxHp > 0 ==> Wellformed(State())
    {
      m_hp, m_isDead, m_moveSpeed, m_slowPercent := maxHp, false, moveSpeed, 0.0;
      m_isStunned, m_stunDuration := false, 0.0;
      m_position, m_waypoints, m_currentWaypointIndex := position, waypoints, 1;
      m_slowDebuffs, m_damageOverTimeDebuffs := [], [];
    }

    method RecalculateSlowPercent()
      modifies this`m_slowPercent
      ensures m_slowPercent == SlowPercent(Multiplier(m_slowDebuffs))
    {
      var multiplier := 1.0;
      for i := 0 to |m_slowDebuffs|
        invariant multiplier == Multiplier(m_slowDebuffs[..i])
      {
        assert m_slowDebuffs[..i + 1][..i] == m_slowDebuffs[..i];
        multiplier := multiplier * Ratio(m_slowDebuffs[i]);
      }
      assert m_slowDebuffs[..|m_slowDebuffs|] == m_slowDebuffs;
      m_slowPercent := SlowPercent(multiplier);
    }

    // A slow without strength or duration is ignored; so are the other debuffs.
    method ApplySlow(percent: real, duration: real)
      requires Wellformed(State())
      modifies this`m_slowDebuffs, this`m_slowPercent
      ensures Wellformed(State()) && State() == Afflicted(old(State()), Slowing(percent, duration))
    {
      if percent <= 0.0 || duration <= 0.0 {
        return;
      }
      m_slowDebuffs := m_slowDebuffs + [Slow(percent, duration)];
      RecalculateSlowPercent();
    }

    method ApplyStun(duration: real)
      requires Wellformed(State())
      modifies this`m_isStunned, this`m_stunDuration
      ensures Wellformed(State()) && State() == Afflicted(old(State()), Stunning(duration))
    {
      if duration <= 0.0 {
        return;
      }
      m_isStunned := true;
      m_stunDuration := Max(m_stunDuration, duration);
    }

    method ApplyDamageOverTime(damage: real, duration: real)
      requires Wellformed(State())
      modifies this`m_damageOverTimeDebuffs
      ensures Wellformed(State()) && State() == Afflicted(old(State()), Burning(damage, duration))
    {
      if damage <= 0.0 || duration <= 0.0 {
        return;
      }
      m_damageOverTimeDebuffs := m_damageOverTimeDebuffs + [Dot(damage, duration, 0.0)];
    }

    /** The dead callback fires exactly when this damage is what kills. */
    method TakeDamage(damage: int) returns (died: bool)
      modifies this`m_hp, this`m_isDead
      ensures State().health == Debuffs.TakeDamage(old(State()).health, damage)
      ensures died == (m_isDead && !old(m_isDead))
    {
      if m_isDead {
        return false;
      }
      m_hp := m_hp - damage;
      if m_hp <= 0 {
        m_isDead := true;
        return true;
      }
      died := false;
    }

    method UpdateSlows(deltaTime: real)
      modifies this`m_slowDebuffs
      ensures m_slowDebuffs == AgeSlows(old(m_slowDebuffs), deltaTime)
    {
      var it := 0;
      assert m_slowDebuffs[..0] + AgeSlows(m_slowDebuffs[0..], deltaTime) == AgeSlows(m_slowDebuffs, deltaTime);
      while it < |m_slowDebuffs|
        invariant 0 <= it <= |m_slowDebuffs|
        invariant m_slowDebuffs[..it] + AgeSlows(m_slowDebuffs[it..], deltaTime) == AgeSlows(old(m_slowDebuffs), deltaTime)
        decreases |m_slowDebuffs| - it
      {
        ghost var before, rest := m_slowDebuffs[..it], m_slowDebuffs[it + 1..];
        assert m_slowDebuffs[it..][1..] == rest;
        var s := m_slowDebuffs[it].(remaining := m_slowDebuffs[it].remaining - deltaTime);
        if s.remaining <= 0.0 {
          m_slowDebuffs := m_slowDebuffs[..it] + m_slowDebuffs[it + 1..];
          assert m_slowDebuffs[..it] == before && m_slowDebuffs[it..] == rest;
          assert [] + AgeSlows(rest, deltaTime) == AgeSlows(rest, deltaTime);
        } else {
          m_slowDebuffs := m_slowDebuffs[it := s];
          it := it + 1;
          assert m_slowDebuffs[..it] == before + [s] && m_slowDebuffs[it..] == rest;
          ConcatAssoc(before, [s], AgeSlows(rest, deltaTime));
        }
      }
      assert m_slowDebuffs[..it] + [] == m_slowDebuffs;
    }

    // The tick loop of one debuff.
    method RunTicks(elapsedTime: real, damage: int) returns (left: real)
      modifies this`m_hp, this`m_isDead
      ensures var t := Ticks(old(State()).health, elapsedTime, damage);
              left == t.elapsed && State().health == t.health
    {
      left := elapsedTime;
      while left >= TICK && !m_isDead
        invariant Ticks(State().health, left, damage).elapsed == Ticks(old(State()).health, elapsedTime, damage).elapsed
        invariant Ticks(State().health, left, damage).health == Ticks(old(State()).health, elapsedTime, damage).health
        decreases left.Floor
      {
        assert (left - TICK).Floor < left.Floor;
        var killed := TakeDamage(damage);
        left := left - TICK;
      }
    }

    method UpdateDots(deltaTime: real)
      modifies this`m_hp, this`m_isDead, this`m_damageOverTimeDebuffs
      ensures Dosed(State().health, m_damageOverTimeDebuffs)
           == AgeDots(old(State()).health, old(m_damageOverTimeDebuffs), deltaTime)
    {
      var it := 0;
      ghost var all := AgeDots(State().health, m_damageOverTimeDebuffs, deltaTime);
      assert m_damageOverTimeDebuffs[0..] == m_damageOverTimeDebuffs;
      assert m_damageOverTimeDebuffs[..0] + all.dots == all.dots;
      while it < |m_damageOverTimeDebuffs|
        invariant 0 <= it <= |m_damageOverTimeDebuffs|
        invariant var rest := AgeDots(State().health, m_damageOverTimeDebuffs[it..], deltaTime);
                  all == Dosed(rest.health, m_damageOverTimeDebuffs[..it] + rest.dots)
        decreases |m_damageOverTimeDebuffs| - it
      {
        ghost var before, after := m_damageOverTimeDebuffs[..it], m_damageOverTimeDebuffs[it + 1..];
        assert m_damageOverTimeDebuffs[it..][1..] == after;
        var d := m_damageOverTimeDebuffs[it];
        var remaining := d.remaining - deltaTime;
        var elapsed := RunTicks(d.elapsed + deltaTime, Trunc(d.damagePerTick));
        if remaining <= 0.0 || m_isDead {
          m_damageOverTimeDebuffs := m_damageOverTimeDebuffs[..it] + m_damageOverTimeDebuffs[it + 1..];
          assert m_damageOverTimeDebuffs[..it] == before && m_damageOverTimeDebuffs[it..] == after;
        } else {
          var kept := Dot(d.damagePerTick, remaining, elapsed);
          m_damageOverTimeDebuffs := m_damageOverTimeDebuffs[it := kept];
          it := it + 1;
          assert m_damageOverTimeDebuffs[..it] == before + [kept] && m_damageOverTimeDebuffs[it..] == after;
          ConcatAssoc(before, [kept], AgeDots(State().health, after, deltaTime).dots);
        }
      }
      assert m_damageOverTimeDebuffs[..it] + [] == m_damageOverTimeDebuffs;
    }

    method UpdateStun(deltaTime: real)
      modifies this`m_isStunned, this`m_stunDuration
      ensures Stun(m_isStunned, m_stunDuration) == AgeStun(old(State()).stun, deltaTime)
    {
      if m_isStunned {
        m_stunDuration := m_stunDuration - deltaTime;
        if m_stunDuration <= 0.0 {
          m_isStunned, m_stunDuration := false, 0.0;
        }
      }
    }

    method UpdateDebuffs(deltaTime: real) returns (died: bool)
      modifies this
      ensures State() == Aged(old(State()), deltaTime)
      ensures died == (m_isDead && !old(m_isDead))
    {
      UpdateSlows(deltaTime);
      RecalculateSlowPercent();
      UpdateStun(deltaTime);
      var wasDead := m_isDead;
      UpdateDots(deltaTime);
      died := m_isDead && !wasDead;
    }

    method UpdateMovementLocked(sqrt: real -> real, deltaTime: real) returns (arrived: bool)
      modifies this`m_position, this`m_currentWaypointIndex
      ensures var b := old(State());
              var m := if b.stun.on then Moved(b.mover, false) else Walked(sqrt, b, deltaTime);
              State() == b.(mover := m.mover) && arrived == m.arrived
    {
      if m_isStunned {
        return false;
      }
      if m_waypoints == [] || m_currentWaypointIndex >= |m_waypoints| {
        return true;
      }
      arrived := false;
      var target := m_waypoints[m_currentWaypointIndex];
      var distance := Dist(sqrt, target, m_position);
      if distance <= ARRIVED {
        m_currentWaypointIndex := m_currentWaypointIndex + 1;
        return;
      }
      var moveDistance := StepLength(m_moveSpeed, m_slowPercent, deltaTime);
      if moveDistance >= distance {
        m_position := target;
        m_currentWaypointIndex := m_currentWaypointIndex + 1;
        return;
      }
      m_position := Toward(m_position, target, distance, moveDistance);
    }

    method Update(sqrt: real -> real, deltaTime: real) returns (died: bool, arrived: bool)
      modifies this
      ensures Updated(State(), died, arrived) == UpdateBody(sqrt, old(State()), deltaTime)
    {
      died, arrived := false, false;
      if m_isDead {
        return;
      }
      died := UpdateDebuffs(deltaTime);
      if !m_isStunned {
        arrived := UpdateMovementLocked(sqrt, deltaTime);
      }
    }
  }

  // -------- What one update does --------

  lemma {:induction false} DotsStayRunning(h: Health, dots: seq<Dot>, dt: real)
    requires Running(dots) && dt >= 0.0
    ensures Running(AgeDots(h, dots, dt).dots)
    decreases |dots|
  {
    if dots != [] {
      var d := dots[0];
      var t := Ticks(h, d.elapsed + dt, Trunc(d.damagePerTick));
      if !h.dead { TicksAre(h, d.elapsed + dt, Trunc(d.damagePerTick)); }
      DotsStayRunning(t.health, dots[1..], dt);
    }
  }

  lemma UpdateKeepsWellformed(sqrt: real -> real, b: Body, dt: real)
    requires Wellformed(b) && dt >= 0.0
    ensures Wellformed(UpdateBody(sqrt, b, dt).body)
  {
    AgedStayPositive(b.slows, dt);
    DotsStayRunning(b.health, b.dots, dt);
    LivePositive(b.health, b.dots, dt);
  }

  /** A dead enemy's update changes nothing and calls nobody back. */
  lemma DeadIsStill(sqrt: real -> real, b: Body, dt: real)
    requires b.health.dead
    ensures UpdateBody(sqrt, b, dt) == Updated(b, false, false)
  {
  }

  function UpdateAll(sqrt: real -> real, b: Body, dts: seq<real>): (us: seq<Updated>)
    ensures |us| == |dts|
    decreases |dts|
  {
    if dts == [] then []
    else
      var u := UpdateBody(sqrt, b, dts[0]);
      [u] + UpdateAll(sqrt, u.body, dts[1..])
  }

  /** Over any run of updates the dead callback fires at most once, and after the update in which it
      does neither callback ever fires again. */
  lemma {:induction false} DeadCallbackAtMostOnce(sqrt: real -> real, b: Body, dts: seq<real>, i: nat, j: nat)
    requires i < j < |dts| && UpdateAll(sqrt, b, dts)[i].died
    ensures !UpdateAll(sqrt, b, dts)[j].died && !UpdateAll(sqrt, b, dts)[j].arrived
    decreases |dts|
  {
    var u := UpdateBody(sqrt, b, dts[0]);
    if i == 0 {
      StaysDead(sqrt, u.body, dts[1..], j - 1);
    } else {
      DeadCallbackAtMostOnce(sqrt, u.body, dts[1..], i - 1, j - 1);
    }
  }

  lemma {:induction false} StaysDead(sqrt: real -> real, b: Body, dts: seq<real>, k: nat)
    requires b.health.dead && k < |dts|
    ensures UpdateAll(sqrt, b, dts)[k] == Updated(b, false, false)
    decreases |dts|
  {
    if k > 0 { StaysDead(sqrt, b, dts[1..], k - 1); }
  }

  // The body after a run of updates.
  function After(sqrt: real -> real, b: Body, dts: seq<real>): Body
    decreases |dts|
  {
    if dts == [] then b else After(sqrt, UpdateBody(sqrt, b, dts[0]).body, dts[1..])
  }

  // While alive, an enemy's debuffs are what they would be without any movement.
  lemma {:induction false} RunOfDebuffs(sqrt: real -> real, b: Body, dts: seq<real>)
    requires Wellformed(b) && Forward(dts)
    ensures Wellformed(After(sqrt, b, dts))
    ensures After(sqrt, b, dts).health == AgeDotsBy(b.health, b.dots, dts).health
    ensures !After(sqrt, b, dts).health.dead ==> After(sqrt, b, dts).slows == AgeSlowsBy(b.slows, dts)
    decreases |dts|
  {
    if dts != [] {
      UpdateKeepsWellformed(sqrt, b, dts[0]);
      if b.health.dead {
        DeadForGood(b.health, b.dots, dts);
        DeadIsStill(sqrt, b, dts[0]);
      }
      RunOfDebuffs(sqrt, UpdateBody(sqrt, b, dts[0]).body, dts[1..]);
      if b.health.dead { DeadForGood(b.health, b.dots, dts[1..]); }
    }
  }

  /** Frame rate does not matter to debuffs: over any frames an enemy survives exactly if the whole ticks of
      its damage debuffs take less than its health, has then lost exactly that, and moves at the product of
      the ratios of the slows that outlast the total time. */
  lemma FrameIndependent(sqrt: real -> real, b: Body, dts: seq<real>)
    requires Wellformed(b) && !b.health.dead && Forward(dts)
    ensures var a := After(sqrt, b, dts);
            && (a.health.dead <==> Owed(b.dots, dts) >= b.health.hp)
            && (!a.health.dead ==>
                  && a.health.hp == b.health.hp - Owed(b.dots, dts)
                  && a.slows == AgeSlows(b.slows, Sum(dts))
                  && SpeedMultiplier(a.slowPercent) == Multiplier(AgeSlows(b.slows, Sum(dts))))
  {
    RunOfDebuffs(sqrt, b, dts);
    DebuffsSettle(b.health, b.dots, dts);
    SlowsFrameIndependent(b.slows, dts);
    SpeedIsProduct(After(sqrt, b, dts).slows);
  }

  /** Both callbacks fire in one update exactly when the debuffs owe the enemy's health within it, no stun
      outlasts it, and the waypoints were already used up. */
  lemma BothCallbacksIff(sqrt: real -> real, b: Body, dt: real)
    requires Wellformed(b) && !b.health.dead && dt >= 0.0
    ensures var u := UpdateBody(sqrt, b, dt);
            u.died && u.arrived
            <==> Owed(b.dots, [dt]) >= b.health.hp
                 && (!b.stun.on || b.stun.duration <= dt)
                 && b.mover.index >= |b.mover.waypoints|
  {
    assert AgeDotsBy(b.health, b.dots, [dt]) == AgeDots(b.health, b.dots, dt);
    DebuffsSettle(b.health, b.dots, [dt]);
  }

  /** So it does happen: one second of a fatal debuff, at the end of a path of one point. */
  lemma BothCallbacksHappen(sqrt: real -> real, p: Point) returns (b: Body)
    ensures Wellformed(b) && b == Afflicted(NewBody(1, 1.0, p, [p]), Burning(1.0, 5.0))
    ensures UpdateBody(sqrt, b, 1.0).died && UpdateBody(sqrt, b, 1.0).arrived
  {
    b := Afflicted(NewBody(1, 1.0, p, [p]), Burning(1.0, 5.0));
    assert b.dots == [Dot(1.0, 5.0, 0.0)];
    assert Owed(b.dots, [1.0]) == 1 by {
      assert Lifetime(5.0, [1.0]) == 1.0 + Lifetime(4.0, []);
      assert b.dots[1..] == [];
    }
    BothCallbacksIff(sqrt, b, 1.0);
  }
}
