/** When a shot is returned to the pool, and what it has struck by then. */
module ShotLaws {
  import opened Wire
  import opened Geometry
  import opened Collision
  import opened Sorting
  import opened Projectiles
  import Movement

  // As the pool gets it back: nothing of the flight is left but the hit type.
  ghost predicate Blank(s: Shot, hitType: HitType)
  {
    s == Shot(false, false, hitType, None, Point(0.0, 0.0), Point(0.0, 0.0), 0.0, 0.0, 0.0, {})
  }

  // The strikes that end a flight: any of an impact shot, and of a chasing piercing one that of its target.
  ghost predicate Spent(s: Shot, struck: seq<nat>)
  {
    || (s.hitType == Impact && struck != [])
    || (s.hitType == Pierce && s.isChase && s.target.Some? && s.target.value in struck)
  }

  lemma {:induction false} SweepEndsIff(s: Shot, previous: Point, current: Point, enemies: seq<Keyed<Point>>)
    requires s.active
    ensures var r := Sweep(s, previous, current, enemies);
            && (!r.shot.active <==> Spent(s, r.struck))
            && (r.shot.active ==> r.shot == s.(hit := r.shot.hit))
            && (!r.shot.active ==> Blank(r.shot, s.hitType))
    decreases |enemies|
  {
    if enemies != [] {
      var e := enemies[0];
      if e.id in s.hit || !Hits(previous, current, e.value) {
        SweepEndsIff(s, previous, current, enemies[1..]);
      } else {
        FirstEndsIff(s, e.id);
        var first := Strike(s, e.id);
        if first.shot.active {
          SweepEndsIff(first.shot, previous, current, enemies[1..]);
          var more := Sweep(first.shot, previous, current, enemies[1..]);
          SpentTogether(s, first.struck, more.struck);
        }
      }
    }
  }

  lemma FirstEndsIff(s: Shot, id: nat)
    requires s.active
    ensures var r := Strike(s, id);
            && (!r.shot.active <==> Spent(s, r.struck))
            && (r.shot.active ==> r.shot == s.(hit := r.shot.hit))
            && (!r.shot.active ==> Blank(r.shot, s.hitType))
  {
    var r := Strike(s, id);
    if r.struck != [] { assert r.struck[0] == id && |r.struck| == 1; }
  }

  lemma SpentTogether(s: Shot, a: seq<nat>, b: seq<nat>)
    requires !Spent(s, a)
    ensures Spent(s, a + b) <==> Spent(s, b)
  {
  }

  // The flight cannot go on: a chasing shot has lost its target, or a straight one's time is up.
  predicate Over(s: Shot, u: Surroundings)
  {
    if s.isChase then s.target.None? || u.target.None? else s.elapsed + u.deltaTime >= s.duration
  }

  /** A shot in flight is returned exactly if its flight is over, when it strikes nobody, or if it has struck what
      it was for; and what is returned is blank. One that flies on has aged by the time, if it flies straight. */
  lemma ReturnedIff(sqrt: real -> real, s: Shot, u: Surroundings)
    requires s.active
    ensures var r := Tick(sqrt, s, u);
            && (!r.shot.active <==> Over(s, u) || Spent(s, r.struck))
            && (Over(s, u) ==> r.struck == [])
            && (!r.shot.active ==> Blank(r.shot, s.hitType))
            && (r.shot.active ==>
                  && r.shot.elapsed == (if s.isChase then s.elapsed else s.elapsed + u.deltaTime)
                  && r.shot == s.(position := r.shot.position, direction := r.shot.direction,
                                  elapsed := r.shot.elapsed, hit := r.shot.hit))
  {
    if !Over(s, u) {
      if s.isChase {
        var moved := Chased(sqrt, s, u.target.value, u.deltaTime);
        SweepEndsIff(moved, s.position, moved.position, u.enemies);
      } else {
        var moved := Flown(s.(elapsed := s.elapsed + u.deltaTime), u.deltaTime);
        SweepEndsIff(moved, s.position, moved.position, u.enemies);
      }
    }
  }

  // -------- Whom a sweep strikes --------

  // A chasing impact shot passes through everybody but its target.
  predicate Spares(s: Shot, id: nat)
  {
    s.hitType == Impact && s.isChase && s.target != Some(id)
  }

  // An enemy whose strike ends the flight.
  ghost predicate Stops(s: Shot, previous: Point, current: Point, e: Keyed<Point>)
  {
    && Crossed(s, previous, current, e) && !Spares(s, e.id)
    && (s.hitType == Impact || (s.hitType == Pierce && s.isChase && s.target == Some(e.id)))
  }

  ghost predicate StruckAmong(s: Shot, previous: Point, current: Point, enemies: seq<Keyed<Point>>, k: nat)
    requires k < |enemies|
  {
    && Crossed(s, previous, current, enemies[k]) && !Spares(s, enemies[k].id)
    && forall i :: 0 <= i < k ==> !Stops(s, previous, current, enemies[i])
  }

  lemma NotAmongRest(s: Shot, previous: Point, current: Point, enemies: seq<Keyed<Point>>, id: nat)
    requires forall i :: 0 <= i < |enemies| ==> enemies[i].id != id
    ensures id !in Sweep(s, previous, current, enemies).struck
    decreases |enemies|
  {
    if enemies != [] {
      var e := enemies[0];
      NotAmongRest(s, previous, current, enemies[1..], id);
      NotAmongRest(Strike(s, e.id).shot, previous, current, enemies[1..], id);
    }
  }

  lemma FirstStrikes(s: Shot, e: Keyed<Point>, previous: Point, current: Point, id: nat)
    requires s.active && Crossed(s, previous, current, e)
    ensures var r := Strike(s, e.id);
            && (id in r.struck <==> id == e.id && !Spares(s, e.id))
            && (r.shot.active <==> !Stops(s, previous, current, e))
            && (r.shot.active ==> r.shot == s.(hit := r.shot.hit) && s.hit <= r.shot.hit <= s.hit + {e.id})
  {
  }

  // Later enemies are crossed as before, whatever the first one adds to those struck.
  lemma SameAmong(s: Shot, s': Shot, previous: Point, current: Point, enemies: seq<Keyed<Point>>, first: nat, k: nat)
    requires s' == s.(hit := s'.hit) && s.hit <= s'.hit <= s.hit + {first}
    requires k < |enemies| && forall i :: 0 <= i < |enemies| ==> enemies[i].id != first
    ensures StruckAmong(s', previous, current, enemies, k) <==> StruckAmong(s, previous, current, enemies, k)
  {
    forall i | 0 <= i < |enemies|
      ensures Crossed(s', previous, current, enemies[i]) == Crossed(s, previous, current, enemies[i])
      ensures Stops(s', previous, current, enemies[i]) == Stops(s, previous, current, enemies[i])
    {
    }
  }

  lemma AmongRest(s: Shot, previous: Point, current: Point, enemies: seq<Keyed<Point>>, k: nat)
    requires 0 < k < |enemies|
    ensures StruckAmong(s, previous, current, enemies, k)
       <==> !Stops(s, previous, current, enemies[0]) && StruckAmong(s, previous, current, enemies[1..], k - 1)
  {
    var rest := enemies[1..];
    assert forall i :: 0 <= i < k - 1 ==> rest[i] == enemies[i + 1];
    if StruckAmong(s, previous, current, rest, k - 1) && !Stops(s, previous, current, enemies[0]) {
      forall i | 0 <= i < k ensures !Stops(s, previous, current, enemies[i]) {
        if i > 0 { assert enemies[i] == rest[i - 1]; }
      }
    }
    if StruckAmong(s, previous, current, enemies, k) {
      forall i | 0 <= i < k - 1 ensures !Stops(s, previous, current, rest[i]) {
        assert rest[i] == enemies[i + 1];
      }
    }
  }

  /** Whatever the kind of shot, a sweep strikes exactly the enemies that it crosses, has not struck before and does
      not spare, up to the first that ends the flight. */
  lemma {:induction false} StruckIff(s: Shot, previous: Point, current: Point, enemies: seq<Keyed<Point>>, k: nat)
    requires s.active && IdOrder(enemies) && k < |enemies|
    ensures enemies[k].id in Sweep(s, previous, current, enemies).struck
       <==> StruckAmong(s, previous, current, enemies, k)
    decreases |enemies|
  {
    var e, rest := enemies[0], enemies[1..];
    if k > 0 {
      assert rest[k - 1] == enemies[k];
      AmongRest(s, previous, current, enemies, k);
    }
    if Crossed(s, previous, current, e) {
      var first := Strike(s, e.id).shot;
      FirstStrikes(s, e, previous, current, enemies[k].id);
      if k == 0 {
        NotAmongRest(first, previous, current, rest, e.id);
      } else if first.active {
        SameAmong(s, first, previous, current, rest, e.id, k - 1);
        StruckIff(first, previous, current, rest, k - 1);
      }
    } else if k == 0 {
      NotAmongRest(s, previous, current, rest, e.id);
    } else {
      StruckIff(s, previous, current, rest, k - 1);
    }
  }

  /** The enemies a sweep gets are those of the snapshot, in id order: they are sorted with nothing but their ids to
      sort by. */
  lemma SortedById(snapshot: seq<Keyed<Point>>, enemies: seq<Keyed<Point>>)
    requires StrictlySorted(enemies) && SameElements(snapshot, enemies) && forall e | e in snapshot :: e.key == 0.0
    ensures IdOrder(enemies) && |enemies| == |snapshot|
    ensures forall e | e in snapshot :: exists k :: 0 <= k < |enemies| && enemies[k] == e
    ensures forall k | 0 <= k < |enemies| :: enemies[k] in snapshot
  {
    forall i, j | 0 <= i < j < |enemies| ensures enemies[i].id < enemies[j].id {
      assert enemies[i] in enemies && enemies[j] in enemies;
      assert Before(enemies[i], enemies[j]);
    }
  }

  // -------- Where it goes --------

  // Straight on, by its speed.
  ghost predicate Straight(s: Shot, dt: real, position: Point, direction: Point)
  {
    && direction == s.direction
    && position.x == s.position.x + s.direction.x * (s.speed * dt)
    && position.y == s.position.y + s.direction.y * (s.speed * dt)
  }

  // Onto the target if it is at hand; otherwise straight at it, nearer by the way it moves, and heading there.
  ghost predicate Steered(sqrt: real -> real, s: Shot, target: Point, way: real, position: Point, direction: Point)
  {
    var distance := Movement.Dist(sqrt, target, s.position);
    if distance <= 0.0001 || way >= distance then position == target && direction == s.direction
    else
      && Movement.Dist(sqrt, target, position) == distance - way
      && position.x == s.position.x + direction.x * way && position.y == s.position.y + direction.y * way
      && direction.x * distance == target.x - s.position.x && direction.y * distance == target.y - s.position.y
  }

  lemma Heading(way: real, distance: real)
    requires distance != 0.0
    ensures way / distance * distance == way
  {
  }

  lemma FarIsSteered(sqrt: real -> real, s: Shot, target: Point, dt: real, distance: real, way: real)
    requires Movement.IsSqrt(sqrt) && distance == Movement.Dist(sqrt, target, s.position) && way == Reach(s, dt)
    requires OVERLAPPING < distance && way < distance
    ensures var moved := Chased(sqrt, s, target, dt);
            Steered(sqrt, s, target, way, moved.position, moved.direction)
  {
    ChaseApproaches(sqrt, s, target, dt);
    Heading(target.x - s.position.x, distance);
    Heading(target.y - s.position.y, distance);
  }

  lemma ChasedIsSteered(sqrt: real -> real, s: Shot, target: Point, dt: real, moved: Shot)
    requires Movement.IsSqrt(sqrt) && moved == Chased(sqrt, s, target, dt)
    ensures Steered(sqrt, s, target, s.speed * dt, moved.position, moved.direction)
    ensures moved == s.(position := moved.position, direction := moved.direction)
  {
    var distance := Movement.Dist(sqrt, target, s.position);
    if OVERLAPPING < distance && Reach(s, dt) < distance {
      FarIsSteered(sqrt, s, target, dt, distance, Reach(s, dt));
    }
  }

  lemma ChasesOn(sqrt: real -> real, s: Shot, u: Surroundings, r: Shot)
    requires Movement.IsSqrt(sqrt) && s.active && s.isChase && r == Tick(sqrt, s, u).shot && r.active
    requires s.target.Some? && u.target.Some?
    ensures Steered(sqrt, s, u.target.value, s.speed * u.deltaTime, r.position, r.direction)
  {
    var moved := Chased(sqrt, s, u.target.value, u.deltaTime);
    ChasedIsSteered(sqrt, s, u.target.value, u.deltaTime, moved);
    SweepEndsIff(moved, s.position, moved.position, u.enemies);
  }

  lemma FliesStraight(sqrt: real -> real, s: Shot, u: Surroundings, r: Shot)
    requires s.active && !s.isChase && r == Tick(sqrt, s, u).shot && r.active && s.elapsed + u.deltaTime < s.duration
    ensures Straight(s, u.deltaTime, r.position, r.direction)
  {
    var moved := Flown(s.(elapsed := s.elapsed + u.deltaTime), u.deltaTime);
    SweepEndsIff(moved, s.position, moved.position, u.enemies);
  }

  /** A shot that flies on is straight on its way, or nearer to its target. */
  lemma FliesOn(sqrt: real -> real, s: Shot, u: Surroundings)
    requires Movement.IsSqrt(sqrt) && s.active && Tick(sqrt, s, u).shot.active
    ensures s.isChase ==> u.target.Some?
    ensures var r := Tick(sqrt, s, u).shot;
            if s.isChase then Steered(sqrt, s, u.target.value, s.speed * u.deltaTime, r.position, r.direction)
            else Straight(s, u.deltaTime, r.position, r.direction)
  {
    ReturnedIff(sqrt, s, u);
    if s.isChase {
      ChasesOn(sqrt, s, u, Tick(sqrt, s, u).shot);
    } else {
      FliesStraight(sqrt, s, u, Tick(sqrt, s, u).shot);
    }
  }

  // -------- A whole flight --------

  function After(sqrt: real -> real, s: Shot, us: seq<Surroundings>): Shot
    decreases |us|
  {
    if us == [] then s else After(sqrt, Tick(sqrt, s, us[0]).shot, us[1..])
  }

  /** A flight strikes what its updates strike, each from where the ones before left the shot. */
  lemma {:induction false} StruckByTicks(sqrt: real -> real, s: Shot, us: seq<Surroundings>, u: Surroundings)
    ensures Struck(sqrt, s, us + [u]) == Struck(sqrt, s, us) + Tick(sqrt, After(sqrt, s, us), u).struck
    decreases |us|
  {
    if us == [] {
      var t := Tick(sqrt, s, u);
      assert ([] + [u])[1..] == [] && t.struck + [] == [] + t.struck;
    } else {
      var first := Tick(sqrt, s, us[0]);
      assert (us + [u])[1..] == us[1..] + [u];
      StruckByTicks(sqrt, first.shot, us[1..], u);
      ConcatAssoc(first.struck, Struck(sqrt, first.shot, us[1..]), Tick(sqrt, After(sqrt, first.shot, us[1..]), u).struck);
    }
  }

  /** A shot that is back in the pool stays there, untouched, and returning it again does nothing. */
  lemma {:induction false} StaysReturned(sqrt: real -> real, s: Shot, us: seq<Surroundings>)
    requires !s.active
    ensures Returned(s) == s && After(sqrt, s, us) == s && Struck(sqrt, s, us) == []
    decreases |us|
  {
    if us != [] { StaysReturned(sqrt, s, us[1..]); }
  }

  function Times(us: seq<Surroundings>): (dts: seq<real>)
    ensures |dts| == |us|
  {
    seq(|us|, i requires 0 <= i < |us| => us[i].deltaTime)
  }

  /** A straight piercing shot flies exactly as long as its time lasts, whatever it meets. */
  lemma {:induction false} PierceFliesItsTime(sqrt: real -> real, s: Shot, us: seq<Surroundings>)
    requires s.active && !s.isChase && s.hitType == Pierce
    ensures After(sqrt, s, us).active <==> Outlives(s.elapsed, s.duration, Times(us))
    decreases |us|
  {
    if us != [] {
      var next := Tick(sqrt, s, us[0]).shot;
      ReturnedIff(sqrt, s, us[0]);
      assert Times(us)[1..] == Times(us[1..]);
      if next.active { PierceFliesItsTime(sqrt, next, us[1..]); } else { StaysReturned(sqrt, next, us[1..]); }
    }
  }
}
