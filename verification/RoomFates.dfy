/** What becomes of each enemy in an update in which nobody hits it: spawned, moved, dead, arrived or removed. */
module RoomFates {
  import opened Wire
  import opened EnemyManagers
  import opened RoomStates
  import opened RoomLaws
  import opened RoomEnemies
  import opened RoomTicks
  import opened RoomEnds
  import opened RoomHits
  import Debuffs
  import Enemies
  import Geometry
  import WaveManagers

  // -------- One visit --------

  // Where one visit leaves the roster and the wall: the enemy is as it is after its own update, and queued for
  // removal once for its death and once for its arrival, which costs the wall its power.
  ghost predicate Met(s: State, v: Visit, t: State)
    requires v.id in s.roster.enemies
  {
    var u := s.roster.enemies[v.id];
    && t.updating == s.updating && t.waves == s.waves && t.shots == s.shots
    && t.roster.nextId == s.roster.nextId
    && t.roster.enemies == s.roster.enemies[v.id := u.(body := v.after)]
    && t.roster.removing
       == s.roster.removing + (if v.after.health.dead then [v.id] else []) + (if v.arrived then [v.id] else [])
    && t.hp == s.hp - (if v.arrived then u.power else 0)
  }

  lemma CheckMeets(stage: WaveManagers.Stage, s: State)
    requires s.updating
    ensures var t := WaveChecked(stage, s);
            t == s.(phase := t.phase, pending := t.pending, log := t.log)
  {
  }

  lemma ArriveMeets(stage: WaveManagers.Stage, s: State, id: nat, power: int)
    requires s.updating
    ensures var t := Arrive(stage, s, id, power);
            t == s.(phase := t.phase, pending := t.pending, log := t.log, hp := s.hp - power, roster := Leaving(s.roster, id))
  {
    CheckMeets(stage, WallHit(s, id, power));
  }

  lemma DieMeets(stage: WaveManagers.Stage, s: State, id: nat, body: Enemies.Body)
    requires s.updating && id in s.roster.enemies
    ensures var t := Die(stage, s, id, body);
            t == s.(phase := t.phase, pending := t.pending, log := t.log, goldChange := false,
                    roster := Fallen(s.roster, id, body))
  {
    CheckMeets(stage, Paid(s, id, body));
  }

  lemma VisitMeets(stage: WaveManagers.Stage, s: State, v: Visit)
    requires s.updating && Stands(s.roster, v.id)
    ensures Met(s, v, Visited(stage, s, v))
  {
    var power := s.roster.enemies[v.id].power;
    var t := if v.after.health.dead then Die(stage, s, v.id, v.after) else Changed(s, v.id, v.after);
    DieMeets(stage, s, v.id, v.after);
    assert s.roster.removing + [] == s.roster.removing;
    assert t.roster.removing == s.roster.removing + (if v.after.health.dead then [v.id] else []);
    assert t.roster.removing + [] == t.roster.removing;
    if v.arrived { ArriveMeets(stage, t, v.id, power); }
  }

  // -------- The walk --------

  // The power of those that arrive.
  function ArrivingPower(r: Roster, vs: seq<Visit>): int
  {
    if vs == [] then 0
    else (if vs[0].arrived && Stands(r, vs[0].id) then r.enemies[vs[0].id].power else 0) + ArrivingPower(r, vs[1..])
  }

  // After the visits to the first enemies, one by one.
  ghost predicate Fated(s: State, vs: seq<Visit>, t: State)
  {
    && t.updating == s.updating && t.waves == s.waves && t.shots == s.shots
    && t.roster.nextId == s.roster.nextId && t.roster.enemies.Keys == s.roster.enemies.Keys
    && t.hp == s.hp - ArrivingPower(s.roster, vs)
    && (forall id | id in s.roster.enemies :: t.roster.enemies[id] == s.roster.enemies[id].(body := t.roster.enemies[id].body))
    && (forall k | 0 <= k < |vs| && Stands(s.roster, vs[k].id) :: FatedOne(s.roster, vs[k], t.roster))
    && (forall id | Untouched(s.roster, vs, id) ::
          t.roster.enemies[id] == s.roster.enemies[id] && (id in t.roster.removing <==> id in s.roster.removing))
  }

  ghost predicate FatedOne(r: Roster, v: Visit, r': Roster)
    requires v.id in r.enemies
  {
    && v.id in r'.enemies && r'.enemies[v.id].body == v.after
    && (v.id in r'.removing <==> v.id in r.removing || v.after.health.dead || v.arrived)
  }

  // In play, and dead or not visited.
  ghost predicate Untouched(r: Roster, vs: seq<Visit>, id: nat)
  {
    id in r.enemies && (Dead(r.enemies[id]) || forall k :: 0 <= k < |vs| ==> vs[k].id != id)
  }

  // To the enemies of vs the two rosters are alike.
  ghost predicate SameTo(r: Roster, r': Roster, vs: seq<Visit>)
  {
    forall k | 0 <= k < |vs| :: SameOne(r, r', vs[k].id)
  }

  predicate SameOne(r: Roster, r': Roster, id: nat)
  {
    && (id in r'.enemies <==> id in r.enemies)
    && (id in r.enemies ==> r'.enemies[id] == r.enemies[id])
    && (id in r'.removing <==> id in r.removing)
  }

  lemma {:induction false} SamePower(r: Roster, r': Roster, vs: seq<Visit>)
    requires SameTo(r, r', vs)
    ensures ArrivingPower(r, vs) == ArrivingPower(r', vs)
  {
    if vs != [] {
      assert SameOne(r, r', vs[0].id);
      forall k | 0 <= k < |vs| - 1 ensures SameOne(r, r', vs[1..][k].id) { assert SameOne(r, r', vs[k + 1].id); }
      SamePower(r, r', vs[1..]);
    }
  }

  // What the first visit does to the others: nothing.
  lemma FirstLeavesOthers(s: State, vs: seq<Visit>, m: State)
    requires vs != [] && Once(vs) && Stands(s.roster, vs[0].id) && Met(s, vs[0], m)
    ensures SameTo(s.roster, m.roster, vs[1..])
    ensures forall id | id != vs[0].id :: SameOne(s.roster, m.roster, id)
  {
    forall k | 0 <= k < |vs| - 1 ensures SameOne(s.roster, m.roster, vs[1..][k].id) {
      assert vs[k + 1].id != vs[0].id;
    }
  }

  lemma FateOfFirst(s: State, vs: seq<Visit>, m: State, t: State)
    requires vs != [] && Once(vs) && Stands(s.roster, vs[0].id) && Met(s, vs[0], m) && Fated(m, vs[1..], t)
    ensures FatedOne(s.roster, vs[0], t.roster)
  {
    var rest := vs[1..];
    forall k | 0 <= k < |rest| ensures rest[k].id != vs[0].id { assert rest[k] == vs[k + 1]; }
    assert Untouched(m.roster, rest, vs[0].id);
  }

  lemma FateOfLater(s: State, vs: seq<Visit>, m: State, t: State, k: nat)
    requires 0 < k < |vs| && Once(vs) && SameOne(s.roster, m.roster, vs[k].id) && Fated(m, vs[1..], t)
    requires Stands(s.roster, vs[k].id)
    ensures FatedOne(s.roster, vs[k], t.roster)
  {
    assert vs[1..][k - 1] == vs[k];
    assert Stands(m.roster, vs[1..][k - 1].id);
  }

  lemma UntouchedByFirst(s: State, vs: seq<Visit>, m: State, t: State, id: nat)
    requires vs != [] && SameOne(s.roster, m.roster, id) && Fated(m, vs[1..], t) && Untouched(s.roster, vs, id)
    ensures t.roster.enemies.Keys == m.roster.enemies.Keys
    ensures t.roster.enemies[id] == s.roster.enemies[id] && (id in t.roster.removing <==> id in s.roster.removing)
  {
    assert Untouched(m.roster, vs[1..], id) by {
      assert forall k :: 0 <= k < |vs| - 1 ==> vs[1..][k] == vs[k + 1];
    }
  }

  lemma FirstThenRest(s: State, vs: seq<Visit>, m: State, t: State)
    requires vs != [] && Once(vs) && Stands(s.roster, vs[0].id) && Met(s, vs[0], m) && Fated(m, vs[1..], t)
    ensures Fated(s, vs, t)
  {
    FirstLeavesOthers(s, vs, m);
    SamePower(s.roster, m.roster, vs[1..]);
    forall k | 0 <= k < |vs| && Stands(s.roster, vs[k].id) ensures FatedOne(s.roster, vs[k], t.roster) {
      if k == 0 { FateOfFirst(s, vs, m, t); } else {
        assert SameOne(s.roster, m.roster, vs[1..][k - 1].id);
        FateOfLater(s, vs, m, t, k);
      }
    }
    forall id | Untouched(s.roster, vs, id)
      ensures t.roster.enemies[id] == s.roster.enemies[id] && (id in t.roster.removing <==> id in s.roster.removing)
    {
      UntouchedByFirst(s, vs, m, t, id);
    }
  }

  lemma NobodyFirst(s: State, vs: seq<Visit>, t: State)
    requires vs != [] && Once(vs) && !Stands(s.roster, vs[0].id) && Fated(s, vs[1..], t)
    ensures Fated(s, vs, t)
  {
    forall k | 0 <= k < |vs| && Stands(s.roster, vs[k].id) ensures FatedOne(s.roster, vs[k], t.roster) {
      FateOfLater(s, vs, s, t, k);
    }
    forall id | Untouched(s.roster, vs, id)
      ensures t.roster.enemies[id] == s.roster.enemies[id] && (id in t.roster.removing <==> id in s.roster.removing)
    {
      UntouchedByFirst(s, vs, s, t, id);
    }
  }

  /** A walk meets each enemy once: it leaves each as its own update leaves it, queues for removal exactly the dead and
      the arrived, and costs the wall the power of the arrived. */
  lemma {:induction false} WalkFates(stage: WaveManagers.Stage, s: State, vs: seq<Visit>)
    requires s.updating && Once(vs)
    ensures Fated(s, vs, VisitedAll(stage, s, vs))
    decreases |vs|
  {
    if vs != [] {
      var m := Visited(stage, s, vs[0]);
      assert Once(vs[1..]);
      if Stands(s.roster, vs[0].id) {
        VisitMeets(stage, s, vs[0]);
        WalkFates(stage, m, vs[1..]);
        FirstThenRest(s, vs, m, VisitedAll(stage, s, vs));
      } else {
        WalkFates(stage, s, vs[1..]);
        NobodyFirst(s, vs, VisitedAll(stage, s, vs));
      }
    }
  }

  // -------- The update --------

  // What the update makes of one enemy in play.
  ghost predicate FateShown(sqrt: real -> real, r: Roster, order: seq<nat>, dt: real, t: Roster, id: nat)
    requires id in r.enemies
  {
    var u := r.enemies[id];
    var x := Enemies.UpdateBody(sqrt, u.body, dt);
    var walks := id in order && !u.body.health.dead;
    && (id in t.enemies <==> id !in r.removing && !(walks && (x.died || x.arrived)))
    && (id in t.enemies ==> t.enemies[id] == u.(body := if walks then x.body else u.body))
  }

  // The enemies the walk meets: those there were, and the one spawned now, if any.
  ghost predicate Joined(stage: WaveManagers.Stage, s: State, dt: real, turn: Turn, waves: WaveManagers.Waves, r: Roster)
    requires WaveManagers.InRange(stage, s.waves)
  {
    var spawn := WaveManagers.Updated(stage, s.waves, dt, turn.path != [] && turn.data.Some?);
    && waves == spawn.waves && r.removing == s.roster.removing
    && (turn.path == [] ==> r == s.roster)
    && (spawn.enemyId.None? ==> r.enemies == s.roster.enemies)
    && (spawn.enemyId.Some? ==>
          && r.nextId == s.roster.nextId + 1 && s.roster.nextId in r.enemies && turn.path != [] && turn.data.Some?
          && r.enemies == s.roster.enemies[s.roster.nextId := r.enemies[s.roster.nextId]]
          && var u, data := r.enemies[s.roster.nextId], turn.data.value;
             && u.kind == spawn.enemyId.value && u.power == data.power && u.reward == data.reward && u.active
             && u.body == Enemies.NewBody(data.maxHp, data.moveSpeed, u.body.mover.position, turn.path)
             && u.body.mover.position.x == Geometry.Trunc(turn.path[0].x) as real
             && u.body.mover.position.y == Geometry.Trunc(turn.path[0].y) as real)
  }

  lemma SpawnJoins(stage: WaveManagers.Stage, s: State, dt: real, turn: Turn)
    requires WaveManagers.InRange(stage, s.waves)
    ensures var t := WaveSpawned(stage, s, dt, turn);
            Joined(stage, s, dt, turn, t.waves, t.roster) && t == s.(waves := t.waves, roster := t.roster)
  {
  }

  lemma VisitsOnce(sqrt: real -> real, r: Roster, order: seq<nat>, dt: real)
    requires NoRepeats(order)
    ensures Once(Visits(sqrt, r, order, dt))
  {
  }

  lemma FateOf(sqrt: real -> real, a: State, order: seq<nat>, dt: real, b: State, id: nat)
    requires NoRepeats(order) && id in a.roster.enemies && Fated(a, Visits(sqrt, a.roster, order, dt), b)
    ensures FateShown(sqrt, a.roster, order, dt, Purged(b.roster), id)
  {
    var vs := Visits(sqrt, a.roster, order, dt);
    if Stands(a.roster, id) && id in order {
      var k :| 0 <= k < |order| && order[k] == id;
      assert vs[k] == VisitOf(sqrt, a.roster, id, dt);
      assert FatedOne(a.roster, vs[k], b.roster);
    } else {
      assert forall k :: 0 <= k < |vs| ==> vs[k].id == order[k];
      assert Untouched(a.roster, vs, id);
    }
  }

  lemma AfterWalkFates(w: World, s: State, dt: real, turn: Turn, a: State)
    requires WaveManagers.InRange(w.stage, s.waves) && s.phase == Wave && NoRepeats(turn.order) && a == AtWalk(w, s, dt, turn)
    ensures var b := AfterWalk(w, s, dt, turn);
            && (forall id | id in a.roster.enemies :: FateShown(w.sqrt, a.roster, turn.order, dt, b.roster, id))
            && b.roster.enemies.Keys <= a.roster.enemies.Keys && b.roster.removing == []
            && b.roster.nextId == a.roster.nextId && b.waves == a.waves && b.shots == a.shots
            && b.hp == a.hp - ArrivingPower(a.roster, Visits(w.sqrt, a.roster, turn.order, dt))
  {
    var vs := Visits(w.sqrt, a.roster, turn.order, dt);
    var b := VisitedAll(w.stage, a, vs);
    VisitsOnce(w.sqrt, a.roster, turn.order, dt);
    WalkFates(w.stage, a, vs);
    forall id | id in a.roster.enemies ensures FateShown(w.sqrt, a.roster, turn.order, dt, Purged(b.roster), id) {
      FateOf(w.sqrt, a, turn.order, dt, b, id);
    }
  }

  // Everything an update in which nobody hits does to the enemies, from s to t; r are those the walk meets.
  ghost predicate AllFated(w: World, s: State, dt: real, turn: Turn, r: Roster, t: State)
    requires WaveManagers.InRange(w.stage, s.waves)
  {
    && Joined(w.stage, s, dt, turn, t.waves, r)
    && (forall id | id in r.enemies :: FateShown(w.sqrt, r, turn.order, dt, t.roster, id))
    && t.roster.enemies.Keys <= r.enemies.Keys && t.roster.removing == [] && t.roster.nextId == r.nextId
    && t.hp == s.hp - ArrivingPower(r, Visits(w.sqrt, r, turn.order, dt)) && t.shots == s.shots
  }

  lemma TickFates(w: World, u: State, dt: real, turn: Turn, t: State) returns (r: Roster)
    requires Resting(w, u) && u.phase == Wave && NoRepeats(turn.order)
    requires turn.minionHits == [] && turn.projectileHits == []
    requires t == Ticked(w, u, dt, turn) && GoesOn(u, t)
    ensures AllFated(w, u, dt, turn, r, t)
  {
    var a, b := AtWalk(w, u, dt, turn), AfterWalk(w, u, dt, turn);
    r := a.roster;
    SpawnJoins(w.stage, Begun(u, dt), dt, turn);
    AfterWalkFates(w, u, dt, turn, a);
    assert turn == turn.(minionHits := [], projectileHits := []);
    Defence(w, u, dt, turn, [], b);
  }

  /** In a wave, in an update in which nobody hits and the stage does not end: the enemy that is due joins those in
      play; every one of them that is visited is as its own update leaves it, and gone if that killed it or let it
      arrive; the others stay as they are, but for those that were queued for removal; and the wall has lost the power
      of those that arrived. */
  lemma UpdateFates(w: World, s: State, commands: seq<Request>, dt: real, turn: Turn) returns (r: Roster)
    requires Resting(w, s) && s.phase == Wave && NoRepeats(turn.order)
    requires turn.minionHits == [] && turn.projectileHits == []
    requires GoesOn(s, Do(w, s, Update(commands, dt, turn)))
    ensures AllFated(w, s, dt, turn, r, Do(w, s, Update(commands, dt, turn)))
  {
    UpgradesRest(w, s, commands);
    r := TickFates(w, s.(board := UpgradedAll(s.board, commands)), dt, turn, Do(w, s, Update(commands, dt, turn)));
  }
}
