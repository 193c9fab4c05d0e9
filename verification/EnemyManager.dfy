/** EnemyManager: the enemies in play, their deferred removal, and the choice of targets in range. */
module EnemyManagers {
  import opened Wire
  import opened Geometry
  import opened Sorting
  import Enemies

  // An enemy in play: what it is, and how it fares.
  datatype Unit = Unit(kind: uint32, power: int, reward: int, active: bool, body: Enemies.Body)

  predicate Dead(u: Unit)
  {
    u.body.health.dead
  }

  datatype EnemyData = EnemyData(maxHp: int, moveSpeed: real, power: int, reward: int)

  // Enemy::Init and SetPath; the position is passed as integers.
  function NewUnit(kind: uint32, data: EnemyData, path: seq<Point>): Unit
    requires path != []
  {
    var position := Point(Trunc(path[0].x) as real, Trunc(path[0].y) as real);
    Unit(kind, data.power, data.reward, true, Enemies.NewBody(data.maxHp, data.moveSpeed, position, path))
  }

  datatype Roster = Roster(enemies: map<nat, Unit>, removing: seq<nat>, nextId: nat)

  const Nobody := Roster(map[], [], 1)

  // SpawnEnemy: the id is used up even when there is no data for the enemy.
  function Spawned(r: Roster, unit: Option<Unit>): Roster
  {
    Roster(if unit.None? then r.enemies else r.enemies[r.nextId := unit.value], r.removing, r.nextId + 1)
  }

  function Leaving(r: Roster, id: nat): Roster
  {
    r.(removing := r.removing + [id])
  }

  function Embodied(r: Roster, id: nat, body: Enemies.Body): Roster
    requires id in r.enemies
  {
    r.(enemies := r.enemies[id := r.enemies[id].(body := body)])
  }

  // The end of Update.
  function Purged(r: Roster): Roster
  {
    Roster(r.enemies - Elements(r.removing), [], r.nextId)
  }

  function Elements(ids: seq<nat>): set<nat>
  {
    set id | id in ids
  }

  function AliveCount(r: Roster): nat
  {
    if |r.enemies| < |r.removing| then 0 else |r.enemies| - |r.removing|
  }

  // In play and not about to be removed.
  function Live(r: Roster): set<nat>
  {
    r.enemies.Keys - Elements(r.removing)
  }

  ghost predicate NoRepeats(ids: seq<nat>)
  {
    forall i, j :: 0 <= i < j < |ids| ==> ids[i] != ids[j]
  }

  /** What EnemyManager itself keeps: ids come from the counter, and only enemies in play are removed. */
  ghost predicate Registered(r: Roster)
  {
    && (forall id | id in r.enemies :: id < r.nextId)
    && (forall id | id in r.removing :: id in r.enemies)
  }

  class EnemyManager {
    var m_nextInstanceId: nat
    var m_enemies: map<nat, Unit>
    var m_removeQueue: seq<nat>

    function State(): Roster
      reads this
    {
      Roster(m_enemies, m_removeQueue, m_nextInstanceId)
    }

    constructor ()
      ensures State() == Nobody
    {
      m_nextInstanceId, m_enemies, m_removeQueue := 1, map[], [];
    }

    method SpawnEnemy(unit: Option<Unit>) returns (instanceId: Option<nat>)
      modifies this
      ensures State() == Spawned(old(State()), unit)
      ensures old(Registered(State())) ==> Registered(State())
      ensures instanceId == if unit.Some? then Some(old(m_nextInstanceId)) else None
    {
      var id := m_nextInstanceId;
      m_nextInstanceId := m_nextInstanceId + 1;
      if unit.None? {
        return None;
      }
      m_enemies := m_enemies[id := unit.value];
      instanceId := Some(id);
    }

    // What happens to the enemy itself: Enemies says how its methods change it.
    method SetBody(instanceId: nat, body: Enemies.Body)
      requires instanceId in m_enemies
      modifies this`m_enemies
      ensures State() == Embodied(old(State()), instanceId, body)
    {
      m_enemies := m_enemies[instanceId := m_enemies[instanceId].(body := body)];
    }

    method RemoveEnemy(instanceId: nat)
      modifies this`m_removeQueue
      ensures State() == Leaving(old(State()), instanceId)
    {
      m_removeQueue := m_removeQueue + [instanceId];
    }

    method Clear()
      modifies this`m_enemies, this`m_removeQueue
      ensures State() == Nobody.(nextId := old(m_nextInstanceId))
    {
      m_enemies, m_removeQueue := map[], [];
    }

    // The last part of Update: an id that is queued twice is found only once.
    method Purge()
      modifies this`m_enemies, this`m_removeQueue
      ensures State() == Purged(old(State()))
    {
      var i := 0;
      while i < |m_removeQueue|
        invariant 0 <= i <= |m_removeQueue|
        invariant m_removeQueue == old(m_removeQueue)
        invariant m_enemies == old(m_enemies) - Elements(m_removeQueue[..i])
      {
        var id := m_removeQueue[i];
        assert m_removeQueue[..i + 1] == m_removeQueue[..i] + [id];
        if id in m_enemies {
          m_enemies := m_enemies - {id};
        }
        i := i + 1;
      }
      assert m_removeQueue[..i] == m_removeQueue;
      m_removeQueue := [];
    }

    method GetAliveEnemyCount() returns (count: int)
      ensures count == AliveCount(State())
    {
      if |m_enemies| < |m_removeQueue| {
        return 0;
      }
      count := |m_enemies| - |m_removeQueue|;
    }

    /** The targets of an attack: the nearest active enemies in range, whatever order the map is walked in. */
    method FindEnemyInRange(position: Point, range: real, maxTargets: int) returns (found: seq<Keyed<Unit>>)
      ensures Nearest(m_enemies, position, range, maxTargets, found)
      ensures maxTargets <= 0 ==> forall c :: c in found <==> Candidate(m_enemies, position, range, c)
    {
      var rangeSquared := range * range;
      var candidates: seq<Keyed<Unit>> := [];
      var snapshot := m_enemies.Keys;
      while snapshot != {}
        invariant snapshot <= m_enemies.Keys
        invariant DistinctIds(candidates)
        invariant forall c :: c in candidates <==> Candidate(m_enemies, position, range, c) && c.id !in snapshot
        decreases |snapshot|
      {
        var id :| id in snapshot;
        snapshot := snapshot - {id};
        var enemy := m_enemies[id];
        if enemy.active {
          var distanceSquared := DistSq(enemy.body.mover.position, position);
          if distanceSquared <= rangeSquared {
            assert forall c | c in candidates :: c.id != id;
            candidates := candidates + [Keyed(distanceSquared, id, enemy)];
          }
        }
      }
      candidates := Sort(candidates);
      found := candidates;
      if maxTargets > 0 && |candidates| > maxTargets {
        found := candidates[..maxTargets];
        FirstAreNearest(candidates, maxTargets);
      }
    }
  }

  // -------- The alive count --------

  lemma {:induction false} ElementCount(ids: seq<nat>)
    ensures |Elements(ids)| <= |ids|
    ensures |Elements(ids)| == |ids| <==> NoRepeats(ids)
    decreases |ids|
  {
    if ids != [] {
      var last, init := ids[|ids| - 1], ids[..|ids| - 1];
      ElementCount(init);
      assert ids == init + [last];
      assert Elements(ids) == Elements(init) + {last};
      if last in init {
        assert Elements(ids) == Elements(init);
      }
    }
  }

  /** The count that decides the end of a wave is the number of live enemies exactly when no enemy is queued
      for removal twice, or none is live anyway; otherwise it is too low. */
  lemma AliveCountExactIff(r: Roster)
    requires Registered(r)
    ensures AliveCount(r) <= |Live(r)|
    ensures AliveCount(r) == |Live(r)| <==> NoRepeats(r.removing) || Live(r) == {}
  {
    ElementCount(r.removing);
    assert Elements(r.removing) <= r.enemies.Keys;
    assert |r.enemies.Keys - Elements(r.removing)| == |r.enemies.Keys| - |Elements(r.removing)|;
  }

  /** The count is zero, which ends a wave once spawning is finished, exactly if no more enemies are live than
      are queued for removal more than once. */
  lemma AliveCountZeroIff(r: Roster)
    requires Registered(r)
    ensures AliveCount(r) == 0 <==> |Live(r)| <= |r.removing| - |Elements(r.removing)|
  {
    ElementCount(r.removing);
    assert Elements(r.removing) <= r.enemies.Keys;
    assert |r.enemies.Keys - Elements(r.removing)| == |r.enemies.Keys| - |Elements(r.removing)|;
  }

  /** Removal is deferred, not lost: purging leaves exactly the live enemies, however often they were queued. */
  lemma PurgeKeepsLive(r: Roster)
    requires Registered(r)
    ensures Purged(r).enemies.Keys == Live(r) && Live(Purged(r)) == Live(r) && Registered(Purged(r))
    ensures AliveCount(Purged(r)) == |Live(r)|
    ensures forall id | id in Live(r) :: Purged(r).enemies[id] == r.enemies[id]
  {
    var p := Purged(r);
    assert p.enemies.Keys == Live(r);
    assert Elements([]) == {};
  }

  // -------- Choosing targets --------

  ghost predicate Candidate(enemies: map<nat, Unit>, p: Point, range: real, c: Keyed<Unit>)
  {
    && c.id in enemies && c.value == enemies[c.id] && c.value.active
    && c.key == DistSq(c.value.body.mover.position, p) && c.key <= range * range
  }

  ghost predicate Nearest(enemies: map<nat, Unit>, p: Point, range: real, maxTargets: int, found: seq<Keyed<Unit>>)
  {
    && StrictlySorted(found)
    && (forall c | c in found :: Candidate(enemies, p, range, c))
    && (maxTargets > 0 ==> |found| <= maxTargets)
    && (forall c | Candidate(enemies, p, range, c) && c !in found ::
          maxTargets > 0 && |found| == maxTargets && forall f | f in found :: Before(f, c))
  }

  lemma FirstAreNearest<T(!new)>(xs: seq<Keyed<T>>, k: nat)
    requires StrictlySorted(xs) && k <= |xs|
    ensures StrictlySorted(xs[..k])
    ensures forall c, f | c in xs && c !in xs[..k] && f in xs[..k] :: Before(f, c)
  {
    forall c, f | c in xs && c !in xs[..k] && f in xs[..k] ensures Before(f, c) {
      SplitAt(xs, k);
      var i :| 0 <= i < |xs[k..]| && xs[k..][i] == c;
      var j :| 0 <= j < |xs[..k]| && xs[..k][j] == f;
      assert Before(xs[j], xs[k + i]);
    }
  }

  function Ids<T>(xs: seq<Keyed<T>>): set<nat>
  {
    set i | 0 <= i < |xs| :: xs[i].id
  }

  lemma {:induction false} IdsCount<T(!new)>(xs: seq<Keyed<T>>)
    requires StrictlySorted(xs) && DistinctIds(xs)
    ensures |Ids(xs)| == |xs|
    decreases |xs|
  {
    if xs != [] {
      var init, last := xs[..|xs| - 1], xs[|xs| - 1];
      IdsCount(init);
      assert Ids(xs) == Ids(init) + {last.id} by {
        forall id ensures id in Ids(xs) <==> id in Ids(init) + {last.id} { }
      }
    }
  }

  lemma FoundDistinct(enemies: map<nat, Unit>, p: Point, range: real, maxTargets: int, found: seq<Keyed<Unit>>)
    requires Nearest(enemies, p, range, maxTargets, found)
    ensures DistinctIds(found)
  {
    forall i, j | 0 <= i < j < |found| ensures found[i].id != found[j].id {
      assert found[i] in found && found[j] in found && Before(found[i], found[j]);
    }
  }

  lemma SubsetCount(a: set<nat>, b: set<nat>)
    requires a <= b
    ensures |a| <= |b|
  {
    assert b == a + (b - a);
  }

  // If f is no longer than g and has an element that g lacks, then g has one that f lacks.
  lemma SomeoneElse<T(!new)>(f: seq<Keyed<T>>, g: seq<Keyed<T>>, c: Keyed<T>) returns (d: Keyed<T>)
    requires StrictlySorted(f) && DistinctIds(f) && StrictlySorted(g) && DistinctIds(g)
    requires |f| <= |g| && c in f && c !in g
    requires forall x, y | x in f && y in g :: x.id == y.id ==> x == y
    ensures d in g && d !in f
  {
    IdsCount(f);
    IdsCount(g);
    assert c.id in Ids(f);
    if Ids(g) <= Ids(f) - {c.id} {
      SubsetCount(Ids(g), Ids(f) - {c.id});
    }
    var id :| id in Ids(g) && id !in Ids(f) - {c.id};
    var i :| 0 <= i < |g| && g[i].id == id;
    d := g[i];
    assert d in f ==> id in Ids(f);
  }

  // g is full without c, and all in it are before c; one of them f lacks, and that one is after all in f.
  lemma NoneLeftOut(enemies: map<nat, Unit>, p: Point, range: real, maxTargets: int,
                    f: seq<Keyed<Unit>>, g: seq<Keyed<Unit>>, c: Keyed<Unit>)
    requires Nearest(enemies, p, range, maxTargets, f) && Nearest(enemies, p, range, maxTargets, g)
    requires c in f
    ensures c in g
  {
    FoundDistinct(enemies, p, range, maxTargets, f);
    FoundDistinct(enemies, p, range, maxTargets, g);
    assert Candidate(enemies, p, range, c);
    if c !in g {
      var d := SomeoneElse(f, g, c);
    }
  }

  /** The choice is determined: any two answers for the same enemies are the same list. */
  lemma NearestIsUnique(enemies: map<nat, Unit>, p: Point, range: real, maxTargets: int,
                        f: seq<Keyed<Unit>>, g: seq<Keyed<Unit>>)
    requires Nearest(enemies, p, range, maxTargets, f) && Nearest(enemies, p, range, maxTargets, g)
    ensures f == g
  {
    forall c ensures c in f <==> c in g {
      if c in f { NoneLeftOut(enemies, p, range, maxTargets, f, g, c); }
      if c in g { NoneLeftOut(enemies, p, range, maxTargets, g, f, c); }
    }
    SortedIsUnique(f, g);
  }
}
