/** Whom a minion finds in range, by counting: no sorting, no cutting off. */
module TargetLaws {
  import opened Wire
  import opened Geometry
  import opened Sorting
  import opened EnemyManagers

  function DistanceSq(enemies: map<nat, Unit>, p: Point, id: nat): real
    requires id in enemies
  {
    DistSq(enemies[id].body.mover.position, p)
  }

  predicate InReach(enemies: map<nat, Unit>, p: Point, range: real, id: nat)
  {
    id in enemies && enemies[id].active && DistanceSq(enemies, p, id) <= range * range
  }

  // Those in reach that are nearer, or as near with a lower id.
  function Nearer(enemies: map<nat, Unit>, p: Point, range: real, id: nat): set<nat>
    requires id in enemies
  {
    set o | o in enemies && InReach(enemies, p, range, o)
            && (DistanceSq(enemies, p, o) < DistanceSq(enemies, p, id)
                || (DistanceSq(enemies, p, o) == DistanceSq(enemies, p, id) && o < id))
  }

  function Entry(enemies: map<nat, Unit>, p: Point, id: nat): Keyed<Unit>
    requires id in enemies
  {
    Keyed(DistanceSq(enemies, p, id), id, enemies[id])
  }

  lemma EntryIs(enemies: map<nat, Unit>, p: Point, range: real, maxTargets: int, found: seq<Keyed<Unit>>, k: nat)
    requires Nearest(enemies, p, range, maxTargets, found) && k < |found|
    ensures InReach(enemies, p, range, found[k].id) && found[k] == Entry(enemies, p, found[k].id)
  {
    assert found[k] in found;
  }

  // Whoever is nearer than an entry found comes before it.
  lemma NearerIsBefore(enemies: map<nat, Unit>, p: Point, range: real, maxTargets: int, found: seq<Keyed<Unit>>, k: nat, o: nat)
    requires Nearest(enemies, p, range, maxTargets, found) && k < |found|
    requires found[k].id in enemies && o in Nearer(enemies, p, range, found[k].id)
    ensures o in Ids(found[..k])
  {
    var e := Entry(enemies, p, o);
    EntryIs(enemies, p, range, maxTargets, found, k);
    assert Candidate(enemies, p, range, e);
    assert found[k] in found;
    assert e in found;
    var i :| 0 <= i < |found| && found[i] == e;
    assert i < k;
    assert found[..k][i].id == o;
  }

  lemma FoundAreNearer(enemies: map<nat, Unit>, p: Point, range: real, maxTargets: int, found: seq<Keyed<Unit>>, k: nat)
    requires Nearest(enemies, p, range, maxTargets, found) && k < |found|
    ensures InReach(enemies, p, range, found[k].id) && Nearer(enemies, p, range, found[k].id) == Ids(found[..k])
  {
    EntryIs(enemies, p, range, maxTargets, found, k);
    forall o | o in Ids(found[..k]) ensures o in Nearer(enemies, p, range, found[k].id) {
      var i :| 0 <= i < k && found[..k][i].id == o;
      EntryIs(enemies, p, range, maxTargets, found, i);
      assert Before(found[i], found[k]);
    }
    forall o | o in Nearer(enemies, p, range, found[k].id) ensures o in Ids(found[..k]) {
      NearerIsBefore(enemies, p, range, maxTargets, found, k, o);
    }
  }

  lemma PrefixCount(found: seq<Keyed<Unit>>, k: nat)
    requires StrictlySorted(found) && DistinctIds(found) && k <= |found|
    ensures |Ids(found[..k])| == k
  {
    IdsCount(found[..k]);
  }

  lemma LeftOutHasMany(enemies: map<nat, Unit>, p: Point, range: real, maxTargets: int, found: seq<Keyed<Unit>>, id: nat)
    requires Nearest(enemies, p, range, maxTargets, found) && InReach(enemies, p, range, id) && id !in Ids(found)
    ensures maxTargets > 0 && |Nearer(enemies, p, range, id)| >= maxTargets
  {
    var e := Entry(enemies, p, id);
    assert Candidate(enemies, p, range, e);
    assert e !in found;
    FoundDistinct(enemies, p, range, maxTargets, found);
    IdsCount(found);
    forall o | o in Ids(found) ensures o in Nearer(enemies, p, range, id) {
      var i :| 0 <= i < |found| && found[i].id == o;
      EntryIs(enemies, p, range, maxTargets, found, i);
      assert found[i] in found && Before(found[i], e);
    }
    SubsetCount(Ids(found), Nearer(enemies, p, range, id));
  }

  /** An enemy is found exactly if it is active and in reach, and with a limit on the targets fewer than the limit are
      nearer; and those found come in the order of their distance, each after exactly the nearer ones. */
  lemma FoundIff(enemies: map<nat, Unit>, p: Point, range: real, maxTargets: int, found: seq<Keyed<Unit>>, id: nat)
    requires Nearest(enemies, p, range, maxTargets, found)
    ensures id in Ids(found)
       <==> InReach(enemies, p, range, id) && (maxTargets > 0 ==> |Nearer(enemies, p, range, id)| < maxTargets)
    ensures forall k | 0 <= k < |found| ::
              found[k].id in enemies && found[k].value == enemies[found[k].id]
              && |Nearer(enemies, p, range, found[k].id)| == k
  {
    FoundDistinct(enemies, p, range, maxTargets, found);
    forall k | 0 <= k < |found|
      ensures found[k].id in enemies && found[k].value == enemies[found[k].id]
      ensures InReach(enemies, p, range, found[k].id) && |Nearer(enemies, p, range, found[k].id)| == k
    {
      FoundAreNearer(enemies, p, range, maxTargets, found, k);
      PrefixCount(found, k);
      EntryIs(enemies, p, range, maxTargets, found, k);
    }
    if id in Ids(found) {
      var k :| 0 <= k < |found| && found[k].id == id;
      assert |Nearer(enemies, p, range, found[k].id)| == k;
    } else if InReach(enemies, p, range, id) {
      LeftOutHasMany(enemies, p, range, maxTargets, found, id);
    }
  }
}
