/** One walk over the enemies, as the departures in it: when it announces the end of the wave too early, and
    when it does so after the stage was lost. */
module RoomWalks {
  import opened Wire
  import opened EnemyManagers
  import opened RoomStates
  import opened RoomLaws
  import opened RoomEnemies
  import WaveManagers

  // A death is worth a reward, an arrival costs the wall the enemy's power.
  datatype Departure = Departure(id: nat, arrival: bool, worth: int)

  function DeparturesBy(r: Roster, v: Visit): seq<Departure>
  {
    if v.id !in r.enemies || Dead(r.enemies[v.id]) then []
    else (if v.after.health.dead then [Departure(v.id, false, r.enemies[v.id].reward)] else [])
         + (if v.arrived then [Departure(v.id, true, r.enemies[v.id].power)] else [])
  }

  // Who departs in a walk that starts from r, in order.
  function DeparturesOf(r: Roster, vs: seq<Visit>): seq<Departure>
    decreases |vs|
  {
    if vs == [] then [] else DeparturesBy(r, vs[0]) + DeparturesOf(r, vs[1..])
  }

  function Depart(stage: WaveManagers.Stage, s: State, d: Departure): State
  {
    if d.arrival then Arrive(stage, s, d.id, d.worth)
    else WaveChecked(stage, Logged(s.(roster := Leaving(s.roster, d.id)), Rewarded(d.id, d.worth))).(goldChange := false)
  }

  function DepartAll(stage: WaveManagers.Stage, s: State, ds: seq<Departure>): State
    decreases |ds|
  {
    if ds == [] then s else Depart(stage, DepartAll(stage, s, ds[..|ds| - 1]), ds[|ds| - 1])
  }

  // -------- A walk is its departures, but for the enemies' bodies --------

  ghost predicate Alike(s: State, t: State)
  {
    && t == s.(roster := s.roster.(enemies := t.roster.enemies))
    && t.roster.enemies.Keys == s.roster.enemies.Keys
  }

  lemma SameCount(s: State, t: State)
    requires Alike(s, t)
    ensures AliveCount(s.roster) == AliveCount(t.roster)
  {
    assert |s.roster.enemies.Keys| == |s.roster.enemies| && |t.roster.enemies.Keys| == |t.roster.enemies|;
  }

  lemma CheckAlike(stage: WaveManagers.Stage, s: State, t: State)
    requires Alike(s, t) && s.updating
    ensures Alike(WaveChecked(stage, s), WaveChecked(stage, t)) && WaveChecked(stage, s).updating
  {
    SameCount(s, t);
  }

  lemma ArriveAlike(stage: WaveManagers.Stage, s: State, t: State, id: nat, power: int)
    requires Alike(s, t) && s.updating
    ensures Alike(Arrive(stage, s, id, power), Arrive(stage, t, id, power)) && Arrive(stage, s, id, power).updating
  {
    CheckAlike(stage, WallHit(s, id, power), WallHit(t, id, power));
  }

  lemma DieAlike(stage: WaveManagers.Stage, s: State, t: State, v: Visit)
    requires Alike(s, t) && s.updating && v.id in s.roster.enemies
    ensures var d := Departure(v.id, false, s.roster.enemies[v.id].reward);
            Alike(Die(stage, s, v.id, v.after), Depart(stage, t, d)) && Die(stage, s, v.id, v.after).updating
  {
    var a := Paid(s, v.id, v.after);
    var b := Logged(t.(roster := Leaving(t.roster, v.id)), Rewarded(v.id, s.roster.enemies[v.id].reward));
    assert Embodied(s.roster, v.id, v.after).enemies.Keys == s.roster.enemies.Keys;
    CheckAlike(stage, a, b);
  }

  lemma DepartSnoc(stage: WaveManagers.Stage, s: State, ds: seq<Departure>, d: Departure)
    ensures DepartAll(stage, s, ds + [d]) == Depart(stage, DepartAll(stage, s, ds), d)
  {
    assert (ds + [d])[..|ds|] == ds;
  }

  lemma {:induction false} DepartConcat(stage: WaveManagers.Stage, s: State, a: seq<Departure>, b: seq<Departure>)
    ensures DepartAll(stage, s, a + b) == DepartAll(stage, DepartAll(stage, s, a), b)
    decreases |b|
  {
    if b == [] {
      assert a + b == a;
    } else {
      var n := |b| - 1;
      DepartConcat(stage, s, a, b[..n]);
      DepartSnoc(stage, s, a + b[..n], b[n]);
      LastOfSum(a, b);
    }
  }

  lemma LastOfSum(a: seq<Departure>, b: seq<Departure>)
    requires b != []
    ensures a + b == (a + b[..|b| - 1]) + [b[|b| - 1]]
  {
  }

  lemma DepartOne(stage: WaveManagers.Stage, s: State, d: Departure)
    ensures DepartAll(stage, s, [d]) == Depart(stage, s, d)
  {
    DepartSnoc(stage, s, [], d);
    assert [] + [d] == [d];
  }

  lemma VisitAlike(stage: WaveManagers.Stage, s: State, t: State, v: Visit)
    requires Alike(s, t) && s.updating
    ensures Alike(Visited(stage, s, v), DepartAll(stage, t, DeparturesBy(s.roster, v))) && Visited(stage, s, v).updating
  {
    if v.id in s.roster.enemies && !Dead(s.roster.enemies[v.id]) {
      var u := s.roster.enemies[v.id];
      var death, arrival := Departure(v.id, false, u.reward), Departure(v.id, true, u.power);
      DieAlike(stage, s, t, v);
      DepartOne(stage, t, death);
      DepartOne(stage, t, arrival);
      if v.after.health.dead {
        ArriveAlike(stage, Die(stage, s, v.id, v.after), Depart(stage, t, death), v.id, u.power);
        DepartSnoc(stage, t, [death], arrival);
        assert [death] + [] == [death];
      } else {
        ArriveAlike(stage, Changed(s, v.id, v.after), t, v.id, u.power);
        assert [] + [arrival] == [arrival];
      }
    }
  }

  // Those still to be visited are as they were at the start.
  ghost predicate Untouched(r: Roster, now: Roster, vs: seq<Visit>)
  {
    forall v | v in vs :: (v.id in now.enemies <==> v.id in r.enemies)
                          && (v.id in r.enemies ==> now.enemies[v.id] == r.enemies[v.id])
  }

  lemma VisitTouchesOne(stage: WaveManagers.Stage, s: State, v: Visit)
    requires s.updating
    ensures var t := Visited(stage, s, v);
            && t.updating && t.roster.enemies.Keys == s.roster.enemies.Keys
            && forall id | id in s.roster.enemies && id != v.id :: t.roster.enemies[id] == s.roster.enemies[id]
  {
    if v.id in s.roster.enemies && !Dead(s.roster.enemies[v.id]) {
      VisitEffects(stage, s, v);
      VisitAlike(stage, s, s, v);
    }
  }

  lemma {:induction false} WalkAlike(stage: WaveManagers.Stage, r: Roster, s: State, t: State, vs: seq<Visit>)
    requires Alike(s, t) && s.updating && Once(vs) && Untouched(r, s.roster, vs)
    ensures Alike(VisitedAll(stage, s, vs), DepartAll(stage, t, DeparturesOf(r, vs)))
    decreases |vs|
  {
    if vs != [] {
      var v, next := vs[0], Visited(stage, s, vs[0]);
      RestOfVisits(vs);
      assert v in vs && DeparturesBy(r, v) == DeparturesBy(s.roster, v);
      VisitAlike(stage, s, t, v);
      VisitTouchesOne(stage, s, v);
      WalkAlike(stage, r, next, DepartAll(stage, t, DeparturesBy(r, v)), vs[1..]);
      DepartConcat(stage, t, DeparturesBy(r, v), DeparturesOf(r, vs[1..]));
    }
  }

  /** The walk announces, and leaves the room, what its departures one by one would. */
  lemma WalkIsDepartures(stage: WaveManagers.Stage, s: State, vs: seq<Visit>)
    requires s.updating && Once(vs)
    ensures Alike(VisitedAll(stage, s, vs), DepartAll(stage, s, DeparturesOf(s.roster, vs)))
  {
    WalkAlike(stage, s.roster, s, s, vs);
  }

  // -------- The state after some departures --------

  // The wall after departures.
  function Wall(hp: int, ds: seq<Departure>): int
    decreases |ds|
  {
    if ds == [] then hp
    else Wall(hp, ds[..|ds| - 1]) - (if ds[|ds| - 1].arrival then ds[|ds| - 1].worth else 0)
  }

  // The count at the start of the walk.
  function Counting(s: State): int
  {
    |s.roster.enemies| - |s.roster.removing|
  }

  // At departure k the wall breaks: the stage is lost, and the end of the wave is not checked.
  predicate Breaks(s: State, ds: seq<Departure>, k: nat)
    requires k < |ds|
  {
    ds[k].arrival && Wall(s.hp, ds[..k + 1]) <= 0
  }

  // At departure k the check for the end of the wave succeeds: as many have departed as there were live.
  predicate Passes(s: State, ds: seq<Departure>, k: nat)
    requires k < |ds|
  {
    !Breaks(s, ds, k) && s.waves.finished && Counting(s) <= k + 1
  }

  function NoticeOf(hp: int, d: Departure): Notice
  {
    if d.arrival then Arrived(d.id, hp) else Rewarded(d.id, d.worth)
  }

  ghost predicate Reached(s: State, ds: seq<Departure>, t: State)
  {
    && t.updating && t.waves == s.waves && t.hp == Wall(s.hp, ds)
    && t.roster.enemies == s.roster.enemies && |t.roster.removing| == |s.roster.removing| + |ds|
  }

  // What one more departure does, by what it meets.
  lemma OneDeparture(stage: WaveManagers.Stage, s: State, ds: seq<Departure>, d: Departure, a: State)
    requires Reached(s, ds, a)
    ensures var t, all, k := Depart(stage, a, d), ds + [d], |ds|;
            var noted := a.log + [NoticeOf(Wall(s.hp, all), d)];
            && Reached(s, all, t)
            && (Breaks(s, all, k) ==>
                  t.phase == EndStage && t.log == if a.phase == EndStage then noted else noted + [StageEnd(false)])
            && (Passes(s, all, k) && |stage| <= s.waves.current ==>
                  t.phase == EndStage && t.log == if a.phase == EndStage then noted else noted + [StageEnd(true)])
            && (Passes(s, all, k) && s.waves.current < |stage| ==> t.phase == Intermission && t.log == noted + [WaveEnd])
            && (!Breaks(s, all, k) && !Passes(s, all, k) ==> t.phase == a.phase && t.log == noted)
  {
    assert (ds + [d])[..|ds|] == ds && (ds + [d])[..|ds| + 1] == ds + [d];
  }

  lemma {:induction false} AllReached(stage: WaveManagers.Stage, s: State, ds: seq<Departure>)
    requires s.updating
    ensures Reached(s, ds, DepartAll(stage, s, ds))
    decreases |ds|
  {
    if ds != [] {
      var n := |ds| - 1;
      AllReached(stage, s, ds[..n]);
      OneDeparture(stage, s, ds[..n], ds[n], DepartAll(stage, s, ds[..n]));
      assert ds[..n] + [ds[n]] == ds;
    }
  }

  // -------- After a loss --------

  ghost predicate SomeBreak(s: State, ds: seq<Departure>, n: nat)
    requires n <= |ds|
  {
    exists i :: 0 <= i < n && Breaks(s, ds, i)
  }

  ghost predicate SomePassAfterBreak(s: State, ds: seq<Departure>, n: nat)
    requires n <= |ds|
  {
    exists k :: 0 <= k < n && Passes(s, ds, k) && SomeBreak(s, ds, k)
  }

  // In the log from `base` on, the stage is announced lost, and after that the wave ended.
  ghost predicate EndAfterLoss(log: seq<Notice>, base: nat)
  {
    exists a, b :: base <= a < b < |log| && log[a] == StageEnd(false) && log[b] == WaveEnd
  }

  ghost predicate Loss(log: seq<Notice>, base: nat)
  {
    exists a :: base <= a < |log| && log[a] == StageEnd(false)
  }

  lemma LogMore(log: seq<Notice>, base: nat, n: Notice)
    requires base <= |log|
    ensures Loss(log + [n], base) <==> Loss(log, base) || n == StageEnd(false)
    ensures EndAfterLoss(log + [n], base) <==> EndAfterLoss(log, base) || (n == WaveEnd && Loss(log, base))
  {
    var all := log + [n];
    assert forall i :: 0 <= i < |log| ==> all[i] == log[i];
    assert all[|log|] == n;
    if Loss(log, base) {
      var a :| base <= a < |log| && log[a] == StageEnd(false);
      assert all[a] == StageEnd(false);
    }
    if EndAfterLoss(log, base) {
      var a, b :| base <= a < b < |log| && log[a] == StageEnd(false) && log[b] == WaveEnd;
      assert all[a] == StageEnd(false) && all[b] == WaveEnd;
    }
  }

  lemma PrefixBreaks(s: State, ds: seq<Departure>, d: Departure, k: nat)
    requires k < |ds|
    ensures Breaks(s, ds + [d], k) == Breaks(s, ds, k) && Passes(s, ds + [d], k) == Passes(s, ds, k)
  {
    assert (ds + [d])[..k + 1] == ds[..k + 1];
  }

  lemma SomeMore(s: State, ds: seq<Departure>, d: Departure)
    ensures var all, n := ds + [d], |ds|;
            && (SomeBreak(s, all, n + 1) <==> SomeBreak(s, ds, n) || Breaks(s, all, n))
            && (SomeBreak(s, all, n) <==> SomeBreak(s, ds, n))
            && (SomePassAfterBreak(s, all, n + 1)
                <==> SomePassAfterBreak(s, ds, n) || (Passes(s, all, n) && SomeBreak(s, ds, n)))
  {
    var all, n := ds + [d], |ds|;
    forall k: nat | k < n ensures Breaks(s, all, k) == Breaks(s, ds, k) && Passes(s, all, k) == Passes(s, ds, k) {
      PrefixBreaks(s, ds, d, k);
    }
    forall k: nat | k <= n ensures SomeBreak(s, all, k) <==> SomeBreak(s, ds, k) {
    }
  }

  // With a further wave to come, the log tells of the losses and of the ends after them.
  ghost predicate Told(s: State, ds: seq<Departure>, t: State, base: nat)
  {
    && base <= |t.log|
    && (Loss(t.log, base) <==> SomeBreak(s, ds, |ds|))
    && (EndAfterLoss(t.log, base) <==> SomePassAfterBreak(s, ds, |ds|))
    && (t.phase == EndStage ==> SomeBreak(s, ds, |ds|))
    && (SomeBreak(s, ds, |ds|) && t.phase != EndStage ==> t.phase == Intermission && SomePassAfterBreak(s, ds, |ds|))
  }

  lemma ToldMore(stage: WaveManagers.Stage, s: State, ds: seq<Departure>, d: Departure, a: State, base: nat)
    requires s.waves.current < |stage| && Reached(s, ds, a) && Told(s, ds, a, base)
    ensures Told(s, ds + [d], Depart(stage, a, d), base)
  {
    var all, k := ds + [d], |ds|;
    var notice := NoticeOf(Wall(s.hp, all), d);
    OneDeparture(stage, s, ds, d, a);
    SomeMore(s, ds, d);
    LogMore(a.log, base, notice);
    LogMore(a.log + [notice], base, StageEnd(false));
    LogMore(a.log + [notice], base, WaveEnd);
  }

  lemma {:induction false} DeparturesTold(stage: WaveManagers.Stage, s: State, ds: seq<Departure>)
    requires s.updating && s.phase == Wave && s.waves.current < |stage|
    ensures Told(s, ds, DepartAll(stage, s, ds), |s.log|)
    decreases |ds|
  {
    if ds != [] {
      var n := |ds| - 1;
      DeparturesTold(stage, s, ds[..n]);
      AllReached(stage, s, ds[..n]);
      ToldMore(stage, s, ds[..n], ds[n], DepartAll(stage, s, ds[..n]), |s.log|);
      assert ds[..n] + [ds[n]] == ds;
    }
  }

  // In the last wave no wave is announced to have ended, and whatever ends it ends the stage.
  lemma {:induction false} LastWaveTold(stage: WaveManagers.Stage, s: State, ds: seq<Departure>)
    requires s.updating && |stage| <= s.waves.current
    ensures var t := DepartAll(stage, s, ds);
            && |s.log| <= |t.log| && (forall b :: |s.log| <= b < |t.log| ==> t.log[b] != WaveEnd)
            && (t.phase == EndStage || t.phase == s.phase)
            && (s.phase == Wave && Loss(t.log, |s.log|) ==> t.phase == EndStage)
    decreases |ds|
  {
    if ds != [] {
      var n := |ds| - 1;
      LastWaveTold(stage, s, ds[..n]);
      AllReached(stage, s, ds[..n]);
      var a := DepartAll(stage, s, ds[..n]);
      OneDeparture(stage, s, ds[..n], ds[n], a);
      LogMore(a.log, |s.log|, NoticeOf(Wall(s.hp, ds), ds[n]));
      assert ds[..n] + [ds[n]] == ds;
    }
  }

  /** A walk announces the end of the wave after it has announced the stage lost exactly if there is a further
      wave, spawning is finished, and in its departures the wall breaks before one, not breaking it, at which
      as many have departed as were live. */
  lemma WalkEndsAfterLossIff(stage: WaveManagers.Stage, s: State, vs: seq<Visit>)
    requires s.updating && s.phase == Wave && Once(vs)
    ensures var ds := DeparturesOf(s.roster, vs);
            EndAfterLoss(VisitedAll(stage, s, vs).log, |s.log|)
            <==> s.waves.current < |stage| && SomePassAfterBreak(s, ds, |ds|)
  {
    var ds := DeparturesOf(s.roster, vs);
    WalkIsDepartures(stage, s, vs);
    if s.waves.current < |stage| { DeparturesTold(stage, s, ds); } else { LastWaveTold(stage, s, ds); }
  }

  // -------- Somebody left --------

  function IdsOf(ds: seq<Departure>): (ids: seq<nat>)
    ensures |ids| == |ds|
  {
    seq(|ds|, i requires 0 <= i < |ds| => ds[i].id)
  }

  // After departure k somebody who was live at the start has not departed.
  ghost predicate SomebodyLeft(s: State, ds: seq<Departure>, k: nat)
    requires k < |ds|
  {
    exists id | id in Live(s.roster) :: id !in IdsOf(ds[..k + 1])
  }

  // Some departure among the first n ends the wave with somebody left; in the last wave, where the end of a
  // stage is announced once, unless the wall broke before.
  ghost predicate SomeEarlyPass(stage: WaveManagers.Stage, s: State, ds: seq<Departure>, n: nat)
    requires n <= |ds|
  {
    exists k :: 0 <= k < n && EarlyPass(stage, s, ds, k)
  }

  predicate IsEnd(n: Notice)
  {
    n == WaveEnd || n == StageEnd(true)
  }

  // Whom the log tells to have departed.
  ghost predicate HasDeparted(log: seq<Notice>, id: nat)
  {
    id in Deaths(log) || id in Arrivals(log)
  }

  // In the log from `base` on, the end of the wave is announced before some live enemy has departed.
  ghost predicate EarlyEnd(log: seq<Notice>, base: nat, live: set<nat>)
  {
    exists b :: base <= b < |log| && IsEnd(log[b]) && !AllDeparted(log[..b], live)
  }

  ghost predicate AllDeparted(log: seq<Notice>, live: set<nat>)
  {
    forall id | id in live :: HasDeparted(log, id)
  }

  lemma EarlyMore(log: seq<Notice>, base: nat, live: set<nat>, n: Notice)
    requires base <= |log|
    ensures EarlyEnd(log + [n], base, live) <==> EarlyEnd(log, base, live) || (IsEnd(n) && !AllDeparted(log, live))
  {
    var all := log + [n];
    assert all[..|log|] == log;
    forall b: nat | b < |log| ensures all[..b] == log[..b] && all[b] == log[b] { }
    assert all[|log|] == n;
    if EarlyEnd(log, base, live) {
      var b :| base <= b < |log| && IsEnd(log[b]) && !AllDeparted(log[..b], live);
      assert IsEnd(all[b]) && !AllDeparted(all[..b], live);
    }
    if IsEnd(n) && !AllDeparted(log, live) {
      assert IsEnd(all[|log|]) && !AllDeparted(all[..|log|], live);
    }
    if EarlyEnd(all, base, live) {
      var b :| base <= b < |all| && IsEnd(all[b]) && !AllDeparted(all[..b], live);
      if b < |log| { assert IsEnd(log[b]) && !AllDeparted(log[..b], live); }
    }
  }

  lemma LeftSooner(s: State, ds: seq<Departure>, j: nat, k: nat)
    requires j <= k < |ds| && SomebodyLeft(s, ds, k)
    ensures SomebodyLeft(s, ds, j)
  {
    var id :| id in Live(s.roster) && id !in IdsOf(ds[..k + 1]);
    InPrefix(ds, j + 1, id);
    InPrefix(ds, k + 1, id);
  }

  lemma InPrefix(ds: seq<Departure>, n: nat, id: nat)
    requires n <= |ds|
    ensures id in IdsOf(ds[..n]) <==> exists i :: 0 <= i < n && ds[i].id == id
  {
    if i :| 0 <= i < n && ds[i].id == id {
      assert IdsOf(ds[..n])[i] == id;
    }
  }

  // What is known of the log after some departures.
  ghost predicate Watched(stage: WaveManagers.Stage, s: State, ds: seq<Departure>, t: State, base: nat)
  {
    && base <= |t.log|
    && (forall id | id in Live(s.roster) :: HasDeparted(t.log, id) <==> id in IdsOf(ds))
    && (EarlyEnd(t.log, base, Live(s.roster)) <==> SomeEarlyPass(stage, s, ds, |ds|))
    && (|stage| <= s.waves.current ==>
          (t.phase == EndStage <==> SomeBreak(s, ds, |ds|) || SomePass(s, ds, |ds|)))
  }

  ghost predicate SomePass(s: State, ds: seq<Departure>, n: nat)
    requires n <= |ds|
  {
    exists i :: 0 <= i < n && Passes(s, ds, i)
  }

  lemma DepartedMore(log: seq<Notice>, hp: int, d: Departure, id: nat)
    ensures HasDeparted(log + [NoticeOf(hp, d)], id) <==> HasDeparted(log, id) || id == d.id
  {
    DeparturesLogged(log, NoticeOf(hp, d));
  }

  lemma IdsMore(ds: seq<Departure>, d: Departure)
    ensures IdsOf(ds + [d]) == IdsOf(ds) + [d.id]
  {
  }

  lemma PrefixLeft(s: State, ds: seq<Departure>, d: Departure, k: nat)
    requires k < |ds|
    ensures SomebodyLeft(s, ds + [d], k) <==> SomebodyLeft(s, ds, k)
  {
    assert (ds + [d])[..k + 1] == ds[..k + 1];
  }

  // Departure k ends the wave early.
  ghost predicate EarlyPass(stage: WaveManagers.Stage, s: State, ds: seq<Departure>, k: nat)
    requires k < |ds|
  {
    Passes(s, ds, k) && SomebodyLeft(s, ds, k) && (|stage| <= s.waves.current ==> !SomeBreak(s, ds, k))
  }

  lemma PrefixEarly(stage: WaveManagers.Stage, s: State, ds: seq<Departure>, d: Departure, k: nat)
    requires k < |ds|
    ensures EarlyPass(stage, s, ds + [d], k) <==> EarlyPass(stage, s, ds, k)
    ensures Passes(s, ds + [d], k) <==> Passes(s, ds, k)
  {
    PrefixBreaks(s, ds, d, k);
    PrefixLeft(s, ds, d, k);
    SomeBreakPrefix(s, ds, d, k);
  }

  lemma SomeBreakPrefix(s: State, ds: seq<Departure>, d: Departure, k: nat)
    requires k <= |ds|
    ensures SomeBreak(s, ds + [d], k) <==> SomeBreak(s, ds, k)
  {
    forall i: nat | i < k ensures Breaks(s, ds + [d], i) == Breaks(s, ds, i) {
      PrefixBreaks(s, ds, d, i);
    }
  }

  lemma SomeEarlyMore(stage: WaveManagers.Stage, s: State, ds: seq<Departure>, d: Departure)
    ensures var all, n := ds + [d], |ds|;
            && (SomeEarlyPass(stage, s, all, n + 1) <==> SomeEarlyPass(stage, s, ds, n) || EarlyPass(stage, s, all, n))
            && (SomePass(s, all, n + 1) <==> SomePass(s, ds, n) || Passes(s, all, n))
            && (SomeBreak(s, all, n) <==> SomeBreak(s, ds, n))
  {
    var all, n := ds + [d], |ds|;
    SomeBreakPrefix(s, ds, d, n);
    forall k: nat | k < n
      ensures EarlyPass(stage, s, all, k) <==> EarlyPass(stage, s, ds, k)
      ensures Passes(s, all, k) <==> Passes(s, ds, k)
    {
      PrefixEarly(stage, s, ds, d, k);
    }
  }

  // In the last wave a later check that finds somebody left adds nothing: an earlier one found them too.
  lemma EarlierPass(stage: WaveManagers.Stage, s: State, ds: seq<Departure>, d: Departure)
    requires SomePass(s, ds, |ds|) && !SomeBreak(s, ds, |ds|) && SomebodyLeft(s, ds + [d], |ds|)
    ensures SomeEarlyPass(stage, s, ds, |ds|)
  {
    var i :| 0 <= i < |ds| && Passes(s, ds, i);
    LeftSooner(s, ds + [d], i, |ds|);
    PrefixLeft(s, ds, d, i);
    assert EarlyPass(stage, s, ds, i);
  }

  // What is announced at one more departure.
  ghost predicate Announced(stage: WaveManagers.Stage, s: State, all: seq<Departure>, before: GameState, noted: seq<Notice>,
                            log: seq<Notice>)
    requires all != []
  {
    var k := |all| - 1;
    if Breaks(s, all, k) then log == if before == EndStage then noted else noted + [StageEnd(false)]
    else if !Passes(s, all, k) then log == noted
    else if s.waves.current < |stage| then log == noted + [WaveEnd]
    else log == if before == EndStage then noted else noted + [StageEnd(true)]
  }

  lemma WatchedMore(stage: WaveManagers.Stage, s: State, ds: seq<Departure>, d: Departure, a: State, base: nat)
    requires Reached(s, ds, a) && Watched(stage, s, ds, a, base)
    ensures Watched(stage, s, ds + [d], Depart(stage, a, d), base)
  {
    var all, k := ds + [d], |ds|;
    var noted := a.log + [NoticeOf(Wall(s.hp, all), d)];
    OneDeparture(stage, s, ds, d, a);
    SomeMore(s, ds, d);
    SomeEarlyMore(stage, s, ds, d);
    EarlyMore(a.log, base, Live(s.roster), NoticeOf(Wall(s.hp, all), d));
    NotedDeparts(s, ds, d, a.log, Wall(s.hp, all));
    EarlyAnnounced(stage, s, ds, d, a.phase, noted, Depart(stage, a, d).log, base);
  }

  lemma EarlyAnnounced(stage: WaveManagers.Stage, s: State, ds: seq<Departure>, d: Departure, before: GameState,
                       noted: seq<Notice>, log: seq<Notice>, base: nat)
    requires base <= |noted| && Announced(stage, s, ds + [d], before, noted, log)
    requires |stage| <= s.waves.current ==> (before == EndStage <==> SomeBreak(s, ds, |ds|) || SomePass(s, ds, |ds|))
    requires SomebodyLeft(s, ds + [d], |ds|) <==> !AllDeparted(noted, Live(s.roster))
    requires EarlyEnd(noted, base, Live(s.roster)) <==> SomeEarlyPass(stage, s, ds, |ds|)
    ensures EarlyEnd(log, base, Live(s.roster)) <==> SomeEarlyPass(stage, s, ds, |ds|) || EarlyPass(stage, s, ds + [d], |ds|)
    ensures forall id :: HasDeparted(log, id) <==> HasDeparted(noted, id)
  {
    var all, live, k := ds + [d], Live(s.roster), |ds|;
    SomeBreakPrefix(s, ds, d, k);
    EndNoted(noted, base, live, WaveEnd);
    EndNoted(noted, base, live, StageEnd(true));
    EndNoted(noted, base, live, StageEnd(false));
    if |stage| <= s.waves.current && SomePass(s, ds, k) && !SomeBreak(s, ds, k) && SomebodyLeft(s, all, k) {
      EarlierPass(stage, s, ds, d);
    }
  }

  lemma NotedDeparts(s: State, ds: seq<Departure>, d: Departure, log: seq<Notice>, hp: int)
    requires forall id | id in Live(s.roster) :: HasDeparted(log, id) <==> id in IdsOf(ds)
    ensures var noted := log + [NoticeOf(hp, d)];
            && (forall id | id in Live(s.roster) :: HasDeparted(noted, id) <==> id in IdsOf(ds + [d]))
            && (SomebodyLeft(s, ds + [d], |ds|) <==> !AllDeparted(noted, Live(s.roster)))
  {
    IdsMore(ds, d);
    assert (ds + [d])[..|ds| + 1] == ds + [d];
    forall id | id in Live(s.roster)
      ensures HasDeparted(log + [NoticeOf(hp, d)], id) <==> id in IdsOf(ds + [d])
    {
      DepartedMore(log, hp, d, id);
    }
  }

  lemma EndNoted(log: seq<Notice>, base: nat, live: set<nat>, n: Notice)
    requires base <= |log| && !n.Rewarded? && !n.Arrived?
    ensures EarlyEnd(log + [n], base, live) <==> EarlyEnd(log, base, live) || (IsEnd(n) && !AllDeparted(log, live))
    ensures forall id :: HasDeparted(log + [n], id) <==> HasDeparted(log, id)
  {
    EarlyMore(log, base, live, n);
    DeparturesLogged(log, n);
  }

  lemma {:induction false} DeparturesWatched(stage: WaveManagers.Stage, s: State, ds: seq<Departure>)
    requires s.updating && s.phase == Wave && Known(s.roster, Deaths(s.log), Arrivals(s.log))
    ensures Watched(stage, s, ds, DepartAll(stage, s, ds), |s.log|)
    decreases |ds|
  {
    if ds != [] {
      var n := |ds| - 1;
      DeparturesWatched(stage, s, ds[..n]);
      AllReached(stage, s, ds[..n]);
      WatchedMore(stage, s, ds[..n], ds[n], DepartAll(stage, s, ds[..n]), |s.log|);
      assert ds[..n] + [ds[n]] == ds;
    }
  }

  /** A walk announces the end of the wave while somebody who was live has not departed exactly if spawning is
      finished and, at one of its departures not breaking the wall, as many have departed as were live but not
      all of them: somebody has departed twice. In the last wave the wall must not have broken before. */
  lemma WalkEndsEarlyIff(stage: WaveManagers.Stage, s: State, vs: seq<Visit>)
    requires s.updating && s.phase == Wave && Once(vs) && Sound(s)
    ensures var ds := DeparturesOf(s.roster, vs);
            && Counting(s) == |Live(s.roster)|
            && (EarlyEnd(VisitedAll(stage, s, vs).log, |s.log|, Live(s.roster)) <==> SomeEarlyPass(stage, s, ds, |ds|))
  {
    WalkIsDepartures(stage, s, vs);
    DeparturesWatched(stage, s, DeparturesOf(s.roster, vs));
    AliveCountExactIff(s.roster);
    ElementCount(s.roster.removing);
  }

  // -------- Without a double departure --------

  lemma NoRepeatsJoin(a: seq<nat>, b: seq<nat>)
    requires NoRepeats(a) && NoRepeats(b) && forall id | id in a :: id !in b
    ensures NoRepeats(a + b)
  {
    var all := a + b;
    forall i, j | 0 <= i < j < |all| ensures all[i] != all[j] {
      assert i < |a| ==> all[i] in a;
      assert j >= |a| ==> all[j] in b;
    }
  }

  lemma IdsJoin(a: seq<Departure>, b: seq<Departure>)
    ensures IdsOf(a + b) == IdsOf(a) + IdsOf(b)
  {
  }

  lemma DepartsOnce(s: State, v: Visit)
    requires Sound(s) && !FiresBoth(v)
    ensures var ids := IdsOf(DeparturesBy(s.roster, v)); ids == [] || (ids == [v.id] && v.id in Live(s.roster))
  {
  }

  // In such a walk live enemies depart, each once.
  lemma {:induction false} DepartureIds(s: State, vs: seq<Visit>)
    requires Sound(s) && Once(vs) && Single(vs)
    ensures NoRepeats(IdsOf(DeparturesOf(s.roster, vs)))
    ensures forall id | id in IdsOf(DeparturesOf(s.roster, vs)) :: id in Live(s.roster) && exists v :: v in vs && v.id == id
    decreases |vs|
  {
    if vs != [] {
      var first, rest := DeparturesBy(s.roster, vs[0]), DeparturesOf(s.roster, vs[1..]);
      assert vs[0] in vs;
      RestOfVisits(vs);
      DepartureIds(s, vs[1..]);
      DepartsOnce(s, vs[0]);
      IdsJoin(first, rest);
      NoRepeatsJoin(IdsOf(first), IdsOf(rest));
    }
  }

  lemma AllGoneThen(live: set<nat>, ids: seq<nat>)
    requires NoRepeats(ids) && Elements(ids) <= live && |live| <= |ids|
    ensures Elements(ids) == live
  {
    ElementCount(ids);
    assert |live - Elements(ids)| == |live| - |Elements(ids)|;
    assert live - Elements(ids) == {};
  }

  /** So it takes an enemy that departs twice: a walk in which none does never announces an end early. */
  lemma SingleNeverEarly(stage: WaveManagers.Stage, s: State, vs: seq<Visit>)
    requires s.updating && s.phase == Wave && Once(vs) && Sound(s) && Single(vs)
    ensures !EarlyEnd(VisitedAll(stage, s, vs).log, |s.log|, Live(s.roster))
  {
    var ds := DeparturesOf(s.roster, vs);
    WalkEndsEarlyIff(stage, s, vs);
    DepartureIds(s, vs);
    forall k: nat | k < |ds| ensures !EarlyPass(stage, s, ds, k) {
      if Counting(s) <= k + 1 {
        var ids := IdsOf(ds[..k + 1]);
        assert forall i :: 0 <= i < |ids| ==> ids[i] == IdsOf(ds)[i];
        AllGoneThen(Live(s.roster), ids);
      }
    }
  }
}
