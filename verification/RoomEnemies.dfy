/** The enemies of a room over every run: nobody is rewarded for twice, nobody arrives twice, and between
    updates the alive count is exact; somebody departs both ways exactly if one of its updates fires both. */
module RoomEnemies {
  import opened Wire
  import opened EnemyManagers
  import opened RoomStates
  import opened RoomLaws
  import Boards
  import Debuffs
  import Enemies
  import WaveManagers

  // The enemies that died, and those that arrived, in order.
  function Deaths(log: seq<Notice>): seq<nat>
  {
    if log == [] then [] else Deaths(log[..|log| - 1]) + DeathOf(log[|log| - 1])
  }

  function DeathOf(n: Notice): seq<nat>
  {
    if n.Rewarded? then [n.id] else []
  }

  function Arrivals(log: seq<Notice>): seq<nat>
  {
    if log == [] then [] else Arrivals(log[..|log| - 1]) + ArrivalOf(log[|log| - 1])
  }

  function ArrivalOf(n: Notice): seq<nat>
  {
    if n.Arrived? then [n.id] else []
  }

  lemma DeparturesLogged(log: seq<Notice>, n: Notice)
    ensures Deaths(log + [n]) == if n.Rewarded? then Deaths(log) + [n.id] else Deaths(log)
    ensures Arrivals(log + [n]) == if n.Arrived? then Arrivals(log) + [n.id] else Arrivals(log)
  {
    assert (log + [n])[..|log|] == log;
    assert Deaths(log) + [] == Deaths(log) && Arrivals(log) + [] == Arrivals(log);
  }

  // The departures two states have in common.
  ghost predicate SameDepartures(s: State, t: State)
  {
    Deaths(t.log) == Deaths(s.log) && Arrivals(t.log) == Arrivals(s.log)
  }

  /** The departures so far agree with the roster: nobody has died twice or arrived twice, and whoever has
      departed is gone or about to be removed. */
  ghost predicate Known(r: Roster, deaths: seq<nat>, arrivals: seq<nat>)
  {
    && NoRepeats(deaths) && NoRepeats(arrivals)
    && forall id | id in deaths || id in arrivals :: id < r.nextId && id !in Live(r)
  }

  // Every dead enemy is about to be removed.
  ghost predicate Marked(r: Roster)
  {
    Registered(r) && forall id | id in r.enemies && Dead(r.enemies[id]) :: id in r.removing
  }

  // Nobody is to be removed twice, so the alive count is exact.
  ghost predicate Counted(r: Roster)
  {
    Marked(r) && NoRepeats(r.removing)
  }

  /** What holds except within the walk over the enemies: exactly the dead are about to be removed. */
  ghost predicate Sound(s: State)
  {
    && Counted(s.roster) && Known(s.roster, Deaths(s.log), Arrivals(s.log))
    && forall id | id in s.roster.removing :: Dead(s.roster.enemies[id])
  }

  // A walk visits each enemy at most once.
  ghost predicate Once(vs: seq<Visit>)
  {
    forall i, j :: 0 <= i < j < |vs| ==> vs[i].id != vs[j].id
  }

  // Whoever is still to be visited is not about to be removed, or is dead.
  ghost predicate ToVisit(r: Roster, vs: seq<Visit>)
    requires Registered(r)
  {
    forall v | v in vs && v.id in r.removing :: Dead(r.enemies[v.id])
  }

  // Within the walk.
  ghost predicate Walking(s: State, vs: seq<Visit>)
  {
    && s.updating && Marked(s.roster) && Once(vs) && ToVisit(s.roster, vs)
    && Known(s.roster, Deaths(s.log), Arrivals(s.log))
  }

  // -------- One departure --------

  lemma NoRepeatsMore(ids: seq<nat>, id: nat)
    requires NoRepeats(ids) && id !in ids
    ensures NoRepeats(ids + [id])
  {
  }

  lemma LeavingLive(r: Roster, id: nat)
    ensures Live(Leaving(r, id)) == Live(r) - {id}
  {
    assert Elements(r.removing + [id]) == Elements(r.removing) + {id};
  }

  lemma LeavingMarked(r: Roster, id: nat)
    requires Marked(r) && id in r.enemies
    ensures Marked(Leaving(r, id)) && Live(Leaving(r, id)) == Live(r) - {id}
  {
    LeavingLive(r, id);
  }

  lemma FallenMarked(r: Roster, id: nat, body: Enemies.Body)
    requires Marked(r) && id in r.enemies
    ensures Marked(Fallen(r, id, body)) && Live(Fallen(r, id, body)) == Live(r) - {id}
    ensures forall other | other in r.enemies && other != id :: Fallen(r, id, body).enemies[other] == r.enemies[other]
  {
    LeavingLive(Embodied(r, id, body), id);
    assert Embodied(r, id, body).enemies.Keys == r.enemies.Keys;
  }

  lemma EmbodiedMarked(r: Roster, id: nat, body: Enemies.Body)
    requires Marked(r) && id in r.enemies && (body.health.dead ==> Dead(r.enemies[id]))
    ensures Marked(Embodied(r, id, body)) && Live(Embodied(r, id, body)) == Live(r)
    ensures Embodied(r, id, body).enemies.Keys == r.enemies.Keys
  {
  }

  lemma EndKeepsRoster(s: State, success: bool)
    requires s.updating
    ensures var t := StageEnded(s, success); t.updating && t.roster == s.roster && SameDepartures(s, t)
  {
    DeparturesLogged(s.log, StageEnd(success));
  }

  lemma CheckKeepsRoster(stage: WaveManagers.Stage, s: State)
    requires s.updating
    ensures var t := WaveChecked(stage, s); t.updating && t.roster == s.roster && SameDepartures(s, t)
  {
    EndKeepsRoster(s, true);
    DeparturesLogged(s.log, WaveEnd);
  }

  lemma ArriveDeparts(stage: WaveManagers.Stage, s: State, id: nat, power: int)
    requires s.updating
    ensures var t := Arrive(stage, s, id, power);
            && t.updating && t.roster == Leaving(s.roster, id)
            && Deaths(t.log) == Deaths(s.log) && Arrivals(t.log) == Arrivals(s.log) + [id]
  {
    var a := WallHit(s, id, power);
    DeparturesLogged(s.log, Arrived(id, s.hp - power));
    if a.hp <= 0 { EndKeepsRoster(a, false); } else { CheckKeepsRoster(stage, a); }
  }

  lemma DieDeparts(stage: WaveManagers.Stage, s: State, id: nat, body: Enemies.Body)
    requires s.updating && id in s.roster.enemies
    ensures var t := Die(stage, s, id, body);
            && t.updating && t.roster == Fallen(s.roster, id, body)
            && Deaths(t.log) == Deaths(s.log) + [id] && Arrivals(t.log) == Arrivals(s.log)
  {
    DeparturesLogged(s.log, Rewarded(id, s.roster.enemies[id].reward));
    CheckKeepsRoster(stage, Paid(s, id, body));
  }

  // -------- One visit --------

  // What the visit of a live enemy does to the roster, and who departs.
  function RosterAfter(r: Roster, v: Visit): Roster
    requires v.id in r.enemies
  {
    var t := if v.after.health.dead then Fallen(r, v.id, v.after) else Embodied(r, v.id, v.after);
    if v.arrived then Leaving(t, v.id) else t
  }

  function DeathBy(v: Visit): seq<nat>
  {
    if v.after.health.dead then [v.id] else []
  }

  function ArrivalBy(v: Visit): seq<nat>
  {
    if v.arrived then [v.id] else []
  }

  lemma VisitEffects(stage: WaveManagers.Stage, s: State, v: Visit)
    requires s.updating && v.id in s.roster.enemies && !Dead(s.roster.enemies[v.id])
    ensures var t := Visited(stage, s, v);
            && t.updating && t.roster == RosterAfter(s.roster, v)
            && Deaths(t.log) == Deaths(s.log) + DeathBy(v) && Arrivals(t.log) == Arrivals(s.log) + ArrivalBy(v)
  {
    var power := s.roster.enemies[v.id].power;
    DieDeparts(stage, s, v.id, v.after);
    var t := if v.after.health.dead then Die(stage, s, v.id, v.after) else Changed(s, v.id, v.after);
    ArriveDeparts(stage, t, v.id, power);
    assert Deaths(s.log) + [] == Deaths(s.log) && Arrivals(s.log) + [] == Arrivals(s.log);
  }

  lemma VisitMarks(r: Roster, v: Visit)
    requires Marked(r) && v.id in Live(r)
    ensures Marked(RosterAfter(r, v)) && RosterAfter(r, v).nextId == r.nextId
    ensures Live(RosterAfter(r, v)) == if v.after.health.dead || v.arrived then Live(r) - {v.id} else Live(r)
    ensures RosterAfter(r, v).enemies.Keys == r.enemies.Keys
    ensures forall id | id in r.enemies && id != v.id :: RosterAfter(r, v).enemies[id] == r.enemies[id]
    ensures forall id | id in RosterAfter(r, v).removing :: id in r.removing || id == v.id
  {
    FallenMarked(r, v.id, v.after);
    if !v.after.health.dead { EmbodiedMarked(r, v.id, v.after); }
    var t := if v.after.health.dead then Fallen(r, v.id, v.after) else Embodied(r, v.id, v.after);
    LeavingMarked(t, v.id);
  }

  lemma KnownMore(r: Roster, r': Roster, deaths: seq<nat>, arrivals: seq<nat>, id: nat, death: seq<nat>, arrival: seq<nat>)
    requires Known(r, deaths, arrivals) && id in Live(r) && id < r.nextId
    requires death in {[], [id]} && arrival in {[], [id]} && r'.nextId == r.nextId
    requires Live(r') == if death == [] && arrival == [] then Live(r) else Live(r) - {id}
    ensures Known(r', deaths + death, arrivals + arrival)
  {
    assert deaths + [] == deaths && arrivals + [] == arrivals;
    NoRepeatsMore(deaths, id);
    NoRepeatsMore(arrivals, id);
  }

  lemma RestOfVisits(vs: seq<Visit>)
    requires Once(vs) && vs != []
    ensures Once(vs[1..])
    ensures forall v | v in vs[1..] :: v in vs && v.id != vs[0].id
  {
  }

  lemma VisitKeepsWalking(stage: WaveManagers.Stage, s: State, vs: seq<Visit>)
    requires Walking(s, vs) && vs != []
    ensures Walking(Visited(stage, s, vs[0]), vs[1..])
  {
    var v := vs[0];
    RestOfVisits(vs);
    if v.id in s.roster.enemies && !Dead(s.roster.enemies[v.id]) {
      assert v in vs && v.id in Live(s.roster);
      VisitEffects(stage, s, v);
      VisitMarks(s.roster, v);
      KnownMore(s.roster, RosterAfter(s.roster, v), Deaths(s.log), Arrivals(s.log), v.id, DeathBy(v), ArrivalBy(v));
    }
  }

  lemma {:induction false} VisitsKeepMarked(stage: WaveManagers.Stage, s: State, vs: seq<Visit>)
    requires Walking(s, vs)
    ensures Walking(VisitedAll(stage, s, vs), [])
    decreases |vs|
  {
    if vs != [] {
      VisitKeepsWalking(stage, s, vs);
      VisitsKeepMarked(stage, Visited(stage, s, vs[0]), vs[1..]);
    }
  }

  /** The removal at the end of the walk makes the count exact again, whatever the walk was. */
  lemma RemovalIsSound(s: State)
    requires Walking(s, [])
    ensures Sound(Removed(s)) && Removed(s).updating
  {
    PurgeKeepsLive(s.roster);
  }

  // -------- Hits --------

  lemma ChangeKeepsSound(s: State, id: nat, body: Enemies.Body)
    requires Sound(s) && id in s.roster.enemies && body.health.dead == Dead(s.roster.enemies[id])
    ensures Sound(Changed(s, id, body))
  {
    EmbodiedMarked(s.roster, id, body);
  }

  lemma DieKeepsSound(stage: WaveManagers.Stage, s: State, id: nat, body: Enemies.Body)
    requires Sound(s) && s.updating && id in s.roster.enemies && !Dead(s.roster.enemies[id]) && body.health.dead
    ensures var t := Die(stage, s, id, body); Sound(t) && t.updating
  {
    assert id in Live(s.roster);
    DieDeparts(stage, s, id, body);
    FallenMarked(s.roster, id, body);
    NoRepeatsMore(s.roster.removing, id);
    NoRepeatsMore(Deaths(s.log), id);
  }

  lemma DamageKeepsSound(stage: WaveManagers.Stage, s: State, id: nat, amount: int)
    requires Sound(s) && s.updating && id in s.roster.enemies
    ensures var t := Damaged(stage, s, id, amount); Sound(t) && t.updating
  {
    var body := s.roster.enemies[id].body;
    var hurt := body.(health := Debuffs.TakeDamage(body.health, amount));
    if !body.health.dead {
      if hurt.health.dead { DieKeepsSound(stage, s, id, hurt); } else { ChangeKeepsSound(s, id, hurt); }
    }
  }

  lemma StrikeKeepsSound(stage: WaveManagers.Stage, s: State, h: Hit)
    requires Sound(s) && s.updating
    ensures var t := Struck(stage, s, h); Sound(t) && t.updating
  {
    match h
    case Attack(event) => DeparturesLogged(s.log, Pushed(event));
    case Damage(id, amount) => if id in s.roster.enemies { DamageKeepsSound(stage, s, id, amount); }
    case Afflict(id, debuff) =>
      if id in s.roster.enemies { ChangeKeepsSound(s, id, Enemies.Afflicted(s.roster.enemies[id].body, debuff)); }
    case KillBonus(gold) => DeparturesLogged(s.log, Bonus(gold));
    case _ =>
  }

  lemma {:induction false} StrikesKeepSound(stage: WaveManagers.Stage, s: State, hs: seq<Hit>)
    requires Sound(s) && s.updating
    ensures var t := StruckAll(stage, s, hs); Sound(t) && t.updating
    decreases |hs|
  {
    if hs != [] {
      StrikeKeepsSound(stage, s, hs[0]);
      StrikesKeepSound(stage, Struck(stage, s, hs[0]), hs[1..]);
    }
  }

  // -------- One update --------

  lemma SpawnKeepsSound(stage: WaveManagers.Stage, s: State, dt: real, turn: Turn)
    requires Sound(s) && WaveManagers.InRange(stage, s.waves)
    ensures Sound(WaveSpawned(stage, s, dt, turn))
  {
    assert s.roster.nextId !in s.roster.removing;
  }

  lemma SoundWalks(s: State, sqrt: real -> real, order: seq<nat>, dt: real)
    requires Sound(s) && s.updating && NoRepeats(order)
    ensures Walking(s, Visits(sqrt, s.roster, order, dt))
  {
    var vs := Visits(sqrt, s.roster, order, dt);
    assert forall i :: 0 <= i < |vs| ==> vs[i].id == order[i];
  }

  lemma WalkKeepsSound(w: World, s: State, dt: real, order: seq<nat>)
    requires Sound(s) && s.updating && NoRepeats(order)
    ensures var t := Removed(Walked(w, s, dt, order)); Sound(t) && t.updating
  {
    SoundWalks(s, w.sqrt, order, dt);
    VisitsKeepMarked(w.stage, s, Visits(w.sqrt, s.roster, order, dt));
    RemovalIsSound(Walked(w, s, dt, order));
  }

  lemma WavePartKeepsSound(w: World, s: State, dt: real, turn: Turn)
    requires Sound(s) && s.updating && WaveManagers.InRange(w.stage, s.waves) && NoRepeats(turn.order)
    ensures var t := WavePart(w, s, dt, turn); Sound(t) && t.updating
  {
    var spawned := WaveSpawned(w.stage, s, dt, turn);
    SpawnKeepsSound(w.stage, s, dt, turn);
    WalkKeepsSound(w, spawned, dt, turn.order);
    StrikesKeepSound(w.stage, Removed(Walked(w, spawned, dt, turn.order)), turn.minionHits);
  }

  // Soundness is about the roster and the departures.
  lemma SoundAlike(s: State, t: State)
    requires Sound(s) && t.roster == s.roster && SameDepartures(s, t)
    ensures Sound(t)
  {
  }

  lemma SyncKeepsSound(s: State)
    requires Sound(s)
    ensures Sound(Synced(s)) && Synced(s).updating == s.updating && SameDepartures(s, Synced(s))
  {
    SyncSameDepartures(s);
    SoundAlike(s, Synced(s));
  }

  lemma SyncSameDepartures(s: State)
    ensures SameDepartures(s, Synced(s)) && Synced(s).roster == s.roster && Synced(s).updating == s.updating
  {
    DeparturesLogged(s.log, Batch(s.attacks));
  }

  lemma FightingKeepsSound(w: World, s: State, dt: real, turn: Turn)
    requires Sound(s) && s.updating && WaveManagers.InRange(w.stage, s.waves) && NoRepeats(turn.order)
    ensures Sound(Fought(w, s, dt, turn))
  {
    if s.phase == Wave { WavePartKeepsSound(w, s, dt, turn); }
    var b := if s.phase == Wave then WavePart(w, s, dt, turn) else s;
    SyncKeepsSound(b);
    StrikesKeepSound(w.stage, Synced(b), turn.projectileHits);
  }

  lemma SettledKeepsSound(s: State)
    requires Sound(s)
    ensures Sound(Settled(s)) && SameDepartures(s, Settled(s))
  {
    ResetKeepsSound(s);
    SoundAlike(if s.pending then ResetStage(s) else s, Settled(s));
  }

  lemma ResetKeepsSound(s: State)
    requires Sound(s)
    ensures Sound(ResetStage(s)) && SameDepartures(s, ResetStage(s))
  {
    DeparturesLogged(s.log, Dropped(s.attacks));
  }

  lemma LeaveKeepsSound(s: State, p: nat)
    requires Sound(s)
    ensures Sound(Left(s, p)) && SameDepartures(s, Left(s, p))
  {
    ResetKeepsSound(s.(players := s.players - {p}, ready := s.ready - {p}));
  }

  lemma UpdateKeepsSound(w: World, s: State, dt: real, turn: Turn)
    requires Sound(s) && WaveManagers.InRange(w.stage, s.waves) && NoRepeats(turn.order)
    ensures Sound(Ticked(w, s, dt, turn))
  {
    SoundAlike(s, Begun(s, dt));
    FightingKeepsSound(w, Begun(s, dt), dt, turn);
    SettledKeepsSound(Fought(w, Begun(s, dt), dt, turn));
  }

  // -------- Runs --------

  // A map is walked without repeats, in whatever order.
  ghost predicate WalksOnce(op: Op)
  {
    op.Update? ==> NoRepeats(op.turn.order)
  }

  lemma StepKeepsSound(w: World, s: State, op: Op)
    requires Resting(w, s) && Sound(s) && WalksOnce(op)
    ensures Sound(Do(w, s, op))
  {
    match op
    case Leave(p) => LeaveKeepsSound(s, p);
    case Update(commands, dt, turn) => UpdateKeepsSound(w, s.(board := UpgradedAll(s.board, commands)), dt, turn);
    case _ =>
  }

  lemma {:induction false} RunKeepsSound(w: World, s: State, ops: seq<Op>)
    requires Resting(w, s) && Sound(s)
    requires forall op | op in ops :: WalksOnce(op)
    ensures Sound(DoAll(w, s, ops))
    decreases |ops|
  {
    if ops != [] {
      StepRests(w, s, ops[0]);
      StepKeepsSound(w, s, ops[0]);
      RunKeepsSound(w, Do(w, s, ops[0]), ops[1..]);
    }
  }

  lemma NewRoomSound()
    ensures Sound(NewRoom)
  {
  }

  /** Over every run of a room, every enemy is rewarded for at most once and arrives at most once, and
      between updates the alive count is the number of live enemies. */
  lemma EveryEnemyDepartsOnce(w: World, ops: seq<Op>)
    requires forall op | op in ops :: WalksOnce(op)
    ensures var t := Run(w, ops);
            && NoRepeats(Deaths(t.log)) && NoRepeats(Arrivals(t.log))
            && AliveCount(t.roster) == |Live(t.roster)|
  {
    NewRoomRests(w);
    NewRoomSound();
    RunKeepsSound(w, NewRoom, ops);
    AliveCountExactIff(Run(w, ops).roster);
  }

  // -------- Departing both ways --------

  // Who has both died and arrived.
  ghost function Twice(s: State): set<nat>
  {
    Elements(Deaths(s.log)) * Elements(Arrivals(s.log))
  }

  predicate FiresBoth(v: Visit)
  {
    v.after.health.dead && v.arrived
  }

  // No enemy update fires both callbacks.
  ghost predicate Single(vs: seq<Visit>)
  {
    forall v | v in vs :: !FiresBoth(v)
  }

  // Whoever a visit has arrive was alive and in play.
  ghost predicate Honest(r: Roster, vs: seq<Visit>)
  {
    forall v | v in vs && v.arrived :: v.id in r.enemies && !Dead(r.enemies[v.id])
  }

  lemma VisitsHonest(sqrt: real -> real, r: Roster, order: seq<nat>, dt: real)
    ensures Honest(r, Visits(sqrt, r, order, dt))
  {
    var vs := Visits(sqrt, r, order, dt);
    forall v | v in vs && v.arrived ensures v.id in r.enemies && !Dead(r.enemies[v.id]) {
      var i :| 0 <= i < |vs| && vs[i] == v;
      assert v == VisitOf(sqrt, r, order[i], dt);
    }
  }

  lemma ElementsSum(a: seq<nat>, b: seq<nat>)
    ensures Elements(a + b) == Elements(a) + Elements(b)
  {
  }

  lemma VisitTwice(stage: WaveManagers.Stage, s: State, vs: seq<Visit>)
    requires Walking(s, vs) && vs != [] && Honest(s.roster, vs)
    ensures Twice(Visited(stage, s, vs[0])) == Twice(s) + if FiresBoth(vs[0]) then {vs[0].id} else {}
    ensures Honest(Visited(stage, s, vs[0]).roster, vs[1..])
  {
    var v := vs[0];
    RestOfVisits(vs);
    assert v in vs;
    if v.id in s.roster.enemies && !Dead(s.roster.enemies[v.id]) {
      assert v.id in Live(s.roster);
      VisitEffects(stage, s, v);
      VisitMarks(s.roster, v);
      TwiceMore(Deaths(s.log), Arrivals(s.log), v);
    }
  }

  lemma TwiceMore(deaths: seq<nat>, arrivals: seq<nat>, v: Visit)
    requires v.id !in deaths && v.id !in arrivals
    ensures Elements(deaths + DeathBy(v)) * Elements(arrivals + ArrivalBy(v))
         == Elements(deaths) * Elements(arrivals) + if FiresBoth(v) then {v.id} else {}
  {
    ElementsSum(deaths, DeathBy(v));
    ElementsSum(arrivals, ArrivalBy(v));
  }

  lemma {:induction false} WalkTwice(stage: WaveManagers.Stage, s: State, vs: seq<Visit>)
    requires Walking(s, vs) && Honest(s.roster, vs)
    ensures Twice(s) <= Twice(VisitedAll(stage, s, vs))
    ensures Single(vs) <==> Twice(VisitedAll(stage, s, vs)) == Twice(s)
    decreases |vs|
  {
    if vs != [] {
      var next := Visited(stage, s, vs[0]);
      VisitTwice(stage, s, vs);
      VisitKeepsWalking(stage, s, vs);
      WalkTwice(stage, next, vs[1..]);
      if FiresBoth(vs[0]) { NotTwiceYet(s, vs[0].id); }
    }
  }

  lemma NotTwiceYet(s: State, id: nat)
    requires Known(s.roster, Deaths(s.log), Arrivals(s.log)) && id in Live(s.roster)
    ensures id !in Twice(s)
  {
  }

  lemma DieTwice(stage: WaveManagers.Stage, s: State, id: nat, body: Enemies.Body)
    requires Sound(s) && s.updating && id in Live(s.roster)
    ensures Twice(Die(stage, s, id, body)) == Twice(s)
  {
    DieDeparts(stage, s, id, body);
    ElementsSum(Deaths(s.log), [id]);
  }

  lemma DamageTwice(stage: WaveManagers.Stage, s: State, id: nat, amount: int)
    requires Sound(s) && s.updating && id in s.roster.enemies
    ensures Twice(Damaged(stage, s, id, amount)) == Twice(s)
  {
    var body := s.roster.enemies[id].body;
    if !body.health.dead {
      assert id in Live(s.roster);
      DieTwice(stage, s, id, body.(health := Debuffs.TakeDamage(body.health, amount)));
    }
  }

  lemma StrikeTwice(stage: WaveManagers.Stage, s: State, h: Hit)
    requires Sound(s) && s.updating
    ensures Twice(Struck(stage, s, h)) == Twice(s)
  {
    match h
    case Attack(event) => DeparturesLogged(s.log, Pushed(event));
    case Damage(id, amount) => if id in s.roster.enemies { DamageTwice(stage, s, id, amount); }
    case KillBonus(gold) => DeparturesLogged(s.log, Bonus(gold));
    case _ => StrikeKeepsLog(stage, s, h);
  }

  lemma StrikeKeepsLog(stage: WaveManagers.Stage, s: State, h: Hit)
    requires h.Afflict? || h.Launch? || h.Return?
    ensures Struck(stage, s, h).log == s.log
  {
  }

  lemma {:induction false} StrikesTwice(stage: WaveManagers.Stage, s: State, hs: seq<Hit>)
    requires Sound(s) && s.updating
    ensures Twice(StruckAll(stage, s, hs)) == Twice(s)
    decreases |hs|
  {
    if hs != [] {
      StrikeTwice(stage, s, hs[0]);
      StrikeKeepsSound(stage, s, hs[0]);
      StrikesTwice(stage, Struck(stage, s, hs[0]), hs[1..]);
    }
  }

  // Within an update no enemy fires both callbacks: Enemies.BothCallbacksIff says when one does.
  ghost predicate PlainTick(w: World, s: State, dt: real, turn: Turn)
    requires WaveManagers.InRange(w.stage, s.waves)
  {
    s.phase == Wave ==> Single(Visits(w.sqrt, WaveSpawned(w.stage, s, dt, turn).roster, turn.order, dt))
  }

  lemma WalkedTwice(w: World, s: State, dt: real, order: seq<nat>)
    requires Sound(s) && s.updating && NoRepeats(order)
    ensures Twice(s) <= Twice(Removed(Walked(w, s, dt, order)))
    ensures Single(Visits(w.sqrt, s.roster, order, dt)) <==> Twice(Removed(Walked(w, s, dt, order))) == Twice(s)
  {
    SoundWalks(s, w.sqrt, order, dt);
    VisitsHonest(w.sqrt, s.roster, order, dt);
    WalkTwice(w.stage, s, Visits(w.sqrt, s.roster, order, dt));
  }

  lemma WavePartTwice(w: World, s: State, dt: real, turn: Turn)
    requires Sound(s) && s.updating && WaveManagers.InRange(w.stage, s.waves) && NoRepeats(turn.order)
    ensures Twice(s) <= Twice(WavePart(w, s, dt, turn))
    ensures Single(Visits(w.sqrt, WaveSpawned(w.stage, s, dt, turn).roster, turn.order, dt))
       <==> Twice(WavePart(w, s, dt, turn)) == Twice(s)
  {
    var spawned := WaveSpawned(w.stage, s, dt, turn);
    SpawnKeepsSound(w.stage, s, dt, turn);
    WalkedTwice(w, spawned, dt, turn.order);
    WalkKeepsSound(w, spawned, dt, turn.order);
    StrikesTwice(w.stage, Removed(Walked(w, spawned, dt, turn.order)), turn.minionHits);
  }

  lemma FightingTwice(w: World, s: State, dt: real, turn: Turn)
    requires Sound(s) && s.updating && WaveManagers.InRange(w.stage, s.waves) && NoRepeats(turn.order)
    ensures Twice(s) <= Twice(Fought(w, s, dt, turn))
    ensures PlainTick(w, s, dt, turn) <==> Twice(Fought(w, s, dt, turn)) == Twice(s)
  {
    if s.phase == Wave {
      WavePartTwice(w, s, dt, turn);
      WavePartKeepsSound(w, s, dt, turn);
    }
    var b := if s.phase == Wave then WavePart(w, s, dt, turn) else s;
    SyncKeepsSound(b);
    StrikesTwice(w.stage, Synced(b), turn.projectileHits);
  }

  lemma UpdateTwice(w: World, s: State, dt: real, turn: Turn)
    requires Sound(s) && WaveManagers.InRange(w.stage, s.waves) && NoRepeats(turn.order)
    ensures Twice(s) <= Twice(Ticked(w, s, dt, turn))
    ensures PlainTick(w, s, dt, turn) <==> Twice(Ticked(w, s, dt, turn)) == Twice(s)
  {
    SoundAlike(s, Begun(s, dt));
    PlainBegun(w, s, dt, turn);
    FightingTwice(w, Begun(s, dt), dt, turn);
    FightingKeepsSound(w, Begun(s, dt), dt, turn);
    SettledKeepsSound(Fought(w, Begun(s, dt), dt, turn));
    TickedIs(w, s, dt, turn);
  }

  lemma TickedIs(w: World, s: State, dt: real, turn: Turn)
    requires WaveManagers.InRange(w.stage, s.waves)
    ensures Ticked(w, s, dt, turn) == Settled(Fought(w, Begun(s, dt), dt, turn))
    ensures Twice(Begun(s, dt)) == Twice(s)
  {
  }

  lemma PlainBegun(w: World, s: State, dt: real, turn: Turn)
    requires WaveManagers.InRange(w.stage, s.waves)
    ensures PlainTick(w, Begun(s, dt), dt, turn) <==> PlainTick(w, s, dt, turn)
  {
    assert WaveSpawned(w.stage, Begun(s, dt), dt, turn).roster == WaveSpawned(w.stage, s, dt, turn).roster;
  }

  ghost predicate Plain(w: World, s: State, op: Op)
    requires WaveManagers.InRange(w.stage, s.waves)
  {
    op.Update? ==> PlainTick(w, s, op.dt, op.turn)
  }

  // A run in which no enemy update fires both callbacks.
  ghost predicate PlainRun(w: World, s: State, ops: seq<Op>)
    requires Resting(w, s)
    decreases |ops|
  {
    StepRestsIf(w, s, ops);
    ops == [] || (Plain(w, s, ops[0]) && PlainRun(w, Do(w, s, ops[0]), ops[1..]))
  }

  lemma StepRestsIf(w: World, s: State, ops: seq<Op>)
    requires Resting(w, s)
    ensures ops != [] ==> Resting(w, Do(w, s, ops[0]))
  {
    if ops != [] { StepRests(w, s, ops[0]); }
  }

  lemma StepTwice(w: World, s: State, op: Op)
    requires Resting(w, s) && Sound(s) && WalksOnce(op)
    ensures Twice(s) <= Twice(Do(w, s, op))
    ensures Plain(w, s, op) <==> Twice(Do(w, s, op)) == Twice(s)
  {
    if op.Update? {
      UpdateTwice(w, s.(board := UpgradedAll(s.board, op.commands)), op.dt, op.turn);
      UpgradedPlain(w, s, op);
    } else {
      RequestDepartsNobody(w, s, op);
    }
  }

  lemma UpgradedPlain(w: World, s: State, op: Op)
    requires WaveManagers.InRange(w.stage, s.waves) && op.Update?
    ensures var u := s.(board := UpgradedAll(s.board, op.commands));
            && Twice(u) == Twice(s) && Do(w, s, op) == Ticked(w, u, op.dt, op.turn)
            && (PlainTick(w, u, op.dt, op.turn) <==> Plain(w, s, op))
  {
    var u := s.(board := UpgradedAll(s.board, op.commands));
    assert WaveSpawned(w.stage, u, op.dt, op.turn).roster == WaveSpawned(w.stage, s, op.dt, op.turn).roster;
  }

  lemma RequestKeepsLog(w: World, s: State, op: Op)
    requires WaveManagers.InRange(w.stage, s.waves) && !op.Update? && !op.Leave?
    ensures Do(w, s, op).log == s.log && Do(w, s, op).roster == s.roster
  {
  }

  lemma RequestDepartsNobody(w: World, s: State, op: Op)
    requires Resting(w, s) && Sound(s) && !op.Update?
    ensures SameDepartures(s, Do(w, s, op))
  {
    match op
    case Leave(p) => LeaveKeepsSound(s, p);
    case _ => RequestKeepsLog(w, s, op);
  }

  lemma {:induction false} RunTwice(w: World, s: State, ops: seq<Op>)
    requires Resting(w, s) && Sound(s)
    requires forall op | op in ops :: WalksOnce(op)
    ensures Twice(s) <= Twice(DoAll(w, s, ops))
    ensures PlainRun(w, s, ops) <==> Twice(DoAll(w, s, ops)) == Twice(s)
    decreases |ops|
  {
    if ops != [] {
      StepRests(w, s, ops[0]);
      StepKeepsSound(w, s, ops[0]);
      StepTwice(w, s, ops[0]);
      RunTwice(w, Do(w, s, ops[0]), ops[1..]);
    }
  }

  /** Over every run of a room, an enemy departs both ways exactly if one of its updates fires both callbacks. */
  lemma DepartsTwiceIff(w: World, ops: seq<Op>)
    requires forall op | op in ops :: WalksOnce(op)
    ensures Resting(w, NewRoom)
    ensures PlainRun(w, NewRoom, ops) <==> Twice(Run(w, ops)) == {}
  {
    NewRoomRests(w);
    NewRoomSound();
    RunTwice(w, NewRoom, ops);
  }
}
