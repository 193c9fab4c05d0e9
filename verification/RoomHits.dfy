/** What the hits of an update do to the room, seen from before and after the update. */
module RoomHits {
  import opened Wire
  import opened EnemyManagers
  import opened RoomStates
  import opened RoomLaws
  import opened RoomLedger
  import opened RoomTicks
  import opened RoomEnds
  import Debuffs
  import Enemies
  import WaveManagers

  // The room after an update with these hits of the projectiles.
  function Played(w: World, s: State, commands: seq<Request>, dt: real, turn: Turn, hs: seq<Hit>): State
    requires WaveManagers.InRange(w.stage, s.waves)
  {
    Do(w, s, Update(commands, dt, turn.(projectileHits := hs)))
  }

  // No end of the stage was announced between s and t.
  ghost predicate GoesOn(s: State, t: State)
  {
    StageEnds(t.log) == StageEnds(s.log)
  }

  // The last end announced was one of the stage, not of a wave.
  predicate StageOver(log: seq<Notice>)
  {
    log != [] && (log[|log| - 1].StageEnd? || (!log[|log| - 1].WaveEnd? && StageOver(log[..|log| - 1])))
  }

  // -------- What a hit shows --------

  // An enemy in play, not dead.
  predicate Stands(r: Roster, id: nat)
  {
    id in r.enemies && !r.enemies[id].body.health.dead
  }

  // The enemy with these hit points left, of which it dies if there are none.
  function Hurt(r: Roster, id: nat, hp: int): Roster
    requires id in r.enemies
  {
    var u := r.enemies[id];
    r.(enemies := r.enemies[id := u.(body := u.body.(health := Debuffs.Health(hp, hp <= 0)))])
  }

  // From t to t' the enemy has been killed: its reward is announced, it is queued for removal, and if spawning is
  // finished and nobody is left the wave is over, or with the last wave the stage.
  ghost predicate Killed(stage: WaveManagers.Stage, t: State, id: nat, hp: int, t': State)
    requires id in t.roster.enemies
  {
    var gone := Hurt(t.roster, id, hp).(removing := t.roster.removing + [id]);
    var killed := t.(roster := gone, goldChange := false, log := t.log + [Rewarded(id, t.roster.enemies[id].reward)]);
    if !t.waves.finished || AliveCount(gone) > 0 then t' == killed
    else if t.waves.current < |stage| then t' == killed.(phase := Intermission, log := killed.log + [WaveEnd])
    else Reset(t') && t'.players == t.players && t'.log == killed.log + [StageEnd(true), Dropped(t.attacks)]
  }

  // What one more hit, the last, makes of the room: t without it, t' with it.
  ghost predicate Shows(stage: WaveManagers.Stage, t: State, h: Hit, t': State)
  {
    match h
    case Attack(event) => t' == t.(attacks := t.attacks + [event], log := t.log + [Pushed(event)])
    case Damage(id, n) =>
      if !Stands(t.roster, id) then t' == t
      else
        var left := t.roster.enemies[id].body.health.hp - n;
        if left > 0 then t' == t.(roster := Hurt(t.roster, id, left)) else Killed(stage, t, id, left, t')
    case Afflict(id, debuff) =>
      if id !in t.roster.enemies then t' == t
      else t' == t.(roster := Embodied(t.roster, id, Enemies.Afflicted(t.roster.enemies[id].body, debuff)))
    case KillBonus(gold) => t' == t.(goldChange := true, log := t.log + [Bonus(gold)])
    case Launch => t' == t.(shots := Shots(t.shots.flying + {t.shots.nextId}, t.shots.nextId + 1))
    case Return(shot) => t' == t.(shots := Shots(t.shots.flying - {shot}, t.shots.nextId))
  }

  // A room as it is before its update is settled, and after.
  ghost predicate Calm(t: State)
  {
    t.phase != EndStage && !t.pending && !t.updating
  }

  lemma Settles(s: State)
    requires s.updating
    ensures !s.pending ==> s == Settled(s).(updating := true)
    ensures StageEnds(Settled(s).log) == StageEnds(s.log)
    ensures s.pending ==> Settled(s).shots.flying == {} && Settled(s).log == s.log + [Dropped(s.attacks)]
  {
    StageEndsLogged(s.log, Dropped(s.attacks));
  }

  lemma DeathSettles(stage: WaveManagers.Stage, t: State, id: nat, hp: int, body: Enemies.Body)
    requires Calm(t) && Stands(t.roster, id) && hp <= 0
    requires body == t.roster.enemies[id].body.(health := Debuffs.Health(hp, true))
    ensures Killed(stage, t, id, hp, Settled(Die(stage, t.(updating := true), id, body)))
  {
    var u := t.(updating := true);
    var a := Paid(u, id, body);
    var e := Logged(a.(phase := EndStage), StageEnd(true));
    ResetIsReset(e);
    assert a.roster == Hurt(t.roster, id, hp).(removing := t.roster.removing + [id]);
    assert a.log + [StageEnd(true)] + [Dropped(t.attacks)] == a.log + [StageEnd(true), Dropped(t.attacks)];
  }

  lemma DamageSettles(stage: WaveManagers.Stage, t: State, id: nat, n: int)
    requires Calm(t) && id in t.roster.enemies
    ensures Shows(stage, t, Damage(id, n), Settled(Damaged(stage, t.(updating := true), id, n)))
  {
    if Stands(t.roster, id) {
      var body := t.roster.enemies[id].body;
      var left := body.health.hp - n;
      if left <= 0 { DeathSettles(stage, t, id, left, body.(health := Debuffs.Health(left, true))); }
    }
  }

  lemma HitSettles(stage: WaveManagers.Stage, t: State, h: Hit)
    requires Calm(t)
    ensures Shows(stage, t, h, Settled(Struck(stage, t.(updating := true), h)))
  {
    match h
    case Damage(id, n) => if id in t.roster.enemies { DamageSettles(stage, t, id, n); }
    case _ =>
  }

  lemma {:induction false} StruckSnoc(stage: WaveManagers.Stage, s: State, hs: seq<Hit>, h: Hit)
    ensures StruckAll(stage, s, hs + [h]) == Struck(stage, StruckAll(stage, s, hs), h)
    decreases |hs|
  {
    if hs == [] {
      assert ([] + [h])[1..] == [];
    } else {
      assert (hs + [h])[1..] == hs[1..] + [h];
      StruckSnoc(stage, Struck(stage, s, hs[0]), hs[1..], h);
    }
  }

  // -------- The projectiles' hits --------

  lemma BeforeFlightIsBusy(w: World, s: State, dt: real, turn: Turn)
    requires Resting(w, s)
    ensures var b := BeforeFlight(w, s, dt, turn); Busy(w.stage, b, StageEnds(s.log)) && b.updating
  {
    var a := Begun(s, dt);
    StartIsBusy(w, s, dt);
    if s.phase == Wave { WavePartKeepsBusy(w, a, dt, turn, StageEnds(s.log)); }
    SyncKeepsBusy(w.stage, if s.phase == Wave then WavePart(w, a, dt, turn) else a, StageEnds(s.log));
  }

  // The room when the projectiles' turn comes, and what the update makes of it.
  lemma InFlight(w: World, u: State, dt: real, turn: Turn, b: State)
    requires Resting(w, u) && b == BeforeFlight(w, u, dt, turn)
    ensures var f := Flown(w.stage, b, turn.projectileHits);
            && Busy(w.stage, b, StageEnds(u.log)) && b.updating
            && Busy(w.stage, f, StageEnds(u.log)) && f.updating
            && Ticked(w, u, dt, turn) == Settled(f)
  {
    FightIs(w, u, dt, turn);
    BeforeFlightIsBusy(w, u, dt, turn);
    FlightKeepsBusy(w.stage, b, turn.projectileHits, StageEnds(u.log));
  }

  // The projectiles' hits come too late to matter before.
  lemma FlightComesLast(w: World, u: State, dt: real, turn: Turn, ps: seq<Hit>)
    requires WaveManagers.InRange(w.stage, u.waves)
    ensures BeforeFlight(w, u, dt, turn.(projectileHits := ps)) == BeforeFlight(w, u, dt, turn)
  {
  }

  // Without them, with them and with one more: what the three updates make of the room.
  lemma ThreeFlights(w: World, u: State, dt: real, turn: Turn, hs: seq<Hit>, h: Hit) returns (b: State)
    requires Resting(w, u)
    ensures b == BeforeFlight(w, u, dt, turn) && Busy(w.stage, b, StageEnds(u.log)) && b.updating
    ensures Ticked(w, u, dt, turn.(projectileHits := [])) == Settled(b)
    ensures var f := Flown(w.stage, b, hs);
            && Busy(w.stage, f, StageEnds(u.log)) && f.updating
            && Ticked(w, u, dt, turn.(projectileHits := hs)) == Settled(f)
    ensures Ticked(w, u, dt, turn.(projectileHits := hs + [h])) == Settled(Flown(w.stage, b, hs + [h]))
  {
    b := BeforeFlight(w, u, dt, turn);
    FlightComesLast(w, u, dt, turn, []);
    FlightComesLast(w, u, dt, turn, hs);
    FlightComesLast(w, u, dt, turn, hs + [h]);
    InFlight(w, u, dt, turn.(projectileHits := []), b);
    InFlight(w, u, dt, turn.(projectileHits := hs), b);
    InFlight(w, u, dt, turn.(projectileHits := hs + [h]), b);
  }

  // The flights once more: with a shot in flight one more hit is struck.
  lemma OneMoreStrike(stage: WaveManagers.Stage, b: State, hs: seq<Hit>, h: Hit, ends: nat)
    requires Busy(stage, b, ends) && Busy(stage, Flown(stage, b, hs), ends) && Flown(stage, b, hs).updating
    requires Settled(b).shots.flying != {} && StageEnds(Settled(Flown(stage, b, hs)).log) == ends
    ensures Shows(stage, Settled(Flown(stage, b, hs)), h, Settled(Flown(stage, b, hs + [h])))
  {
    var f := Flown(stage, b, hs);
    Settles(b);
    Settles(f);
    StruckSnoc(stage, b, hs, h);
    HitSettles(stage, Settled(f), h);
  }

  lemma HitTicks(w: World, u: State, dt: real, turn: Turn, hs: seq<Hit>, h: Hit, t: State)
    requires Resting(w, u) && t == Ticked(w, u, dt, turn.(projectileHits := hs))
    requires Ticked(w, u, dt, turn.(projectileHits := [])).shots.flying != {} && GoesOn(u, t)
    ensures Shows(w.stage, t, h, Ticked(w, u, dt, turn.(projectileHits := hs + [h])))
  {
    var b := ThreeFlights(w, u, dt, turn, hs, h);
    OneMoreStrike(w.stage, b, hs, h, StageEnds(u.log));
  }

  /** With a projectile in flight when the projectiles' turn comes, and a stage that has not ended: one more hit of
      theirs is one more change of the room, and that change. A live enemy has exactly the damage less, or is dead
      and rewarded; a kill bonus is announced. */
  lemma ProjectileHitShows(w: World, s: State, commands: seq<Request>, dt: real, turn: Turn, hs: seq<Hit>, h: Hit)
    requires Resting(w, s)
    requires Played(w, s, commands, dt, turn, []).shots.flying != {}
    requires GoesOn(s, Played(w, s, commands, dt, turn, hs))
    ensures Shows(w.stage, Played(w, s, commands, dt, turn, hs), h, Played(w, s, commands, dt, turn, hs + [h]))
  {
    UpgradesRest(w, s, commands);
    HitTicks(w, s.(board := UpgradedAll(s.board, commands)), dt, turn, hs, h, Played(w, s, commands, dt, turn, hs));
  }

  lemma NoneFlies(stage: WaveManagers.Stage, b: State, hs: seq<Hit>, ends: nat)
    requires Busy(stage, b, ends) && b.updating
    requires StageEnds(Settled(b).log) == ends && Settled(b).shots.flying == {}
    ensures Flown(stage, b, hs) == b
  {
    Settles(b);
  }

  lemma NothingTicks(w: World, u: State, dt: real, turn: Turn, hs: seq<Hit>, t: State)
    requires Resting(w, u) && t == Ticked(w, u, dt, turn.(projectileHits := [])) && GoesOn(u, t) && t.shots.flying == {}
    ensures Ticked(w, u, dt, turn.(projectileHits := hs)) == t
  {
    var b := ThreeFlights(w, u, dt, turn, hs, Launch);
    NoneFlies(w.stage, b, hs, StageEnds(u.log));
  }

  /** With nothing in flight the projectiles' hits change nothing. */
  lemma NothingInFlight(w: World, s: State, commands: seq<Request>, dt: real, turn: Turn, hs: seq<Hit>)
    requires Resting(w, s)
    requires var t := Played(w, s, commands, dt, turn, []); GoesOn(s, t) && t.shots.flying == {}
    ensures Played(w, s, commands, dt, turn, hs) == Played(w, s, commands, dt, turn, [])
  {
    UpgradesRest(w, s, commands);
    NothingTicks(w, s.(board := UpgradedAll(s.board, commands)), dt, turn, hs, Played(w, s, commands, dt, turn, []));
  }

  // -------- An ended stage --------

  // Once the stage has ended in this update, the phase says which end was announced last.
  ghost predicate Says(s: State)
  {
    s.updating && (s.phase == EndStage ==> s.pending) && (s.pending ==> (s.phase == EndStage <==> StageOver(s.log)))
  }

  lemma OverLogged(log: seq<Notice>, n: Notice)
    ensures StageOver(log + [n]) <==> n.StageEnd? || (!n.WaveEnd? && StageOver(log))
  {
    assert (log + [n])[..|log|] == log;
  }

  lemma OtherSays(s: State, t: State, n: Notice)
    requires Says(s) && t.phase == s.phase && t.pending == s.pending && t.updating && !n.StageEnd? && !n.WaveEnd?
    requires t.log == s.log || t.log == s.log + [n]
    ensures Says(t)
  {
    OverLogged(s.log, n);
  }

  lemma EndSays(s: State, success: bool)
    requires Says(s)
    ensures Says(StageEnded(s, success))
  {
    OverLogged(s.log, StageEnd(success));
  }

  lemma CheckSays(stage: WaveManagers.Stage, s: State)
    requires Says(s)
    ensures Says(WaveChecked(stage, s))
  {
    EndSays(s, true);
    OverLogged(s.log, WaveEnd);
  }

  lemma ArriveSays(stage: WaveManagers.Stage, s: State, id: nat, power: int)
    requires Says(s)
    ensures Says(Arrive(stage, s, id, power))
  {
    var a := WallHit(s, id, power);
    OtherSays(s, a, Arrived(id, s.hp - power));
    if a.hp <= 0 { EndSays(a, false); } else { CheckSays(stage, a); }
  }

  lemma DieSays(stage: WaveManagers.Stage, s: State, id: nat, body: Enemies.Body)
    requires Says(s) && id in s.roster.enemies
    ensures Says(Die(stage, s, id, body))
  {
    OtherSays(s, Paid(s, id, body), Rewarded(id, s.roster.enemies[id].reward));
    CheckSays(stage, Paid(s, id, body));
  }

  lemma VisitSays(stage: WaveManagers.Stage, s: State, v: Visit)
    requires Says(s)
    ensures Says(Visited(stage, s, v))
  {
    if v.id in s.roster.enemies && !Dead(s.roster.enemies[v.id]) {
      var power := s.roster.enemies[v.id].power;
      DieSays(stage, s, v.id, v.after);
      ArriveSays(stage, Die(stage, s, v.id, v.after), v.id, power);
      ArriveSays(stage, Changed(s, v.id, v.after), v.id, power);
    }
  }

  lemma {:induction false} VisitsSay(stage: WaveManagers.Stage, s: State, vs: seq<Visit>)
    requires Says(s)
    ensures Says(VisitedAll(stage, s, vs))
    decreases |vs|
  {
    if vs != [] {
      VisitSays(stage, s, vs[0]);
      VisitsSay(stage, Visited(stage, s, vs[0]), vs[1..]);
    }
  }

  lemma DamageSays(stage: WaveManagers.Stage, s: State, id: nat, n: int)
    requires Says(s) && id in s.roster.enemies
    ensures Says(Damaged(stage, s, id, n))
  {
    var body := s.roster.enemies[id].body;
    DieSays(stage, s, id, body.(health := Debuffs.TakeDamage(body.health, n)));
  }

  lemma StrikeSays(stage: WaveManagers.Stage, s: State, h: Hit)
    requires Says(s)
    ensures Says(Struck(stage, s, h))
  {
    match h
    case Attack(event) => OtherSays(s, Struck(stage, s, h), Pushed(event));
    case Damage(id, n) => if id in s.roster.enemies { DamageSays(stage, s, id, n); }
    case KillBonus(gold) => OtherSays(s, Struck(stage, s, h), Bonus(gold));
    case _ =>
  }

  lemma {:induction false} StrikesSay(stage: WaveManagers.Stage, s: State, hs: seq<Hit>)
    requires Says(s)
    ensures Says(StruckAll(stage, s, hs))
    decreases |hs|
  {
    if hs != [] {
      StrikeSays(stage, s, hs[0]);
      StrikesSay(stage, Struck(stage, s, hs[0]), hs[1..]);
    }
  }

  lemma BeforeFlightSays(w: World, s: State, dt: real, turn: Turn)
    requires Resting(w, s)
    ensures Says(BeforeFlight(w, s, dt, turn))
  {
    if s.phase == Wave {
      var spawned := AtWalk(w, s, dt, turn);
      VisitsSay(w.stage, spawned, Visits(w.sqrt, spawned.roster, turn.order, dt));
      StrikesSay(w.stage, AfterWalk(w, s, dt, turn), turn.minionHits);
    }
    var m := MinionsStrike(w.stage, AfterWalk(w, s, dt, turn), s.phase == Wave, turn.minionHits);
    OtherSays(m, Synced(m), Batch(m.attacks));
  }

  lemma NoneFliesOn(stage: WaveManagers.Stage, b: State, hs: seq<Hit>, ends: nat)
    requires Busy(stage, b, ends) && Says(b)
    requires StageEnds(Settled(b).log) != ends && StageOver(Settled(b).log)
    ensures Flown(stage, b, hs) == b
  {
    Settles(b);
    OverLogged(b.log, Dropped(b.attacks));
  }

  lemma EndedTicks(w: World, u: State, dt: real, turn: Turn, hs: seq<Hit>, t: State)
    requires Resting(w, u) && t == Ticked(w, u, dt, turn.(projectileHits := [])) && !GoesOn(u, t) && StageOver(t.log)
    ensures Ticked(w, u, dt, turn.(projectileHits := hs)) == t
  {
    var b := ThreeFlights(w, u, dt, turn, hs, Launch);
    BeforeFlightSays(w, u, dt, turn);
    NoneFliesOn(w.stage, b, hs, StageEnds(u.log));
  }

  /** Nor do they when the stage has ended in this update, unless a wave has ended after it. */
  lemma NothingAfterTheEnd(w: World, s: State, commands: seq<Request>, dt: real, turn: Turn, hs: seq<Hit>)
    requires Resting(w, s)
    requires var t := Played(w, s, commands, dt, turn, []); !GoesOn(s, t) && StageOver(t.log)
    ensures Played(w, s, commands, dt, turn, hs) == Played(w, s, commands, dt, turn, [])
  {
    UpgradesRest(w, s, commands);
    EndedTicks(w, s.(board := UpgradedAll(s.board, commands)), dt, turn, hs, Played(w, s, commands, dt, turn, []));
  }

  // -------- What it earns --------

  // What a hit earns the players.
  function Earning(t: State, h: Hit): int
  {
    match h
    case KillBonus(gold) => gold
    case Damage(id, n) =>
      if Stands(t.roster, id) && t.roster.enemies[id].body.health.hp <= n then t.roster.enemies[id].reward else 0
    case _ => 0
  }

  /** So the last hit earns the players what it says: a kill its enemy's reward, a bonus its gold, others nothing. */
  lemma HitEarns(stage: WaveManagers.Stage, t: State, h: Hit, t': State)
    requires Shows(stage, t, h, t')
    ensures Earned(t'.log) == Earned(t.log) + Earning(t, h)
  {
    match h
    case Attack(event) => EarnedLogged(t.log, Pushed(event));
    case KillBonus(gold) => EarnedLogged(t.log, Bonus(gold));
    case Damage(id, n) =>
      if Stands(t.roster, id) && t.roster.enemies[id].body.health.hp <= n {
        KillEarns(stage, t, id, t.roster.enemies[id].body.health.hp - n, t');
      }
    case _ =>
  }

  lemma KillEarns(stage: WaveManagers.Stage, t: State, id: nat, hp: int, t': State)
    requires id in t.roster.enemies && Killed(stage, t, id, hp, t')
    ensures Earned(t'.log) == Earned(t.log) + t.roster.enemies[id].reward
  {
    var rewarded := t.log + [Rewarded(id, t.roster.enemies[id].reward)];
    EarnedLogged(t.log, Rewarded(id, t.roster.enemies[id].reward));
    EarnedLogged(rewarded, WaveEnd);
    EarnedLogged(rewarded, StageEnd(true));
    EarnedLogged(rewarded + [StageEnd(true)], Dropped(t.attacks));
    assert rewarded + [StageEnd(true)] + [Dropped(t.attacks)] == rewarded + [StageEnd(true), Dropped(t.attacks)];
  }

  // -------- The minions' hits --------

  // The room after an update in which only the minions hit.
  function Defended(w: World, s: State, commands: seq<Request>, dt: real, turn: Turn, hs: seq<Hit>): State
    requires WaveManagers.InRange(w.stage, s.waves)
  {
    Do(w, s, Update(commands, dt, turn.(minionHits := hs, projectileHits := [])))
  }

  // The room apart from what is on its way to the players.
  function Core(s: State): State
  {
    s.(attacks := [], goldChange := false, log := [])
  }

  ghost predicate KilledToo(stage: WaveManagers.Stage, t: State, id: nat, hp: int, t': State)
    requires id in t.roster.enemies
  {
    var gone := Hurt(t.roster, id, hp).(removing := t.roster.removing + [id]);
    var killed := Core(t.(roster := gone));
    if !t.waves.finished || AliveCount(gone) > 0 then Core(t') == killed
    else if t.waves.current < |stage| then Core(t') == killed.(phase := Intermission)
    else Reset(t') && t'.players == t.players
  }

  // What one more hit, the last of the minions', makes of the room, its messages apart.
  ghost predicate Tells(stage: WaveManagers.Stage, t: State, h: Hit, t': State)
  {
    match h
    case Damage(id, n) =>
      if !Stands(t.roster, id) then Core(t') == Core(t)
      else
        var left := t.roster.enemies[id].body.health.hp - n;
        if left > 0 then Core(t') == Core(t.(roster := Hurt(t.roster, id, left))) else KilledToo(stage, t, id, left, t')
    case Afflict(id, debuff) =>
      if id !in t.roster.enemies then Core(t') == Core(t)
      else Core(t') == Core(t.(roster := Embodied(t.roster, id, Enemies.Afflicted(t.roster.enemies[id].body, debuff))))
    case Launch => Core(t') == Core(t.(shots := Shots(t.shots.flying + {t.shots.nextId}, t.shots.nextId + 1)))
    case Return(shot) => Core(t') == Core(t.(shots := Shots(t.shots.flying - {shot}, t.shots.nextId)))
    case _ => Core(t') == Core(t)
  }

  lemma QuietIs(s: State)
    ensures Core(Quieted(s)) == Core(s.(sync := s.sync - SYNC)) && Quieted(s).log == s.log
  {
  }

  lemma SyncIs(s: State, y: State)
    requires y == Synced(s)
    ensures Core(y) == Core(s.(sync := y.sync)) && (y.sync == if s.sync < SYNC then s.sync else s.sync - SYNC)
    ensures StageEnds(y.log) == StageEnds(s.log) && Earned(y.log) == Earned(s.log)
  {
    if s.sync >= SYNC {
      QuietIs(s);
      SyncLogs(s.log, s.attacks);
    }
  }

  lemma SyncLogs(log: seq<Notice>, events: seq<AttackEvent>)
    ensures StageEnds(log + [Batch(events)]) == StageEnds(log) && Earned(log + [Batch(events)]) == Earned(log)
  {
    StageEndsLogged(log, Batch(events));
    EarnedLogged(log, Batch(events));
  }

  lemma EndIs(y: State, t: State)
    requires y.updating && t == Settled(y)
    ensures Earned(t.log) == Earned(y.log) && StageEnds(t.log) == StageEnds(y.log)
    ensures y.pending ==> Reset(t) && t.players == y.players
    ensures !y.pending ==> t == y.(updating := false)
  {
    EarnedLogged(y.log, Dropped(y.attacks));
    StageEndsLogged(y.log, Dropped(y.attacks));
    if y.pending { ResetIsReset(y); }
  }

  // What the end of an update in which the minions have left the room at m leaves.
  ghost predicate Comes(m: State, t: State)
  {
    && Earned(t.log) == Earned(m.log) && StageEnds(t.log) == StageEnds(m.log)
    && (m.pending ==> Reset(t) && t.players == m.players)
    && (!m.pending ==>
          Core(t) == Core(m.(updating := false, sync := t.sync))
          && t.sync == if m.sync < SYNC then m.sync else m.sync - SYNC)
  }

  lemma SyncComes(m: State, t: State)
    requires m.updating && t == Settled(Synced(m))
    ensures Comes(m, t)
  {
    SyncIs(m, Synced(m));
    EndIs(Synced(m), t);
  }

  // In the middle of an update whose stage goes on.
  ghost predicate Under(m: State)
  {
    m.updating && !m.pending && m.phase != EndStage
  }

  lemma DeathTells(stage: WaveManagers.Stage, m: State, id: nat, hp: int, body: Enemies.Body, x: State, t: State, t': State)
    requires Under(m) && Stands(m.roster, id) && hp <= 0 && Comes(m, t)
    requires body == m.roster.enemies[id].body.(health := Debuffs.Health(hp, true))
    requires x == Die(stage, m, id, body) && Comes(x, t')
    ensures KilledToo(stage, t, id, hp, t')
  {
    var a := Paid(m, id, body);
    assert a.roster == Hurt(m.roster, id, hp).(removing := m.roster.removing + [id]);
  }

  lemma HurtTells(m: State, id: nat, left: int, x: State, t: State, t': State)
    requires Under(m) && Stands(m.roster, id) && Comes(m, t)
    requires x == m.(roster := Hurt(m.roster, id, left)) && Comes(x, t')
    ensures Core(t') == Core(t.(roster := Hurt(t.roster, id, left)))
  {
  }

  // What damage does to an enemy that is not dead yet.
  lemma DamagedIs(stage: WaveManagers.Stage, m: State, id: nat, n: int, left: int)
    requires Stands(m.roster, id) && left == m.roster.enemies[id].body.health.hp - n
    ensures var body := m.roster.enemies[id].body.(health := Debuffs.Health(left, left <= 0));
            Damaged(stage, m, id, n) == if left <= 0 then Die(stage, m, id, body) else m.(roster := Hurt(m.roster, id, left))
  {
  }

  lemma DamageTells(stage: WaveManagers.Stage, m: State, id: nat, n: int, x: State, t: State, t': State)
    requires Under(m) && id in m.roster.enemies && Comes(m, t) && x == Damaged(stage, m, id, n) && Comes(x, t')
    ensures Tells(stage, t, Damage(id, n), t')
  {
    if Stands(m.roster, id) {
      var body := m.roster.enemies[id].body;
      var left := body.health.hp - n;
      DamagedIs(stage, m, id, n, left);
      if left <= 0 {
        DeathTells(stage, m, id, left, body.(health := Debuffs.Health(left, true)), x, t, t');
      } else {
        HurtTells(m, id, left, x, t, t');
      }
    }
  }

  lemma StrikeTells(stage: WaveManagers.Stage, m: State, h: Hit, t: State, t': State)
    requires Under(m) && Comes(m, t) && Comes(Struck(stage, m, h), t')
    ensures Tells(stage, t, h, t')
  {
    match h
    case Damage(id, n) => if id in m.roster.enemies { DamageTells(stage, m, id, n, Struck(stage, m, h), t, t'); }
    case _ =>
  }

  lemma SameEarning(t: State, y: State, h: Hit)
    requires t.roster == y.roster
    ensures Earning(t, h) == Earning(y, h)
  {
  }

  lemma StrikeEarns(stage: WaveManagers.Stage, m: State, h: Hit, t: State, t': State, x: State)
    requires Under(m) && Comes(m, t) && x == Struck(stage, m, h) && x.updating && Comes(x, t')
    ensures Earned(t'.log) == Earned(t.log) + Earning(t, h)
  {
    var y := m.(updating := false);
    HitSettles(stage, y, h);
    assert y.(updating := true) == m;
    HitEarns(stage, y, h, Settled(x));
    EndIs(x, Settled(x));
    SameEarning(t, y, h);
  }

  lemma DefenceIsBusy(w: World, u: State, dt: real, turn: Turn, m: State)
    requires Resting(w, u) && m == MinionsStrike(w.stage, AfterWalk(w, u, dt, turn), u.phase == Wave, turn.minionHits)
    ensures Busy(w.stage, m, StageEnds(u.log)) && m.updating
  {
    StartIsBusy(w, u, dt);
    if u.phase == Wave { WavePartKeepsBusy(w, Begun(u, dt), dt, turn, StageEnds(u.log)); }
  }

  // The minions' hits come after the walk.
  lemma DefenceComesLast(w: World, u: State, dt: real, turn: Turn, hs: seq<Hit>)
    requires WaveManagers.InRange(w.stage, u.waves)
    ensures AfterWalk(w, u, dt, turn.(minionHits := hs, projectileHits := [])) == AfterWalk(w, u, dt, turn)
  {
  }

  lemma Defence(w: World, u: State, dt: real, turn: Turn, hs: seq<Hit>, m: State)
    requires Resting(w, u) && m == MinionsStrike(w.stage, AfterWalk(w, u, dt, turn), u.phase == Wave, hs)
    ensures Busy(w.stage, m, StageEnds(u.log)) && m.updating
    ensures Comes(m, Ticked(w, u, dt, turn.(minionHits := hs, projectileHits := [])))
  {
    var now := turn.(minionHits := hs, projectileHits := []);
    DefenceComesLast(w, u, dt, turn, hs);
    DefenceIsBusy(w, u, dt, now, m);
    FightIs(w, u, dt, now);
    assert Flown(w.stage, Synced(m), []) == Synced(m);
    SyncComes(m, Ticked(w, u, dt, now));
  }

  // From the room after the walk on.
  lemma OneMoreDefence(stage: WaveManagers.Stage, r: State, hs: seq<Hit>, h: Hit, ends: nat, t0: State, t: State, t': State)
    requires Comes(r, t0) && t0.phase == Wave
    requires var m := MinionsStrike(stage, r, true, hs); Busy(stage, m, ends) && m.updating && Comes(m, t)
    requires var x := MinionsStrike(stage, r, true, hs + [h]); x.updating && Comes(x, t')
    requires StageEnds(t.log) == ends
    ensures Tells(stage, t, h, t') && Earned(t'.log) == Earned(t.log) + Earning(t, h)
  {
    var m := MinionsStrike(stage, r, true, hs);
    StruckSnoc(stage, r, hs, h);
    StrikeTells(stage, m, h, t, t');
    StrikeEarns(stage, m, h, t, t', Struck(stage, m, h));
  }

  lemma DefenceTicks(w: World, u: State, dt: real, turn: Turn, hs: seq<Hit>, h: Hit, t: State, t': State)
    requires Resting(w, u) && u.phase == Wave
    requires Ticked(w, u, dt, turn.(minionHits := [], projectileHits := [])).phase == Wave
    requires t == Ticked(w, u, dt, turn.(minionHits := hs, projectileHits := [])) && GoesOn(u, t)
    requires t' == Ticked(w, u, dt, turn.(minionHits := hs + [h], projectileHits := []))
    ensures Tells(w.stage, t, h, t') && Earned(t'.log) == Earned(t.log) + Earning(t, h)
  {
    var r := AfterWalk(w, u, dt, turn);
    Defence(w, u, dt, turn, [], r);
    Defence(w, u, dt, turn, hs, MinionsStrike(w.stage, r, true, hs));
    Defence(w, u, dt, turn, hs + [h], MinionsStrike(w.stage, r, true, hs + [h]));
    var t0 := Ticked(w, u, dt, turn.(minionHits := [], projectileHits := []));
    OneMoreDefence(w.stage, r, hs, h, StageEnds(u.log), t0, t, t');
  }

  /** In a wave that is still on after the walk, one more hit of the minions is that change of the room too, and
      earns what it says. */
  lemma MinionHitTells(w: World, s: State, commands: seq<Request>, dt: real, turn: Turn, hs: seq<Hit>, h: Hit)
    requires Resting(w, s) && s.phase == Wave
    requires Defended(w, s, commands, dt, turn, []).phase == Wave
    requires GoesOn(s, Defended(w, s, commands, dt, turn, hs))
    ensures var t, t' := Defended(w, s, commands, dt, turn, hs), Defended(w, s, commands, dt, turn, hs + [h]);
            Tells(w.stage, t, h, t') && Earned(t'.log) == Earned(t.log) + Earning(t, h)
  {
    UpgradesRest(w, s, commands);
    DefenceTicks(w, s.(board := UpgradedAll(s.board, commands)), dt, turn, hs, h,
                 Defended(w, s, commands, dt, turn, hs), Defended(w, s, commands, dt, turn, hs + [h]));
  }

  lemma NoDefenceTicks(w: World, u: State, dt: real, turn: Turn, hs: seq<Hit>, t: State)
    requires Resting(w, u) && t == Ticked(w, u, dt, turn.(minionHits := [], projectileHits := []))
    requires u.phase != Wave || (GoesOn(u, t) && t.phase != Wave)
    ensures Ticked(w, u, dt, turn.(minionHits := hs, projectileHits := [])) == t
  {
    var r := AfterWalk(w, u, dt, turn);
    Defence(w, u, dt, turn, [], r);
    DefenceComesLast(w, u, dt, turn, []);
    DefenceComesLast(w, u, dt, turn, hs);
    FightIs(w, u, dt, turn.(minionHits := [], projectileHits := []));
    FightIs(w, u, dt, turn.(minionHits := hs, projectileHits := []));
    assert MinionsStrike(w.stage, r, u.phase == Wave, hs) == r;
  }

  /** When it is no wave, or no wave any more after the walk, the minions' hits change nothing. */
  lemma NoWaveNoHits(w: World, s: State, commands: seq<Request>, dt: real, turn: Turn, hs: seq<Hit>)
    requires Resting(w, s)
    requires var t := Defended(w, s, commands, dt, turn, []); s.phase != Wave || (GoesOn(s, t) && t.phase != Wave)
    ensures Defended(w, s, commands, dt, turn, hs) == Defended(w, s, commands, dt, turn, [])
  {
    UpgradesRest(w, s, commands);
    NoDefenceTicks(w, s.(board := UpgradedAll(s.board, commands)), dt, turn, hs, Defended(w, s, commands, dt, turn, []));
  }
}
