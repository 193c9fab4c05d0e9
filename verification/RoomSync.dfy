/** When a room sends what it has for its players: at most once an update, and not before 0.05 s have gone by. */
module RoomSync {
  import opened Wire
  import opened RoomStates
  import opened RoomLaws
  import opened RoomEnds
  import Debuffs
  import Enemies
  import WaveManagers

  function Batches(log: seq<Notice>): nat
  {
    if log == [] then 0 else Batches(log[..|log| - 1]) + (if log[|log| - 1].Batch? then 1 else 0)
  }

  lemma BatchesLogged(log: seq<Notice>, n: Notice)
    ensures Batches(log + [n]) == Batches(log) + (if n.Batch? then 1 else 0)
  {
    assert (log + [n])[..|log|] == log;
  }

  // Between s and t nothing was sent, and nothing that was waiting has gone.
  ghost predicate Holds(s: State, t: State)
  {
    t.sync == s.sync && t.updating == s.updating && s.attacks <= t.attacks && Batches(t.log) == Batches(s.log)
  }

  lemma HoldsOn(s: State, t: State, u: State)
    requires Holds(s, t) && Holds(t, u)
    ensures Holds(s, u)
  {
  }

  lemma OtherHolds(s: State, t: State, n: Notice)
    requires t.sync == s.sync && t.updating == s.updating && s.attacks <= t.attacks && !n.Batch?
    requires t.log == s.log || t.log == s.log + [n]
    ensures Holds(s, t)
  {
    BatchesLogged(s.log, n);
  }

  lemma EndHolds(s: State, success: bool)
    requires s.updating
    ensures Holds(s, StageEnded(s, success))
  {
    OtherHolds(s, StageEnded(s, success), StageEnd(success));
  }

  lemma CheckHolds(stage: WaveManagers.Stage, s: State)
    requires s.updating
    ensures Holds(s, WaveChecked(stage, s))
  {
    EndHolds(s, true);
    BatchesLogged(s.log, WaveEnd);
  }

  lemma ArriveHolds(stage: WaveManagers.Stage, s: State, id: nat, power: int)
    requires s.updating
    ensures Holds(s, Arrive(stage, s, id, power))
  {
    var a := WallHit(s, id, power);
    OtherHolds(s, a, Arrived(id, s.hp - power));
    if a.hp <= 0 { EndHolds(a, false); } else { CheckHolds(stage, a); }
  }

  lemma DieHolds(stage: WaveManagers.Stage, s: State, id: nat, body: Enemies.Body)
    requires s.updating && id in s.roster.enemies
    ensures Holds(s, Die(stage, s, id, body))
  {
    OtherHolds(s, Paid(s, id, body), Rewarded(id, s.roster.enemies[id].reward));
    CheckHolds(stage, Paid(s, id, body));
  }

  lemma AfterHolds(stage: WaveManagers.Stage, s: State, v: Visit)
    requires s.updating && v.id in s.roster.enemies
    ensures Holds(s, if v.after.health.dead then Die(stage, s, v.id, v.after) else Changed(s, v.id, v.after))
  {
    if v.after.health.dead { DieHolds(stage, s, v.id, v.after); }
  }

  lemma VisitHolds(stage: WaveManagers.Stage, s: State, v: Visit)
    requires s.updating
    ensures Holds(s, Visited(stage, s, v))
  {
    if v.id in s.roster.enemies && !s.roster.enemies[v.id].body.health.dead {
      var t := if v.after.health.dead then Die(stage, s, v.id, v.after) else Changed(s, v.id, v.after);
      AfterHolds(stage, s, v);
      if v.arrived { ArriveHolds(stage, t, v.id, s.roster.enemies[v.id].power); }
    }
  }

  lemma {:induction false} VisitsHold(stage: WaveManagers.Stage, s: State, vs: seq<Visit>)
    requires s.updating
    ensures Holds(s, VisitedAll(stage, s, vs))
    decreases |vs|
  {
    if vs != [] {
      var next := Visited(stage, s, vs[0]);
      VisitHolds(stage, s, vs[0]);
      VisitsHold(stage, next, vs[1..]);
      HoldsOn(s, next, VisitedAll(stage, s, vs));
    }
  }

  lemma DamageHolds(stage: WaveManagers.Stage, s: State, id: nat, n: int)
    requires s.updating && id in s.roster.enemies
    ensures Holds(s, Damaged(stage, s, id, n))
  {
    var body := s.roster.enemies[id].body;
    DieHolds(stage, s, id, body.(health := Debuffs.TakeDamage(body.health, n)));
  }

  lemma StrikeHolds(stage: WaveManagers.Stage, s: State, h: Hit)
    requires s.updating
    ensures Holds(s, Struck(stage, s, h))
  {
    match h
    case Attack(event) => OtherHolds(s, Struck(stage, s, h), Pushed(event));
    case Damage(id, n) => if id in s.roster.enemies { DamageHolds(stage, s, id, n); }
    case KillBonus(gold) => OtherHolds(s, Struck(stage, s, h), Bonus(gold));
    case _ =>
  }

  lemma {:induction false} StrikesHold(stage: WaveManagers.Stage, s: State, hs: seq<Hit>)
    requires s.updating
    ensures Holds(s, StruckAll(stage, s, hs))
    decreases |hs|
  {
    if hs != [] {
      var next := Struck(stage, s, hs[0]);
      StrikeHolds(stage, s, hs[0]);
      StrikesHold(stage, next, hs[1..]);
      HoldsOn(s, next, StruckAll(stage, s, hs));
    }
  }

  // From the beginning of the update to its synchronisation.
  lemma BeforeSync(w: World, s: State, dt: real, turn: Turn, m: State)
    requires WaveManagers.InRange(w.stage, s.waves)
    requires m == MinionsStrike(w.stage, AfterWalk(w, s, dt, turn), s.phase == Wave, turn.minionHits)
    ensures m.updating && m.sync == s.sync + dt && s.attacks <= m.attacks && Batches(m.log) == Batches(s.log)
  {
    if s.phase == Wave {
      var spawned := WaveSpawned(w.stage, Begun(s, dt), dt, turn);
      VisitsHold(w.stage, spawned, Visits(w.sqrt, spawned.roster, turn.order, dt));
      StrikesHold(w.stage, AfterWalk(w, s, dt, turn), turn.minionHits);
    }
  }

  // Whatever was waiting has been sent, in one batch if there was anything.
  ghost predicate Sent(m: State, y: State)
  {
    && y.sync == m.sync - 0.05 && y.attacks == [] && !y.goldChange && y.updating == m.updating
    && y.log == if m.attacks == [] then m.log else m.log + [Batch(m.attacks)]
  }

  lemma SyncSends(m: State)
    ensures if m.sync < 0.05 then Synced(m) == m else Sent(m, Synced(m))
    ensures Batches(Synced(m).log) == Batches(m.log) + (if m.sync >= 0.05 && m.attacks != [] then 1 else 0)
  {
    BatchesLogged(m.log, Batch(m.attacks));
  }

  lemma FlightHolds(stage: WaveManagers.Stage, y: State, hs: seq<Hit>, t: State)
    requires y.updating && t == Settled(Flown(stage, y, hs)) && StageEnds(t.log) == StageEnds(Flown(stage, y, hs).log)
    requires !Flown(stage, y, hs).pending
    ensures t.sync == y.sync && y.attacks <= t.attacks && Batches(t.log) == Batches(y.log)
    ensures hs == [] ==> t == y.(updating := false)
  {
    StrikesHold(stage, y, hs);
  }

  // What a player sees of an update from s to t.
  ghost predicate SyncedWell(s: State, dt: real, hits: seq<Hit>, t: State)
  {
    if s.sync + dt < 0.05 then t.sync == s.sync + dt && s.attacks <= t.attacks && Batches(t.log) == Batches(s.log)
    else
      && t.sync == s.sync + dt - 0.05 && Batches(s.log) <= Batches(t.log) <= Batches(s.log) + 1
      && (hits == [] ==> t.attacks == [] && !t.goldChange)
      && (s.attacks != [] ==> Batches(t.log) == Batches(s.log) + 1)
  }

  lemma TickSyncs(w: World, u: State, dt: real, turn: Turn, t: State)
    requires Resting(w, u) && t == Ticked(w, u, dt, turn) && StageEnds(t.log) == StageEnds(u.log)
    ensures SyncedWell(u, dt, turn.projectileHits, t)
  {
    var m := MinionsStrike(w.stage, AfterWalk(w, u, dt, turn), u.phase == Wave, turn.minionHits);
    BeforeSync(w, u, dt, turn, m);
    SyncSends(m);
    NotPending(w, u, dt, turn, t);
    FightIs(w, u, dt, turn);
    FlightHolds(w.stage, Synced(m), turn.projectileHits, t);
  }

  lemma NotPending(w: World, u: State, dt: real, turn: Turn, t: State)
    requires Resting(w, u) && t == Ticked(w, u, dt, turn) && StageEnds(t.log) == StageEnds(u.log)
    ensures var f := Fought(w, Begun(u, dt), dt, turn); !f.pending && StageEnds(t.log) == StageEnds(f.log)
  {
    var f := Fought(w, Begun(u, dt), dt, turn);
    StartIsBusy(w, u, dt);
    FightingKeepsBusy(w, Begun(u, dt), dt, turn, StageEnds(u.log));
    StageEndsLogged(f.log, Dropped(f.attacks));
  }

  /** An update whose stage goes on sends nothing before 0.05 s have gone by since the times that were used up, and
      keeps what is waiting; otherwise it uses up 0.05 s and sends everything that was waiting, in one batch. */
  lemma UpdateSyncs(w: World, s: State, commands: seq<Request>, dt: real, turn: Turn)
    requires Resting(w, s)
    requires StageEnds(Do(w, s, Update(commands, dt, turn)).log) == StageEnds(s.log)
    ensures SyncedWell(s, dt, turn.projectileHits, Do(w, s, Update(commands, dt, turn)))
  {
    var u := s.(board := UpgradedAll(s.board, commands));
    UpgradesRest(w, s, commands);
    TickSyncs(w, u, dt, turn, Do(w, s, Update(commands, dt, turn)));
  }
}
