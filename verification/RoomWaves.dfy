/** The end of a wave: what one departure announces, in any phase, and how often a wave and a stage can end. */
module RoomWaves {
  import opened Wire
  import opened EnemyManagers
  import opened RoomStates
  import opened RoomLaws
  import opened RoomEnemies
  import opened RoomWalks
  import Boards
  import Debuffs
  import Enemies
  import WaveManagers

  // -------- One departure --------

  // The last announcement of a wave.
  function Ending(stage: WaveManagers.Stage, s: State): Notice
  {
    if |stage| <= s.waves.current then StageEnd(true) else WaveEnd
  }

  // The state after the end of the wave has been checked, and found or not.
  ghost predicate Concluded(stage: WaveManagers.Stage, s: State, over: bool, t: State)
  {
    && (!over ==> t.log == s.log && t.phase == s.phase)
    && (over && Ending(stage, s) == WaveEnd ==> t.log == s.log + [WaveEnd] && t.phase == Intermission)
    && (over && Ending(stage, s) != WaveEnd ==>
          t.phase == EndStage && t.log == if s.phase == EndStage then s.log else s.log + [StageEnd(true)])
  }

  /** The check at a departure: the wave is over exactly if spawning is finished and no more enemies are live
      than are queued for removal more than once; in every phase, an ended stage included. */
  lemma CheckConcludes(stage: WaveManagers.Stage, s: State)
    requires s.updating && Registered(s.roster)
    ensures var over := s.waves.finished && |Live(s.roster)| <= |s.roster.removing| - |Elements(s.roster.removing)|;
            Concluded(stage, s, over, WaveChecked(stage, s))
  {
    AliveCountZeroIff(s.roster);
  }

  lemma ExactlyOver(r: Roster)
    requires Counted(r)
    ensures |Live(r)| <= |r.removing| - |Elements(r.removing)| <==> Live(r) == {}
  {
    ElementCount(r.removing);
  }

  /** At a death, with nobody queued twice, the wave is over exactly if spawning is finished and this leaves
      nobody live; and if the stage has just been lost, the room still goes on to the next wave. */
  lemma DeathEndsWave(stage: WaveManagers.Stage, s: State, id: nat, body: Enemies.Body)
    requires s.updating && Counted(s.roster) && id in Live(s.roster) && body.health.dead
    ensures var over := s.waves.finished && Live(s.roster) - {id} == {};
            && Live(Die(stage, s, id, body).roster) == Live(s.roster) - {id}
            && Concluded(stage, Paid(s, id, body), over, Die(stage, s, id, body))
  {
    FallenMarked(s.roster, id, body);
    NoRepeatsMore(s.roster.removing, id);
    CheckConcludes(stage, Paid(s, id, body));
    ExactlyOver(Fallen(s.roster, id, body));
  }

  /** At an arrival that the wall survives likewise; one that it does not survive loses the stage instead. */
  lemma ArrivalEndsWave(stage: WaveManagers.Stage, s: State, id: nat, power: int)
    requires s.updating && Counted(s.roster) && id in Live(s.roster)
    ensures var a, t := WallHit(s, id, power), Arrive(stage, s, id, power);
            var over := s.waves.finished && Live(s.roster) - {id} == {};
            && Live(t.roster) == Live(s.roster) - {id} && t.hp == s.hp - power
            && (s.hp > power ==> Concluded(stage, a, over, t))
            && (s.hp <= power ==> t.phase == EndStage && t.log == if s.phase == EndStage then a.log else a.log + [StageEnd(false)])
  {
    LeavingMarked(s.roster, id);
    NoRepeatsMore(s.roster.removing, id);
    CheckConcludes(stage, WallHit(s, id, power));
    ExactlyOver(Leaving(s.roster, id));
  }

  // -------- How often --------

  // How often a wave has been announced to have ended, or its stage to have been won.
  function Ends(log: seq<Notice>): nat
  {
    if log == [] then 0 else Ends(log[..|log| - 1]) + (if IsEnd(log[|log| - 1]) then 1 else 0)
  }

  lemma EndsLogged(log: seq<Notice>, n: Notice)
    ensures Ends(log + [n]) == Ends(log) + (if IsEnd(n) then 1 else 0)
    ensures StageEnds(log + [n]) == StageEnds(log) + (if n.StageEnd? then 1 else 0)
  {
    assert (log + [n])[..|log|] == log;
  }

  ghost predicate Finale(s: State)
  {
    s.waves.finished && Live(s.roster) == {}
  }

  // Since there were n ends of waves and m ends of stages, there has been at most one more of each; after the
  // end of a wave nobody is left, and after the end of a stage either nobody is left or it is still ended.
  ghost predicate EndedOnce(s: State, n: nat, m: nat)
  {
    && n <= Ends(s.log) <= n + 1 && (Ends(s.log) == n + 1 ==> Finale(s))
    && m <= StageEnds(s.log) <= m + 1 && (StageEnds(s.log) == m + 1 ==> Finale(s) || s.phase == EndStage)
  }

  // Before a departure, with somebody live: no end yet, and no end of the stage unless it is ended now.
  ghost predicate NotOver(s: State, n: nat, m: nat)
  {
    && Ends(s.log) == n
    && m <= StageEnds(s.log) <= m + 1 && (StageEnds(s.log) == m + 1 ==> s.phase == EndStage)
  }

  lemma LossEndsOnce(s: State, n: nat, m: nat)
    requires s.updating && NotOver(s, n, m)
    ensures EndedOnce(StageEnded(s, false), n, m)
  {
    EndsLogged(s.log, StageEnd(false));
  }

  lemma CheckEndsOnce(stage: WaveManagers.Stage, s: State, n: nat, m: nat)
    requires s.updating && Counted(s.roster) && NotOver(s, n, m)
    ensures EndedOnce(WaveChecked(stage, s), n, m)
  {
    CheckConcludes(stage, s);
    ExactlyOver(s.roster);
    EndsLogged(s.log, StageEnd(true));
    EndsLogged(s.log, WaveEnd);
  }

  lemma ArriveEndsOnce(stage: WaveManagers.Stage, s: State, id: nat, power: int, n: nat, m: nat)
    requires s.updating && Counted(s.roster) && id in Live(s.roster) && EndedOnce(s, n, m)
    ensures EndedOnce(Arrive(stage, s, id, power), n, m)
  {
    var a := WallHit(s, id, power);
    EndsLogged(s.log, Arrived(id, s.hp - power));
    LeavingMarked(s.roster, id);
    NoRepeatsMore(s.roster.removing, id);
    if a.hp <= 0 { LossEndsOnce(a, n, m); } else { CheckEndsOnce(stage, a, n, m); }
  }

  lemma DieEndsOnce(stage: WaveManagers.Stage, s: State, id: nat, body: Enemies.Body, n: nat, m: nat)
    requires s.updating && Counted(s.roster) && id in Live(s.roster) && EndedOnce(s, n, m)
    ensures EndedOnce(Die(stage, s, id, body), n, m)
  {
    var a := Paid(s, id, body);
    EndsLogged(s.log, Rewarded(id, s.roster.enemies[id].reward));
    FallenMarked(s.roster, id, body);
    NoRepeatsMore(s.roster.removing, id);
    CheckEndsOnce(stage, a, n, m);
    OtherwiseOnce(WaveChecked(stage, a), Die(stage, s, id, body), n, m);
  }

  lemma OtherwiseOnce(s: State, t: State, n: nat, m: nat)
    requires EndedOnce(s, n, m) && t == s.(goldChange := t.goldChange)
    ensures EndedOnce(t, n, m)
  {
  }

  lemma ChangeEndsOnce(s: State, id: nat, body: Enemies.Body, n: nat, m: nat)
    requires id in s.roster.enemies && EndedOnce(s, n, m)
    ensures EndedOnce(Changed(s, id, body), n, m)
  {
    assert Live(Embodied(s.roster, id, body)) == Live(s.roster);
  }

  // Within a walk without double departures.
  ghost predicate PlainWalking(s: State, vs: seq<Visit>)
  {
    Walking(s, vs) && Counted(s.roster) && Single(vs)
  }

  lemma VisitKeepsPlain(stage: WaveManagers.Stage, s: State, vs: seq<Visit>)
    requires PlainWalking(s, vs) && vs != []
    ensures PlainWalking(Visited(stage, s, vs[0]), vs[1..])
  {
    var v := vs[0];
    VisitKeepsWalking(stage, s, vs);
    if v.id in s.roster.enemies && !Dead(s.roster.enemies[v.id]) {
      assert v in vs && v.id in Live(s.roster);
      VisitEffects(stage, s, v);
      NoRepeatsMore(s.roster.removing, v.id);
    }
  }

  lemma VisitEndsOnce(stage: WaveManagers.Stage, s: State, vs: seq<Visit>, n: nat, m: nat)
    requires PlainWalking(s, vs) && vs != [] && EndedOnce(s, n, m)
    ensures EndedOnce(Visited(stage, s, vs[0]), n, m)
  {
    var v := vs[0];
    if v.id in s.roster.enemies && !Dead(s.roster.enemies[v.id]) {
      assert v in vs && v.id in Live(s.roster);
      if v.after.health.dead {
        DieEndsOnce(stage, s, v.id, v.after, n, m);
      } else {
        ChangeEndsOnce(s, v.id, v.after, n, m);
        EmbodiedMarked(s.roster, v.id, v.after);
        if v.arrived { ArriveEndsOnce(stage, Changed(s, v.id, v.after), v.id, s.roster.enemies[v.id].power, n, m); }
      }
    }
  }

  lemma {:induction false} VisitsEndOnce(stage: WaveManagers.Stage, s: State, vs: seq<Visit>, n: nat, m: nat)
    requires PlainWalking(s, vs) && EndedOnce(s, n, m)
    ensures EndedOnce(VisitedAll(stage, s, vs), n, m)
    decreases |vs|
  {
    if vs != [] {
      VisitEndsOnce(stage, s, vs, n, m);
      VisitKeepsPlain(stage, s, vs);
      VisitsEndOnce(stage, Visited(stage, s, vs[0]), vs[1..], n, m);
    }
  }

  lemma DamageEndsOnce(stage: WaveManagers.Stage, s: State, id: nat, amount: int, n: nat, m: nat)
    requires Sound(s) && s.updating && id in s.roster.enemies && EndedOnce(s, n, m)
    ensures EndedOnce(Damaged(stage, s, id, amount), n, m)
  {
    var body := s.roster.enemies[id].body;
    var hurt := body.(health := Debuffs.TakeDamage(body.health, amount));
    if !body.health.dead {
      assert id in Live(s.roster);
      DieEndsOnce(stage, s, id, hurt, n, m);
      ChangeEndsOnce(s, id, hurt, n, m);
    }
  }

  lemma StrikeEndsOnce(stage: WaveManagers.Stage, s: State, h: Hit, n: nat, m: nat)
    requires Sound(s) && s.updating && EndedOnce(s, n, m)
    ensures EndedOnce(Struck(stage, s, h), n, m)
  {
    match h
    case Attack(event) => EndsLogged(s.log, Pushed(event));
    case Damage(id, amount) => if id in s.roster.enemies { DamageEndsOnce(stage, s, id, amount, n, m); }
    case Afflict(id, debuff) =>
      if id in s.roster.enemies { ChangeEndsOnce(s, id, Enemies.Afflicted(s.roster.enemies[id].body, debuff), n, m); }
    case KillBonus(gold) => EndsLogged(s.log, Bonus(gold));
    case _ =>
  }

  lemma {:induction false} StrikesEndOnce(stage: WaveManagers.Stage, s: State, hs: seq<Hit>, n: nat, m: nat)
    requires Sound(s) && s.updating && EndedOnce(s, n, m)
    ensures EndedOnce(StruckAll(stage, s, hs), n, m)
    decreases |hs|
  {
    if hs != [] {
      StrikeEndsOnce(stage, s, hs[0], n, m);
      StrikeKeepsSound(stage, s, hs[0]);
      StrikesEndOnce(stage, Struck(stage, s, hs[0]), hs[1..], n, m);
    }
  }

  // Nothing is spawned any more once spawning has finished.
  lemma SpawnEndsOnce(stage: WaveManagers.Stage, s: State, dt: real, turn: Turn, n: nat, m: nat)
    requires WaveManagers.InRange(stage, s.waves) && EndedOnce(s, n, m)
    ensures EndedOnce(WaveSpawned(stage, s, dt, turn), n, m)
  {
  }

  lemma WalkEndsOnce(w: World, s: State, dt: real, order: seq<nat>, n: nat, m: nat)
    requires Sound(s) && s.updating && NoRepeats(order) && EndedOnce(s, n, m)
    requires Single(Visits(w.sqrt, s.roster, order, dt))
    ensures EndedOnce(Removed(Walked(w, s, dt, order)), n, m)
  {
    SoundWalks(s, w.sqrt, order, dt);
    VisitsEndOnce(w.stage, s, Visits(w.sqrt, s.roster, order, dt), n, m);
    VisitsKeepMarked(w.stage, s, Visits(w.sqrt, s.roster, order, dt));
    PurgeKeepsLive(Walked(w, s, dt, order).roster);
  }

  lemma WavePartEndsOnce(w: World, s: State, dt: real, turn: Turn, n: nat, m: nat)
    requires Sound(s) && s.updating && WaveManagers.InRange(w.stage, s.waves) && NoRepeats(turn.order)
    requires s.phase == Wave && PlainTick(w, s, dt, turn) && EndedOnce(s, n, m)
    ensures EndedOnce(WavePart(w, s, dt, turn), n, m)
  {
    var spawned := WaveSpawned(w.stage, s, dt, turn);
    SpawnKeepsSound(w.stage, s, dt, turn);
    SpawnEndsOnce(w.stage, s, dt, turn, n, m);
    WalkEndsOnce(w, spawned, dt, turn.order, n, m);
    WalkKeepsSound(w, spawned, dt, turn.order);
    StrikesEndOnce(w.stage, Removed(Walked(w, spawned, dt, turn.order)), turn.minionHits, n, m);
  }

  lemma SyncEndsOnce(s: State, n: nat, m: nat)
    requires EndedOnce(s, n, m)
    ensures EndedOnce(Synced(s), n, m)
  {
    EndsLogged(s.log, Batch(s.attacks));
  }

  lemma FightingEndsOnce(w: World, s: State, dt: real, turn: Turn, n: nat, m: nat)
    requires Sound(s) && s.updating && WaveManagers.InRange(w.stage, s.waves) && NoRepeats(turn.order)
    requires PlainTick(w, s, dt, turn) && EndedOnce(s, n, m)
    ensures EndedOnce(Fought(w, s, dt, turn), n, m)
  {
    if s.phase == Wave {
      WavePartEndsOnce(w, s, dt, turn, n, m);
      WavePartKeepsSound(w, s, dt, turn);
    }
    var b := if s.phase == Wave then WavePart(w, s, dt, turn) else s;
    SyncEndsOnce(b, n, m);
    SyncKeepsSound(b);
    StrikesEndOnce(w.stage, Synced(b), turn.projectileHits, n, m);
  }

  lemma ResetEndsOnce(s: State, n: nat, m: nat)
    requires EndedOnce(s, n, m)
    ensures EndedOnce(ResetStage(s), n, m)
  {
    EndsLogged(s.log, Dropped(s.attacks));
    assert Live(ResetStage(s).roster) == {};
  }

  lemma LeaveEndsOnce(s: State, p: nat, n: nat, m: nat)
    requires EndedOnce(s, n, m)
    ensures EndedOnce(Left(s, p), n, m)
  {
    ResetEndsOnce(s.(players := s.players - {p}, ready := s.ready - {p}), n, m);
  }

  lemma SettledEndsOnce(s: State, n: nat, m: nat)
    requires EndedOnce(s, n, m)
    ensures EndedOnce(Settled(s), n, m)
  {
    ResetEndsOnce(s, n, m);
  }

  lemma UpdateEndsOnce(w: World, s: State, dt: real, turn: Turn, n: nat, m: nat)
    requires Sound(s) && WaveManagers.InRange(w.stage, s.waves) && NoRepeats(turn.order)
    requires PlainTick(w, s, dt, turn) && EndedOnce(s, n, m)
    ensures EndedOnce(Ticked(w, s, dt, turn), n, m)
  {
    SoundAlike(s, Begun(s, dt));
    PlainBegun(w, s, dt, turn);
    FightingEndsOnce(w, Begun(s, dt), dt, turn, n, m);
    SettledEndsOnce(Fought(w, Begun(s, dt), dt, turn), n, m);
  }

  lemma RequestEndsNothing(w: World, s: State, op: Op, n: nat, m: nat)
    requires Resting(w, s) && EndedOnce(s, n, m)
    requires !op.Update? && !op.Leave? && !op.RequestWave?
    ensures EndedOnce(Do(w, s, op), n, m)
  {
    RequestKeepsLog(w, s, op);
    RequestKeepsWaves(w, s, op);
  }

  lemma RequestKeepsWaves(w: World, s: State, op: Op)
    requires WaveManagers.InRange(w.stage, s.waves) && s.phase != EndStage
    requires !op.Update? && !op.Leave? && !op.RequestWave?
    ensures Do(w, s, op).waves == s.waves && Do(w, s, op).phase != EndStage
  {
  }

  lemma StepEndsOnce(w: World, s: State, op: Op, n: nat, m: nat)
    requires Resting(w, s) && Sound(s) && WalksOnce(op) && Plain(w, s, op) && !op.RequestWave? && EndedOnce(s, n, m)
    ensures EndedOnce(Do(w, s, op), n, m)
  {
    match op
    case Leave(p) => LeaveEndsOnce(s, p, n, m);
    case Update(commands, dt, turn) =>
      UpgradedPlain(w, s, op);
      UpdateEndsOnce(w, s.(board := UpgradedAll(s.board, commands)), dt, turn, n, m);
    case _ => RequestEndsNothing(w, s, op, n, m);
  }

  lemma {:induction false} RunEndsOnce(w: World, s: State, ops: seq<Op>, n: nat, m: nat)
    requires Resting(w, s) && Sound(s) && EndedOnce(s, n, m) && PlainRun(w, s, ops)
    requires forall op | op in ops :: WalksOnce(op) && !op.RequestWave?
    ensures EndedOnce(DoAll(w, s, ops), n, m)
    decreases |ops|
  {
    if ops != [] {
      StepRests(w, s, ops[0]);
      StepKeepsSound(w, s, ops[0]);
      StepEndsOnce(w, s, ops[0], n, m);
      RunEndsOnce(w, Do(w, s, ops[0]), ops[1..], n, m);
    }
  }

  /** After any run, however long a room goes on without an enemy firing both callbacks: until the next wave
      is requested the wave ends at most once and the stage ends at most once, and if the wave has ended,
      spawning is finished and no enemy is live. */
  lemma EndsAtMostOnce(w: World, before: seq<Op>, ops: seq<Op>)
    requires forall op | op in before :: WalksOnce(op)
    requires forall op | op in ops :: WalksOnce(op) && !op.RequestWave?
    requires PlainRun(w, Run(w, before), ops)
    ensures var s := Run(w, before);
            EndedOnce(DoAll(w, s, ops), Ends(s.log), StageEnds(s.log))
  {
    NewRoomRests(w);
    NewRoomSound();
    RunKeepsSound(w, NewRoom, before);
    var s := Run(w, before);
    RunEndsOnce(w, s, ops, Ends(s.log), StageEnds(s.log));
  }
}
