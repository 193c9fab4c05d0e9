/** The life cycle of a room over every run: what requests and updates leave as it should be. */
module RoomLaws {
  import opened Wire
  import opened EnemyManagers
  import opened RoomStates
  import Boards
  import Debuffs
  import Enemies
  import WaveManagers

  // -------- The life cycle --------

  function StageEnds(log: seq<Notice>): nat
  {
    if log == [] then 0
    else StageEnds(log[..|log| - 1]) + (if log[|log| - 1].StageEnd? then 1 else 0)
  }

  lemma StageEndsLogged(log: seq<Notice>, n: Notice)
    ensures StageEnds(log + [n]) == StageEnds(log) + (if n.StageEnd? then 1 else 0)
  {
    assert (log + [n])[..|log|] == log;
  }

  // Nothing is on the board of a room that waits for players.
  ghost predicate QuietWhileWaiting(s: State)
  {
    s.phase == WaitingForPlayers ==>
      && s.roster.enemies == map[] && s.board.minions == map[] && s.shots.flying == {}
      && s.waves == WaveManagers.Fresh
  }

  /** What holds between requests and updates. */
  ghost predicate Resting(w: World, s: State)
  {
    && s.phase != EndStage && !s.pending && !s.updating && s.hp > 0
    && |s.players| <= 2 && s.ready.Keys == s.players
    && WaveManagers.InRange(w.stage, s.waves) && Boards.IndexExact(w.catalog, s.board)
    && QuietWhileWaiting(s)
  }

  // Within an update: a stage that has ended is always waiting for its cleanup. `ends` counts the stage ends
  // announced before the update.
  ghost predicate Going(stage: WaveManagers.Stage, s: State, ends: nat)
  {
    && s.updating && WaveManagers.InRange(stage, s.waves) && QuietWhileWaiting(s)
    && (s.phase == EndStage ==> s.pending)
    && ends <= StageEnds(s.log) && (s.pending <==> ends < StageEnds(s.log))
  }

  ghost predicate Busy(stage: WaveManagers.Stage, s: State, ends: nat)
  {
    Going(stage, s, ends) && (s.hp <= 0 ==> s.pending)
  }

  // What the fighting never touches.
  ghost predicate Apart(s: State, t: State)
  {
    && t.players == s.players && t.ready == s.ready && t.game == s.game && t.board == s.board
    && t.updating == s.updating
  }

  lemma EndKeepsGoing(stage: WaveManagers.Stage, s: State, success: bool, ends: nat)
    requires Going(stage, s, ends)
    ensures var t := StageEnded(s, success);
            && Going(stage, t, ends) && Apart(s, t) && t.hp == s.hp && t.pending && t.phase == EndStage
  {
    StageEndsLogged(s.log, StageEnd(success));
  }

  lemma CheckKeepsGoing(stage: WaveManagers.Stage, s: State, ends: nat)
    requires Going(stage, s, ends)
    ensures var t := WaveChecked(stage, s);
            && Going(stage, t, ends) && Apart(s, t) && t.hp == s.hp && (s.pending ==> t.pending)
            && (s.phase != WaitingForPlayers ==> t.phase != WaitingForPlayers)
  {
    EndKeepsGoing(stage, s, true, ends);
    StageEndsLogged(s.log, WaveEnd);
  }

  lemma WallHitKeepsGoing(stage: WaveManagers.Stage, s: State, id: nat, power: int, ends: nat)
    requires Busy(stage, s, ends) && s.phase != WaitingForPlayers
    ensures var a := WallHit(s, id, power); Going(stage, a, ends) && Apart(s, a) && a.phase != WaitingForPlayers
  {
    StageEndsLogged(s.log, Arrived(id, s.hp - power));
  }

  lemma ArriveKeepsBusy(stage: WaveManagers.Stage, s: State, id: nat, power: int, ends: nat)
    requires Busy(stage, s, ends) && s.phase != WaitingForPlayers
    ensures var t := Arrive(stage, s, id, power); Busy(stage, t, ends) && Apart(s, t)
  {
    var a := WallHit(s, id, power);
    WallHitKeepsGoing(stage, s, id, power, ends);
    if a.hp <= 0 { EndKeepsGoing(stage, a, false, ends); } else { CheckKeepsGoing(stage, a, ends); }
  }

  lemma PaidKeepsBusy(stage: WaveManagers.Stage, s: State, id: nat, body: Enemies.Body, ends: nat)
    requires Busy(stage, s, ends) && id in s.roster.enemies
    ensures var a := Paid(s, id, body); Busy(stage, a, ends) && Apart(s, a) && a.phase != WaitingForPlayers
  {
    StageEndsLogged(s.log, Rewarded(id, s.roster.enemies[id].reward));
  }

  lemma DieKeepsBusy(stage: WaveManagers.Stage, s: State, id: nat, body: Enemies.Body, ends: nat)
    requires Busy(stage, s, ends) && id in s.roster.enemies
    ensures var t := Die(stage, s, id, body); Busy(stage, t, ends) && Apart(s, t) && t.phase != WaitingForPlayers
  {
    PaidKeepsBusy(stage, s, id, body, ends);
    CheckKeepsGoing(stage, Paid(s, id, body), ends);
    OtherwiseBusy(stage, WaveChecked(stage, Paid(s, id, body)), Die(stage, s, id, body), ends);
  }

  lemma ChangeKeepsBusy(stage: WaveManagers.Stage, s: State, id: nat, body: Enemies.Body, ends: nat)
    requires Busy(stage, s, ends) && id in s.roster.enemies
    ensures var t := Changed(s, id, body); Busy(stage, t, ends) && Apart(s, t) && t.phase != WaitingForPlayers
  {
  }

  // The rest of the state does not matter to being busy.
  lemma OtherwiseBusy(stage: WaveManagers.Stage, s: State, t: State, ends: nat)
    requires Busy(stage, s, ends)
    requires t == s.(sync := t.sync, attacks := t.attacks, goldChange := t.goldChange)
    ensures Busy(stage, t, ends)
  {
  }

  lemma VisitKeepsBusy(stage: WaveManagers.Stage, s: State, v: Visit, ends: nat)
    requires Busy(stage, s, ends)
    ensures var t := Visited(stage, s, v); Busy(stage, t, ends) && Apart(s, t)
  {
    if v.id in s.roster.enemies && !Dead(s.roster.enemies[v.id]) {
      var power := s.roster.enemies[v.id].power;
      DieKeepsBusy(stage, s, v.id, v.after, ends);
      ChangeKeepsBusy(stage, s, v.id, v.after, ends);
      ArriveKeepsBusy(stage, Die(stage, s, v.id, v.after), v.id, power, ends);
      ArriveKeepsBusy(stage, Changed(s, v.id, v.after), v.id, power, ends);
    }
  }

  lemma {:induction false} VisitsKeepBusy(stage: WaveManagers.Stage, s: State, vs: seq<Visit>, ends: nat)
    requires Busy(stage, s, ends)
    ensures var t := VisitedAll(stage, s, vs); Busy(stage, t, ends) && Apart(s, t)
    decreases |vs|
  {
    if vs != [] {
      VisitKeepsBusy(stage, s, vs[0], ends);
      VisitsKeepBusy(stage, Visited(stage, s, vs[0]), vs[1..], ends);
    }
  }

  // Within a phase that has something in play: launching is not for a room that waits.
  lemma StrikeKeepsBusy(stage: WaveManagers.Stage, s: State, h: Hit, ends: nat)
    requires Busy(stage, s, ends) && s.phase != WaitingForPlayers
    ensures var t := Struck(stage, s, h); Busy(stage, t, ends) && Apart(s, t) && t.phase != WaitingForPlayers
  {
    match h
    case Attack(event) => StageEndsLogged(s.log, Pushed(event));
    case Damage(id, amount) => if id in s.roster.enemies { DamageKeepsBusy(stage, s, id, amount, ends); }
    case KillBonus(gold) => StageEndsLogged(s.log, Bonus(gold));
    case _ =>
  }

  lemma DamageKeepsBusy(stage: WaveManagers.Stage, s: State, id: nat, amount: int, ends: nat)
    requires Busy(stage, s, ends) && id in s.roster.enemies
    ensures var t := Damaged(stage, s, id, amount); Busy(stage, t, ends) && Apart(s, t) && t.phase != WaitingForPlayers
  {
    var body := s.roster.enemies[id].body;
    var hurt := body.(health := Debuffs.TakeDamage(body.health, amount));
    DieKeepsBusy(stage, s, id, hurt, ends);
    ChangeKeepsBusy(stage, s, id, hurt, ends);
  }

  lemma {:induction false} StrikesKeepBusy(stage: WaveManagers.Stage, s: State, hs: seq<Hit>, ends: nat)
    requires Busy(stage, s, ends) && s.phase != WaitingForPlayers
    ensures var t := StruckAll(stage, s, hs); Busy(stage, t, ends) && Apart(s, t)
    decreases |hs|
  {
    if hs != [] {
      StrikeKeepsBusy(stage, s, hs[0], ends);
      StrikesKeepBusy(stage, Struck(stage, s, hs[0]), hs[1..], ends);
    }
  }

  lemma RemoveKeepsBusy(stage: WaveManagers.Stage, s: State, ends: nat)
    requires Busy(stage, s, ends)
    ensures Busy(stage, Removed(s), ends) && Apart(s, Removed(s)) && Removed(s).phase == s.phase
  {
    assert s.roster.enemies == map[] ==> Purged(s.roster).enemies == map[];
  }

  lemma SpawnKeepsBusy(stage: WaveManagers.Stage, s: State, dt: real, turn: Turn, ends: nat)
    requires Busy(stage, s, ends) && s.phase == Wave
    ensures var t := WaveSpawned(stage, s, dt, turn); Busy(stage, t, ends) && Apart(s, t) && t.phase == Wave
  {
    WaveManagers.UpdateStaysInRange(stage, s.waves, dt, turn.path != [] && turn.data.Some?);
  }

  lemma WavePartKeepsBusy(w: World, s: State, dt: real, turn: Turn, ends: nat)
    requires Busy(w.stage, s, ends) && s.phase == Wave
    ensures var t := WavePart(w, s, dt, turn); Busy(w.stage, t, ends) && Apart(s, t)
  {
    var spawned := WaveSpawned(w.stage, s, dt, turn);
    SpawnKeepsBusy(w.stage, s, dt, turn, ends);
    VisitsKeepBusy(w.stage, spawned, Visits(w.sqrt, spawned.roster, turn.order, dt), ends);
    var walked := Walked(w, spawned, dt, turn.order);
    RemoveKeepsBusy(w.stage, walked, ends);
    if walked.phase == Wave { StrikesKeepBusy(w.stage, Removed(walked), turn.minionHits, ends); }
  }

  lemma SyncKeepsBusy(stage: WaveManagers.Stage, s: State, ends: nat)
    requires Busy(stage, s, ends)
    ensures Busy(stage, Synced(s), ends) && Apart(s, Synced(s))
  {
    OtherwiseBusy(stage, s, Quieted(s), ends);
    BatchKeepsBusy(stage, Quieted(s), s.attacks, ends);
  }

  lemma BatchKeepsBusy(stage: WaveManagers.Stage, s: State, events: seq<AttackEvent>, ends: nat)
    requires Busy(stage, s, ends)
    ensures var t := Logged(s, Batch(events)); Busy(stage, t, ends) && Apart(s, t)
  {
    StageEndsLogged(s.log, Batch(events));
  }

  // A stage as it is before its first wave.
  ghost predicate Reset(s: State)
  {
    && s.phase == WaitingForPlayers && s.hp == WALL_HP && s.ready == AllFalse(s.ready)
    && s.board.minions == map[] && s.board.tiles == map[] && s.shots.flying == {}
    && s.roster.enemies == map[] && s.roster.removing == [] && s.waves == WaveManagers.Fresh
    && s.attacks == [] && s.sync == 0.0 && !s.pending && !s.updating && !s.goldChange
  }

  lemma ResetIsReset(s: State)
    ensures var t := ResetStage(s).(pending := false, updating := false);
            Reset(t) && StageEnds(t.log) == StageEnds(s.log) && t.players == s.players && t.ready.Keys == s.ready.Keys
  {
    StageEndsLogged(s.log, Dropped(s.attacks));
    assert AllFalse(AllFalse(s.ready)) == AllFalse(s.ready);
  }

  lemma FlightKeepsBusy(stage: WaveManagers.Stage, s: State, hs: seq<Hit>, ends: nat)
    requires Busy(stage, s, ends)
    ensures var t := Flown(stage, s, hs); Busy(stage, t, ends) && Apart(s, t)
  {
    if s.shots.flying != {} { StrikesKeepBusy(stage, s, hs, ends); }
  }

  lemma FightingKeepsBusy(w: World, s: State, dt: real, turn: Turn, ends: nat)
    requires Busy(w.stage, s, ends)
    ensures var t := Fought(w, s, dt, turn); Busy(w.stage, t, ends) && Apart(s, t)
  {
    if s.phase == Wave { WavePartKeepsBusy(w, s, dt, turn, ends); }
    var b := if s.phase == Wave then WavePart(w, s, dt, turn) else s;
    SyncKeepsBusy(w.stage, b, ends);
    FlightKeepsBusy(w.stage, Synced(b), turn.projectileHits, ends);
  }

  // How an update leaves the room, from s to t.
  ghost predicate LeftAtRest(w: World, s: State, t: State)
  {
    && Resting(w, t) && t.players == s.players && t.game == s.game
    && (StageEnds(s.log) < StageEnds(t.log) ==> Reset(t))
    && (StageEnds(s.log) >= StageEnds(t.log) ==> t.ready == s.ready && t.board == s.board)
  }

  lemma SettledRests(w: World, s: State, d: State)
    requires Resting(w, s) && Busy(w.stage, d, StageEnds(s.log))
    requires d.players == s.players && d.ready == s.ready && d.game == s.game && d.board == s.board
    ensures LeftAtRest(w, s, Settled(d))
  {
    if d.pending { ResetIsReset(d); }
  }

  lemma StartIsBusy(w: World, s: State, dt: real)
    requires Resting(w, s)
    ensures Busy(w.stage, Begun(s, dt), StageEnds(s.log))
    ensures var a := Begun(s, dt); a.players == s.players && a.ready == s.ready && a.game == s.game && a.board == s.board
  {
  }

  lemma UpdateFights(w: World, s: State, dt: real, turn: Turn) returns (d: State)
    requires Resting(w, s)
    ensures Busy(w.stage, d, StageEnds(s.log)) && Ticked(w, s, dt, turn) == Settled(d)
    ensures d.players == s.players && d.ready == s.ready && d.game == s.game && d.board == s.board
  {
    StartIsBusy(w, s, dt);
    FightingKeepsBusy(w, Begun(s, dt), dt, turn, StageEnds(s.log));
    d := Fought(w, Begun(s, dt), dt, turn);
  }

  /** An update always leaves the room at rest. If the stage ended in it, the room is as good as new, its
      players still there; otherwise the fighting has left players, ready marks and minions alone. */
  lemma UpdateRests(w: World, s: State, dt: real, turn: Turn)
    requires Resting(w, s)
    ensures LeftAtRest(w, s, Ticked(w, s, dt, turn))
  {
    var d := UpdateFights(w, s, dt, turn);
    SettledRests(w, s, d);
  }

  lemma {:induction false} UpgradesKeepIndex(c: Boards.Catalog, b: Boards.Board, rs: seq<Request>)
    requires Boards.IndexExact(c, b)
    ensures Boards.IndexExact(c, UpgradedAll(b, rs))
    ensures b.minions == map[] ==> UpgradedAll(b, rs).minions == map[]
    decreases |rs|
  {
    if rs != [] {
      var last, before := rs[|rs| - 1], UpgradedAll(b, rs[..|rs| - 1]);
      UpgradesKeepIndex(c, b, rs[..|rs| - 1]);
      Boards.UpgradeKeepsIndex(c, before, last.owner, last.gold, last.id, last.upgrade);
    }
  }

  lemma EnterRests(w: World, s: State, p: nat)
    requires Resting(w, s)
    ensures Resting(w, Entered(s, p))
  {
  }

  lemma LeaveRests(w: World, s: State, p: nat)
    requires Resting(w, s)
    ensures Resting(w, Left(s, p))
  {
    if p in s.players { assert |s.players - {p}| <= |s.players|; }
  }

  lemma BoardRests(w: World, s: State, board: Boards.Board)
    requires Resting(w, s) && Boards.IndexExact(w.catalog, board)
    requires s.phase == WaitingForPlayers ==> board.minions == map[]
    ensures Resting(w, s.(board := board))
  {
  }

  lemma BuyRests(w: World, s: State, p: nat, gold: int, kind: uint32, x: int, y: int)
    requires Resting(w, s)
    ensures Resting(w, s.(board := Boards.Spawned(w.catalog, s.board, s.phase == Intermission, p, gold, kind, x, y).board))
  {
    var o := Boards.Spawned(w.catalog, s.board, s.phase == Intermission, p, gold, kind, x, y);
    if o.code == Boards.NoError { Boards.SpawnKeepsIndex(w.catalog, s.board, p, kind, x, y); }
    BoardRests(w, s, o.board);
  }

  lemma RelocateRests(w: World, s: State, p: nat, id: nat, x: int, y: int)
    requires Resting(w, s)
    ensures Resting(w, s.(board := Boards.Relocated(w.catalog, s.board, s.phase == Intermission, id, p, x, y).1))
  {
    Boards.RelocateKeepsIndex(w.catalog, s.board, s.phase == Intermission, id, p, x, y);
    BoardRests(w, s, Boards.Relocated(w.catalog, s.board, s.phase == Intermission, id, p, x, y).1);
  }

  lemma SellRests(w: World, s: State, p: nat, gold: int, id: nat)
    requires Resting(w, s)
    ensures Resting(w, s.(board := Boards.Sold(s.board, p, gold, id).board))
  {
    Boards.ReturnKeepsIndex(w.catalog, s.board, id);
    BoardRests(w, s, Boards.Sold(s.board, p, gold, id).board);
  }

  lemma UpgradesRest(w: World, s: State, commands: seq<Request>)
    requires Resting(w, s)
    ensures Resting(w, s.(board := UpgradedAll(s.board, commands)))
  {
    UpgradesKeepIndex(w.catalog, s.board, commands);
    BoardRests(w, s, UpgradedAll(s.board, commands));
  }

  /** Every request, and every update, keeps the room at rest. */
  lemma StepRests(w: World, s: State, op: Op)
    requires Resting(w, s)
    ensures Resting(w, Do(w, s, op))
  {
    match op
    case Enter(p) => EnterRests(w, s, p);
    case Leave(p) => LeaveRests(w, s, p);
    case LoadScene(p) =>
    case RequestWave(p) => WaveManagers.UpdateStaysInRange(w.stage, s.waves, 0.0, true);
    case Buy(p, gold, kind, x, y) => BuyRests(w, s, p, gold, kind, x, y);
    case Relocate(p, id, x, y) => RelocateRests(w, s, p, id, x, y);
    case Sell(p, gold, id) => SellRests(w, s, p, gold, id);
    case Update(commands, dt, turn) =>
      UpgradesRest(w, s, commands);
      UpdateRests(w, s.(board := UpgradedAll(s.board, commands)), dt, turn);
  }

  // The room has done exactly this operation, and if it was at rest it is at rest again.
  ghost predicate Did(w: World, before: State, op: Op, after: State)
    requires WaveManagers.InRange(w.stage, before.waves)
  {
    after == Do(w, before, op) && (Resting(w, before) ==> Resting(w, after))
  }

  lemma DidIt(w: World, before: State, op: Op, after: State)
    requires WaveManagers.InRange(w.stage, before.waves) && after == Do(w, before, op)
    ensures Did(w, before, op, after)
  {
    if Resting(w, before) { StepRests(w, before, op); }
  }

  /** A new room is at rest, whatever its stage and its data. */
  lemma NewRoomRests(w: World)
    ensures Resting(w, NewRoom)
  {
  }

  // The state after a run from s.
  function DoAll(w: World, s: State, ops: seq<Op>): (t: State)
    requires Resting(w, s)
    ensures Resting(w, t)
    decreases |ops|
  {
    if ops == [] then s
    else
      StepRests(w, s, ops[0]);
      DoAll(w, Do(w, s, ops[0]), ops[1..])
  }

  /** So every run of a new room leaves it at rest. */
  function Run(w: World, ops: seq<Op>): (t: State)
    ensures Resting(w, t)
  {
    NewRoomRests(w);
    DoAll(w, NewRoom, ops)
  }
}
