/** Room: the object whose methods the requests and the tick call. */
module Rooms {
  import opened Wire
  import opened RoomStates
  import opened RoomLedger
  import AttackBatch
  import Boards
  import Debuffs
  import Enemies
  import EnemyManagers
  import RoomLaws
  import RoomWalks
  import WaveManagers

  // An upgrade queued by its handler.
  datatype Command = Command(player: Boards.Player, id: nat, upgrade: int)

  predicate IsFor(r: Request, command: Command)
  {
    r.owner == command.player.m_id && r.id == command.id && r.upgrade == command.upgrade
  }

  // Each request is for its command, in order.
  predicate AreFor(rs: seq<Request>, commands: seq<Command>)
  {
    |rs| <= |commands| && forall i :: 0 <= i < |rs| ==> IsFor(rs[i], commands[i])
  }

  lemma AreForMore(rs: seq<Request>, commands: seq<Command>, r: Request)
    requires AreFor(rs, commands) && |rs| < |commands| && IsFor(r, commands[|rs|])
    ensures AreFor(rs + [r], commands)
  {
  }

  lemma UpdateIs(w: World, s: State, board: Boards.Board, requests: seq<Request>, dt: real, turn: Turn)
    requires WaveManagers.InRange(w.stage, s.waves) && board == UpgradedAll(s.board, requests)
    ensures Do(w, s, Update(requests, dt, turn)) == Ticked(w, s.(board := board), dt, turn)
    ensures WaveSpawned(w.stage, Begun(s.(board := board), dt), dt, turn).roster
         == WaveSpawned(w.stage, Begun(s, dt), dt, turn).roster
  {
  }

  // Each request comes with what was left of its player's gold by then.
  ghost predicate Afford(b: Boards.Board, rs: seq<Request>, commands: seq<Command>, had: map<Boards.Player, int>)
    requires |rs| <= |commands|
  {
    forall i :: 0 <= i < |rs| ==> Affords(b, rs, i, commands[i].player, had)
  }

  ghost predicate Affords(b: Boards.Board, rs: seq<Request>, i: nat, player: Boards.Player, had: map<Boards.Player, int>)
    requires i < |rs|
  {
    player in had && rs[i].gold == had[player] - Spent(b, rs[..i], rs[i].owner)
  }

  lemma AffordMore(b: Boards.Board, rs: seq<Request>, r: Request, commands: seq<Command>, had: map<Boards.Player, int>)
    requires |rs| < |commands| && Afford(b, rs, commands, had)
    requires commands[|rs|].player in had && r.gold == had[commands[|rs|].player] - Spent(b, rs, r.owner)
    ensures Afford(b, rs + [r], commands, had)
  {
    var all := rs + [r];
    assert all[..|rs|] == rs;
    forall i | 0 <= i < |all| ensures Affords(b, all, i, commands[i].player, had) {
      if i < |rs| {
        assert Affords(b, rs, i, commands[i].player, had) && all[..i] == rs[..i];
      }
    }
  }

  // The enemy, already dead, is about to be removed, and its reward paid.
  ghost function Departed(s: State, enemyId: nat, reward: int): State
  {
    Logged(s.(roster := EnemyManagers.Leaving(s.roster, enemyId), goldChange := true), Rewarded(enemyId, reward))
  }

  // The gold is broadcast at the end of the handler anyway.
  function Told(s: State): State
  {
    s.(goldChange := false)
  }

  lemma EndIgnoresGoldChange(s: State, t: State, success: bool)
    requires Told(s) == Told(t)
    ensures Told(StageEnded(s, success)) == Told(StageEnded(t, success))
  {
  }

  lemma CheckIgnoresGoldChange(stage: WaveManagers.Stage, s: State, t: State)
    requires Told(s) == Told(t)
    ensures Told(WaveChecked(stage, s)) == Told(WaveChecked(stage, t))
  {
    if s.waves.finished && EnemyManagers.AliveCount(s.roster) <= 0 {
      EndIgnoresGoldChange(s, t, true);
    }
  }

  // One visit more, at the end of the walk.
  lemma {:induction false} VisitedMore(stage: WaveManagers.Stage, s: State, vs: seq<Visit>, v: Visit)
    ensures VisitedAll(stage, s, vs + [v]) == Visited(stage, VisitedAll(stage, s, vs), v)
    decreases |vs|
  {
    if vs == [] {
      assert vs + [v] == [v] && [v][1..] == [];
    } else {
      assert (vs + [v])[0] == vs[0] && (vs + [v])[1..] == vs[1..] + [v];
      VisitedMore(stage, Visited(stage, s, vs[0]), vs[1..], v);
    }
  }

  // Those visited are those no longer to be visited.
  ghost predicate HaveVisited(order: seq<nat>, all: set<nat>, ids: set<nat>)
  {
    ids <= all && EnemyManagers.NoRepeats(order) && EnemyManagers.Elements(order) == all - ids
  }

  lemma OneMore(order: seq<nat>, all: set<nat>, ids: set<nat>, id: nat)
    requires HaveVisited(order, all, ids) && id in ids
    ensures HaveVisited(order + [id], all, ids - {id})
  {
    assert EnemyManagers.Elements(order + [id]) == EnemyManagers.Elements(order) + {id};
    assert id !in EnemyManagers.Elements(order);
  }

  lemma WalkedMore(w: World, s: State, dt: real, order: seq<nat>, id: nat)
    ensures Walked(w, s, dt, order + [id])
         == Visited(w.stage, Walked(w, s, dt, order), VisitOf(w.sqrt, s.roster, id, dt))
  {
    var vs, v := Visits(w.sqrt, s.roster, order, dt), VisitOf(w.sqrt, s.roster, id, dt);
    assert Visits(w.sqrt, s.roster, order + [id], dt) == vs + [v];
    VisitedMore(w.stage, s, vs, v);
  }

  // ProjectileManager: the ids of the projectiles in flight.
  class ProjectileManager {
    var m_nextInstanceId: nat
    var m_projectiles: set<nat>

    function State(): Shots
      reads this
    {
      Shots(m_projectiles, m_nextInstanceId)
    }

    constructor ()
      ensures State() == Shots({}, 1)
    {
      m_nextInstanceId, m_projectiles := 1, {};
    }

    method SpawnProjectile()
      modifies this
      ensures State() == Shots(old(m_projectiles) + {old(m_nextInstanceId)}, old(m_nextInstanceId) + 1)
    {
      m_projectiles := m_projectiles + {m_nextInstanceId};
      m_nextInstanceId := m_nextInstanceId + 1;
    }

    method RemoveProjectile(id: nat)
      modifies this`m_projectiles
      ensures State() == old(State()).(flying := old(m_projectiles) - {id})
    {
      m_projectiles := m_projectiles - {id};
    }

    method Clear()
      modifies this`m_projectiles
      ensures State() == old(State()).(flying := {})
    {
      m_projectiles := {};
    }
  }

  class Room {
    const world: World
    const m_enemyManager: EnemyManagers.EnemyManager
    const m_minionManager: Boards.MinionManager
    const m_waveManager: WaveManagers.WaveManager
    const m_projectileManager: ProjectileManager

    var m_players: map<nat, Boards.Player>
    var m_playerReady: map<nat, bool>
    var m_game: bool
    var m_occupiedTiles: map<Boards.Tile, nat>
    var m_gameState: GameState
    var m_hp: int
    var m_syncTimer: real
    var m_isUpdating: bool
    var m_stageCleanupPending: bool
    var m_attackQueue: seq<AttackEvent>
    var m_goldChange: bool
    var m_commandQueue: seq<Command>
    ghost var log: seq<Notice>

    ghost predicate Valid()
      reads this, m_waveManager
    {
      && m_waveManager.stage == world.stage
      && WaveManagers.InRange(world.stage, m_waveManager.State())
      && forall id | id in m_players :: m_players[id].m_id == id
    }

    // The room and its managers.
    ghost function Repr(): set<object>
    {
      {this, m_enemyManager, m_minionManager, m_waveManager, m_projectileManager}
    }

    ghost function Board(): Boards.Board
      reads this, m_minionManager
    {
      Boards.Board(m_minionManager.m_minions, m_minionManager.m_nextInstanceId, m_occupiedTiles)
    }

    ghost function State(): State
      reads Repr()
    {
      RoomStates.State(
        m_gameState, m_hp, m_players.Keys, m_playerReady, m_game,
        Board(), m_enemyManager.State(), m_waveManager.State(), m_projectileManager.State(),
        m_syncTimer, m_isUpdating, m_stageCleanupPending, m_attackQueue, m_goldChange, log)
    }

    // The same players and the same commands waiting, and nobody given or charged what the log does not tell.
    twostate predicate Kept()
      reads this, m_players.Values
    {
      && m_players == old(m_players) && m_commandQueue == old(m_commandQueue)
      && forall id | id in m_players ::
           m_players[id].m_gold - Earned(log) == old(m_players[id].m_gold) - old(Earned(log))
    }

    // Every player's gold.
    ghost function Purses(): map<nat, int>
      reads this, m_players.Values
    {
      map id | id in m_players :: m_players[id].m_gold
    }

    constructor (world: World)
      ensures this.world == world && fresh(Repr())
      ensures Valid() && State() == NewRoom && m_commandQueue == []
    {
      this.world := world;
      m_enemyManager := new EnemyManagers.EnemyManager();
      m_minionManager := new Boards.MinionManager();
      m_waveManager := new WaveManagers.WaveManager(world.stage);
      m_projectileManager := new ProjectileManager();
      m_players, m_playerReady, m_game, m_occupiedTiles := map[], map[], false, map[];
      m_gameState, m_hp, m_syncTimer := WaitingForPlayers, WALL_HP, 0.0;
      m_isUpdating, m_stageCleanupPending, m_goldChange := false, false, false;
      m_attackQueue, m_commandQueue, log := [], [], [];
    }

    // -------- The stage --------

    // What the room does is noted, for the specification only.
    ghost method Note(n: Notice)
      requires Valid()
      modifies this`log
      ensures Valid() && State() == Logged(old(State()), n) && Earned(log) == old(Earned(log)) + GoldOf(n)
    {
      EarnedLogged(log, n);
      log := log + [n];
    }

    method ClearBoard()
      requires Valid()
      modifies m_minionManager, this`m_occupiedTiles
      ensures Valid() && State() == old(State()).(board := Boards.Cleared(old(State()).board))
    {
      m_minionManager.Clear();
      m_occupiedTiles := map[];
    }

    method ClearEnemies()
      requires Valid()
      modifies m_enemyManager
      ensures Valid()
      ensures State() == old(State()).(roster := EnemyManagers.Nobody.(nextId := old(State()).roster.nextId))
    {
      m_enemyManager.Clear();
    }

    method ClearWaves()
      requires Valid()
      modifies m_waveManager
      ensures Valid() && State() == old(State()).(waves := WaveManagers.Fresh)
    {
      m_waveManager.Reset();
    }

    method ClearProjectiles()
      requires Valid()
      modifies m_projectileManager
      ensures Valid() && State() == old(State()).(shots := old(State()).shots.(flying := {}))
    {
      m_projectileManager.Clear();
    }

    method DropAttacks()
      requires Valid()
      modifies this`m_attackQueue, this`log
      ensures Valid() && State() == Logged(old(State()).(attacks := []), Dropped(old(m_attackQueue)))
      ensures Earned(log) == old(Earned(log))
    {
      Note(Dropped(m_attackQueue));
      m_attackQueue := [];
    }

    method WaitForPlayers()
      requires Valid()
      modifies this`m_playerReady, this`m_gameState, this`m_hp, this`m_syncTimer, this`m_goldChange
      ensures Valid()
      ensures State() == old(State()).(ready := AllFalse(old(m_playerReady)), hp := WALL_HP, phase := WaitingForPlayers,
                                       sync := 0.0, goldChange := false)
    {
      m_playerReady := AllFalse(m_playerReady);
      m_hp, m_gameState, m_syncTimer, m_goldChange := WALL_HP, WaitingForPlayers, 0.0, false;
    }

    method ClearManagers()
      requires Valid()
      modifies m_enemyManager, m_minionManager, m_projectileManager, m_waveManager, this`m_occupiedTiles
      ensures Valid()
      ensures var s := old(State());
              State() == s.(roster := EnemyManagers.Nobody.(nextId := s.roster.nextId), board := Boards.Cleared(s.board),
                            shots := s.shots.(flying := {}), waves := WaveManagers.Fresh)
    {
      ClearEnemies();
      ClearBoard();
      ClearProjectiles();
      ClearWaves();
    }

    method ResetStageState()
      requires Valid()
      modifies Repr()
      ensures Valid() && Kept() && State() == ResetStage(old(State()))
    {
      ClearManagers();
      WaitForPlayers();
      DropAttacks();
    }

    method AnnounceEnd(success: bool)
      requires Valid()
      modifies this`m_gameState, this`log
      ensures Valid() && State() == Logged(old(State()).(phase := GameState.EndStage), StageEnd(success))
      ensures Earned(log) == old(Earned(log))
    {
      m_gameState := GameState.EndStage;
      Note(StageEnd(success));
    }

    method EndStage(success: bool)
      requires Valid()
      modifies Repr()
      ensures Valid() && Kept() && State() == StageEnded(old(State()), success)
    {
      if m_gameState == GameState.EndStage {
        return;
      }
      AnnounceEnd(success);
      if m_isUpdating {
        m_stageCleanupPending := true;
      } else {
        ResetStageState();
      }
    }

    method CheckEndWave()
      requires Valid()
      modifies Repr()
      ensures Valid() && Kept() && State() == WaveChecked(world.stage, old(State()))
    {
      var alive := m_enemyManager.GetAliveEnemyCount();
      if m_waveManager.m_spawnFinished && alive <= 0 {
        if |world.stage| <= m_waveManager.m_currentWave {
          EndStage(true);
        } else {
          m_gameState := Intermission;
          Note(WaveEnd);
        }
      }
    }

    method RemoveEnemy(enemyId: nat)
      requires Valid()
      modifies m_enemyManager
      ensures Valid() && State() == old(State()).(roster := EnemyManagers.Leaving(old(State()).roster, enemyId))
    {
      m_enemyManager.RemoveEnemy(enemyId);
    }

    method HitWall(enemyId: nat, power: int)
      requires Valid()
      modifies this`m_hp, this`log, m_enemyManager
      ensures Valid() && State() == WallHit(old(State()), enemyId, power)
      ensures Earned(log) == old(Earned(log))
    {
      m_hp := m_hp - power;
      Note(Arrived(enemyId, m_hp));
      RemoveEnemy(enemyId);
    }

    method ArrivalEnemyHandle(enemyId: nat, power: int)
      requires Valid()
      modifies Repr()
      ensures Valid() && Kept() && State() == Arrive(world.stage, old(State()), enemyId, power)
    {
      HitWall(enemyId, power);
      if m_hp <= 0 {
        EndStage(false);
      } else {
        CheckEndWave();
      }
    }

    // Every player in the room is paid, once.
    method PayAll(amount: int)
      requires Valid()
      modifies m_players.Values
      ensures forall id | id in m_players :: m_players[id].m_gold == old(m_players[id].m_gold) + amount
    {
      var players := m_players.Keys;
      while players != {}
        invariant players <= m_players.Keys
        invariant forall id | id in players :: m_players[id].m_gold == old(m_players[id].m_gold)
        invariant forall id | id in m_players && id !in players :: m_players[id].m_gold == old(m_players[id].m_gold) + amount
        decreases |players|
      {
        var id :| id in players;
        players := players - {id};
        m_players[id].AddGold(amount);
      }
    }

    // The notice says what for.
    method PlayerAddGold(amount: int, ghost notice: Notice)
      requires Valid() && GoldOf(notice) == amount
      modifies this`m_goldChange, this`log, m_players.Values
      ensures Valid() && State() == Logged(old(State()).(goldChange := true), notice)
      ensures forall id | id in m_players :: m_players[id].m_gold == old(m_players[id].m_gold) + amount
      ensures Earned(log) == old(Earned(log)) + amount
    {
      PayAll(amount);
      Note(notice);
      m_goldChange := true;
    }

    // Everybody in the room is sent their gold, if it has changed since the last time.
    method BroadcastGoldUpdate() returns (sent: map<nat, int>)
      requires Valid()
      modifies this`m_goldChange
      ensures Valid() && State() == old(State()).(goldChange := false)
      ensures sent == if old(m_goldChange) then Purses() else map[]
    {
      sent := map[];
      if !m_goldChange {
        return;
      }
      var players := m_players.Keys;
      while players != {}
        invariant players <= m_players.Keys && sent.Keys == m_players.Keys - players
        invariant forall id | id in sent :: sent[id] == m_players[id].m_gold
        decreases |players|
      {
        var id :| id in players;
        players := players - {id};
        sent := sent[id := m_players[id].m_gold];
      }
      m_goldChange := false;
    }

    method TellGold()
      requires Valid()
      modifies this`m_goldChange
      ensures Valid() && State() == old(State()).(goldChange := false)
    {
      var sent := BroadcastGoldUpdate();
    }

    method RewardAndRemove(enemyId: nat, reward: int)
      requires Valid()
      modifies Repr(), m_players.Values
      ensures Valid() && Kept() && State() == Departed(old(State()), enemyId, reward)
    {
      PlayerAddGold(reward, Rewarded(enemyId, reward));
      RemoveEnemy(enemyId);
    }

    method DeadEnemyHandle(enemyId: nat, reward: int)
      requires Valid()
      modifies Repr(), m_players.Values
      ensures Valid() && Kept()
      ensures State() == WaveChecked(world.stage, Departed(old(State()), enemyId, reward)).(goldChange := false)
    {
      RewardAndRemove(enemyId, reward);
      CheckEndWave();
      TellGold();
    }

    // The enemy dies, with this body, and calls back.
    method KillEnemy(enemyId: nat, body: Enemies.Body)
      requires Valid() && enemyId in m_enemyManager.m_enemies
      modifies Repr(), m_players.Values
      ensures Valid() && Kept() && State() == Die(world.stage, old(State()), enemyId, body)
    {
      ghost var before := State();
      m_enemyManager.SetBody(enemyId, body);
      CheckIgnoresGoldChange(world.stage, Departed(State(), enemyId, before.roster.enemies[enemyId].reward),
                             Paid(before, enemyId, body));
      DeadEnemyHandle(enemyId, m_enemyManager.m_enemies[enemyId].reward);
    }

    // -------- One tick --------

    method SetBody(id: nat, body: Enemies.Body)
      requires Valid() && id in m_enemyManager.m_enemies
      modifies m_enemyManager
      ensures Valid() && State() == Changed(old(State()), id, body)
    {
      m_enemyManager.SetBody(id, body);
    }

    // The enemy's own update, whose callbacks come back to the room. `r` is the roster the walk began with.
    method VisitEnemy(id: nat, deltaTime: real, ghost r: EnemyManagers.Roster)
      requires Valid() && id in m_enemyManager.m_enemies && id in r.enemies
      requires m_enemyManager.m_enemies[id] == r.enemies[id]
      modifies Repr(), m_players.Values
      ensures Valid() && Kept() && State() == Visited(world.stage, old(State()), VisitOf(world.sqrt, r, id, deltaTime))
    {
      var unit := m_enemyManager.m_enemies[id];
      if unit.body.health.dead {
        return;
      }
      var u := Enemies.UpdateBody(world.sqrt, unit.body, deltaTime);
      if u.body.health.dead {
        KillEnemy(id, u.body);
      } else {
        SetBody(id, u.body);
      }
      if u.arrived {
        ArrivalEnemyHandle(id, unit.power);
      }
    }

    method VisitNext(id: nat, deltaTime: real, ghost before: State, ghost order: seq<nat>)
      requires Valid() && m_isUpdating && State() == Walked(world, before, deltaTime, order)
      requires id in m_enemyManager.m_enemies && id in before.roster.enemies
      requires m_enemyManager.m_enemies[id] == before.roster.enemies[id]
      modifies Repr(), m_players.Values
      ensures Valid() && Kept() && m_isUpdating && State() == Walked(world, before, deltaTime, order + [id])
      ensures m_enemyManager.m_enemies.Keys == old(m_enemyManager.m_enemies.Keys)
      ensures forall j | j in m_enemyManager.m_enemies && j != id ::
                m_enemyManager.m_enemies[j] == old(m_enemyManager.m_enemies[j])
    {
      RoomWalks.VisitTouchesOne(world.stage, State(), VisitOf(world.sqrt, before.roster, id, deltaTime));
      WalkedMore(world, before, deltaTime, order, id);
      VisitEnemy(id, deltaTime, before.roster);
    }

    // The walk over the map of enemies, in whatever order it is kept.
    method VisitEnemies(deltaTime: real) returns (ghost order: seq<nat>)
      requires Valid() && m_isUpdating
      modifies Repr(), m_players.Values
      ensures Valid() && Kept() && State() == Walked(world, old(State()), deltaTime, order)
      ensures EnemyManagers.NoRepeats(order) && EnemyManagers.Elements(order) == old(m_enemyManager.m_enemies.Keys)
    {
      ghost var before := State();
      ghost var golds, earned := Purses(), Earned(log);
      ghost var all := m_enemyManager.m_enemies.Keys;
      var ids := m_enemyManager.m_enemies.Keys;
      order := [];
      while ids != {}
        invariant Valid() && m_isUpdating && State() == Walked(world, before, deltaTime, order)
        invariant m_players == old(m_players) && m_commandQueue == old(m_commandQueue)
        invariant forall id | id in golds :: id in m_players && m_players[id].m_gold - Earned(log) == golds[id] - earned
        invariant HaveVisited(order, all, ids) && m_enemyManager.m_enemies.Keys == all == before.roster.enemies.Keys
        invariant forall id | id in ids :: m_enemyManager.m_enemies[id] == before.roster.enemies[id]
        decreases |ids|
      {
        var id :| id in ids;
        VisitNext(id, deltaTime, before, order);
        OneMore(order, all, ids, id);
        ids, order := ids - {id}, order + [id];
      }
    }

    method QueueAttack(event: AttackEvent)
      requires Valid()
      modifies this`m_attackQueue, this`log
      ensures var s := old(State());
              Valid() && State() == Logged(s.(attacks := s.attacks + [event]), Pushed(event))
      ensures Earned(log) == old(Earned(log))
    {
      m_attackQueue := m_attackQueue + [event];
      Note(Pushed(event));
    }

    // TakeDamage: a dead enemy takes none.
    method DamageEnemy(id: nat, amount: int)
      requires Valid() && id in m_enemyManager.m_enemies
      modifies Repr(), m_players.Values
      ensures Valid() && Kept() && State() == Damaged(world.stage, old(State()), id, amount)
    {
      var body := m_enemyManager.m_enemies[id].body;
      if body.health.dead {
        return;
      }
      var hurt := body.(health := Debuffs.TakeDamage(body.health, amount));
      if hurt.health.dead {
        KillEnemy(id, hurt);
      } else {
        SetBody(id, hurt);
      }
    }

    method LaunchProjectile()
      requires Valid()
      modifies m_projectileManager
      ensures Valid() && State() == Struck(world.stage, old(State()), Launch)
    {
      m_projectileManager.SpawnProjectile();
    }

    method ReturnProjectile(id: nat)
      requires Valid()
      modifies m_projectileManager
      ensures Valid() && State() == Struck(world.stage, old(State()), Return(id))
    {
      m_projectileManager.RemoveProjectile(id);
    }

    method HandleDamage(id: nat, amount: int)
      requires Valid()
      modifies Repr(), m_players.Values
      ensures Valid() && Kept() && State() == Struck(world.stage, old(State()), Damage(id, amount))
    {
      if id in m_enemyManager.m_enemies {
        DamageEnemy(id, amount);
      }
    }

    method HandleAffliction(id: nat, debuff: Enemies.Debuff)
      requires Valid()
      modifies m_enemyManager
      ensures Valid() && State() == Struck(world.stage, old(State()), Afflict(id, debuff))
    {
      if id in m_enemyManager.m_enemies {
        SetBody(id, Enemies.Afflicted(m_enemyManager.m_enemies[id].body, debuff));
      }
    }

    method HandleBonus(gold: int)
      requires Valid()
      modifies Repr(), m_players.Values
      ensures Valid() && Kept() && State() == Struck(world.stage, old(State()), KillBonus(gold))
    {
      PlayerAddGold(gold, Bonus(gold));
    }

    // The hits that nobody dies of, and that are worth no gold.
    method HandleOther(h: Hit)
      requires Valid() && !h.Damage? && !h.KillBonus?
      modifies this`m_attackQueue, this`log, m_enemyManager, m_projectileManager
      ensures Valid() && State() == Struck(world.stage, old(State()), h) && Earned(log) == old(Earned(log))
    {
      match h {
        case Attack(event) => QueueAttack(event);
        case Afflict(id, debuff) => HandleAffliction(id, debuff);
        case Launch => LaunchProjectile();
        case Return(shot) => ReturnProjectile(shot);
      }
    }

    method HandleHit(h: Hit)
      requires Valid()
      modifies Repr(), m_players.Values
      ensures Valid() && Kept() && State() == Struck(world.stage, old(State()), h)
    {
      match h {
        case Damage(id, amount) => HandleDamage(id, amount);
        case KillBonus(gold) => HandleBonus(gold);
        case _ => HandleOther(h);
      }
    }

    method HandleHits(hits: seq<Hit>)
      requires Valid()
      modifies Repr(), m_players.Values
      ensures Valid() && Kept() && State() == StruckAll(world.stage, old(State()), hits)
    {
      ghost var before := State();
      var i := 0;
      assert hits[0..] == hits;
      while i < |hits|
        invariant 0 <= i <= |hits| && Valid() && Kept()
        invariant StruckAll(world.stage, State(), hits[i..]) == StruckAll(world.stage, before, hits)
      {
        assert hits[i..][1..] == hits[i + 1..];
        HandleHit(hits[i]);
        i := i + 1;
      }
    }

    method UpdateWave(deltaTime: real, turn: Turn)
      requires Valid()
      modifies m_enemyManager, m_waveManager
      ensures Valid() && State() == WaveSpawned(world.stage, old(State()), deltaTime, turn)
    {
      var due := WaveManagers.Updated(world.stage, m_waveManager.State(), deltaTime, true).enemyId;
      var spawned := m_waveManager.Update(deltaTime, turn.path != [] && turn.data.Some?);
      if due.Some? && turn.path != [] {
        var unit := if turn.data.None? then None
                    else Some(EnemyManagers.NewUnit(due.value, turn.data.value, turn.path));
        var instanceId := m_enemyManager.SpawnEnemy(unit);
      }
    }

    /** The packet holds the whole queue; AttackBatch says when a client can read it. */
    method BroadcastAttack() returns (packet: Option<seq<byte>>)
      requires Valid()
      modifies this`m_attackQueue, this`log
      ensures Valid() && Earned(log) == old(Earned(log))
      ensures var s := old(State());
              if s.attacks == [] then packet == None && State() == s
              else && State() == Logged(s.(attacks := []), Batch(s.attacks))
                   && packet == Some(Finished(Packet(AttackBatch.ATTACK_NOTIFY, AttackBatch.EncodeBatch(s.attacks))))
    {
      if m_attackQueue == [] {
        return None;
      }
      var bytes := AttackBatch.WriteBatch(m_attackQueue);
      Note(Batch(m_attackQueue));
      m_attackQueue := [];
      packet := Some(bytes);
    }

    method Sync() returns (packet: Option<seq<byte>>, sent: map<nat, int>)
      requires Valid()
      modifies this`m_syncTimer, this`m_attackQueue, this`m_goldChange, this`log
      ensures Valid() && State() == Synced(old(State())) && Earned(log) == old(Earned(log))
      ensures sent == if old(m_syncTimer) >= SYNC && old(m_goldChange) then Purses() else map[]
    {
      packet, sent := None, map[];
      if m_syncTimer >= SYNC {
        m_syncTimer := m_syncTimer - SYNC;
        packet := BroadcastAttack();
        sent := BroadcastGoldUpdate();
      }
    }

    method RemoveEnemies()
      requires Valid()
      modifies m_enemyManager
      ensures Valid() && State() == Removed(old(State()))
    {
      m_enemyManager.Purge();
    }

    method UpdateFight(deltaTime: real, turn: Turn) returns (ghost order: seq<nat>)
      requires Valid() && m_isUpdating
      modifies Repr(), m_players.Values
      ensures Valid() && Kept() && State() == WavePart(world, old(State()), deltaTime, turn.(order := order))
      ensures EnemyManagers.NoRepeats(order)
      ensures EnemyManagers.Elements(order)
           == WaveSpawned(world.stage, old(State()), deltaTime, turn).roster.enemies.Keys
    {
      ghost var before := State();
      UpdateWave(deltaTime, turn);
      assert State() == WaveSpawned(world.stage, before, deltaTime, turn);
      order := VisitEnemies(deltaTime);
      assert WaveSpawned(world.stage, before, deltaTime, turn.(order := order))
          == WaveSpawned(world.stage, before, deltaTime, turn);
      RemoveEnemies();
      if m_gameState == Wave {
        HandleHits(turn.minionHits);
      }
    }

    method Cleanup()
      requires Valid()
      modifies Repr()
      ensures Valid() && Kept() && State() == Settled(old(State()))
    {
      if m_stageCleanupPending {
        ResetStageState();
        m_stageCleanupPending := false;
      }
      m_isUpdating := false;
    }

    // ProjectileManager's Update: without projectiles there is nobody to hit anything.
    method UpdateProjectiles(hits: seq<Hit>)
      requires Valid()
      modifies Repr(), m_players.Values
      ensures Valid() && Kept() && State() == Flown(world.stage, old(State()), hits)
    {
      if m_gameState != GameState.EndStage {
        if m_projectileManager.m_projectiles != {} {
          HandleHits(hits);
        }
      }
    }

    method Fight(deltaTime: real, turn: Turn)
      returns (packet: Option<seq<byte>>, sent: map<nat, int>, ghost order: seq<nat>)
      requires Valid() && m_isUpdating
      modifies Repr(), m_players.Values
      ensures Valid() && Kept() && State() == Fought(world, old(State()), deltaTime, turn.(order := order))
      ensures EnemyManagers.NoRepeats(order)
      ensures old(m_gameState) == Wave
           ==> EnemyManagers.Elements(order) == WaveSpawned(world.stage, old(State()), deltaTime, turn).roster.enemies.Keys
    {
      order := [];
      if m_gameState == Wave {
        order := UpdateFight(deltaTime, turn);
      }
      packet, sent := Sync();
      UpdateProjectiles(turn.projectileHits);
    }

    method Begin(deltaTime: real)
      requires Valid()
      modifies this`m_isUpdating, this`m_syncTimer
      ensures Valid() && State() == Begun(old(State()), deltaTime)
    {
      m_isUpdating := true;
      m_syncTimer := m_syncTimer + deltaTime;
    }

    // Update, after the queued commands.
    method Tick(deltaTime: real, turn: Turn)
      returns (packet: Option<seq<byte>>, sent: map<nat, int>, ghost order: seq<nat>)
      requires Valid()
      modifies Repr(), m_players.Values
      ensures Valid() && Kept() && State() == Ticked(world, old(State()), deltaTime, turn.(order := order))
      ensures EnemyManagers.NoRepeats(order)
      ensures old(m_gameState) == Wave
           ==> EnemyManagers.Elements(order) == WaveSpawned(world.stage, Begun(old(State()), deltaTime), deltaTime, turn).roster.enemies.Keys
    {
      Begin(deltaTime);
      packet, sent, order := Fight(deltaTime, turn);
      Cleanup();
    }

    // -------- Commands --------

    method UpgradeMinion(player: Boards.Player, id: nat, upgrade: int) returns (code: Boards.ErrorCode)
      requires Valid()
      modifies m_minionManager, player
      ensures Valid()
      ensures var before := old(State());
              State() == before.(board := Board())
              && Boards.Outcome(code, player.m_gold, Board())
                 == Boards.Upgraded(before.board, player.m_id, old(player.m_gold), id, upgrade)
    {
      var found := m_minionManager.FindMinion(id);
      if found.None? {
        return Boards.InvalidId;
      }
      var minion := found.value;
      if minion.owner != player.m_id {
        return Boards.InvalidOrderId;
      }
      if upgrade !in minion.slots {
        return Boards.InvalidId;
      }
      var slot := minion.slots[upgrade];
      if slot.level >= slot.maxLevel {
        return Boards.AlreadyMaxLevel;
      }
      var paid := player.TryUseGold(slot.price);
      if !paid {
        return Boards.GoldNotEnough;
      }
      m_minionManager.SetMinion(id, minion.(slots := minion.slots[upgrade := slot.(level := slot.level + 1)]));
      code := Boards.NoError;
    }

    method ProcessCommand(command: Command) returns (ghost request: Request)
      requires Valid()
      modifies m_minionManager, command.player
      ensures Valid() && IsFor(request, command) && request.gold == old(command.player.m_gold)
      ensures var r, s := request, old(State());
              State() == s.(board := Boards.Upgraded(s.board, r.owner, r.gold, r.id, r.upgrade).board)
      ensures command.player.m_gold == old(command.player.m_gold) - Price(old(Board()), request)
    {
      request := Request(command.player.m_id, command.player.m_gold, command.id, command.upgrade);
      var code := UpgradeMinion(command.player, command.id, command.upgrade);
    }

    // Everybody who has gold at stake in an update.
    ghost function Payers(): set<Boards.Player>
      reads this
    {
      m_players.Values + set c | c in m_commandQueue :: c.player
    }

    // One object stands for each of them.
    ghost predicate OneEach()
      reads this
    {
      forall a, b | a in Payers() && b in Payers() && a.m_id == b.m_id :: a == b
    }

    // What they have.
    ghost function Holdings(): map<Boards.Player, int>
      reads this, Payers()
    {
      map p | p in Payers() :: p.m_gold
    }

    // After these requests each payer has paid for the accepted ones.
    ghost predicate Settling(payers: set<Boards.Player>, had: map<Boards.Player, int>, b: Boards.Board, rs: seq<Request>)
      reads payers
    {
      forall p | p in payers :: p in had && p.m_gold == had[p] - Spent(b, rs, p.m_id)
    }

    method ProcessNext(command: Command, ghost payers: set<Boards.Player>, ghost had: map<Boards.Player, int>,
                       ghost b: Boards.Board, ghost rs: seq<Request>) returns (ghost request: Request)
      requires Valid() && command.player in payers && Board() == UpgradedAll(b, rs)
      modifies m_minionManager, command.player
      ensures Valid() && IsFor(request, command)
      ensures State() == old(State()).(board := UpgradedAll(b, rs + [request]))
      ensures old(Settling(payers, had, b, rs)) && (forall p, q | p in payers && q in payers && p.m_id == q.m_id :: p == q)
          ==> Settling(payers, had, b, rs + [request])
              && request.gold == had[command.player] - Spent(b, rs, request.owner)
    {
      request := ProcessCommand(command);
      SpentMore(b, rs, request, command.player.m_id);
      forall p | p in payers && p.m_id != command.player.m_id
        ensures Spent(b, rs + [request], p.m_id) == Spent(b, rs, p.m_id)
      {
        SpentMore(b, rs, request, p.m_id);
      }
    }

    /** The queue is taken as a whole; each upgrade is judged with the gold its player has by then, and costs
        its player its price if it is accepted. */
    method ProcessCommands() returns (ghost requests: seq<Request>)
      requires Valid()
      modifies this`m_commandQueue, m_minionManager, set c | c in m_commandQueue :: c.player
      ensures |requests| == |old(m_commandQueue)| && AreFor(requests, old(m_commandQueue))
      ensures old(OneEach()) ==> Afford(old(Board()), requests, old(m_commandQueue), old(Holdings()))
      ensures old(OneEach()) ==> Settling(old(Payers()), old(Holdings()), old(Board()), requests)
      ensures Valid() && m_commandQueue == []
      ensures State() == old(State()).(board := UpgradedAll(old(State()).board, requests))
    {
      var commands := m_commandQueue;
      ghost var before, payers, had, alone := State(), Payers(), Holdings(), OneEach();
      m_commandQueue, requests := [], [];
      for i := 0 to |commands|
        invariant Valid() && m_commandQueue == [] && |requests| == i && AreFor(requests, commands)
        invariant State() == before.(board := UpgradedAll(before.board, requests))
        invariant alone ==> Afford(before.board, requests, commands, had)
        invariant alone ==> Settling(payers, had, before.board, requests)
      {
        assert commands[i].player in payers;
        ghost var request := ProcessNext(commands[i], payers, had, before.board, requests);
        AreForMore(requests, commands, request);
        if alone {
          AffordMore(before.board, requests, request, commands, had);
        }
        requests := requests + [request];
      }
    }

    /** One update of the room is one step of its state machine, with a walk that visits every enemy once; each
        player's gold goes down by the prices of the accepted upgrades and up by what the room has given. */
    method Update(deltaTime: real, turn: Turn)
      returns (packet: Option<seq<byte>>, sent: map<nat, int>, ghost requests: seq<Request>, ghost order: seq<nat>)
      requires Valid()
      modifies Repr(), Payers()
      ensures RoomLaws.Did(world, old(State()), Op.Update(requests, deltaTime, turn.(order := order)), State())
      ensures Valid() && m_players == old(m_players) && m_commandQueue == []
      ensures old(OneEach()) ==> forall id | id in m_players ::
                m_players[id].m_gold == old(m_players[id].m_gold) - Spent(old(Board()), requests, id)
                                        + Earned(log) - old(Earned(log))
      ensures EnemyManagers.NoRepeats(order)
      ensures old(m_gameState) == Wave
           ==> EnemyManagers.Elements(order) == WaveSpawned(world.stage, Begun(old(State()), deltaTime), deltaTime, turn).roster.enemies.Keys
    {
      ghost var before := State();
      requests := ProcessCommands();
      packet, sent, order := Tick(deltaTime, turn);
      UpdateIs(world, before, UpgradedAll(before.board, requests), requests, deltaTime, turn.(order := order));
      UpdateIs(world, before, UpgradedAll(before.board, requests), requests, deltaTime, turn);
      RoomLaws.DidIt(world, before, Op.Update(requests, deltaTime, turn.(order := order)), State());
    }

    method EnqueueCommand(command: Command)
      modifies this`m_commandQueue
      ensures m_commandQueue == old(m_commandQueue) + [command]
    {
      m_commandQueue := m_commandQueue + [command];
    }

    // -------- Requests --------

    // Into the map, unless it is there already, and not ready.
    method AddPlayer(player: Boards.Player)
      requires Valid()
      modifies this`m_players, this`m_playerReady
      ensures Valid()
      ensures m_players == if player.m_id in old(m_players) then old(m_players) else old(m_players)[player.m_id := player]
      ensures State() == old(State()).(players := old(m_players.Keys) + {player.m_id},
                                       ready := old(m_playerReady)[player.m_id := false])
    {
      if player.m_id !in m_players {
        m_players := m_players[player.m_id := player];
      }
      assert m_players.Keys == old(m_players.Keys) + {player.m_id};
      m_playerReady := m_playerReady[player.m_id := false];
    }

    method Enter(player: Boards.Player) returns (entered: bool)
      requires Valid()
      modifies this`m_players, this`m_playerReady, this`m_gameState, this`m_game
      ensures Valid() && State() == Entered(old(State()), player.m_id)
      ensures entered == (old(m_gameState) == WaitingForPlayers && |old(m_players)| < 2)
    {
      if m_gameState != WaitingForPlayers || |m_players| >= 2 {
        return false;
      }
      AddPlayer(player);
      if |m_players.Keys| == 2 {
        m_gameState, m_game := Intermission, true;
      }
      entered := true;
    }

    method Leave(player: Boards.Player)
      requires Valid()
      modifies Repr()
      ensures Valid() && m_players == old(m_players) - {player.m_id} && m_commandQueue == old(m_commandQueue)
      ensures State() == Left(old(State()), player.m_id)
    {
      var playerId := player.m_id;
      if playerId !in m_players {
        return;
      }
      ghost var before := State();
      m_players := m_players - {playerId};
      m_playerReady := m_playerReady - {playerId};
      assert State() == before.(players := before.players - {playerId}, ready := before.ready - {playerId});
      if m_players.Keys == {} {
        ResetStageState();
        m_playerReady := map[];
        m_game := false;
      }
    }

    method PlayerReadyCheck(playerId: nat) returns (all: bool)
      requires Valid()
      modifies this`m_playerReady
      ensures Valid() && State() == ReadyChecked(old(State()), playerId)
      ensures all == AllReady(old(m_playerReady)[playerId := true])
    {
      m_playerReady := m_playerReady[playerId := true];
      var ids := m_playerReady.Keys;
      while ids != {}
        invariant m_playerReady == old(m_playerReady)[playerId := true]
        invariant ids <= m_playerReady.Keys
        invariant forall id | id in m_playerReady && id !in ids :: m_playerReady[id]
        decreases |ids|
      {
        var id :| id in ids;
        if !m_playerReady[id] {
          return false;
        }
        ids := ids - {id};
      }
      m_playerReady := AllFalse(m_playerReady);
      all := true;
    }

    method WaveStart()
      requires Valid()
      modifies this`m_gameState, m_waveManager
      ensures Valid() && State() == RoomStates.WaveStarted(world.stage, old(State()))
    {
      m_gameState := Wave;
      m_waveManager.StartWave();
    }

    method SpawnMinion(minionId: uint32, player: Boards.Player, x: int, y: int) returns (code: Boards.ErrorCode)
      requires Valid()
      modifies this`m_occupiedTiles, m_minionManager, player
      ensures Valid()
      ensures var before := old(State());
              State() == before.(board := Board())
              && Boards.Outcome(code, player.m_gold, Board())
                 == Boards.Spawned(world.catalog, before.board, before.phase == Intermission, player.m_id,
                                   old(player.m_gold), minionId, x, y)
    {
      var pos := Boards.Tile(x, y, 0);
      if m_gameState != Intermission {
        return Boards.InvalidState;
      }
      if pos !in world.catalog.buildable {
        return Boards.InvalidSpawnPosition;
      }
      if pos in m_occupiedTiles {
        return Boards.SpawnedMinionPosition;
      }
      if minionId !in world.catalog.minions {
        return Boards.InvalidMinionId;
      }
      var paid := player.TryUseGold(world.catalog.minions[minionId].cost);
      if !paid {
        return Boards.GoldNotEnough;
      }
      var minion := m_minionManager.SpawnMinion(minionId, Some(world.catalog.minions[minionId]), player.m_id, x, y);
      m_occupiedTiles := m_occupiedTiles[pos := minion.value];
      code := Boards.NoError;
    }

    method ReturnMinion(instanceId: nat)
      requires Valid()
      modifies this`m_occupiedTiles, m_minionManager
      ensures Valid() && State() == old(State()).(board := Boards.Returned(old(Board()), instanceId))
    {
      var minion := m_minionManager.FindMinion(instanceId);
      if minion.None? {
        return;
      }
      m_occupiedTiles := m_occupiedTiles - {Boards.GroundTile(minion.value)};
      m_minionManager.RemoveMinion(instanceId);
    }

    method RelocateMinion(instanceId: nat, orderId: nat, x: int, y: int) returns (code: Boards.ErrorCode)
      requires Valid()
      modifies this`m_occupiedTiles, m_minionManager
      ensures Valid()
      ensures var before := old(State());
              State() == before.(board := Board())
              && (code, Board()) == Boards.Relocated(world.catalog, before.board, before.phase == Intermission,
                                                     instanceId, orderId, x, y)
    {
      var newPos := Boards.Tile(x, y, 0);
      if m_gameState != Intermission {
        return Boards.InvalidState;
      }
      if newPos !in world.catalog.buildable {
        return Boards.InvalidSpawnPosition;
      }
      if newPos in m_occupiedTiles {
        return Boards.SpawnedMinionPosition;
      }
      var minion := m_minionManager.FindMinion(instanceId);
      if minion.None? {
        return Boards.InvalidMinionId;
      }
      if minion.value.owner != orderId {
        return Boards.InvalidOrderId;
      }
      m_occupiedTiles := m_occupiedTiles - {Boards.Home(minion.value)};
      m_minionManager.SetMinion(instanceId, Boards.Moved(minion.value, x, y));
      m_occupiedTiles := m_occupiedTiles[newPos := instanceId];
      code := Boards.NoError;
    }
  }
}
