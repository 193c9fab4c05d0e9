/** The room as a state machine: what each request and each tick does to it. */
module RoomStates {
  import opened Wire
  import opened EnemyManagers
  import AttackBatch
  import Boards
  import Debuffs
  import Enemies
  import Geometry
  import WaveManagers

  type AttackEvent = AttackBatch.AttackEvent

  datatype GameState = WaitingForPlayers | Intermission | Wave | EndStage

  // What a room is given: its stage, the data, and the square root.
  datatype World = World(stage: WaveManagers.Stage, catalog: Boards.Catalog, sqrt: real -> real)

  // What the room has done so far: broadcasts, gold given to the players, attack events queued and dropped.
  datatype Notice =
    | Rewarded(id: nat, gold: int)
    | Bonus(gold: int)
    | Arrived(id: nat, wallHp: int)
    | WaveEnd
    | StageEnd(success: bool)
    | Pushed(event: AttackEvent)
    | Batch(events: seq<AttackEvent>)
    | Dropped(events: seq<AttackEvent>)

  // ProjectileManager: the projectiles in flight and its id counter.
  datatype Shots = Shots(flying: set<nat>, nextId: nat)

  datatype State = State(
    phase: GameState, hp: int, players: set<nat>, ready: map<nat, bool>, game: bool,
    board: Boards.Board, roster: Roster, waves: WaveManagers.Waves, shots: Shots,
    sync: real, updating: bool, pending: bool, attacks: seq<AttackEvent>, goldChange: bool, log: seq<Notice>)

  const WALL_HP := 100
  const SYNC := 0.05

  const NewRoom := State(WaitingForPlayers, WALL_HP, {}, map[], false, Boards.EmptyBoard, Nobody, WaveManagers.Fresh,
                         Shots({}, 1), 0.0, false, false, [], false, [])

  function Logged(s: State, n: Notice): State
  {
    s.(log := s.log + [n])
  }

  function AllFalse(ready: map<nat, bool>): map<nat, bool>
  {
    map id | id in ready :: false
  }

  function ResetStage(s: State): State
  {
    State(WaitingForPlayers, WALL_HP, s.players, AllFalse(s.ready), s.game, Boards.Cleared(s.board),
          Nobody.(nextId := s.roster.nextId), WaveManagers.Fresh, s.shots.(flying := {}), 0.0,
          s.updating, s.pending, [], false, s.log + [Dropped(s.attacks)])
  }

  // EndStage: during an update the cleanup waits for its end.
  function StageEnded(s: State, success: bool): State
  {
    if s.phase == EndStage then s
    else
      var e := Logged(s.(phase := EndStage), StageEnd(success));
      if s.updating then e.(pending := true) else ResetStage(e)
  }

  function WaveChecked(stage: WaveManagers.Stage, s: State): State
  {
    if s.waves.finished && AliveCount(s.roster) <= 0 then
      if |stage| <= s.waves.current then StageEnded(s, true)
      else Logged(s.(phase := Intermission), WaveEnd)
    else s
  }

  function WallHit(s: State, id: nat, power: int): State
  {
    Logged(s.(hp := s.hp - power, roster := Leaving(s.roster, id)), Arrived(id, s.hp - power))
  }

  // ArrivalEnemyHandle.
  function Arrive(stage: WaveManagers.Stage, s: State, id: nat, power: int): State
  {
    var a := WallHit(s, id, power);
    if a.hp <= 0 then StageEnded(a, false) else WaveChecked(stage, a)
  }

  // Dead, with this body, and about to be removed.
  function Fallen(r: Roster, id: nat, body: Enemies.Body): Roster
    requires id in r.enemies
  {
    Leaving(Embodied(r, id, body), id)
  }

  function Paid(s: State, id: nat, body: Enemies.Body): State
    requires id in s.roster.enemies
  {
    Logged(s.(roster := Fallen(s.roster, id, body)), Rewarded(id, s.roster.enemies[id].reward))
  }

  // The enemy's death, then DeadEnemyHandle, which ends by broadcasting the gold.
  function Die(stage: WaveManagers.Stage, s: State, id: nat, body: Enemies.Body): State
    requires id in s.roster.enemies
  {
    WaveChecked(stage, Paid(s, id, body)).(goldChange := false)
  }

  function Changed(s: State, id: nat, body: Enemies.Body): State
    requires id in s.roster.enemies
  {
    s.(roster := Embodied(s.roster, id, body))
  }

  // One enemy's own update: its body after, and whether the arrival callback fires. The dead callback fires
  // if the body after is dead.
  datatype Visit = Visit(id: nat, after: Enemies.Body, arrived: bool)

  function Visited(stage: WaveManagers.Stage, s: State, v: Visit): State
  {
    if v.id !in s.roster.enemies || Dead(s.roster.enemies[v.id]) then s
    else
      var power := s.roster.enemies[v.id].power;
      var t := if v.after.health.dead then Die(stage, s, v.id, v.after) else Changed(s, v.id, v.after);
      if v.arrived then Arrive(stage, t, v.id, power) else t
  }

  function VisitedAll(stage: WaveManagers.Stage, s: State, vs: seq<Visit>): State
    decreases |vs|
  {
    if vs == [] then s else VisitedAll(stage, Visited(stage, s, vs[0]), vs[1..])
  }

  // An id that is not in play stands for a corpse, which no update changes.
  const Corpse := Enemies.NewBody(0, 0.0, Geometry.Point(0.0, 0.0), []).(health := Debuffs.Health(0, true))

  function BodyOf(r: Roster, id: nat): Enemies.Body
  {
    if id in r.enemies then r.enemies[id].body else Corpse
  }

  function VisitOf(sqrt: real -> real, r: Roster, id: nat, dt: real): Visit
  {
    var u := Enemies.UpdateBody(sqrt, BodyOf(r, id), dt);
    Visit(id, u.body, u.arrived)
  }

  // The walk over the enemies, in some order: each enemy's update is its own.
  function Visits(sqrt: real -> real, r: Roster, order: seq<nat>, dt: real): (vs: seq<Visit>)
    ensures |vs| == |order|
  {
    seq(|order|, i requires 0 <= i < |order| => VisitOf(sqrt, r, order[i], dt))
  }

  // What minions and projectiles do: queue an attack event, damage or afflict an enemy, give a kill bonus,
  // launch a projectile or return it.
  datatype Hit =
    | Attack(event: AttackEvent)
    | Damage(id: nat, amount: int)
    | Afflict(id: nat, debuff: Enemies.Debuff)
    | KillBonus(gold: int)
    | Launch
    | Return(shot: nat)

  function Damaged(stage: WaveManagers.Stage, s: State, id: nat, amount: int): State
    requires id in s.roster.enemies
  {
    var body := s.roster.enemies[id].body;
    var hurt := body.(health := Debuffs.TakeDamage(body.health, amount));
    if body.health.dead then s
    else if hurt.health.dead then Die(stage, s, id, hurt)
    else Changed(s, id, hurt)
  }

  function Struck(stage: WaveManagers.Stage, s: State, h: Hit): State
  {
    match h
    case Attack(event) => Logged(s.(attacks := s.attacks + [event]), Pushed(event))
    case Damage(id, amount) => if id in s.roster.enemies then Damaged(stage, s, id, amount) else s
    case Afflict(id, debuff) =>
      if id in s.roster.enemies then Changed(s, id, Enemies.Afflicted(s.roster.enemies[id].body, debuff)) else s
    case KillBonus(gold) => Logged(s.(goldChange := true), Bonus(gold))
    case Launch => s.(shots := Shots(s.shots.flying + {s.shots.nextId}, s.shots.nextId + 1))
    case Return(shot) => s.(shots := s.shots.(flying := s.shots.flying - {shot}))
  }

  function StruckAll(stage: WaveManagers.Stage, s: State, hs: seq<Hit>): State
    decreases |hs|
  {
    if hs == [] then s else StruckAll(stage, Struck(stage, s, hs[0]), hs[1..])
  }

  // One tick's inputs: the waypoints of the path chosen, none if there is no path, and the data of the enemy
  // to spawn; the order of the walk; the hits of the minions, and of the projectiles.
  datatype Turn = Turn(
    path: seq<Geometry.Point>, data: Option<EnemyData>,
    order: seq<nat>, minionHits: seq<Hit>, projectileHits: seq<Hit>)

  // The wave manager's part; an instance id is used up even if there is no data for the enemy.
  function WaveSpawned(stage: WaveManagers.Stage, s: State, dt: real, turn: Turn): State
    requires WaveManagers.InRange(stage, s.waves)
  {
    var due := WaveManagers.Updated(stage, s.waves, dt, true).enemyId;
    var spawn := WaveManagers.Updated(stage, s.waves, dt, turn.path != [] && turn.data.Some?);
    s.(waves := spawn.waves,
       roster := if due.None? || turn.path == [] then s.roster
                 else Spawned(s.roster,
                              if turn.data.None? then None else Some(NewUnit(due.value, turn.data.value, turn.path))))
  }

  // The enemies' part: the walk and the removal.
  function Walked(w: World, s: State, dt: real, order: seq<nat>): State
  {
    VisitedAll(w.stage, s, Visits(w.sqrt, s.roster, order, dt))
  }

  function Removed(s: State): State
  {
    s.(roster := Purged(s.roster))
  }

  function WavePart(w: World, s: State, dt: real, turn: Turn): State
    requires WaveManagers.InRange(w.stage, s.waves)
  {
    var removed := Removed(Walked(w, WaveSpawned(w.stage, s, dt, turn), dt, turn.order));
    if removed.phase == Wave then StruckAll(w.stage, removed, turn.minionHits) else removed
  }

  // BroadcastAttack and BroadcastGoldUpdate, every 0.05 s.
  function Synced(s: State): State
  {
    if s.sync < SYNC then s
    else if s.attacks == [] then Quieted(s)
    else Logged(Quieted(s), Batch(s.attacks))
  }

  function Quieted(s: State): State
  {
    s.(sync := s.sync - SYNC, attacks := [], goldChange := false)
  }

  function Settled(s: State): State
  {
    (if s.pending then ResetStage(s).(pending := false) else s).(updating := false)
  }

  function Begun(s: State, dt: real): State
  {
    s.(updating := true, sync := s.sync + dt)
  }

  // The projectiles' part: without projectiles nothing happens.
  function Flown(stage: WaveManagers.Stage, s: State, hits: seq<Hit>): State
  {
    if s.phase == EndStage || s.shots.flying == {} then s else StruckAll(stage, s, hits)
  }

  // Up to the cleanup.
  function Fought(w: World, s: State, dt: real, turn: Turn): State
    requires WaveManagers.InRange(w.stage, s.waves)
  {
    Flown(w.stage, Synced(if s.phase == Wave then WavePart(w, s, dt, turn) else s), turn.projectileHits)
  }

  function Ticked(w: World, s: State, dt: real, turn: Turn): State
    requires WaveManagers.InRange(w.stage, s.waves)
  {
    Settled(Fought(w, Begun(s, dt), dt, turn))
  }

  // -------- Requests --------

  function Entered(s: State, p: nat): State
  {
    if s.phase != WaitingForPlayers || |s.players| >= 2 then s
    else
      var e := s.(players := s.players + {p}, ready := s.ready[p := false]);
      if |e.players| == 2 then e.(phase := Intermission, game := true) else e
  }

  function Left(s: State, p: nat): State
  {
    if p !in s.players then s
    else
      var l := s.(players := s.players - {p}, ready := s.ready - {p});
      if l.players == {} then ResetStage(l).(ready := map[], game := false) else l
  }

  predicate AllReady(ready: map<nat, bool>)
  {
    forall id | id in ready :: ready[id]
  }

  // PlayerReadyCheck.
  function ReadyChecked(s: State, p: nat): State
  {
    var ready := s.ready[p := true];
    s.(ready := if AllReady(ready) then AllFalse(ready) else ready)
  }

  // WaveStart has no guard on the phase.
  function WaveStarted(stage: WaveManagers.Stage, s: State): State
  {
    s.(phase := Wave, waves := WaveManagers.Started(stage, s.waves))
  }

  // WaveHandler.
  function WaveRequested(stage: WaveManagers.Stage, s: State, p: nat): State
  {
    var checked := ReadyChecked(s, p);
    if AllReady(s.ready[p := true]) then WaveStarted(stage, checked) else checked
  }

  // A queued upgrade, with the gold its player has when it is processed.
  datatype Request = Request(owner: nat, gold: int, id: nat, upgrade: int)

  function UpgradedAll(b: Boards.Board, rs: seq<Request>): Boards.Board
    decreases |rs|
  {
    if rs == [] then b
    else
      var last := rs[|rs| - 1];
      Boards.Upgraded(UpgradedAll(b, rs[..|rs| - 1]), last.owner, last.gold, last.id, last.upgrade).board
  }

  // Whatever gold the acting player has, a request comes from a player in the room.
  datatype Op =
    | Enter(p: nat)
    | Leave(p: nat)
    | LoadScene(p: nat)
    | RequestWave(p: nat)
    | Buy(p: nat, gold: int, kind: uint32, x: int, y: int)
    | Relocate(p: nat, id: nat, x: int, y: int)
    | Sell(p: nat, gold: int, id: nat)
    | Update(commands: seq<Request>, dt: real, turn: Turn)

  function Do(w: World, s: State, op: Op): State
    requires WaveManagers.InRange(w.stage, s.waves)
  {
    match op
    case Enter(p) => Entered(s, p)
    case Leave(p) => Left(s, p)
    case LoadScene(p) => if p in s.players then ReadyChecked(s, p) else s
    case RequestWave(p) => if p in s.players then WaveRequested(w.stage, s, p) else s
    case Buy(p, gold, kind, x, y) =>
      if p in s.players then
        s.(board := Boards.Spawned(w.catalog, s.board, s.phase == Intermission, p, gold, kind, x, y).board)
      else s
    case Relocate(p, id, x, y) =>
      if p in s.players then
        s.(board := Boards.Relocated(w.catalog, s.board, s.phase == Intermission, id, p, x, y).1)
      else s
    case Sell(p, gold, id) =>
      if p in s.players then s.(board := Boards.Sold(s.board, p, gold, id).board) else s
    case Update(commands, dt, turn) => Ticked(w, s.(board := UpgradedAll(s.board, commands)), dt, turn)
  }
}
