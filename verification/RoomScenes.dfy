/** A scene: one minion, whose skill strikes one wave's two enemies, and what the third second makes of it. */
module RoomScenes {
  import opened Wire
  import opened EnemyManagers
  import opened Geometry
  import opened MinionPlay
  import opened RoomStates
  import opened RoomLaws
  import opened RoomEnemies
  import opened RoomWalks
  import opened RoomEnds
  import opened Sorting
  import AttackBatch
  import Boards
  import Debuffs
  import Enemies
  import Movement
  import WaveManagers

  // -------- The scenes --------

  // Two waves, the first of two enemies at once; one minion to buy, and two tiles for it.
  const TWO_WAVES: WaveManagers.Stage := [[WaveManagers.Entry(1, 2, 0.0)], [WaveManagers.Entry(1, 1, 0.0)]]
  const CATALOG := Boards.Catalog(map[1 := Boards.MinionData(100, map[])], {Boards.Tile(0, 1, 0), Boards.Tile(2, 1, 0)})

  const ORIGIN := Point(0.0, 0.0)
  const FAR := Point(1.0, 0.0)

  function Battle(sqrt: real -> real): World
  {
    World(TWO_WAVES, CATALOG, sqrt)
  }

  // What all the scenes need of the square root.
  predicate Roots(sqrt: real -> real)
  {
    sqrt(0.0) == 0.0 && sqrt(1.0) == 1.0
  }

  lemma Squares()
    ensures Sq(0.0) == 0.0 && Sq(1.0) == 1.0
  {
  }

  lemma RootOf(r: real, x: real)
    requires r >= 0.0 && Sq(r) == x && Sq(x) == x && x >= 0.0
    ensures r == x
  {
    RootBound(r, x);
    RootBound(x, r);
  }

  lemma SqrtRoots(sqrt: real -> real)
    requires Movement.IsSqrt(sqrt)
    ensures Roots(sqrt)
  {
    Squares();
    RootOf(sqrt(0.0), 0.0);
    RootOf(sqrt(1.0), 1.0);
  }

  // The enemies' power and paths, the minion's tile, and how many it strikes.
  datatype Scene = Scene(power: int, first: seq<Point>, second: seq<Point>, x: int, maxTargets: int, targets: seq<uint32>)

  // The first enemy takes two seconds for its path, and is then where the path ends; the second is at the
  // origin after its first second, either halfway or at the end.
  ghost predicate Staged(sc: Scene)
  {
    && |sc.first| == 3 && sc.first[0] == sc.first[1] == ORIGIN && (sc.first[2] == ORIGIN || sc.first[2] == FAR)
    && 2 <= |sc.second| <= 3 && sc.second[0] == sc.second[1] == ORIGIN
    && (sc.x == 0 || sc.x == 2)
    && (sc.targets == [1] || sc.targets == [2] || sc.targets == [1, 2])
  }

  function Gun(sc: Scene): Skill
  {
    Skill(2.0, 1.0, sc.maxTargets, 9, Enemies.Burning(1.0, 5.0))
  }

  // Two players enter; one buys the minion; both ask for the wave.
  function Opening(x: int): seq<Op>
  {
    [Enter(7), Enter(8), Buy(7, 400, 1, x, 1), RequestWave(7), RequestWave(8)]
  }

  function Data(power: int): EnemyData
  {
    EnemyData(10, 1.0, power, 5)
  }

  function Input(power: int, path: seq<Point>, order: seq<nat>, hits: seq<Hit>): Turn
  {
    Turn(path, Some(Data(power)), order, hits, [])
  }

  // One enemy comes in the first second and one in the next, in which the minion attacks; in the third the
  // enemies' own updates decide.
  function FirstTurn(sc: Scene): Turn
  {
    Input(sc.power, sc.first, [1], [])
  }

  function SecondTurn(sc: Scene): Turn
  {
    Input(sc.power, sc.second, [1, 2], SkillHits(Gun(sc), 1, sc.targets))
  }

  function ThirdTurn(sc: Scene): Turn
  {
    Input(sc.power, sc.second, [1, 2], [])
  }

  function Second(turn: Turn): Op
  {
    Update([], 1.0, turn)
  }

  function Seconds(sc: Scene): seq<Op>
  {
    [Second(FirstTurn(sc)), Second(SecondTurn(sc)), Second(ThirdTurn(sc))]
  }

  // -------- A run, step by step --------

  lemma {:induction false} DoMore(w: World, s: State, ops: seq<Op>, op: Op)
    requires Resting(w, s)
    ensures DoAll(w, s, ops + [op]) == Do(w, DoAll(w, s, ops), op)
    decreases |ops|
  {
    if ops == [] {
      assert ops + [op] == [op] && [op][1..] == [];
      StepRests(w, s, op);
    } else {
      StepRests(w, s, ops[0]);
      DoMore(w, Do(w, s, ops[0]), ops[1..], op);
      assert (ops + [op])[1..] == ops[1..] + [op] && (ops + [op])[0] == ops[0];
    }
  }

  lemma RunMore(w: World, ops: seq<Op>, op: Op)
    ensures Run(w, ops + [op]) == Do(w, Run(w, ops), op)
  {
    NewRoomRests(w);
    DoMore(w, NewRoom, ops, op);
  }

  // -------- The opening --------

  function Bought(x: int): Boards.Board
  {
    Boards.Board(map[1 := Boards.NewMinion(1, Boards.MinionData(100, map[]), 7, x, 1)], 2, map[Boards.Tile(x, 1, 0) := 1])
  }

  const WITH_PLAYERS: State :=
    NewRoom.(phase := Intermission, players := {7, 8}, ready := map[7 := false, 8 := false], game := true)

  // The room between updates, and within one.
  function Midst(x: int, roster: Roster, waves: WaveManagers.Waves, sync: real, log: seq<Notice>): State
  {
    State(Wave, WALL_HP, {7, 8}, map[7 := false, 8 := false], true, Bought(x), roster, waves, Shots({}, 1), sync,
          false, false, [], false, log)
  }

  function During(x: int, roster: Roster, waves: WaveManagers.Waves, sync: real, attacks: seq<AttackEvent>,
                  log: seq<Notice>): State
  {
    Midst(x, roster, waves, sync, log).(updating := true, attacks := attacks)
  }

  const START := WaveManagers.Waves(1, 0, 0, 0.0, true, false)
  const ONE_OUT := WaveManagers.Waves(1, 0, 1, 0.0, true, false)
  const ALL_OUT := WaveManagers.Waves(1, 1, 0, 0.0, true, true)

  lemma PlayersEnter()
    ensures Entered(Entered(NewRoom, 7), 8) == WITH_PLAYERS
  {
    assert {} + {7} == {7} && {7} + {8} == {7, 8};
    assert |{7, 8}| == 2;
  }

  lemma MinionBought(x: int)
    requires x == 0 || x == 2
    ensures Boards.Spawned(CATALOG, Boards.EmptyBoard, true, 7, 400, 1, x, 1).board == Bought(x)
  {
  }

  // The first player's request only marks that player ready.
  lemma FirstReady(s: State)
    requires s.ready == map[7 := false, 8 := false]
    ensures WaveRequested(TWO_WAVES, s, 7) == s.(ready := map[7 := true, 8 := false])
  {
    assert s.ready[7 := true] == map[7 := true, 8 := false];
    assert !AllReady(map[7 := true, 8 := false]) by { assert !map[7 := true, 8 := false][8]; }
  }

  lemma SecondReady(s: State)
    requires s.ready == map[7 := true, 8 := false] && s.waves == WaveManagers.Fresh
    ensures WaveRequested(TWO_WAVES, s, 8)
         == s.(ready := map[7 := false, 8 := false], phase := Wave, waves := START)
  {
    assert s.ready[8 := true] == map[7 := true, 8 := true];
    assert AllReady(map[7 := true, 8 := true]);
    assert AllFalse(map[7 := true, 8 := true]) == map[7 := false, 8 := false];
  }

  lemma PlayersIn(w: World)
    ensures Run(w, [Enter(7), Enter(8)]) == WITH_PLAYERS
  {
    RunMore(w, [], Enter(7));
    RunMore(w, [Enter(7)], Enter(8));
    assert [] + [Enter(7)] == [Enter(7)] && [Enter(7)] + [Enter(8)] == [Enter(7), Enter(8)];
    PlayersEnter();
  }

  lemma MinionIn(w: World, x: int, op: Op)
    requires w.catalog == CATALOG && (x == 0 || x == 2) && op == Buy(7, 400, 1, x, 1)
    ensures Run(w, [Enter(7), Enter(8)] + [op]) == WITH_PLAYERS.(board := Bought(x))
  {
    PlayersIn(w);
    RunMore(w, [Enter(7), Enter(8)], op);
    MinionBought(x);
  }

  lemma OneReady(w: World, x: int, bought: seq<Op>)
    requires w.stage == TWO_WAVES && Run(w, bought) == WITH_PLAYERS.(board := Bought(x))
    ensures Run(w, bought + [RequestWave(7)]) == WITH_PLAYERS.(board := Bought(x), ready := map[7 := true, 8 := false])
  {
    RunMore(w, bought, RequestWave(7));
    FirstReady(WITH_PLAYERS.(board := Bought(x)));
  }

  lemma BothReady(w: World, x: int, ready: seq<Op>)
    requires w.stage == TWO_WAVES
    requires Run(w, ready) == WITH_PLAYERS.(board := Bought(x), ready := map[7 := true, 8 := false])
    ensures Run(w, ready + [RequestWave(8)]) == Midst(x, Nobody, START, 0.0, [])
  {
    RunMore(w, ready, RequestWave(8));
    SecondReady(WITH_PLAYERS.(board := Bought(x), ready := map[7 := true, 8 := false]));
  }

  lemma Opened(w: World, x: int)
    requires w.stage == TWO_WAVES && w.catalog == CATALOG && (x == 0 || x == 2)
    ensures Run(w, Opening(x)) == Midst(x, Nobody, START, 0.0, [])
  {
    var bought := [Enter(7), Enter(8)] + [Buy(7, 400, 1, x, 1)];
    MinionIn(w, x, Buy(7, 400, 1, x, 1));
    OneReady(w, x, bought);
    BothReady(w, x, bought + [RequestWave(7)]);
    OpeningIs(x);
  }

  lemma OpeningIs(x: int)
    ensures [Enter(7), Enter(8)] + [Buy(7, 400, 1, x, 1)] + [RequestWave(7)] + [RequestWave(8)] == Opening(x)
  {
  }

  // -------- The enemies' bodies --------

  // On its path, before waypoint `index`.
  function At(path: seq<Point>, position: Point, index: nat): Enemies.Body
  {
    Enemies.NewBody(10, 1.0, ORIGIN, path).(mover := Movement.Mover(position, path, index))
  }

  // One hit point left, and burning.
  function Burnt(b: Enemies.Body): Enemies.Body
  {
    b.(health := Debuffs.Health(1, false), dots := [Debuffs.Dot(1.0, 5.0, 0.0)])
  }

  // An update that calls nobody back.
  predicate Steps(sqrt: real -> real, b: Enemies.Body, after: Enemies.Body)
  {
    !b.health.dead && !after.health.dead && Enemies.UpdateBody(sqrt, b, 1.0) == Enemies.Updated(after, false, false)
  }

  lemma NoSlow()
    ensures Debuffs.SlowPercent(Debuffs.Multiplier([])) == 0.0
  {
  }

  // Nothing to age but a second of damage.
  lemma AgedAtRest(b: Enemies.Body)
    requires b.slows == [] && b.slowPercent == 0.0 && b.stun == Debuffs.Stun(false, 0.0)
    ensures var dosed := Debuffs.AgeDots(b.health, b.dots, 1.0);
            Enemies.Aged(b, 1.0) == b.(health := dosed.health, dots := dosed.dots)
  {
    NoSlow();
  }

  lemma Ageless(path: seq<Point>, position: Point, index: nat)
    ensures Enemies.Aged(At(path, position, index), 1.0) == At(path, position, index)
  {
    AgedAtRest(At(path, position, index));
  }

  lemma MoveOn(sqrt: real -> real, m: Movement.Mover, moveDistance: real)
    requires m.index < |m.waypoints| && sqrt(0.0) == 0.0 && DistSq(m.waypoints[m.index], m.position) == 0.0
    ensures Movement.Move(sqrt, m, moveDistance) == Movement.Moved(m.(index := m.index + 1), false)
  {
  }

  lemma MoveThere(sqrt: real -> real, m: Movement.Mover, moveDistance: real)
    requires m.index < |m.waypoints| && sqrt(1.0) == 1.0 && DistSq(m.waypoints[m.index], m.position) == 1.0
    requires moveDistance == 1.0
    ensures Movement.Move(sqrt, m, moveDistance)
         == Movement.Moved(m.(position := m.waypoints[m.index], index := m.index + 1), false)
  {
  }

  lemma Apart(p: Point, q: Point)
    requires p.y == q.y && (p.x - q.x == 0.0 || p.x - q.x == 1.0)
    ensures DistSq(p, q) == p.x - q.x
  {
    Squares();
  }

  lemma UnitStep()
    ensures Enemies.StepLength(1.0, 0.0, 1.0) == 1.0
  {
  }

  function Moved(b: Enemies.Body, position: Point): Enemies.Body
  {
    b.(mover := b.mover.(position := position, index := b.mover.index + 1))
  }

  lemma BodyStays(sqrt: real -> real, b: Enemies.Body)
    requires b.mover.index < |b.mover.waypoints| && sqrt(0.0) == 0.0
    requires DistSq(b.mover.waypoints[b.mover.index], b.mover.position) == 0.0
    requires !b.health.dead && !b.stun.on && Enemies.Aged(b, 1.0) == b
    ensures Enemies.UpdateBody(sqrt, b, 1.0) == Enemies.Updated(Moved(b, b.mover.position), false, false)
  {
    MoveOn(sqrt, b.mover, Enemies.StepLength(b.moveSpeed, b.slowPercent, 1.0));
  }

  lemma BodyGoes(sqrt: real -> real, b: Enemies.Body)
    requires b.mover.index < |b.mover.waypoints| && sqrt(1.0) == 1.0
    requires DistSq(b.mover.waypoints[b.mover.index], b.mover.position) == 1.0
    requires Enemies.StepLength(b.moveSpeed, b.slowPercent, 1.0) == 1.0
    requires !b.health.dead && !b.stun.on && Enemies.Aged(b, 1.0) == b
    ensures Enemies.UpdateBody(sqrt, b, 1.0)
         == Enemies.Updated(Moved(b, b.mover.waypoints[b.mover.index]), false, false)
  {
    MoveThere(sqrt, b.mover, Enemies.StepLength(b.moveSpeed, b.slowPercent, 1.0));
  }

  lemma AtMoved(path: seq<Point>, position: Point, i: nat, next: Point)
    ensures Moved(At(path, position, i), next) == At(path, next, i + 1)
  {
  }

  lemma Near(m: Movement.Mover)
    requires m.index < |m.waypoints| && m.position == ORIGIN && m.waypoints[m.index] == ORIGIN
    ensures DistSq(m.waypoints[m.index], m.position) == 0.0
  {
    Apart(m.waypoints[m.index], m.position);
  }

  lemma Away(m: Movement.Mover)
    requires m.index < |m.waypoints| && m.position == ORIGIN && m.waypoints[m.index] == FAR
    ensures DistSq(m.waypoints[m.index], m.position) == 1.0
  {
    Apart(m.waypoints[m.index], m.position);
  }

  // What holds of b before it moves on from `position`.
  ghost predicate Ready(b: Enemies.Body, path: seq<Point>, position: Point, i: nat)
  {
    && b.mover == Movement.Mover(position, path, i) && !b.health.dead && !b.stun.on && Enemies.Aged(b, 1.0) == b
    && Enemies.StepLength(b.moveSpeed, b.slowPercent, 1.0) == 1.0
  }

  lemma AtReady(path: seq<Point>, position: Point, i: nat)
    ensures Ready(At(path, position, i), path, position, i)
  {
    UnitStep();
    Ageless(path, position, i);
  }

  // Staying at the origin, or going to a waypoint a unit away.
  lemma Stays(sqrt: real -> real, b: Enemies.Body, path: seq<Point>, i: nat)
    requires Roots(sqrt) && Ready(b, path, ORIGIN, i) && i < |path| && path[i] == ORIGIN
    ensures Enemies.UpdateBody(sqrt, b, 1.0) == Enemies.Updated(Moved(b, path[i]), false, false)
  {
    Near(b.mover);
    BodyStays(sqrt, b);
  }

  lemma Goes(sqrt: real -> real, b: Enemies.Body, path: seq<Point>, i: nat)
    requires Roots(sqrt) && Ready(b, path, ORIGIN, i) && i < |path| && path[i] == FAR
    ensures Enemies.UpdateBody(sqrt, b, 1.0) == Enemies.Updated(Moved(b, path[i]), false, false)
  {
    Away(b.mover);
    BodyGoes(sqrt, b);
  }

  // From the origin to a waypoint at the origin, or a unit away.
  lemma StepsOn(sqrt: real -> real, path: seq<Point>, i: nat)
    requires Roots(sqrt) && i < |path| && (path[i] == ORIGIN || path[i] == FAR)
    ensures Steps(sqrt, At(path, ORIGIN, i), At(path, path[i], i + 1))
  {
    AtReady(path, ORIGIN, i);
    AtMoved(path, ORIGIN, i, path[i]);
    if path[i] == ORIGIN { Stays(sqrt, At(path, ORIGIN, i), path, i); } else { Goes(sqrt, At(path, ORIGIN, i), path, i); }
  }

  lemma BurntAges(b: Enemies.Body)
    requires b.slows == [] && b.slowPercent == 0.0 && b.stun == Debuffs.Stun(false, 0.0)
    ensures Enemies.Aged(Burnt(b), 1.0) == b.(health := Debuffs.Health(0, true), dots := [])
  {
    AgedAtRest(Burnt(b));
    assert Debuffs.AgeDots(Debuffs.Health(1, false), [Debuffs.Dot(1.0, 5.0, 0.0)], 1.0)
        == Debuffs.Dosed(Debuffs.Health(0, true), []);
  }

  // Its update kills an enemy exactly if it burns, and lets it arrive exactly if its waypoints are used up.
  lemma Fate(sqrt: real -> real, path: seq<Point>, position: Point, index: nat, burning: bool)
    ensures var b := At(path, position, index);
            var u := Enemies.UpdateBody(sqrt, if burning then Burnt(b) else b, 1.0);
            u.body.health.dead == burning && u.arrived == (index >= |path|)
  {
    Ageless(path, position, index);
    BurntAges(At(path, position, index));
  }

  // -------- A second in which nobody is called back --------

  function Being(power: int, body: Enemies.Body): Unit
  {
    Unit(1, power, 5, true, body)
  }

  function One(power: int, body: Enemies.Body): Roster
  {
    Roster(map[1 := Being(power, body)], [], 2)
  }

  function Two(power: int, first: Enemies.Body, second: Enemies.Body): Roster
  {
    Roster(map[1 := Being(power, first), 2 := Being(power, second)], [], 3)
  }

  lemma WaveOfTwo(possible: bool)
    ensures WaveManagers.Updated(TWO_WAVES, START, 1.0, true) == WaveManagers.Spawn(ONE_OUT, Some(1))
    ensures WaveManagers.Updated(TWO_WAVES, ONE_OUT, 1.0, true) == WaveManagers.Spawn(ALL_OUT, Some(1))
    ensures WaveManagers.Updated(TWO_WAVES, ALL_OUT, 1.0, possible) == WaveManagers.Spawn(ALL_OUT, None)
  {
  }

  lemma NewBeing(power: int, path: seq<Point>)
    requires path != [] && path[0] == ORIGIN
    ensures NewUnit(1, Data(power), path) == Being(power, At(path, ORIGIN, 1))
  {
  }

  lemma FirstSpawns(x: int, power: int, turn: Turn)
    requires turn.path != [] && turn.path[0] == ORIGIN && turn.data == Some(Data(power))
    ensures WaveSpawned(TWO_WAVES, During(x, Nobody, START, 1.0, [], []), 1.0, turn)
         == During(x, One(power, At(turn.path, ORIGIN, 1)), ONE_OUT, 1.0, [], [])
  {
    NewBeing(power, turn.path);
    WaveOfTwo(true);
    assert map[][1 := Being(power, At(turn.path, ORIGIN, 1))] == One(power, At(turn.path, ORIGIN, 1)).enemies;
  }

  lemma SecondSpawns(x: int, power: int, body: Enemies.Body, sync: real, turn: Turn)
    requires turn.path != [] && turn.path[0] == ORIGIN && turn.data == Some(Data(power))
    ensures WaveSpawned(TWO_WAVES, During(x, One(power, body), ONE_OUT, sync, [], []), 1.0, turn)
         == During(x, Two(power, body, At(turn.path, ORIGIN, 1)), ALL_OUT, sync, [], [])
  {
    NewBeing(power, turn.path);
    WaveOfTwo(true);
    assert One(power, body).enemies[2 := Being(power, At(turn.path, ORIGIN, 1))]
        == Two(power, body, At(turn.path, ORIGIN, 1)).enemies;
  }

  lemma NobodySpawns(s: State, turn: Turn)
    requires s.waves == ALL_OUT
    ensures WaveSpawned(TWO_WAVES, s, 1.0, turn) == s
  {
    WaveOfTwo(turn.path != [] && turn.data.Some?);
    WaveOfTwo(true);
  }

  // An enemy's visit that calls nobody back.
  lemma JustWalks(w: World, r: Roster, s: State, id: nat, after: Enemies.Body)
    requires id in r.enemies && id in s.roster.enemies && s.roster.enemies[id] == r.enemies[id]
    requires Steps(w.sqrt, r.enemies[id].body, after)
    ensures Visited(w.stage, s, VisitOf(w.sqrt, r, id, 1.0)) == Changed(s, id, after)
  {
  }

  lemma VisitedOne(stage: WaveManagers.Stage, s: State, v: Visit)
    ensures VisitedAll(stage, s, [v]) == Visited(stage, s, v)
  {
    assert [v][1..] == [];
  }

  lemma OneWalks(w: World, x: int, power: int, b: Enemies.Body, after: Enemies.Body)
    requires Steps(w.sqrt, b, after)
    ensures Walked(w, During(x, One(power, b), ONE_OUT, 1.0, [], []), 1.0, [1])
         == During(x, One(power, after), ONE_OUT, 1.0, [], [])
  {
    var s := During(x, One(power, b), ONE_OUT, 1.0, [], []);
    var v := VisitOf(w.sqrt, s.roster, 1, 1.0);
    assert Visits(w.sqrt, s.roster, [1], 1.0) == [v];
    VisitedOne(w.stage, s, v);
    JustWalks(w, s.roster, s, 1, after);
    assert One(power, b).enemies[1 := Being(power, after)] == One(power, after).enemies;
  }

  lemma FirstChanges(x: int, power: int, first: Enemies.Body, second: Enemies.Body, attacks: seq<AttackEvent>,
                     log: seq<Notice>, after: Enemies.Body)
    ensures Changed(During(x, Two(power, first, second), ALL_OUT, 1.95, attacks, log), 1, after)
         == During(x, Two(power, after, second), ALL_OUT, 1.95, attacks, log)
  {
    assert Two(power, first, second).enemies[1 := Being(power, after)] == Two(power, after, second).enemies;
  }

  lemma SecondChanges(x: int, power: int, first: Enemies.Body, second: Enemies.Body, attacks: seq<AttackEvent>,
                      log: seq<Notice>, after: Enemies.Body)
    ensures Changed(During(x, Two(power, first, second), ALL_OUT, 1.95, attacks, log), 2, after)
         == During(x, Two(power, first, after), ALL_OUT, 1.95, attacks, log)
  {
    assert Two(power, first, second).enemies[2 := Being(power, after)] == Two(power, first, after).enemies;
  }

  lemma TwoWalk(w: World, x: int, power: int, first: Enemies.Body, second: Enemies.Body,
                first': Enemies.Body, second': Enemies.Body)
    requires Steps(w.sqrt, first, first') && Steps(w.sqrt, second, second')
    ensures Walked(w, During(x, Two(power, first, second), ALL_OUT, 1.95, [], []), 1.0, [1, 2])
         == During(x, Two(power, first', second'), ALL_OUT, 1.95, [], [])
  {
    var s := During(x, Two(power, first, second), ALL_OUT, 1.95, [], []);
    var t := During(x, Two(power, first', second), ALL_OUT, 1.95, [], []);
    var a, b := VisitOf(w.sqrt, s.roster, 1, 1.0), VisitOf(w.sqrt, s.roster, 2, 1.0);
    assert Visits(w.sqrt, s.roster, [1, 2], 1.0) == [a, b] && [a, b][1..] == [b];
    JustWalks(w, s.roster, s, 1, first');
    FirstChanges(x, power, first, second, [], [], first');
    VisitedOne(w.stage, t, b);
    JustWalks(w, s.roster, t, 2, second');
    SecondChanges(x, power, first', second, [], [], second');
  }

  // Nobody to remove.
  lemma NobodyRemoved(s: State)
    requires s.roster.removing == []
    ensures Removed(s) == s
  {
    assert Elements([]) == {};
    assert s.roster.enemies - {} == s.roster.enemies;
  }

  lemma NoCommands(w: World, s: State, turn: Turn)
    requires WaveManagers.InRange(w.stage, s.waves)
    ensures s.(board := UpgradedAll(s.board, [])) == s
    ensures Do(w, s, Second(turn)) == Settled(Fought(w, Begun(s, 1.0), 1.0, turn))
  {
    assert s.(board := UpgradedAll(s.board, [])) == s;
  }

  lemma BegunMidst(x: int, roster: Roster, waves: WaveManagers.Waves, sync: real, log: seq<Notice>)
    ensures Begun(Midst(x, roster, waves, sync, log), 1.0) == During(x, roster, waves, sync + 1.0, [], log)
  {
  }

  // Up to the minions' part: who is spawned walks at once, and nobody is removed.
  lemma SecondBegins(w: World, s: State, turn: Turn, spawned: State, walked: State)
    requires WaveManagers.InRange(w.stage, s.waves) && s.phase == Wave
    requires WaveSpawned(w.stage, Begun(s, 1.0), 1.0, turn) == spawned && Walked(w, spawned, 1.0, turn.order) == walked
    requires walked.roster.removing == []
    ensures AfterWalk(w, s, 1.0, turn) == walked
  {
    NobodyRemoved(walked);
  }

  // The rest of it, without projectiles.
  lemma SecondPasses(w: World, s: State, turn: Turn, walked: State, struck: State)
    requires WaveManagers.InRange(w.stage, s.waves) && s.phase == Wave
    requires AfterWalk(w, s, 1.0, turn) == walked && MinionsStrike(w.stage, walked, true, turn.minionHits) == struck
    requires struck.shots.flying == {} && !struck.pending && struck.sync >= SYNC
    ensures Do(w, s, Second(turn)) == Synced(struck).(updating := false)
  {
    NoCommands(w, s, turn);
    FightIs(w, s, 1.0, turn);
  }

  lemma SyncDuring(x: int, roster: Roster, waves: WaveManagers.Waves, sync: real, attacks: seq<AttackEvent>, log: seq<Notice>)
    requires sync >= 1.0
    ensures Synced(During(x, roster, waves, sync, attacks, log)).(updating := false)
         == Midst(x, roster, waves, sync - SYNC, if attacks == [] then log else log + [Batch(attacks)])
  {
  }

  // -------- The minion's attack --------

  lemma ChangedTwice(s: State, id: nat, b: Enemies.Body, c: Enemies.Body)
    requires id in s.roster.enemies
    ensures Changed(Changed(s, id, b), id, c) == Changed(s, id, c)
  {
    assert Embodied(Embodied(s.roster, id, b), id, c).enemies == Embodied(s.roster, id, c).enemies;
  }

  ghost predicate Whole(b: Enemies.Body)
  {
    b.health == Debuffs.Health(10, false) && b.dots == []
  }

  // A blow of the gun leaves an enemy one hit point and burning.
  lemma BlowHurts(stage: WaveManagers.Stage, s: State, id: nat, b: Enemies.Body)
    requires id in s.roster.enemies && s.roster.enemies[id].body == b && Whole(b)
    ensures Struck(stage, Struck(stage, s, Damage(id, 9)), Afflict(id, Enemies.Burning(1.0, 5.0)))
         == Changed(s, id, Burnt(b))
  {
    var hurt := b.(health := Debuffs.Health(1, false));
    assert Struck(stage, s, Damage(id, 9)) == Changed(s, id, hurt);
    assert [] + [Debuffs.Dot(1.0, 5.0, 0.0)] == [Debuffs.Dot(1.0, 5.0, 0.0)];
    assert Enemies.Afflicted(hurt, Enemies.Burning(1.0, 5.0)) == Burnt(b);
    ChangedTwice(s, id, hurt, Burnt(b));
  }

  lemma StruckTwo(stage: WaveManagers.Stage, s: State, a: Hit, b: Hit, rest: seq<Hit>)
    ensures StruckAll(stage, s, [a, b] + rest) == StruckAll(stage, Struck(stage, Struck(stage, s, a), b), rest)
  {
    assert ([a, b] + rest)[1..] == [b] + rest && ([b] + rest)[1..] == rest;
    assert StruckAll(stage, Struck(stage, s, a), [b] + rest) == StruckAll(stage, Struck(stage, Struck(stage, s, a), b), rest);
  }

  lemma BlowsHurt(stage: WaveManagers.Stage, s: State, gun: Skill, targets: seq<uint32>, b: Enemies.Body)
    requires gun.damage == 9 && gun.debuff == Enemies.Burning(1.0, 5.0) && targets != []
    requires targets[0] in s.roster.enemies && s.roster.enemies[targets[0]].body == b && Whole(b)
    ensures StruckAll(stage, s, Blows(gun, targets))
         == StruckAll(stage, Changed(s, targets[0], Burnt(b)), Blows(gun, targets[1..]))
  {
    BlowHurts(stage, s, targets[0], b);
    StruckTwo(stage, s, Damage(targets[0], 9), Afflict(targets[0], Enemies.Burning(1.0, 5.0)), Blows(gun, targets[1..]));
  }

  // The enemies when the minion attacks, and after.
  function Former(sc: Scene): Enemies.Body
    requires |sc.first| == 3
  {
    At(sc.first, sc.first[2], 3)
  }

  function Latter(sc: Scene): Enemies.Body
  {
    At(sc.second, ORIGIN, 2)
  }

  function Faced(sc: Scene): Roster
    requires |sc.first| == 3
  {
    Two(sc.power, Former(sc), Latter(sc))
  }

  function Hurt(sc: Scene): Roster
    requires |sc.first| == 3
  {
    Two(sc.power, if 1 in sc.targets then Burnt(Former(sc)) else Former(sc),
                  if 2 in sc.targets then Burnt(Latter(sc)) else Latter(sc))
  }

  lemma ShotQueued(stage: WaveManagers.Stage, x: int, r: Roster, gun: Skill, targets: seq<uint32>)
    requires targets != []
    ensures StruckAll(stage, During(x, r, ALL_OUT, 1.95, [], []), SkillHits(gun, 1, targets))
         == StruckAll(stage, During(x, r, ALL_OUT, 1.95, [Shot(gun, 1, targets)], [Pushed(Shot(gun, 1, targets))]),
                      Blows(gun, targets))
  {
    var shot := Shot(gun, 1, targets);
    var all := SkillHits(gun, 1, targets);
    assert all[0] == Attack(shot) && all[1..] == Blows(gun, targets);
    assert [] + [shot] == [shot] && [] + [Pushed(shot)] == [Pushed(shot)];
  }

  lemma Attacked(stage: WaveManagers.Stage, sc: Scene)
    requires Staged(sc)
    ensures var shot := Shot(Gun(sc), 1, sc.targets);
            StruckAll(stage, During(sc.x, Faced(sc), ALL_OUT, 1.95, [], []), SkillHits(Gun(sc), 1, sc.targets))
            == During(sc.x, Hurt(sc), ALL_OUT, 1.95, [shot], [Pushed(shot)])
  {
    var shot := Shot(Gun(sc), 1, sc.targets);
    ShotQueued(stage, sc.x, Faced(sc), Gun(sc), sc.targets);
    if sc.targets == [1] {
      BlowsFirst(stage, sc, [], shot);
    } else if sc.targets == [2] {
      BlowsSecond(stage, sc, Former(sc), shot, [2]);
    } else {
      BlowsFirst(stage, sc, [2], shot);
      BlowsSecond(stage, sc, Burnt(Former(sc)), shot, [2]);
    }
  }

  lemma BlowsFirst(stage: WaveManagers.Stage, sc: Scene, rest: seq<uint32>, shot: AttackEvent)
    requires |sc.first| == 3
    ensures StruckAll(stage, During(sc.x, Faced(sc), ALL_OUT, 1.95, [shot], [Pushed(shot)]), Blows(Gun(sc), [1] + rest))
         == StruckAll(stage, During(sc.x, Two(sc.power, Burnt(Former(sc)), Latter(sc)), ALL_OUT, 1.95, [shot], [Pushed(shot)]),
                      Blows(Gun(sc), rest))
  {
    var s := During(sc.x, Faced(sc), ALL_OUT, 1.95, [shot], [Pushed(shot)]);
    assert ([1] + rest)[1..] == rest;
    BlowsHurt(stage, s, Gun(sc), [1] + rest, Former(sc));
    FirstChanges(sc.x, sc.power, Former(sc), Latter(sc), [shot], [Pushed(shot)], Burnt(Former(sc)));
  }

  lemma BlowsSecond(stage: WaveManagers.Stage, sc: Scene, first: Enemies.Body, shot: AttackEvent, last: seq<uint32>)
    requires last == [2]
    ensures StruckAll(stage, During(sc.x, Two(sc.power, first, Latter(sc)), ALL_OUT, 1.95, [shot], [Pushed(shot)]),
                      Blows(Gun(sc), last))
         == During(sc.x, Two(sc.power, first, Burnt(Latter(sc))), ALL_OUT, 1.95, [shot], [Pushed(shot)])
  {
    var s := During(sc.x, Two(sc.power, first, Latter(sc)), ALL_OUT, 1.95, [shot], [Pushed(shot)]);
    BlowsHurt(stage, s, Gun(sc), last, Latter(sc));
    SecondChanges(sc.x, sc.power, first, Latter(sc), [shot], [Pushed(shot)], Burnt(Latter(sc)));
  }

  // -------- The first two seconds --------

  function AfterOne(sc: Scene): State
  {
    Midst(sc.x, One(sc.power, At(sc.first, ORIGIN, 2)), ONE_OUT, 0.95, [])
  }

  // What the first two seconds leave in the log.
  function Fired(sc: Scene): seq<Notice>
  {
    var shot := Shot(Gun(sc), 1, sc.targets);
    [Pushed(shot)] + [Batch([shot])]
  }

  function AfterTwo(sc: Scene): State
    requires |sc.first| == 3
  {
    Midst(sc.x, Hurt(sc), ALL_OUT, 1.9, Fired(sc))
  }

  lemma FirstSecond(sqrt: real -> real, sc: Scene, i: nat, turn: Turn)
    requires Roots(sqrt) && Staged(sc) && i == 1 && turn == FirstTurn(sc)
    ensures var w, s := Battle(sqrt), Midst(sc.x, Nobody, START, 0.0, []);
            && AfterWalk(w, s, 1.0, turn) == During(sc.x, One(sc.power, At(sc.first, ORIGIN, 2)), ONE_OUT, 1.0, [], [])
            && Do(w, s, Second(turn)) == AfterOne(sc)
  {
    var w, s := Battle(sqrt), Midst(sc.x, Nobody, START, 0.0, []);
    var b, after := At(sc.first, ORIGIN, i), At(sc.first, ORIGIN, i + 1);
    var walked := During(sc.x, One(sc.power, after), ONE_OUT, 1.0, [], []);
    BegunMidst(sc.x, Nobody, START, 0.0, []);
    FirstSpawns(sc.x, sc.power, turn);
    StepsOn(sqrt, sc.first, i);
    OneWalks(w, sc.x, sc.power, b, after);
    SecondBegins(w, s, turn, During(sc.x, One(sc.power, b), ONE_OUT, 1.0, [], []), walked);
    SecondPasses(w, s, turn, walked, walked);
    SyncDuring(sc.x, One(sc.power, after), ONE_OUT, 1.0, [], []);
  }

  lemma BothStep(sqrt: real -> real, sc: Scene, i: nat)
    requires Roots(sqrt) && Staged(sc) && i == 1
    ensures Steps(sqrt, At(sc.first, ORIGIN, i + 1), Former(sc)) && Steps(sqrt, At(sc.second, ORIGIN, i), Latter(sc))
  {
    StepsOn(sqrt, sc.first, i + 1);
    StepsOn(sqrt, sc.second, i);
  }

  lemma SecondWalks(sqrt: real -> real, sc: Scene, i: nat, turn: Turn)
    requires Roots(sqrt) && Staged(sc) && i == 1 && turn.order == [1, 2]
    requires turn.path == sc.second && turn.data == Some(Data(sc.power))
    ensures AfterWalk(Battle(sqrt), AfterOne(sc), 1.0, turn) == During(sc.x, Faced(sc), ALL_OUT, 1.95, [], [])
  {
    var w := Battle(sqrt);
    var f, g := At(sc.first, ORIGIN, i + 1), At(sc.second, ORIGIN, i);
    BegunMidst(sc.x, One(sc.power, f), ONE_OUT, 0.95, []);
    SecondSpawns(sc.x, sc.power, f, 1.95, turn);
    BothStep(sqrt, sc, i);
    TwoWalk(w, sc.x, sc.power, f, g, Former(sc), Latter(sc));
    SecondBegins(w, AfterOne(sc), turn, During(sc.x, Two(sc.power, f, g), ALL_OUT, 1.95, [], []),
                 During(sc.x, Faced(sc), ALL_OUT, 1.95, [], []));
  }

  lemma SecondSecond(sqrt: real -> real, sc: Scene, turn: Turn)
    requires Roots(sqrt) && Staged(sc)
    requires turn == SecondTurn(sc)
    ensures Do(Battle(sqrt), AfterOne(sc), Second(turn)) == AfterTwo(sc)
  {
    var shot := Shot(Gun(sc), 1, sc.targets);
    SecondWalks(sqrt, sc, 1, turn);
    Attacked(TWO_WAVES, sc);
    SecondPasses(Battle(sqrt), AfterOne(sc), turn, During(sc.x, Faced(sc), ALL_OUT, 1.95, [], []),
                 During(sc.x, Hurt(sc), ALL_OUT, 1.95, [shot], [Pushed(shot)]));
    SyncDuring(sc.x, Hurt(sc), ALL_OUT, 1.95, [shot], [Pushed(shot)]);
  }

  // -------- The third second --------

  function Departing(sc: Scene): seq<Departure>
  {
    (if 1 in sc.targets then [Departure(1, false, 5)] else []) + [Departure(1, true, sc.power)]
    + ((if 2 in sc.targets then [Departure(2, false, 5)] else [])
       + (if |sc.second| == 2 then [Departure(2, true, sc.power)] else []))
  }

  // Whose debuff kills departs by it, and whose waypoints are used up arrives.
  lemma WhoDeparts(sqrt: real -> real, sc: Scene, order: seq<nat>, i: nat)
    requires Staged(sc) && order == [1, 2] && i == 2
    ensures DeparturesOf(Hurt(sc), Visits(sqrt, Hurt(sc), order, 1.0)) == Departing(sc)
  {
    var r := Hurt(sc);
    var a, b := VisitOf(sqrt, r, 1, 1.0), VisitOf(sqrt, r, 2, 1.0);
    Fate(sqrt, sc.first, sc.first[2], i + 1, 1 in sc.targets);
    Fate(sqrt, sc.second, ORIGIN, i, 2 in sc.targets);
    assert Visits(sqrt, r, order, 1.0) == [a, b];
    TwoDepart(r, a, b);
    assert !Dead(r.enemies[1]) && !Dead(r.enemies[2]);
  }

  lemma TwoDepart(r: Roster, a: Visit, b: Visit)
    ensures DeparturesOf(r, [a, b]) == DeparturesBy(r, a) + DeparturesBy(r, b)
  {
    assert [a, b][1..] == [b] && [b][1..] == [];
    assert DeparturesOf(r, [b]) == DeparturesBy(r, b) + DeparturesOf(r, []);
    assert DeparturesBy(r, b) + [] == DeparturesBy(r, b);
  }

  // What the departures change in the room.
  datatype Fall = Fall(removing: seq<nat>, hp: int, phase: GameState, pending: bool, log: seq<Notice>)

  function Falling(sc: Scene, f: Fall): State
    requires |sc.first| == 3
  {
    During(sc.x, Hurt(sc).(removing := f.removing), ALL_OUT, 2.9, [], f.log).(hp := f.hp, phase := f.phase, pending := f.pending)
  }

  function Checked(f: Fall): Fall
  {
    if |f.removing| < 2 then f else f.(phase := Intermission, log := f.log + [WaveEnd])
  }

  function Fallen(f: Fall, d: Departure): Fall
  {
    var out := f.(removing := f.removing + [d.id]);
    if !d.arrival then Checked(out.(log := f.log + [Rewarded(d.id, d.worth)]))
    else
      var hit := out.(hp := f.hp - d.worth, log := f.log + [Arrived(d.id, f.hp - d.worth)]);
      if hit.hp > 0 then Checked(hit)
      else if f.phase == EndStage then hit
      else hit.(phase := EndStage, pending := true, log := hit.log + [StageEnd(false)])
  }

  function AllFallen(f: Fall, ds: seq<Departure>): Fall
    decreases |ds|
  {
    if ds == [] then f else AllFallen(Fallen(f, ds[0]), ds[1..])
  }

  lemma CheckFalls(sc: Scene, f: Fall)
    requires |sc.first| == 3
    ensures WaveChecked(TWO_WAVES, Falling(sc, f)) == Falling(sc, Checked(f))
  {
    assert |Hurt(sc).enemies| == 2;
  }

  lemma DepartFalls(sc: Scene, f: Fall, d: Departure)
    requires |sc.first| == 3
    ensures Depart(TWO_WAVES, Falling(sc, f), d) == Falling(sc, Fallen(f, d))
  {
    var out := f.(removing := f.removing + [d.id]);
    CheckFalls(sc, out.(log := f.log + [Rewarded(d.id, d.worth)]));
    CheckFalls(sc, out.(hp := f.hp - d.worth, log := f.log + [Arrived(d.id, f.hp - d.worth)]));
  }

  lemma DepartFirst(stage: WaveManagers.Stage, s: State, ds: seq<Departure>)
    requires ds != []
    ensures DepartAll(stage, s, ds) == DepartAll(stage, Depart(stage, s, ds[0]), ds[1..])
  {
    assert ds == [ds[0]] + ds[1..];
    DepartConcat(stage, s, [ds[0]], ds[1..]);
    DepartOne(stage, s, ds[0]);
  }

  lemma {:induction false} DepartAllFalls(sc: Scene, f: Fall, ds: seq<Departure>)
    requires |sc.first| == 3
    ensures DepartAll(TWO_WAVES, Falling(sc, f), ds) == Falling(sc, AllFallen(f, ds))
    decreases |ds|
  {
    if ds != [] {
      DepartFalls(sc, f, ds[0]);
      DepartAllFalls(sc, Fallen(f, ds[0]), ds[1..]);
      DepartFirst(TWO_WAVES, Falling(sc, f), ds);
    }
  }

  // At the start of the third walk, and after it.
  function Facing(sc: Scene): Fall
  {
    Fall([], WALL_HP, Wave, false, Fired(sc))
  }

  function Fell(sc: Scene): Fall
  {
    AllFallen(Facing(sc), Departing(sc))
  }

  // The walk leaves the room as its departures do, but for the enemies' bodies.
  lemma ThirdWalk(sqrt: real -> real, sc: Scene, turn: Turn) returns (walked: State)
    requires Staged(sc) && turn.order == [1, 2]
    ensures Alike(walked, Falling(sc, Fell(sc)))
    ensures AfterWalk(Battle(sqrt), AfterTwo(sc), 1.0, turn) == Removed(walked)
  {
    var s := Falling(sc, Facing(sc));
    BegunMidst(sc.x, Hurt(sc), ALL_OUT, 1.9, Fired(sc));
    assert Begun(AfterTwo(sc), 1.0) == s;
    NobodySpawns(s, turn);
    var vs := Visits(sqrt, s.roster, turn.order, 1.0);
    walked := VisitedAll(TWO_WAVES, s, vs);
    WhoDeparts(sqrt, sc, turn.order, 2);
    assert vs[0].id == 1 && vs[1].id == 2;
    WalkIsDepartures(TWO_WAVES, s, vs);
    DepartAllFalls(sc, Facing(sc), Departing(sc));
  }

  lemma NoWaveThen(sqrt: real -> real, sc: Scene, turn: Turn)
    requires Staged(sc) && turn.order == [1, 2] && Fell(sc).phase != Wave
    ensures AfterWalk(Battle(sqrt), AfterTwo(sc), 1.0, turn).phase != Wave
  {
    var walked := ThirdWalk(sqrt, sc, turn);
  }

  lemma NobodyFights(w: World, s: State, turn: Turn, r: State)
    requires WaveManagers.InRange(w.stage, s.waves) && AfterWalk(w, s, 1.0, turn) == r && r.phase != Wave
    requires r.shots.flying == {} && r.attacks == [] && r.sync >= SYNC
    ensures Do(w, s, Second(turn)) == Settled(Quieted(r))
  {
    NoCommands(w, s, turn);
    FightIs(w, s, 1.0, turn);
  }

  // No wave any more: what is left of the update synchronises, and cleans up if the stage was lost.
  lemma ThirdSecond(sqrt: real -> real, sc: Scene, turn: Turn)
    requires Staged(sc) && turn.order == [1, 2] && Fell(sc).phase != Wave
    ensures var f, t := Fell(sc), Do(Battle(sqrt), AfterTwo(sc), Second(turn));
            && t.log == (if f.pending then f.log + [Dropped([])] else f.log)
            && t.phase == (if f.pending then WaitingForPlayers else f.phase)
            && (!f.pending ==> t.roster.enemies.Keys == {1, 2} - Elements(f.removing) && t.roster.removing == [])
  {
    var walked := ThirdWalk(sqrt, sc, turn);
    NobodyFights(Battle(sqrt), AfterTwo(sc), turn, Removed(walked));
    assert Hurt(sc).enemies.Keys == {1, 2};
  }

  // -------- The minion's choice --------

  // Where the scene has the enemies stand: the targets are those in range, the nearest first, and no more than
  // the skill takes.
  ghost predicate Aimed(sc: Scene)
  {
    && Staged(sc)
    && (sc.targets == [1] ==> sc.first[2] == FAR && sc.x == 2 && sc.maxTargets == 1)
    && (sc.targets == [2] ==> sc.first[2] == FAR && sc.x == 0 && sc.maxTargets == 1)
    && (sc.targets == [1, 2] ==> sc.first[2] == ORIGIN && sc.x == 0 && sc.maxTargets == 2)
  }

  // The squared distances from the minion's half-unit tile to the two places.
  lemma Ranges()
    ensures Sq(0.0) == 0.0 && Sq(0.5) == 0.25 && Sq(-0.5) == 0.25 && Sq(1.0) == 1.0 && Sq(-1.0) == 1.0
  {
  }

  lemma DistanceTo(p: Point, q: Point, a: real, b: real)
    requires p.x - q.x == a && p.y - q.y == b
    ensures DistSq(p, q) == Sq(a) + Sq(b)
  {
  }

  lemma Stands(x: int, at: Point) returns (d: real)
    requires (x == 0 || x == 2) && (at == ORIGIN || at == FAR)
    ensures var m := Boards.NewMinion(1, Boards.MinionData(100, map[]), 7, x, 1); d == DistSq(at, Point(m.x, m.y))
    ensures d == if (x == 0) == (at == ORIGIN) then 0.25 else 1.25
  {
    var m := Boards.NewMinion(1, Boards.MinionData(100, map[]), 7, x, 1);
    d := DistSq(at, Point(m.x, m.y));
    Ranges();
    assert m.x == (if x == 0 then 0.0 else 1.0) && m.y == 0.5;
    DistanceTo(at, Point(m.x, m.y), at.x - m.x, -0.5);
  }

  lemma NearestTwo(enemies: map<nat, Unit>, p: Point, range: real, k: int, d1: real, d2: real, found: seq<Keyed<Unit>>)
    requires enemies.Keys == {1, 2} && enemies[1].active && enemies[2].active
    requires d1 == DistSq(enemies[1].body.mover.position, p) && d2 == DistSq(enemies[2].body.mover.position, p)
    requires range * range == 1.0
    requires (k == 1 && d1 <= 1.0 < d2 && found == [Keyed(d1, 1, enemies[1])])
          || (k == 1 && d2 <= 1.0 < d1 && found == [Keyed(d2, 2, enemies[2])])
          || (k == 2 && d1 == d2 <= 1.0 && found == [Keyed(d1, 1, enemies[1]), Keyed(d2, 2, enemies[2])])
    ensures Nearest(enemies, p, range, k, found)
  {
    forall c | Candidate(enemies, p, range, c) ensures c in found {
      assert c.id in enemies.Keys;
      assert c == Keyed(d1, 1, enemies[1]) || c == Keyed(d2, 2, enemies[2]);
      if |found| == 1 { assert c == found[0]; } else { assert c == found[0] || c == found[1]; }
    }
  }

  lemma TargetsChosen(sc: Scene)
    requires Aimed(sc)
    ensures Chosen(Gun(sc), During(sc.x, Faced(sc), ALL_OUT, 1.95, [], []), 1, sc.targets)
  {
    var r, m := Faced(sc), Bought(sc.x).minions[1];
    var d1 := Stands(sc.x, sc.first[2]);
    var d2 := Stands(sc.x, ORIGIN);
    var a, b := Keyed(d1, 1, r.enemies[1]), Keyed(d2, 2, r.enemies[2]);
    var found := if sc.targets == [1] then [a] else if sc.targets == [2] then [b] else [a, b];
    assert r.enemies.Keys == {1, 2};
    NearestTwo(r.enemies, Point(m.x, m.y), 1.0, sc.maxTargets, d1, d2, found);
    assert ChosenAs(Gun(sc), r, m, sc.targets, found);
  }

  // -------- The stories --------

  lemma PlaysOn(w: World, s: State, turn: Turn, rest: seq<Op>, skill: Skill, id: uint32, timer: real, timer': real)
    requires Resting(w, s) && s.phase == Wave
    requires var m := AfterWalk(w, s, 1.0, turn);
             if m.phase == Wave then
               && id in m.board.minions && Acts(skill, timer + 1.0, m, id, turn.minionHits)
               && timer' == if turn.minionHits == [] then timer + 1.0 else 0.0
             else turn.minionHits == [] && timer' == timer
    requires Resting(w, Do(w, s, Second(turn)))
    requires Plays(w, Do(w, s, Second(turn)), rest, skill, id, timer')
    ensures Plays(w, s, [Second(turn)] + rest, skill, id, timer)
  {
    var op := Second(turn);
    NoCommands(w, s, turn);
    assert ([op] + rest)[0] == op && ([op] + rest)[1..] == rest;
  }

  // The last update of a run, after a walk that leaves no wave.
  lemma PlaysNothing(w: World, s: State, turn: Turn, skill: Skill, id: uint32, timer: real)
    requires Resting(w, s) && s.phase == Wave && turn.minionHits == [] && AfterWalk(w, s, 1.0, turn).phase != Wave
    ensures Plays(w, s, [Second(turn)], skill, id, timer)
  {
    StepRests(w, s, Second(turn));
    PlaysOn(w, s, turn, [], skill, id, timer, timer);
    assert [Second(turn)] + [] == [Second(turn)];
  }

  lemma PlaysThird(sqrt: real -> real, sc: Scene, turn: Turn)
    requires Staged(sc) && Fell(sc).phase != Wave && turn == ThirdTurn(sc)
    requires Resting(Battle(sqrt), AfterTwo(sc))
    ensures Plays(Battle(sqrt), AfterTwo(sc), [Second(turn)], Gun(sc), 1, 0.0)
  {
    NoWaveThen(sqrt, sc, turn);
    PlaysNothing(Battle(sqrt), AfterTwo(sc), turn, Gun(sc), 1, 0.0);
  }

  lemma PlaysSecond(sqrt: real -> real, sc: Scene, turn: Turn, rest: seq<Op>)
    requires Roots(sqrt) && Aimed(sc) && turn == SecondTurn(sc)
    requires Resting(Battle(sqrt), AfterOne(sc)) && Resting(Battle(sqrt), AfterTwo(sc))
    requires Plays(Battle(sqrt), AfterTwo(sc), rest, Gun(sc), 1, 0.0)
    ensures Plays(Battle(sqrt), AfterOne(sc), [Second(turn)] + rest, Gun(sc), 1, 1.0)
  {
    SecondWalks(sqrt, sc, 1, turn);
    SecondSecond(sqrt, sc, turn);
    TargetsChosen(sc);
    PlaysOn(Battle(sqrt), AfterOne(sc), turn, rest, Gun(sc), 1, 1.0, 0.0);
  }

  lemma PlaysFirst(sqrt: real -> real, sc: Scene, turn: Turn, rest: seq<Op>, s: State)
    requires Roots(sqrt) && Aimed(sc) && turn == FirstTurn(sc)
    requires s == Midst(sc.x, Nobody, START, 0.0, []) && Resting(Battle(sqrt), s) && Resting(Battle(sqrt), AfterOne(sc))
    requires Plays(Battle(sqrt), AfterOne(sc), rest, Gun(sc), 1, 1.0)
    ensures Plays(Battle(sqrt), s, [Second(turn)] + rest, Gun(sc), 1, 0.0)
  {
    FirstSecond(sqrt, sc, 1, turn);
    PlaysOn(Battle(sqrt), s, turn, rest, Gun(sc), 1, 0.0, 1.0);
  }

  lemma Rested(w: World, s: State, turn: Turn, t: State)
    requires Resting(w, s) && Do(w, s, Second(turn)) == t
    ensures Resting(w, t)
  {
    StepRests(w, s, Second(turn));
  }

  lemma AllRest(sqrt: real -> real, sc: Scene, a: Turn, b: Turn, s: State)
    requires Roots(sqrt) && Staged(sc) && s == Midst(sc.x, Nobody, START, 0.0, []) && Resting(Battle(sqrt), s)
    requires a == FirstTurn(sc)
    requires b == SecondTurn(sc)
    ensures Resting(Battle(sqrt), AfterOne(sc)) && Resting(Battle(sqrt), AfterTwo(sc))
  {
    FirstSecond(sqrt, sc, 1, a);
    Rested(Battle(sqrt), s, a, AfterOne(sc));
    SecondSecond(sqrt, sc, b);
    Rested(Battle(sqrt), AfterOne(sc), b, AfterTwo(sc));
  }

  lemma PlaysAll(sqrt: real -> real, sc: Scene, s: State, a: Turn, b: Turn, c: Turn)
    requires Roots(sqrt) && Aimed(sc) && Fell(sc).phase != Wave
    requires s == Midst(sc.x, Nobody, START, 0.0, []) && Resting(Battle(sqrt), s)
    requires a == FirstTurn(sc)
    requires b == SecondTurn(sc)
    requires c == ThirdTurn(sc)
    ensures Plays(Battle(sqrt), s, [Second(a)] + ([Second(b)] + [Second(c)]), Gun(sc), 1, 0.0)
  {
    AllRest(sqrt, sc, a, b, s);
    PlaysThird(sqrt, sc, c);
    PlaysSecond(sqrt, sc, b, [Second(c)]);
    PlaysFirst(sqrt, sc, a, [Second(b)] + [Second(c)], s);
  }

  lemma ThreeOps(opening: seq<Op>, a: Op, b: Op, c: Op)
    ensures opening + [a, b, c] == opening + [a] + [b] + [c] && [a, b, c] == [a] + ([b] + [c])
  {
  }

  /** In every scene the minion does what its skill and the enemies in range dictate: it waits for two seconds
      and then strikes whom the enemy manager finds. */
  lemma MinionPlays(sqrt: real -> real, sc: Scene)
    requires Roots(sqrt) && Aimed(sc) && Fell(sc).phase != Wave
    ensures Plays(Battle(sqrt), Run(Battle(sqrt), Opening(sc.x)), Seconds(sc), Gun(sc), 1, 0.0)
  {
    Opened(Battle(sqrt), sc.x);
    PlaysAll(sqrt, sc, Run(Battle(sqrt), Opening(sc.x)), FirstTurn(sc), SecondTurn(sc), ThirdTurn(sc));
    ThreeOps([], Second(FirstTurn(sc)), Second(SecondTurn(sc)), Second(ThirdTurn(sc)));
  }

  lemma TwoSecondsOn(sqrt: real -> real, sc: Scene, opening: seq<Op>, a: Op, b: Op)
    requires Roots(sqrt) && Staged(sc) && Run(Battle(sqrt), opening) == Midst(sc.x, Nobody, START, 0.0, [])
    requires a == Second(FirstTurn(sc)) && b == Second(SecondTurn(sc))
    ensures Run(Battle(sqrt), opening + [a] + [b]) == AfterTwo(sc)
  {
    RunMore(Battle(sqrt), opening, a);
    FirstSecond(sqrt, sc, 1, FirstTurn(sc));
    RunMore(Battle(sqrt), opening + [a], b);
    SecondSecond(sqrt, sc, SecondTurn(sc));
  }

  lemma ThreeSecondsOn(sqrt: real -> real, sc: Scene, opening: seq<Op>, c: Op)
    requires Roots(sqrt) && Staged(sc) && opening == Opening(sc.x) && c == Second(ThirdTurn(sc))
    ensures Run(Battle(sqrt), opening + Seconds(sc)) == Do(Battle(sqrt), AfterTwo(sc), c)
  {
    var a, b := Second(FirstTurn(sc)), Second(SecondTurn(sc));
    Opened(Battle(sqrt), sc.x);
    TwoSecondsOn(sqrt, sc, opening, a, b);
    RunMore(Battle(sqrt), opening + [a] + [b], c);
    ThreeOps(opening, a, b, c);
  }

  lemma StorySound(w: World, sc: Scene)
    ensures Sound(Run(w, Opening(sc.x) + Seconds(sc)))
  {
    NewRoomRests(w);
    NewRoomSound();
    assert NoRepeats([1]) && NoRepeats([1, 2]);
    RunKeepsSound(w, NewRoom, Opening(sc.x) + Seconds(sc));
  }

  // The end of a scene: the log, and who is left.
  lemma Story(sqrt: real -> real, sc: Scene, f: Fall)
    requires Roots(sqrt) && Aimed(sc) && f == Fell(sc) && f.phase != Wave
    ensures var t := Run(Battle(sqrt), Opening(sc.x) + Seconds(sc));
            && t.log == (if f.pending then f.log + [Dropped([])] else f.log)
            && t.phase == (if f.pending then WaitingForPlayers else f.phase)
            && Sound(t) && (!f.pending ==> t.roster.enemies.Keys == {1, 2} - Elements(f.removing) && t.roster.removing == [])
  {
    ThreeSecondsOn(sqrt, sc, Opening(sc.x), Second(ThirdTurn(sc)));
    ThirdSecond(sqrt, sc, ThirdTurn(sc));
    StorySound(Battle(sqrt), sc);
  }

  // Whoever is left is alive.
  lemma LeftAlive(s: State, ids: set<nat>)
    requires Sound(s) && s.roster.removing == [] && s.roster.enemies.Keys == ids
    ensures Live(s.roster) == ids && forall id | id in ids :: !Dead(s.roster.enemies[id])
  {
    assert Elements([]) == {};
  }

  // What a scene tells in the end, apart from what its third second adds.
  lemma Tells(sqrt: real -> real, sc: Scene, shot: AttackEvent, f: Fall, more: seq<Notice>)
    requires Roots(sqrt) && Aimed(sc) && shot == Shot(Gun(sc), 1, sc.targets) && f == Fell(sc)
    requires f.phase != Wave && f.log == Fired(sc) + more
    ensures Plays(Battle(sqrt), Run(Battle(sqrt), Opening(sc.x)), Seconds(sc), Gun(sc), 1, 0.0)
    ensures var t := Run(Battle(sqrt), Opening(sc.x) + Seconds(sc));
            && t.phase == (if f.pending then WaitingForPlayers else f.phase)
            && t.log == [Pushed(shot), Batch([shot])] + more + (if f.pending then [Dropped([])] else [])
  {
    assert Fired(sc) == [Pushed(shot), Batch([shot])];
    assert f.log + [] == f.log;
    Story(sqrt, sc, f);
    MinionPlays(sqrt, sc);
  }

  lemma TwoFall(f: Fall, a: Departure, b: Departure)
    ensures AllFallen(f, [a, b]) == Fallen(Fallen(f, a), b)
  {
    assert [a, b][1..] == [b] && [b][1..] == [];
    assert AllFallen(Fallen(f, a), [b]) == Fallen(Fallen(f, a), b);
  }

  lemma FourFall(f: Fall, a: Departure, b: Departure, c: Departure, d: Departure)
    ensures AllFallen(f, [a, b, c, d]) == Fallen(Fallen(Fallen(Fallen(f, a), b), c), d)
  {
    assert [a, b, c, d][1..] == [b, c, d] && [b, c, d][1..] == [c, d];
    assert AllFallen(Fallen(f, a), [b, c, d]) == AllFallen(Fallen(Fallen(f, a), b), [c, d]);
    TwoFall(Fallen(Fallen(f, a), b), c, d);
  }
}
