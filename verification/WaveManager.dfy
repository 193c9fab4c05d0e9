/** WaveManager: the timed spawning of one wave's enemy list. */
module WaveManagers {
  import opened Wire

  datatype Entry = Entry(enemyId: uint32, count: uint32, spawnDelay: real)

  // waves[k] is the enemy list of wave k + 1.
  type Stage = seq<seq<Entry>>

  datatype Waves = Waves(
    current: nat, index: nat, remaining: uint32, elapsed: real, started: bool, finished: bool)

  const Fresh := Waves(0, 0, 0, 0.0, false, true)

  // waves[m_currentWave - 1] is only looked up where it exists.
  ghost predicate InRange(stage: Stage, w: Waves)
  {
    && w.current <= |stage|
    && (w.started ==> w.current >= 1)
  }

  function List(stage: Stage, w: Waves): seq<Entry>
    requires 1 <= w.current <= |stage|
  {
    stage[w.current - 1]
  }

  function Started(stage: Stage, w: Waves): Waves
  {
    if w.current >= |stage| then w else Waves(w.current + 1, 0, 0, 0.0, true, false)
  }

  // --m_remainingSpawnCount on an unsigned counter.
  function Decrement(n: uint32): uint32
  {
    if n == 0 then 0xFFFF_FFFF else n - 1
  }

  datatype Spawn = Spawn(waves: Waves, enemyId: Option<uint32>)

  // Update; `possible` is whether the path chosen at random and the enemy data allow a spawn.
  function Updated(stage: Stage, w: Waves, dt: real, possible: bool): Spawn
    requires InRange(stage, w)
  {
    if !w.started || w.finished then Spawn(w, None)
    else
      var list, timed := List(stage, w), w.(elapsed := w.elapsed + dt);
      if w.index >= |list| then Spawn(timed.(finished := true), None)
      else
        var e := list[w.index];
        var loaded := timed.(remaining := if w.remaining == 0 then e.count else w.remaining);
        if loaded.elapsed < e.spawnDelay then Spawn(loaded, None)
        else if !possible then Spawn(loaded.(elapsed := 0.0), None)
        else
          var left := Decrement(loaded.remaining);
          var index := if left == 0 then w.index + 1 else w.index;
          Spawn(loaded.(elapsed := 0.0, remaining := left, index := index, finished := index >= |list|),
                Some(e.enemyId))
  }

  class WaveManager {
    const stage: Stage

    var m_currentWave: nat
    var m_enemyListIndex: nat
    var m_remainingSpawnCount: uint32
    var m_spawnElapsedTime: real
    var m_waveStarted: bool
    var m_spawnFinished: bool

    function State(): Waves
      reads this
    {
      Waves(m_currentWave, m_enemyListIndex, m_remainingSpawnCount, m_spawnElapsedTime, m_waveStarted, m_spawnFinished)
    }

    constructor (stage: Stage)
      ensures this.stage == stage && State() == Fresh && InRange(stage, State())
    {
      this.stage := stage;
      m_currentWave, m_enemyListIndex, m_remainingSpawnCount, m_spawnElapsedTime := 0, 0, 0, 0.0;
      m_waveStarted, m_spawnFinished := false, true;
    }

    method StartWave()
      modifies this
      ensures State() == Started(stage, old(State()))
    {
      if m_currentWave >= |stage| {
        return;
      }
      m_currentWave := m_currentWave + 1;
      m_enemyListIndex, m_remainingSpawnCount, m_spawnElapsedTime := 0, 0, 0.0;
      m_waveStarted, m_spawnFinished := true, false;
    }

    method Reset()
      modifies this
      ensures State() == Fresh
    {
      m_currentWave, m_enemyListIndex, m_remainingSpawnCount, m_spawnElapsedTime := 0, 0, 0, 0.0;
      m_waveStarted, m_spawnFinished := false, true;
    }

    method Update(deltaTime: real, possible: bool) returns (spawned: Option<uint32>)
      requires InRange(stage, State())
      modifies this
      ensures Spawn(State(), spawned) == Updated(stage, old(State()), deltaTime, possible)
      ensures InRange(stage, State())
    {
      spawned := None;
      if !m_waveStarted {
        return;
      }
      if m_spawnFinished {
        return;
      }
      m_spawnElapsedTime := m_spawnElapsedTime + deltaTime;
      if m_enemyListIndex >= |stage[m_currentWave - 1]| {
        m_spawnFinished := true;
        return;
      }
      var enemyData := stage[m_currentWave - 1][m_enemyListIndex];
      if m_remainingSpawnCount == 0 {
        m_remainingSpawnCount := enemyData.count;
      }
      if m_spawnElapsedTime < enemyData.spawnDelay {
        return;
      }
      m_spawnElapsedTime := 0.0;
      spawned := SpawnNextEnemy(possible);
    }

    method SpawnNextEnemy(possible: bool) returns (spawned: Option<uint32>)
      requires 1 <= m_currentWave <= |stage| && m_enemyListIndex < |stage[m_currentWave - 1]|
      modifies this`m_enemyListIndex, this`m_remainingSpawnCount, this`m_spawnFinished
      ensures var list, left := stage[m_currentWave - 1], Decrement(old(m_remainingSpawnCount));
              if !possible then spawned == None && State() == old(State())
              else && spawned == Some(list[old(m_enemyListIndex)].enemyId)
                   && m_remainingSpawnCount == left
                   && m_enemyListIndex == old(m_enemyListIndex) + (if left == 0 then 1 else 0)
                   && m_spawnFinished == (old(m_spawnFinished) || m_enemyListIndex >= |list|)
    {
      var wave := stage[m_currentWave - 1];
      if !possible {
        return None;
      }
      spawned := Some(wave[m_enemyListIndex].enemyId);
      m_remainingSpawnCount := Decrement(m_remainingSpawnCount);
      if m_remainingSpawnCount == 0 {
        m_enemyListIndex := m_enemyListIndex + 1;
      }
      if m_enemyListIndex >= |wave| {
        m_spawnFinished := true;
      }
    }
  }

  lemma UpdateStaysInRange(stage: Stage, w: Waves, dt: real, possible: bool)
    requires InRange(stage, w)
    ensures InRange(stage, Updated(stage, w, dt, possible).waves)
    ensures InRange(stage, Started(stage, w))
  {
  }

  // -------- What a wave spawns --------

  function Repeat(id: uint32, n: nat): seq<uint32>
  {
    seq(n, i => id)
  }

  // The enemy list with each id written out count times.
  function Expand(list: seq<Entry>): seq<uint32>
  {
    if list == [] then [] else Repeat(list[0].enemyId, list[0].count) + Expand(list[1..])
  }

  ghost predicate Counted(list: seq<Entry>)
  {
    forall i :: 0 <= i < |list| ==> list[i].count >= 1
  }

  // What is still to be spawned.
  function ToCome(list: seq<Entry>, index: nat, remaining: nat): seq<uint32>
  {
    if index >= |list| then []
    else if remaining == 0 then Expand(list[index..])
    else Repeat(list[index].enemyId, remaining) + Expand(list[index + 1..])
  }

  // One wave, from its start, under any updates.
  datatype Turn = Turn(dt: real, possible: bool)
  datatype WaveRun = WaveRun(waves: Waves, spawned: seq<uint32>, underflow: bool)

  function Play(stage: Stage, r: WaveRun, turn: Turn): WaveRun
    requires InRange(stage, r.waves)
  {
    var s := Updated(stage, r.waves, turn.dt, turn.possible);
    WaveRun(s.waves, if s.enemyId.Some? then r.spawned + [s.enemyId.value] else r.spawned,
            r.underflow || (s.enemyId.Some? && s.waves.remaining == 0xFFFF_FFFF))
  }

  function PlayAll(stage: Stage, r: WaveRun, turns: seq<Turn>): WaveRun
    requires InRange(stage, r.waves)
    decreases |turns|
  {
    if turns == [] then r
    else
      UpdateStaysInRange(stage, r.waves, turns[0].dt, turns[0].possible);
      PlayAll(stage, Play(stage, r, turns[0]), turns[1..])
  }

  /** Spawned so far and still to come make up the expanded list; nothing has wrapped; and spawning is
      finished exactly when the list is used up, except that an empty list takes one update to notice. */
  ghost predicate OnList(stage: Stage, r: WaveRun)
  {
    && 1 <= r.waves.current <= |stage| && r.waves.started && !r.underflow
    && var list := List(stage, r.waves);
       && Expand(list) == r.spawned + ToCome(list, r.waves.index, r.waves.remaining)
       && r.waves.index <= |list|
       && (r.waves.index < |list| ==> r.waves.remaining <= list[r.waves.index].count && !r.waves.finished)
       && (r.waves.index == |list| && list != [] ==> r.waves.finished)
  }

  lemma RepeatSplits(id: uint32, n: nat)
    requires n > 0
    ensures Repeat(id, n) == [id] + Repeat(id, n - 1)
  {
  }

  lemma ExpandAt(list: seq<Entry>, i: nat)
    requires i < |list|
    ensures Expand(list[i..]) == Repeat(list[i].enemyId, list[i].count) + Expand(list[i + 1..])
  {
    assert list[i..][1..] == list[i + 1..];
  }

  // A spawn takes the first of what is to come.
  lemma SpawnTakesFirst(list: seq<Entry>, index: nat, loaded: nat)
    requires index < |list| && loaded >= 1
    ensures var id := list[index].enemyId;
            ToCome(list, index, loaded)
            == [id] + (if loaded == 1 then ToCome(list, index + 1, 0) else ToCome(list, index, loaded - 1))
  {
    var id := list[index].enemyId;
    RepeatSplits(id, loaded);
    ConcatAssoc([id], Repeat(id, loaded - 1), Expand(list[index + 1..]));
    if loaded == 1 { assert Repeat(id, 0) + Expand(list[index + 1..]) == Expand(list[index + 1..]); }
  }

  // Loading the counter of the entry reached changes nothing of what is to come.
  lemma LoadingKeepsToCome(list: seq<Entry>, index: nat, remaining: nat) returns (loaded: nat)
    requires index < |list| && remaining <= list[index].count && list[index].count >= 1
    ensures loaded == if remaining == 0 then list[index].count else remaining
    ensures 1 <= loaded <= list[index].count && ToCome(list, index, loaded) == ToCome(list, index, remaining)
  {
    loaded := if remaining == 0 then list[index].count else remaining;
    ExpandAt(list, index);
  }

  // A spawn moves the first of what is to come to the end of what was spawned.
  lemma SpawnKeepsList(list: seq<Entry>, spawned: seq<uint32>, index: nat, loaded: nat)
    requires index < |list| && 1 <= loaded <= list[index].count
    requires Expand(list) == spawned + ToCome(list, index, loaded)
    ensures var left := loaded - 1;
            Expand(list) == (spawned + [list[index].enemyId])
                            + ToCome(list, if left == 0 then index + 1 else index, left)
  {
    var left := loaded - 1;
    SpawnTakesFirst(list, index, loaded);
    ConcatAssoc(spawned, [list[index].enemyId], ToCome(list, if left == 0 then index + 1 else index, left));
  }

  lemma WaitKeepsOnList(stage: Stage, r: WaveRun, turn: Turn)
    requires OnList(stage, r) && Counted(List(stage, r.waves))
    requires Updated(stage, r.waves, turn.dt, turn.possible).enemyId == None
    ensures OnList(stage, Play(stage, r, turn))
  {
    var w, list := r.waves, List(stage, r.waves);
    if !w.finished && w.index < |list| {
      var loaded := LoadingKeepsToCome(list, w.index, w.remaining);
    }
  }

  lemma SpawnKeepsOnList(stage: Stage, r: WaveRun, turn: Turn)
    requires OnList(stage, r) && Counted(List(stage, r.waves))
    requires Updated(stage, r.waves, turn.dt, turn.possible).enemyId.Some?
    ensures OnList(stage, Play(stage, r, turn))
  {
    var w, list := r.waves, List(stage, r.waves);
    var loaded := LoadingKeepsToCome(list, w.index, w.remaining);
    SpawnKeepsList(list, r.spawned, w.index, loaded);
  }

  lemma PlayKeepsOnList(stage: Stage, r: WaveRun, turn: Turn)
    requires OnList(stage, r) && Counted(List(stage, r.waves))
    ensures OnList(stage, Play(stage, r, turn)) && Play(stage, r, turn).waves.current == r.waves.current
  {
    if Updated(stage, r.waves, turn.dt, turn.possible).enemyId == None {
      WaitKeepsOnList(stage, r, turn);
    } else {
      SpawnKeepsOnList(stage, r, turn);
    }
  }

  lemma {:induction false} PlayAllKeepsOnList(stage: Stage, r: WaveRun, turns: seq<Turn>)
    requires OnList(stage, r) && Counted(List(stage, r.waves))
    ensures OnList(stage, PlayAll(stage, r, turns)) && PlayAll(stage, r, turns).waves.current == r.waves.current
    decreases |turns|
  {
    if turns != [] {
      PlayKeepsOnList(stage, r, turns[0]);
      PlayAllKeepsOnList(stage, Play(stage, r, turns[0]), turns[1..]);
    }
  }

  // A wave as StartWave leaves it.
  function Begin(current: nat): WaveRun
  {
    WaveRun(Waves(current, 0, 0, 0.0, true, false), [], false)
  }

  lemma BeginOnList(stage: Stage, current: nat)
    requires 1 <= current <= |stage|
    ensures OnList(stage, Begin(current))
  {
    var list := stage[current - 1];
    assert list[0..] == list;
    assert [] + Expand(list) == Expand(list);
  }

  /** Over any updates, failed spawns included, the enemies spawned are a prefix of the expanded list, and
      spawning is finished only, and with something to spawn exactly, when that is all of it. */
  lemma SpawnsExpandedList(stage: Stage, current: nat, turns: seq<Turn>)
    requires 1 <= current <= |stage| && Counted(stage[current - 1])
    ensures var r, all := PlayAll(stage, Begin(current), turns), Expand(stage[current - 1]);
            && r.spawned <= all && !r.underflow
            && (r.waves.finished ==> r.spawned == all)
            && (stage[current - 1] != [] && r.spawned == all ==> r.waves.finished)
  {
    BeginOnList(stage, current);
    PlayAllKeepsOnList(stage, Begin(current), turns);
    var r, list := PlayAll(stage, Begin(current), turns), stage[current - 1];
    if r.waves.index < |list| {
      ExpandAt(list, r.waves.index);
      assert |ToCome(list, r.waves.index, r.waves.remaining)| > 0;
    } else {
      assert r.spawned + [] == r.spawned;
    }
  }

  // -------- Exactly when the counter cannot wrap --------

  // An update late enough for any delay.
  function Late(list: seq<Entry>): real
  {
    if list == [] then 0.0
    else if list[0].spawnDelay > Late(list[1..]) then list[0].spawnDelay else Late(list[1..])
  }

  lemma {:induction false} LateEnough(list: seq<Entry>, i: nat)
    requires i < |list|
    ensures list[i].spawnDelay <= Late(list) && 0.0 <= Late(list)
  {
    if i > 0 { LateEnough(list[1..], i - 1); }
    LateNonNegative(list);
  }

  lemma {:induction false} LateNonNegative(list: seq<Entry>)
    ensures 0.0 <= Late(list)
  {
    if list != [] { LateNonNegative(list[1..]); }
  }

  // Updating late n times.
  function Turns(list: seq<Entry>, n: nat): seq<Turn>
  {
    seq(n, i => Turn(Late(list), true))
  }

  // Every late update spawns, until the first entry with count 0 wraps the counter.
  lemma {:induction false} ReachesWrap(stage: Stage, r: WaveRun, k: nat) returns (n: nat)
    requires 1 <= r.waves.current <= |stage| && r.waves.started && !r.waves.finished && r.waves.elapsed >= 0.0
    requires var list := List(stage, r.waves);
             && k < |list| && list[k].count == 0 && r.waves.index <= k
             && (r.waves.index == k ==> r.waves.remaining == 0)
             && (forall i :: 0 <= i < k ==> list[i].count >= 1)
    ensures PlayAll(stage, r, Turns(List(stage, r.waves), n)).underflow
    decreases k - r.waves.index,
              var list := List(stage, r.waves);
              if r.waves.remaining == 0 then list[r.waves.index].count as int else r.waves.remaining as int
  {
    var list := List(stage, r.waves);
    LateEnough(list, r.waves.index);
    var next := Play(stage, r, Turn(Late(list), true));
    if r.waves.index == k {
      n := 1;
      assert Turns(list, 1) == [Turn(Late(list), true)];
      assert PlayAll(stage, next, []) == next;
    } else {
      n := ReachesWrap(stage, next, k);
      n := n + 1;
      assert Turns(list, n)[1..] == Turns(list, n - 1);
    }
  }

  lemma {:induction false} FirstZero(list: seq<Entry>) returns (k: nat)
    requires !Counted(list)
    ensures k < |list| && list[k].count == 0 && forall i :: 0 <= i < k ==> list[i].count >= 1
  {
    if list[0].count == 0 {
      k := 0;
    } else {
      k := FirstZero(list[1..]);
      k := k + 1;
      assert forall i :: 0 < i < k ==> list[i] == list[1..][i - 1];
    }
  }

  /** The unsigned spawn counter can wrap in a wave exactly when some entry has count 0. */
  lemma WrapIff(stage: Stage, current: nat)
    requires 1 <= current <= |stage|
    ensures (exists turns :: PlayAll(stage, Begin(current), turns).underflow) <==> !Counted(stage[current - 1])
  {
    if Counted(stage[current - 1]) {
      forall turns ensures !PlayAll(stage, Begin(current), turns).underflow {
        SpawnsExpandedList(stage, current, turns);
      }
    } else {
      var k := FirstZero(stage[current - 1]);
      var n := ReachesWrap(stage, Begin(current), k);
      assert PlayAll(stage, Begin(current), Turns(stage[current - 1], n)).underflow;
    }
  }
}
