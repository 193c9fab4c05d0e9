/** When a wave spawns: read off the list and the updates alone, without the wave manager's counters. */
module SpawnTimes {
  import opened Wire
  import opened WaveManagers

  // How often an entry spawns; a count of 0 wraps.
  function Times(e: Entry): nat
  {
    if e.count == 0 then 0x1_0000_0000 else e.count
  }

  // Spawns of the first n entries.
  function Before(list: seq<Entry>, n: nat): nat
    requires n <= |list|
  {
    if n == 0 then 0 else Before(list, n - 1) + Times(list[n - 1])
  }

  // The entry that m spawns have come to, if any is left; looked for from entry i on.
  function Stand(list: seq<Entry>, m: nat, i: nat): (e: nat)
    requires i <= |list|
    ensures i <= e <= |list|
    decreases |list| - i
  {
    if i == |list| || m < Before(list, i + 1) then i else Stand(list, m, i + 1)
  }

  // Time passed in the updates from `a` up to `b`.
  function Since(turns: seq<Turn>, a: nat, b: nat): real
    requires a <= b <= |turns|
  {
    if a == b then 0.0 else Since(turns, a, b - 1) + turns[b - 1].dt
  }

  // Update i tries to spawn: something is left, and its delay has passed since the last try.
  predicate Tries(list: seq<Entry>, turns: seq<Turn>, i: nat): (b: bool)
    requires i < |turns|
    ensures b ==> Stand(list, Made(list, turns, i), 0) < |list|
    decreases i, 2
  {
    var e := Stand(list, Made(list, turns, i), 0);
    e < |list| && Since(turns, LastTry(list, turns, i), i + 1) >= list[e].spawnDelay
  }

  predicate Spawns(list: seq<Entry>, turns: seq<Turn>, i: nat): (b: bool)
    requires i < |turns|
    ensures b ==> Stand(list, Made(list, turns, i), 0) < |list|
    decreases i, 3
  {
    Tries(list, turns, i) && turns[i].possible
  }

  // Just after the last try among the first n updates, or the start.
  function LastTry(list: seq<Entry>, turns: seq<Turn>, n: nat): (a: nat)
    requires n <= |turns|
    ensures a <= n
    decreases n, 1
  {
    if n == 0 then 0 else if Tries(list, turns, n - 1) then n else LastTry(list, turns, n - 1)
  }

  // Spawns among the first n updates.
  function Made(list: seq<Entry>, turns: seq<Turn>, n: nat): nat
    requires n <= |turns|
    decreases n, 0
  {
    if n == 0 then 0 else Made(list, turns, n - 1) + (if Spawns(list, turns, n - 1) then 1 else 0)
  }

  lemma {:induction false} BeforeGrows(list: seq<Entry>, a: nat, b: nat)
    requires a <= b <= |list|
    ensures Before(list, a) <= Before(list, b)
  {
    if a < b { BeforeGrows(list, a, b - 1); }
  }

  lemma {:induction false} StandIs(list: seq<Entry>, m: nat, i: nat, e: nat)
    requires i <= e <= |list| && Before(list, e) <= m && (e < |list| ==> m < Before(list, e + 1))
    ensures Stand(list, m, i) == e
    decreases e - i
  {
    if i < e {
      BeforeGrows(list, i + 1, e);
      StandIs(list, m, i + 1, e);
    }
  }

  // The counters, in terms of the spawns made: k of the entry's have been.
  ghost predicate Counts(list: seq<Entry>, w: Waves, m: nat)
  {
    && w.index <= |list| && Before(list, w.index) <= m
    && (w.index < |list| ==>
          && m < Before(list, w.index + 1) && !w.finished
          && var e, k := list[w.index], m - Before(list, w.index);
             if k == 0 then w.remaining == 0 || w.remaining == e.count else w.remaining == Times(e) - k)
  }

  ghost predicate Explained(stage: Stage, list: seq<Entry>, turns: seq<Turn>, n: nat, r: WaveRun)
    requires n <= |turns|
  {
    && 1 <= r.waves.current <= |stage| && r.waves.started && List(stage, r.waves) == list
    && |r.spawned| == Made(list, turns, n) && Counts(list, r.waves, Made(list, turns, n))
    && (r.waves.index < |list| ==> r.waves.elapsed == Since(turns, LastTry(list, turns, n), n))
    && (r.waves.index == |list| ==> (r.waves.finished <==> list != [] || n > 0))
  }

  lemma StandsThere(list: seq<Entry>, w: Waves, m: nat)
    requires Counts(list, w, m)
    ensures Stand(list, m, 0) == w.index
  {
    StandIs(list, m, 0, w.index);
  }

  // A spawn takes one from what is left of the entry, and then goes on to the next.
  lemma SpawnCounts(stage: Stage, list: seq<Entry>, w: Waves, m: nat, dt: real)
    requires 1 <= w.current <= |stage| && w.started && List(stage, w) == list && Counts(list, w, m)
    requires w.index < |list| && w.elapsed + dt >= list[w.index].spawnDelay
    ensures var s := Updated(stage, w, dt, true);
            && s.enemyId == Some(list[w.index].enemyId) && Counts(list, s.waves, m + 1)
            && s.waves.elapsed == 0.0 && s.waves.started && s.waves.current == w.current
  {
    var e, k := list[w.index], m - Before(list, w.index);
    var loaded := if w.remaining == 0 then e.count else w.remaining;
    assert Decrement(loaded) == Times(e) - k - 1;
    assert w.index + 1 < |list| ==> Before(list, w.index + 2) == Before(list, w.index + 1) + Times(list[w.index + 1]);
  }

  lemma WaitCounts(stage: Stage, list: seq<Entry>, w: Waves, m: nat, turn: Turn)
    requires 1 <= w.current <= |stage| && w.started && List(stage, w) == list && Counts(list, w, m)
    requires w.index < |list| ==> w.elapsed + turn.dt < list[w.index].spawnDelay || !turn.possible
    ensures var s := Updated(stage, w, turn.dt, turn.possible);
            && s.enemyId == None && Counts(list, s.waves, m) && s.waves.started && s.waves.current == w.current
            && (w.index < |list| ==>
                  s.waves.elapsed == if w.elapsed + turn.dt < list[w.index].spawnDelay then w.elapsed + turn.dt else 0.0)
            && s.waves.index == w.index
  {
  }

  lemma OneUpdate(stage: Stage, list: seq<Entry>, turns: seq<Turn>, n: nat, r: WaveRun)
    requires n < |turns| && Explained(stage, list, turns, n, r)
    ensures var t := Play(stage, r, turns[n]);
            && Explained(stage, list, turns, n + 1, t)
            && t.spawned == if Spawns(list, turns, n)
                            then r.spawned + [list[Stand(list, Made(list, turns, n), 0)].enemyId] else r.spawned
  {
    var m, turn := Made(list, turns, n), turns[n];
    StandsThere(list, r.waves, m);
    assert Since(turns, LastTry(list, turns, n), n + 1) == Since(turns, LastTry(list, turns, n), n) + turn.dt;
    assert Tries(list, turns, n)
       <==> r.waves.index < |list| && r.waves.elapsed + turn.dt >= list[r.waves.index].spawnDelay;
    assert Since(turns, n + 1, n + 1) == 0.0;
    if Spawns(list, turns, n) {
      SpawnCounts(stage, list, r.waves, m, turn.dt);
    } else {
      WaitCounts(stage, list, r.waves, m, turn);
    }
  }

  lemma {:induction false} PlaySnoc(stage: Stage, r: WaveRun, turns: seq<Turn>, turn: Turn)
    requires InRange(stage, r.waves)
    ensures InRange(stage, PlayAll(stage, r, turns).waves)
    ensures PlayAll(stage, r, turns + [turn]) == Play(stage, PlayAll(stage, r, turns), turn)
    decreases |turns|
  {
    if turns == [] {
      assert turns + [turn] == [turn] && [turn][1..] == [];
    } else {
      UpdateStaysInRange(stage, r.waves, turns[0].dt, turns[0].possible);
      assert (turns + [turn])[0] == turns[0] && (turns + [turn])[1..] == turns[1..] + [turn];
      PlaySnoc(stage, Play(stage, r, turns[0]), turns[1..], turn);
    }
  }

  lemma {:induction false} RunExplained(stage: Stage, current: nat, turns: seq<Turn>, n: nat)
    requires 1 <= current <= |stage| && n <= |turns|
    ensures Explained(stage, stage[current - 1], turns, n, PlayAll(stage, Begin(current), turns[..n]))
  {
    if n > 0 {
      RunExplained(stage, current, turns, n - 1);
      PlaySnoc(stage, Begin(current), turns[..n - 1], turns[n - 1]);
      assert turns[..n] == turns[..n - 1] + [turns[n - 1]];
      OneUpdate(stage, stage[current - 1], turns, n - 1, PlayAll(stage, Begin(current), turns[..n - 1]));
    }
  }

  /** An update of a wave spawns exactly if it can, something is left of the list, and the time since the last
      try, or since the start, comes to the delay of the entry the spawns have come to; and it spawns that. */
  lemma SpawnsWhenDue(stage: Stage, current: nat, turns: seq<Turn>, i: nat)
    requires 1 <= current <= |stage| && i < |turns|
    ensures var list := stage[current - 1];
            var r, t := PlayAll(stage, Begin(current), turns[..i]), PlayAll(stage, Begin(current), turns[..i + 1]);
            && |r.spawned| == Made(list, turns, i)
            && t.spawned == if Spawns(list, turns, i)
                            then r.spawned + [list[Stand(list, Made(list, turns, i), 0)].enemyId] else r.spawned
  {
    RunExplained(stage, current, turns, i);
    PlaySnoc(stage, Begin(current), turns[..i], turns[i]);
    assert turns[..i + 1] == turns[..i] + [turns[i]];
    OneUpdate(stage, stage[current - 1], turns, i, PlayAll(stage, Begin(current), turns[..i]));
  }

  lemma {:induction false} TriedSince(list: seq<Entry>, turns: seq<Turn>, i: nat, n: nat)
    requires i < n <= |turns| && Tries(list, turns, i)
    ensures LastTry(list, turns, n) >= i + 1
  {
    if i + 1 < n { TriedSince(list, turns, i, n - 1); }
  }

  lemma {:induction false} SinceLonger(turns: seq<Turn>, a: nat, b: nat, c: nat)
    requires a <= b <= c <= |turns| && forall j :: 0 <= j < |turns| ==> turns[j].dt >= 0.0
    ensures Since(turns, b, c) <= Since(turns, a, c) && Since(turns, a, b) >= 0.0
    decreases c
  {
    if b < c {
      SinceLonger(turns, a, b, c - 1);
    } else if a < b {
      SinceLonger(turns, a, b - 1, b - 1);
    }
  }

  /** So no spawn follows another, or a failed try, sooner than its entry's delay. */
  lemma SpawnsApart(list: seq<Entry>, turns: seq<Turn>, i: nat, j: nat)
    requires i < j < |turns| && Tries(list, turns, i) && Spawns(list, turns, j)
    requires forall k :: 0 <= k < |turns| ==> turns[k].dt >= 0.0
    ensures Since(turns, i + 1, j + 1) >= list[Stand(list, Made(list, turns, j), 0)].spawnDelay
  {
    TriedSince(list, turns, i, j);
    SinceLonger(turns, i + 1, LastTry(list, turns, j), j + 1);
  }

  lemma AllMade(list: seq<Entry>, w: Waves, m: nat)
    requires Counts(list, w, m)
    ensures w.index == |list| <==> m >= Before(list, |list|)
  {
    if w.index < |list| { BeforeGrows(list, w.index + 1, |list|); }
  }

  /** Starting a wave begins it, whatever became of the one before; after the last wave nothing begins. */
  lemma StartBegins(stage: Stage, w: Waves)
    ensures Started(stage, w) == if w.current < |stage| then Begin(w.current + 1).waves else w
  {
  }

  /** Spawning is finished exactly when every entry has spawned as often as it should, of an empty list at the first
      update. */
  lemma FinishedIff(stage: Stage, current: nat, turns: seq<Turn>)
    requires 1 <= current <= |stage|
    ensures var list := stage[current - 1];
            PlayAll(stage, Begin(current), turns).waves.finished
            <==> Made(list, turns, |turns|) >= Before(list, |list|) && (list != [] || turns != [])
  {
    RunExplained(stage, current, turns, |turns|);
    assert turns[..|turns|] == turns;
    AllMade(stage[current - 1], PlayAll(stage, Begin(current), turns).waves, Made(stage[current - 1], turns, |turns|));
  }
}
