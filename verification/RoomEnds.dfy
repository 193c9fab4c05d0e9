/** How often the end of a wave and of a stage is announced: by a walk, by an update, and over a run. */
module RoomEnds {
  import opened Wire
  import opened EnemyManagers
  import opened RoomStates
  import opened RoomLaws
  import opened RoomEnemies
  import opened RoomWalks
  import opened RoomWaves
  import opened RoomTicks
  import Debuffs
  import Enemies
  import WaveManagers

  // -------- A walk, departure by departure --------

  predicate Last(stage: WaveManagers.Stage, s: State)
  {
    |stage| <= s.waves.current
  }

  // Before departure n of a walk that starts in a wave, the stage has ended, and no end of a wave has undone that.
  predicate Ended(stage: WaveManagers.Stage, s: State, ds: seq<Departure>, n: nat)
    requires n <= |ds|
  {
    n > 0 && (Breaks(s, ds, n - 1) || (if Passes(s, ds, n - 1) then Last(stage, s) else Ended(stage, s, ds, n - 1)))
  }

  // The checks that find the wave over, less those that find the stage ended after the last wave.
  function WalkEnds(stage: WaveManagers.Stage, s: State, ds: seq<Departure>, n: nat): nat
    requires n <= |ds|
  {
    if n == 0 then 0
    else
      WalkEnds(stage, s, ds, n - 1)
      + (if Passes(s, ds, n - 1) && !(Last(stage, s) && Ended(stage, s, ds, n - 1)) then 1 else 0)
  }

  // The losses, and after the last wave the win, while the stage has not ended.
  function WalkStageEnds(stage: WaveManagers.Stage, s: State, ds: seq<Departure>, n: nat): nat
    requires n <= |ds|
  {
    if n == 0 then 0
    else
      WalkStageEnds(stage, s, ds, n - 1)
      + (if !Ended(stage, s, ds, n - 1) && (Breaks(s, ds, n - 1) || (Passes(s, ds, n - 1) && Last(stage, s))) then 1 else 0)
  }

  lemma LastOfPrefix(s: State, ds: seq<Departure>, n: nat)
    requires n < |ds|
    ensures ds[..n] + [ds[n]] == ds[..n + 1]
    ensures Breaks(s, ds[..n + 1], n) == Breaks(s, ds, n) && Passes(s, ds[..n + 1], n) == Passes(s, ds, n)
  {
    assert ds[..n + 1][..n + 1] == ds[..n + 1];
  }

  // What the departures before the n-th have announced.
  ghost predicate Announced(stage: WaveManagers.Stage, s: State, ds: seq<Departure>, n: nat, t: State)
    requires n <= |ds|
  {
    && Ends(t.log) == Ends(s.log) + WalkEnds(stage, s, ds, n)
    && StageEnds(t.log) == StageEnds(s.log) + WalkStageEnds(stage, s, ds, n)
    && (t.phase == EndStage <==> Ended(stage, s, ds, n))
  }

  lemma OneMoreAnnounced(stage: WaveManagers.Stage, s: State, ds: seq<Departure>, n: nat, a: State)
    requires n < |ds| && Reached(s, ds[..n], a) && Announced(stage, s, ds, n, a)
    ensures Announced(stage, s, ds, n + 1, Depart(stage, a, ds[n]))
  {
    var noted := a.log + [NoticeOf(Wall(s.hp, ds[..n + 1]), ds[n])];
    LastOfPrefix(s, ds, n);
    OneDeparture(stage, s, ds[..n], ds[n], a);
    EndsLogged(a.log, NoticeOf(Wall(s.hp, ds[..n + 1]), ds[n]));
    EndsLogged(noted, StageEnd(false));
    EndsLogged(noted, StageEnd(true));
    EndsLogged(noted, WaveEnd);
  }

  lemma {:induction false} DeparturesAnnounce(stage: WaveManagers.Stage, s: State, ds: seq<Departure>, n: nat)
    requires s.updating && s.phase != EndStage && n <= |ds|
    ensures Announced(stage, s, ds, n, DepartAll(stage, s, ds[..n]))
  {
    if n > 0 {
      DeparturesAnnounce(stage, s, ds, n - 1);
      AllReached(stage, s, ds[..n - 1]);
      OneMoreAnnounced(stage, s, ds, n - 1, DepartAll(stage, s, ds[..n - 1]));
      LastOfPrefix(s, ds, n - 1);
      DepartSnoc(stage, s, ds[..n - 1], ds[n - 1]);
    }
  }

  /** A walk announces the end of the wave once for every departure at which the check succeeds, and after the
      last wave once; the end of the stage once for every loss that does not find it ended. */
  lemma WalkAnnounces(stage: WaveManagers.Stage, s: State, vs: seq<Visit>)
    requires s.updating && s.phase == Wave && Once(vs)
    ensures var ds := DeparturesOf(s.roster, vs); Announced(stage, s, ds, |ds|, VisitedAll(stage, s, vs))
  {
    var ds := DeparturesOf(s.roster, vs);
    WalkIsDepartures(stage, s, vs);
    DeparturesAnnounce(stage, s, ds, |ds|);
    assert ds[..|ds|] == ds;
  }

  // -------- More than once --------

  ghost predicate TwoPasses(s: State, ds: seq<Departure>, n: nat)
    requires n <= |ds|
  {
    exists k :: 0 <= k < n && Passes(s, ds, k) && SomePass(s, ds, k)
  }

  ghost predicate BreakPassBreak(s: State, ds: seq<Departure>, n: nat)
    requires n <= |ds|
  {
    exists k :: 0 <= k < n && Breaks(s, ds, k) && SomePassAfterBreak(s, ds, k)
  }

  // One departure more.
  lemma FurtherOn(s: State, ds: seq<Departure>, n: nat)
    requires n < |ds|
    ensures SomePass(s, ds, n + 1) <==> SomePass(s, ds, n) || Passes(s, ds, n)
    ensures SomeBreak(s, ds, n + 1) <==> SomeBreak(s, ds, n) || Breaks(s, ds, n)
    ensures TwoPasses(s, ds, n + 1) <==> TwoPasses(s, ds, n) || (Passes(s, ds, n) && SomePass(s, ds, n))
    ensures SomePassAfterBreak(s, ds, n + 1) <==> SomePassAfterBreak(s, ds, n) || (Passes(s, ds, n) && SomeBreak(s, ds, n))
    ensures BreakPassBreak(s, ds, n + 1)
       <==> BreakPassBreak(s, ds, n) || (Breaks(s, ds, n) && SomePassAfterBreak(s, ds, n))
  {
  }

  lemma {:induction false} WaveEndsTwiceIff(stage: WaveManagers.Stage, s: State, ds: seq<Departure>, n: nat)
    requires n <= |ds|
    ensures !Last(stage, s) ==> (WalkEnds(stage, s, ds, n) >= 1 <==> SomePass(s, ds, n))
    ensures Last(stage, s) && WalkEnds(stage, s, ds, n) >= 1 ==> WalkEnds(stage, s, ds, n) == 1 && Ended(stage, s, ds, n)
    ensures WalkEnds(stage, s, ds, n) >= 2 <==> !Last(stage, s) && TwoPasses(s, ds, n)
  {
    if n > 0 {
      WaveEndsTwiceIff(stage, s, ds, n - 1);
      FurtherOn(s, ds, n - 1);
    }
  }

  lemma {:induction false} StageEndsTwiceIff(stage: WaveManagers.Stage, s: State, ds: seq<Departure>, n: nat)
    requires n <= |ds|
    ensures !Last(stage, s) ==>
              && (WalkStageEnds(stage, s, ds, n) >= 1 <==> SomeBreak(s, ds, n))
              && (SomeBreak(s, ds, n) && !Ended(stage, s, ds, n) ==> SomePassAfterBreak(s, ds, n))
              && (SomePassAfterBreak(s, ds, n) && Ended(stage, s, ds, n) ==> BreakPassBreak(s, ds, n))
              && (Ended(stage, s, ds, n) ==> SomeBreak(s, ds, n))
              && (SomePassAfterBreak(s, ds, n) ==> SomeBreak(s, ds, n))
    ensures Last(stage, s) && WalkStageEnds(stage, s, ds, n) >= 1 ==>
              WalkStageEnds(stage, s, ds, n) == 1 && Ended(stage, s, ds, n)
    ensures WalkStageEnds(stage, s, ds, n) >= 2 <==> !Last(stage, s) && BreakPassBreak(s, ds, n)
  {
    if n > 0 {
      StageEndsTwiceIff(stage, s, ds, n - 1);
      FurtherOn(s, ds, n - 1);
    }
  }

  /** Four departures that end a wave twice: of three live enemies one dies and arrives, and the wall holds; then
      the two others die. */
  lemma FourDepartures(stage: WaveManagers.Stage, s: State, ds: seq<Departure>, power: int)
    requires s.updating && s.phase == Wave && s.waves.finished && !Last(stage, s)
    requires |s.roster.enemies| == 3 && s.roster.removing == [] && s.hp > power
    requires |ds| == 4 && ds[1].arrival && ds[1].worth == power && !ds[0].arrival && !ds[2].arrival && !ds[3].arrival
    ensures Ends(DepartAll(stage, s, ds).log) == Ends(s.log) + 2
  {
    assert ds[..1][..0] == [] && ds[..2][..1] == ds[..1];
    assert Wall(s.hp, ds[..1]) == s.hp;
    assert Wall(s.hp, ds[..2]) == s.hp - power;
    DeparturesAnnounce(stage, s, ds, 4);
    assert ds[..4] == ds;
    assert !Passes(s, ds, 0) && !Passes(s, ds, 1) && Passes(s, ds, 2) && Passes(s, ds, 3);
    assert WalkEnds(stage, s, ds, 1) == 0;
    assert WalkEnds(stage, s, ds, 2) == 0;
    assert WalkEnds(stage, s, ds, 3) == 1;
  }

  // -------- After the walk --------

  // With nobody left to spawn, the last live enemies are gone between s and t.
  ghost predicate Wiped(s: State, t: State)
  {
    s.waves.finished && Live(s.roster) != {} && Live(t.roster) == {}
  }

  // A stretch of the update after the walk announces an end exactly if it removes the last live enemy.
  ghost predicate Tally(stage: WaveManagers.Stage, s: State, t: State)
  {
    && t.waves == s.waves && Live(t.roster) <= Live(s.roster)
    && Ends(t.log) == Ends(s.log) + (if Wiped(s, t) && !(Last(stage, s) && s.phase == EndStage) then 1 else 0)
    && StageEnds(t.log) == StageEnds(s.log) + (if Wiped(s, t) && Last(stage, s) && s.phase != EndStage then 1 else 0)
    && (!Wiped(s, t) ==> (t.phase == EndStage <==> s.phase == EndStage))
  }

  lemma TallyAdds(stage: WaveManagers.Stage, s: State, t: State, u: State)
    requires Tally(stage, s, t) && Tally(stage, t, u)
    ensures Tally(stage, s, u)
  {
  }

  lemma OtherTally(stage: WaveManagers.Stage, s: State, t: State, n: Notice)
    requires t.waves == s.waves && Live(t.roster) == Live(s.roster) && t.phase == s.phase
    requires t.log == s.log || (t.log == s.log + [n] && !IsEnd(n) && !n.StageEnd?)
    ensures Tally(stage, s, t)
  {
    EndsLogged(s.log, n);
  }

  lemma CheckKeepsWaves(stage: WaveManagers.Stage, s: State)
    requires s.updating
    ensures WaveChecked(stage, s).waves == s.waves
  {
  }

  lemma DieTally(stage: WaveManagers.Stage, s: State, id: nat, body: Enemies.Body)
    requires s.updating && Counted(s.roster) && id in Live(s.roster) && body.health.dead
    ensures Tally(stage, s, Die(stage, s, id, body))
  {
    var a := Paid(s, id, body);
    DeathEndsWave(stage, s, id, body);
    CheckKeepsWaves(stage, a);
    EndsLogged(s.log, Rewarded(id, s.roster.enemies[id].reward));
    EndsLogged(a.log, WaveEnd);
    EndsLogged(a.log, StageEnd(true));
  }

  lemma ChangeTally(stage: WaveManagers.Stage, s: State, id: nat, body: Enemies.Body)
    requires id in s.roster.enemies
    ensures Tally(stage, s, Changed(s, id, body))
  {
    assert Live(Embodied(s.roster, id, body)) == Live(s.roster);
    OtherTally(stage, s, Changed(s, id, body), WaveEnd);
  }

  lemma DamageTally(stage: WaveManagers.Stage, s: State, id: nat, amount: int)
    requires Sound(s) && s.updating && id in s.roster.enemies
    ensures Tally(stage, s, Damaged(stage, s, id, amount))
  {
    var body := s.roster.enemies[id].body;
    var hurt := body.(health := Debuffs.TakeDamage(body.health, amount));
    OtherTally(stage, s, s, WaveEnd);
    if !body.health.dead {
      assert id in Live(s.roster);
      if hurt.health.dead { DieTally(stage, s, id, hurt); } else { ChangeTally(stage, s, id, hurt); }
    }
  }

  lemma StrikeTally(stage: WaveManagers.Stage, s: State, h: Hit)
    requires Sound(s) && s.updating
    ensures Tally(stage, s, Struck(stage, s, h))
  {
    OtherTally(stage, s, s, WaveEnd);
    match h
    case Attack(event) => OtherTally(stage, s, Struck(stage, s, h), Pushed(event));
    case Damage(id, amount) => if id in s.roster.enemies { DamageTally(stage, s, id, amount); }
    case Afflict(id, debuff) =>
      if id in s.roster.enemies { ChangeTally(stage, s, id, Enemies.Afflicted(s.roster.enemies[id].body, debuff)); }
    case KillBonus(gold) => OtherTally(stage, s, Struck(stage, s, h), Bonus(gold));
    case _ =>
  }

  lemma {:induction false} StrikesTally(stage: WaveManagers.Stage, s: State, hs: seq<Hit>)
    requires Sound(s) && s.updating
    ensures Tally(stage, s, StruckAll(stage, s, hs))
    decreases |hs|
  {
    if hs == [] {
      OtherTally(stage, s, s, WaveEnd);
    } else {
      var next := Struck(stage, s, hs[0]);
      StrikeTally(stage, s, hs[0]);
      StrikeKeepsSound(stage, s, hs[0]);
      StrikesTally(stage, next, hs[1..]);
      TallyAdds(stage, s, next, StruckAll(stage, s, hs));
    }
  }

  lemma SyncTally(stage: WaveManagers.Stage, s: State)
    ensures Tally(stage, s, Synced(s))
  {
    OtherTally(stage, s, Synced(s), Batch(s.attacks));
  }

  lemma FlightTally(stage: WaveManagers.Stage, s: State, hs: seq<Hit>)
    requires Sound(s) && s.updating
    ensures Tally(stage, s, Flown(stage, s, hs)) && (s.phase == EndStage ==> Flown(stage, s, hs) == s)
  {
    OtherTally(stage, s, s, WaveEnd);
    StrikesTally(stage, s, hs);
  }

  // -------- An update --------

  // The update up to and including the walk and the removal.
  function AfterWalk(w: World, s: State, dt: real, turn: Turn): State
    requires WaveManagers.InRange(w.stage, s.waves)
  {
    if s.phase == Wave then Removed(Walked(w, AtWalk(w, s, dt, turn), dt, turn.order)) else Begun(s, dt)
  }

  // The minions act only if it was a wave, and still is.
  function MinionsStrike(stage: WaveManagers.Stage, r: State, wave: bool, hits: seq<Hit>): State
  {
    if wave && r.phase == Wave then StruckAll(stage, r, hits) else r
  }

  // The minions' part and the synchronisation.
  function BeforeFlight(w: World, s: State, dt: real, turn: Turn): State
    requires WaveManagers.InRange(w.stage, s.waves)
  {
    Synced(MinionsStrike(w.stage, AfterWalk(w, s, dt, turn), s.phase == Wave, turn.minionHits))
  }

  lemma FightIs(w: World, s: State, dt: real, turn: Turn)
    requires WaveManagers.InRange(w.stage, s.waves)
    ensures Fought(w, Begun(s, dt), dt, turn) == Flown(w.stage, BeforeFlight(w, s, dt, turn), turn.projectileHits)
  {
  }

  lemma AfterWalkIsSound(w: World, s: State, dt: real, turn: Turn)
    requires Resting(w, s) && Sound(s) && NoRepeats(turn.order)
    ensures Sound(AfterWalk(w, s, dt, turn)) && AfterWalk(w, s, dt, turn).updating
  {
    SoundAlike(s, Begun(s, dt));
    if s.phase == Wave {
      SpawnKeepsSound(w.stage, Begun(s, dt), dt, turn);
      WalkKeepsSound(w, AtWalk(w, s, dt, turn), dt, turn.order);
    }
  }

  lemma MinionsTally(stage: WaveManagers.Stage, r: State, wave: bool, hits: seq<Hit>)
    requires Sound(r) && r.updating
    ensures var m := MinionsStrike(stage, r, wave, hits);
            && Tally(stage, r, m) && Sound(m) && m.updating && (r.phase == EndStage ==> m == r)
  {
    OtherTally(stage, r, r, WaveEnd);
    if wave && r.phase == Wave {
      StrikesTally(stage, r, hits);
      StrikesKeepSound(stage, r, hits);
    }
  }

  lemma BeforeFlightTally(w: World, s: State, dt: real, turn: Turn)
    requires Resting(w, s) && Sound(s) && NoRepeats(turn.order)
    ensures var r, b := AfterWalk(w, s, dt, turn), BeforeFlight(w, s, dt, turn);
            && Tally(w.stage, r, b) && Sound(b) && b.updating
            && (r.phase == EndStage ==> b.roster == r.roster && b.phase == EndStage)
  {
    var r := AfterWalk(w, s, dt, turn);
    var m := MinionsStrike(w.stage, r, s.phase == Wave, turn.minionHits);
    AfterWalkIsSound(w, s, dt, turn);
    MinionsTally(w.stage, r, s.phase == Wave, turn.minionHits);
    SyncTally(w.stage, m);
    SyncKeepsSound(m);
    TallyAdds(w.stage, r, m, Synced(m));
  }

  // An ended stage is fought no more: whatever the tally, nobody is struck.
  lemma FightTally(w: World, s: State, dt: real, turn: Turn)
    requires Resting(w, s) && Sound(s) && NoRepeats(turn.order)
    ensures var r, f := AfterWalk(w, s, dt, turn), Fought(w, Begun(s, dt), dt, turn);
            Tally(w.stage, r, f) && (r.phase == EndStage ==> !Wiped(r, f))
  {
    var r, b := AfterWalk(w, s, dt, turn), BeforeFlight(w, s, dt, turn);
    BeforeFlightTally(w, s, dt, turn);
    FlightTally(w.stage, b, turn.projectileHits);
    FightIs(w, s, dt, turn);
    TallyAdds(w.stage, r, b, Fought(w, Begun(s, dt), dt, turn));
  }

  // How often an update announces the end of a wave, or that its stage is won: by its walk, and by what
  // minions and projectiles do after it.
  ghost function UpdateEnds(w: World, s: State, dt: real, turn: Turn): nat
    requires WaveManagers.InRange(w.stage, s.waves)
  {
    var a, ds := AtWalk(w, s, dt, turn), WalkDepartures(w, s, dt, turn);
    (if s.phase == Wave then WalkEnds(w.stage, a, ds, |ds|) else 0)
    + (if Wiped(AfterWalk(w, s, dt, turn), Fought(w, Begun(s, dt), dt, turn)) then 1 else 0)
  }

  // How often it announces the end of the stage.
  ghost function UpdateStageEnds(w: World, s: State, dt: real, turn: Turn): nat
    requires WaveManagers.InRange(w.stage, s.waves)
  {
    var a, ds := AtWalk(w, s, dt, turn), WalkDepartures(w, s, dt, turn);
    (if s.phase == Wave then WalkStageEnds(w.stage, a, ds, |ds|) else 0)
    + (if Wiped(AfterWalk(w, s, dt, turn), Fought(w, Begun(s, dt), dt, turn)) && Last(w.stage, AfterWalk(w, s, dt, turn))
       then 1 else 0)
  }

  lemma WalkCounted(w: World, s: State, dt: real, turn: Turn)
    requires Resting(w, s) && NoRepeats(turn.order) && s.phase == Wave
    ensures var a, ds, r := AtWalk(w, s, dt, turn), WalkDepartures(w, s, dt, turn), AfterWalk(w, s, dt, turn);
            Announced(w.stage, a, ds, |ds|, r) && r.waves == a.waves && a.log == s.log
  {
    var a := AtWalk(w, s, dt, turn);
    var vs := Visits(w.sqrt, a.roster, turn.order, dt);
    assert forall i :: 0 <= i < |vs| ==> vs[i].id == turn.order[i];
    WalkAnnounces(w.stage, a, vs);
    WalkIsDepartures(w.stage, a, vs);
    AllReached(w.stage, a, DeparturesOf(a.roster, vs));
  }

  lemma SettledCounted(s: State)
    ensures Ends(Settled(s).log) == Ends(s.log) && StageEnds(Settled(s).log) == StageEnds(s.log)
  {
    EndsLogged(s.log, Dropped(s.attacks));
  }

  /** An update announces ends exactly as often as its walk does, and once more if after the walk minions and
      projectiles remove the last live enemy. */
  lemma UpdateAnnounces(w: World, s: State, dt: real, turn: Turn)
    requires Resting(w, s) && Sound(s) && NoRepeats(turn.order)
    ensures var t := Ticked(w, s, dt, turn);
            && Ends(t.log) == Ends(s.log) + UpdateEnds(w, s, dt, turn)
            && StageEnds(t.log) == StageEnds(s.log) + UpdateStageEnds(w, s, dt, turn)
  {
    FightTally(w, s, dt, turn);
    SettledCounted(Fought(w, Begun(s, dt), dt, turn));
    if s.phase == Wave { WalkCounted(w, s, dt, turn); }
  }

  /** An update announces the end of a wave more than once exactly if a further wave is to come, spawning is
      finished, and in the walk the check succeeds twice, or succeeds and leaves somebody whom the projectiles
      then remove. It announces the end of the stage more than once exactly if a further wave is to come and in
      the walk the wall breaks, then the check succeeds, and then the wall is broken again. */
  lemma UpdateEndsTwiceIff(w: World, s: State, dt: real, turn: Turn)
    requires Resting(w, s) && Sound(s) && NoRepeats(turn.order)
    ensures var a, ds, t := AtWalk(w, s, dt, turn), WalkDepartures(w, s, dt, turn), Ticked(w, s, dt, turn);
            && (Ends(t.log) >= Ends(s.log) + 2
                <==> s.phase == Wave && a.waves.current < |w.stage|
                     && (TwoPasses(a, ds, |ds|)
                         || (SomePass(a, ds, |ds|)
                             && Wiped(AfterWalk(w, s, dt, turn), Fought(w, Begun(s, dt), dt, turn)))))
            && (StageEnds(t.log) >= StageEnds(s.log) + 2
                <==> s.phase == Wave && a.waves.current < |w.stage| && BreakPassBreak(a, ds, |ds|))
  {
    var a, ds := AtWalk(w, s, dt, turn), WalkDepartures(w, s, dt, turn);
    UpdateAnnounces(w, s, dt, turn);
    FightTally(w, s, dt, turn);
    WaveEndsTwiceIff(w.stage, a, ds, |ds|);
    StageEndsTwiceIff(w.stage, a, ds, |ds|);
    if s.phase == Wave { WalkCounted(w, s, dt, turn); }
  }

  // -------- A run --------

  ghost function OpEnds(w: World, s: State, op: Op): nat
    requires WaveManagers.InRange(w.stage, s.waves)
  {
    match op
    case Update(commands, dt, turn) => UpdateEnds(w, s.(board := UpgradedAll(s.board, commands)), dt, turn)
    case _ => 0
  }

  ghost function OpStageEnds(w: World, s: State, op: Op): nat
    requires WaveManagers.InRange(w.stage, s.waves)
  {
    match op
    case Update(commands, dt, turn) => UpdateStageEnds(w, s.(board := UpgradedAll(s.board, commands)), dt, turn)
    case _ => 0
  }

  ghost function RunEnds(w: World, s: State, ops: seq<Op>): nat
    requires Resting(w, s)
    decreases |ops|
  {
    if ops == [] then 0
    else
      StepRests(w, s, ops[0]);
      OpEnds(w, s, ops[0]) + RunEnds(w, Do(w, s, ops[0]), ops[1..])
  }

  ghost function RunStageEnds(w: World, s: State, ops: seq<Op>): nat
    requires Resting(w, s)
    decreases |ops|
  {
    if ops == [] then 0
    else
      StepRests(w, s, ops[0]);
      OpStageEnds(w, s, ops[0]) + RunStageEnds(w, Do(w, s, ops[0]), ops[1..])
  }

  lemma LeaveAnnouncesNothing(s: State, p: nat)
    ensures Ends(Left(s, p).log) == Ends(s.log) && StageEnds(Left(s, p).log) == StageEnds(s.log)
  {
    EndsLogged(s.log, Dropped(s.attacks));
  }

  lemma StepAnnounces(w: World, s: State, op: Op)
    requires Resting(w, s) && Sound(s) && WalksOnce(op)
    ensures var t := Do(w, s, op);
            && Ends(t.log) == Ends(s.log) + OpEnds(w, s, op)
            && StageEnds(t.log) == StageEnds(s.log) + OpStageEnds(w, s, op)
  {
    match op
    case Leave(p) => LeaveAnnouncesNothing(s, p);
    case Update(commands, dt, turn) =>
      UpgradesRest(w, s, commands);
      SoundAlike(s, s.(board := UpgradedAll(s.board, commands)));
      UpdateAnnounces(w, s.(board := UpgradedAll(s.board, commands)), dt, turn);
    case _ => RequestKeepsLog(w, s, op);
  }

  lemma {:induction false} StepsAnnounce(w: World, s: State, ops: seq<Op>)
    requires Resting(w, s) && Sound(s)
    requires forall op | op in ops :: WalksOnce(op)
    ensures var t := DoAll(w, s, ops);
            && Ends(t.log) == Ends(s.log) + RunEnds(w, s, ops)
            && StageEnds(t.log) == StageEnds(s.log) + RunStageEnds(w, s, ops)
    decreases |ops|
  {
    if ops != [] {
      StepRests(w, s, ops[0]);
      StepKeepsSound(w, s, ops[0]);
      StepAnnounces(w, s, ops[0]);
      StepsAnnounce(w, Do(w, s, ops[0]), ops[1..]);
    }
  }

  /** Over any stretch of a run of a new room, the wave, and the stage, end at most once exactly if the walks of
      its updates, and the hits after them that remove the last live enemy, make up at most one. */
  lemma EndsAtMostOnceIff(w: World, before: seq<Op>, ops: seq<Op>)
    requires forall op | op in before :: WalksOnce(op)
    requires forall op | op in ops :: WalksOnce(op)
    ensures var s := Run(w, before);
            var t := DoAll(w, s, ops);
            && Ends(t.log) == Ends(s.log) + RunEnds(w, s, ops)
            && StageEnds(t.log) == StageEnds(s.log) + RunStageEnds(w, s, ops)
            && (Ends(t.log) <= Ends(s.log) + 1 <==> RunEnds(w, s, ops) <= 1)
            && (StageEnds(t.log) <= StageEnds(s.log) + 1 <==> RunStageEnds(w, s, ops) <= 1)
  {
    NewRoomRests(w);
    NewRoomSound();
    RunKeepsSound(w, NewRoom, before);
    StepsAnnounce(w, Run(w, before), ops);
  }
}
