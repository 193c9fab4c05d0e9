/** One update of the room, as a whole: when it ends the wave with somebody alive, and when it lets a wave
    follow a lost stage. Both are decided by the walk over the enemies. */
module RoomTicks {
  import opened Wire
  import opened EnemyManagers
  import opened RoomStates
  import opened RoomLaws
  import opened RoomEnemies
  import opened RoomWalks
  import opened RoomWaves
  import Debuffs
  import Enemies
  import WaveManagers

  // The update up to its walk, and who departs in it.
  function AtWalk(w: World, s: State, dt: real, turn: Turn): State
    requires WaveManagers.InRange(w.stage, s.waves)
  {
    WaveSpawned(w.stage, Begun(s, dt), dt, turn)
  }

  function WalkDepartures(w: World, s: State, dt: real, turn: Turn): seq<Departure>
    requires WaveManagers.InRange(w.stage, s.waves)
  {
    var a := AtWalk(w, s, dt, turn);
    DeparturesOf(a.roster, Visits(w.sqrt, a.roster, turn.order, dt))
  }

  // -------- After the walk the stage is not lost any more --------

  // What a stretch of an update, from s to t, does to the two questions about the log from `base` on.
  ghost predicate NoNewLoss(s: State, t: State, base: nat)
  {
    && base <= |s.log| && base <= |t.log|
    && (Loss(t.log, base) <==> Loss(s.log, base))
    && (EndAfterLoss(s.log, base) ==> EndAfterLoss(t.log, base))
    && (EndAfterLoss(t.log, base) ==> EndAfterLoss(s.log, base) || Loss(s.log, base))
  }

  lemma NoticeNoLoss(s: State, t: State, n: Notice, base: nat)
    requires base <= |s.log| && t.log == s.log + [n] && n != StageEnd(false)
    ensures NoNewLoss(s, t, base) && (n != WaveEnd ==> (EndAfterLoss(t.log, base) <==> EndAfterLoss(s.log, base)))
  {
    LogMore(s.log, base, n);
  }

  lemma Transitive(s: State, t: State, u: State, base: nat)
    requires NoNewLoss(s, t, base) && NoNewLoss(t, u, base)
    ensures NoNewLoss(s, u, base)
  {
  }

  lemma CheckNoLoss(stage: WaveManagers.Stage, s: State, base: nat)
    requires s.updating && base <= |s.log|
    ensures NoNewLoss(s, WaveChecked(stage, s), base) && WaveChecked(stage, s).updating
  {
    LogMore(s.log, base, StageEnd(true));
    LogMore(s.log, base, WaveEnd);
  }

  lemma DieNoLoss(stage: WaveManagers.Stage, s: State, id: nat, body: Enemies.Body, base: nat)
    requires s.updating && base <= |s.log| && id in s.roster.enemies
    ensures NoNewLoss(s, Die(stage, s, id, body), base) && Die(stage, s, id, body).updating
  {
    NoticeNoLoss(s, Paid(s, id, body), Rewarded(id, s.roster.enemies[id].reward), base);
    CheckNoLoss(stage, Paid(s, id, body), base);
  }

  lemma StrikeNoLoss(stage: WaveManagers.Stage, s: State, h: Hit, base: nat)
    requires s.updating && base <= |s.log|
    ensures NoNewLoss(s, Struck(stage, s, h), base) && Struck(stage, s, h).updating
  {
    match h
    case Attack(event) => NoticeNoLoss(s, Struck(stage, s, h), Pushed(event), base);
    case Damage(id, amount) => if id in s.roster.enemies { DamageNoLoss(stage, s, id, amount, base); }
    case KillBonus(gold) => NoticeNoLoss(s, Struck(stage, s, h), Bonus(gold), base);
    case _ => StrikeKeepsLog(stage, s, h);
  }

  lemma DamageNoLoss(stage: WaveManagers.Stage, s: State, id: nat, amount: int, base: nat)
    requires s.updating && base <= |s.log| && id in s.roster.enemies
    ensures var t := Damaged(stage, s, id, amount); NoNewLoss(s, t, base) && t.updating
  {
    var body := s.roster.enemies[id].body;
    DieNoLoss(stage, s, id, body.(health := Debuffs.TakeDamage(body.health, amount)), base);
  }

  lemma {:induction false} StrikesNoLoss(stage: WaveManagers.Stage, s: State, hs: seq<Hit>, base: nat)
    requires s.updating && base <= |s.log|
    ensures NoNewLoss(s, StruckAll(stage, s, hs), base) && StruckAll(stage, s, hs).updating
    decreases |hs|
  {
    if hs != [] {
      StrikeNoLoss(stage, s, hs[0], base);
      StrikesNoLoss(stage, Struck(stage, s, hs[0]), hs[1..], base);
      Transitive(s, Struck(stage, s, hs[0]), StruckAll(stage, s, hs), base);
    }
  }

  lemma SyncNoLoss(s: State, base: nat)
    requires base <= |s.log|
    ensures var t := Synced(s);
            && NoNewLoss(s, t, base) && (EndAfterLoss(t.log, base) <==> EndAfterLoss(s.log, base))
            && t.phase == s.phase && t.updating == s.updating && t.roster == s.roster
  {
    LogMore(s.log, base, Batch(s.attacks));
  }

  lemma SettledNoLoss(s: State, base: nat)
    requires base <= |s.log|
    ensures EndAfterLoss(Settled(s).log, base) <==> EndAfterLoss(s.log, base)
  {
    LogMore(s.log, base, Dropped(s.attacks));
  }

  // Once the stage is lost, either it stays ended to the end of the update, or the wave has ended since.
  ghost predicate Decided(s: State, base: nat)
  {
    base <= |s.log| && (Loss(s.log, base) ==> s.phase == EndStage || EndAfterLoss(s.log, base))
  }

  lemma FlightDecided(stage: WaveManagers.Stage, s: State, hs: seq<Hit>, base: nat)
    requires s.updating && Decided(s, base)
    ensures var t := Flown(stage, s, hs);
            base <= |t.log| && (EndAfterLoss(t.log, base) <==> EndAfterLoss(s.log, base))
  {
    StrikesNoLoss(stage, s, hs, base);
  }

  lemma HitsDecided(stage: WaveManagers.Stage, s: State, hs: seq<Hit>, base: nat)
    requires s.updating && Decided(s, base)
    ensures var t := if s.phase == Wave then StruckAll(stage, s, hs) else s;
            t.updating && Decided(t, base) && (EndAfterLoss(t.log, base) <==> EndAfterLoss(s.log, base))
  {
    StrikesNoLoss(stage, s, hs, base);
  }

  lemma WalkDecided(stage: WaveManagers.Stage, s: State, vs: seq<Visit>)
    requires s.updating && s.phase == Wave && Once(vs)
    ensures Decided(VisitedAll(stage, s, vs), |s.log|) && VisitedAll(stage, s, vs).updating
  {
    var ds := DeparturesOf(s.roster, vs);
    WalkIsDepartures(stage, s, vs);
    AllReached(stage, s, ds);
    if s.waves.current < |stage| { DeparturesTold(stage, s, ds); } else { LastWaveTold(stage, s, ds); }
  }

  lemma WavePartDecided(w: World, s: State, dt: real, turn: Turn)
    requires WaveManagers.InRange(w.stage, s.waves) && s.updating && s.phase == Wave && NoRepeats(turn.order)
    ensures var a, t := WaveSpawned(w.stage, s, dt, turn), WavePart(w, s, dt, turn);
            && t.updating && Decided(t, |s.log|)
            && (EndAfterLoss(t.log, |s.log|)
                <==> EndAfterLoss(VisitedAll(w.stage, a, Visits(w.sqrt, a.roster, turn.order, dt)).log, |s.log|))
  {
    var a := WaveSpawned(w.stage, s, dt, turn);
    var vs := Visits(w.sqrt, a.roster, turn.order, dt);
    assert forall i :: 0 <= i < |vs| ==> vs[i].id == turn.order[i];
    WalkDecided(w.stage, a, vs);
    HitsDecided(w.stage, Removed(VisitedAll(w.stage, a, vs)), turn.minionHits, |s.log|);
  }

  lemma NothingYet(s: State)
    ensures Decided(s, |s.log|) && !EndAfterLoss(s.log, |s.log|)
  {
  }

  lemma FightingDecided(w: World, s: State, dt: real, turn: Turn)
    requires WaveManagers.InRange(w.stage, s.waves) && s.updating && NoRepeats(turn.order)
    ensures |s.log| <= |Fought(w, s, dt, turn).log|
    ensures var a := WaveSpawned(w.stage, s, dt, turn);
            EndAfterLoss(Fought(w, s, dt, turn).log, |s.log|)
            <==> s.phase == Wave
                 && EndAfterLoss(VisitedAll(w.stage, a, Visits(w.sqrt, a.roster, turn.order, dt)).log, |s.log|)
  {
    NothingYet(s);
    if s.phase == Wave { WavePartDecided(w, s, dt, turn); }
    var b := if s.phase == Wave then WavePart(w, s, dt, turn) else s;
    SyncNoLoss(b, |s.log|);
    FlightDecided(w.stage, Synced(b), turn.projectileHits, |s.log|);
  }

  /** An update announces the stage lost and after that the wave ended exactly if it is a wave's, a further
      wave is to come, spawning is finished, and in the walk the wall breaks before a departure, not breaking
      it, with which as many have departed as were live. */
  lemma EndsAfterLossIff(w: World, s: State, dt: real, turn: Turn)
    requires Resting(w, s) && NoRepeats(turn.order)
    ensures var a, ds := AtWalk(w, s, dt, turn), WalkDepartures(w, s, dt, turn);
            EndAfterLoss(Ticked(w, s, dt, turn).log, |s.log|)
            <==> s.phase == Wave && a.waves.current < |w.stage| && SomePassAfterBreak(a, ds, |ds|)
  {
    var a := AtWalk(w, s, dt, turn);
    var vs := Visits(w.sqrt, a.roster, turn.order, dt);
    assert forall i :: 0 <= i < |vs| ==> vs[i].id == turn.order[i];
    FightingDecided(w, Begun(s, dt), dt, turn);
    SettledNoLoss(Fought(w, Begun(s, dt), dt, turn), |s.log|);
    if s.phase == Wave { WalkEndsAfterLossIff(w.stage, a, vs); }
  }

  // -------- After the walk the wave is not ended early any more --------

  // Everybody who was live then has departed, or is live now.
  ghost predicate Traced(s: State, base: nat, live: set<nat>)
  {
    base <= |s.log| && forall id | id in live :: HasDeparted(s.log, id) || id in Live(s.roster)
  }

  // A stretch of the update that announces no end early.
  ghost predicate NoNewEarly(s: State, t: State, base: nat, live: set<nat>)
  {
    Traced(t, base, live) && (EarlyEnd(t.log, base, live) <==> EarlyEnd(s.log, base, live))
  }

  lemma OtherNoEarly(s: State, t: State, n: Notice, base: nat, live: set<nat>)
    requires Traced(s, base, live) && t.log == s.log + [n] && Live(t.roster) == Live(s.roster)
    requires !n.Rewarded? && !n.Arrived? && !IsEnd(n)
    ensures NoNewEarly(s, t, base, live)
  {
    EndNoted(s.log, base, live, n);
  }

  lemma CheckNoEarly(stage: WaveManagers.Stage, s: State, base: nat, live: set<nat>)
    requires s.updating && Counted(s.roster) && Traced(s, base, live)
    ensures NoNewEarly(s, WaveChecked(stage, s), base, live)
  {
    CheckConcludes(stage, s);
    ExactlyOver(s.roster);
    CheckKeepsRoster(stage, s);
    EndNoted(s.log, base, live, WaveEnd);
    EndNoted(s.log, base, live, StageEnd(true));
  }

  lemma DieNoEarly(stage: WaveManagers.Stage, s: State, id: nat, body: Enemies.Body, base: nat, live: set<nat>)
    requires s.updating && Counted(s.roster) && id in Live(s.roster) && Traced(s, base, live)
    ensures NoNewEarly(s, Die(stage, s, id, body), base, live)
  {
    var a := Paid(s, id, body);
    var notice := Rewarded(id, s.roster.enemies[id].reward);
    FallenMarked(s.roster, id, body);
    NoRepeatsMore(s.roster.removing, id);
    EarlyMore(s.log, base, live, notice);
    DeparturesLogged(s.log, notice);
    CheckNoEarly(stage, a, base, live);
  }

  lemma ChangeNoEarly(s: State, id: nat, body: Enemies.Body, base: nat, live: set<nat>)
    requires Traced(s, base, live) && id in s.roster.enemies
    ensures NoNewEarly(s, Changed(s, id, body), base, live)
  {
    assert Live(Embodied(s.roster, id, body)) == Live(s.roster);
  }

  lemma DamageNoEarly(stage: WaveManagers.Stage, s: State, id: nat, amount: int, base: nat, live: set<nat>)
    requires s.updating && Sound(s) && id in s.roster.enemies && Traced(s, base, live)
    ensures NoNewEarly(s, Damaged(stage, s, id, amount), base, live)
  {
    var body := s.roster.enemies[id].body;
    var hurt := body.(health := Debuffs.TakeDamage(body.health, amount));
    if !body.health.dead {
      assert id in Live(s.roster);
      DieNoEarly(stage, s, id, hurt, base, live);
      ChangeNoEarly(s, id, hurt, base, live);
    }
  }

  lemma StrikeNoEarly(stage: WaveManagers.Stage, s: State, h: Hit, base: nat, live: set<nat>)
    requires s.updating && Sound(s) && Traced(s, base, live)
    ensures NoNewEarly(s, Struck(stage, s, h), base, live)
  {
    match h
    case Attack(event) => OtherNoEarly(s, Struck(stage, s, h), Pushed(event), base, live);
    case Damage(id, amount) => if id in s.roster.enemies { DamageNoEarly(stage, s, id, amount, base, live); }
    case Afflict(id, debuff) =>
      if id in s.roster.enemies { ChangeNoEarly(s, id, Enemies.Afflicted(s.roster.enemies[id].body, debuff), base, live); }
    case KillBonus(gold) => OtherNoEarly(s, Struck(stage, s, h), Bonus(gold), base, live);
    case _ =>
  }

  lemma {:induction false} StrikesNoEarly(stage: WaveManagers.Stage, s: State, hs: seq<Hit>, base: nat, live: set<nat>)
    requires s.updating && Sound(s) && Traced(s, base, live)
    ensures NoNewEarly(s, StruckAll(stage, s, hs), base, live)
    decreases |hs|
  {
    if hs != [] {
      StrikeNoEarly(stage, s, hs[0], base, live);
      StrikeKeepsSound(stage, s, hs[0]);
      StrikesNoEarly(stage, Struck(stage, s, hs[0]), hs[1..], base, live);
    }
  }

  lemma SyncNoEarly(s: State, base: nat, live: set<nat>)
    requires Traced(s, base, live)
    ensures NoNewEarly(s, Synced(s), base, live)
  {
    BatchNoEarly(Quieted(s), s.attacks, base, live);
  }

  lemma BatchNoEarly(s: State, events: seq<AttackEvent>, base: nat, live: set<nat>)
    requires Traced(s, base, live)
    ensures NoNewEarly(s, Logged(s, Batch(events)), base, live)
  {
    OtherNoEarly(s, Logged(s, Batch(events)), Batch(events), base, live);
  }

  lemma SettledNoEarly(s: State, base: nat, live: set<nat>)
    requires base <= |s.log|
    ensures EarlyEnd(Settled(s).log, base, live) <==> EarlyEnd(s.log, base, live)
  {
    EarlyMore(s.log, base, live, Dropped(s.attacks));
  }

  // The walk leaves a trace of everybody.
  lemma WalkTraces(w: World, s: State, dt: real, order: seq<nat>)
    requires Sound(s) && s.updating && s.phase == Wave && NoRepeats(order)
    ensures Traced(Removed(Walked(w, s, dt, order)), |s.log|, Live(s.roster))
  {
    var vs := Visits(w.sqrt, s.roster, order, dt);
    SoundWalks(s, w.sqrt, order, dt);
    VisitsKeepMarked(w.stage, s, vs);
    VisitsTrace(w.stage, s, vs, |s.log|, Live(s.roster));
    PurgeKeepsLive(Walked(w, s, dt, order).roster);
  }

  lemma VisitTraces(stage: WaveManagers.Stage, s: State, v: Visit, base: nat, live: set<nat>)
    requires s.updating && Marked(s.roster) && Traced(s, base, live)
    requires v.id in s.roster.enemies && !Dead(s.roster.enemies[v.id]) ==> v.id in Live(s.roster)
    ensures forall id | id in live :: HasDeparted(Visited(stage, s, v).log, id) || id in Live(Visited(stage, s, v).roster)
  {
    if v.id in s.roster.enemies && !Dead(s.roster.enemies[v.id]) {
      VisitEffects(stage, s, v);
      VisitMarks(s.roster, v);
    }
  }

  lemma {:induction false} VisitsTrace(stage: WaveManagers.Stage, s: State, vs: seq<Visit>, base: nat, live: set<nat>)
    requires Walking(s, vs) && Traced(s, base, live)
    ensures Traced(VisitedAll(stage, s, vs), base, live)
    decreases |vs|
  {
    if vs != [] {
      assert vs[0] in vs;
      VisitTraces(stage, s, vs[0], base, live);
      VisitGrowsLog(stage, s, vs[0]);
      VisitKeepsWalking(stage, s, vs);
      VisitsTrace(stage, Visited(stage, s, vs[0]), vs[1..], base, live);
    }
  }

  lemma VisitGrowsLog(stage: WaveManagers.Stage, s: State, v: Visit)
    requires s.updating
    ensures |s.log| <= |Visited(stage, s, v).log|
  {
    if v.id in s.roster.enemies && !Dead(s.roster.enemies[v.id]) {
      var t := if v.after.health.dead then Die(stage, s, v.id, v.after) else Changed(s, v.id, v.after);
      DieGrowsLog(stage, s, v);
      ArriveGrowsLog(stage, t, v.id, s.roster.enemies[v.id].power);
    }
  }

  lemma DieGrowsLog(stage: WaveManagers.Stage, s: State, v: Visit)
    requires s.updating && v.id in s.roster.enemies
    ensures |s.log| <= |Die(stage, s, v.id, v.after).log| && Die(stage, s, v.id, v.after).updating
  {
    CheckGrowsLog(stage, Paid(s, v.id, v.after));
    CheckKeepsRoster(stage, Paid(s, v.id, v.after));
  }

  lemma ArriveGrowsLog(stage: WaveManagers.Stage, s: State, id: nat, power: int)
    requires s.updating
    ensures |s.log| <= |Arrive(stage, s, id, power).log|
  {
    CheckGrowsLog(stage, WallHit(s, id, power));
  }

  lemma CheckGrowsLog(stage: WaveManagers.Stage, s: State)
    requires s.updating
    ensures |s.log| <= |WaveChecked(stage, s).log| && |s.log| <= |StageEnded(s, false).log|
  {
  }

  lemma WavePartEarly(w: World, s: State, dt: real, turn: Turn)
    requires Sound(s) && WaveManagers.InRange(w.stage, s.waves) && s.updating && s.phase == Wave && NoRepeats(turn.order)
    ensures var a, t := WaveSpawned(w.stage, s, dt, turn), WavePart(w, s, dt, turn);
            var walked := VisitedAll(w.stage, a, Visits(w.sqrt, a.roster, turn.order, dt));
            && Traced(t, |s.log|, Live(a.roster))
            && (EarlyEnd(t.log, |s.log|, Live(a.roster)) <==> EarlyEnd(walked.log, |s.log|, Live(a.roster)))
  {
    var a := WaveSpawned(w.stage, s, dt, turn);
    SpawnKeepsSound(w.stage, s, dt, turn);
    WalkTraces(w, a, dt, turn.order);
    WalkKeepsSound(w, a, dt, turn.order);
    StrikesNoEarly(w.stage, Removed(Walked(w, a, dt, turn.order)), turn.minionHits, |s.log|, Live(a.roster));
  }

  lemma FightingEarly(w: World, s: State, dt: real, turn: Turn)
    requires Sound(s) && WaveManagers.InRange(w.stage, s.waves) && s.updating && s.phase == Wave && NoRepeats(turn.order)
    ensures var a, t := WaveSpawned(w.stage, s, dt, turn), Fought(w, s, dt, turn);
            var walked := VisitedAll(w.stage, a, Visits(w.sqrt, a.roster, turn.order, dt));
            && |s.log| <= |t.log|
            && (EarlyEnd(t.log, |s.log|, Live(a.roster)) <==> EarlyEnd(walked.log, |s.log|, Live(a.roster)))
  {
    var a, b := WaveSpawned(w.stage, s, dt, turn), WavePart(w, s, dt, turn);
    WavePartEarly(w, s, dt, turn);
    WavePartKeepsSound(w, s, dt, turn);
    SyncNoEarly(b, |s.log|, Live(a.roster));
    SyncKeepsSound(b);
    StrikesNoEarly(w.stage, Synced(b), turn.projectileHits, |s.log|, Live(a.roster));
  }

  /** An update of a wave announces its end while somebody who was live before the walk has not departed
      exactly if spawning is finished and, at a departure in the walk that does not break the wall, as many
      have departed as were live, but not all of them: somebody has departed twice. In the last wave the wall
      must not have broken before. */
  lemma EndsEarlyIff(w: World, s: State, dt: real, turn: Turn)
    requires Resting(w, s) && Sound(s) && s.phase == Wave && NoRepeats(turn.order)
    ensures var a, ds := AtWalk(w, s, dt, turn), WalkDepartures(w, s, dt, turn);
            && Counting(a) == |Live(a.roster)|
            && (EarlyEnd(Ticked(w, s, dt, turn).log, |s.log|, Live(a.roster)) <==> SomeEarlyPass(w.stage, a, ds, |ds|))
  {
    var b, a := Begun(s, dt), AtWalk(w, s, dt, turn);
    var vs := Visits(w.sqrt, a.roster, turn.order, dt);
    SoundAlike(s, b);
    SpawnKeepsSound(w.stage, b, dt, turn);
    FightingEarly(w, b, dt, turn);
    SettledNoEarly(Fought(w, b, dt, turn), |s.log|, Live(a.roster));
    assert forall i :: 0 <= i < |vs| ==> vs[i].id == turn.order[i];
    WalkEndsEarlyIff(w.stage, a, vs);
  }
}
