/** Concrete runs of a new room: a lone player's, and four scenes whose wave ends as it should not. */
module RoomRuns {
  import opened Wire
  import opened EnemyManagers
  import opened Geometry
  import opened MinionPlay
  import opened RoomScenes
  import opened RoomStates
  import opened RoomLaws
  import opened RoomWalks

  /** A lone player can start a wave: WaveStart does not ask for the phase. */
  lemma LonePlayerStarts(w: World, p: nat)
    ensures var t := Run(w, [Enter(p), RequestWave(p)]);
            t.phase == Wave && t.players == {p} && !t.game
  {
    RunMore(w, [], Enter(p));
    RunMore(w, [Enter(p)], RequestWave(p));
    assert [] + [Enter(p)] == [Enter(p)] && [Enter(p)] + [RequestWave(p)] == [Enter(p), RequestWave(p)];
    assert {} + {p} == {p};
    assert AllReady(map[][p := false][p := true]);
  }

  // -------- One burns --------

  const TO_FAR: seq<Point> := [ORIGIN, ORIGIN, FAR]

  // The minion stands by the end of the path, and strikes the first enemy.
  const FIRST_BURNS := Scene(10, TO_FAR, TO_FAR, 2, 1, [1])

  // It stands by the origin, and strikes the second enemy; the first is strong enough for the wall.
  const SECOND_BURNS := Scene(100, TO_FAR, TO_FAR, 0, 1, [2])

  lemma OneAimed(sc: Scene)
    requires sc == FIRST_BURNS || sc == SECOND_BURNS
    ensures Aimed(sc)
  {
  }

  lemma FirstFalls(sc: Scene, f: Fall)
    requires sc == FIRST_BURNS && f == Facing(sc)
    ensures Fell(sc) == Fall([1, 1], 90, Intermission, false, f.log + [Rewarded(1, 5), Arrived(1, 90), WaveEnd])
  {
    var a, b := Departure(1, false, 5), Departure(1, true, 10);
    assert Departing(sc) == [a, b];
    TwoFall(f, a, b);
  }

  lemma SecondFalls(sc: Scene, f: Fall)
    requires sc == SECOND_BURNS && f == Facing(sc)
    ensures Fell(sc) == Fall([1, 2], 0, Intermission, true, f.log + [Arrived(1, 0), StageEnd(false), Rewarded(2, 5), WaveEnd])
  {
    var a, b := Departure(1, true, 100), Departure(2, false, 5);
    assert Departing(sc) == [a, b];
    TwoFall(f, a, b);
  }

  // Who is left after an early end is alive.
  lemma OneLeft(sqrt: real -> real, sc: Scene, f: Fall)
    requires Roots(sqrt) && Aimed(sc) && f == Fell(sc)
    requires f.removing == [1, 1] && f.phase == Intermission && !f.pending
    ensures var t := Run(Battle(sqrt), Opening(sc.x) + Seconds(sc));
            Live(t.roster) == {2} && !Dead(t.roster.enemies[2])
  {
    Story(sqrt, sc, f);
    assert {1, 2} - Elements([1, 1]) == {2};
    LeftAlive(Run(Battle(sqrt), Opening(sc.x) + Seconds(sc)), {2});
  }

  /** A wave can end with an enemy alive: the minion's damage over time kills the first of two enemies in the
      update in which that one arrives. The second goes on living in the intermission. */
  lemma EndsWithOneAlive(sqrt: real -> real, sc: Scene, shot: AttackEvent)
    requires Roots(sqrt) && sc == FIRST_BURNS && shot == Shot(Gun(sc), 1, sc.targets)
    ensures Plays(Battle(sqrt), Run(Battle(sqrt), Opening(sc.x)), Seconds(sc), Gun(sc), 1, 0.0)
    ensures var t := Run(Battle(sqrt), Opening(sc.x) + Seconds(sc));
            && t.phase == Intermission && Live(t.roster) == {2} && !Dead(t.roster.enemies[2])
            && t.log == [Pushed(shot), Batch([shot])] + [Rewarded(1, 5), Arrived(1, 90), WaveEnd] + []
  {
    OneAimed(sc);
    FirstFalls(sc, Facing(sc));
    Tells(sqrt, sc, shot, Fell(sc), [Rewarded(1, 5), Arrived(1, 90), WaveEnd]);
    OneLeft(sqrt, sc, Fell(sc));
  }

  /** And it can end after the stage was lost: the first enemy breaks the wall, and in the same update the
      minion's damage over time kills the second. The stage is announced lost, then the wave ended. */
  lemma EndsAfterTheLoss(sqrt: real -> real, sc: Scene, shot: AttackEvent)
    requires Roots(sqrt) && sc == SECOND_BURNS && shot == Shot(Gun(sc), 1, sc.targets)
    ensures Plays(Battle(sqrt), Run(Battle(sqrt), Opening(sc.x)), Seconds(sc), Gun(sc), 1, 0.0)
    ensures var t := Run(Battle(sqrt), Opening(sc.x) + Seconds(sc));
            && t.phase == WaitingForPlayers
            && t.log == [Pushed(shot), Batch([shot])] + [Arrived(1, 0), StageEnd(false), Rewarded(2, 5), WaveEnd]
                        + [Dropped([])]
  {
    OneAimed(sc);
    SecondFalls(sc, Facing(sc));
    Tells(sqrt, sc, shot, Fell(sc), [Arrived(1, 0), StageEnd(false), Rewarded(2, 5), WaveEnd]);
  }

  // -------- Both burn --------

  const SLOW: seq<Point> := [ORIGIN, ORIGIN, ORIGIN]
  const QUICK: seq<Point> := [ORIGIN, ORIGIN]

  // The second enemy's path is shorter, so that both arrive together; the minion strikes both.
  const BOTH_BURN := Scene(10, SLOW, QUICK, 0, 2, [1, 2])
  const BOTH_BREAK := BOTH_BURN.(power := 100)

  lemma BothAimed(sc: Scene)
    requires sc == BOTH_BURN || sc == BOTH_BREAK
    ensures Aimed(sc)
  {
  }

  lemma BothDepart(sc: Scene)
    requires sc.targets == [1, 2] && |sc.second| == 2
    ensures Departing(sc)
         == [Departure(1, false, 5), Departure(1, true, sc.power), Departure(2, false, 5), Departure(2, true, sc.power)]
  {
  }

  lemma BothFall(sc: Scene, f: Fall)
    requires sc == BOTH_BURN && f == Facing(sc)
    ensures Fell(sc) == Fall([1, 1, 2, 2], 80, Intermission, false,
                             f.log + [Rewarded(1, 5), Arrived(1, 90), WaveEnd, Rewarded(2, 5), WaveEnd, Arrived(2, 80), WaveEnd])
  {
    BothDepart(sc);
    FourFall(f, Departure(1, false, 5), Departure(1, true, 10), Departure(2, false, 5), Departure(2, true, 10));
  }

  lemma BothBreak(sc: Scene, f: Fall)
    requires sc == BOTH_BREAK && f == Facing(sc)
    ensures Fell(sc) == Fall([1, 1, 2, 2], -100, EndStage, true,
                             f.log + [Rewarded(1, 5), Arrived(1, 0), StageEnd(false), Rewarded(2, 5), WaveEnd,
                                      Arrived(2, -100), StageEnd(false)])
  {
    BothDepart(sc);
    FourFall(f, Departure(1, false, 5), Departure(1, true, 100), Departure(2, false, 5), Departure(2, true, 100));
  }

  /** One update can announce the end of a wave three times: both enemies die and arrive in it. */
  lemma EndsThrice(sqrt: real -> real, sc: Scene, shot: AttackEvent)
    requires Roots(sqrt) && sc == BOTH_BURN && shot == Shot(Gun(sc), 1, sc.targets)
    ensures Plays(Battle(sqrt), Run(Battle(sqrt), Opening(sc.x)), Seconds(sc), Gun(sc), 1, 0.0)
    ensures var t := Run(Battle(sqrt), Opening(sc.x) + Seconds(sc));
            && t.phase == Intermission
            && t.log == [Pushed(shot), Batch([shot])]
                        + [Rewarded(1, 5), Arrived(1, 90), WaveEnd, Rewarded(2, 5), WaveEnd, Arrived(2, 80), WaveEnd] + []
  {
    BothAimed(sc);
    BothFall(sc, Facing(sc));
    Tells(sqrt, sc, shot, Fell(sc),
          [Rewarded(1, 5), Arrived(1, 90), WaveEnd, Rewarded(2, 5), WaveEnd, Arrived(2, 80), WaveEnd]);
  }

  /** And it can announce the stage lost twice: each of them breaks the wall, and in between the wave ends. */
  lemma LostTwice(sqrt: real -> real, sc: Scene, shot: AttackEvent)
    requires Roots(sqrt) && sc == BOTH_BREAK && shot == Shot(Gun(sc), 1, sc.targets)
    ensures Plays(Battle(sqrt), Run(Battle(sqrt), Opening(sc.x)), Seconds(sc), Gun(sc), 1, 0.0)
    ensures var t := Run(Battle(sqrt), Opening(sc.x) + Seconds(sc));
            && t.phase == WaitingForPlayers
            && t.log == [Pushed(shot), Batch([shot])]
                        + [Rewarded(1, 5), Arrived(1, 0), StageEnd(false), Rewarded(2, 5), WaveEnd, Arrived(2, -100),
                           StageEnd(false)]
                        + [Dropped([])]
  {
    BothAimed(sc);
    BothBreak(sc, Facing(sc));
    Tells(sqrt, sc, shot, Fell(sc),
          [Rewarded(1, 5), Arrived(1, 0), StageEnd(false), Rewarded(2, 5), WaveEnd, Arrived(2, -100), StageEnd(false)]);
  }
}
