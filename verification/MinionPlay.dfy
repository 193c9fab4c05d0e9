/** What a minion with a skill does in the updates of a run, instead of arbitrary hits. */
module MinionPlay {
  import opened Wire
  import opened EnemyManagers
  import opened Geometry
  import opened RoomStates
  import opened RoomLaws
  import opened RoomEnds
  import opened Sorting
  import AttackBatch
  import Boards
  import Enemies

  // A skill that needs no charge: seconds between attacks, reach, how many targets, damage, and a hit event.
  datatype Skill = Skill(cooldown: real, range: real, maxTargets: int, damage: int32, debuff: Enemies.Debuff)

  // Each target is damaged and then afflicted.
  function Blows(skill: Skill, targets: seq<uint32>): seq<Hit>
  {
    if targets == [] then []
    else [Damage(targets[0], skill.damage), Afflict(targets[0], skill.debuff)] + Blows(skill, targets[1..])
  }

  function Shot(skill: Skill, id: uint32, targets: seq<uint32>): AttackEvent
  {
    AttackBatch.AttackEvent(1, false, id, skill.damage, targets)
  }

  function SkillHits(skill: Skill, id: uint32, targets: seq<uint32>): seq<Hit>
  {
    if targets == [] then [] else [Attack(Shot(skill, id, targets))] + Blows(skill, targets)
  }

  // The targets are what the enemy manager finds nearest to the minion.
  ghost predicate Chosen(skill: Skill, s: State, id: nat, targets: seq<uint32>)
    requires id in s.board.minions
  {
    exists found :: ChosenAs(skill, s.roster, s.board.minions[id], targets, found)
  }

  ghost predicate ChosenAs(skill: Skill, r: Roster, m: Boards.Minion, targets: seq<uint32>, found: seq<Keyed<Unit>>)
  {
    && Nearest(r.enemies, Point(m.x, m.y), skill.range, skill.maxTargets, found)
    && |found| == |targets| && forall i :: 0 <= i < |found| ==> found[i].id == targets[i]
  }

  // With its last attack so long ago.
  ghost predicate Acts(skill: Skill, timer: real, s: State, id: uint32, hits: seq<Hit>)
    requires id in s.board.minions
  {
    if timer < skill.cooldown then hits == []
    else exists targets :: Chosen(skill, s, id, targets) && hits == SkillHits(skill, id, targets)
  }

  /** In every update of the run the minions' hits are what this minion does: once a wave's walk and removal are
      over, and while it is still a wave. */
  ghost predicate Plays(w: World, s: State, ops: seq<Op>, skill: Skill, id: uint32, timer: real)
    requires Resting(w, s)
    decreases |ops|
  {
    if ops == [] then true
    else
      StepRests(w, s, ops[0]);
      var rest := Do(w, s, ops[0]);
      match ops[0]
      case Update(commands, dt, turn) =>
        var u := s.(board := UpgradedAll(s.board, commands));
        var m := AfterWalk(w, u, dt, turn);
        if s.phase == Wave && m.phase == Wave then
          && id in m.board.minions && Acts(skill, timer + dt, m, id, turn.minionHits)
          && Plays(w, rest, ops[1..], skill, id, if turn.minionHits == [] then timer + dt else 0.0)
        else
          turn.minionHits == [] && Plays(w, rest, ops[1..], skill, id, timer)
      case _ => Plays(w, rest, ops[1..], skill, id, timer)
  }
}
