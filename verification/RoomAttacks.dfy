/** The attack events of a room: whatever is queued is broadcast, once and in order, or dropped with its stage. */
module RoomAttacks {
  import opened Wire
  import opened RoomStates
  import opened RoomLaws
  import Debuffs
  import Enemies
  import WaveManagers

  function PushOf(n: Notice): seq<AttackEvent>
  {
    if n.Pushed? then [n.event] else []
  }

  function LeavingOf(n: Notice): seq<AttackEvent>
  {
    if n.Batch? || n.Dropped? then n.events else []
  }

  // The events queued, in order.
  function Pushes(log: seq<Notice>): seq<AttackEvent>
  {
    if log == [] then [] else Pushes(log[..|log| - 1]) + PushOf(log[|log| - 1])
  }

  // The events that have left the queue, batch by batch.
  function Gone(log: seq<Notice>): seq<AttackEvent>
  {
    if log == [] then [] else Gone(log[..|log| - 1]) + LeavingOf(log[|log| - 1])
  }

  ghost predicate Conserved(s: State)
  {
    Pushes(s.log) == Gone(s.log) + s.attacks
  }

  lemma LoggedEvents(log: seq<Notice>, n: Notice)
    ensures Pushes(log + [n]) == Pushes(log) + PushOf(n) && Gone(log + [n]) == Gone(log) + LeavingOf(n)
  {
    assert (log + [n])[..|log|] == log;
  }

  lemma OtherNotice(s: State, t: State, n: Notice)
    requires Conserved(s) && t.log == s.log + [n] && t.attacks == s.attacks
    requires !n.Pushed? && !n.Batch? && !n.Dropped?
    ensures Conserved(t)
  {
    LoggedEvents(s.log, n);
  }

  lemma EndConserves(s: State, success: bool)
    requires Conserved(s) && s.updating
    ensures var t := StageEnded(s, success); Conserved(t) && t.updating
  {
    if s.phase != EndStage { OtherNotice(s, StageEnded(s, success), StageEnd(success)); }
  }

  lemma CheckConserves(stage: WaveManagers.Stage, s: State)
    requires Conserved(s) && s.updating
    ensures var t := WaveChecked(stage, s); Conserved(t) && t.updating
  {
    EndConserves(s, true);
    OtherNotice(s, Logged(s.(phase := Intermission), WaveEnd), WaveEnd);
  }

  lemma ArriveConserves(stage: WaveManagers.Stage, s: State, id: nat, power: int)
    requires Conserved(s) && s.updating
    ensures var t := Arrive(stage, s, id, power); Conserved(t) && t.updating
  {
    var a := WallHit(s, id, power);
    OtherNotice(s, a, Arrived(id, s.hp - power));
    EndConserves(a, false);
    CheckConserves(stage, a);
  }

  lemma DieConserves(stage: WaveManagers.Stage, s: State, id: nat, body: Enemies.Body)
    requires Conserved(s) && s.updating && id in s.roster.enemies
    ensures var t := Die(stage, s, id, body); Conserved(t) && t.updating
  {
    OtherNotice(s, Paid(s, id, body), Rewarded(id, s.roster.enemies[id].reward));
    CheckConserves(stage, Paid(s, id, body));
  }

  lemma ChangeConserves(s: State, id: nat, body: Enemies.Body)
    requires Conserved(s) && s.updating && id in s.roster.enemies
    ensures var t := Changed(s, id, body); Conserved(t) && t.updating
  {
  }

  lemma VisitConserves(stage: WaveManagers.Stage, s: State, v: Visit)
    requires Conserved(s) && s.updating
    ensures var t := Visited(stage, s, v); Conserved(t) && t.updating
  {
    if v.id in s.roster.enemies {
      var power := s.roster.enemies[v.id].power;
      DieConserves(stage, s, v.id, v.after);
      ChangeConserves(s, v.id, v.after);
      ArriveConserves(stage, Die(stage, s, v.id, v.after), v.id, power);
      ArriveConserves(stage, Changed(s, v.id, v.after), v.id, power);
    }
  }

  lemma {:induction false} VisitsConserve(stage: WaveManagers.Stage, s: State, vs: seq<Visit>)
    requires Conserved(s) && s.updating
    ensures var t := VisitedAll(stage, s, vs); Conserved(t) && t.updating
    decreases |vs|
  {
    if vs != [] {
      VisitConserves(stage, s, vs[0]);
      VisitsConserve(stage, Visited(stage, s, vs[0]), vs[1..]);
    }
  }

  lemma PushConserves(s: State, event: AttackEvent)
    requires Conserved(s) && s.updating
    ensures var t := Logged(s.(attacks := s.attacks + [event]), Pushed(event)); Conserved(t) && t.updating
  {
    LoggedEvents(s.log, Pushed(event));
    ConcatAssoc(Gone(s.log), s.attacks, [event]);
    assert LeavingOf(Pushed(event)) == [];
    assert Gone(s.log) + [] == Gone(s.log);
  }

  lemma DamageConserves(stage: WaveManagers.Stage, s: State, id: nat, amount: int)
    requires Conserved(s) && s.updating && id in s.roster.enemies
    ensures var t := Damaged(stage, s, id, amount); Conserved(t) && t.updating
  {
    var body := s.roster.enemies[id].body;
    var hurt := body.(health := Debuffs.TakeDamage(body.health, amount));
    DieConserves(stage, s, id, hurt);
    ChangeConserves(s, id, hurt);
  }

  lemma StrikeConserves(stage: WaveManagers.Stage, s: State, h: Hit)
    requires Conserved(s) && s.updating
    ensures var t := Struck(stage, s, h); Conserved(t) && t.updating
  {
    match h
    case Attack(event) => PushConserves(s, event);
    case Damage(id, amount) => if id in s.roster.enemies { DamageConserves(stage, s, id, amount); }
    case KillBonus(gold) => OtherNotice(s, Struck(stage, s, h), Bonus(gold));
    case _ =>
  }

  lemma {:induction false} StrikesConserve(stage: WaveManagers.Stage, s: State, hs: seq<Hit>)
    requires Conserved(s) && s.updating
    ensures var t := StruckAll(stage, s, hs); Conserved(t) && t.updating
    decreases |hs|
  {
    if hs != [] {
      StrikeConserves(stage, s, hs[0]);
      StrikesConserve(stage, Struck(stage, s, hs[0]), hs[1..]);
    }
  }

  lemma SyncConserves(s: State)
    requires Conserved(s)
    ensures Conserved(Synced(s)) && Synced(s).updating == s.updating
  {
    LoggedEvents(s.log, Batch(s.attacks));
    assert Gone(s.log) + s.attacks + [] == Gone(s.log) + s.attacks;
  }

  lemma ResetConserves(s: State)
    requires Conserved(s)
    ensures Conserved(ResetStage(s))
  {
    LoggedEvents(s.log, Dropped(s.attacks));
    assert Gone(s.log) + s.attacks + [] == Gone(s.log) + s.attacks;
  }

  lemma WaveConserves(w: World, s: State, dt: real, turn: Turn)
    requires Conserved(s) && s.updating && WaveManagers.InRange(w.stage, s.waves)
    ensures var t := WavePart(w, s, dt, turn); Conserved(t) && t.updating
  {
    var spawned := WaveSpawned(w.stage, s, dt, turn);
    VisitsConserve(w.stage, spawned, Visits(w.sqrt, spawned.roster, turn.order, dt));
    StrikesConserve(w.stage, Removed(Walked(w, spawned, dt, turn.order)), turn.minionHits);
  }

  lemma FlightConserves(stage: WaveManagers.Stage, s: State, hits: seq<Hit>)
    requires Conserved(s) && s.updating
    ensures Conserved(Flown(stage, s, hits))
  {
    StrikesConserve(stage, s, hits);
  }

  lemma FightingConserves(w: World, s: State, dt: real, turn: Turn)
    requires Conserved(s) && s.updating && WaveManagers.InRange(w.stage, s.waves)
    ensures Conserved(Fought(w, s, dt, turn))
  {
    WaveConserves(w, s, dt, turn);
    var b := if s.phase == Wave then WavePart(w, s, dt, turn) else s;
    SyncConserves(b);
    FlightConserves(w.stage, Synced(b), turn.projectileHits);
  }

  lemma LeaveConserves(s: State, p: nat)
    requires Conserved(s)
    ensures Conserved(Left(s, p))
  {
    ResetConserves(s.(players := s.players - {p}, ready := s.ready - {p}));
  }

  lemma UpdateConserves(w: World, s: State, dt: real, turn: Turn)
    requires Conserved(s) && WaveManagers.InRange(w.stage, s.waves)
    ensures Conserved(Ticked(w, s, dt, turn))
  {
    FightingConserves(w, Begun(s, dt), dt, turn);
    ResetConserves(Fought(w, Begun(s, dt), dt, turn));
  }

  lemma StepConserves(w: World, s: State, op: Op)
    requires WaveManagers.InRange(w.stage, s.waves) && Conserved(s)
    ensures Conserved(Do(w, s, op))
  {
    match op
    case Leave(p) => LeaveConserves(s, p);
    case Update(commands, dt, turn) => UpdateConserves(w, s.(board := UpgradedAll(s.board, commands)), dt, turn);
    case _ =>
  }

  lemma {:induction false} StepsConserve(w: World, s: State, ops: seq<Op>)
    requires Resting(w, s) && Conserved(s)
    ensures Conserved(DoAll(w, s, ops))
    decreases |ops|
  {
    if ops != [] {
      StepConserves(w, s, ops[0]);
      StepRests(w, s, ops[0]);
      StepsConserve(w, Do(w, s, ops[0]), ops[1..]);
    }
  }

  /** Over any run of a new room the events queued are those that left the queue, in order, followed by those
      still in it: none is lost, repeated or reordered, except that a reset drops what had not been broadcast. */
  lemma AttacksConserved(w: World, ops: seq<Op>)
    ensures var t := Run(w, ops); Pushes(t.log) == Gone(t.log) + t.attacks
  {
    NewRoomRests(w);
    StepsConserve(w, NewRoom, ops);
  }

  // Just the batches broadcast.
  function Broadcasts(log: seq<Notice>): seq<AttackEvent>
  {
    if log == [] then []
    else Broadcasts(log[..|log| - 1]) + (if log[|log| - 1].Batch? then log[|log| - 1].events else [])
  }

  lemma {:induction false} NothingDropped(log: seq<Notice>)
    requires forall i :: 0 <= i < |log| ==> !log[i].Dropped?
    ensures Gone(log) == Broadcasts(log)
    decreases |log|
  {
    if log != [] { NothingDropped(log[..|log| - 1]); }
  }

  /** In a run without a reset, the batches broadcast, one after the other, and then the queue, are exactly
      the events queued. */
  lemma BatchesConserve(w: World, ops: seq<Op>)
    requires forall n | n in Run(w, ops).log :: !n.Dropped?
    ensures var t := Run(w, ops); Pushes(t.log) == Broadcasts(t.log) + t.attacks
  {
    AttacksConserved(w, ops);
    NothingDropped(Run(w, ops).log);
  }
}
