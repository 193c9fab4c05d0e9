/** The players' gold over a run of the room: what the room gives, upgrades cost, and trading leaves alone. */
module RoomLedger {
  import opened Wire
  import opened EnemyManagers
  import opened RoomStates
  import opened RoomLaws
  import Boards
  import Debuffs
  import Enemies
  import WaveManagers

  function GoldOf(n: Notice): int
  {
    if n.Rewarded? || n.Bonus? then n.gold else 0
  }

  // What each player has been given.
  function Earned(log: seq<Notice>): int
  {
    if log == [] then 0 else Earned(log[..|log| - 1]) + GoldOf(log[|log| - 1])
  }

  lemma EarnedLogged(log: seq<Notice>, n: Notice)
    ensures Earned(log + [n]) == Earned(log) + GoldOf(n)
  {
    assert (log + [n])[..|log|] == log;
  }

  // The price of an upgrade, if it is accepted.
  function Price(b: Boards.Board, r: Request): int
  {
    if Boards.Upgraded(b, r.owner, r.gold, r.id, r.upgrade).code == Boards.NoError
    then b.minions[r.id].slots[r.upgrade].price else 0
  }

  // What the upgrades cost a player.
  function Spent(b: Boards.Board, rs: seq<Request>, p: nat): int
    decreases |rs|
  {
    if rs == [] then 0
    else
      var last := rs[|rs| - 1];
      Spent(b, rs[..|rs| - 1], p) + (if last.owner == p then Price(UpgradedAll(b, rs[..|rs| - 1]), last) else 0)
  }

  lemma SpentMore(b: Boards.Board, rs: seq<Request>, r: Request, p: nat)
    ensures UpgradedAll(b, rs + [r])
         == Boards.Upgraded(UpgradedAll(b, rs), r.owner, r.gold, r.id, r.upgrade).board
    ensures Spent(b, rs + [r], p) == Spent(b, rs, p) + (if r.owner == p then Price(UpgradedAll(b, rs), r) else 0)
  {
    assert (rs + [r])[..|rs|] == rs;
  }

  // -------- Runs with the players' gold --------

  // The room, and the gold of the players.
  datatype Account = Account(room: State, gold: map<nat, int>)

  function Has(gold: map<nat, int>, p: nat): int
  {
    if p in gold then gold[p] else 0
  }

  // The upgrades with the gold their players have left by then.
  function FundedAll(b: Boards.Board, gold: map<nat, int>, rs: seq<Request>): seq<Request>
    decreases |rs|
  {
    if rs == [] then []
    else
      var last, fs := rs[|rs| - 1], FundedAll(b, gold, rs[..|rs| - 1]);
      fs + [last.(gold := Has(gold, last.owner) - Spent(b, fs, last.owner))]
  }

  // The operation with the gold the acting players have.
  function Funded(a: Account, op: Op): Op
  {
    match op
    case Buy(p, _, kind, x, y) => Buy(p, Has(a.gold, p), kind, x, y)
    case Sell(p, _, id) => Sell(p, Has(a.gold, p), id)
    case Update(rs, dt, turn) => Update(FundedAll(a.room.board, a.gold, rs), dt, turn)
    case _ => op
  }

  // What becomes of the gold; t is the room afterwards.
  function GoldAfter(w: World, a: Account, op: Op, t: State): map<nat, int>
  {
    match op
    case Buy(p, gold, kind, x, y) =>
      if p in a.room.players then
        a.gold[p := Boards.Spawned(w.catalog, a.room.board, a.room.phase == Intermission, p, gold, kind, x, y).gold]
      else a.gold
    case Sell(p, gold, id) => if p in a.room.players then a.gold[p := Boards.Sold(a.room.board, p, gold, id).gold] else a.gold
    case Update(rs, dt, turn) =>
      map q | q in a.gold :: a.gold[q] - Spent(a.room.board, rs, q) + Given(a.room, t, q)
    case _ => a.gold
  }

  // What an update gives to the players in the room.
  function Given(s: State, t: State, p: nat): int
  {
    if p in s.players then Earned(t.log) - Earned(s.log) else 0
  }

  function Act(w: World, a: Account, op: Op): Account
    requires WaveManagers.InRange(w.stage, a.room.waves)
  {
    var t := Do(w, a.room, Funded(a, op));
    Account(t, GoldAfter(w, a, Funded(a, op), t))
  }

  // Gold, and the minions at their sell prices.
  function NetWorth(a: Account, p: nat): int
  {
    Has(a.gold, p) + Boards.Worth(a.room.board.minions, p, a.room.board.nextId)
  }

  // The board is cleared: the stage ends in an update, or the last player leaves.
  predicate Clears(s: State, op: Op, t: State)
  {
    match op
    case Leave(p) => s.players == {p}
    case Update(rs, dt, turn) => StageEnds(t.log) > StageEnds(s.log)
    case _ => false
  }

  // What an operation is meant to change: the room's gifts, the prices of upgrades, and minions lost with a
  // stage. Buying, moving and selling minions are not among them.
  function Income(w: World, a: Account, op: Op, p: nat): int
    requires WaveManagers.InRange(w.stage, a.room.waves)
  {
    var f := Funded(a, op);
    var t := Do(w, a.room, f);
    (if f.Update? then Given(a.room, t, p) - Spent(a.room.board, f.commands, p) else 0)
    - (if Clears(a.room, f, t) then Boards.Worth(a.room.board.minions, p, a.room.board.nextId) else 0)
  }

  // Everybody who acts has gold.
  predicate Known(gold: map<nat, int>, op: Op)
  {
    match op
    case Buy(p, _, _, _, _) => p in gold
    case Sell(p, _, _) => p in gold
    case Update(rs, _, _) => forall r | r in rs :: r.owner in gold
    case _ => true
  }

  lemma {:induction false} UpgradesKeepWorth(b: Boards.Board, rs: seq<Request>, p: nat)
    ensures var u := UpgradedAll(b, rs);
            && u.nextId == b.nextId
            && Boards.Worth(u.minions, p, u.nextId) == Boards.Worth(b.minions, p, b.nextId)
    decreases |rs|
  {
    if rs != [] {
      var before := UpgradedAll(b, rs[..|rs| - 1]);
      UpgradesKeepWorth(b, rs[..|rs| - 1], p);
      Boards.SameWorth(UpgradedAll(b, rs).minions, before.minions, p, b.nextId);
    }
  }

  // What an update leaves of the board's worth.
  lemma UpdateKeepsWorth(w: World, s: State, fs: seq<Request>, dt: real, turn: Turn, p: nat)
    requires Resting(w, s)
    ensures var t := Do(w, s, Update(fs, dt, turn));
            Boards.Worth(t.board.minions, p, t.board.nextId)
            == if StageEnds(t.log) > StageEnds(s.log) then 0 else Boards.Worth(s.board.minions, p, s.board.nextId)
  {
    var u := s.(board := UpgradedAll(s.board, fs));
    UpgradesRest(w, s, fs);
    UpdateRests(w, u, dt, turn);
    UpgradesKeepWorth(s.board, fs, p);
    var t := Ticked(w, u, dt, turn);
    if StageEnds(s.log) < StageEnds(t.log) { Boards.NothingIsWorthNothing(p, t.board.nextId); }
  }

  lemma UpdateBalances(w: World, a: Account, rs: seq<Request>, dt: real, turn: Turn, p: nat)
    requires Resting(w, a.room) && p in a.gold
    ensures NetWorth(Act(w, a, Update(rs, dt, turn)), p)
         == NetWorth(a, p) + Income(w, a, Update(rs, dt, turn), p)
  {
    UpdateKeepsWorth(w, a.room, FundedAll(a.room.board, a.gold, rs), dt, turn, p);
  }

  lemma LeaveBalances(w: World, a: Account, q: nat, p: nat)
    requires Resting(w, a.room) && p in a.gold
    ensures NetWorth(Act(w, a, Leave(q)), p) == NetWorth(a, p) + Income(w, a, Leave(q), p)
  {
    Boards.NothingIsWorthNothing(p, a.room.board.nextId);
  }

  lemma BuyBalances(w: World, a: Account, q: nat, gold: int, kind: uint32, x: int, y: int, p: nat)
    requires Resting(w, a.room) && p in a.gold && q in a.gold
    ensures NetWorth(Act(w, a, Buy(q, gold, kind, x, y)), p) == NetWorth(a, p)
  {
    Boards.SpawnKeepsWorth(w.catalog, a.room.board, a.room.phase == Intermission, q, Has(a.gold, q), kind, x, y, p);
  }

  lemma SellBalances(w: World, a: Account, q: nat, gold: int, id: nat, p: nat)
    requires Resting(w, a.room) && p in a.gold && q in a.gold
    ensures NetWorth(Act(w, a, Sell(q, gold, id)), p) == NetWorth(a, p)
  {
    Boards.SaleKeepsWorth(a.room.board, q, Has(a.gold, q), id, p);
  }

  lemma RelocateBalances(w: World, a: Account, q: nat, id: nat, x: int, y: int, p: nat)
    requires Resting(w, a.room)
    ensures NetWorth(Act(w, a, Relocate(q, id, x, y)), p) == NetWorth(a, p)
  {
    var b := a.room.board;
    var c := Boards.Relocated(w.catalog, b, a.room.phase == Intermission, id, q, x, y).1;
    Boards.SameWorth(c.minions, b.minions, p, b.nextId);
  }

  /** One operation of the room changes a player's net worth by exactly its income. */
  lemma StepBalances(w: World, a: Account, op: Op, p: nat)
    requires Resting(w, a.room) && p in a.gold && Known(a.gold, op)
    ensures NetWorth(Act(w, a, op), p) == NetWorth(a, p) + Income(w, a, op, p)
  {
    match op
    case Buy(q, gold, kind, x, y) => BuyBalances(w, a, q, gold, kind, x, y, p);
    case Relocate(q, id, x, y) => RelocateBalances(w, a, q, id, x, y, p);
    case Sell(q, gold, id) => SellBalances(w, a, q, gold, id, p);
    case Update(rs, dt, turn) => UpdateBalances(w, a, rs, dt, turn, p);
    case Leave(q) => LeaveBalances(w, a, q, p);
    case _ =>
  }

  // The account after a run, and the run itself, each operation with the gold its player had.
  function ActAll(w: World, a: Account, ops: seq<Op>): Account
    requires Resting(w, a.room)
    decreases |ops|
  {
    if ops == [] then a
    else
      StepRests(w, a.room, Funded(a, ops[0]));
      ActAll(w, Act(w, a, ops[0]), ops[1..])
  }

  function FundedRun(w: World, a: Account, ops: seq<Op>): seq<Op>
    requires Resting(w, a.room)
    decreases |ops|
  {
    if ops == [] then []
    else
      StepRests(w, a.room, Funded(a, ops[0]));
      [Funded(a, ops[0])] + FundedRun(w, Act(w, a, ops[0]), ops[1..])
  }

  function TotalIncome(w: World, a: Account, ops: seq<Op>, p: nat): int
    requires Resting(w, a.room)
    decreases |ops|
  {
    if ops == [] then 0
    else
      StepRests(w, a.room, Funded(a, ops[0]));
      Income(w, a, ops[0], p) + TotalIncome(w, Act(w, a, ops[0]), ops[1..], p)
  }

  lemma {:induction false} RunIsFunded(w: World, a: Account, ops: seq<Op>)
    requires Resting(w, a.room)
    ensures ActAll(w, a, ops).room == DoAll(w, a.room, FundedRun(w, a, ops))
    decreases |ops|
  {
    if ops != [] {
      var f, next := Funded(a, ops[0]), Act(w, a, ops[0]);
      StepRests(w, a.room, f);
      RunIsFunded(w, next, ops[1..]);
      assert FundedRun(w, a, ops)[0] == f && FundedRun(w, a, ops)[1..] == FundedRun(w, next, ops[1..]);
    }
  }

  lemma SamePlayers(w: World, a: Account, op: Op)
    requires WaveManagers.InRange(w.stage, a.room.waves) && Known(a.gold, op)
    ensures Act(w, a, op).gold.Keys == a.gold.Keys
  {
  }

  predicate AllKnown(gold: map<nat, int>, ops: seq<Op>)
  {
    forall i :: 0 <= i < |ops| ==> Known(gold, ops[i])
  }

  lemma StillKnown(gold: map<nat, int>, now: map<nat, int>, ops: seq<Op>)
    requires AllKnown(gold, ops) && now.Keys == gold.Keys && ops != []
    ensures AllKnown(now, ops[1..])
  {
    forall i | 0 <= i < |ops| - 1 ensures Known(now, ops[1..][i]) {
      assert Known(gold, ops[i + 1]);
    }
  }

  lemma {:induction false} RunBalances(w: World, a: Account, ops: seq<Op>, p: nat)
    requires Resting(w, a.room) && p in a.gold && AllKnown(a.gold, ops)
    ensures NetWorth(ActAll(w, a, ops), p) == NetWorth(a, p) + TotalIncome(w, a, ops, p)
    decreases |ops|
  {
    if ops != [] {
      StepBalances(w, a, ops[0], p);
      SamePlayers(w, a, ops[0]);
      StillKnown(a.gold, Act(w, a, ops[0]).gold, ops);
      StepRests(w, a.room, Funded(a, ops[0]));
      RunBalances(w, Act(w, a, ops[0]), ops[1..], p);
    }
  }

  /** Over every run of a new room, whatever gold its players come with, a player's gold and minions are in the
      end worth what the gold was, and the room's gifts to the player, less the prices of the upgrades and the
      minions lost when the board was cleared. */
  lemma RoomBalances(w: World, gold: map<nat, int>, ops: seq<Op>, p: nat)
    requires p in gold && AllKnown(gold, ops)
    ensures Resting(w, NewRoom)
    ensures var a := Account(NewRoom, gold);
            && ActAll(w, a, ops).room == Run(w, FundedRun(w, a, ops))
            && NetWorth(ActAll(w, a, ops), p) == gold[p] + TotalIncome(w, a, ops, p)
  {
    NewRoomRests(w);
    var a := Account(NewRoom, gold);
    RunIsFunded(w, a, ops);
    RunBalances(w, a, ops, p);
    Boards.NothingIsWorthNothing(p, NewRoom.board.nextId);
  }

  // -------- Nobody in debt --------

  ghost predicate InCredit(gold: map<nat, int>)
  {
    forall p | p in gold :: gold[p] >= 0
  }

  // Rewards and bonuses that are not negative.
  ghost predicate Generous(s: State)
  {
    forall id | id in s.roster.enemies :: s.roster.enemies[id].reward >= 0
  }

  predicate GenerousHits(hs: seq<Hit>)
  {
    forall i :: 0 <= i < |hs| && hs[i].KillBonus? ==> hs[i].gold >= 0
  }

  predicate GenerousOp(op: Op)
  {
    op.Update? ==>
      && (op.turn.data.Some? ==> op.turn.data.value.reward >= 0)
      && GenerousHits(op.turn.minionHits) && GenerousHits(op.turn.projectileHits)
  }

  // From s to t nobody has been given less than nothing.
  ghost predicate Giving(s: State, t: State)
  {
    Generous(t) && Earned(s.log) <= Earned(t.log)
  }

  lemma GivingNotice(s: State, t: State, n: Notice)
    requires Generous(t) && (t.log == s.log || (t.log == s.log + [n] && GoldOf(n) >= 0))
    ensures Giving(s, t)
  {
    EarnedLogged(s.log, n);
  }

  lemma EndGives(s: State, success: bool)
    requires Generous(s)
    ensures Giving(s, StageEnded(s, success))
  {
    var e := Logged(s.(phase := EndStage), StageEnd(success));
    EarnedLogged(s.log, StageEnd(success));
    EarnedLogged(e.log, Dropped(e.attacks));
  }

  lemma CheckGives(stage: WaveManagers.Stage, s: State)
    requires Generous(s)
    ensures Giving(s, WaveChecked(stage, s))
  {
    EndGives(s, true);
    EarnedLogged(s.log, WaveEnd);
  }

  lemma ArriveGives(stage: WaveManagers.Stage, s: State, id: nat, power: int)
    requires Generous(s)
    ensures Giving(s, Arrive(stage, s, id, power))
  {
    var a := WallHit(s, id, power);
    EarnedLogged(s.log, Arrived(id, s.hp - power));
    EndGives(a, false);
    CheckGives(stage, a);
  }

  lemma DieGives(stage: WaveManagers.Stage, s: State, id: nat, body: Enemies.Body)
    requires Generous(s) && id in s.roster.enemies
    ensures Giving(s, Die(stage, s, id, body))
  {
    EarnedLogged(s.log, Rewarded(id, s.roster.enemies[id].reward));
    CheckGives(stage, Paid(s, id, body));
  }

  lemma ChangeGives(s: State, id: nat, body: Enemies.Body)
    requires Generous(s) && id in s.roster.enemies
    ensures Giving(s, Changed(s, id, body))
  {
  }

  lemma AfterGives(stage: WaveManagers.Stage, s: State, v: Visit)
    requires Generous(s) && v.id in s.roster.enemies
    ensures Giving(s, if v.after.health.dead then Die(stage, s, v.id, v.after) else Changed(s, v.id, v.after))
  {
    if v.after.health.dead { DieGives(stage, s, v.id, v.after); } else { ChangeGives(s, v.id, v.after); }
  }

  lemma VisitGives(stage: WaveManagers.Stage, s: State, v: Visit)
    requires Generous(s)
    ensures Giving(s, Visited(stage, s, v))
  {
    if v.id in s.roster.enemies && !Dead(s.roster.enemies[v.id]) {
      var t := if v.after.health.dead then Die(stage, s, v.id, v.after) else Changed(s, v.id, v.after);
      AfterGives(stage, s, v);
      if v.arrived { ArriveGives(stage, t, v.id, s.roster.enemies[v.id].power); }
    }
  }

  lemma {:induction false} VisitsGive(stage: WaveManagers.Stage, s: State, vs: seq<Visit>)
    requires Generous(s)
    ensures Giving(s, VisitedAll(stage, s, vs))
    decreases |vs|
  {
    if vs != [] {
      VisitGives(stage, s, vs[0]);
      VisitsGive(stage, Visited(stage, s, vs[0]), vs[1..]);
    }
  }

  lemma DamageGives(stage: WaveManagers.Stage, s: State, id: nat, amount: int)
    requires Generous(s) && id in s.roster.enemies
    ensures Giving(s, Damaged(stage, s, id, amount))
  {
    var body := s.roster.enemies[id].body;
    var hurt := body.(health := Debuffs.TakeDamage(body.health, amount));
    DieGives(stage, s, id, hurt);
    ChangeGives(s, id, hurt);
  }

  lemma StrikeGives(stage: WaveManagers.Stage, s: State, h: Hit)
    requires Generous(s) && (h.KillBonus? ==> h.gold >= 0)
    ensures Giving(s, Struck(stage, s, h))
  {
    match h
    case Attack(event) => GivingNotice(s, Struck(stage, s, h), Pushed(event));
    case Damage(id, amount) => if id in s.roster.enemies { DamageGives(stage, s, id, amount); }
    case Afflict(id, debuff) =>
      if id in s.roster.enemies { ChangeGives(s, id, Enemies.Afflicted(s.roster.enemies[id].body, debuff)); }
    case KillBonus(gold) => GivingNotice(s, Struck(stage, s, h), Bonus(gold));
    case _ =>
  }

  lemma {:induction false} StrikesGive(stage: WaveManagers.Stage, s: State, hs: seq<Hit>)
    requires Generous(s) && GenerousHits(hs)
    ensures Giving(s, StruckAll(stage, s, hs))
    decreases |hs|
  {
    if hs != [] {
      assert GenerousHits(hs[1..]) by { assert forall i :: 0 <= i < |hs| - 1 ==> hs[1..][i] == hs[i + 1]; }
      StrikeGives(stage, s, hs[0]);
      StrikesGive(stage, Struck(stage, s, hs[0]), hs[1..]);
    }
  }

  lemma SpawnGives(stage: WaveManagers.Stage, s: State, dt: real, turn: Turn)
    requires WaveManagers.InRange(stage, s.waves) && Generous(s) && (turn.data.Some? ==> turn.data.value.reward >= 0)
    ensures Giving(s, WaveSpawned(stage, s, dt, turn))
  {
  }

  lemma WaveGives(w: World, s: State, dt: real, turn: Turn)
    requires WaveManagers.InRange(w.stage, s.waves) && Generous(s) && (turn.data.Some? ==> turn.data.value.reward >= 0)
    requires GenerousHits(turn.minionHits)
    ensures Giving(s, WavePart(w, s, dt, turn))
  {
    var spawned := WaveSpawned(w.stage, s, dt, turn);
    var walked := Walked(w, spawned, dt, turn.order);
    SpawnGives(w.stage, s, dt, turn);
    VisitsGive(w.stage, spawned, Visits(w.sqrt, spawned.roster, turn.order, dt));
    StrikesGive(w.stage, Removed(walked), turn.minionHits);
  }

  lemma SyncGives(s: State)
    requires Generous(s)
    ensures Giving(s, Synced(s))
  {
    EarnedLogged(s.log, Batch(s.attacks));
  }

  lemma FightGives(w: World, s: State, dt: real, turn: Turn)
    requires WaveManagers.InRange(w.stage, s.waves) && Generous(s) && GenerousOp(Update([], dt, turn))
    ensures Giving(s, Fought(w, s, dt, turn))
  {
    WaveGives(w, s, dt, turn);
    var b := if s.phase == Wave then WavePart(w, s, dt, turn) else s;
    SyncGives(b);
    StrikesGive(w.stage, Synced(b), turn.projectileHits);
  }

  lemma UpdateGives(w: World, s: State, dt: real, turn: Turn)
    requires WaveManagers.InRange(w.stage, s.waves) && Generous(s) && GenerousOp(Update([], dt, turn))
    ensures Giving(s, Ticked(w, s, dt, turn))
  {
    var f := Fought(w, Begun(s, dt), dt, turn);
    FightGives(w, Begun(s, dt), dt, turn);
    EarnedLogged(f.log, Dropped(f.attacks));
  }

  // Upgrades are only sold for gold that is there.
  lemma {:induction false} UpgradesLeaveCredit(c: Boards.Catalog, b: Boards.Board, gold: map<nat, int>, rs: seq<Request>, p: nat)
    requires Boards.NonNegative(c) && Boards.Catalogued(c, b) && InCredit(gold)
    ensures Boards.Catalogued(c, UpgradedAll(b, FundedAll(b, gold, rs)))
    ensures Has(gold, p) - Spent(b, FundedAll(b, gold, rs), p) >= 0
    decreases |rs|
  {
    if rs != [] {
      var last, fs := rs[|rs| - 1], FundedAll(b, gold, rs[..|rs| - 1]);
      var f := last.(gold := Has(gold, last.owner) - Spent(b, fs, last.owner));
      UpgradesLeaveCredit(c, b, gold, rs[..|rs| - 1], p);
      Boards.UpgradeKeepsPrices(c, UpgradedAll(b, fs), f.owner, f.gold, f.id, f.upgrade);
      SpentMore(b, fs, f, p);
    }
  }

  // What is needed of the data and the state, and kept.
  ghost predicate Solvent(w: World, a: Account)
  {
    Boards.NonNegative(w.catalog) && Boards.Catalogued(w.catalog, a.room.board) && InCredit(a.gold) && Generous(a.room)
  }

  lemma UpdateBoards(w: World, s: State, dt: real, turn: Turn)
    requires Resting(w, s) && Boards.Catalogued(w.catalog, s.board)
    ensures Boards.Catalogued(w.catalog, Ticked(w, s, dt, turn).board)
  {
    UpdateRests(w, s, dt, turn);
  }

  // The room's part of it.
  lemma UpdateKeepsPrices(w: World, s: State, gold: map<nat, int>, rs: seq<Request>, dt: real, turn: Turn)
    requires Resting(w, s) && Boards.NonNegative(w.catalog) && Boards.Catalogued(w.catalog, s.board)
    requires InCredit(gold) && Generous(s) && GenerousOp(Update(rs, dt, turn))
    ensures var t := Do(w, s, Update(FundedAll(s.board, gold, rs), dt, turn));
            Boards.Catalogued(w.catalog, t.board) && Giving(s, t)
  {
    var fs := FundedAll(s.board, gold, rs);
    var u := s.(board := UpgradedAll(s.board, fs));
    UpgradesRest(w, s, fs);
    UpgradesLeaveCredit(w.catalog, s.board, gold, rs, 0);
    UpdateBoards(w, u, dt, turn);
    UpdateGives(w, u, dt, turn);
  }

  lemma UpdateStaysSolvent(w: World, a: Account, rs: seq<Request>, dt: real, turn: Turn)
    requires Resting(w, a.room) && Solvent(w, a) && GenerousOp(Update(rs, dt, turn))
    ensures Solvent(w, Act(w, a, Update(rs, dt, turn)))
  {
    UpdateKeepsPrices(w, a.room, a.gold, rs, dt, turn);
    forall q | q in a.gold ensures Act(w, a, Update(rs, dt, turn)).gold[q] >= 0 {
      UpgradesLeaveCredit(w.catalog, a.room.board, a.gold, rs, q);
    }
  }

  lemma BuyStaysSolvent(w: World, a: Account, p: nat, gold: int, kind: uint32, x: int, y: int)
    requires WaveManagers.InRange(w.stage, a.room.waves) && Solvent(w, a) && p in a.gold
    ensures Solvent(w, Act(w, a, Buy(p, gold, kind, x, y)))
  {
    Boards.SpawnKeepsPrices(w.catalog, a.room.board, a.room.phase == Intermission, p, a.gold[p], kind, x, y);
  }

  lemma StepStaysSolvent(w: World, a: Account, op: Op)
    requires Resting(w, a.room) && Solvent(w, a) && Known(a.gold, op) && GenerousOp(op)
    ensures Solvent(w, Act(w, a, op))
  {
    match op
    case Buy(p, gold, kind, x, y) => BuyStaysSolvent(w, a, p, gold, kind, x, y);
    case Update(rs, dt, turn) => UpdateStaysSolvent(w, a, rs, dt, turn);
    case _ =>
  }

  lemma {:induction false} RunStaysSolvent(w: World, a: Account, ops: seq<Op>)
    requires Resting(w, a.room) && Solvent(w, a) && AllKnown(a.gold, ops)
    requires forall i :: 0 <= i < |ops| ==> GenerousOp(ops[i])
    ensures Solvent(w, ActAll(w, a, ops))
    decreases |ops|
  {
    if ops != [] {
      StepStaysSolvent(w, a, ops[0]);
      SamePlayers(w, a, ops[0]);
      StillKnown(a.gold, Act(w, a, ops[0]).gold, ops);
      StepRests(w, a.room, Funded(a, ops[0]));
      RunStaysSolvent(w, Act(w, a, ops[0]), ops[1..]);
    }
  }

  /** Over every run of a new room, with costs, prices, rewards and bonuses that are not negative and players
      that come with no debt, nobody's gold is ever negative, and every minion sells for what its data says it
      costs. */
  lemma NeverInDebt(w: World, gold: map<nat, int>, ops: seq<Op>)
    requires Boards.NonNegative(w.catalog) && InCredit(gold) && AllKnown(gold, ops)
    requires forall i :: 0 <= i < |ops| ==> GenerousOp(ops[i])
    ensures Resting(w, NewRoom)
    ensures var t := ActAll(w, Account(NewRoom, gold), ops);
            InCredit(t.gold) && Boards.Catalogued(w.catalog, t.room.board)
  {
    NewRoomRests(w);
    RunStaysSolvent(w, Account(NewRoom, gold), ops);
  }
}
