/** Upgrades over an update and over a run of the room: what the levels cost, and how far they go. */
module RoomUpgrades {
  import opened Wire
  import opened Boards
  import opened BoardLaws
  import opened RoomStates
  import opened RoomLaws
  import opened RoomLedger

  // -------- One update's commands --------

  predicate Accepted(b: Board, r: Request)
  {
    Upgraded(b, r.owner, r.gold, r.id, r.upgrade).code == NoError
  }

  // How many of the requests for this slot are accepted, and what they cost.
  function Gained(b: Board, rs: seq<Request>, id: nat, upgrade: int): nat
    decreases |rs|
  {
    if rs == [] then 0
    else
      var last, before := rs[|rs| - 1], rs[..|rs| - 1];
      Gained(b, before, id, upgrade)
      + (if last.id == id && last.upgrade == upgrade && Accepted(UpgradedAll(b, before), last) then 1 else 0)
  }

  function PaidFor(b: Board, rs: seq<Request>, id: nat, upgrade: int): int
    decreases |rs|
  {
    if rs == [] then 0
    else
      var last, before := rs[|rs| - 1], rs[..|rs| - 1];
      PaidFor(b, before, id, upgrade)
      + (if last.id == id && last.upgrade == upgrade then Price(UpgradedAll(b, before), last) else 0)
  }

  ghost predicate SameSlots(b: Board, c: Board)
  {
    && c.minions.Keys == b.minions.Keys
    && forall id | id in b.minions ::
         && c.minions[id] == b.minions[id].(slots := c.minions[id].slots)
         && c.minions[id].slots.Keys == b.minions[id].slots.Keys
         && forall u | u in b.minions[id].slots :: SlotOf(c, id, u) == SlotOf(b, id, u).(level := SlotOf(c, id, u).level)
  }

  lemma OneUpgradeKeeps(b: Board, r: Request)
    ensures SameSlots(b, Upgraded(b, r.owner, r.gold, r.id, r.upgrade).board)
  {
    UpgradedIff(b, r.owner, r.gold, r.id, r.upgrade);
  }

  lemma OneUpgradeRaises(b: Board, r: Request, id: nat, upgrade: int)
    requires id in b.minions && upgrade in b.minions[id].slots
    ensures var c := Upgraded(b, r.owner, r.gold, r.id, r.upgrade).board;
            && id in c.minions && upgrade in c.minions[id].slots
            && SlotOf(c, id, upgrade).level
               == SlotOf(b, id, upgrade).level + (if r.id == id && r.upgrade == upgrade && Accepted(b, r) then 1 else 0)
            && (r.id == id && r.upgrade == upgrade ==>
                  Price(b, r) == if Accepted(b, r) then SlotOf(b, id, upgrade).price else 0)
  {
    UpgradedIff(b, r.owner, r.gold, r.id, r.upgrade);
  }

  lemma TimesOneMore(price: int, n: nat)
    ensures price * (n + 1) == price * n + price
  {
  }

  /** The levels a slot gains in an update are the requests accepted for it, each paid for at its price, and nothing
      else about the minions changes. */
  lemma {:induction false} LevelsArePaidFor(b: Board, rs: seq<Request>, id: nat, upgrade: int)
    requires id in b.minions && upgrade in b.minions[id].slots
    ensures var c := UpgradedAll(b, rs);
            && SameSlots(b, c)
            && SlotOf(c, id, upgrade).level == SlotOf(b, id, upgrade).level + Gained(b, rs, id, upgrade)
            && PaidFor(b, rs, id, upgrade) == SlotOf(b, id, upgrade).price * Gained(b, rs, id, upgrade)
    decreases |rs|
  {
    if rs != [] {
      var last, before := rs[|rs| - 1], UpgradedAll(b, rs[..|rs| - 1]);
      LevelsArePaidFor(b, rs[..|rs| - 1], id, upgrade);
      OneUpgradeKeeps(before, last);
      OneUpgradeRaises(before, last, id, upgrade);
      TimesOneMore(SlotOf(b, id, upgrade).price, Gained(b, rs[..|rs| - 1], id, upgrade));
    }
  }

  // -------- Over a run --------

  // The slot is the data's, with a level from the data's up to the cap.
  predicate Within(data: Slot, slot: Slot)
  {
    && slot == data.(level := slot.level) && data.level <= slot.level
    && (slot.level <= data.maxLevel || slot.level == data.level)
  }

  ghost predicate Capped(c: Catalog, m: Minion)
  {
    && m.kind in c.minions && m.slots.Keys == c.minions[m.kind].slots.Keys
    && forall u | u in m.slots :: Within(c.minions[m.kind].slots[u], m.slots[u])
  }

  ghost predicate AllCapped(c: Catalog, b: Board)
  {
    forall id | id in b.minions :: Capped(c, b.minions[id])
  }

  lemma UpgradeKeepsCaps(c: Catalog, b: Board, owner: nat, gold: int, id: nat, upgrade: int)
    requires AllCapped(c, b)
    ensures AllCapped(c, Upgraded(b, owner, gold, id, upgrade).board)
  {
    var o := Upgraded(b, owner, gold, id, upgrade);
    UpgradedIff(b, owner, gold, id, upgrade);
    if o.code == NoError {
      assert Capped(c, b.minions[id]);
      forall u | u in o.board.minions[id].slots
        ensures Within(c.minions[b.minions[id].kind].slots[u], o.board.minions[id].slots[u])
      {
        assert Within(c.minions[b.minions[id].kind].slots[u], b.minions[id].slots[u]);
      }
    }
  }

  lemma {:induction false} UpgradesKeepCaps(c: Catalog, b: Board, rs: seq<Request>)
    requires AllCapped(c, b)
    ensures AllCapped(c, UpgradedAll(b, rs))
    decreases |rs|
  {
    if rs != [] {
      var last := rs[|rs| - 1];
      UpgradesKeepCaps(c, b, rs[..|rs| - 1]);
      UpgradeKeepsCaps(c, UpgradedAll(b, rs[..|rs| - 1]), last.owner, last.gold, last.id, last.upgrade);
    }
  }

  lemma TradeKeepsCaps(c: Catalog, b: Board, intermission: bool, p: nat, gold: int, kind: uint32, id: nat, x: int, y: int)
    requires AllCapped(c, b)
    ensures AllCapped(c, Spawned(c, b, intermission, p, gold, kind, x, y).board)
    ensures AllCapped(c, Relocated(c, b, intermission, id, p, x, y).1)
    ensures AllCapped(c, Sold(b, p, gold, id).board)
  {
  }

  lemma TickKeepsCaps(w: World, u: State, dt: real, turn: Turn, t: State)
    requires Resting(w, u) && AllCapped(w.catalog, u.board) && t == Ticked(w, u, dt, turn)
    ensures AllCapped(w.catalog, t.board)
  {
    UpdateRests(w, u, dt, turn);
    if StageEnds(u.log) < StageEnds(t.log) { assert t.board.minions == map[]; }
  }

  lemma UpdateKeepsCaps(w: World, s: State, commands: seq<Request>, dt: real, turn: Turn)
    requires Resting(w, s) && AllCapped(w.catalog, s.board)
    ensures AllCapped(w.catalog, Do(w, s, Update(commands, dt, turn)).board)
  {
    UpgradesRest(w, s, commands);
    UpgradesKeepCaps(w.catalog, s.board, commands);
    TickKeepsCaps(w, s.(board := UpgradedAll(s.board, commands)), dt, turn, Do(w, s, Update(commands, dt, turn)));
  }

  lemma StepKeepsCaps(w: World, s: State, op: Op)
    requires Resting(w, s) && AllCapped(w.catalog, s.board)
    ensures AllCapped(w.catalog, Do(w, s, op).board)
  {
    match op
    case Buy(p, gold, kind, x, y) => TradeKeepsCaps(w.catalog, s.board, s.phase == Intermission, p, gold, kind, 0, x, y);
    case Relocate(p, id, x, y) => TradeKeepsCaps(w.catalog, s.board, s.phase == Intermission, p, 0, 0, id, x, y);
    case Sell(p, gold, id) => TradeKeepsCaps(w.catalog, s.board, false, p, gold, 0, id, 0, 0);
    case Update(commands, dt, turn) => UpdateKeepsCaps(w, s, commands, dt, turn);
    case _ =>
  }

  lemma {:induction false} StepsKeepCaps(w: World, s: State, ops: seq<Op>)
    requires Resting(w, s) && AllCapped(w.catalog, s.board)
    ensures AllCapped(w.catalog, DoAll(w, s, ops).board)
    decreases |ops|
  {
    if ops != [] {
      StepRests(w, s, ops[0]);
      StepKeepsCaps(w, s, ops[0]);
      StepsKeepCaps(w, Do(w, s, ops[0]), ops[1..]);
    }
  }

  /** Over every run of a new room, every slot of every minion is its data's, with a level that started at the
      data's, never falls and never passes the cap. */
  lemma LevelsCapped(w: World, ops: seq<Op>)
    ensures AllCapped(w.catalog, Run(w, ops).board)
  {
    NewRoomRests(w);
    StepsKeepCaps(w, NewRoom, ops);
  }
}
