/** The minions on the board: which tile each stands on, and what they and their upgrades cost their owners. */
module Boards {
  import opened Wire
  import opened Geometry

  datatype ErrorCode = NoError | InvalidId | InvalidMinionId | InvalidSpawnPosition | SpawnedMinionPosition
                     | InvalidOrderId | GoldNotEnough | AlreadyMaxLevel | InvalidState

  datatype Tile = Tile(x: int, y: int, z: int)

  datatype Slot = Slot(level: int, maxLevel: int, price: int)

  datatype Minion = Minion(kind: uint32, owner: nat, x: real, y: real, z: real, sellPrice: int, slots: map<int, Slot>)

  datatype MinionData = MinionData(cost: int, slots: map<int, Slot>)

  // The minion data, and the tiles a stage allows minions on.
  datatype Catalog = Catalog(minions: map<uint32, MinionData>, buildable: set<Tile>)

  // MinionManager's minions and id counter, and the room's occupied tiles.
  datatype Board = Board(minions: map<nat, Minion>, nextId: nat, tiles: map<Tile, nat>)

  const EmptyBoard := Board(map[], 1, map[])
  const START_GOLD := 400

  // Minion::Init: half a unit per tile; the sell price is the cost.
  function NewMinion(kind: uint32, data: MinionData, owner: nat, x: int, y: int): Minion
  {
    Minion(kind, owner, x as real / 2.0, y as real / 2.0, 0.0, data.cost, data.slots)
  }

  // SetPosition leaves z alone.
  function Moved(m: Minion, x: int, y: int): Minion
  {
    m.(x := x as real / 2.0, y := y as real / 2.0)
  }

  // The tile under a minion, as RelocateMinion computes it.
  function Home(m: Minion): Tile
  {
    Tile(Trunc(m.x * 2.0), Trunc(m.y * 2.0), Trunc(m.z * 2.0))
  }

  // ReturnMinion computes it without z.
  function GroundTile(m: Minion): Tile
  {
    Tile(Trunc(m.x * 2.0), Trunc(m.y * 2.0), 0)
  }

  // What an operation answers, and the acting player's gold and the board after it.
  datatype Outcome = Outcome(code: ErrorCode, gold: int, board: Board)

  function SiteError(c: Catalog, b: Board, intermission: bool, site: Tile): ErrorCode
  {
    if !intermission then InvalidState
    else if site !in c.buildable then InvalidSpawnPosition
    else if site in b.tiles then SpawnedMinionPosition
    else NoError
  }

  /** A refused purchase touches nothing, and it is refused exactly if one of the checks fails. */
  function Spawned(c: Catalog, b: Board, intermission: bool, owner: nat, gold: int, kind: uint32, x: int, y: int)
    : (o: Outcome)
    ensures o.code != NoError ==> o == Outcome(o.code, gold, b)
    ensures o.code == NoError
       <==> intermission && Tile(x, y, 0) in c.buildable && Tile(x, y, 0) !in b.tiles
            && kind in c.minions && gold >= c.minions[kind].cost
  {
    var site := Tile(x, y, 0);
    var code := SiteError(c, b, intermission, site);
    if code != NoError then Outcome(code, gold, b)
    else if kind !in c.minions then Outcome(InvalidMinionId, gold, b)
    else if gold < c.minions[kind].cost then Outcome(GoldNotEnough, gold, b)
    else
      var minion := NewMinion(kind, c.minions[kind], owner, x, y);
      Outcome(NoError, gold - c.minions[kind].cost,
              Board(b.minions[b.nextId := minion], b.nextId + 1, b.tiles[site := b.nextId]))
  }

  function Returned(b: Board, id: nat): Board
  {
    if id !in b.minions then b
    else Board(b.minions - {id}, b.nextId, b.tiles - {GroundTile(b.minions[id])})
  }

  function Relocated(c: Catalog, b: Board, intermission: bool, id: nat, owner: nat, x: int, y: int): (ErrorCode, Board)
  {
    var site := Tile(x, y, 0);
    var code := SiteError(c, b, intermission, site);
    if code != NoError then (code, b)
    else if id !in b.minions then (InvalidMinionId, b)
    else if b.minions[id].owner != owner then (InvalidOrderId, b)
    else
      var m := b.minions[id];
      (NoError, Board(b.minions[id := Moved(m, x, y)], b.nextId, (b.tiles - {Home(m)})[site := id]))
  }

  function OwnerError(b: Board, owner: nat, id: nat): ErrorCode
  {
    if id !in b.minions then InvalidId
    else if b.minions[id].owner != owner then InvalidOrderId
    else NoError
  }

  function Sold(b: Board, owner: nat, gold: int, id: nat): Outcome
  {
    var code := OwnerError(b, owner, id);
    if code != NoError then Outcome(code, gold, b)
    else Outcome(NoError, gold + b.minions[id].sellPrice, Returned(b, id))
  }

  function Upgraded(b: Board, owner: nat, gold: int, id: nat, upgrade: int): Outcome
  {
    var code := OwnerError(b, owner, id);
    if code != NoError then Outcome(code, gold, b)
    else
      var m := b.minions[id];
      if upgrade !in m.slots then Outcome(InvalidId, gold, b)
      else
        var slot := m.slots[upgrade];
        if slot.level >= slot.maxLevel then Outcome(AlreadyMaxLevel, gold, b)
        else if gold < slot.price then Outcome(GoldNotEnough, gold, b)
        else
          var raised := m.(slots := m.slots[upgrade := slot.(level := slot.level + 1)]);
          Outcome(NoError, gold - slot.price, b.(minions := b.minions[id := raised]))
  }

  function Cleared(b: Board): Board
  {
    EmptyBoard.(nextId := b.nextId)
  }

  class Player {
    const m_id: nat
    var m_gold: int

    constructor (id: nat)
      ensures m_id == id && m_gold == START_GOLD
    {
      m_id, m_gold := id, START_GOLD;
    }

    method TryUseGold(price: int) returns (ok: bool)
      modifies this
      ensures ok == (old(m_gold) >= price)
      ensures m_gold == if ok then old(m_gold) - price else old(m_gold)
      ensures price >= 0 && old(m_gold) >= 0 ==> m_gold >= 0
    {
      if m_gold < price {
        return false;
      }
      m_gold := m_gold - price;
      ok := true;
    }

    method AddGold(amount: int)
      modifies this
      ensures m_gold == old(m_gold) + amount
    {
      m_gold := m_gold + amount;
    }
  }

  class MinionManager {
    var m_nextInstanceId: nat
    var m_minions: map<nat, Minion>

    constructor ()
      ensures m_nextInstanceId == 1 && m_minions == map[]
    {
      m_nextInstanceId, m_minions := 1, map[];
    }

    // The id is used up even when there is no data for the minion.
    method SpawnMinion(minionId: uint32, data: Option<MinionData>, orderId: nat, x: int, y: int)
      returns (instanceId: Option<nat>)
      modifies this
      ensures m_nextInstanceId == old(m_nextInstanceId) + 1
      ensures match data
              case None => instanceId.None? && m_minions == old(m_minions)
              case Some(d) =>
                && instanceId == Some(old(m_nextInstanceId))
                && m_minions == old(m_minions)[old(m_nextInstanceId) := NewMinion(minionId, d, orderId, x, y)]
    {
      var id := m_nextInstanceId;
      m_nextInstanceId := m_nextInstanceId + 1;
      if data.None? {
        return None;
      }
      m_minions := m_minions[id := NewMinion(minionId, data.value, orderId, x, y)];
      instanceId := Some(id);
    }

    // A change to the minion itself: its position, or the level of an upgrade slot.
    method SetMinion(instanceId: nat, minion: Minion)
      modifies this`m_minions
      ensures m_minions == old(m_minions)[instanceId := minion]
    {
      m_minions := m_minions[instanceId := minion];
    }

    method RemoveMinion(instanceId: nat)
      modifies this`m_minions
      ensures m_minions == old(m_minions) - {instanceId}
    {
      if instanceId in m_minions {
        m_minions := m_minions - {instanceId};
      }
    }

    method Clear()
      modifies this`m_minions
      ensures m_minions == map[]
    {
      m_minions := map[];
    }

    function FindMinion(instanceId: nat): Option<Minion>
      reads this
    {
      if instanceId in m_minions then Some(m_minions[instanceId]) else None
    }
  }

  // -------- The tile index --------

  // A minion's home, as long as it stands on a buildable tile and the index says so.
  ghost predicate AtHome(c: Catalog, b: Board, id: nat)
    requires id in b.minions
  {
    var m := b.minions[id];
    var home := Home(m);
    && home in b.tiles && b.tiles[home] == id && home in c.buildable
    && m.x == home.x as real / 2.0 && m.y == home.y as real / 2.0 && m.z == 0.0
  }

  /** The index is the inverse of the minions' positions: every minion has its tile, and every occupied tile
      its minion. So no two minions share a tile. */
  ghost predicate IndexExact(c: Catalog, b: Board)
  {
    && (forall id | id in b.minions :: AtHome(c, b, id) && id < b.nextId)
    && (forall t | t in b.tiles :: b.tiles[t] in b.minions && Home(b.minions[b.tiles[t]]) == t)
  }

  // Doubling half a tile coordinate and truncating gives the coordinate back.
  lemma HalfAndBack(x: int)
    ensures Trunc(x as real / 2.0 * 2.0) == x
  {
  }

  lemma HomeOfMoved(m: Minion, x: int, y: int)
    requires m.z == 0.0
    ensures Home(Moved(m, x, y)) == Tile(x, y, 0)
  {
    HalfAndBack(x);
    HalfAndBack(y);
  }

  lemma HomeOfNew(kind: uint32, data: MinionData, owner: nat, x: int, y: int)
    ensures Home(NewMinion(kind, data, owner, x, y)) == Tile(x, y, 0)
  {
    HalfAndBack(x);
    HalfAndBack(y);
  }

  lemma SpawnKeepsIndex(c: Catalog, b: Board, owner: nat, kind: uint32, x: int, y: int)
    requires IndexExact(c, b) && kind in c.minions
    requires var site := Tile(x, y, 0); site in c.buildable && site !in b.tiles
    ensures var minion := NewMinion(kind, c.minions[kind], owner, x, y);
            IndexExact(c, Board(b.minions[b.nextId := minion], b.nextId + 1, b.tiles[Tile(x, y, 0) := b.nextId]))
  {
    HomeOfNew(kind, c.minions[kind], owner, x, y);
    var minion := NewMinion(kind, c.minions[kind], owner, x, y);
    var after := Board(b.minions[b.nextId := minion], b.nextId + 1, b.tiles[Tile(x, y, 0) := b.nextId]);
    forall id | id in after.minions ensures AtHome(c, after, id) && id < after.nextId {
      if id != b.nextId { assert AtHome(c, b, id); }
    }
  }

  lemma ReturnKeepsIndex(c: Catalog, b: Board, id: nat)
    requires IndexExact(c, b)
    ensures IndexExact(c, Returned(b, id))
  {
    if id in b.minions {
      assert AtHome(c, b, id);
      var after := Returned(b, id);
      forall other | other in after.minions ensures AtHome(c, after, other) && other < after.nextId {
        assert AtHome(c, b, other);
      }
    }
  }

  lemma RelocateKeepsIndex(c: Catalog, b: Board, intermission: bool, id: nat, owner: nat, x: int, y: int)
    requires IndexExact(c, b)
    ensures IndexExact(c, Relocated(c, b, intermission, id, owner, x, y).1)
  {
    var (code, after) := Relocated(c, b, intermission, id, owner, x, y);
    if code == NoError {
      assert AtHome(c, b, id);
      HomeOfMoved(b.minions[id], x, y);
      forall other | other in after.minions ensures AtHome(c, after, other) && other < after.nextId {
        assert AtHome(c, b, other);
      }
    }
  }

  lemma UpgradeKeepsIndex(c: Catalog, b: Board, owner: nat, gold: int, id: nat, upgrade: int)
    requires IndexExact(c, b)
    ensures IndexExact(c, Upgraded(b, owner, gold, id, upgrade).board)
  {
    var after := Upgraded(b, owner, gold, id, upgrade).board;
    forall other | other in after.minions ensures AtHome(c, after, other) && other < after.nextId {
      assert AtHome(c, b, other);
    }
  }

  // -------- What minions are worth --------

  // The sell prices of the minions that p owns, over ids below n.
  function Worth(minions: map<nat, Minion>, p: nat, n: nat): int
  {
    if n == 0 then 0
    else Worth(minions, p, n - 1)
         + (if n - 1 in minions && minions[n - 1].owner == p then minions[n - 1].sellPrice else 0)
  }

  lemma {:induction false} SameWorth(a: map<nat, Minion>, b: map<nat, Minion>, p: nat, n: nat)
    requires forall id: nat | id < n ::
               && (id in a <==> id in b)
               && (id in a ==> a[id].owner == b[id].owner && a[id].sellPrice == b[id].sellPrice)
    ensures Worth(a, p, n) == Worth(b, p, n)
  {
    if n > 0 { SameWorth(a, b, p, n - 1); }
  }

  lemma {:induction false} WorthWithout(minions: map<nat, Minion>, p: nat, n: nat, id: nat)
    requires id < n && id in minions
    ensures Worth(minions - {id}, p, n)
            == Worth(minions, p, n) - (if minions[id].owner == p then minions[id].sellPrice else 0)
  {
    if id == n - 1 {
      SameWorth(minions - {id}, minions, p, n - 1);
    } else {
      WorthWithout(minions, p, n - 1, id);
    }
  }

  lemma WorthWithNew(b: Board, p: nat, minion: Minion)
    ensures Worth(b.minions[b.nextId := minion], p, b.nextId + 1)
            == Worth(b.minions, p, b.nextId) + (if minion.owner == p then minion.sellPrice else 0)
  {
    SameWorth(b.minions[b.nextId := minion], b.minions, p, b.nextId);
  }

  lemma {:induction false} NothingIsWorthNothing(p: nat, n: nat)
    ensures Worth(map[], p, n) == 0
  {
    if n > 0 { NothingIsWorthNothing(p, n - 1); }
  }

  // Whoever pays, p's share of the gold.
  function Share(owner: nat, gold: int, p: nat): int
  {
    if owner == p then gold else 0
  }

  /** A purchase turns gold into a minion of the same worth. */
  lemma SpawnKeepsWorth(c: Catalog, b: Board, intermission: bool, owner: nat, gold: int, kind: uint32, x: int, y: int, p: nat)
    ensures var o := Spawned(c, b, intermission, owner, gold, kind, x, y);
            Share(owner, o.gold, p) + Worth(o.board.minions, p, o.board.nextId)
            == Share(owner, gold, p) + Worth(b.minions, p, b.nextId)
  {
    var o := Spawned(c, b, intermission, owner, gold, kind, x, y);
    if o.code == NoError { WorthWithNew(b, p, o.board.minions[b.nextId]); }
  }

  /** And a sale turns it back. */
  lemma SaleKeepsWorth(b: Board, owner: nat, gold: int, id: nat, p: nat)
    requires id in b.minions ==> id < b.nextId
    ensures var o := Sold(b, owner, gold, id);
            Share(owner, o.gold, p) + Worth(o.board.minions, p, o.board.nextId)
            == Share(owner, gold, p) + Worth(b.minions, p, b.nextId)
  {
    if id in b.minions { WorthWithout(b.minions, p, b.nextId, id); }
  }

  // -------- Prices --------

  // What a minion sells for, and its upgrades cost, is what the data says.
  ghost predicate Catalogued(c: Catalog, b: Board)
  {
    forall id | id in b.minions :: IsCatalogued(c, b.minions[id])
  }

  ghost predicate IsCatalogued(c: Catalog, m: Minion)
  {
    && m.kind in c.minions && m.sellPrice == c.minions[m.kind].cost
    && m.slots.Keys == c.minions[m.kind].slots.Keys
    && forall u | u in m.slots :: m.slots[u].price == c.minions[m.kind].slots[u].price
  }

  ghost predicate NonNegative(c: Catalog)
  {
    forall k | k in c.minions :: c.minions[k].cost >= 0 && forall u | u in c.minions[k].slots :: c.minions[k].slots[u].price >= 0
  }

  lemma SpawnKeepsPrices(c: Catalog, b: Board, intermission: bool, owner: nat, gold: int, kind: uint32, x: int, y: int)
    requires Catalogued(c, b)
    ensures Catalogued(c, Spawned(c, b, intermission, owner, gold, kind, x, y).board)
  {
  }

  lemma UpgradeKeepsPrices(c: Catalog, b: Board, owner: nat, gold: int, id: nat, upgrade: int)
    requires Catalogued(c, b)
    ensures Catalogued(c, Upgraded(b, owner, gold, id, upgrade).board)
  {
  }

  // -------- Undoing --------

  /** Selling undoes buying: the gold, the minions and the tiles are back; only the id is used up. */
  lemma SellUndoesSpawn(c: Catalog, b: Board, intermission: bool, owner: nat, gold: int, kind: uint32, x: int, y: int)
    requires IndexExact(c, b)
    requires Spawned(c, b, intermission, owner, gold, kind, x, y).code == NoError
    ensures var o := Spawned(c, b, intermission, owner, gold, kind, x, y);
            Sold(o.board, owner, o.gold, b.nextId) == Outcome(NoError, gold, b.(nextId := b.nextId + 1))
  {
    HomeOfNew(kind, c.minions[kind], owner, x, y);
    var o := Spawned(c, b, intermission, owner, gold, kind, x, y);
    assert o.board.minions - {b.nextId} == b.minions;
    assert o.board.tiles - {Tile(x, y, 0)} == b.tiles;
  }

  /** A minion that is moved can be moved back to where it stood, and then nothing has changed. */
  lemma RelocateUndoes(c: Catalog, b: Board, id: nat, owner: nat, x: int, y: int)
    requires IndexExact(c, b) && Relocated(c, b, true, id, owner, x, y).0 == NoError
    ensures var was := Home(b.minions[id]);
            Relocated(c, Relocated(c, b, true, id, owner, x, y).1, true, id, owner, was.x, was.y) == (NoError, b)
  {
    assert AtHome(c, b, id);
    var was := Home(b.minions[id]);
    HomeOfMoved(b.minions[id], x, y);
    var there := Relocated(c, b, true, id, owner, x, y).1;
    assert was.z == 0 && was != Tile(x, y, 0);
    assert Moved(there.minions[id], was.x, was.y) == b.minions[id];
    assert there.minions[id := b.minions[id]] == b.minions;
    assert (there.tiles - {Tile(x, y, 0)})[was := id] == b.tiles;
  }
}
