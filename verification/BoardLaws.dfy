/** What the players' operations on the board answer, and exactly what they change. */
module BoardLaws {
  import opened Wire
  import opened Boards

  // -------- Buying, moving, selling --------

  // What is wrong with a tile, if anything.
  ghost predicate SiteAnswer(c: Catalog, b: Board, intermission: bool, site: Tile, code: ErrorCode)
  {
    && (code == InvalidState <==> !intermission)
    && (code == InvalidSpawnPosition <==> intermission && site !in c.buildable)
    && (code == SpawnedMinionPosition <==> intermission && site in c.buildable && site in b.tiles)
  }

  ghost predicate GoodSite(c: Catalog, b: Board, intermission: bool, site: Tile)
  {
    intermission && site in c.buildable && site !in b.tiles
  }

  /** A purchase is accepted exactly between waves, onto a free tile that allows it, for a minion there is and can be
      afforded; it costs what the minion costs and adds the minion, at home on its tile, under the next id. */
  lemma BoughtIff(c: Catalog, b: Board, intermission: bool, owner: nat, gold: int, kind: uint32, x: int, y: int)
    ensures var site, o := Tile(x, y, 0), Spawned(c, b, intermission, owner, gold, kind, x, y);
            var good := GoodSite(c, b, intermission, site);
            && SiteAnswer(c, b, intermission, site, o.code)
            && (o.code == InvalidMinionId <==> good && kind !in c.minions)
            && (o.code == GoldNotEnough <==> good && kind in c.minions && gold < c.minions[kind].cost)
            && (o.code == NoError <==> good && kind in c.minions && gold >= c.minions[kind].cost)
            && (o.code != NoError ==> o.gold == gold && o.board == b)
            && (o.code == NoError ==>
                  && o.gold + c.minions[kind].cost == gold
                  && o.board.nextId == b.nextId + 1 && b.nextId in o.board.minions
                  && o.board.minions - {b.nextId} == b.minions - {b.nextId}
                  && o.board.tiles == b.tiles[site := b.nextId]
                  && var m := o.board.minions[b.nextId];
                     && Home(m) == site && m.kind == kind && m.owner == owner
                     && m.sellPrice == c.minions[kind].cost && m.slots == c.minions[kind].slots)
  {
    if kind in c.minions { HomeOfNew(kind, c.minions[kind], owner, x, y); }
  }

  // Nothing of the minion but its place.
  ghost predicate OnlyPlace(b: Board, after: Board, id: nat)
    requires id in b.minions
  {
    && after.nextId == b.nextId && after.minions.Keys == b.minions.Keys
    && (forall other | other in b.minions && other != id :: after.minions[other] == b.minions[other])
    && after.minions[id] == b.minions[id].(x := after.minions[id].x, y := after.minions[id].y)
  }

  /** A move is accepted exactly between waves, onto a free tile that allows it, for a minion of the player's; it
      changes where that minion stands and which tiles are taken, nothing else. A refused one changes nothing. */
  lemma RelocatedIff(c: Catalog, b: Board, intermission: bool, id: nat, owner: nat, x: int, y: int)
    requires IndexExact(c, b)
    ensures var site, (code, after) := Tile(x, y, 0), Relocated(c, b, intermission, id, owner, x, y);
            var good := GoodSite(c, b, intermission, site);
            && SiteAnswer(c, b, intermission, site, code)
            && (code == InvalidMinionId <==> good && id !in b.minions)
            && (code == InvalidOrderId <==> good && id in b.minions && b.minions[id].owner != owner)
            && (code == NoError <==> good && id in b.minions && b.minions[id].owner == owner)
            && (code != NoError ==> after == b)
            && (code == NoError ==>
                  && OnlyPlace(b, after, id) && Home(after.minions[id]) == site
                  && after.tiles == (b.tiles - {Home(b.minions[id])})[site := id])
  {
    if id in b.minions {
      assert AtHome(c, b, id);
      HomeOfMoved(b.minions[id], x, y);
    }
  }

  /** A sale is accepted exactly for a minion of the player's; it pays what the minion cost, and the minion and its
      tile are gone. */
  lemma SoldIff(c: Catalog, b: Board, owner: nat, gold: int, id: nat)
    requires IndexExact(c, b)
    ensures var o := Sold(b, owner, gold, id);
            && (o.code == InvalidId <==> id !in b.minions)
            && (o.code == InvalidOrderId <==> id in b.minions && b.minions[id].owner != owner)
            && (o.code == NoError <==> id in b.minions && b.minions[id].owner == owner)
            && (o.code != NoError ==> o.gold == gold && o.board == b)
            && (o.code == NoError ==>
                  && o.gold == gold + b.minions[id].sellPrice
                  && o.board == Board(b.minions - {id}, b.nextId, b.tiles - {Home(b.minions[id])}))
  {
    if id in b.minions { assert AtHome(c, b, id); }
  }

  // -------- Upgrading --------

  // A minion of the owner with that slot.
  ghost predicate Owns(b: Board, owner: nat, id: nat, upgrade: int)
  {
    id in b.minions && b.minions[id].owner == owner && upgrade in b.minions[id].slots
  }

  function SlotOf(b: Board, id: nat, upgrade: int): Slot
    requires id in b.minions && upgrade in b.minions[id].slots
  {
    b.minions[id].slots[upgrade]
  }

  // Between b and c nothing differs but the level of one slot.
  ghost predicate OnlyLevel(b: Board, c: Board, id: nat, upgrade: int)
    requires id in b.minions && upgrade in b.minions[id].slots
  {
    && c.nextId == b.nextId && c.tiles == b.tiles && c.minions.Keys == b.minions.Keys
    && (forall other | other in b.minions && other != id :: c.minions[other] == b.minions[other])
    && c.minions[id] == b.minions[id].(slots := c.minions[id].slots)
    && c.minions[id].slots.Keys == b.minions[id].slots.Keys
    && (forall u | u in b.minions[id].slots && u != upgrade :: c.minions[id].slots[u] == b.minions[id].slots[u])
    && SlotOf(c, id, upgrade) == SlotOf(b, id, upgrade).(level := SlotOf(c, id, upgrade).level)
  }

  /** An upgrade is accepted exactly if the player owns a minion with that slot, the slot is below its cap and the
      gold suffices; it costs its price and raises the level by one. A refused one changes nothing, and its answer
      says why. */
  lemma UpgradedIff(b: Board, owner: nat, gold: int, id: nat, upgrade: int)
    ensures var o := Upgraded(b, owner, gold, id, upgrade);
            && (o.code != NoError ==> o.gold == gold && o.board == b)
            && (o.code == NoError ==>
                  && Owns(b, owner, id, upgrade) && OnlyLevel(b, o.board, id, upgrade)
                  && SlotOf(o.board, id, upgrade).level == SlotOf(b, id, upgrade).level + 1
                  && o.gold == gold - SlotOf(b, id, upgrade).price)
            && (o.code == InvalidOrderId <==> id in b.minions && b.minions[id].owner != owner)
            && (o.code == InvalidId <==>
                  id !in b.minions || (b.minions[id].owner == owner && upgrade !in b.minions[id].slots))
            && (Owns(b, owner, id, upgrade) ==>
                  var slot := SlotOf(b, id, upgrade);
                  && (o.code == AlreadyMaxLevel <==> slot.level >= slot.maxLevel)
                  && (o.code == GoldNotEnough <==> slot.level < slot.maxLevel && gold < slot.price)
                  && (o.code == NoError <==> slot.level < slot.maxLevel && gold >= slot.price))
  {
  }
}
