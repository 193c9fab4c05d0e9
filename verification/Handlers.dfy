/** The handlers of the players' requests: each reaches the room its player is in, and is one step of it. */
module Handlers {
  import opened Wire
  import opened RoomStates
  import Boards
  import opened RoomLaws
  import Rooms

  type Room = Rooms.Room

  // JoinRoomHandler: a player that the room does not let in gets a new one.
  method JoinRoom(room: Room, player: Boards.Player) returns (joined: Room)
    requires room.Valid()
    modifies room`m_players, room`m_playerReady, room`m_gameState, room`m_game
    ensures Did(room.world, old(room.State()), Enter(player.m_id), room.State())
    ensures joined.Valid() && player.m_id in joined.m_players && joined.world == room.world
    ensures joined == room || (fresh(joined) && joined.State() == Entered(NewRoom, player.m_id))
    ensures joined == room <==> old(room.m_gameState) == WaitingForPlayers && |old(room.m_players)| < 2
  {
    ghost var before := room.State();
    var entered := room.Enter(player);
    DidIt(room.world, before, Enter(player.m_id), room.State());
    joined := room;
    if !entered {
      joined := new Rooms.Room(room.world);
      entered := joined.Enter(player);
    }
  }

  // A session that ends takes its player out of the room.
  method Disconnect(room: Room, player: Boards.Player)
    requires room.Valid()
    modifies room.Repr()
    ensures Did(room.world, old(room.State()), Leave(player.m_id), room.State())
    ensures room.Valid()
  {
    ghost var before := room.State();
    room.Leave(player);
    DidIt(room.world, before, Leave(player.m_id), room.State());
  }

  // LoadSceneHandler: whether everybody has loaded.
  method LoadScene(room: Room, player: Boards.Player) returns (all: bool)
    requires room.Valid()
    modifies room`m_playerReady
    ensures Did(room.world, old(room.State()), Op.LoadScene(player.m_id), room.State())
    ensures room.Valid()
    ensures all <==> player.m_id in room.m_players && AllReady(old(room.m_playerReady)[player.m_id := true])
  {
    ghost var before := room.State();
    all := false;
    if player.m_id in room.m_players {
      all := room.PlayerReadyCheck(player.m_id);
    }
    DidIt(room.world, before, Op.LoadScene(player.m_id), room.State());
  }

  // WaveHandler.
  method StartWave(room: Room, player: Boards.Player) returns (started: bool)
    requires room.Valid()
    modifies room`m_playerReady, room`m_gameState, room.m_waveManager
    ensures Did(room.world, old(room.State()), RequestWave(player.m_id), room.State())
    ensures room.Valid()
    ensures started <==> player.m_id in room.m_players && AllReady(old(room.m_playerReady)[player.m_id := true])
  {
    ghost var before := room.State();
    started := false;
    if player.m_id in room.m_players {
      started := room.PlayerReadyCheck(player.m_id);
      if started {
        room.WaveStart();
      }
    }
    DidIt(room.world, before, RequestWave(player.m_id), room.State());
  }

  // SpawnMinionHandler.
  method SpawnMinion(room: Room, player: Boards.Player, minionId: uint32, x: int, y: int)
    returns (code: Option<Boards.ErrorCode>)
    requires room.Valid()
    modifies room`m_occupiedTiles, room.m_minionManager, player
    ensures Did(room.world, old(room.State()), Buy(player.m_id, old(player.m_gold), minionId, x, y), room.State())
    ensures room.Valid()
    ensures var s := old(room.State());
            var o := Boards.Spawned(room.world.catalog, s.board, s.phase == Intermission, player.m_id,
                                    old(player.m_gold), minionId, x, y);
            if player.m_id in room.m_players then code == Some(o.code) && player.m_gold == o.gold
            else code == None && player.m_gold == old(player.m_gold)
  {
    ghost var before, gold := room.State(), player.m_gold;
    code := None;
    if player.m_id in room.m_players {
      var answer := room.SpawnMinion(minionId, player, x, y);
      code := Some(answer);
    }
    DidIt(room.world, before, Buy(player.m_id, gold, minionId, x, y), room.State());
  }

  // RelocateMinionHandler.
  method RelocateMinion(room: Room, player: Boards.Player, instanceId: nat, x: int, y: int)
    returns (code: Option<Boards.ErrorCode>)
    requires room.Valid()
    modifies room`m_occupiedTiles, room.m_minionManager
    ensures Did(room.world, old(room.State()), Relocate(player.m_id, instanceId, x, y), room.State())
    ensures room.Valid()
    ensures var s := old(room.State());
            code == if player.m_id in room.m_players
                    then Some(Boards.Relocated(room.world.catalog, s.board, s.phase == Intermission, instanceId,
                                               player.m_id, x, y).0)
                    else None
  {
    ghost var before := room.State();
    code := None;
    if player.m_id in room.m_players {
      var answer := room.RelocateMinion(instanceId, player.m_id, x, y);
      code := Some(answer);
    }
    DidIt(room.world, before, Relocate(player.m_id, instanceId, x, y), room.State());
  }

  // SellMinionHandler checks the owner itself; the phase of the room does not matter.
  method SellMinion(room: Room, player: Boards.Player, instanceId: nat) returns (code: Option<Boards.ErrorCode>)
    requires room.Valid()
    modifies room`m_occupiedTiles, room.m_minionManager, player
    ensures Did(room.world, old(room.State()), Sell(player.m_id, old(player.m_gold), instanceId), room.State())
    ensures room.Valid()
    ensures var o := Boards.Sold(old(room.Board()), player.m_id, old(player.m_gold), instanceId);
            if player.m_id in room.m_players then code == Some(o.code) && player.m_gold == o.gold
            else code == None && player.m_gold == old(player.m_gold)
  {
    ghost var before, gold := room.State(), player.m_gold;
    code := None;
    if player.m_id in room.m_players {
      var minion := room.m_minionManager.FindMinion(instanceId);
      if minion.None? {
        code := Some(Boards.InvalidId);
      } else if minion.value.owner != player.m_id {
        code := Some(Boards.InvalidOrderId);
      } else {
        player.AddGold(minion.value.sellPrice);
        room.ReturnMinion(instanceId);
        code := Some(Boards.NoError);
      }
    }
    DidIt(room.world, before, Sell(player.m_id, gold, instanceId), room.State());
  }

  // UpgradeMinionHandler leaves the upgrade to the next update.
  method UpgradeMinion(room: Room, player: Boards.Player, instanceId: nat, upgrade: int)
    requires room.Valid()
    modifies room`m_commandQueue
    ensures room.Valid() && room.State() == old(room.State())
    ensures room.m_commandQueue == old(room.m_commandQueue)
              + (if player.m_id in room.m_players then [Rooms.Command(player, instanceId, upgrade)] else [])
  {
    if player.m_id in room.m_players {
      room.EnqueueCommand(Rooms.Command(player, instanceId, upgrade));
    }
  }
}
