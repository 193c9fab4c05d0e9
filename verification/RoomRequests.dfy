/** What the players' requests do to the room: coming, going, starting a wave, and trading. */
module RoomRequests {
  import opened Wire
  import opened Boards
  import opened BoardLaws
  import opened RoomStates
  import opened RoomLaws
  import WaveManagers

  /** Only a waiting room with a free place lets a player in, unready; the second player starts the game. */
  lemma EnterLetsIn(w: World, s: State, p: nat)
    requires Resting(w, s)
    ensures var t := Do(w, s, Enter(p));
            if s.phase != WaitingForPlayers || |s.players| == 2 then t == s
            else
              && t == s.(players := s.players + {p}, ready := t.ready, phase := t.phase, game := t.game)
              && t.ready.Keys == t.players && !t.ready[p]
              && (forall q | q in s.players && q != p :: t.ready[q] == s.ready[q])
              && (if |t.players| == 2 then t.phase == Intermission && t.game
                  else t.phase == WaitingForPlayers && t.game == s.game)
  {
    assert |s.players| <= 2;
  }

  /** Whoever leaves takes no more than their place and their ready mark; with the last the room is as good as new. */
  lemma LeaveFreesPlace(w: World, s: State, p: nat)
    requires Resting(w, s)
    ensures var t := Do(w, s, Leave(p));
            if p !in s.players then t == s
            else
              && t.players == s.players - {p} && t.ready.Keys == t.players
              && (t.players != {} ==>
                    t == s.(players := t.players, ready := t.ready) && forall q | q in t.players :: t.ready[q] == s.ready[q])
              && (t.players == {} ==>
                    Reset(t) && !t.game && t.log == s.log + [Dropped(s.attacks)]
                    && t.board.nextId == s.board.nextId && t.roster.nextId == s.roster.nextId
                    && t.shots.nextId == s.shots.nextId)
  {
  }

  // -------- Being ready --------

  // Nobody's mark but those of `marked`.
  ghost predicate Marked(s: State, marked: set<nat>)
  {
    s.ready.Keys == s.players && forall q | q in s.players :: s.ready[q] <==> q in marked
  }

  function Requests(ps: seq<nat>): (ops: seq<Op>)
    ensures |ops| == |ps|
  {
    seq(|ps|, i requires 0 <= i < |ps| => RequestWave(ps[i]))
  }

  function Asked(ps: seq<nat>): set<nat>
  {
    set p | p in ps
  }

  // The wave after this one, from its first entry; after the last there is none.
  function NextWave(stage: WaveManagers.Stage, v: WaveManagers.Waves): WaveManagers.Waves
  {
    if v.current < |stage| then WaveManagers.Waves(v.current + 1, 0, 0, 0.0, true, false) else v
  }

  lemma MarksOne(s: State, p: nat, marked: set<nat>)
    requires Marked(s, marked) && p in s.players
    ensures AllReady(s.ready[p := true]) <==> s.players <= marked + {p}
    ensures Marked(ReadyChecked(s, p), if s.players <= marked + {p} then {} else marked + {p})
  {
    var ready := s.ready[p := true];
    assert ready.Keys == s.players;
    if AllReady(ready) {
      forall q | q in s.players ensures q in marked + {p} { assert ready[q]; }
    }
  }

  /** A player whose scene is loaded is marked; when everybody is, the marks are taken back, and that is all. */
  lemma SceneMarks(w: World, s: State, p: nat, marked: set<nat>)
    requires Resting(w, s) && Marked(s, marked)
    ensures var t := Do(w, s, LoadScene(p));
            if p !in s.players then t == s
            else t == s.(ready := t.ready) && Marked(t, if s.players <= marked + {p} then {} else marked + {p})
  {
    if p in s.players { MarksOne(s, p, marked); }
  }

  lemma OneRequest(w: World, s: State, p: nat, marked: set<nat>)
    requires Resting(w, s) && Marked(s, marked) && p in s.players
    ensures var t := Do(w, s, RequestWave(p));
            && t.players == s.players
            && (!(s.players <= marked + {p}) ==> Marked(t, marked + {p}) && t == s.(ready := t.ready))
            && (s.players <= marked + {p} ==>
                  Marked(t, {}) && t == s.(ready := t.ready, phase := Wave, waves := t.waves)
                  && t.waves == NextWave(w.stage, s.waves))
  {
    MarksOne(s, p, marked);
  }

  /** While somebody has not asked for it, no wave starts; the marks are those of the players who have asked. */
  lemma {:induction false} NotYetReady(w: World, s: State, ps: seq<nat>, marked: set<nat>)
    requires Resting(w, s) && Marked(s, marked) && Asked(ps) <= s.players && !(s.players <= marked + Asked(ps))
    ensures var t := DoAll(w, s, Requests(ps));
            Marked(t, marked + Asked(ps)) && t == s.(ready := t.ready)
    decreases |ps|
  {
    if ps == [] {
      assert marked + Asked(ps) == marked;
    } else {
      assert ps[0] in Asked(ps) && Asked(ps) == {ps[0]} + Asked(ps[1..]);
      assert Requests(ps)[1..] == Requests(ps[1..]);
      OneRequest(w, s, ps[0], marked);
      StepRests(w, s, RequestWave(ps[0]));
      NotYetReady(w, Do(w, s, RequestWave(ps[0])), ps[1..], marked + {ps[0]});
      assert marked + {ps[0]} + Asked(ps[1..]) == marked + Asked(ps);
    }
  }

  /** And the last to ask starts it: the next wave, in whatever phase, with everybody unready again. */
  lemma LastOneStarts(w: World, s: State, ps: seq<nat>, p: nat)
    requires Resting(w, s) && Marked(s, {}) && Asked(ps) <= s.players
    requires p in s.players && p !in ps && s.players == Asked(ps) + {p}
    ensures var t := DoAll(w, s, Requests(ps) + [RequestWave(p)]);
            t == s.(ready := t.ready, phase := Wave, waves := NextWave(w.stage, s.waves)) && Marked(t, {})
  {
    NotYetReady(w, s, ps, {});
    RunSnoc(w, s, Requests(ps), RequestWave(p));
    OneRequest(w, DoAll(w, s, Requests(ps)), p, {} + Asked(ps));
  }

  lemma {:induction false} RunSnoc(w: World, s: State, ops: seq<Op>, op: Op)
    requires Resting(w, s)
    ensures DoAll(w, s, ops + [op]) == Do(w, DoAll(w, s, ops), op)
    decreases |ops|
  {
    if ops == [] {
      assert ([] + [op])[1..] == [];
    } else {
      assert (ops + [op])[1..] == ops[1..] + [op];
      StepRests(w, s, ops[0]);
      RunSnoc(w, Do(w, s, ops[0]), ops[1..], op);
    }
  }

  // -------- Trading --------

  /** Only a player of the room buys, and only between waves; a purchase that is accepted puts the player's minion on
      its tile under the next id, and nothing but the board changes. */
  lemma BuyPlaces(w: World, s: State, p: nat, gold: int, kind: uint32, x: int, y: int)
    requires Resting(w, s)
    ensures var t, site, id := Do(w, s, Buy(p, gold, kind, x, y)), Tile(x, y, 0), s.board.nextId;
            if p in s.players && GoodSite(w.catalog, s.board, s.phase == Intermission, site)
               && kind in w.catalog.minions && gold >= w.catalog.minions[kind].cost
            then
              && t == s.(board := t.board) && t.board.nextId == id + 1 && t.board.tiles == s.board.tiles[site := id]
              && id in t.board.minions && t.board.minions - {id} == s.board.minions - {id}
              && t.board.minions[id].kind == kind && t.board.minions[id].owner == p && Home(t.board.minions[id]) == site
            else t == s
  {
    BoughtIff(w.catalog, s.board, s.phase == Intermission, p, gold, kind, x, y);
  }

  /** Only a player of the room moves a minion, its own, between waves, to a free tile that allows it. */
  lemma RelocateMoves(w: World, s: State, p: nat, id: nat, x: int, y: int)
    requires Resting(w, s)
    ensures var t, site := Do(w, s, Relocate(p, id, x, y)), Tile(x, y, 0);
            if p in s.players && GoodSite(w.catalog, s.board, s.phase == Intermission, site)
               && id in s.board.minions && s.board.minions[id].owner == p
            then
              && t == s.(board := t.board) && OnlyPlace(s.board, t.board, id) && Home(t.board.minions[id]) == site
              && t.board.tiles == (s.board.tiles - {Home(s.board.minions[id])})[site := id]
            else t == s
  {
    RelocatedIff(w.catalog, s.board, s.phase == Intermission, id, p, x, y);
  }

  /** Only a player of the room sells, its own minions, in any phase; the minion and its tile are gone. */
  lemma SellRemoves(w: World, s: State, p: nat, gold: int, id: nat)
    requires Resting(w, s)
    ensures var t := Do(w, s, Sell(p, gold, id));
            if p in s.players && id in s.board.minions && s.board.minions[id].owner == p
            then
              t == s.(board := Board(s.board.minions - {id}, s.board.nextId, s.board.tiles - {Home(s.board.minions[id])}))
            else t == s
  {
    SoldIff(w.catalog, s.board, p, gold, id);
  }
}
