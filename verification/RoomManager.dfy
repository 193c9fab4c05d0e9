/** RoomManager::UpdateRooms: once per tick, one pool task per room, then a wait on every future. */
module RoomManagers {
  import opened Wire
  import opened ThreadPools

  // Where the game loop's thread is: in no tick, handing out this tick's updates, waiting on the first
  // `got` of their futures, or thrown out of UpdateRooms by the future at `got`.
  datatype Ticker =
    | Idle
    | Enqueuing(order: seq<nat>, base: nat)
    | Waiting(order: seq<nat>, base: nat, got: nat)
    | Escaped(order: seq<nat>, base: nat, got: nat)

  datatype System = System(
    pool: Pool,
    rooms: set<nat>,       // keys of m_rooms
    nextRoomId: nat,
    roomOf: seq<nat>,      // the room each accepted task updates
    threw: set<nat>,       // finished tasks whose Room::Update threw
    ticker: Ticker)

  datatype Move =
    | PoolMove(step: Step, throws: bool)
    | CreateRoom
    | RemoveRoom(id: nat)
    | BeginTick(order: seq<nat>)
    | EnqueueNext
    | GetNext
    | EndTick

  ghost predicate Distinct(xs: seq<nat>)
  {
    forall i, j :: 0 <= i < j < |xs| ==> xs[i] != xs[j]
  }

  // The snapshot lists the map's rooms in some order.
  ghost predicate Lists(order: seq<nat>, rooms: set<nat>)
  {
    Distinct(order) && (set r | r in order) == rooms
  }

  ghost predicate CanMove(s: System, m: Move)
  {
    match m
    case PoolMove(step, throws) => !step.Enqueue? && !step.Stop? && Enabled(s.pool, step) && (throws ==> step.Finish?)
    case CreateRoom => true
    case RemoveRoom(_) => true
    case BeginTick(order) => s.ticker == Idle && Lists(order, s.rooms)
    case EnqueueNext => s.ticker.Enqueuing?
    case GetNext => s.ticker.Waiting? && s.ticker.got < |s.ticker.order| && s.ticker.base + s.ticker.got in s.pool.finished
    case EndTick => s.ticker.Waiting? && s.ticker.got == |s.ticker.order|
  }

  ghost function Apply(s: System, m: Move): System
    requires CanMove(s, m)
  {
    match m
    case PoolMove(step, throws) =>
      s.(pool := ThreadPools.Next(s.pool, step),
         threw := if throws then s.threw + {s.pool.workers[step.worker].task} else s.threw)
    case CreateRoom => s.(rooms := s.rooms + {s.nextRoomId}, nextRoomId := s.nextRoomId + 1)
    case RemoveRoom(id) => s.(rooms := s.rooms - {id})
    case BeginTick(order) => s.(ticker := Enqueuing(order, s.pool.accepted))
    case EnqueueNext =>
      var t := s.ticker;
      var k := s.pool.accepted - t.base;
      if 0 <= k < |t.order| then
        s.(pool := ThreadPools.Next(s.pool, Enqueue), roomOf := s.roomOf + [t.order[k]])
      else s.(ticker := Waiting(t.order, t.base, 0))
    case GetNext =>
      var t := s.ticker;
      if t.base + t.got in s.threw then s.(ticker := Escaped(t.order, t.base, t.got))
      else s.(ticker := Waiting(t.order, t.base, t.got + 1))
    case EndTick => s.(ticker := Idle)
  }

  function Boot(threads: nat): System
  {
    System(Start(threads), {}, 1, [], {}, Idle)
  }

  ghost predicate FinishedBelow(p: Pool, n: nat)
  {
    forall t: nat :: t < n ==> t in p.finished
  }

  // This tick's tasks are those from base on, one per room of the snapshot, in its order.
  ghost predicate TickTasks(s: System, order: seq<nat>, base: nat)
  {
    && base <= s.pool.accepted == |s.roomOf| <= base + |order|
    && (forall t :: base <= t < s.pool.accepted ==> s.roomOf[t] == order[t - base])
    && Distinct(order)
  }

  ghost predicate Inv(s: System)
  {
    && Ordered(s.pool) && Awake(s.pool) && !s.pool.shared.stop
    && |s.roomOf| == s.pool.accepted
    && (forall t | t in s.threw :: t in s.pool.finished)
    && match s.ticker
       case Idle => FinishedBelow(s.pool, s.pool.accepted)
       case Enqueuing(order, base) => TickTasks(s, order, base) && FinishedBelow(s.pool, base)
       case Waiting(order, base, got) =>
         && TickTasks(s, order, base) && s.pool.accepted == base + |order| && got <= |order|
         && FinishedBelow(s.pool, base + got)
         && (forall t :: base <= t < base + got ==> t !in s.threw)
       case Escaped(order, base, got) =>
         && TickTasks(s, order, base) && FinishedBelow(s.pool, base) && base + got in s.threw
  }

  lemma FinishedGrows(p: Pool, step: Step)
    requires Enabled(p, step)
    ensures forall t :: t in p.finished ==> t in ThreadPools.Next(p, step).finished
  {
  }

  // A task is running on at most one worker, and not once it has finished.
  lemma RunningOnce(p: Pool, t: nat)
    requires Ordered(p)
    ensures Sum(p.workers, Runs(t)) <= 1
    ensures t in p.finished ==> Sum(p.workers, Runs(t)) == 0
    ensures Sum(p.workers, Runs(t)) > 0 ==> t < p.accepted
  {
    CountUpTo(p.accepted, t);
    assert multiset(p.started + p.shared.tasks) == multiset(p.started) + multiset(p.shared.tasks);
  }

  lemma QueuedAreAccepted(p: Pool)
    requires Ordered(p)
    ensures forall t | t in p.shared.tasks :: t < p.accepted
  {
    forall i | 0 <= i < |p.shared.tasks| ensures p.shared.tasks[i] < p.accepted {
      assert p.shared.tasks[i] == (p.started + p.shared.tasks)[|p.started| + i];
    }
  }

  lemma PoolMoveKeeps(s: System, m: Move)
    requires Inv(s) && CanMove(s, m) && m.PoolMove?
    ensures Inv(Apply(s, m))
  {
    var s' := Apply(s, m);
    OrderedKept(s.pool, m.step);
    AwakeKept(s.pool, m.step);
    FinishedGrows(s.pool, m.step);
    if m.throws {
      var t := s.pool.workers[m.step.worker].task;
      SumAtLeast(s.pool.workers, m.step.worker, Runs(t));
      RunningOnce(s.pool, t);
      assert s'.pool.finished[|s.pool.finished|] == t;
    }
  }

  lemma EnqueueKeeps(s: System)
    requires Inv(s) && CanMove(s, EnqueueNext)
    ensures Inv(Apply(s, EnqueueNext))
  {
    OrderedKept(s.pool, Enqueue);
    AwakeKept(s.pool, Enqueue);
  }

  lemma InvKept(s: System, m: Move)
    requires Inv(s) && CanMove(s, m)
    ensures Inv(Apply(s, m))
  {
    match m
    case PoolMove(step, throws) => PoolMoveKeeps(s, m);
    case CreateRoom =>
    case RemoveRoom(_) =>
    case BeginTick(order) =>
    case EnqueueNext => EnqueueKeeps(s);
    case GetNext =>
    case EndTick =>
  }

  ghost predicate Reaches(s: System, moves: seq<Move>, t: System)
    decreases |moves|
  {
    if moves == [] then s == t
    else CanMove(s, moves[0]) && Reaches(Apply(s, moves[0]), moves[1..], t)
  }

  lemma {:induction false} RunKeeps(s: System, moves: seq<Move>, t: System)
    requires Inv(s) && Reaches(s, moves, t)
    ensures Inv(t)
    decreases |moves|
  {
    if moves != [] {
      InvKept(s, moves[0]);
      RunKeeps(Apply(s, moves[0]), moves[1..], t);
    }
  }

  lemma BootRunKeeps(threads: nat, moves: seq<Move>, t: System)
    requires Reaches(Boot(threads), moves, t)
    ensures Inv(t)
  {
    StartIsGood(threads);
    RunKeeps(Boot(threads), moves, t);
  }

  /** The barrier: when UpdateRooms returns, every room of the snapshot has had exactly one Update finish,
      none of them threw, no worker is busy and nothing is queued. */
  lemma TickComplete(threads: nat, moves: seq<Move>, s: System)
    requires Reaches(Boot(threads), moves, s) && CanMove(s, EndTick)
    ensures var order, base := s.ticker.order, s.ticker.base;
            && |s.roomOf| == base + |order|
            && (forall k :: 0 <= k < |order| ==>
                  && s.roomOf[base + k] == order[k]
                  && multiset(s.pool.finished)[base + k] == 1
                  && base + k !in s.threw)
    ensures s.pool.shared.tasks == []
    ensures forall w :: 0 <= w < |s.pool.workers| ==> !s.pool.workers[w].Running?
  {
    BootRunKeeps(threads, moves, s);
    var p := s.pool;
    QueuedAreAccepted(p);
    assert p.shared.tasks != [] ==> p.shared.tasks[0] in p.shared.tasks;
    forall t: nat | t < p.accepted
      ensures multiset(p.finished)[t] == 1 && t !in p.shared.tasks
    {
      CountUpTo(p.accepted, t);
      assert multiset(p.started + p.shared.tasks) == multiset(p.started) + multiset(p.shared.tasks);
      assert t in p.finished;
    }
    forall w | 0 <= w < |p.workers| ensures !p.workers[w].Running? {
      if p.workers[w].Running? {
        SumAtLeast(p.workers, w, Runs(p.workers[w].task));
        RunningOnce(p, p.workers[w].task);
      }
    }
  }

  lemma {:induction false} ReachesSnoc(s: System, moves: seq<Move>, t: System, m: Move)
    requires Reaches(s, moves, t) && CanMove(t, m)
    ensures Reaches(s, moves + [m], Apply(t, m))
    decreases |moves|
  {
    if moves == [] {
      assert Reaches(t, [], t) && [m][1..] == [];
    } else {
      ReachesSnoc(Apply(s, moves[0]), moves[1..], t, m);
      assert (moves + [m])[1..] == moves[1..] + [m];
    }
  }

  // -------- A tick from its beginning to its end --------

  predicate WithinTick(moves: seq<Move>)
  {
    forall m | m in moves :: !m.BeginTick? && !m.EndTick?
  }

  // The tick under way is the one over `order`, whose first task is `base`.
  predicate OnTick(s: System, order: seq<nat>, base: nat)
  {
    !s.ticker.Idle? && s.ticker.order == order && s.ticker.base == base
  }

  lemma {:induction false} TickGoesOn(s: System, moves: seq<Move>, t: System, order: seq<nat>, base: nat)
    requires Reaches(s, moves, t) && WithinTick(moves) && OnTick(s, order, base)
    ensures OnTick(t, order, base)
    decreases |moves|
  {
    if moves != [] {
      assert moves[0] in moves;
      TickGoesOn(Apply(s, moves[0]), moves[1..], t, order, base);
    }
  }

  lemma {:induction false} ReachesOn(s: System, a: seq<Move>, t: System, b: seq<Move>, u: System)
    requires Reaches(s, a, t) && Reaches(t, b, u)
    ensures Reaches(s, a + b, u)
    decreases |a|
  {
    if a == [] {
      assert [] + b == b;
    } else {
      ReachesOn(Apply(s, a[0]), a[1..], t, b, u);
      assert (a + b)[1..] == a[1..] + b;
    }
  }

  // The update has finished once, and did not throw.
  ghost predicate DoneOnce(s: System, task: nat)
  {
    multiset(s.pool.finished)[task] == 1 && task !in s.threw
  }

  lemma TaskOfEachRoom(roomOf: seq<nat>, base: nat, order: seq<nat>, rooms: set<nat>)
    requires Lists(order, rooms) && |roomOf| == base + |order|
    requires forall k :: 0 <= k < |order| ==> roomOf[base + k] == order[k]
    ensures forall r :: r in rooms <==> exists i :: base <= i < |roomOf| && roomOf[i] == r
    ensures forall i, j :: base <= i < j < |roomOf| ==> roomOf[i] != roomOf[j]
  {
    forall i | base <= i < |roomOf| ensures roomOf[i] == order[i - base] {
      assert roomOf[base + (i - base)] == order[i - base];
    }
    forall r | r in rooms ensures exists i :: base <= i < |roomOf| && roomOf[i] == r {
      assert r in order;
      var k :| 0 <= k < |order| && order[k] == r;
      assert roomOf[base + k] == r;
    }
  }

  lemma TickEnds(threads: nat, before: seq<Move>, s: System, order: seq<nat>, moves: seq<Move>, t: System)
    requires Reaches(Boot(threads), before, s) && CanMove(s, BeginTick(order))
    requires Reaches(Apply(s, BeginTick(order)), moves, t) && WithinTick(moves) && CanMove(t, EndTick)
    ensures |s.roomOf| == s.pool.accepted && OnTick(t, order, s.pool.accepted)
    ensures Reaches(Boot(threads), before + [BeginTick(order)] + moves, t)
  {
    BootRunKeeps(threads, before, s);
    TickGoesOn(Apply(s, BeginTick(order)), moves, t, order, s.pool.accepted);
    ReachesSnoc(Boot(threads), before, s, BeginTick(order));
    ReachesOn(Boot(threads), before + [BeginTick(order)], Apply(s, BeginTick(order)), moves, t);
  }

  lemma TasksFinished(threads: nat, moves: seq<Move>, t: System, order: seq<nat>, base: nat)
    requires Reaches(Boot(threads), moves, t) && CanMove(t, EndTick) && OnTick(t, order, base)
    ensures |t.roomOf| == base + |order|
    ensures forall k :: 0 <= k < |order| ==> t.roomOf[base + k] == order[k]
    ensures forall i | base <= i < |t.roomOf| :: DoneOnce(t, i)
  {
    TickComplete(threads, moves, t);
    forall i | base <= i < |t.roomOf| ensures DoneOnce(t, i) {
      assert t.roomOf[base + (i - base)] == order[i - base];
    }
  }

  /** From its beginning to its end a tick updates every room there was at its beginning, once, and no other,
      whichever rooms come and go meanwhile. */
  lemma TickUpdatesEveryRoom(threads: nat, before: seq<Move>, s: System, order: seq<nat>, moves: seq<Move>, t: System)
    requires Reaches(Boot(threads), before, s) && CanMove(s, BeginTick(order))
    requires Reaches(Apply(s, BeginTick(order)), moves, t) && WithinTick(moves) && CanMove(t, EndTick)
    ensures |s.roomOf| <= |t.roomOf|
    ensures forall r :: r in s.rooms <==> exists i :: |s.roomOf| <= i < |t.roomOf| && t.roomOf[i] == r
    ensures forall i, j :: |s.roomOf| <= i < j < |t.roomOf| ==> t.roomOf[i] != t.roomOf[j]
    ensures forall i | |s.roomOf| <= i < |t.roomOf| :: DoneOnce(t, i)
  {
    TickEnds(threads, before, s, order, moves, t);
    TasksFinished(threads, before + [BeginTick(order)] + moves, t, order, |s.roomOf|);
    TaskOfEachRoom(t.roomOf, |s.roomOf|, order, s.rooms);
  }

  /** No room is ever being updated by two workers at once, over all ticks and interleavings. */
  lemma RoomsNeverOverlap(threads: nat, moves: seq<Move>, s: System, a: nat, b: nat)
    requires Reaches(Boot(threads), moves, s)
    requires a < b < |s.pool.workers| && s.pool.workers[a].Running? && s.pool.workers[b].Running?
    ensures s.pool.workers[a].task < |s.roomOf| && s.pool.workers[b].task < |s.roomOf|
    ensures s.roomOf[s.pool.workers[a].task] != s.roomOf[s.pool.workers[b].task]
  {
    BootRunKeeps(threads, moves, s);
    var ta, tb := s.pool.workers[a].task, s.pool.workers[b].task;
    SumAtLeast(s.pool.workers, a, Runs(ta));
    SumAtLeast(s.pool.workers, b, Runs(tb));
    SumOfTwo(s.pool.workers, a, b, Runs(ta));
    RunningOnce(s.pool, ta);
    RunningOnce(s.pool, tb);
  }

  /** The wait never hangs: while a future is outstanding, its task is queued or running, and some worker
      or notification can move. */
  lemma WaitNotStuck(threads: nat, moves: seq<Move>, s: System)
    requires Reaches(Boot(threads), moves, s) && s.ticker.Waiting? && s.ticker.got < |s.ticker.order|
    ensures CanMove(s, GetNext)
            || exists w :: CanMove(s, PoolMove(Check(w), false)) || CanMove(s, PoolMove(Finish(w), false))
                           || CanMove(s, PoolMove(NotifyOne(w), false))
  {
    BootRunKeeps(threads, moves, s);
    var p, t := s.pool, s.ticker.base + s.ticker.got;
    if t !in p.finished {
      CountUpTo(p.accepted, t);
      assert multiset(p.started + p.shared.tasks) == multiset(p.started) + multiset(p.shared.tasks);
      if Sum(p.workers, Runs(t)) > 0 {
        RunningNotStuck(s, t);
      } else {
        QueuedNotStuck(s);
      }
    }
  }

  lemma RunningNotStuck(s: System, t: nat)
    requires Sum(s.pool.workers, Runs(t)) > 0
    ensures exists w :: CanMove(s, PoolMove(Finish(w), false))
  {
    var p := s.pool;
    SumPositive(p.workers, Runs(t));
    var w :| 0 <= w < |p.workers| && Runs(t)(p.workers[w]) > 0;
    assert CanMove(s, PoolMove(Finish(w), false));
  }

  lemma QueuedNotStuck(s: System)
    requires Inv(s) && s.pool.shared.tasks != []
    ensures exists w :: CanMove(s, PoolMove(Check(w), false)) || CanMove(s, PoolMove(Finish(w), false))
                        || CanMove(s, PoolMove(NotifyOne(w), false))
  {
    var p := s.pool;
    assert p.workers[0] in p.workers;
    if p.workers[0] == Asleep {
      if p.notifies > 0 {
        assert CanMove(s, PoolMove(NotifyOne(0), false));
      } else {
        SumPositive(p.workers, IsReady);
        var w :| 0 <= w < |p.workers| && IsReady(p.workers[w]) > 0;
        assert CanMove(s, PoolMove(Check(w), false));
      }
    } else if p.workers[0] == Ready {
      assert CanMove(s, PoolMove(Check(0), false));
    } else {
      assert CanMove(s, PoolMove(Finish(0), false));
    }
  }

  // The moves of its own that UpdateRooms still has to make.
  function Work(s: System): int
  {
    match s.ticker
    case Idle => 0
    case Enqueuing(order, base) => 2 * |order| + 2 - (s.pool.accepted - base)
    case Waiting(order, base, got) => |order| + 1 - got
    case Escaped(order, base, got) => 0
  }

  /** Every move of UpdateRooms brings its end nearer, and no other move puts it off; after the end the next tick can
      begin, over whatever rooms there are by then. */
  lemma TickAdvances(threads: nat, moves: seq<Move>, s: System, m: Move)
    requires Reaches(Boot(threads), moves, s) && CanMove(s, m)
    ensures Work(s) >= 0
    ensures m.EnqueueNext? || m.GetNext? || m.EndTick? ==> Work(Apply(s, m)) < Work(s)
    ensures m.PoolMove? || m.CreateRoom? || m.RemoveRoom? ==> Work(Apply(s, m)) == Work(s)
    ensures m.EndTick? ==> forall order | Lists(order, s.rooms) :: CanMove(Apply(s, m), BeginTick(order))
  {
    BootRunKeeps(threads, moves, s);
    InvKept(s, m);
  }

  /** UpdateRooms is left early only because an update of this very tick threw. */
  lemma EscapeMeansThrow(threads: nat, moves: seq<Move>, s: System)
    requires Reaches(Boot(threads), moves, s) && s.ticker.Escaped?
    ensures s.ticker.base <= s.ticker.base + s.ticker.got < |s.roomOf| && s.ticker.base + s.ticker.got in s.threw
  {
    BootRunKeeps(threads, moves, s);
    var p, t := s.pool, s.ticker.base + s.ticker.got;
    CountUpTo(p.accepted, t);
    assert multiset(p.started + p.shared.tasks) == multiset(p.started) + multiset(p.shared.tasks);
    assert t in p.finished;
  }

  /** And then the barrier does fail: with two rooms and two workers, one throwing update lets UpdateRooms
      out while the other room is still being updated. */
  lemma ThrowBreaksBarrier() returns (moves: seq<Move>, s: System)
    ensures Reaches(Boot(2), moves, s) && s.ticker.Escaped?
    ensures |s.pool.workers| == 2 && s.pool.workers[1].Running?
  {
    moves, s := TwoRoomsWaiting();
    moves, s := Extend(moves, s, PoolMove(Check(0), false));
    moves, s := Extend(moves, s, PoolMove(Check(1), false));
    moves, s := Extend(moves, s, PoolMove(Finish(0), true));
    moves, s := Extend(moves, s, GetNext);
  }

  lemma TwoRoomsWaiting() returns (moves: seq<Move>, s: System)
    ensures Reaches(Boot(2), moves, s) && s.ticker == Waiting([1, 2], 0, 0) && s.rooms == {1, 2} && s.roomOf == [1, 2]
    ensures s.threw == {}
    ensures s.pool.shared.tasks == [0, 1] && s.pool.workers == [Ready, Ready] && s.pool.finished == []
  {
    moves, s := TwoRoomsBegun();
    moves, s := Extend(moves, s, EnqueueNext);
    moves, s := Extend(moves, s, EnqueueNext);
    moves, s := Extend(moves, s, EnqueueNext);
  }

  lemma TwoRoomsBegun() returns (moves: seq<Move>, s: System)
    ensures Reaches(Boot(2), moves, s) && s.pool == Start(2) && s.ticker == Enqueuing([1, 2], 0)
    ensures s.rooms == {1, 2} && s.roomOf == [] && s.threw == {}
  {
    s := Boot(2);
    moves := [];
    moves, s := Extend(moves, s, CreateRoom);
    moves, s := Extend(moves, s, CreateRoom);
    moves, s := Extend(moves, s, BeginTick([1, 2]));
  }

  lemma OneRoomUpdated() returns (moves: seq<Move>, s: System)
    ensures Reaches(Boot(2), moves, s) && s.ticker == Waiting([1, 2], 0, 0) && s.rooms == {2} && s.roomOf == [1, 2]
    ensures s.threw == {} && s.pool.shared.tasks == [1] && s.pool.workers == [Ready, Ready] && s.pool.finished == [0]
  {
    moves, s := TwoRoomsWaiting();
    moves, s := Extend(moves, s, RemoveRoom(1));
    moves, s := Extend(moves, s, PoolMove(Check(0), false));
    moves, s := Extend(moves, s, PoolMove(Finish(0), false));
  }

  lemma BothRoomsUpdated() returns (moves: seq<Move>, s: System)
    ensures Reaches(Boot(2), moves, s) && s.ticker == Waiting([1, 2], 0, 0) && s.rooms == {2} && s.roomOf == [1, 2]
    ensures s.threw == {} && s.pool.finished == [0, 1]
  {
    moves, s := OneRoomUpdated();
    moves, s := Extend(moves, s, PoolMove(Check(0), false));
    moves, s := Extend(moves, s, PoolMove(Finish(0), false));
  }

  /** Rooms come and go at any time: a room removed while the tick is under way is still updated by it. */
  lemma RemovedIsStillUpdated() returns (moves: seq<Move>, s: System)
    ensures Reaches(Boot(2), moves, s) && CanMove(s, EndTick)
    ensures s.rooms == {2} && s.roomOf == [1, 2] && s.pool.finished == [0, 1]
  {
    moves, s := BothRoomsUpdated();
    moves, s := Extend(moves, s, GetNext);
    moves, s := Extend(moves, s, GetNext);
  }

  lemma Extend(moves: seq<Move>, s: System, m: Move) returns (moves': seq<Move>, s': System)
    requires Reaches(Boot(2), moves, s) && CanMove(s, m)
    ensures Reaches(Boot(2), moves', s') && s' == Apply(s, m)
  {
    moves', s' := moves + [m], Apply(s, m);
    ReachesSnoc(Boot(2), moves, s, m);
  }
}
