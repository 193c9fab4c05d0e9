/** ThreadPool: workers on a condition variable. Each critical section of the mutex is one function; the
    class runs them, the protocol interleaves enqueuers, notifications, spurious wake-ups and workers. */
module ThreadPools {
  import opened Wire

  datatype Shared<T> = Shared(tasks: seq<T>, stop: bool)

  datatype Taken<+T> = Sleep | Exit | Run(task: T)

  // Enqueue: refused once stopping.
  function Push<T>(s: Shared<T>, task: T): (Shared<T>, bool)
  {
    if s.stop then (s, false) else (Shared(s.tasks + [task], s.stop), true)
  }

  // A worker at the lock: sleep while there is nothing to do, leave when stopped and drained, else take the front.
  function Take<T>(s: Shared<T>): (Shared<T>, Taken<T>)
  {
    if s.tasks != [] then (Shared(s.tasks[1..], s.stop), Run(s.tasks[0]))
    else (s, if s.stop then Exit else Sleep)
  }

  class ThreadPool<T> {
    var m_tasks: seq<T>
    var m_stop: bool

    function State(): Shared<T>
      reads this
    {
      Shared(m_tasks, m_stop)
    }

    constructor ()
      ensures State() == Shared([], false)
    {
      m_tasks, m_stop := [], false;
    }

    // Refusal stands for the exception.
    method Enqueue(task: T) returns (accepted: bool)
      modifies this
      ensures (State(), accepted) == Push(old(State()), task)
    {
      if m_stop {
        return false;
      }
      m_tasks := m_tasks + [task];
      accepted := true;
    }

    // From taking the lock to releasing it, either asleep or with a task.
    method WorkerSection() returns (taken: Taken<T>)
      modifies this
      ensures (State(), taken) == Take(old(State()))
    {
      if !(m_stop || m_tasks != []) {
        return Sleep;
      }
      if m_stop && m_tasks == [] {
        return Exit;
      }
      taken := Run(m_tasks[0]);
      m_tasks := m_tasks[1..];
    }

    method Stop()
      modifies this
      ensures State() == Shared(old(m_tasks), true)
    {
      m_stop := true;
    }
  }

  // -------- The protocol --------

  // Ready: about to take the lock. A task is named by the order in which it was accepted.
  datatype Worker = Ready | Asleep | Running(task: nat) | Exited

  datatype Pool = Pool(
    shared: Shared<nat>,
    workers: seq<Worker>,
    notifies: nat,         // enqueuers that have pushed and not yet called notify_one
    wakeAll: bool,         // the destructor has set m_stop and not yet called notify_all
    accepted: nat,
    started: seq<nat>,
    finished: seq<nat>)

  datatype Step =
    | Enqueue
    | NotifyOne(worker: nat)
    | Stop
    | NotifyAll
    | Spurious(worker: nat)
    | Check(worker: nat)
    | Finish(worker: nat)

  predicate Enabled(p: Pool, step: Step)
  {
    match step
    case Enqueue => true
    case NotifyOne(w) => p.notifies > 0 && (Asleep in p.workers ==> w < |p.workers| && p.workers[w] == Asleep)
    case Stop => !p.shared.stop
    case NotifyAll => p.wakeAll
    case Spurious(w) => w < |p.workers| && p.workers[w] == Asleep
    case Check(w) => w < |p.workers| && p.workers[w] == Ready
    case Finish(w) => w < |p.workers| && p.workers[w].Running?
  }

  function Woken(workers: seq<Worker>): seq<Worker>
  {
    seq(|workers|, i requires 0 <= i < |workers| => if workers[i] == Asleep then Ready else workers[i])
  }

  function Next(p: Pool, step: Step): Pool
    requires Enabled(p, step)
  {
    match step
    case Enqueue =>
      var (shared, ok) := Push(p.shared, p.accepted);
      if ok then p.(shared := shared, accepted := p.accepted + 1, notifies := p.notifies + 1) else p
    case NotifyOne(w) =>
      p.(notifies := p.notifies - 1,
         workers := if Asleep in p.workers then p.workers[w := Ready] else p.workers)
    case Stop => p.(shared := Shared(p.shared.tasks, true), wakeAll := true)
    case NotifyAll => p.(wakeAll := false, workers := Woken(p.workers))
    case Spurious(w) => p.(workers := p.workers[w := Ready])
    case Check(w) =>
      (match Take(p.shared)
       case (_, Sleep) => p.(workers := p.workers[w := Asleep])
       case (_, Exit) => p.(workers := p.workers[w := Exited])
       case (shared, Run(t)) =>
         p.(shared := shared, workers := p.workers[w := Running(t)], started := p.started + [t]))
    case Finish(w) =>
      p.(workers := p.workers[w := Ready], finished := p.finished + [p.workers[w].task])
  }

  // `threads` workers, at least one, all about to take the lock.
  function Start(threads: nat): Pool
  {
    Pool(Shared([], false), seq(if threads == 0 then 1 else threads, i => Ready), 0, false, 0, [], [])
  }

  // -------- Counting workers --------

  function Sum(workers: seq<Worker>, f: Worker -> nat): nat
  {
    if workers == [] then 0 else f(workers[0]) + Sum(workers[1..], f)
  }

  function IsReady(w: Worker): nat { if w == Ready then 1 else 0 }

  function Runs(task: nat): Worker -> nat { w => if w == Running(task) then 1 else 0 }

  function Weight(w: Worker): nat
  {
    match w case Ready => 1 case Asleep => 2 case Running(_) => 2 case Exited => 0
  }

  // Changing one worker changes a sum by that worker's share.
  lemma {:induction false} SumAfter(workers: seq<Worker>, w: nat, v: Worker, f: Worker -> nat)
    requires w < |workers|
    ensures Sum(workers[w := v], f) + f(workers[w]) == Sum(workers, f) + f(v)
  {
    if w == 0 {
      assert workers[w := v][1..] == workers[1..];
    } else {
      SumAfter(workers[1..], w - 1, v, f);
      assert workers[w := v][1..] == workers[1..][w - 1 := v];
    }
  }

  lemma {:induction false} SumWoken(workers: seq<Worker>, f: Worker -> nat)
    requires f(Ready) <= f(Asleep)
    ensures Sum(Woken(workers), f) <= Sum(workers, f)
    ensures f(Ready) == f(Asleep) ==> Sum(Woken(workers), f) == Sum(workers, f)
  {
    if workers != [] {
      assert Woken(workers)[1..] == Woken(workers[1..]);
      SumWoken(workers[1..], f);
    }
  }

  lemma {:induction false} SumZero(workers: seq<Worker>, f: Worker -> nat)
    requires forall i :: 0 <= i < |workers| ==> f(workers[i]) == 0
    ensures Sum(workers, f) == 0
  {
    if workers != [] { SumZero(workers[1..], f); }
  }

  lemma {:induction false} SumPositive(workers: seq<Worker>, f: Worker -> nat)
    requires Sum(workers, f) > 0
    ensures exists w :: 0 <= w < |workers| && f(workers[w]) > 0
  {
    if f(workers[0]) == 0 {
      SumPositive(workers[1..], f);
      var w :| 0 <= w < |workers[1..]| && f(workers[1..][w]) > 0;
      assert f(workers[w + 1]) > 0;
    }
  }

  lemma {:induction false} SumAtLeast(workers: seq<Worker>, w: nat, f: Worker -> nat)
    requires w < |workers|
    ensures Sum(workers, f) >= f(workers[w])
  {
    if w > 0 { SumAtLeast(workers[1..], w - 1, f); }
  }

  lemma {:induction false} SumOfTwo(workers: seq<Worker>, a: nat, b: nat, f: Worker -> nat)
    requires a < b < |workers|
    ensures Sum(workers, f) >= f(workers[a]) + f(workers[b])
  {
    if a == 0 { SumAtLeast(workers[1..], b - 1, f); } else { SumOfTwo(workers[1..], a - 1, b - 1, f); }
  }

  // -------- Invariants --------

  function UpTo(n: nat): seq<nat>
  {
    seq(n, i => i)
  }

  /** Tasks start in the order accepted, and a started task is finished or on exactly one worker. */
  ghost predicate Ordered(p: Pool)
  {
    && p.started + p.shared.tasks == UpTo(p.accepted)
    && (forall t: nat :: multiset(p.started)[t] == multiset(p.finished)[t] + Sum(p.workers, Runs(t)))
  }

  /** No worker sleeps past work: while one is asleep, every queued task has a ready worker or a pending
      notification to its name. Nobody leaves early, and a stopped pool's sleepers have their wake-up coming. */
  ghost predicate Awake(p: Pool)
  {
    && |p.workers| > 0
    && (Asleep in p.workers ==> |p.shared.tasks| <= Sum(p.workers, IsReady) + p.notifies)
    && (Exited in p.workers ==> p.shared.stop && p.shared.tasks == [])
    && (p.shared.stop && !p.wakeAll ==> Asleep !in p.workers)
  }

  // What a step does to a sum over the workers.
  lemma SumStep(p: Pool, step: Step, f: Worker -> nat)
    requires Enabled(p, step)
    ensures match step
            case Enqueue => Next(p, step).workers == p.workers
            case Stop => Next(p, step).workers == p.workers
            case NotifyAll => f(Ready) == f(Asleep) ==> Sum(Next(p, step).workers, f) == Sum(p.workers, f)
            case NotifyOne(w) =>
              if Asleep in p.workers then Sum(Next(p, step).workers, f) + f(Asleep) == Sum(p.workers, f) + f(Ready)
              else Next(p, step).workers == p.workers
            case Spurious(w) => Sum(Next(p, step).workers, f) + f(Asleep) == Sum(p.workers, f) + f(Ready)
            case Check(w) => Sum(Next(p, step).workers, f) + f(Ready) == Sum(p.workers, f) + f(Next(p, step).workers[w])
            case Finish(w) => Sum(Next(p, step).workers, f) + f(p.workers[w]) == Sum(p.workers, f) + f(Ready)
  {
    match step
    case Enqueue =>
    case Stop =>
    case NotifyAll => if f(Ready) == f(Asleep) { SumWoken(p.workers, f); }
    case NotifyOne(w) => if Asleep in p.workers { SumAfter(p.workers, w, Ready, f); }
    case Spurious(w) => SumAfter(p.workers, w, Ready, f);
    case Check(w) => SumAfter(p.workers, w, Next(p, step).workers[w], f);
    case Finish(w) => SumAfter(p.workers, w, Ready, f);
  }

  lemma OrderedKept(p: Pool, step: Step)
    requires Ordered(p) && Enabled(p, step)
    ensures Ordered(Next(p, step))
  {
    var q := Next(p, step);
    assert q.started + q.shared.tasks == UpTo(q.accepted) by {
      if step.Enqueue? && !p.shared.stop {
        ConcatAssoc(p.started, p.shared.tasks, [p.accepted]);
        assert UpTo(p.accepted + 1) == UpTo(p.accepted) + [p.accepted];
      } else if step.Check? && p.shared.tasks != [] {
        ConcatAssoc(p.started, [p.shared.tasks[0]], p.shared.tasks[1..]);
        HeadTail(p.shared.tasks);
      }
    }
    forall t: nat ensures multiset(q.started)[t] == multiset(q.finished)[t] + Sum(q.workers, Runs(t)) {
      SumStep(p, step, Runs(t));
    }
  }

  // Waking, finishing and taking leave no new sleeper and nobody newly exited.
  lemma StillIn(workers: seq<Worker>, w: nat, v: Worker)
    requires w < |workers|
    ensures forall x :: x in workers[w := v] ==> x == v || x in workers
  {
  }

  lemma AwakeKept(p: Pool, step: Step)
    requires Awake(p) && Enabled(p, step)
    ensures Awake(Next(p, step))
  {
    SumStep(p, step, IsReady);
    match step
    case Enqueue =>
    case Stop =>
    case NotifyAll => assert Exited in Woken(p.workers) ==> Exited in p.workers;
    case NotifyOne(w) => if Asleep in p.workers { StillIn(p.workers, w, Ready); }
    case Spurious(w) => StillIn(p.workers, w, Ready);
    case Check(w) => StillIn(p.workers, w, Next(p, step).workers[w]);
    case Finish(w) => StillIn(p.workers, w, Ready);
  }

  ghost predicate Reaches(p: Pool, steps: seq<Step>, q: Pool)
    decreases |steps|
  {
    if steps == [] then p == q
    else Enabled(p, steps[0]) && Reaches(Next(p, steps[0]), steps[1..], q)
  }

  lemma {:induction false} RunKeeps(p: Pool, steps: seq<Step>, q: Pool)
    requires Ordered(p) && Awake(p) && Reaches(p, steps, q)
    ensures Ordered(q) && Awake(q)
    decreases |steps|
  {
    if steps != [] {
      OrderedKept(p, steps[0]);
      AwakeKept(p, steps[0]);
      RunKeeps(Next(p, steps[0]), steps[1..], q);
    }
  }

  lemma StartIsGood(threads: nat)
    ensures Ordered(Start(threads)) && Awake(Start(threads))
  {
    var p := Start(threads);
    forall t: nat ensures Sum(p.workers, Runs(t)) == 0 { SumZero(p.workers, Runs(t)); }
  }

  /** Every interleaving: tasks start in acceptance order; each accepted task is queued, on one worker, or
      finished, exactly once in all; and while a worker sleeps every queued task is covered. */
  lemma EveryInterleaving(threads: nat, steps: seq<Step>, q: Pool)
    requires Reaches(Start(threads), steps, q)
    ensures q.started + q.shared.tasks == UpTo(q.accepted)
    ensures forall t: nat :: multiset(q.finished)[t] + Sum(q.workers, Runs(t)) + multiset(q.shared.tasks)[t]
                     == if t < q.accepted then 1 else 0
    ensures Asleep in q.workers ==> |q.shared.tasks| <= Sum(q.workers, IsReady) + q.notifies
  {
    StartIsGood(threads);
    RunKeeps(Start(threads), steps, q);
    forall t: nat ensures multiset(q.finished)[t] + Sum(q.workers, Runs(t)) + multiset(q.shared.tasks)[t]
                  == if t < q.accepted then 1 else 0 {
      CountUpTo(q.accepted, t);
      assert multiset(q.started + q.shared.tasks) == multiset(q.started) + multiset(q.shared.tasks);
    }
  }

  lemma {:induction false} CountUpTo(n: nat, t: nat)
    ensures multiset(UpTo(n))[t] == if t < n then 1 else 0
  {
    if n > 0 {
      CountUpTo(n - 1, t);
      assert UpTo(n) == UpTo(n - 1) + [n - 1];
    }
  }

  /** No lost wake-up: while a task is queued, some worker is awake or a notification is still to come. */
  lemma NoLostWakeUp(threads: nat, steps: seq<Step>, q: Pool)
    requires Reaches(Start(threads), steps, q) && q.shared.tasks != []
    ensures q.notifies > 0 || exists w :: 0 <= w < |q.workers| && (q.workers[w] == Ready || q.workers[w].Running?)
  {
    StartIsGood(threads);
    RunKeeps(Start(threads), steps, q);
    if q.workers[0] == Asleep && q.notifies == 0 {
      SumPositive(q.workers, IsReady);
    } else {
      assert q.workers[0] in q.workers;
    }
  }

  /** When every join has returned, the queue is empty and each accepted task has run exactly once. */
  lemma DrainedAtExit(threads: nat, steps: seq<Step>, q: Pool)
    requires Reaches(Start(threads), steps, q)
    requires forall w :: 0 <= w < |q.workers| ==> q.workers[w] == Exited
    ensures q.shared.tasks == []
    ensures forall t: nat :: multiset(q.finished)[t] == if t < q.accepted then 1 else 0
  {
    StartIsGood(threads);
    RunKeeps(Start(threads), steps, q);
    EveryInterleaving(threads, steps, q);
    assert q.workers[0] == Exited;
    forall t: nat ensures multiset(q.finished)[t] == if t < q.accepted then 1 else 0 {
      SumZero(q.workers, Runs(t));
    }
  }

  function ShutdownWork(p: Pool): nat
  {
    3 * |p.shared.tasks| + Sum(p.workers, Weight) + p.notifies + if p.wakeAll then 1 else 0
  }

  /** The joins do return: once stopped, every step of workers or notifiers uses up work, and one is
      possible until all workers have exited. */
  lemma ShutdownProgress(p: Pool, step: Step)
    requires Awake(p) && p.shared.stop
    ensures Enabled(p, step) && !step.Enqueue? ==>
              ShutdownWork(Next(p, step)) < ShutdownWork(p) && Next(p, step).shared.stop
    ensures Enabled(p, step) && step.Enqueue? ==> Next(p, step) == p
    ensures forall w :: 0 <= w < |p.workers| && p.workers[w] != Exited ==>
              Enabled(p, Check(w)) || Enabled(p, Finish(w)) || Enabled(p, NotifyAll)
  {
    if Enabled(p, step) {
      SumStep(p, step, Weight);
      if step.NotifyAll? { SumWoken(p.workers, Weight); }
    }
  }

  lemma {:induction false} ReachesOn(p: Pool, a: seq<Step>, q: Pool, b: seq<Step>, r: Pool)
    requires Reaches(p, a, q) && Reaches(q, b, r)
    ensures Reaches(p, a + b, r)
    decreases |a|
  {
    if a == [] {
      assert [] + b == b;
    } else {
      ReachesOn(Next(p, a[0]), a[1..], q, b, r);
      assert (a + b)[1..] == a[1..] + b;
    }
  }

  ghost predicate AllExited(p: Pool)
  {
    forall w :: 0 <= w < |p.workers| ==> p.workers[w] == Exited
  }

  // What a stopped pool can still do.
  lemma StillActive(p: Pool) returns (step: Step)
    requires Awake(p) && p.shared.stop && !AllExited(p)
    ensures Enabled(p, step) && (step.Check? || step.Finish? || step.NotifyAll?)
  {
    var w :| 0 <= w < |p.workers| && p.workers[w] != Exited;
    ShutdownProgress(p, NotifyAll);
    step := if Enabled(p, Check(w)) then Check(w) else if Enabled(p, Finish(w)) then Finish(w) else NotifyAll;
  }

  lemma {:induction false} StoppedEnds(p: Pool) returns (steps: seq<Step>, q: Pool)
    requires Ordered(p) && Awake(p) && p.shared.stop
    ensures Reaches(p, steps, q) && AllExited(q) && q.accepted == p.accepted
    decreases ShutdownWork(p)
  {
    if AllExited(p) {
      steps, q := [], p;
    } else {
      var step := StillActive(p);
      ShutdownProgress(p, step);
      OrderedKept(p, step);
      AwakeKept(p, step);
      var more;
      more, q := StoppedEnds(Next(p, step));
      steps := [step] + more;
      assert steps[1..] == more;
    }
  }

  /** The destructor can always do its work: wherever an interleaving of a pool that is not stopped yet stands, stopping
      it refuses what comes later, and some continuation has every worker exit with every accepted task finished once. */
  lemma ShutdownEnds(threads: nat, before: seq<Step>, p: Pool) returns (steps: seq<Step>, q: Pool)
    requires Reaches(Start(threads), before, p) && !p.shared.stop
    ensures Enabled(p, Stop) && Next(Next(p, Stop), Enqueue) == Next(p, Stop)
    ensures Reaches(p, [Stop] + steps, q) && AllExited(q) && q.accepted == p.accepted
    ensures forall t: nat :: multiset(q.finished)[t] == if t < p.accepted then 1 else 0
  {
    StartIsGood(threads);
    RunKeeps(Start(threads), before, p);
    OrderedKept(p, Stop);
    AwakeKept(p, Stop);
    steps, q := StoppedEnds(Next(p, Stop));
    assert ([Stop] + steps)[1..] == steps;
    ReachesOn(Start(threads), before, p, [Stop] + steps, q);
    DrainedAtExit(threads, before + ([Stop] + steps), q);
  }

  // -------- No spinning --------

  function Awareness(w: Worker): nat
  {
    match w case Ready => 1 case Asleep => 0 case Running(_) => 2 case Exited => 0
  }

  function WorkLeft(p: Pool): nat
  {
    3 * |p.shared.tasks| + Sum(p.workers, Awareness)
  }

  /** Workers do not spin: each of their steps uses up work, so without new tasks and wake-ups they come to rest; and a
      task accepted calls for one notification. */
  lemma NoSpinning(p: Pool, step: Step)
    requires Enabled(p, step)
    ensures step.Check? || step.Finish? ==> WorkLeft(Next(p, step)) < WorkLeft(p)
    ensures step.Enqueue? && !p.shared.stop ==> Next(p, step).notifies == p.notifies + 1
    ensures step.NotifyOne? ==> Next(p, step).notifies == p.notifies - 1
    ensures !step.Enqueue? && !step.NotifyOne? ==> Next(p, step).notifies == p.notifies
  {
    SumStep(p, step, Awareness);
  }

  /** A new pool has at least one worker, all about to look for work, and nothing pending. */
  lemma StartIsIdle(threads: nat)
    ensures var p := Start(threads);
            && |p.workers| == (if threads == 0 then 1 else threads) && p.shared == Shared([], false)
            && p.notifies == 0 && !p.wakeAll && p.accepted == 0
            && Sum(p.workers, IsReady) == |p.workers|
  {
    AllReady(Start(threads).workers);
  }

  lemma {:induction false} AllReady(workers: seq<Worker>)
    requires forall w :: 0 <= w < |workers| ==> workers[w] == Ready
    ensures Sum(workers, IsReady) == |workers|
  {
    if workers != [] { AllReady(workers[1..]); }
  }
}
