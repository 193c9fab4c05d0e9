/** Session::Send / DoSend / write completion. Each critical section of the send mutex is one function;
    the class runs them on the deque and the flag, the protocol interleaves them over all threads. */
module SendQueue {
  import opened Wire

  datatype Shared<T> = Shared(queue: seq<T>, sending: bool)

  // Send: push, and become the starter if nobody is sending.
  function Push<T>(s: Shared<T>, x: T): (Shared<T>, bool)
  {
    (Shared(s.queue + [x], true), !s.sending)
  }

  // DoSend: take the address of the front.
  function Claim<T>(s: Shared<T>): (Shared<T>, Option<T>)
  {
    if s.queue == [] then (Shared(s.queue, false), None) else (s, Some(s.queue[0]))
  }

  // Completion: pop, and continue, give up or stop.
  function Complete<T>(s: Shared<T>, failed: bool): (Shared<T>, bool)
  {
    var rest := if s.queue == [] then [] else s.queue[1..];
    if failed then (Shared([], false), false)
    else if rest != [] then (Shared(rest, s.sending), true)
    else (Shared(rest, false), false)
  }

  class SendChannel<T> {
    var m_sendQueue: seq<T>
    var m_sending: bool

    function State(): Shared<T>
      reads this
    {
      Shared(m_sendQueue, m_sending)
    }

    constructor ()
      ensures State() == Shared([], false)
    {
      m_sendQueue, m_sending := [], false;
    }

    method Send(packet: T) returns (shouldStart: bool)
      modifies this
      ensures (State(), shouldStart) == Push(old(State()), packet)
    {
      shouldStart := false;
      m_sendQueue := m_sendQueue + [packet];
      if !m_sending {
        m_sending := true;
        shouldStart := true;
      }
    }

    method DoSend() returns (packet: Option<T>)
      modifies this
      ensures (State(), packet) == Claim(old(State()))
    {
      if m_sendQueue == [] {
        m_sending := false;
        return None;
      }
      packet := Some(m_sendQueue[0]);
    }

    method OnWritten(failed: bool) returns (shouldContinue: bool)
      modifies this
      ensures (State(), shouldContinue) == Complete(old(State()), failed)
    {
      shouldContinue := false;
      if m_sendQueue != [] {
        m_sendQueue := m_sendQueue[1..];
      }
      if failed {
        m_sendQueue, m_sending := [], false;
      } else if m_sendQueue != [] {
        shouldContinue := true;
      } else {
        m_sending := false;
      }
    }
  }

  // -------- The protocol --------

  // A deque element: its identity is its place in lock order.
  datatype Entry = Entry(id: nat, packet: seq<byte>)

  datatype Outcome = Written | Failed | Dropped
  datatype Settled = Settled(entry: Entry, outcome: Outcome)

  datatype State = State(
    shared: Shared<Entry>,
    starting: nat,            // threads on their way into DoSend
    claimed: seq<Entry>,      // threads holding a front's address, write not started
    flying: seq<Entry>,       // writes in flight
    sent: seq<Entry>,         // everything pushed, in lock order
    settled: seq<Settled>,    // entries that left the queue, in order
    wire: seq<Entry>)         // successful writes, in completion order

  const Init := State(Shared([], false), 0, [], [], [], [], [])

  datatype Step =
    | Send(packet: seq<byte>)
    | DoSend
    | StartWrite(at: nat)
    | Finish(at: nat, failed: bool)

  predicate Enabled(s: State, step: Step)
  {
    match step
    case Send(_) => true
    case DoSend => s.starting > 0
    case StartWrite(at) => at < |s.claimed|
    case Finish(at, _) => at < |s.flying|
  }

  function Without<T>(xs: seq<T>, at: nat): seq<T>
    requires at < |xs|
  {
    xs[..at] + xs[at + 1..]
  }

  function Drop(q: seq<Entry>): seq<Settled>
  {
    seq(|q|, i requires 0 <= i < |q| => Settled(q[i], Dropped))
  }

  // What a completion takes out of the queue.
  function Leaving(q: seq<Entry>, failed: bool): seq<Settled>
  {
    if q == [] then []
    else if failed then [Settled(q[0], Failed)] + Drop(q[1..])
    else [Settled(q[0], Written)]
  }

  function Next(s: State, step: Step): State
    requires Enabled(s, step)
  {
    match step
    case Send(packet) =>
      var e := Entry(|s.sent|, packet);
      var (shared, start) := Push(s.shared, e);
      s.(shared := shared, sent := s.sent + [e], starting := s.starting + if start then 1 else 0)
    case DoSend =>
      var (shared, front) := Claim(s.shared);
      s.(shared := shared, starting := s.starting - 1,
         claimed := if front.Some? then s.claimed + [front.value] else s.claimed)
    case StartWrite(at) =>
      s.(claimed := Without(s.claimed, at), flying := s.flying + [s.claimed[at]])
    case Finish(at, failed) =>
      var (shared, continue') := Complete(s.shared, failed);
      s.(shared := shared, flying := Without(s.flying, at),
         starting := s.starting + if continue' then 1 else 0,
         settled := s.settled + Leaving(s.shared.queue, failed),
         wire := if failed then s.wire else s.wire + [s.flying[at]])
  }

  function Entries(settled: seq<Settled>): seq<Entry>
  {
    seq(|settled|, i requires 0 <= i < |settled| => settled[i].entry)
  }

  function WrittenOf(settled: seq<Settled>): seq<Entry>
  {
    if settled == [] then []
    else
      var last := settled[|settled| - 1];
      WrittenOf(settled[..|settled| - 1]) + if last.outcome == Written then [last.entry] else []
  }

  /** One token exactly while sending, which is exactly while the queue is non-empty. */
  ghost predicate OneToken(s: State)
  {
    && s.starting + |s.claimed| + |s.flying| == (if s.shared.sending then 1 else 0)
    && (s.shared.sending <==> s.shared.queue != [])
    && (forall e | e in s.claimed + s.flying :: s.shared.queue != [] && e == s.shared.queue[0])
  }

  /** What left the queue, then the queue, is everything sent in lock order; the wire saw the written ones. */
  ghost predicate Conserved(s: State)
  {
    && s.sent == Entries(s.settled) + s.shared.queue
    && s.wire == WrittenOf(s.settled)
    && (forall i :: 0 <= i < |s.sent| ==> s.sent[i].id == i)
  }

  lemma {:induction false} WrittenOfDrop(settled: seq<Settled>, q: seq<Entry>)
    ensures WrittenOf(settled + Drop(q)) == WrittenOf(settled)
    decreases |q|
  {
    if q == [] {
      assert settled + Drop(q) == settled;
    } else {
      var n := |q| - 1;
      assert (settled + Drop(q))[..|settled| + n] == settled + Drop(q[..n]);
      WrittenOfDrop(settled, q[..n]);
    }
  }

  lemma WrittenOfSnoc(settled: seq<Settled>, x: Settled)
    ensures WrittenOf(settled + [x]) == WrittenOf(settled) + if x.outcome == Written then [x.entry] else []
  {
    assert (settled + [x])[..|settled|] == settled;
  }

  lemma OneTokenKept(s: State, step: Step)
    requires OneToken(s) && Enabled(s, step)
    ensures OneToken(Next(s, step))
  {
    match step
    case Send(packet) =>
      assert forall e | e in s.claimed + s.flying :: e == s.shared.queue[0];
    case DoSend =>
    case StartWrite(at) =>
      assert s.claimed[at] in s.claimed + s.flying;
    case Finish(at, failed) =>
  }

  // A completion: the queue has a front, and it is the packet whose write completed.
  lemma FinishPopsItsOwn(s: State, at: nat)
    requires OneToken(s) && at < |s.flying|
    ensures s.shared.queue != [] && s.flying[at] == s.shared.queue[0]
  {
    assert s.flying[at] in s.claimed + s.flying;
  }

  lemma LeavingSplits(settled: seq<Settled>, q: seq<Entry>, failed: bool)
    requires q != []
    ensures Entries(settled + Leaving(q, failed)) + (if failed then [] else q[1..]) == Entries(settled) + q
  {
  }

  lemma ConservedKept(s: State, step: Step)
    requires OneToken(s) && Conserved(s) && Enabled(s, step)
    ensures Conserved(Next(s, step))
  {
    match step
    case Send(packet) =>
      ConcatAssoc(Entries(s.settled), s.shared.queue, [Entry(|s.sent|, packet)]);
    case DoSend =>
    case StartWrite(at) =>
    case Finish(at, failed) =>
      FinishPopsItsOwn(s, at);
      var q := s.shared.queue;
      LeavingSplits(s.settled, q, failed);
      if failed {
        WrittenOfSnoc(s.settled, Settled(q[0], Failed));
        ConcatAssoc(s.settled, [Settled(q[0], Failed)], Drop(q[1..]));
        WrittenOfDrop(s.settled + [Settled(q[0], Failed)], q[1..]);
      } else {
        WrittenOfSnoc(s.settled, Settled(q[0], Written));
      }
  }

  // States reached by any interleaving.
  ghost predicate Reaches(s: State, steps: seq<Step>, t: State)
    decreases |steps|
  {
    if steps == [] then s == t
    else Enabled(s, steps[0]) && Reaches(Next(s, steps[0]), steps[1..], t)
  }

  lemma {:induction false} RunKeeps(s: State, steps: seq<Step>, t: State)
    requires OneToken(s) && Conserved(s) && Reaches(s, steps, t)
    ensures OneToken(t) && Conserved(t)
    decreases |steps|
  {
    if steps != [] {
      OneTokenKept(s, steps[0]);
      ConservedKept(s, steps[0]);
      RunKeeps(Next(s, steps[0]), steps[1..], t);
    }
  }

  /** Every interleaving, write errors included: at most one write in flight and its packet is still the
      front; what left the queue and the queue together are the packets sent, in lock order; the wire
      carries exactly the written ones, in that order; DoSend never meets an empty queue. */
  lemma EveryInterleaving(steps: seq<Step>, t: State)
    requires Reaches(Init, steps, t)
    ensures OneToken(t)
    ensures |t.claimed| + |t.flying| <= 1
    ensures forall e | e in t.claimed + t.flying :: t.shared.queue != [] && e == t.shared.queue[0]
    ensures Entries(t.settled) + t.shared.queue == t.sent
    ensures t.wire == WrittenOf(t.settled)
    ensures Enabled(t, DoSend) ==> t.shared.queue != []
  {
    assert Entries([]) + [] == [];
    RunKeeps(Init, steps, t);
  }

  /** Without a write error, the completed writes followed by the queue are the packets sent. */
  lemma {:induction false} NoErrorDelivery(s: State, steps: seq<Step>, t: State)
    requires OneToken(s) && s.sent == s.wire + s.shared.queue
    requires Reaches(s, steps, t)
    requires forall i :: 0 <= i < |steps| ==> !(steps[i].Finish? && steps[i].failed)
    ensures t.sent == t.wire + t.shared.queue
    decreases |steps|
  {
    if steps != [] {
      var step := steps[0];
      OneTokenKept(s, step);
      if step.Send? {
        ConcatAssoc(s.wire, s.shared.queue, [Entry(|s.sent|, step.packet)]);
      }
      if step.Finish? {
        FinishPopsItsOwn(s, step.at);
        ConcatAssoc(s.wire, [s.shared.queue[0]], s.shared.queue[1..]);
        HeadTail(s.shared.queue);
      }
      NoErrorDelivery(Next(s, step), steps[1..], t);
    }
  }

  // -------- Nothing gets stuck --------

  function Work(s: State): nat
  {
    3 * |s.shared.queue| + 2 * s.starting + |s.claimed|
  }

  /** Every step but Send uses up work, and while anything is queued such a step is possible; so all
      packets sent settle within Work steps of the last Send. */
  lemma Drains(s: State, step: Step)
    requires OneToken(s)
    ensures Enabled(s, step) && !step.Send? ==> Work(Next(s, step)) < Work(s)
    ensures s.shared.queue != [] ==>
              Enabled(s, DoSend) || Enabled(s, StartWrite(0)) || (Enabled(s, Finish(0, false)) && Enabled(s, Finish(0, true)))
    ensures Work(s) == 0 ==> s.shared.queue == []
  {
    if Enabled(s, step) && step.Finish? { FinishPopsItsOwn(s, step.at); }
  }

  lemma {:induction false} QuietRunBounded(s: State, steps: seq<Step>, t: State)
    requires OneToken(s) && Reaches(s, steps, t)
    requires forall i :: 0 <= i < |steps| ==> !steps[i].Send?
    ensures |steps| + Work(t) <= Work(s)
    decreases |steps|
  {
    if steps != [] {
      Drains(s, steps[0]);
      OneTokenKept(s, steps[0]);
      QuietRunBounded(Next(s, steps[0]), steps[1..], t);
    }
  }

  // The step that brings the front packet on, if no write fails.
  function Forward(s: State): (step: Step)
    requires OneToken(s) && s.shared.queue != []
    ensures Enabled(s, step) && !step.Send? && !(step.Finish? && step.failed)
  {
    if s.flying != [] then Finish(0, false) else if s.claimed != [] then StartWrite(0) else DoSend
  }

  /** Anybody may send at any time, and from wherever an interleaving stands, without write errors the channel can send
      everything that is queued, in order, and come to rest. */
  lemma {:induction false} Delivers(s: State) returns (steps: seq<Step>, t: State)
    requires OneToken(s) && Conserved(s)
    ensures forall packet :: Enabled(s, Send(packet)) && Next(s, Send(packet)).sent == s.sent + [Entry(|s.sent|, packet)]
    ensures Reaches(s, steps, t) && |steps| <= Work(s)
    ensures t.shared == Shared([], false) && t.starting == 0 && t.claimed == [] && t.flying == []
    ensures t.sent == s.sent && t.wire == s.wire + s.shared.queue
    decreases Work(s)
  {
    if s.shared.queue == [] {
      steps, t := [], s;
      assert s.wire + [] == s.wire;
    } else {
      var step := Forward(s);
      var next := Next(s, step);
      Drains(s, step);
      OneTokenKept(s, step);
      ConservedKept(s, step);
      var more;
      more, t := Delivers(next);
      steps := [step] + more;
      assert steps[1..] == more;
      if step.Finish? {
        FinishPopsItsOwn(s, step.at);
        HeadTail(s.shared.queue);
        ConcatAssoc(s.wire, [s.shared.queue[0]], s.shared.queue[1..]);
      }
    }
  }
}
