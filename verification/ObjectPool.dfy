/** ObjectPool: recycled objects wait in a queue until the pool's handle is the only one left.
    An object is a number; its use_count is the handles outside the pool plus those in it. */
module ObjectPools {
  import opened Wire

  // One handle in all, and the queue has it.
  ghost predicate Unshared(pending: seq<nat>, outside: multiset<nat>, o: nat)
  {
    multiset(pending)[o] == 1 && outside[o] == 0
  }

  /** What a scan of the queue does: the oldest unshared object leaves, the others keep their order. */
  ghost predicate Recycles(pending: seq<nat>, outside: multiset<nat>, o: nat, older: seq<nat>, newer: seq<nat>)
  {
    && pending == older + [o] + newer
    && Unshared(pending, outside, o)
    && forall x | x in older :: !Unshared(pending, outside, x)
  }

  class ObjectPool {
    var m_pending: seq<nat>
    var outside: multiset<nat>  // shared_ptrs held anywhere but in the queue
    var created: nat            // objects made so far are 0 .. created - 1

    ghost predicate Valid()
      reads this
    {
      forall o :: o in m_pending || o in outside ==> o < created
    }

    constructor ()
      ensures Valid() && m_pending == [] && outside == multiset{} && created == 0
    {
      m_pending, outside, created := [], multiset{}, 0;
    }

    // One turn of the queue: every entry is taken out and, except the first that nobody else holds, put back.
    method Rotate() returns (picked: Option<nat>, ghost older: seq<nat>, ghost newer: seq<nat>)
      modifies this`m_pending
      ensures picked.Some? ==> Recycles(old(m_pending), outside, picked.value, older, newer) && m_pending == older + newer
      ensures picked.None? ==> m_pending == old(m_pending) && forall x | x in m_pending :: !Unshared(m_pending, outside, x)
    {
      ghost var before, rest := m_pending, m_pending;
      older, newer, picked := [], [], None;
      var i, count := 0, |m_pending|;
      assert m_pending == rest + older;
      while i < count
        invariant i + |rest| == count
        invariant m_pending == rest + (older + newer)
        invariant picked.None? ==> before == older + rest && newer == [] && multiset(m_pending) == multiset(before)
        invariant picked.Some? ==> before == older + [picked.value] + newer + rest
                                   && Unshared(before, outside, picked.value)
        invariant forall x | x in older :: !Unshared(before, outside, x)
      {
        var pending := m_pending[0];
        HeadCount(m_pending);
        Rotates(rest, older, newer);
        Regroups(older, picked, newer, rest);
        m_pending := m_pending[1..];
        if picked.None? && multiset(m_pending)[pending] + 1 + outside[pending] == 1 {
          picked := Some(pending);
          assert Unshared(before, outside, pending);
        } else {
          m_pending := m_pending + [pending];
          if picked.None? { older := older + [pending]; } else { newer := newer + [pending]; }
        }
        rest := rest[1..];
        i := i + 1;
      }
    }

    /** Recycles the oldest entry nobody else holds, leaving the others in order, or creates when there
        is none. Either way the caller gets the only handle there is. */
    method Acquire() returns (obj: nat, reset: bool, ghost older: seq<nat>, ghost newer: seq<nat>)
      requires Valid()
      modifies this
      ensures Valid()
      ensures reset ==> Recycles(old(m_pending), old(outside), obj, older, newer)
                        && m_pending == older + newer && created == old(created)
      ensures !reset ==> (forall x | x in old(m_pending) :: !Unshared(old(m_pending), old(outside), x))
                         && m_pending == old(m_pending) && obj == old(created) && created == obj + 1
      ensures obj !in old(outside) && obj !in m_pending && outside == old(outside) + multiset{obj}
    {
      var picked;
      picked, older, newer := Rotate();
      if picked.None? {
        obj, reset := created, false;
        created := created + 1;
      } else {
        obj, reset := picked.value, true;
        SoleEntryGone(older, newer, obj);
      }
      outside := outside + multiset{obj};
    }

    // The caller keeps its own handles; a second release of the same object is not detected.
    method Release(obj: nat)
      requires Valid() && obj in outside
      modifies this
      ensures Valid() && m_pending == old(m_pending) + [obj] && outside == old(outside) && created == old(created)
    {
      m_pending := m_pending + [obj];
    }
  }

  /** What is recycled is determined by the queue and the handles outside: it is the first entry, from the front, that
      is the only handle to its object; the older ones and the newer ones stay as they are. */
  lemma RecyclesFirst(pending: seq<nat>, outside: multiset<nat>, o: nat, older: seq<nat>, newer: seq<nat>, k: nat)
    requires k == |older|
    ensures Recycles(pending, outside, o, older, newer)
       <==> k < |pending| && older == pending[..k] && pending[k] == o && newer == pending[k + 1..]
            && multiset(pending)[o] + outside[o] == 1
            && forall i :: 0 <= i < k ==> multiset(pending)[pending[i]] + outside[pending[i]] != 1
  {
    if Recycles(pending, outside, o, older, newer) {
      ThreeParts(older, o, newer);
      forall i | 0 <= i < k ensures multiset(pending)[pending[i]] + outside[pending[i]] != 1 {
        EntryCounts(pending, i);
        assert pending[..k][i] == older[i] && older[i] in older;
      }
    } else if k < |pending| && older == pending[..k] && pending[k] == o && newer == pending[k + 1..] {
      assert pending == older + [o] + newer;
      EntryCounts(pending, k);
      if x :| x in older && Unshared(pending, outside, x) {
        var i :| 0 <= i < k && older[i] == x;
        assert pending[i] == x;
      }
    }
  }

  lemma ThreeParts(older: seq<nat>, o: nat, newer: seq<nat>)
    ensures var all := older + [o] + newer;
            all[..|older|] == older && all[|older|] == o && all[|older| + 1..] == newer
  {
  }

  lemma EntryCounts(xs: seq<nat>, i: nat)
    requires i < |xs|
    ensures multiset(xs)[xs[i]] >= 1
  {
    assert xs[i] in multiset(xs);
  }

  lemma Regroups(older: seq<nat>, picked: Option<nat>, newer: seq<nat>, rest: seq<nat>)
    requires rest != []
    ensures older + rest == older + [rest[0]] + rest[1..] == older + [rest[0]] + [] + rest[1..]
    ensures picked.Some? ==>
              older + [picked.value] + newer + rest == older + [picked.value] + (newer + [rest[0]]) + rest[1..]
  {
  }

  lemma SoleEntryGone(older: seq<nat>, newer: seq<nat>, o: nat)
    requires multiset(older + [o] + newer)[o] == 1
    ensures o !in older + newer
  {
  }

  // -------- Every interleaving --------

  // Handles may be copied and dropped while a scan is under way; only the queue is behind the mutex.
  // A scan remembers the queue it began with, cut into what it has passed, picked and not yet seen.
  datatype Scan = Scan(older: seq<nat>, picked: Option<nat>, newer: seq<nat>, rest: seq<nat>)

  datatype State = State(pending: seq<nat>, outside: multiset<nat>, created: nat, scan: Option<Scan>)

  datatype Step = Begin | Examine | End | Release(o: nat) | Share(o: nat) | Drop(o: nat)

  const Init := State([], multiset{}, 0, None)

  function Picked(sc: Scan): seq<nat>
  {
    match sc.picked case None => [] case Some(o) => [o]
  }

  // The queue the scan began with.
  function Snapshot(sc: Scan): seq<nat>
  {
    sc.older + Picked(sc) + sc.newer + sc.rest
  }

  predicate Enabled(s: State, step: Step)
  {
    match step
    case Begin => s.scan.None?
    case Examine => s.scan.Some? && s.scan.value.rest != [] && s.pending != []
    case End => s.scan.Some? && s.scan.value.rest == []
    case Release(o) => s.scan.None? && o in s.outside
    case Share(o) => o in s.outside
    case Drop(o) => o in s.outside
  }

  // What End gives the caller.
  function Handed(s: State): nat
    requires Enabled(s, End)
  {
    match s.scan.value.picked case None => s.created case Some(o) => o
  }

  function Next(s: State, step: Step): State
    requires Enabled(s, step)
  {
    match step
    case Begin => s.(scan := Some(Scan([], None, [], s.pending)))
    case Examine =>
      var sc, x := s.scan.value, s.pending[0];
      var uses := multiset(s.pending)[x] + s.outside[x] + if sc.picked == Some(x) then 1 else 0;
      if sc.picked.None? && uses == 1 then
        s.(pending := s.pending[1..], scan := Some(sc.(picked := Some(x), rest := sc.rest[1..])))
      else
        s.(pending := s.pending[1..] + [x],
           scan := Some(if sc.picked.None? then sc.(older := sc.older + [x], rest := sc.rest[1..])
                        else sc.(newer := sc.newer + [x], rest := sc.rest[1..])))
    case End =>
      s.(outside := s.outside + multiset{Handed(s)}, scan := None,
         created := if s.scan.value.picked.None? then s.created + 1 else s.created)
    case Release(o) => s.(pending := s.pending + [o])
    case Share(o) => s.(outside := s.outside + multiset{o})
    case Drop(o) => s.(outside := s.outside - multiset{o})
  }

  ghost predicate Inv(s: State)
  {
    && (forall o | o in s.pending :: o < s.created)
    && (forall o | o in s.outside :: o < s.created)
    && (s.scan.Some? ==>
          var sc := s.scan.value;
          && s.pending == sc.rest + (sc.older + sc.newer)
          && (sc.picked.None? ==> sc.newer == [])
          && (sc.picked.Some? ==> sc.picked.value < s.created && sc.picked.value !in s.pending
                                  && sc.picked.value !in s.outside))
  }

  lemma InvKept(s: State, step: Step)
    requires Inv(s) && Enabled(s, step)
    ensures Inv(Next(s, step))
  {
    match step
    case Begin => assert s.pending == s.pending + ([] + []);
    case Examine => ExamineKeeps(s);
    case End =>
    case Release(o) =>
    case Share(o) =>
    case Drop(o) =>
  }

  lemma ExamineKeeps(s: State)
    requires Inv(s) && Enabled(s, Examine)
    ensures Inv(Next(s, Examine))
  {
    var sc, x, t := s.scan.value, s.pending[0], Next(s, Examine);
    HeadCount(s.pending);
    Rotates(sc.rest, sc.older, sc.newer);
    assert forall o | o in t.pending :: o in s.pending;
    assert x in s.pending;
  }

  // Passing the front entry moves it behind the others.
  lemma Rotates(rest: seq<nat>, older: seq<nat>, newer: seq<nat>)
    requires rest != []
    ensures var all := rest + (older + newer);
            && all[0] == rest[0]
            && all[1..] == rest[1..] + (older + newer)
            && all[1..] + [rest[0]] == rest[1..] + (older + (newer + [rest[0]]))
            && (newer == [] ==> all[1..] + [rest[0]] == rest[1..] + ((older + [rest[0]]) + newer))
  {
  }

  lemma HeadCount(xs: seq<nat>)
    requires xs != []
    ensures multiset(xs) == multiset{xs[0]} + multiset(xs[1..])
    ensures multiset(xs[1..] + [xs[0]]) == multiset(xs)
    ensures forall x :: x in xs[1..] + [xs[0]] <==> x in xs
    ensures forall x :: x in xs[1..] ==> x in xs
    ensures multiset(xs)[xs[0]] == 1 ==> xs[0] !in xs[1..]
  {
    HeadTail(xs);
    assert multiset([xs[0]] + xs[1..]) == multiset{xs[0]} + multiset(xs[1..]);
  }

  // The scan never forgets the queue it began with.
  lemma SnapshotKept(s: State)
    requires Inv(s) && Enabled(s, Examine)
    ensures Next(s, Examine).scan.Some? && Snapshot(Next(s, Examine).scan.value) == Snapshot(s.scan.value)
  {
    var sc := s.scan.value;
    HeadTail(sc.rest);
    assert s.pending[0] == sc.rest[0];
    assert Snapshot(sc) == sc.older + Picked(sc) + sc.newer + [sc.rest[0]] + sc.rest[1..];
  }

  ghost predicate Reaches(s: State, steps: seq<Step>, t: State)
    decreases |steps|
  {
    if steps == [] then s == t
    else Enabled(s, steps[0]) && Reaches(Next(s, steps[0]), steps[1..], t)
  }

  lemma {:induction false} RunKeeps(s: State, steps: seq<Step>, t: State)
    requires Inv(s) && Reaches(s, steps, t)
    ensures Inv(t)
    decreases |steps|
  {
    if steps != [] {
      InvKept(s, steps[0]);
      RunKeeps(Next(s, steps[0]), steps[1..], t);
    }
  }

  // -------- Conservation --------

  // Outside the queue: handed out, copied or dropped.
  function HandlesOf(s: State, step: Step, o: nat): int
    requires Enabled(s, step)
  {
    match step
    case End => if Handed(s) == o then 1 else 0
    case Share(x) => if x == o then 1 else 0
    case Drop(x) => if x == o then -1 else 0
    case _ => 0
  }

  // In the queue: released, or recycled.
  function EntriesOf(s: State, step: Step, o: nat): int
    requires Enabled(s, step)
  {
    match step
    case End => if s.scan.value.picked == Some(o) then -1 else 0
    case Release(x) => if x == o then 1 else 0
    case _ => 0
  }

  function Entries(s: State, o: nat): nat
  {
    multiset(s.pending)[o] + (if s.scan.Some? && s.scan.value.picked == Some(o) then 1 else 0)
  }

  lemma StepConserves(s: State, step: Step, o: nat)
    requires Inv(s) && Enabled(s, step)
    ensures Next(s, step).outside[o] == s.outside[o] + HandlesOf(s, step, o)
    ensures Entries(Next(s, step), o) == Entries(s, o) + EntriesOf(s, step, o)
  {
    match step
    case Examine => ExamineConserves(s, o);
    case Release(x) => assert multiset(s.pending + [x]) == multiset(s.pending) + multiset{x};
    case End => EndConserves(s, o);
    case _ =>
  }

  lemma EndConserves(s: State, o: nat)
    requires Inv(s) && Enabled(s, End)
    ensures Next(s, End).outside[o] == s.outside[o] + HandlesOf(s, End, o)
    ensures Entries(Next(s, End), o) == Entries(s, o) + EntriesOf(s, End, o)
  {
  }

  lemma ExamineConserves(s: State, o: nat)
    requires Inv(s) && Enabled(s, Examine)
    ensures Next(s, Examine).outside == s.outside && Entries(Next(s, Examine), o) == Entries(s, o)
  {
    HeadCount(s.pending);
    assert multiset(s.pending)[o] == multiset(s.pending[1..])[o] + if o == s.pending[0] then 1 else 0;
  }

  // The handles to o that a run makes, less those it gives up.
  function Handles(s: State, steps: seq<Step>, o: nat): int
    decreases |steps|
  {
    if steps == [] || !Enabled(s, steps[0]) then 0
    else HandlesOf(s, steps[0], o) + Handles(Next(s, steps[0]), steps[1..], o)
  }

  function Queued(s: State, steps: seq<Step>, o: nat): int
    decreases |steps|
  {
    if steps == [] || !Enabled(s, steps[0]) then 0
    else EntriesOf(s, steps[0], o) + Queued(Next(s, steps[0]), steps[1..], o)
  }

  /** Over every interleaving no handle is lost or made up: outside the queue an object has one for each time it was
      handed out or copied, less those dropped; in it one for each release, less the times it was recycled. */
  lemma {:induction false} HandlesConserved(s: State, steps: seq<Step>, t: State, o: nat)
    requires Inv(s) && Reaches(s, steps, t)
    ensures t.outside[o] == s.outside[o] + Handles(s, steps, o)
    ensures Entries(t, o) == Entries(s, o) + Queued(s, steps, o)
    decreases |steps|
  {
    if steps != [] {
      InvKept(s, steps[0]);
      StepConserves(s, steps[0], o);
      HandlesConserved(Next(s, steps[0]), steps[1..], t, o);
    }
  }

  // -------- One scan --------

  // The steps of one scan: what happens after its Begin and before its End.
  ghost predicate Within(steps: seq<Step>)
  {
    forall i :: 0 <= i < |steps| ==> steps[i] != Begin && steps[i] != End
  }

  lemma {:induction false} ScanKeepsSnapshot(s: State, steps: seq<Step>, t: State)
    requires Inv(s) && s.scan.Some? && Reaches(s, steps, t) && Within(steps)
    ensures t.scan.Some? && Snapshot(t.scan.value) == Snapshot(s.scan.value)
    decreases |steps|
  {
    if steps != [] {
      InvKept(s, steps[0]);
      if steps[0].Examine? { SnapshotKept(s); }
      ScanKeepsSnapshot(Next(s, steps[0]), steps[1..], t);
    }
  }

  /** Over every interleaving, double releases included: what Acquire hands out has no other holder and no
      queue entry; and the scan has only taken it out of the queue it began with, the others in their order,
      whatever is copied and dropped meanwhile. */
  lemma NeverAliased(steps: seq<Step>, b: State, scan: seq<Step>, s: State)
    requires Reaches(Init, steps, b) && Enabled(b, Begin)
    requires Reaches(Next(b, Begin), scan, s) && Within(scan) && Enabled(s, End)
    ensures Handed(s) !in s.outside && Handed(s) !in s.pending
    ensures Next(s, End).outside[Handed(s)] == 1
    ensures var sc := s.scan.value;
            b.pending == sc.older + Picked(sc) + sc.newer && s.pending == sc.older + sc.newer
  {
    RunKeeps(Init, steps, b);
    BeginsWhole(b);
    RunKeeps(Next(b, Begin), scan, s);
    ScanKeepsSnapshot(Next(b, Begin), scan, s);
    NothingLeft(s.scan.value);
  }

  lemma BeginsWhole(b: State)
    requires Inv(b) && Enabled(b, Begin)
    ensures Inv(Next(b, Begin)) && Next(b, Begin).scan.Some?
    ensures Snapshot(Next(b, Begin).scan.value) == b.pending
  {
    InvKept(b, Begin);
    assert [] + [] + [] + b.pending == b.pending;
  }

  lemma NothingLeft(sc: Scan)
    requires sc.rest == []
    ensures sc.rest + (sc.older + sc.newer) == sc.older + sc.newer
    ensures Snapshot(sc) == sc.older + Picked(sc) + sc.newer
  {
  }

  /** What a scan picks nobody else held when it came to the front, and it had one entry then. */
  lemma {:induction false} PickedUnshared(s: State, steps: seq<Step>, t: State) returns (k: nat, m: State)
    requires Reaches(s, steps, t) && Within(steps)
    requires s.scan.Some? && s.scan.value.picked.None? && t.scan.Some? && t.scan.value.picked.Some?
    ensures k < |steps| && steps[k] == Examine && Reaches(s, steps[..k], m) && Enabled(m, Examine)
    ensures m.pending[0] == t.scan.value.picked.value && Unshared(m.pending, m.outside, m.pending[0])
    decreases |steps|
  {
    var next := Next(s, steps[0]);
    if next.scan.value.picked.Some? {
      k, m := 0, s;
      ExaminePicks(s, steps[0]);
      KeepsPicked(next, steps[1..], t);
    } else {
      k, m := PickedUnshared(next, steps[1..], t);
      k := k + 1;
      OneMoreStep(s, steps, k, m);
    }
  }

  lemma OneMoreStep(s: State, steps: seq<Step>, k: nat, m: State)
    requires 0 < k <= |steps| && Enabled(s, steps[0]) && Reaches(Next(s, steps[0]), steps[1..][..k - 1], m)
    ensures Reaches(s, steps[..k], m)
  {
    assert steps[..k][1..] == steps[1..][..k - 1];
  }

  lemma ExaminePicks(s: State, step: Step)
    requires Enabled(s, step) && step != Begin && step != End
    requires s.scan.Some? && s.scan.value.picked.None? && Next(s, step).scan.value.picked.Some?
    ensures step == Examine && Next(s, step).scan.value.picked == Some(s.pending[0])
    ensures Unshared(s.pending, s.outside, s.pending[0])
  {
    HeadCount(s.pending);
  }

  lemma {:induction false} KeepsPicked(s: State, steps: seq<Step>, t: State)
    requires Reaches(s, steps, t) && Within(steps) && s.scan.Some? && s.scan.value.picked.Some?
    ensures t.scan.Some? && t.scan.value.picked == s.scan.value.picked
    decreases |steps|
  {
    if steps != [] { KeepsPicked(Next(s, steps[0]), steps[1..], t); }
  }

  lemma StepKeepsDouble(s: State, step: Step, o: nat)
    requires Inv(s) && Enabled(s, step) && multiset(s.pending)[o] >= 2
    ensures multiset(Next(s, step).pending)[o] >= 2
  {
    if step.Examine? { HeadCount(s.pending); }
    if step.Release? { assert multiset(s.pending + [step.o]) == multiset(s.pending) + multiset{step.o}; }
  }

  /** An object released twice has two entries for good, so it is never handed out again. */
  lemma {:induction false} DoubleReleaseIsForGood(s: State, steps: seq<Step>, t: State, o: nat)
    requires Inv(s) && Reaches(s, steps, t) && multiset(s.pending)[o] >= 2
    ensures multiset(t.pending)[o] >= 2
    ensures Enabled(t, End) ==> Handed(t) != o
    decreases |steps|
  {
    if steps == [] {
      assert o in s.pending;
    } else {
      var step := steps[0];
      InvKept(s, step);
      StepKeepsDouble(s, step, o);
      DoubleReleaseIsForGood(Next(s, step), steps[1..], t, o);
    }
  }

  // -------- Who can be handed out again --------

  // A scan in progress over the queue p, nothing else happening.
  ghost predicate Scanning(p: seq<nat>, outside: multiset<nat>, s: State)
  {
    && Inv(s) && s.scan.Some? && s.outside == outside && Snapshot(s.scan.value) == p
    && forall x | x in s.scan.value.older :: !Unshared(p, outside, x)
  }

  lemma UsesInQueue(p: seq<nat>, outside: multiset<nat>, s: State, x: nat)
    requires Scanning(p, outside, s)
    ensures multiset(p)[x] == multiset(s.pending)[x] + if s.scan.value.picked == Some(x) then 1 else 0
  {
    var sc := s.scan.value;
    assert multiset(p) == multiset(sc.older) + multiset(Picked(sc)) + multiset(sc.newer) + multiset(sc.rest);
    assert multiset(s.pending) == multiset(sc.rest) + (multiset(sc.older) + multiset(sc.newer));
  }

  lemma ExamineScans(p: seq<nat>, outside: multiset<nat>, s: State)
    requires Scanning(p, outside, s) && Enabled(s, Examine)
    ensures Scanning(p, outside, Next(s, Examine))
    ensures |Next(s, Examine).scan.value.rest| == |s.scan.value.rest| - 1
  {
    InvKept(s, Examine);
    SnapshotKept(s);
    UsesInQueue(p, outside, s, s.pending[0]);
  }

  // The rest of the scan.
  lemma {:induction false} ScanToEnd(p: seq<nat>, outside: multiset<nat>, s: State) returns (steps: seq<Step>, t: State)
    requires Scanning(p, outside, s)
    ensures Reaches(s, steps, t) && Scanning(p, outside, t) && Enabled(t, End)
    decreases |s.scan.value.rest|
  {
    if s.scan.value.rest == [] {
      steps, t := [], s;
    } else {
      ExamineScans(p, outside, s);
      steps, t := ScanToEnd(p, outside, Next(s, Examine));
      steps := [Examine] + steps;
      assert steps[1..] == steps[1..];
    }
  }

  lemma {:induction false} Chain(s: State, a: seq<Step>, m: State, b: seq<Step>, t: State)
    requires Reaches(s, a, m) && Reaches(m, b, t)
    ensures Reaches(s, a + b, t)
    decreases |a|
  {
    if a == [] {
      assert a + b == b;
    } else {
      Chain(Next(s, a[0]), a[1..], m, b, t);
      TailOfSum(a, b);
    }
  }

  lemma TailOfSum(a: seq<Step>, b: seq<Step>)
    requires a != []
    ensures a + b != [] && (a + b)[0] == a[0] && (a + b)[1..] == a[1..] + b
  {
  }

  lemma OneStep(s: State, step: Step)
    requires Enabled(s, step)
    ensures Reaches(s, [step], Next(s, step))
  {
    assert [step][1..] == [];
  }

  lemma ChainEnd(s: State, a: seq<Step>, t: State, b: seq<Step>, u: State)
    requires Reaches(s, a, t) && Enabled(t, End) && Reaches(Next(t, End), b, u)
    ensures Reaches(s, a + [End] + b, u)
  {
    OneStep(t, End);
    Chain(s, a, t, [End], Next(t, End));
    Chain(s, a + [End], Next(t, End), b, u);
  }

  // One whole Acquire, up to what it hands out: it comes to o, or to something in front of it.
  lemma AcquireTowards(s: State, o: nat) returns (steps: seq<Step>, t: State)
    requires Inv(s) && s.scan.None? && Unshared(s.pending, s.outside, o)
    ensures Reaches(s, steps, t) && Inv(t) && Enabled(t, End)
    ensures Handed(t) != o ==> Unshared(t.pending, Next(t, End).outside, o) && |t.pending| < |s.pending|
  {
    var b := Next(s, Begin);
    BeginsWhole(s);
    steps, t := ScanToEnd(s.pending, s.outside, b);
    OneStep(s, Begin);
    Chain(s, [Begin], b, steps, t);
    steps := [Begin] + steps;
    HandsOver(s, t, o);
  }

  lemma HandsOver(s: State, t: State, o: nat)
    requires Scanning(s.pending, s.outside, t) && Enabled(t, End) && Unshared(s.pending, s.outside, o)
    ensures Handed(t) != o ==> Unshared(t.pending, Next(t, End).outside, o) && |t.pending| < |s.pending|
  {
    var sc := t.scan.value;
    UsesInQueue(s.pending, s.outside, t, o);
    NothingLeft(sc);
    assert o in s.pending;
    assert o in sc.older || o in Picked(sc) || o in sc.newer;
  }

  // Dropping every handle but the queue's.
  lemma {:induction false} DropAll(s: State, o: nat) returns (steps: seq<Step>, t: State)
    requires Inv(s)
    ensures Reaches(s, steps, t) && Inv(t) && t == s.(outside := t.outside) && t.outside[o] == 0
    decreases s.outside[o]
  {
    if s.outside[o] == 0 {
      steps, t := [], s;
    } else {
      InvKept(s, Drop(o));
      steps, t := DropAll(Next(s, Drop(o)), o);
      OneStep(s, Drop(o));
      Chain(s, [Drop(o)], Next(s, Drop(o)), steps, t);
      steps := [Drop(o)] + steps;
    }
  }

  lemma {:induction false} AcquireUntil(s: State, o: nat) returns (steps: seq<Step>, t: State)
    requires Inv(s) && s.scan.None? && Unshared(s.pending, s.outside, o)
    ensures Reaches(s, steps, t) && Enabled(t, End) && Handed(t) == o
    decreases |s.pending|
  {
    steps, t := AcquireTowards(s, o);
    if Handed(t) != o {
      var next := Next(t, End);
      InvKept(t, End);
      var more, u := AcquireUntil(next, o);
      ChainEnd(s, steps, t, more, u);
      steps, t := steps + [End] + more, u;
    }
  }

  // A scan under way is finished first; it may be the one that hands o out.
  lemma {:induction false} FinishScan(s: State, o: nat) returns (steps: seq<Step>, t: State)
    requires Inv(s) && s.scan.Some? && multiset(s.pending)[o] == 1
    ensures Reaches(s, steps, t) && Inv(t) && Enabled(t, End)
    ensures Handed(t) == o || multiset(t.pending)[o] == 1
    decreases |s.scan.value.rest|
  {
    if s.scan.value.rest == [] {
      steps, t := [], s;
    } else {
      var next := Next(s, Examine);
      InvKept(s, Examine);
      HeadCount(s.pending);
      OneStep(s, Examine);
      if next.scan.value.picked == Some(o) {
        steps, t := FinishPicked(next, o);
      } else {
        steps, t := FinishScan(next, o);
      }
      Chain(s, [Examine], next, steps, t);
      steps := [Examine] + steps;
    }
  }

  lemma {:induction false} FinishPicked(s: State, o: nat) returns (steps: seq<Step>, t: State)
    requires Inv(s) && s.scan.Some? && s.scan.value.picked == Some(o)
    ensures Reaches(s, steps, t) && Inv(t) && Enabled(t, End) && Handed(t) == o
    decreases |s.scan.value.rest|
  {
    if s.scan.value.rest == [] {
      steps, t := [], s;
    } else {
      var next := Next(s, Examine);
      InvKept(s, Examine);
      OneStep(s, Examine);
      steps, t := FinishPicked(next, o);
      Chain(s, [Examine], next, steps, t);
      steps := [Examine] + steps;
    }
  }

  // From between two scans: drop the handles, and acquire.
  lemma GetsOut(s: State, o: nat) returns (steps: seq<Step>, t: State)
    requires Inv(s) && s.scan.None? && multiset(s.pending)[o] == 1
    ensures Reaches(s, steps, t) && Enabled(t, End) && Handed(t) == o
  {
    var dropped;
    steps, dropped := DropAll(s, o);
    var more;
    more, t := AcquireUntil(dropped, o);
    Chain(s, steps, dropped, more, t);
    steps := steps + more;
  }

  ghost predicate CanBeHandedOut(s: State, o: nat)
  {
    exists steps, t :: Reaches(s, steps, t) && Enabled(t, End) && Handed(t) == o
  }

  /** In every reachable state an object in the queue can still be handed out, once its holders let go,
      exactly if it has one entry there: an object released twice never again. */
  lemma HandedOutIff(run: seq<Step>, s: State, o: nat)
    requires Reaches(Init, run, s) && o in s.pending
    ensures CanBeHandedOut(s, o) <==> multiset(s.pending)[o] == 1
  {
    RunKeeps(Init, run, s);
    if multiset(s.pending)[o] >= 2 {
      forall steps, t | Reaches(s, steps, t) && Enabled(t, End) ensures Handed(t) != o {
        DoubleReleaseIsForGood(s, steps, t, o);
      }
    } else if s.scan.None? {
      var steps, t := GetsOut(s, o);
    } else {
      FinishThenGetOut(s, o);
    }
  }

  lemma FinishThenGetOut(s: State, o: nat)
    requires Inv(s) && s.scan.Some? && multiset(s.pending)[o] == 1
    ensures CanBeHandedOut(s, o)
  {
    var steps, t := FinishScan(s, o);
    if Handed(t) != o {
      var next := Next(t, End);
      InvKept(t, End);
      var more, u := GetsOut(next, o);
      ChainEnd(s, steps, t, more, u);
    }
  }
}
