/** The per-session packet limiter of Session::ProcessPackets: a deque of recent dispatch times and a
    block deadline. Times are integers in clock ticks, SECOND of them to the second. */
module RateLimiter {

  const SECOND := 1_000_000_000

  datatype Config = Config(limit: nat, blockSeconds: nat)

  // What the configuration loader accepts.
  ghost predicate ValidConfig(c: Config)
  {
    c.limit >= 1 && c.blockSeconds >= 1
  }

  datatype Limiter = Limiter(stamps: seq<int>, blockedUntil: int)

  // The deque after expired front entries are popped.
  function Prune(stamps: seq<int>, now: int): seq<int>
  {
    if stamps != [] && now - stamps[0] >= SECOND then Prune(stamps[1..], now) else stamps
  }

  datatype Decision = Decision(limiter: Limiter, admitted: bool)

  function Admit(c: Config, l: Limiter, now: int): Decision
  {
    if now < l.blockedUntil then Decision(l, false)
    else
      var stamps := Prune(l.stamps, now) + [now];
      if |stamps| >= c.limit then Decision(Limiter([], now + c.blockSeconds * SECOND), false)
      else Decision(Limiter(stamps, l.blockedUntil), true)
  }

  // One limiter run: for each clock reading, was the packet admitted?
  datatype Run = Run(limiter: Limiter, admitted: seq<bool>, history: seq<int>)

  function Decide(c: Config, r: Run, now: int): Run
  {
    var d := Admit(c, r.limiter, now);
    Run(d.limiter, r.admitted + [d.admitted], if d.admitted then r.history + [now] else r.history)
  }

  function RunAll(c: Config, start: Run, readings: seq<int>): Run
    decreases |readings|
  {
    if readings == [] then start
    else Decide(c, RunAll(c, start, readings[..|readings| - 1]), readings[|readings| - 1])
  }

  const Fresh := Run(Limiter([], 0), [], [])

  ghost predicate Monotone(ts: seq<int>)
  {
    forall i, j :: 0 <= i < j < |ts| ==> ts[i] <= ts[j]
  }

  ghost predicate UpTo(ts: seq<int>, last: int)
  {
    forall i :: 0 <= i < |ts| ==> ts[i] <= last
  }

  // -------- Reference definitions over the whole dispatch history --------

  // Dispatches in the half-open window of one second starting at w.
  function CountIn(history: seq<int>, w: int): nat
  {
    if history == [] then 0
    else CountIn(history[..|history| - 1], w)
         + (if w <= history[|history| - 1] < w + SECOND then 1 else 0)
  }

  // Dispatches less than one second before now.
  function CountRecent(history: seq<int>, now: int): nat
  {
    CountIn(history, now - SECOND + 1)
  }

  lemma {:induction false} CountConcat(a: seq<int>, b: seq<int>, w: int)
    ensures CountIn(a + b, w) == CountIn(a, w) + CountIn(b, w)
    decreases |b|
  {
    if b == [] {
      assert a + b == a;
    } else {
      assert (a + b)[..|a + b| - 1] == a + b[..|b| - 1];
      CountConcat(a, b[..|b| - 1], w);
    }
  }

  lemma {:induction false} CountNone(a: seq<int>, w: int)
    requires forall i :: 0 <= i < |a| ==> !(w <= a[i] < w + SECOND)
    ensures CountIn(a, w) == 0
  {
    if a != [] { CountNone(a[..|a| - 1], w); }
  }

  lemma {:induction false} CountAtMost(a: seq<int>, w: int)
    ensures CountIn(a, w) <= |a|
  {
    if a != [] { CountAtMost(a[..|a| - 1], w); }
  }

  lemma {:induction false} CountAll(a: seq<int>, w: int)
    requires forall i :: 0 <= i < |a| ==> w <= a[i] < w + SECOND
    ensures CountIn(a, w) == |a|
  {
    if a != [] { CountAll(a[..|a| - 1], w); }
  }

  // -------- The invariant --------

  ghost predicate Expired(older: seq<int>, now: int)
  {
    forall i :: 0 <= i < |older| ==> older[i] + SECOND <= now
  }

  ghost predicate Recent(stamps: seq<int>, now: int)
  {
    forall i :: 0 <= i < |stamps| ==> now - SECOND < stamps[i] <= now
  }

  ghost predicate Bounded(c: Config, history: seq<int>)
  {
    forall w :: CountIn(history, w) < c.limit
  }

  /** The deque is what the history holds after `older`; everything older is at least a second before
      any time that may still be admitted; and no window of a second holds limit dispatches. */
  ghost predicate Inv(c: Config, r: Run, older: seq<int>, last: int)
  {
    && r.history == older + r.limiter.stamps
    && |r.limiter.stamps| < c.limit
    && Monotone(r.limiter.stamps) && UpTo(r.limiter.stamps, last)
    && Expired(older, Max(last, r.limiter.blockedUntil))
    && Bounded(c, r.history)
  }

  function Max(a: int, b: int): int { if a < b then b else a }

  lemma {:induction false} PruneDrops(stamps: seq<int>, now: int) returns (dropped: seq<int>)
    requires Monotone(stamps) && UpTo(stamps, now)
    ensures stamps == dropped + Prune(stamps, now)
    ensures Expired(dropped, now) && Recent(Prune(stamps, now), now)
    decreases |stamps|
  {
    if stamps == [] {
      dropped := [];
    } else if now - stamps[0] >= SECOND {
      dropped := PruneDrops(stamps[1..], now);
      dropped := [stamps[0]] + dropped;
    } else {
      dropped := [];
    }
  }

  // After pruning, the deque holds exactly the dispatches of the last second.
  lemma RecentCount(older: seq<int>, stamps: seq<int>, now: int)
    requires Expired(older, now) && Recent(stamps, now)
    ensures CountRecent(older + stamps, now) == |stamps|
  {
    var w := now - SECOND + 1;
    CountConcat(older, stamps, w);
    CountNone(older, w);
    CountAll(stamps, w);
  }

  // An admission keeps every window within the bound.
  lemma AdmittedKeepsBound(c: Config, older: seq<int>, stamps: seq<int>, now: int)
    requires Expired(older, now) && |stamps| + 1 < c.limit && Bounded(c, older + stamps)
    ensures Bounded(c, older + (stamps + [now]))
  {
    forall w ensures CountIn(older + (stamps + [now]), w) < c.limit {
      CountConcat(older, stamps, w);
      CountConcat(older, stamps + [now], w);
      if w <= now < w + SECOND {
        CountNone(older, w);
        CountAtMost(stamps + [now], w);
      } else {
        assert (stamps + [now])[..|stamps|] == stamps;
      }
    }
  }

  // What an unblocked reading leaves of the history, pruned.
  lemma Pruned(c: Config, r: Run, older: seq<int>, last: int, now: int) returns (older': seq<int>)
    requires Inv(c, r, older, last) && last <= now && r.limiter.blockedUntil <= now
    ensures r.history == older' + Prune(r.limiter.stamps, now)
    ensures Expired(older', now) && Recent(Prune(r.limiter.stamps, now), now)
  {
    var dropped := PruneDrops(r.limiter.stamps, now);
    older' := older + dropped;
  }

  /** The deque decides as the whole history would: a packet is dispatched exactly when the session
      is not blocked and fewer than limit - 1 dispatches happened in the last second. */
  lemma AdmitRefinesHistory(c: Config, r: Run, older: seq<int>, last: int, now: int)
    requires ValidConfig(c) && Inv(c, r, older, last) && last <= now
    ensures Admit(c, r.limiter, now).admitted
            <==> now >= r.limiter.blockedUntil && CountRecent(r.history, now) + 1 < c.limit
  {
    if now >= r.limiter.blockedUntil {
      var older' := Pruned(c, r, older, last, now);
      RecentCount(older', Prune(r.limiter.stamps, now), now);
    }
  }

  lemma {:induction false} PruneMonotone(stamps: seq<int>, now: int)
    requires Monotone(stamps)
    ensures Monotone(Prune(stamps, now))
    decreases |stamps|
  {
    if stamps != [] && now - stamps[0] >= SECOND { PruneMonotone(stamps[1..], now); }
  }

  lemma DecideKeepsInv(c: Config, r: Run, older: seq<int>, last: int, now: int) returns (older': seq<int>)
    requires ValidConfig(c) && Inv(c, r, older, last) && last <= now
    ensures Inv(c, Decide(c, r, now), older', now)
  {
    if now < r.limiter.blockedUntil {
      older' := older;
    } else {
      older' := Pruned(c, r, older, last, now);
      var stamps := Prune(r.limiter.stamps, now);
      if |stamps| + 1 < c.limit {
        AdmittedKeepsBound(c, older', stamps, now);
        ConcatSnoc(older', stamps, now);
        PruneMonotone(r.limiter.stamps, now);
      } else {
        older' := r.history;
        assert Expired(r.history, now + SECOND);
      }
    }
  }

  lemma ConcatSnoc(a: seq<int>, b: seq<int>, x: int)
    ensures a + b + [x] == a + (b + [x])
  {
  }

  // `last` may be any time not before the readings made so far.
  lemma {:induction false} RunKeepsInv(c: Config, readings: seq<int>, last: int) returns (older: seq<int>)
    requires ValidConfig(c) && Monotone(readings) && UpTo(readings, last)
    ensures Inv(c, RunAll(c, Fresh, readings), older, last)
    decreases |readings|
  {
    if readings == [] {
      older := [];
    } else {
      var n := |readings| - 1;
      var now, r := readings[n], RunAll(c, Fresh, readings[..n]);
      older := RunKeepsInv(c, readings[..n], now);
      older := DecideKeepsInv(c, r, older, now, now);
      InvLater(c, Decide(c, r, now), older, now, last);
    }
  }

  lemma InvLater(c: Config, r: Run, older: seq<int>, last: int, later: int)
    requires Inv(c, r, older, last) && last <= later
    ensures Inv(c, r, older, later)
  {
  }

  /** Over any run with a monotone clock, no half-open window of one second holds limit or more dispatches. */
  lemma WindowBound(c: Config, readings: seq<int>, w: int)
    requires ValidConfig(c) && Monotone(readings)
    ensures CountIn(RunAll(c, Fresh, readings).history, w) <= c.limit - 1
  {
    var last := if readings == [] then 0 else readings[|readings| - 1];
    var older := RunKeepsInv(c, readings, last);
  }

  /** Every decision of every run is the one the full history dictates. */
  lemma RunRefinesHistory(c: Config, readings: seq<int>, now: int)
    requires ValidConfig(c) && Monotone(readings + [now])
    ensures var r := RunAll(c, Fresh, readings);
            RunAll(c, Fresh, readings + [now]).admitted == r.admitted +
              [now >= r.limiter.blockedUntil && CountRecent(r.history, now) + 1 < c.limit]
  {
    assert (readings + [now])[..|readings|] == readings;
    assert UpTo(readings, now) && Monotone(readings) by {
      assert forall i :: 0 <= i < |readings| ==> readings[i] == (readings + [now])[i] <= (readings + [now])[|readings|];
    }
    var older := RunKeepsInv(c, readings, now);
    AdmitRefinesHistory(c, RunAll(c, Fresh, readings), older, now, now);
  }
}
