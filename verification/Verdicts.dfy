/** What the limiter decides, read off the clock readings and the decisions alone: no deque, no deadline. */
module Verdicts {
  import opened RateLimiter

  // A reading that refuses while the session is free blocks it, and for as long as the configuration says.
  ghost predicate Free(c: Config, ts: seq<int>, fs: seq<bool>, k: nat)
    requires |ts| == |fs| && k < |ts|
    decreases k, 0
  {
    ts[k] >= 0 && forall j | 0 <= j < k && Blocks(c, ts, fs, j) :: ts[j] + c.blockSeconds * SECOND <= ts[k]
  }

  ghost predicate Blocks(c: Config, ts: seq<int>, fs: seq<bool>, k: nat)
    requires |ts| == |fs| && k < |ts|
    decreases k, 1
  {
    !fs[k] && Free(c, ts, fs, k)
  }

  // Packets dispatched among the first n in the second that starts at w.
  function Dispatched(ts: seq<int>, fs: seq<bool>, n: nat, w: int): nat
    requires |ts| == |fs| && n <= |ts|
  {
    if n == 0 then 0 else Dispatched(ts, fs, n - 1, w) + (if fs[n - 1] && w <= ts[n - 1] < w + SECOND then 1 else 0)
  }

  // Those among the first n that are less than a second old.
  function JustDispatched(ts: seq<int>, fs: seq<bool>, n: nat, now: int): nat
    requires |ts| == |fs| && n <= |ts|
  {
    Dispatched(ts, fs, n, now - SECOND + 1)
  }

  lemma {:induction false} OneFlagEach(c: Config, ts: seq<int>)
    ensures |RunAll(c, Fresh, ts).admitted| == |ts|
    decreases |ts|
  {
    if ts != [] { OneFlagEach(c, ts[..|ts| - 1]); }
  }

  lemma {:induction false} EarlierFlags(c: Config, ts: seq<int>, n: nat)
    requires n <= |ts|
    ensures |RunAll(c, Fresh, ts).admitted| == |ts|
    ensures RunAll(c, Fresh, ts[..n]).admitted == RunAll(c, Fresh, ts).admitted[..n]
    decreases |ts|
  {
    OneFlagEach(c, ts);
    if n < |ts| {
      var init := ts[..|ts| - 1];
      OneFlagEach(c, init);
      EarlierFlags(c, init, n);
      assert init[..n] == ts[..n];
    } else {
      assert ts[..n] == ts;
    }
  }

  // What the limiter's state after n readings is in terms of the flags.
  ghost predicate Explained(c: Config, ts: seq<int>, fs: seq<bool>, n: nat, r: Run)
    requires |ts| == |fs| && n <= |ts|
  {
    && (forall w :: CountIn(r.history, w) == Dispatched(ts, fs, n, w))
    && (forall j | 0 <= j < n && Blocks(c, ts, fs, j) :: ts[j] + c.blockSeconds * SECOND <= r.limiter.blockedUntil)
    && (r.limiter.blockedUntil == 0
        || exists j :: 0 <= j < n && Blocks(c, ts, fs, j) && r.limiter.blockedUntil == ts[j] + c.blockSeconds * SECOND)
  }

  lemma FreeIsUnblocked(c: Config, ts: seq<int>, fs: seq<bool>, n: nat, r: Run)
    requires ValidConfig(c) && |ts| == |fs| && n < |ts| && Explained(c, ts, fs, n, r)
    ensures Free(c, ts, fs, n) <==> ts[n] >= r.limiter.blockedUntil
  {
    if r.limiter.blockedUntil != 0 {
      var j :| 0 <= j < n && Blocks(c, ts, fs, j) && r.limiter.blockedUntil == ts[j] + c.blockSeconds * SECOND;
      assert Free(c, ts, fs, j);
    }
  }

  lemma CountMore(history: seq<int>, now: int, w: int)
    ensures CountIn(history + [now], w) == CountIn(history, w) + (if w <= now < w + SECOND then 1 else 0)
  {
    assert (history + [now])[..|history|] == history;
  }

  lemma ExplainedMore(c: Config, ts: seq<int>, fs: seq<bool>, n: nat, r: Run)
    requires ValidConfig(c) && |ts| == |fs| && n < |ts| && Monotone(ts) && Explained(c, ts, fs, n, r)
    requires fs[n] == Admit(c, r.limiter, ts[n]).admitted
    ensures Explained(c, ts, fs, n + 1, Decide(c, r, ts[n]))
  {
    var now, t := ts[n], Decide(c, r, ts[n]);
    FreeIsUnblocked(c, ts, fs, n, r);
    forall w ensures CountIn(t.history, w) == Dispatched(ts, fs, n + 1, w) {
      CountMore(r.history, now, w);
    }
    if t.limiter.blockedUntil != r.limiter.blockedUntil {
      assert Blocks(c, ts, fs, n);
    }
  }

  lemma {:induction false} RunExplained(c: Config, ts: seq<int>, fs: seq<bool>, n: nat)
    requires ValidConfig(c) && Monotone(ts) && fs == RunAll(c, Fresh, ts).admitted && |fs| == |ts| && n <= |ts|
    ensures Explained(c, ts, fs, n, RunAll(c, Fresh, ts[..n]))
  {
    if n > 0 {
      RunExplained(c, ts, fs, n - 1);
      LastFlag(c, ts, n - 1);
      assert ts[..n][..n - 1] == ts[..n - 1];
      ExplainedMore(c, ts, fs, n - 1, RunAll(c, Fresh, ts[..n - 1]));
    }
  }

  lemma LastFlag(c: Config, ts: seq<int>, n: nat)
    requires n < |ts|
    ensures |RunAll(c, Fresh, ts).admitted| == |ts|
    ensures RunAll(c, Fresh, ts).admitted[n] == Admit(c, RunAll(c, Fresh, ts[..n]).limiter, ts[n]).admitted
    ensures RunAll(c, Fresh, ts[..n + 1]) == Decide(c, RunAll(c, Fresh, ts[..n]), ts[n])
  {
    EarlierFlags(c, ts, n);
    EarlierFlags(c, ts, n + 1);
    OneFlagEach(c, ts[..n]);
    assert ts[..n + 1][..n] == ts[..n];
  }

  /** With a monotone clock a packet is dispatched exactly if no block is in force and fewer than limit - 1
      packets have been dispatched in the last second. This determines every decision of every run. */
  lemma Verdict(c: Config, ts: seq<int>, k: nat)
    requires ValidConfig(c) && Monotone(ts) && k < |ts|
    ensures var fs := RunAll(c, Fresh, ts).admitted;
            && |fs| == |ts|
            && (fs[k] <==> Free(c, ts, fs, k) && JustDispatched(ts, fs, k, ts[k]) + 1 < c.limit)
  {
    var r, fs := RunAll(c, Fresh, ts[..k]), RunAll(c, Fresh, ts).admitted;
    LastFlag(c, ts, k);
    RunExplained(c, ts, fs, k);
    var older := RunKeepsInv(c, ts[..k], ts[k]);
    ExplainedVerdict(c, ts, fs, k, r, older);
  }

  lemma ExplainedVerdict(c: Config, ts: seq<int>, fs: seq<bool>, k: nat, r: Run, older: seq<int>)
    requires ValidConfig(c) && |ts| == |fs| && k < |ts| && Explained(c, ts, fs, k, r) && Inv(c, r, older, ts[k])
    ensures Admit(c, r.limiter, ts[k]).admitted
            <==> Free(c, ts, fs, k) && JustDispatched(ts, fs, k, ts[k]) + 1 < c.limit
  {
    FreeIsUnblocked(c, ts, fs, k, r);
    AdmitRefinesHistory(c, r, older, ts[k], ts[k]);
    assert CountIn(r.history, ts[k] - SECOND + 1) == Dispatched(ts, fs, k, ts[k] - SECOND + 1);
  }

  /** So a reading that finds the session free, and limit - 1 dispatches in the last second, blocks it: every
      reading before the block is over is refused. */
  lemma BlockHolds(c: Config, ts: seq<int>, i: nat, k: nat)
    requires ValidConfig(c) && Monotone(ts) && i < k < |ts| && |RunAll(c, Fresh, ts).admitted| == |ts|
    requires var fs := RunAll(c, Fresh, ts).admitted;
             Free(c, ts, fs, i) && JustDispatched(ts, fs, i, ts[i]) + 1 >= c.limit
    requires ts[k] < ts[i] + c.blockSeconds * SECOND
    ensures !RunAll(c, Fresh, ts).admitted[i] && !RunAll(c, Fresh, ts).admitted[k]
  {
    Verdict(c, ts, i);
    Verdict(c, ts, k);
    assert Blocks(c, ts, RunAll(c, Fresh, ts).admitted, i);
  }

  lemma {:induction false} NothingRecent(ts: seq<int>, fs: seq<bool>, n: nat, w: int)
    requires |ts| == |fs| && n <= |ts| && forall j :: 0 <= j < n && fs[j] ==> ts[j] < w
    ensures Dispatched(ts, fs, n, w) == 0
  {
    if n > 0 { NothingRecent(ts, fs, n - 1, w); }
  }

  /** And the first reading after the block is admitted, unless the limit admits nothing at all. */
  lemma BlockEnds(c: Config, ts: seq<int>, i: nat, k: nat)
    requires ValidConfig(c) && c.limit > 1 && Monotone(ts) && i < k < |ts| && |RunAll(c, Fresh, ts).admitted| == |ts|
    requires Blocks(c, ts, RunAll(c, Fresh, ts).admitted, i)
    requires ts[k] >= ts[i] + c.blockSeconds * SECOND
    requires forall j :: i < j < k ==> ts[j] < ts[i] + c.blockSeconds * SECOND
    ensures RunAll(c, Fresh, ts).admitted[k]
  {
    var fs := RunAll(c, Fresh, ts).admitted;
    assert Free(c, ts, fs, i);
    forall j | i < j < k ensures !fs[j] && !Blocks(c, ts, fs, j) {
      Verdict(c, ts, j);
    }
    NothingRecent(ts, fs, k, ts[k] - SECOND + 1);
    Verdict(c, ts, k);
  }
}
