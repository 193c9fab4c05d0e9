/** Session: the receive side. Framing and rate limiting meet in one loop over the receive buffer. */
module Sessions {
  import opened Wire
  import opened Framing
  import opened ReceiveBuffers
  import RateLimiter

  // The packets whose flag is set, in order.
  function Select(ps: seq<Packet>, flags: seq<bool>): seq<Packet>
    requires |ps| == |flags|
  {
    if ps == [] then []
    else
      var n := |ps| - 1;
      Select(ps[..n], flags[..n]) + (if flags[n] then [ps[n]] else [])
  }

  // The first n readings of a clock.
  ghost function Readings(clock: nat -> int, n: nat): (ts: seq<int>)
    ensures |ts| == n && forall i :: 0 <= i < n ==> ts[i] == clock(i)
  {
    seq(n, i requires 0 <= i < n => clock(i))
  }

  lemma SelectSnoc(ps: seq<Packet>, flags: seq<bool>, p: Packet, flag: bool)
    requires |ps| == |flags|
    ensures Select(ps + [p], flags + [flag]) == Select(ps, flags) + (if flag then [p] else [])
  {
    assert (ps + [p])[..|ps|] == ps && (flags + [flag])[..|ps|] == flags;
  }

  lemma RunSnoc(c: RateLimiter.Config, clock: nat -> int, n: nat)
    ensures RateLimiter.RunAll(c, RateLimiter.Fresh, Readings(clock, n + 1))
         == RateLimiter.Decide(c, RateLimiter.RunAll(c, RateLimiter.Fresh, Readings(clock, n)), clock(n))
  {
    assert Readings(clock, n + 1)[..n] == Readings(clock, n);
  }

  class Session {
    const config: RateLimiter.Config
    const known: set<uint16>
    const clock: nat -> int  // the k-th call of steady_clock::now()
    const receiveBuffer: ReceiveBuffer

    var packetTimestamps: seq<int>
    var blockedUntil: int
    var disconnected: bool
    var clockReads: nat

    // What the handlers were given, and what was framed before the limiter decided.
    var dispatched: seq<Packet>
    ghost var framed: seq<Packet>

    // The limiter's whole run is determined by the clock and the number of readings.
    ghost function Run(): RateLimiter.Run
      reads `clockReads
    {
      RateLimiter.RunAll(config, RateLimiter.Fresh, Readings(clock, clockReads))
    }

    ghost predicate Valid()
      reads this
    {
      && Run().limiter == RateLimiter.Limiter(packetTimestamps, blockedUntil)
      && |framed| == |Run().admitted| == clockReads
      && dispatched == Select(framed, Run().admitted)
    }

    constructor (config: RateLimiter.Config, known: set<uint16>, clock: nat -> int)
      ensures Valid() && fresh(receiveBuffer)
      ensures this.config == config && this.known == known && this.clock == clock
      ensures framed == [] && receiveBuffer.buffer == [] && !disconnected
    {
      this.config, this.known, this.clock := config, known, clock;
      receiveBuffer := new ReceiveBuffer();
      packetTimestamps, blockedUntil, disconnected := [], 0, false;
      clockReads, dispatched, framed := 0, [], [];
    }

    /** Consumes exactly the whole packets at the front of the buffer, disconnects exactly when framing
        breaks down, and (through Valid) dispatches exactly the framed packets the limiter admits. */
    method ProcessPackets()
      requires Valid() && !disconnected
      modifies this, receiveBuffer
      ensures Valid()
      ensures var e := Extract(old(receiveBuffer.buffer), known);
              && framed == old(framed) + e.packets
              && receiveBuffer.buffer == e.rest
              && disconnected == (e.stop != NeedMore)
    {
      ghost var all := Extract(receiveBuffer.buffer, known);
      while true
        invariant Valid() && !disconnected
        invariant var e := Extract(receiveBuffer.buffer, known);
                  && old(framed) + all.packets == framed + e.packets
                  && e.rest == all.rest && e.stop == all.stop
        decreases |receiveBuffer.buffer|
      {
        var buf := receiveBuffer.buffer;
        if |buf| < HEADER_SIZE { return; }
        var size := HeaderSize(buf);
        if size < HEADER_SIZE { disconnected := true; return; }
        if |buf| < size { return; }
        var packet := Packet(HeaderKind(buf), buf[HEADER_SIZE..size]);
        if packet.kind !in known { disconnected := true; return; }
        ConcatAssoc(framed, [packet], Extract(buf[size..], known).packets);
        Receive(packet);
        receiveBuffer.Remove(size);
      }
    }

    // One framed packet of a registered kind: read the clock, then drop, block or dispatch.
    method Receive(packet: Packet)
      requires Valid()
      modifies this`packetTimestamps, this`blockedUntil, this`clockReads, this`dispatched, this`framed
      ensures Valid() && framed == old(framed) + [packet]
    {
      ghost var run := Run();
      var now := clock(clockReads);
      RunSnoc(config, clock, clockReads);
      SelectSnoc(framed, run.admitted, packet, RateLimiter.Admit(config, run.limiter, now).admitted);
      clockReads, framed := clockReads + 1, framed + [packet];
      assert Run() == RateLimiter.Decide(config, run, now);
      if now < blockedUntil {
        return;
      }
      PruneTimestamps(now);
      packetTimestamps := packetTimestamps + [now];
      if |packetTimestamps| >= config.limit {
        blockedUntil := now + config.blockSeconds * RateLimiter.SECOND;
        packetTimestamps := [];
        return;
      }
      dispatched := dispatched + [packet];
    }

    method PruneTimestamps(now: int)
      modifies this`packetTimestamps
      ensures packetTimestamps == RateLimiter.Prune(old(packetTimestamps), now)
    {
      while packetTimestamps != [] && now - packetTimestamps[0] >= RateLimiter.SECOND
        invariant RateLimiter.Prune(packetTimestamps, now) == RateLimiter.Prune(old(packetTimestamps), now)
        decreases |packetTimestamps|
      {
        packetTimestamps := packetTimestamps[1..];
      }
    }

    /** The read callbacks of a connection: over any chunks, the session frames what Feed frames, so by
        ChunkingIrrelevant what the undivided stream contains, and no one-second window sees limit dispatches. */
    method ReadLoop(chunks: seq<seq<byte>>)
      requires Valid() && !disconnected && framed == [] && receiveBuffer.buffer == []
      modifies this, receiveBuffer
      ensures Valid()
      ensures framed == Extract(Flatten(chunks), known).packets
      ensures disconnected == (Extract(Flatten(chunks), known).stop != NeedMore)
      ensures dispatched == Select(framed, Run().admitted)
      ensures RateLimiter.ValidConfig(config) && RateLimiter.Monotone(Readings(clock, clockReads)) ==>
                forall w :: RateLimiter.CountIn(Run().history, w) <= config.limit - 1
    {
      ChunkingIrrelevant(chunks, known);
      ghost var fed := Empty;
      var i := 0;
      while i < |chunks| && !disconnected
        invariant 0 <= i <= |chunks|
        invariant Valid()
        invariant fed.packets == framed && disconnected == (fed.stop != NeedMore)
        invariant fed.stop == NeedMore ==> fed.rest == receiveBuffer.buffer
        invariant Feed(Empty, chunks, known) == Feed(fed, chunks[i..], known)
      {
        ghost var next := Extract(fed.rest + chunks[i], known);
        assert chunks[i..][1..] == chunks[i + 1..];
        fed := next.(packets := fed.packets + next.packets);
        receiveBuffer.Append(chunks[i]);
        ProcessPackets();
        i := i + 1;
      }
      if RateLimiter.ValidConfig(config) && RateLimiter.Monotone(Readings(clock, clockReads)) {
        forall w ensures RateLimiter.CountIn(Run().history, w) <= config.limit - 1 {
          RateLimiter.WindowBound(config, Readings(clock, clockReads), w);
        }
      }
    }
  }
}
