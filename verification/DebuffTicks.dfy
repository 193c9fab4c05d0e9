/** Each damage debuff by itself: how often it has ticked and what is left of it, over any frames. */
module DebuffTicks {
  import opened Wire
  import opened Geometry
  import opened Debuffs

  // What is left of a debuff after a time: the time since its last tick is the fraction of a second.
  function Left(d: Dot, time: real): seq<Dot>
  {
    if d.remaining <= time then []
    else [Dot(d.damagePerTick, d.remaining - time, d.elapsed + time - WholeTicks(d.elapsed + time) as real)]
  }

  function LeftOf(dots: seq<Dot>, time: real): seq<Dot>
  {
    if dots == [] then [] else Left(dots[0], time) + LeftOf(dots[1..], time)
  }

  // -------- One frame --------

  // The debuff d among the others, over one frame.
  datatype Frame = Frame(before: Dosed, ticked: Ticked, after: Dosed)

  function FrameOf(h: Health, before: seq<Dot>, d: Dot, after: seq<Dot>, dt: real): Frame
  {
    var b := AgeDots(h, before, dt);
    var t := Ticks(b.health, d.elapsed + dt, Trunc(d.damagePerTick));
    Frame(b, t, AgeDots(t.health, after, dt))
  }

  function Kept(d: Dot, f: Frame, dt: real): seq<Dot>
  {
    if d.remaining - dt <= 0.0 || f.ticked.health.dead then []
    else [Dot(d.damagePerTick, d.remaining - dt, f.ticked.elapsed)]
  }

  lemma {:induction false} AgeDotsConcat(h: Health, a: seq<Dot>, b: seq<Dot>, dt: real)
    ensures var x := AgeDots(h, a, dt);
            var y := AgeDots(x.health, b, dt);
            AgeDots(h, a + b, dt) == Dosed(y.health, x.dots + y.dots)
    decreases |a|
  {
    var y := AgeDots(AgeDots(h, a, dt).health, b, dt);
    if a == [] {
      assert a + b == b && [] + y.dots == y.dots;
    } else {
      assert (a + b)[1..] == a[1..] + b;
      var d := a[0];
      var t := Ticks(h, d.elapsed + dt, Trunc(d.damagePerTick));
      AgeDotsConcat(t.health, a[1..], b, dt);
      ConcatAssoc([Dot(d.damagePerTick, d.remaining - dt, t.elapsed)], AgeDots(t.health, a[1..], dt).dots, y.dots);
    }
  }

  lemma FrameAround(h: Health, before: seq<Dot>, d: Dot, after: seq<Dot>, dt: real)
    ensures var f := FrameOf(h, before, d, after, dt);
            AgeDots(h, before + ([d] + after), dt)
            == Dosed(f.after.health, f.before.dots + (Kept(d, f, dt) + f.after.dots))
  {
    var f := FrameOf(h, before, d, after, dt);
    AgeDotsConcat(h, before, [d] + after, dt);
    assert ([d] + after)[1..] == after;
    assert [] + f.after.dots == f.after.dots;
  }

  // -------- Any frames --------

  // How often the tick loop of d, among the others, has run.
  function TicksOf(h: Health, before: seq<Dot>, d: Dot, after: seq<Dot>, dts: seq<real>): nat
    decreases |dts|
  {
    if dts == [] then 0
    else
      var f := FrameOf(h, before, d, after, dts[0]);
      var kept := Kept(d, f, dts[0]);
      f.ticked.ticks
      + if kept == [] then 0 else TicksOf(f.after.health, f.before.dots, kept[0], f.after.dots, dts[1..])
  }

  // Who is alive after the frame was alive all through it.
  lemma AliveThrough(h: Health, before: seq<Dot>, d: Dot, after: seq<Dot>, dt: real)
    requires !FrameOf(h, before, d, after, dt).after.health.dead
    ensures var f := FrameOf(h, before, d, after, dt);
            !f.ticked.health.dead && !f.before.health.dead && !h.dead
  {
    var f := FrameOf(h, before, d, after, dt);
    if f.ticked.health.dead { DeadStayDead(f.ticked.health, after, dt); }
    if h.dead { DeadStayDead(h, before, dt); }
  }

  lemma RunningParts(before: seq<Dot>, d: Dot, after: seq<Dot>)
    requires Running(before + ([d] + after))
    ensures Running(before) && Running([d]) && Running(after)
    ensures d.damagePerTick > 0.0 && d.remaining > 0.0 && 0.0 <= d.elapsed < TICK
  {
    var all := before + ([d] + after);
    assert d == all[|before|];
    assert forall i :: 0 <= i < |before| ==> before[i] == all[i];
    assert forall i :: 0 <= i < |after| ==> after[i] == all[|before| + 1 + i];
  }

  lemma {:induction false} FrameLeaves(h: Health, dots: seq<Dot>, dt: real)
    requires Running(dots) && dt >= 0.0 && !AgeDots(h, dots, dt).health.dead && !h.dead
    ensures AgeDots(h, dots, dt).dots == LeftOf(dots, dt)
    decreases |dots|
  {
    if dots != [] {
      var d := dots[0];
      var t := Ticks(h, d.elapsed + dt, Trunc(d.damagePerTick));
      TicksAre(h, d.elapsed + dt, Trunc(d.damagePerTick));
      if t.health.dead { DeadStayDead(t.health, dots[1..], dt); }
      FrameLeaves(t.health, dots[1..], dt);
      assert [] + LeftOf(dots[1..], dt) == LeftOf(dots[1..], dt);
    }
  }

  lemma LeftTwice(d: Dot, a: real, b: real)
    requires Running([d]) && a >= 0.0 && b >= 0.0
    ensures LeftOf(Left(d, a), b) == Left(d, a + b)
  {
    assert d == [d][0];
    if d.remaining > a {
      var l := Left(d, a);
      TicksAdd(d.elapsed + a, b);
      assert l[1..] == [] && LeftOf(l, b) == Left(l[0], b) + [];
    }
  }

  lemma {:induction false} LeftOfConcat(a: seq<Dot>, b: seq<Dot>, time: real)
    ensures LeftOf(a + b, time) == LeftOf(a, time) + LeftOf(b, time)
    decreases |a|
  {
    if a == [] {
      assert a + b == b && [] + LeftOf(b, time) == LeftOf(b, time);
    } else {
      assert (a + b)[1..] == a[1..] + b;
      LeftOfConcat(a[1..], b, time);
      ConcatAssoc(Left(a[0], time), LeftOf(a[1..], time), LeftOf(b, time));
    }
  }

  lemma {:induction false} LeftOfTwice(dots: seq<Dot>, a: real, b: real)
    requires Running(dots) && a >= 0.0 && b >= 0.0
    ensures LeftOf(LeftOf(dots, a), b) == LeftOf(dots, a + b)
    decreases |dots|
  {
    if dots != [] {
      LeftOfTwice(dots[1..], a, b);
      LeftOfConcat(Left(dots[0], a), LeftOf(dots[1..], a), b);
      assert [dots[0]][0] == dots[0];
      LeftTwice(dots[0], a, b);
    }
  }

  lemma {:induction false} LeftAtOnce(dots: seq<Dot>)
    requires Running(dots)
    ensures LeftOf(dots, 0.0) == dots
    decreases |dots|
  {
    if dots != [] {
      LeftAtOnce(dots[1..]);
      HeadTail(dots);
      assert WholeTicks(dots[0].elapsed + 0.0) == 0;
    }
  }

  lemma {:induction false} LeftStayRunning(dots: seq<Dot>, time: real)
    requires Running(dots) && time >= 0.0
    ensures Running(LeftOf(dots, time))
    decreases |dots|
  {
    if dots != [] { LeftStayRunning(dots[1..], time); }
  }

  // Alive after the frames, so alive before and after the first of them.
  lemma FirstAlive(h: Health, dots: seq<Dot>, dts: seq<real>) returns (r: Dosed)
    requires Running(dots) && Forward(dts) && dts != [] && !AgeDotsBy(h, dots, dts).health.dead
    ensures r == AgeDots(h, dots, dts[0]) && !h.dead && !r.health.dead
    ensures r.dots == LeftOf(dots, dts[0]) && Running(r.dots)
    ensures AgeDotsBy(r.health, r.dots, dts[1..]) == AgeDotsBy(h, dots, dts)
  {
    r := AgeDots(h, dots, dts[0]);
    if r.health.dead { DeadForGood(r.health, r.dots, dts[1..]); }
    if h.dead { DeadStayDead(h, dots, dts[0]); }
    FrameLeaves(h, dots, dts[0]);
    LeftStayRunning(dots, dts[0]);
  }

  /** For an enemy alive after any frames, exactly the debuffs that last longer than the total time are left,
      each with that time taken off, and with the fraction of a second since its last whole tick. */
  lemma {:induction false} DebuffsLeft(h: Health, dots: seq<Dot>, dts: seq<real>)
    requires Running(dots) && Forward(dts) && !AgeDotsBy(h, dots, dts).health.dead
    ensures AgeDotsBy(h, dots, dts).dots == LeftOf(dots, Sum(dts))
    ensures Running(LeftOf(dots, Sum(dts))) && !h.dead
    decreases |dts|
  {
    if dts == [] {
      LeftAtOnce(dots);
    } else {
      var r := FirstAlive(h, dots, dts);
      DebuffsLeft(r.health, r.dots, dts[1..]);
      LeftOfSum(dots, dts);
    }
  }

  lemma LeftOfSum(dots: seq<Dot>, dts: seq<real>)
    requires Running(dots) && Forward(dts) && dts != []
    ensures LeftOf(LeftOf(dots, dts[0]), Sum(dts[1..])) == LeftOf(dots, Sum(dts))
  {
    SumNonNegative(dts[1..]);
    LeftOfTwice(dots, dts[0], Sum(dts[1..]));
  }

  // Alive after the frames, so alive after the first of them.
  lemma FirstFrame(h: Health, before: seq<Dot>, d: Dot, after: seq<Dot>, dts: seq<real>)
    requires dts != [] && !AgeDotsBy(h, before + ([d] + after), dts).health.dead
    ensures var f := FrameOf(h, before, d, after, dts[0]);
            && !f.after.health.dead && !f.ticked.health.dead && !f.before.health.dead && !h.dead
            && !AgeDotsBy(f.after.health, f.before.dots + (Kept(d, f, dts[0]) + f.after.dots), dts[1..]).health.dead
  {
    var f := FrameOf(h, before, d, after, dts[0]);
    FrameAround(h, before, d, after, dts[0]);
    var r := AgeDots(h, before + ([d] + after), dts[0]);
    if r.health.dead { DeadForGood(r.health, r.dots, dts[1..]); }
    AliveThrough(h, before, d, after, dts[0]);
  }

  lemma FrameStaysRunning(h: Health, before: seq<Dot>, d: Dot, after: seq<Dot>, dts: seq<real>)
    requires Running(before + ([d] + after)) && Forward(dts)
    requires dts != [] && !AgeDotsBy(h, before + ([d] + after), dts).health.dead
    ensures var f := FrameOf(h, before, d, after, dts[0]);
            Running(f.before.dots + (Kept(d, f, dts[0]) + f.after.dots))
  {
    FirstFrame(h, before, d, after, dts);
    FrameAround(h, before, d, after, dts[0]);
    FrameLeaves(h, before + ([d] + after), dts[0]);
    LeftStayRunning(before + ([d] + after), dts[0]);
  }

  /** And each of its debuffs, whatever the others, has ticked once per whole second of its lifetime, which
      is the total time or, once it is over, the first running total of the frames to reach its duration. */
  lemma {:induction false} DebuffTicks(h: Health, before: seq<Dot>, d: Dot, after: seq<Dot>, dts: seq<real>)
    requires Running(before + ([d] + after)) && Forward(dts)
    requires !AgeDotsBy(h, before + ([d] + after), dts).health.dead
    ensures TicksOf(h, before, d, after, dts) == WholeTicks(d.elapsed + Lifetime(d.remaining, dts))
    decreases |dts|
  {
    RunningParts(before, d, after);
    if dts != [] {
      var f := FrameOf(h, before, d, after, dts[0]);
      FirstFrame(h, before, d, after, dts);
      TicksAre(f.before.health, d.elapsed + dts[0], Trunc(d.damagePerTick));
      OneDebuff(d, dts, f.ticked);
      if d.remaining - dts[0] > 0.0 {
        FrameStaysRunning(h, before, d, after, dts);
        DebuffTicks(f.after.health, f.before.dots, Kept(d, f, dts[0])[0], f.after.dots, dts[1..]);
      }
    }
  }

  /** The lifetime of a debuff that is not over yet is the total time. */
  lemma {:induction false} LifetimeSoFar(duration: real, dts: seq<real>)
    requires Forward(dts) && Sum(dts) < duration
    ensures Lifetime(duration, dts) == Sum(dts)
    decreases |dts|
  {
    if dts != [] {
      SumNonNegative(dts[1..]);
      LifetimeSoFar(duration - dts[0], dts[1..]);
    }
  }

  /** That of one that is over is the first running total to reach its duration. */
  lemma {:induction false} LifetimeIsFirst(duration: real, dts: seq<real>) returns (k: nat)
    requires Forward(dts) && 0.0 < duration <= Sum(dts)
    ensures 0 < k <= |dts| && Lifetime(duration, dts) == Sum(dts[..k]) >= duration
    ensures forall j :: 0 <= j < k ==> Sum(dts[..j]) < duration
    decreases |dts|
  {
    if dts[0] >= duration {
      k := 1;
      assert dts[..1][1..] == [];
    } else {
      k := LifetimeIsFirst(duration - dts[0], dts[1..]);
      k := k + 1;
      assert dts[..k][1..] == dts[1..][..k - 1];
      forall j | 0 <= j < k ensures Sum(dts[..j]) < duration {
        if j > 0 { assert dts[..j][1..] == dts[1..][..j - 1]; }
      }
    }
  }

  /** So a debuff still running after any frames, on an enemy still alive, has ticked once per whole second,
      whatever the frames, and stands where it stood among those left. */
  lemma RunningDebuff(h: Health, before: seq<Dot>, d: Dot, after: seq<Dot>, dts: seq<real>)
    requires Running(before + ([d] + after)) && Forward(dts) && Sum(dts) < d.remaining
    requires !AgeDotsBy(h, before + ([d] + after), dts).health.dead
    ensures AgeDotsBy(h, before + ([d] + after), dts).dots
            == LeftOf(before, Sum(dts)) + (Left(d, Sum(dts)) + LeftOf(after, Sum(dts)))
    ensures var time, ticks := Sum(dts), TicksOf(h, before, d, after, dts);
            && Left(d, time) == [Dot(d.damagePerTick, d.remaining - time, d.elapsed + time - ticks as real)]
            && ticks == (d.elapsed + time).Floor && 0.0 <= d.elapsed + time - ticks as real < TICK
  {
    RunningParts(before, d, after);
    SumNonNegative(dts);
    DebuffTicks(h, before, d, after, dts);
    LifetimeSoFar(d.remaining, dts);
    DebuffsLeft(h, before + ([d] + after), dts);
    LeftAround(before, d, after, Sum(dts));
    LeftRunning(d, Sum(dts), TicksOf(h, before, d, after, dts));
  }

  lemma LeftAround(before: seq<Dot>, d: Dot, after: seq<Dot>, time: real)
    ensures LeftOf(before + ([d] + after), time) == LeftOf(before, time) + (Left(d, time) + LeftOf(after, time))
  {
    LeftOfConcat(before, [d] + after, time);
    assert ([d] + after)[1..] == after;
  }

  lemma LeftRunning(d: Dot, time: real, ticks: nat)
    requires 0.0 <= d.elapsed && 0.0 <= time < d.remaining && ticks == WholeTicks(d.elapsed + time)
    ensures Left(d, time) == [Dot(d.damagePerTick, d.remaining - time, d.elapsed + time - ticks as real)]
    ensures ticks == (d.elapsed + time).Floor && 0.0 <= d.elapsed + time - ticks as real < TICK
  {
  }
}
