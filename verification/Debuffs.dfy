/** Slow, stun and damage-over-time debuffs, as time passes in steps of any size. */
module Debuffs {
  import opened Wire
  import opened Geometry

  datatype Slow = Slow(percent: real, remaining: real)
  datatype Dot = Dot(damagePerTick: real, remaining: real, elapsed: real)
  datatype Health = Health(hp: int, dead: bool)
  datatype Stun = Stun(on: bool, duration: real)

  const TICK := 1.0

  function Max(a: real, b: real): real { if a < b then b else a }

  function Sum(dts: seq<real>): real
  {
    if dts == [] then 0.0 else dts[0] + Sum(dts[1..])
  }

  // -------- Slows --------

  function AgeSlows(slows: seq<Slow>, dt: real): seq<Slow>
  {
    if slows == [] then []
    else
      var s := slows[0].(remaining := slows[0].remaining - dt);
      (if s.remaining <= 0.0 then [] else [s]) + AgeSlows(slows[1..], dt)
  }

  function Ratio(s: Slow): (r: real)
    ensures r >= 0.0
    ensures s.percent > 0.0 ==> r < 1.0
  {
    Max(0.0, 1.0 - s.percent / 100.0)
  }

  function Multiplier(slows: seq<Slow>): real
  {
    if slows == [] then 1.0 else Multiplier(slows[..|slows| - 1]) * Ratio(slows[|slows| - 1])
  }

  // RecalculateSlowPercent, from the product its loop accumulates.
  function SlowPercent(multiplier: real): real
  {
    var p := (1.0 - multiplier) * 100.0;
    if p < 0.0 then 0.0 else if p > 100.0 then 100.0 else p
  }

  function SpeedMultiplier(slowPercent: real): real
  {
    Max(0.0, 1.0 - slowPercent / 100.0)
  }

  ghost predicate Positive(slows: seq<Slow>)
  {
    forall i :: 0 <= i < |slows| ==> slows[i].percent > 0.0 && slows[i].remaining > 0.0
  }

  lemma {:induction false} MultiplierRange(slows: seq<Slow>)
    requires Positive(slows)
    ensures 0.0 <= Multiplier(slows) <= 1.0
    decreases |slows|
  {
    if slows != [] {
      var n := |slows| - 1;
      MultiplierRange(slows[..n]);
      var m, r := Multiplier(slows[..n]), Ratio(slows[n]);
      var mr := Product(m, r);
      var slack := Product(m, 1.0 - r);
      assert mr + slack == m;
    }
  }

  /** The speed an enemy moves at is the product of its slows' ratios: the percentage in between loses nothing. */
  lemma SpeedIsProduct(slows: seq<Slow>)
    requires Positive(slows)
    ensures SpeedMultiplier(SlowPercent(Multiplier(slows))) == Multiplier(slows)
    ensures 0.0 <= Multiplier(slows) <= 1.0
  {
    MultiplierRange(slows);
  }

  lemma MultiplierSnoc(slows: seq<Slow>, x: Slow)
    ensures Multiplier(slows + [x]) == Multiplier(slows) * Ratio(x)
  {
    assert (slows + [x])[..|slows|] == slows;
  }

  lemma {:induction false} MultiplierTakesOut(a: seq<Slow>, x: Slow, b: seq<Slow>)
    ensures Multiplier(a + [x] + b) == Multiplier(a + b) * Ratio(x)
    decreases |b|
  {
    if b == [] {
      assert a + [x] + b == a + [x] && a + b == a;
      MultiplierSnoc(a, x);
    } else {
      var n := |b| - 1;
      var b', y := b[..n], b[n];
      assert a + [x] + b == (a + [x] + b') + [y] && a + b == (a + b') + [y];
      MultiplierTakesOut(a, x, b');
      MultiplierSnoc(a + [x] + b', y);
      MultiplierSnoc(a + b', y);
      Swap(Multiplier(a + b'), Ratio(x), Ratio(y));
    }
  }

  lemma Swap(a: real, b: real, c: real)
    ensures a * b * c == a * c * b
  {
  }

  lemma CancelOne(a: seq<Slow>, x: Slow, l: seq<Slow>, r: seq<Slow>)
    requires multiset(a + [x]) == multiset(l + [x] + r)
    ensures multiset(a) == multiset(l + r)
  {
    assert multiset(a + [x]) == multiset(a) + multiset{x};
    assert multiset(l + [x] + r) == multiset(l + r) + multiset{x};
    forall y ensures multiset(a)[y] == multiset(l + r)[y] {
      assert (multiset(a) + multiset{x})[y] == (multiset(l + r) + multiset{x})[y];
    }
  }

  lemma SplitOut(s: seq<Slow>, x: Slow) returns (l: seq<Slow>, r: seq<Slow>)
    requires x in s
    ensures s == l + [x] + r
  {
    var i :| 0 <= i < |s| && s[i] == x;
    l, r := s[..i], s[i + 1..];
  }

  // The last of a, found in b, and what is left of both.
  lemma TakeOut(a: seq<Slow>, b: seq<Slow>) returns (a': seq<Slow>, x: Slow, l: seq<Slow>, r: seq<Slow>)
    requires multiset(a) == multiset(b) && a != []
    ensures a == a' + [x] && b == l + [x] + r && |a'| < |a|
    ensures multiset(a') == multiset(l + r)
  {
    var n := |a| - 1;
    a', x := a[..n], a[n];
    SplitAt(a, n);
    assert x in multiset(a);
    l, r := SplitOut(b, x);
    CancelOne(a', x, l, r);
  }

  lemma EmptyToo(b: seq<Slow>)
    requires multiset(b) == multiset{}
    ensures b == []
  {
    assert |multiset(b)| == |b|;
  }

  /** The order in which slows were applied does not matter. */
  lemma {:induction false} OrderIrrelevant(a: seq<Slow>, b: seq<Slow>)
    requires multiset(a) == multiset(b)
    ensures Multiplier(a) == Multiplier(b)
    decreases |a|
  {
    if a == [] {
      EmptyToo(b);
    } else {
      var a', x, l, r := TakeOut(a, b);
      OrderIrrelevant(a', l + r);
      SameWithOneMore(a', x, l, r);
    }
  }

  lemma SameWithOneMore(a: seq<Slow>, x: Slow, l: seq<Slow>, r: seq<Slow>)
    requires Multiplier(a) == Multiplier(l + r)
    ensures Multiplier(a + [x]) == Multiplier(l + [x] + r)
  {
    MultiplierSnoc(a, x);
    MultiplierTakesOut(l, x, r);
  }

  lemma AgeSlowsCons(s: Slow, rest: seq<Slow>, dt: real)
    ensures AgeSlows([s] + rest, dt)
         == (if s.remaining - dt <= 0.0 then [] else [s.(remaining := s.remaining - dt)]) + AgeSlows(rest, dt)
  {
    assert ([s] + rest)[1..] == rest;
  }

  /** Time passing in two steps or in one leaves the same slows. */
  lemma {:induction false} SlowsAgeTogether(slows: seq<Slow>, a: real, b: real)
    requires a >= 0.0 && b >= 0.0
    ensures AgeSlows(AgeSlows(slows, a), b) == AgeSlows(slows, a + b)
  {
    if slows != [] {
      SlowsAgeTogether(slows[1..], a, b);
      var s := slows[0].(remaining := slows[0].remaining - a);
      var rest := AgeSlows(slows[1..], a);
      AgeSlowsCons(s, rest, b);
      assert [] + rest == rest;
      assert s.remaining - b == slows[0].remaining - (a + b);
      assert [] + AgeSlows(rest, b) == AgeSlows(rest, b);
    }
  }

  lemma {:induction false} SlowsAgeNot(slows: seq<Slow>)
    requires Positive(slows)
    ensures AgeSlows(slows, 0.0) == slows
  {
    if slows != [] { SlowsAgeNot(slows[1..]); }
  }

  function AgeSlowsBy(slows: seq<Slow>, dts: seq<real>): seq<Slow>
    decreases |dts|
  {
    if dts == [] then slows else AgeSlowsBy(AgeSlows(slows, dts[0]), dts[1..])
  }

  lemma {:induction false} SumNonNegative(dts: seq<real>)
    requires forall i :: 0 <= i < |dts| ==> dts[i] >= 0.0
    ensures Sum(dts) >= 0.0
  {
    if dts != [] { SumNonNegative(dts[1..]); }
  }

  lemma {:induction false} AgedStayPositive(slows: seq<Slow>, dt: real)
    requires Positive(slows)
    ensures Positive(AgeSlows(slows, dt))
  {
    if slows != [] { AgedStayPositive(slows[1..], dt); }
  }

  /** Over any frames the slows left are those lasting longer than the time passed, whatever the frames. */
  lemma {:induction false} SlowsFrameIndependent(slows: seq<Slow>, dts: seq<real>)
    requires Positive(slows) && forall i :: 0 <= i < |dts| ==> dts[i] >= 0.0
    ensures AgeSlowsBy(slows, dts) == AgeSlows(slows, Sum(dts))
    decreases |dts|
  {
    if dts == [] {
      SlowsAgeNot(slows);
    } else {
      AgedStayPositive(slows, dts[0]);
      SlowsFrameIndependent(AgeSlows(slows, dts[0]), dts[1..]);
      SumNonNegative(dts[1..]);
      SlowsAgeTogether(slows, dts[0], Sum(dts[1..]));
    }
  }

  // -------- Stun --------

  function AgeStun(s: Stun, dt: real): Stun
  {
    if !s.on then s
    else if s.duration - dt <= 0.0 then Stun(false, 0.0)
    else Stun(true, s.duration - dt)
  }

  // -------- Damage over time --------

  function TakeDamage(h: Health, damage: int): Health
  {
    if h.dead then h else Health(h.hp - damage, h.hp - damage <= 0)
  }

  datatype Ticked = Ticked(health: Health, elapsed: real, ticks: nat)

  // The tick loop of one debuff: it stops at the tick that kills.
  function Ticks(h: Health, elapsed: real, damage: int): Ticked
    decreases elapsed.Floor
  {
    if elapsed < TICK || h.dead then Ticked(h, elapsed, 0)
    else
      assert (elapsed - TICK).Floor < elapsed.Floor;
      var t := Ticks(TakeDamage(h, damage), elapsed - TICK, damage);
      t.(ticks := t.ticks + 1)
  }

  datatype Dosed = Dosed(health: Health, dots: seq<Dot>)

  function AgeDots(h: Health, dots: seq<Dot>, dt: real): Dosed
    decreases |dots|
  {
    if dots == [] then Dosed(h, [])
    else
      var d := dots[0];
      var t := Ticks(h, d.elapsed + dt, Trunc(d.damagePerTick));
      var rest := AgeDots(t.health, dots[1..], dt);
      if d.remaining - dt <= 0.0 || t.health.dead then rest
      else rest.(dots := [Dot(d.damagePerTick, d.remaining - dt, t.elapsed)] + rest.dots)
  }

  function AgeDotsBy(h: Health, dots: seq<Dot>, dts: seq<real>): Dosed
    decreases |dts|
  {
    if dts == [] then Dosed(h, dots)
    else
      var first := AgeDots(h, dots, dts[0]);
      AgeDotsBy(first.health, first.dots, dts[1..])
  }

  // -------- What a debuff does in all --------

  // The first of the running totals to reach `duration`, or their last.
  function Lifetime(duration: real, dts: seq<real>): real
    decreases |dts|
  {
    if dts == [] then 0.0
    else if dts[0] >= duration then dts[0]
    else dts[0] + Lifetime(duration - dts[0], dts[1..])
  }

  function WholeTicks(elapsed: real): nat
  {
    if elapsed < 0.0 then 0 else elapsed.Floor
  }

  // Damage owed by the debuffs over the frames to come.
  function Owed(dots: seq<Dot>, dts: seq<real>): int
    decreases |dots|
  {
    if dots == [] then 0
    else WholeTicks(dots[0].elapsed + Lifetime(dots[0].remaining, dts)) * Trunc(dots[0].damagePerTick)
         + Owed(dots[1..], dts)
  }

  ghost predicate Running(dots: seq<Dot>)
  {
    forall i :: 0 <= i < |dots| ==>
      dots[i].damagePerTick > 0.0 && dots[i].remaining > 0.0 && 0.0 <= dots[i].elapsed < TICK
  }

  ghost predicate Forward(dts: seq<real>)
  {
    forall i :: 0 <= i < |dts| ==> dts[i] >= 0.0
  }

  lemma {:induction false} TicksAre(h: Health, elapsed: real, damage: int)
    requires !h.dead && elapsed >= 0.0 && damage >= 0
    ensures var t := Ticks(h, elapsed, damage);
            && t.health.hp == h.hp - t.ticks * damage
            && t.elapsed == elapsed - t.ticks as real >= 0.0
            && t.ticks <= WholeTicks(elapsed)
            && (if t.health.dead then t.health.hp <= 0 && t.ticks > 0 else t.ticks == WholeTicks(elapsed) && t.elapsed < TICK)
    decreases elapsed.Floor
  {
    if elapsed >= TICK {
      assert (elapsed - TICK).Floor == elapsed.Floor - 1;
      var h' := TakeDamage(h, damage);
      if h'.dead {
        assert Ticks(h', elapsed - TICK, damage).ticks == 0;
      } else {
        TicksAre(h', elapsed - TICK, damage);
        OneMore(Ticks(h', elapsed - TICK, damage).ticks, damage);
      }
    }
  }

  lemma OneMore(n: nat, damage: int)
    ensures (n + 1) * damage == n * damage + damage
  {
  }

  lemma TimesMore(n: nat, m: nat, damage: nat)
    requires n <= m
    ensures n * damage <= m * damage
  {
  }

  // Ticks so far and ticks later are the ticks of the whole time.
  lemma TicksAdd(elapsed: real, more: real)
    requires elapsed >= 0.0 && more >= 0.0
    ensures WholeTicks(elapsed) + WholeTicks(elapsed - WholeTicks(elapsed) as real + more) == WholeTicks(elapsed + more)
  {
  }

  lemma {:induction false} LifetimeForward(duration: real, dts: seq<real>)
    requires Forward(dts)
    ensures Lifetime(duration, dts) >= 0.0
    decreases |dts|
  {
    if dts != [] && dts[0] < duration { LifetimeForward(duration - dts[0], dts[1..]); }
  }

  lemma {:induction false} OwedNonNegative(dots: seq<Dot>, dts: seq<real>)
    requires Running(dots)
    ensures Owed(dots, dts) >= 0
    decreases |dots|
  {
    if dots != [] {
      OwedNonNegative(dots[1..], dts);
      TimesMore(0, WholeTicks(dots[0].elapsed + Lifetime(dots[0].remaining, dts)), Trunc(dots[0].damagePerTick));
    }
  }

  // One debuff over one frame: what it owes is what it ticks now and what it still owes after.
  lemma OneDebuff(d: Dot, dts: seq<real>, t: Ticked)
    requires dts != [] && Forward(dts) && d.elapsed >= 0.0
    requires t.ticks == WholeTicks(d.elapsed + dts[0]) && t.elapsed == d.elapsed + dts[0] - t.ticks as real
    ensures var all := WholeTicks(d.elapsed + Lifetime(d.remaining, dts));
            if d.remaining - dts[0] <= 0.0 then all == t.ticks
            else all == t.ticks + WholeTicks(t.elapsed + Lifetime(d.remaining - dts[0], dts[1..]))
  {
    if d.remaining > dts[0] {
      var more := Lifetime(d.remaining - dts[0], dts[1..]);
      LifetimeForward(d.remaining - dts[0], dts[1..]);
      TicksAdd(d.elapsed + dts[0], more);
      assert d.elapsed + Lifetime(d.remaining, dts) == d.elapsed + dts[0] + more;
    }
  }

  lemma {:induction false} DeadStayDead(h: Health, dots: seq<Dot>, dt: real)
    requires h.dead
    ensures AgeDots(h, dots, dt).health == h
    decreases |dots|
  {
    if dots != [] { DeadStayDead(h, dots[1..], dt); }
  }

  lemma FatalFrame(h: Health, d: Dot, dts: seq<real>, all: nat)
    requires !h.dead && Running([d]) && dts != [] && Forward(dts)
    requires Ticks(h, d.elapsed + dts[0], Trunc(d.damagePerTick)).health.dead
    requires all == WholeTicks(d.elapsed + Lifetime(d.remaining, dts))
    ensures all * Trunc(d.damagePerTick) >= h.hp
  {
    var due, damage := WholeTicks(d.elapsed + dts[0]), Trunc(d.damagePerTick);
    assert d == [d][0];
    TicksAre(h, d.elapsed + dts[0], damage);
    OneDebuff(d, dts, Ticked(h, d.elapsed + dts[0] - due as real, due));
    TimesMore(Ticks(h, d.elapsed + dts[0], damage).ticks, all, damage);
  }

  /** One frame: either everybody's ticks so far leave the enemy alive, with the debt reduced by exactly the
      health lost, or the debt was fatal. */
  lemma {:induction false} FrameSettles(h: Health, dots: seq<Dot>, dts: seq<real>)
    requires !h.dead && Running(dots) && dts != [] && Forward(dts)
    ensures var r := AgeDots(h, dots, dts[0]);
            if r.health.dead then Owed(dots, dts) >= h.hp
            else Running(r.dots) && h.hp - r.health.hp == Owed(dots, dts) - Owed(r.dots, dts[1..])
    decreases |dots|
  {
    if dots != [] {
      var d, dt := dots[0], dts[0];
      var damage := Trunc(d.damagePerTick);
      var t := Ticks(h, d.elapsed + dt, damage);
      TicksAre(h, d.elapsed + dt, damage);
      OwedNonNegative(dots[1..], dts);
      var all := WholeTicks(d.elapsed + Lifetime(d.remaining, dts));
      if t.health.dead {
        DeadStayDead(t.health, dots[1..], dt);
        FatalFrame(h, d, dts, all);
      } else {
        OneDebuff(d, dts, t);
        FrameSettles(t.health, dots[1..], dts);
        FrameArithmetic(t, all, damage);
        if d.remaining - dt > 0.0 {
          var rest := AgeDots(t.health, dots[1..], dt).dots;
          assert ([Dot(d.damagePerTick, d.remaining - dt, t.elapsed)] + rest)[1..] == rest;
        }
      }
    }
  }

  lemma FrameArithmetic(t: Ticked, all: nat, damage: nat)
    requires t.ticks <= all
    ensures all * damage == t.ticks * damage + (all - t.ticks) * damage
    ensures all * damage >= t.ticks * damage
  {
  }

  /** Over any frames: an enemy survives its debuffs exactly if what they owe is less than its health, and
      then it has lost exactly that. What one owes is the whole ticks in its lifetime, the first running
      total of the frames to reach its duration. */
  lemma {:induction false} DebuffsSettle(h: Health, dots: seq<Dot>, dts: seq<real>)
    requires !h.dead && h.hp > 0 && Running(dots) && Forward(dts)
    ensures var r := AgeDotsBy(h, dots, dts).health;
            && (r.dead <==> Owed(dots, dts) >= h.hp)
            && (!r.dead ==> r.hp == h.hp - Owed(dots, dts))
    decreases |dts|
  {
    if dts == [] {
      NothingOwedYet(dots);
    } else {
      FrameSettles(h, dots, dts);
      var r := AgeDots(h, dots, dts[0]);
      if r.health.dead {
        DeadForGood(r.health, r.dots, dts[1..]);
      } else {
        LivePositive(h, dots, dts[0]);
        DebuffsSettle(r.health, r.dots, dts[1..]);
      }
    }
  }

  lemma {:induction false} NothingOwedYet(dots: seq<Dot>)
    requires Running(dots)
    ensures Owed(dots, []) == 0
    decreases |dots|
  {
    if dots != [] { NothingOwedYet(dots[1..]); }
  }

  lemma {:induction false} DeadForGood(h: Health, dots: seq<Dot>, dts: seq<real>)
    requires h.dead
    ensures AgeDotsBy(h, dots, dts).health == h
    decreases |dts|
  {
    if dts != [] {
      DeadStayDead(h, dots, dts[0]);
      DeadForGood(h, AgeDots(h, dots, dts[0]).dots, dts[1..]);
    }
  }

  lemma {:induction false} LivePositive(h: Health, dots: seq<Dot>, dt: real)
    requires h.hp > 0 || h.dead
    ensures AgeDots(h, dots, dt).health.hp > 0 || AgeDots(h, dots, dt).health.dead
    decreases |dots|
  {
    if dots != [] {
      TicksLive(h, dots[0].elapsed + dt, Trunc(dots[0].damagePerTick));
      LivePositive(Ticks(h, dots[0].elapsed + dt, Trunc(dots[0].damagePerTick)).health, dots[1..], dt);
    }
  }

  lemma {:induction false} TicksLive(h: Health, elapsed: real, damage: int)
    requires h.hp > 0 || h.dead
    ensures Ticks(h, elapsed, damage).health.hp > 0 || Ticks(h, elapsed, damage).health.dead
    decreases elapsed.Floor
  {
    if elapsed >= TICK && !h.dead {
      assert (elapsed - TICK).Floor < elapsed.Floor;
      TicksLive(TakeDamage(h, damage), elapsed - TICK, damage);
    }
  }
}
