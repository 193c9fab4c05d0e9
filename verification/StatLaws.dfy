/** What a minion's current stat is worth, in terms of its base and of the buffs in force. */
module StatLaws {
  import opened Wire
  import opened Geometry
  import opened Debuffs
  import opened MinionStats

  // The percentages in force, the last one applied first.
  function Bonus(bs: seq<Lasting<real>>): real
    decreases |bs|
  {
    if bs == [] then 0.0 else bs[|bs| - 1].effect + Bonus(bs[..|bs| - 1])
  }

  lemma {:induction false} TotalSnoc(xs: seq<real>, x: real)
    ensures Total(xs + [x]) == Total(xs) + x
  {
    if xs == [] {
      assert [] + [x] == [x] && [x][1..] == [];
    } else {
      TotalSnoc(xs[1..], x);
      assert (xs + [x])[1..] == xs[1..] + [x];
    }
  }

  lemma {:induction false} TotalIsBonus(bs: seq<Lasting<real>>)
    ensures Total(Effects(bs)) == Bonus(bs)
    decreases |bs|
  {
    if bs == [] {
      assert Effects(bs) == [];
    } else {
      var n := |bs| - 1;
      TotalIsBonus(bs[..n]);
      TotalSnoc(Effects(bs[..n]), bs[n].effect);
      assert Effects(bs) == Effects(bs[..n]) + [bs[n].effect];
    }
  }

  // -------- Power --------

  // The power is x hundredths, cut off toward zero.
  ghost predicate Powered(power: int, x: real)
  {
    && (x >= 0.0 ==> 100.0 * power as real <= x < 100.0 * (power as real + 1.0))
    && (x <= 0.0 ==> 100.0 * (power as real - 1.0) < x <= 100.0 * power as real)
  }

  lemma Hundredths(p: real, t: real, x: real)
    requires x == p * (100.0 + t)
    ensures 100.0 * (p * (1.0 + t / 100.0)) == x
  {
    var share := 1.0 + t / 100.0;
    assert 100.0 * share == 100.0 + t;
    Pull(p, share, 100.0 + t);
  }

  lemma Pull(p: real, share: real, all: real)
    requires 100.0 * share == all
    ensures 100.0 * (p * share) == p * all
  {
  }

  lemma TruncCuts(y: real, x: real)
    requires x == 100.0 * y
    ensures Powered(Trunc(y), x)
  {
  }

  /** The current power is the base power with the sum of the bonuses in percent, cut off toward zero. */
  lemma PowerIsBoosted(s: Stat, x: real)
    requires x == s.base.power as real * (100.0 + Bonus(s.power))
    ensures Powered(Refreshed(s).current.power, x)
  {
    TotalIsBonus(s.power);
    Hundredths(s.base.power as real, Bonus(s.power), x);
    TruncCuts(s.base.power as real * (1.0 + Bonus(s.power) / 100.0), x);
  }

  // -------- Cooldown --------

  // The cooldown is the hundredth part of the base, `share` times over; at least 0.1, and without a share infinite.
  ghost predicate Cooled(c: Cooldown, base: real, share: real)
  {
    if share == 0.0 then c == if base > 0.0 then Never else Seconds(0.1)
    else
      && c.Seconds? && c.s >= 0.1
      && (c.s > 0.1 ==> c.s * share == 100.0 * base)
      && (c.s == 0.1 && share > 0.0 ==> 100.0 * base <= 0.1 * share)
      && (c.s == 0.1 && share < 0.0 ==> 100.0 * base >= 0.1 * share)
  }

  lemma Divided(base: real, share: real, q: real)
    requires share != 0.0 && q == base / (share / 100.0)
    ensures q * share == 100.0 * base
  {
    var rate := share / 100.0;
    assert q * rate == base;
    Pull(q, rate, share);
  }

  lemma AtMost(q: real, m: real, share: real, all: real)
    requires q * share == all && q <= m
    ensures share > 0.0 ==> all <= m * share
    ensures share < 0.0 ==> all >= m * share
  {
    var d := m - q;
    assert m * share - all == d * share;
    if share > 0.0 { var ds := Product(d, share); }
    if share < 0.0 { NegativeProduct(d, share); }
  }

  lemma NegativeProduct(d: real, share: real)
    requires d >= 0.0 && share < 0.0
    ensures d * share <= 0.0
  {
    var n := -share;
    var dn := Product(d, n);
    assert d * share == -(d * n);
  }

  lemma ShortenedIsCooled(base: real, t: real)
    ensures Cooled(Shortened(base, t), base, 100.0 + t)
  {
    var share := 100.0 + t;
    assert 1.0 + t / 100.0 == share / 100.0;
    if share != 0.0 {
      var q := base / (share / 100.0);
      Divided(base, share, q);
      if q <= 0.1 { AtMost(q, 0.1, share, 100.0 * base); }
    }
  }

  /** The current cooldown is the base one, divided by the rate that the sum of the speed bonuses gives. */
  lemma CooldownIsShortened(s: Stat)
    ensures Cooled(Refreshed(s).current.cooldown, s.base.cooldown, 100.0 + Bonus(s.speed))
  {
    TotalIsBonus(s.speed);
    ShortenedIsCooled(s.base.cooldown, Bonus(s.speed));
  }

  // -------- After any run --------

  // Everything the current stat says, read off the base and the buffs.
  ghost predicate Worth(s: Stat)
  {
    && Powered(s.current.power, s.base.power as real * (100.0 + Bonus(s.power)))
    && Cooled(s.current.cooldown, s.base.cooldown, 100.0 + Bonus(s.speed))
    && Plain(s)
  }

  // What buffs do not touch is the base's; the attack is the last change in force.
  ghost predicate Plain(s: Stat)
  {
    && s.current.range == s.base.range && s.current.skillMaxTargets == s.base.skillMaxTargets
    && s.current.maxAC == s.base.maxAC
    && s.current.spec == (if s.specs == [] then s.base.spec else s.specs[|s.specs| - 1].effect)
    && (s.custom <==> s.specs != [])
  }

  lemma RefreshedIsPlain(s: Stat)
    ensures Plain(Refreshed(s))
    ensures Refreshed(s) == s.(current := Refreshed(s).current, custom := Refreshed(s).custom)
  {
  }

  lemma SameWorth(s: Stat, r: Stat)
    requires r == s.(current := r.current, custom := r.custom) && Plain(r)
    requires Powered(r.current.power, s.base.power as real * (100.0 + Bonus(s.power)))
    requires Cooled(r.current.cooldown, s.base.cooldown, 100.0 + Bonus(s.speed))
    ensures Worth(r)
  {
  }

  /** A recalculation leaves the base and the buffs as they are, and makes the current stat worth what they say. */
  lemma RefreshedIsWorth(s: Stat)
    ensures Worth(Refreshed(s))
    ensures Refreshed(s) == s.(current := Refreshed(s).current, custom := Refreshed(s).custom)
  {
    PowerIsBoosted(s, s.base.power as real * (100.0 + Bonus(s.power)));
    CooldownIsShortened(s);
    RefreshedIsPlain(s);
    SameWorth(s, Refreshed(s));
  }

  /** So it is after every run of updates, upgrades, ended waves and buff skills. */
  lemma RunIsWorth(s: Stat, ops: seq<Op>)
    requires InStep(s)
    ensures Worth(DoAll(s, ops))
  {
    CacheNeverStale(s, ops);
    RefreshedIsWorth(DoAll(s, ops));
  }

  /** Without buffs it is the base stat, a cooldown below 0.1 excepted. */
  lemma UnbuffedIsBase(s: Stat)
    requires s.power == [] && s.speed == [] && s.specs == []
    ensures var c := Refreshed(s).current;
            && c.power == s.base.power && c.spec == s.base.spec
            && c.cooldown == Seconds(if s.base.cooldown < 0.1 then 0.1 else s.base.cooldown)
  {
    PowerIsBoosted(s, 100.0 * s.base.power as real);
    CooldownIsShortened(s);
  }

  /** The end of a wave takes every buff away, and with them what they gave. */
  lemma EndOfWaveStrips(s: Stat)
    ensures var r := Do(s, EndWave);
            && r.power == [] && r.speed == [] && r.targets == [] && r.specs == [] && !r.custom && r.base == s.base
            && r.current.power == s.base.power && r.current.spec == s.base.spec
            && r.current.cooldown == Seconds(if s.base.cooldown < 0.1 then 0.1 else s.base.cooldown)
  {
    UnbuffedIsBase(WithoutBuffs(s));
  }

  /** An upgrade of a minion without buffs shows at once, in one value: more power, range or targets, a shorter
      cooldown down to 0.1, a smaller attack count down to 1. */
  lemma UpgradeShows(s: Stat, id: int, amount: real)
    requires InStep(s) && s.power == [] && s.speed == [] && s.specs == [] && s.base.cooldown >= 0.1
    ensures var c, d := s.current, Upgraded(s, id, amount).current;
            && c.cooldown.Seconds?
            && (id == 2001 ==> d == c.(power := c.power + Trunc(amount)))
            && (id == 2002 ==>
                  d == c.(cooldown := if c.cooldown.s - amount < 0.1 then Seconds(0.1) else Seconds(c.cooldown.s - amount)))
            && (id == 2003 ==> d == c.(maxAC := if c.maxAC - Trunc(amount) < 1 then 1 else c.maxAC - Trunc(amount)))
            && (id == 2004 ==> d == c.(range := c.range + amount / 2.0))
            && (id == 2005 ==> d == c.(skillMaxTargets := c.skillMaxTargets + Trunc(amount)))
            && (!(2001 <= id <= 2005) ==> d == c)
    ensures Upgraded(s, id, amount).base.cooldown >= 0.1
  {
    var u := Upgraded(s, id, amount);
    UnbuffedIsBase(s);
    UnbuffedIsBase(u);
    RefreshedIsPlain(s);
    RefreshedIsPlain(u);
  }

  // -------- What a buff skill adds --------

  // The buffs of one kind, in order.
  function OfKind(buffs: seq<Buff>, id: int): seq<Lasting<real>>
  {
    if buffs == [] then [] else Effect(buffs[0], id) + OfKind(buffs[1..], id)
  }

  function Effect(b: Buff, id: int): seq<Lasting<real>>
  {
    if b.id == id then [Lasting(b.value, b.duration)] else []
  }

  // The attack changes that come with power buffs.
  function Changes(buffs: seq<Buff>): seq<Lasting<AttackSpec>>
  {
    if buffs == [] then [] else Change(buffs[0]) + Changes(buffs[1..])
  }

  function Change(b: Buff): seq<Lasting<AttackSpec>>
  {
    if b.id == 4003 && b.change.Some? then [Lasting(b.change.value, b.duration)] else []
  }

  lemma {:induction false} KindSnoc(buffs: seq<Buff>, b: Buff, id: int)
    ensures OfKind(buffs + [b], id) == OfKind(buffs, id) + Effect(b, id)
  {
    if buffs == [] {
      assert ([] + [b])[1..] == [] && Effect(b, id) + [] == [] + Effect(b, id);
    } else {
      assert (buffs + [b])[1..] == buffs[1..] + [b];
      KindSnoc(buffs[1..], b, id);
      ConcatAssoc(Effect(buffs[0], id), OfKind(buffs[1..], id), Effect(b, id));
    }
  }

  lemma {:induction false} ChangesSnoc(buffs: seq<Buff>, b: Buff)
    ensures Changes(buffs + [b]) == Changes(buffs) + Change(b)
  {
    if buffs == [] {
      assert ([] + [b])[1..] == [] && Change(b) + [] == [] + Change(b);
    } else {
      assert (buffs + [b])[1..] == buffs[1..] + [b];
      ChangesSnoc(buffs[1..], b);
      ConcatAssoc(Change(buffs[0]), Changes(buffs[1..]), Change(b));
    }
  }

  // What one buff adds.
  lemma BuffAdds(s: Stat, b: Buff)
    ensures Buffed(s, b) == s.(power := s.power + Effect(b, 4003), speed := s.speed + Effect(b, 4001),
                               specs := s.specs + Change(b))
  {
    assert s.power + [] == s.power && s.speed + [] == s.speed && s.specs + [] == s.specs;
  }

  // The stat with the buffs of a skill behind its own.
  function With(s: Stat, buffs: seq<Buff>): Stat
  {
    s.(power := s.power + OfKind(buffs, 4003), speed := s.speed + OfKind(buffs, 4001), specs := s.specs + Changes(buffs))
  }

  lemma WithOneMore(s: Stat, buffs: seq<Buff>, b: Buff)
    ensures Buffed(With(s, buffs), b) == With(s, buffs + [b])
  {
    BuffAdds(With(s, buffs), b);
    KindSnoc(buffs, b, 4003);
    KindSnoc(buffs, b, 4001);
    ChangesSnoc(buffs, b);
    ConcatAssoc(s.power, OfKind(buffs, 4003), Effect(b, 4003));
    ConcatAssoc(s.speed, OfKind(buffs, 4001), Effect(b, 4001));
    ConcatAssoc(s.specs, Changes(buffs), Change(b));
  }

  lemma {:induction false} SkillIsWith(s: Stat, buffs: seq<Buff>)
    ensures BuffedAll(s, buffs) == With(s, buffs)
    decreases |buffs|
  {
    if buffs == [] {
      assert s.power + [] == s.power && s.speed + [] == s.speed && s.specs + [] == s.specs;
    } else {
      var n := |buffs| - 1;
      SkillIsWith(s, buffs[..n]);
      WithOneMore(s, buffs[..n], buffs[n]);
      assert buffs[..n] + [buffs[n]] == buffs;
    }
  }

  /** A buff skill gives each target its power and speed buffs in their order, and the attack changes; it changes
      nothing else, and with the recalculation the current stat is worth the base with all of them in force. */
  lemma SkillAdds(s: Stat, buffs: seq<Buff>)
    ensures BuffedAll(s, buffs) == s.(power := s.power + OfKind(buffs, 4003), speed := s.speed + OfKind(buffs, 4001),
                                      specs := s.specs + Changes(buffs))
    ensures Worth(Refreshed(BuffedAll(s, buffs)))
  {
    SkillIsWith(s, buffs);
    RefreshedIsWorth(BuffedAll(s, buffs));
  }
}
