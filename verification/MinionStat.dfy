/** MinionStat: a minion's base stat, its buffs, and the current stat cached from them. */
module MinionStats {
  import opened Wire
  import opened Geometry
  import opened Debuffs

  datatype Scope = SingleTarget | MultipleTarget | Area

  datatype AttackSpec = AttackSpec(
    delivery: byte, scope: Scope, maxTargets: int, projectileType: byte, hitType: byte, speed: real, duration: real)

  // An effect and the time it has left; a duration that is not positive never runs out.
  datatype Lasting<T> = Lasting(effect: T, duration: real)

  datatype Buff = Buff(id: int, value: real, duration: real, change: Option<AttackSpec>)

  datatype Base = Base(power: int, cooldown: real, range: real, skillMaxTargets: int, maxAC: int, spec: AttackSpec)

  // The quotient of a positive cooldown by zero is infinite: no attack is ever ready.
  datatype Cooldown = Seconds(s: real) | Never

  datatype Current = Current(
    power: int, cooldown: Cooldown, range: real, skillMaxTargets: int, maxAC: int, spec: AttackSpec)

  datatype Stat = Stat(
    base: Base, current: Current, currentAC: int, custom: bool,
    power: seq<Lasting<real>>, speed: seq<Lasting<real>>, targets: seq<Lasting<real>>, specs: seq<Lasting<AttackSpec>>)

  const MIN_COOLDOWN := 0.1
  const BUFF_ATK_SPEED := 4001
  const BUFF_POWER := 4003

  function Effects<T>(bs: seq<Lasting<T>>): (es: seq<T>)
    ensures |es| == |bs|
  {
    seq(|bs|, i requires 0 <= i < |bs| => bs[i].effect)
  }

  function Total(xs: seq<real>): real
  {
    if xs == [] then 0.0 else xs[0] + Total(xs[1..])
  }

  // The bonus is in percent; the product is truncated.
  function Boosted(power: int, bonus: real): int
  {
    Trunc(power as real * (1.0 + bonus / 100.0))
  }

  // max(0.1, cooldown / rate), as floating point divides by zero.
  function Shortened(cooldown: real, bonus: real): Cooldown
  {
    var rate := 1.0 + bonus / 100.0;
    if rate == 0.0 then (if cooldown > 0.0 then Never else Seconds(MIN_COOLDOWN))
    else Seconds(Max(MIN_COOLDOWN, cooldown / rate))
  }

  /** What the current stat should be: a function of the base and of the effects in force. */
  function Recomputed(base: Base, power: seq<real>, speed: seq<real>, specs: seq<AttackSpec>): Current
  {
    Current(
      Boosted(base.power, Total(power)), Shortened(base.cooldown, Total(speed)),
      base.range, base.skillMaxTargets, base.maxAC,
      if specs == [] then base.spec else specs[|specs| - 1])
  }

  function Refreshed(s: Stat): Stat
  {
    s.(current := Recomputed(s.base, Effects(s.power), Effects(s.speed), Effects(s.specs)), custom := s.specs != [])
  }

  // The cache agrees with the base and the buffs.
  ghost predicate InStep(s: Stat)
  {
    s == Refreshed(s)
  }

  predicate Ends<T>(b: Lasting<T>, dt: real)
  {
    b.duration > 0.0 && b.duration - dt <= 0.0
  }

  predicate SomeEnd<T>(bs: seq<Lasting<T>>, dt: real)
  {
    bs != [] && (Ends(bs[0], dt) || SomeEnd(bs[1..], dt))
  }

  function AgeOne<T>(b: Lasting<T>, dt: real): seq<Lasting<T>>
  {
    if Ends(b, dt) then [] else [b.(duration := if b.duration > 0.0 then b.duration - dt else b.duration)]
  }

  function Age<T>(bs: seq<Lasting<T>>, dt: real): seq<Lasting<T>>
  {
    if bs == [] then [] else AgeOne(bs[0], dt) + Age(bs[1..], dt)
  }

  // The max-targets list never ages.
  function Aged(s: Stat, dt: real): Stat
  {
    s.(power := Age(s.power, dt), speed := Age(s.speed, dt), specs := Age(s.specs, dt))
  }

  // Update recalculates only if something ran out.
  function Updated(s: Stat, dt: real): Stat
  {
    if s.power == [] && s.speed == [] && s.targets == [] && s.specs == [] then s
    else if SomeEnd(s.power, dt) || SomeEnd(s.speed, dt) || SomeEnd(s.specs, dt) then Refreshed(Aged(s, dt))
    else Aged(s, dt)
  }

  function WithoutBuffs(s: Stat): Stat
  {
    s.(power := [], speed := [], targets := [], specs := [])
  }

  // StatUpgradeManager::ExecuteEvent; an unknown id does nothing.
  function Upgraded(s: Stat, id: int, amount: real): Stat
  {
    match id
    case 2001 => Refreshed(s.(base := s.base.(power := s.base.power + Trunc(amount))))
    case 2002 => Refreshed(s.(base := s.base.(cooldown := Max(MIN_COOLDOWN, s.base.cooldown - amount))))
    case 2003 =>
      var ac := s.base.maxAC - Trunc(amount);
      Refreshed(s.(base := s.base.(maxAC := if 1 < ac then ac else 1)))
    case 2004 => Refreshed(s.(base := s.base.(range := s.base.range + amount / 2.0)))
    case 2005 => Refreshed(s.(base := s.base.(skillMaxTargets := s.base.skillMaxTargets + Trunc(amount))))
    case _ => s
  }

  // One buff of a buff skill on one target; the stat is not recalculated yet.
  function Buffed(s: Stat, b: Buff): Stat
  {
    if b.id == BUFF_POWER then
      s.(power := s.power + [Lasting(b.value, b.duration)],
         specs := if b.change.Some? then s.specs + [Lasting(b.change.value, b.duration)] else s.specs)
    else if b.id == BUFF_ATK_SPEED then s.(speed := s.speed + [Lasting(b.value, b.duration)])
    else s
  }

  function BuffedAll(s: Stat, bs: seq<Buff>): Stat
    decreases |bs|
  {
    if bs == [] then s else Buffed(BuffedAll(s, bs[..|bs| - 1]), bs[|bs| - 1])
  }

  class MinionStat {
    var m_base: Base
    var m_current: Current
    var m_currentAC: int
    var m_hasCustomAttackSpec: bool
    var m_powerBuffs: seq<Lasting<real>>
    var m_attackSpeedBuffs: seq<Lasting<real>>
    var m_maxTargetsBuffs: seq<Lasting<real>>
    var m_attackSpecBuffs: seq<Lasting<AttackSpec>>

    function State(): Stat
      reads this
    {
      Stat(m_base, m_current, m_currentAC, m_hasCustomAttackSpec,
           m_powerBuffs, m_attackSpeedBuffs, m_maxTargetsBuffs, m_attackSpecBuffs)
    }

    method Init(power: int, cooldown: real, range: real, maxAC: int, spec: AttackSpec,
                skillScope: Scope, skillMaxTargets: int)
      modifies this
      ensures InStep(State()) && WithoutBuffs(State()) == State() && m_currentAC == old(m_currentAC)
      ensures m_base == Base(power, cooldown, range / 2.0, if skillScope.SingleTarget? then 1 else skillMaxTargets, maxAC,
                             spec.(maxTargets := if spec.scope.SingleTarget? then 1 else spec.maxTargets))
    {
      m_base := Base(power, cooldown, range / 2.0, if skillScope.SingleTarget? then 1 else skillMaxTargets, maxAC,
                     spec.(maxTargets := if spec.scope.SingleTarget? then 1 else spec.maxTargets));
      ClearBuffs();
      Recalculate();
    }

    method Recalculate()
      modifies this`m_current, this`m_hasCustomAttackSpec
      ensures State() == Refreshed(old(State()))
    {
      var powerBonus := Bonus(m_powerBuffs);
      var attackSpeedBonus := Bonus(m_attackSpeedBuffs);
      var power := Boosted(m_base.power, powerBonus);
      var cooldown := Shortened(m_base.cooldown, attackSpeedBonus);
      var spec := m_base.spec;
      m_hasCustomAttackSpec := false;
      if m_attackSpecBuffs != [] {
        assert Effects(m_attackSpecBuffs)[|m_attackSpecBuffs| - 1] == m_attackSpecBuffs[|m_attackSpecBuffs| - 1].effect;
        spec := m_attackSpecBuffs[|m_attackSpecBuffs| - 1].effect;
        m_hasCustomAttackSpec := true;
      }
      m_current := Current(power, cooldown, m_base.range, m_base.skillMaxTargets, m_base.maxAC, spec);
      assert m_current == Recomputed(
        m_base, Effects(m_powerBuffs), Effects(m_attackSpeedBuffs), Effects(m_attackSpecBuffs));
    }

    static method Bonus(buffs: seq<Lasting<real>>) returns (bonus: real)
      ensures bonus == Total(Effects(buffs))
    {
      bonus := 0.0;
      ghost var es := Effects(buffs);
      assert es[0..] == es;
      for i := 0 to |buffs|
        invariant bonus + Total(es[i..]) == Total(es)
      {
        assert es[i..][1..] == es[i + 1..];
        bonus := bonus + buffs[i].effect;
      }
    }

    // Without recalculating.
    method ClearBuffs()
      modifies this`m_powerBuffs, this`m_attackSpeedBuffs, this`m_maxTargetsBuffs, this`m_attackSpecBuffs
      ensures State() == WithoutBuffs(old(State()))
    {
      m_powerBuffs, m_attackSpeedBuffs, m_maxTargetsBuffs, m_attackSpecBuffs := [], [], [], [];
    }

    static method UpdateBuffList<T>(buffs: seq<Lasting<T>>, deltaTime: real)
      returns (kept: seq<Lasting<T>>, isChanged: bool)
      ensures kept == Age(buffs, deltaTime) && isChanged == SomeEnd(buffs, deltaTime)
    {
      kept, isChanged := [], false;
      assert buffs[0..] == buffs;
      for i := 0 to |buffs|
        invariant kept + Age(buffs[i..], deltaTime) == Age(buffs, deltaTime)
        invariant SomeEnd(buffs, deltaTime) == (isChanged || SomeEnd(buffs[i..], deltaTime))
      {
        var buff := buffs[i];
        AgeFirst(buffs, i, deltaTime);
        ConcatAssoc(kept, AgeOne(buff, deltaTime), Age(buffs[i + 1..], deltaTime));
        if buff.duration > 0.0 {
          buff := buff.(duration := buff.duration - deltaTime);
          if buff.duration <= 0.0 {
            isChanged := true;
          } else {
            kept := kept + [buff];
          }
        } else {
          kept := kept + [buff];
        }
      }
    }

    method Update(deltaTime: real)
      modifies this
      ensures State() == Updated(old(State()), deltaTime)
    {
      if m_powerBuffs == [] && m_attackSpeedBuffs == [] && m_maxTargetsBuffs == [] && m_attackSpecBuffs == [] {
        return;
      }
      var powerChanged, speedChanged, specChanged;
      m_powerBuffs, powerChanged := UpdateBuffList(m_powerBuffs, deltaTime);
      m_attackSpeedBuffs, speedChanged := UpdateBuffList(m_attackSpeedBuffs, deltaTime);
      m_attackSpecBuffs, specChanged := UpdateBuffList(m_attackSpecBuffs, deltaTime);
      if powerChanged || speedChanged || specChanged {
        Recalculate();
      }
    }

    method Upgrade(id: int, amount: real)
      modifies this`m_base, this`m_current, this`m_hasCustomAttackSpec
      ensures State() == Upgraded(old(State()), id, amount)
    {
      match id {
        case 2001 => AddBasePower(Trunc(amount));
        case 2002 => AddBaseAttackCooldown(amount);
        case 2003 => AddBaseMaxAC(Trunc(amount));
        case 2004 => AddBaseRange(amount / 2.0);
        case 2005 => AddBaseSkillMaxTargets(Trunc(amount));
        case _ =>
      }
    }

    method AddBasePower(value: int)
      modifies this`m_base, this`m_current, this`m_hasCustomAttackSpec
      ensures var b := old(m_base); State() == Refreshed(old(State()).(base := b.(power := b.power + value)))
    {
      m_base := m_base.(power := m_base.power + value);
      Recalculate();
    }

    method AddBaseAttackCooldown(value: real)
      modifies this`m_base, this`m_current, this`m_hasCustomAttackSpec
      ensures var b := old(m_base);
              State() == Refreshed(old(State()).(base := b.(cooldown := Max(MIN_COOLDOWN, b.cooldown - value))))
    {
      m_base := m_base.(cooldown := Max(MIN_COOLDOWN, m_base.cooldown - value));
      Recalculate();
    }

    method AddBaseMaxAC(value: int)
      modifies this`m_base, this`m_current, this`m_hasCustomAttackSpec
      ensures var b := old(m_base);
              State() == Refreshed(old(State()).(base := b.(maxAC := if 1 < b.maxAC - value then b.maxAC - value else 1)))
    {
      m_base := m_base.(maxAC := if 1 < m_base.maxAC - value then m_base.maxAC - value else 1);
      Recalculate();
    }

    method AddBaseSkillMaxTargets(value: int)
      modifies this`m_base, this`m_current, this`m_hasCustomAttackSpec
      ensures var b := old(m_base);
              State() == Refreshed(old(State()).(base := b.(skillMaxTargets := b.skillMaxTargets + value)))
    {
      m_base := m_base.(skillMaxTargets := m_base.skillMaxTargets + value);
      Recalculate();
    }

    method AddBaseRange(value: real)
      modifies this`m_base, this`m_current, this`m_hasCustomAttackSpec
      ensures var b := old(m_base); State() == Refreshed(old(State()).(base := b.(range := b.range + value)))
    {
      m_base := m_base.(range := m_base.range + value);
      Recalculate();
    }

    method AddPowerBuff(value: real, duration: real)
      modifies this`m_powerBuffs
      ensures m_powerBuffs == old(m_powerBuffs) + [Lasting(value, duration)]
    {
      m_powerBuffs := m_powerBuffs + [Lasting(value, duration)];
    }

    method AddAttackSpeedBuff(value: real, duration: real)
      modifies this`m_attackSpeedBuffs
      ensures m_attackSpeedBuffs == old(m_attackSpeedBuffs) + [Lasting(value, duration)]
    {
      m_attackSpeedBuffs := m_attackSpeedBuffs + [Lasting(value, duration)];
    }

    method AddAttackSpecBuff(spec: AttackSpec, duration: real)
      modifies this`m_attackSpecBuffs
      ensures m_attackSpecBuffs == old(m_attackSpecBuffs) + [Lasting(spec, duration)]
    {
      m_attackSpecBuffs := m_attackSpecBuffs + [Lasting(spec, duration)];
    }
  }

  lemma AgeFirst<T>(bs: seq<Lasting<T>>, i: nat, dt: real)
    requires i < |bs|
    ensures Age(bs[i..], dt) == AgeOne(bs[i], dt) + Age(bs[i + 1..], dt)
    ensures SomeEnd(bs[i..], dt) == (Ends(bs[i], dt) || SomeEnd(bs[i + 1..], dt))
  {
    assert bs[i..][1..] == bs[i + 1..];
  }

  /** What Minion adds to its stat. */
  class Minion {
    const m_stat: MinionStat

    constructor (stat: MinionStat)
      ensures m_stat == stat
    {
      m_stat := stat;
    }

    method ClearBuffs()
      modifies m_stat
      ensures m_stat.State() == Refreshed(WithoutBuffs(old(m_stat.State())))
    {
      m_stat.ClearBuffs();
      m_stat.Recalculate();
    }

    // Forwarded to the attack speed list.
    method AddMaxTargetsBuff(value: real, duration: real)
      modifies m_stat
      ensures var s := old(m_stat.State()); m_stat.State() == s.(speed := s.speed + [Lasting(value, duration)])
    {
      m_stat.AddAttackSpeedBuff(value, duration);
    }
  }

  // -------- A buff skill on several targets --------

  // The targets come from a map, each with a stat of its own.
  ghost predicate Distinct(targets: seq<MinionStat>)
  {
    forall i, j :: 0 <= i < j < |targets| ==> targets[i] != targets[j]
  }

  method OnBuff(targets: seq<MinionStat>, buff: Buff)
    requires Distinct(targets)
    modifies targets
    ensures forall t | t in targets :: t.State() == Buffed(old(t.State()), buff)
  {
    for i := 0 to |targets|
      invariant forall j :: 0 <= j < i ==> targets[j].State() == Buffed(old(targets[j].State()), buff)
      invariant forall j :: i <= j < |targets| ==> targets[j].State() == old(targets[j].State())
    {
      if buff.id == BUFF_POWER {
        targets[i].AddPowerBuff(buff.value, buff.duration);
        if buff.change.Some? {
          targets[i].AddAttackSpecBuff(buff.change.value, buff.duration);
        }
      } else if buff.id == BUFF_ATK_SPEED {
        targets[i].AddAttackSpeedBuff(buff.value, buff.duration);
      }
    }
  }

  method RecalculateAll(targets: seq<MinionStat>)
    requires Distinct(targets)
    modifies targets
    ensures forall t | t in targets :: t.State() == Refreshed(old(t.State()))
  {
    for i := 0 to |targets|
      invariant forall j :: 0 <= j < i ==> targets[j].State() == Refreshed(old(targets[j].State()))
      invariant forall j :: i <= j < |targets| ==> targets[j].State() == old(targets[j].State())
    {
      targets[i].Recalculate();
    }
  }

  /** BuffSkillStrategy::Execute: every buff to every target, and only then the recalculation. */
  method Execute(targets: seq<MinionStat>, buffs: seq<Buff>)
    requires Distinct(targets)
    modifies targets
    ensures forall t | t in targets :: t.State() == Refreshed(BuffedAll(old(t.State()), buffs))
  {
    for i := 0 to |buffs|
      invariant forall t | t in targets :: t.State() == BuffedAll(old(t.State()), buffs[..i])
    {
      assert buffs[..i + 1][..i] == buffs[..i];
      OnBuff(targets, buffs[i]);
    }
    assert buffs[..|buffs|] == buffs;
    RecalculateAll(targets);
  }

  // -------- The cache is never stale --------

  lemma {:induction false} NoneEndKeepsEffects<T>(bs: seq<Lasting<T>>, dt: real)
    requires !SomeEnd(bs, dt)
    ensures Effects(Age(bs, dt)) == Effects(bs)
  {
    if bs != [] {
      NoneEndKeepsEffects(bs[1..], dt);
      HeadTail(Effects(bs));
      assert Effects(bs)[1..] == Effects(bs[1..]);
      assert Effects(Age(bs, dt)) == [bs[0].effect] + Effects(Age(bs[1..], dt));
    }
  }

  /** Recalculating only when a buff runs out loses nothing: from a cache in step, an update has the same
      result as ageing every list and recalculating always. */
  lemma UpdateRecomputes(s: Stat, dt: real)
    requires InStep(s)
    ensures Updated(s, dt) == Refreshed(Aged(s, dt)) && InStep(Updated(s, dt))
  {
    if !SomeEnd(s.power, dt) && !SomeEnd(s.speed, dt) && !SomeEnd(s.specs, dt) {
      NoneEndKeepsEffects(s.power, dt);
      NoneEndKeepsEffects(s.speed, dt);
      NoneEndKeepsEffects(s.specs, dt);
      assert |Age(s.specs, dt)| == |s.specs|;
    }
  }

  datatype Op = Tick(dt: real) | Upgrade(id: int, amount: real) | EndWave | Cast(buffs: seq<Buff>)

  function Do(s: Stat, op: Op): Stat
  {
    match op
    case Tick(dt) => Updated(s, dt)
    case Upgrade(id, amount) => Upgraded(s, id, amount)
    case EndWave => Refreshed(WithoutBuffs(s))
    case Cast(buffs) => Refreshed(BuffedAll(s, buffs))
  }

  function DoAll(s: Stat, ops: seq<Op>): Stat
    decreases |ops|
  {
    if ops == [] then s else DoAll(Do(s, ops[0]), ops[1..])
  }

  /** After any run of updates, upgrades, ended waves and buff skills the cached stat is the one recomputed
      from the base and the buffs in force, and the custom-attack flag says whether a buff supplies the attack. */
  lemma {:induction false} CacheNeverStale(s: Stat, ops: seq<Op>)
    requires InStep(s)
    ensures var r := DoAll(s, ops);
            && r.current == Recomputed(r.base, Effects(r.power), Effects(r.speed), Effects(r.specs))
            && r.custom == (r.specs != [])
            && InStep(r)
    decreases |ops|
  {
    if ops != [] {
      if ops[0].Tick? { UpdateRecomputes(s, ops[0].dt); }
      CacheNeverStale(Do(s, ops[0]), ops[1..]);
    }
  }

  // -------- Buffs and frame rate --------

  lemma {:induction false} AgeConcat<T>(a: seq<Lasting<T>>, b: seq<Lasting<T>>, dt: real)
    ensures Age(a + b, dt) == Age(a, dt) + Age(b, dt)
  {
    if a == [] {
      assert a + b == b && Age(a, dt) + Age(b, dt) == Age(b, dt);
    } else {
      assert (a + b)[1..] == a[1..] + b;
      AgeConcat(a[1..], b, dt);
      ConcatAssoc(AgeOne(a[0], dt), Age(a[1..], dt), Age(b, dt));
    }
  }

  lemma {:induction false} AgeTogether<T>(bs: seq<Lasting<T>>, a: real, b: real)
    requires a >= 0.0 && b >= 0.0
    ensures Age(Age(bs, a), b) == Age(bs, a + b)
  {
    if bs != [] {
      AgeTogether(bs[1..], a, b);
      AgeConcat(AgeOne(bs[0], a), Age(bs[1..], a), b);
      AgeOneTogether(bs[0], a, b);
    }
  }

  lemma AgeOneTogether<T>(x: Lasting<T>, a: real, b: real)
    requires a >= 0.0 && b >= 0.0
    ensures Age(AgeOne(x, a), b) == AgeOne(x, a + b)
  {
    if !Ends(x, a) {
      var y := AgeOne(x, a);
      assert y[1..] == [] && Age(y, b) == AgeOne(y[0], b) + [];
    }
  }

  lemma {:induction false} AgeNot<T>(bs: seq<Lasting<T>>)
    ensures Age(bs, 0.0) == bs
  {
    if bs != [] { AgeNot(bs[1..]); HeadTail(bs); }
  }

  /** Frame rate does not matter: any number of updates has the result of one update over the total time. */
  lemma {:induction false} BuffsFrameIndependent(s: Stat, dts: seq<real>)
    requires InStep(s) && Forward(dts)
    ensures DoAll(s, Ticks(dts)) == Updated(s, Sum(dts))
    decreases |dts|
  {
    if dts == [] {
      AgeNot(s.power);
      AgeNot(s.speed);
      AgeNot(s.specs);
      UpdateRecomputes(s, 0.0);
    } else {
      var next := Updated(s, dts[0]);
      UpdateRecomputes(s, dts[0]);
      BuffsFrameIndependent(next, dts[1..]);
      SumNonNegative(dts[1..]);
      UpdatesAdd(s, dts[0], Sum(dts[1..]));
      FirstTick(s, dts);
    }
  }

  lemma FirstTick(s: Stat, dts: seq<real>)
    requires dts != []
    ensures DoAll(s, Ticks(dts)) == DoAll(Updated(s, dts[0]), Ticks(dts[1..]))
  {
    assert Ticks(dts)[1..] == Ticks(dts[1..]);
  }

  function Ticks(dts: seq<real>): seq<Op>
  {
    seq(|dts|, i requires 0 <= i < |dts| => Tick(dts[i]))
  }

  lemma UpdatesAdd(s: Stat, a: real, b: real)
    requires InStep(s) && a >= 0.0 && b >= 0.0
    ensures Updated(Updated(s, a), b) == Updated(s, a + b)
  {
    UpdateRecomputes(s, a);
    UpdateRecomputes(s, a + b);
    UpdateRecomputes(Updated(s, a), b);
    AgeTogether(s.power, a, b);
    AgeTogether(s.speed, a, b);
    AgeTogether(s.specs, a, b);
  }

  // What is left of one buff after time T.
  function Left<T>(b: Lasting<T>, time: real): seq<Lasting<T>>
  {
    if b.duration <= 0.0 then [b]
    else if time < b.duration then [Lasting(b.effect, b.duration - time)]
    else []
  }

  lemma AgeAmong<T>(before: seq<Lasting<T>>, b: Lasting<T>, after: seq<Lasting<T>>, time: real)
    requires time >= 0.0
    ensures Age(before + [b] + after, time) == Age(before, time) + Left(b, time) + Age(after, time)
  {
    AgeConcat(before + [b], after, time);
    AgeConcat(before, [b], time);
    LeftOver(b, time);
  }

  lemma LeftOver<T>(b: Lasting<T>, time: real)
    requires time >= 0.0
    ensures Age([b], time) == Left(b, time)
  {
    assert [b][1..] == [] && Age([b], time) == AgeOne(b, time) + [];
  }

  // Over any frames each of the three lists ages by the total time.
  lemma ListsAge(s: Stat, dts: seq<real>)
    requires InStep(s) && Forward(dts)
    ensures Sum(dts) >= 0.0 && DoAll(s, Ticks(dts)) == Refreshed(Aged(s, Sum(dts)))
  {
    SumNonNegative(dts);
    BuffsFrameIndependent(s, dts);
    UpdateRecomputes(s, Sum(dts));
  }

  /** A power buff outlives frames of total time T exactly if it is permanent or lasts longer than T, and
      whether it does is independent of the buffs around it. */
  lemma SurvivesIff(s: Stat, before: seq<Lasting<real>>, b: Lasting<real>, after: seq<Lasting<real>>, dts: seq<real>)
    requires InStep(s) && s.power == before + [b] + after && Forward(dts)
    ensures DoAll(s, Ticks(dts)).power == Age(before, Sum(dts)) + Left(b, Sum(dts)) + Age(after, Sum(dts))
  {
    ListsAge(s, dts);
    AgeAmong(before, b, after, Sum(dts));
  }

  /** So does an attack-speed buff. */
  lemma SpeedSurvivesIff(s: Stat, before: seq<Lasting<real>>, b: Lasting<real>, after: seq<Lasting<real>>, dts: seq<real>)
    requires InStep(s) && s.speed == before + [b] + after && Forward(dts)
    ensures DoAll(s, Ticks(dts)).speed == Age(before, Sum(dts)) + Left(b, Sum(dts)) + Age(after, Sum(dts))
  {
    ListsAge(s, dts);
    AgeAmong(before, b, after, Sum(dts));
  }

  /** And a change of the attack; what is attacked with is the last change to survive, or the base. */
  lemma SpecSurvivesIff(s: Stat, before: seq<Lasting<AttackSpec>>, b: Lasting<AttackSpec>, after: seq<Lasting<AttackSpec>>,
                        dts: seq<real>)
    requires InStep(s) && s.specs == before + [b] + after && Forward(dts)
    ensures var r := DoAll(s, Ticks(dts));
            && r.specs == Age(before, Sum(dts)) + Left(b, Sum(dts)) + Age(after, Sum(dts))
            && r.current.spec == if r.specs == [] then s.base.spec else r.specs[|r.specs| - 1].effect
  {
    ListsAge(s, dts);
    AgeAmong(before, b, after, Sum(dts));
  }
}
