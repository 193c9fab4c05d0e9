/** The attack notification: many attack events in one packet, and the decoder a client builds on PacketReader. */
module AttackBatch {
  import opened Wire
  import opened Framing
  import opened Packets

  datatype AttackEvent = AttackEvent(
    kind: byte, isProjectile: bool, minionInstanceId: uint32, damage: int32, targets: seq<uint32>)

  const ATTACK_NOTIFY: uint16 := 35

  // static_cast<int> of a size.
  function Count(n: nat): int32
  {
    var m := n % 0x1_0000_0000;
    if m < 0x8000_0000 then m else m - 0x1_0000_0000
  }

  lemma CountSmall(n: nat)
    requires n < 0x8000_0000
    ensures Count(n) == n
  {
  }

  function EncodeIds(ids: seq<uint32>): (b: seq<byte>)
    ensures |b| == 4 * |ids|
  {
    if ids == [] then [] else U32(ids[0]) + EncodeIds(ids[1..])
  }

  function EncodeEvent(e: AttackEvent): (b: seq<byte>)
    ensures |b| == 14 + 4 * |e.targets|
  {
    [e.kind, if e.isProjectile then 1 else 0] + U32(e.minionInstanceId) + I32(e.damage)
    + I32(Count(|e.targets|)) + EncodeIds(e.targets)
  }

  function EncodeEvents(es: seq<AttackEvent>): seq<byte>
  {
    if es == [] then [] else EncodeEvent(es[0]) + EncodeEvents(es[1..])
  }

  function EncodeBatch(es: seq<AttackEvent>): seq<byte>
  {
    I32(Count(|es|)) + EncodeEvents(es)
  }

  lemma {:induction false} IdBytes(ids: seq<uint32>, k: nat)
    requires k < |ids|
    ensures EncodeIds(ids)[4 * k..4 * k + 4] == U32(ids[k])
  {
    if k > 0 {
      IdBytes(ids[1..], k - 1);
      assert EncodeIds(ids)[4 * k..4 * k + 4] == EncodeIds(ids[1..])[4 * (k - 1)..4 * (k - 1) + 4];
    }
  }

  lemma Parts(a: seq<byte>, b: seq<byte>, c: seq<byte>, d: seq<byte>, e: seq<byte>)
    requires |a| == 2 && |b| == 4 && |c| == 4 && |d| == 4
    ensures var s := a + b + c + d + e;
            s[..2] == a && s[2..6] == b && s[6..10] == c && s[10..14] == d && s[14..] == e
  {
  }

  /** What an event is on the wire: the kind, the projectile flag, the minion, the damage, the number of targets, and
      the targets in order. */
  lemma EventBytes(e: AttackEvent)
    ensures var b := EncodeEvent(e);
            && b[0] == e.kind && b[1] == (if e.isProjectile then 1 else 0)
            && FromU32(b[2..6]) == e.minionInstanceId && FromI32(b[6..10]) == e.damage
            && FromI32(b[10..14]) == Count(|e.targets|)
            && forall k :: 0 <= k < |e.targets| ==> FromU32(b[14..][4 * k..4 * k + 4]) == e.targets[k]
  {
    var flags: seq<byte> := [e.kind, if e.isProjectile then 1 else 0];
    Parts(flags, U32(e.minionInstanceId), I32(e.damage), I32(Count(|e.targets|)), EncodeIds(e.targets));
    assert EncodeEvent(e)[..2] == flags;
    forall k | 0 <= k < |e.targets| ensures EncodeIds(e.targets)[4 * k..4 * k + 4] == U32(e.targets[k]) {
      IdBytes(e.targets, k);
    }
  }

  // Size of the finished packet.
  function BatchSize(es: seq<AttackEvent>): nat
  {
    if es == [] then 8 else 14 + 4 * |es[0].targets| + BatchSize(es[1..])
  }

  /** Room::BroadcastAttack: drains the queue through one writer. */
  method WriteBatch(queue: seq<AttackEvent>) returns (packet: seq<byte>)
    ensures packet == Finished(Packet(ATTACK_NOTIFY, EncodeBatch(queue)))
  {
    var writer := new PacketWriter(ATTACK_NOTIFY);
    writer.Write(I32(Count(|queue|)));
    var left := queue;
    while left != []
      invariant writer.Valid() && fresh(writer) && writer.kind == ATTACK_NOTIFY
      invariant writer.Payload() + EncodeEvents(left) == EncodeBatch(queue)
      decreases |left|
    {
      ConcatAssoc(writer.Payload(), EncodeEvent(left[0]), EncodeEvents(left[1..]));
      WriteEvent(writer, left[0]);
      left := left[1..];
    }
    assert writer.Payload() + [] == writer.Payload();
    writer.Finish();
    packet := writer.buffer;
  }

  method WriteEvent(writer: PacketWriter, e: AttackEvent)
    requires writer.Valid()
    modifies writer
    ensures writer.Valid() && writer.Payload() == old(writer.Payload()) + EncodeEvent(e)
  {
    ghost var before := writer.Payload();
    writer.Write([e.kind]);
    writer.Write([if e.isProjectile then 1 else 0]);
    writer.Write(U32(e.minionInstanceId));
    writer.Write(I32(e.damage));
    writer.Write(I32(Count(|e.targets|)));
    ghost var head := [e.kind, if e.isProjectile then 1 else 0] + U32(e.minionInstanceId) + I32(e.damage)
                      + I32(Count(|e.targets|));
    assert writer.Payload() == before + head;
    ConcatAssoc(before, head, EncodeIds(e.targets));
    var i := 0;
    while i < |e.targets|
      invariant 0 <= i <= |e.targets|
      invariant writer.Valid() && writer.Payload() + EncodeIds(e.targets[i..]) == before + EncodeEvent(e)
    {
      ConcatAssoc(writer.Payload(), U32(e.targets[i]), EncodeIds(e.targets[i..][1..]));
      assert e.targets[i..][1..] == e.targets[i + 1..];
      writer.Write(U32(e.targets[i]));
      i := i + 1;
    }
    assert writer.Payload() + [] == writer.Payload();
  }

  // -------- Decoding --------

  datatype Parsed<T> = Fail | Parsed(value: T, rest: seq<byte>)

  function Prepend<T>(done: seq<T>, p: Parsed<seq<T>>): Parsed<seq<T>>
  {
    match p
    case Fail => Fail
    case Parsed(more, rest) => Parsed(done + more, rest)
  }

  lemma PrependLaws<T>(a: seq<T>, b: seq<T>, p: Parsed<seq<T>>)
    ensures Prepend([], p) == p && Prepend(a + b, p) == Prepend(a, Prepend(b, p))
  {
    if p.Parsed? {
      assert [] + p.value == p.value;
      ConcatAssoc(a, b, p.value);
    }
  }

  function ParseIds(b: seq<byte>, n: nat): Parsed<seq<uint32>>
  {
    if n == 0 then Parsed([], b)
    else if |b| < 4 then Fail
    else Prepend([FromU32(b[..4])], ParseIds(b[4..], n - 1))
  }

  function ParseEvent(b: seq<byte>): Parsed<AttackEvent>
  {
    if |b| < 14 then Fail
    else
      var n := FromI32(b[10..14]);
      match ParseIds(b[14..], if n < 0 then 0 else n)
      case Fail => Fail
      case Parsed(ids, rest) =>
        Parsed(AttackEvent(b[0], b[1] != 0, FromU32(b[2..6]), FromI32(b[6..10]), ids), rest)
  }

  function ParseEvents(b: seq<byte>, n: nat): Parsed<seq<AttackEvent>>
    decreases n
  {
    if n == 0 then Parsed([], b)
    else
      match ParseEvent(b)
      case Fail => Fail
      case Parsed(e, more) => Prepend([e], ParseEvents(more, n - 1))
  }

  function ParseBatch(b: seq<byte>): Option<seq<AttackEvent>>
  {
    if |b| < 4 then None
    else
      var n := FromI32(b[..4]);
      match ParseEvents(b[4..], if n < 0 then 0 else n)
      case Fail => None
      case Parsed(es, rest) => Some(es)
  }

  method ReadIds(reader: PacketReader, n: nat) returns (r: Option<seq<uint32>>)
    requires reader.Valid()
    modifies reader
    ensures reader.Valid()
    ensures match ParseIds(old(reader.Rest()), n)
            case Fail => r == None
            case Parsed(ids, rest) => r == Some(ids) && reader.Rest() == rest
  {
    var ids, left := [], n;
    PrependLaws(ids, ids, ParseIds(reader.Rest(), n));
    while left > 0
      invariant reader.Valid()
      invariant ParseIds(old(reader.Rest()), n) == Prepend(ids, ParseIds(reader.Rest(), left))
    {
      var word := reader.Read(4);
      if word.None? { return None; }
      PrependLaws(ids, [FromU32(word.value)], ParseIds(reader.Rest(), left - 1));
      ids, left := ids + [FromU32(word.value)], left - 1;
    }
    assert ids + [] == ids;
    r := Some(ids);
  }

  method ReadEvent(reader: PacketReader) returns (r: Option<AttackEvent>)
    requires reader.Valid()
    modifies reader
    ensures reader.Valid()
    ensures match ParseEvent(old(reader.Rest()))
            case Fail => r == None
            case Parsed(e, rest) => r == Some(e) && reader.Rest() == rest
  {
    ghost var b := reader.Rest();
    var kind := reader.Read(1);
    if kind.None? { return None; }
    var flag := reader.Read(1);
    if flag.None? { return None; }
    assert reader.Rest() == b[2..];
    var id := reader.Read(4);
    if id.None? { return None; }
    assert reader.Rest() == b[6..] && id.value == b[2..6];
    var damage := reader.Read(4);
    if damage.None? { return None; }
    assert reader.Rest() == b[10..] && damage.value == b[6..10];
    var count := reader.Read(4);
    if count.None? { return None; }
    assert reader.Rest() == b[14..] && count.value == b[10..14];
    var n := FromI32(count.value);
    var ids := ReadIds(reader, if n < 0 then 0 else n);
    if ids.None? { return None; }
    r := Some(AttackEvent(kind.value[0], flag.value[0] != 0, FromU32(id.value), FromI32(damage.value), ids.value));
  }

  method ReadBatch(reader: PacketReader) returns (r: Option<seq<AttackEvent>>)
    requires reader.Valid()
    modifies reader
    ensures r == ParseBatch(old(reader.Rest()))
  {
    var count := reader.Read(4);
    if count.None? { return None; }
    var n := FromI32(count.value);
    var es, left := [], if n < 0 then 0 else n;
    ghost var all := ParseEvents(reader.Rest(), left);
    PrependLaws(es, es, all);
    while left > 0
      invariant reader.Valid() && left >= 0
      invariant all == Prepend(es, ParseEvents(reader.Rest(), left))
    {
      var e := ReadEvent(reader);
      if e.None? { return None; }
      PrependLaws(es, [e.value], ParseEvents(reader.Rest(), left - 1));
      es, left := es + [e.value], left - 1;
    }
    assert es + [] == es;
    r := Some(es);
  }

  // -------- Round trip --------

  lemma {:induction false} IdsRoundTrip(ids: seq<uint32>, tail: seq<byte>)
    ensures ParseIds(EncodeIds(ids) + tail, |ids|) == Parsed(ids, tail)
  {
    if ids == [] {
      assert EncodeIds(ids) + tail == tail;
    } else {
      ConcatAssoc(U32(ids[0]), EncodeIds(ids[1..]), tail);
      ConcatParts(U32(ids[0]), EncodeIds(ids[1..]) + tail);
      IdsRoundTrip(ids[1..], tail);
      HeadTail(ids);
    }
  }

  // The fixed-size part of an event, and the target ids behind it.
  lemma EventHeader(e: AttackEvent, tail: seq<byte>)
    ensures var b := EncodeEvent(e) + tail;
            && b[0] == e.kind && b[1] == (if e.isProjectile then 1 else 0)
            && b[2..6] == U32(e.minionInstanceId) && b[6..10] == I32(e.damage)
            && b[10..14] == I32(Count(|e.targets|)) && b[14..] == EncodeIds(e.targets) + tail
  {
  }

  lemma EventRoundTrip(e: AttackEvent, tail: seq<byte>)
    requires |e.targets| < 0x8000_0000
    ensures ParseEvent(EncodeEvent(e) + tail) == Parsed(e, tail)
  {
    EventHeader(e, tail);
    CountSmall(|e.targets|);
    IdsRoundTrip(e.targets, tail);
  }

  lemma {:induction false} EventsRoundTrip(es: seq<AttackEvent>)
    requires forall i :: 0 <= i < |es| ==> |es[i].targets| < 0x8000_0000
    ensures ParseEvents(EncodeEvents(es), |es|) == Parsed(es, [])
    decreases |es|
  {
    if es != [] {
      EventsRoundTrip(es[1..]);
      EventThenRest(es[0], es[1..]);
      HeadTail(es);
    }
  }

  lemma EventThenRest(e: AttackEvent, es: seq<AttackEvent>)
    requires |e.targets| < 0x8000_0000
    requires ParseEvents(EncodeEvents(es), |es|) == Parsed(es, [])
    ensures ParseEvents(EncodeEvents([e] + es), |[e] + es|) == Parsed([e] + es, [])
  {
    assert ([e] + es)[1..] == es;
    EventRoundTrip(e, EncodeEvents(es));
  }

  lemma {:induction false} EventsSize(es: seq<AttackEvent>)
    ensures |EncodeEvents(es)| + 8 == BatchSize(es)
  {
    if es != [] { EventsSize(es[1..]); }
  }

  lemma {:induction false} SizeAtLeast(es: seq<AttackEvent>)
    ensures BatchSize(es) >= 8 + 14 * |es|
    ensures forall i :: 0 <= i < |es| ==> BatchSize(es) >= 4 * |es[i].targets|
  {
    if es != [] { SizeAtLeast(es[1..]); }
  }

  lemma {:induction false} ParseIdsConsumes(b: seq<byte>, n: nat)
    ensures var p := ParseIds(b, n); p.Parsed? ==> |b| == 4 * |p.value| + |p.rest|
  {
    if n > 0 && |b| >= 4 { ParseIdsConsumes(b[4..], n - 1); }
  }

  lemma ParseEventConsumes(b: seq<byte>)
    ensures var p := ParseEvent(b); p.Parsed? ==> |b| == 14 + 4 * |p.value.targets| + |p.rest|
  {
    if |b| >= 14 {
      var n := FromI32(b[10..14]);
      ParseIdsConsumes(b[14..], if n < 0 then 0 else n);
    }
  }

  lemma {:induction false} ParseEventsConsumes(b: seq<byte>, n: nat)
    ensures var p := ParseEvents(b, n); p.Parsed? ==> |b| + 8 == BatchSize(p.value) + |p.rest|
    decreases n
  {
    if n > 0 && ParseEvent(b).Parsed? {
      ParseEventConsumes(b);
      ParseEventsConsumes(ParseEvent(b).rest, n - 1);
      var more := ParseEvents(ParseEvent(b).rest, n - 1);
      if more.Parsed? { assert ([ParseEvent(b).value] + more.value)[1..] == more.value; }
    }
  }

  // A batch that is decoded from a payload is no larger than that payload says.
  lemma ParseBatchFits(b: seq<byte>)
    ensures ParseBatch(b).Some? ==> BatchSize(ParseBatch(b).value) <= |b| + 4
  {
    if |b| >= 4 {
      var n := FromI32(b[..4]);
      ParseEventsConsumes(b[4..], if n < 0 then 0 else n);
    }
  }

  lemma BatchRoundTrip(es: seq<AttackEvent>)
    requires BatchSize(es) <= 0xFFFF
    ensures ParseBatch(EncodeBatch(es)) == Some(es) && |EncodeBatch(es)| + 4 == BatchSize(es)
  {
    SizeAtLeast(es);
    EventsRoundTrip(es);
    EventsSize(es);
    CountSmall(|es|);
    ConcatParts(I32(Count(|es|)), EncodeEvents(es));
  }

  /** A peer that frames the packet and decodes its payload gets the events back exactly when the packet
      fits its 16-bit size field; a larger batch is never recovered. */
  lemma BatchRecoveredIff(es: seq<AttackEvent>, known: set<uint16>)
    requires ATTACK_NOTIFY in known
    ensures var ps := Extract(Finished(Packet(ATTACK_NOTIFY, EncodeBatch(es))), known).packets;
            (ps != [] && ParseBatch(ps[0].payload) == Some(es)) <==> BatchSize(es) <= 0xFFFF
  {
    var p := Packet(ATTACK_NOTIFY, EncodeBatch(es));
    if BatchSize(es) <= 0xFFFF {
      BatchRoundTrip(es);
      RoundTripIff(p, known);
    } else {
      ExtractedFit(Finished(p), known);
      var ps := Extract(Finished(p), known).packets;
      if ps != [] { ParseBatchFits(ps[0].payload); }
    }
  }
}
