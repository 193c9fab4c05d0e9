/** The framing done by Session::ProcessPackets, as a function of the bytes received. */
module Framing {
  import opened Wire

  // Why extraction stopped: more bytes are needed, or the session was disconnected.
  datatype Stop = NeedMore | BadSize | UnknownKind

  datatype Extraction = Extraction(packets: seq<Packet>, rest: seq<byte>, stop: Stop)

  function HeaderSize(buf: seq<byte>): uint16
    requires |buf| >= HEADER_SIZE
  {
    FromU16(buf[..2])
  }

  function HeaderKind(buf: seq<byte>): uint16
    requires |buf| >= HEADER_SIZE
  {
    FromU16(buf[2..4])
  }

  // The outcome at the front of the buffer: None if a packet is there, else the reason to stop.
  function StopAt(buf: seq<byte>, known: set<uint16>): Option<Stop>
  {
    if |buf| < HEADER_SIZE then Some(NeedMore)
    else if HeaderSize(buf) < HEADER_SIZE then Some(BadSize)
    else if |buf| < HeaderSize(buf) then Some(NeedMore)
    else if HeaderKind(buf) !in known then Some(UnknownKind)
    else None
  }

  function Extract(buf: seq<byte>, known: set<uint16>): Extraction
    decreases |buf|
  {
    match StopAt(buf, known)
    case Some(stop) => Extraction([], buf, stop)
    case None =>
      var size := HeaderSize(buf);
      var e := Extract(buf[size..], known);
      e.(packets := [Packet(HeaderKind(buf), buf[HEADER_SIZE..size])] + e.packets)
  }

  // Only whole packets are consumed.
  lemma {:induction false} ExtractSplits(buf: seq<byte>, known: set<uint16>)
    ensures buf == Encoded(Extract(buf, known).packets) + Extract(buf, known).rest
    decreases |buf|
  {
    if StopAt(buf, known).None? {
      var size := HeaderSize(buf);
      var first, tail := Packet(HeaderKind(buf), buf[HEADER_SIZE..size]), Extract(buf[size..], known);
      ExtractSplits(buf[size..], known);
      FinishedIsPrefix(buf);
      EncodedCons(first, tail.packets);
      ConcatAssoc(Finished(first), Encoded(tail.packets), tail.rest);
      SplitAt(buf, size);
    } else {
      assert buf == [] + buf;
    }
  }

  // Each packet extracted is of a known kind and takes at least a header's worth of bytes.
  lemma {:induction false} ExtractedFit(buf: seq<byte>, known: set<uint16>)
    ensures var e := Extract(buf, known);
            && HEADER_SIZE * |e.packets| + |e.rest| <= |buf|
            && forall i :: 0 <= i < |e.packets| ==> e.packets[i].kind in known && FitsHeader(e.packets[i])
    decreases |buf|
  {
    if StopAt(buf, known).None? { ExtractedFit(buf[HeaderSize(buf)..], known); }
  }

  // Extraction stops at the first place where it must.
  lemma {:induction false} RestStops(buf: seq<byte>, known: set<uint16>)
    ensures var e := Extract(buf, known);
            StopAt(e.rest, known) == Some(e.stop)
    decreases |buf|
  {
    if StopAt(buf, known).None? { RestStops(buf[HeaderSize(buf)..], known); }
  }

  lemma EncodedCons(p: Packet, ps: seq<Packet>)
    ensures Encoded([p] + ps) == Finished(p) + Encoded(ps)
  {
    assert ([p] + ps)[1..] == ps;
  }

  lemma FinishedIsPrefix(buf: seq<byte>)
    requires |buf| >= HEADER_SIZE && HEADER_SIZE <= HeaderSize(buf) <= |buf|
    ensures var size := HeaderSize(buf);
            Finished(Packet(HeaderKind(buf), buf[HEADER_SIZE..size])) == buf[..size]
  {
    var size := HeaderSize(buf);
    assert U16(size) == buf[..2];
    assert U16(HeaderKind(buf)) == buf[2..4];
    assert buf[..size] == buf[..2] + buf[2..4] + buf[4..size];
  }

  function Encoded(ps: seq<Packet>): seq<byte>
  {
    if ps == [] then [] else Finished(ps[0]) + Encoded(ps[1..])
  }

  // -------- Chunking --------

  /** Later bytes never change what was extracted; they only continue from the unconsumed rest. */
  lemma {:induction false} ExtractAppend(a: seq<byte>, b: seq<byte>, known: set<uint16>)
    ensures var ea, e := Extract(a, known), Extract(a + b, known);
            if ea.stop == NeedMore then
              var er := Extract(ea.rest + b, known);
              e == Extraction(ea.packets + er.packets, er.rest, er.stop)
            else
              e == Extraction(ea.packets, ea.rest + b, ea.stop)
    decreases |a|
  {
    if |a| >= HEADER_SIZE {
      assert (a + b)[..2] == a[..2] && (a + b)[2..4] == a[2..4];
      if StopAt(a, known).None? {
        var size := HeaderSize(a);
        assert (a + b)[size..] == a[size..] + b;
        assert (a + b)[HEADER_SIZE..size] == a[HEADER_SIZE..size];
        ExtractAppend(a[size..], b, known);
        var first := [Packet(HeaderKind(a), a[HEADER_SIZE..size])];
        var tail := Extract(a[size..], known);
        ConcatAssoc(first, tail.packets, Extract(tail.rest + b, known).packets);
      }
    }
  }

  // The receive loop over chunks: append and extract until the session disconnects.
  function Feed(e: Extraction, chunks: seq<seq<byte>>, known: set<uint16>): Extraction
    decreases |chunks|
  {
    if chunks == [] || e.stop != NeedMore then e
    else
      var next := Extract(e.rest + chunks[0], known);
      Feed(next.(packets := e.packets + next.packets), chunks[1..], known)
  }

  const Empty := Extraction([], [], NeedMore)

  /** However the stream is cut into chunks, the packets extracted and the verdict are those of the
      whole stream; while the session stays open the unconsumed bytes agree too. */
  lemma {:induction false} ChunkingIrrelevant(chunks: seq<seq<byte>>, known: set<uint16>)
    ensures var f, e := Feed(Empty, chunks, known), Extract(Flatten(chunks), known);
            && f.packets == e.packets && f.stop == e.stop
            && (e.stop == NeedMore ==> f.rest == e.rest)
  {
    FeedIsExtract(Empty, chunks, known);
    assert [] + Flatten(chunks) == Flatten(chunks);
  }

  lemma {:induction false} FeedIsExtract(s: Extraction, chunks: seq<seq<byte>>, known: set<uint16>)
    requires s.stop == NeedMore && StopAt(s.rest, known) == Some(NeedMore)
    ensures Delivers(Feed(s, chunks, known), s, Extract(s.rest + Flatten(chunks), known))
    decreases |chunks|
  {
    if chunks == [] {
      assert s.rest + Flatten(chunks) == s.rest;
    } else {
      var here, later := s.rest + chunks[0], Flatten(chunks[1..]);
      var next := Extract(here, known);
      assert s.rest + Flatten(chunks) == here + later;
      ExtractAppend(here, later, known);
      var s' := next.(packets := s.packets + next.packets);
      assert Feed(s, chunks, known) == Feed(s', chunks[1..], known);
      if next.stop == NeedMore {
        assert StopAt(next.rest, known) == Some(NeedMore) by { RestStops(here, known); }
        FeedIsExtract(s', chunks[1..], known);
        ConcatAssoc(s.packets, next.packets, Extract(next.rest + later, known).packets);
      }
    }
  }

  // f, reached from s, holds what extraction e adds to s.
  ghost predicate Delivers(f: Extraction, s: Extraction, e: Extraction)
  {
    f.packets == s.packets + e.packets && f.stop == e.stop && (e.stop == NeedMore ==> f.rest == e.rest)
  }

  // -------- Writer and framing are inverse --------

  lemma ExtractFinished(p: Packet, b: seq<byte>, known: set<uint16>)
    requires p.kind in known && FitsHeader(p)
    ensures var e := Extract(b, known);
            Extract(Finished(p) + b, known) == e.(packets := [p] + e.packets)
  {
    var buf := Finished(p) + b;
    assert buf[..2] == U16(HEADER_SIZE + |p.payload|);
    assert buf[2..4] == U16(p.kind);
    assert buf[HEADER_SIZE..HeaderSize(buf)] == p.payload;
    assert buf[HeaderSize(buf)..] == b;
  }

  /** Finished packets, sent back to back, come out as the original list, with nothing left over. */
  lemma {:induction false} EncodedRoundTrip(ps: seq<Packet>, known: set<uint16>)
    requires forall p | p in ps :: p.kind in known && FitsHeader(p)
    ensures Extract(Encoded(ps), known) == Extraction(ps, [], NeedMore)
  {
    if ps != [] {
      EncodedRoundTrip(ps[1..], known);
      ExtractFinished(ps[0], Encoded(ps[1..]), known);
      assert [ps[0]] + ps[1..] == ps;
    }
  }

  /** One finished packet survives the trip exactly when its total size fits the 16-bit header field. */
  lemma RoundTripIff(p: Packet, known: set<uint16>)
    requires p.kind in known
    ensures Extract(Finished(p), known).packets == [p] <==> FitsHeader(p)
  {
    if FitsHeader(p) {
      EncodedRoundTrip([p], known);
      assert Encoded([p]) == Finished(p);
    } else {
      ExtractedFit(Finished(p), known);
      assert p !in Extract(Finished(p), known).packets;
    }
  }

  /** Writer, arbitrary chunking and framing together lose, add and reorder nothing. */
  lemma StreamDelivery(ps: seq<Packet>, chunks: seq<seq<byte>>, known: set<uint16>)
    requires forall p | p in ps :: p.kind in known && FitsHeader(p)
    requires Flatten(chunks) == Encoded(ps)
    ensures Feed(Empty, chunks, known) == Extraction(ps, [], NeedMore)
  {
    ChunkingIrrelevant(chunks, known);
    EncodedRoundTrip(ps, known);
  }
}
