/** node/ble/framing.py: length-prefixed frames over an ordered byte stream. */
module Framing {
  import opened Wire

  const MAX_FRAME := 460

  /** Big-endian 16-bit length at the head of `s`. */
  function Length(s: Bytes): (n: nat)
    requires |s| >= 2
  {
    256 * (s[0] as int) + s[1] as int
  }

  /** `frame`; `struct.pack(">H", ...)` has no encoding for lengths above 65535. */
  function Frame(packet: Bytes): Option<Bytes> {
    if |packet| >= 0x10000 then None else Some([|packet| / 256, |packet| % 256] + packet)
  }

  /** `chunk`: consecutive pieces of `size` bytes, the last one possibly shorter. */
  function Chunk(framed: Bytes, size: nat): (pieces: seq<Bytes>)
    requires size > 0
  {
    if framed == [] then []
    else if |framed| <= size then [framed]
    else [framed[..size]] + Chunk(framed[size..], size)
  }

  lemma {:induction false} ChunkJoins(framed: Bytes, size: nat)
    requires size > 0
    ensures Flatten(Chunk(framed, size)) == framed
    ensures forall i :: 0 <= i < |Chunk(framed, size)| ==> 0 < |Chunk(framed, size)[i]| <= size
    ensures forall i :: 0 <= i < |Chunk(framed, size)| - 1 ==> |Chunk(framed, size)[i]| == size
  {
    if |framed| > size {
      ChunkJoins(framed[size..], size);
      assert Chunk(framed, size)[1..] == Chunk(framed[size..], size);
    } else if framed != [] {
      FlattenOne(framed);
    }
  }

  // ---------------------------------------------------------------- reference

  /** What the sender writes for a packet the receiver can take. */
  function Framed(packet: Bytes): (f: Bytes)
    requires |packet| <= MAX_FRAME
  {
    Frame(packet).value
  }

  predicate Fits(packets: seq<Bytes>) {
    forall p :: p in packets ==> |p| <= MAX_FRAME
  }

  function FrameAll(packets: seq<Bytes>): Bytes
    requires Fits(packets)
  {
    if packets == [] then [] else Framed(packets[0]) + FrameAll(packets[1..])
  }

  /** A proper beginning of some acceptable frame: more bytes are needed. */
  predicate Incomplete(s: Bytes) {
    |s| < 2 || (Length(s) <= MAX_FRAME && |s| < 2 + Length(s))
  }

  /** A length prefix no sender writes. */
  predicate BadHeader(s: Bytes) {
    |s| >= 2 && Length(s) > MAX_FRAME
  }

  /** What one call of `feed` on an empty buffer sees in `s`. */
  datatype Decoded = Decoded(packets: seq<Bytes>, rest: Bytes, corrupt: bool)

  function Decode(s: Bytes): Decoded
    decreases |s|
  {
    if |s| < 2 then Decoded([], s, false)
    else if Length(s) > MAX_FRAME then Decoded([], [], true)
    else if |s| < 2 + Length(s) then Decoded([], s, false)
    else
      var d := Decode(s[2 + Length(s)..]);
      Decoded([s[2..2 + Length(s)]] + d.packets, d.rest, d.corrupt)
  }

  lemma FramedHead(p: Bytes, t: Bytes)
    requires |p| <= MAX_FRAME
    ensures |Framed(p)| == 2 + |p| && Length(Framed(p) + t) == |p|
    ensures (Framed(p) + t)[2..2 + |p|] == p && (Framed(p) + t)[2 + |p|..] == t
  {
    var s := Framed(p) + t;
    assert s == [|p| / 256, |p| % 256] + (p + t);
    assert s[0] == |p| / 256 && s[1] == |p| % 256;
    assert s[2..2 + |p|] == p;
  }

  lemma DecodeFrame(p: Bytes, t: Bytes)
    requires |p| <= MAX_FRAME
    ensures Decode(Framed(p) + t) == Prepend([p], Decode(t))
  {
    FramedHead(p, t);
  }

  lemma FrameAllCons(p: Bytes, ps: seq<Bytes>, t: Bytes)
    requires |p| <= MAX_FRAME && Fits(ps)
    ensures Fits([p] + ps) && FrameAll([p] + ps) + t == Framed(p) + (FrameAll(ps) + t)
  {
    assert ([p] + ps)[1..] == ps;
  }

  function Prepend(ps: seq<Bytes>, d: Decoded): Decoded {
    Decoded(ps + d.packets, d.rest, d.corrupt)
  }

  lemma PrependTwice(p: Bytes, ps: seq<Bytes>, d: Decoded)
    ensures Prepend([p], Prepend(ps, d)) == Prepend([p] + ps, d)
  {
    assert [p] + (ps + d.packets) == ([p] + ps) + d.packets;
  }

  /** Whole frames at the head of a stream are found, whatever follows them. */
  lemma {:induction false} DecodeFinds(ps: seq<Bytes>, t: Bytes)
    requires Fits(ps)
    ensures Decode(FrameAll(ps) + t) == Prepend(ps, Decode(t))
  {
    if ps == [] {
      assert FrameAll(ps) + t == t;
    } else {
      var p, rest, d := ps[0], ps[1..], Decode(t);
      var u := FrameAll(rest) + t;
      calc {
        Decode(FrameAll(ps) + t);
        { assert ps == [p] + rest; FrameAllCons(p, rest, t); }
        Decode(Framed(p) + u);
        { DecodeFrame(p, u); }
        Prepend([p], Decode(u));
        { DecodeFinds(rest, t); }
        Prepend([p], Prepend(rest, d));
        { PrependTwice(p, rest, d); assert ps == [p] + rest; }
        Prepend(ps, d);
      }
    }
  }

  /** `s` is the frames of `d.packets` followed by `tail`: an incomplete frame that stays in the buffer, or a
      length prefix above the limit, at which everything left is thrown away. */
  predicate Reads(s: Bytes, d: Decoded, tail: Bytes) {
    && Fits(d.packets)
    && s == FrameAll(d.packets) + tail
    && if d.corrupt then BadHeader(tail) && d.rest == [] else Incomplete(tail) && d.rest == tail
  }

  lemma ReadsOneMore(p: Bytes, later: Bytes, d: Decoded, tail: Bytes)
    requires |p| <= MAX_FRAME && Reads(later, d, tail)
    ensures Reads(Framed(p) + later, Prepend([p], d), tail)
  {
    FrameAllCons(p, d.packets, tail);
  }

  lemma ReadsNothing(s: Bytes)
    requires Incomplete(s) || BadHeader(s)
    ensures Reads(s, Decode(s), s)
  {
    assert FrameAll([]) + s == s;
  }

  lemma LengthBytes(a: Byte, b: Byte)
    ensures (256 * (a as int) + b as int) / 256 == a as int && (256 * (a as int) + b as int) % 256 == b as int
  {
  }

  lemma CutFrame(s: Bytes) returns (p: Bytes, later: Bytes)
    requires |s| >= 2 && Length(s) <= MAX_FRAME && |s| >= 2 + Length(s)
    ensures p == s[2..2 + Length(s)] && later == s[2 + Length(s)..]
    ensures |p| <= MAX_FRAME && s == Framed(p) + later
  {
    p, later := s[2..2 + Length(s)], s[2 + Length(s)..];
    LengthBytes(s[0], s[1]);
    assert Framed(p) == [s[0], s[1]] + p;
  }

  lemma {:induction false} DecodeShape(s: Bytes) returns (d: Decoded, tail: Bytes)
    ensures d == Decode(s) && Reads(s, d, tail)
    decreases |s|
  {
    if Incomplete(s) || BadHeader(s) {
      ReadsNothing(s);
      d, tail := Decode(s), s;
    } else {
      var p, later := CutFrame(s);
      var d', tail' := DecodeShape(later);
      DecodeFrame(p, later);
      ReadsOneMore(p, later, d', tail');
      d, tail := Prepend([p], d'), tail';
    }
  }

  /** The decoder is determined by the grammar alone: any reading of `s` as frames plus remainder is the one
      `Decode` reports. */
  lemma DecodeUnique(s: Bytes, ps: seq<Bytes>, t: Bytes)
    requires Fits(ps) && s == FrameAll(ps) + t
    ensures Incomplete(t) ==> Decode(s) == Decoded(ps, t, false)
    ensures BadHeader(t) ==> Decode(s) == Decoded(ps, [], true)
  {
    DecodeFinds(ps, t);
    assert ps + [] == ps;
  }

  /** A frame is its packet behind the length in two bytes, the high one first; there is none for longer packets. */
  lemma FrameLayout(p: Bytes)
    ensures Frame(p).None? <==> |p| >= 0x10000
    ensures Frame(p).Some? ==>
              var f := Frame(p).value;
              |f| == 2 + |p| && 256 * (f[0] as int) + f[1] as int == |p| && f[2..] == p
  {
  }

  /** `feed(frame(p))` gives back exactly `[p]` when, and only when, the packet is within the limit. */
  lemma FrameRoundTrip(p: Bytes)
    requires |p| < 0x10000
    ensures Decode(Frame(p).value) == Decoded([p], [], false) <==> |p| <= 460
  {
    var f := Frame(p).value;
    if |p| <= MAX_FRAME {
      assert [p][1..] == [];
      assert FrameAll([p]) + [] == f;
      DecodeUnique(f, [p], []);
    } else {
      assert f[0] == |p| / 256 && f[1] == |p| % 256;
    }
  }

  // ------------------------------------------------------------------ feeding

  datatype FeedResult = Packets(packets: seq<Bytes>) | Corrupt

  /** A call that raises hands over nothing. */
  function PacketsOf(r: FeedResult): seq<Bytes> {
    if r.Packets? then r.packets else []
  }

  function FeedReturns(buf: Bytes, data: Bytes): FeedResult {
    var d := Decode(buf + data);
    if d.corrupt then Corrupt else Packets(d.packets)
  }

  function FeedLeaves(buf: Bytes, data: Bytes): Bytes {
    Decode(buf + data).rest
  }

  /** All the packets a sequence of `feed` calls returns, and the buffer it ends with. */
  datatype Fed = Fed(packets: seq<Bytes>, buf: Bytes)

  function FeedAll(buf: Bytes, feeds: seq<Bytes>): Fed
    decreases |feeds|
  {
    if feeds == [] then Fed([], buf)
    else
      var later := FeedAll(FeedLeaves(buf, feeds[0]), feeds[1..]);
      Fed(PacketsOf(FeedReturns(buf, feeds[0])) + later.packets, later.buf)
  }

  /** Whatever arrives, the buffer never holds a whole frame, and stays below 462 bytes. */
  lemma FeedLeavesNoFrame(buf: Bytes, data: Bytes)
    ensures Incomplete(FeedLeaves(buf, data))
    ensures |FeedLeaves(buf, data)| < MAX_FRAME + 2
    ensures FeedReturns(buf, data).Corrupt? ==> FeedLeaves(buf, data) == []
  {
    var d, tail := DecodeShape(buf + data);
  }

  lemma DecodeAfter(ps: seq<Bytes>, t: Bytes, b: Bytes)
    requires Fits(ps)
    ensures Decode((FrameAll(ps) + t) + b) == Prepend(ps, Decode(t + b))
  {
    assert (FrameAll(ps) + t) + b == FrameAll(ps) + (t + b);
    DecodeFinds(ps, t + b);
  }

  /** Decoding a clean stream can stop anywhere and be resumed from the remainder. */
  lemma DecodeResumes(a: Bytes, b: Bytes)
    requires !Decode(a).corrupt
    ensures Decode(a + b) == Prepend(Decode(a).packets, Decode(Decode(a).rest + b))
  {
    var d, tail := DecodeShape(a);
    DecodeAfter(d.packets, tail, b);
  }

  lemma CorruptStaysCorrupt(a: Bytes, b: Bytes)
    requires Decode(a).corrupt
    ensures Decode(a + b).corrupt
  {
    var d, tail := DecodeShape(a);
    DecodeAfter(d.packets, tail, b);
    assert (tail + b)[0] == tail[0] && (tail + b)[1] == tail[1];
  }

  /** On a clean stream the feeds, however it was cut, return what one decode of the whole stream returns. */
  lemma {:induction false} FeedsRefineDecode(buf: Bytes, feeds: seq<Bytes>)
    requires Incomplete(buf)
    requires !Decode(buf + Flatten(feeds)).corrupt
    ensures FeedAll(buf, feeds) == Fed(Decode(buf + Flatten(feeds)).packets, Decode(buf + Flatten(feeds)).rest)
    decreases |feeds|
  {
    if feeds == [] {
      assert buf + [] == buf;
    } else {
      var whole := buf + Flatten(feeds);
      var a, b := buf + feeds[0], Flatten(feeds[1..]);
      assert whole == a + b;
      if Decode(a).corrupt {
        CorruptStaysCorrupt(a, b);
        assert false;
      }
      DecodeResumes(a, b);
      FeedLeavesNoFrame(buf, feeds[0]);
      FeedsRefineDecode(Decode(a).rest, feeds[1..]);
    }
  }

  ghost predicate CutDoesNotMatter(s: Bytes) {
    forall feeds: seq<Bytes> :: Flatten(feeds) == s ==> FeedAll([], feeds) == FeedAll([], [s])
  }

  lemma FeedOnce(s: Bytes)
    ensures FeedAll([], [s]) == if Decode(s).corrupt then Fed([], []) else Fed(Decode(s).packets, Decode(s).rest)
  {
    assert [] + s == s;
    assert [s][1..] == [];
    assert FeedAll(Decode(s).rest, []) == Fed([], Decode(s).rest);
    var d, tail := DecodeShape(s);
    if !Decode(s).corrupt {
      assert Decode(s).packets + [] == Decode(s).packets;
    }
  }

  lemma FeedTwice(a: Bytes, b: Bytes)
    ensures FeedAll([], [a, b]).buf == FeedLeaves(FeedLeaves([], a), b)
    ensures !Decode(a).corrupt ==> Decode(a).packets <= FeedAll([], [a, b]).packets
  {
    assert [] + a == a;
    assert [a, b][1..] == [b] && FeedAll(FeedLeaves([], a), [a, b][1..]) == FeedAll(FeedLeaves([], a), [b]);
    var buf := FeedLeaves(FeedLeaves([], a), b);
    assert [b][1..] == [] && FeedAll(buf, [b][1..]) == Fed([], buf);
  }

  /** "Chunk boundaries carry no meaning": true of a stream exactly when it is clean, or is nothing but a bad
      two-byte prefix. On every other corrupt stream the packets before the bad prefix, or the bytes after
      it, survive one cutting and are lost under another. */
  lemma BoundariesCarryNoMeaning(s: Bytes)
    ensures CutDoesNotMatter(s) <==> !Decode(s).corrupt || |s| == 2
  {
    FeedOnce(s);
    if !Decode(s).corrupt {
      forall feeds: seq<Bytes> | Flatten(feeds) == s
        ensures FeedAll([], feeds) == FeedAll([], [s])
      {
        assert [] + s == s;
        FeedsRefineDecode([], feeds);
      }
    } else if |s| == 2 {
      forall feeds: seq<Bytes> | Flatten(feeds) == s
        ensures FeedAll([], feeds) == FeedAll([], [s])
      {
        BarePrefixIsDropped([], feeds, s);
      }
    } else {
      CutThatMatters(s);
    }
  }

  lemma {:induction false} FeedNothing(buf: Bytes, feeds: seq<Bytes>)
    requires |buf| < 2 && Flatten(feeds) == []
    ensures FeedAll(buf, feeds) == Fed([], buf)
    decreases |feeds|
  {
    if feeds != [] {
      assert buf + feeds[0] == buf;
      FeedNothing(buf, feeds[1..]);
    }
  }

  lemma {:induction false} BarePrefixIsDropped(buf: Bytes, feeds: seq<Bytes>, s: Bytes)
    requires |buf| < 2 && buf + Flatten(feeds) == s && |s| == 2 && BadHeader(s)
    ensures FeedAll(buf, feeds) == Fed([], [])
    decreases |feeds|
  {
    if feeds == [] {
      assert false;
    } else {
      var a := buf + feeds[0];
      assert s == a + Flatten(feeds[1..]);
      if |a| < 2 {
        BarePrefixIsDropped(a, feeds[1..], s);
      } else {
        assert a == s;
        FeedNothing([], feeds[1..]);
      }
    }
  }

  lemma TwoPieces(a: Bytes, b: Bytes)
    ensures Flatten([a, b]) == a + b
  {
    FlattenOne(a);
    FlattenSnoc([a], b);
    assert [a] + [b] == [a, b];
  }

  lemma CutThatMatters(s: Bytes)
    requires Decode(s).corrupt && |s| != 2
    ensures !CutDoesNotMatter(s)
  {
    FeedOnce(s);
    var d, tail := DecodeShape(s);
    var feeds: seq<Bytes>;
    if d.packets != [] {
      feeds := KeptByOneCut(s, d.packets, tail);
    } else {
      assert s == tail;
      feeds := LostByOneCut(s);
    }
    assert Flatten(feeds) == s && FeedAll([], feeds) != FeedAll([], [s]);
  }

  /** Cutting just before the bad prefix saves the packets ahead of it. */
  lemma KeptByOneCut(s: Bytes, ps: seq<Bytes>, tail: Bytes) returns (feeds: seq<Bytes>)
    requires Fits(ps) && ps != [] && s == FrameAll(ps) + tail
    ensures Flatten(feeds) == s && FeedAll([], feeds).packets != []
  {
    var a := FrameAll(ps);
    feeds := [a, tail];
    assert a + [] == a;
    DecodeUnique(a, ps, []);
    TwoPieces(a, tail);
    FeedTwice(a, tail);
  }

  /** Cutting before the last byte saves that byte. */
  lemma LostByOneCut(s: Bytes) returns (feeds: seq<Bytes>)
    requires BadHeader(s) && |s| > 2
    ensures Flatten(feeds) == s && FeedAll([], feeds).buf != []
  {
    var a, b := s[..|s| - 1], s[|s| - 1..];
    feeds := [a, b];
    assert a[0] == s[0] && a[1] == s[1];
    assert [] + a == a && [] + b == b && Decode(b).rest == b;
    TwoPieces(a, b);
    FeedTwice(a, b);
  }

  /** The per-peer reassembler. */
  class FrameAssembler {
    var buf: Bytes

    constructor ()
      ensures buf == []
    {
      buf := [];
    }

    method Feed(data: Bytes) returns (r: FeedResult)
      modifies this
      ensures r == FeedReturns(old(buf), data)
      ensures buf == FeedLeaves(old(buf), data)
    {
      buf := buf + data;
      ghost var whole := Decode(buf);
      var packets: seq<Bytes> := [];
      while |buf| >= 2
        invariant whole == Prepend(packets, Decode(buf))
        decreases |buf|
      {
        var length := Length(buf);
        if length > MAX_FRAME {
          buf := [];
          return Corrupt;
        }
        if |buf| < 2 + length {
          break;
        }
        assert Decode(buf) == Prepend([buf[2..2 + length]], Decode(buf[2 + length..]));
        packets := packets + [buf[2..2 + length]];
        buf := buf[2 + length..];
      }
      r := Packets(packets);
    }

    method Reset()
      modifies this
      ensures buf == []
    {
      buf := [];
    }
  }
}
