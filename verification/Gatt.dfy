/** node/ble/base.py, inbound half: one reassembler per connected phone. */
module Gatt {
  import opened Wire
  import opened Framing

  type Peer = string

  datatype Event = Chunk(peer: Peer, data: Bytes) | Connect(peer: Peer) | Disconnect(peer: Peer)

  /** Callbacks made to the transport layer. */
  datatype Call = OnPacket(peer: Peer, packet: Bytes) | OnConnect(peer: Peer) | OnDisconnect(peer: Peer)

  /** Which of the three optional callbacks are installed. */
  datatype Hooks = Hooks(packet: bool, connect: bool, disconnect: bool)

  datatype State = State(bufs: map<Peer, Bytes>, connected: set<Peer>)

  datatype Stepped = Stepped(state: State, calls: seq<Call>)

  const BOOT := State(map[], {})

  function Buf(s: State, p: Peer): Bytes {
    if p in s.bufs then s.bufs[p] else []
  }

  function PacketCalls(h: Hooks, p: Peer, r: FeedResult): seq<Call> {
    var packets := PacketsOf(r);
    if h.packet then seq(|packets|, i requires 0 <= i < |packets| => OnPacket(p, packets[i])) else []
  }

  function Step(h: Hooks, s: State, e: Event): Stepped {
    match e
    case Chunk(p, data) =>
      Stepped(State(s.bufs[p := FeedLeaves(Buf(s, p), data)], s.connected + {p}),
              PacketCalls(h, p, FeedReturns(Buf(s, p), data)))
    case Connect(p) =>
      Stepped(s.(connected := s.connected + {p}),
              if h.connect && p !in s.connected then [OnConnect(p)] else [])
    case Disconnect(p) =>
      Stepped(State(s.bufs - {p}, s.connected - {p}), if h.disconnect then [OnDisconnect(p)] else [])
  }

  method DeliverAll(h: Hooks, p: Peer, packets: seq<Bytes>) returns (calls: seq<Call>)
    ensures calls == PacketCalls(h, p, Packets(packets))
  {
    calls := [];
    for i := 0 to |packets|
      invariant calls == PacketCalls(h, p, Packets(packets[..i]))
    {
      if h.packet {
        calls := calls + [OnPacket(p, packets[i])];
      }
    }
    assert packets[..|packets|] == packets;
  }

  class GattServer {
    var assemblers: map<Peer, FrameAssembler>
    var connected: set<Peer>
    var hooks: Hooks

    /** No two phones share a reassembler. */
    ghost predicate Valid()
      reads this
    {
      forall p, q :: p in assemblers && q in assemblers && p != q ==> assemblers[p] != assemblers[q]
    }

    ghost function Now(): State
      reads this, assemblers.Values
    {
      State(map p | p in assemblers :: assemblers[p].buf, connected)
    }

    constructor (h: Hooks)
      ensures Valid() && Now() == BOOT && hooks == h
    {
      assemblers, connected, hooks := map[], {}, h;
    }

    method HandleChunk(p: Peer, data: Bytes) returns (calls: seq<Call>)
      requires Valid()
      modifies this, assemblers.Values
      ensures Valid() && hooks == old(hooks)
      ensures forall a :: a in assemblers.Values ==> a in old(assemblers.Values) || fresh(a)
      ensures Stepped(Now(), calls) == Step(hooks, old(Now()), Chunk(p, data))
    {
      hide FeedLeaves, FeedReturns;
      connected := connected + {p};
      if p !in assemblers {
        var a := new FrameAssembler();
        assemblers := assemblers[p := a];
      }
      assert Buf(old(Now()), p) == assemblers[p].buf;
      var r := assemblers[p].Feed(data);
      assert Now().bufs == old(Now()).bufs[p := FeedLeaves(Buf(old(Now()), p), data)];
      if r.Corrupt? {
        return [];
      }
      calls := DeliverAll(hooks, p, r.packets);
    }

    method PeerConnected(p: Peer) returns (calls: seq<Call>)
      requires Valid()
      modifies this
      ensures Valid() && hooks == old(hooks) && assemblers == old(assemblers)
      ensures Stepped(Now(), calls) == Step(hooks, old(Now()), Connect(p))
    {
      var isNew := p !in connected;
      connected := connected + {p};
      calls := if isNew && hooks.connect then [OnConnect(p)] else [];
    }

    method PeerDisconnected(p: Peer) returns (calls: seq<Call>)
      requires Valid()
      modifies this
      ensures Valid() && hooks == old(hooks) && assemblers == old(assemblers) - {p}
      ensures Stepped(Now(), calls) == Step(hooks, old(Now()), Disconnect(p))
    {
      connected := connected - {p};
      assemblers := assemblers - {p};
      calls := if hooks.disconnect then [OnDisconnect(p)] else [];
    }
  }

  // --------------------------------------------------------------- whole runs

  /** The state and all callbacks after the events `es`, oldest first, from boot. */
  function Run(h: Hooks, es: seq<Event>): Stepped {
    if es == [] then Stepped(BOOT, [])
    else
      var before := Run(h, es[..|es| - 1]);
      var last := Step(h, before.state, es[|es| - 1]);
      Stepped(last.state, before.calls + last.calls)
  }

  /** The packets delivered for one phone. */
  function Delivered(calls: seq<Call>, p: Peer): seq<Bytes> {
    if calls == [] then []
    else
      var c := calls[|calls| - 1];
      Delivered(calls[..|calls| - 1], p) + if c.OnPacket? && c.peer == p then [c.packet] else []
  }

  lemma {:induction false} DeliveredAppend(a: seq<Call>, b: seq<Call>, p: Peer)
    ensures Delivered(a + b, p) == Delivered(a, p) + Delivered(b, p)
    decreases |b|
  {
    if b == [] {
      assert a + b == a;
    } else {
      assert (a + b)[..|a + b| - 1] == a + b[..|b| - 1];
      DeliveredAppend(a, b[..|b| - 1], p);
    }
  }

  lemma {:induction false} DeliveredCalls(h: Hooks, q: Peer, r: FeedResult, p: Peer)
    ensures Delivered(PacketCalls(h, q, r), p) == if h.packet && q == p then PacketsOf(r) else []
    decreases |PacketsOf(r)|
  {
    var ps, calls := PacketsOf(r), PacketCalls(h, q, r);
    if h.packet && ps != [] {
      var init := Packets(ps[..|ps| - 1]);
      DeliveredCalls(h, q, init, p);
      assert calls[..|calls| - 1] == PacketCalls(h, q, init);
      assert ps == init.packets + [ps[|ps| - 1]];
    }
  }

  /** The part of a run that concerns one phone. */
  function Own(es: seq<Event>, p: Peer): seq<Event> {
    if es == [] then []
    else
      var e := es[|es| - 1];
      Own(es[..|es| - 1], p) + if e.peer == p then [e] else []
  }

  function AloneTakes(f: Fed, e: Event): Fed {
    match e
    case Chunk(_, data) => Fed(f.packets + PacketsOf(FeedReturns(f.buf, data)), FeedLeaves(f.buf, data))
    case Connect(_) => f
    case Disconnect(_) => f.(buf := [])
  }

  /** One assembler fed one phone's chunks, and replaced by a new one at each disconnect. */
  function Alone(own: seq<Event>): Fed {
    if own == [] then Fed([], []) else AloneTakes(Alone(own[..|own| - 1]), own[|own| - 1])
  }

  lemma AloneStep(own: seq<Event>, e: Event)
    ensures Alone(own + [e]) == AloneTakes(Alone(own), e)
  {
    assert (own + [e])[..|own|] == own;
  }

  lemma StepIsolation(h: Hooks, s: State, e: Event, p: Peer, f: Fed)
    requires h.packet && Buf(s, p) == f.buf
    ensures e.peer != p ==> Delivered(Step(h, s, e).calls, p) == [] && Buf(Step(h, s, e).state, p) == f.buf
    ensures e.peer == p ==>
              AloneTakes(f, e) == Fed(f.packets + Delivered(Step(h, s, e).calls, p), Buf(Step(h, s, e).state, p))
  {
    match e {
      case Chunk(q, data) => DeliveredCalls(h, q, FeedReturns(Buf(s, q), data), p);
      case _ => assert f.packets + [] == f.packets;
    }
  }

  /** What one phone receives depends on nothing any other phone does. */
  lemma {:induction false} PeerIsolation(h: Hooks, es: seq<Event>, p: Peer)
    requires h.packet
    ensures Alone(Own(es, p)) == Fed(Delivered(Run(h, es).calls, p), Buf(Run(h, es).state, p))
    decreases |es|
  {
    if es != [] {
      var init, e := es[..|es| - 1], es[|es| - 1];
      var before := Run(h, init);
      PeerIsolation(h, init, p);
      StepIsolation(h, before.state, e, p, Alone(Own(init, p)));
      DeliveredAppend(before.calls, Step(h, before.state, e).calls, p);
      if e.peer == p {
        AloneStep(Own(init, p), e);
      } else {
        assert Own(init, p) + [] == Own(init, p);
      }
    }
  }

  /** What a phone wrote, in pieces. */
  function Written(own: seq<Event>): seq<Bytes> {
    if own == [] then []
    else (if own[0].Chunk? then [own[0].data] else []) + Written(own[1..])
  }

  function AndThen(f: Fed, later: Fed): Fed {
    Fed(f.packets + later.packets, later.buf)
  }

  lemma AndThenAssociates(f: Fed, got: seq<Bytes>, later: Fed)
    ensures AndThen(Fed(f.packets + got, later.buf), later) == AndThen(f, Fed(got + later.packets, later.buf))
  {
    assert (f.packets + got) + later.packets == f.packets + (got + later.packets);
  }

  lemma TakesThenFeeds(f: Fed, p: Peer, pieces: seq<Bytes>)
    requires pieces != []
    ensures AndThen(AloneTakes(f, Chunk(p, pieces[0])), FeedAll(FeedLeaves(f.buf, pieces[0]), pieces[1..])) ==
            AndThen(f, FeedAll(f.buf, pieces))
  {
    var r, buf := FeedReturns(f.buf, pieces[0]), FeedLeaves(f.buf, pieces[0]);
    FeedAllHead(f.buf, pieces, r, buf);
    AndThenAssociates(f, PacketsOf(r), FeedAll(buf, pieces[1..]));
  }

  lemma FeedAllHead(buf: Bytes, pieces: seq<Bytes>, r: FeedResult, left: Bytes)
    requires pieces != [] && r == FeedReturns(buf, pieces[0]) && left == FeedLeaves(buf, pieces[0])
    ensures FeedAll(buf, pieces) ==
            Fed(PacketsOf(r) + FeedAll(left, pieces[1..]).packets, FeedAll(left, pieces[1..]).buf)
  {
  }

  lemma {:induction false} AloneFeeds(own: seq<Event>, more: seq<Event>)
    requires forall e :: e in more ==> !e.Disconnect?
    ensures Alone(own + more) == AndThen(Alone(own), FeedAll(Alone(own).buf, Written(more)))
    decreases |more|
  {
    if more == [] {
      assert own + more == own;
    } else {
      var e, later := more[0], more[1..];
      var f := Alone(own);
      calc {
        Alone(own + more);
        { assert own + more == (own + [e]) + later; }
        Alone((own + [e]) + later);
        { AloneFeeds(own + [e], later); }
        AndThen(Alone(own + [e]), FeedAll(Alone(own + [e]).buf, Written(later)));
        { AloneStep(own, e); }
        AndThen(AloneTakes(f, e), FeedAll(AloneTakes(f, e).buf, Written(later)));
        { TakesThenWritten(f, more); }
        AndThen(f, FeedAll(f.buf, Written(more)));
      }
    }
  }

  lemma TakesThenWritten(f: Fed, more: seq<Event>)
    requires more != [] && !more[0].Disconnect?
    ensures AndThen(AloneTakes(f, more[0]), FeedAll(AloneTakes(f, more[0]).buf, Written(more[1..]))) ==
            AndThen(f, FeedAll(f.buf, Written(more)))
  {
    if more[0].Chunk? {
      assert Written(more)[1..] == Written(more[1..]);
      TakesThenFeeds(f, more[0].peer, Written(more));
    } else {
      assert [] + Written(more[1..]) == Written(more[1..]);
    }
  }

  /** A phone that is new, or has been away, and then writes whole frames, in any pieces and with any connect events
      among them, while anything at all happens on other phones, has exactly those packets delivered. */
  lemma CleanSessionDelivered(h: Hooks, es: seq<Event>, more: seq<Event>, p: Peer, packets: seq<Bytes>)
    requires h.packet
    requires var own := Own(es, p); own == [] || own[|own| - 1].Disconnect?
    requires Disconnect(p) !in more
    requires Fits(packets) && Flatten(Written(Own(more, p))) == FrameAll(packets)
    ensures Delivered(Run(h, es + more).calls, p) == Delivered(Run(h, es).calls, p) + packets
  {
    PeerIsolation(h, es + more, p);
    PeerIsolation(h, es, p);
    OwnAppend(es, more, p);
    OwnMembers(more, p);
    AloneFeeds(Own(es, p), Own(more, p));
    FreshFeeds(Written(Own(more, p)), packets);
  }

  lemma {:induction false} OwnMembers(es: seq<Event>, p: Peer)
    ensures forall e :: e in Own(es, p) ==> e in es && e.peer == p
    decreases |es|
  {
    if es != [] {
      OwnMembers(es[..|es| - 1], p);
    }
  }

  /** A new assembler fed whole frames, in any pieces, yields their packets. */
  lemma FreshFeeds(pieces: seq<Bytes>, packets: seq<Bytes>)
    requires Fits(packets) && Flatten(pieces) == FrameAll(packets)
    ensures FeedAll([], pieces) == Fed(packets, [])
  {
    var stream := FrameAll(packets);
    assert stream + [] == stream && [] + stream == stream;
    DecodeUnique(stream, packets, []);
    FeedsRefineDecode([], pieces);
  }

  lemma {:induction false} OwnAppend(a: seq<Event>, b: seq<Event>, p: Peer)
    ensures Own(a + b, p) == Own(a, p) + Own(b, p)
    decreases |b|
  {
    if b == [] {
      assert a + b == a;
    } else {
      assert (a + b)[..|a + b| - 1] == a + b[..|b| - 1];
      OwnAppend(a, b[..|b| - 1], p);
    }
  }

  // ------------------------------------------------------ connection tracking

  /** `p` wrote or connected at `k` and has not disconnected since. */
  predicate LiveSince(es: seq<Event>, p: Peer, k: nat) {
    && k < |es| && es[k].peer == p && !es[k].Disconnect?
    && forall m :: k < m < |es| ==> es[m] != Disconnect(p)
  }

  ghost predicate Live(es: seq<Event>, p: Peer) {
    exists k: nat :: LiveSince(es, p, k)
  }

  lemma LiveStep(es: seq<Event>, e: Event, p: Peer)
    ensures Live(es + [e], p) <==> if e.peer == p then !e.Disconnect? else Live(es, p)
  {
    var es' := es + [e];
    if e.peer == p && !e.Disconnect? {
      assert LiveSince(es', p, |es|);
    } else if e.peer == p {
      forall k: nat ensures !LiveSince(es', p, k) {
        assert es'[|es|] == e;
      }
    } else {
      if Live(es, p) {
        var k: nat :| LiveSince(es, p, k);
        assert LiveSince(es', p, k);
      }
      if Live(es', p) {
        var k: nat :| LiveSince(es', p, k);
        assert forall m :: k < m < |es| ==> es[m] == es'[m];
        assert LiveSince(es, p, k);
      }
    }
  }

  /** The connected set is exactly the phones heard from since their last disconnect, and only those have a
      reassembler, which never holds a whole frame. */
  lemma {:induction false} Tracking(h: Hooks, es: seq<Event>)
    ensures forall p :: p in Run(h, es).state.connected <==> Live(es, p)
    ensures Run(h, es).state.bufs.Keys <= Run(h, es).state.connected
    ensures forall p :: p in Run(h, es).state.bufs ==> Incomplete(Run(h, es).state.bufs[p])
    decreases |es|
  {
    if es == [] {
      forall p ensures !Live(es, p) {}
    } else {
      var init, e := es[..|es| - 1], es[|es| - 1];
      assert es == init + [e];
      Tracking(h, init);
      forall p
        ensures p in Run(h, es).state.connected <==> Live(es, p)
      {
        LiveStep(init, e, p);
      }
      if e.Chunk? {
        FeedLeavesNoFrame(Buf(Run(h, init).state, e.peer), e.data);
      }
    }
  }

  /** Does event `i` of the run call `on_connect(p)`? */
  predicate FiresConnect(h: Hooks, es: seq<Event>, i: nat, p: Peer)
    requires i < |es|
  {
    OnConnect(p) in Step(h, Run(h, es[..i]).state, es[i]).calls
  }

  /** `on_connect(p)` is called for a connect event exactly when the phone was not live already. */
  lemma ConnectFires(h: Hooks, es: seq<Event>, i: nat, p: Peer)
    requires i < |es|
    ensures FiresConnect(h, es, i, p) <==> h.connect && es[i] == Connect(p) && !Live(es[..i], p)
  {
    Tracking(h, es[..i]);
  }

  /** Every callback of every event: packets for the phone that wrote and if there is a callback for them; one
      on_connect when the phone was not live; one on_disconnect, live or not. */
  lemma CallbacksExactly(h: Hooks, es: seq<Event>, i: nat)
    requires i < |es|
    ensures var calls, p := Step(h, Run(h, es[..i]).state, es[i]).calls, es[i].peer;
            && (es[i].Connect? ==> calls == if h.connect && !Live(es[..i], p) then [OnConnect(p)] else [])
            && (es[i].Disconnect? ==> calls == if h.disconnect then [OnDisconnect(p)] else [])
            && (es[i].Chunk? ==> forall c :: c in calls ==> h.packet && c.OnPacket? && c.peer == p)
  {
    Tracking(h, es[..i]);
  }

  /** Two `on_connect(p)` calls are always separated by a disconnect of `p`. */
  lemma ConnectsAreSeparated(h: Hooks, es: seq<Event>, i: nat, j: nat, p: Peer)
    requires i < j < |es| && FiresConnect(h, es, i, p) && FiresConnect(h, es, j, p)
    ensures exists m :: i < m < j && es[m] == Disconnect(p)
  {
    ConnectFires(h, es, i, p);
    ConnectFires(h, es, j, p);
    assert !LiveSince(es[..j], p, i);
  }
}
