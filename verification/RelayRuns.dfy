/** What the relay guarantees about every packet it lets out, over whole runs and along chains of relays. */
module RelayRuns {
  import opened Wire
  import opened Core
  import Location
  import LocationRuns
  import ZoneTable
  import ZoneSync
  import Backhaul
  import opened Relay

  // ------------------------------------------------------- what a hop may touch

  /** Equal except, perhaps, at the two bytes every hop rewrites. */
  predicate SameButHops(raw: Bytes, raw': Bytes) {
    |raw| == |raw'| && forall k :: 0 <= k < |raw| && k != TTL_OFFSET && k != SPRAY_OFFSET ==> raw[k] == raw'[k]
  }

  lemma HopsKeepMeaning(raw: Bytes, raw': Bytes)
    requires SameButHops(raw, raw')
    ensures Parse(raw).Some? <==> Parse(raw').Some?
    ensures Parse(raw).Some? ==>
              && SignedRegion(raw') == SignedRegion(raw)
              && Parse(raw').value == Parse(raw).value.(ttl := raw'[TTL_OFFSET])
  {
    if MIN_PACKET <= |raw| <= MAX_PACKET {
      var n := Word(raw, 73);
      assert raw'[73] == raw[73] && raw'[74] == raw[74] && raw'[70] == raw[70] && raw'[71] == raw[71];
      assert raw[..16] == raw'[..16] && raw[16..48] == raw'[16..48];
      if |raw| == HEADER_SIZE + n + SIGNATURE_SIZE {
        assert raw[75..75 + n] == raw'[75..75 + n];
        assert raw[..TTL_OFFSET] == raw'[..TTL_OFFSET];
        assert raw[SPRAY_OFFSET + 1..|raw| - SIGNATURE_SIZE] == raw'[SPRAY_OFFSET + 1..|raw| - SIGNATURE_SIZE];
      }
    }
  }

  /** An accepted packet always has a hop left to take, and its local copy has taken exactly that hop. */
  lemma AcceptedCopy(delivered: set<Bytes>, raw: Bytes, v: Verdict)
    requires Process(delivered, raw, v).Deliver?
    ensures Parse(raw) == Some(Process(delivered, raw, v).message)
    ensures DecrementTtl(raw).Some?
    ensures var copy := Relayed(raw, Process(delivered, raw, v));
            && copy.Some? && SameButHops(raw, copy.value)
            && copy.value[TTL_OFFSET] as int == raw[TTL_OFFSET] as int - 1
            && copy.value[SPRAY_OFFSET] == if v.spray.Some? then v.spray.value else raw[SPRAY_OFFSET]
  {
  }

  lemma {:induction false} FanOutMembers(peers: seq<Peer>, from: Peer, data: Bytes, send: Send)
    ensures send in FanOut(peers, from, data) <==> send.ToPhone? && send.data == data && send.peer != from && send.peer in peers
    decreases |peers|
  {
    if peers != [] {
      FanOutMembers(peers[..|peers| - 1], from, data, send);
      assert peers == peers[..|peers| - 1] + [peers[|peers| - 1]];
    }
  }

  // --------------------------------------------------- everything that goes out

  predicate IsControl(raw: Bytes) {
    StartsWith(raw, PHONE_PING_MAGIC) || StartsWith(raw, BACKEND_PROXY_MAGIC)
  }

  predicate IsPresentation(cfg: Config, raw: Bytes) {
    cfg.attestation && TypeOf(raw) == Some(ATTESTATION_PRESENT)
  }

  /** Mesh traffic: what other phones and nodes can see. */
  predicate Visible(send: Send) {
    send.ToPhone? || send.ToAllNodes? || send.ToZone?
  }

  predicate ServedHere(cfg: Config, s: State, raw: Bytes, env: Moment, send: Send, from: Peer) {
    && s.loc.Some? && Parse(raw).Some?
    && var reply := Location.Dispatch(cfg.crypto, cfg.interval, s.loc.value, Parse(raw).value, env.clk).reply;
    && reply.Some? && reply.value.Served?
    && send == ToPhone(from, ResponsePacket(cfg, reply.value))
  }

  /** The packet itself, to a phone that did not send it, one hop older; or untouched, to other nodes. */
  predicate PassedOn(raw: Bytes, from: Peer, peers: seq<Peer>, send: Send) {
    if send.ToPhone? then
      && send.peer != from && send.peer in peers && SameButHops(raw, send.data)
      && |raw| > TTL_OFFSET && send.data[TTL_OFFSET] > 0 && send.data[TTL_OFFSET] as int == raw[TTL_OFFSET] as int - 1
    else Visible(send) && send.data == raw
  }

  lemma ForwardingPassesOn(cfg: Config, delivered: set<Bytes>, from: Peer, raw: Bytes, env: Moment, send: Send)
    requires Process(delivered, raw, env.verdict).Deliver?
    requires send in Forwarding(cfg, from, raw, Process(delivered, raw, env.verdict), env).sends
    ensures PassedOn(raw, from, env.peers, send)
  {
    var r := Process(delivered, raw, env.verdict);
    AcceptedCopy(delivered, raw, env.verdict);
    FanOutMembers(env.peers, from, Relayed(raw, r).value, send);
  }

  /** Every visible send is the received packet passed on, or the one answer to the asker. */
  lemma WhatGoesOut(cfg: Config, s: State, from: Peer, raw: Bytes, env: Moment, send: Send)
    requires send in Handle(cfg, s, from, raw, env).sends && Visible(send)
    ensures !IsControl(raw) && Parse(raw).Some?
    ensures PassedOn(raw, from, env.peers, send) || ServedHere(cfg, s, raw, env, send, from)
    ensures IsPresentation(cfg, raw) ==> !send.ToPhone? && send.data == raw && env.tokenOk
    ensures s.loc.Some? ==> TypeOf(raw) != Some(LOCATION) || IsPresentation(cfg, raw)
    ensures PassedOn(raw, from, env.peers, send) && s.loc.Some? ==> TypeOf(raw) != Some(LOCATION)
  {
    if !IsPresentation(cfg, raw) {
      var r := Process(s.main, raw, env.verdict);
      var stage := LocationStage(cfg, s.loc, from, r.message, env);
      if send !in stage.sends {
        ForwardingPassesOn(cfg, s.main, from, raw, env, send);
      }
    }
  }

  /** What the location service answers to a packet, if it is asked. */
  function ReplyHere(cfg: Config, s: State, raw: Bytes, env: Moment): Option<Location.Reply> {
    if s.loc.None? || IsControl(raw) || IsPresentation(cfg, raw) || Process(s.main, raw, env.verdict).Drop? then None
    else Location.Dispatch(cfg.crypto, cfg.interval, s.loc.value, Parse(raw).value, env.clk).reply
  }

  /** Accepted, not a beacon the location service keeps, and not a query it throws on. */
  predicate GoesOn(cfg: Config, s: State, raw: Bytes, env: Moment) {
    && !IsControl(raw) && !IsPresentation(cfg, raw) && Process(s.main, raw, env.verdict).Deliver?
    && ReplyHere(cfg, s, raw, env) != Some(Location.Throws)
    && (s.loc.Some? ==> TypeOf(raw) != Some(LOCATION))
  }

  /** A packet the pipeline accepts, and location serving lets go on, reaches everyone it should: the other nodes
      when it is for them, and every other phone as long as it has a hop left; and it is counted as such. The one
      exception is a packet for a zone whose known address makes the send throw: it reaches no one. */
  lemma AcceptedIsPassedOn(cfg: Config, s: State, from: Peer, raw: Bytes, env: Moment, q: Peer)
    requires GoesOn(cfg, s, raw, env)
    ensures var o, m := Handle(cfg, s, from, raw, env), Parse(raw).value;
            var lost := RouteThrows(cfg.zone, m, env);
            && (o.raised <==> lost)
            && (ToAllNodes(raw) in o.sends <==> m.zone == BROADCAST_ZONE)
            && (ToAllNodes(raw) in o.sends <==> BroadcastToNodes in o.counts)
            && (ToZone(m.zone, raw) in o.sends <==> m.zone != BROADCAST_ZONE && m.zone != cfg.zone && !lost)
            && (ToZone(m.zone, raw) in o.sends <==> ForwardedCrossZone in o.counts)
            && (RelayedToPhones in o.counts <==> m.ttl > 1 && !lost)
            && (q != from ==>
                  (ToPhone(q, Relayed(raw, Process(s.main, raw, env.verdict)).value) in o.sends
                   <==> q in env.peers && m.ttl > 1 && !lost))
  {
    hide Handle, Process, Relayed, Forwarding, LocationStage, RouteThrows;
    var r := Process(s.main, raw, env.verdict);
    AcceptedCopy(s.main, raw, env.verdict);
    ForwardingReaches(cfg, from, raw, r, env, q);
    GoingOn(cfg, s, from, raw, env);
  }

  /** Only answering comes before passing on. */
  lemma GoingOn(cfg: Config, s: State, from: Peer, raw: Bytes, env: Moment)
    requires GoesOn(cfg, s, raw, env)
    ensures var r, o := Process(s.main, raw, env.verdict), Handle(cfg, s, from, raw, env);
            var stage, onward := LocationStage(cfg, s.loc, from, r.message, env), Forwarding(cfg, from, raw, r, env);
            && o.sends == stage.sends + onward.sends && o.counts == [Received, Accepted] + onward.counts
            && o.raised == onward.raised
            && forall send :: send in stage.sends ==> send.ToPhone? && send.peer == from
  {
    hide Forwarding;
  }

  lemma ForwardingReaches(cfg: Config, from: Peer, raw: Bytes, r: Result, env: Moment, q: Peer)
    requires r.Deliver? && Relayed(raw, r).Some? && |Relayed(raw, r).value| > TTL_OFFSET
    ensures var (onward, copy, m) := (Forwarding(cfg, from, raw, r, env), Relayed(raw, r).value, r.message);
            var lost := RouteThrows(cfg.zone, m, env);
            && (onward.raised <==> lost)
            && (ToAllNodes(raw) in onward.sends <==> m.zone == BROADCAST_ZONE)
            && (BroadcastToNodes in onward.counts <==> m.zone == BROADCAST_ZONE)
            && (ToZone(m.zone, raw) in onward.sends <==> m.zone != BROADCAST_ZONE && m.zone != cfg.zone && !lost)
            && (ForwardedCrossZone in onward.counts <==> m.zone != BROADCAST_ZONE && m.zone != cfg.zone && !lost)
            && (RelayedToPhones in onward.counts <==> copy[TTL_OFFSET] > 0 && !lost)
            && (ToPhone(q, copy) in onward.sends <==> q in env.peers && q != from && copy[TTL_OFFSET] > 0 && !lost)
  {
    var copy := Relayed(raw, r).value;
    FanOutMembers(env.peers, from, copy, ToPhone(q, copy));
    FanOutMembers(env.peers, from, copy, ToAllNodes(raw));
    FanOutMembers(env.peers, from, copy, ToZone(r.message.zone, raw));
  }

  // --------------------------------------------- a bad address and the local cell

  /** The relay is not to be hurt by a flaky peer node, but it is: whether a packet for another zone reaches the
      node's own phones hangs on that zone's address. It does exactly when the table knows none, or one that a send
      does not throw on. */
  lemma PhonesHangOnAddress(cfg: Config, s: State, from: Peer, raw: Bytes, env: Moment, q: Peer,
                            t: ZoneTable.Table<ZoneSync.Stored>, now: real)
    requires GoesOn(cfg, s, raw, env) && q in env.peers && q != from
    requires var m := Parse(raw).value;
             m.ttl > 1 && m.zone != BROADCAST_ZONE && m.zone != cfg.zone && env.known == ZoneTable.AddrFor(t, m.zone, now)
    ensures var o, addr := Handle(cfg, s, from, raw, env), ZoneTable.AddrFor(t, Parse(raw).value.zone, now);
            var sound := Backhaul.Found(addr).None? || !Backhaul.EndpointOf(addr.value, env.hosts).Unfit?;
            && ((exists send :: send in o.sends && send.ToPhone? && send.peer == q) <==> sound)
            && (o.raised <==> !sound)
  {
    hide Handle, Process, Relayed, Forwarding, LocationStage;
    var r, o := Process(s.main, raw, env.verdict), Handle(cfg, s, from, raw, env);
    AcceptedIsPassedOn(cfg, s, from, raw, env, q);
    AcceptedCopy(s.main, raw, env.verdict);
    GoingOn(cfg, s, from, raw, env);
    ThrowingSendsNothing(cfg, from, raw, r, env);
    assert ToPhone(q, Relayed(raw, r).value) in o.sends || o.raised;
  }

  lemma ThrowingSendsNothing(cfg: Config, from: Peer, raw: Bytes, r: Result, env: Moment)
    requires r.Deliver?
    ensures Forwarding(cfg, from, raw, r, env).raised ==> Forwarding(cfg, from, raw, r, env).sends == []
  {
  }

  /** A well-formed packet with an empty payload. */
  function Sample(id: Byte, sender: Byte, ttl: Byte, zone: Byte, msgType: Byte): Bytes {
    seq(MIN_PACKET + 8, k requires 0 <= k < MIN_PACKET + 8 =>
      if k < 16 then id
      else if k < 48 then sender
      else if k == TTL_OFFSET then ttl
      else if k == 71 then zone
      else if k == 72 then msgType
      else 0)
  }

  lemma SampleParses(id: Byte, sender: Byte, ttl: Byte, zone: Byte, msgType: Byte)
    ensures Parse(Sample(id, sender, ttl, zone, msgType)) ==
            Some(Message(seq(16, _ => id), seq(32, _ => sender), ttl, zone, msgType, []))
    ensures id != 77 ==> !IsControl(Sample(id, sender, ttl, zone, msgType))
  {
    var raw := Sample(id, sender, ttl, zone, msgType);
    assert raw[..16] == seq(16, _ => id);
    assert raw[16..48] == seq(32, _ => sender);
    assert Word(raw, 73) == 0 && Word(raw, 70) == zone as int && raw[75..75] == [];
    assert id != 77 ==> raw[..5][0] != 77;
  }

  const ODD_ANNOUNCEMENT: ZoneSync.Frame :=
    ZoneSync.Control(Some(ZoneSync.Obj(
      map["node_id" := ZoneSync.Str("x"), "zone_id" := ZoneSync.Int(5), "addr" := ZoneSync.Int(7)])))

  /** It decodes without complaint, and its address goes into the table as it is. */
  lemma OddAnnouncementIsLearned(py: ZoneSync.Python, n: ZoneSync.Node, now: real)
    requires n.id != "x" && n.ttl >= 0.0
    ensures ZoneTable.AddrFor(ZoneSync.Hear(py, n, ZoneSync.BootTable(n), ODD_ANNOUNCEMENT, now), 5, now) ==
            Some(ZoneSync.Plain(ZoneSync.Int(7)))
  {
    var body := ODD_ANNOUNCEMENT.body.value.fields;
    assert body["node_id"] == ZoneSync.Str("x") && body["zone_id"] == ZoneSync.Int(5) && body["addr"] == ZoneSync.Int(7);
  }

  /** From one announcement, with a number for an address, to a packet lost to the node's own phones: the same
      packet, at the same node, with and without that announcement. */
  lemma OneAnnouncementSilencesTheCell(py: ZoneSync.Python, n: ZoneSync.Node, cfg: Config, env: Moment, now: real)
    requires n.id != "x" && n.zone != 5 && n.ttl >= 0.0 && 5 !in n.seed && cfg.zone == n.zone
    requires env.verdict.pass && "q" in env.peers
    ensures var raw, s := Sample(1, 2, 9, 5, 1), State({}, {}, None);
            var before := ZoneSync.BootTable(n);
            var after := ZoneSync.Hear(py, n, before, ODD_ANNOUNCEMENT, now);
            var heard := Handle(cfg, s, "p", raw, env.(known := ZoneTable.AddrFor(after, 5, now)));
            var unheard := Handle(cfg, s, "p", raw, env.(known := ZoneTable.AddrFor(before, 5, now)));
            && heard.raised && heard.sends == [] && heard.counts == [Received, Accepted]
            && !unheard.raised && ForwardedCrossZone in unheard.counts
            && exists send :: send in unheard.sends && send.ToPhone? && send.peer == "q"
  {
    var raw, s := Sample(1, 2, 9, 5, 1), State({}, {}, None);
    SampleParses(1, 2, 9, 5, 1);
    OddAnnouncementIsLearned(py, n, now);
    var bad := env.(known := Some(ZoneSync.Plain(ZoneSync.Int(7))));
    var good := env.(known := None);
    assert GoesOn(cfg, s, raw, good);
    assert RouteThrows(cfg.zone, Parse(raw).value, bad);
    PhonesHangOnAddress(cfg, s, "p", raw, good, "q", ZoneSync.BootTable(n), now);
    AcceptedIsPassedOn(cfg, s, "p", raw, good, "q");
    assert [Received, Accepted] + [] == [Received, Accepted];
  }

  /** What a relay has accepted once it does not accept again while it remembers it, however the two hop bytes
      have changed since. */
  lemma EchoesAreDropped(delivered: set<Bytes>, raw: Bytes, v: Verdict, later: set<Bytes>, echo: Bytes, v': Verdict)
    requires Process(delivered, raw, v).Deliver?
    requires Remember(delivered, Process(delivered, raw, v)) <= later && SameButHops(raw, echo)
    ensures Process(later, echo, v') == Drop
  {
    HopsKeepMeaning(raw, echo);
  }

  // ------------------------------------------------------------------ whole runs

  datatype Arrival = Arrival(from: Peer, raw: Bytes, env: Moment)

  function After(cfg: Config, s: State, arrivals: seq<Arrival>): State {
    if arrivals == [] then s
    else
      var a := arrivals[|arrivals| - 1];
      Handle(cfg, After(cfg, s, arrivals[..|arrivals| - 1]), a.from, a.raw, a.env).state
  }

  /** What handling the next arrival sends. */
  function SendsOf(cfg: Config, s: State, arrivals: seq<Arrival>, a: Arrival): seq<Send> {
    Handle(cfg, After(cfg, s, arrivals), a.from, a.raw, a.env).sends
  }

  lemma {:induction false} WiringStays(cfg: Config, s: State, arrivals: seq<Arrival>)
    ensures After(cfg, s, arrivals).loc.Some? <==> s.loc.Some?
    decreases |arrivals|
  {
    if arrivals != [] {
      WiringStays(cfg, s, arrivals[..|arrivals| - 1]);
    }
  }

  /** Telemetry and proxy frames stay out of the relay altogether: no pipeline, counter or relay path sees them, and
      all that happens is that the one service they are for, if it is wired, gets them. */
  lemma ControlFramesStayOut(cfg: Config, s: State, from: Peer, raw: Bytes, env: Moment)
    requires IsControl(raw)
    ensures var o := Handle(cfg, s, from, raw, env);
            && o.state == s && o.counts == [] && !o.raised && (forall send :: send in o.sends ==> !Visible(send))
            && (StartsWith(raw, PHONE_PING_MAGIC) ==> o.sends == if cfg.telemetry then [ToTelemetry(from, raw)] else [])
            && (StartsWith(raw, BACKEND_PROXY_MAGIC) ==> o.sends == if cfg.proxy then [ToProxy(from, raw)] else [])
  {
    assert StartsWith(raw, PHONE_PING_MAGIC) ==> raw[..5][2] == 80;
    assert StartsWith(raw, BACKEND_PROXY_MAGIC) ==> raw[..5][2] == 66;
  }

  /** With both services wired, at any point of any run: no beacon goes to a phone or a node; no presentation goes
      to a phone, and one goes to other nodes only when its token has just been accepted. */
  lemma Containment(cfg: Config, s: State, arrivals: seq<Arrival>, a: Arrival, send: Send)
    requires SignsResponses(cfg.crypto)
    requires send in SendsOf(cfg, s, arrivals, a) && Visible(send)
    ensures s.loc.Some? ==> TypeOf(send.data) != Some(LOCATION)
    ensures cfg.attestation && TypeOf(send.data) == Some(ATTESTATION_PRESENT) ==>
              !send.ToPhone? && send.data == a.raw && a.env.tokenOk
              && AttestationsCached in Handle(cfg, After(cfg, s, arrivals), a.from, a.raw, a.env).counts
  {
    var now := After(cfg, s, arrivals);
    WiringStays(cfg, s, arrivals);
    WhatGoesOut(cfg, now, a.from, a.raw, a.env, send);
    if PassedOn(a.raw, a.from, a.env.peers, send) {
      HopsKeepMeaning(a.raw, send.data);
    }
  }

  /** It is the location service that holds beacons back: without it, an accepted beacon goes to every other
      phone, short of a cross-node send that throws. */
  lemma BeaconsEscapeWithoutService(cfg: Config, s: State, from: Peer, raw: Bytes, env: Moment, q: Peer)
    requires TypeOf(raw) == Some(LOCATION) && !IsControl(raw)
    requires Process(s.main, raw, env.verdict).Deliver? && raw[TTL_OFFSET] > 1
    requires q in env.peers && q != from
    ensures (exists send :: send in Handle(cfg, s, from, raw, env).sends && send.ToPhone? && send.peer == q)
            <==> s.loc.None? && !RouteThrows(cfg.zone, Parse(raw).value, env)
  {
    var r := Process(s.main, raw, env.verdict);
    AcceptedCopy(s.main, raw, env.verdict);
    var copy := ToPhone(q, Relayed(raw, r).value);
    FanOutMembers(env.peers, from, Relayed(raw, r).value, copy);
    if s.loc.None? && !RouteThrows(cfg.zone, Parse(raw).value, env) {
      assert copy in Forwarding(cfg, from, raw, r, env).sends;
    }
  }

  // ------------------------------------------------------------ uniform refusal

  /** Beside a relay with no location service, on any packet but a beacon, a served query adds one send, to the
      asker, and a refused one adds and removes nothing, whatever the reason; only a query that throws is not
      passed on as that relay would have. */
  lemma RefusalLeavesNoTrace(cfg: Config, s: State, from: Peer, raw: Bytes, env: Moment)
    requires TypeOf(raw) != Some(LOCATION)
    ensures var o, bare := Handle(cfg, s, from, raw, env), Handle(cfg, s.(loc := None), from, raw, env);
            var reply := ReplyHere(cfg, s, raw, env);
            && o.state.(loc := None) == bare.state
            && (o.raised <==> reply == Some(Location.Throws) || bare.raised)
            && o.counts == (if reply == Some(Location.Throws) then [Received, Accepted] else bare.counts)
            && o.sends == (if reply == Some(Location.Throws) then []
                           else if reply.Some? && reply.value.Served?
                           then [ToPhone(from, ResponsePacket(cfg, reply.value))] + bare.sends
                           else bare.sends)
  {
    if !IsControl(raw) && !IsPresentation(cfg, raw) && Process(s.main, raw, env.verdict).Deliver? {
      var r := Process(s.main, raw, env.verdict);
      var onward := Forwarding(cfg, from, raw, r, env);
      assert [] + onward.sends == onward.sends && [Received, Accepted] + [] == [Received, Accepted];
      assert LocationStage(cfg, None, from, r.message, env) == Stage(None, [], false, false);
    }
  }

  lemma AfterOne(cfg: Config, s: State, a: Arrival)
    ensures After(cfg, s, [a]) == Handle(cfg, s, a.from, a.raw, a.env).state
  {
    assert [a][..0] == [] && After(cfg, s, [a][..0]) == s;
  }

  /** A relay's first accepted beacon is its location service's first event. */
  lemma FirstBeacon(cfg: Config, u: LocationRuns.Setup, from: Peer, raw: Bytes, env: Moment)
    requires cfg.crypto == u.c && cfg.interval == u.interval && env.verdict.pass
    requires !IsControl(raw) && TypeOf(raw) == Some(LOCATION) && Parse(raw).value.ttl > 0
    ensures After(cfg, State({}, {}, Some(Location.Boot(u.dir))), [Arrival(from, raw, env)]) ==
            State({Parse(raw).value.msgId}, {},
                  Some(LocationRuns.After(u, [LocationRuns.Packet(Parse(raw).value, env.clk)])))
  {
    var es := [LocationRuns.Packet(Parse(raw).value, env.clk)];
    AfterOne(cfg, State({}, {}, Some(Location.Boot(u.dir))), Arrival(from, raw, env));
    assert es[..0] == [] && LocationRuns.After(u, es[..0]) == Location.Boot(u.dir);
  }

  const OWNER: Bytes := seq(32, _ => 1)
  const ASKER: Bytes := seq(32, _ => 2)

  /** The run of a throwing query at a relay: a beacon from one phone, then a good query from another attendee, who
      is listed without a sealing key. The query goes nowhere, where a relay without the service passes it on. */
  lemma ThrowingQueryIsNotPassedOn(cfg: Config, env: Moment)
    requires cfg.crypto == LocationRuns.PlainCrypto(OWNER, ASKER) && cfg.interval == Location.QUERY_MIN_INTERVAL
    requires env.clk.now >= cfg.interval && env.verdict.pass && "q" in env.peers && env.known.None?
    ensures var start := State({}, {}, Some(Location.Boot(LocationRuns.TwoAttendees(OWNER, ASKER, None).dir)));
            var beacon, query := Sample(1, 1, 9, 5, LOCATION), Sample(2, 2, 9, 5, 3);
            var s := After(cfg, start, [Arrival("o", beacon, env)]);
            var o, bare := Handle(cfg, s, "p", query, env), Handle(cfg, s.(loc := None), "p", query, env);
            && ReplyHere(cfg, s, query, env) == Some(Location.Throws)
            && o.raised && o.sends == []
            && !bare.raised && exists send :: send in bare.sends && send.ToPhone? && send.peer == "q"
  {
    hide Handle, After, Sample;
    var u := LocationRuns.TwoAttendees(OWNER, ASKER, None);
    var beacon, query := Sample(1, 1, 9, 5, LOCATION), Sample(2, 2, 9, 5, 3);
    SampleParses(1, 1, 9, 5, LOCATION);
    SampleParses(2, 2, 9, 5, 3);
    var b, q := Parse(beacon).value, Parse(query).value;
    assert OWNER[0] != ASKER[0] && q.msgId[0] != b.msgId[0];
    FirstBeacon(cfg, u, "o", beacon, env);
    ThrownHere(cfg, u, b, query, env);
  }

  /** At a relay whose location service has seen the beacon and would throw on the query. */
  lemma ThrownHere(cfg: Config, u: LocationRuns.Setup, beacon: Message, query: Bytes, env: Moment)
    requires cfg.crypto == u.c && cfg.interval == u.interval && u == LocationRuns.TwoAttendees(OWNER, ASKER, None)
    requires cfg.interval == Location.QUERY_MIN_INTERVAL <= env.clk.now
    requires env.verdict.pass && "q" in env.peers && env.known.None?
    requires beacon.msgType == LOCATION && beacon.senderKey == OWNER
    requires !IsControl(query) && TypeOf(query) == Some(3) && Parse(query).value.senderKey == ASKER
    requires Parse(query).value.ttl > 1 && Parse(query).value.msgId != beacon.msgId
    ensures var s := State({beacon.msgId}, {}, Some(LocationRuns.After(u, [LocationRuns.Packet(beacon, env.clk)])));
            var o, bare := Handle(cfg, s, "p", query, env), Handle(cfg, s.(loc := None), "p", query, env);
            && ReplyHere(cfg, s, query, env) == Some(Location.Throws)
            && o.raised && o.sends == []
            && !bare.raised && exists send :: send in bare.sends && send.ToPhone? && send.peer == "q"
  {
    hide Handle, LocationRuns.After, LocationRuns.TwoAttendees;
    var s := State({beacon.msgId}, {}, Some(LocationRuns.After(u, [LocationRuns.Packet(beacon, env.clk)])));
    assert OWNER[0] != ASKER[0];
    LocationRuns.AQueryThrows(OWNER, ASKER, beacon, Parse(query).value, env.clk);
    RefusalLeavesNoTrace(cfg, s, "p", query, env);
    AcceptedIsPassedOn(cfg, s.(loc := None), "p", query, env, "q");
  }

  lemma BarePipelines(cfg: Config, s: State, from: Peer, raw: Bytes, env: Moment)
    ensures Handle(cfg, s, from, raw, env).state.(loc := None) == Handle(cfg, s.(loc := None), from, raw, env).state
  {
  }

  lemma {:induction false} SamePipelines(cfg: Config, s: State, arrivals: seq<Arrival>)
    ensures After(cfg, s, arrivals).(loc := None) == After(cfg, s.(loc := None), arrivals)
    decreases |arrivals|
  {
    if arrivals != [] {
      var init, a := arrivals[..|arrivals| - 1], arrivals[|arrivals| - 1];
      SamePipelines(cfg, s, init);
      BarePipelines(cfg, After(cfg, s, init), a.from, a.raw, a.env);
    }
  }

  /** Two relays given the same traffic, one of them without the service: at every refused query both send
      exactly the same things in the same order, so nothing seen from outside tells why, or that, it was refused. */
  lemma UniformRefusal(cfg: Config, s: State, arrivals: seq<Arrival>, a: Arrival)
    requires TypeOf(a.raw) != Some(LOCATION)
    ensures var reply := ReplyHere(cfg, After(cfg, s, arrivals), a.raw, a.env);
            var bare := SendsOf(cfg, s.(loc := None), arrivals, a);
            && (reply.Some? && reply.value.Refused? ==> SendsOf(cfg, s, arrivals, a) == bare)
            && (reply.Some? && reply.value.Served? ==>
                  SendsOf(cfg, s, arrivals, a) == [ToPhone(a.from, ResponsePacket(cfg, reply.value))] + bare)
  {
    SamePipelines(cfg, s, arrivals);
    RefusalLeavesNoTrace(cfg, After(cfg, s, arrivals), a.from, a.raw, a.env);
  }

  // ---------------------------------------------------------- chains of relays

  /** One relay, in some state, handling the packet that reached it. */
  datatype Hop = Hop(cfg: Config, s: State, from: Peer, env: Moment)

  /** The relay's handling of `raw` puts `next` on its way: over the air to some other phone, or to other nodes. */
  ghost predicate Link(h: Hop, raw: Bytes, next: Bytes, air: bool) {
    exists send ::
      && send in Handle(h.cfg, h.s, h.from, raw, h.env).sends && Visible(send) && send.data == next
      && send.ToPhone? == air && (send.ToPhone? ==> send.peer != h.from)
  }

  ghost predicate Chain(hops: seq<Hop>, packets: seq<Bytes>, air: seq<bool>) {
    && |packets| == |hops| + 1 && |air| == |hops|
    && forall i :: 0 <= i < |hops| ==> Link(hops[i], packets[i], packets[i + 1], air[i])
  }

  function AirHops(air: seq<bool>): nat {
    if air == [] then 0 else AirHops(air[..|air| - 1]) + if air[|air| - 1] then 1 else 0
  }

  lemma LinkKeeps(h: Hop, raw: Bytes, next: Bytes, air: bool)
    requires Link(h, raw, next, air)
    ensures Parse(raw).Some? && SameButHops(raw, next)
    ensures next[TTL_OFFSET] as int == raw[TTL_OFFSET] as int - (if air then 1 else 0)
    ensures air ==> next[TTL_OFFSET] > 0
  {
    var send :| send in Handle(h.cfg, h.s, h.from, raw, h.env).sends && Visible(send) && send.data == next
                && send.ToPhone? == air && (send.ToPhone? ==> send.peer != h.from);
    WhatGoesOut(h.cfg, h.s, h.from, raw, h.env, send);
  }

  /** However many relays a packet passes, by phone or by backhaul: what was signed is intact, only the two hop
      bytes differ, each air hop has cost exactly one of the ttl, and there are fewer air hops than the ttl. */
  lemma {:induction false} ChainIntegrity(hops: seq<Hop>, packets: seq<Bytes>, air: seq<bool>)
    requires Chain(hops, packets, air) && hops != []
    ensures var first, last := packets[0], packets[|hops|];
            && Parse(first).Some? && Parse(last).Some?
            && SameButHops(first, last) && SignedRegion(last) == SignedRegion(first)
            && last[TTL_OFFSET] as int == first[TTL_OFFSET] as int - AirHops(air)
            && (AirHops(air) > 0 ==> AirHops(air) < first[TTL_OFFSET] as int)
    decreases |hops|
  {
    var n := |hops| - 1;
    LinkKeeps(hops[n], packets[n], packets[n + 1], air[n]);
    HopsKeepMeaning(packets[n], packets[n + 1]);
    if n > 0 {
      ChainIntegrity(hops[..n], packets[..n + 1], air[..n]);
      HopsKeepMeaning(packets[0], packets[n + 1]);
    } else {
      assert AirHops(air[..0]) == 0;
    }
  }
}
