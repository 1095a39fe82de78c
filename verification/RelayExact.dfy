/** What the relay does with each kind of frame, in full: every send in order, every counter, all of the new state. */
module RelayExact {
  import opened Wire
  import opened Core
  import Location
  import opened Relay
  import opened RelayRuns

  /** The pipeline the frame goes to takes it. */
  predicate Taken(cfg: Config, s: State, raw: Bytes, env: Moment) {
    env.verdict.pass && Fresh(if IsPresentation(cfg, raw) then s.presented else s.main, raw)
  }

  /** Nothing a pipeline drops is ever seen by a phone or a node. */
  lemma OnlyTakenGoesOut(cfg: Config, s: State, from: Peer, raw: Bytes, env: Moment, send: Send)
    requires send in Handle(cfg, s, from, raw, env).sends && Visible(send)
    ensures !IsControl(raw) && Taken(cfg, s, raw, env)
  {
  }

  /** What a pipeline drops, for whatever reason, is counted and nothing else. */
  lemma DroppedIsOnlyCounted(cfg: Config, s: State, from: Peer, raw: Bytes, env: Moment)
    requires !IsControl(raw) && !Taken(cfg, s, raw, env)
    ensures Handle(cfg, s, from, raw, env) == Outcome(s, [], [Received, Dropped], false)
  {
  }

  /** A presentation that is taken, and whose token is good, is counted as cached and spread to the nodes its zone
      asks for, and goes nowhere else; any other is counted as dropped. Being taken is remembered even when the
      token is bad. */
  lemma PresentationSpreads(cfg: Config, s: State, from: Peer, raw: Bytes, env: Moment)
    requires !IsControl(raw) && IsPresentation(cfg, raw)
    ensures var o, taken := Handle(cfg, s, from, raw, env), env.verdict.pass && Fresh(s.presented, raw);
            var m := Parse(raw).value;
            && o.state == (if taken then s.(presented := s.presented + {m.msgId}) else s)
            && (taken && env.tokenOk ==>
                  && o.counts == [Received, AttestationsCached]
                  && (m.zone == BROADCAST_ZONE ==> o.sends == [ToAllNodes(raw)] && !o.raised)
                  && (m.zone == cfg.zone != BROADCAST_ZONE ==> o.sends == [] && !o.raised)
                  && (m.zone != cfg.zone && m.zone != BROADCAST_ZONE ==>
                        if RouteThrows(cfg.zone, m, env) then o.sends == [] && o.raised
                        else o.sends == [ToZone(m.zone, raw)] && !o.raised))
            && (!(taken && env.tokenOk) ==> o.counts == [Received, Dropped] && o.sends == [] && !o.raised)
  {
  }

  /** A beacon ends at the location service, well-formed or not. */
  lemma BeaconStaysHere(cfg: Config, s: State, from: Peer, raw: Bytes, env: Moment)
    requires !IsControl(raw) && !IsPresentation(cfg, raw) && Taken(cfg, s, raw, env)
    requires s.loc.Some? && TypeOf(raw) == Some(LOCATION)
    ensures var m := Parse(raw).value;
            var fix := cfg.crypto.decodeBeacon(m.payload);
            var rows := s.loc.value.rows;
            Handle(cfg, s, from, raw, env) ==
            Outcome(State(s.main + {m.msgId}, s.presented,
                          Some(s.loc.value.(rows := if fix.None? then rows
                                                    else rows[m.senderKey :=
                                                              Location.Sighting(fix.value, m.zone, env.clk.storeNow)]))),
                    [], [Received, Accepted, LocationTerminated], false)
  {
    assert [Received, Accepted] + [LocationTerminated] == [Received, Accepted, LocationTerminated];
  }

  /** The answer to a served query, if this is one. */
  function Answering(cfg: Config, s: State, from: Peer, raw: Bytes, env: Moment): seq<Send> {
    var reply := ReplyHere(cfg, s, raw, env);
    if reply.Some? && reply.value.Served? then [ToPhone(from, ResponsePacket(cfg, reply.value))] else []
  }

  /** Any other packet that is taken: the answer, then the other nodes, then the phones, each with its counter. When
      the cross-node send throws, nothing comes after the answer. */
  lemma TakenGoesOut(cfg: Config, s: State, from: Peer, raw: Bytes, env: Moment)
    requires GoesOn(cfg, s, raw, env)
    ensures var o, m := Handle(cfg, s, from, raw, env), Parse(raw).value;
            var copy := Relayed(raw, Process(s.main, raw, env.verdict)).value;
            var answer := Answering(cfg, s, from, raw, env);
            var phones, counted := (if m.ttl > 1 then FanOut(env.peers, from, copy) else []),
                                   (if m.ttl > 1 then [RelayedToPhones] else []);
            && o.state.main == s.main + {m.msgId} && o.state.presented == s.presented
            && o.raised == RouteThrows(cfg.zone, m, env)
            && (o.raised ==> o.sends == answer && o.counts == [Received, Accepted])
            && (m.zone == BROADCAST_ZONE ==>
                  && o.sends == answer + ([ToAllNodes(raw)] + phones)
                  && o.counts == [Received, Accepted] + ([BroadcastToNodes] + counted))
            && (m.zone == cfg.zone != BROADCAST_ZONE ==>
                  o.sends == answer + phones && o.counts == [Received, Accepted] + counted)
            && (m.zone != cfg.zone && m.zone != BROADCAST_ZONE && !o.raised ==>
                  && o.sends == answer + ([ToZone(m.zone, raw)] + phones)
                  && o.counts == [Received, Accepted] + ([ForwardedCrossZone] + counted))
  {
    hide Handle, FanOut;
    AcceptedCopy(s.main, raw, env.verdict);
    StateOfTaken(cfg, s, from, raw, env);
    GoingOn(cfg, s, from, raw, env);
    OnwardInFull(cfg, from, raw, Process(s.main, raw, env.verdict), env);
    assert [] + (if Parse(raw).value.ttl > 1 then [RelayedToPhones] else [])
        == if Parse(raw).value.ttl > 1 then [RelayedToPhones] else [];
  }

  lemma StateOfTaken(cfg: Config, s: State, from: Peer, raw: Bytes, env: Moment)
    requires !IsControl(raw) && !IsPresentation(cfg, raw) && Taken(cfg, s, raw, env)
    ensures var o, m := Handle(cfg, s, from, raw, env), Parse(raw).value;
            && o.state.main == s.main + {m.msgId} && o.state.presented == s.presented
            && (s.loc.None? ==> o.state.loc == None)
            && (s.loc.Some? ==>
                  o.state.loc == Some(Location.Dispatch(cfg.crypto, cfg.interval, s.loc.value, m, env.clk).state))
            && LocationStage(cfg, s.loc, from, m, env).sends == Answering(cfg, s, from, raw, env)
  {
  }

  lemma OnwardInFull(cfg: Config, from: Peer, raw: Bytes, r: Result, env: Moment)
    requires r.Deliver? && Relayed(raw, r).Some? && |Relayed(raw, r).value| > TTL_OFFSET
    ensures var onward, copy, m := Forwarding(cfg, from, raw, r, env), Relayed(raw, r).value, r.message;
            var phones, counted := (if copy[TTL_OFFSET] > 0 then FanOut(env.peers, from, copy) else []),
                                   (if copy[TTL_OFFSET] > 0 then [RelayedToPhones] else []);
            && onward.raised == RouteThrows(cfg.zone, m, env)
            && (onward.raised ==> onward == Part([], [], true))
            && (m.zone == BROADCAST_ZONE ==> onward == Part([ToAllNodes(raw)] + phones, [BroadcastToNodes] + counted, false))
            && (m.zone == cfg.zone != BROADCAST_ZONE ==> onward == Part(phones, counted, false))
            && (m.zone != cfg.zone && m.zone != BROADCAST_ZONE && !onward.raised ==>
                  onward == Part([ToZone(m.zone, raw)] + phones, [ForwardedCrossZone] + counted, false))
  {
    hide FanOut;
    var copy := Relayed(raw, r).value;
    assert [] + FanOut(env.peers, from, copy) == FanOut(env.peers, from, copy);
    assert forall x: seq<Send> :: x + [] == x;
    assert forall x: seq<Counter> :: x + [] == x;
  }

  /** A query that throws: remembered, counted as accepted, charged, and nothing else. */
  lemma ThrownStopsHere(cfg: Config, s: State, from: Peer, raw: Bytes, env: Moment)
    requires ReplyHere(cfg, s, raw, env) == Some(Location.Throws)
    ensures var m := Parse(raw).value;
            Handle(cfg, s, from, raw, env) ==
            Outcome(State(s.main + {m.msgId}, s.presented,
                          Some(Location.Dispatch(cfg.crypto, cfg.interval, s.loc.value, m, env.clk).state)),
                    [], [Received, Accepted], true)
  {
    assert [Received, Accepted] + [] == [Received, Accepted];
  }

  // ------------------------------------------------------------ the phones, in order

  /** How many of the listed peers are not the sender. */
  function Others(peers: seq<Peer>, from: Peer): nat {
    if peers == [] then 0
    else Others(peers[..|peers| - 1], from) + if peers[|peers| - 1] == from then 0 else 1
  }

  lemma {:induction false} OthersGrow(peers: seq<Peer>, from: Peer, i: nat)
    requires i < |peers| && peers[i] != from
    ensures Others(peers[..i], from) < Others(peers, from)
    decreases |peers|
  {
    var init := peers[..|peers| - 1];
    if i < |init| {
      assert init[..i] == peers[..i];
      OthersGrow(init, from, i);
    } else {
      assert peers[..i] == init;
    }
  }

  /** One copy for each listed peer that is not the sender, in the order of the list, and no more. */
  lemma {:induction false} FanOutInOrder(peers: seq<Peer>, from: Peer, data: Bytes, i: nat)
    ensures |FanOut(peers, from, data)| == Others(peers, from)
    ensures i < |peers| && peers[i] != from ==>
              && Others(peers[..i], from) < Others(peers, from)
              && FanOut(peers, from, data)[Others(peers[..i], from)] == ToPhone(peers[i], data)
    decreases |peers|
  {
    if peers != [] {
      var init := peers[..|peers| - 1];
      FanOutInOrder(init, from, data, i);
      if i < |peers| && peers[i] != from {
        OthersGrow(peers, from, i);
        if i < |init| {
          assert init[..i] == peers[..i];
        } else {
          assert peers[..i] == init;
        }
      }
    }
  }
}
