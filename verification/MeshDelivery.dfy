/** What the mesh delivers: the datagrams an accepted packet turns into, and the phones they reach elsewhere. */
module MeshDelivery {
  import opened Wire
  import opened Core
  import opened Relay
  import opened RelayRuns
  import opened RelayExact
  import opened Backhaul
  import opened Flood

  /** One datagram for every node. */
  predicate ToEveryNode(u: Mesh, i: nat, raw: Bytes, out: seq<Datagram>)
    requires i < |u.nodes|
  {
    |out| == |u.nodes| && forall j :: 0 <= j < |out| ==> out[j] == Datagram(u.nodes[i].source, j, raw)
  }

  /** Node `i` has an endpoint for the zone that is node `j`'s. */
  predicate RoutedTo(u: Mesh, env: Moment, j: nat) {
    && Found(env.known).Some? && EndpointOf(env.known.value, env.hosts).At?
    && u.home(EndpointOf(env.known.value, env.hosts).to) == Some(j) && j < |u.nodes|
  }

  /** What one cross-node call puts in flight, for each kind of zone and of table entry. */
  lemma AcrossInFlight(u: Mesh, i: nat, m: Message, raw: Bytes, env: Moment, j: nat)
    requires i < |u.nodes|
    ensures var zone := u.nodes[i].cfg.zone;
            var out := Outgoing(u, i, Across(zone, m, raw, RouteThrows(zone, m, env)).sends, env);
            && (m.zone == BROADCAST_ZONE || (m.zone != zone && Found(env.known).None?) ==> ToEveryNode(u, i, raw, out))
            && (m.zone == zone != BROADCAST_ZONE ==> out == [])
            && (m.zone != BROADCAST_ZONE && m.zone != zone && RoutedTo(u, env, j) ==>
                  out == [Datagram(u.nodes[i].source, j, raw)])
  {
    var zone := u.nodes[i].cfg.zone;
    var sends := Across(zone, m, raw, RouteThrows(zone, m, env)).sends;
    if sends != [] {
      assert sends[1..] == [] && Outgoing(u, i, sends[1..], env) == [];
      assert Outgoing(u, i, sends, env) == Spread(u, i, sends[0], env) + [];
      assert Spread(u, i, sends[0], env) + [] == Spread(u, i, sends[0], env);
    }
  }

  /** An accepted packet for everyone, or for a zone nobody is known to serve, goes to every node; one for a known
      zone to the node that serves it. */
  lemma AcceptedTakesOff(u: Mesh, i: nat, s: State, from: Peer, raw: Bytes, env: Moment, j: nat)
    requires i < |u.nodes| && GoesOn(u.nodes[i].cfg, s, raw, env)
    ensures var m, zone := Parse(raw).value, u.nodes[i].cfg.zone;
            var out := Outgoing(u, i, Handle(u.nodes[i].cfg, s, from, raw, env).sends, env);
            && (m.zone == BROADCAST_ZONE || (m.zone != zone && Found(env.known).None?) ==> ToEveryNode(u, i, raw, out))
            && (m.zone == zone != BROADCAST_ZONE ==> out == [])
            && (m.zone != BROADCAST_ZONE && m.zone != zone && RoutedTo(u, env, j) ==>
                  out == [Datagram(u.nodes[i].source, j, raw)])
  {
    hide Handle, Outgoing, LocationStage, Across, ToEveryNode;
    var cfg, r := u.nodes[i].cfg, Process(s.main, raw, env.verdict);
    var stage := LocationStage(cfg, s.loc, from, r.message, env);
    GoingOn(cfg, s, from, raw, env);
    PhonesOnly(u, i, stage.sends, env);
    OutgoingAppend(u, i, stage.sends, Forwarding(cfg, from, raw, r, env).sends, env);
    ForwardingSpreads(u, i, from, raw, r, env);
    AcrossInFlight(u, i, r.message, raw, env, j);
    var across := Across(cfg.zone, r.message, raw, RouteThrows(cfg.zone, r.message, env)).sends;
    assert [] + Outgoing(u, i, across, env) == Outgoing(u, i, across, env);
  }

  /** The same of a presentation whose token is good. */
  lemma PresentationTakesOff(u: Mesh, i: nat, s: State, from: Peer, raw: Bytes, env: Moment, j: nat)
    requires i < |u.nodes| && !IsControl(raw) && IsPresentation(u.nodes[i].cfg, raw)
    requires env.verdict.pass && Fresh(s.presented, raw) && env.tokenOk
    ensures var m, zone := Parse(raw).value, u.nodes[i].cfg.zone;
            var out := Outgoing(u, i, Handle(u.nodes[i].cfg, s, from, raw, env).sends, env);
            && (m.zone == BROADCAST_ZONE || (m.zone != zone && Found(env.known).None?) ==> ToEveryNode(u, i, raw, out))
            && (m.zone != BROADCAST_ZONE && m.zone != zone && RoutedTo(u, env, j) ==>
                  out == [Datagram(u.nodes[i].source, j, raw)])
  {
    hide Outgoing, ToEveryNode;
    AcrossInFlight(u, i, Parse(raw).value, raw, env, j);
  }

  /** Where the packet is to go from node `i`, there is a datagram to node `j`. */
  predicate BoundFor(u: Mesh, i: nat, j: nat, m: Message, env: Moment)
    requires i < |u.nodes|
  {
    && j < |u.nodes|
    && (m.zone == BROADCAST_ZONE
        || (m.zone != u.nodes[i].cfg.zone && (Found(env.known).None? || RoutedTo(u, env, j))))
  }

  /** Node `j` has no reason to throw the datagram away before its relay sees it. */
  predicate Heard(u: Mesh, i: nat, j: nat, raw: Bytes)
    requires i < |u.nodes| && j < |u.nodes|
  {
    u.nodes[i].source != u.nodes[j].own && !StartsWith(raw, ZONE_SYNC_MAGIC)
  }

  /** A packet accepted at one node is put in flight to the nodes it is bound for. */
  lemma Departs(u: Mesh, n: Net, i: nat, j: nat, from: Peer, raw: Bytes, env: Moment) returns (k: nat)
    requires |n.relays| == |u.nodes| && i < |u.nodes| && GoesOn(u.nodes[i].cfg, n.relays[i], raw, env)
    requires BoundFor(u, i, j, Parse(raw).value, env)
    ensures var n' := Act(u, n, Inject(i, from, raw, env));
            k < |n'.flying| && n'.flying[k] == Datagram(u.nodes[i].source, j, raw)
            && (i != j ==> n'.relays[j] == n.relays[j])
  {
    var o := Handle(u.nodes[i].cfg, n.relays[i], from, raw, env);
    hide Handle;
    AcceptedTakesOff(u, i, n.relays[i], from, raw, env, j);
    var out := Outgoing(u, i, o.sends, env);
    if out == [Datagram(u.nodes[i].source, j, raw)] {
      k := |n.flying|;
      assert (n.flying + out)[k] == out[0];
    } else {
      k := |n.flying| + j;
      assert (n.flying + out)[k] == out[j];
    }
  }

  /** A datagram that arrives is handled as any packet is, and what that sends is put in flight. */
  lemma Arrives(u: Mesh, n: Net, k: nat, from: Peer, env: Moment)
    requires |n.relays| == |u.nodes| && k < |n.flying| && n.flying[k].dest < |u.nodes|
    ensures var d, n' := n.flying[k], Act(u, n, Action.Deliver(k, from, env));
            var o := Handle(u.nodes[d.dest].cfg, n.relays[d.dest], from, d.data, env);
            if d.source != u.nodes[d.dest].own && !StartsWith(d.data, ZONE_SYNC_MAGIC)
            then n'.relays == n.relays[d.dest := o.state]
                 && n'.flying == n.flying[..k] + n.flying[k + 1..] + Outgoing(u, d.dest, o.sends, env)
            else n'.relays == n.relays && n'.flying == n.flying[..k] + n.flying[k + 1..]
  {
  }

  /** From a phone of one node to the phones of another: a packet accepted at node `i` and bound for node `j` is in
      flight to `j`; and when it arrives and is accepted there too, `j` remembers it and sends every phone of its
      own a copy with the signed part intact and one hop less. */
  lemma ReachesPhonesElsewhere(u: Mesh, n: Net, i: nat, j: nat, from: Peer, raw: Bytes, env: Moment,
                               from': Peer, env': Moment, q: Peer) returns (k: nat, copy: Bytes)
    requires |n.relays| == |u.nodes| && i < |u.nodes| && i != j && GoesOn(u.nodes[i].cfg, n.relays[i], raw, env)
    requires BoundFor(u, i, j, Parse(raw).value, env) && Heard(u, i, j, raw)
    requires GoesOn(u.nodes[j].cfg, n.relays[j], raw, env')
    requires !RouteThrows(u.nodes[j].cfg.zone, Parse(raw).value, env')
    requires Parse(raw).value.ttl > 1 && q in env'.peers && q != from'
    ensures var sent := Act(u, n, Inject(i, from, raw, env));
            && Enabled(u, sent, Action.Deliver(k, from', env'))
            && sent.flying[k] == Datagram(u.nodes[i].source, j, raw)
            && var got := Act(u, sent, Action.Deliver(k, from', env'));
            && got.relays[j].main == n.relays[j].main + {Parse(raw).value.msgId}
            && got.relays[j] == Handle(u.nodes[j].cfg, n.relays[j], from', raw, env').state
            && ToPhone(q, copy) in Handle(u.nodes[j].cfg, n.relays[j], from', raw, env').sends
            && SameButHops(raw, copy) && copy[TTL_OFFSET] as int == raw[TTL_OFFSET] as int - 1
            && Parse(copy).Some? && SignedRegion(copy) == SignedRegion(raw)
  {
    hide Handle, Act;
    k := Departs(u, n, i, j, from, raw, env);
    var sent := Act(u, n, Inject(i, from, raw, env));
    Arrives(u, sent, k, from', env');
    TakenGoesOut(u.nodes[j].cfg, n.relays[j], from', raw, env');
    AcceptedIsPassedOn(u.nodes[j].cfg, n.relays[j], from', raw, env', q);
    AcceptedCopy(n.relays[j].main, raw, env'.verdict);
    copy := Relayed(raw, Process(n.relays[j].main, raw, env'.verdict)).value;
    HopsKeepMeaning(raw, copy);
  }
}
