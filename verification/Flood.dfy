/** A mesh of relays over the backhaul: the flood of any one message dies out. */
module Flood {
  import opened Wire
  import opened Core
  import opened Relay
  import opened RelayRuns
  import opened Backhaul

  /** A node: its relay, the address it filters echoes by, and the address its datagrams really come from. */
  datatype Station = Station(cfg: Config, own: Endpoint, source: Endpoint)

  /** `home`: which node, if any, listens at an endpoint. */
  datatype Mesh = Mesh(nodes: seq<Station>, home: Endpoint -> Option<nat>)

  datatype Datagram = Datagram(source: Endpoint, dest: nat, data: Bytes)

  datatype Net = Net(relays: seq<State>, flying: seq<Datagram>)

  /** `Deliver` takes any datagram in flight, `Lose` drops one, `Inject` is a packet from a phone, `Forget` is
      one message id falling out of one pipeline's dedup memory. */
  datatype Action =
    | Deliver(k: nat, from: Peer, env: Moment)
    | Inject(node: nat, from: Peer, raw: Bytes, env: Moment)
    | Lose(k: nat)
    | Forget(node: nat, presented: bool, id: Bytes)

  function ToAll(u: Mesh, i: nat, data: Bytes): seq<Datagram>
    requires i < |u.nodes|
  {
    seq(|u.nodes|, j requires 0 <= j < |u.nodes| => Datagram(u.nodes[i].source, j, data))
  }

  /** The datagrams one backhaul call puts in flight. */
  function Spread(u: Mesh, i: nat, send: Send, env: Moment): seq<Datagram>
    requires i < |u.nodes|
  {
    match send
    case ToAllNodes(data) => ToAll(u, i, data)
    case ToZone(z, data) =>
      (match RouteTo(u.nodes[i].cfg.zone, z, env.known, env.hosts)
       case Nowhere => []
       case Unresolved => []
       case BadAddress => []
       case Everywhere => ToAll(u, i, data)
       case Unicast(e) =>
         match u.home(e)
         case None => []
         case Some(j) => if j < |u.nodes| then [Datagram(u.nodes[i].source, j, data)] else [])
    case _ => []
  }

  function Outgoing(u: Mesh, i: nat, sends: seq<Send>, env: Moment): seq<Datagram>
    requires i < |u.nodes|
  {
    if sends == [] then [] else Spread(u, i, sends[0], env) + Outgoing(u, i, sends[1..], env)
  }

  function Without(ds: seq<Datagram>, k: nat): seq<Datagram>
    requires k < |ds|
  {
    ds[..k] + ds[k + 1..]
  }

  predicate Enabled(u: Mesh, n: Net, a: Action) {
    match a
    case Deliver(k, _, _) => k < |n.flying| && n.flying[k].dest < |u.nodes|
    case Inject(i, _, _, _) => i < |u.nodes|
    case Lose(k) => k < |n.flying|
    case Forget(i, _, _) => i < |u.nodes|
  }

  /** Node `i` handles a packet. */
  function Take(u: Mesh, n: Net, i: nat, from: Peer, raw: Bytes, env: Moment): Net
    requires i < |u.nodes| == |n.relays|
  {
    var o := Handle(u.nodes[i].cfg, n.relays[i], from, raw, env);
    Net(n.relays[i := o.state], n.flying + Outgoing(u, i, o.sends, env))
  }

  function Act(u: Mesh, n: Net, a: Action): (n': Net)
    requires |n.relays| == |u.nodes|
    ensures |n'.relays| == |u.nodes|
  {
    if !Enabled(u, n, a) then n
    else
      match a
      case Deliver(k, from, env) =>
        var d, rest := n.flying[k], n.(flying := Without(n.flying, k));
        if d.source == u.nodes[d.dest].own || StartsWith(d.data, ZONE_SYNC_MAGIC) then rest
        else Take(u, rest, d.dest, from, d.data, env)
      case Inject(i, from, raw, env) => Take(u, n, i, from, raw, env)
      case Lose(k) => n.(flying := Without(n.flying, k))
      case Forget(i, presented, id) =>
        var s := n.relays[i];
        n.(relays := n.relays[i := if presented then s.(presented := s.presented - {id}) else s.(main := s.main - {id})])
  }

  function Play(u: Mesh, start: Net, trace: seq<Action>): (n: Net)
    requires |start.relays| == |u.nodes|
    ensures |n.relays| == |u.nodes|
  {
    if trace == [] then start else Act(u, Play(u, start, trace[..|trace| - 1]), trace[|trace| - 1])
  }

  // ------------------------------------------------------- one message's flood

  function IdOf(raw: Bytes): Option<Bytes> {
    match Parse(raw)
    case None => None
    case Some(m) => Some(m.msgId)
  }

  /** Datagrams in flight that carry the message. */
  function Carrying(ds: seq<Datagram>, id: Bytes): nat {
    if ds == [] then 0 else (if IdOf(ds[0].data) == Some(id) then 1 else 0) + Carrying(ds[1..], id)
  }

  /** What one node can still add to the flood: as many datagrams as there are nodes, from each of its two
      pipelines that does not remember the message. */
  function Reserve(s: State, id: Bytes, size: nat): nat {
    (if id in s.main then 0 else size) + if id in s.presented then 0 else size
  }

  function Reserves(relays: seq<State>, id: Bytes, size: nat): nat {
    if relays == [] then 0 else Reserve(relays[0], id, size) + Reserves(relays[1..], id, size)
  }

  function Measure(u: Mesh, n: Net, id: Bytes): nat {
    Reserves(n.relays, id, |u.nodes|) + Carrying(n.flying, id)
  }

  lemma {:induction false} CarryingAppend(a: seq<Datagram>, b: seq<Datagram>, id: Bytes)
    ensures Carrying(a + b, id) == Carrying(a, id) + Carrying(b, id)
  {
    if a == [] {
      assert a + b == b;
    } else {
      assert (a + b)[1..] == a[1..] + b;
      CarryingAppend(a[1..], b, id);
    }
  }

  lemma CarryingWithout(ds: seq<Datagram>, k: nat, id: Bytes)
    requires k < |ds|
    ensures Carrying(Without(ds, k), id) == Carrying(ds, id) - if IdOf(ds[k].data) == Some(id) then 1 else 0
  {
    assert ds == ds[..k] + ([ds[k]] + ds[k + 1..]);
    CarryingAppend(ds[..k], [ds[k]] + ds[k + 1..], id);
    assert ([ds[k]] + ds[k + 1..])[1..] == ds[k + 1..];
    CarryingAppend(ds[..k], ds[k + 1..], id);
  }

  lemma {:induction false} CarryingSame(ds: seq<Datagram>, raw: Bytes, id: Bytes)
    requires forall d :: d in ds ==> d.data == raw
    ensures Carrying(ds, id) == if IdOf(raw) == Some(id) then |ds| else 0
  {
    if ds != [] {
      CarryingSame(ds[1..], raw, id);
    }
  }

  lemma {:induction false} ReservesUpdate(relays: seq<State>, i: nat, s: State, id: Bytes, size: nat)
    requires i < |relays|
    ensures Reserves(relays[i := s], id, size) ==
            Reserves(relays, id, size) - Reserve(relays[i], id, size) + Reserve(s, id, size)
  {
    if i == 0 {
      assert relays[i := s][1..] == relays[1..];
    } else {
      assert relays[i := s][1..] == relays[1..][i - 1 := s];
      ReservesUpdate(relays[1..], i - 1, s, id, size);
    }
  }

  predicate OffAir(send: Send) {
    send.ToAllNodes? || send.ToZone?
  }

  lemma {:induction false} OutgoingAppend(u: Mesh, i: nat, a: seq<Send>, b: seq<Send>, env: Moment)
    requires i < |u.nodes|
    ensures Outgoing(u, i, a + b, env) == Outgoing(u, i, a, env) + Outgoing(u, i, b, env)
  {
    if a == [] {
      assert a + b == b;
    } else {
      assert (a + b)[1..] == a[1..] + b;
      OutgoingAppend(u, i, a[1..], b, env);
    }
  }

  lemma {:induction false} PhonesOnly(u: Mesh, i: nat, sends: seq<Send>, env: Moment)
    requires i < |u.nodes| && forall s :: s in sends ==> !OffAir(s)
    ensures Outgoing(u, i, sends, env) == []
  {
    if sends != [] {
      assert !OffAir(sends[0]);
      PhonesOnly(u, i, sends[1..], env);
    }
  }

  lemma AcrossSpreads(u: Mesh, i: nat, m: Message, raw: Bytes, throws: bool, env: Moment)
    requires i < |u.nodes|
    ensures |Outgoing(u, i, Across(u.nodes[i].cfg.zone, m, raw, throws).sends, env)| <= |u.nodes|
    ensures forall d :: d in Outgoing(u, i, Across(u.nodes[i].cfg.zone, m, raw, throws).sends, env) ==> d.data == raw
  {
    var sends := Across(u.nodes[i].cfg.zone, m, raw, throws).sends;
    if sends != [] {
      assert sends[1..] == [];
      assert Outgoing(u, i, sends, env) == Spread(u, i, sends[0], env);
    }
  }

  lemma ForwardingSpreads(u: Mesh, i: nat, from: Peer, raw: Bytes, r: Result, env: Moment)
    requires i < |u.nodes| && r.Deliver?
    ensures var zone := u.nodes[i].cfg.zone;
            Outgoing(u, i, Forwarding(u.nodes[i].cfg, from, raw, r, env).sends, env) ==
            Outgoing(u, i, Across(zone, r.message, raw, RouteThrows(zone, r.message, env)).sends, env)
  {
    var zone, copy := u.nodes[i].cfg.zone, Relayed(raw, r);
    var across := Across(zone, r.message, raw, RouteThrows(zone, r.message, env)).sends;
    if copy.Some? {
      var fan := FanOut(env.peers, from, copy.value);
      forall send ensures send in fan ==> !OffAir(send) {
        FanOutMembers(env.peers, from, copy.value, send);
      }
      PhonesOnly(u, i, fan, env);
      OutgoingAppend(u, i, across, fan, env);
    }
  }

  /** Anything a node puts on the backhaul is the packet it was handed, sent at most once, and only as one of its
      pipelines starts to remember that packet's id. */
  lemma HandleSpreads(u: Mesh, i: nat, s: State, from: Peer, raw: Bytes, env: Moment)
    requires i < |u.nodes|
    ensures var cfg := u.nodes[i].cfg;
            var o := Handle(cfg, s, from, raw, env);
            var out := Outgoing(u, i, o.sends, env);
            && |out| <= |u.nodes|
            && (forall d :: d in out ==> d.data == raw)
            && s.main <= o.state.main && s.presented <= o.state.presented
            && (out != [] ==>
                  && IdOf(raw).Some?
                  && var id, size := IdOf(raw).value, |u.nodes|;
                  Reserve(s, id, size) == Reserve(o.state, id, size) + size)
  {
    var cfg := u.nodes[i].cfg;
    var o := Handle(cfg, s, from, raw, env);
    if IsControl(raw) {
      PhonesOnly(u, i, o.sends, env);
    } else if IsPresentation(cfg, raw) {
      var r := Process(s.presented, raw, env.verdict);
      if r.Deliver? {
        AcrossSpreads(u, i, r.message, raw, RouteThrows(cfg.zone, r.message, env), env);
      }
    } else {
      var r := Process(s.main, raw, env.verdict);
      if r.Deliver? {
        AcrossSpreads(u, i, r.message, raw, RouteThrows(cfg.zone, r.message, env), env);
        ForwardingSpreads(u, i, from, raw, r, env);
        var stage := LocationStage(cfg, s.loc, from, r.message, env);
        PhonesOnly(u, i, stage.sends, env);
        OutgoingAppend(u, i, stage.sends, Forwarding(cfg, from, raw, r, env).sends, env);
      }
    }
  }

  /** Handling a packet never raises the measure of any message. */
  lemma TakeMeasure(u: Mesh, n: Net, i: nat, from: Peer, raw: Bytes, env: Moment, id: Bytes)
    requires i < |u.nodes| == |n.relays|
    ensures Measure(u, Take(u, n, i, from, raw, env), id) <= Measure(u, n, id)
  {
    var o := Handle(u.nodes[i].cfg, n.relays[i], from, raw, env);
    var out := Outgoing(u, i, o.sends, env);
    HandleSpreads(u, i, n.relays[i], from, raw, env);
    ReservesUpdate(n.relays, i, o.state, id, |u.nodes|);
    CarryingAppend(n.flying, out, id);
    CarryingSame(out, raw, id);
  }

  predicate IsDelivery(n: Net, a: Action, id: Bytes) {
    a.Deliver? && a.k < |n.flying| && IdOf(n.flying[a.k].data) == Some(id)
  }

  predicate IsForget(a: Action, id: Bytes) {
    a.Forget? && a.id == id
  }

  /** Each delivery of the message costs at least one, whatever the node does with it; only dedup forgetting the
      message puts anything back, and at most one for each node. */
  lemma ActMeasure(u: Mesh, n: Net, a: Action, id: Bytes)
    requires |n.relays| == |u.nodes| && Enabled(u, n, a)
    ensures Measure(u, Act(u, n, a), id) + (if IsDelivery(n, a, id) then 1 else 0)
            <= Measure(u, n, id) + (if IsForget(a, id) then |u.nodes| else 0)
  {
    match a {
      case Deliver(k, from, env) =>
        var d, rest := n.flying[k], n.(flying := Without(n.flying, k));
        CarryingWithout(n.flying, k, id);
        if d.source != u.nodes[d.dest].own && !StartsWith(d.data, ZONE_SYNC_MAGIC) {
          TakeMeasure(u, rest, d.dest, from, d.data, env, id);
        }
      case Inject(i, from, raw, env) => TakeMeasure(u, n, i, from, raw, env, id);
      case Lose(k) => CarryingWithout(n.flying, k, id);
      case Forget(i, presented, id') =>
        ReservesUpdate(n.relays, i, Act(u, n, a).relays[i], id, |u.nodes|);
    }
  }

  predicate Possible(u: Mesh, start: Net, trace: seq<Action>)
    requires |start.relays| == |u.nodes|
  {
    trace == [] ||
    (var init := trace[..|trace| - 1];
     Possible(u, start, init) && Enabled(u, Play(u, start, init), trace[|trace| - 1]))
  }

  function Deliveries(u: Mesh, start: Net, trace: seq<Action>, id: Bytes): nat
    requires |start.relays| == |u.nodes|
  {
    if trace == [] then 0
    else
      var init := trace[..|trace| - 1];
      Deliveries(u, start, init, id) + if IsDelivery(Play(u, start, init), trace[|trace| - 1], id) then 1 else 0
  }

  function Forgets(trace: seq<Action>, id: Bytes): nat {
    if trace == [] then 0
    else Forgets(trace[..|trace| - 1], id) + if IsForget(trace[|trace| - 1], id) then 1 else 0
  }

  function Refunds(trace: seq<Action>, id: Bytes, size: nat): nat {
    if trace == [] then 0
    else Refunds(trace[..|trace| - 1], id, size) + if IsForget(trace[|trace| - 1], id) then size else 0
  }

  lemma {:induction false} RefundsMultiply(trace: seq<Action>, id: Bytes, size: nat)
    ensures Refunds(trace, id, size) == size * Forgets(trace, id)
    decreases |trace|
  {
    if trace != [] {
      var init := trace[..|trace| - 1];
      RefundsMultiply(init, id, size);
      var f := Forgets(init, id);
      assert size * (f + 1) == size * f + size;
    }
  }

  lemma {:induction false} ReservesMultiply(relays: seq<State>, id: Bytes, size: nat)
    ensures Reserves(relays, id, size) <= 2 * |relays| * size
  {
    if relays != [] {
      ReservesMultiply(relays[1..], id, size);
      var n := |relays| - 1;
      assert 2 * (n + 1) * size == 2 * n * size + 2 * size;
    }
  }

  lemma {:induction false} FloodSpends(u: Mesh, start: Net, trace: seq<Action>, id: Bytes)
    requires |start.relays| == |u.nodes| && Possible(u, start, trace)
    ensures Deliveries(u, start, trace, id) + Measure(u, Play(u, start, trace), id)
            <= Measure(u, start, id) + Refunds(trace, id, |u.nodes|)
    decreases |trace|
  {
    if trace != [] {
      var init, a := trace[..|trace| - 1], trace[|trace| - 1];
      FloodSpends(u, start, init, id);
      ActMeasure(u, Play(u, start, init), a, id);
    }
  }

  /** In any mesh, with any tables, any order, loss and injections: a message is delivered between nodes at most
      2 N^2 times for N nodes, plus N for each time a dedup memory forgets it. Its ttl plays no part. */
  lemma FloodDiesOut(u: Mesh, start: Net, trace: seq<Action>, id: Bytes)
    requires |start.relays| == |u.nodes| && Possible(u, start, trace)
    requires start.flying == []
    ensures Deliveries(u, start, trace, id) <= 2 * |u.nodes| * |u.nodes| + |u.nodes| * Forgets(trace, id)
  {
    FloodSpends(u, start, trace, id);
    ReservesMultiply(start.relays, id, |u.nodes|);
    RefundsMultiply(trace, id, |u.nodes|);
  }

  // ------------------------------------------------------- one node's backhaul

  function BackhaulCalls(sends: seq<Send>): nat {
    if sends == [] then 0 else (if OffAir(sends[0]) then 1 else 0) + BackhaulCalls(sends[1..])
  }

  lemma {:induction false} CallsAppend(a: seq<Send>, b: seq<Send>)
    ensures BackhaulCalls(a + b) == BackhaulCalls(a) + BackhaulCalls(b)
  {
    if a == [] {
      assert a + b == b;
    } else {
      assert (a + b)[1..] == a[1..] + b;
      CallsAppend(a[1..], b);
    }
  }

  lemma {:induction false} NoCalls(sends: seq<Send>)
    requires forall s :: s in sends ==> !OffAir(s)
    ensures BackhaulCalls(sends) == 0
  {
    if sends != [] {
      NoCalls(sends[1..]);
    }
  }

  function Memory(s: State, presented: bool): set<Bytes> {
    if presented then s.presented else s.main
  }

  /** A call goes with a pipeline learning the id: the presentation pipeline for presentations, else the main one. */
  lemma CallsAreLearning(cfg: Config, s: State, from: Peer, raw: Bytes, env: Moment)
    ensures var o := Handle(cfg, s, from, raw, env);
            var p := IsPresentation(cfg, raw);
            && BackhaulCalls(o.sends) <= 1
            && (BackhaulCalls(o.sends) == 1 ==>
                  && IdOf(raw).Some? && IdOf(raw).value !in Memory(s, p) && IdOf(raw).value in Memory(o.state, p))
            && s.main <= o.state.main && s.presented <= o.state.presented
  {
    var o := Handle(cfg, s, from, raw, env);
    if IsControl(raw) {
      NoCalls(o.sends);
    } else if IsPresentation(cfg, raw) {
      var r := Process(s.presented, raw, env.verdict);
      if r.Deliver? {
        AcrossOnce(cfg.zone, r.message, raw, RouteThrows(cfg.zone, r.message, env));
      }
    } else {
      var r := Process(s.main, raw, env.verdict);
      if r.Deliver? {
        var stage, fwd := LocationStage(cfg, s.loc, from, r.message, env), Forwarding(cfg, from, raw, r, env).sends;
        NoCalls(stage.sends);
        ForwardingOnce(cfg, from, raw, r, env);
        CallsAppend(stage.sends, fwd);
      }
    }
  }

  lemma AcrossOnce(zone: nat, m: Message, raw: Bytes, throws: bool)
    ensures BackhaulCalls(Across(zone, m, raw, throws).sends) <= 1
  {
    var sends := Across(zone, m, raw, throws).sends;
    if sends != [] {
      assert sends[1..] == [] && BackhaulCalls(sends[1..]) == 0;
    }
  }

  lemma ForwardingOnce(cfg: Config, from: Peer, raw: Bytes, r: Result, env: Moment)
    requires r.Deliver?
    ensures BackhaulCalls(Forwarding(cfg, from, raw, r, env).sends) <= 1
  {
    AcrossOnce(cfg.zone, r.message, raw, RouteThrows(cfg.zone, r.message, env));
    var copy := Relayed(raw, r);
    var across := Across(cfg.zone, r.message, raw, RouteThrows(cfg.zone, r.message, env)).sends;
    if copy.Some? {
      var fan := FanOut(env.peers, from, copy.value);
      forall send ensures send in fan ==> !OffAir(send) {
        FanOutMembers(env.peers, from, copy.value, send);
      }
      NoCalls(fan);
      CallsAppend(across, fan);
    }
  }

  /** One node's own life: packets from anywhere, and ids falling out of dedup. */
  datatype Event = Packet(from: Peer, raw: Bytes, env: Moment) | Forgotten(presented: bool, id: Bytes)

  function Live(cfg: Config, s: State, es: seq<Event>): State {
    if es == [] then s
    else
      var before := Live(cfg, s, es[..|es| - 1]);
      match es[|es| - 1]
      case Packet(from, raw, env) => Handle(cfg, before, from, raw, env).state
      case Forgotten(true, id) => before.(presented := before.presented - {id})
      case Forgotten(false, id) => before.(main := before.main - {id})
  }

  /** Backhaul calls made for message `id` through one of the two pipelines. */
  function CallsFor(cfg: Config, s: State, es: seq<Event>, p: bool, id: Bytes): nat {
    if es == [] then 0
    else
      var init, e := es[..|es| - 1], es[|es| - 1];
      CallsFor(cfg, s, init, p, id) +
      if e.Packet? && IdOf(e.raw) == Some(id) && IsPresentation(cfg, e.raw) == p
      then BackhaulCalls(Handle(cfg, Live(cfg, s, init), e.from, e.raw, e.env).sends) else 0
  }

  function TimesForgotten(es: seq<Event>, p: bool, id: Bytes): nat {
    if es == [] then 0
    else TimesForgotten(es[..|es| - 1], p, id) + if IsForgetting(es[|es| - 1], p, id) then 1 else 0
  }

  predicate IsForgetting(e: Event, p: bool, id: Bytes) {
    e.Forgotten? && e.presented == p && e.id == id
  }

  lemma {:induction false} CallsAreRemembered(cfg: Config, s: State, es: seq<Event>, p: bool, id: Bytes)
    ensures CallsFor(cfg, s, es, p, id) <=
            TimesForgotten(es, p, id) + if id in Memory(Live(cfg, s, es), p) then 1 else 0
    decreases |es|
  {
    if es != [] {
      var init, e := es[..|es| - 1], es[|es| - 1];
      CallsAreRemembered(cfg, s, init, p, id);
      if e.Packet? {
        CallsAreLearning(cfg, Live(cfg, s, init), e.from, e.raw, e.env);
      }
    }
  }

  /** While its dedup remembers a message, a node sends it over the backhaul at most once from each pipeline,
      however many copies arrive and whatever their ttl. */
  lemma OneSendPerPipeline(cfg: Config, s: State, es: seq<Event>, p: bool, id: Bytes)
    ensures CallsFor(cfg, s, es, p, id) <= 1 + TimesForgotten(es, p, id)
  {
    CallsAreRemembered(cfg, s, es, p, id);
  }

  // ---------------------------------------------------------- one node's phones

  /** Sends to phone `q`. */
  function SendsTo(sends: seq<Send>, q: Peer): nat {
    if sends == [] then 0 else SendsTo(sends[..|sends| - 1], q) + if IsTo(sends[|sends| - 1], q) then 1 else 0
  }

  predicate IsTo(send: Send, q: Peer) {
    send.ToPhone? && send.peer == q
  }

  predicate Distinct(peers: seq<Peer>) {
    forall i, j :: 0 <= i < j < |peers| ==> peers[i] != peers[j]
  }

  lemma {:induction false} SendsToAppend(a: seq<Send>, b: seq<Send>, q: Peer)
    ensures SendsTo(a + b, q) == SendsTo(a, q) + SendsTo(b, q)
    decreases |b|
  {
    if b == [] {
      assert a + b == a;
    } else {
      assert (a + b)[..|a + b| - 1] == a + b[..|b| - 1];
      SendsToAppend(a, b[..|b| - 1], q);
    }
  }

  lemma {:induction false} NoneTo(sends: seq<Send>, q: Peer)
    requires forall x :: x in sends ==> !IsTo(x, q)
    ensures SendsTo(sends, q) == 0
    decreases |sends|
  {
    if sends != [] {
      NoneTo(sends[..|sends| - 1], q);
    }
  }

  lemma OneSendTo(send: Send, q: Peer)
    ensures SendsTo([send], q) == if IsTo(send, q) then 1 else 0
  {
    assert [send][..0] == [];
  }

  lemma {:induction false} FanOutOnce(peers: seq<Peer>, from: Peer, data: Bytes, q: Peer)
    requires Distinct(peers) && q != from
    ensures SendsTo(FanOut(peers, from, data), q) == if q in peers then 1 else 0
    decreases |peers|
  {
    if peers != [] {
      var init, last := peers[..|peers| - 1], peers[|peers| - 1];
      assert peers == init + [last];
      FanOutOnce(init, from, data, q);
      OneSendTo(ToPhone(last, data), q);
      SendsToAppend(FanOut(init, from, data), if last == from then [] else [ToPhone(last, data)], q);
    }
  }

  /** A phone other than the sender is sent at most one thing by one call, and that only as the main pipeline learns
      the id of the frame. */
  lemma CopiesAreLearning(cfg: Config, s: State, from: Peer, raw: Bytes, env: Moment, q: Peer)
    requires Distinct(env.peers) && q != from
    ensures var o := Handle(cfg, s, from, raw, env);
            && SendsTo(o.sends, q) <= 1
            && (SendsTo(o.sends, q) == 1 ==>
                  IdOf(raw).Some? && IdOf(raw).value !in s.main && IdOf(raw).value in o.state.main)
            && s.main <= o.state.main
  {
    var o := Handle(cfg, s, from, raw, env);
    if IsControl(raw) || IsPresentation(cfg, raw) {
      NoneTo(o.sends, q);
    } else {
      var r := Process(s.main, raw, env.verdict);
      if r.Drop? {
        NoneTo(o.sends, q);
      } else {
        var stage, onward := LocationStage(cfg, s.loc, from, r.message, env), Forwarding(cfg, from, raw, r, env);
        NoneTo(stage.sends, q);
        OnwardOnce(cfg, from, raw, r, env, q);
        SendsToAppend(stage.sends, onward.sends, q);
      }
    }
  }

  lemma OnwardOnce(cfg: Config, from: Peer, raw: Bytes, r: Result, env: Moment, q: Peer)
    requires r.Deliver? && Distinct(env.peers) && q != from
    ensures SendsTo(Forwarding(cfg, from, raw, r, env).sends, q) <= 1
  {
    hide FanOut, SendsTo;
    var across := Across(cfg.zone, r.message, raw, RouteThrows(cfg.zone, r.message, env)).sends;
    NoneTo(across, q);
    var copy := Relayed(raw, r);
    if copy.Some? {
      FanOutOnce(env.peers, from, copy.value, q);
      SendsToAppend(across, FanOut(env.peers, from, copy.value), q);
    }
  }

  /** What `q` is sent because of frames with this id that other phones, or nodes, handed in. */
  function CopiesFor(cfg: Config, s: State, es: seq<Event>, q: Peer, id: Bytes): nat {
    if es == [] then 0
    else
      var init, e := es[..|es| - 1], es[|es| - 1];
      CopiesFor(cfg, s, init, q, id) +
      if e.Packet? && e.from != q && IdOf(e.raw) == Some(id)
      then SendsTo(Handle(cfg, Live(cfg, s, init), e.from, e.raw, e.env).sends, q) else 0
  }

  predicate PeersAreDistinct(es: seq<Event>) {
    forall i :: 0 <= i < |es| && es[i].Packet? ==> Distinct(es[i].env.peers)
  }

  lemma {:induction false} CopiesAreRemembered(cfg: Config, s: State, es: seq<Event>, q: Peer, id: Bytes)
    requires PeersAreDistinct(es)
    ensures CopiesFor(cfg, s, es, q, id) <=
            TimesForgotten(es, false, id) + if id in Live(cfg, s, es).main then 1 else 0
    decreases |es|
  {
    if es != [] {
      var init, e := es[..|es| - 1], es[|es| - 1];
      assert forall i :: 0 <= i < |init| ==> init[i] == es[i];
      CopiesAreRemembered(cfg, s, init, q, id);
      if e.Packet? {
        hide Handle;
        if e.from != q {
          CopiesAreLearning(cfg, Live(cfg, s, init), e.from, e.raw, e.env, q);
        }
        CallsAreLearning(cfg, Live(cfg, s, init), e.from, e.raw, e.env);
      }
    }
  }

  /** A phone gets a message from a node at most once, plus once for each time the node has forgotten it, however
      often and from however many sides it arrives. */
  lemma OneCopyPerPhone(cfg: Config, s: State, es: seq<Event>, q: Peer, id: Bytes)
    requires PeersAreDistinct(es)
    ensures CopiesFor(cfg, s, es, q, id) <= 1 + TimesForgotten(es, false, id)
  {
    CopiesAreRemembered(cfg, s, es, q, id);
  }
}
