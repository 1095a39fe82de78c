/** node/relay.py: one handler for every frame, from a phone or from another node. */
module Relay {
  import opened Wire
  import opened Core
  import Location
  import ZoneSync
  import Backhaul

  type Peer = string

  const PHONE_PING_MAGIC: Bytes := [77, 76, 80, 80, 49]
  const BACKEND_PROXY_MAGIC: Bytes := [77, 76, 66, 80, 49]

  /** None: the IndexError of a short packet, or the ValueError of a byte below zero. */
  function DecrementTtl(raw: Bytes): Option<Bytes> {
    if |raw| <= TTL_OFFSET || raw[TTL_OFFSET] == 0 then None
    else Some(raw[..TTL_OFFSET] + [raw[TTL_OFFSET] - 1] + raw[TTL_OFFSET + 1..])
  }

  // --------------------------------------------------------------- the pipeline

  /** What the parts of the pipeline that are not visible here decide: whether every other check passes, and the
      spray share of the forward copy, if there is one. */
  datatype Verdict = Verdict(pass: bool, spray: Option<Byte>)

  datatype Result = Drop | Deliver(message: Message, forward: Option<Bytes>)

  function Process(delivered: set<Bytes>, raw: Bytes, v: Verdict): Result {
    match Parse(raw)
    case None => Drop
    case Some(m) =>
      if m.ttl == 0 || m.msgId in delivered || !v.pass then Drop
      else
        Deliver(m, match v.spray
                   case None => None
                   case Some(share) => Some(raw[TTL_OFFSET := raw[TTL_OFFSET] - 1][SPRAY_OFFSET := share]))
  }

  function Remember(delivered: set<Bytes>, r: Result): set<Bytes> {
    if r.Deliver? then delivered + {r.message.msgId} else delivered
  }

  /** A packet with a hop left, whose id is not remembered. */
  predicate Fresh(delivered: set<Bytes>, raw: Bytes) {
    Parse(raw).Some? && Parse(raw).value.ttl >= 1 && Parse(raw).value.msgId !in delivered
  }

  /** There is a forward copy when there is a spray share for it, one hop older, with that share, and otherwise the
      packet itself. */
  ghost predicate IsForwardOf(raw: Bytes, spray: Option<Byte>, forward: Option<Bytes>) {
    && (forward.Some? <==> spray.Some?)
    && (forward.Some? ==>
          && |forward.value| == |raw| > SPRAY_OFFSET
          && forward.value[TTL_OFFSET] as int == raw[TTL_OFFSET] as int - 1
          && forward.value[SPRAY_OFFSET] == spray.value
          && forall k :: 0 <= k < |raw| && k != TTL_OFFSET && k != SPRAY_OFFSET ==> forward.value[k] == raw[k])
  }

  class RelayPipeline {
    var delivered: set<Bytes>

    constructor ()
      ensures delivered == {}
    {
      delivered := {};
    }

    method ProcessPacket(raw: Bytes, v: Verdict) returns (r: Result)
      modifies this
      ensures r == Process(old(delivered), raw, v)
      ensures r.Deliver? <==> v.pass && Fresh(old(delivered), raw)
      ensures r.Deliver? ==> Parse(raw) == Some(r.message) && delivered == old(delivered) + {r.message.msgId}
      ensures r.Drop? ==> delivered == old(delivered)
      ensures r.Deliver? ==> IsForwardOf(raw, v.spray, r.forward)
    {
      var m := Parse(raw);
      if m.None? {
        return Drop;
      }
      if m.value.ttl == 0 {
        return Drop;
      }
      if m.value.msgId in delivered || !v.pass {
        return Drop;
      }
      delivered := delivered + {m.value.msgId};
      var copy := None;
      if v.spray.Some? {
        copy := Some(raw[..TTL_OFFSET] + [raw[TTL_OFFSET] - 1, v.spray.value] + raw[SPRAY_OFFSET + 1..]);
        assert copy.value == raw[TTL_OFFSET := raw[TTL_OFFSET] - 1][SPRAY_OFFSET := v.spray.value];
      }
      return Deliver(m.value, copy);
    }
  }

  // -------------------------------------------------------------------- the relay

  datatype Counter =
    | Received | Accepted | Dropped | RelayedToPhones | ForwardedCrossZone | BroadcastToNodes
    | AttestationsCached | LocationTerminated

  type Stats = map<Counter, nat>

  function Bump(stats: Stats, k: Counter): Stats {
    stats[k := if k in stats then stats[k] + 1 else 1]
  }

  function BumpAll(stats: Stats, ks: seq<Counter>): Stats {
    if ks == [] then stats else Bump(BumpAll(stats, ks[..|ks| - 1]), ks[|ks| - 1])
  }

  lemma {:induction false} BumpAllAppend(stats: Stats, a: seq<Counter>, b: seq<Counter>)
    ensures BumpAll(stats, a + b) == BumpAll(BumpAll(stats, a), b)
    decreases |b|
  {
    if b == [] {
      assert a + b == a;
    } else {
      assert (a + b)[..|a + b| - 1] == a + b[..|b| - 1];
      BumpAllAppend(stats, a, b[..|b| - 1]);
    }
  }

  lemma BumpOneMore(stats: Stats, ks: seq<Counter>, k: Counter)
    ensures BumpAll(stats, ks + [k]) == Bump(BumpAll(stats, ks), k)
  {
    assert (ks + [k])[..|ks|] == ks;
  }

  lemma BumpTwo(stats: Stats, k: Counter, k': Counter)
    ensures BumpAll(stats, [k]) == Bump(stats, k)
    ensures BumpAll(stats, [k, k']) == Bump(Bump(stats, k), k')
  {
    assert [k][..0] == [] && [k, k'][..1] == [k];
    assert BumpAll(stats, [k]) == Bump(BumpAll(stats, []), k);
  }

  datatype Send =
    | ToPhone(peer: Peer, data: Bytes)
    | ToAllNodes(data: Bytes)
    | ToZone(zone: nat, data: Bytes)
    | ToTelemetry(peer: Peer, data: Bytes)
    | ToProxy(peer: Peer, data: Bytes)

  /** Which optional services are wired, besides location. */
  datatype Config = Config(zone: nat, attestation: bool, telemetry: bool, proxy: bool, crypto: Crypto, interval: real)

  datatype State = State(main: set<Bytes>, presented: set<Bytes>, loc: Option<Location.State>)

  /** What the surroundings contribute to one call. `known` is the routing table's answer for the packet's zone,
      `hosts` what name resolution would say. */
  datatype Moment = Moment(
    peers: seq<Peer>,
    verdict: Verdict,
    tokenOk: bool,
    clk: Location.Clocks,
    known: Option<ZoneSync.Stored>,
    hosts: string -> Backhaul.HostName)

  /** `counts`: the counters bumped, in order. */
  datatype Outcome = Outcome(state: State, sends: seq<Send>, counts: seq<Counter>, raised: bool)

  function FanOut(peers: seq<Peer>, from: Peer, data: Bytes): seq<Send> {
    if peers == [] then []
    else
      var last := peers[|peers| - 1];
      FanOut(peers[..|peers| - 1], from, data) + if last == from then [] else [ToPhone(last, data)]
  }

  /** Sending the packet to its zone throws: the address known for that zone is not one a socket takes. */
  predicate RouteThrows(zone: nat, m: Message, env: Moment) {
    m.zone != BROADCAST_ZONE && Backhaul.RouteTo(zone, m.zone, env.known, env.hosts).BadAddress?
  }

  /** What some part of the handler sends and counts, and whether it then throws. */
  datatype Part = Part(sends: seq<Send>, counts: seq<Counter>, raised: bool)

  /** The cross-node send of an accepted packet; the raw packet goes, its ttl untouched. A call that throws is not
      counted. */
  function Across(zone: nat, m: Message, raw: Bytes, throws: bool): Part {
    if m.zone == BROADCAST_ZONE then Part([ToAllNodes(raw)], [BroadcastToNodes], false)
    else if m.zone == zone then Part([], [], false)
    else if throws then Part([], [], true)
    else Part([ToZone(m.zone, raw)], [ForwardedCrossZone], false)
  }

  /** The copy for the local phones. */
  function Relayed(raw: Bytes, r: Result): Option<Bytes> {
    if r.Deliver? && r.forward.Some? then r.forward else DecrementTtl(raw)
  }

  function Present(cfg: Config, s: State, raw: Bytes, env: Moment): Outcome {
    var r := Process(s.presented, raw, env.verdict);
    var s' := s.(presented := Remember(s.presented, r));
    if r.Drop? || !env.tokenOk then Outcome(s', [], [Received, Dropped], false)
    else
      var across := Across(cfg.zone, r.message, raw, RouteThrows(cfg.zone, r.message, env));
      Outcome(s', across.sends, [Received, AttestationsCached], across.raised)
  }

  /** What an accepted packet does once the location service has let it go on. */
  function Forwarding(cfg: Config, from: Peer, raw: Bytes, r: Result, env: Moment): Part
    requires r.Deliver?
  {
    ForwardCopy(cfg.zone, from, raw, r.message, Relayed(raw, r), env.peers, RouteThrows(cfg.zone, r.message, env))
  }

  /** Other nodes first; if that throws, the phones get nothing. */
  function ForwardCopy(zone: nat, from: Peer, raw: Bytes, m: Message, copy: Option<Bytes>, peers: seq<Peer>,
                       throws: bool): Part
  {
    var across := Across(zone, m, raw, throws);
    if !across.raised && copy.Some? && HopsLeft(copy.value) then
      Part(across.sends + FanOut(peers, from, copy.value), across.counts + [RelayedToPhones], false)
    else across
  }

  predicate HopsLeft(copy: Bytes) {
    |copy| > TTL_OFFSET && copy[TTL_OFFSET] > 0
  }

  const RESPONSE_TTL: Byte := 3
  const RESPONSE_SPRAY_L: Byte := 8

  function ResponsePacket(cfg: Config, reply: Location.Reply): Bytes
    requires reply.Served?
  {
    var c := cfg.crypto;
    c.sign(Envelope(RESPONSE_TTL, RESPONSE_SPRAY_L, cfg.zone, c.responseType, c.seal(reply.answer, reply.to, reply.key)))
  }

  /** `done`: the message was consumed here. `raised`: answering it threw. */
  datatype Stage = Stage(loc: Option<Location.State>, sends: seq<Send>, done: bool, raised: bool)

  function LocationStage(cfg: Config, loc: Option<Location.State>, from: Peer, m: Message, env: Moment): Stage {
    match loc
    case None => Stage(None, [], false, false)
    case Some(l) =>
      var h := Location.Dispatch(cfg.crypto, cfg.interval, l, m, env.clk);
      var sends := match h.reply
                   case Some(Served(a, to, key)) => [ToPhone(from, ResponsePacket(cfg, h.reply.value))]
                   case _ => [];
      Stage(Some(h.state), sends, h.consumed, h.reply == Some(Location.Throws))
  }

  /** What becomes of a packet the pipeline has accepted. */
  datatype Rest = Rest(loc: Option<Location.State>, sends: seq<Send>, counts: seq<Counter>, raised: bool)

  function AfterAccept(cfg: Config, loc: Option<Location.State>, from: Peer, raw: Bytes, r: Result, env: Moment): Rest
    requires r.Deliver?
  {
    var stage := LocationStage(cfg, loc, from, r.message, env);
    if stage.raised then Rest(stage.loc, stage.sends, [], true)
    else if stage.done then Rest(stage.loc, stage.sends, [LocationTerminated], false)
    else
      var onward := Forwarding(cfg, from, raw, r, env);
      Rest(stage.loc, stage.sends + onward.sends, onward.counts, onward.raised)
  }

  /** The rest, put together from what the location service did and from what passing on would do. */
  predicate Staged(rest: Rest, stage: Stage, onward: Part) {
    && rest.loc == stage.loc && !(stage.raised && stage.done)
    && if stage.raised || stage.done
       then rest.sends == stage.sends && rest.raised == stage.raised
            && rest.counts == if stage.done then [LocationTerminated] else []
       else rest.sends == stage.sends + onward.sends && rest.counts == onward.counts && rest.raised == onward.raised
  }

  lemma AfterAcceptInStages(cfg: Config, loc: Option<Location.State>, from: Peer, raw: Bytes, r: Result, env: Moment)
    requires r.Deliver?
    ensures Staged(AfterAccept(cfg, loc, from, raw, r, env), LocationStage(cfg, loc, from, r.message, env),
                   Forwarding(cfg, from, raw, r, env))
  {
  }

  function Relaying(cfg: Config, s: State, from: Peer, raw: Bytes, env: Moment): Outcome {
    var r := Process(s.main, raw, env.verdict);
    if r.Drop? then Outcome(s, [], [Received, Dropped], false)
    else
      var rest := AfterAccept(cfg, s.loc, from, raw, r, env);
      Outcome(State(Remember(s.main, r), s.presented, rest.loc), rest.sends, [Received, Accepted] + rest.counts, rest.raised)
  }

  function Handle(cfg: Config, s: State, from: Peer, raw: Bytes, env: Moment): Outcome {
    if StartsWith(raw, PHONE_PING_MAGIC) then
      Outcome(s, if cfg.telemetry then [ToTelemetry(from, raw)] else [], [], false)
    else if StartsWith(raw, BACKEND_PROXY_MAGIC) then
      Outcome(s, if cfg.proxy then [ToProxy(from, raw)] else [], [], false)
    else if cfg.attestation && TypeOf(raw) == Some(ATTESTATION_PRESENT) then Present(cfg, s, raw, env)
    else Relaying(cfg, s, from, raw, env)
  }

  /** What a relay keeps and does outside its pipelines: the counters, and everything it has handed to the
      transport, the backhaul and the other services. */
  class Traffic {
    var stats: Stats
    var sent: seq<Send>

    constructor ()
      ensures stats == map[] && sent == []
    {
      stats, sent := map[], [];
    }

    method Count(k: Counter)
      modifies this`stats
      ensures stats == Bump(old(stats), k)
    {
      stats := stats[k := if k in stats then stats[k] + 1 else 1];
    }

    method Emit(s: Send)
      modifies this`sent
      ensures sent == old(sent) + [s]
    {
      sent := sent + [s];
    }
  }

  class NodeRelay {
    const cfg: Config
    const pipeline: RelayPipeline
    const presentation: RelayPipeline
    const location: Location.LocationService?
    const traffic: Traffic

    ghost predicate Valid()
      reads this, if location != null then {location, location.authz, location.authz.directory} else {}
    {
      && pipeline != presentation
      && (location != null ==>
            && location.Valid()
            && location.authz.crypto == cfg.crypto && location.authz.interval == cfg.interval)
    }

    ghost function Parts(): set<object>
      reads this, if location != null then {location} else {}
    {
      {traffic, pipeline, presentation} + if location != null then {location.authz, location.store} else {}
    }

    function Now(): State
      reads this, pipeline, presentation,
            if location != null then {location, location.authz, location.authz.store, location.authz.directory} else {}
    {
      State(pipeline.delivered, presentation.delivered, if location == null then None else Some(location.Now()))
    }

    constructor (config: Config, service: Location.LocationService?)
      requires service != null ==>
                 service.Valid() && service.authz.crypto == config.crypto && service.authz.interval == config.interval
      ensures Valid() && cfg == config && location == service && traffic.sent == [] && fresh(pipeline) && fresh(presentation)
      ensures traffic.stats == map[] && pipeline.delivered == {} && presentation.delivered == {}
    {
      cfg, location := config, service;
      traffic := new Traffic();
      pipeline := new RelayPipeline();
      presentation := new RelayPipeline();
    }

    /** `_backhaul` calls of an accepted packet; `throws` is what the call to the packet's zone does. */
    method CrossNodes(m: Message, raw: Bytes, throws: bool, counted: bool) returns (raised: bool)
      modifies traffic
      ensures var across := Across(cfg.zone, m, raw, throws);
              && traffic.sent == old(traffic.sent) + across.sends && raised == across.raised
              && traffic.stats == BumpAll(old(traffic.stats), if counted then across.counts else [])
    {
      BumpTwo(traffic.stats, BroadcastToNodes, BroadcastToNodes);
      BumpTwo(traffic.stats, ForwardedCrossZone, ForwardedCrossZone);
      raised := false;
      if m.zone == BROADCAST_ZONE {
        traffic.Emit(ToAllNodes(raw));
        if counted {
          traffic.Count(BroadcastToNodes);
        }
      } else if m.zone != cfg.zone {
        if throws {
          return true;
        }
        traffic.Emit(ToZone(m.zone, raw));
        if counted {
          traffic.Count(ForwardedCrossZone);
        }
      }
    }

    method SendToPhones(peers: seq<Peer>, from: Peer, data: Bytes)
      modifies traffic`sent
      ensures traffic.sent == old(traffic.sent) + FanOut(peers, from, data)
    {
      for i := 0 to |peers|
        invariant traffic.sent == old(traffic.sent) + FanOut(peers[..i], from, data)
      {
        assert peers[..i + 1][..i] == peers[..i];
        if peers[i] == from {
          continue;
        }
        traffic.Emit(ToPhone(peers[i], data));
      }
      assert peers[..|peers|] == peers;
    }

    /** Everything after the location service has let an accepted packet go on; `copy` is for the phones. */
    method PassOn(from: Peer, raw: Bytes, m: Message, copy: Option<Bytes>, peers: seq<Peer>, throws: bool)
        returns (raised: bool)
      modifies traffic
      ensures var onward := ForwardCopy(cfg.zone, from, raw, m, copy, peers, throws);
              && traffic.sent == old(traffic.sent) + onward.sends && raised == onward.raised
              && traffic.stats == BumpAll(old(traffic.stats), onward.counts)
    {
      raised := CrossNodes(m, raw, throws, true);
      if !raised && copy.Some? && HopsLeft(copy.value) {
        SendToPhones(peers, from, copy.value);
        traffic.Count(RelayedToPhones);
        BumpOneMore(old(traffic.stats), Across(cfg.zone, m, raw, throws).counts, RelayedToPhones);
      }
    }

    method HandlePresentation(from: Peer, raw: Bytes, env: Moment) returns (raised: bool)
      requires Valid()
      modifies traffic, presentation
      ensures Valid()
      ensures var o := Present(cfg, old(Now()), raw, env);
              && Now() == o.state && traffic.sent == old(traffic.sent) + o.sends
              && traffic.stats == BumpAll(old(traffic.stats), o.counts) && raised == o.raised
    {
      raised := false;
      traffic.Count(Received);
      BumpTwo(old(traffic.stats), Received, Dropped);
      BumpTwo(old(traffic.stats), Received, AttestationsCached);
      var r := presentation.ProcessPacket(raw, env.verdict);
      if r.Drop? {
        traffic.Count(Dropped);
        return;
      }
      if !env.tokenOk {
        traffic.Count(Dropped);
        return;
      }
      traffic.Count(AttestationsCached);
      raised := CrossNodes(r.message, raw, RouteThrows(cfg.zone, r.message, env), false);
    }

    method HandlePacket(from: Peer, raw: Bytes, env: Moment) returns (raised: bool)
      requires Valid()
      modifies Parts()
      ensures Valid()
      ensures var o := Handle(cfg, old(Now()), from, raw, env);
              && Now() == o.state && traffic.sent == old(traffic.sent) + o.sends
              && traffic.stats == BumpAll(old(traffic.stats), o.counts) && raised == o.raised
    {
      raised := false;
      if StartsWith(raw, PHONE_PING_MAGIC) {
        if cfg.telemetry {
          traffic.Emit(ToTelemetry(from, raw));
        }
        return;
      }
      if StartsWith(raw, BACKEND_PROXY_MAGIC) {
        if cfg.proxy {
          traffic.Emit(ToProxy(from, raw));
        }
        return;
      }
      if cfg.attestation && TypeOf(raw) == Some(ATTESTATION_PRESENT) {
        raised := HandlePresentation(from, raw, env);
        return;
      }
      raised := HandleMeshPacket(from, raw, env);
    }

    method HandleMeshPacket(from: Peer, raw: Bytes, env: Moment) returns (raised: bool)
      requires Valid()
      modifies Parts()
      ensures Valid()
      ensures var o := Relaying(cfg, old(Now()), from, raw, env);
              && Now() == o.state && traffic.sent == old(traffic.sent) + o.sends
              && traffic.stats == BumpAll(old(traffic.stats), o.counts) && raised == o.raised
    {
      traffic.Count(Received);
      var r := pipeline.ProcessPacket(raw, env.verdict);
      if r.Drop? {
        traffic.Count(Dropped);
        BumpTwo(old(traffic.stats), Received, Dropped);
        return false;
      }
      traffic.Count(Accepted);
      BumpTwo(old(traffic.stats), Received, Accepted);
      ghost var rest := AfterAccept(cfg, Now().loc, from, raw, r, env);
      BumpAllAppend(old(traffic.stats), [Received, Accepted], rest.counts);
      AfterAcceptInStages(cfg, Now().loc, from, raw, r, env);
      raised := HandleAccepted(from, raw, r.message, Relayed(raw, r), env, RouteThrows(cfg.zone, r.message, env),
                               Now(), LocationStage(cfg, Now().loc, from, r.message, env), rest);
    }

    method HandleAccepted(from: Peer, raw: Bytes, m: Message, copy: Option<Bytes>, env: Moment, throws: bool,
                          ghost s: State, ghost stage: Stage, ghost rest: Rest)
        returns (raised: bool)
      requires Valid() && Now() == s
      requires stage == LocationStage(cfg, s.loc, from, m, env)
      requires Staged(rest, stage, ForwardCopy(cfg.zone, from, raw, m, copy, env.peers, throws))
      modifies Parts() - {pipeline, presentation}
      ensures Valid() && Now() == s.(loc := rest.loc)
      ensures traffic.sent == old(traffic.sent) + rest.sends
      ensures traffic.stats == BumpAll(old(traffic.stats), rest.counts) && raised == rest.raised
    {
      hide ForwardCopy, LocationStage;
      ghost var onward := ForwardCopy(cfg.zone, from, raw, m, copy, env.peers, throws);
      ghost var sent0 := traffic.sent;
      var done;
      done, raised := AskLocation(from, m, env, s, stage);
      if !raised && !done {
        raised := PassOn(from, raw, m, copy, env.peers, throws);
        assert (sent0 + stage.sends) + onward.sends == sent0 + (stage.sends + onward.sends);
      }
    }

    method AskLocation(from: Peer, m: Message, env: Moment, ghost s: State, ghost stage: Stage)
        returns (done: bool, raised: bool)
      requires Valid() && Now() == s && stage == LocationStage(cfg, s.loc, from, m, env)
      modifies Parts() - {pipeline, presentation}
      ensures Valid() && Now() == s.(loc := stage.loc)
      ensures done == stage.done && raised == stage.raised
      ensures traffic.sent == old(traffic.sent) + stage.sends
      ensures traffic.stats == BumpAll(old(traffic.stats), if stage.done then [LocationTerminated] else [])
    {
      BumpTwo(traffic.stats, LocationTerminated, LocationTerminated);
      if location == null {
        return false, false;
      }
      var reply;
      done, reply := location.HandleNodeTerminated(m, env.clk);
      raised := reply == Some(Location.Throws);
      if reply.Some? && reply.value.Served? {
        traffic.Emit(ToPhone(from, ResponsePacket(cfg, reply.value)));
      }
      if done {
        traffic.Count(LocationTerminated);
      }
    }
  }
}
