/** node/backhaul/batman_backhaul.py: where a packet for another zone goes, and what a received datagram is. */
module Backhaul {
  import opened Wire
  import ZoneTable
  import ZoneSync

  const BACKHAUL_UDP_PORT := 19788
  const ZONE_SYNC_MAGIC: Bytes := [77, 76, 90, 83, 49]

  type Endpoint = (string, int)

  /** What a socket makes of a host name: an address, a failed lookup, or a name it will not look up at all, because
      it cannot be encoded or contains a NUL. */
  datatype HostName = Resolves | Unknown | Unusable

  /** `Lost`: a socket error, logged and dropped. `Unfit`: the send throws something else. */
  datatype Target = At(to: Endpoint) | Lost | Unfit

  /** A port as a C int, whatever its range; Python's True and False are integers. */
  function PortOf(j: ZoneSync.Json): Option<int> {
    match j
    case Int(n) => if -0x8000_0000 <= n < 0x8000_0000 then Some(n) else None
    case Bool(b) => Some(if b then 1 else 0)
    case _ => None
  }

  /** `_endpoint`: a bare host gets the default port; anything that is not a pair of a string and an integer does
      not make an endpoint. */
  function PairOf(a: ZoneSync.Stored): Option<Endpoint> {
    match a
    case Plain(Str(h)) => Some((h, BACKHAUL_UDP_PORT))
    case Tuple(items) =>
      if |items| == 2 && items[0].Str? && PortOf(items[1]).Some? then Some((items[0].s, PortOf(items[1]).value)) else None
    case _ => None
  }

  /** Where a send to a stored address ends: the host is looked up before the port's range is checked. */
  function EndpointOf(a: ZoneSync.Stored, hosts: string -> HostName): Target {
    match PairOf(a)
    case None => Unfit
    case Some((h, p)) =>
      match hosts(h)
      case Unusable => Unfit
      case Unknown => Lost
      case Resolves => if 0 <= p < 0x10000 then At((h, p)) else Unfit
  }

  /** What a node announces, every other node can send to, once its host name resolves. */
  lemma AnnouncedAddressWorks(a: ZoneSync.Addr, hosts: string -> HostName)
    requires a.Endpoint? ==> 0 <= a.port < 0x10000
    requires hosts(a.host) == Resolves
    ensures EndpointOf(ZoneSync.AsStored(a), hosts) ==
            At(match a case Host(h) => (h, BACKHAUL_UDP_PORT) case Endpoint(h, p) => (h, p))
  {
  }

  /** `BadAddress`: the send throws something other than a socket error. */
  datatype Route = Nowhere | Everywhere | Unicast(to: Endpoint) | Unresolved | BadAddress

  /** A null that was announced for an address reads like no address at all. */
  function Found(known: Option<ZoneSync.Stored>): Option<ZoneSync.Stored> {
    match known
    case Some(Plain(Null)) => None
    case _ => known
  }

  /** `forward_to_zone`: own zone is refused, an unknown zone is flooded. `known` is the table's answer. */
  function RouteTo(own: int, zone: int, known: Option<ZoneSync.Stored>, hosts: string -> HostName): Route {
    if zone == own then Nowhere
    else
      match Found(known)
      case None => Everywhere
      case Some(a) =>
        match EndpointOf(a, hosts)
        case At(e) => Unicast(e)
        case Lost => Unresolved
        case Unfit => BadAddress
  }

  datatype Received = Got(data: Bytes, from: Endpoint) | SocketClosed

  datatype Delivery = ToRelay(from: Endpoint, data: Bytes) | ToZoneSync(from: Endpoint, data: Bytes)

  /** Self-echo filter, then demux by the marker. */
  function Demux(own: Endpoint, relay: bool, sync: bool, data: Bytes, from: Endpoint): seq<Delivery> {
    if from == own then []
    else if StartsWith(data, ZONE_SYNC_MAGIC) then if sync then [ToZoneSync(from, data)] else []
    else if relay then [ToRelay(from, data)] else []
  }

  /** All deliveries until the socket is closed. */
  function DemuxAll(own: Endpoint, relay: bool, sync: bool, inputs: seq<Received>): seq<Delivery> {
    if inputs == [] || inputs[0].SocketClosed? then []
    else Demux(own, relay, sync, inputs[0].data, inputs[0].from) + DemuxAll(own, relay, sync, inputs[1..])
  }

  lemma DemuxOneMore(own: Endpoint, relay: bool, sync: bool, inputs: seq<Received>, i: nat, out: seq<Delivery>)
    requires i < |inputs| && inputs[i].Got?
    ensures var d := Demux(own, relay, sync, inputs[i].data, inputs[i].from);
            out + DemuxAll(own, relay, sync, inputs[i..]) == (out + d) + DemuxAll(own, relay, sync, inputs[i + 1..])
  {
    assert inputs[i..][1..] == inputs[i + 1..];
  }

  /** How many datagrams arrive before the socket is closed. */
  function Open(inputs: seq<Received>): nat {
    if inputs == [] || inputs[0].SocketClosed? then 0 else 1 + Open(inputs[1..])
  }

  lemma {:induction false} OpenAreGot(inputs: seq<Received>)
    ensures Open(inputs) <= |inputs| && forall i :: 0 <= i < Open(inputs) ==> inputs[i].Got?
  {
    if inputs != [] && inputs[0].Got? {
      OpenAreGot(inputs[1..]);
    }
  }

  /** Not the node's own echo, and there is a callback for it. */
  predicate Wanted(own: Endpoint, relay: bool, sync: bool, i: Received) {
    i.Got? && i.from != own && if StartsWith(i.data, ZONE_SYNC_MAGIC) then sync else relay
  }

  function CountWanted(own: Endpoint, relay: bool, sync: bool, inputs: seq<Received>): nat {
    if inputs == [] then 0
    else
      CountWanted(own, relay, sync, inputs[..|inputs| - 1]) +
      if Wanted(own, relay, sync, inputs[|inputs| - 1]) then 1 else 0
  }

  lemma {:induction false} CountHead(own: Endpoint, relay: bool, sync: bool, inputs: seq<Received>)
    requires inputs != []
    ensures CountWanted(own, relay, sync, inputs) ==
            (if Wanted(own, relay, sync, inputs[0]) then 1 else 0) + CountWanted(own, relay, sync, inputs[1..])
    decreases |inputs|
  {
    hide Wanted;
    var init := inputs[..|inputs| - 1];
    if |inputs| == 1 {
      assert init == [] && inputs[1..] == [];
    } else {
      assert inputs[1..][..|inputs| - 2] == init[1..];
      CountHead(own, relay, sync, init);
    }
  }

  lemma CountAfterFirst(own: Endpoint, relay: bool, sync: bool, inputs: seq<Received>, k: nat)
    requires 0 < k <= |inputs|
    ensures CountWanted(own, relay, sync, inputs[..k]) ==
            (if Wanted(own, relay, sync, inputs[0]) then 1 else 0) + CountWanted(own, relay, sync, inputs[1..][..k - 1])
  {
    hide Wanted;
    CountHead(own, relay, sync, inputs[..k]);
    assert inputs[..k][1..] == inputs[1..][..k - 1];
  }

  /** A control frame is for zone-sync, anything else for the relay. */
  function Sorted(data: Bytes, from: Endpoint): Delivery {
    if StartsWith(data, ZONE_SYNC_MAGIC) then ToZoneSync(from, data) else ToRelay(from, data)
  }

  lemma DemuxHead(own: Endpoint, relay: bool, sync: bool, inputs: seq<Received>)
    requires Open(inputs) > 0
    ensures inputs != [] && inputs[0].Got? && Open(inputs) == 1 + Open(inputs[1..])
    ensures DemuxAll(own, relay, sync, inputs) ==
            (if Wanted(own, relay, sync, inputs[0]) then [Sorted(inputs[0].data, inputs[0].from)] else [])
            + DemuxAll(own, relay, sync, inputs[1..])
  {
  }

  lemma {:induction false} NothingElseDelivered(own: Endpoint, relay: bool, sync: bool, inputs: seq<Received>)
    ensures Open(inputs) <= |inputs|
    ensures |DemuxAll(own, relay, sync, inputs)| == CountWanted(own, relay, sync, inputs[..Open(inputs)])
    decreases |inputs|
  {
    OpenAreGot(inputs);
    if Open(inputs) > 0 {
      hide DemuxAll, CountWanted, Open, Wanted;
      DemuxHead(own, relay, sync, inputs);
      CountAfterFirst(own, relay, sync, inputs, Open(inputs));
      NothingElseDelivered(own, relay, sync, inputs[1..]);
    }
  }

  /** Of the datagrams before the socket closes, the k-th that is not the node's own echo, and has a callback, is the
      k-th delivery, to the one callback its marker says; and there are no other deliveries. */
  lemma {:induction false} DemuxSeparates(own: Endpoint, relay: bool, sync: bool, inputs: seq<Received>, i: nat)
    ensures Open(inputs) <= |inputs|
    ensures |DemuxAll(own, relay, sync, inputs)| == CountWanted(own, relay, sync, inputs[..Open(inputs)])
    ensures i < Open(inputs) && Wanted(own, relay, sync, inputs[i]) ==>
              var n := CountWanted(own, relay, sync, inputs[..i]);
              && n < |DemuxAll(own, relay, sync, inputs)|
              && DemuxAll(own, relay, sync, inputs)[n] == Sorted(inputs[i].data, inputs[i].from)
    decreases |inputs|
  {
    NothingElseDelivered(own, relay, sync, inputs);
    if i < Open(inputs) {
      hide DemuxAll, CountWanted, Sorted, Open, Wanted;
      DemuxHead(own, relay, sync, inputs);
      if i == 0 {
        NoneBefore(own, relay, sync, inputs);
      } else {
        DemuxSeparates(own, relay, sync, inputs[1..], i - 1);
        CountAfterFirst(own, relay, sync, inputs, i);
      }
    }
  }

  lemma NoneBefore(own: Endpoint, relay: bool, sync: bool, inputs: seq<Received>)
    ensures CountWanted(own, relay, sync, inputs[..0]) == 0
  {
  }

  // -------------------------------------------------------------- routing

  /** The stored address is this host, at this port, given or by default. */
  predicate Names(a: ZoneSync.Stored, h: string, p: int) {
    || (a == ZoneSync.Plain(ZoneSync.Str(h)) && p == 19788)
    || (a.Tuple? && |a.items| == 2 && a.items[0] == ZoneSync.Str(h) && -0x8000_0000 <= p < 0x8000_0000 &&
        (a.items[1] == ZoneSync.Int(p) || (a.items[1].Bool? && p == if a.items[1].b then 1 else 0)))
  }

  /** An address that names a host is used when the host resolves and the port is in range, and lost when the host
      does not resolve. */
  lemma NamedIsUsed(a: ZoneSync.Stored, hosts: string -> HostName, h: string, p: int)
    requires Names(a, h, p)
    ensures EndpointOf(a, hosts) == At((h, p)) <==> hosts(h).Resolves? && 0 <= p < 0x10000
    ensures EndpointOf(a, hosts) == Lost <==> hosts(h).Unknown?
    ensures EndpointOf(a, hosts).Unfit? <==> hosts(h).Unusable? || (hosts(h).Resolves? && !(0 <= p < 0x10000))
  {
  }

  /** An address that names none is unfit, and only named hosts are sent to. */
  lemma UnnamedIsUnfit(a: ZoneSync.Stored, hosts: string -> HostName)
    ensures (forall h, p :: !Names(a, h, p)) ==> EndpointOf(a, hosts).Unfit?
    ensures EndpointOf(a, hosts).At? ==> Names(a, EndpointOf(a, hosts).to.0, EndpointOf(a, hosts).to.1)
  {
    var named := PairOf(a);
    if named.Some? {
      assert Names(a, named.value.0, named.value.1);
    }
  }

  /** Routing in terms of what has been announced: unknown zones are flooded, known ones are sent to their last
      announcer while it is fresh, else to the pinned address. */
  lemma RoutesFollowHistory(own: int, t: ZoneTable.Table<ZoneSync.Stored>, h: seq<ZoneTable.Event<ZoneSync.Stored>>,
                            z: int, now: real, hosts: string -> HostName, e: Endpoint)
    requires t.learned == map[] && ZoneTable.PrunedBy(h, now) && z != own
    ensures var route := RouteTo(own, z, ZoneTable.AddrFor(ZoneTable.Run(t, h), z, now), hosts);
            var promised := ZoneTable.Promised(t, h, z, now);
            var known := promised.Some? && promised != Some(ZoneSync.Plain(ZoneSync.Null));
            && (route == Everywhere <==> !known)
            && (route == Unicast(e) <==> known && EndpointOf(promised.value, hosts) == At(e))
            && (route == Unresolved <==> known && EndpointOf(promised.value, hosts) == Lost)
            && (route == BadAddress <==> known && EndpointOf(promised.value, hosts) == Unfit)
  {
    ZoneTable.HistoryDecides(t, h, z, now);
  }

  class BatmanBackhaul {
    const zone: int
    const table: ZoneTable.DynamicZoneTable<ZoneSync.Stored>
    const own: Endpoint
    const broadcast: Endpoint
    var relayHook: bool
    var syncHook: bool
    var running: bool
    var sent: seq<(Endpoint, Bytes)>

    constructor (z: int, shared: ZoneTable.DynamicZoneTable<ZoneSync.Stored>, ownAddr: Endpoint, broadcastAddr: Endpoint)
      ensures zone == z && table == shared && own == ownAddr && broadcast == broadcastAddr
      ensures !relayHook && !syncHook && !running && sent == []
    {
      zone, table, own, broadcast := z, shared, ownAddr, broadcastAddr;
      relayHook, syncHook, running, sent := false, false, false, [];
    }

    /** A send the operating system refuses is dropped. */
    method SendTo(packet: Bytes, to: Endpoint, accepted: bool)
      modifies this`sent
      ensures sent == old(sent) + if accepted then [(to, packet)] else []
    {
      if accepted {
        sent := sent + [(to, packet)];
      }
    }

    method BroadcastToAllNodes(packet: Bytes, accepted: bool)
      modifies this`sent
      ensures sent == old(sent) + if accepted then [(broadcast, packet)] else []
    {
      SendTo(packet, broadcast, accepted);
    }

    /** `hosts` is what name resolution says now; `accepted`, whether the operating system takes the datagram. */
    method ForwardToZone(z: int, packet: Bytes, now: real, hosts: string -> HostName, accepted: bool)
        returns (raised: bool)
      modifies this`sent
      ensures var known := Found(ZoneTable.AddrFor(table.Now(), z, now));
              var target := if known.Some? then EndpointOf(known.value, hosts) else At(broadcast);
              && (raised <==> z != zone && target.Unfit?)
              && sent == old(sent) + if z != zone && target.At? && accepted then [(target.to, packet)] else []
      ensures raised <==> RouteTo(zone, z, ZoneTable.AddrFor(table.Now(), z, now), hosts) == BadAddress
    {
      raised := false;
      if z == zone {
        return;
      }
      var addr := table.Lookup(z, now);
      if Found(addr).None? {
        BroadcastToAllNodes(packet, accepted);
        return;
      }
      var target := EndpointOf(addr.value, hosts);
      if target.Unfit? {
        return true;
      }
      if target.At? {
        SendTo(packet, target.to, accepted);
      }
    }

    /** Runs until the socket is closed, or `inputs` are all that ever arrive. */
    method RecvLoop(inputs: seq<Received>) returns (out: seq<Delivery>)
      requires running
      ensures out == DemuxAll(own, relayHook, syncHook, inputs)
    {
      out := [];
      var i := 0;
      while running && i < |inputs|
        invariant i <= |inputs|
        invariant out + DemuxAll(own, relayHook, syncHook, inputs[i..]) == DemuxAll(own, relayHook, syncHook, inputs)
      {
        var got := inputs[i];
        if got.SocketClosed? {
          break;
        }
        DemuxOneMore(own, relayHook, syncHook, inputs, i, out);
        i := i + 1;
        var d := Sort(got.data, got.from);
        out := out + d;
      }
      assert i < |inputs| || inputs[i..] == [];
    }

    /** One datagram: dropped, or handed to one of the two callbacks. */
    method Sort(data: Bytes, from: Endpoint) returns (d: seq<Delivery>)
      ensures d == Demux(own, relayHook, syncHook, data, from)
    {
      d := [];
      if from == own {
        return;
      }
      if StartsWith(data, ZONE_SYNC_MAGIC) {
        if syncHook {
          d := [ToZoneSync(from, data)];
        }
      } else if relayHook {
        d := [ToRelay(from, data)];
      }
    }
  }
}
