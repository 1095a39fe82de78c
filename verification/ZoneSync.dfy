/** node/backhaul/zone_sync.py: the announcement codec and the gossip that feeds the routing tables. */
module ZoneSync {
  import opened Wire
  import opened ZoneTable

  // ----------------------------------------------------------------- the codec

  /** A parsed JSON value. Python's parser also reads the literals Infinity, -Infinity and NaN. */
  datatype Json =
    | Null
    | Bool(b: bool)
    | Int(n: int)
    | Float(x: real)
    | Infinite
    | NotANumber
    | Str(s: string)
    | List(items: seq<Json>)
    | Obj(fields: map<string, Json>)

  datatype Addr = Host(host: string) | Endpoint(host: string, port: int)

  /** An address as the table holds it: a tuple, or whatever other value the announcement carried. */
  datatype Stored = Tuple(items: seq<Json>) | Plain(value: Json)

  function AsStored(a: Addr): Stored {
    match a
    case Host(h) => Plain(Str(h))
    case Endpoint(h, p) => Tuple([Str(h), Int(p)])
  }

  /** A datagram payload: the MLZS1 marker followed by text (parsed, when it parses), by text nested too deeply for
      the parser's stack, or something else. */
  datatype Frame = Control(body: Option<Json>) | TooDeep | Other

  datatype Decoded = Announcement(nodeId: string, zone: int, addr: Stored) | Nothing | Raises

  /** The parts of `str()` and `int()` that only matter for misbehaving peers. */
  datatype Python = Python(strOf: Json -> string, intOf: string -> Option<int>)

  datatype IntResult = IntOk(n: int) | IntError | IntOverflow

  function PyStr(py: Python, j: Json): string {
    if j.Str? then j.s else py.strOf(j)
  }

  /** ValueError and TypeError are `IntError`; OverflowError is neither. */
  function PyInt(py: Python, j: Json): IntResult {
    match j
    case Bool(b) => IntOk(if b then 1 else 0)
    case Int(n) => IntOk(n)
    case Float(x) => IntOk(Truncate(x))
    case Infinite => IntOverflow
    case Str(s) => (match py.intOf(s) case Some(n) => IntOk(n) case None => IntError)
    case _ => IntError
  }

  function WireAddr(a: Addr): Json {
    match a
    case Host(h) => Str(h)
    case Endpoint(h, p) => List([Str(h), Int(p)])
  }

  function Encode(nodeId: string, zone: int, a: Addr): Frame {
    Control(Some(Obj(map["node_id" := Str(nodeId), "zone_id" := Int(zone), "addr" := WireAddr(a)])))
  }

  function Decode(py: Python, f: Frame): Decoded {
    if f.TooDeep? then Raises
    else if f.Other? || f.body.None? || !f.body.value.Obj? then Nothing
    else
      var body := f.body.value.fields;
      if "node_id" !in body || "zone_id" !in body then Nothing
      else
        match PyInt(py, body["zone_id"])
        case IntError => Nothing
        case IntOverflow => Raises
        case IntOk(zone) =>
          if "addr" !in body then Nothing
          else
            var raw := body["addr"];
            Announcement(PyStr(py, body["node_id"]), zone, if raw.List? then Tuple(raw.items) else Plain(raw))
  }

  /** What a node announces is what every other node reads, tuples included. */
  lemma AnnouncementRoundTrip(py: Python, nodeId: string, zone: int, a: Addr)
    ensures Decode(py, Encode(nodeId, zone, a)) == Announcement(nodeId, zone, AsStored(a))
  {
    var body := Encode(nodeId, zone, a).body.value.fields;
    assert body["node_id"] == Str(nodeId) && body["zone_id"] == Int(zone) && body["addr"] == WireAddr(a);
  }

  /** The zone number a JSON value stands for. */
  predicate Numbers(py: Python, j: Json, zone: int) {
    || j == Int(zone) || (j.Bool? && zone == if j.b then 1 else 0)
    || (j.Float? && zone == Truncate(j.x)) || (j.Str? && py.intOf(j.s) == Some(zone))
  }

  /** A frame is read as an announcement exactly when it is an object with all three fields and a zone that stands
      for a number; lists become tuples, other addresses stay what they are. */
  lemma DecodedExactly(py: Python, f: Frame, nodeId: string, zone: int, addr: Stored)
    ensures Decode(py, f) == Announcement(nodeId, zone, addr) <==>
            && f.Control? && f.body.Some? && f.body.value.Obj?
            && var body := f.body.value.fields;
            && "node_id" in body && "zone_id" in body && "addr" in body
            && Numbers(py, body["zone_id"], zone)
            && nodeId == (if body["node_id"].Str? then body["node_id"].s else py.strOf(body["node_id"]))
            && (body["addr"].List? ==> addr == Tuple(body["addr"].items))
            && (!body["addr"].List? ==> addr == Plain(body["addr"]))
  {
  }

  /** The three fields as they go out. */
  lemma EncodedFields(nodeId: string, zone: int, a: Addr)
    ensures Encode(nodeId, zone, a).Control? && Encode(nodeId, zone, a).body.Some?
    ensures Encode(nodeId, zone, a).body.value ==
            Obj(map["node_id" := Str(nodeId), "zone_id" := Int(zone),
                    "addr" := if a.Host? then Str(a.host) else List([Str(a.host), Int(a.port)])])
  {
  }

  /** Distinct announcements are never read alike. */
  lemma AnnouncementsAreTold(py: Python, n: string, z: int, a: Addr, n': string, z': int, a': Addr)
    requires Decode(py, Encode(n, z, a)) == Decode(py, Encode(n', z', a'))
    ensures n == n' && z == z' && a == a'
  {
    AnnouncementRoundTrip(py, n, z, a);
    AnnouncementRoundTrip(py, n', z', a');
    if a.Endpoint? && a'.Endpoint? {
      assert AsStored(a).items[0] == AsStored(a').items[0] && AsStored(a).items[1] == AsStored(a').items[1];
    }
  }

  /** An object with a node id, and Infinity for its zone. */
  predicate HasInfiniteZone(f: Frame) {
    && f.Control? && f.body.Some? && f.body.value.Obj?
    && "node_id" in f.body.value.fields && "zone_id" in f.body.value.fields
    && f.body.value.fields["zone_id"].Infinite?
  }

  /** "Never raises" is not quite so: a frame nested too deeply escapes, and so does an infinite zone number; nothing
      else does. */
  lemma DecodeRaises(py: Python, f: Frame)
    ensures Decode(py, f).Raises? <==> f.TooDeep? || HasInfiniteZone(f)
  {
  }

  /** Such a frame. */
  lemma DecodeCanRaise(py: Python)
    ensures Decode(py, Control(Some(Obj(map["node_id" := Str("x"), "zone_id" := Infinite])))).Raises?
  {
    var body := map["node_id" := Str("x"), "zone_id" := Infinite];
    assert body["zone_id"] == Infinite;
  }

  // ---------------------------------------------------------------- one node

  datatype Node = Node(id: string, zone: int, addr: Addr, seed: map<int, Stored>, ttl: real)

  function BootTable(n: Node): Table<Stored> {
    Boot(n.zone, n.ttl, n.seed)
  }

  function Hear(py: Python, n: Node, t: Table<Stored>, f: Frame, now: real): Table<Stored> {
    var ann := Decode(py, f);
    if ann.Announcement? && ann.nodeId != n.id then Learn(t, ann.zone, ann.addr, now) else t
  }

  /** Another node's announcement becomes the zone's route at once, and no other zone's; a node's own does nothing. */
  lemma HearingTakesEffect(py: Python, n: Node, t: Table<Stored>, nodeId: string, zone: int, a: Addr, now: real, z: int)
    ensures var t' := Hear(py, n, t, Encode(nodeId, zone, a), now);
            && (nodeId == n.id ==> t' == t)
            && (nodeId != n.id && t.ttl >= 0.0 ==> AddrFor(t', zone, now) == Some(AsStored(a)))
            && (z != zone ==> AddrFor(t', z, now) == AddrFor(t, z, now))
  {
    AnnouncementRoundTrip(py, nodeId, zone, a);
  }

  function PruneTimes(t: Table<Stored>, wakes: nat, clockAt: nat -> int -> real): Table<Stored> {
    if wakes == 0 then t else Prune(PruneTimes(t, wakes - 1, clockAt), clockAt(wakes - 1))
  }

  /** What is left is what every pass found fresh. */
  lemma {:induction false} PassesKeepTheFresh(t: Table<Stored>, wakes: nat, clockAt: nat -> int -> real, z: int)
    ensures var t' := PruneTimes(t, wakes, clockAt);
            && (z in t'.learned <==>
                  z in t.learned && forall w: nat :: w < wakes ==> clockAt(w)(z) - t.learned[z].seen <= t.ttl)
            && (z in t'.learned ==> t'.learned[z] == t.learned[z]) && t' == t.(learned := t'.learned)
    decreases wakes
  {
    if wakes > 0 {
      PassesKeepTheFresh(t, wakes - 1, clockAt, z);
    }
  }

  class ZoneSyncer {
    const py: Python
    const node: Node
    const table: DynamicZoneTable<Stored>

    constructor (conv: Python, n: Node, shared: DynamicZoneTable<Stored>)
      ensures py == conv && node == n && table == shared
    {
      py, node, table := conv, n, shared;
    }

    method AnnounceNow() returns (sent: Frame)
      ensures Decode(py, sent) == Announcement(node.id, node.zone, AsStored(node.addr))
    {
      sent := Encode(node.id, node.zone, node.addr);
      AnnouncementRoundTrip(py, node.id, node.zone, node.addr);
    }

    /** `raised`: an exception leaves this handler, to be caught by the receive loop. */
    method OnControl(f: Frame, now: real) returns (raised: bool)
      modifies table
      ensures table.Now() == Hear(py, node, old(table.Now()), f, now)
      ensures raised <==> Decode(py, f).Raises?
    {
      var ann := Decode(py, f);
      if ann.Raises? {
        return true;
      }
      if ann.Announcement? && ann.nodeId != node.id {
        table.LearnZone(ann.zone, ann.addr, now);
      }
      return false;
    }

    /** The sync thread: it wakes `wakes` times before it is told to stop. */
    method Loop(wakes: nat, clockAt: nat -> int -> real) returns (sent: seq<Frame>)
      modifies table
      ensures |sent| == wakes
      ensures forall f :: f in sent ==> Decode(py, f) == Announcement(node.id, node.zone, AsStored(node.addr))
      ensures table.Now() == PruneTimes(old(table.Now()), wakes, clockAt)
    {
      sent := [];
      while |sent| < wakes
        invariant |sent| <= wakes
        invariant forall f :: f in sent ==> Decode(py, f) == Announcement(node.id, node.zone, AsStored(node.addr))
        invariant table.Now() == PruneTimes(old(table.Now()), |sent|, clockAt)
      {
        var f := AnnounceNow();
        var forgotten := table.ForgetStale(clockAt(|sent|));
        sent := sent + [f];
      }
    }
  }

  // ------------------------------------------------------ a network of nodes

  /** `sent`: every announcement ever broadcast. Any of them may arrive anywhere, late, repeatedly or never. */
  datatype Net = Net(tables: seq<Table<Stored>>, sent: set<Frame>, now: real)

  datatype Action =
    | Announce(node: nat)
    | Deliver(node: nat, frame: Frame)
    | Forget(node: nat)
    | Tick(dt: real)

  function BootNet(nodes: seq<Node>, start: real): Net {
    Net(seq(|nodes|, i requires 0 <= i < |nodes| => BootTable(nodes[i])), {}, start)
  }

  predicate Enabled(nodes: seq<Node>, s: Net, a: Action) {
    match a
    case Announce(i) => i < |nodes|
    case Deliver(i, f) => i < |nodes| && f in s.sent
    case Forget(i) => i < |nodes|
    case Tick(dt) => dt >= 0.0
  }

  function Act(py: Python, nodes: seq<Node>, s: Net, a: Action): Net
    requires |s.tables| == |nodes|
  {
    match a
    case Announce(i) =>
      if i < |nodes| then s.(sent := s.sent + {Encode(nodes[i].id, nodes[i].zone, nodes[i].addr)}) else s
    case Deliver(i, f) =>
      if i < |nodes| then s.(tables := s.tables[i := Hear(py, nodes[i], s.tables[i], f, s.now)]) else s
    case Forget(i) =>
      if i < |nodes| then s.(tables := s.tables[i := Prune(s.tables[i], _ => s.now)]) else s
    case Tick(dt) => s.(now := s.now + dt)
  }

  function Play(py: Python, nodes: seq<Node>, start: real, trace: seq<Action>): (s: Net)
    ensures |s.tables| == |nodes|
  {
    if trace == [] then BootNet(nodes, start)
    else Act(py, nodes, Play(py, nodes, start, trace[..|trace| - 1]), trace[|trace| - 1])
  }

  predicate Possible(py: Python, nodes: seq<Node>, start: real, trace: seq<Action>) {
    trace == [] ||
    (var init := trace[..|trace| - 1];
     Possible(py, nodes, start, init) && Enabled(nodes, Play(py, nodes, start, init), trace[|trace| - 1]))
  }

  predicate DistinctIds(nodes: seq<Node>) {
    forall i, j :: 0 <= i < j < |nodes| ==> nodes[i].id != nodes[j].id
  }

  /** What node `i` heard and pruned, and when. */
  function History(py: Python, nodes: seq<Node>, start: real, trace: seq<Action>, i: nat): seq<Event<Stored>>
    requires i < |nodes|
  {
    if trace == [] then []
    else
      var init, a := trace[..|trace| - 1], trace[|trace| - 1];
      var now := Play(py, nodes, start, init).now;
      var before := History(py, nodes, start, init, i);
      match a
      case Deliver(j, f) =>
        var ann := Decode(py, f);
        if j == i && ann.Announcement? && ann.nodeId != nodes[i].id then before + [Heard(ann.zone, ann.addr, now)]
        else before
      case Forget(j) => if j == i then before + [Pruned(_ => now)] else before
      case _ => before
  }

  lemma RunSnoc(t: Table<Stored>, h: seq<Event<Stored>>, e: Event<Stored>)
    ensures ZoneTable.Run(t, h + [e]) == ZoneTable.Step(ZoneTable.Run(t, h), e)
  {
    assert (h + [e])[..|h|] == h;
  }

  lemma {:induction false} TablesFollowHistory(py: Python, nodes: seq<Node>, start: real, trace: seq<Action>, i: nat)
    requires i < |nodes|
    ensures Play(py, nodes, start, trace).tables[i] ==
            ZoneTable.Run(BootTable(nodes[i]), History(py, nodes, start, trace, i))
    decreases |trace|
  {
    if trace != [] {
      var init, a := trace[..|trace| - 1], trace[|trace| - 1];
      TablesFollowHistory(py, nodes, start, init, i);
      var now := Play(py, nodes, start, init).now;
      var before := History(py, nodes, start, init, i);
      if a.Deliver? && a.node == i {
        var ann := Decode(py, a.frame);
        if ann.Announcement? {
          RunSnoc(BootTable(nodes[i]), before, Heard(ann.zone, ann.addr, now));
        }
      } else if a.Forget? && a.node == i {
        RunSnoc(BootTable(nodes[i]), before, Pruned(_ => now));
      }
    }
  }

  /** Node `j` has announced exactly this. */
  predicate AnnouncedBy(nodes: seq<Node>, trace: seq<Action>, j: nat, zone: int, addr: Stored) {
    j < |nodes| && Announce(j) in trace && nodes[j].zone == zone && AsStored(nodes[j].addr) == addr
  }

  lemma {:induction false} SentWasAnnounced(py: Python, nodes: seq<Node>, start: real, trace: seq<Action>, f: Frame)
    requires f in Play(py, nodes, start, trace).sent
    ensures exists j :: 0 <= j < |nodes| && Announce(j) in trace && f == Encode(nodes[j].id, nodes[j].zone, nodes[j].addr)
    decreases |trace|
  {
    var init, a := trace[..|trace| - 1], trace[|trace| - 1];
    assert forall x :: x in init ==> x in trace;
    if f in Play(py, nodes, start, init).sent {
      SentWasAnnounced(py, nodes, start, init, f);
    } else {
      assert a in trace;
    }
  }

  lemma {:induction false} ClockAdvances(py: Python, nodes: seq<Node>, start: real, trace: seq<Action>, i: nat)
    requires i < |nodes| && Possible(py, nodes, start, trace)
    ensures PrunedBy(History(py, nodes, start, trace, i), Play(py, nodes, start, trace).now)
    decreases |trace|
  {
    if trace != [] {
      var init := trace[..|trace| - 1];
      ClockAdvances(py, nodes, start, init, i);
      assert Play(py, nodes, start, init).now <= Play(py, nodes, start, trace).now;
    }
  }

  /** Every announcement a node took in was made, word for word, by some other node. */
  lemma {:induction false} HeardWasAnnounced(py: Python, nodes: seq<Node>, start: real, trace: seq<Action>, i: nat, z: int)
      returns (j: nat)
    requires DistinctIds(nodes) && i < |nodes| && Possible(py, nodes, start, trace)
    requires LastHeard(History(py, nodes, start, trace, i), z).Some?
    ensures j != i && AnnouncedBy(nodes, trace, j, z, LastHeard(History(py, nodes, start, trace, i), z).value.addr)
    decreases |trace|
  {
    var init, a := trace[..|trace| - 1], trace[|trace| - 1];
    var h, before := History(py, nodes, start, trace, i), History(py, nodes, start, init, i);
    assert forall x :: x in init ==> x in trace;
    if h != before && h[|h| - 1].Heard? && h[|h| - 1].zone == z {
      SentWasAnnounced(py, nodes, start, init, a.frame);
      j :| 0 <= j < |nodes| && Announce(j) in init && a.frame == Encode(nodes[j].id, nodes[j].zone, nodes[j].addr);
      AnnouncementRoundTrip(py, nodes[j].id, nodes[j].zone, nodes[j].addr);
    } else {
      if h != before {
        assert h[..|h| - 1] == before;
      }
      j := HeardWasAnnounced(py, nodes, start, init, i, z);
    }
  }

  /** In every reachable state of the network: the last announcement heard for a zone, while within the ttl,
      is the route; it was made by another node, exactly so; otherwise the route is the pinned one, or none. */
  lemma GossipSafety(py: Python, nodes: seq<Node>, start: real, trace: seq<Action>, i: nat, z: int)
    requires DistinctIds(nodes) && i < |nodes| && Possible(py, nodes, start, trace)
    ensures var s := Play(py, nodes, start, trace);
            var h := History(py, nodes, start, trace, i);
            && AddrFor(s.tables[i], z, s.now) == Promised(BootTable(nodes[i]), h, z, s.now)
            && (LastHeard(h, z).Some? ==>
                  exists j :: j != i && AnnouncedBy(nodes, trace, j, z, LastHeard(h, z).value.addr))
  {
    var s := Play(py, nodes, start, trace);
    var h := History(py, nodes, start, trace, i);
    TablesFollowHistory(py, nodes, start, trace, i);
    ClockAdvances(py, nodes, start, trace, i);
    HistoryDecides(BootTable(nodes[i]), h, z, s.now);
    if LastHeard(h, z).Some? {
      var j := HeardWasAnnounced(py, nodes, start, trace, i, z);
    }
  }

  lemma OneMoreAction(py: Python, nodes: seq<Node>, start: real, trace: seq<Action>, a: Action)
    ensures Play(py, nodes, start, trace + [a]) == Act(py, nodes, Play(py, nodes, start, trace), a)
    ensures Possible(py, nodes, start, trace + [a]) <==>
            Possible(py, nodes, start, trace) && Enabled(nodes, Play(py, nodes, start, trace), a)
  {
    assert (trace + [a])[..|trace|] == trace;
  }

  /** Gossip gets through: once another node's announcement arrives at node `i`, that node routes the announced zone
      to the announced address, until something else happens. */
  lemma ArrivedIsRouted(py: Python, nodes: seq<Node>, start: real, trace: seq<Action>, i: nat, j: nat)
    requires DistinctIds(nodes) && i < |nodes| && j < |nodes| && i != j && nodes[i].ttl >= 0.0
    ensures var f := Encode(nodes[j].id, nodes[j].zone, nodes[j].addr);
            var s := Play(py, nodes, start, trace + [Announce(j), Deliver(i, f)]);
            && AddrFor(s.tables[i], nodes[j].zone, s.now) == Some(AsStored(nodes[j].addr))
            && (Possible(py, nodes, start, trace) ==> Possible(py, nodes, start, trace + [Announce(j), Deliver(i, f)]))
  {
    var f := Encode(nodes[j].id, nodes[j].zone, nodes[j].addr);
    var announced := trace + [Announce(j)];
    OneMoreAction(py, nodes, start, trace, Announce(j));
    OneMoreAction(py, nodes, start, announced, Deliver(i, f));
    assert trace + [Announce(j), Deliver(i, f)] == announced + [Deliver(i, f)];
    assert nodes[i].id != nodes[j].id;
    SettingsStay(py, nodes, start, announced, i);
    hide Play, Possible, Hear, Decode, Encode;
    HearingTakesEffect(py, nodes[i], Play(py, nodes, start, announced).tables[i], nodes[j].id, nodes[j].zone,
                       nodes[j].addr, Play(py, nodes, start, announced).now, 0);
  }

  lemma {:induction false} SettingsStay(py: Python, nodes: seq<Node>, start: real, trace: seq<Action>, i: nat)
    requires i < |nodes|
    ensures Play(py, nodes, start, trace).tables[i].ttl == nodes[i].ttl
    decreases |trace|
  {
    if trace != [] {
      SettingsStay(py, nodes, start, trace[..|trace| - 1], i);
    }
  }

  // ------------------------------------------------------------------- timing

  /** Announcement `i` leaves at `SendTime(i)`; `arrival(i)` is when it is heard, if it is. */
  datatype Feed = Feed(first: real, interval: real, jitter: real, arrival: nat -> Option<real>)

  function SendTime(f: Feed, i: nat): real {
    f.first + i as real * f.interval
  }

  ghost predicate Timely(f: Feed) {
    && f.interval > 0.0 && f.jitter >= 0.0
    && forall i: nat :: f.arrival(i).Some? ==> SendTime(f, i) <= f.arrival(i).value <= SendTime(f, i) + f.jitter
  }

  predicate HeardWithin(f: Feed, m: nat, k: nat) {
    exists i :: m <= i <= m + k && f.arrival(i).Some?
  }

  /** From announcement `start` on, no k+1 in a row are lost. */
  ghost predicate AtMostLost(f: Feed, start: nat, k: nat) {
    f.arrival(start).Some? && forall m: nat :: m >= start ==> HeardWithin(f, m, k)
  }

  lemma Spread(f: Feed, i: nat, j: nat, k: nat)
    requires f.interval > 0.0 && j <= i + k
    ensures SendTime(f, j) <= SendTime(f, i) + k as real * f.interval
  {
    var a, b, c := i as real, j as real, k as real;
    assert b <= a + c;
    assert (a + c) * f.interval == a * f.interval + c * f.interval;
    assert b * f.interval <= (a + c) * f.interval;
  }

  /** The last announcement certain to have arrived by `now`. */
  lemma LatestDue(f: Feed, now: real) returns (j: int)
    requires f.interval > 0.0
    ensures j >= 0 ==> SendTime(f, j) + f.jitter <= now
    ensures j + 1 >= 0 ==> now < SendTime(f, j + 1) + f.jitter
    ensures j < -1 ==> now < f.first + f.jitter
  {
    var slack := now - f.jitter - f.first;
    var q := slack / f.interval;
    j := q.Floor;
    assert q * f.interval == slack;
    assert j as real * f.interval <= q * f.interval;
    var next := (j + 1) as real;
    assert q < next;
    assert slack < next * f.interval;
    if j < -1 {
      assert next * f.interval <= 0.0;
    } else {
      assert SendTime(f, j + 1) == f.first + next * f.interval;
    }
  }

  lemma RecentArrival(f: Feed, start: nat, k: nat, now: real) returns (i: nat)
    requires Timely(f) && AtMostLost(f, start, k)
    requires f.arrival(start).value <= now
    ensures f.arrival(i).Some? && f.arrival(i).value <= now
    ensures now - f.arrival(i).value <= (k + 1) as real * f.interval + f.jitter
  {
    var j := LatestDue(f, now);
    assert (k + 1) as real * f.interval >= 0.0;
    if j < start {
      i := start;
      if j >= -1 {
        Spread(f, start, j + 1, 0);
      } else {
        Spread(f, start, 0, 0);
      }
    } else if j < start + k {
      i := start;
      Spread(f, start, j + 1, k + 1);
    } else {
      assert HeardWithin(f, j - k, k);
      i :| j - k <= i <= j && f.arrival(i).Some?;
      Spread(f, j, i, 0);
      Spread(f, i, j + 1, k + 1);
    }
  }

  /** Every arrival so far is in the history, the history is in order of time, and holds nothing from the future. */
  ghost predicate Records(h: seq<Event<Stored>>, z: int, f: Feed, now: real) {
    && (forall i: nat :: f.arrival(i).Some? && f.arrival(i).value <= now ==> HeardAt(h, z, f.arrival(i).value))
    && (forall i, j :: 0 <= i < j < |h| && h[i].Heard? && h[j].Heard? ==> h[i].at <= h[j].at)
    && PrunedBy(h, now)
  }

  predicate HeardAt(h: seq<Event<Stored>>, z: int, at: real) {
    exists n :: 0 <= n < |h| && h[n].Heard? && h[n].zone == z && h[n].at == at
  }

  lemma {:induction false} LastIsLatest(h: seq<Event<Stored>>, z: int, n: nat)
    requires forall i, j :: 0 <= i < j < |h| && h[i].Heard? && h[j].Heard? ==> h[i].at <= h[j].at
    requires n < |h| && h[n].Heard? && h[n].zone == z
    ensures LastHeard(h, z).Some? && LastHeard(h, z).value.seen >= h[n].at
    decreases |h|
  {
    if n < |h| - 1 {
      LastIsLatest(h[..|h| - 1], z, n);
    }
  }

  /** Announcements every `interval`, at most `k` lost in a row, arriving at most `jitter` late: if that fits in
      the ttl, then from the first receipt on, the zone is routed to its last announcer at every instant,
      whatever pruning and whatever other announcements happen meanwhile. */
  lemma AlwaysRoutable(t: Table<Stored>, h: seq<Event<Stored>>, z: int, f: Feed, start: nat, k: nat, now: real)
    requires t.learned == map[] && Timely(f) && AtMostLost(f, start, k)
    requires (k + 1) as real * f.interval + f.jitter <= t.ttl
    requires f.arrival(start).value <= now && Records(h, z, f, now)
    ensures LastHeard(h, z).Some? && AddrFor(ZoneTable.Run(t, h), z, now) == Some(LastHeard(h, z).value.addr)
  {
    var i := RecentArrival(f, start, k, now);
    assert HeardAt(h, z, f.arrival(i).value);
    var n :| 0 <= n < |h| && h[n].Heard? && h[n].zone == z && h[n].at == f.arrival(i).value;
    LastIsLatest(h, z, n);
    HistoryDecides(t, h, z, now);
  }

  /** Heard at time zero; then `k` announcements are lost, and all later ones are as late as they may be. */
  function LateFeed(interval: real, jitter: real, k: nat): Feed {
    Feed(0.0, interval, jitter,
         (i: nat) => if i == 0 then Some(0.0) else if i <= k then None else Some(i as real * interval + jitter))
  }

  lemma LateFeedIsAllowed(interval: real, jitter: real, k: nat)
    requires interval > 0.0 && jitter >= 0.0
    ensures Timely(LateFeed(interval, jitter, k)) && AtMostLost(LateFeed(interval, jitter, k), 0, k)
    ensures forall i: nat :: i > 0 && LateFeed(interval, jitter, k).arrival(i).Some? ==>
              LateFeed(interval, jitter, k).arrival(i).value >= (k + 1) as real * interval + jitter
  {
    var f := LateFeed(interval, jitter, k);
    forall m: nat ensures HeardWithin(f, m, k) {
      assert f.arrival(if m == 0 then 0 else m + k).Some?;
    }
    forall i: nat | i > 0 && f.arrival(i).Some?
      ensures f.arrival(i).value >= (k + 1) as real * interval + jitter
    {
      Spread(f, i, k + 1, 0);
    }
  }

  /** The bound is exact: whenever k lost announcements and the jitter do not fit in the ttl, there is a feed that
      loses no more than k in a row, is never later than that, and still leaves the zone without a route. */
  lemma BoundIsExact(t: Table<Stored>, z: int, a: Stored, interval: real, jitter: real, k: nat)
      returns (f: Feed, h: seq<Event<Stored>>, now: real)
    requires t.learned == map[] && z !in t.pinned && interval > 0.0 && jitter >= 0.0
    requires (k + 1) as real * interval + jitter > t.ttl
    ensures f.interval == interval && f.jitter == jitter && Timely(f) && AtMostLost(f, 0, k)
    ensures f.arrival(0).value <= now && Records(h, z, f, now)
    ensures AddrFor(ZoneTable.Run(t, h), z, now) == None
  {
    var late := (k + 1) as real * interval + jitter;
    assert (k + 1) as real * interval > 0.0;
    f, h := LateFeed(interval, jitter, k), [Heard(z, a, 0.0)];
    now := if t.ttl < 0.0 then 0.0 else (t.ttl + late) / 2.0;
    LateFeedIsAllowed(interval, jitter, k);
    assert h[0].Heard? && h[0].zone == z && h[0].at == 0.0;
    assert h[..0] == [];
  }

  const DEFAULT_INTERVAL := 60.0
  const DEFAULT_ENTRY_TTL := 180.0

  /** Whatever is lost and however late it comes, up to these limits, the zone always has a route once heard. */
  ghost predicate Tolerates(t: Table<Stored>, z: int, interval: real, jitter: real, k: nat) {
    forall f: Feed, h: seq<Event<Stored>>, start: nat, now: real ::
      (f.interval == interval && f.jitter == jitter && Timely(f) && AtMostLost(f, start, k)
       && f.arrival(start).value <= now && Records(h, z, f, now))
      ==> AddrFor(ZoneTable.Run(t, h), z, now).Some?
  }

  /** The two together: for a zone with no pinned route, exactly when the losses and the jitter fit in the ttl. */
  lemma ToleranceIsExact(t: Table<Stored>, z: int, interval: real, jitter: real, k: nat)
    requires t.learned == map[] && z !in t.pinned && interval > 0.0 && jitter >= 0.0
    ensures Tolerates(t, z, interval, jitter, k) <==> (k + 1) as real * interval + jitter <= t.ttl
  {
    if (k + 1) as real * interval + jitter <= t.ttl {
      forall f: Feed, h: seq<Event<Stored>>, start: nat, now: real
        | f.interval == interval && f.jitter == jitter && Timely(f) && AtMostLost(f, start, k)
          && f.arrival(start).value <= now && Records(h, z, f, now)
        ensures AddrFor(ZoneTable.Run(t, h), z, now).Some?
      {
        AlwaysRoutable(t, h, z, f, start, k, now);
      }
    } else {
      var f, h, now := BoundIsExact(t, z, Plain(Str("a")), interval, jitter, k);
    }
  }

  /** A table at the shipped 180 seconds, fed every 60, tolerates no lost announcement in a row beyond the second;
      two only without any jitter, one with up to a minute of it, none with up to two. */
  lemma ShippedTolerance(t: Table<Stored>, z: int, jitter: real, k: nat)
    requires t.learned == map[] && z !in t.pinned && t.ttl == DEFAULT_ENTRY_TTL && jitter >= 0.0
    ensures Tolerates(t, z, DEFAULT_INTERVAL, jitter, k) <==>
            (k == 2 && jitter == 0.0) || (k == 1 && jitter <= 60.0) || (k == 0 && jitter <= 120.0)
  {
    ToleranceIsExact(t, z, DEFAULT_INTERVAL, jitter, k);
    if k >= 3 {
      assert (k + 1) as real >= 4.0;
    }
  }
}
