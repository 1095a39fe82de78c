/** Location serving end to end: what the asker's phone is sent, in terms of all that has reached the relay. */
module RelayServing {
  import opened Wire
  import opened Core
  import opened Directory
  import Location
  import LocationRuns
  import opened Relay
  import opened RelayRuns
  import opened RelayExact

  /** A frame arrives, or the directory is synced. */
  datatype Occurrence = Came(a: Arrival) | Synced(from: Source)

  function Lived(cfg: Config, s: State, os: seq<Occurrence>): State {
    if os == [] then s
    else
      var before := Lived(cfg, s, os[..|os| - 1]);
      match os[|os| - 1]
      case Came(a) => Handle(cfg, before, a.from, a.raw, a.env).state
      case Synced(from) =>
        if before.loc.None? then before
        else before.(loc := Some(before.loc.value.(dir := Refreshed(cfg.crypto, before.loc.value.dir, from))))
  }

  /** A relay that has just booted, with the location service wired. */
  function Booted(dir: Index): State {
    State({}, {}, Some(Location.Boot(dir)))
  }

  predicate AcceptedHere(cfg: Config, s: State, a: Arrival) {
    !IsControl(a.raw) && !IsPresentation(cfg, a.raw) && Taken(cfg, s, a.raw, a.env)
  }

  /** What the location service has been told: the packets accepted so far, with their clock readings, and syncs. */
  function Accepted(cfg: Config, s: State, os: seq<Occurrence>): seq<LocationRuns.Event> {
    if os == [] then []
    else
      var init := os[..|os| - 1];
      Accepted(cfg, s, init) +
      match os[|os| - 1]
      case Came(a) =>
        if AcceptedHere(cfg, Lived(cfg, s, init), a) then [LocationRuns.Packet(Parse(a.raw).value, a.env.clk)] else []
      case Synced(from) => [LocationRuns.Sync(from)]
  }

  function SetupOf(cfg: Config, dir: Index): LocationRuns.Setup {
    LocationRuns.Setup(cfg.crypto, cfg.interval, dir)
  }

  lemma OneMoreEvent(u: LocationRuns.Setup, es: seq<LocationRuns.Event>, e: LocationRuns.Event)
    ensures LocationRuns.After(u, es + [e]) == LocationRuns.Step(u, LocationRuns.After(u, es), e).state
  {
    assert (es + [e])[..|es|] == es;
  }

  lemma OneOccurrence(cfg: Config, s: State, a: Arrival)
    ensures Handle(cfg, s, a.from, a.raw, a.env).state.loc ==
            if s.loc.Some? && AcceptedHere(cfg, s, a)
            then Some(Location.Dispatch(cfg.crypto, cfg.interval, s.loc.value, Parse(a.raw).value, a.env.clk).state)
            else s.loc
  {
  }

  /** The relay's location state is that of the service alone, on the accepted packets alone. */
  lemma {:induction false} ServiceSeesAccepted(cfg: Config, dir: Index, os: seq<Occurrence>)
    ensures Lived(cfg, Booted(dir), os).loc ==
            Some(LocationRuns.After(SetupOf(cfg, dir), Accepted(cfg, Booted(dir), os)))
    decreases |os|
  {
    if os != [] {
      hide Handle, LocationRuns.After, AcceptedHere;
      var init, o, u := os[..|os| - 1], os[|os| - 1], SetupOf(cfg, dir);
      var es := Accepted(cfg, Booted(dir), init);
      ServiceSeesAccepted(cfg, dir, init);
      match o {
        case Came(a) =>
          OneOccurrence(cfg, Lived(cfg, Booted(dir), init), a);
          if AcceptedHere(cfg, Lived(cfg, Booted(dir), init), a) {
            OneMoreEvent(u, es, LocationRuns.Packet(Parse(a.raw).value, a.env.clk));
          } else {
            assert es + [] == es;
          }
        case Synced(from) => OneMoreEvent(u, es, LocationRuns.Sync(from));
      }
    } else {
      assert LocationRuns.After(SetupOf(cfg, dir), []) == Location.Boot(dir);
    }
  }

  /** The packet that carries an answer: signed by the node for its own zone, and sealed to the asker. */
  predicate Carries(cfg: Config, data: Bytes, m: Message, answer: Answer, key: Bytes) {
    var c := cfg.crypto;
    data == c.sign(Envelope(3, 8, cfg.zone, c.responseType, c.seal(answer, c.pubkeyId(m.senderKey), key)))
  }

  lemma ReplyIsHere(cfg: Config, s: State, a: Arrival, u: LocationRuns.Setup, es: seq<LocationRuns.Event>)
    requires AcceptedHere(cfg, s, a) && s.loc == Some(LocationRuns.After(u, es))
    requires u.c == cfg.crypto && u.interval == cfg.interval
    ensures ReplyHere(cfg, s, a.raw, a.env) ==
            LocationRuns.ReplyTo(u, es, LocationRuns.Packet(Parse(a.raw).value, a.env.clk))
  {
    hide LocationRuns.After, Location.Dispatch;
  }

  /** What is sent when the location service has something to tell. */
  lemma AnswerGoesFirst(cfg: Config, s: State, a: Arrival, reply: Location.Reply)
    requires ReplyHere(cfg, s, a.raw, a.env) == Some(reply) && reply.Served?
    ensures var sends := Handle(cfg, s, a.from, a.raw, a.env).sends;
            sends != [] && sends[0] == ToPhone(a.from, ResponsePacket(cfg, reply))
  {
    ServedToAsker(cfg.crypto, cfg.interval, s.loc.value, Parse(a.raw).value, a.env.clk);
    hide Handle, Location.Query, FanOut;
    TakenGoesOut(cfg, s, a.from, a.raw, a.env);
  }

  lemma ServedToAsker(c: Crypto, interval: real, s: Location.State, m: Message, clk: Location.Clocks)
    requires var reply := Location.Dispatch(c, interval, s, m, clk).reply; reply.Some? && reply.value.Served?
    ensures m.msgType == c.queryType != LOCATION
    ensures Location.Dispatch(c, interval, s, m, clk).reply.value.to == c.pubkeyId(m.senderKey)
  {
  }

  /** Whoever is entitled is answered: first of all that is sent, to the phone that asked. */
  lemma EntitledIsAnswered(cfg: Config, dir: Index, os: seq<Occurrence>, a: Arrival, answer: Answer, key: Bytes)
    requires WellFiled(cfg.crypto, dir) && AcceptedHere(cfg, Lived(cfg, Booted(dir), os), a)
    requires LocationRuns.IsQuery(cfg.crypto, LocationRuns.Packet(Parse(a.raw).value, a.env.clk))
    requires LocationRuns.Entitled(SetupOf(cfg, dir), Accepted(cfg, Booted(dir), os), Parse(a.raw).value, a.env.clk,
                                   answer, key)
    ensures var sends := Handle(cfg, Lived(cfg, Booted(dir), os), a.from, a.raw, a.env).sends;
            && sends != [] && sends[0].ToPhone? && sends[0].peer == a.from
            && Carries(cfg, sends[0].data, Parse(a.raw).value, answer, key)
  {
    ServiceSeesAccepted(cfg, dir, os);
    AnsweredFrom(cfg, Lived(cfg, Booted(dir), os), a, SetupOf(cfg, dir), Accepted(cfg, Booted(dir), os), answer, key);
  }

  lemma AnsweredFrom(cfg: Config, s: State, a: Arrival, u: LocationRuns.Setup, es: seq<LocationRuns.Event>,
                     answer: Answer, key: Bytes)
    requires WellFiled(u.c, u.dir) && u.c == cfg.crypto && u.interval == cfg.interval
    requires AcceptedHere(cfg, s, a) && s.loc == Some(LocationRuns.After(u, es))
    requires LocationRuns.IsQuery(u.c, LocationRuns.Packet(Parse(a.raw).value, a.env.clk))
    requires LocationRuns.Entitled(u, es, Parse(a.raw).value, a.env.clk, answer, key)
    ensures var sends := Handle(cfg, s, a.from, a.raw, a.env).sends;
            && sends != [] && sends[0].ToPhone? && sends[0].peer == a.from
            && Carries(cfg, sends[0].data, Parse(a.raw).value, answer, key)
  {
    hide Handle, ReplyHere, LocationRuns.Step, LocationRuns.IsQuery;
    var e, to := LocationRuns.Packet(Parse(a.raw).value, a.env.clk), cfg.crypto.pubkeyId(Parse(a.raw).value.senderKey);
    LocationRuns.ServedExactly(u, es, e, answer, to, key);
    ReplyIsHere(cfg, s, a, u, es);
    AnswerGoesFirst(cfg, s, a, Location.Served(answer, to, key));
  }

  /** And no one else is: anything sent back to the phone a frame came from is such an answer. */
  lemma AskerIsOnlyAnswered(cfg: Config, dir: Index, os: seq<Occurrence>, a: Arrival, data: Bytes)
      returns (answer: Answer, key: Bytes)
    requires WellFiled(cfg.crypto, dir)
    requires ToPhone(a.from, data) in Handle(cfg, Lived(cfg, Booted(dir), os), a.from, a.raw, a.env).sends
    ensures AcceptedHere(cfg, Lived(cfg, Booted(dir), os), a)
    ensures LocationRuns.IsQuery(cfg.crypto, LocationRuns.Packet(Parse(a.raw).value, a.env.clk))
    ensures LocationRuns.Entitled(SetupOf(cfg, dir), Accepted(cfg, Booted(dir), os), Parse(a.raw).value, a.env.clk,
                                  answer, key)
    ensures Carries(cfg, data, Parse(a.raw).value, answer, key)
  {
    ServiceSeesAccepted(cfg, dir, os);
    answer, key := AnsweredBy(cfg, Lived(cfg, Booted(dir), os), a, SetupOf(cfg, dir), Accepted(cfg, Booted(dir), os), data);
  }

  lemma AnsweredBy(cfg: Config, s: State, a: Arrival, u: LocationRuns.Setup, es: seq<LocationRuns.Event>, data: Bytes)
      returns (answer: Answer, key: Bytes)
    requires WellFiled(u.c, u.dir) && u.c == cfg.crypto && u.interval == cfg.interval
    requires s.loc == Some(LocationRuns.After(u, es))
    requires ToPhone(a.from, data) in Handle(cfg, s, a.from, a.raw, a.env).sends
    ensures AcceptedHere(cfg, s, a)
    ensures LocationRuns.IsQuery(u.c, LocationRuns.Packet(Parse(a.raw).value, a.env.clk))
    ensures LocationRuns.Entitled(u, es, Parse(a.raw).value, a.env.clk, answer, key)
    ensures Carries(cfg, data, Parse(a.raw).value, answer, key)
  {
    hide Handle, Location.Dispatch, LocationRuns.After, LocationRuns.ReplyTo;
    var send := ToPhone(a.from, data);
    OnlyTakenGoesOut(cfg, s, a.from, a.raw, a.env, send);
    WhatGoesOut(cfg, s, a.from, a.raw, a.env, send);
    var e, reply := LocationRuns.Packet(Parse(a.raw).value, a.env.clk), ReplyHere(cfg, s, a.raw, a.env).value;
    ReplyIsHere(cfg, s, a, u, es);
    ServedToAsker(cfg.crypto, cfg.interval, s.loc.value, e.m, e.clk);
    answer, key := reply.answer, reply.key;
    EntitledOf(u, es, e, reply);
  }

  lemma EntitledOf(u: LocationRuns.Setup, es: seq<LocationRuns.Event>, e: LocationRuns.Event, reply: Location.Reply)
    requires WellFiled(u.c, u.dir) && LocationRuns.IsQuery(u.c, e) && reply.Served?
    requires LocationRuns.ReplyTo(u, es, e) == Some(reply)
    ensures LocationRuns.Entitled(u, es, e.m, e.clk, reply.answer, reply.key)
  {
    assert reply == Location.Served(reply.answer, reply.to, reply.key);
    LocationRuns.ServedExactly(u, es, e, reply.answer, reply.to, reply.key);
  }
}
