/** Location queries on several threads: each call is cut at every shared read and write it makes, and the pieces of
    different calls, and everything else that happens to the shared state, interleave freely. */
module LocationThreads {
  import opened Wire
  import opened Core
  import opened Directory
  import opened Location
  import opened LocationRuns

  /** A `handle_query` call between two of its steps: the issuer's key found, the token checked against the revoked
      set, the limiter passed, the row read, and over. `at` is the clock reading of a call that was admitted. */
  datatype Call =
    | Found(m: Message, key: Bytes)
    | Checked(m: Message, key: Bytes, now: real)
    | Admitted(m: Message, key: Bytes, now: real)
    | Fetched(m: Message, key: Bytes, now: real, row: Sighting)
    | Over(m: Message, at: Option<real>, reply: Reply)

  predicate Readable(c: Crypto, call: Call) {
    call.Over? || ReadToken(c, call.m).Some?
  }

  /** Up to and including the directory lookup of the issuer. */
  function Begin(c: Crypto, s: State, m: Message): (call: Call)
    ensures Readable(c, call)
  {
    var token := ReadToken(c, m);
    if token.None? then Over(m, None, Refused(Malformed))
    else if token.value.grantee != c.pubkeyId(m.senderKey) then Over(m, None, Refused(NotGrantee))
    else
      match Lookup(s.dir, token.value.issuer)
      case None => Over(m, None, Refused(UnknownIssuer))
      case Some(target) => if target.ed.Fits? then Found(m, target.ed.value) else Over(m, None, Refused(BadToken))
  }

  datatype Progress = Progress(state: State, call: Call)

  /** The next step of a call. `clock` is the reading taken in it, if it takes one. The locked section is one step. */
  function Advance(u: Setup, s: State, call: Call, clock: real): (p: Progress)
    requires Readable(u.c, call)
    ensures Readable(u.c, p.call) && p.call.m == call.m
  {
    match call
    case Found(m, key) =>
      if !u.c.verify(u.c.decodeQuery(m.payload).value, key, m.senderKey, Truncate(clock))
      then Progress(s, Over(m, None, Refused(BadToken)))
      else if KeyOf(ReadToken(u.c, m).value) in s.revoked then Progress(s, Over(m, None, Refused(Revoked)))
      else Progress(s, Checked(m, key, clock))
    case Checked(m, key, now) =>
      if now - LastAsked(s, PairOf(u.c, m)) < u.interval then Progress(s, Over(m, None, Refused(RateLimited)))
      else Progress(s.(lastQuery := s.lastQuery[PairOf(u.c, m) := now]), Admitted(m, key, now))
    case Admitted(m, key, now) =>
      Progress(s, if key in s.rows then Fetched(m, key, now, s.rows[key]) else Over(m, Some(now), Refused(NoBeacon)))
    case Fetched(m, key, now, row) => Progress(s, Over(m, Some(now), Disclose(u.c, s.dir, m, row, clock)))
    case Over(_, _, _) => Progress(s, call)
  }

  /** Left to itself a call does exactly what the one-step query does. */
  lemma Uninterrupted(u: Setup, s: State, m: Message, clk: Clocks)
    requires WellFiled(u.c, s.dir)
    ensures var p1 := Advance(u, s, Begin(u.c, s, m), clk.now);
            var p2 := Advance(u, p1.state, p1.call, clk.now);
            var p3 := Advance(u, p2.state, p2.call, clk.now);
            var p4 := Advance(u, p3.state, p3.call, clk.storeNow);
            p4.call.Over? && (p4.state, p4.call.reply) == Query(u.c, u.interval, s, m, clk)
  {
  }

  // ------------------------------------------------------------- interleavings

  datatype World = World(s: State, calls: seq<Call>)

  /** A new call, a step of a running one, or a beacon, a revocation or a directory sync. */
  datatype Action = Enter(m: Message) | Steps(call: nat, clock: real) | Other(e: Event)

  predicate AllReadable(u: Setup, calls: seq<Call>) {
    forall i :: 0 <= i < |calls| ==> Readable(u.c, calls[i])
  }

  function Act(u: Setup, w: World, a: Action): (w': World)
    requires AllReadable(u, w.calls)
    ensures AllReadable(u, w'.calls)
  {
    match a
    case Enter(m) => w.(calls := w.calls + [Begin(u.c, w.s, m)])
    case Steps(i, clock) =>
      if i >= |w.calls| then w
      else
        var p := Advance(u, w.s, w.calls[i], clock);
        World(p.state, w.calls[i := p.call])
    case Other(e) => if IsQuery(u.c, e) then w else w.(s := Step(u, w.s, e).state)
  }

  function Play(u: Setup, trace: seq<Action>): (w: World)
    ensures AllReadable(u, w.calls)
  {
    if trace == [] then World(Boot(u.dir), []) else Act(u, Play(u, trace[..|trace| - 1]), trace[|trace| - 1])
  }

  /** The action takes the limiter for a call of this pair; the reading it is charged at. */
  function Charges(u: Setup, w: World, a: Action, p: Pair): Option<real>
    requires AllReadable(u, w.calls)
  {
    if a.Steps? && a.call < |w.calls| && w.calls[a.call].Checked?
       && Advance(u, w.s, w.calls[a.call], a.clock).call.Admitted? && PairOf(u.c, w.calls[a.call].m) == p
    then Some(w.calls[a.call].now) else None
  }

  /** The readings this pair's admitted calls are charged at, in lock order. */
  function Log(u: Setup, trace: seq<Action>, p: Pair): seq<real> {
    if trace == [] then []
    else
      var init := trace[..|trace| - 1];
      match Charges(u, Play(u, init), trace[|trace| - 1], p)
      case Some(t) => Log(u, init, p) + [t]
      case None => Log(u, init, p)
  }

  /** What one action does to the limiter's book. */
  lemma ActBooks(u: Setup, w: World, a: Action, p: Pair)
    requires AllReadable(u, w.calls)
    ensures var t, s' := Charges(u, w, a, p), Act(u, w, a).s;
            && LastAsked(s', p) == (if t.Some? then t.value else LastAsked(w.s, p))
            && (p in s'.lastQuery <==> p in w.s.lastQuery || t.Some?)
            && (t.Some? ==> LastAsked(w.s, p) + u.interval <= t.value)
  {
  }

  /** However the calls interleave and the clock jumps, the limiter's book for a pair is its log, spaced. */
  lemma {:induction false} LogIsSpaced(u: Setup, trace: seq<Action>, p: Pair)
    requires u.interval > 0.0
    ensures LastAsked(Play(u, trace).s, p) == LastOf(Log(u, trace, p))
    ensures p in Play(u, trace).s.lastQuery <==> Log(u, trace, p) != []
    ensures Spaced(Log(u, trace, p), u.interval)
    decreases |trace|
  {
    if trace != [] {
      var init, a := trace[..|trace| - 1], trace[|trace| - 1];
      hide Act, Charges, LastAsked;
      LogIsSpaced(u, init, p);
      ActBooks(u, Play(u, init), a, p);
      var t := Charges(u, Play(u, init), a, p);
      if t.Some? {
        SpacedSnoc(Log(u, init, p), t.value, u.interval);
      }
    }
  }

  /** When a call of this pair was admitted. */
  function AdmittedAt(u: Setup, call: Call, p: Pair): Option<real>
    requires Readable(u.c, call)
  {
    if AskedPair(u.c, call.m) != Some(p) then None
    else
      match call
      case Admitted(_, _, now) => Some(now)
      case Fetched(_, _, now, _) => Some(now)
      case Over(_, at, _) => at
      case _ => None
  }

  predicate AdmittedIn(u: Setup, call: Call, p: Pair, a: real, b: real)
    requires Readable(u.c, call)
  {
    AdmittedAt(u, call, p).Some? && a <= AdmittedAt(u, call, p).value <= b
  }

  function CountAdmitted(u: Setup, calls: seq<Call>, p: Pair, a: real, b: real): nat
    requires AllReadable(u, calls)
  {
    if calls == [] then 0
    else
      CountAdmitted(u, calls[..|calls| - 1], p, a, b) + if AdmittedIn(u, calls[|calls| - 1], p, a, b) then 1 else 0
  }

  lemma {:induction false} CountUpdate(u: Setup, calls: seq<Call>, i: nat, call: Call, p: Pair, a: real, b: real)
    requires AllReadable(u, calls) && i < |calls| && Readable(u.c, call)
    ensures AllReadable(u, calls[i := call])
    ensures CountAdmitted(u, calls[i := call], p, a, b) ==
            CountAdmitted(u, calls, p, a, b) - (if AdmittedIn(u, calls[i], p, a, b) then 1 else 0)
            + (if AdmittedIn(u, call, p, a, b) then 1 else 0)
    decreases |calls|
  {
    var init := calls[..|calls| - 1];
    if i == |calls| - 1 {
      assert calls[i := call][..|calls| - 1] == init;
    } else {
      assert calls[i := call][..|calls| - 1] == init[i := call];
      CountUpdate(u, init, i, call, p, a, b);
    }
  }

  /** A step of a call makes it admitted exactly when it charges the limiter, and at that reading. */
  lemma StepAdmits(u: Setup, w: World, i: nat, clock: real, p: Pair)
    requires AllReadable(u, w.calls) && i < |w.calls|
    ensures var t := Charges(u, w, Steps(i, clock), p);
            var before, after := AdmittedAt(u, w.calls[i], p), AdmittedAt(u, Advance(u, w.s, w.calls[i], clock).call, p);
            if t.Some? then before == None && after == t else after == before
  {
  }

  /** What one action adds to the count. */
  lemma ActCounts(u: Setup, w: World, act: Action, p: Pair, a: real, b: real)
    requires AllReadable(u, w.calls)
    ensures var t := Charges(u, w, act, p);
            CountAdmitted(u, Act(u, w, act).calls, p, a, b) ==
            CountAdmitted(u, w.calls, p, a, b) + InWindow(t, a, b)
  {
    match act {
      case Enter(m) =>
        assert (w.calls + [Begin(u.c, w.s, m)])[..|w.calls|] == w.calls;
      case Steps(i, clock) =>
        if i < |w.calls| {
          StepAdmits(u, w, i, clock, p);
          CountUpdate(u, w.calls, i, Advance(u, w.s, w.calls[i], clock).call, p, a, b);
        }
      case Other(e) =>
    }
  }

  /** What it adds to the log. */
  lemma LogGrows(u: Setup, trace: seq<Action>, p: Pair, a: real, b: real)
    requires trace != []
    ensures var init := trace[..|trace| - 1];
            var t := Charges(u, Play(u, init), trace[|trace| - 1], p);
            CountIn(Log(u, trace, p), a, b) == CountIn(Log(u, init, p), a, b) + InWindow(t, a, b)
  {
    var log := Log(u, trace[..|trace| - 1], p);
    var t := Charges(u, Play(u, trace[..|trace| - 1]), trace[|trace| - 1], p);
    if t.Some? {
      assert (log + [t.value])[..|log|] == log;
    }
  }

  /** Every charge belongs to one call, and every admitted call was charged. */
  lemma {:induction false} ChargesAreCalls(u: Setup, trace: seq<Action>, p: Pair, a: real, b: real)
    ensures CountAdmitted(u, Play(u, trace).calls, p, a, b) == CountIn(Log(u, trace, p), a, b)
    decreases |trace|
  {
    if trace != [] {
      var init, act := trace[..|trace| - 1], trace[|trace| - 1];
      var w, log := Play(u, init), Log(u, init, p);
      calc {
        CountAdmitted(u, Play(u, trace).calls, p, a, b);
        CountAdmitted(u, Act(u, w, act).calls, p, a, b);
        { ActCounts(u, w, act, p, a, b); }
        CountAdmitted(u, w.calls, p, a, b) + InWindow(Charges(u, w, act, p), a, b);
        { ChargesAreCalls(u, init, p, a, b); }
        CountIn(log, a, b) + InWindow(Charges(u, w, act, p), a, b);
        { LogGrows(u, trace, p, a, b); }
        CountIn(Log(u, trace, p), a, b);
      }
    }
  }

  function InWindow(t: Option<real>, a: real, b: real): nat {
    if t.Some? && a <= t.value <= b then 1 else 0
  }

  /** Calls of this pair that have been given a position, by the reading they were charged at. */
  function CountServed(u: Setup, calls: seq<Call>, p: Pair, a: real, b: real): nat
    requires AllReadable(u, calls)
  {
    if calls == [] then 0
    else
      var call := calls[|calls| - 1];
      CountServed(u, calls[..|calls| - 1], p, a, b) +
      if AdmittedIn(u, call, p, a, b) && call.Over? && call.reply.Served? then 1 else 0
  }

  lemma {:induction false} ServedWereAdmitted(u: Setup, calls: seq<Call>, p: Pair, a: real, b: real)
    requires AllReadable(u, calls)
    ensures CountServed(u, calls, p, a, b) <= CountAdmitted(u, calls, p, a, b)
    decreases |calls|
  {
    if calls != [] {
      ServedWereAdmitted(u, calls[..|calls| - 1], p, a, b);
    }
  }

  /** For every interleaving: no more than floor(length / interval) + 1 calls of one pair, with clock readings in any
      one window, are ever given a position. */
  lemma ThreadedRateBound(u: Setup, trace: seq<Action>, p: Pair, a: real, length: real)
    requires u.interval > 0.0 && length >= 0.0
    ensures CountServed(u, Play(u, trace).calls, p, a, a + length) <= (length / u.interval).Floor + 1
  {
    hide *;
    ServedWereAdmitted(u, Play(u, trace).calls, p, a, a + length);
    ChargesAreCalls(u, trace, p, a, a + length);
    LogIsSpaced(u, trace, p);
    WindowBound(Log(u, trace, p), u.interval, a, length);
  }

  // ---------------------------------------------------- what a served call has seen

  /** Everything but the queries, in order. */
  function Others(u: Setup, trace: seq<Action>): seq<Event> {
    if trace == [] then []
    else
      var a := trace[|trace| - 1];
      Others(u, trace[..|trace| - 1]) + if a.Other? && !IsQuery(u.c, a.e) then [a.e] else []
  }

  /** All but the limiter's book. */
  function Bookless(s: State): State {
    s.(lastQuery := map[])
  }

  lemma ActIgnoresBook(u: Setup, w: World, a: Action)
    requires AllReadable(u, w.calls)
    ensures Bookless(Act(u, w, a).s) ==
            if a.Other? && !IsQuery(u.c, a.e) then Step(u, Bookless(w.s), a.e).state else Bookless(w.s)
  {
  }

  lemma StepIgnoresBook(u: Setup, s: State, e: Event)
    requires !IsQuery(u.c, e)
    ensures Bookless(Step(u, s, e).state) == Step(u, Bookless(s), e).state
  {
  }

  /** Between the queries' steps, the store, the revoked set and the directory are what those events make them. */
  lemma {:induction false} QueriesOnlyCharge(u: Setup, trace: seq<Action>)
    ensures Bookless(Play(u, trace).s) == Bookless(After(u, Others(u, trace)))
    decreases |trace|
  {
    if trace != [] {
      hide Act, Step;
      var init, a := trace[..|trace| - 1], trace[|trace| - 1];
      var es := Others(u, init);
      QueriesOnlyCharge(u, init);
      ActIgnoresBook(u, Play(u, init), a);
      if a.Other? && !IsQuery(u.c, a.e) {
        assert (es + [a.e])[..|es|] == es;
        StepIgnoresBook(u, After(u, es), a.e);
      } else {
        assert es + [] == es;
      }
    }
  }

  /** The sender holds a token of the issuer whose key this is. */
  predicate Holds(c: Crypto, m: Message, key: Bytes) {
    && ReadToken(c, m).Some?
    && ReadToken(c, m).value.grantee == c.pubkeyId(m.senderKey)
    && c.pubkeyId(key) == ReadToken(c, m).value.issuer
  }

  /** The token was good under that key, and not revoked after the first `n` actions. */
  ghost predicate PassedAt(u: Setup, trace: seq<Action>, n: nat, m: Message, key: Bytes, now: real) {
    && n <= |trace| && Holds(u.c, m, key)
    && u.c.verify(u.c.decodeQuery(m.payload).value, key, m.senderKey, Truncate(now))
    && !EverRevoked(u.c, Others(u, trace[..n]), KeyOf(ReadToken(u.c, m).value))
  }

  lemma {:induction false} WorldWellFiled(u: Setup, trace: seq<Action>)
    requires WellFiled(u.c, u.dir)
    ensures WellFiled(u.c, Play(u, trace).s.dir)
  {
    QueriesOnlyCharge(u, trace);
    DirectoryWellFiled(u, Others(u, trace));
  }

  lemma {:induction false} FoundIsIssuers(u: Setup, trace: seq<Action>, i: nat)
    requires WellFiled(u.c, u.dir) && i < |Play(u, trace).calls| && Play(u, trace).calls[i].Found?
    ensures var call := Play(u, trace).calls[i]; Holds(u.c, call.m, call.key)
    decreases |trace|
  {
    var init, a := trace[..|trace| - 1], trace[|trace| - 1];
    if i < |Play(u, init).calls| && Play(u, init).calls[i] == Play(u, trace).calls[i] {
      FoundIsIssuers(u, init, i);
    } else {
      WorldWellFiled(u, init);
    }
  }

  /** A call past the check has passed it at some point. */
  lemma {:induction false} CheckedWasGood(u: Setup, trace: seq<Action>, i: nat) returns (n: nat)
    requires WellFiled(u.c, u.dir) && i < |Play(u, trace).calls|
    requires var call := Play(u, trace).calls[i]; call.Checked? || call.Admitted?
    ensures var call := Play(u, trace).calls[i]; PassedAt(u, trace, n, call.m, call.key, call.now)
    decreases |trace|
  {
    hide Holds, Others, EverRevoked, Step, LastAsked, After;
    var init, a := trace[..|trace| - 1], trace[|trace| - 1];
    var before := Play(u, init).calls;
    if i < |before| && before[i].Found? {
      FoundIsIssuers(u, init, i);
      n := |init|;
      QueriesOnlyCharge(u, init);
      RevokedIsHistory(u, Others(u, init), KeyOf(ReadToken(u.c, before[i].m).value));
      assert trace[..n] == init;
    } else {
      n := CheckedWasGood(u, init, i);
      assert trace[..n] == init[..n];
    }
  }

  /** The row a call holds was the last beacon of the issuer's key when it read it, which was after its check. */
  lemma {:induction false} FetchedWasLast(u: Setup, trace: seq<Action>, i: nat) returns (n: nat, at: nat)
    requires WellFiled(u.c, u.dir) && i < |Play(u, trace).calls| && Play(u, trace).calls[i].Fetched?
    ensures n <= at <= |trace|
    ensures var call := Play(u, trace).calls[i];
            && PassedAt(u, trace, n, call.m, call.key, call.now)
            && LastBeacon(u.c, Others(u, trace[..at]), call.key) == Some(call.row)
    decreases |trace|
  {
    hide Holds, Others, EverRevoked, Step, LastAsked, After, LastBeacon;
    var init, a := trace[..|trace| - 1], trace[|trace| - 1];
    var before := Play(u, init).calls;
    if i < |before| && before[i].Admitted? {
      n := CheckedWasGood(u, init, i);
      at := |init|;
      QueriesOnlyCharge(u, init);
      StoreIsLastBeacon(u, Others(u, init), before[i].key);
      assert trace[..at] == init && trace[..n] == init[..n];
    } else {
      n, at := FetchedWasLast(u, init, i);
      assert trace[..at] == init[..at] && trace[..n] == init[..n];
    }
  }

  /** Serving stays sound under any interleaving: a position given out is the last beacon, at some moment, of a key
      that hashes to the issuer; at an earlier moment the sender's token verified under that key and was unrevoked;
      and the call was charged. */
  lemma {:induction false} ThreadedServingIsSound(u: Setup, trace: seq<Action>, i: nat)
      returns (n: nat, at: nat, key: Bytes, row: Sighting)
    requires WellFiled(u.c, u.dir) && i < |Play(u, trace).calls|
    requires var call := Play(u, trace).calls[i]; call.Over? && call.reply.Served?
    ensures n <= at <= |trace|
    ensures var call := Play(u, trace).calls[i];
            && call.at.Some? && PassedAt(u, trace, n, call.m, key, call.at.value)
            && LastBeacon(u.c, Others(u, trace[..at]), key) == Some(row)
            && call.reply.answer.target == u.c.pubkeyId(key)
            && call.reply.answer.fix == row.fix && call.reply.answer.zone == row.zone && call.reply.answer.age >= 0
            && call.reply.to == u.c.pubkeyId(call.m.senderKey)
    decreases |trace|
  {
    hide Others, EverRevoked, Step, LastAsked, After, LastBeacon;
    var init, a := trace[..|trace| - 1], trace[|trace| - 1];
    var before := Play(u, init).calls;
    if i < |before| && before[i].Fetched? {
      n, at := FetchedWasLast(u, init, i);
      key, row := before[i].key, before[i].row;
    } else {
      n, at, key, row := ThreadedServingIsSound(u, init, i);
    }
    assert trace[..at] == init[..at] && trace[..n] == init[..n];
  }

  /** The call got past the revocation check. */
  predicate PastCheck(call: Call) {
    call.Checked? || call.Admitted? || call.Fetched? || (call.Over? && (!call.reply.Refused? || call.at.Some?))
  }

  lemma PlaySnoc(u: Setup, trace: seq<Action>, a: Action)
    ensures Play(u, trace + [a]) == Act(u, Play(u, trace), a)
  {
    assert (trace + [a])[..|trace|] == trace;
  }

  predicate OnGrant(c: Crypto, call: Call, key: RevocationKey) {
    ReadToken(c, call.m).Some? && KeyOf(ReadToken(c, call.m).value) == key
  }

  /** Once a grant is revoked, only calls that had already passed the check can still be served: any other call on
      it, running or yet to come, never gets past the check, however the steps interleave. */
  lemma {:induction false} RevocationStopsCalls(u: Setup, trace: seq<Action>, later: seq<Action>, i: nat,
                                                key: RevocationKey)
    requires key in Play(u, trace).s.revoked
    requires i < |Play(u, trace).calls| ==> !PastCheck(Play(u, trace).calls[i])
    ensures var w := Play(u, trace + later);
            && key in w.s.revoked
            && (i < |w.calls| && OnGrant(u.c, w.calls[i], key) ==> !PastCheck(w.calls[i]))
    decreases |later|
  {
    if later == [] {
      assert trace + later == trace;
    } else {
      hide Act, PastCheck, OnGrant;
      var init, a := later[..|later| - 1], later[|later| - 1];
      assert trace + later == (trace + init) + [a];
      RevocationStopsCalls(u, trace, init, i, key);
      PlaySnoc(u, trace + init, a);
      ActStopsCall(u, Play(u, trace + init), a, i, key);
    }
  }

  lemma ActStopsCall(u: Setup, w: World, a: Action, i: nat, key: RevocationKey)
    requires AllReadable(u, w.calls) && key in w.s.revoked
    requires i < |w.calls| && OnGrant(u.c, w.calls[i], key) ==> !PastCheck(w.calls[i])
    ensures var w' := Act(u, w, a);
            && key in w'.s.revoked
            && (i < |w'.calls| && OnGrant(u.c, w'.calls[i], key) ==> !PastCheck(w'.calls[i]))
  {
  }

  /** From there on the revoked set is not looked at again. */
  lemma NotRecalled(u: Setup, s: State, revoked: set<RevocationKey>, call: Call, clock: real)
    requires Readable(u.c, call) && !call.Found?
    ensures Advance(u, s.(revoked := revoked), call, clock).call == Advance(u, s, call, clock).call
  {
  }

  /** A good query, as far as its check. */
  lemma QueryIsChecked(owner: Bytes, asker: Bytes, s: State, query: Message, clock: real)
    requires owner != asker && query.senderKey == asker
    requires s.dir == TwoAttendees(owner, asker, Some([])).dir && s.revoked == {}
    ensures var u := TwoAttendees(owner, asker, Some([]));
            && Begin(u.c, s, query) == Found(query, owner)
            && Advance(u, s, Found(query, owner), clock) == Progress(s, Checked(query, owner, clock))
  {
    BothAreListed(owner, asker, Some([]));
  }

  /** One event, and a call as far as its second step. */
  lemma EventThenCall(u: Setup, e: Event, s: State, m: Message, found: Call, checked: Call, clock: real)
    requires !IsQuery(u.c, e) && Step(u, Boot(u.dir), e).state == s
    requires Begin(u.c, s, m) == found && Readable(u.c, found) && Advance(u, s, found, clock) == Progress(s, checked)
    ensures Play(u, [Other(e), Enter(m), Steps(0, clock)]) == World(s, [checked])
  {
    hide Begin, Advance, Step, IsQuery, Readable, Boot;
    var a1, a2, a3 := Other(e), Enter(m), Steps(0, clock);
    assert [] + [a1] == [a1] && [a1] + [a2] == [a1, a2] && [a1, a2] + [a3] == [a1, a2, a3];
    PlaySnoc(u, [], a1);
    PlaySnoc(u, [a1], a2);
    PlaySnoc(u, [a1, a2], a3);
  }

  lemma CheckPasses(owner: Bytes, asker: Bytes, beacon: Message, query: Message, clk: Clocks)
    requires owner != asker && beacon.msgType == LOCATION && beacon.senderKey == owner && query.senderKey == asker
    ensures var u := TwoAttendees(owner, asker, Some([]));
            Play(u, [Other(Packet(beacon, clk)), Enter(query), Steps(0, clk.now)]) ==
            World(Beacon(u.c, Boot(u.dir), beacon, clk.storeNow), [Checked(query, owner, clk.now)])
  {
    hide Begin, Advance, Play, TwoAttendees;
    var u := TwoAttendees(owner, asker, Some([]));
    var s := Beacon(u.c, Boot(u.dir), beacon, clk.storeNow);
    QueryIsChecked(owner, asker, s, query, clk.now);
    EventThenCall(u, Packet(beacon, clk), s, query, Found(query, owner), Checked(query, owner, clk.now), clk.now);
  }

  /** The rest of such a query, by itself. */
  lemma CheckedIsServed(owner: Bytes, asker: Bytes, s: State, query: Message, clk: Clocks)
    requires owner != asker && query.senderKey == asker && clk.now >= QUERY_MIN_INTERVAL
    requires s.dir == TwoAttendees(owner, asker, Some([])).dir && s.lastQuery == map[] && owner in s.rows
    ensures var u := TwoAttendees(owner, asker, Some([]));
            var p1 := Advance(u, s, Checked(query, owner, clk.now), clk.now);
            var p2 := Advance(u, p1.state, p1.call, clk.now);
            var p3 := Advance(u, p2.state, p2.call, clk.storeNow);
            p3.call.Over? && p3.call.reply.Served?
  {
    BothAreListed(owner, asker, Some([]));
  }

  /** Three steps in a row of the only call there is. */
  lemma ThreeSteps(u: Setup, trace: seq<Action>, c1: real, c2: real, c3: real)
    requires |Play(u, trace).calls| == 1
    ensures var w := Play(u, trace);
            var p1 := Advance(u, w.s, w.calls[0], c1);
            var p2 := Advance(u, p1.state, p1.call, c2);
            Play(u, trace + [Steps(0, c1), Steps(0, c2), Steps(0, c3)]).calls == [Advance(u, p2.state, p2.call, c3).call]
  {
    hide Advance;
    var a1, a2, a3 := Steps(0, c1), Steps(0, c2), Steps(0, c3);
    PlaySnoc(u, trace, a1);
    PlaySnoc(u, trace + [a1], a2);
    PlaySnoc(u, (trace + [a1]) + [a2], a3);
    assert trace + [a1, a2, a3] == ((trace + [a1]) + [a2]) + [a3];
  }

  /** So a revocation that has been carried out can still be followed by an answer on the revoked grant: here it
      comes between the check and the limiter. */
  lemma ServedAfterRevocation(owner: Bytes, asker: Bytes, beacon: Message, query: Message, revoke: Message,
                              clk: Clocks)
    requires owner != asker && clk.now >= QUERY_MIN_INTERVAL
    requires beacon.msgType == LOCATION && beacon.senderKey == owner
    requires query.msgType == 3 && query.senderKey == asker
    requires revoke.msgType == 5 && revoke.senderKey == owner
    ensures var u := TwoAttendees(owner, asker, Some([]));
            var begun := [Other(Packet(beacon, clk)), Enter(query), Steps(0, clk.now)];
            var revoked := begun + [Other(Packet(revoke, clk))];
            var w := Play(u, revoked);
            var w' := Play(u, revoked + [Steps(0, clk.now), Steps(0, clk.now), Steps(0, clk.storeNow)]);
            && KeyOf(ReadToken(u.c, query).value) in w.s.revoked && |w.calls| == |w'.calls| == 1
            && !w.calls[0].Over? && w'.calls[0].Over? && w'.calls[0].reply.Served?
  {
    hide Advance, Play;
    var u := TwoAttendees(owner, asker, Some([]));
    var begun := [Other(Packet(beacon, clk)), Enter(query), Steps(0, clk.now)];
    CheckPasses(owner, asker, beacon, query, clk);
    PlaySnoc(u, begun, Other(Packet(revoke, clk)));
    var revoked := begun + [Other(Packet(revoke, clk))];
    ThreeSteps(u, revoked, clk.now, clk.now, clk.storeNow);
    CheckedIsServed(owner, asker, Play(u, revoked).s, query, clk);
  }
}
