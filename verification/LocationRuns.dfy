/** What holds of location serving over whole runs, for any clocks, any hash and any formats. */
module LocationRuns {
  import opened Wire
  import opened Core
  import opened Directory
  import opened Location

  /** A message the pipeline accepted, with the clock readings its handling takes, or one directory sync. */
  datatype Event = Packet(m: Message, clk: Clocks) | Sync(fetched: Source)

  /** What does not change during a run. */
  datatype Setup = Setup(c: Crypto, interval: real, dir: Index)

  function Step(u: Setup, s: State, e: Event): Handled {
    match e
    case Packet(m, clk) => Dispatch(u.c, u.interval, s, m, clk)
    case Sync(fetched) => Handled(s.(dir := Refreshed(u.c, s.dir, fetched)), false, None)
  }

  function After(u: Setup, es: seq<Event>): State {
    if es == [] then Boot(u.dir) else Step(u, After(u, es[..|es| - 1]), es[|es| - 1]).state
  }

  function ReplyTo(u: Setup, es: seq<Event>, e: Event): Option<Reply> {
    Step(u, After(u, es), e).reply
  }

  predicate IsQuery(c: Crypto, e: Event) {
    e.Packet? && e.m.msgType == c.queryType && e.m.msgType != LOCATION
  }

  predicate IsRevoke(c: Crypto, e: Event) {
    e.Packet? && e.m.msgType == c.revokeType && e.m.msgType != LOCATION && e.m.msgType != c.queryType
  }

  // -------------------------------------------------- the state is its history

  /** The last well-formed beacon signed with `key`. */
  function LastBeacon(c: Crypto, es: seq<Event>, key: Bytes): Option<Sighting> {
    if es == [] then None
    else
      var e := es[|es| - 1];
      if e.Packet? && e.m.msgType == LOCATION && e.m.senderKey == key && c.decodeBeacon(e.m.payload).Some?
      then Some(Sighting(c.decodeBeacon(e.m.payload).value, e.m.zone, e.clk.storeNow))
      else LastBeacon(c, es[..|es| - 1], key)
  }

  lemma {:induction false} StoreIsLastBeacon(u: Setup, es: seq<Event>, key: Bytes)
    ensures LastBeacon(u.c, es, key) ==
            if key in After(u, es).rows then Some(After(u, es).rows[key]) else None
    decreases |es|
  {
    if es != [] {
      StoreIsLastBeacon(u, es[..|es| - 1], key);
    }
  }

  /** Event `j` revoked `key`, on the word of its issuer. */
  predicate RevokesAt(c: Crypto, es: seq<Event>, key: RevocationKey, j: nat) {
    && j < |es| && IsRevoke(c, es[j])
    && c.decodeRevoke(es[j].m.payload) == Some(key)
    && c.pubkeyId(es[j].m.senderKey) == key.issuer
  }

  ghost predicate EverRevoked(c: Crypto, es: seq<Event>, key: RevocationKey) {
    exists j: nat :: RevokesAt(c, es, key, j)
  }

  lemma EverRevokedStep(c: Crypto, es: seq<Event>, e: Event, key: RevocationKey)
    ensures EverRevoked(c, es + [e], key) <==> EverRevoked(c, es, key) || RevokesAt(c, es + [e], key, |es|)
  {
    if EverRevoked(c, es, key) {
      var j: nat :| RevokesAt(c, es, key, j);
      assert RevokesAt(c, es + [e], key, j);
    }
    if EverRevoked(c, es + [e], key) && !RevokesAt(c, es + [e], key, |es|) {
      var j: nat :| RevokesAt(c, es + [e], key, j);
      assert RevokesAt(c, es, key, j);
    }
  }

  /** The revoked set is exactly what issuers have revoked so far; nothing leaves it. */
  lemma {:induction false} RevokedIsHistory(u: Setup, es: seq<Event>, key: RevocationKey)
    ensures key in After(u, es).revoked <==> EverRevoked(u.c, es, key)
    decreases |es|
  {
    if es != [] {
      var init, e := es[..|es| - 1], es[|es| - 1];
      assert es == init + [e];
      RevokedIsHistory(u, init, key);
      EverRevokedStep(u.c, init, e, key);
    }
  }

  lemma {:induction false} DirectoryWellFiled(u: Setup, es: seq<Event>)
    requires WellFiled(u.c, u.dir)
    ensures WellFiled(u.c, After(u, es).dir)
    decreases |es|
  {
    if es != [] {
      DirectoryWellFiled(u, es[..|es| - 1]);
      var e := es[|es| - 1];
      if e.Sync? && e.fetched.Users? && Complete(e.fetched.rows) {
        LookupFindsLast(u.c, e.fetched.rows, []);
      }
    }
  }

  /** The clock readings at which a pair's queries got past the rate limiter, in lock order. */
  function Recorded(u: Setup, es: seq<Event>, p: Pair): seq<real> {
    if es == [] then []
    else
      var init, e := es[..|es| - 1], es[|es| - 1];
      Recorded(u, init, p) + if Admits(u, After(u, init), e, p) then [e.clk.now] else []
  }

  /** The event is a query of this pair that gets past the rate limiter. */
  predicate Admits(u: Setup, s: State, e: Event, p: Pair) {
    IsQuery(u.c, e) && Passes(u.c, u.interval, s, e.m, e.clk.now) && PairOf(u.c, e.m) == p
  }

  function LastOf(ts: seq<real>): real {
    if ts == [] then 0.0 else ts[|ts| - 1]
  }

  lemma {:induction false} LastAskedIsRecorded(u: Setup, es: seq<Event>, p: Pair)
    ensures LastAsked(After(u, es), p) == LastOf(Recorded(u, es, p))
    ensures p in After(u, es).lastQuery <==> Recorded(u, es, p) != []
    decreases |es|
  {
    if es != [] {
      LastAskedIsRecorded(u, es[..|es| - 1], p);
    }
  }

  /** The rows of the last sync that could be indexed. */
  function LastSync(es: seq<Event>): Option<seq<Row>> {
    if es == [] then None
    else
      var e := es[|es| - 1];
      if e.Sync? && e.fetched.Users? && Complete(e.fetched.rows) then Some(e.fetched.rows) else LastSync(es[..|es| - 1])
  }

  /** The directory in use is the last complete sync, or the one the run began with. */
  lemma {:induction false} DirectoryIsLastSync(u: Setup, es: seq<Event>)
    ensures LastSync(es).Some? ==> Complete(LastSync(es).value)
    ensures After(u, es).dir == if LastSync(es).Some? then IndexRows(u.c, LastSync(es).value) else u.dir
    decreases |es|
  {
    if es != [] {
      DirectoryIsLastSync(u, es[..|es| - 1]);
    }
  }

  /** The sender's token is readable, in its name, good under its issuer's listed key, and has not been revoked. */
  ghost predicate Presents(u: Setup, es: seq<Event>, m: Message, now: real) {
    var d := After(u, es).dir;
    && ReadToken(u.c, m).Some?
    && var token := ReadToken(u.c, m).value;
    && token.grantee == u.c.pubkeyId(m.senderKey)
    && Lookup(d, token.issuer).Some? && Lookup(d, token.issuer).value.ed.Fits?
    && u.c.verify(u.c.decodeQuery(m.payload).value, Lookup(d, token.issuer).value.ed.value, m.senderKey, Truncate(now))
    && !EverRevoked(u.c, es, KeyOf(token))
  }

  /** The limiter is charged for exactly the queries that present a good token an interval after the last one
      charged, or after time zero; whatever becomes of them later. */
  lemma ChargedExactly(u: Setup, es: seq<Event>, e: Event, p: Pair)
    ensures var before, after := Recorded(u, es, p), Recorded(u, es + [e], p);
            var since := if before == [] then 0.0 else before[|before| - 1];
            if IsQuery(u.c, e) && Presents(u, es, e.m, e.clk.now) && AskedPair(u.c, e.m) == Some(p)
               && e.clk.now - since >= u.interval
            then after == before + [e.clk.now] else after == before
  {
    assert (es + [e])[..|es|] == es;
    if e.Packet? && ReadToken(u.c, e.m).Some? {
      RevokedIsHistory(u, es, KeyOf(ReadToken(u.c, e.m).value));
      LastAskedIsRecorded(u, es, p);
    }
  }

  // ------------------------------------------------------------ who is served

  /** What it takes to be told a position, in terms of what has happened before. */
  ghost predicate Entitled(u: Setup, es: seq<Event>, m: Message, clk: Clocks, answer: Answer, key: Bytes) {
    var d := After(u, es).dir;
    var requester := u.c.pubkeyId(m.senderKey);
    && ReadToken(u.c, m).Some?
    && var token := ReadToken(u.c, m).value;
    && token.grantee == requester
    && Lookup(d, token.issuer).Some? && Lookup(d, token.issuer).value.ed.Fits?
    && var issuerKey := Lookup(d, token.issuer).value.ed.value;
    && u.c.verify(u.c.decodeQuery(m.payload).value, issuerKey, m.senderKey, Truncate(clk.now))
    && !EverRevoked(u.c, es, KeyOf(token))
    && clk.now - LastOf(Recorded(u, es, (requester, token.issuer))) >= u.interval
    && LastBeacon(u.c, es, issuerKey).Some?
    && var seen := LastBeacon(u.c, es, issuerKey).value;
    && answer.target == token.issuer && answer.fix == seen.fix && answer.zone == seen.zone
    && answer.age == (if Truncate(clk.storeNow - seen.at) >= 0 then Truncate(clk.storeNow - seen.at) else 0)
    && Lookup(d, requester).Some? && Lookup(d, requester).value.curve == Some(key)
  }

  /** A position is given out exactly when its owner's unrevoked, verified token names the sender, at most once
      an interval, and it is the position in that owner's last well-formed beacon. */
  lemma ServedExactly(u: Setup, es: seq<Event>, e: Event, answer: Answer, to: Bytes, key: Bytes)
    requires WellFiled(u.c, u.dir) && IsQuery(u.c, e)
    ensures ReplyTo(u, es, e) == Some(Served(answer, to, key)) <==>
            Entitled(u, es, e.m, e.clk, answer, key) && to == u.c.pubkeyId(e.m.senderKey)
  {
    var token := ReadToken(u.c, e.m);
    DirectoryWellFiled(u, es);
    if token.Some? {
      RevokedIsHistory(u, es, KeyOf(token.value));
      LastAskedIsRecorded(u, es, PairOf(u.c, e.m));
      var target := Lookup(After(u, es).dir, token.value.issuer);
      if target.Some? && target.value.ed.Fits? {
        StoreIsLastBeacon(u, es, target.value.ed.value);
      }
    }
  }

  /** The key a served position was filed under hashes to the issuer the token names. */
  lemma ServedUnderIssuerKey(u: Setup, es: seq<Event>, m: Message, clk: Clocks, answer: Answer, key: Bytes)
    requires WellFiled(u.c, u.dir) && Entitled(u, es, m, clk, answer, key)
    ensures exists k :: u.c.pubkeyId(k) == answer.target && LastBeacon(u.c, es, k).Some?
                        && LastBeacon(u.c, es, k).value.fix == answer.fix
    ensures answer.age >= 0
  {
    DirectoryWellFiled(u, es);
    var k := Lookup(After(u, es).dir, answer.target).value.ed.value;
    assert u.c.pubkeyId(k) == answer.target;
  }

  /** The one query that neither gets an answer nor a refusal: entitled in every way, but listed without a key
      to seal to. */
  lemma ThrowsExactly(u: Setup, es: seq<Event>, e: Event)
    requires WellFiled(u.c, u.dir) && IsQuery(u.c, e)
    ensures ReplyTo(u, es, e) == Some(Throws) <==>
            && Passes(u.c, u.interval, After(u, es), e.m, e.clk.now)
            && var d, p := After(u, es).dir, PairOf(u.c, e.m);
            && LastBeacon(u.c, es, Lookup(d, p.1).value.ed.value).Some?
            && Lookup(d, p.0).Some? && Lookup(d, p.0).value.curve.None?
  {
    DirectoryWellFiled(u, es);
    if Screen(u.c, After(u, es), e.m, e.clk.now).None? {
      StoreIsLastBeacon(u, es, Lookup(After(u, es).dir, PairOf(u.c, e.m).1).value.ed.value);
    }
  }

  /** Identity for a hash, every token good, and always the same one, which every revocation is for. */
  function PlainCrypto(issuer: Bytes, grantee: Bytes): Crypto {
    Crypto(k => k, (_, _, _, _) => true, _ => Some(Token(issuer, grantee, 0, [])), _ => Some(Fix(1, 2, 3)),
           p => Some(p), _ => Some(RevocationKey(issuer, grantee, 0, [])), (_, _, _) => [], _ => [], 3, 4, 5)
  }

  /** Two synced attendees; `curve` is the second one's sealing key. */
  function TwoAttendees(owner: Bytes, asker: Bytes, curve: Option<Bytes>): Setup {
    var c := PlainCrypto(owner, asker);
    Setup(c, QUERY_MIN_INTERVAL,
          Refreshed(c, EMPTY, Users([Row(Fits("a"), Fits(owner), Some([])), Row(Fits("b"), Fits(asker), curve)])))
  }

  lemma BothAreListed(owner: Bytes, asker: Bytes, curve: Option<Bytes>)
    requires owner != asker
    ensures var u := TwoAttendees(owner, asker, curve);
            && WellFiled(u.c, u.dir)
            && Lookup(u.dir, owner) == Some(Row(Fits("a"), Fits(owner), Some([])))
            && Lookup(u.dir, asker) == Some(Row(Fits("b"), Fits(asker), curve))
  {
    var c := PlainCrypto(owner, asker);
    var rows := [Row(Fits("a"), Fits(owner), Some([])), Row(Fits("b"), Fits(asker), curve)];
    LookupFindsLast(c, rows, owner);
    LookupFindsLast(c, rows, asker);
    assert Complete(rows) && IsLast(c, rows, owner, 0) && IsLast(c, rows, asker, 1);
  }

  /** Such a query exists: the owner beacons, and the asker, listed without a key, asks with a good token. */
  lemma AQueryThrows(owner: Bytes, asker: Bytes, beacon: Message, query: Message, clk: Clocks)
    requires owner != asker && clk.now >= QUERY_MIN_INTERVAL
    requires beacon.msgType == LOCATION && beacon.senderKey == owner && query.msgType == 3 && query.senderKey == asker
    ensures var u := TwoAttendees(owner, asker, None);
            WellFiled(u.c, u.dir) && ReplyTo(u, [Packet(beacon, clk)], Packet(query, clk)) == Some(Throws)
  {
    var u, es := TwoAttendees(owner, asker, None), [Packet(beacon, clk)];
    BothAreListed(owner, asker, None);
    assert es[..0] == [];
    assert After(u, es) == Beacon(u.c, Boot(u.dir), beacon, clk.storeNow);
  }

  /** Every refusal has the first reason that applies, in the order of the checks. */
  lemma RefusedForFirst(u: Setup, es: seq<Event>, e: Event, reason: Reason)
    requires WellFiled(u.c, u.dir) && IsQuery(u.c, e)
    ensures ReplyTo(u, es, e) == Some(Refused(reason)) <==> FirstReason(u, es, e.m, e.clk.now) == Some(reason)
  {
    DirectoryWellFiled(u, es);
    if ReadToken(u.c, e.m).Some? {
      var p := PairOf(u.c, e.m);
      RevokedIsHistory(u, es, KeyOf(ReadToken(u.c, e.m).value));
      LastAskedIsRecorded(u, es, p);
      var target := Lookup(After(u, es).dir, p.1);
      if target.Some? {
        StoreIsLastBeacon(u, es, target.value.ed.value);
      }
    }
  }

  /** The first thing wrong with a query, in terms of what has happened before. */
  ghost function FirstReason(u: Setup, es: seq<Event>, m: Message, now: real): Option<Reason> {
    var d, requester := After(u, es).dir, u.c.pubkeyId(m.senderKey);
    if ReadToken(u.c, m).None? then Some(Malformed)
    else
      var token := ReadToken(u.c, m).value;
      var recorded := Recorded(u, es, (requester, token.issuer));
      if token.grantee != requester then Some(NotGrantee)
      else if Lookup(d, token.issuer).None? then Some(UnknownIssuer)
      else if !Lookup(d, token.issuer).value.ed.Fits? ||
              !u.c.verify(u.c.decodeQuery(m.payload).value, Lookup(d, token.issuer).value.ed.value, m.senderKey, Truncate(now))
      then Some(BadToken)
      else if EverRevoked(u.c, es, KeyOf(token)) then Some(Revoked)
      else if now - (if recorded == [] then 0.0 else recorded[|recorded| - 1]) < u.interval then Some(RateLimited)
      else if LastBeacon(u.c, es, Lookup(d, token.issuer).value.ed.value).None? then Some(NoBeacon)
      else if Lookup(d, requester).None? then Some(UnknownRequester)
      else None
  }

  /** Once revoked by its issuer, a grant is never served again, whatever happens in between; queries are taken one
      after another. */
  lemma RevocationIsPermanent(u: Setup, es: seq<Event>, j: nat, e: Event)
    requires IsQuery(u.c, e) && ReadToken(u.c, e.m).Some?
    requires RevokesAt(u.c, es, KeyOf(ReadToken(u.c, e.m).value), j)
    ensures ReplyTo(u, es, e).Some? && ReplyTo(u, es, e).value.Refused?
  {
    RevokedIsHistory(u, es, KeyOf(ReadToken(u.c, e.m).value));
  }

  // ---------------------------------------------------------------- the rate

  predicate Spaced(ts: seq<real>, gap: real) {
    forall i, j :: 0 <= i < j < |ts| ==> ts[i] + gap <= ts[j]
  }

  /** How many of the times lie in the window from `a` to `b`. */
  function CountIn(ts: seq<real>, a: real, b: real): nat {
    if ts == [] then 0
    else CountIn(ts[..|ts| - 1], a, b) + if a <= ts[|ts| - 1] <= b then 1 else 0
  }

  lemma {:induction false} CountBelow(ts: seq<real>, a: real, b: real, b': real)
    requires b' <= b && forall i :: 0 <= i < |ts| ==> ts[i] <= b'
    ensures CountIn(ts, a, b) == CountIn(ts, a, b')
    decreases |ts|
  {
    if ts != [] {
      CountBelow(ts[..|ts| - 1], a, b, b');
    }
  }

  /** `n` gaps laid end to end. */
  function Gaps(n: nat, gap: real): real {
    if n == 0 then 0.0 else Gaps(n - 1, gap) + gap
  }

  lemma {:induction false} GapsMultiply(n: nat, gap: real)
    ensures Gaps(n, gap) == n as real * gap
  {
    if n > 0 {
      GapsMultiply(n - 1, gap);
      var m := (n - 1) as real;
      assert n as real == m + 1.0;
      assert (m + 1.0) * gap == m * gap + gap;
    }
  }

  lemma {:induction false} SpacedCount(ts: seq<real>, gap: real, a: real, b: real)
    requires gap > 0.0 && a <= b + gap && Spaced(ts, gap)
    ensures Gaps(CountIn(ts, a, b), gap) <= b - a + gap
    decreases |ts|
  {
    if ts != [] {
      var init, t := ts[..|ts| - 1], ts[|ts| - 1];
      if a <= t <= b {
        CountBelow(init, a, b, t - gap);
        SpacedCount(init, gap, a, t - gap);
      } else {
        SpacedCount(init, gap, a, b);
      }
    }
  }

  lemma DivideThrough(n: real, gap: real, length: real)
    requires gap > 0.0 && n * gap <= length
    ensures n <= length / gap
  {
    var q := length / gap;
    assert q * gap == length;
    assert (n - q) * gap == n * gap - q * gap <= 0.0;
  }

  /** At most floor(length / gap) + 1 spaced times fit a window. */
  lemma WindowBound(ts: seq<real>, gap: real, a: real, length: real)
    requires gap > 0.0 && length >= 0.0 && Spaced(ts, gap)
    ensures CountIn(ts, a, a + length) <= (length / gap).Floor + 1
  {
    var n := CountIn(ts, a, a + length);
    SpacedCount(ts, gap, a, a + length);
    if n > 0 {
      GapsMultiply(n - 1, gap);
      DivideThrough((n - 1) as real, gap, length);
    } else {
      DivideThrough(0.0, gap, length);
    }
  }

  /** The clock readings at which a pair was actually given a position. */
  function ServedTimes(u: Setup, es: seq<Event>, p: Pair): seq<real> {
    if es == [] then []
    else
      var init, e := es[..|es| - 1], es[|es| - 1];
      ServedTimes(u, init, p) + if Serves(u, After(u, init), e, p) then [e.clk.now] else []
  }

  predicate Serves(u: Setup, s: State, e: Event, p: Pair) {
    IsQuery(u.c, e) && AskedPair(u.c, e.m) == Some(p) && Step(u, s, e).reply.value.Served?
  }

  function AskedPair(c: Crypto, m: Message): Option<Pair> {
    if ReadToken(c, m).None? then None else Some(PairOf(c, m))
  }

  lemma SpacedSnoc(ts: seq<real>, t: real, gap: real)
    requires gap > 0.0 && Spaced(ts, gap) && (ts != [] ==> LastOf(ts) + gap <= t)
    ensures Spaced(ts + [t], gap) && LastOf(ts + [t]) == t
  {
  }

  lemma AdmittedWaits(u: Setup, s: State, e: Event, p: Pair)
    ensures Serves(u, s, e, p) ==> Admits(u, s, e, p)
    ensures Admits(u, s, e, p) ==> LastAsked(s, p) + u.interval <= e.clk.now
  {
  }

  /** However the clock jumps, forwards or back, admitted queries of one pair move forward by an interval. */
  lemma {:induction false} AdmittedAreSpaced(u: Setup, es: seq<Event>, p: Pair)
    requires u.interval > 0.0
    ensures Spaced(Recorded(u, es, p), u.interval) && Spaced(ServedTimes(u, es, p), u.interval)
    ensures ServedTimes(u, es, p) != [] ==>
              Recorded(u, es, p) != [] && LastOf(ServedTimes(u, es, p)) <= LastOf(Recorded(u, es, p))
    decreases |es|
  {
    if es != [] {
      var init, e := es[..|es| - 1], es[|es| - 1];
      var s, recorded, served := After(u, init), Recorded(u, init, p), ServedTimes(u, init, p);
      AdmittedAreSpaced(u, init, p);
      LastAskedIsRecorded(u, init, p);
      AdmittedWaits(u, s, e, p);
      assert Recorded(u, es, p) == if Admits(u, s, e, p) then recorded + [e.clk.now] else recorded;
      assert ServedTimes(u, es, p) == if Serves(u, s, e, p) then served + [e.clk.now] else served;
      if Admits(u, s, e, p) {
        SpacedSnoc(recorded, e.clk.now, u.interval);
        SpacedSnoc(served, e.clk.now, u.interval);
      }
    }
  }

  /** In any window of clock time, one pair is served at most floor(length / interval) + 1 times. */
  lemma QueryRateBound(u: Setup, es: seq<Event>, p: Pair, a: real, length: real)
    requires u.interval > 0.0 && length >= 0.0
    ensures CountIn(ServedTimes(u, es, p), a, a + length) <= (length / u.interval).Floor + 1
  {
    AdmittedAreSpaced(u, es, p);
    WindowBound(ServedTimes(u, es, p), u.interval, a, length);
  }

  /** At the shipped interval: never two answers for one pair within a minute. */
  lemma OnePerMinute(u: Setup, es: seq<Event>, p: Pair, a: real, length: real)
    requires u.interval == QUERY_MIN_INTERVAL && 0.0 <= length < 60.0
    ensures CountIn(ServedTimes(u, es, p), a, a + length) <= 1
  {
    QueryRateBound(u, es, p, a, length);
    assert length / QUERY_MIN_INTERVAL < 1.0;
  }

  // -------------------------------------------------------- non-interference

  /** All that can bear on what the holder of id `req` learns about the holder of id `tgt`. */
  predicate BearsOn(c: Crypto, req: Bytes, tgt: Bytes, e: Event) {
    || e.Sync?
    || (IsQuery(c, e) && AskedPair(c, e.m) == Some((req, tgt)))
    || ((e.m.msgType == LOCATION || IsRevoke(c, e)) && c.pubkeyId(e.m.senderKey) == tgt)
  }

  /** The events whose positions are to be kept. */
  function Filter(keep: nat -> bool, es: seq<Event>): seq<Event> {
    if es == [] then []
    else Filter(keep, es[..|es| - 1]) + if keep(|es| - 1) then [es[|es| - 1]] else []
  }

  /** Every reply to `req` about `tgt`, in order, refusals and their reasons included. */
  function Replies(u: Setup, es: seq<Event>, req: Bytes, tgt: Bytes): seq<Reply> {
    if es == [] then []
    else
      var init, e := es[..|es| - 1], es[|es| - 1];
      Replies(u, init, req, tgt) +
      if IsQuery(u.c, e) && AskedPair(u.c, e.m) == Some((req, tgt)) then [ReplyTo(u, init, e).value] else []
  }

  /** Two states that look the same from where `req` stands, asking about `tgt`. */
  ghost predicate LookAlike(c: Crypto, s: State, s': State, req: Bytes, tgt: Bytes) {
    && s.dir == s'.dir
    && (forall k :: c.pubkeyId(k) == tgt ==> SameRow(s, s', k))
    && (forall key: RevocationKey :: key.issuer == tgt ==> (key in s.revoked <==> key in s'.revoked))
    && ((req, tgt) in s.lastQuery <==> (req, tgt) in s'.lastQuery)
    && LastAsked(s, (req, tgt)) == LastAsked(s', (req, tgt))
  }

  predicate SameRow(s: State, s': State, k: Bytes) {
    (k in s.rows <==> k in s'.rows) && (k in s.rows ==> s.rows[k] == s'.rows[k])
  }

  lemma SameReply(u: Setup, s: State, s': State, e: Event, req: Bytes, tgt: Bytes)
    requires WellFiled(u.c, s.dir) && LookAlike(u.c, s, s', req, tgt)
    requires IsQuery(u.c, e) && AskedPair(u.c, e.m) == Some((req, tgt))
    ensures Step(u, s, e).reply == Step(u, s', e).reply
    ensures LookAlike(u.c, Step(u, s, e).state, Step(u, s', e).state, req, tgt)
  {
    var target := Lookup(s.dir, tgt);
    if target.Some? {
      assert SameRow(s, s', target.value.ed.value);
    }
    assert KeyOf(ReadToken(u.c, e.m).value).issuer == tgt;
    QueryKeepsRows(u, s, e);
    QueryKeepsRows(u, s', e);
    assert forall k :: SameRow(s, s', k) ==> SameRow(Step(u, s, e).state, Step(u, s', e).state, k);
  }

  lemma QueryKeepsRows(u: Setup, s: State, e: Event)
    requires IsQuery(u.c, e)
    ensures var s' := Step(u, s, e).state; s' == s.(lastQuery := s'.lastQuery)
    ensures forall p :: AskedPair(u.c, e.m) != Some(p) ==>
              (p in Step(u, s, e).state.lastQuery <==> p in s.lastQuery)
              && LastAsked(Step(u, s, e).state, p) == LastAsked(s, p)
  {
  }

  lemma BeaconKeepsAlike(c: Crypto, s: State, s': State, m: Message, at: real, req: Bytes, tgt: Bytes)
    requires LookAlike(c, s, s', req, tgt)
    ensures LookAlike(c, Beacon(c, s, m, at), Beacon(c, s', m, at), req, tgt)
  {
    assert forall k :: SameRow(s, s', k) ==> SameRow(Beacon(c, s, m, at), Beacon(c, s', m, at), k);
  }

  lemma RevokeKeepsAlike(c: Crypto, s: State, s': State, m: Message, req: Bytes, tgt: Bytes)
    requires LookAlike(c, s, s', req, tgt)
    ensures LookAlike(c, Revoke(c, s, m), Revoke(c, s', m), req, tgt)
  {
    assert forall k :: SameRow(s, s', k) ==> SameRow(Revoke(c, s, m), Revoke(c, s', m), k);
  }

  lemma SyncKeepsAlike(c: Crypto, s: State, s': State, d: Index, req: Bytes, tgt: Bytes)
    requires LookAlike(c, s, s', req, tgt)
    ensures LookAlike(c, s.(dir := d), s'.(dir := d), req, tgt)
  {
    assert forall k :: SameRow(s, s', k) ==> SameRow(s.(dir := d), s'.(dir := d), k);
  }

  lemma OtherQueryKeepsAlike(u: Setup, s: State, s': State, e: Event, req: Bytes, tgt: Bytes)
    requires LookAlike(u.c, s, s', req, tgt)
    requires IsQuery(u.c, e) && AskedPair(u.c, e.m) != Some((req, tgt))
    ensures LookAlike(u.c, Step(u, s, e).state, Step(u, s', e).state, req, tgt)
  {
    QueryKeepsRows(u, s, e);
    QueryKeepsRows(u, s', e);
    assert forall k :: SameRow(s, s', k) ==> SameRow(Step(u, s, e).state, Step(u, s', e).state, k);
  }

  lemma KeptStep(u: Setup, s: State, s': State, e: Event, req: Bytes, tgt: Bytes)
    requires WellFiled(u.c, s.dir) && LookAlike(u.c, s, s', req, tgt)
    ensures LookAlike(u.c, Step(u, s, e).state, Step(u, s', e).state, req, tgt)
  {
    if e.Sync? {
      SyncKeepsAlike(u.c, s, s', Refreshed(u.c, s.dir, e.fetched), req, tgt);
    } else if e.m.msgType == LOCATION {
      BeaconKeepsAlike(u.c, s, s', e.m, e.clk.storeNow, req, tgt);
    } else if IsQuery(u.c, e) {
      if AskedPair(u.c, e.m) == Some((req, tgt)) {
        SameReply(u, s, s', e, req, tgt);
      } else {
        OtherQueryKeepsAlike(u, s, s', e, req, tgt);
      }
    } else if e.m.msgType == u.c.revokeType {
      RevokeKeepsAlike(u.c, s, s', e.m, req, tgt);
    }
  }

  lemma DroppedStep(u: Setup, s: State, s': State, e: Event, req: Bytes, tgt: Bytes)
    requires LookAlike(u.c, s, s', req, tgt) && !BearsOn(u.c, req, tgt, e)
    ensures LookAlike(u.c, Step(u, s, e).state, s', req, tgt)
  {
    var t := Step(u, s, e).state;
    if IsQuery(u.c, e) {
      QueryKeepsRows(u, s, e);
      assert AskedPair(u.c, e.m) != Some((req, tgt));
      assert forall k :: SameRow(s, s', k) ==> SameRow(t, s', k);
    } else {
      assert forall k :: u.c.pubkeyId(k) == tgt && SameRow(s, s', k) ==> SameRow(t, s', k);
    }
  }

  /** Take out of a run any choice of events that are not the requester's queries about the target, its beacons and
      revocations, or directory syncs: every answer to that requester about that target stays the same. */
  lemma {:induction false} NonInterference(u: Setup, es: seq<Event>, keep: nat -> bool, req: Bytes, tgt: Bytes)
    requires WellFiled(u.c, u.dir)
    requires forall i :: 0 <= i < |es| && BearsOn(u.c, req, tgt, es[i]) ==> keep(i)
    ensures Replies(u, es, req, tgt) == Replies(u, Filter(keep, es), req, tgt)
    ensures LookAlike(u.c, After(u, es), After(u, Filter(keep, es)), req, tgt)
    decreases |es|
  {
    if es != [] {
      var init, e := es[..|es| - 1], es[|es| - 1];
      var short := Filter(keep, init);
      assert forall i :: 0 <= i < |init| ==> init[i] == es[i];
      NonInterference(u, init, keep, req, tgt);
      DirectoryWellFiled(u, init);
      var s, s' := After(u, init), After(u, short);
      if keep(|init|) {
        assert (short + [e])[..|short|] == short;
        KeptStep(u, s, s', e, req, tgt);
        if IsQuery(u.c, e) && AskedPair(u.c, e.m) == Some((req, tgt)) {
          SameReply(u, s, s', e, req, tgt);
        }
      } else {
        assert short + [] == short;
        DroppedStep(u, s, s', e, req, tgt);
        assert !(IsQuery(u.c, e) && AskedPair(u.c, e.m) == Some((req, tgt)));
      }
    }
  }
}
