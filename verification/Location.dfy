/** node/location: the latest-only store, the capability check, and the service that dispatches to them. */
module Location {
  import opened Wire
  import opened Core
  import opened Directory

  const QUERY_MIN_INTERVAL := 60.0

  datatype Sighting = Sighting(fix: Fix, zone: nat, at: real)

  type Pair = (Bytes, Bytes)

  datatype State = State(
    rows: map<Bytes, Sighting>,
    revoked: set<RevocationKey>,
    lastQuery: map<Pair, real>,
    dir: Index)

  function Boot(dir: Index): State {
    State(map[], {}, map[], dir)
  }

  datatype Reason =
    | Malformed | NotGrantee | UnknownIssuer | BadToken | Revoked | RateLimited | NoBeacon | UnknownRequester

  /** `Throws`: the requester is listed without a usable sealing key, and the lookup of that key throws. */
  datatype Reply = Refused(reason: Reason) | Served(answer: Answer, to: Bytes, key: Bytes) | Throws

  /** `now` is read by the capability check, `storeNow` by the store. */
  datatype Clocks = Clocks(now: real, storeNow: real)

  function ReadToken(c: Crypto, m: Message): Option<Token> {
    match c.decodeQuery(m.payload)
    case None => None
    case Some(raw) => c.parseToken(raw)
  }

  /** The checks before the rate limiter: None lets the query through to it. */
  function Screen(c: Crypto, s: State, m: Message, now: real): Option<Reason> {
    var token := ReadToken(c, m);
    if token.None? then Some(Malformed)
    else if token.value.grantee != c.pubkeyId(m.senderKey) then Some(NotGrantee)
    else
      match Lookup(s.dir, token.value.issuer)
      case None => Some(UnknownIssuer)
      case Some(target) =>
        if !target.ed.Fits? || !c.verify(c.decodeQuery(m.payload).value, target.ed.value, m.senderKey, Truncate(now))
        then Some(BadToken)
        else if KeyOf(token.value) in s.revoked then Some(Revoked)
        else None
  }

  function PairOf(c: Crypto, m: Message): Pair
    requires ReadToken(c, m).Some?
  {
    (c.pubkeyId(m.senderKey), ReadToken(c, m).value.issuer)
  }

  /** A pair never asked about counts as asked at time zero. */
  function LastAsked(s: State, p: Pair): real {
    if p in s.lastQuery then s.lastQuery[p] else 0.0
  }

  predicate Passes(c: Crypto, interval: real, s: State, m: Message, now: real) {
    Screen(c, s, m, now).None? && !(now - LastAsked(s, PairOf(c, m)) < interval)
  }

  function Age(row: Sighting, storeNow: real): int {
    var age := Truncate(storeNow - row.at);
    if age > 0 then age else 0
  }

  /** What a query that got past the rate limiter is told. */
  function Respond(c: Crypto, s: State, m: Message, storeNow: real): Reply
    requires ReadToken(c, m).Some? && Lookup(s.dir, ReadToken(c, m).value.issuer).Some?
    requires Lookup(s.dir, ReadToken(c, m).value.issuer).value.ed.Fits?
  {
    var targetKey := Lookup(s.dir, ReadToken(c, m).value.issuer).value.ed.value;
    if targetKey !in s.rows then Refused(NoBeacon) else Disclose(c, s.dir, m, s.rows[targetKey], storeNow)
  }

  /** The requester is looked up only once there is something to tell. */
  function Disclose(c: Crypto, dir: Index, m: Message, row: Sighting, storeNow: real): Reply
    requires ReadToken(c, m).Some?
  {
    var requester := c.pubkeyId(m.senderKey);
    match Lookup(dir, requester)
    case None => Refused(UnknownRequester)
    case Some(listed) =>
      match listed.curve
      case None => Throws
      case Some(key) =>
        Served(Answer(ReadToken(c, m).value.issuer, row.fix, Age(row, storeNow), row.zone), requester, key)
  }

  function Query(c: Crypto, interval: real, s: State, m: Message, clk: Clocks): (State, Reply) {
    match Screen(c, s, m, clk.now)
    case Some(reason) => (s, Refused(reason))
    case None =>
      if !Passes(c, interval, s, m, clk.now) then (s, Refused(RateLimited))
      else (s.(lastQuery := s.lastQuery[PairOf(c, m) := clk.now]), Respond(c, s, m, clk.storeNow))
  }

  /** The key an accepted LOCATION_REVOKE adds. */
  function RevokedBy(c: Crypto, m: Message): Option<RevocationKey> {
    match c.decodeRevoke(m.payload)
    case None => None
    case Some(key) => if c.pubkeyId(m.senderKey) != key.issuer then None else Some(key)
  }

  function Revoke(c: Crypto, s: State, m: Message): State {
    match RevokedBy(c, m)
    case None => s
    case Some(key) => s.(revoked := s.revoked + {key})
  }

  function Beacon(c: Crypto, s: State, m: Message, storeNow: real): State {
    match c.decodeBeacon(m.payload)
    case None => s
    case Some(fix) => s.(rows := s.rows[m.senderKey := Sighting(fix, m.zone, storeNow)])
  }

  /** `consumed`: the relay must not pass the message on. */
  datatype Handled = Handled(state: State, consumed: bool, reply: Option<Reply>)

  function Dispatch(c: Crypto, interval: real, s: State, m: Message, clk: Clocks): Handled {
    if m.msgType == LOCATION then Handled(Beacon(c, s, m, clk.storeNow), true, None)
    else if m.msgType == c.queryType then
      var (s', reply) := Query(c, interval, s, m, clk);
      Handled(s', false, Some(reply))
    else if m.msgType == c.revokeType then Handled(Revoke(c, s, m), false, None)
    else Handled(s, false, None)
  }

  // ---------------------------------------------------------------- the classes

  class LocationStore {
    var rows: map<Bytes, Sighting>

    constructor ()
      ensures rows == map[]
    {
      rows := map[];
    }

    method Update(identity: Bytes, fix: Fix, zone: nat, now: real)
      modifies this
      ensures rows == old(rows)[identity := Sighting(fix, zone, now)]
    {
      rows := rows[identity := Sighting(fix, zone, now)];
    }

    method Get(identity: Bytes) returns (row: Option<Sighting>)
      ensures row == if identity in rows then Some(rows[identity]) else None
    {
      return if identity in rows then Some(rows[identity]) else None;
    }

    method BeaconAge(row: Sighting, now: real) returns (age: int)
      ensures age == Age(row, now) && age >= 0
    {
      age := Truncate(now - row.at);
      if age < 0 {
        age := 0;
      }
    }

    method Forget(identity: Bytes)
      modifies this
      ensures rows == old(rows) - {identity}
    {
      rows := rows - {identity};
    }
  }

  class LocationAuthz {
    const crypto: Crypto
    const interval: real
    const store: LocationStore
    const directory: DirectoryCache
    var revoked: set<RevocationKey>
    var lastQuery: map<Pair, real>

    function Now(): State
      reads this, store, directory
    {
      State(store.rows, revoked, lastQuery, directory.Now())
    }

    ghost predicate Valid()
      reads this, directory
    {
      crypto == directory.crypto && WellFiled(crypto, directory.Now())
    }

    constructor (theStore: LocationStore, cache: DirectoryCache, minInterval: real)
      requires WellFiled(cache.crypto, cache.Now())
      ensures Valid() && store == theStore && directory == cache && interval == minInterval
      ensures revoked == {} && lastQuery == map[]
    {
      crypto, interval, store, directory := cache.crypto, minInterval, theStore, cache;
      revoked, lastQuery := {}, map[];
    }

    method HandleQuery(m: Message, clk: Clocks) returns (reply: Reply)
      requires Valid()
      modifies this
      ensures Valid() && (Now(), reply) == Query(crypto, interval, old(Now()), m, clk)
    {
      var raw := crypto.decodeQuery(m.payload);
      if raw.None? {
        return Refused(Malformed);
      }
      var token := crypto.parseToken(raw.value);
      if token.None? {
        return Refused(Malformed);
      }
      var requester := crypto.pubkeyId(m.senderKey);
      if token.value.grantee != requester {
        return Refused(NotGrantee);
      }
      var target := directory.ByEd25519Id(token.value.issuer);
      if target.None? {
        return Refused(UnknownIssuer);
      }
      var targetKey := target.value.ed.value;
      if !crypto.verify(raw.value, targetKey, m.senderKey, Truncate(clk.now)) {
        return Refused(BadToken);
      }
      if KeyOf(token.value) in revoked {
        return Refused(Revoked);
      }
      var pair := (requester, token.value.issuer);
      var last := if pair in lastQuery then lastQuery[pair] else 0.0;
      if clk.now - last < interval {
        return Refused(RateLimited);
      }
      lastQuery := lastQuery[pair := clk.now];
      var row := store.Get(targetKey);
      if row.None? {
        return Refused(NoBeacon);
      }
      var listed := directory.ByEd25519Id(requester);
      if listed.None? {
        return Refused(UnknownRequester);
      }
      if listed.value.curve.None? {
        return Throws;
      }
      var age := store.BeaconAge(row.value, clk.storeNow);
      reply := Served(Answer(token.value.issuer, row.value.fix, age, row.value.zone), requester, listed.value.curve.value);
    }

    method HandleRevoke(m: Message) returns (ok: bool)
      modifies this
      ensures Now() == Revoke(crypto, old(Now()), m)
      ensures ok <==> RevokedBy(crypto, m).Some?
    {
      var key := crypto.decodeRevoke(m.payload);
      if key.None? {
        return false;
      }
      if crypto.pubkeyId(m.senderKey) != key.value.issuer {
        return false;
      }
      revoked := revoked + {key.value};
      return true;
    }
  }

  class LocationService {
    const authz: LocationAuthz
    const store: LocationStore

    ghost predicate Valid()
      reads this, authz, authz.directory
    {
      authz.store == store && authz.Valid()
    }

    function Now(): State
      reads this, authz, authz.store, authz.directory
    {
      authz.Now()
    }

    constructor (check: LocationAuthz)
      requires check.Valid()
      ensures Valid() && authz == check
    {
      authz, store := check, check.store;
    }

    method HandleNodeTerminated(m: Message, clk: Clocks) returns (consumed: bool, reply: Option<Reply>)
      requires Valid()
      modifies authz, store
      ensures Valid()
      ensures Handled(Now(), consumed, reply) == Dispatch(authz.crypto, authz.interval, old(Now()), m, clk)
    {
      consumed, reply := false, None;
      if m.msgType == LOCATION {
        IngestBeacon(m, clk.storeNow);
        consumed := true;
      } else if m.msgType == authz.crypto.queryType {
        var r := authz.HandleQuery(m, clk);
        reply := Some(r);
      } else if m.msgType == authz.crypto.revokeType {
        var ok := authz.HandleRevoke(m);
      }
    }

    method IngestBeacon(m: Message, storeNow: real)
      requires Valid()
      modifies store
      ensures Valid() && Now() == Beacon(authz.crypto, old(Now()), m, storeNow)
    {
      var fix := authz.crypto.decodeBeacon(m.payload);
      if fix.None? {
        return;
      }
      store.Update(m.senderKey, fix.value, m.zone, storeNow);
    }
  }
}
