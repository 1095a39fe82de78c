/** node/backhaul/dynamic_zone_table.py: a TTL cache of announced routes over a pinned fallback. */
module ZoneTable {
  import opened Wire

  datatype Entry<+A> = Entry(addr: A, seen: real)

  datatype Table<A> = Table(own: int, ttl: real, pinned: map<int, A>, learned: map<int, Entry<A>>)

  predicate Expired<A>(t: Table<A>, seen: real, now: real) {
    now - seen > t.ttl
  }

  predicate Stale<A>(t: Table<A>, z: int, now: real) {
    z in t.learned && Expired(t, t.learned[z].seen, now)
  }

  function Boot<A>(own: int, ttl: real, seed: map<int, A>): Table<A> {
    Table(own, ttl, seed, map[])
  }

  function Learn<A>(t: Table<A>, z: int, a: A, now: real): Table<A> {
    t.(learned := t.learned[z := Entry(a, now)])
  }

  /** `clockAt(z)` is the clock reading taken while looking at zone `z`. */
  function Prune<A>(t: Table<A>, clockAt: int -> real): Table<A> {
    t.(learned := map z | z in t.learned && !Stale(t, z, clockAt(z)) :: t.learned[z])
  }

  function AddrFor<A>(t: Table<A>, z: int, now: real): Option<A> {
    if z in t.learned && !Stale(t, z, now) then Some(t.learned[z].addr)
    else if z in t.pinned then Some(t.pinned[z])
    else None
  }

  method AnyOf(zones: set<int>) returns (z: int)
    requires zones != {}
    ensures z in zones
  {
    assert (forall x :: x !in zones) ==> zones == {};
    z :| z in zones;
  }

  class DynamicZoneTable<A> {
    const own: int
    const ttl: real
    const pinned: map<int, A>
    var learned: map<int, Entry<A>>

    function Now(): Table<A>
      reads this
    {
      Table(own, ttl, pinned, learned)
    }

    constructor (ownZone: int, seed: map<int, A>, entryTtl: real)
      ensures Now() == Boot(ownZone, entryTtl, seed)
    {
      own, ttl, pinned, learned := ownZone, entryTtl, seed, map[];
    }

    method LearnZone(z: int, a: A, now: real)
      modifies this
      ensures Now() == Learn(old(Now()), z, a, now)
    {
      learned := learned[z := Entry(a, now)];
    }

    method Lookup(z: int, now: real) returns (r: Option<A>)
      ensures r == AddrFor(Now(), z, now)
    {
      if z in learned && !(now - learned[z].seen > ttl) {
        return Some(learned[z].addr);
      }
      return if z in pinned then Some(pinned[z]) else None;
    }

    method ForgetStale(clockAt: int -> real) returns (gone: seq<int>)
      modifies this
      ensures Now() == Prune(old(Now()), clockAt)
      ensures forall z :: z in gone <==> Stale(old(Now()), z, clockAt(z))
      ensures forall i, j :: 0 <= i < j < |gone| ==> gone[i] != gone[j]
    {
      gone := [];
      var todo: set<int> := learned.Keys;
      while todo != {}
        invariant todo <= learned.Keys && learned == old(learned)
        invariant forall z :: z in gone <==> z !in todo && Stale(Now(), z, clockAt(z))
        invariant forall i, j :: 0 <= i < j < |gone| ==> gone[i] != gone[j]
        decreases todo
      {
        var z := AnyOf(todo);
        todo := todo - {z};
        if clockAt(z) - learned[z].seen > ttl {
          gone := gone + [z];
        }
      }
      for i := 0 to |gone|
        invariant forall z :: z in learned <==> z in old(learned) && z !in gone[..i]
        invariant forall z :: z in learned ==> learned[z] == old(learned)[z]
      {
        learned := learned - {gone[i]};
      }
      assert gone[..|gone|] == gone;
      ghost var kept := Prune(old(Now()), clockAt).learned;
      assert forall z :: z in learned <==> z in kept;
      assert forall z :: z in learned ==> learned[z] == kept[z];
    }

    method KnownZones(clockAt: int -> real) returns (zones: set<int>)
      ensures forall z :: z in zones <==> AddrFor(Now(), z, clockAt(z)).Some?
    {
      zones := set z | z in learned && !(clockAt(z) - learned[z].seen > ttl);
      zones := zones + pinned.Keys;
    }

    method PeerCount(clockAt: int -> real) returns (n: nat)
      ensures n == |Reachable(Now(), clockAt) - {own}|
    {
      var zones := KnownZones(clockAt);
      assert zones == Reachable(Now(), clockAt);
      n := |zones - {own}|;
    }

    method Snapshot(clockAt: int -> real) returns (table: map<int, A>)
      ensures forall z :: z in table <==> AddrFor(Now(), z, clockAt(z)).Some?
      ensures forall z :: z in table ==> AddrFor(Now(), z, clockAt(z)) == Some(table[z])
    {
      table := pinned;
      table := table + map z | z in learned && !(clockAt(z) - learned[z].seen > ttl) :: learned[z].addr;
    }
  }

  /** The zones with a route, each looked up at its own clock reading. */
  function Reachable<A>(t: Table<A>, clockAt: int -> real): (zones: set<int>)
    ensures forall z :: z in zones <==> AddrFor(t, z, clockAt(z)).Some?
  {
    set z | z in t.learned.Keys + t.pinned.Keys && AddrFor(t, z, clockAt(z)).Some?
  }

  // --------------------------------------------- the table refines its history

  datatype Event<!A> = Heard(zone: int, addr: A, at: real) | Pruned(clockAt: int -> real)

  function Step<A>(t: Table<A>, e: Event<A>): Table<A> {
    match e
    case Heard(z, a, at) => Learn(t, z, a, at)
    case Pruned(clockAt) => Prune(t, clockAt)
  }

  function Run<A>(t: Table<A>, h: seq<Event<A>>): Table<A> {
    if h == [] then t else Step(Run(t, h[..|h| - 1]), h[|h| - 1])
  }

  /** The last announcement heard for a zone. */
  function LastHeard<A>(h: seq<Event<A>>, z: int): Option<Entry<A>> {
    if h == [] then None
    else
      var e := h[|h| - 1];
      if e.Heard? && e.zone == z then Some(Entry(e.addr, e.at)) else LastHeard(h[..|h| - 1], z)
  }

  /** What the documentation promises: latest announcement while fresh, else the pinned seed, else nothing. */
  function Promised<A>(t: Table<A>, h: seq<Event<A>>, z: int, now: real): Option<A> {
    match LastHeard(h, z)
    case Some(e) =>
      if now - e.seen <= t.ttl then Some(e.addr) else if z in t.pinned then Some(t.pinned[z]) else None
    case None => if z in t.pinned then Some(t.pinned[z]) else None
  }

  /** The clock did not go back: no pruning pass has read a time later than `now`. */
  ghost predicate PrunedBy<A>(h: seq<Event<A>>, now: real) {
    forall i, z :: 0 <= i < |h| && h[i].Pruned? ==> h[i].clockAt(z) <= now
  }

  lemma {:induction false} EntriesAreLastHeard<A>(t: Table<A>, h: seq<Event<A>>, z: int, now: real)
    requires t.learned == map[] && PrunedBy(h, now)
    ensures Run(t, h) == t.(learned := Run(t, h).learned)
    ensures z in Run(t, h).learned ==> LastHeard(h, z) == Some(Run(t, h).learned[z])
    ensures z !in Run(t, h).learned && LastHeard(h, z).Some? ==> now - LastHeard(h, z).value.seen > t.ttl
    decreases |h|
  {
    if h != [] {
      var init := h[..|h| - 1];
      assert forall i :: 0 <= i < |init| ==> init[i] == h[i];
      EntriesAreLastHeard(t, init, z, now);
    }
  }

  /** For every history of announcements and pruning passes, under a clock that does not go back. */
  lemma HistoryDecides<A>(t: Table<A>, h: seq<Event<A>>, z: int, now: real)
    requires t.learned == map[] && PrunedBy(h, now)
    ensures AddrFor(Run(t, h), z, now) == Promised(t, h, z, now)
  {
    EntriesAreLastHeard(t, h, z, now);
  }

  /** After a pruning pass exactly the zones last heard within the ttl have an entry, so silent ones take no room. */
  lemma PrunedToTheFresh<A>(t: Table<A>, h: seq<Event<A>>, clockAt: int -> real, z: int)
    requires t.learned == map[] && PrunedBy(h, clockAt(z))
    ensures var t' := Run(t, h + [Pruned(clockAt)]);
            && (z in t'.learned <==> LastHeard(h, z).Some? && clockAt(z) - LastHeard(h, z).value.seen <= t.ttl)
            && (z in t'.learned ==> Some(t'.learned[z]) == LastHeard(h, z))
            && t'.own == t.own && t'.ttl == t.ttl && t'.pinned == t.pinned
  {
    assert (h + [Pruned(clockAt)])[..|h|] == h;
    EntriesAreLastHeard(t, h, z, clockAt(z));
  }

  /** A history with its pruning passes left out. */
  function HeardOnly<A>(h: seq<Event<A>>): seq<Event<A>> {
    if h == [] then [] else HeardOnly(h[..|h| - 1]) + if h[|h| - 1].Heard? then [h[|h| - 1]] else []
  }

  lemma {:induction false} PruningNotHeard<A>(h: seq<Event<A>>, z: int)
    ensures LastHeard(HeardOnly(h), z) == LastHeard(h, z)
    decreases |h|
  {
    if h != [] {
      var init, e := h[..|h| - 1], h[|h| - 1];
      PruningNotHeard(init, z);
      if e.Heard? {
        assert (HeardOnly(init) + [e])[..|HeardOnly(init)|] == HeardOnly(init);
      } else {
        assert HeardOnly(init) + [] == HeardOnly(init);
      }
    }
  }

  /** `forget_stale` calls may be inserted or removed anywhere: no answer changes. */
  lemma PruningIsInvisible<A>(t: Table<A>, h: seq<Event<A>>, h': seq<Event<A>>, z: int, now: real)
    requires t.learned == map[] && PrunedBy(h, now) && PrunedBy(h', now)
    requires HeardOnly(h) == HeardOnly(h')
    ensures AddrFor(Run(t, h), z, now) == AddrFor(Run(t, h'), z, now)
  {
    HistoryDecides(t, h, z, now);
    HistoryDecides(t, h', z, now);
    PruningNotHeard(h, z);
    PruningNotHeard(h', z);
  }

  /** Once the last announcement of a zone is older than the ttl the zone stays on its pinned route, or on
      none, at every later instant, until it is heard again; and not a moment earlier. */
  lemma SilenceReverts<A>(t: Table<A>, h: seq<Event<A>>, quiet: seq<Event<A>>, z: int, now: real)
    requires t.learned == map[] && PrunedBy(h + quiet, now)
    requires LastHeard(h, z).Some?
    requires forall e :: e in quiet ==> !(e.Heard? && e.zone == z)
    ensures AddrFor(Run(t, h + quiet), z, now) ==
            if now <= LastHeard(h, z).value.seen + t.ttl then Some(LastHeard(h, z).value.addr)
            else if z in t.pinned then Some(t.pinned[z]) else None
  {
    HistoryDecides(t, h + quiet, z, now);
    QuietKeepsLast(h, quiet, z);
  }

  lemma {:induction false} QuietKeepsLast<A>(h: seq<Event<A>>, quiet: seq<Event<A>>, z: int)
    requires forall e :: e in quiet ==> !(e.Heard? && e.zone == z)
    ensures LastHeard(h + quiet, z) == LastHeard(h, z)
    decreases |quiet|
  {
    if quiet == [] {
      assert h + quiet == h;
    } else {
      assert (h + quiet)[..|h + quiet| - 1] == h + quiet[..|quiet| - 1];
      QuietKeepsLast(h, quiet[..|quiet| - 1], z);
    }
  }
}
