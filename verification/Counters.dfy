/** The relay's traffic counters under any interleaving of handler threads. */
module Counters {
  import opened Wire
  import opened Relay

  /** The bumps one handler call can make, in order. */
  predicate Legal(w: seq<Counter>) {
    || w == []
    || w == [Received, Dropped]
    || w == [Received, AttestationsCached]
    || w == [Received, Accepted, LocationTerminated]
    || (|w| >= 2 && w[..2] == [Received, Accepted] && LegalTail(w[2..]))
  }

  predicate LegalTail(t: seq<Counter>) {
    || t == [] || t == [RelayedToPhones]
    || t == [BroadcastToNodes] || t == [BroadcastToNodes, RelayedToPhones]
    || t == [ForwardedCrossZone] || t == [ForwardedCrossZone, RelayedToPhones]
  }

  /** Whatever the packet, the state and the services decide. */
  lemma HandlerIsLegal(cfg: Config, s: State, from: Peer, raw: Bytes, env: Moment)
    ensures Legal(Handle(cfg, s, from, raw, env).counts)
  {
    hide Process, LocationStage, FanOut, RouteThrows;
    var r := Process(s.main, raw, env.verdict);
    if r.Deliver? {
      var rest := AfterAccept(cfg, s.loc, from, raw, r, env);
      var w := [Received, Accepted] + rest.counts;
      assert w[..2] == [Received, Accepted] && w[2..] == rest.counts;
      assert [] + [RelayedToPhones] == [RelayedToPhones];
    }
  }

  function Occurs(w: seq<Counter>, k: Counter): nat {
    if w == [] then 0 else Occurs(w[..|w| - 1], k) + if w[|w| - 1] == k then 1 else 0
  }

  /** A handler call in progress: the bumps it is going to make, and how many it has made. */
  datatype Thread = Thread(program: seq<Counter>, done: nat)

  predicate Running(t: Thread) {
    Legal(t.program) && t.done <= |t.program|
  }

  function Made(t: Thread, k: Counter): nat
    requires Running(t)
  {
    Occurs(t.program[..t.done], k)
  }

  /** Counted as received, its fate not counted yet. */
  predicate InFlight(t: Thread) {
    t.done == 1
  }

  /** What each single call contributes, at every moment of it. */
  lemma EachThreadBalances(t: Thread)
    requires Running(t)
    ensures Made(t, Received) ==
            Made(t, Accepted) + Made(t, Dropped) + Made(t, AttestationsCached) + (if InFlight(t) then 1 else 0)
    ensures Made(t, RelayedToPhones) + Made(t, LocationTerminated) <= Made(t, Accepted)
    ensures Made(t, ForwardedCrossZone) + Made(t, BroadcastToNodes) <= Made(t, Accepted) - Made(t, LocationTerminated)
  {
    var w := t.program[..t.done];
    if t.done > 0 {
      assert w[0] == t.program[0] == Received;
    }
    if t.done > 1 {
      assert w[1] == t.program[1];
    }
    Unfold(w);
  }

  /** No call makes more than four bumps. */
  lemma Unfold(w: seq<Counter>)
    requires |w| <= 4
    ensures forall k :: Occurs(w, k) == Hit(w, 0, k) + Hit(w, 1, k) + Hit(w, 2, k) + Hit(w, 3, k)
  {
    forall k
      ensures Occurs(w, k) == Hit(w, 0, k) + Hit(w, 1, k) + Hit(w, 2, k) + Hit(w, 3, k)
    {
      HitsCount(w, k);
    }
  }

  function Hit(w: seq<Counter>, i: nat, k: Counter): nat {
    if i < |w| && w[i] == k then 1 else 0
  }

  lemma {:induction false} HitsCount(w: seq<Counter>, k: Counter)
    requires |w| <= 4
    ensures Occurs(w, k) == Hit(w, 0, k) + Hit(w, 1, k) + Hit(w, 2, k) + Hit(w, 3, k)
    decreases |w|
  {
    if w != [] {
      HitsCount(w[..|w| - 1], k);
    }
  }

  /** Bumping a list of counters adds to each what the list has of it. */
  lemma {:induction false} BumpsAddUp(stats: Stats, ks: seq<Counter>, k: Counter)
    ensures Reading(BumpAll(stats, ks), k) == Reading(stats, k) + Occurs(ks, k)
    decreases |ks|
  {
    if ks != [] {
      BumpsAddUp(stats, ks[..|ks| - 1], k);
    }
  }

  // ------------------------------------------------------------- interleavings

  datatype World = World(stats: Stats, threads: seq<Thread>)

  /** A new call enters the handler, or one makes its next bump; each bump is one atomic step under the lock. */
  datatype Action = Enter(program: seq<Counter>) | Bumps(thread: nat)

  predicate Enabled(w: World, a: Action) {
    match a
    case Enter(p) => Legal(p)
    case Bumps(i) => i < |w.threads| && w.threads[i].done < |w.threads[i].program|
  }

  function Act(w: World, a: Action): World {
    match a
    case Enter(p) => w.(threads := w.threads + [Thread(p, 0)])
    case Bumps(i) =>
      if !Enabled(w, a) then w
      else
        var t := w.threads[i];
        World(Bump(w.stats, t.program[t.done]), w.threads[i := t.(done := t.done + 1)])
  }

  function After(trace: seq<Action>): World {
    if trace == [] then World(map[], []) else Act(After(trace[..|trace| - 1]), trace[|trace| - 1])
  }

  predicate Possible(trace: seq<Action>) {
    trace == [] || (Possible(trace[..|trace| - 1]) && Enabled(After(trace[..|trace| - 1]), trace[|trace| - 1]))
  }

  function Reading(stats: Stats, k: Counter): nat {
    if k in stats then stats[k] else 0
  }

  predicate AllRunning(ts: seq<Thread>) {
    forall i :: 0 <= i < |ts| ==> Running(ts[i])
  }

  function Total(ts: seq<Thread>, k: Counter): nat
    requires AllRunning(ts)
  {
    if ts == [] then 0 else Total(ts[..|ts| - 1], k) + Made(ts[|ts| - 1], k)
  }

  function Pending(ts: seq<Thread>): nat {
    if ts == [] then 0 else Pending(ts[..|ts| - 1]) + if InFlight(ts[|ts| - 1]) then 1 else 0
  }

  lemma {:induction false} TotalUpdate(ts: seq<Thread>, i: nat, t: Thread, k: Counter)
    requires AllRunning(ts) && i < |ts| && Running(t)
    ensures AllRunning(ts[i := t])
    ensures Total(ts[i := t], k) == Total(ts, k) - Made(ts[i], k) + Made(t, k)
    decreases |ts|
  {
    var init := ts[..|ts| - 1];
    if i == |ts| - 1 {
      assert ts[i := t][..|ts| - 1] == init;
    } else {
      assert ts[i := t][..|ts| - 1] == init[i := t];
      TotalUpdate(init, i, t, k);
    }
  }

  lemma MadeNext(t: Thread, k: Counter)
    requires Running(t) && t.done < |t.program|
    ensures Running(t.(done := t.done + 1))
    ensures Made(t.(done := t.done + 1), k) == Made(t, k) + if t.program[t.done] == k then 1 else 0
  {
    assert t.program[..t.done + 1][..t.done] == t.program[..t.done];
  }

  predicate Exact(w: World, k: Counter) {
    AllRunning(w.threads) && Reading(w.stats, k) == Total(w.threads, k)
  }

  lemma ActIsExact(w: World, a: Action, k: Counter)
    requires Exact(w, k) && Enabled(w, a)
    ensures Exact(Act(w, a), k)
  {
    match a {
      case Enter(p) =>
        assert Act(w, a).threads[..|w.threads|] == w.threads;
        assert p[..0] == [];
      case Bumps(i) =>
        var t := w.threads[i];
        MadeNext(t, k);
        TotalUpdate(w.threads, i, t.(done := t.done + 1), k);
    }
  }

  /** A snapshot taken at any moment reads exactly the bumps made so far: none lost, none double. */
  lemma {:induction false} NoBumpLost(trace: seq<Action>, k: Counter)
    requires Possible(trace)
    ensures Exact(After(trace), k)
    decreases |trace|
  {
    if trace != [] {
      var init := trace[..|trace| - 1];
      NoBumpLost(init, k);
      ActIsExact(After(init), trace[|trace| - 1], k);
    }
  }

  lemma {:induction false} TotalsBalance(ts: seq<Thread>)
    requires AllRunning(ts)
    ensures Total(ts, Received) ==
            Total(ts, Accepted) + Total(ts, Dropped) + Total(ts, AttestationsCached) + Pending(ts)
    ensures Total(ts, RelayedToPhones) + Total(ts, LocationTerminated) <= Total(ts, Accepted)
    ensures Total(ts, ForwardedCrossZone) + Total(ts, BroadcastToNodes)
            <= Total(ts, Accepted) - Total(ts, LocationTerminated)
    decreases |ts|
  {
    if ts != [] {
      TotalsBalance(ts[..|ts| - 1]);
      EachThreadBalances(ts[|ts| - 1]);
    }
  }

  /** Every heartbeat snapshot balances, for any number of threads and any interleaving. */
  lemma TrafficConserved(trace: seq<Action>)
    requires Possible(trace)
    ensures var stats := After(trace).stats;
            && Reading(stats, Received) == Reading(stats, Accepted) + Reading(stats, Dropped)
                                           + Reading(stats, AttestationsCached) + Pending(After(trace).threads)
            && Reading(stats, RelayedToPhones) + Reading(stats, LocationTerminated) <= Reading(stats, Accepted)
            && Reading(stats, ForwardedCrossZone) + Reading(stats, BroadcastToNodes)
               <= Reading(stats, Accepted) - Reading(stats, LocationTerminated)
  {
    NoBumpLost(trace, Received);
    NoBumpLost(trace, Accepted);
    NoBumpLost(trace, Dropped);
    NoBumpLost(trace, AttestationsCached);
    NoBumpLost(trace, RelayedToPhones);
    NoBumpLost(trace, LocationTerminated);
    NoBumpLost(trace, ForwardedCrossZone);
    NoBumpLost(trace, BroadcastToNodes);
    TotalsBalance(After(trace).threads);
  }
}
