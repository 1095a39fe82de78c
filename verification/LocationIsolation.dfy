/** Non-interference for location queries on several threads: what one attendee learns about another does not depend
    on anybody else, whichever way the calls' steps interleave. */
module LocationIsolation {
  import opened Wire
  import opened Core
  import opened Directory
  import opened Location
  import opened LocationRuns
  import opened LocationThreads

  // ------------------------------------------------------ leaving things out

  /** How many of the first `n` calls are kept: the new number of call `n`. */
  function Rank(keep: nat -> bool, n: nat): (r: nat)
    ensures r <= n
  {
    if n == 0 then 0 else Rank(keep, n - 1) + if keep(n - 1) then 1 else 0
  }

  lemma {:induction false} RankRises(keep: nat -> bool, i: nat, j: nat)
    requires i < j && keep(i)
    ensures Rank(keep, i) < Rank(keep, j)
    decreases j
  {
    if i < j - 1 {
      RankRises(keep, i, j - 1);
    }
  }

  lemma {:induction false} RankOrders(keep: nat -> bool, i: nat, j: nat)
    requires i <= j
    ensures Rank(keep, i) <= Rank(keep, j)
    decreases j
  {
    if i < j {
      RankOrders(keep, i, j - 1);
    }
  }

  /** How many calls a trace starts. */
  function Entries(trace: seq<Action>): nat {
    if trace == [] then 0
    else Entries(trace[..|trace| - 1]) + if trace[|trace| - 1].Enter? then 1 else 0
  }

  lemma {:induction false} EntriesAreCalls(u: Setup, trace: seq<Action>)
    ensures |Play(u, trace).calls| == Entries(trace)
    decreases |trace|
  {
    if trace != [] {
      EntriesAreCalls(u, trace[..|trace| - 1]);
    }
  }

  /** A trace without the calls, all their steps included, and without the events that are not to be kept: calls
      by number, events by position. The calls that stay are numbered anew. */
  function Without(trace: seq<Action>, calls: nat -> bool, events: nat -> bool): seq<Action> {
    if trace == [] then []
    else
      var init := trace[..|trace| - 1];
      Without(init, calls, events) + Kept(trace[|trace| - 1], Entries(init), |init|, calls, events)
  }

  function Kept(a: Action, entries: nat, at: nat, calls: nat -> bool, events: nat -> bool): seq<Action> {
    match a
    case Enter(_) => if calls(entries) then [a] else []
    case Steps(i, clock) => if calls(i) then [Steps(Rank(calls, i), clock)] else []
    case Other(_) => if events(at) then [a] else []
  }

  // ------------------------------------------------------- two worlds alike

  predicate KeyFits(c: Crypto, call: Call, tgt: Bytes) {
    !call.Over? ==> c.pubkeyId(call.key) == tgt
  }

  /** The same call in two worlds: at the same step, with the same reply, if it is the requester's about the
      target; at any step, if it is another. */
  predicate CallAlike(c: Crypto, x: Call, y: Call, req: Bytes, tgt: Bytes) {
    && x.m == y.m
    && (AskedPair(c, x.m) == Some((req, tgt)) ==> x == y && KeyFits(c, x, tgt))
  }

  ghost predicate CallsAlike(c: Crypto, xs: seq<Call>, ys: seq<Call>, keep: nat -> bool, req: Bytes, tgt: Bytes) {
    && |ys| == Rank(keep, |xs|)
    && forall i :: 0 <= i < |xs| && keep(i) ==>
         Rank(keep, i) < |ys| && CallAlike(c, xs[i], ys[Rank(keep, i)], req, tgt)
  }

  /** Every call of the pair is among those kept. */
  predicate PairIsKept(c: Crypto, calls: seq<Call>, keep: nat -> bool, req: Bytes, tgt: Bytes) {
    forall i :: 0 <= i < |calls| && AskedPair(c, calls[i].m) == Some((req, tgt)) ==> keep(i)
  }

  lemma Mirror(c: Crypto, s: State, s': State, req: Bytes, tgt: Bytes)
    requires LookAlike(c, s, s', req, tgt)
    ensures LookAlike(c, s', s, req, tgt)
  {
    assert forall k :: SameRow(s, s', k) ==> SameRow(s', s, k);
  }

  lemma BeginsAlike(c: Crypto, s: State, s': State, m: Message, req: Bytes, tgt: Bytes)
    requires WellFiled(c, s.dir) && s.dir == s'.dir
    ensures CallAlike(c, Begin(c, s, m), Begin(c, s', m), req, tgt)
  {
  }

  /** A step of the pair's own call goes the same way in both worlds. */
  lemma PairAdvancesAlike(u: Setup, s: State, s': State, call: Call, clock: real, req: Bytes, tgt: Bytes)
    requires LookAlike(u.c, s, s', req, tgt) && Readable(u.c, call)
    requires AskedPair(u.c, call.m) == Some((req, tgt)) && KeyFits(u.c, call, tgt)
    ensures var p, p' := Advance(u, s, call, clock), Advance(u, s', call, clock);
            p.call == p'.call && KeyFits(u.c, p.call, tgt) && LookAlike(u.c, p.state, p'.state, req, tgt)
  {
    var p, p' := Advance(u, s, call, clock), Advance(u, s', call, clock);
    if call.Admitted? {
      assert SameRow(s, s', call.key);
    }
    assert forall k :: SameRow(s, s', k) ==> SameRow(p.state, p'.state, k);
  }

  /** A step of anyone else's call cannot be told from where the pair stands. */
  lemma OthersAdvanceUnseen(u: Setup, s: State, s': State, call: Call, clock: real, req: Bytes, tgt: Bytes)
    requires LookAlike(u.c, s, s', req, tgt) && Readable(u.c, call)
    requires AskedPair(u.c, call.m) != Some((req, tgt))
    ensures LookAlike(u.c, Advance(u, s, call, clock).state, s', req, tgt)
  {
    var t := Advance(u, s, call, clock).state;
    assert forall k :: SameRow(s, s', k) ==> SameRow(t, s', k);
  }

  // ----------------------------------------------------------- one action

  ghost predicate WorldsAlike(u: Setup, w: World, w': World, keep: nat -> bool, req: Bytes, tgt: Bytes) {
    LookAlike(u.c, w.s, w'.s, req, tgt) && CallsAlike(u.c, w.calls, w'.calls, keep, req, tgt)
  }

  lemma EnterStaysAlike(u: Setup, w: World, w': World, m: Message, keep: nat -> bool, req: Bytes, tgt: Bytes)
    requires AllReadable(u, w.calls) && AllReadable(u, w'.calls)
    requires WellFiled(u.c, w.s.dir) && WorldsAlike(u, w, w', keep, req, tgt)
    ensures WorldsAlike(u, Act(u, w, Enter(m)), if keep(|w.calls|) then Act(u, w', Enter(m)) else w', keep, req, tgt)
  {
    BeginsAlike(u.c, w.s, w'.s, m, req, tgt);
  }

  /** One call replaced on the left, and its counterpart, if it has one, on the right. */
  lemma UpdateStaysAlike(c: Crypto, xs: seq<Call>, ys: seq<Call>, i: nat, x: Call, y: Call, keep: nat -> bool,
                         req: Bytes, tgt: Bytes)
    requires CallsAlike(c, xs, ys, keep, req, tgt) && i < |xs|
    ensures !keep(i) ==> CallsAlike(c, xs[i := x], ys, keep, req, tgt)
    ensures keep(i) ==> Rank(keep, i) < |ys|
    ensures keep(i) && CallAlike(c, x, y, req, tgt) ==>
              CallsAlike(c, xs[i := x], ys[Rank(keep, i) := y], keep, req, tgt)
  {
    if keep(i) && CallAlike(c, x, y, req, tgt) {
      var ys' := ys[Rank(keep, i) := y];
      forall j | 0 <= j < |xs| && keep(j)
        ensures Rank(keep, j) < |ys'| && CallAlike(c, xs[i := x][j], ys'[Rank(keep, j)], req, tgt)
      {
        if j < i {
          RankRises(keep, j, i);
        } else if i < j {
          RankRises(keep, i, j);
        }
      }
    }
  }

  lemma DroppedStepStaysAlike(u: Setup, w: World, w': World, i: nat, clock: real, keep: nat -> bool,
                              req: Bytes, tgt: Bytes)
    requires AllReadable(u, w.calls) && WorldsAlike(u, w, w', keep, req, tgt)
    requires PairIsKept(u.c, w.calls, keep, req, tgt) && !keep(i)
    ensures WorldsAlike(u, Act(u, w, Steps(i, clock)), w', keep, req, tgt)
  {
    if i < |w.calls| {
      var x := Advance(u, w.s, w.calls[i], clock).call;
      OthersAdvanceUnseen(u, w.s, w'.s, w.calls[i], clock, req, tgt);
      UpdateStaysAlike(u.c, w.calls, w'.calls, i, x, x, keep, req, tgt);
    }
  }

  lemma KeptStepStaysAlike(u: Setup, w: World, w': World, i: nat, clock: real, keep: nat -> bool,
                           req: Bytes, tgt: Bytes)
    requires AllReadable(u, w.calls) && AllReadable(u, w'.calls)
    requires WorldsAlike(u, w, w', keep, req, tgt) && keep(i)
    ensures WorldsAlike(u, Act(u, w, Steps(i, clock)), Act(u, w', Steps(Rank(keep, i), clock)), keep, req, tgt)
  {
    hide Advance, LookAlike;
    if i >= |w.calls| {
      RankOrders(keep, |w.calls|, i);
    } else {
      var call, call' := w.calls[i], w'.calls[Rank(keep, i)];
      var p, p' := Advance(u, w.s, call, clock), Advance(u, w'.s, call', clock);
      if AskedPair(u.c, call.m) == Some((req, tgt)) {
        PairAdvancesAlike(u, w.s, w'.s, call, clock, req, tgt);
      } else {
        OthersAdvanceUnseen(u, w.s, w'.s, call, clock, req, tgt);
        Mirror(u.c, p.state, w'.s, req, tgt);
        OthersAdvanceUnseen(u, w'.s, p.state, call', clock, req, tgt);
        Mirror(u.c, p'.state, p.state, req, tgt);
      }
      UpdateStaysAlike(u.c, w.calls, w'.calls, i, p.call, p'.call, keep, req, tgt);
    }
  }

  lemma EventStaysAlike(u: Setup, w: World, w': World, e: Event, keep: nat -> bool, req: Bytes, tgt: Bytes)
    requires AllReadable(u, w.calls) && AllReadable(u, w'.calls)
    requires WellFiled(u.c, w.s.dir) && WorldsAlike(u, w, w', keep, req, tgt)
    ensures WorldsAlike(u, Act(u, w, Other(e)), Act(u, w', Other(e)), keep, req, tgt)
    ensures !BearsOn(u.c, req, tgt, e) ==> WorldsAlike(u, Act(u, w, Other(e)), w', keep, req, tgt)
  {
    hide Step, LookAlike;
    if !IsQuery(u.c, e) {
      KeptStep(u, w.s, w'.s, e, req, tgt);
      if !BearsOn(u.c, req, tgt, e) {
        DroppedStep(u, w.s, w'.s, e, req, tgt);
      }
    }
  }

  // ------------------------------------------------------------- whole traces

  /** Everything that bears on the pair is kept: its calls, the target's beacons and revocations, and syncs. */
  ghost predicate KeepsWhatBears(u: Setup, trace: seq<Action>, calls: nat -> bool, events: nat -> bool,
                                 req: Bytes, tgt: Bytes) {
    && PairIsKept(u.c, Play(u, trace).calls, calls, req, tgt)
    && forall n :: 0 <= n < |trace| && trace[n].Other? && BearsOn(u.c, req, tgt, trace[n].e) ==> events(n)
  }

  lemma KeptBefore(u: Setup, trace: seq<Action>, calls: nat -> bool, events: nat -> bool, req: Bytes, tgt: Bytes)
    requires trace != [] && KeepsWhatBears(u, trace, calls, events, req, tgt)
    ensures KeepsWhatBears(u, trace[..|trace| - 1], calls, events, req, tgt)
  {
    var init, a := trace[..|trace| - 1], trace[|trace| - 1];
    var w := Play(u, init);
    assert forall i :: 0 <= i < |w.calls| ==> Act(u, w, a).calls[i].m == w.calls[i].m;
    assert forall n :: 0 <= n < |init| ==> init[n] == trace[n];
  }

  /** The last action, kept or left out, keeps the worlds alike. */
  lemma ActStaysAlike(u: Setup, w: World, w': World, a: Action, at: nat, calls: nat -> bool, events: nat -> bool,
                      req: Bytes, tgt: Bytes)
    requires AllReadable(u, w.calls) && AllReadable(u, w'.calls)
    requires WellFiled(u.c, w.s.dir) && WorldsAlike(u, w, w', calls, req, tgt)
    requires PairIsKept(u.c, w.calls, calls, req, tgt)
    requires a.Other? && BearsOn(u.c, req, tgt, a.e) ==> events(at)
    ensures var kept := Kept(a, |w.calls|, at, calls, events);
            && |kept| <= 1
            && WorldsAlike(u, Act(u, w, a), if kept == [] then w' else Act(u, w', kept[0]), calls, req, tgt)
  {
    hide Act, WorldsAlike;
    match a {
      case Enter(m) => EnterStaysAlike(u, w, w', m, calls, req, tgt);
      case Steps(i, clock) =>
        if calls(i) {
          KeptStepStaysAlike(u, w, w', i, clock, calls, req, tgt);
        } else {
          DroppedStepStaysAlike(u, w, w', i, clock, calls, req, tgt);
        }
      case Other(e) => EventStaysAlike(u, w, w', e, calls, req, tgt);
    }
  }

  /** Playing what is kept, one action further. */
  lemma WithoutLast(u: Setup, trace: seq<Action>, calls: nat -> bool, events: nat -> bool)
    requires trace != []
    ensures var init := trace[..|trace| - 1];
            var short := Without(init, calls, events);
            var kept := Kept(trace[|trace| - 1], |Play(u, init).calls|, |init|, calls, events);
            |kept| <= 1 &&
            Play(u, Without(trace, calls, events)) ==
            if kept == [] then Play(u, short) else Act(u, Play(u, short), kept[0])
  {
    hide Act, Play;
    var init := trace[..|trace| - 1];
    var short := Without(init, calls, events);
    EntriesAreCalls(u, init);
    var kept := Kept(trace[|trace| - 1], Entries(init), |init|, calls, events);
    assert Without(trace, calls, events) == short + kept;
    if kept == [] {
      assert short + kept == short;
    } else {
      assert kept == [kept[0]];
      PlaySnoc(u, short, kept[0]);
    }
  }

  lemma {:induction false} TracesStayAlike(u: Setup, trace: seq<Action>, calls: nat -> bool, events: nat -> bool,
                                           req: Bytes, tgt: Bytes)
    requires WellFiled(u.c, u.dir) && KeepsWhatBears(u, trace, calls, events, req, tgt)
    ensures WorldsAlike(u, Play(u, trace), Play(u, Without(trace, calls, events)), calls, req, tgt)
    decreases |trace|
  {
    if trace != [] {
      hide Act, WorldsAlike, Kept, Without, PairIsKept, BearsOn;
      var init, a := trace[..|trace| - 1], trace[|trace| - 1];
      KeptBefore(u, trace, calls, events, req, tgt);
      TracesStayAlike(u, init, calls, events, req, tgt);
      WorldWellFiled(u, init);
      WithoutLast(u, trace, calls, events);
      ActStaysAlike(u, Play(u, init), Play(u, Without(init, calls, events)), a, |init|, calls, events, req, tgt);
    }
  }

  /** Take out of any interleaving any calls but the requester's about the target, with all their steps, and any
      beacons and revocations but the target's: every call of the requester about the target is at the same step
      as before, charged at the same reading, with the same reply. */
  lemma ThreadedNonInterference(u: Setup, trace: seq<Action>, calls: nat -> bool, events: nat -> bool,
                                req: Bytes, tgt: Bytes)
    requires WellFiled(u.c, u.dir) && KeepsWhatBears(u, trace, calls, events, req, tgt)
    ensures var all, rest := Play(u, trace).calls, Play(u, Without(trace, calls, events)).calls;
            && |rest| == Rank(calls, |all|)
            && forall i :: 0 <= i < |all| && AskedPair(u.c, all[i].m) == Some((req, tgt)) ==>
                 Rank(calls, i) < |rest| && rest[Rank(calls, i)] == all[i]
  {
    TracesStayAlike(u, trace, calls, events, req, tgt);
  }
}
