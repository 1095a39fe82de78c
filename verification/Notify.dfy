/** node/ble/base.py outbound half, over node/ble/corebluetooth.py's ordered notification queue. */
module Notify {
  import opened Wire
  import opened Framing

  const BLE_NOTIFY_CHUNK := 180

  /** `ready`: the TX characteristic exists. `accepted`: what the platform queue has taken, in order.
      `asked`: how many times the platform was offered a chunk. */
  datatype State = State(ready: bool, pending: seq<Bytes>, accepted: seq<Bytes>, asked: nat)

  /** The platform's answer to each offer, in order of asking: any accept/refuse schedule. */
  type Schedule = nat -> bool

  const BOOT := State(false, [], [], 0)

  function Offer(answer: Schedule, s: State, data: Bytes): State {
    s.(asked := s.asked + 1, accepted := if answer(s.asked) then s.accepted + [data] else s.accepted)
  }

  function NotifyChunk(answer: Schedule, s: State, data: Bytes): State {
    if !s.ready then s
    else if s.pending != [] then s.(pending := s.pending + [data])
    else if answer(s.asked) then Offer(answer, s, data)
    else Offer(answer, s, data).(pending := [data])
  }

  function NotifyAll(answer: Schedule, s: State, pieces: seq<Bytes>): State {
    if pieces == [] then s
    else NotifyChunk(answer, NotifyAll(answer, s, pieces[..|pieces| - 1]), pieces[|pieces| - 1])
  }

  function Flush(answer: Schedule, s: State): State
    decreases |s.pending|
  {
    if s.pending == [] then s
    else if !answer(s.asked) then Offer(answer, s, s.pending[0])
    else Flush(answer, Offer(answer, s, s.pending[0]).(pending := s.pending[1..]))
  }

  function Pieces(packet: Bytes): seq<Bytes> {
    match Frame(packet)
    case None => []
    case Some(f) => Chunk(f, BLE_NOTIFY_CHUNK)
  }

  class CoreBluetoothGattServer {
    const answer: Schedule
    var ready: bool
    var pending: seq<Bytes>
    var accepted: seq<Bytes>
    var asked: nat

    ghost function Now(): State
      reads this
    {
      State(ready, pending, accepted, asked)
    }

    constructor (schedule: Schedule)
      ensures Now() == BOOT && answer == schedule
    {
      answer, ready, pending, accepted, asked := schedule, false, [], [], 0;
    }

    method RegisterService()
      modifies this
      ensures Now() == old(Now()).(ready := true)
    {
      ready := true;
    }

    /** `updateValue_forCharacteristic_onSubscribedCentrals_`. */
    method UpdateValue(data: Bytes) returns (sent: bool)
      modifies this
      ensures sent == answer(old(asked)) && Now() == Offer(answer, old(Now()), data)
    {
      sent := answer(asked);
      asked := asked + 1;
      if sent {
        accepted := accepted + [data];
      }
    }

    method NotifyOne(data: Bytes)
      modifies this
      ensures Now() == NotifyChunk(answer, old(Now()), data)
    {
      if !ready {
        return;
      }
      if pending != [] {
        pending := pending + [data];
        return;
      }
      var sent := UpdateValue(data);
      if !sent {
        pending := pending + [data];
      }
    }

    method FlushPending()
      modifies this
      ensures Now() == Flush(answer, old(Now()))
    {
      while pending != []
        invariant Flush(answer, Now()) == Flush(answer, old(Now()))
        decreases |pending|
      {
        var sent := UpdateValue(pending[0]);
        if !sent {
          return;
        }
        pending := pending[1..];
      }
    }

    /** Raises (here: returns false) only when the length does not fit its two bytes. */
    method SendPacket(packet: Bytes) returns (ok: bool)
      modifies this
      ensures ok <==> |packet| < 0x10000
      ensures Now() == NotifyAll(answer, old(Now()), Pieces(packet))
    {
      var framed := Frame(packet);
      if framed.None? {
        return false;
      }
      var pieces := Chunk(framed.value, BLE_NOTIFY_CHUNK);
      for i := 0 to |pieces|
        invariant Now() == NotifyAll(answer, old(Now()), pieces[..i])
      {
        NotifyOne(pieces[i]);
        assert pieces[..i + 1][..i] == pieces[..i];
      }
      assert pieces[..|pieces|] == pieces;
      ok := true;
    }
  }

  // --------------------------------------------------------------- whole runs

  datatype Event = Register | Send(packet: Bytes) | ReadyAgain

  function Step(answer: Schedule, s: State, e: Event): State {
    match e
    case Register => s.(ready := true)
    case Send(packet) => NotifyAll(answer, s, Pieces(packet))
    case ReadyAgain => Flush(answer, s)
  }

  function Run(answer: Schedule, es: seq<Event>): State {
    if es == [] then BOOT else Step(answer, Run(answer, es[..|es| - 1]), es[|es| - 1])
  }

  /** The packets handed over once the characteristic existed. */
  function Sent(es: seq<Event>): seq<Bytes> {
    if es == [] then []
    else
      var init := es[..|es| - 1];
      Sent(init) + if es[|es| - 1].Send? && Register in init then [es[|es| - 1].packet] else []
  }

  function AllPieces(packets: seq<Bytes>): seq<Bytes> {
    if packets == [] then [] else AllPieces(packets[..|packets| - 1]) + Pieces(packets[|packets| - 1])
  }

  /** What was accepted, then what is waiting: every chunk ever submitted, once, in order. */
  function Line(s: State): seq<Bytes> {
    s.accepted + s.pending
  }

  lemma {:induction false} NotifyKeepsLine(answer: Schedule, s: State, pieces: seq<Bytes>)
    ensures Line(NotifyAll(answer, s, pieces)) == if s.ready then Line(s) + pieces else Line(s)
    ensures NotifyAll(answer, s, pieces).ready == s.ready
    ensures !s.ready ==> NotifyAll(answer, s, pieces) == s
    decreases |pieces|
  {
    if pieces == [] {
      assert Line(s) + pieces == Line(s);
    } else {
      var init, last := pieces[..|pieces| - 1], pieces[|pieces| - 1];
      NotifyKeepsLine(answer, s, init);
      assert pieces == init + [last];
      var before := NotifyAll(answer, s, init);
      if s.ready {
        assert Line(NotifyChunk(answer, before, last)) == Line(before) + [last];
        assert Line(s) + pieces == (Line(s) + init) + [last];
      }
    }
  }

  /** Flushing moves chunks across, loses none, and stops only when the queue is empty or was just refused. */
  lemma {:induction false} FlushKeepsLine(answer: Schedule, s: State)
    ensures Line(Flush(answer, s)) == Line(s)
    ensures Flush(answer, s).ready == s.ready
    ensures s.accepted <= Flush(answer, s).accepted
    ensures Flush(answer, s).asked >= s.asked
    ensures Flush(answer, s).pending == [] ||
            (Flush(answer, s).asked > s.asked && !answer(Flush(answer, s).asked - 1))
    decreases |s.pending|
  {
    if s.pending != [] && answer(s.asked) {
      var s' := Offer(answer, s, s.pending[0]).(pending := s.pending[1..]);
      FlushKeepsLine(answer, s');
      assert Line(s') == Line(s) by {
        assert s.pending == [s.pending[0]] + s.pending[1..];
      }
    } else if s.pending != [] {
      assert Line(Offer(answer, s, s.pending[0])) == Line(s);
    }
  }

  lemma AllPiecesSnoc(ps: seq<Bytes>, p: Bytes)
    ensures AllPieces(ps + [p]) == AllPieces(ps) + Pieces(p)
  {
    assert (ps + [p])[..|ps|] == ps;
  }

  /** For every schedule: accepted ++ pending is exactly the chunks of the packets sent. */
  lemma {:induction false} ChunksConserved(answer: Schedule, es: seq<Event>)
    ensures Line(Run(answer, es)) == AllPieces(Sent(es))
    ensures Run(answer, es).ready <==> Register in es
    decreases |es|
  {
    if es != [] {
      var init, e := es[..|es| - 1], es[|es| - 1];
      assert es == init + [e];
      ChunksConserved(answer, init);
      var s := Run(answer, init);
      assert Sent(init) + [] == Sent(init);
      match e {
        case Register =>
        case Send(packet) =>
          NotifyKeepsLine(answer, s, Pieces(packet));
          AllPiecesSnoc(Sent(init), packet);
        case ReadyAgain => FlushKeepsLine(answer, s);
      }
    }
  }

  lemma FrameAllSnoc(ps: seq<Bytes>, p: Bytes)
    requires Fits(ps) && |p| <= MAX_FRAME
    ensures Fits(ps + [p]) && FrameAll(ps + [p]) == FrameAll(ps) + Framed(p)
    decreases |ps|
  {
    if ps == [] {
      assert [p][1..] == [] && ps + [p] == [p];
      assert FrameAll([p]) == Framed(p) + FrameAll([p][1..]);
    } else {
      assert (ps + [p])[1..] == ps[1..] + [p];
      FrameAllSnoc(ps[1..], p);
    }
  }

  lemma {:induction false} PiecesJoin(ps: seq<Bytes>)
    requires Fits(ps)
    ensures Flatten(AllPieces(ps)) == FrameAll(ps)
    decreases |ps|
  {
    if ps != [] {
      var init, last := ps[..|ps| - 1], ps[|ps| - 1];
      assert ps == init + [last];
      PiecesJoin(init);
      ChunkJoins(Framed(last), BLE_NOTIFY_CHUNK);
      FlattenAppend(AllPieces(init), Pieces(last));
      FrameAllSnoc(init, last);
    }
  }

  /** Whatever the schedule and however the accepted bytes are cut up again in transit, the phone reassembles
      a prefix of the packets sent, and all of them once nothing is pending. */
  lemma EndToEndDelivery(answer: Schedule, es: seq<Event>, feeds: seq<Bytes>)
    requires Fits(Sent(es))
    requires Flatten(feeds) == Flatten(Run(answer, es).accepted)
    ensures FeedAll([], feeds).packets <= Sent(es)
    ensures Run(answer, es).pending == [] ==> FeedAll([], feeds) == Fed(Sent(es), [])
  {
    var s, packets := Run(answer, es), Sent(es);
    var whole, arrived := FrameAll(packets), Flatten(feeds);
    ChunksConserved(answer, es);
    PiecesJoin(packets);
    FlattenAppend(s.accepted, s.pending);
    assert whole == arrived + Flatten(s.pending);
    assert whole + [] == whole;
    DecodeUnique(whole, packets, []);
    if Decode(arrived).corrupt {
      CorruptStaysCorrupt(arrived, Flatten(s.pending));
      assert false;
    }
    DecodeResumes(arrived, Flatten(s.pending));
    assert [] + arrived == arrived;
    FeedsRefineDecode([], feeds);
    if s.pending == [] {
      assert arrived == whole;
    }
  }

  // ------------------------------------------------------------ what waits, and why

  /** Chunks wait only behind a refusal that no acceptance has followed. */
  predicate WaitsForReason(answer: Schedule, s: State) {
    s.pending != [] ==> s.asked > 0 && !answer(s.asked - 1)
  }

  /** How many of the first `n` offers were taken. */
  function Taken(answer: Schedule, n: nat): nat {
    if n == 0 then 0 else Taken(answer, n - 1) + if answer(n - 1) then 1 else 0
  }

  predicate InStep(answer: Schedule, s: State) {
    WaitsForReason(answer, s) && |s.accepted| == Taken(answer, s.asked)
  }

  lemma {:induction false} NotifyInStep(answer: Schedule, s: State, pieces: seq<Bytes>)
    requires InStep(answer, s)
    ensures InStep(answer, NotifyAll(answer, s, pieces))
    decreases |pieces|
  {
    if pieces != [] {
      NotifyInStep(answer, s, pieces[..|pieces| - 1]);
    }
  }

  lemma {:induction false} FlushInStep(answer: Schedule, s: State)
    requires InStep(answer, s)
    ensures InStep(answer, Flush(answer, s))
    decreases |s.pending|
  {
    if s.pending != [] && answer(s.asked) {
      var s' := Offer(answer, s, s.pending[0]).(pending := s.pending[1..]);
      FlushAnyway(answer, s');
    }
  }

  /** Flushing in the middle of the loop, when the last offer was taken. */
  lemma {:induction false} FlushAnyway(answer: Schedule, s: State)
    requires |s.accepted| == Taken(answer, s.asked)
    ensures InStep(answer, Flush(answer, s))
    decreases |s.pending|
  {
    if s.pending != [] && answer(s.asked) {
      FlushAnyway(answer, Offer(answer, s, s.pending[0]).(pending := s.pending[1..]));
    }
  }

  /** At every moment of every run: exactly the offers the platform took are accepted, and nothing waits unless the
      last offer was refused, so that a ready event is owed. */
  lemma {:induction false} WaitingIsOwed(answer: Schedule, es: seq<Event>)
    ensures InStep(answer, Run(answer, es))
    decreases |es|
  {
    if es != [] {
      var init, e := es[..|es| - 1], es[|es| - 1];
      WaitingIsOwed(answer, init);
      match e {
        case Register =>
        case Send(packet) => NotifyInStep(answer, Run(answer, init), Pieces(packet));
        case ReadyAgain => FlushInStep(answer, Run(answer, init));
      }
    }
  }

  /** On a platform that takes everything nothing ever waits: every chunk of every packet is out at once. */
  lemma WillingPlatformTakesAll(answer: Schedule, es: seq<Event>)
    requires forall i: nat :: answer(i)
    ensures Run(answer, es).pending == [] && Run(answer, es).accepted == AllPieces(Sent(es))
  {
    var s := Run(answer, es);
    WaitingIsOwed(answer, es);
    ChunksConserved(answer, es);
    assert s.asked > 0 ==> answer(s.asked - 1);
    assert s.accepted + [] == s.accepted;
  }

  /** A ready event after which the platform takes everything clears the queue. */
  lemma ReadyAgainClears(answer: Schedule, es: seq<Event>)
    requires forall i: nat :: i >= Run(answer, es).asked ==> answer(i)
    ensures Run(answer, es + [ReadyAgain]).pending == []
    ensures Run(answer, es + [ReadyAgain]).accepted == AllPieces(Sent(es))
  {
    var s := Run(answer, es);
    var s' := Flush(answer, s);
    assert (es + [ReadyAgain])[..|es|] == es;
    FlushKeepsLine(answer, s);
    ChunksConserved(answer, es);
    assert s'.asked > s.asked ==> answer(s'.asked - 1);
    assert s'.accepted + [] == s'.accepted;
  }

  /** A packet whose length fits two bytes is cut into full notifications, the last one excepted; any other is not
      sent at all. */
  lemma PiecesFitNotifications(packet: Bytes)
    ensures |packet| >= 0x10000 ==> Pieces(packet) == []
    ensures |packet| < 0x10000 ==>
              && Flatten(Pieces(packet)) == [|packet| / 256, |packet| % 256] + packet
              && (forall i :: 0 <= i < |Pieces(packet)| ==> 0 < |Pieces(packet)[i]| <= 180)
              && forall i :: 0 <= i < |Pieces(packet)| - 1 ==> |Pieces(packet)[i]| == 180
  {
    if |packet| < 0x10000 {
      ChunkJoins(Frame(packet).value, BLE_NOTIFY_CHUNK);
    }
  }
}
