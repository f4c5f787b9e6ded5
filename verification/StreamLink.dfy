/**
 Two endpoints joined by a reliable FIFO: what the sending side accepts is what
 the receiving handler consumes, in order, with the rest somewhere in between.
 */
module StreamLink {
  import opened Bytes
  import opened BufferSpec
  import opened SocketSpec

  // ---------------------------------------------------------------- one endpoint, one event

  /** The connection as WriteOut finds it, when a RealWrite gets that far. */
  function AtWriteOut(c: Conn, finished: int, onConnect: Effect): Option<Conn> {
    if Idle(c.status) || (c.status == Connecting && finished <= 0) then None
    else if c.status == Connecting then Some(Established(c, onConnect))
    else Some(c)
  }

  /** Bytes accepted for sending during the event: by Send, or by a handler callback. */
  function AcceptedBy(c: Conn, e: Event): seq<byte> {
    match e
    case ESend(data) => Accepted(data)
    case ERealWrite(finished, written, onConnect, onWrite) =>
      var at := AtWriteOut(c, finished, onConnect);
      (if at.Some? && c.status == Connecting then AcceptedAll(onConnect.sends) else [])
      + (if at.Some? && at.value.sendQ == [] then AcceptedAll(onWrite.sends) else [])
    case ERealRead(script, onData) =>
      if c.status == Connected && EndsShort(script)
      then AcceptedAll(onData(c.readQ + Stored(script)).effect.sends)
      else []
    case _ => []
  }

  /** Bytes the kernel took off the send buffer. */
  function WrittenBy(c: Conn, e: Event): seq<byte> {
    match e
    case ERealWrite(finished, written, onConnect, onWrite) =>
      var at := AtWriteOut(c, finished, onConnect);
      if at.None? then [] else at.value.sendQ[..WriteCount(at.value.sendQ, written)]
    case _ => []
  }

  /** Bytes the kernel handed over. */
  function ReceivedBy(c: Conn, e: Event): seq<byte> {
    if e.ERealRead? && c.status == Connected then Stored(e.script) else []
  }

  /** What OnData is offered during the event. */
  function OfferedBy(c: Conn, e: Event): Option<seq<byte>> {
    if e.ERealRead? && c.status == Connected && EndsShort(e.script)
    then Some(c.readQ + Stored(e.script))
    else None
  }

  /** What the handler took of it. */
  function ConsumedBy(c: Conn, e: Event): seq<byte> {
    match OfferedBy(c, e)
    case None => []
    case Some(queue) => if e.ERealRead? then queue[..PopCount(queue, e.onData(queue).taken)] else []
  }

  lemma WriteSide(c: Conn, finished: int, written: int, onConnect: Effect, onWrite: Effect)
    ensures var e := ERealWrite(finished, written, onConnect, onWrite);
      WrittenBy(c, e) + RealWrite(c, finished, written, onConnect, onWrite).sendQ == c.sendQ + AcceptedBy(c, e)
  {
    var at := AtWriteOut(c, finished, onConnect);
    if at.Some? {
      WriteOutSide(at.value, written, onWrite);
    }
  }

  lemma WriteOutSide(c: Conn, written: int, onWrite: Effect)
    ensures c.sendQ[..WriteCount(c.sendQ, written)] + WriteOut(c, written, onWrite).sendQ
         == c.sendQ + (if c.sendQ == [] then AcceptedAll(onWrite.sends) else [])
  {
  }

  lemma SendSide(c: Conn, e: Event)
    ensures WrittenBy(c, e) + Step(c, e).sendQ == c.sendQ + AcceptedBy(c, e)
  {
    match e {
      case ERealRead(script, onData) => ReadLoopEffect(c, script, onData);
      case ERealWrite(finished, written, onConnect, onWrite) => WriteSide(c, finished, written, onConnect, onWrite);
      case _ =>
    }
  }

  lemma ReceiveSide(c: Conn, e: Event)
    ensures ConsumedBy(c, e) + Step(c, e).readQ == c.readQ + ReceivedBy(c, e)
  {
    if e.ERealRead? {
      ReadLoopEffect(c, e.script, e.onData);
    }
  }

  lemma WriteOffersNothing(c: Conn, finished: int, written: int, onConnect: Effect, onWrite: Effect)
    ensures Offers(RealWrite(c, finished, written, onConnect, onWrite).hooks) == Offers(c.hooks)
  {
    var at := AtWriteOut(c, finished, onConnect);
    OffersCall(c, OnConnect);
    if at.Some? {
      assert at.value.hooks == c.hooks || at.value.hooks == Call(c, OnConnect).hooks;
      OffersCall(at.value, OnWrite);
      assert RealWrite(c, finished, written, onConnect, onWrite).hooks == Call(at.value, OnWrite).hooks;
    }
  }

  lemma ReadOffers(c: Conn, script: seq<ReadResult>, onData: seq<byte> -> Reply, after: Conn)
    requires after == ReadLoop(c, script, onData)
    ensures if EndsShort(script) then Offers(after.hooks) == Offers(c.hooks) + [c.readQ + Stored(script)]
            else Offers(after.hooks) == Offers(c.hooks)
  {
    ReadLoopEffect(c, script, onData);
    assert Offers(c.hooks) + [] == Offers(c.hooks);
  }

  lemma OffersMade(c: Conn, e: Event)
    ensures Offers(Step(c, e).hooks) == Offers(c.hooks) +
      match OfferedBy(c, e) { case None => [] case Some(queue) => [queue] }
  {
    match e {
      case ERealRead(script, onData) =>
        if c.status == Connected {
          ReadOffers(c, script, onData, Step(c, e));
        }
      case ERealWrite(finished, written, onConnect, onWrite) =>
        WriteOffersNothing(c, finished, written, onConnect, onWrite);
      case ERealDisconnect =>
        OffersCall(c, OnDisconnect);
      case _ =>
    }
  }

  // ---------------------------------------------------------------- the link

  /** Endpoints `a` and `b`, the bytes in flight from `a` to `b`, and the two histories. */
  datatype Link = Link(a: Conn, wire: seq<byte>, b: Conn, accepted: seq<byte>, consumed: seq<byte>)

  datatype Move = AtA(e: Event) | AtB(e: Event)

  const START: Link := Link(FRESH, [], FRESH, [], [])

  /** A reliable FIFO: `b`'s kernel hands over bytes from the front of the wire only. */
  predicate Possible(l: Link, m: Move) {
    m.AtB? ==> ReceivedBy(l.b, m.e) <= l.wire
  }

  function Go(l: Link, m: Move): Link
    requires Possible(l, m)
  {
    match m
    case AtA(e) =>
      l.(a := Step(l.a, e), wire := l.wire + WrittenBy(l.a, e), accepted := l.accepted + AcceptedBy(l.a, e))
    case AtB(e) =>
      l.(b := Step(l.b, e), wire := l.wire[|ReceivedBy(l.b, e)|..], consumed := l.consumed + ConsumedBy(l.b, e))
  }

  predicate PossibleRun(l: Link, moves: seq<Move>)
    decreases |moves|
  {
    moves == [] || (Possible(l, moves[0]) && PossibleRun(Go(l, moves[0]), moves[1..]))
  }

  function GoAll(l: Link, moves: seq<Move>): Link
    requires PossibleRun(l, moves)
    decreases |moves|
  {
    if moves == [] then l else GoAll(Go(l, moves[0]), moves[1..])
  }

  ghost predicate Conserved(l: Link) {
    l.consumed + l.b.readQ + l.wire + l.a.sendQ == l.accepted
  }

  lemma ShiftOut(front: seq<byte>, wire: seq<byte>, queue: seq<byte>, out: seq<byte>, next: seq<byte>,
                 all: seq<byte>, into: seq<byte>)
    requires front + wire + queue == all
    requires out + next == queue + into
    ensures front + (wire + out) + next == all + into
  {
    calc {
      front + (wire + out) + next;
      (front + wire) + (out + next);
      (front + wire) + (queue + into);
      (front + wire + queue) + into;
    }
  }

  lemma ShiftIn(done: seq<byte>, buffer: seq<byte>, wire: seq<byte>, back: seq<byte>,
                taken: seq<byte>, next: seq<byte>, got: seq<byte>)
    requires got <= wire
    requires taken + next == buffer + got
    ensures (done + taken) + next + wire[|got|..] + back == done + buffer + wire + back
  {
    assert wire == got + wire[|got|..];
    calc {
      (done + taken) + next + wire[|got|..];
      done + (taken + next) + wire[|got|..];
      done + (buffer + got) + wire[|got|..];
      done + buffer + (got + wire[|got|..]);
    }
  }

  lemma MoveConserves(l: Link, m: Move)
    requires Possible(l, m) && Conserved(l)
    ensures Conserved(Go(l, m))
  {
    match m {
      case AtA(e) =>
        SendSide(l.a, e);
        ShiftOut(l.consumed + l.b.readQ, l.wire, l.a.sendQ, WrittenBy(l.a, e), Step(l.a, e).sendQ,
                 l.accepted, AcceptedBy(l.a, e));
      case AtB(e) =>
        ReceiveSide(l.b, e);
        ShiftIn(l.consumed, l.b.readQ, l.wire, l.a.sendQ, ConsumedBy(l.b, e), Step(l.b, e).readQ, ReceivedBy(l.b, e));
    }
  }

  /**
   Stream conservation: after any run, the bytes consumed, then the receiver's
   buffer, then the bytes in flight, then the sender's buffer, are the bytes
   accepted.
   */
  lemma {:induction false} RunConserves(l: Link, moves: seq<Move>)
    requires PossibleRun(l, moves) && Conserved(l)
    ensures Conserved(GoAll(l, moves))
    decreases |moves|
  {
    if moves == [] {
    } else {
      MoveConserves(l, moves[0]);
      RunConserves(Go(l, moves[0]), moves[1..]);
    }
  }

  /**
   After any run, what OnData is offered next is exactly the received but
   unconsumed stream: what lies between the consumed bytes and those still on
   the wire or unsent.
   */
  lemma OffersAreTheUnconsumedStream(moves: seq<Move>, e: Event)
    requires PossibleRun(START, moves)
    requires Possible(GoAll(START, moves), AtB(e))
    ensures var l := GoAll(START, moves); var q := OfferedBy(l.b, e);
      q.Some? ==>
        && l.consumed + q.value + l.wire[|ReceivedBy(l.b, e)|..] + l.a.sendQ == l.accepted
        && Offers(Step(l.b, e).hooks) == Offers(l.b.hooks) + [q.value]
  {
    RunConserves(START, moves);
    var l := GoAll(START, moves);
    OffersMade(l.b, e);
    OfferReachesTheWire(l.consumed, l.b.readQ, l.wire, l.a.sendQ, ReceivedBy(l.b, e));
  }

  lemma OfferReachesTheWire(done: seq<byte>, buffer: seq<byte>, wire: seq<byte>, back: seq<byte>, got: seq<byte>)
    requires got <= wire
    ensures done + (buffer + got) + wire[|got|..] + back == done + buffer + wire + back
  {
    assert wire == got + wire[|got|..];
    assert done + (buffer + got) + wire[|got|..] == done + buffer + (got + wire[|got|..]);
  }
}
