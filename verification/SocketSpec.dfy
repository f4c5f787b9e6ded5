/**
 A socket with its transmission buffers as a value, one function per event:
 user calls (Connect, Close, Send) and what the engine thread drives
 (RealConnect, RealRead, RealWrite, RealDisconnect). Results of system calls
 and answers of the handler are part of the event.
 */
module SocketSpec {
  import opened Bytes
  import opened BufferSpec

  datatype Status = Init | StartConnect | Connecting | Connected | Disconnected

  /** Bytes asked of the kernel per read. */
  const RECV_CACHE: nat := 16384

  /** One `read`: some bytes (none means the peer is gone), nothing yet, or an error. */
  datatype ReadResult = Got(data: seq<byte>) | WouldBlock | ReadError

  /** What a handler callback does: any number of sends, perhaps a close; their order makes no difference. */
  datatype Effect = Effect(sends: seq<seq<byte>>, close: bool)

  /** What a handler does with offered data: take a prefix, and whatever a callback may do. */
  datatype Reply = Reply(taken: int, effect: Effect)

  /** Calls the socket makes on its subclass and handler. */
  datatype Hook =
    | OnConnect
    | OnRead(data: seq<byte>, finish: bool)
    | OnData(offered: seq<byte>)
    | OnWrite
    | OnDisconnect

  /** `deadline` is the connect timeout, if one is set; `closed` lists the descriptors given back. */
  datatype Conn = Conn(status: Status, deadline: Option<nat>, fd: int, closed: seq<int>,
                       sendQ: seq<byte>, readQ: seq<byte>, hooks: seq<Hook>)

  const FRESH: Conn := Conn(Init, None, 0, [], [], [], [])

  // ---------------------------------------------------------------- user calls

  /** A valid address sets the deadline in any status, and starts a connection in the initial one. */
  function Connect(c: Conn, ipValid: bool, timeout: nat, now: nat): Conn {
    if !ipValid then c
    else
      c.(deadline := if timeout > 0 then Some(now + timeout) else None,
         status := if c.status == Init then StartConnect else c.status)
  }

  function Close(c: Conn): Conn {
    c.(status := Disconnected)
  }

  function Send(c: Conn, data: seq<byte>): Conn {
    c.(sendQ := c.sendQ + Accepted(data))
  }

  /** The bytes several sends really queue. */
  function AcceptedAll(sends: seq<seq<byte>>): seq<byte> {
    if sends == [] then [] else AcceptedAll(sends[..|sends| - 1]) + Accepted(sends[|sends| - 1])
  }

  /** What some of the sends queue is part of what all of them do. */
  lemma {:induction false} SendsGrow(sends: seq<seq<byte>>, k: nat)
    requires k <= |sends|
    ensures AcceptedAll(sends[..k]) <= AcceptedAll(sends)
    decreases |sends|
  {
    if k < |sends| {
      SendsGrow(sends[..|sends| - 1], k);
      assert sends[..|sends| - 1][..k] == sends[..k];
    } else {
      assert sends[..k] == sends;
    }
  }

  function Perform(c: Conn, e: Effect): Conn {
    c.(sendQ := c.sendQ + AcceptedAll(e.sends), status := if e.close then Disconnected else c.status)
  }

  function Call(c: Conn, h: Hook): Conn {
    c.(hooks := c.hooks + [h])
  }

  // ---------------------------------------------------------------- engine calls

  /** The status guard of RealConnect has no return, so every status goes on to connect. */
  function RealConnect(c: Conn, fd: int, nonBlocking: bool, connecting: bool): Conn {
    c.(fd := fd, status := if fd >= 0 && nonBlocking && connecting then Connecting else Disconnected)
  }

  /** OnData is called with the whole read buffer, and what the handler takes leaves it. */
  function Taken(c: Conn, onData: seq<byte> -> Reply): Conn {
    Call(c, OnData(c.readQ)).(readQ := c.readQ[PopCount(c.readQ, onData(c.readQ).taken)..])
  }

  function Offer(c: Conn, onData: seq<byte> -> Reply): Conn {
    Perform(Taken(c, onData), onData(c.readQ).effect)
  }

  /** One chunk handed to OnRead; the last chunk of a read offers the whole read buffer. */
  function Chunk(c: Conn, data: seq<byte>, finish: bool, onData: seq<byte> -> Reply): Conn {
    var stored := Call(c, OnRead(data, finish)).(readQ := c.readQ + Accepted(data));
    if finish then Offer(stored, onData) else stored
  }

  predicate Usable(data: seq<byte>) {
    0 < |data| <= RECV_CACHE
  }

  /** Read until a short chunk, an error, or nothing to read; a script that ends would block. */
  function ReadLoop(c: Conn, script: seq<ReadResult>, onData: seq<byte> -> Reply): Conn
    decreases |script|
  {
    if script == [] || script[0] == WouldBlock then c
    else if script[0] == ReadError || !Usable(script[0].data) then Close(c)
    else if |script[0].data| < RECV_CACHE then Chunk(c, script[0].data, true, onData)
    else ReadLoop(Chunk(c, script[0].data, false, onData), script[1..], onData)
  }

  predicate Idle(s: Status) {
    s == Init || s == StartConnect || s == Disconnected
  }

  function RealRead(c: Conn, script: seq<ReadResult>, onData: seq<byte> -> Reply): Conn {
    if Idle(c.status) then Close(c)
    else if c.status == Connecting then c
    else ReadLoop(c, script, onData)
  }

  /** Bytes a `write` of the whole send buffer takes away when it returns `written`. */
  function WriteCount(queue: seq<byte>, written: int): (n: nat)
    ensures n <= |queue|
  {
    PopCount(queue, if written <= 0 then -1 else written)
  }

  function WriteOut(c: Conn, written: int, onWrite: Effect): Conn {
    var called := Call(c, OnWrite);
    if c.sendQ == [] then Perform(called, onWrite)
    else if WriteCount(c.sendQ, written) == 0 then Close(called)
    else called.(sendQ := c.sendQ[WriteCount(c.sendQ, written)..])
  }

  /** The connection attempt has finished and its outcome is known good. */
  function Established(c: Conn, onConnect: Effect): Conn {
    Perform(Call(c.(status := Connected), OnConnect), onConnect)
  }

  function RealWrite(c: Conn, finished: int, written: int, onConnect: Effect, onWrite: Effect): Conn {
    if Idle(c.status) then Close(c)
    else if c.status == Connecting && finished < 0 then Close(c)
    else if c.status == Connecting && finished == 0 then c
    else if c.status == Connecting then WriteOut(Established(c, onConnect), written, onWrite)
    else WriteOut(c, written, onWrite)
  }

  /** The handler is told, then a descriptor is closed; 0 stands for none. */
  function RealDisconnect(c: Conn): Conn {
    c.(hooks := c.hooks + [OnDisconnect], closed := if c.fd != 0 then c.closed + [c.fd] else c.closed)
  }

  // ---------------------------------------------------------------- events

  datatype Event =
    | EConnect(ipValid: bool, timeout: nat, now: nat)
    | EClose
    | ESend(data: seq<byte>)
    | ERealConnect(fd: int, nonBlocking: bool, connecting: bool)
    | ERealRead(script: seq<ReadResult>, onData: seq<byte> -> Reply)
    | ERealWrite(finished: int, written: int, onConnect: Effect, onWrite: Effect)
    | ERealDisconnect

  function Step(c: Conn, e: Event): Conn {
    match e
    case EConnect(ipValid, timeout, now) => Connect(c, ipValid, timeout, now)
    case EClose => Close(c)
    case ESend(data) => Send(c, data)
    case ERealConnect(fd, nonBlocking, connecting) => RealConnect(c, fd, nonBlocking, connecting)
    case ERealRead(script, onData) => RealRead(c, script, onData)
    case ERealWrite(finished, written, onConnect, onWrite) => RealWrite(c, finished, written, onConnect, onWrite)
    case ERealDisconnect => RealDisconnect(c)
  }

  // ---------------------------------------------------------------- what the kernel hands over

  /** The bytes a read loop stores, chunk after chunk. */
  function Stored(script: seq<ReadResult>): seq<byte> {
    if script == [] || !script[0].Got? || !Usable(script[0].data) then []
    else if |script[0].data| < RECV_CACHE then script[0].data
    else script[0].data + Stored(script[1..])
  }

  /** The buffers stay below the size a reallocation can compute, whatever the handler sends. */
  predicate Room(c: Conn, script: seq<ReadResult>, onData: seq<byte> -> Reply) {
    && |c.readQ| + |Stored(script)| < INT_SHIFT_LIMIT
    && |c.sendQ| + |AcceptedAll(onData(c.readQ + Stored(script)).effect.sends)| < INT_SHIFT_LIMIT
  }

  /** One turn of the read loop that stores a chunk; what follows still has room. */
  lemma ReadLoopChunk(c: Conn, script: seq<ReadResult>, onData: seq<byte> -> Reply)
    requires Room(c, script, onData) && script != [] && script[0].Got? && Usable(script[0].data)
    ensures var data := script[0].data; var finish := |data| < RECV_CACHE;
      var after := Chunk(c, data, finish, onData);
      && |c.readQ| + |data| < INT_SHIFT_LIMIT && !Rejected(data)
      && ReadLoop(c, script, onData) == (if finish then after else ReadLoop(after, script[1..], onData))
      && (finish ==> |c.sendQ| + |AcceptedAll(onData(c.readQ + data).effect.sends)| < INT_SHIFT_LIMIT)
      && (!finish ==> Room(after, script[1..], onData))
  {
    var data := script[0].data;
    if |data| == RECV_CACHE {
      assert c.readQ + (data + Stored(script[1..])) == (c.readQ + data) + Stored(script[1..]);
    }
  }

  /** The loop ends on a short chunk, so the handler is called. */
  predicate EndsShort(script: seq<ReadResult>) {
    script != [] && script[0].Got? && Usable(script[0].data)
    && (|script[0].data| < RECV_CACHE || EndsShort(script[1..]))
  }

  /** A socket whose peer has `available` bytes queued: full chunks, then what is left. */
  function Greedy(available: seq<byte>): seq<ReadResult>
    decreases |available|
  {
    if available == [] then [WouldBlock]
    else if |available| < RECV_CACHE then [Got(available)]
    else [Got(available[..RECV_CACHE])] + Greedy(available[RECV_CACHE..])
  }

  /** What the handler's OnData was offered, call by call. */
  function Offers(hooks: seq<Hook>): seq<seq<byte>> {
    if hooks == [] then []
    else
      var front, last := hooks[..|hooks| - 1], hooks[|hooks| - 1];
      if last.OnData? then Offers(front) + [last.offered] else Offers(front)
  }

  lemma OffersCall(c: Conn, h: Hook)
    ensures Offers(Call(c, h).hooks) == if h.OnData? then Offers(c.hooks) + [h.offered] else Offers(c.hooks)
  {
    assert (c.hooks + [h])[..|c.hooks|] == c.hooks;
  }

  /** `after` has stored `data` and, when told to, offered the whole read buffer once. */
  ghost predicate ReadInto(c: Conn, after: Conn, data: seq<byte>, offers: bool, onData: seq<byte> -> Reply) {
    var queue := c.readQ + data;
    && after.fd == c.fd && after.closed == c.closed && after.deadline == c.deadline
    && after.sendQ == c.sendQ + (if offers then AcceptedAll(onData(queue).effect.sends) else [])
    && after.readQ == (if offers then queue[PopCount(queue, onData(queue).taken)..] else queue)
    && Offers(after.hooks) == Offers(c.hooks) + (if offers then [queue] else [])
    && (after.status == c.status || after.status == Disconnected)
    && (offers && onData(queue).effect.close ==> after.status == Disconnected)
  }

  lemma ChunkEffect(c: Conn, data: seq<byte>, finish: bool, onData: seq<byte> -> Reply)
    requires |data| <= RECV_CACHE
    ensures ReadInto(c, Chunk(c, data, finish, onData), data, finish, onData)
  {
    OffersCall(c, OnRead(data, finish));
    var stored := Call(c, OnRead(data, finish)).(readQ := c.readQ + Accepted(data));
    OffersCall(stored, OnData(stored.readQ));
  }

  lemma ReadIntoThen(c: Conn, mid: Conn, after: Conn, d: seq<byte>, more: seq<byte>, offers: bool,
                     onData: seq<byte> -> Reply)
    requires ReadInto(c, mid, d, false, onData) && ReadInto(mid, after, more, offers, onData)
    ensures ReadInto(c, after, d + more, offers, onData)
  {
    assert (c.readQ + d) + more == c.readQ + (d + more);
    assert mid.sendQ == c.sendQ && Offers(mid.hooks) == Offers(c.hooks);
  }

  /**
   A whole read loop stores every usable chunk, and offers the read buffer to
   the handler, once, exactly when it ends on a short chunk.
   */
  lemma {:induction false} ReadLoopEffect(c: Conn, script: seq<ReadResult>, onData: seq<byte> -> Reply)
    ensures ReadInto(c, ReadLoop(c, script, onData), Stored(script), EndsShort(script), onData)
    decreases |script|
  {
    if script != [] && script[0].Got? && Usable(script[0].data) {
      var d, rest := script[0].data, script[1..];
      ChunkEffect(c, d, |d| < RECV_CACHE, onData);
      if |d| == RECV_CACHE {
        var mid := Chunk(c, d, false, onData);
        ReadLoopEffect(mid, rest, onData);
        ReadIntoThen(c, mid, ReadLoop(mid, rest, onData), d, Stored(rest), EndsShort(rest), onData);
      }
    } else {
      assert c.readQ + [] == c.readQ;
    }
  }

  lemma {:induction false} GreedyReads(available: seq<byte>)
    ensures Stored(Greedy(available)) == available
    ensures EndsShort(Greedy(available)) <==> |available| % RECV_CACHE != 0
    decreases |available|
  {
    if |available| >= RECV_CACHE {
      var rest := available[RECV_CACHE..];
      GreedyReads(rest);
      assert Greedy(available)[1..] == Greedy(rest);
      assert available[..RECV_CACHE] + rest == available;
      assert |available| % RECV_CACHE == |rest| % RECV_CACHE;
    }
  }

  /**
   Reading everything a connected peer has queued offers the whole read buffer
   to the handler exactly when the amount is not a multiple of the chunk size;
   otherwise the bytes are only stored.
   */
  lemma GreedyReadOffers(c: Conn, available: seq<byte>, onData: seq<byte> -> Reply)
    requires c.status == Connected
    ensures var after, queue := RealRead(c, Greedy(available), onData), c.readQ + available;
      && (Offers(after.hooks) == Offers(c.hooks) + [queue] <==> |available| % 16384 != 0)
      && (|available| % 16384 == 0 ==> after.readQ == queue && Offers(after.hooks) == Offers(c.hooks))
  {
    GreedyReads(available);
    ReadLoopEffect(c, Greedy(available), onData);
  }
}
