/**
 The status of a socket from outside: which events lead where, what a read or
 a write leaves behind, and what that means over runs.
 */
module SocketStatus {
  import opened Bytes
  import opened BufferSpec
  import opened SocketSpec

  // ---------------------------------------------------------------- how a read ends

  /** A `read` that fills the whole cache of 16 KiB, so there may be more. */
  predicate Full(r: ReadResult) {
    r.Got? && |r.data| == 16384
  }

  /** A `read` that empties the kernel's queue. */
  predicate Short(r: ReadResult) {
    r.Got? && 0 < |r.data| < 16384
  }

  /** An error, the end of the stream, or more than was asked for. */
  predicate Broken(r: ReadResult) {
    r == ReadError || (r.Got? && (r.data == [] || |r.data| > 16384))
  }

  /** Full reads, then one of the given kind. */
  ghost predicate ComesTo(script: seq<ReadResult>, kind: ReadResult -> bool) {
    exists k :: 0 <= k < |script| && kind(script[k]) && forall j :: 0 <= j < k ==> Full(script[j])
  }

  ghost predicate Fails(script: seq<ReadResult>) {
    ComesTo(script, Broken)
  }

  lemma ComesToNext(script: seq<ReadResult>, kind: ReadResult -> bool)
    requires script != [] && Full(script[0]) && !kind(script[0])
    ensures ComesTo(script, kind) <==> ComesTo(script[1..], kind)
  {
    if ComesTo(script, kind) {
      var k :| 0 <= k < |script| && kind(script[k]) && forall j :: 0 <= j < k ==> Full(script[j]);
      assert kind(script[1..][k - 1]) && forall j :: 0 <= j < k - 1 ==> script[1..][j] == script[j + 1];
    }
    if ComesTo(script[1..], kind) {
      var k :| 0 <= k < |script[1..]| && kind(script[1..][k]) && forall j :: 0 <= j < k ==> Full(script[1..][j]);
      assert kind(script[k + 1]) && forall j :: 0 < j < k + 1 ==> script[j] == script[1..][j - 1];
    }
  }

  lemma ComesToFirst(script: seq<ReadResult>, kind: ReadResult -> bool)
    requires script == [] || !Full(script[0])
    ensures ComesTo(script, kind) <==> script != [] && kind(script[0])
  {
  }

  /** Exactly the scripts that come to a short read end short. */
  lemma {:induction false} EndsShortMeans(script: seq<ReadResult>)
    ensures EndsShort(script) <==> ComesTo(script, Short)
    decreases |script|
  {
    if script != [] && Full(script[0]) {
      EndsShortMeans(script[1..]);
      ComesToNext(script, Short);
    } else {
      ComesToFirst(script, Short);
    }
  }

  lemma {:induction false} LoopStatus(c: Conn, script: seq<ReadResult>, onData: seq<byte> -> Reply)
    ensures var after := ReadLoop(c, script, onData);
      after.status == if Fails(script) then Disconnected
                      else if EndsShort(script) && onData(c.readQ + Stored(script)).effect.close then Disconnected
                      else c.status
    decreases |script|
  {
    if script != [] && Full(script[0]) {
      var d, rest := script[0].data, script[1..];
      var mid := Chunk(c, d, false, onData);
      LoopStatus(mid, rest, onData);
      ComesToNext(script, Broken);
      assert c.readQ + (d + Stored(rest)) == (c.readQ + d) + Stored(rest);
    } else {
      ComesToFirst(script, Broken);
    }
  }

  /** A read closes a connected socket when it comes to something broken, or the handler closes. */
  ghost predicate ReadCloses(c: Conn, script: seq<ReadResult>, onData: seq<byte> -> Reply) {
    Fails(script) || (ComesTo(script, Short) && onData(c.readQ + Stored(script)).effect.close)
  }

  /**
   RealRead closes a connected socket exactly then; it closes every socket that
   is not under way without reading, and leaves one alone that is connecting.
   */
  lemma ReadStatus(c: Conn, script: seq<ReadResult>, onData: seq<byte> -> Reply)
    ensures var after := RealRead(c, script, onData);
      && (c.status == Connected ==>
            after.status == if ReadCloses(c, script, onData) then Disconnected else Connected)
      && (c.status == Connecting ==> after == c)
      && (c.status != Connected && c.status != Connecting ==> after == c.(status := Disconnected))
  {
    LoopStatus(c, script, onData);
    EndsShortMeans(script);
  }

  /**
   The calls of a read loop: each chunk goes to OnRead, marked as the last one
   exactly when it is short, and behind the last one stands the offer.
   */
  lemma {:induction false} LoopCalls(c: Conn, script: seq<ReadResult>, onData: seq<byte> -> Reply, j: nat)
    requires j < |script| && (Full(script[j]) || Short(script[j]))
    requires forall i :: 0 <= i < j ==> Full(script[i])
    ensures var hooks, at := ReadLoop(c, script, onData).hooks, |c.hooks| + j;
      && at < |hooks| && hooks[..|c.hooks|] == c.hooks
      && hooks[at] == OnRead(script[j].data, Short(script[j]))
      && (Short(script[j]) ==> hooks[at + 1..] == [OnData(c.readQ + Stored(script))])
    decreases |script|
  {
    var d, rest := script[0].data, script[1..];
    if j > 0 {
      var mid := Chunk(c, d, false, onData);
      LoopCalls(mid, rest, onData, j - 1);
      assert ReadLoop(mid, rest, onData).hooks[..|mid.hooks|][..|c.hooks|] == c.hooks;
      assert c.readQ + (d + Stored(rest)) == (c.readQ + d) + Stored(rest);
    } else if Full(script[0]) {
      LoopKeepsTrace(Chunk(c, d, false, onData), rest, onData);
      var mid := Chunk(c, d, false, onData);
      assert ReadLoop(mid, rest, onData).hooks[..|mid.hooks|][..|c.hooks|] == c.hooks;
      assert ReadLoop(mid, rest, onData).hooks[..|mid.hooks|][|c.hooks|] == OnRead(d, false);
    }
  }

  lemma {:induction false} LoopKeepsTrace(c: Conn, script: seq<ReadResult>, onData: seq<byte> -> Reply)
    ensures var hooks := ReadLoop(c, script, onData).hooks; |c.hooks| <= |hooks| && hooks[..|c.hooks|] == c.hooks
    decreases |script|
  {
    if script != [] && Full(script[0]) {
      var mid := Chunk(c, script[0].data, false, onData);
      LoopKeepsTrace(mid, script[1..], onData);
      assert ReadLoop(mid, script[1..], onData).hooks[..|mid.hooks|][..|c.hooks|] == c.hooks;
    }
  }

  // ---------------------------------------------------------------- how a write ends

  /** A write of `queue` that takes nothing or claims too much; with nothing to write the handler decides. */
  predicate WriteCloses(queue: seq<byte>, written: int, onWrite: Effect) {
    if queue == [] then onWrite.close else written <= 0 || written > |queue|
  }

  /** What an attempt to write leaves behind: one callback, the unwritten rest, or a closed socket. */
  ghost predicate Wrote(c: Conn, written: int, onWrite: Effect, after: Conn) {
    && after.hooks == c.hooks + [OnWrite]
    && after.status == (if WriteCloses(c.sendQ, written, onWrite) then Disconnected else c.status)
    && (c.sendQ == [] ==> after.sendQ == AcceptedAll(onWrite.sends))
    && (c.sendQ != [] && 0 < written <= |c.sendQ| ==>
          after.sendQ == c.sendQ[written..])
    && (c.sendQ != [] && (written <= 0 || written > |c.sendQ|) ==> after.sendQ == c.sendQ)
    && after.readQ == c.readQ && after.fd == c.fd && after.closed == c.closed && after.deadline == c.deadline
  }

  lemma ConnectedWrite(c: Conn, finished: int, written: int, onConnect: Effect, onWrite: Effect)
    requires c.status == Connected
    ensures Wrote(c, written, onWrite, RealWrite(c, finished, written, onConnect, onWrite))
  {
  }

  /**
   From a pending connection: an attempt that is still in progress changes
   nothing, one that has failed closes without a callback, and one that has
   succeeded reports OnConnect once, with what the handler does then, and writes.
   */
  lemma PendingWrite(c: Conn, finished: int, written: int, onConnect: Effect, onWrite: Effect)
    requires c.status == Connecting
    ensures var after := RealWrite(c, finished, written, onConnect, onWrite);
      && (finished == 0 ==> after == c)
      && (finished < 0 ==> after == c.(status := Disconnected))
      && (finished > 0 ==>
            var live := c.(status := if onConnect.close then Disconnected else Connected,
                             hooks := c.hooks + [OnConnect], sendQ := c.sendQ + AcceptedAll(onConnect.sends));
            Wrote(live, written, onWrite, after))
  {
  }

  /** Any socket that is neither connecting nor connected is closed by a write, and nothing else happens. */
  lemma IdleWrite(c: Conn, finished: int, written: int, onConnect: Effect, onWrite: Effect)
    requires c.status != Connecting && c.status != Connected
    ensures RealWrite(c, finished, written, onConnect, onWrite) == c.(status := Disconnected)
  {
  }

  // ---------------------------------------------------------------- runs

  function StepAll(c: Conn, events: seq<Event>): Conn
    decreases |events|
  {
    if events == [] then c else StepAll(Step(c, events[0]), events[1..])
  }

  /** A read or write that finds the kernel still connecting. */
  predicate Unfinished(e: Event) {
    e.ERealRead? || (e.ERealWrite? && e.finished == 0)
  }

  predicate StillPending(events: seq<Event>) {
    forall k :: 0 <= k < |events| ==> Unfinished(events[k])
  }

  /** A pending connection survives any number of rounds in which it is not finished. */
  lemma {:induction false} PendingWaits(c: Conn, events: seq<Event>)
    requires c.status == Connecting && StillPending(events)
    ensures StepAll(c, events) == c
    decreases |events|
  {
    if events != [] {
      assert Step(c, events[0]) == c;
      assert forall k :: 0 <= k < |events[1..]| ==> events[1..][k] == events[k + 1];
      PendingWaits(c, events[1..]);
    }
  }

  lemma {:induction false} StepBoth(c: Conn, first: seq<Event>, second: seq<Event>)
    ensures StepAll(c, first + second) == StepAll(StepAll(c, first), second)
    decreases |first|
  {
    if first == [] {
      assert first + second == second;
    } else {
      StepBoth(Step(c, first[0]), first[1..], second);
      assert (first + second)[1..] == first[1..] + second;
    }
  }

  /** After any such rounds, success reports the connection once, and failure closes without a callback. */
  lemma PendingEnds(c: Conn, events: seq<Event>, e: Event)
    requires c.status == Connecting && StillPending(events) && e.ERealWrite? && e.finished != 0
    ensures var after := StepAll(c, events + [e]);
      && (e.finished < 0 ==> after == c.(status := Disconnected))
      && (e.finished > 0 ==> after.hooks == c.hooks + [OnConnect, OnWrite])
  {
    PendingWaits(c, events);
    StepBoth(c, events, [e]);
    assert [e][1..] == [];
    assert StepAll(Step(c, e), []) == Step(c, e);
    assert StepAll(c, [e]) == Step(c, e);
    PendingWrite(c, e.finished, e.written, e.onConnect, e.onWrite);
    assert c.hooks + [OnConnect] + [OnWrite] == c.hooks + [OnConnect, OnWrite];
  }

  /** A RealConnect in which every call succeeds. */
  predicate Connects(e: Event) {
    e.ERealConnect? && e.fd >= 0 && e.nonBlocking && e.connecting
  }

  predicate NeverConnects(events: seq<Event>) {
    forall k :: 0 <= k < |events| ==> !Connects(events[k])
  }

  /** Short of a RealConnect that succeeds, a closed socket stays closed, silent and untouched by the kernel. */
  lemma {:induction false} ClosedStaysSilent(c: Conn, events: seq<Event>)
    requires c.status == Disconnected && NeverConnects(events)
    ensures var after := StepAll(c, events);
      && after.status == Disconnected && after.readQ == c.readQ && c.sendQ <= after.sendQ
      && |c.hooks| <= |after.hooks| && after.hooks[..|c.hooks|] == c.hooks
      && forall k :: |c.hooks| <= k < |after.hooks| ==> after.hooks[k] == OnDisconnect
    decreases |events|
  {
    if events != [] {
      assert forall k :: 0 <= k < |events[1..]| ==> events[1..][k] == events[k + 1];
      var next := Step(c, events[0]);
      ClosedStep(c, events[0], next);
      ClosedStaysSilent(next, events[1..]);
      assert StepAll(next, events[1..]).hooks[..|c.hooks|] == next.hooks[..|c.hooks|];
    }
  }

  lemma ClosedStep(c: Conn, e: Event, next: Conn)
    requires c.status == Disconnected && !Connects(e) && next == Step(c, e)
    ensures next.status == Disconnected && next.readQ == c.readQ && c.sendQ <= next.sendQ
    ensures next.hooks == c.hooks || next.hooks == c.hooks + [OnDisconnect]
  {
  }

  // ---------------------------------------------------------------- Connect

  /** Two sockets that differ in their deadline at most. */
  ghost predicate SameButDeadline(c: Conn, d: Conn) {
    c.(deadline := None) == d.(deadline := None)
  }

  lemma {:induction false} LoopIgnoresDeadline(c: Conn, d: Conn, script: seq<ReadResult>, onData: seq<byte> -> Reply)
    requires SameButDeadline(c, d)
    ensures SameButDeadline(ReadLoop(c, script, onData), ReadLoop(d, script, onData))
    decreases |script|
  {
    if script != [] && script[0].Got? && Usable(script[0].data) && |script[0].data| == RECV_CACHE {
      LoopIgnoresDeadline(Chunk(c, script[0].data, false, onData), Chunk(d, script[0].data, false, onData),
                          script[1..], onData);
    }
  }

  lemma StepIgnoresDeadline(c: Conn, d: Conn, e: Event)
    requires SameButDeadline(c, d)
    ensures SameButDeadline(Step(c, e), Step(d, e))
  {
    if e.ERealRead? {
      LoopIgnoresDeadline(c, d, e.script, e.onData);
    }
  }

  lemma {:induction false} RunIgnoresDeadline(c: Conn, d: Conn, events: seq<Event>)
    requires SameButDeadline(c, d)
    ensures SameButDeadline(StepAll(c, events), StepAll(d, events))
    decreases |events|
  {
    if events != [] {
      StepIgnoresDeadline(c, d, events[0]);
      RunIgnoresDeadline(Step(c, events[0]), Step(d, events[0]), events[1..]);
    }
  }

  /**
   A Connect on a socket that has left its initial status, at any point of any
   run, changes nothing but the deadline, then and ever after.
   */
  lemma ConnectAgainIsHarmless(c: Conn, ipValid: bool, timeout: nat, now: nat, events: seq<Event>)
    requires c.status != Init
    ensures SameButDeadline(StepAll(Connect(c, ipValid, timeout, now), events), StepAll(c, events))
  {
    RunIgnoresDeadline(Connect(c, ipValid, timeout, now), c, events);
  }

  /** On a new socket it asks for a connection, if the address is valid. */
  lemma FirstConnect(c: Conn, ipValid: bool, timeout: nat, now: nat)
    requires c.status == Init
    ensures var after := Connect(c, ipValid, timeout, now);
      && (ipValid ==> after.status == StartConnect && SameButDeadline(after, c.(status := StartConnect)))
      && (!ipValid ==> after == c)
  {
  }

  /** The deadline is the last valid Connect's: its timeout from then on, or none for a timeout of 0. */
  lemma {:induction false} DeadlineIsTheLastConnects(c: Conn, events: seq<Event>, k: nat)
    requires k < |events| && events[k].EConnect? && events[k].ipValid
    requires forall j :: k < j < |events| ==> !(events[j].EConnect? && events[j].ipValid)
    ensures var e := events[k];
      StepAll(c, events).deadline == if e.timeout == 0 then None else Some(e.now + e.timeout)
    decreases |events|
  {
    if k > 0 {
      DeadlineIsTheLastConnects(Step(c, events[0]), events[1..], k - 1);
    } else {
      DeadlineStays(Step(c, events[0]), events[1..]);
    }
  }

  lemma {:induction false} DeadlineStays(c: Conn, events: seq<Event>)
    requires forall j :: 0 <= j < |events| ==> !(events[j].EConnect? && events[j].ipValid)
    ensures StepAll(c, events).deadline == c.deadline
    decreases |events|
  {
    if events != [] {
      DeadlineStep(c, events[0]);
      DeadlineStays(Step(c, events[0]), events[1..]);
    }
  }

  lemma DeadlineStep(c: Conn, e: Event)
    requires !(e.EConnect? && e.ipValid)
    ensures Step(c, e).deadline == c.deadline
  {
    if e.ERealRead? {
      ReadLoopEffect(c, e.script, e.onData);
    }
  }

  // ---------------------------------------------------------------- the state diagram

  /** Events that leave every status but INIT alone. */
  predicate Neutral(e: Event) {
    e.EConnect? || e.ESend? || e.ERealDisconnect?
  }

  /** How a socket comes to be, or stays, in each status. */
  ghost predicate Leads(c: Conn, e: Event, to: Status) {
    match to
    case Init => c.status == Init && (e.ESend? || e.ERealDisconnect? || (e.EConnect? && !e.ipValid))
    case StartConnect => (c.status == Init && e.EConnect? && e.ipValid) || (c.status == StartConnect && Neutral(e))
    case Connecting => Connects(e) || (c.status == Connecting && (Neutral(e) || Unfinished(e)))
    case Connected => Opens(c, e) || StaysOpen(c, e)
    case Disconnected =>
      || e.EClose? || (e.ERealConnect? && !Connects(e))
      || (c.status == Disconnected && Neutral(e))
      || ((c.status == Init || c.status == StartConnect || c.status == Disconnected) && (e.ERealRead? || e.ERealWrite?))
      || (c.status == Connecting && e.ERealWrite? && (e.finished < 0 || (e.finished > 0 && !Opens(c, e))))
      || (c.status == Connected && (e.ERealRead? || e.ERealWrite?) && !StaysOpen(c, e))
  }

  /** The connection is finished, and neither the handler nor the first write closes it. */
  predicate Opens(c: Conn, e: Event) {
    && c.status == Connecting && e.ERealWrite? && e.finished > 0 && !e.onConnect.close
    && !WriteCloses(c.sendQ + AcceptedAll(e.onConnect.sends), e.written, e.onWrite)
  }

  ghost predicate StaysOpen(c: Conn, e: Event) {
    && c.status == Connected
    && match e
       case ERealRead(script, onData) => !ReadCloses(c, script, onData)
       case ERealWrite(_, written, _, onWrite) => !WriteCloses(c.sendQ, written, onWrite)
       case _ => Neutral(e)
  }

  /** Every event leads every socket where the diagram says, and nowhere else. */
  lemma StateDiagram(c: Conn, e: Event, to: Status)
    ensures Step(c, e).status == to <==> Leads(c, e, to)
  {
    match e {
      case ERealRead(script, onData) => ReadStatus(c, script, onData);
      case ERealWrite(finished, written, onConnect, onWrite) =>
        DiagramOfWrite(c, e, to);
      case _ =>
    }
  }

  lemma DiagramOfWrite(c: Conn, e: Event, to: Status)
    requires e.ERealWrite?
    ensures Step(c, e).status == to <==> Leads(c, e, to)
  {
    if c.status == Connecting {
      PendingWrite(c, e.finished, e.written, e.onConnect, e.onWrite);
    } else if c.status == Connected {
      ConnectedWrite(c, e.finished, e.written, e.onConnect, e.onWrite);
    } else {
      IdleWrite(c, e.finished, e.written, e.onConnect, e.onWrite);
    }
  }
}
