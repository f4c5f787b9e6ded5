/**
 Whole lives of a socket: any sequence of events in which the driver calls
 nothing after RealDisconnect, and does not succeed in RealConnect once the
 connection has been reported. The order of the callbacks follows.
 */
module SocketSession {
  import opened Bytes
  import opened SocketSpec

  datatype Session = Session(conn: Conn, gone: bool)

  const BORN: Session := Session(FRESH, false)

  predicate ByEngine(e: Event) {
    e.ERealConnect? || e.ERealRead? || e.ERealWrite? || e.ERealDisconnect?
  }

  /** A RealConnect that succeeds although OnConnect has been called. */
  predicate Reopens(s: Session, e: Event) {
    e.ERealConnect? && e.fd >= 0 && e.nonBlocking && e.connecting && OnConnect in s.conn.hooks
  }

  /** What the driver may do; users may do anything at any time. */
  predicate Allowed(s: Session, e: Event) {
    (ByEngine(e) ==> !s.gone) && !Reopens(s, e)
  }

  function Next(s: Session, e: Event): Session {
    Session(Step(s.conn, e), s.gone || e.ERealDisconnect?)
  }

  predicate AllowedRun(s: Session, events: seq<Event>)
    decreases |events|
  {
    events == [] || (Allowed(s, events[0]) && AllowedRun(Next(s, events[0]), events[1..]))
  }

  function Play(s: Session, events: seq<Event>): Session
    decreases |events|
  {
    if events == [] then s else Play(Next(s, events[0]), events[1..])
  }

  // ---------------------------------------------------------------- order of callbacks

  datatype Stage = Fresh | Live | Gone | Broken

  function Advance(g: Stage, h: Hook): Stage {
    match h
    case OnConnect => if g == Fresh then Live else Broken
    case OnDisconnect => if g == Fresh || g == Live then Gone else Broken
    case _ => if g == Live then Live else Broken
  }

  /** The stage a callback trace has reached. */
  function StageOf(hooks: seq<Hook>): Stage {
    if hooks == [] then Fresh
    else Advance(StageOf(hooks[..|hooks| - 1]), hooks[|hooks| - 1])
  }

  lemma StageCall(c: Conn, h: Hook)
    ensures StageOf(Call(c, h).hooks) == Advance(StageOf(c.hooks), h)
  {
    assert (c.hooks + [h])[..|c.hooks|] == c.hooks;
  }

  /**
   OnConnect comes at most once, every data callback has an OnConnect before
   it, and OnDisconnect comes last.
   */
  ghost predicate WellOrdered(hooks: seq<Hook>) {
    && (forall i, j :: 0 <= i < |hooks| && 0 <= j < |hooks| && hooks[i] == hooks[j] == OnConnect ==> i == j)
    && (forall j :: 0 <= j < |hooks| && hooks[j] != OnConnect && hooks[j] != OnDisconnect ==> OnConnect in hooks[..j])
    && (forall j :: 0 <= j < |hooks| && hooks[j] == OnDisconnect ==> j == |hooks| - 1)
  }

  /** What a trace contains that has reached a stage. */
  ghost predicate Contains(g: Stage, hooks: seq<Hook>) {
    && (g == Fresh ==> hooks == [])
    && (g == Live ==> OnConnect in hooks && OnDisconnect !in hooks)
  }

  lemma OneMoreHook(front: seq<Hook>, h: Hook, g: Stage)
    requires WellOrdered(front) && Contains(g, front) && Advance(g, h) != Broken
    ensures WellOrdered(front + [h]) && Contains(Advance(g, h), front + [h])
  {
    var hooks := front + [h];
    forall j | 0 <= j < |front| ensures hooks[..j] == front[..j] && hooks[j] == front[j] {
    }
    assert hooks[..|front|] == front;
  }

  /** Unless broken, a trace is well ordered, and its stage says what it contains. */
  lemma {:induction false} StagesAreWellOrdered(hooks: seq<Hook>)
    ensures StageOf(hooks) != Broken ==> WellOrdered(hooks) && Contains(StageOf(hooks), hooks)
    decreases |hooks|
  {
    if hooks != [] {
      var front, last := hooks[..|hooks| - 1], hooks[|hooks| - 1];
      StagesAreWellOrdered(front);
      if StageOf(hooks) != Broken {
        OneMoreHook(front, last, StageOf(front));
        assert hooks == front + [last];
      }
    }
  }

  ghost predicate Consistent(s: Session) {
    var g := StageOf(s.conn.hooks);
    if s.gone then g == Gone
    else if s.conn.status == Connected then g == Live
    else if s.conn.status == Disconnected then g == Fresh || g == Live
    else g == Fresh
  }

  lemma ChunkStage(c: Conn, d: seq<byte>, finish: bool, onData: seq<byte> -> Reply, after: Conn)
    requires StageOf(c.hooks) == Live && after == Chunk(c, d, finish, onData)
    ensures StageOf(after.hooks) == Live && (after.status == c.status || after.status == Disconnected)
    ensures !finish ==> after.status == c.status
  {
    StageCall(c, OnRead(d, finish));
    var stored := Call(c, OnRead(d, finish)).(readQ := c.readQ + BufferSpec.Accepted(d));
    StageCall(stored, OnData(stored.readQ));
  }

  lemma {:induction false} ReadLoopStage(c: Conn, script: seq<ReadResult>, onData: seq<byte> -> Reply)
    requires StageOf(c.hooks) == Live && c.status == Connected
    ensures var after := ReadLoop(c, script, onData);
      StageOf(after.hooks) == Live && (after.status == Connected || after.status == Disconnected)
    decreases |script|
  {
    if script != [] && script[0].Got? && Usable(script[0].data) {
      var d := script[0].data;
      var mid := Chunk(c, d, |d| < RECV_CACHE, onData);
      ChunkStage(c, d, |d| < RECV_CACHE, onData, mid);
      if |d| == RECV_CACHE {
        ReadLoopStage(mid, script[1..], onData);
      }
    }
  }

  lemma WriteOutStage(c: Conn, written: int, onWrite: Effect)
    requires StageOf(c.hooks) == Live && (c.status == Connected || c.status == Disconnected)
    ensures var after := WriteOut(c, written, onWrite);
      StageOf(after.hooks) == Live && (after.status == c.status || after.status == Disconnected)
  {
    StageCall(c, OnWrite);
  }

  /** RealConnect keeps things in order exactly when it does not reopen a reported connection. */
  lemma RealConnectKeepsOrder(s: Session, e: Event)
    requires Consistent(s) && !s.gone && e.ERealConnect?
    ensures Consistent(Next(s, e)) <==> !Reopens(s, e)
  {
    StagesAreWellOrdered(s.conn.hooks);
  }

  lemma ReadKeepsOrder(s: Session, script: seq<ReadResult>, onData: seq<byte> -> Reply)
    requires Consistent(s) && !s.gone
    ensures Consistent(s.(conn := RealRead(s.conn, script, onData)))
  {
    if s.conn.status == Connected {
      ReadLoopStage(s.conn, script, onData);
    }
  }

  lemma EstablishedStage(c: Conn, onConnect: Effect)
    requires StageOf(c.hooks) == Fresh
    ensures var after := Established(c, onConnect);
      StageOf(after.hooks) == Live && (after.status == Connected || after.status == Disconnected)
  {
    StageCall(c.(status := Connected), OnConnect);
  }

  lemma WriteKeepsOrder(s: Session, finished: int, written: int, onConnect: Effect, onWrite: Effect)
    requires Consistent(s) && !s.gone
    ensures Consistent(s.(conn := RealWrite(s.conn, finished, written, onConnect, onWrite)))
  {
    var after := RealWrite(s.conn, finished, written, onConnect, onWrite);
    if s.conn.status == Connected {
      WriteOutStage(s.conn, written, onWrite);
      assert after == WriteOut(s.conn, written, onWrite);
    } else if s.conn.status == Connecting && finished > 0 {
      EstablishedStage(s.conn, onConnect);
      WriteOutStage(Established(s.conn, onConnect), written, onWrite);
      assert after == WriteOut(Established(s.conn, onConnect), written, onWrite);
    } else {
      assert after.hooks == s.conn.hooks;
    }
  }

  lemma EventKeepsOrder(s: Session, e: Event)
    requires Consistent(s) && Allowed(s, e)
    ensures Consistent(Next(s, e))
  {
    match e {
      case ERealConnect(_, _, _) => RealConnectKeepsOrder(s, e);
      case ERealRead(script, onData) => ReadKeepsOrder(s, script, onData);
      case ERealWrite(finished, written, onConnect, onWrite) =>
        WriteKeepsOrder(s, finished, written, onConnect, onWrite);
      case ERealDisconnect => StageCall(s.conn, OnDisconnect);
      case _ =>
    }
  }

  lemma {:induction false} RunIsConsistent(s: Session, events: seq<Event>)
    requires Consistent(s) && AllowedRun(s, events)
    ensures Consistent(Play(s, events))
    decreases |events|
  {
    if events == [] {
    } else {
      EventKeepsOrder(s, events[0]);
      RunIsConsistent(Next(s, events[0]), events[1..]);
    }
  }

  /** The callback grammar, for every allowed run of a new socket. */
  lemma CallbacksAreWellOrdered(events: seq<Event>)
    requires AllowedRun(BORN, events)
    ensures WellOrdered(Play(BORN, events).conn.hooks)
    ensures Play(BORN, events).gone <==> OnDisconnect in Play(BORN, events).conn.hooks
  {
    RunIsConsistent(BORN, events);
    var hooks := Play(BORN, events).conn.hooks;
    StagesAreWellOrdered(hooks);
    if StageOf(hooks) == Gone {
      GoneHasDisconnect(hooks);
    }
  }

  lemma GoneHasDisconnect(hooks: seq<Hook>)
    requires StageOf(hooks) == Gone
    ensures OnDisconnect in hooks
  {
    assert hooks[|hooks| - 1] in hooks;
  }

  // ---------------------------------------------------------------- the discipline is exact

  const NOTHING: Effect := Effect([], false)

  /** The event that reports a connection a second time. */
  const REPORT: Event := ERealWrite(1, 1, NOTHING, NOTHING)

  /** After reopening, the next write event calls OnConnect again. */
  lemma ReopenReportsTwice(s: Session, e: Event)
    requires Consistent(s) && !s.gone && Reopens(s, e)
    ensures Allowed(Next(s, e), REPORT)
    ensures !WellOrdered(Next(Next(s, e), REPORT).conn.hooks)
  {
    var c := Next(s, e).conn;
    var hooks := RealWrite(c, 1, 1, NOTHING, NOTHING).hooks;
    assert hooks[..|c.hooks|] == c.hooks && hooks[|c.hooks|] == OnConnect;
    var i :| 0 <= i < |c.hooks| && c.hooks[i] == OnConnect;
    assert hooks[i] == OnConnect;
  }

  lemma PlayOne(s: Session, e: Event)
    ensures AllowedRun(s, [e]) <==> Allowed(s, e)
    ensures Play(s, [e]) == Next(s, e)
  {
    assert [e][1..] == [];
    assert AllowedRun(Next(s, e), []) && Play(Next(s, e), []) == Next(s, e);
  }

  /** Whatever is allowed from here on, callbacks stay in order. */
  ghost predicate StaysWellOrdered(s: Session) {
    forall events :: AllowedRun(s, events) ==> WellOrdered(Play(s, events).conn.hooks)
  }

  /** Every life after a RealConnect is well ordered exactly when the call does not reopen. */
  lemma RealConnectIsSafe(s: Session, e: Event)
    requires Consistent(s) && !s.gone && e.ERealConnect?
    ensures StaysWellOrdered(Next(s, e)) <==> !Reopens(s, e)
  {
    if Reopens(s, e) {
      ReopenReportsTwice(s, e);
      PlayOne(Next(s, e), REPORT);
      assert !WellOrdered(Play(Next(s, e), [REPORT]).conn.hooks);
    } else {
      RealConnectKeepsOrder(s, e);
      forall events | AllowedRun(Next(s, e), events)
        ensures WellOrdered(Play(Next(s, e), events).conn.hooks)
      {
        RunIsConsistent(Next(s, e), events);
        StagesAreWellOrdered(Play(Next(s, e), events).conn.hooks);
      }
    }
  }

  // ---------------------------------------------------------------- the descriptor

  /** The last descriptor, and no other, is given back, at disconnection. */
  ghost predicate OneDescriptor(s: Session) {
    s.conn.closed == if s.gone && s.conn.fd != 0 then [s.conn.fd] else []
  }

  lemma {:induction false} RunClosesOneDescriptor(s: Session, events: seq<Event>)
    requires OneDescriptor(s) && AllowedRun(s, events)
    ensures OneDescriptor(Play(s, events))
    decreases |events|
  {
    if events == [] {
    } else {
      EventClosesOneDescriptor(s, events[0]);
      RunClosesOneDescriptor(Next(s, events[0]), events[1..]);
    }
  }

  lemma EventClosesOneDescriptor(s: Session, e: Event)
    requires OneDescriptor(s) && Allowed(s, e)
    ensures OneDescriptor(Next(s, e))
  {
    if e.ERealRead? {
      ReadLoopEffect(s.conn, e.script, e.onData);
    }
  }

  /** The descriptors RealConnect obtains over a run. */
  function Obtained(events: seq<Event>): multiset<int> {
    if events == [] then multiset{}
    else (if events[0].ERealConnect? && events[0].fd >= 0 then multiset{events[0].fd} else multiset{})
         + Obtained(events[1..])
  }

  /** What a socket has to give back; 0 stands for none. */
  function Held(c: Conn): multiset<int> {
    if c.fd > 0 then multiset{c.fd} else multiset{}
  }

  /** A RealConnect that overwrites a descriptor, or obtains the one that stands for none. */
  predicate Leaks(s: Session, e: Event) {
    e.ERealConnect? && (s.conn.fd > 0 || e.fd == 0)
  }

  predicate LeakFree(s: Session, events: seq<Event>)
    decreases |events|
  {
    events == [] || (!Leaks(s, events[0]) && LeakFree(Next(s, events[0]), events[1..]))
  }

  lemma StepKeepsDescriptors(s: Session, e: Event)
    ensures var c := Next(s, e).conn;
      && c.fd == (if e.ERealConnect? then e.fd else s.conn.fd)
      && c.closed == s.conn.closed + (if e.ERealDisconnect? && s.conn.fd != 0 then [s.conn.fd] else [])
  {
    if e.ERealRead? {
      ReadLoopEffect(s.conn, e.script, e.onData);
    }
  }

  /** After RealDisconnect nothing is obtained, nothing given back, and nothing leaks. */
  lemma {:induction false} NothingWhenGone(s: Session, events: seq<Event>)
    requires s.gone && AllowedRun(s, events)
    ensures Play(s, events).conn.closed == s.conn.closed && Play(s, events).gone
    ensures Obtained(events) == multiset{} && LeakFree(s, events)
    decreases |events|
  {
    if events != [] {
      StepKeepsDescriptors(s, events[0]);
      NothingWhenGone(Next(s, events[0]), events[1..]);
    }
  }

  /** What is given back in the end was held or obtained, and is one descriptor at most, never 0. */
  lemma {:induction false} GivenBack(s: Session, events: seq<Event>)
    requires !s.gone && s.conn.closed == [] && AllowedRun(s, events) && Play(s, events).gone
    ensures var closed := Play(s, events).conn.closed;
      && |closed| <= 1
      && forall f <- closed :: f != 0 && (f > 0 ==> f in Held(s.conn) + Obtained(events))
    decreases |events|
  {
    var e, next := events[0], Next(s, events[0]);
    StepKeepsDescriptors(s, e);
    if e.ERealDisconnect? {
      NothingWhenGone(next, events[1..]);
    } else {
      GivenBack(next, events[1..]);
    }
  }

  /** Everything held and obtained is given back by the end. */
  predicate AllGivenBack(s: Session, events: seq<Event>) {
    Held(s.conn) + Obtained(events) <= multiset(Play(s, events).conn.closed)
  }

  /** A leak loses a descriptor, whatever follows. */
  lemma LeakLoses(s: Session, events: seq<Event>)
    requires !s.gone && s.conn.closed == [] && AllowedRun(s, events) && Play(s, events).gone
    requires events != [] && Leaks(s, events[0])
    ensures !AllGivenBack(s, events)
  {
    var e, next := events[0], Next(s, events[0]);
    StepKeepsDescriptors(s, e);
    GivenBack(next, events[1..]);
    LostAmong(s.conn.fd, e.fd, Held(next.conn), Obtained(events[1..]), Play(s, events).conn.closed);
  }

  /** Of an old descriptor and what came later, one at most is given back, and never 0. */
  lemma LostAmong(had: int, got: int, held: multiset<int>, later: multiset<int>, closed: seq<int>)
    requires held == if got > 0 then multiset{got} else multiset{}
    requires |closed| <= 1 && forall f <- closed :: f != 0 && (f > 0 ==> f in held + later)
    requires had > 0 || got == 0
    ensures var all := (if had > 0 then multiset{had} else multiset{})
                     + ((if got >= 0 then multiset{got} else multiset{}) + later);
      !(all <= multiset(closed))
  {
    var all := (if had > 0 then multiset{had} else multiset{})
             + ((if got >= 0 then multiset{got} else multiset{}) + later);
    if got == 0 {
      assert 0 !in closed;
      assert 0 in all && 0 !in multiset(closed);
    } else if had in multiset(closed) {
      assert had in held + later;
      assert all - multiset{had} == (if got >= 0 then multiset{got} else multiset{}) + later;
      TwoIsMore(all, had, closed);
    } else {
      assert had in all;
    }
  }

  lemma TwoIsMore(all: multiset<int>, f: int, closed: seq<int>)
    requires f in all && |all - multiset{f}| > 0 && |closed| <= 1
    ensures !(all <= multiset(closed))
  {
    assert |all| == |all - multiset{f}| + 1;
    if all <= multiset(closed) {
      SmallerIsFewer(all, multiset(closed));
    }
  }

  lemma SmallerIsFewer(a: multiset<int>, b: multiset<int>)
    requires a <= b
    ensures |a| <= |b|
  {
    assert a + (b - a) == b;
  }

  /**
   Every descriptor a socket obtains over its life is given back if and only if
   RealConnect is never called on a socket that holds one, and never obtains 0.
   */
  lemma {:induction false} AllGivenBackIffLeakFree(s: Session, events: seq<Event>)
    requires !s.gone && s.conn.closed == [] && AllowedRun(s, events) && Play(s, events).gone
    ensures AllGivenBack(s, events) <==> LeakFree(s, events)
    decreases |events|
  {
    var e, next := events[0], Next(s, events[0]);
    StepKeepsDescriptors(s, e);
    if e.ERealDisconnect? {
      NothingWhenGone(next, events[1..]);
    } else {
      AllGivenBackIffLeakFree(next, events[1..]);
      if Leaks(s, e) {
        LeakLoses(s, events);
      }
    }
  }
}
