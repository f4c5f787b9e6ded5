/**
 The lookup handler on top of a transmission on top of a socket: it sends one
 request, takes one response, and reports one result.
 */
module DnsLookup {
  import opened Bytes
  import opened BufferSpec
  import opened Text
  import opened DottedQuad
  import opened SocketSpec
  import opened SocketSession
  import opened StreamLink
  import opened DnsRequest
  import opened DnsResponse

  /** What the caller of the lookup is told. */
  datatype Result = Found(ip: seq<byte>) | NotFound

  /** Size of the request buffer on the stack. */
  const REQUEST_ROOM: nat := 1024

  /** Milliseconds a connection gets when its lookup has used up the timeout. */
  const TIME_RESERVED: nat := 1000

  /** The handler: `onResult` is its own flag, `results` what it has reported. */
  datatype Lookup = Lookup(session: Session, domain: seq<byte>, onResult: bool, results: seq<Result>)

  /** Result of parsing the received bytes; any parser, and malformed bytes, are covered. */
  type Parser = seq<byte> -> Option<seq<byte>>

  /** What happens to the socket of a lookup. */
  datatype LookupEvent =
    | User(e: Event)  // Connect, Close or Send by whoever holds the socket
    | DriveConnect(fd: int, nonBlocking: bool, connecting: bool)
    | DriveRead(script: seq<ReadResult>, parse: Parser)
    | DriveWrite(finished: int, written: int)
    | DriveDisconnect

  predicate Fits(domain: seq<byte>) {
    |domain| + 18 < REQUEST_ROOM
  }

  /** OnConnect sends the request, or closes when it fills the whole buffer. */
  function HandlerOnConnect(domain: seq<byte>): Effect {
    if Fits(domain) then Effect([Request(domain)], false) else Effect([], true)
  }

  /** OnData takes everything and closes, whatever the parser says. */
  function HandlerOnData(data: seq<byte>): Reply {
    Reply(|data|, Effect([], true))
  }

  function SocketEvent(l: Lookup, e: LookupEvent): Event {
    match e
    case User(u) => u
    case DriveConnect(fd, nonBlocking, connecting) => ERealConnect(fd, nonBlocking, connecting)
    case DriveRead(script, _) => ERealRead(script, HandlerOnData)
    case DriveWrite(finished, written) =>
      ERealWrite(finished, written, HandlerOnConnect(l.domain), NOTHING)
    case DriveDisconnect => ERealDisconnect
  }

  /** A RealConnect that succeeds on the socket of a lookup that has reported. */
  predicate Revives(l: Lookup, e: LookupEvent) {
    e.DriveConnect? && e.fd >= 0 && e.nonBlocking && e.connecting && l.onResult
  }

  /** The driver calls nothing after RealDisconnect and revives nothing. */
  predicate LookupAllowed(l: Lookup, e: LookupEvent) {
    && (ByEngine(SocketEvent(l, e)) ==> !l.session.gone)
    && (e.User? ==> !ByEngine(e.e))
    && !Revives(l, e)
  }

  function Report(parsed: Option<seq<byte>>): Result {
    match parsed
    case Some(ip) => Found(ip)
    case None => NotFound
  }

  /** Results the handler reports during an event. */
  function Reported(l: Lookup, e: LookupEvent): seq<Result> {
    match e
    case DriveWrite(finished, _) =>
      if l.session.conn.status == Connecting && finished > 0 && !Fits(l.domain) then [NotFound] else []
    case DriveRead(script, parse) =>
      (match OfferedBy(l.session.conn, SocketEvent(l, e))
       case Some(data) => [Report(parse(data))]
       case None => [])
    case DriveDisconnect => if l.onResult then [] else [NotFound]
    case _ => []
  }

  /** Note that OnDisconnect does not set the flag. */
  function LookupNext(l: Lookup, e: LookupEvent): Lookup {
    var reported := Reported(l, e);
    l.(session := Next(l.session, SocketEvent(l, e)),
       onResult := l.onResult || (reported != [] && !e.DriveDisconnect?),
       results := l.results + reported)
  }

  predicate LookupRun(l: Lookup, events: seq<LookupEvent>)
    decreases |events|
  {
    events == [] || (LookupAllowed(l, events[0]) && LookupRun(LookupNext(l, events[0]), events[1..]))
  }

  function Finish(l: Lookup, events: seq<LookupEvent>): Lookup
    decreases |events|
  {
    if events == [] then l else Finish(LookupNext(l, events[0]), events[1..])
  }

  /** A new lookup: connected to before it is handed to the engine, if the server is an address. */
  function Begin(domain: seq<byte>, serverValid: bool, timeout: nat, now: nat): Lookup {
    Lookup(Next(BORN, EConnect(serverValid, timeout, now)), domain, false, [])
  }

  /** A new lookup asks for a connection exactly when its server is an address, within its timeout. */
  lemma BeginAsks(domain: seq<byte>, serverValid: bool, timeout: nat, now: nat)
    ensures var l := Begin(domain, serverValid, timeout, now);
      && l.results == [] && !l.onResult && !l.session.gone && l.domain == domain
      && l.session.conn.status == (if serverValid then StartConnect else Init)
      && (serverValid && timeout > 0 ==> l.session.conn.deadline == Some(now + timeout))
  {
  }

  /** Exactly one result once the socket is gone; before, one if and only if the flag is set. */
  ghost predicate OneResult(l: Lookup) {
    && |l.results| == (if l.session.gone || l.onResult then 1 else 0)
    && (l.onResult ==> l.session.conn.status == Disconnected)
  }

  lemma ReadKeepsOneResult(l: Lookup, script: seq<ReadResult>, parse: Parser)
    requires OneResult(l) && LookupAllowed(l, DriveRead(script, parse))
    ensures OneResult(LookupNext(l, DriveRead(script, parse)))
  {
    if l.session.conn.status == Connected {
      ReadLoopEffect(l.session.conn, script, HandlerOnData);
    }
  }

  lemma WriteKeepsOneResult(l: Lookup, finished: int, written: int)
    requires OneResult(l) && LookupAllowed(l, DriveWrite(finished, written))
    ensures OneResult(LookupNext(l, DriveWrite(finished, written)))
  {
  }

  /** RealConnect, in any status, keeps the results in order exactly when it revives nothing. */
  lemma ConnectKeepsOneResult(l: Lookup, e: LookupEvent)
    requires OneResult(l) && !l.session.gone && e.DriveConnect?
    ensures OneResult(LookupNext(l, e)) <==> !Revives(l, e)
  {
  }

  lemma EventKeepsOneResult(l: Lookup, e: LookupEvent)
    requires OneResult(l) && LookupAllowed(l, e)
    ensures OneResult(LookupNext(l, e))
  {
    match e {
      case DriveRead(script, parse) => ReadKeepsOneResult(l, script, parse);
      case DriveWrite(finished, written) => WriteKeepsOneResult(l, finished, written);
      case DriveConnect(_, _, _) => ConnectKeepsOneResult(l, e);
      case DriveDisconnect =>
      case User(u) =>
    }
  }

  lemma {:induction false} RunKeepsOneResult(l: Lookup, events: seq<LookupEvent>)
    requires OneResult(l) && LookupRun(l, events)
    ensures OneResult(Finish(l, events))
    decreases |events|
  {
    if events == [] {
    } else {
      EventKeepsOneResult(l, events[0]);
      RunKeepsOneResult(LookupNext(l, events[0]), events[1..]);
    }
  }

  /**
   A lookup reports at most one result at any moment, and exactly one once its
   socket has been disconnected.
   */
  lemma ExactlyOneResult(domain: seq<byte>, serverValid: bool, timeout: nat, now: nat, events: seq<LookupEvent>)
    requires LookupRun(Begin(domain, serverValid, timeout, now), events)
    ensures var l := Finish(Begin(domain, serverValid, timeout, now), events);
      |l.results| <= 1 && (l.session.gone ==> |l.results| == 1)
  {
    RunKeepsOneResult(Begin(domain, serverValid, timeout, now), events);
  }

  // ---------------------------------------------------------------- a lookup that cannot start

  predicate Starts(e: LookupEvent) {
    e.User? && e.e.EConnect? && e.e.ipValid
  }

  predicate NeverStarted(events: seq<LookupEvent>) {
    forall k :: 0 <= k < |events| ==> !Starts(events[k])
  }

  predicate ToConnect(l: Lookup) {
    l.session.conn.status == StartConnect || l.session.conn.status == Connecting
  }

  /** RealConnect is called only after the driver could see that there is something to connect. */
  predicate ConnectsWhatItSaw(l: Lookup, events: seq<LookupEvent>, saw: bool)
    decreases |events|
  {
    events == [] ||
    ((events[0].DriveConnect? ==> saw || ToConnect(l))
     && ConnectsWhatItSaw(LookupNext(l, events[0]), events[1..], saw || ToConnect(l)))
  }

  ghost predicate Unstarted(l: Lookup) {
    && (l.session.conn.status == Init || l.session.conn.status == Disconnected)
    && !l.onResult
    && l.results == if l.session.gone then [NotFound] else []
  }

  lemma EventKeepsUnstarted(l: Lookup, e: LookupEvent)
    requires Unstarted(l) && LookupAllowed(l, e) && !Starts(e) && !e.DriveConnect?
    ensures Unstarted(LookupNext(l, e))
  {
  }

  lemma {:induction false} RunKeepsUnstarted(l: Lookup, events: seq<LookupEvent>)
    requires Unstarted(l) && LookupRun(l, events) && NeverStarted(events) && ConnectsWhatItSaw(l, events, false)
    ensures Unstarted(Finish(l, events))
    decreases |events|
  {
    if events == [] {
    } else {
      EventKeepsUnstarted(l, events[0]);
      assert forall k :: 0 <= k < |events[1..]| ==> events[1..][k] == events[k + 1];
      RunKeepsUnstarted(LookupNext(l, events[0]), events[1..]);
    }
  }

  /** A lookup whose server is no address reports nothing until it is disconnected, and then failure. */
  lemma BadServerWaits(domain: seq<byte>, timeout: nat, now: nat, events: seq<LookupEvent>)
    requires var begin := Begin(domain, false, timeout, now);
      LookupRun(begin, events) && NeverStarted(events) && ConnectsWhatItSaw(begin, events, false)
    ensures var l := Finish(Begin(domain, false, timeout, now), events);
      l.results == if l.session.gone then [NotFound] else []
  {
    RunKeepsUnstarted(Begin(domain, false, timeout, now), events);
  }

  // ---------------------------------------------------------------- a lookup that succeeds

  /** Connect, send the whole request, receive `response` in one short read. */
  function GoodRun(domain: seq<byte>, fd: nat, response: seq<byte>, parse: Parser): seq<LookupEvent> {
    [DriveConnect(fd, true, true), DriveWrite(1, |Request(domain)|), DriveRead([Got(response)], parse)]
  }

  lemma RunOfThree(l: Lookup, e0: LookupEvent, e1: LookupEvent, e2: LookupEvent)
    ensures var l1 := LookupNext(l, e0); var l2 := LookupNext(l1, e1);
      && (LookupRun(l, [e0, e1, e2]) <==> LookupAllowed(l, e0) && LookupAllowed(l1, e1) && LookupAllowed(l2, e2))
      && Finish(l, [e0, e1, e2]) == LookupNext(l2, e2)
  {
    var l1 := LookupNext(l, e0);
    var l2 := LookupNext(l1, e1);
    assert [e0, e1, e2][1..] == [e1, e2] && [e1, e2][1..] == [e2] && [e2][1..] == [];
    assert LookupRun(LookupNext(l2, e2), []);
    assert Finish(l2, [e2]) == LookupNext(l2, e2);
    assert LookupRun(l2, [e2]) <==> LookupAllowed(l2, e2);
    assert Finish(l1, [e1, e2]) == Finish(l2, [e2]);
    assert LookupRun(l1, [e1, e2]) == (LookupAllowed(l1, e1) && LookupRun(l2, [e2]));
  }

  lemma OneSend(data: seq<byte>)
    ensures AcceptedAll([data]) == Accepted(data)
  {
    assert [data][..0] == [];
    assert [] + Accepted(data) == Accepted(data);
  }

  /** Connecting and one full write put the request on the wire, from any state with nothing to send. */
  lemma Requested(l: Lookup, fd: nat)
    requires Fits(l.domain) && l.session.conn.sendQ == []
    ensures var write := DriveWrite(1, |Request(l.domain)|);
      var l1 := LookupNext(l, DriveConnect(fd, true, true));
      var l2 := LookupNext(l1, write);
      && l1.session.conn.status == Connecting
      && WrittenBy(l1.session.conn, SocketEvent(l1, write)) == Request(l.domain)
      && l2 == l.(session := l2.session) && l1.session.gone == l2.session.gone == l.session.gone
      && l2.session.conn.status == Connected && l2.session.conn.sendQ == []
      && l2.session.conn.readQ == l.session.conn.readQ
      && Offers(l2.session.conn.hooks) == Offers(l.session.conn.hooks)
  {
    var l1 := LookupNext(l, DriveConnect(fd, true, true));
    OffersMade(l1.session.conn, SocketEvent(l1, DriveWrite(1, |Request(l.domain)|)));
    RequestLength(l.domain);
    OneSend(Request(l.domain));
    assert [] + Request(l.domain) == Request(l.domain);
    assert l.results + [] == l.results;
  }

  /**
   When the connection is reported, a domain of at most 1005 octets has its
   request queued and nothing reported; a longer one has nothing queued, is
   reported as failed, and closes.
   */
  lemma ConnectedSends(l: Lookup, finished: int, written: int)
    requires l.session.conn.status == Connecting && finished > 0
    ensures var e := DriveWrite(finished, written); var after := LookupNext(l, e);
      var queued := AcceptedBy(l.session.conn, SocketEvent(l, e));
      if |l.domain| <= 1005 then queued == Request(l.domain) && after == l.(session := after.session)
      else
        && queued == [] && after.results == l.results + [NotFound] && after.onResult
        && after.session.conn.status == Disconnected
  {
    RequestLength(l.domain);
    OneSend(Request(l.domain));
    assert AcceptedAll([]) == [];
  }

  /** The handler queues nothing else: one request for each connection reported, whatever the driver does. */
  lemma OnlyTheRequest(l: Lookup, e: LookupEvent)
    requires !e.User?
    ensures AcceptedBy(l.session.conn, SocketEvent(l, e)) ==
      if e.DriveWrite? && l.session.conn.status == Connecting && e.finished > 0 && |l.domain| <= 1005
      then Request(l.domain) else []
  {
    assert AcceptedAll([]) == [];
    if e.DriveWrite? && l.session.conn.status == Connecting && e.finished > 0 {
      ConnectedSends(l, e.finished, e.written);
    }
  }

  lemma ReadAndClose(c: Conn, script: seq<ReadResult>)
    requires c.status == Connected && c.readQ == [] && EndsShort(script)
    ensures var after := RealRead(c, script, HandlerOnData);
      after.status == Disconnected && after.readQ == [] && after.sendQ == c.sendQ
    ensures OfferedBy(c, ERealRead(script, HandlerOnData)) == Some(Stored(script))
  {
    ReadLoopEffect(c, script, HandlerOnData);
    assert c.readQ + Stored(script) == Stored(script);
  }

  /** A read that ends short on a connected socket reports the parsed bytes and closes. */
  lemma Answered(l: Lookup, script: seq<ReadResult>, parse: Parser)
    requires l.session.conn.status == Connected && l.session.conn.readQ == []
    requires EndsShort(script)
    ensures var after := LookupNext(l, DriveRead(script, parse));
      && after.results == l.results + [Report(parse(Stored(script)))]
      && after.session.conn.status == Disconnected && after.session.gone == l.session.gone
      && after.session.conn.readQ == [] && after.session.conn.sendQ == l.session.conn.sendQ
      && after.domain == l.domain
      && Offers(after.session.conn.hooks) == Offers(l.session.conn.hooks) + [Stored(script)]
  {
    OffersMade(l.session.conn, SocketEvent(l, DriveRead(script, parse)));
    ReadAndClose(l.session.conn, script);
  }

  lemma OneShortChunk(response: seq<byte>)
    requires 0 < |response| < RECV_CACHE
    ensures EndsShort([Got(response)]) && Stored([Got(response)]) == response
  {
  }

  // ---------------------------------------------------------------- what a result says

  /** All reads of a run are parsed by the same parser. */
  ghost predicate UsesParser(events: seq<LookupEvent>, parse: Parser) {
    forall k :: 0 <= k < |events| ==> (events[k].DriveRead? ==> events[k].parse == parse)
  }

  /** What has been reported is what the parser makes of the one offer there was; without one, at most failure. */
  ghost predicate Told(l: Lookup, parse: Parser) {
    var offers := Offers(l.session.conn.hooks);
    && OneResult(l)
    && if offers == [] then l.results == [] || l.results == [NotFound]
       else |offers| == 1 && l.onResult && l.results == [Report(parse(offers[0]))]
  }

  lemma EventKeepsTold(l: Lookup, e: LookupEvent, parse: Parser)
    requires Told(l, parse) && LookupAllowed(l, e) && (e.DriveRead? ==> e.parse == parse)
    ensures Told(LookupNext(l, e), parse)
  {
    EventKeepsOneResult(l, e);
    OffersMade(l.session.conn, SocketEvent(l, e));
  }

  lemma {:induction false} RunKeepsTold(l: Lookup, events: seq<LookupEvent>, parse: Parser)
    requires Told(l, parse) && LookupRun(l, events) && UsesParser(events, parse)
    ensures Told(Finish(l, events), parse)
    decreases |events|
  {
    if events == [] {
    } else {
      EventKeepsTold(l, events[0], parse);
      assert forall k :: 0 <= k < |events[1..]| ==> events[1..][k] == events[k + 1];
      RunKeepsTold(LookupNext(l, events[0]), events[1..], parse);
    }
  }

  /**
   Over every allowed run, OnData is offered bytes at most once. When it is,
   the one result is what the parser makes of them, and the socket is closed.
   */
  lemma LookupReportsAnswer(begin: Lookup, events: seq<LookupEvent>, parse: Parser)
    requires exists valid, timeout, now :: begin == Begin(begin.domain, valid, timeout, now)
    requires LookupRun(begin, events) && UsesParser(events, parse)
    ensures var l := Finish(begin, events); var offers := Offers(l.session.conn.hooks);
      && |offers| <= 1
      && (offers != [] ==> l.results == [Report(parse(offers[0]))] && l.session.conn.status == Disconnected)
      && (offers == [] ==> l.results == [] || l.results == [NotFound])
  {
    RunKeepsTold(begin, events, parse);
  }

  /** There is such a run: connect, one full write of the request, one short read of the answer. */
  lemma GoodRunAnswers(begin: Lookup, fd: nat, response: seq<byte>, parse: Parser)
    requires exists timeout, now :: begin == Begin(begin.domain, true, timeout, now)
    requires Fits(begin.domain) && 0 < |response| < RECV_CACHE
    ensures var run := GoodRun(begin.domain, fd, response, parse); var l := Finish(begin, run);
      && LookupRun(begin, run) && UsesParser(run, parse)
      && Offers(l.session.conn.hooks) == [response] && !l.session.gone
  {
    var run := GoodRun(begin.domain, fd, response, parse);
    RunOfThree(begin, run[0], run[1], run[2]);
    Requested(begin, fd);
    OneShortChunk(response);
    Answered(LookupNext(LookupNext(begin, run[0]), run[1]), [Got(response)], parse);
  }

  /** A socket in the engine's table, with the address it has been given. */
  datatype Target = Target(conn: Conn, ip: seq<byte>)

  /** What the connector does with a result for the socket `id`: close it, or connect it. */
  function Deliver(table: map<nat, Target>, id: nat, result: Result, remaining: nat, now: nat): map<nat, Target> {
    if id !in table then table
    else
      match result
      case NotFound => table[id := Target(Close(table[id].conn), table[id].ip)]
      case Found(ip) =>
        if AddressLike(ip) then table[id := Target(Connect(table[id].conn, true, remaining, now), ip)]
        else table
  }

  /** A result for a socket that has left the table, or one that is no address, is dropped. */
  lemma DeliverDrops(table: map<nat, Target>, id: nat, result: Result, remaining: nat, now: nat)
    requires id !in table || (result.Found? && !AddressLike(result.ip))
    ensures Deliver(table, id, result, remaining, now) == table
  {
  }

  /** What is left of a lookup's timeout for the connection: a second at least; 0 stands for no timeout. */
  function TimeLeft(deadline: Option<nat>, now: nat): nat {
    match deadline
    case None => 0
    case Some(t) => if now + TIME_RESERVED < t then t - now else TIME_RESERVED
  }

  /** The waiting socket inherits the lookup's deadline, moved to a second from now when less is left. */
  lemma DeadlineIsInherited(table: map<nat, Target>, id: nat, ip: seq<byte>, deadline: Option<nat>, now: nat)
    requires id in table && AddressLike(ip)
    ensures var after := Deliver(table, id, Found(ip), TimeLeft(deadline, now), now)[id].conn.deadline;
      match deadline
      case None => after == None
      case Some(t) => after == Some(if t > now + 1000 then t else now + 1000)
  {
  }

  /** The table after the result for a response with these records. */
  ghost predicate Delivered(table: map<nat, Target>, id: nat, after: map<nat, Target>, records: seq<Record>) {
    && after.Keys == table.Keys && (forall k <- table :: k != id ==> after[k] == table[k])
    && (id in table ==>
          match FirstAddress(records)
          case None => after[id].conn.status == Disconnected
          case Some(octets) =>
            && after[id].ip == Quad(octets) && after[id].conn.status != Init
            && (table[id].conn.status == Init ==> after[id].conn.status == StartConnect))
  }

  /** What a right answer says. */
  function Answer(records: seq<Record>): Result {
    match FirstAddress(records)
    case None => NotFound
    case Some(octets) => Found(Quad(octets))
  }

  lemma DeliverAnswer(table: map<nat, Target>, id: nat, remaining: nat, now: nat, records: seq<Record>)
    ensures Delivered(table, id, Deliver(table, id, Answer(records), remaining, now), records)
  {
    match FirstAddress(records) {
      case Some(octets) => QuadReadsBack(octets);
      case None =>
    }
  }

  /**
   With the real parser, over every allowed run in which OnData is offered a
   readable response, the first address record is reported, and the socket
   that waits, if it is still there, is connected to that address; without an
   address record it is closed. No other is touched.
   */
  lemma LookupResolves(begin: Lookup, events: seq<LookupEvent>, response: seq<byte>, records: seq<Record>,
                       table: map<nat, Target>, id: nat, remaining: nat, now: nat)
    requires exists valid, timeout, started :: begin == Begin(begin.domain, valid, timeout, started)
    requires LookupRun(begin, events) && UsesParser(events, Parsed)
    requires Offers(Finish(begin, events).session.conn.hooks) == [response]
    requires IsResponse(response, begin.domain, records) && LabelsWithin(Split(begin.domain), 127)
    requires Readable(RecordsStart(begin.domain), records)
    ensures Finish(begin, events).results == [Answer(records)]
    ensures Delivered(table, id, Deliver(table, id, Answer(records), remaining, now), records)
  {
    LookupReportsAnswer(begin, events, Parsed);
    ResponseYieldsFirstAddress(response, begin.domain, records);
    DeliverAnswer(table, id, remaining, now, records);
  }

  // ---------------------------------------------------------------- the discipline is exact

  /** After a connect: finish it and write one byte, then receive one byte. */
  function Again(parse: Parser): seq<LookupEvent> {
    [DriveWrite(1, 1), DriveRead([Got([0])], parse)]
  }

  lemma WriteAgain(l: Lookup)
    requires l.session.conn.status == Connecting
    ensures var next := LookupNext(l, DriveWrite(1, 1));
      && next.session.gone == l.session.gone
      && if Fits(l.domain) then next.results == l.results && next.session.conn.status == Connected
         else |next.results| == |l.results| + 1 && next.session.conn.status == Disconnected
  {
    RequestLength(l.domain);
    OneSend(Request(l.domain));
  }

  /** From any lookup that has reported, reviving its socket leads to a second result. */
  lemma RevivingReportsTwice(l: Lookup, e: LookupEvent, parse: Parser)
    requires OneResult(l) && !l.session.gone && e.DriveConnect? && Revives(l, e)
    ensures LookupRun(LookupNext(l, e), Again(parse))
    ensures |Finish(LookupNext(l, e), Again(parse)).results| == 2
  {
    var l1 := LookupNext(l, e);
    var l2 := LookupNext(l1, Again(parse)[0]);
    var l3 := LookupNext(l2, Again(parse)[1]);
    WriteAgain(l1);
    OneShortChunk([0]);
    assert Again(parse)[1..] == [Again(parse)[1]] && Again(parse)[1..][1..] == [];
    assert LookupRun(l3, []) && Finish(l3, []) == l3;
    assert LookupRun(l2, Again(parse)[1..]) && Finish(l2, Again(parse)[1..]) == l3;
  }

  /** At most one result however the driver goes on. */
  ghost predicate NeverReportsTwice(l: Lookup) {
    forall events :: LookupRun(l, events) ==> |Finish(l, events).results| <= 1
  }

  /** RealConnect is safe for every continuation if and only if it revives nothing. */
  lemma ConnectIsSafe(l: Lookup, e: LookupEvent)
    requires OneResult(l) && !l.session.gone && e.DriveConnect?
    ensures NeverReportsTwice(LookupNext(l, e)) <==> !Revives(l, e)
  {
    if Revives(l, e) {
      RevivingReportsTwice(l, e, Parsed);
      assert !NeverReportsTwice(LookupNext(l, e));
    } else {
      ConnectKeepsOneResult(l, e);
      forall events | LookupRun(LookupNext(l, e), events) ensures |Finish(LookupNext(l, e), events).results| <= 1 {
        RunKeepsOneResult(LookupNext(l, e), events);
      }
    }
  }
}
