/** The engine's socket table: what each critical section does to it. */
module Engine {
  import opened Bytes
  import opened SocketSpec

  type Id = nat

  /** Identity of a shared socket object; one object may be added under several ids. */
  type Sock = nat

  function Rank(s: Status): nat {
    match s
    case Init => 0
    case StartConnect => 1
    case Connecting => 2
    case Connected => 3
    case Disconnected => 4
  }

  /** The status that test number `t` of the sweep, 0 to 4, compares a fresh read with. */
  function Wanted(t: nat): Status {
    if t == 0 then Init
    else if t == 1 then StartConnect
    else if t == 2 then Connecting
    else if t == 3 then Connected
    else Disconnected
  }

  datatype Bin = Stays | ToConnect | ToServe | ToDisconnect

  /** Where a socket goes when test number `t` succeeds; Connecting sockets go to connect again. */
  function BinOf(t: nat): Bin {
    if t == 0 then Stays else if t <= 2 then ToConnect else if t == 3 then ToServe else ToDisconnect
  }

  function Lookup(table: map<Id, Sock>, id: Id): Option<Sock> {
    if id in table then Some(table[id]) else None
  }

  /** The status each of the five reads of a socket returns. */
  type Observed = (Id, nat) -> Status

  /** Between two reads the status may change, but its rank never falls. */
  ghost predicate Rising(seen: Observed, id: Id) {
    forall j, k :: 0 <= j <= k < 5 ==> Rank(seen(id, j)) <= Rank(seen(id, k))
  }

  /** The number of the first test that succeeds; 5 is the sweep's error branch. */
  function FirstMatch(seen: Observed, id: Id, from: nat): (t: nat)
    requires from <= 5
    ensures from <= t <= 5
    ensures t < 5 ==> seen(id, t) == Wanted(t)
    ensures forall j :: from <= j < t ==> seen(id, j) != Wanted(j)
    decreases 5 - from
  {
    if from == 5 || seen(id, from) == Wanted(from) then from else FirstMatch(seen, id, from + 1)
  }

  lemma {:induction false} RisingMatches(seen: Observed, id: Id, from: nat)
    requires Rising(seen, id) && from < 5 && Rank(seen(id, from)) >= from
    ensures FirstMatch(seen, id, from) < 5
    decreases 5 - from
  {
    if seen(id, from) != Wanted(from) && from < 4 {
      assert Rank(seen(id, from)) <= Rank(seen(id, from + 1));
      RisingMatches(seen, id, from + 1);
    }
  }

  function BinSeen(seen: Observed, id: Id): Bin {
    BinOf(FirstMatch(seen, id, 0))
  }

  /** Some test succeeds. */
  predicate Matches(seen: Observed, id: Id) {
    FirstMatch(seen, id, 0) < 5
  }

  /** Every socket outside `todo` passes some test. */
  ghost predicate Matched(table: map<Id, Sock>, todo: set<Id>, seen: Observed) {
    forall id <- table :: id in todo || Matches(seen, id)
  }

  lemma MatchNext(table: map<Id, Sock>, todo: set<Id>, seen: Observed, id: Id)
    requires Matched(table, todo, seen) && id in table
    ensures Matches(seen, id) ==> Matched(table, todo - {id}, seen)
    ensures !Matches(seen, id) ==> !Matched(table, {}, seen)
  {
  }

  /** The five tests in the order of the code. */
  lemma BinByReads(seen: Observed, id: Id)
    ensures BinSeen(seen, id) ==
      if seen(id, 0) == Init then Stays
      else if seen(id, 1) == StartConnect || seen(id, 2) == Connecting then ToConnect
      else if seen(id, 3) == Connected then ToServe
      else ToDisconnect
    ensures Matches(seen, id) <==>
      || seen(id, 0) == Init || seen(id, 1) == StartConnect || seen(id, 2) == Connecting
      || seen(id, 3) == Connected || seen(id, 4) == Disconnected
  {
    var t := FirstMatch(seen, id, 0);
    assert t < 5 ==> seen(id, t) == Wanted(t);
  }

  /** A socket closed before its first read leaves, and only a socket seen closed leaves. */
  lemma LeavesWhenClosed(seen: Observed, id: Id)
    requires Rising(seen, id)
    ensures seen(id, 0) == Disconnected ==> BinSeen(seen, id) == ToDisconnect
    ensures BinSeen(seen, id) == ToDisconnect ==> seen(id, 4) == Disconnected
  {
    RisingMatches(seen, id, 0);
    assert forall k :: 0 <= k < 5 ==> Rank(seen(id, 0)) <= Rank(seen(id, k));
  }

  /** The sockets outside `todo` whose first successful test files them under `bin`. */
  function Filed(table: map<Id, Sock>, todo: set<Id>, seen: Observed, bin: Bin): map<Id, Sock> {
    map id | id in table && id !in todo && BinSeen(seen, id) == bin :: table[id]
  }

  lemma FileNext(table: map<Id, Sock>, todo: set<Id>, seen: Observed, id: Id, bin: Bin)
    requires id in table && id in todo
    ensures Filed(table, todo - {id}, seen, bin)
         == if BinSeen(seen, id) == bin then Filed(table, todo, seen, bin)[id := table[id]]
            else Filed(table, todo, seen, bin)
  {
  }

  /** The sweep loop with `todo` still ahead: three local maps, and the table without the disconnected. */
  ghost predicate SweptSoFar(was: map<Id, Sock>, todo: set<Id>, seen: Observed, table: map<Id, Sock>,
                             startConnect: map<Id, Sock>, connected: map<Id, Sock>, disconnect: map<Id, Sock>)
  {
    && todo <= was.Keys
    && startConnect == Filed(was, todo, seen, ToConnect)
    && connected == Filed(was, todo, seen, ToServe)
    && disconnect == Filed(was, todo, seen, ToDisconnect)
    && table == was - disconnect.Keys
  }

  lemma NoneSweptYet(was: map<Id, Sock>, seen: Observed)
    ensures SweptSoFar(was, was.Keys, seen, was, map[], map[], map[]) && Matched(was, was.Keys, seen)
  {
  }

  lemma StillThere(was: map<Id, Sock>, todo: set<Id>, seen: Observed, table: map<Id, Sock>,
                   sc: map<Id, Sock>, cd: map<Id, Sock>, dc: map<Id, Sock>, id: Id)
    requires SweptSoFar(was, todo, seen, table, sc, cd, dc) && id in todo
    ensures id in table && table[id] == was[id]
  {
  }

  lemma SkipOne(was: map<Id, Sock>, todo: set<Id>, seen: Observed, table: map<Id, Sock>,
                sc: map<Id, Sock>, cd: map<Id, Sock>, dc: map<Id, Sock>, id: Id)
    requires SweptSoFar(was, todo, seen, table, sc, cd, dc) && id in todo && BinSeen(seen, id) == Stays
    ensures SweptSoFar(was, todo - {id}, seen, table, sc, cd, dc)
  {
    FileNext(was, todo, seen, id, ToConnect);
    FileNext(was, todo, seen, id, ToServe);
    FileNext(was, todo, seen, id, ToDisconnect);
  }

  lemma ConnectOne(was: map<Id, Sock>, todo: set<Id>, seen: Observed, table: map<Id, Sock>,
                   sc: map<Id, Sock>, cd: map<Id, Sock>, dc: map<Id, Sock>, id: Id)
    requires SweptSoFar(was, todo, seen, table, sc, cd, dc) && id in todo && BinSeen(seen, id) == ToConnect
    ensures SweptSoFar(was, todo - {id}, seen, table, sc[id := was[id]], cd, dc)
  {
    FileNext(was, todo, seen, id, ToConnect);
    FileNext(was, todo, seen, id, ToServe);
    FileNext(was, todo, seen, id, ToDisconnect);
  }

  lemma ServeOne(was: map<Id, Sock>, todo: set<Id>, seen: Observed, table: map<Id, Sock>,
                 sc: map<Id, Sock>, cd: map<Id, Sock>, dc: map<Id, Sock>, id: Id)
    requires SweptSoFar(was, todo, seen, table, sc, cd, dc) && id in todo && BinSeen(seen, id) == ToServe
    ensures SweptSoFar(was, todo - {id}, seen, table, sc, cd[id := was[id]], dc)
  {
    FileNext(was, todo, seen, id, ToConnect);
    FileNext(was, todo, seen, id, ToServe);
    FileNext(was, todo, seen, id, ToDisconnect);
  }

  lemma TableWithout(was: map<Id, Sock>, dc: map<Id, Sock>, id: Id)
    requires id in was
    ensures was - dc[id := was[id]].Keys == (was - dc.Keys) - {id}
  {
    assert dc[id := was[id]].Keys == dc.Keys + {id};
  }

  lemma DropOne(was: map<Id, Sock>, todo: set<Id>, seen: Observed, table: map<Id, Sock>,
                sc: map<Id, Sock>, cd: map<Id, Sock>, dc: map<Id, Sock>, id: Id)
    requires SweptSoFar(was, todo, seen, table, sc, cd, dc) && id in todo && BinSeen(seen, id) == ToDisconnect
    ensures SweptSoFar(was, todo - {id}, seen, table - {id}, sc, cd, dc[id := was[id]])
  {
    TableWithout(was, dc, id);
    FileNext(was, todo, seen, id, ToConnect);
    FileNext(was, todo, seen, id, ToServe);
    FileNext(was, todo, seen, id, ToDisconnect);
  }

  /** Calls the engine makes on the socket under an id. */
  datatype Call = CallClose(id: Id) | CallRealDisconnect(id: Id)

  /** Each socket is closed, then at once disconnected, in the given order. */
  function Shutdown(order: seq<Id>): seq<Call> {
    if order == [] then []
    else
      var id := order[|order| - 1];
      Shutdown(order[..|order| - 1]) + [CallClose(id), CallRealDisconnect(id)]
  }

  /** The calls of a shutdown: every id of the table is closed once and disconnected once, at once after its Close. */
  ghost predicate ShutDown(calls: seq<Call>, ids: set<Id>) {
    && |calls| == 2 * |ids|
    && (forall id: Id :: multiset(calls)[CallClose(id)] == multiset(ids)[id])
    && (forall id: Id :: multiset(calls)[CallRealDisconnect(id)] == multiset(ids)[id])
    && (forall k :: 0 <= k < |calls| && calls[k].CallRealDisconnect? ==>
          k > 0 && calls[k - 1] == CallClose(calls[k].id))
  }

  lemma TwoMoreCalls(calls: seq<Call>, last: Id, id: Id)
    ensures var more := calls + [CallClose(last), CallRealDisconnect(last)];
      var one := if id == last then 1 else 0;
      && multiset(more)[CallClose(id)] == multiset(calls)[CallClose(id)] + one
      && multiset(more)[CallRealDisconnect(id)] == multiset(calls)[CallRealDisconnect(id)] + one
  {
  }

  lemma {:induction false} ShutdownCalls(order: seq<Id>, id: Id)
    ensures |Shutdown(order)| == 2 * |order|
    ensures multiset(Shutdown(order))[CallClose(id)] == multiset(order)[id]
    ensures multiset(Shutdown(order))[CallRealDisconnect(id)] == multiset(order)[id]
    decreases |order|
  {
    if order != [] {
      var front, last := order[..|order| - 1], order[|order| - 1];
      ShutdownCalls(front, id);
      TwoMoreCalls(Shutdown(front), last, id);
      assert order == front + [last];
      assert multiset(order) == multiset(front) + multiset{last};
    }
  }

  lemma {:induction false} ShutdownPairs(order: seq<Id>, k: nat)
    requires k < |Shutdown(order)| && Shutdown(order)[k].CallRealDisconnect?
    ensures k > 0 && Shutdown(order)[k - 1] == CallClose(Shutdown(order)[k].id)
    decreases |order|
  {
    var front := order[..|order| - 1];
    if k < |Shutdown(front)| {
      ShutdownPairs(front, k);
    }
  }

  lemma ShutdownIsRight(order: seq<Id>, ids: set<Id>)
    requires multiset(order) == multiset(ids)
    ensures ShutDown(Shutdown(order), ids)
  {
    forall id: Id
      ensures multiset(Shutdown(order))[CallClose(id)] == multiset(ids)[id]
      ensures multiset(Shutdown(order))[CallRealDisconnect(id)] == multiset(ids)[id]
    {
      ShutdownCalls(order, id);
    }
    ShutdownCalls(order, 0);
    assert |multiset(order)| == |multiset(ids)|;
    forall k | 0 <= k < |Shutdown(order)| && Shutdown(order)[k].CallRealDisconnect?
      ensures k > 0 && Shutdown(order)[k - 1] == CallClose(Shutdown(order)[k].id)
    {
      ShutdownPairs(order, k);
    }
  }

  class Engine {
    var fd: nat
    var sockets: map<Id, Sock>
    ghost var calls: seq<Call>

    ghost predicate Valid()
      reads this
    {
      forall id <- sockets :: 1 <= id <= fd
    }

    constructor ()
      ensures Valid() && fd == 0 && sockets == map[] && calls == []
    {
      fd := 0;
      sockets := map[];
      calls := [];
    }

    /** Ids are fresh: never zero, never in use. */
    method Add(socket: Sock) returns (id: Id)
      requires Valid()
      modifies this`fd, this`sockets
      ensures Valid()
      ensures id == fd == old(fd) + 1 && id !in old(sockets)
      ensures sockets == old(sockets)[id := socket]
    {
      fd := fd + 1;
      sockets := sockets[fd := socket];
      return fd;
    }

    method Query(id: Id) returns (socket: Option<Sock>)
      ensures id in sockets ==> socket == Some(sockets[id])
      ensures id !in sockets ==> socket == None
    {
      if id !in sockets {
        return None;
      }
      return Some(sockets[id]);
    }

    /**
     One sweep while other threads change statuses. It succeeds exactly when
     every socket passes some test. Each socket outside `rest` is filed by the
     first test it passes, and exactly the disconnected ones of them leave.
     */
    method Sweep(seen: Observed)
      returns (ok: bool, startConnect: map<Id, Sock>, connecting: map<Id, Sock>,
               connected: map<Id, Sock>, disconnect: map<Id, Sock>, ghost rest: set<Id>)
      requires Valid()
      modifies this`sockets
      ensures Valid() && connecting == map[]
      ensures ok <==> Matched(old(sockets), {}, seen)
      ensures ok <==> rest == {}
      ensures SweptSoFar(old(sockets), rest, seen, sockets, startConnect, connected, disconnect)
    {
      startConnect, connecting, connected, disconnect := map[], map[], map[], map[];
      ghost var was := sockets;
      var todo := sockets.Keys;
      NoneSweptYet(was, seen);
      while todo != {}
        invariant Valid() && connecting == map[]
        invariant SweptSoFar(was, todo, seen, sockets, startConnect, connected, disconnect)
        invariant Matched(was, todo, seen)
        decreases |todo|
      {
        var id :| id in todo;
        MatchNext(was, todo, seen, id);
        ok, startConnect, connected, disconnect :=
          File(seen, id, startConnect, connected, disconnect, was, todo);
        if !ok {
          rest := todo;
          return;
        }
        todo := todo - {id};
      }
      ok, rest := true, {};
    }

    /** One socket of the sweep: filed by the first test it passes; without one nothing changes. */
    method File(seen: Observed, id: Id, startConnect: map<Id, Sock>, connected: map<Id, Sock>,
                disconnect: map<Id, Sock>, ghost was: map<Id, Sock>, ghost todo: set<Id>)
      returns (ok: bool, toConnect: map<Id, Sock>, toServe: map<Id, Sock>, toDrop: map<Id, Sock>)
      requires Valid() && SweptSoFar(was, todo, seen, sockets, startConnect, connected, disconnect) && id in todo
      modifies this`sockets
      ensures Valid() && (ok <==> Matches(seen, id))
      ensures ok ==> SweptSoFar(was, todo - {id}, seen, sockets, toConnect, toServe, toDrop)
      ensures !ok ==> sockets == old(sockets) && toConnect == startConnect
      ensures !ok ==> toServe == connected && toDrop == disconnect
    {
      ok, toConnect, toServe, toDrop := true, startConnect, connected, disconnect;
      BinByReads(seen, id);
      StillThere(was, todo, seen, sockets, startConnect, connected, disconnect, id);
      if seen(id, 0) == Init {
        SkipOne(was, todo, seen, sockets, startConnect, connected, disconnect, id);
      } else if seen(id, 1) == StartConnect {
        ConnectOne(was, todo, seen, sockets, startConnect, connected, disconnect, id);
        toConnect := startConnect[id := sockets[id]];
      } else if seen(id, 2) == Connecting {
        ConnectOne(was, todo, seen, sockets, startConnect, connected, disconnect, id);
        toConnect := startConnect[id := sockets[id]];
      } else if seen(id, 3) == Connected {
        ServeOne(was, todo, seen, sockets, startConnect, connected, disconnect, id);
        toServe := connected[id := sockets[id]];
      } else if seen(id, 4) == Disconnected {
        DropOne(was, todo, seen, sockets, startConnect, connected, disconnect, id);
        toDrop := disconnect[id := sockets[id]];
        sockets := sockets - {id};
      } else {
        ok := false;
      }
    }

    /** Shutdown: take every socket out, then close and disconnect each of them, one after the other. */
    method AfterThread() returns (ghost order: seq<Id>)
      requires Valid()
      modifies this`sockets, this`calls
      ensures Valid() && sockets == map[]
      ensures calls == old(calls) + Shutdown(order)
      ensures multiset(order) == multiset(old(sockets).Keys)
      ensures ShutDown(calls[|old(calls)|..], old(sockets).Keys)
    {
      var disconnectSockets := sockets;
      sockets := map[];
      var todo := disconnectSockets.Keys;
      order := [];
      while todo != {}
        invariant todo <= disconnectSockets.Keys && sockets == map[]
        invariant calls == old(calls) + Shutdown(order)
        invariant multiset(order) + multiset(todo) == multiset(disconnectSockets.Keys)
        decreases |todo|
      {
        var id :| id in todo;
        assert (order + [id])[..|order|] == order;
        calls := calls + [CallClose(id)];
        calls := calls + [CallRealDisconnect(id)];
        order := order + [id];
        todo := todo - {id};
      }
      ShutdownIsRight(order, disconnectSockets.Keys);
      assert calls[|old(calls)|..] == Shutdown(order);
    }
  }
}
