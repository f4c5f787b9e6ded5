/**
 The engine's state machine knows only the status of a socket; every step that
 changes one does what the socket itself does there.
 */
module EngineSocket {
  import opened Bytes
  import Socket = SocketSpec
  import SocketStatus
  import opened Engine
  import opened EngineProtocol

  /** Between `s` and `t` the status of `k` goes to `now`, and that of no other socket changes. */
  ghost predicate OnlyMoves(s: State, t: State, k: Sock, now: Socket.Status) {
    StatusOf(t, k) == now && forall x: Sock :: x != k ==> StatusOf(t, x) == StatusOf(s, x)
  }

  lemma ConnectAgrees(s: State, k: Sock, c: Socket.Conn, timeout: nat, now: nat)
    requires c.status == StatusOf(s, k)
    ensures OnlyMoves(s, ApplyUser(s, Connect(k)), k, Socket.Connect(c, true, timeout, now).status)
  {
  }

  /** A Connect in two steps is one in a single step when nothing comes in between. */
  lemma TwoStepsAgree(s: State, k: Sock)
    requires UserEnabled(s, SeeInit(k))
    ensures var seen := ApplyUser(s, SeeInit(k));
      UserEnabled(seen, Store(k)) && ApplyUser(seen, Store(k)) == ApplyUser(s, Connect(k))
  {
    assert s.pending + multiset{k} - multiset{k} == s.pending;
  }

  lemma CloseAgrees(s: State, k: Sock, c: Socket.Conn)
    requires c.status == StatusOf(s, k)
    ensures OnlyMoves(s, ApplyUser(s, Close(k)), k, Socket.Close(c).status)
  {
  }

  /** The guard and the end of RealConnect, with nothing in between, for every outcome of its calls. */
  lemma RealConnectAgrees(s: State, id: Id, c: Socket.Conn, fd: int, nonBlocking: bool, connecting: bool)
    requires RoundEnabled(s, Guard(id)) && c.status == StatusOf(s, s.startConnect[id])
    ensures var guarded := ApplyRound(s, Guard(id));
      var finish := FinishConnect(fd >= 0 && nonBlocking && connecting);
      && RoundEnabled(guarded, finish)
      && var t := ApplyRound(guarded, finish);
      && OnlyMoves(s, t, s.startConnect[id], Socket.RealConnect(c, fd, nonBlocking, connecting).status)
      && t.phase == s.phase && t.startConnect == s.startConnect - {id}
  {
  }

  /** While RealConnect is under way its socket reads as START_CONNECT, if it was that, or else as closed. */
  lemma GuardShows(s: State, id: Id)
    requires RoundEnabled(s, Guard(id))
    ensures var k := s.startConnect[id];
      OnlyMoves(s, ApplyRound(s, Guard(id)), k,
                if StatusOf(s, k) == Socket.StartConnect then Socket.StartConnect else Socket.Disconnected)
  {
  }

  /** Whatever the status was, also when somebody changes it between guard and end. */
  lemma FinishAgrees(s: State, c: Socket.Conn, fd: int, nonBlocking: bool, connecting: bool)
    requires var finish := FinishConnect(fd >= 0 && nonBlocking && connecting); RoundEnabled(s, finish)
    ensures var t := ApplyRound(s, FinishConnect(fd >= 0 && nonBlocking && connecting));
      OnlyMoves(s, t, s.startConnect[s.phase.id], Socket.RealConnect(c, fd, nonBlocking, connecting).status)
  {
  }

  /** afterThread closes each socket before it disconnects it. */
  lemma ShutdownAgrees(s: State, id: Id, c: Socket.Conn)
    requires ExitEnabled(s, BeginClose(id)) && c.status == StatusOf(s, s.closing[id])
    ensures var t := ApplyExit(s, BeginClose(id));
      && OnlyMoves(s, t, s.closing[id], Socket.Close(c).status)
      && ExitEnabled(t, EndClose) && ApplyExit(t, EndClose).log == s.log + [id]
  {
  }

  const QUIET: Socket.Effect := Socket.Effect([], false)

  /** A read or write of some socket in status `before` that leaves it in status `after`. */
  ghost predicate CanLead(before: Socket.Status, after: Socket.Status) {
    exists c: Socket.Conn, e: Socket.Event ::
      c.status == before && (e.ERealRead? || e.ERealWrite?) && Socket.Step(c, e).status == after
  }

  /** A served socket is left in the status the read or write gave it, and no other socket is touched. */
  lemma ServeMoves(s: State, id: Id, next: Socket.Status)
    requires RoundEnabled(s, Serve(id, next))
    ensures OnlyMoves(s, ApplyRound(s, Serve(id, next)), s.connected[id], next)
  {
  }

  /** The statuses a served socket may be left in are exactly those a read or a write can lead to. */
  lemma ServeAgrees(before: Socket.Status, after: Socket.Status)
    ensures Serves(before, after) <==> CanLead(before, after)
  {
    if CanLead(before, after) {
      var c: Socket.Conn, e: Socket.Event :|
        c.status == before && (e.ERealRead? || e.ERealWrite?) && Socket.Step(c, e).status == after;
      SocketStatus.StateDiagram(c, e, after);
    }
    if Serves(before, after) {
      var c := Socket.FRESH.(status := before);
      var finished := if before == after then 0 else if after == Socket.Connected then 1 else -1;
      var effect := Socket.Effect([], after == Socket.Disconnected);
      var e := Socket.ERealWrite(finished, 1, QUIET, effect);
      assert Socket.AcceptedAll([]) == [];
      assert Socket.Step(c, e).status == after;
    }
  }
}
