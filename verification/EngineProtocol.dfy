/**
 The engine thread and any number of user threads, step by step. Every access
 to shared state is one step; Add and Query wait for the mutex, which the
 sweep holds from its first test to its last. Connect's test and store may be
 one step, or two with anything in between.
 */
module EngineProtocol {
  import opened Bytes
  import opened SocketSpec
  import opened Engine

  /** Where the engine thread is. */
  datatype Phase =
    | Sleeping                                          // between rounds
    | Sweeping(todo: set<Id>, at: Option<Id>, test: nat)  // mutex held
    | Dropping                                          // disconnecting the swept-out sockets
    | Starting                                          // RealConnect, socket by socket
    | InConnect(id: Id)                                 // past RealConnect's status guard
    | Checking                                          // the sockets filed as connecting
    | Serving                                           // reads and writes
    | Leaving                                           // the thread's loop has ended
    | Closing                                           // afterThread, table swapped out
    | InClose(id: Id)                                   // between Close and RealDisconnect
    | Stopped

  /**
   `log` lists the ids that got RealDisconnect, `added` every id ever handed
   out, `mark` the last id before the last swap. `pending` holds a socket once
   for every Connect that has seen Init and has not stored yet.
   */
  datatype State = State(
    fd: nat, sockets: map<Id, Sock>, status: map<Sock, Status>, phase: Phase,
    startConnect: map<Id, Sock>, connecting: map<Id, Sock>, connected: map<Id, Sock>,
    disconnect: map<Id, Sock>, closing: map<Id, Sock>,
    log: seq<Id>, added: map<Id, Sock>, mark: nat, pending: multiset<Sock>)

  const START: State := State(0, map[], map[], Stopped, map[], map[], map[], map[], map[], [], map[], 0, multiset{})

  /** User threads, at any moment. SeeInit and Store are the two halves of a Connect that is not one step. */
  datatype UserStep =
    | Add(sock: Sock)
    | Query(id: Id)
    | Connect(sock: Sock)
    | Close(sock: Sock)
    | SeeInit(sock: Sock)
    | Store(sock: Sock)

  /** The engine thread under the mutex. */
  datatype SweepStep = BeginSweep | Pick(id: Id) | Test | SweepError | EndSweep

  /** The rest of a round. */
  datatype RoundStep =
    | EmptyRound
    | Drop(id: Id)
    | EndDrop
    | Guard(id: Id)
    | FinishConnect(ok: bool)
    | EndStart
    | Check(id: Id, addFdFails: bool)
    | EndCheck
    | Serve(id: Id, next: Status)
    | EndRound

  /** The end of the thread, and its restart. */
  datatype ExitStep = Leave | Swap | BeginClose(id: Id) | EndClose | EndClosing | Restart

  datatype Action = User(u: UserStep) | Sweep(w: SweepStep) | Round(r: RoundStep) | Exit(x: ExitStep)

  /** A socket nobody has touched is in its initial status. */
  function StatusOf(s: State, k: Sock): Status {
    if k in s.status then s.status[k] else Init
  }

  function SetStatus(s: State, k: Sock, v: Status): State {
    s.(status := s.status[k := v])
  }

  predicate MutexFree(s: State) {
    !s.phase.Sweeping?
  }

  /** Statuses RealWrite and RealRead can leave behind. */
  predicate Serves(before: Status, after: Status) {
    || after == Disconnected
    || (before == Connecting && (after == Connecting || after == Connected))
    || (before == Connected && after == Connected)
  }

  // ---------------------------------------------------------------- user threads

  predicate UserEnabled(s: State, u: UserStep) {
    && (u.Add? || u.Query? ==> MutexFree(s))
    && (u.SeeInit? ==> StatusOf(s, u.sock) == Init)
    && (u.Store? ==> u.sock in s.pending)
  }

  function ApplyUser(s: State, u: UserStep): State {
    match u
    case Add(k) => s.(fd := s.fd + 1, sockets := s.sockets[s.fd + 1 := k], added := s.added[s.fd + 1 := k])
    case Query(_) => s
    case Connect(k) => if StatusOf(s, k) == Init then SetStatus(s, k, StartConnect) else s
    case Close(k) => SetStatus(s, k, Disconnected)
    case SeeInit(k) => s.(pending := s.pending + multiset{k})
    case Store(k) => s.(status := s.status[k := StartConnect], pending := s.pending - multiset{k})
  }

  // ---------------------------------------------------------------- the sweep

  predicate SweepEnabled(s: State, w: SweepStep) {
    match w
    case BeginSweep => s.phase == Sleeping && s.sockets != map[]
    case Pick(id) => s.phase.Sweeping? && s.phase.at == None && id in s.phase.todo
    case Test => s.phase.Sweeping? && s.phase.at.Some? && s.phase.test < 5 && s.phase.at.value in s.sockets
    case SweepError => s.phase.Sweeping? && s.phase.test >= 5
    case EndSweep => s.phase.Sweeping? && s.phase.at == None && s.phase.todo == {}
  }

  /** One status read of the sweep, and what follows when it succeeds. */
  function DoTest(s: State): State
    requires SweepEnabled(s, Test)
  {
    var id, t, todo := s.phase.at.value, s.phase.test, s.phase.todo;
    var k := s.sockets[id];
    var hit := StatusOf(s, k) == Wanted(t);
    var gone := hit && BinOf(t) == ToDisconnect;
    s.(phase := if hit then Sweeping(todo - {id}, None, 0) else Sweeping(todo, Some(id), t + 1),
       startConnect := if hit && BinOf(t) == ToConnect then s.startConnect[id := k] else s.startConnect,
       connected := if hit && BinOf(t) == ToServe then s.connected[id := k] else s.connected,
       disconnect := if gone then s.disconnect[id := k] else s.disconnect,
       sockets := if gone then s.sockets - {id} else s.sockets)
  }

  /** The round's local maps go out of scope. */
  function Forget(s: State, next: Phase): State {
    s.(phase := next, startConnect := map[], connecting := map[], connected := map[], disconnect := map[])
  }

  function ApplySweep(s: State, w: SweepStep): State
    requires SweepEnabled(s, w)
  {
    match w
    case BeginSweep => s.(phase := Sweeping(s.sockets.Keys, None, 0))
    case Pick(id) => s.(phase := Sweeping(s.phase.todo, Some(id), 0))
    case Test => DoTest(s)
    case SweepError => Forget(s, Leaving)
    case EndSweep => s.(phase := Dropping)
  }

  // ---------------------------------------------------------------- the rest of a round

  predicate RoundEnabled(s: State, r: RoundStep) {
    match r
    case EmptyRound => s.phase == Sleeping && s.sockets == map[]
    case Drop(id) => s.phase == Dropping && id in s.disconnect
    case EndDrop => s.phase == Dropping && s.disconnect == map[]
    case Guard(id) => s.phase == Starting && id in s.startConnect
    case FinishConnect(_) => s.phase.InConnect? && s.phase.id in s.startConnect
    case EndStart => s.phase == Starting && s.startConnect == map[]
    case Check(id, _) => s.phase == Checking && id in s.connecting
    case EndCheck => s.phase == Checking && s.connecting == map[]
    case Serve(id, next) => s.phase == Serving && id in s.connected && Serves(StatusOf(s, s.connected[id]), next)
    case EndRound => s.phase == Serving
  }

  function ApplyRound(s: State, r: RoundStep): State
    requires RoundEnabled(s, r)
  {
    match r
    case EmptyRound => s
    case Drop(id) => s.(disconnect := s.disconnect - {id}, log := s.log + [id])
    case EndDrop => s.(phase := Starting)
    case Guard(id) =>
      var k := s.startConnect[id];
      s.(phase := InConnect(id),
         status := if StatusOf(s, k) != StartConnect then s.status[k := Disconnected] else s.status)
    case FinishConnect(ok) =>
      var id := s.phase.id;
      s.(phase := Starting, startConnect := s.startConnect - {id},
         status := s.status[s.startConnect[id] := if ok then Connecting else Disconnected])
    case EndStart => s.(phase := Checking)
    case Check(id, addFdFails) =>
      s.(connecting := s.connecting - {id}, connected := s.connected[id := s.connecting[id]],
         log := if addFdFails then s.log + [id] else s.log)
    case EndCheck => s.(phase := Serving)
    case Serve(id, next) => SetStatus(s, s.connected[id], next)
    case EndRound => Forget(s, Sleeping)
  }

  // ---------------------------------------------------------------- shutdown

  predicate ExitEnabled(s: State, x: ExitStep) {
    match x
    case Leave => s.phase == Sleeping
    case Swap => s.phase == Leaving
    case BeginClose(id) => s.phase == Closing && id in s.closing
    case EndClose => s.phase.InClose? && s.phase.id in s.closing
    case EndClosing => s.phase == Closing && s.closing == map[]
    case Restart => s.phase == Stopped
  }

  function ApplyExit(s: State, x: ExitStep): State
    requires ExitEnabled(s, x)
  {
    match x
    case Leave => s.(phase := Leaving)
    case Swap => s.(phase := Closing, closing := s.sockets, sockets := map[], mark := s.fd)
    case BeginClose(id) => s.(phase := InClose(id), status := s.status[s.closing[id] := Disconnected])
    case EndClose =>
      var id := s.phase.id;
      s.(phase := Closing, closing := s.closing - {id}, log := s.log + [id])
    case EndClosing => s.(phase := Stopped)
    case Restart => s.(phase := Sleeping)
  }

  // ---------------------------------------------------------------- the thread's way

  /** The places of the engine thread in the order of its code. */
  function Line(p: Phase): nat {
    match p
    case Sleeping => 0
    case Sweeping(_, _, _) => 1
    case Dropping => 2
    case Starting => 3
    case InConnect(_) => 4
    case Checking => 5
    case Serving => 6
    case Leaving => 7
    case Closing => 8
    case InClose(_) => 9
    case Stopped => 10
  }

  /** From line to line: down the code, back to the loop over sockets it is in, or back to the top. */
  predicate Way(from: nat, to: nat) {
    || to == from
    || (from == 0 && (to == 1 || to == 7)) || (from == 1 && (to == 2 || to == 7)) || (from == 2 && to == 3)
    || (from == 3 && (to == 4 || to == 5)) || (from == 4 && to == 3) || (from == 5 && to == 6) || (from == 6 && to == 0)
    || (from == 7 && to == 8) || (from == 8 && (to == 9 || to == 10)) || (from == 9 && to == 8)
    || (from == 10 && to == 0)
  }

  /** Steps within a line: what users do, and turns of a loop. */
  predicate Remains(a: Action) {
    match a
    case User(_) => true
    case Sweep(w) => w.Pick? || w.Test?
    case Round(r) => r.EmptyRound? || r.Drop? || r.Check? || r.Serve?
    case Exit(_) => false
  }

  /** Steps after which the thread is past its loop. */
  predicate Quits(a: Action) {
    a == Exit(Leave) || a == Sweep(SweepError)
  }

  /** The way from `p` to `q` is one of the code's, and step `a` belongs there. */
  predicate WayOf(p: Phase, a: Action, q: Phase) {
    var from, to := Line(p), Line(q);
    && Way(from, to)
    && (Remains(a) <==> to == from) && (a == Round(EndStart) ==> to == 5)
    && (from < 7 && to == 7 <==> Quits(a))
  }

  lemma UserStaysAside(s: State, u: UserStep)
    ensures ApplyUser(s, u).phase == s.phase && WayOf(s.phase, User(u), s.phase)
  {
  }

  lemma SweepGoesItsWay(s: State, w: SweepStep)
    requires SweepEnabled(s, w)
    ensures WayOf(s.phase, Sweep(w), ApplySweep(s, w).phase)
  {
  }

  lemma RoundGoesItsWay(s: State, r: RoundStep)
    requires RoundEnabled(s, r)
    ensures WayOf(s.phase, Round(r), ApplyRound(s, r).phase)
  {
  }

  lemma ExitGoesItsWay(s: State, x: ExitStep)
    requires ExitEnabled(s, x)
    ensures WayOf(s.phase, Exit(x), ApplyExit(s, x).phase)
  {
  }

  /** Every step goes the way of the code, turns of a loop stay in it, and only a quit leaves the thread's loop. */
  lemma ThreadGoesItsWay(s: State, a: Action)
    requires Enabled(s, a)
    ensures WayOf(s.phase, a, Apply(s, a).phase)
    ensures a.User? ==> Apply(s, a).phase == s.phase
  {
    match a {
      case User(u) => UserStaysAside(s, u);
      case Sweep(w) => SweepGoesItsWay(s, w);
      case Round(r) => RoundGoesItsWay(s, r);
      case Exit(x) => ExitGoesItsWay(s, x);
    }
  }

  predicate NeverRestarts(acts: seq<Action>) {
    forall k :: 0 <= k < |acts| ==> acts[k] != Exit(Restart)
  }

  /** Once past its loop the thread never comes back to it, short of a restart. */
  lemma {:induction false} LoopIsOver(s: State, acts: seq<Action>)
    requires Line(s.phase) >= 7 && PossibleRun(s, acts) && NeverRestarts(acts)
    ensures Line(Run(s, acts).phase) >= 7
    decreases |acts|
  {
    if acts != [] {
      ThreadGoesItsWay(s, acts[0]);
      assert forall k :: 0 <= k < |acts[1..]| ==> acts[1..][k] == acts[k + 1];
      LoopIsOver(Apply(s, acts[0]), acts[1..]);
    }
  }

  /** A socket filed as connecting is disconnected in the check exactly when its descriptor cannot be watched. */
  lemma CheckDisconnects(s: State, id: Id, addFdFails: bool)
    requires RoundEnabled(s, Check(id, addFdFails))
    ensures var t := ApplyRound(s, Check(id, addFdFails));
      && Disconnects(t.log, id) == Disconnects(s.log, id) + (if addFdFails then 1 else 0)
      && id in t.connected && t.connected[id] == s.connecting[id] && id !in t.connecting
  {
  }

  // ---------------------------------------------------------------- runs

  predicate Enabled(s: State, a: Action) {
    match a
    case User(u) => UserEnabled(s, u)
    case Sweep(w) => SweepEnabled(s, w)
    case Round(r) => RoundEnabled(s, r)
    case Exit(x) => ExitEnabled(s, x)
  }

  function Apply(s: State, a: Action): State
    requires Enabled(s, a)
  {
    match a
    case User(u) => ApplyUser(s, u)
    case Sweep(w) => ApplySweep(s, w)
    case Round(r) => ApplyRound(s, r)
    case Exit(x) => ApplyExit(s, x)
  }

  predicate PossibleRun(s: State, acts: seq<Action>)
    decreases |acts|
  {
    acts == [] || (Enabled(s, acts[0]) && PossibleRun(Apply(s, acts[0]), acts[1..]))
  }

  function Run(s: State, acts: seq<Action>): State
    requires PossibleRun(s, acts)
    decreases |acts|
  {
    if acts == [] then s else Run(Apply(s, acts[0]), acts[1..])
  }

  predicate IsStore(a: Action) {
    a.User? && a.u.Store?
  }

  /** Connect tests and stores in one step. */
  predicate AtomicConnects(acts: seq<Action>) {
    forall k :: 0 <= k < |acts| ==> !IsStore(acts[k])
  }

  /** A late store to the socket under the sweep's tests, after the test that could have matched it. */
  predicate Harmful(s: State, a: Action) {
    && IsStore(a) && s.phase.Sweeping? && s.phase.at.Some? && s.phase.test >= 2
    && s.phase.at.value in s.sockets && s.sockets[s.phase.at.value] == a.u.sock
  }

  /** A run in which no store is harmful. */
  predicate SafeRun(s: State, acts: seq<Action>)
    decreases |acts|
  {
    acts == [] || (Enabled(s, acts[0]) && !Harmful(s, acts[0]) && SafeRun(Apply(s, acts[0]), acts[1..]))
  }

  lemma {:induction false} SafeIsPossible(s: State, acts: seq<Action>)
    requires SafeRun(s, acts)
    ensures PossibleRun(s, acts)
    decreases |acts|
  {
    if acts != [] {
      SafeIsPossible(Apply(s, acts[0]), acts[1..]);
    }
  }

  lemma {:induction false} AtomicIsSafe(s: State, acts: seq<Action>)
    requires PossibleRun(s, acts) && AtomicConnects(acts)
    ensures SafeRun(s, acts)
    decreases |acts|
  {
    if acts != [] {
      assert forall k :: 0 <= k < |acts[1..]| ==> acts[1..][k] == acts[k + 1];
      AtomicIsSafe(Apply(s, acts[0]), acts[1..]);
    }
  }

  // ---------------------------------------------------------------- the invariant

  ghost predicate Agrees(m: map<Id, Sock>, added: map<Id, Sock>) {
    forall id <- m :: id in added && m[id] == added[id]
  }

  ghost predicate Distinct(log: seq<Id>) {
    forall i, j :: 0 <= i < j < |log| ==> log[i] != log[j]
  }

  /** Ids are handed out in order, and each is in one place: the table, on its way out, or done. */
  ghost predicate Accounted(s: State) {
    && (forall id: Id :: id in s.added <==> 1 <= id <= s.fd)
    && Agrees(s.sockets, s.added) && Agrees(s.disconnect, s.added) && Agrees(s.closing, s.added)
    && Distinct(s.log)
    && (forall id <- s.log :: id in s.added && id !in s.sockets && id !in s.disconnect && id !in s.closing)
    && s.sockets.Keys !! s.disconnect.Keys !! s.closing.Keys
    && (forall id <- s.added :: id in s.sockets || id in s.disconnect || id in s.closing || id in s.log)
  }

  /** What is waiting to leave, and when. */
  ghost predicate Timely(s: State) {
    && s.mark <= s.fd
    && (forall id <- s.sockets :: id > s.mark)
    && (forall id <- s.disconnect :: id > s.mark)
    && (forall id <- s.closing :: id <= s.mark)
    && (s.phase == Closing || s.phase.InClose? || s.phase == Stopped ==> forall id <- s.log :: id <= s.mark)
    && (s.disconnect != map[] ==> s.phase.Sweeping? || s.phase == Dropping)
    && (s.closing != map[] ==> s.phase == Closing || s.phase.InClose?)
  }

  /** The sweep's current socket has not fallen below the test it is at. */
  ghost predicate SweepOnTrack(s: State) {
    s.phase.Sweeping? ==>
      && s.phase.todo <= s.sockets.Keys
      && s.phase.test < 5
      && (s.phase.at.Some? ==>
            && s.phase.at.value in s.phase.todo
            && Rank(StatusOf(s, s.sockets[s.phase.at.value])) >= s.phase.test)
  }

  /** What is filed to connect is in the table and has been tested; it is gone when the round ends. */
  ghost predicate Filing(s: State) {
    && (forall id <- s.startConnect :: id in s.sockets && s.startConnect[id] == s.sockets[id])
    && (s.phase.Sweeping? ==> s.phase.todo !! s.startConnect.Keys)
    && (s.phase.InConnect? ==> s.phase.id in s.startConnect)
    && (s.startConnect != map[] ==>
          s.phase.Sweeping? || s.phase == Dropping || s.phase == Starting || s.phase.InConnect?)
  }

  /** Nothing is ever filed as connecting, and nothing ever becomes connected. */
  ghost predicate NeverConnected(s: State) {
    && s.connecting == map[] && s.connected == map[]
    && forall k: Sock :: StatusOf(s, k) != Connected
  }

  ghost predicate Inv(s: State) {
    Accounted(s) && Timely(s) && Filing(s) && SweepOnTrack(s) && NeverConnected(s)
  }

  ghost predicate SameIds(s: State, t: State) {
    && t.fd == s.fd && t.added == s.added && t.log == s.log && t.mark == s.mark
    && t.sockets == s.sockets && t.disconnect == s.disconnect && t.closing == s.closing
  }

  lemma SameAccounts(s: State, t: State)
    requires Accounted(s) && SameIds(s, t)
    ensures Accounted(t)
  {
  }

  /** User steps only raise a socket's rank, except for a late store. */
  lemma UserRaisesRank(s: State, u: UserStep, k: Sock)
    requires StatusOf(s, k) != Connected && !u.Store?
    ensures var now := StatusOf(ApplyUser(s, u), k); now != Connected && Rank(now) >= Rank(StatusOf(s, k))
  {
  }

  /** So a test that failed stays failed. */
  lemma UserKeepsTrack(s: State, u: UserStep)
    requires Inv(s) && UserEnabled(s, u) && !u.Store?
    ensures SweepOnTrack(ApplyUser(s, u)) && NeverConnected(ApplyUser(s, u))
  {
    forall k: Sock
      ensures StatusOf(ApplyUser(s, u), k) != Connected
      ensures Rank(StatusOf(ApplyUser(s, u), k)) >= Rank(StatusOf(s, k))
    {
      assert StatusOf(s, k) != Connected;
      UserRaisesRank(s, u, k);
    }
  }

  /** A late store keeps the sweep on track exactly when it is not harmful. */
  lemma StoreKeepsTrack(s: State, u: UserStep)
    requires Inv(s) && UserEnabled(s, u) && u.Store?
    ensures SweepOnTrack(ApplyUser(s, u)) <==> !Harmful(s, User(u))
    ensures NeverConnected(ApplyUser(s, u))
  {
    forall k: Sock ensures StatusOf(ApplyUser(s, u), k) == if k == u.sock then StartConnect else StatusOf(s, k) {
    }
  }

  lemma SamePlace(s: State, t: State)
    requires Inv(s) && SameIds(s, t) && t.phase == s.phase && t.startConnect == s.startConnect
    ensures Accounted(t) && Timely(t) && Filing(t)
  {
  }

  lemma UserKeepsInv(s: State, u: UserStep)
    requires Inv(s) && UserEnabled(s, u)
    ensures Inv(ApplyUser(s, u)) <==> !Harmful(s, User(u))
  {
    if u.Add? {
      AddKeepsInv(s, u.sock);
    } else {
      SamePlace(s, ApplyUser(s, u));
      if u.Store? {
        StoreKeepsTrack(s, u);
      } else {
        UserKeepsTrack(s, u);
      }
    }
  }

  lemma AddKeepsInv(s: State, k: Sock)
    requires Inv(s) && UserEnabled(s, Add(k))
    ensures Inv(ApplyUser(s, Add(k)))
  {
    UserKeepsTrack(s, Add(k));
    AddKeepsAccounts(s, k);
    AddKeepsTime(s, k);
  }

  lemma AddKeepsAccounts(s: State, k: Sock)
    requires Accounted(s) && UserEnabled(s, Add(k))
    ensures Accounted(ApplyUser(s, Add(k)))
  {
  }

  lemma AddKeepsTime(s: State, k: Sock)
    requires Inv(s) && UserEnabled(s, Add(k))
    ensures Timely(ApplyUser(s, Add(k))) && Filing(ApplyUser(s, Add(k)))
  {
  }

  /** A socket found disconnected moves from the table to the map of those to drop. */
  ghost predicate SweptOut(s: State, t: State, id: Id) {
    && id in s.sockets
    && t.fd == s.fd && t.added == s.added && t.log == s.log && t.mark == s.mark && t.closing == s.closing
    && t.sockets == s.sockets - {id} && t.disconnect == s.disconnect[id := s.sockets[id]]
  }

  lemma SweepOutKeepsAccounts(s: State, t: State, id: Id)
    requires Accounted(s) && SweptOut(s, t, id)
    ensures Accounted(t)
  {
  }

  lemma SweepOutKeepsTime(s: State, t: State, id: Id)
    requires Timely(s) && SweptOut(s, t, id) && s.phase.Sweeping? && t.phase.Sweeping?
    ensures Timely(t)
  {
  }

  lemma TestKeepsTrack(s: State)
    requires Inv(s) && SweepEnabled(s, Test)
    ensures SweepOnTrack(DoTest(s))
  {
    var status := StatusOf(s, s.sockets[s.phase.at.value]);
    assert s.phase.test == 4 ==> status == Disconnected;
  }

  lemma TestKeepsFiling(s: State, t: State)
    requires Inv(s) && SweepEnabled(s, Test) && t == DoTest(s)
    ensures Filing(t)
  {
    var id := s.phase.at.value;
    assert id !in s.startConnect;
  }

  /** The test that moves a socket out of the table. */
  predicate FindsDisconnected(s: State)
    requires SweepEnabled(s, Test)
  {
    BinOf(s.phase.test) == ToDisconnect && StatusOf(s, s.sockets[s.phase.at.value]) == Wanted(s.phase.test)
  }

  /** Same ids, same statuses, still sweeping, and nothing to serve that was not there. */
  ghost predicate OnlyFiles(s: State, t: State) {
    && SameIds(s, t) && t.status == s.status && t.phase.Sweeping?
    && t.connecting == s.connecting && t.connected == s.connected
  }

  lemma OtherTests(s: State, t: State)
    requires SweepEnabled(s, Test) && t == DoTest(s) && !FindsDisconnected(s)
    requires StatusOf(s, s.sockets[s.phase.at.value]) != Connected
    ensures OnlyFiles(s, t)
  {
  }

  lemma DisconnectedTest(s: State, t: State)
    requires SweepEnabled(s, Test) && t == DoTest(s) && FindsDisconnected(s)
    ensures SweptOut(s, t, s.phase.at.value) && t.status == s.status && t.phase.Sweeping?
    ensures t.connecting == s.connecting && t.connected == s.connected
  {
  }

  lemma SameStatuses(s: State, t: State)
    requires NeverConnected(s) && t.status == s.status && t.connecting == s.connecting && t.connected == s.connected
    ensures NeverConnected(t)
  {
    assert forall k: Sock :: StatusOf(t, k) == StatusOf(s, k);
  }

  lemma TestKeepsInv(s: State, t: State)
    requires Inv(s) && SweepEnabled(s, Test) && t == DoTest(s)
    ensures Inv(t)
  {
    assert StatusOf(s, s.sockets[s.phase.at.value]) != Connected;
    TestKeepsTrack(s);
    TestKeepsFiling(s, t);
    if FindsDisconnected(s) {
      DisconnectedTest(s, t);
      SweepOutKeepsAccounts(s, t, s.phase.at.value);
      SweepOutKeepsTime(s, t, s.phase.at.value);
    } else {
      OtherTests(s, t);
      SameAccounts(s, t);
    }
    SameStatuses(s, t);
  }

  lemma SweepKeepsInv(s: State, w: SweepStep)
    requires Inv(s) && SweepEnabled(s, w)
    ensures Inv(ApplySweep(s, w))
  {
    if w.Test? {
      TestKeepsInv(s, DoTest(s));
    } else {
      var t := ApplySweep(s, w);
      SameAccounts(s, t);
      assert forall k: Sock :: StatusOf(t, k) == StatusOf(s, k);
    }
  }

  /** An id moves from one of the outgoing maps to the log. */
  lemma LogKeepsAccounts(s: State, after: State, id: Id)
    requires Accounted(s)
    requires id in s.disconnect || id in s.closing
    requires after.fd == s.fd && after.added == s.added && after.sockets == s.sockets
    requires after.disconnect == s.disconnect - {id} && after.closing == s.closing - {id}
    requires after.log == s.log + [id]
    ensures Accounted(after)
  {
    forall x | x in after.log ensures x in s.log || x == id {
    }
    assert forall x :: x in s.log ==> x in after.log;
    assert id in after.log;
  }

  lemma RoundNeverConnects(s: State, r: RoundStep, k: Sock)
    requires NeverConnected(s) && RoundEnabled(s, r)
    ensures StatusOf(ApplyRound(s, r), k) != Connected
  {
    assert StatusOf(s, k) != Connected;
  }

  /** Only Drop moves an id: nothing is filed as connecting, and nothing is left to drop at the round's end. */
  lemma RoundKeepsIds(s: State, r: RoundStep)
    requires NeverConnected(s) && Timely(s) && RoundEnabled(s, r)
    ensures r.Drop? || SameIds(s, ApplyRound(s, r))
  {
  }

  lemma RoundKeepsTime(s: State, r: RoundStep, t: State)
    requires Timely(s) && RoundEnabled(s, r) && t == ApplyRound(s, r)
    ensures Timely(t) && SweepOnTrack(t)
  {
    assert !t.phase.Sweeping? && t.phase != Closing && !t.phase.InClose? && t.phase != Stopped;
    assert t.sockets == s.sockets && t.closing == s.closing && t.mark == s.mark && t.fd == s.fd;
    assert t.disconnect == if r.Drop? then s.disconnect - {r.id} else s.disconnect;
  }

  lemma RoundKeepsFiling(s: State, r: RoundStep)
    requires Filing(s) && RoundEnabled(s, r)
    ensures Filing(ApplyRound(s, r))
  {
  }

  lemma RoundKeepsUnconnected(s: State, r: RoundStep)
    requires NeverConnected(s) && RoundEnabled(s, r)
    ensures NeverConnected(ApplyRound(s, r))
  {
    forall k: Sock ensures StatusOf(ApplyRound(s, r), k) != Connected {
      RoundNeverConnects(s, r, k);
    }
  }

  lemma RoundKeepsInv(s: State, r: RoundStep)
    requires Inv(s) && RoundEnabled(s, r)
    ensures Inv(ApplyRound(s, r))
  {
    RoundKeepsIds(s, r);
    RoundKeepsTime(s, r, ApplyRound(s, r));
    RoundKeepsFiling(s, r);
    RoundKeepsUnconnected(s, r);
    if r.Drop? {
      LogKeepsAccounts(s, ApplyRound(s, r), r.id);
    } else {
      SameAccounts(s, ApplyRound(s, r));
    }
  }

  lemma SwapKeepsAccounts(s: State)
    requires Inv(s) && ExitEnabled(s, Swap)
    ensures Accounted(ApplyExit(s, Swap))
  {
  }

  lemma ExitKeepsRest(s: State, x: ExitStep)
    requires Inv(s) && ExitEnabled(s, x)
    ensures var t := ApplyExit(s, x); Timely(t) && SweepOnTrack(t) && NeverConnected(t)
    ensures x.Swap? || x.EndClose? || SameIds(s, ApplyExit(s, x))
  {
    var t := ApplyExit(s, x);
    forall k: Sock ensures StatusOf(t, k) != Connected {
      assert StatusOf(s, k) != Connected;
    }
  }

  lemma ExitKeepsInv(s: State, x: ExitStep)
    requires Inv(s) && ExitEnabled(s, x)
    ensures Inv(ApplyExit(s, x))
  {
    ExitKeepsRest(s, x);
    match x {
      case Swap => SwapKeepsAccounts(s);
      case EndClose => LogKeepsAccounts(s, ApplyExit(s, x), s.phase.id);
      case _ => SameAccounts(s, ApplyExit(s, x));
    }
  }

  /** The only step of any thread that breaks the invariant is a harmful store. */
  lemma StepKeepsInv(s: State, a: Action)
    requires Inv(s) && Enabled(s, a)
    ensures Inv(Apply(s, a)) <==> !Harmful(s, a)
  {
    match a {
      case User(u) => UserKeepsInv(s, u);
      case Sweep(w) => SweepKeepsInv(s, w);
      case Round(r) => RoundKeepsInv(s, r);
      case Exit(x) => ExitKeepsInv(s, x);
    }
  }

  lemma {:induction false} RunKeepsInv(s: State, acts: seq<Action>)
    requires Inv(s) && SafeRun(s, acts)
    ensures PossibleRun(s, acts) && Inv(Run(s, acts))
    decreases |acts|
  {
    if acts == [] {
    } else {
      StepKeepsInv(s, acts[0]);
      RunKeepsInv(Apply(s, acts[0]), acts[1..]);
    }
  }

  /** The state after a safe run from the start. */
  function After(acts: seq<Action>): State
    requires SafeRun(START, acts)
  {
    SafeIsPossible(START, acts);
    Run(START, acts)
  }

  // ---------------------------------------------------------------- what it means

  /** How often a socket added under `id` got RealDisconnect. */
  function Disconnects(log: seq<Id>, id: Id): nat {
    multiset(log)[id]
  }

  lemma {:induction false} DistinctCounts(log: seq<Id>, id: Id)
    requires Distinct(log)
    ensures Disconnects(log, id) == if id in log then 1 else 0
    decreases |log|
  {
    if log != [] {
      var front, last := log[..|log| - 1], log[|log| - 1];
      DistinctCounts(front, id);
      assert log == front + [last];
      assert last !in front;
    }
  }

  /**
   Over every interleaving: an id gets RealDisconnect at most once; it is
   either still in the table, or on its way out, or has been disconnected; and
   whenever the thread has stopped, every id handed out before the table was
   taken has been disconnected exactly once and every later one is still there.
   */
  lemma ExactlyOnceDisconnect(acts: seq<Action>, id: Id)
    requires SafeRun(START, acts)
    ensures var s := After(acts); var times := Disconnects(s.log, id);
      && (id in s.added <==> 1 <= id <= s.fd)
      && times <= 1
      && (id in s.added ==> (times == 1 <==> id !in s.sockets && id !in s.disconnect && id !in s.closing))
      && (s.phase == Stopped && 1 <= id <= s.mark ==> times == 1 && id !in s.sockets)
      && (s.phase == Stopped && s.mark < id <= s.fd ==> times == 0 && id in s.sockets)
  {
    RunKeepsInv(START, acts);
    DistinctCounts(After(acts).log, id);
  }

  /** Query finds a socket only under the id it was added with, and finds it until it is taken out. */
  lemma QueryFindsWhatWasAdded(acts: seq<Action>, id: Id)
    requires SafeRun(START, acts)
    ensures var s := After(acts); var found := Lookup(s.sockets, id);
      && (found.Some? ==> id in s.added && found.value == s.added[id])
      && (found.None? && id in s.added ==> id in s.disconnect || id in s.closing || id in s.log)
  {
    RunKeepsInv(START, acts);
  }

  /** A step in which the engine calls the socket it holds under `id`. */
  predicate Drives(s: State, a: Action, id: Id) {
    match a
    case Round(Drop(x)) => x == id
    case Round(Guard(x)) => x == id
    case Round(FinishConnect(_)) => s.phase == InConnect(id)
    case Round(Check(x, _)) => x == id
    case Round(Serve(x, _)) => x == id
    case Exit(BeginClose(x)) => x == id
    case Exit(EndClose) => s.phase == InClose(id)
    case _ => false
  }

  lemma DoneIsNotDriven(s: State, a: Action, id: Id)
    requires Accounted(s) && Filing(s) && NeverConnected(s) && id in s.log && Enabled(s, a)
    ensures !Drives(s, a, id)
  {
    assert id !in s.sockets && id !in s.disconnect && id !in s.closing;
  }

  /** After RealDisconnect the engine never calls the socket under that id again. */
  lemma NothingAfterDisconnect(acts: seq<Action>, a: Action, id: Id)
    requires SafeRun(START, acts) && Enabled(After(acts), a) && Disconnects(After(acts).log, id) > 0
    ensures !Drives(After(acts), a, id)
  {
    RunKeepsInv(START, acts);
    assert id in After(acts).log;
    DoneIsNotDriven(After(acts), a, id);
  }

  /**
   Because the sweep files connecting sockets under connect again, no socket
   driven by the engine alone is ever connected or served.
   */
  lemma EngineNeverConnects(acts: seq<Action>, k: Sock)
    requires SafeRun(START, acts)
    ensures var s := After(acts);
      StatusOf(s, k) != Connected && s.connecting == map[] && s.connected == map[]
  {
    RunKeepsInv(START, acts);
  }

  // ---------------------------------------------------------------- putting runs together

  lemma RunOne(s: State, acts: seq<Action>)
    requires acts != [] && Enabled(s, acts[0]) && PossibleRun(Apply(s, acts[0]), acts[1..])
    ensures PossibleRun(s, acts) && Run(s, acts) == Run(Apply(s, acts[0]), acts[1..])
  {
  }

  lemma {:induction false} RunBoth(s: State, first: seq<Action>, second: seq<Action>)
    requires PossibleRun(s, first) && PossibleRun(Run(s, first), second)
    ensures PossibleRun(s, first + second) && Run(s, first + second) == Run(Run(s, first), second)
    decreases |first|
  {
    if first == [] {
      assert first + second == second;
    } else {
      RunBoth(Apply(s, first[0]), first[1..], second);
      assert (first + second)[1..] == first[1..] + second;
    }
  }
}
