/**
 When a Close lasts. RealConnect's status guard does not return, and a late
 store of a Connect overwrites whatever is there, so a Close can be undone;
 whether it can is decided by the state in which it is called.
 */
module EngineClose {
  import opened Bytes
  import opened SocketSpec
  import opened Engine
  import opened EngineProtocol

  /** Nobody holds socket `k` to connect it: neither the engine nor a Connect between test and store. */
  ghost predicate Unclaimed(s: State, k: Sock) {
    k !in s.startConnect.Values && k !in s.pending
  }

  /** Socket `k` is closed in every state that can follow. */
  ghost predicate ClosedForGood(s: State, k: Sock) {
    forall acts :: PossibleRun(s, acts) ==> StatusOf(Run(s, acts), k) == Disconnected
  }

  // ---------------------------------------------------------------- unclaimed sockets stay closed

  lemma UserKeepsClosed(s: State, u: UserStep, k: Sock)
    requires UserEnabled(s, u) && StatusOf(s, k) == Disconnected && Unclaimed(s, k)
    ensures var t := ApplyUser(s, u); StatusOf(t, k) == Disconnected && Unclaimed(t, k)
  {
  }

  lemma SweepKeepsClosed(s: State, w: SweepStep, k: Sock)
    requires SweepEnabled(s, w) && StatusOf(s, k) == Disconnected && Unclaimed(s, k)
    ensures var t := ApplySweep(s, w); StatusOf(t, k) == Disconnected && Unclaimed(t, k)
  {
  }

  lemma RoundKeepsClosed(s: State, r: RoundStep, k: Sock)
    requires RoundEnabled(s, r) && StatusOf(s, k) == Disconnected && Unclaimed(s, k)
    ensures var t := ApplyRound(s, r); StatusOf(t, k) == Disconnected && Unclaimed(t, k)
  {
    if r.FinishConnect? {
      assert s.startConnect[s.phase.id] in s.startConnect.Values;
    }
  }

  lemma ExitKeepsClosed(s: State, x: ExitStep, k: Sock)
    requires ExitEnabled(s, x) && StatusOf(s, k) == Disconnected && Unclaimed(s, k)
    ensures var t := ApplyExit(s, x); StatusOf(t, k) == Disconnected && Unclaimed(t, k)
  {
  }

  lemma {:induction false} UnclaimedStaysClosed(s: State, acts: seq<Action>, k: Sock)
    requires PossibleRun(s, acts) && StatusOf(s, k) == Disconnected && Unclaimed(s, k)
    ensures StatusOf(Run(s, acts), k) == Disconnected
    decreases |acts|
  {
    if acts != [] {
      match acts[0] {
        case User(u) => UserKeepsClosed(s, u, k);
        case Sweep(w) => SweepKeepsClosed(s, w, k);
        case Round(r) => RoundKeepsClosed(s, r, k);
        case Exit(x) => ExitKeepsClosed(s, x, k);
      }
      UnclaimedStaysClosed(Apply(s, acts[0]), acts[1..], k);
    }
  }

  // ---------------------------------------------------------------- claimed sockets can be reopened

  /** Socket `k` is filed under `id`, and the engine is on its way to it. */
  ghost predicate FiledAs(s: State, k: Sock, id: Id) {
    Inv(s) && StatusOf(s, k) == Disconnected && id in s.startConnect && s.startConnect[id] == k
  }

  /** How far the engine is from RealConnect: phases first, then what is left in the phase. */
  ghost function Stage(s: State): nat {
    match s.phase
    case Sweeping(_, _, _) => 3
    case Dropping => 2
    case InConnect(_) => 1
    case _ => 0
  }

  ghost function Left(s: State): nat {
    match s.phase
    case Sweeping(todo, at, test) => 7 * |todo| + (if at == None then 6 else if test < 5 then 5 - test else 0)
    case Dropping => |s.disconnect|
    case _ => 0
  }

  ghost predicate Nearer(s: State, t: State) {
    Stage(t) < Stage(s) || (Stage(t) == Stage(s) && Left(t) < Left(s))
  }

  lemma TestOnward(s: State, t: State, k: Sock, id: Id)
    requires FiledAs(s, k, id) && SweepEnabled(s, Test) && t == DoTest(s)
    ensures FiledAs(t, k, id) && Nearer(s, t)
  {
    StepKeepsInv(s, Sweep(Test));
    assert s.phase.at.value !in s.startConnect;
  }

  lemma SweepOnward(s: State, k: Sock, id: Id) returns (a: Action)
    requires FiledAs(s, k, id) && s.phase.Sweeping?
    ensures Enabled(s, a) && FiledAs(Apply(s, a), k, id) && Nearer(s, Apply(s, a))
  {
    if s.phase.at.Some? {
      a := Sweep(Test);
      TestOnward(s, Apply(s, a), k, id);
    } else {
      if s.phase.todo == {} {
        a := Sweep(EndSweep);
      } else {
        var x :| x in s.phase.todo;
        a := Sweep(Pick(x));
      }
      StepKeepsInv(s, a);
    }
  }

  lemma DropOnward(s: State, k: Sock, id: Id) returns (a: Action)
    requires FiledAs(s, k, id) && s.phase == Dropping
    ensures Enabled(s, a) && FiledAs(Apply(s, a), k, id) && Nearer(s, Apply(s, a))
  {
    if s.disconnect == map[] {
      a := Round(EndDrop);
    } else {
      var x :| x in s.disconnect;
      a := Round(Drop(x));
      assert (s.disconnect - {x}).Keys == s.disconnect.Keys - {x};
    }
    StepKeepsInv(s, a);
  }

  lemma FinishOnward(s: State, k: Sock, id: Id) returns (a: Action)
    requires FiledAs(s, k, id) && s.phase.InConnect? && s.phase.id != id
    ensures Enabled(s, a) && FiledAs(Apply(s, a), k, id) && Nearer(s, Apply(s, a))
  {
    a := Round(FinishConnect(false));
    StepKeepsInv(s, a);
  }

  /** From RealConnect's guard on, a connect that succeeds reopens the socket. */
  lemma ConnectReopens(s: State, k: Sock, id: Id) returns (acts: seq<Action>)
    requires FiledAs(s, k, id) && (s.phase == Starting || s.phase == InConnect(id))
    ensures PossibleRun(s, acts) && StatusOf(Run(s, acts), k) != Disconnected
  {
    var finish := Round(FinishConnect(true));
    if s.phase == Starting {
      var guarded := Apply(s, Round(Guard(id)));
      acts := [Round(Guard(id)), finish];
      assert acts[1..] == [finish] && acts[1..][1..] == [];
      RunOne(guarded, acts[1..]);
      RunOne(s, acts);
    } else {
      acts := [finish];
      assert acts[1..] == [];
      RunOne(s, acts);
    }
  }

  /** Whatever the engine is doing, it reaches RealConnect of what it has filed. */
  lemma FiledReopens(s: State, k: Sock, id: Id) returns (acts: seq<Action>)
    requires FiledAs(s, k, id)
    ensures PossibleRun(s, acts) && StatusOf(Run(s, acts), k) != Disconnected
    decreases Stage(s), Left(s)
  {
    if s.phase == Starting || s.phase == InConnect(id) {
      acts := ConnectReopens(s, k, id);
    } else {
      var a;
      if s.phase.Sweeping? {
        a := SweepOnward(s, k, id);
      } else if s.phase == Dropping {
        a := DropOnward(s, k, id);
      } else {
        a := FinishOnward(s, k, id);
      }
      var rest := FiledReopens(Apply(s, a), k, id);
      acts := [a] + rest;
      assert acts[1..] == rest;
      RunOne(s, acts);
    }
  }

  lemma ClaimedReopens(s: State, k: Sock) returns (acts: seq<Action>)
    requires Inv(s) && StatusOf(s, k) == Disconnected && !Unclaimed(s, k)
    ensures PossibleRun(s, acts) && StatusOf(Run(s, acts), k) != Disconnected
  {
    if k in s.pending {
      acts := [User(Store(k))];
      assert acts[1..] == [];
      RunOne(s, acts);
    } else {
      var id :| id in s.startConnect && s.startConnect[id] == k;
      acts := FiledReopens(s, k, id);
    }
  }

  // ---------------------------------------------------------------- the exact condition

  /** A closed socket stays closed over every run if and only if nobody holds it to connect it. */
  lemma ClosedForGoodIffUnclaimed(s: State, k: Sock)
    requires Inv(s) && StatusOf(s, k) == Disconnected
    ensures ClosedForGood(s, k) <==> Unclaimed(s, k)
  {
    if Unclaimed(s, k) {
      forall acts | PossibleRun(s, acts) ensures StatusOf(Run(s, acts), k) == Disconnected {
        UnclaimedStaysClosed(s, acts, k);
      }
    } else {
      var acts := ClaimedReopens(s, k);
      assert StatusOf(Run(s, acts), k) != Disconnected;
    }
  }

  /**
   A Close called after any safe run lasts, whatever all threads do from then
   on, if and only if at that moment the socket is not filed to connect and no
   Connect of it is between its test and its store.
   */
  lemma CloseLastsIffUnclaimed(acts: seq<Action>, k: Sock)
    requires SafeRun(START, acts)
    ensures var s := After(acts); ClosedForGood(Apply(s, User(Close(k))), k) <==> Unclaimed(s, k)
  {
    RunKeepsInv(START, acts);
    StepKeepsInv(After(acts), User(Close(k)));
    ClosedForGoodIffUnclaimed(Apply(After(acts), User(Close(k))), k);
  }

  // ---------------------------------------------------------------- a Close that is lost

  /** Socket 0, added as id 1, in some phase with some status. */
  function OneSocket(phase: Phase, status: Status, startConnect: map<Id, Sock>): State {
    START.(fd := 1, sockets := map[1 := 0], added := map[1 := 0], status := map[0 := status],
           phase := phase, startConnect := startConnect)
  }

  const USER_CONNECTS: seq<Action> := [User(Add(0)), User(Connect(0)), Exit(Restart)]
  const SWEEP_FILES: seq<Action> := [Sweep(BeginSweep), Sweep(Pick(1)), Sweep(Test), Sweep(Test)]
  const USER_CLOSES: seq<Action> := [Sweep(EndSweep), Round(EndDrop), User(Close(0))]
  const ENGINE_CONNECTS: seq<Action> := [Round(Guard(1)), Round(FinishConnect(true))]

  lemma UserConnects()
    ensures PossibleRun(START, USER_CONNECTS)
    ensures Run(START, USER_CONNECTS) == OneSocket(Sleeping, StartConnect, map[])
  {
    var added := START.(fd := 1, sockets := map[1 := 0], added := map[1 := 0]);
    var ready := OneSocket(Sleeping, StartConnect, map[]);
    assert Run(ready, USER_CONNECTS[3..]) == ready;
    RunOne(OneSocket(Stopped, StartConnect, map[]), USER_CONNECTS[2..]);
    assert SetStatus(added, 0, StartConnect) == OneSocket(Stopped, StartConnect, map[]);
    RunOne(added, USER_CONNECTS[1..]);
    RunOne(START, USER_CONNECTS);
  }

  lemma SweepFiles()
    ensures var s := OneSocket(Sleeping, StartConnect, map[]);
      && PossibleRun(s, SWEEP_FILES)
      && Run(s, SWEEP_FILES) == OneSocket(Sweeping({}, None, 0), StartConnect, map[1 := 0])
  {
    var filed := OneSocket(Sweeping({}, None, 0), StartConnect, map[1 := 0]);
    var none: map<Id, Sock> := map[];
    assert Run(filed, SWEEP_FILES[4..]) == filed;
    assert {1} - {1} == {} && none[1 := 0] == map[1 := 0];
    RunOne(OneSocket(Sweeping({1}, Some(1), 1), StartConnect, map[]), SWEEP_FILES[3..]);
    RunOne(OneSocket(Sweeping({1}, Some(1), 0), StartConnect, map[]), SWEEP_FILES[2..]);
    RunOne(OneSocket(Sweeping({1}, None, 0), StartConnect, map[]), SWEEP_FILES[1..]);
    assert map[1 := 0].Keys == {1};
    RunOne(OneSocket(Sleeping, StartConnect, map[]), SWEEP_FILES);
  }

  lemma UserCloses(m: map<Id, Sock>)
    ensures var s := OneSocket(Sweeping({}, None, 0), StartConnect, m);
      PossibleRun(s, USER_CLOSES) && Run(s, USER_CLOSES) == OneSocket(Starting, Disconnected, m)
  {
    var closed := OneSocket(Starting, Disconnected, m);
    assert Run(closed, USER_CLOSES[3..]) == closed;
    assert SetStatus(OneSocket(Starting, StartConnect, m), 0, Disconnected) == closed;
    RunOne(OneSocket(Starting, StartConnect, m), USER_CLOSES[2..]);
    RunOne(OneSocket(Dropping, StartConnect, m), USER_CLOSES[1..]);
    RunOne(OneSocket(Sweeping({}, None, 0), StartConnect, m), USER_CLOSES);
  }

  lemma EngineConnects(m: map<Id, Sock>)
    requires m == map[1 := 0]
    ensures var s := OneSocket(Starting, Disconnected, m);
      PossibleRun(s, ENGINE_CONNECTS) && StatusOf(Run(s, ENGINE_CONNECTS), 0) == Connecting
  {
    var s := OneSocket(Starting, Disconnected, m);
    var guarded := Apply(s, ENGINE_CONNECTS[0]);
    var done := Apply(guarded, ENGINE_CONNECTS[1]);
    assert Run(done, ENGINE_CONNECTS[1..][1..]) == done;
    RunOne(guarded, ENGINE_CONNECTS[1..]);
    RunOne(s, ENGINE_CONNECTS);
  }

  /** A Close that lands between the sweep and RealConnect is lost. */
  lemma CloseCanBeLost()
    ensures var acts := USER_CONNECTS + SWEEP_FILES + USER_CLOSES + ENGINE_CONNECTS;
      PossibleRun(START, acts) && StatusOf(Run(START, acts), 0) == Connecting
  {
    UserConnects();
    SweepFiles();
    RunBoth(START, USER_CONNECTS, SWEEP_FILES);
    UserCloses(map[1 := 0]);
    RunBoth(START, USER_CONNECTS + SWEEP_FILES, USER_CLOSES);
    EngineConnects(map[1 := 0]);
    RunBoth(START, USER_CONNECTS + SWEEP_FILES + USER_CLOSES, ENGINE_CONNECTS);
  }
}
