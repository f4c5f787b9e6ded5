/**
 What happens when Connect's test and store are not one step: which stores the
 sweep survives, and what the others do to it.
 */
module EngineTorn {
  import opened Bytes
  import opened SocketSpec
  import opened Engine
  import opened EngineProtocol

  const FAIL: Action := Sweep(SweepError)

  /** The sweep's error branch, which would lose the sockets already taken out, is never enabled. */
  ghost predicate NeverFails(s: State) {
    forall acts :: SafeRun(s, acts) ==> PossibleRun(s, acts) && !Enabled(Run(s, acts), FAIL)
  }

  lemma SweepNeverFails(s: State)
    requires Inv(s)
    ensures NeverFails(s)
  {
    forall acts | SafeRun(s, acts) ensures PossibleRun(s, acts) && !Enabled(Run(s, acts), FAIL) {
      RunKeepsInv(s, acts);
    }
  }

  function Tests(n: nat): seq<Action> {
    if n == 0 then [] else [Sweep(Test)] + Tests(n - 1)
  }

  /** A socket that has fallen behind the tests fails all that are left. */
  lemma {:induction false} BehindFails(s: State, n: nat)
    requires s.phase.Sweeping? && s.phase.at.Some? && s.phase.at.value in s.sockets
    requires s.phase.test >= 2 && s.phase.test + n == 5
    requires StatusOf(s, s.sockets[s.phase.at.value]) == StartConnect
    ensures SafeRun(s, Tests(n)) && PossibleRun(s, Tests(n)) && Enabled(Run(s, Tests(n)), FAIL)
    decreases n
  {
    if n > 0 {
      assert Tests(n)[0] == Sweep(Test) && Tests(n)[1..] == Tests(n - 1);
      BehindFails(DoTest(s), n - 1);
      RunOne(s, Tests(n));
    }
  }

  /**
   Whatever step any thread takes, the sweep is still safe afterwards if and
   only if the step is not a store to the socket under test after the second
   test; that one sends it into the error branch unless somebody intervenes.
   */
  lemma FailsAfterHarmfulStore(s: State, a: Action)
    requires Inv(s) && Enabled(s, a)
    ensures NeverFails(Apply(s, a)) <==> !Harmful(s, a)
  {
    StepKeepsInv(s, a);
    var t := Apply(s, a);
    if Harmful(s, a) {
      var n := 5 - s.phase.test;
      BehindFails(t, n);
      assert Enabled(Run(t, Tests(n)), FAIL);
    } else {
      SweepNeverFails(t);
    }
  }

  /** An id that has been handed out and is nowhere any more. */
  ghost predicate Lost(s: State, id: Id) {
    && 1 <= id <= s.fd && id !in s.log
    && id !in s.sockets && id !in s.disconnect && id !in s.closing && id !in s.connecting
  }

  lemma UserStaysLost(s: State, u: UserStep, id: Id)
    requires Lost(s, id) && UserEnabled(s, u)
    ensures Lost(ApplyUser(s, u), id)
  {
  }

  lemma SweepStaysLost(s: State, w: SweepStep, id: Id)
    requires Lost(s, id) && SweepEnabled(s, w)
    ensures Lost(ApplySweep(s, w), id)
  {
  }

  lemma RoundStaysLost(s: State, r: RoundStep, id: Id)
    requires Lost(s, id) && RoundEnabled(s, r)
    ensures Lost(ApplyRound(s, r), id)
  {
  }

  lemma ExitStaysLost(s: State, x: ExitStep, id: Id)
    requires Lost(s, id) && ExitEnabled(s, x)
    ensures Lost(ApplyExit(s, x), id)
  {
  }

  lemma StaysLost(s: State, a: Action, id: Id)
    requires Lost(s, id) && Enabled(s, a)
    ensures Lost(Apply(s, a), id)
  {
    match a {
      case User(u) => UserStaysLost(s, u, id);
      case Sweep(w) => SweepStaysLost(s, w, id);
      case Round(r) => RoundStaysLost(s, r, id);
      case Exit(x) => ExitStaysLost(s, x, id);
    }
  }

  lemma {:induction false} LostForGood(s: State, acts: seq<Action>, id: Id)
    requires Lost(s, id) && PossibleRun(s, acts)
    ensures Disconnects(Run(s, acts).log, id) == 0
    decreases |acts|
  {
    if acts != [] {
      StaysLost(s, acts[0], id);
      LostForGood(Apply(s, acts[0]), acts[1..], id);
    }
  }

  /** What the error branch costs: every socket swept out before it is never disconnected, in any later run. */
  lemma ErrorLosesSockets(s: State, acts: seq<Action>, id: Id)
    requires Accounted(s) && s.connecting == map[] && Enabled(s, FAIL) && id in s.disconnect
    requires PossibleRun(Apply(s, FAIL), acts)
    ensures Disconnects(Run(Apply(s, FAIL), acts).log, id) == 0
  {
    LostForGood(Apply(s, FAIL), acts, id);
  }

  // ---------------------------------------------------------------- a run with such a store

  /** Socket 0, added as id 1, under the sweep's test number `test`; one Connect has seen Init. */
  function UnderTest(test: nat, status: map<Sock, Status>): State {
    START.(fd := 1, sockets := map[1 := 0], added := map[1 := 0], status := status,
           phase := Sweeping({1}, Some(1), test), pending := multiset{0})
  }

  /** A Connect sees Init, and a sweep starts. */
  const TO_TEST: seq<Action> :=
    [User(Add(0)), User(SeeInit(0)), Exit(Restart), Sweep(BeginSweep), Sweep(Pick(1))]

  /** The socket is closed under its first test, and two tests fail. */
  const TO_STORE: seq<Action> := [User(Close(0)), Sweep(Test), Sweep(Test)]

  lemma ReadyToTest()
    ensures PossibleRun(START, TO_TEST) && Run(START, TO_TEST) == UnderTest(0, map[])
  {
    var acts, seen := TO_TEST, UnderTest(0, map[]);
    var added := seen.(phase := Stopped, pending := multiset{});
    assert Run(seen, acts[5..]) == seen;
    RunOne(seen.(phase := Sweeping({1}, None, 0)), acts[4..]);
    assert map[1 := 0].Keys == {1};
    RunOne(seen.(phase := Sleeping), acts[3..]);
    RunOne(seen.(phase := Stopped), acts[2..]);
    assert added.pending + multiset{0} == multiset{0};
    RunOne(added, acts[1..]);
    RunOne(START, acts);
  }

  lemma ClosedUnderTest()
    ensures PossibleRun(UnderTest(0, map[]), TO_STORE)
    ensures Run(UnderTest(0, map[]), TO_STORE) == UnderTest(2, map[0 := Disconnected])
  {
    var closed: map<Sock, Status> := map[0 := Disconnected];
    assert Run(UnderTest(2, closed), TO_STORE[3..]) == UnderTest(2, closed);
    RunOne(UnderTest(1, closed), TO_STORE[2..]);
    RunOne(UnderTest(0, closed), TO_STORE[1..]);
    assert SetStatus(UnderTest(0, map[]), 0, Disconnected) == UnderTest(0, closed);
    RunOne(UnderTest(0, map[]), TO_STORE);
  }

  /** A harmful store can happen. */
  lemma HarmfulStoreHappens()
    ensures var acts := TO_TEST + TO_STORE;
      && SafeRun(START, acts)
      && Enabled(After(acts), User(Store(0))) && Harmful(After(acts), User(Store(0)))
  {
    ReadyToTest();
    ClosedUnderTest();
    RunBoth(START, TO_TEST, TO_STORE);
    AtomicIsSafe(START, TO_TEST + TO_STORE);
  }
}
