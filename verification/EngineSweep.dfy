/**
 The sweep of the state machine and the sweep of the socket table are one:
 over any interleaving with users, the maps are those the table's sweep files
 from what each status read returns, and the reads rise when every Connect is
 one step.
 */
module EngineSweep {
  import opened Bytes
  import opened SocketSpec
  import opened Engine
  import opened EngineProtocol

  /** What can happen between the first step of a sweep and its last. */
  predicate Inside(a: Action) {
    match a
    case User(_) => true
    case Sweep(w) => w.Pick? || w.Test?
    case _ => false
  }

  /** Nothing else can happen until the sweep ends. */
  lemma OnlyInside(s: State, a: Action)
    requires Inv(s) && s.phase.Sweeping? && Enabled(s, a)
    ensures Inside(a) || a == Sweep(EndSweep)
  {
  }

  predicate Unfinished(acts: seq<Action>) {
    forall k :: 0 <= k < |acts| ==> acts[k] != Sweep(EndSweep)
  }

  /** A safe run from within a sweep that does not end it. */
  ghost predicate SweepRun(s: State, acts: seq<Action>) {
    Inv(s) && s.phase.Sweeping? && SafeRun(s, acts) && Unfinished(acts)
  }

  lemma NextInSweep(s: State, acts: seq<Action>, next: State)
    requires SweepRun(s, acts) && acts != [] && next == Apply(s, acts[0])
    ensures Inside(acts[0]) && SweepRun(next, acts[1..])
    ensures AtomicConnects(acts) ==> !IsStore(acts[0]) && AtomicConnects(acts[1..])
  {
    OnlyInside(s, acts[0]);
    StepKeepsInv(s, acts[0]);
    StepPasses(s, acts[0], next, 0, 0);
    assert forall k :: 0 <= k < |acts[1..]| ==> acts[1..][k] == acts[k + 1];
  }

  /** The next step is test number `t` of the socket under `id`. */
  predicate Reads(s: State, a: Action, id: Id, t: nat) {
    a == Sweep(Test) && s.phase.Sweeping? && s.phase.at == Some(id) && s.phase.test == t
  }

  /** The status of socket `k` when test number `t` reads it; if none does, when the run ends. */
  function SeenAs(s: State, acts: seq<Action>, id: Id, k: Sock, t: nat): Status
    requires PossibleRun(s, acts)
    decreases |acts|
  {
    if acts == [] || Reads(s, acts[0], id, t) then StatusOf(s, k)
    else SeenAs(Apply(s, acts[0]), acts[1..], id, k, t)
  }

  /** What a sweep that begins in `s` observes of the sockets in `table`. */
  function SeenBy(s: State, acts: seq<Action>, table: map<Id, Sock>): Observed
    requires PossibleRun(s, acts)
  {
    (id: Id, t: nat) => if id in table then SeenAs(s, acts, id, table[id], t) else Init
  }

  // ---------------------------------------------------------------- which tests are ahead

  /** What users cannot touch while the mutex is held. */
  ghost predicate SameSweep(s: State, t: State) {
    && t.phase == s.phase && t.sockets == s.sockets
    && t.startConnect == s.startConnect && t.connected == s.connected && t.disconnect == s.disconnect
  }

  lemma UsersStayOut(s: State, u: UserStep, t: State)
    requires s.phase.Sweeping? && UserEnabled(s, u) && t == ApplyUser(s, u)
    ensures SameSweep(s, t)
  {
  }

  /** The tests of `id`, if it is under test, have not passed number `t`. */
  predicate NotPast(s: State, id: Id, t: nat) {
    s.phase.Sweeping? && (s.phase.at == Some(id) ==> s.phase.test <= t)
  }

  lemma TestPasses(s: State, next: State, id: Id, t: nat)
    requires SweepEnabled(s, Test) && next == DoTest(s)
    ensures NotPast(s, id, t) && !Reads(s, Sweep(Test), id, t) ==> NotPast(next, id, t)
    ensures next.phase.todo <= s.phase.todo
    ensures id in next.phase.todo && NotPast(next, id, t) ==> NotPast(s, id, t) && !Reads(s, Sweep(Test), id, t)
  {
  }

  /** A step inside the sweep: what it has not read stays ahead, and what is ahead it has not read. */
  lemma StepPasses(s: State, a: Action, next: State, id: Id, t: nat)
    requires s.phase.Sweeping? && Enabled(s, a) && Inside(a) && next == Apply(s, a)
    ensures NotPast(s, id, t) && !Reads(s, a, id, t) ==> NotPast(next, id, t)
    ensures next.phase.Sweeping? && next.phase.todo <= s.phase.todo
    ensures id in next.phase.todo && NotPast(next, id, t) ==> NotPast(s, id, t) && !Reads(s, a, id, t)
  {
    match a {
      case User(u) => UsersStayOut(s, u, next);
      case Sweep(w) =>
        if w.Test? {
          TestPasses(s, next, id, t);
        }
    }
  }

  // ---------------------------------------------------------------- observations rise

  lemma TestsReadOnly(s: State, w: SweepStep)
    requires SweepEnabled(s, w) && (w.Pick? || w.Test?)
    ensures ApplySweep(s, w).status == s.status
  {
  }

  lemma InsideRaisesRank(s: State, a: Action, k: Sock)
    requires Inv(s) && Enabled(s, a) && Inside(a) && !IsStore(a)
    ensures Rank(StatusOf(Apply(s, a), k)) >= Rank(StatusOf(s, k))
  {
    match a {
      case User(u) =>
        assert StatusOf(s, k) != Connected;
        UserRaisesRank(s, u, k);
      case Sweep(w) => TestsReadOnly(s, w);
    }
  }

  lemma {:induction false} SeenLater(s: State, acts: seq<Action>, id: Id, k: Sock, t: nat)
    requires SweepRun(s, acts) && PossibleRun(s, acts) && AtomicConnects(acts)
    ensures Rank(SeenAs(s, acts, id, k, t)) >= Rank(StatusOf(s, k))
    decreases |acts|
  {
    if acts != [] && !Reads(s, acts[0], id, t) {
      NextInSweep(s, acts, Apply(s, acts[0]));
      InsideRaisesRank(s, acts[0], k);
      SeenLater(Apply(s, acts[0]), acts[1..], id, k, t);
    }
  }

  /** A later test sees no lower rank. */
  lemma {:induction false} SeenRises(s: State, acts: seq<Action>, id: Id, k: Sock, i: nat, j: nat)
    requires SweepRun(s, acts) && PossibleRun(s, acts) && AtomicConnects(acts) && i <= j && NotPast(s, id, i)
    ensures Rank(SeenAs(s, acts, id, k, i)) <= Rank(SeenAs(s, acts, id, k, j))
    decreases |acts|
  {
    if acts == [] {
    } else if Reads(s, acts[0], id, i) {
      SeenLater(s, acts, id, k, j);
    } else {
      NextInSweep(s, acts, Apply(s, acts[0]));
      StepPasses(s, acts[0], Apply(s, acts[0]), id, i);
      SeenRises(Apply(s, acts[0]), acts[1..], id, k, i, j);
    }
  }

  lemma ReadsRise(start: State, acts: seq<Action>, table: map<Id, Sock>, id: Id)
    requires SweepRun(start, acts) && PossibleRun(start, acts) && AtomicConnects(acts)
    requires id in table && start.phase.at == None
    ensures Rising(SeenBy(start, acts, table), id)
  {
    var seen := SeenBy(start, acts, table);
    forall i, j | 0 <= i <= j < 5 ensures Rank(seen(id, i)) <= Rank(seen(id, j)) {
      SeenRises(start, acts, id, table[id], i, j);
    }
  }

  // ---------------------------------------------------------------- the maps agree

  /** The table's sweep, started on `was`, with `todo` still ahead is where `s` is; all tests so far agree. */
  ghost predicate SweptTo(was: map<Id, Sock>, todo: set<Id>, seen: Observed, s: State) {
    && SweptSoFar(was, todo, seen, s.sockets, s.startConnect, s.connected, s.disconnect)
    && Matched(was, todo, seen)
  }

  ghost predicate Follows(was: map<Id, Sock>, seen: Observed, s: State) {
    && s.phase.Sweeping? && SweptTo(was, s.phase.todo, seen, s)
    && (s.phase.at.Some? ==> InOrder(seen, s.phase.at.value, s.phase.todo, s.phase.test))
  }

  /** The socket under test is still ahead, and the tests before this one have failed. */
  ghost predicate InOrder(seen: Observed, id: Id, todo: set<Id>, test: nat) {
    id in todo && test < 5 && forall j :: 0 <= j < test ==> seen(id, j) != Wanted(j)
  }

  /** Every test still to come returns what `seen` says. */
  ghost predicate Foretold(was: map<Id, Sock>, seen: Observed, s: State, acts: seq<Action>)
    requires PossibleRun(s, acts) && s.phase.Sweeping?
  {
    forall id, t :: id in was && id in s.phase.todo && NotPast(s, id, t) ==>
      seen(id, t) == SeenAs(s, acts, id, was[id], t)
  }

  lemma NextForetold(was: map<Id, Sock>, seen: Observed, s: State, acts: seq<Action>, next: State)
    requires PossibleRun(s, acts) && acts != [] && s.phase.Sweeping? && Foretold(was, seen, s, acts)
    requires Inside(acts[0]) && next == Apply(s, acts[0])
    ensures next.phase.Sweeping? && Foretold(was, seen, next, acts[1..])
  {
    StepPasses(s, acts[0], next, 0, 0);
    forall id, t | id in was && id in next.phase.todo && NotPast(next, id, t)
      ensures seen(id, t) == SeenAs(next, acts[1..], id, was[id], t)
    {
      StepPasses(s, acts[0], next, id, t);
      assert seen(id, t) == SeenAs(s, acts, id, was[id], t);
    }
  }

  lemma HitIsFirst(seen: Observed, id: Id, todo: set<Id>, test: nat)
    requires InOrder(seen, id, todo, test) && seen(id, test) == Wanted(test)
    ensures BinSeen(seen, id) == BinOf(test) && Matches(seen, id)
  {
    var t := FirstMatch(seen, id, 0);
    assert t == test;
  }

  /** A test that succeeds files its socket as the table's sweep does. */
  lemma HitFollows(was: map<Id, Sock>, seen: Observed, s: State, t: State)
    requires Follows(was, seen, s) && SweepEnabled(s, Test) && t == DoTest(s)
    requires seen(s.phase.at.value, s.phase.test) == Wanted(s.phase.test)
    requires StatusOf(s, s.sockets[s.phase.at.value]) == Wanted(s.phase.test)
    ensures Follows(was, seen, t)
  {
    var id, n, todo := s.phase.at.value, s.phase.test, s.phase.todo;
    HitIsFirst(seen, id, todo, n);
    MatchNext(was, todo, seen, id);
    StillThere(was, todo, seen, s.sockets, s.startConnect, s.connected, s.disconnect, id);
    match BinOf(n) {
      case Stays => SkipOne(was, todo, seen, s.sockets, s.startConnect, s.connected, s.disconnect, id);
      case ToConnect => ConnectOne(was, todo, seen, s.sockets, s.startConnect, s.connected, s.disconnect, id);
      case ToServe => ServeOne(was, todo, seen, s.sockets, s.startConnect, s.connected, s.disconnect, id);
      case ToDisconnect => DropOne(was, todo, seen, s.sockets, s.startConnect, s.connected, s.disconnect, id);
    }
  }

  lemma MissFollows(was: map<Id, Sock>, seen: Observed, s: State, t: State)
    requires Follows(was, seen, s) && SweepEnabled(s, Test) && t == DoTest(s) && SweepOnTrack(t)
    requires seen(s.phase.at.value, s.phase.test) != Wanted(s.phase.test)
    requires StatusOf(s, s.sockets[s.phase.at.value]) != Wanted(s.phase.test)
    ensures Follows(was, seen, t)
  {
  }

  lemma OtherStepFollows(was: map<Id, Sock>, seen: Observed, s: State, a: Action, next: State)
    requires Follows(was, seen, s) && Enabled(s, a) && Inside(a) && a != Sweep(Test) && next == Apply(s, a)
    ensures Follows(was, seen, next)
  {
    if a.User? {
      UsersStayOut(s, a.u, next);
    }
  }

  /** What the test about to be made returns has been foretold. */
  lemma ReadIsForetold(was: map<Id, Sock>, seen: Observed, s: State, acts: seq<Action>)
    requires Follows(was, seen, s) && PossibleRun(s, acts) && Foretold(was, seen, s, acts)
    requires acts != [] && acts[0] == Sweep(Test)
    ensures seen(s.phase.at.value, s.phase.test) == StatusOf(s, s.sockets[s.phase.at.value])
  {
    var id, n := s.phase.at.value, s.phase.test;
    StillThere(was, s.phase.todo, seen, s.sockets, s.startConnect, s.connected, s.disconnect, id);
    assert Reads(s, acts[0], id, n) && NotPast(s, id, n);
    assert seen(id, n) == SeenAs(s, acts, id, was[id], n);
  }

  lemma StepFollows(was: map<Id, Sock>, seen: Observed, s: State, acts: seq<Action>, next: State)
    requires SweepRun(s, acts) && PossibleRun(s, acts) && Follows(was, seen, s) && Foretold(was, seen, s, acts)
    requires acts != [] && next == Apply(s, acts[0])
    ensures SweepRun(next, acts[1..]) && Follows(was, seen, next)
  {
    var a := acts[0];
    NextInSweep(s, acts, next);
    if a != Sweep(Test) {
      OtherStepFollows(was, seen, s, a, next);
    } else {
      ReadIsForetold(was, seen, s, acts);
      if seen(s.phase.at.value, s.phase.test) == Wanted(s.phase.test) {
        HitFollows(was, seen, s, next);
      } else {
        MissFollows(was, seen, s, next);
      }
    }
  }

  lemma {:induction false} RunFollows(was: map<Id, Sock>, seen: Observed, s: State, acts: seq<Action>)
    requires SweepRun(s, acts) && PossibleRun(s, acts) && Follows(was, seen, s) && Foretold(was, seen, s, acts)
    ensures Follows(was, seen, Run(s, acts))
    decreases |acts|
  {
    if acts != [] {
      NextInSweep(s, acts, Apply(s, acts[0]));
      StepFollows(was, seen, s, acts, Apply(s, acts[0]));
      NextForetold(was, seen, s, acts, Apply(s, acts[0]));
      RunFollows(was, seen, Apply(s, acts[0]), acts[1..]);
    }
  }

  lemma BeginFollows(s: State, acts: seq<Action>, start: State)
    requires Inv(s) && SweepEnabled(s, BeginSweep) && start == ApplySweep(s, BeginSweep)
    requires SafeRun(start, acts) && PossibleRun(start, acts)
    ensures var seen := SeenBy(start, acts, s.sockets);
      Inv(start) && Follows(s.sockets, seen, start) && Foretold(s.sockets, seen, start, acts)
  {
    StepKeepsInv(s, Sweep(BeginSweep));
  }

  /**
   From the first step of a sweep to its last, over any safe run: every socket
   passes a test, and the three maps and the table are those of the table's
   own sweep over the same reads. When Connect is one step the reads rise.
   */
  lemma SweepAgrees(s: State, start: State, acts: seq<Action>)
    requires Inv(s) && SweepEnabled(s, BeginSweep) && start == ApplySweep(s, BeginSweep)
    requires SafeRun(start, acts) && PossibleRun(start, acts) && Unfinished(acts)
    requires SweepEnabled(Run(start, acts), EndSweep)
    ensures SweptTo(s.sockets, {}, SeenBy(start, acts, s.sockets), Run(start, acts))
    ensures AtomicConnects(acts) ==> forall id <- s.sockets :: Rising(SeenBy(start, acts, s.sockets), id)
  {
    BeginFollows(s, acts, start);
    RunFollows(s.sockets, SeenBy(start, acts, s.sockets), start, acts);
    if AtomicConnects(acts) {
      forall id | id in s.sockets ensures Rising(SeenBy(start, acts, s.sockets), id) {
        ReadsRise(start, acts, s.sockets, id);
      }
    }
  }
}
