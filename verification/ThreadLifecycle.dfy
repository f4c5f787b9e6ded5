/**
 One controller that calls Start and Stop, and the detached worker it spawns,
 sharing the flags `running` and `quit`. Every flag access and every hook entry
 is one step; what the hooks answer is chosen by the run.
 */
module ThreadLifecycle {

  /** Where the controller is: between calls, in Start, or in Stop. */
  datatype Control =
    | Idle
    | StartHook     // Start has seen quit; beforeStart runs
    | SetRunning
    | ClearQuit
    | Spawning
    | AfterStart    // afterStart runs
    | StartFailed   // about to clear running
    | StopHook      // Stop has seen !quit; beforeStop runs
    | ClearRunning
    | Polling       // waits for quit
    | AfterStop     // afterStop runs, then Stop returns

  /** Where the worker is; None before the first spawn and after `quit` was set. */
  datatype Worker =
    | NoWorker
    | Spawned       // about to call beforeThread
    | InBefore      // inside beforeThread
    | BeforeFailed  // about to clear running
    | LoopTest      // about to read running
    | Entering      // about to call readThread
    | InRead        // inside readThread
    | ReadFailed    // about to clear running
    | LoopDone      // about to call afterThread
    | InAfter       // inside afterThread
    | Quitting      // about to set quit

  /** What the worker does, in the order it does it. */
  datatype Event = Spawn | BeforeThread | ReadThread | AfterThread | Quit

  /** What the last call of Start has returned; Pending while it runs, and before the first. */
  datatype Answer = Pending | Success | Failure

  datatype State =
    State(running: bool, quit: bool, control: Control, worker: Worker, trace: seq<Event>, answer: Answer)

  const START: State := State(false, true, Idle, NoWorker, [], Pending)

  datatype Action =
    | CallStart | BeforeStart(ok: bool) | WriteRunning | WriteQuit | SpawnWorker
    | AfterStartHook(ok: bool) | UnsetRunning
    | CallStop | BeforeStop | StopRunning | Poll | AfterStopHook
    | Work(ok: bool)  // the worker's next step; ok is a hook's answer where it has one

  predicate Enabled(s: State, a: Action) {
    match a
    case CallStart => s.control == Idle
    case BeforeStart(_) => s.control == StartHook
    case WriteRunning => s.control == SetRunning
    case WriteQuit => s.control == ClearQuit
    case SpawnWorker => s.control == Spawning
    case AfterStartHook(_) => s.control == AfterStart
    case UnsetRunning => s.control == StartFailed
    case CallStop => s.control == Idle
    case BeforeStop => s.control == StopHook
    case StopRunning => s.control == ClearRunning
    case Poll => s.control == Polling
    case AfterStopHook => s.control == AfterStop
    case Work(_) => s.worker != NoWorker
  }

  function Note(s: State, e: Event, w: Worker): State {
    s.(trace := s.trace + [e], worker := w)
  }

  function DoWork(s: State, ok: bool): State {
    match s.worker
    case NoWorker => s
    case Spawned => Note(s, BeforeThread, InBefore)
    case InBefore => s.(worker := if ok then LoopTest else BeforeFailed)
    case BeforeFailed => s.(worker := LoopTest, running := false)
    case LoopTest => s.(worker := if s.running then Entering else LoopDone)
    case Entering => Note(s, ReadThread, InRead)
    case InRead => s.(worker := if ok then LoopTest else ReadFailed)
    case ReadFailed => s.(worker := LoopTest, running := false)
    case LoopDone => Note(s, AfterThread, InAfter)
    case InAfter => s.(worker := Quitting)
    case Quitting => Note(s, Quit, NoWorker).(quit := true)
  }

  function Apply(s: State, a: Action): State
    requires Enabled(s, a)
  {
    match a
    case CallStart => if s.quit then s.(control := StartHook, answer := Pending) else s.(answer := Success)
    case BeforeStart(ok) => if ok then s.(control := SetRunning) else s.(control := Idle, answer := Failure)
    case WriteRunning => s.(control := ClearQuit, running := true)
    case WriteQuit => s.(control := Spawning, quit := false)
    case SpawnWorker => Note(s, Spawn, Spawned).(control := AfterStart)
    case AfterStartHook(ok) => if ok then s.(control := Idle, answer := Success) else s.(control := StartFailed)
    case UnsetRunning => s.(control := Idle, running := false, answer := Failure)
    case CallStop => if s.quit then s else s.(control := StopHook)
    case BeforeStop => s.(control := ClearRunning)
    case StopRunning => s.(control := Polling, running := false)
    case Poll => if s.quit then s.(control := AfterStop) else s
    case AfterStopHook => s.(control := Idle)
    case Work(ok) => DoWork(s, ok)
  }

  predicate PossibleRun(s: State, acts: seq<Action>)
    decreases |acts|
  {
    acts == [] || (Enabled(s, acts[0]) && PossibleRun(Apply(s, acts[0]), acts[1..]))
  }

  function Run(s: State, acts: seq<Action>): State
    requires PossibleRun(s, acts)
    decreases |acts|
  {
    if acts == [] then s else Run(Apply(s, acts[0]), acts[1..])
  }

  // ---------------------------------------------------------------- one worker at a time

  /** Start is past its test and has not spawned yet. */
  predicate Preparing(c: Control) {
    c == StartHook || c == SetRunning || c == ClearQuit || c == Spawning
  }

  /** A worker lives exactly while `quit` is clear, except just before it is spawned. */
  ghost predicate OneWorker(s: State) {
    && (s.worker != NoWorker <==> !s.quit && s.control != Spawning)
    && (Preparing(s.control) ==> s.worker == NoWorker)
    && (s.control == Spawning ==> !s.quit)
    && (s.control == AfterStop ==> s.quit)
  }

  // ---------------------------------------------------------------- the order of hooks

  /** How far a worker is in its script; Wrong when it left it. */
  datatype Script = Out | Begun | Looping | Finished | Wrong

  function Follow(p: Script, e: Event): Script {
    match (p, e)
    case (Out, Spawn) => Begun
    case (Begun, BeforeThread) => Looping
    case (Looping, ReadThread) => Looping
    case (Looping, AfterThread) => Finished
    case (Finished, Quit) => Out
    case _ => Wrong
  }

  function ScriptOf(trace: seq<Event>): Script {
    if trace == [] then Out else Follow(ScriptOf(trace[..|trace| - 1]), trace[|trace| - 1])
  }

  /** The worker's place agrees with what it has done. */
  function Expected(w: Worker): Script {
    match w
    case NoWorker => Out
    case Spawned => Begun
    case InAfter => Finished
    case Quitting => Finished
    case _ => Looping
  }

  ghost predicate Inv(s: State) {
    OneWorker(s) && ScriptOf(s.trace) == Expected(s.worker)
  }

  lemma ScriptNote(trace: seq<Event>, e: Event)
    ensures ScriptOf(trace + [e]) == Follow(ScriptOf(trace), e)
  {
    assert (trace + [e])[..|trace|] == trace;
  }

  function ReadCalls(trace: seq<Event>): nat {
    multiset(trace)[ReadThread]
  }

  /** What a step adds to the trace. */
  function Added(s: State, a: Action): seq<Event> {
    if a == SpawnWorker then [Spawn]
    else if !a.Work? then []
    else
      match s.worker
      case Spawned => [BeforeThread]
      case Entering => [ReadThread]
      case LoopDone => [AfterThread]
      case Quitting => [Quit]
      case _ => []
  }

  lemma StepFollowsScript(s: State, a: Action)
    requires OneWorker(s) && Enabled(s, a)
    ensures var t, e := Apply(s, a), Added(s, a);
      && OneWorker(t)
      && t.trace == s.trace + e
      && Expected(t.worker) == if e == [] then Expected(s.worker) else Follow(Expected(s.worker), e[0])
  {
  }

  lemma StepKeepsInv(s: State, a: Action)
    requires Inv(s) && Enabled(s, a)
    ensures Inv(Apply(s, a))
  {
    StepFollowsScript(s, a);
    if Added(s, a) != [] {
      ScriptNote(s.trace, Added(s, a)[0]);
    }
  }

  lemma {:induction false} RunKeepsInv(s: State, acts: seq<Action>)
    requires Inv(s) && PossibleRun(s, acts)
    ensures Inv(Run(s, acts))
    decreases |acts|
  {
    if acts == [] {
    } else {
      StepKeepsInv(s, acts[0]);
      RunKeepsInv(Apply(s, acts[0]), acts[1..]);
    }
  }

  /** A generation's whole trace: spawned, beforeThread once, readThread any number of times, afterThread once, quit. */
  function Generation(calls: nat): seq<Event> {
    [Spawn, BeforeThread] + seq(calls, i => ReadThread) + [AfterThread, Quit]
  }

  function Generations(calls: seq<nat>): seq<Event> {
    if calls == [] then [] else Generations(calls[..|calls| - 1]) + Generation(calls[|calls| - 1])
  }

  /** The start of a generation, `n` readThread calls in. */
  function Partial(p: Script, n: nat): seq<Event> {
    match p
    case Out => []
    case Begun => [Spawn]
    case Looping => [Spawn, BeforeThread] + seq(n, i => ReadThread)
    case Finished => [Spawn, BeforeThread] + seq(n, i => ReadThread) + [AfterThread]
    case Wrong => []
  }

  /** One more event of a generation under way. */
  lemma PartialGrows(p: Script, n: nat, e: Event)
    requires Follow(p, e) != Wrong && e != Quit
    ensures Partial(Follow(p, e), if e == ReadThread then n + 1 else if e == AfterThread then n else 0)
         == Partial(p, n) + [e]
  {
  }

  lemma GenerationEnds(calls: seq<nat>, n: nat)
    ensures Generations(calls + [n]) == Generations(calls) + (Partial(Finished, n) + [Quit])
  {
    assert (calls + [n])[..|calls|] == calls;
    assert Generation(n) == Partial(Finished, n) + [Quit];
  }

  lemma OneMore(calls: seq<nat>, n: nat, p: Script, e: Event) returns (calls': seq<nat>, n': nat)
    requires Follow(p, e) != Wrong
    ensures Generations(calls) + (Partial(p, n) + [e]) == Generations(calls') + Partial(Follow(p, e), n')
  {
    if e == Quit {
      GenerationEnds(calls, n);
      calls', n' := calls + [n], n;
      assert Partial(Out, n') == [];
    } else {
      PartialGrows(p, n, e);
      calls', n' := calls, if e == ReadThread then n + 1 else if e == AfterThread then n else 0;
    }
  }

  /** A trace that keeps to the script is whole generations and the start of one more. */
  lemma {:induction false} ScriptMeans(trace: seq<Event>) returns (calls: seq<nat>, n: nat)
    requires ScriptOf(trace) != Wrong
    ensures trace == Generations(calls) + Partial(ScriptOf(trace), n)
    decreases |trace|
  {
    if trace == [] {
      return [], 0;
    }
    var front, last := trace[..|trace| - 1], trace[|trace| - 1];
    var before, m := ScriptMeans(front);
    calls, n := OneMore(before, m, ScriptOf(front), last);
    LastBehind(trace, Generations(before), Partial(ScriptOf(front), m));
  }

  lemma LastBehind(trace: seq<Event>, whole: seq<Event>, part: seq<Event>)
    requires trace != [] && trace[..|trace| - 1] == whole + part
    ensures trace == whole + (part + [trace[|trace| - 1]])
  {
    assert trace == trace[..|trace| - 1] + [trace[|trace| - 1]];
  }

  /**
   Every run, over any number of restarts, is whole generations one after the
   other, and at most one that is still under way.
   */
  lemma HooksFollowTheScript(acts: seq<Action>) returns (calls: seq<nat>, n: nat)
    requires PossibleRun(START, acts)
    ensures var s := Run(START, acts);
      s.trace == Generations(calls) + Partial(Expected(s.worker), n)
  {
    RunKeepsInv(START, acts);
    calls, n := ScriptMeans(Run(START, acts).trace);
  }

  /** Nothing of the worker is under way: no hook, no step left, and its trace is complete. */
  ghost predicate Quiet(s: State) {
    s.worker == NoWorker && s.quit && ScriptOf(s.trace) == Out
  }

  /** Whenever Stop returns, by either path, no worker hook is in flight. */
  lemma StopReturnsQuiet(acts: seq<Action>, last: Action)
    requires PossibleRun(START, acts) && Enabled(Run(START, acts), last)
    requires last == AfterStopHook || (last == CallStop && Apply(Run(START, acts), last).control == Idle)
    ensures Quiet(Apply(Run(START, acts), last))
  {
    RunKeepsInv(START, acts);
    StepKeepsInv(Run(START, acts), last);
  }

  // ---------------------------------------------------------------- what running means

  /** Stop past its store, and a Start that has failed, have left `running` clear; so has a worker that has quit. */
  ghost predicate ClearWhenOver(s: State) {
    && (s.control == Polling || s.control == AfterStop ==> !s.running)
    && (s.answer == Failure ==> !s.running)
    && (s.quit && s.control != ClearQuit ==> !s.running)
    && (s.answer == Failure ==> !Preparing(s.control) && s.control != AfterStart && s.control != StartFailed)
    && (s.worker == LoopDone || s.worker == InAfter || s.worker == Quitting ==> !s.running)
  }

  lemma StepIsClear(s: State, a: Action)
    requires Inv(s) && ClearWhenOver(s) && Enabled(s, a)
    ensures ClearWhenOver(Apply(s, a))
  {
  }

  lemma {:induction false} RunIsClear(s: State, acts: seq<Action>)
    requires Inv(s) && ClearWhenOver(s) && PossibleRun(s, acts)
    ensures ClearWhenOver(Run(s, acts))
    decreases |acts|
  {
    if acts == [] {
    } else {
      StepKeepsInv(s, acts[0]);
      StepIsClear(s, acts[0]);
      RunIsClear(Apply(s, acts[0]), acts[1..]);
    }
  }

  predicate RefusedAt(a: Action, before: bool) {
    match a
    case CallStart => false
    case BeforeStart(ok) => !ok
    case AfterStartHook(ok) => !ok
    case _ => before
  }

  /** Whether a hook of the last Start has refused, given whether one has before. */
  predicate Refused(acts: seq<Action>, before: bool) {
    if acts == [] then before else Refused(acts[1..], RefusedAt(acts[0], before))
  }

  /** What Start has answered or will answer agrees with its hooks. */
  ghost predicate AnswerAgrees(s: State, refused: bool) {
    && (s.answer == Failure || s.control == StartFailed ==> refused)
    && (s.answer == Success || Preparing(s.control) || s.control == AfterStart ==> !refused)
    && (s.answer != Pending ==> !Preparing(s.control) && s.control != AfterStart && s.control != StartFailed)
    && (refused ==> s.answer == Failure || s.control == StartFailed)
  }

  lemma {:induction false} RunAnswers(s: State, acts: seq<Action>, refused: bool)
    requires AnswerAgrees(s, refused) && PossibleRun(s, acts)
    ensures AnswerAgrees(Run(s, acts), Refused(acts, refused))
    decreases |acts|
  {
    if acts != [] {
      RunAnswers(Apply(s, acts[0]), acts[1..], RefusedAt(acts[0], refused));
    }
  }

  /** When no Start is under way, after any run, the last one has failed exactly when one of its hooks refused. */
  lemma StartAnswersItsHooks(acts: seq<Action>)
    requires PossibleRun(START, acts) && Run(START, acts).control == Idle
    ensures Run(START, acts).answer == Failure <==> Refused(acts, false)
  {
    RunAnswers(START, acts, false);
  }

  /** Nobody calls Stop, and every hook succeeds. */
  predicate Smooth(acts: seq<Action>) {
    forall k :: 0 <= k < |acts| ==> SmoothStep(acts[k])
  }

  predicate SmoothStep(a: Action) {
    match a
    case CallStop => false
    case BeforeStart(ok) => ok
    case AfterStartHook(ok) => ok
    case Work(ok) => ok
    case _ => true
  }

  /** The worker, once spawned, is in its loop, and what started it has succeeded or is about to. */
  ghost predicate Thriving(s: State) {
    && (s.worker != NoWorker ==> s.running && InLoop(s.worker))
    && (s.control == ClearQuit || s.control == Spawning ==> s.running)
    && (s.quit ==> s.control == Idle || Preparing(s.control))
    && (s.answer == Success ==> s.worker != NoWorker)
    && s.answer != Failure && s.control != StartFailed
    && s.control != StopHook && s.control != ClearRunning && s.control != Polling && s.control != AfterStop
  }

  predicate InLoop(w: Worker) {
    w == Spawned || w == InBefore || w == LoopTest || w == Entering || w == InRead
  }

  ghost predicate OneThriving(s: State) {
    OneWorker(s) && Thriving(s)
  }

  lemma SmoothStepThrives(s: State, a: Action)
    requires OneThriving(s) && Enabled(s, a) && SmoothStep(a)
    ensures OneThriving(Apply(s, a))
  {
    StepFollowsScript(s, a);
  }

  lemma {:induction false} SmoothRunThrives(s: State, acts: seq<Action>)
    requires OneThriving(s) && PossibleRun(s, acts) && Smooth(acts)
    ensures OneThriving(Run(s, acts))
    decreases |acts|
  {
    if acts == [] {
    } else {
      var rest := acts[1..];
      assert SmoothStep(acts[0]);
      assert forall k :: 0 <= k < |rest| ==> rest[k] == acts[k + 1];
      SmoothStepThrives(s, acts[0]);
      SmoothRunThrives(Apply(s, acts[0]), rest);
    }
  }

  /** A thread that nobody stops and whose hooks succeed runs for ever: each three of its steps call readThread. */
  lemma RunsUntilStopped(acts: seq<Action>, calls: nat)
    requires PossibleRun(START, acts) && Smooth(acts) && Run(START, acts).answer == Success
    ensures var s := Run(START, acts);
      && s.running && InLoop(s.worker)
      && PossibleRun(s, Working(3 * calls + 2))
      && ReadCalls(Run(s, Working(3 * calls + 2)).trace) >= ReadCalls(s.trace) + calls
  {
    SmoothRunThrives(START, acts);
    var n := 3 * calls + 2;
    ReadsGoOn(Run(START, acts), n, calls);
  }

  /** The worker's hooks all succeed, `n` steps long. */
  function Working(n: nat): seq<Action> {
    if n == 0 then [] else [Work(true)] + Working(n - 1)
  }

  /** Steps a worker in its loop needs until it has called readThread once more. */
  function UntilRead(w: Worker): nat {
    match w
    case Spawned => 4
    case InBefore => 3
    case LoopTest => 2
    case Entering => 1
    case InRead => 3
    case _ => 0
  }

  lemma {:induction false} ReadsGoOn(s: State, n: nat, calls: nat)
    requires s.running && InLoop(s.worker) && (calls > 0 ==> n >= UntilRead(s.worker) + 3 * (calls - 1))
    ensures PossibleRun(s, Working(n)) && ReadCalls(Run(s, Working(n)).trace) >= ReadCalls(s.trace) + calls
    decreases n
  {
    if n > 0 {
      assert Working(n)[0] == Work(true) && Working(n)[1..] == Working(n - 1);
      var next := Apply(s, Work(true));
      ReadsGoOn(next, n - 1, if s.worker == Entering && calls > 0 then calls - 1 else calls);
    }
  }

  // ---------------------------------------------------------------- stopping ends

  /** Steps a worker has left at most, once `running` is clear for good. */
  function Remaining(w: Worker): nat {
    match w
    case NoWorker => 0
    case Quitting => 1
    case InAfter => 2
    case LoopDone => 3
    case LoopTest => 4
    case ReadFailed => 5
    case BeforeFailed => 5
    case InRead => 6
    case InBefore => 6
    case Entering => 7
    case Spawned => 7
  }

  predicate WindingDown(s: State) {
    !s.running && s.worker != NoWorker
  }

  /** From then on nobody sets `running` before `quit`, and only the worker's own steps use up what it has left. */
  lemma StepWindsDown(s: State, a: Action)
    requires Inv(s) && WindingDown(s) && Enabled(s, a)
    ensures var t := Apply(s, a);
      && !t.running && (WindingDown(t) || (t.quit && a.Work?))
      && Remaining(t.worker) <= Remaining(s.worker) - (if a.Work? then 1 else 0)
  {
  }

  function WorkSteps(acts: seq<Action>): nat {
    if acts == [] then 0 else (if acts[0].Work? then 1 else 0) + WorkSteps(acts[1..])
  }

  /** The flag `quit` is set at some point of a run. */
  predicate QuitSeen(s: State, acts: seq<Action>)
    requires PossibleRun(s, acts)
    decreases |acts|
  {
    s.quit || (acts != [] && QuitSeen(Apply(s, acts[0]), acts[1..]))
  }

  /** `running` stays clear until `quit` is set. */
  predicate StaysClear(s: State, acts: seq<Action>)
    requires PossibleRun(s, acts)
    decreases |acts|
  {
    s.quit || (!s.running && (acts == [] || StaysClear(Apply(s, acts[0]), acts[1..])))
  }

  /**
   A worker that winds down quits within seven steps of its own, whatever the
   controller does meanwhile; `running` stays clear until then.
   */
  lemma {:induction false} StopEnds(s: State, acts: seq<Action>)
    requires Inv(s) && WindingDown(s) && PossibleRun(s, acts)
    ensures StaysClear(s, acts)
    ensures WorkSteps(acts) >= Remaining(s.worker) ==> QuitSeen(s, acts)
    decreases |acts|
  {
    if acts == [] {
    } else {
      var t := Apply(s, acts[0]);
      StepKeepsInv(s, acts[0]);
      StepWindsDown(s, acts[0]);
      if WindingDown(t) {
        StopEnds(t, acts[1..]);
      }
    }
  }

  /** After any run Stop returns at once, changing nothing, exactly when no worker is left. */
  lemma StopReturnsAtOnce(acts: seq<Action>)
    requires PossibleRun(START, acts) && Enabled(Run(START, acts), CallStop)
    ensures var s := Run(START, acts);
      && (Apply(s, CallStop).control == Idle <==> s.worker == NoWorker)
      && (s.worker == NoWorker ==> Apply(s, CallStop) == s)
  {
    RunKeepsInv(START, acts);
  }

  /** The places of the controller in the order of the code of Start, then of Stop. */
  function Line(c: Control): nat {
    match c
    case Idle => 0
    case StartHook => 1
    case SetRunning => 2
    case ClearQuit => 3
    case Spawning => 4
    case AfterStart => 5
    case StartFailed => 6
    case StopHook => 7
    case ClearRunning => 8
    case Polling => 9
    case AfterStop => 10
  }

  /** On to the next line, back out where Start and Stop return, in from outside, or once more round Stop's wait. */
  predicate Way(from: nat, to: nat) {
    || (to == from + 1 && from != 6 && from != 10)
    || (to == 0 && (from == 0 || from == 1 || from == 5 || from == 6 || from == 10))
    || (from == 0 && to == 7) || (from == to == 9)
  }

  /** Start and Stop go line by line, and leave only where they return. */
  lemma ControlGoesItsWay(s: State, a: Action, to: Control)
    requires Enabled(s, a) && !a.Work? && to == Apply(s, a).control
    ensures Way(Line(s.control), Line(to))
    ensures to == StartHook && s.control == Idle ==> a == CallStart
    ensures to == StopHook && s.control == Idle ==> a == CallStop
  {
  }

  /** The worker moves neither. */
  lemma WorkLeavesControl(s: State, ok: bool)
    ensures DoWork(s, ok).control == s.control
  {
  }

  /** Once Stop waits, the worker quits within seven steps of its own, in every run; so the wait ends. */
  lemma StopReturns(acts: seq<Action>, more: seq<Action>)
    requires PossibleRun(START, acts) && Run(START, acts).control == Polling
    requires PossibleRun(Run(START, acts), more) && WorkSteps(more) >= 7
    ensures QuitSeen(Run(START, acts), more)
  {
    RunKeepsInv(START, acts);
    RunIsClear(START, acts);
    if !Run(START, acts).quit {
      StopEnds(Run(START, acts), more);
    }
  }

  /** When the wait has ended, Stop goes on to its end and nothing of the worker is left. */
  lemma StopFinishes(acts: seq<Action>)
    requires PossibleRun(START, acts) && Run(START, acts).control == Polling && Run(START, acts).quit
    ensures var s := Run(START, acts); var polled := Apply(s, Poll);
      && Enabled(polled, AfterStopHook) && Apply(polled, AfterStopHook) == s.(control := Idle)
      && Quiet(s.(control := Idle))
  {
    RunKeepsInv(START, acts);
  }

  /** After a Start that has failed no worker is left but one that winds down. */
  lemma FailedStartLeavesNothing(acts: seq<Action>)
    requires PossibleRun(START, acts) && Run(START, acts).answer == Failure
    ensures var s := Run(START, acts); s.worker == NoWorker || WindingDown(s)
  {
    RunIsClear(START, acts);
  }

  /** While it winds down, readThread is called at most once more, and only by a worker already past its test. */
  lemma {:induction false} AtMostOneMoreRead(s: State, acts: seq<Action>)
    requires Inv(s) && WindingDown(s) && PossibleRun(s, acts) && !QuitSeen(s, acts)
    ensures ReadCalls(Run(s, acts).trace) <= ReadCalls(s.trace) + (if s.worker == Entering then 1 else 0)
    decreases |acts|
  {
    if acts == [] {
    } else {
      StepKeepsInv(s, acts[0]);
      StepWindsDown(s, acts[0]);
      AtMostOneMoreRead(Apply(s, acts[0]), acts[1..]);
    }
  }

  /** After beforeThread or readThread has failed, this worker calls readThread no more. */
  lemma NoReadAfterFailure(s: State, acts: seq<Action>)
    requires Inv(s) && (s.worker == InBefore || s.worker == InRead)
    requires acts != [] && acts[0] == Work(false) && PossibleRun(s, acts) && !QuitSeen(s, acts)
    ensures ReadCalls(Run(s, acts).trace) <= ReadCalls(s.trace)
  {
    StepKeepsInv(s, acts[0]);
    NoReadOnceFailed(Apply(s, acts[0]), acts[1..]);
  }

  lemma {:induction false} NoReadOnceFailed(s: State, acts: seq<Action>)
    requires Inv(s) && (s.worker == BeforeFailed || s.worker == ReadFailed)
    requires PossibleRun(s, acts) && !QuitSeen(s, acts)
    ensures ReadCalls(Run(s, acts).trace) <= ReadCalls(s.trace)
    decreases |acts|
  {
    if acts == [] {
    } else {
      var t := Apply(s, acts[0]);
      StepKeepsInv(s, acts[0]);
      if acts[0].Work? {
        AtMostOneMoreRead(t, acts[1..]);
      } else {
        NoReadOnceFailed(t, acts[1..]);
      }
    }
  }

  // ---------------------------------------------------------------- what Start's success means

  /** A call of Start returns success at once, without a worker of its own. */
  predicate SucceedsAtOnce(s: State)
    requires Enabled(s, CallStart)
  {
    var t := Apply(s, CallStart);
    t.control == Idle && t.answer == Success
  }

  /** After any run, Start succeeds at once exactly when a worker is alive; it changes nothing then. */
  lemma StartSucceedsAtOnce(acts: seq<Action>)
    requires PossibleRun(START, acts) && Enabled(Run(START, acts), CallStart)
    ensures var s := Run(START, acts);
      && (SucceedsAtOnce(s) <==> s.worker != NoWorker)
      && (SucceedsAtOnce(s) ==> Apply(s, CallStart) == s.(answer := Success))
  {
    RunKeepsInv(START, acts);
  }

  /** A worker that is alive but has seen, or will see, `running` clear: it is cleared, or about to be. */
  predicate Doomed(s: State) {
    s.worker != NoWorker && (!s.running || s.worker == BeforeFailed || s.worker == ReadFailed)
  }

  predicate NoStart(acts: seq<Action>) {
    forall k :: 0 <= k < |acts| ==> acts[k] != CallStart
  }

  function Spawns(trace: seq<Event>): nat {
    multiset(trace)[Spawn]
  }

  lemma StepSpawnsNothing(s: State, a: Action)
    requires OneWorker(s) && Enabled(s, a) && a != CallStart && !Preparing(s.control)
    ensures !Preparing(Apply(s, a).control) && Spawns(Apply(s, a).trace) == Spawns(s.trace)
    ensures s.worker == NoWorker ==> Apply(s, a).worker == NoWorker
  {
    StepFollowsScript(s, a);
    assert Added(s, a) == [] || Added(s, a)[0] != Spawn;
  }

  lemma StepKeepsDoomed(s: State, a: Action)
    requires Inv(s) && Doomed(s) && Enabled(s, a)
    ensures var t := Apply(s, a);
      && (Doomed(t) || t.worker == NoWorker)
      && Remaining(t.worker) <= Remaining(s.worker) - (if a.Work? then 1 else 0)
  {
  }

  /** Without a further Start a doomed worker is the last: none is spawned, and it is gone in time. */
  lemma {:induction false} LastWorkerLeaves(s: State, acts: seq<Action>)
    requires Inv(s) && (Doomed(s) || s.worker == NoWorker) && !Preparing(s.control)
    requires PossibleRun(s, acts) && NoStart(acts)
    ensures Spawns(Run(s, acts).trace) == Spawns(s.trace)
    ensures WorkSteps(acts) >= Remaining(s.worker) ==> Run(s, acts).worker == NoWorker
    decreases |acts|
  {
    if acts == [] {
    } else {
      StepKeepsInv(s, acts[0]);
      StepSpawnsNothing(s, acts[0]);
      if Doomed(s) {
        StepKeepsDoomed(s, acts[0]);
      }
      assert forall k :: 0 <= k < |acts[1..]| ==> acts[1..][k] == acts[k + 1];
      LastWorkerLeaves(Apply(s, acts[0]), acts[1..]);
    }
  }

  /** A worker that is not doomed goes on as long as its hooks succeed. */
  lemma {:induction false} WorksOn(s: State, n: nat)
    requires s.worker != NoWorker && !Doomed(s) && ClearWhenOver(s)
    ensures PossibleRun(s, Working(n)) && Run(s, Working(n)).worker != NoWorker
    ensures NoStart(Working(n)) && WorkSteps(Working(n)) == n
    decreases n
  {
    if n > 0 {
      var acts := Working(n);
      assert acts[0] == Work(true) && acts[1..] == Working(n - 1);
      WorksOn(Apply(s, Work(true)), n - 1);
      assert forall k :: 1 <= k < |acts| ==> acts[k] == acts[1..][k - 1];
    }
  }

  /** Without a further Start the worker is gone once it has had seven steps, and none has been spawned. */
  ghost predicate ComesToNothing(s: State) {
    forall more :: PossibleRun(s, more) && NoStart(more) ==>
      && Spawns(Run(s, more).trace) == Spawns(s.trace)
      && (WorkSteps(more) >= 7 ==> Run(s, more).worker == NoWorker)
  }

  /**
   A Start that succeeds at once is in vain, whatever follows short of another
   Start, if and only if at its call `running` is clear or the worker has seen
   a hook fail and is about to clear it.
   */
  lemma VainStart(acts: seq<Action>)
    requires PossibleRun(START, acts) && Enabled(Run(START, acts), CallStart) && SucceedsAtOnce(Run(START, acts))
    ensures var s := Run(START, acts); ComesToNothing(Apply(s, CallStart)) <==> Doomed(s)
  {
    RunKeepsInv(START, acts);
    RunIsClear(START, acts);
    var t := Apply(Run(START, acts), CallStart);
    StepKeepsInv(Run(START, acts), CallStart);
    if Doomed(t) {
      forall more | PossibleRun(t, more) && NoStart(more)
        ensures Spawns(Run(t, more).trace) == Spawns(t.trace)
        ensures WorkSteps(more) >= 7 ==> Run(t, more).worker == NoWorker
      {
        LastWorkerLeaves(t, more);
      }
    } else {
      WorksOn(t, 7);
      assert !ComesToNothing(t);
    }
  }

  /** Start runs to the end while the worker's beforeThread fails. */
  const DYING: seq<Action> :=
    [CallStart, BeforeStart(true), WriteRunning, WriteQuit, SpawnWorker, AfterStartHook(true),
     Work(true), Work(false), Work(true)]

  lemma RunOne(s: State, acts: seq<Action>)
    requires acts != [] && Enabled(s, acts[0]) && PossibleRun(Apply(s, acts[0]), acts[1..])
    ensures PossibleRun(s, acts) && Run(s, acts) == Run(Apply(s, acts[0]), acts[1..])
  {
  }

  /** A run in which the worker has been spawned. */
  function Alive(running: bool, control: Control, worker: Worker, trace: seq<Event>, answer: Answer): State {
    State(running, false, control, worker, trace, answer)
  }

  const HALF: seq<Event> := [Spawn, BeforeThread]

  lemma StartReturns()
    ensures var s := State(true, false, Spawning, NoWorker, [], Pending);
      PossibleRun(START, DYING[..4]) && Run(START, DYING[..4]) == s
  {
    var s4 := State(true, false, Spawning, NoWorker, [], Pending);
    var s3 := State(true, true, ClearQuit, NoWorker, [], Pending);
    var s2 := State(false, true, SetRunning, NoWorker, [], Pending);
    var s1 := State(false, true, StartHook, NoWorker, [], Pending);
    assert Run(s4, DYING[..4][4..]) == s4;
    RunOne(s3, DYING[..4][3..]);
    RunOne(s2, DYING[..4][2..]);
    RunOne(s1, DYING[..4][1..]);
    RunOne(START, DYING[..4]);
  }

  lemma BeforeThreadFails()
    ensures var s := State(true, false, Spawning, NoWorker, [], Pending);
      PossibleRun(s, DYING[4..8]) && Run(s, DYING[4..8]) == Alive(true, Idle, BeforeFailed, HALF, Success)
  {
    var acts, failed := DYING[4..8], Alive(true, Idle, BeforeFailed, HALF, Success);
    assert Run(failed, acts[4..]) == failed;
    RunOne(Alive(true, Idle, InBefore, HALF, Success), acts[3..]);
    assert [Spawn] + [BeforeThread] == HALF;
    RunOne(Alive(true, Idle, Spawned, [Spawn], Success), acts[2..]);
    RunOne(Alive(true, AfterStart, Spawned, [Spawn], Pending), acts[1..]);
    assert [] + [Spawn] == [Spawn];
    RunOne(State(true, false, Spawning, NoWorker, [], Pending), acts);
  }

  lemma {:induction false} RunBoth(s: State, first: seq<Action>, second: seq<Action>)
    requires PossibleRun(s, first) && PossibleRun(Run(s, first), second)
    ensures PossibleRun(s, first + second) && Run(s, first + second) == Run(Run(s, first), second)
    decreases |first|
  {
    if first == [] {
      assert first + second == second;
    } else {
      RunBoth(Apply(s, first[0]), first[1..], second);
      assert (first + second)[1..] == first[1..] + second;
    }
  }

  /** Start can succeed although the only worker is on its way out, with `running` still set, and with it clear. */
  lemma StartCanSucceedInVain()
    ensures PossibleRun(START, DYING[..8]) && PossibleRun(START, DYING)
    ensures var s := Run(START, DYING[..8]); Enabled(s, CallStart) && SucceedsAtOnce(s) && Doomed(s) && s.running
    ensures var s := Run(START, DYING); Enabled(s, CallStart) && SucceedsAtOnce(s) && Doomed(s) && !s.running
  {
    StartReturns();
    BeforeThreadFails();
    RunBoth(START, DYING[..4], DYING[4..8]);
    assert DYING[..4] + DYING[4..8] == DYING[..8];
    var failed := Alive(true, Idle, BeforeFailed, HALF, Success);
    assert Run(Apply(failed, DYING[8]), [DYING[8]][1..]) == Apply(failed, DYING[8]);
    RunOne(failed, [DYING[8]]);
    RunBoth(START, DYING[..8], [DYING[8]]);
    assert DYING[..8] + [DYING[8]] == DYING;
  }
}
