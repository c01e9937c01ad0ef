/** The end of the initialization executor: stop requests, executors stopped from elsewhere, and destruction. */
module Teardown {
  import opened Options
  import opened ShutdownCoordinator
  import opened Lifecycle
  import opened Startup

  // ---- The stop flag ----

  /** The flag the worker reads is up exactly once interruption, shutdown or destruction was asked for. */
  predicate FlagTells(s: State) {
    s.shared.stopping <==> s.flags.interruptRequested || s.flags.shutdownRequested || !s.alive
  }

  /** Whatever initialization still decides, it is not to subscribe. */
  predicate Barred(s: State) {
    s.shared.stopping && (s.history.decided.Some? ==> !Allows(s.history.decided.value))
  }

  lemma WorkerFlag(s: State, e: Event)
    ensures FlagTells(s) ==> FlagTells(WorkerStep(s, e))
    ensures Barred(s) ==> Barred(WorkerStep(s, e))
  {
    hide Finish;
  }

  lemma HandleFlag(s: State, c: Completion)
    ensures FlagTells(s) ==> FlagTells(Handle(s, c))
    ensures Barred(s) ==> Barred(Handle(s, c))
  {
    hide BeginAfter, Submit, Stop;
  }

  lemma StepFlag(s: State, e: Event)
    ensures FlagTells(s) ==> FlagTells(Step(s, e))
    ensures Barred(s) ==> Barred(Step(s, e))
  {
    hide Begin, Signal, Submit, Stop, Handle, WorkerStep;
    if !OnGui(e) {
      WorkerFlag(s, e);
    } else if e.CompleteInit? && s.init.completions != [] {
      HandleFlag(s.(init := s.init.(completions := s.init.completions[1..])), s.init.completions[0]);
    } else if e.CompleteControl? && s.control.completions != [] {
      HandleFlag(s.(control := s.control.(completions := s.control.completions[1..])), s.control.completions[0]);
    }
  }

  lemma {:induction false} RunFlag(s: State, events: seq<Event>)
    ensures FlagTells(s) ==> FlagTells(Run(s, events))
    ensures Barred(s) ==> Barred(Run(s, events))
    decreases |events|
  {
    hide Step, FlagTells, Barred;
    if events != [] {
      RunFlag(s, events[..|events| - 1]);
      StepFlag(Run(s, events[..|events| - 1]), events[|events| - 1]);
    }
  }

  /**
   * Once interruption or shutdown has been requested, or the object destroyed, an initialization that has not decided
   * yet never subscribes, whatever happens afterwards.
   */
  lemma NoSubscriptionAfterStop(before: nat, after: nat, factory: bool, front: seq<Event>, rest: seq<Event>)
    requires var s := Run(Start(before, after, factory), front);
      (s.flags.interruptRequested || s.flags.shutdownRequested || !s.alive) && s.history.decided.None?
    ensures !Run(Start(before, after, factory), front + rest).history.subscribed
  {
    hide Run;
    var start := Start(before, after, factory);
    RunFlag(start, front);
    RunFlag(Run(start, front), rest);
    RunConcat(start, front, rest);
    SubscribesExactly(before, after, factory, front + rest);
  }

  // ---- A stopped executor ----

  function Executor(s: State, control: bool): Worker {
    if control then s.control else s.init
  }

  /** Stopped, nothing delivered, and at most `n` tasks left. */
  predicate Silent(w: Worker, n: nat) {
    w.stopping && w.completions == [] && |w.queue| <= n
  }

  lemma WorkerSilent(s: State, e: Event, control: bool, n: nat)
    requires Silent(Executor(s, control), n)
    ensures Silent(Executor(WorkerStep(s, e), control), n)
  {
  }

  lemma ObeySilent(s: State, call: Call, control: bool, n: nat)
    requires Silent(Executor(s, control), n)
    ensures Silent(Executor(Obey(s, call), control), n)
  {
  }

  lemma HandleSilent(s: State, c: Completion, control: bool, n: nat)
    requires Silent(Executor(s, control), n)
    ensures Silent(Executor(Handle(s, c), control), n)
  {
    hide BeginAfter, Obey;
    ObeySilent(s.(coordinator := BeginAfter(s.coordinator).0), BeginAfter(s.coordinator).1, control, n);
  }

  lemma GuiSilent(s: State, e: Event, control: bool, n: nat)
    requires Silent(Executor(s, control), n)
    ensures Silent(Executor(GuiStep(s, e), control), n)
  {
    hide Begin, Signal, Obey, Handle;
    match e {
      case RequestStop => ObeySilent(s.(coordinator := Begin(s.coordinator).0), Begin(s.coordinator).1, control, n);
      case ParticipantDone(early, i) =>
        var r := Signal(s.coordinator, early, i);
        ObeySilent(s.(coordinator := r.0), r.1, control, n);
      case CompleteInit =>
        if s.init.completions != [] {
          HandleSilent(s.(init := s.init.(completions := s.init.completions[1..])), s.init.completions[0], control, n);
        }
      case CompleteControl =>
        if s.control.completions != [] {
          HandleSilent(s.(control := s.control.(completions := s.control.completions[1..])),
                       s.control.completions[0], control, n);
        }
      case _ =>
    }
  }

  lemma {:induction false} RunSilent(s: State, events: seq<Event>, control: bool, n: nat)
    requires Silent(Executor(s, control), n)
    ensures Silent(Executor(Run(s, events), control), n)
    decreases |events|
  {
    hide GuiStep, WorkerStep, Silent;
    if events != [] {
      var m := |events| - 1;
      RunSilent(s, events[..m], control, n);
      WorkerSilent(Run(s, events[..m]), events[m], control, n);
      GuiSilent(Run(s, events[..m]), events[m], control, n);
    }
  }

  /**
   * In every run, an executor stopped from elsewhere accepts nothing more and delivers nothing more, ever, and the
   * other executor is left alone.
   */
  lemma StoppedExecutorIsSilent(before: nat, after: nat, factory: bool, front: seq<Event>, control: bool,
                                rest: seq<Event>)
    requires Run(Start(before, after, factory), front).alive
    ensures var s := Run(Start(before, after, factory), front);
      var stopped := Step(s, StopExecutor(control));
      var t := Run(stopped, rest);
      && Executor(stopped, !control) == Executor(s, !control)
      && Executor(t, control).stopping && Executor(t, control).completions == []
      && |Executor(t, control).queue| <= |Executor(s, control).queue|
  {
    var start := Start(before, after, factory);
    StartInv(before, after, factory);
    RunKeeps(start, front);
    var s := Run(start, front);
    hide Run;
    RunSilent(Step(s, StopExecutor(control)), rest, control, |Executor(s, control).queue|);
  }

  // ---- Worker steps always advance ----

  /** What the node answers to the workers. */
  datatype Answers = Answers(success: bool, nodeDown: bool, outcome: ShutdownOutcome, throws: bool)

  /** The step the worker takes next with a task. */
  function Turn(t: Task, a: Answers): Event {
    match t
    case InitMain(Fresh) => InitDecides(a.success, a.nodeDown)
    case InitMain(Subscribes) => InitSubscribes
    case InitMain(_) => InitReturns
    case NodeShutdown => ShutdownRuns(a.outcome)
    case RetireState => RetireRuns
    case StartShutdown => InterruptRuns(a.throws)
  }

  /** Steps a task takes at most. */
  function Steps(t: Task): nat {
    match t
    case InitMain(Fresh) => 3
    case InitMain(Subscribes) => 2
    case _ => 1
  }

  function QueueSteps(q: seq<Task>): nat {
    if q == [] then 0 else Steps(q[0]) + QueueSteps(q[1..])
  }

  /** The next step the workers take by themselves. */
  function NextTurn(s: State, a: Answers): Event
    requires s.init.queue != [] || s.control.queue != []
  {
    Turn(if s.init.queue != [] then s.init.queue[0] else s.control.queue[0], a)
  }

  function Owed(s: State): nat {
    QueueSteps(s.init.queue) + QueueSteps(s.control.queue)
  }

  /** The workers carry on by themselves for `n` steps. */
  function Work(s: State, a: Answers, n: nat): seq<Event>
    decreases n
  {
    if n == 0 || (s.init.queue == [] && s.control.queue == []) then []
    else [NextTurn(s, a)] + Work(WorkerStep(s, NextTurn(s, a)), a, n - 1)
  }

  lemma InitTurnAdvances(s: State, a: Answers)
    requires InInit(s.init)
    ensures var t := InitStep(s, Turn(s.init.queue[0], a));
      QueueSteps(t.init.queue) < QueueSteps(s.init.queue) && t.control == s.control && t.alive == s.alive
  {
    hide QueueSteps;
    var q := s.init.queue;
    StageSteps(q, q[0].stage);
    StageSteps(q, Skips);
    StageSteps(q, Subscribes);
    StageSteps(q, Subscribed);
  }

  lemma StageSteps(q: seq<Task>, stage: Stage)
    requires q != [] && q[0].InitMain?
    ensures QueueSteps(q[0 := InitMain(stage)]) == Steps(InitMain(stage)) + QueueSteps(q[1..])
    ensures QueueSteps(q) == Steps(q[0]) + QueueSteps(q[1..])
  {
    assert q[0 := InitMain(stage)][1..] == q[1..];
  }

  lemma TurnAdvances(s: State, a: Answers)
    requires Inv(s) && (s.init.queue != [] || s.control.queue != [])
    ensures var t := WorkerStep(s, NextTurn(s, a));
      Owed(t) < Owed(s) && t.alive == s.alive
  {
    if InInit(s.init) {
      hide Inv, QueueSteps, InitStep;
      InitTurnAdvances(s, a);
    } else {
      if s.init.queue != [] {
        assert Rank(s.init.queue[0]) < 3;
      }
      hide Ranked, HasRank, CoordinatorInv, AllDone, InitInv, ReportInv, ResultInv, PhaseInv, InitStep;
    }
  }

  lemma {:induction false} WorkEmpties(s: State, a: Answers, n: nat)
    requires Inv(s) && Owed(s) <= n
    ensures var t := Run(s, Work(s, a, n)); t.init.queue == [] && t.control.queue == []
    ensures forall e <- Work(s, a, n) :: !OnGui(e)
    decreases n
  {
    hide Inv, NextTurn, QueueSteps;
    if n > 0 && (s.init.queue != [] || s.control.queue != []) {
      TurnAdvances(s, a);
      TurnIsWork(s, a);
      WorkerStepKeeps(s, NextTurn(s, a));
      WorkEmpties(WorkerStep(s, NextTurn(s, a)), a, n - 1);
      RunTail(s, NextTurn(s, a), Work(WorkerStep(s, NextTurn(s, a)), a, n - 1));
    } else if n == 0 {
      NothingOwed(s);
    }
  }

  lemma TurnIsWork(s: State, a: Answers)
    requires s.init.queue != [] || s.control.queue != []
    ensures !OnGui(NextTurn(s, a))
  {
  }

  lemma NothingOwed(s: State)
    ensures Owed(s) == 0 ==> s.init.queue == [] && s.control.queue == []
  {
    assert forall t: Task :: Steps(t) > 0;
  }

  /** From every reachable state, whatever the node answers, the workers empty both queues in the steps owed. */
  lemma QueuesEmpty(before: nat, after: nat, factory: bool, events: seq<Event>, a: Answers)
    ensures var s := Run(Start(before, after, factory), events);
      var t := Run(s, Work(s, a, Owed(s)));
      t.init.queue == [] && t.control.queue == []
  {
    hide Run, Work, Inv;
    StartInv(before, after, factory);
    RunKeeps(Start(before, after, factory), events);
    WorkEmpties(Run(Start(before, after, factory), events), a, Owed(Run(Start(before, after, factory), events)));
  }

  // ---- Destruction ----

  /** Destroyed, both executors stopped; what is still held is released by the last task. */
  ghost predicate Leaving(s: State) {
    && !s.alive && s.init.stopping && s.control.stopping && s.init.completions == [] && s.control.completions == []
    && (HasRank(s.init.queue, 2) || (s.init.queue == [] && !s.shared.subscription && !s.shared.factory))
  }

  lemma WorkerLeaving(s: State, e: Event)
    requires Inv(s) && Leaving(s)
    ensures Leaving(WorkerStep(s, e))
  {
    var q := s.init.queue;
    if q != [] {
      RankedFinish(q);
      RetireIsLast(q);
      if q[0].InitMain? {
        RankedStage(q, Skips);
        RankedStage(q, Subscribes);
        RankedStage(q, Subscribed);
      }
    }
    hide Ranked, HasRank, CoordinatorInv, AllDone;
  }

  lemma RetireIsLast(q: seq<Task>)
    requires Ranked(q) && q != []
    ensures q[0] == RetireState ==> q[1..] == []
  {
    var t := if |q| > 1 then q[1] else q[0];
    assert Rank(t) < 3 && (|q| > 1 ==> Rank(q[0]) < Rank(t));
  }

  lemma SomeRank(q: seq<Task>)
    requires Ranked(q)
    ensures q != [] ==> HasRank(q, 0) || HasRank(q, 1) || HasRank(q, 2)
  {
    assert q != [] ==> HasRank(q, Rank(q[0]));
  }

  lemma DestroyLeaves(s: State)
    requires Inv(s) && Untouched(s) && Once(s)
    ensures Leaving(Step(s, Destroy))
  {
    var q := s.init.queue;
    assert forall i :: 0 <= i < |q| ==> HasRank(q, Rank(q[i]));
    RankedSubmit(q, RetireState);
    SomeRank(q);
    hide Ranked, HasRank, CoordinatorInv, AllDone;
  }

  lemma {:induction false} RunLeaving(s: State, events: seq<Event>)
    requires Inv(s) && Leaving(s)
    ensures Leaving(Run(s, events))
    decreases |events|
  {
    hide Inv, GuiStep, WorkerStep, HasRank;
    if events != [] {
      var n := |events| - 1;
      RunLeaving(s, events[..n]);
      RunKeeps(s, events[..n]);
      WorkerLeavingIf(Run(s, events[..n]), events[n]);
    }
  }

  lemma WorkerLeavingIf(s: State, e: Event)
    requires Inv(s) && Leaving(s)
    ensures Leaving(Step(s, e))
  {
    hide Inv, WorkerStep, GuiStep, HasRank;
    if !OnGui(e) {
      WorkerLeaving(s, e);
    }
  }

  /**
   * Destruction releases everything: after any run nobody disturbed from outside, whatever follows the destructor, no
   * completion is delivered, and once the worker's queue is empty neither the subscription nor the factory is held.
   */
  lemma DestructionReleases(before: nat, after: nat, factory: bool, front: seq<Event>, rest: seq<Event>)
    requires Untouched(Run(Start(before, after, factory), front))
    ensures var t := Run(Step(Run(Start(before, after, factory), front), Destroy), rest);
      && t.init.completions == [] && t.control.completions == []
      && (t.init.queue == [] ==> !t.shared.subscription && !t.shared.factory)
  {
    hide Run, Step, HasRank;
    var start := Start(before, after, factory);
    var s := Run(start, front);
    StartInv(before, after, factory);
    RunKeeps(start, front);
    RunStartup(before, after, factory, front);
    hide Inv, Startup.Decided, Once, Heard;
    DestroyLeaves(s);
    StepKeeps(s, Destroy);
    RunLeaving(Step(s, Destroy), rest);
    NoneOfRank(Run(Step(s, Destroy), rest).init.queue, 2);
  }

  lemma NoneOfRank(q: seq<Task>, r: nat)
    ensures q == [] ==> !HasRank(q, r)
  {
  }

  /** And that point is reached: with any answers, the steps owed after the destructor release everything. */
  lemma DestructionFinishes(before: nat, after: nat, factory: bool, front: seq<Event>, a: Answers)
    requires Untouched(Run(Start(before, after, factory), front))
    ensures var s := Step(Run(Start(before, after, factory), front), Destroy);
      var t := Run(s, Work(s, a, Owed(s)));
      t.init.queue == [] && t.control.queue == [] && !t.shared.subscription && !t.shared.factory
  {
    hide Run, Step, Work, Inv, Owed;
    StartInv(before, after, factory);
    RunKeeps(Start(before, after, factory), front);
    var s := Step(Run(Start(before, after, factory), front), Destroy);
    StepKeeps(Run(Start(before, after, factory), front), Destroy);
    WorkEmpties(s, a, Owed(s));
    DestructionReleases(before, after, factory, front, Work(s, a, Owed(s)));
  }
}
