/** Initialization in the node's lifecycle: requested once, run once, heard of, and subscribing only when allowed. */
module Startup {
  import opened Options
  import opened ShutdownCoordinator
  import opened Lifecycle

  predicate Allows(d: Decision) {
    d.success && d.factory && !d.stopping && !d.nodeDown
  }

  /** How far the decision of the initialization at the head has come. */
  ghost predicate StageKnows(s: State) {
    InInit(s.init) ==>
      match s.init.queue[0].stage
      case Fresh => s.history.decided.None? && !s.history.subscribed
      case Skips => s.history.decided.Some? && !Allows(s.history.decided.value) && !s.history.subscribed
      case Subscribes => s.history.decided.Some? && Allows(s.history.decided.value) && !s.history.subscribed
      case Subscribed => s.history.decided.Some? && Allows(s.history.decided.value) && s.history.subscribed
  }

  ghost predicate Decided(s: State) {
    var h := s.history;
    && StageKnows(s)
    && (h.subscribed ==> h.decided.Some? && Allows(h.decided.value))
    && (!s.flags.initRequested ==> h.decided.None? && !h.subscribed)
    && (h.ended == 1 && !s.shared.threw ==> h.decided.Some? && (h.subscribed <==> Allows(h.decided.value)))
  }

  /** Nobody stopped the executor from outside. */
  predicate Untouched(s: State) {
    s.alive && !s.foreignStop
  }

  /** A requested initialization is queued or has ended, once. */
  ghost predicate Once(s: State) {
    && s.history.ended <= 1 && (s.history.ended > 0 ==> s.flags.initRequested)
    && (HasRank(s.init.queue, 0) ==> s.history.ended == 0 && s.init.completions == [])
    && (s.flags.initRequested && Untouched(s) ==> HasRank(s.init.queue, 0) || s.history.ended == 1)
    && (s.init.stopping && Untouched(s) ==> s.flags.complete)
  }

  /** Its completion comes first, and is heard of. */
  ghost predicate Heard(s: State) {
    && s.history.heard <= s.history.ended
    && (forall i :: 0 <= i < |s.init.completions| && s.init.completions[i].InitDone? ==>
          i == 0 && s.history.heard == 0 && s.history.ended == 1)
    && (s.init.completions != [] ==> s.history.ended > 0 || s.flags.shutdownRequested || !s.alive)
    && (s.history.ended == 1 && Untouched(s) ==>
          s.history.heard == 1 || (s.init.completions != [] && s.init.completions[0].InitDone?))
  }

  ghost predicate StartupInv(s: State) {
    Decided(s) && Once(s) && Heard(s)
  }

  lemma StartStartup(before: nat, after: nat, factory: bool)
    ensures StartupInv(Start(before, after, factory))
  {
  }

  lemma HeadRank(w: Worker)
    ensures InInit(w) ==> HasRank(w.queue, 0)
  {
  }

  lemma EndInitStartup(s: State, failed: bool)
    requires Inv(s) && StartupInv(s) && InInit(s.init)
    requires !failed ==> s.init.queue[0].stage.Skips? || s.init.queue[0].stage.Subscribed?
    ensures StartupInv(EndInit(s.(shared := s.shared.(threw := s.shared.threw || failed)), failed))
  {
    hide Ranked, HasRank, CoordinatorInv, AllDone, ControlInv, ResultInv, PhaseInv;
    RankedFinish(s.init.queue);
    HeadRank(Finish(s.init, InitDone(failed)));
  }

  lemma InitStepStartup(s: State, e: Event)
    requires Inv(s) && StartupInv(s)
    ensures StartupInv(InitStep(s, e))
  {
    if InInit(s.init) {
      RankedStage(s.init.queue, Skips);
      RankedStage(s.init.queue, Subscribes);
      RankedStage(s.init.queue, Subscribed);
      var stage := s.init.queue[0].stage;
      if e.InitThrows? {
        EndInitStartup(s, true);
      } else if e.InitReturns? && stage != Fresh && stage != Subscribes {
        EndInitStartup(s, false);
      }
    }
    hide Ranked, HasRank, CoordinatorInv, AllDone, ControlInv, ResultInv, PhaseInv, InitInv, ReportInv, EndInit;
  }

  /** A task behind initialization ends. */
  lemma LaterTaskStartup(s: State, c: Completion, shared: Shared, appShutdowns: nat)
    requires Inv(s) && StartupInv(s) && s.init.queue != [] && !s.init.queue[0].InitMain? && !c.InitDone?
    requires shared.threw == s.shared.threw
    ensures StartupInv(s.(init := Finish(s.init, c), shared := shared, appShutdowns := appShutdowns))
  {
    assert Rank(s.init.queue[0]) == 1 || Rank(s.init.queue[0]) == 2;
    hide Ranked, HasRank, CoordinatorInv, AllDone, ControlInv, ResultInv, PhaseInv, ReportInv;
    RankedFinish(s.init.queue);
    HeadRank(Finish(s.init, c));
  }

  lemma WorkerStartup(s: State, e: Event)
    requires Inv(s) && StartupInv(s)
    ensures StartupInv(WorkerStep(s, e))
  {
    hide Inv, StartupInv, InitStep, Finish;
    if e.ShutdownRuns? && Heads(s.init, NodeShutdown) {
      LaterTaskStartup(s, ShutdownDone(false), s.shared, s.appShutdowns);
      LaterTaskStartup(s, ShutdownFailed, s.shared, s.appShutdowns);
      LaterTaskStartup(s, ShutdownDone(true), Retired(s.shared), s.appShutdowns + 1);
      LaterTaskStartup(s, ShutdownFailed, Retired(s.shared), s.appShutdowns + 1);
    } else if e.RetireRuns? && Heads(s.init, RetireState) {
      LaterTaskStartup(s, RetireDone, Retired(s.shared), s.appShutdowns);
    } else if e.InterruptRuns? {
      InterruptStartup(s, e.throws);
    } else if !e.ShutdownRuns? && !e.RetireRuns? {
      InitStepStartup(s, e);
    }
  }

  lemma InterruptStartup(s: State, throws: bool)
    requires StartupInv(s)
    ensures StartupInv(WorkerStep(s, InterruptRuns(throws)))
  {
    hide HasRank;
  }

  lemma InitializeStartup(s: State)
    requires Inv(s) && StartupInv(s) && s.alive
    ensures StartupInv(DoInitialize(s))
  {
    if !s.flags.initRequested && !s.flags.shutdownRequested {
      var q := s.init.queue;
      assert q != [] ==> HasRank(q, Rank(q[0]));
      RankedSubmit([], InitMain(Fresh));
      assert q == [];
      assert s.init.completions == [];
    }
    hide Ranked, HasRank, CoordinatorInv, AllDone, ControlInv, ResultInv, PhaseInv;
  }

  /** A call of the coordinator can only append node shutdown. */
  lemma ObeyStartup(s: State, call: Call)
    requires InitInv(s) && StartupInv(s) && s.alive
    ensures StartupInv(Obey(s, call))
  {
    var q := s.init.queue;
    if call.AppShutdown? && !s.flags.shutdownRequested {
      assert forall i :: 0 <= i < |q| ==> HasRank(q, Rank(q[i]));
      RankedSubmit(q, NodeShutdown);
    }
    HeadRank(s.init);
    hide Ranked, HasRank, CoordinatorInv, AllDone, ControlInv, ResultInv, PhaseInv;
  }

  lemma SameStartup(s: State, t: State)
    requires t == s.(coordinator := t.coordinator)
    ensures StartupInv(t) == StartupInv(s)
  {
    hide HasRank;
  }

  lemma CoordinateStartup(s: State, r: (Coordinator, Call))
    requires InitInv(s) && StartupInv(s) && s.alive
    ensures StartupInv(Coordinate(s, r))
  {
    var t := s.(coordinator := r.0);
    SameStartup(s, t);
    SameElsewhere(s, t);
    ObeyStartup(t, r.1);
    hide StartupInv, InitInv, Obey;
  }

  /** The completion of initialization is handled. */
  lemma HearInitStartup(s: State, failed: bool)
    requires StartupInv(s) && s.init.completions != [] && s.init.completions[0] == InitDone(failed)
    ensures StartupInv(GuiStep(s, CompleteInit))
  {
    hide HasRank;
    HeadRank(s.init);
  }

  /** Another completion of the node-init-shutdown worker is handled. */
  lemma HearOtherStartup(s: State)
    requires Inv(s) && StartupInv(s) && s.alive && s.init.completions != [] && !s.init.completions[0].InitDone?
    ensures StartupInv(GuiStep(s, CompleteInit))
  {
    hide Ranked, HasRank, CoordinatorInv, AllDone, ControlInv, ResultInv, PhaseInv, Coordinate;
    var c := s.init.completions[0];
    assert !c.InterruptDone? && (c == ShutdownDone(true) ==> s.appShutdowns == 1);
    hide InitInv, ReportInv;
    var popped := s.(init := s.init.(completions := s.init.completions[1..]));
    assert StartupInv(popped) by {
      hide Stop;
      assert forall i :: 0 <= i < |popped.init.completions| ==> !popped.init.completions[i].InitDone?;
    }
    HandleOtherStartup(popped, c);
    hide StartupInv, Handle;
  }

  lemma HandleOtherStartup(s: State, c: Completion)
    requires StartupInv(s) && !c.InitDone? && !c.InterruptDone?
    requires forall i :: 0 <= i < |s.init.completions| ==> !s.init.completions[i].InitDone?
    ensures StartupInv(Handle(s, c))
  {
    hide HasRank, Coordinate;
  }

  lemma CompleteControlStartup(s: State)
    requires Inv(s) && StartupInv(s) && s.alive && s.control.completions != []
    ensures StartupInv(GuiStep(s, CompleteControl))
  {
    var c := s.control.completions[0];
    var t := s.(control := s.control.(completions := s.control.completions[1..]));
    assert c.InterruptDone?;
    assert StartupInv(t) && InitInv(t);
    if !c.failed && !t.flags.runaway {
      CoordinateStartup(t, BeginAfter(t.coordinator));
    }
    hide Coordinate, InitInv, ReportInv, ResultInv, PhaseInv;
  }

  lemma DrainedStartup(s: State, control: bool)
    requires StartupInv(s)
    ensures StartupInv(GuiStep(s, Drained(control)))
  {
    hide HasRank;
  }

  lemma StopStartup(s: State, control: bool)
    requires StartupInv(s)
    ensures StartupInv(GuiStep(s, StopExecutor(control)))
  {
    hide HasRank;
  }

  /** Destruction can only append the retirement, and silences the executor. */
  lemma DestroyEffect(s: State)
    requires InitInv(s) && s.alive
    ensures var n := GuiStep(s, Destroy);
      && (n.init.completions == [] || n.init.completions == s.init.completions)
      && !n.alive && n.history == s.history && n.flags == s.flags && n.shared == s.shared.(stopping := true)
      && HasRank(n.init.queue, 0) == HasRank(s.init.queue, 0)
      && (InInit(n.init) ==> InInit(s.init) && n.init.queue[0] == s.init.queue[0])
  {
    var q := s.init.queue;
    assert forall i :: 0 <= i < |q| ==> HasRank(q, Rank(q[i]));
    RankedSubmit(q, RetireState);
    hide Ranked, HasRank;
  }

  lemma DestroyStartup(s: State)
    requires InitInv(s) && StartupInv(s) && s.alive
    ensures StartupInv(GuiStep(s, Destroy))
  {
    hide Ranked, HasRank, InitInv, GuiStep;
    DestroyEffect(s);
  }

  lemma StepStartup(s: State, e: Event)
    requires Inv(s) && StartupInv(s)
    ensures StartupInv(Step(s, e))
  {
    hide StartupInv, ControlInv, ReportInv, ResultInv, PhaseInv, InitInv, WorkerStep, Coordinate;
    if !OnGui(e) {
      WorkerStartup(s, e);
    } else if s.alive {
      match e {
        case Initialize => InitializeStartup(s);
        case RequestStop => CoordinateStartup(s, Begin(s.coordinator));
        case ParticipantDone(early, i) => CoordinateStartup(s, Signal(s.coordinator, early, i));
        case CompleteInit =>
          if s.init.completions != [] {
            if s.init.completions[0].InitDone? {
              HearInitStartup(s, s.init.completions[0].failed);
            } else {
              HearOtherStartup(s);
            }
          }
        case CompleteControl =>
          if s.control.completions != [] {
            CompleteControlStartup(s);
          }
        case Drained(control) => DrainedStartup(s, control);
        case StopExecutor(control) => StopStartup(s, control);
        case Destroy => DestroyStartup(s);
      }
    }
  }

  lemma {:induction false} RunStartup(before: nat, after: nat, factory: bool, events: seq<Event>)
    ensures StartupInv(Run(Start(before, after, factory), events))
    decreases |events|
  {
    hide Inv, Step, StartupInv;
    StartStartup(before, after, factory);
    StartInv(before, after, factory);
    if events != [] {
      var n := |events| - 1;
      RunStartup(before, after, factory, events[..n]);
      RunKeeps(Start(before, after, factory), events[..n]);
      StepStartup(Run(Start(before, after, factory), events[..n]), events[n]);
    }
  }

  // ---- Main results ----

  /** In every run nobody disturbs from outside, a requested initialization is queued or has ended, exactly once. */
  lemma InitializedOnce(before: nat, after: nat, factory: bool, events: seq<Event>)
    ensures var s := Run(Start(before, after, factory), events);
      && s.history.ended <= 1
      && (s.flags.initRequested && Untouched(s) ==> (HasRank(s.init.queue, 0) <==> s.history.ended == 0))
  {
    hide Run, HasRank;
    RunStartup(before, after, factory, events);
  }

  /**
   * In every run the subscription is taken exactly by an initialization that succeeded with a factory at hand while
   * neither the stop flag was set nor the node going down, unless it throws.
   */
  lemma SubscribesExactly(before: nat, after: nat, factory: bool, events: seq<Event>)
    ensures var s := Run(Start(before, after, factory), events);
      && (s.history.subscribed ==> s.history.decided.Some? && Allows(s.history.decided.value))
      && (s.history.ended == 1 && !s.shared.threw ==>
            s.history.decided.Some? && (s.history.subscribed <==> Allows(s.history.decided.value)))
  {
    hide Run, HasRank;
    RunStartup(before, after, factory, events);
  }

  /** What goes wrong stays wrong, and a request stays made. */
  predicate Keeps(s: State, t: State) {
    (Undisturbed(t) ==> Undisturbed(s)) && (s.flags.initRequested ==> t.flags.initRequested)
  }

  lemma HandleKeepsRequest(s: State, c: Completion)
    ensures Keeps(s, Handle(s, c))
  {
    hide BeginAfter, Submit, Stop;
  }

  lemma WorkerKeepsRequest(s: State, e: Event)
    ensures Keeps(s, WorkerStep(s, e))
  {
    hide Finish;
  }

  lemma StepKeepsRequest(s: State, e: Event)
    ensures Keeps(s, Step(s, e))
  {
    hide Begin, Signal, Submit, Stop, Handle, WorkerStep;
    if !OnGui(e) {
      WorkerKeepsRequest(s, e);
    } else if e.CompleteInit? && s.init.completions != [] {
      HandleKeepsRequest(s.(init := s.init.(completions := s.init.completions[1..])), s.init.completions[0]);
    } else if e.CompleteControl? && s.control.completions != [] {
      HandleKeepsRequest(s.(control := s.control.(completions := s.control.completions[1..])),
                         s.control.completions[0]);
    }
  }

  lemma {:induction false} RunKeepsRequest(s: State, events: seq<Event>)
    ensures Keeps(s, Run(s, events))
    decreases |events|
  {
    hide Step, Undisturbed;
    if events != [] {
      RunKeepsRequest(s, events[..|events| - 1]);
      StepKeepsRequest(Run(s, events[..|events| - 1]), events[|events| - 1]);
    }
  }

  lemma {:induction false} RunConcat(s: State, a: seq<Event>, b: seq<Event>)
    ensures Run(s, a + b) == Run(Run(s, a), b)
    decreases |b|
  {
    hide Step;
    if b == [] {
      assert a + b == a;
    } else {
      var n := |b| - 1;
      assert (a + b)[..|a + b| - 1] == a + b[..n];
      RunConcat(s, a, b[..n]);
    }
  }

  /** An initialization asked for before any shutdown request is accepted. */
  lemma RequestAccepted(before: nat, after: nat, factory: bool, front: seq<Event>)
    requires RequestStop !in front && Undisturbed(Run(Start(before, after, factory), front))
    ensures Step(Run(Start(before, after, factory), front), Initialize).flags.initRequested
  {
    hide Run;
    FinishedMeansReported(before, after, factory, front);
    StartInv(before, after, factory);
    RunKeeps(Start(before, after, factory), front);
    hide InitInv, ControlInv, ReportInv, ResultInv;
  }

  /**
   * Initialization gets through: an undisturbed run at rest in which it was asked for before any shutdown request has
   * run it exactly once and handled its completion.
   */
  lemma InitializationGetsThrough(before: nat, after: nat, factory: bool, front: seq<Event>, rest: seq<Event>)
    requires RequestStop !in front
    requires var s := Run(Start(before, after, factory), front + [Initialize] + rest); Undisturbed(s) && AtRest(s)
    ensures var s := Run(Start(before, after, factory), front + [Initialize] + rest);
      s.history.ended == 1 && s.history.heard == 1
  {
    hide Run, Step, HasRank, Decided;
    var start := Start(before, after, factory);
    var a := Run(start, front);
    var s := Run(start, front + [Initialize] + rest);
    RunConcat(start, front, [Initialize]);
    RunConcat(start, front + [Initialize], rest);
    RunOne(a, Initialize);
    RunKeepsRequest(a, [Initialize]);
    RunKeepsRequest(Run(start, front + [Initialize]), rest);
    RequestAccepted(before, after, factory, front);
    RunStartup(before, after, factory, front + [Initialize] + rest);
    NothingQueued(s);
  }

  lemma RunOne(s: State, e: Event)
    ensures Run(s, [e]) == Step(s, e)
  {
    assert [e][..0] == [];
  }

  lemma NothingQueued(s: State)
    ensures s.init.queue == [] ==> !HasRank(s.init.queue, 0)
  {
  }

  /** A run that meets these premises: the node starts and subscribes. */
  lemma InitializationComesToRest()
    ensures var s := Run(Start(0, 0, true), [] + [Initialize] + ([InitDecides(true, false)] + ([InitSubscribes]
                     + ([InitReturns] + ([CompleteInit] + [])))));
      Undisturbed(s) && AtRest(s) && s.shared.subscription && s.history == History(
        Some(Decision(true, false, false, true)), true, 1, 1)
  {
    var s0 := Start(0, 0, true);
    var e5 := [CompleteInit] + [];
    var e4 := [InitReturns] + e5;
    var e3 := [InitSubscribes] + e4;
    var e2 := [InitDecides(true, false)] + e3;
    assert [] + [Initialize] + e2 == [Initialize] + e2;
    FirstInitSteps();
    LastInitSteps();
    hide Step, Undisturbed, AtRest, Run;
    var s1 := Step(s0, Initialize);
    var s2 := Step(s1, InitDecides(true, false));
    var s3 := Step(s2, InitSubscribes);
    var s4 := Step(s3, InitReturns);
    RunTail(s0, Initialize, e2);
    RunTail(s1, InitDecides(true, false), e3);
    RunTail(s2, InitSubscribes, e4);
    RunTail(s3, InitReturns, e5);
    RunTail(s4, CompleteInit, []);
    RunNone(Step(s4, CompleteInit));
  }

  lemma RunNone(s: State)
    ensures Run(s, []) == s
  {
  }

  const ALLOWED := Decision(true, false, false, true)

  /** The node is started and subscribed, its initialization task not yet ended. */
  function Subscribing(): State {
    Start(0, 0, true).(
      flags := Flags(true, false, false, false, false, false), shared := Shared(false, false, false, true),
      init := Worker([InitMain(Subscribed)], [], false, false), history := History(Some(ALLOWED), true, 0, 0))
  }

  lemma FirstInitSteps()
    ensures Step(Step(Step(Start(0, 0, true), Initialize), InitDecides(true, false)), InitSubscribes) == Subscribing()
  {
    var s0 := Start(0, 0, true);
    var a := Step(s0, Initialize);
    assert a == s0.(flags := s0.flags.(initRequested := true), init := Worker([InitMain(Fresh)], [], false, false));
    var d := Step(a, InitDecides(true, false));
    assert d.init == Worker([InitMain(Subscribes)], [], false, false);
  }

  lemma LastInitSteps()
    ensures var s := Step(Step(Subscribing(), InitReturns), CompleteInit);
      Undisturbed(s) && AtRest(s) && s.shared.subscription && s.history == History(Some(ALLOWED), true, 1, 1)
  {
    assert Step(Subscribing(), InitReturns).init == Worker([], [InitDone(false)], false, false);
  }
}
