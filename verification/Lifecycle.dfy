/**
 * Startup and shutdown of the node as a transition system: the coordinator and the GUI side of the
 * initialization executor, its two FIFO workers, and the completions they queue for the GUI thread.
 */
module Lifecycle {
  import opened Options
  import opened ShutdownCoordinator

  /** How far the worker is with an initialization task. */
  datatype Stage = Fresh | Skips | Subscribes | Subscribed

  datatype Task = InitMain(stage: Stage) | NodeShutdown | RetireState | StartShutdown

  datatype Completion =
    | InitDone(failed: bool)
    | ShutdownDone(completed: bool)
    | ShutdownFailed
    | InterruptDone(failed: bool)
    | RetireDone

  /** One background executor: accepted work, undelivered completions. */
  datatype Worker = Worker(queue: seq<Task>, completions: seq<Completion>, stopping: bool, drained: bool)

  datatype Shared = Shared(stopping: bool, threw: bool, factory: bool, subscription: bool)

  datatype Flags = Flags(
    initRequested: bool, interruptRequested: bool, shutdownRequested: bool, complete: bool, emitted: bool,
        runaway: bool)

  /** What an initialization task found when it decided whether to subscribe. */
  datatype Decision = Decision(success: bool, nodeDown: bool, stopping: bool, factory: bool)

  /** What initialization did: its decision, whether it subscribed, ended tasks, and completions handled. */
  datatype History = History(decided: Option<Decision>, subscribed: bool, ended: nat, heard: nat)

  /** The last six fields are history. */
  datatype State = State(
    coordinator: Coordinator,
    flags: Flags,
    shared: Shared,
    init: Worker,
    control: Worker,
    alive: bool,
    foreignStop: bool,
    interrupts: nat,
    appShutdowns: nat,
    results: nat,
    history: History)

  const NOTHING := History(None, false, 0, 0)

  datatype ShutdownOutcome = ThrowsEarly | ThrowsInNode | Completes

  datatype Event =
    // GUI thread
    | Initialize
    | RequestStop
    | ParticipantDone(early: bool, index: nat)
    | CompleteInit
    | CompleteControl
    | Drained(control: bool)
    | StopExecutor(control: bool)   // `BackendExecutor::shutdownAll` from elsewhere
    | Destroy
    // node-init-shutdown worker
    | InitDecides(success: bool, nodeDown: bool)
    | InitSubscribes
    | InitReturns
    | InitThrows
    | ShutdownRuns(outcome: ShutdownOutcome)
    | RetireRuns
    // node-interrupt worker
    | InterruptRuns(throws: bool)

  const IDLE := Worker([], [], false, false)

  function Start(before: nat, after: nat, factory: bool): State {
    State(Coordinator(false, false, false, 0, seq(before, _ => false), seq(after, _ => false)),
      Flags(false, false, false, false, false, false), Shared(false, false, factory, false), IDLE, IDLE,
      true, false, 0, 0, 0, NOTHING)
  }

  // ---- Executors ----

  function Submit(w: Worker, task: Task): Worker {
    if w.stopping then w else w.(queue := w.queue + [task])
  }

  function Stop(w: Worker): Worker {
    if w.stopping then w else w.(stopping := true, completions := [])
  }

  /** Work at the head of the queue ends; a stopped executor delivers nothing. */
  function Finish(w: Worker, c: Completion): Worker
    requires w.queue != []
  {
    w.(queue := w.queue[1..], completions := if w.stopping then w.completions else w.completions + [c])
  }

  predicate Heads(w: Worker, task: Task) {
    w.queue != [] && w.queue[0] == task
  }

  predicate InInit(w: Worker) {
    w.queue != [] && w.queue[0].InitMain?
  }

  // ---- The initialization executor on the GUI thread ----

  function DoInitialize(s: State): State {
    if s.flags.initRequested || s.flags.shutdownRequested || s.flags.runaway then s
    else s.(flags := s.flags.(initRequested := true), init := Submit(s.init, InitMain(Fresh)))
  }

  function Obey(s: State, call: Call): State {
    match call
    case NoCall => s
    case Interrupt =>
      if s.flags.interruptRequested || s.flags.runaway then s
      else s.(flags := s.flags.(interruptRequested := true), shared := s.shared.(stopping := true),
              control := Submit(s.control, StartShutdown))
    case AppShutdown =>
      if s.flags.shutdownRequested || s.flags.runaway then s
      else s.(flags := s.flags.(shutdownRequested := true), shared := s.shared.(stopping := true),
              init := Submit(s.init, NodeShutdown))
  }

  function Coordinate(s: State, r: (Coordinator, Call)): State {
    Obey(s.(coordinator := r.0), r.1)
  }

  function Handle(s: State, c: Completion): State {
    match c
    case InitDone(failed) => if failed then s.(flags := s.flags.(runaway := true)) else s
    case InterruptDone(failed) =>
      if failed then s.(flags := s.flags.(runaway := true))
      else if s.flags.runaway then s
      else Coordinate(s, BeginAfter(s.coordinator))
    case ShutdownDone(completed) =>
      if !completed then s
      else s.(flags := s.flags.(complete := true), init := Stop(s.init), control := Stop(s.control))
    case ShutdownFailed => s.(flags := s.flags.(runaway := true))
    case RetireDone => s
  }

  function Hear(s: State, c: Completion): State {
    if c.InitDone? then s.(history := s.history.(heard := s.history.heard + 1)) else s
  }

  function FinishShutdown(s: State): State {
    if s.flags.runaway || !s.flags.complete || s.flags.emitted || !s.init.drained || !s.control.drained then s
    else s.(flags := s.flags.(emitted := true), results := s.results + 1)
  }

  predicate CanDrain(w: Worker) {
    w.stopping && w.queue == [] && !w.drained
  }

  function GuiStep(s: State, e: Event): State {
    match e
    case Initialize => DoInitialize(s)
    case RequestStop => Coordinate(s, Begin(s.coordinator))
    case ParticipantDone(early, i) => Coordinate(s, Signal(s.coordinator, early, i))
    case CompleteInit =>
      if s.init.completions == [] then s
      else Hear(Handle(s.(init := s.init.(completions := s.init.completions[1..])), s.init.completions[0]),
                s.init.completions[0])
    case CompleteControl =>
      if s.control.completions == [] then s
      else Handle(s.(control := s.control.(completions := s.control.completions[1..])), s.control.completions[0])
    case Drained(control) =>
      if control && CanDrain(s.control) then FinishShutdown(s.(control := s.control.(drained := true)))
      else if !control && CanDrain(s.init) then FinishShutdown(s.(init := s.init.(drained := true)))
      else s
    case StopExecutor(control) =>
      if control then s.(control := Stop(s.control), foreignStop := true)
      else s.(init := Stop(s.init), foreignStop := true)
    case Destroy =>
      s.(alive := false, shared := s.shared.(stopping := true),
         init := Stop(Submit(s.init, RetireState)), control := Stop(s.control))
    case _ => s
  }

  // ---- The workers ----

  function SetStage(s: State, stage: Stage): State
    requires InInit(s.init)
  {
    s.(init := s.init.(queue := s.init.queue[0 := InitMain(stage)]))
  }

  function EndInit(s: State, failed: bool): State
    requires InInit(s.init)
  {
    s.(init := Finish(s.init, InitDone(failed)), history := s.history.(ended := s.history.ended + 1))
  }

  function InitStep(s: State, e: Event): State {
    if !InInit(s.init) then s
    else
      var stage := s.init.queue[0].stage;
      match e
      case InitDecides(success, nodeDown) =>
        if stage != Fresh then s
        else
          var t := s.(history := s.history.(
            decided := Some(Decision(success, nodeDown, s.shared.stopping, s.shared.factory))));
          if success && s.shared.factory && !s.shared.stopping && !nodeDown then
            SetStage(t.(shared := s.shared.(factory := false)), Subscribes)
          else SetStage(t, Skips)
      case InitSubscribes =>
        if stage != Subscribes then s
        else
          SetStage(s.(shared := s.shared.(subscription := true), history := s.history.(subscribed := true)), Subscribed)
      case InitReturns =>
        if stage == Fresh || stage == Subscribes then s else EndInit(s, false)
      case InitThrows => EndInit(s.(shared := s.shared.(threw := true)), true)
      case _ => s
  }

  function Retired(w: Shared): Shared {
    w.(subscription := false, factory := false)
  }

  function ShutdownStep(s: State, outcome: ShutdownOutcome): State {
    if !Heads(s.init, NodeShutdown) then s
    else if s.shared.threw then s.(init := Finish(s.init, ShutdownDone(false)))
    else if outcome == ThrowsEarly then s.(init := Finish(s.init, ShutdownFailed))
    else s.(init := Finish(s.init, if outcome == Completes then ShutdownDone(true) else ShutdownFailed),
            shared := Retired(s.shared), appShutdowns := s.appShutdowns + 1)
  }

  function WorkerStep(s: State, e: Event): State {
    match e
    case ShutdownRuns(outcome) => ShutdownStep(s, outcome)
    case RetireRuns =>
      if !Heads(s.init, RetireState) then s
      else s.(init := Finish(s.init, RetireDone), shared := Retired(s.shared))
    case InterruptRuns(throws) =>
      if !Heads(s.control, StartShutdown) then s
      else s.(control := Finish(s.control, InterruptDone(throws)), interrupts := s.interrupts + 1)
    case _ => InitStep(s, e)
  }

  predicate OnGui(e: Event) {
    e.Initialize? || e.RequestStop? || e.ParticipantDone? || e.CompleteInit? || e.CompleteControl? || e.Drained?
    || e.StopExecutor? || e.Destroy?
  }

  function Step(s: State, e: Event): State {
    if !OnGui(e) then WorkerStep(s, e) else if s.alive then GuiStep(s, e) else s
  }

  function Run(start: State, events: seq<Event>): State
    decreases |events|
  {
    if events == [] then start else Step(Run(start, events[..|events| - 1]), events[|events| - 1])
  }

  // ---- Invariants ----

  /** Initialization before node shutdown before retirement, each at most once. */
  function Rank(t: Task): nat {
    match t
    case InitMain(_) => 0
    case NodeShutdown => 1
    case RetireState => 2
    case StartShutdown => 3
  }

  ghost predicate Ranked(q: seq<Task>) {
    && (forall i :: 0 <= i < |q| ==> Rank(q[i]) < 3)
    && (forall i, j :: 0 <= i < j < |q| ==> Rank(q[i]) < Rank(q[j]))
  }

  ghost predicate HasRank(q: seq<Task>, r: nat) {
    exists i :: 0 <= i < |q| && Rank(q[i]) == r
  }

  /** The node-init-shutdown worker. */
  ghost predicate InitInv(s: State) {
    && Ranked(s.init.queue)
    && (HasRank(s.init.queue, 0) ==> s.flags.initRequested && s.appShutdowns == 0 && !s.shared.threw)
    && (HasRank(s.init.queue, 1) ==> s.flags.shutdownRequested && s.appShutdowns == 0)
    && (HasRank(s.init.queue, 2) ==> !s.alive)
    && (s.appShutdowns > 0 ==>
          s.appShutdowns == 1 && s.flags.shutdownRequested && !s.shared.threw
          && !s.shared.subscription && !s.shared.factory)
    && (!s.flags.initRequested ==> !s.shared.threw && !s.shared.subscription)
  }

  /** The node-interrupt worker. */
  ghost predicate ControlInv(s: State) {
    && (forall i :: 0 <= i < |s.control.queue| ==> s.control.queue[i] == StartShutdown)
    && (forall i :: 0 <= i < |s.control.completions| ==> s.control.completions[i].InterruptDone?)
    && s.interrupts + |s.control.queue| <= 1
    && (s.interrupts + |s.control.queue| > 0 ==> s.flags.interruptRequested)
    && (s.control.completions != [] ==> s.interrupts == 1)
  }

  /** What the GUI has been told about node shutdown is true. */
  ghost predicate ReportInv(s: State) {
    && (forall i :: 0 <= i < |s.init.completions| ==>
          !s.init.completions[i].InterruptDone? && (s.init.completions[i] == ShutdownDone(true)
              ==> s.appShutdowns == 1))
    && (s.flags.complete ==> s.appShutdowns == 1 && s.init.stopping && s.control.stopping)
  }

  ghost predicate WorkerInv(w: Worker) {
    (w.stopping ==> w.completions == []) && (w.drained ==> w.stopping && w.queue == [])
  }

  ghost predicate ResultInv(s: State) {
    && WorkerInv(s.init) && WorkerInv(s.control)
    && s.results == (if s.flags.emitted then 1 else 0)
    && (s.flags.emitted ==> s.flags.complete && s.init.drained && s.control.drained)
  }

  /** The coordinator's phases and the requests it has made. */
  ghost predicate PhaseInv(s: State) {
    && CoordinatorInv(s.coordinator)
    && (s.flags.interruptRequested ==> s.coordinator.requested && !s.coordinator.drainingBefore)
    && (s.coordinator.drainingAfter ==> s.interrupts == 1 && s.flags.interruptRequested)
    && (s.flags.shutdownRequested ==> s.coordinator.drainingAfter && AllDone(s.coordinator.after))
  }

  ghost predicate Inv(s: State) {
    InitInv(s) && ControlInv(s) && ReportInv(s) && ResultInv(s) && PhaseInv(s)
  }

  lemma StartInv(before: nat, after: nat, factory: bool)
    ensures Inv(Start(before, after, factory))
  {
  }

  // ---- Queues ----

  lemma RankedSubmit(q: seq<Task>, t: Task)
    requires Ranked(q) && Rank(t) < 3 && forall i :: 0 <= i < |q| ==> Rank(q[i]) < Rank(t)
    ensures Ranked(q + [t])
    ensures forall r: nat :: HasRank(q + [t], r) <==> HasRank(q, r) || r == Rank(t)
  {
    forall r: nat ensures HasRank(q + [t], r) <==> HasRank(q, r) || r == Rank(t) {
      if HasRank(q, r) {
        var i :| 0 <= i < |q| && Rank(q[i]) == r;
        assert (q + [t])[i] == q[i];
      }
      assert (q + [t])[|q|] == t;
    }
  }

  lemma RankedFinish(q: seq<Task>)
    requires Ranked(q) && q != []
    ensures Ranked(q[1..])
    ensures forall r: nat :: HasRank(q[1..], r) <==> HasRank(q, r) && r != Rank(q[0])
    ensures HasRank(q, Rank(q[0])) && forall r: nat :: r < Rank(q[0]) ==> !HasRank(q, r)
  {
    forall r: nat ensures HasRank(q[1..], r) <==> HasRank(q, r) && r != Rank(q[0]) {
      if HasRank(q, r) && r != Rank(q[0]) {
        var i :| 0 <= i < |q| && Rank(q[i]) == r;
        assert q[1..][i - 1] == q[i];
      }
    }
  }

  lemma RankedStage(q: seq<Task>, stage: Stage)
    requires Ranked(q) && q != [] && q[0].InitMain?
    ensures Ranked(q[0 := InitMain(stage)])
    ensures forall r: nat :: HasRank(q[0 := InitMain(stage)], r) <==> HasRank(q, r)
    ensures HasRank(q, 0)
  {
    var p := q[0 := InitMain(stage)];
    assert forall i :: 0 <= i < |q| ==> Rank(p[i]) == Rank(q[i]);
  }

  // ---- Worker steps ----

  lemma StageKeeps(s: State, shared: Shared, history: History, stage: Stage)
    requires Inv(s) && InInit(s.init) && shared.threw == s.shared.threw
    ensures Inv(SetStage(s.(shared := shared, history := history), stage))
  {
    hide Ranked, HasRank, CoordinatorInv, AllDone;
    RankedStage(s.init.queue, stage);
  }

  lemma InitEndKeeps(s: State, failed: bool)
    requires Inv(s) && InInit(s.init)
    ensures Inv(EndInit(s.(shared := s.shared.(threw := s.shared.threw || failed)), failed))
  {
    hide Ranked, HasRank, CoordinatorInv, AllDone;
    RankedFinish(s.init.queue);
  }

  lemma InitStepKeeps(s: State, e: Event)
    requires Inv(s)
    ensures Inv(InitStep(s, e))
  {
    hide Inv;
    if InInit(s.init) {
      StageKeeps(s, s.shared, InitStep(s, e).history, Skips);
      StageKeeps(s, s.shared.(factory := false), InitStep(s, e).history, Subscribes);
      StageKeeps(s, s.shared.(subscription := true), InitStep(s, e).history, Subscribed);
      InitEndKeeps(s, false);
      InitEndKeeps(s, true);
    }
  }

  lemma WorkerStepKeeps(s: State, e: Event)
    requires Inv(s)
    ensures Inv(WorkerStep(s, e))
  {
    hide Ranked, HasRank, CoordinatorInv, AllDone, InitStep;
    if e.ShutdownRuns? || e.RetireRuns? {
      if s.init.queue != [] {
        RankedFinish(s.init.queue);
      }
    } else if !e.InterruptRuns? {
      InitStepKeeps(s, e);
    }
  }

  // ---- GUI steps ----

  lemma InitializeKeeps(s: State)
    requires Inv(s) && s.alive
    ensures Inv(DoInitialize(s))
  {
    if !s.flags.initRequested && !s.flags.shutdownRequested {
      var q := s.init.queue;
      assert q != [] ==> HasRank(q, Rank(q[0]));
      RankedSubmit([], InitMain(Fresh));
      assert q == [];
    }
    hide Ranked, HasRank, CoordinatorInv, AllDone;
  }

  lemma InterruptKeeps(s: State)
    requires Inv(s) && s.coordinator.requested && !s.coordinator.drainingBefore
    ensures Inv(Obey(s, Interrupt))
  {
    hide Ranked, HasRank, CoordinatorInv, AllDone;
  }

  lemma AppShutdownKeeps(s: State)
    requires Inv(s) && s.alive && s.coordinator.drainingAfter && AllDone(s.coordinator.after)
    ensures Inv(Obey(s, AppShutdown))
  {
    if !s.flags.shutdownRequested {
      var q := s.init.queue;
      assert forall i :: 0 <= i < |q| ==> HasRank(q, Rank(q[i]));
      RankedSubmit(q, NodeShutdown);
    }
    hide Ranked, HasRank, CoordinatorInv, AllDone;
  }

  lemma RequestStopKeeps(s: State)
    requires Inv(s) && s.alive
    ensures Inv(GuiStep(s, RequestStop))
  {
    hide Ranked, HasRank, CoordinatorInv, Obey, InitInv, ControlInv, ReportInv, ResultInv;
    RequestKeeps(s.coordinator);
    var t := s.(coordinator := Begin(s.coordinator).0);
    SameElsewhere(s, t);
    if Begin(s.coordinator).1 == Interrupt {
      InterruptKeeps(t);
    } else {
      assert Obey(t, NoCall) == t by { ObeyNothing(t); }
    }
  }

  lemma ObeyNothing(s: State)
    ensures Obey(s, NoCall) == s
  {
  }

  lemma SameElsewhere(s: State, t: State)
    requires t == s.(coordinator := t.coordinator)
    ensures InitInv(t) == InitInv(s) && ControlInv(t) == ControlInv(s)
    ensures ReportInv(t) == ReportInv(s) && ResultInv(t) == ResultInv(s)
  {
    hide Ranked, HasRank;
  }

  lemma ParticipantKeeps(s: State, early: bool, i: nat)
    requires Inv(s) && s.alive
    ensures Inv(GuiStep(s, ParticipantDone(early, i)))
  {
    hide Ranked, HasRank, Left, NoneDone, Obey, InitInv, ControlInv, ReportInv, ResultInv, AllDone;
    FinishedKeeps(s.coordinator, early, i);
    var (d, call) := Signal(s.coordinator, early, i);
    var t := s.(coordinator := d);
    SameElsewhere(s, t);
    SignalFacts(s.coordinator, early, i);
    match call {
      case NoCall => ObeyNothing(t);
      case Interrupt => InterruptKeeps(t);
      case AppShutdown => AppShutdownKeeps(t);
    }
  }

  lemma SignalFacts(c: Coordinator, early: bool, i: nat)
    ensures var d := Signal(c, early, i).0;
      && d.requested == c.requested && d.drainingAfter == c.drainingAfter
      && (d.drainingBefore ==> c.drainingBefore)
      && (AllDone(c.after) ==> d.after == c.after)
  {
  }

  lemma InterruptDoneKeeps(s: State)
    requires Inv(s) && s.alive && s.interrupts == 1
    ensures Inv(Coordinate(s, BeginAfter(s.coordinator)))
  {
    DrainKeeps(s.coordinator);
    LeftBounds(s.coordinator.after);
    hide Ranked, HasRank, CoordinatorInv, Obey, InitInv, ReportInv, ResultInv;
    var (d, call) := BeginAfter(s.coordinator);
    var t := s.(coordinator := d);
    SameElsewhere(s, t);
    if call == AppShutdown {
      AppShutdownKeeps(t);
    } else {
      ObeyNothing(t);
    }
  }

  lemma StopKeeps(s: State, control: bool)
    requires Inv(s)
    ensures Inv(if control then s.(control := Stop(s.control)) else s.(init := Stop(s.init)))
  {
    hide Ranked, HasRank, CoordinatorInv, AllDone;
  }

  lemma PopKeeps(s: State, control: bool)
    requires Inv(s) && (if control then s.control else s.init).completions != []
    ensures Inv(if control then s.(control := s.control.(completions := s.control.completions[1..]))
                else s.(init := s.init.(completions := s.init.completions[1..])))
  {
    hide Ranked, HasRank, CoordinatorInv, AllDone;
  }

  lemma HandleKeeps(s: State, c: Completion)
    requires Inv(s) && s.alive
    requires c == ShutdownDone(true) ==> s.appShutdowns == 1
    requires c.InterruptDone? ==> s.interrupts == 1
    ensures Inv(Handle(s, c))
  {
    hide Ranked, HasRank, CoordinatorInv, AllDone, Coordinate;
    if c.InterruptDone? {
      InterruptDoneKeeps(s);
    } else if c.ShutdownDone? {
      StopKeeps(s, false);
      StopKeeps(s.(init := Stop(s.init)), true);
    }
  }

  lemma CompleteKeeps(s: State, control: bool)
    requires Inv(s) && s.alive
    ensures Inv(GuiStep(s, if control then CompleteControl else CompleteInit))
  {
    var w := if control then s.control else s.init;
    if w.completions != [] {
      assert w.completions[0].InterruptDone? ==> control;
      assert !control && w.completions[0] == ShutdownDone(true) ==> s.appShutdowns == 1;
      PopKeeps(s, control);
      hide Inv, Handle;
      HandleKeeps(if control then s.(control := w.(completions := w.completions[1..]))
                  else s.(init := w.(completions := w.completions[1..])), w.completions[0]);
    }
  }

  lemma DrainedKeeps(s: State, control: bool)
    requires Inv(s) && s.alive
    ensures Inv(GuiStep(s, Drained(control)))
  {
    hide Ranked, HasRank, CoordinatorInv, AllDone;
  }

  lemma DestroyKeeps(s: State)
    requires Inv(s) && s.alive
    ensures Inv(GuiStep(s, Destroy))
  {
    var q := s.init.queue;
    assert forall i :: 0 <= i < |q| ==> HasRank(q, Rank(q[i]));
    RankedSubmit(q, RetireState);
    hide Ranked, HasRank, CoordinatorInv, AllDone;
  }

  lemma StepKeeps(s: State, e: Event)
    requires Inv(s)
    ensures Inv(Step(s, e))
  {
    hide Inv, GuiStep, WorkerStep;
    if !OnGui(e) {
      WorkerStepKeeps(s, e);
    } else if s.alive {
      GuiStepKeeps(s, e);
    }
  }

  lemma GuiStepKeeps(s: State, e: Event)
    requires Inv(s) && s.alive && OnGui(e)
    ensures Inv(GuiStep(s, e))
  {
    match e {
      case Initialize => InitializeKeeps(s);
      case RequestStop => RequestStopKeeps(s);
      case ParticipantDone(early, i) => ParticipantKeeps(s, early, i);
      case CompleteInit => CompleteKeeps(s, false);
      case CompleteControl => CompleteKeeps(s, true);
      case Drained(control) => DrainedKeeps(s, control);
      case StopExecutor(control) => StopKeeps(s.(foreignStop := true), control);
      case Destroy => DestroyKeeps(s);
    }
  }

  lemma {:induction false} RunKeeps(start: State, events: seq<Event>)
    requires Inv(start)
    ensures Inv(Run(start, events))
    decreases |events|
  {
    hide Inv, Step;
    if events != [] {
      RunKeeps(start, events[..|events| - 1]);
      StepKeeps(Run(start, events[..|events| - 1]), events[|events| - 1]);
    }
  }

  // ---- Main results ----

  /**
   * In every run: the interrupt is issued at most once and only after every before-interrupt participant
   * finished; `appShutdown` runs at most once, after the interrupt ran and every participant finished, and
   * neither a thrown initialization nor a live subscription coexists with it, then or later.
   */
  lemma ShutdownIsOrdered(before: nat, after: nat, factory: bool, events: seq<Event>)
    ensures var s := Run(Start(before, after, factory), events);
      && (s.flags.interruptRequested ==> AllDone(s.coordinator.before))
      && s.interrupts <= 1 && (s.interrupts == 1 ==> s.flags.interruptRequested)
      && s.appShutdowns <= 1
      && (s.appShutdowns == 1 ==>
            s.interrupts == 1 && AllDone(s.coordinator.before) && AllDone(s.coordinator.after)
            && !s.shared.threw && !s.shared.subscription && !InInit(s.init))
      && s.results <= 1
      && (s.results == 1 ==> s.appShutdowns == 1 && s.init.drained && s.control.drained
                             && s.init.queue == [] && s.control.queue == [])
  {
    hide Run;
    StartInv(before, after, factory);
    RunKeeps(Start(before, after, factory), events);
    var s := Run(Start(before, after, factory), events);
    assert InInit(s.init) ==> HasRank(s.init.queue, 0);
  }

  /** The countdown never underflows. */
  lemma PendingNeverNegative(before: nat, after: nat, factory: bool, events: seq<Event>)
    ensures var c := Run(Start(before, after, factory), events).coordinator;
      (c.drainingBefore || c.drainingAfter ==> c.pending >= 0)
      && (c.drainingBefore ==> c.pending == Left(c.before)) && (c.drainingAfter ==> c.pending == Left(c.after))
  {
    hide Run;
    StartInv(before, after, factory);
    RunKeeps(Start(before, after, factory), events);
  }

  /** Participant `i` reported between a request and the end of the run. */
  ghost predicate Reported(events: seq<Event>, early: bool, i: nat) {
    exists j, k :: 0 <= j < k < |events| && events[j] == RequestStop && events[k] == ParticipantDone(early, i)
  }

  lemma ReportedMore(events: seq<Event>, e: Event, early: bool, i: nat)
    requires Reported(events, early, i)
    ensures Reported(events + [e], early, i)
  {
    var j, k :| 0 <= j < k < |events| && events[j] == RequestStop && events[k] == ParticipantDone(early, i);
    assert (events + [e])[j] == RequestStop && (events + [e])[k] == ParticipantDone(early, i);
  }

  /** The coordinator changes in four places. */
  lemma StepCoordinator(s: State, e: Event)
    ensures var c := s.coordinator; var d := Step(s, e).coordinator;
      || d == c || (e == RequestStop && d == Begin(c).0) || d == BeginAfter(c).0
      || (e.ParticipantDone? && d == Signal(c, e.early, e.index).0)
  {
    hide Begin, BeginAfter, Signal;
    if !OnGui(e) {
      WorkerCoordinator(s, e);
    } else if s.alive {
      if e.CompleteInit? && s.init.completions != [] {
        HandleCoordinator(s.(init := s.init.(completions := s.init.completions[1..])), s.init.completions[0]);
      } else if e.CompleteControl? && s.control.completions != [] {
        HandleCoordinator(s.(control := s.control.(completions := s.control.completions[1..])),
            s.control.completions[0]);
      }
      hide Handle;
    }
  }

  lemma WorkerCoordinator(s: State, e: Event)
    ensures WorkerStep(s, e).coordinator == s.coordinator
  {
  }

  lemma HandleCoordinator(s: State, c: Completion)
    ensures var d := Handle(s, c).coordinator; d == s.coordinator || d == BeginAfter(s.coordinator).0
  {
    hide BeginAfter;
  }

  /** A participant's flag is set only by its own signal, while its phase drains. */
  lemma StepFlags(s: State, e: Event)
    requires CoordinatorInv(s.coordinator)
    ensures var c := s.coordinator; var d := Step(s, e).coordinator;
      && |d.before| == |c.before| && |d.after| == |c.after|
      && (d.requested ==> c.requested || e == RequestStop)
      && (forall i :: 0 <= i < |c.before| && d.before[i] && !c.before[i] ==>
            e == ParticipantDone(true, i) && c.requested)
      && (forall i :: 0 <= i < |c.after| && d.after[i] && !c.after[i] ==> e == ParticipantDone(false, i) && c.requested)
  {
    StepCoordinator(s, e);
    hide Step, Left, AllDone;
  }

  lemma ReportedNow(events: seq<Event>, j: nat, early: bool, i: nat)
    requires j < |events| && events[j] == RequestStop
    ensures Reported(events + [ParticipantDone(early, i)], early, i)
  {
    var more := events + [ParticipantDone(early, i)];
    assert more[j] == RequestStop && more[|events|] == ParticipantDone(early, i);
  }

  lemma ReportedStep(front: seq<Event>, e: Event, done: seq<bool>, now: seq<bool>, early: bool)
    requires |now| == |done|
    requires forall i :: 0 <= i < |done| && done[i] ==> Reported(front, early, i)
    requires forall i :: 0 <= i < |done| && now[i] && !done[i] ==>
               e == ParticipantDone(early, i) && RequestStop in front
    ensures forall i :: 0 <= i < |done| && now[i] ==> Reported(front + [e], early, i)
  {
    hide Reported;
    forall i | 0 <= i < |done| && now[i] ensures Reported(front + [e], early, i) {
      if done[i] {
        ReportedMore(front, e, early, i);
      } else {
        var j :| 0 <= j < |front| && front[j] == RequestStop;
        ReportedNow(front, j, early, i);
      }
    }
  }

  lemma {:induction false} FinishedMeansReported(before: nat, after: nat, factory: bool, events: seq<Event>)
    ensures var c := Run(Start(before, after, factory), events).coordinator;
      && |c.before| == before && |c.after| == after
      && (c.requested ==> RequestStop in events)
      && (forall i :: 0 <= i < before && c.before[i] ==> Reported(events, true, i))
      && (forall i :: 0 <= i < after && c.after[i] ==> Reported(events, false, i))
    decreases |events|
  {
    if events != [] {
      hide Step, Reported, InitInv, ControlInv, ReportInv, ResultInv, CoordinatorInv;
      var n := |events| - 1;
      var start := Start(before, after, factory);
      var s := Run(start, events[..n]);
      assert events == events[..n] + [events[n]];
      FinishedMeansReported(before, after, factory, events[..n]);
      StartInv(before, after, factory);
      RunKeeps(start, events[..n]);
      StepFlags(s, events[n]);
      var t := Step(s, events[n]);
      assert t == Run(start, events);
      ReportedStep(events[..n], events[n], s.coordinator.before, t.coordinator.before, true);
      ReportedStep(events[..n], events[n], s.coordinator.after, t.coordinator.after, false);
    }
  }

  /** Every participant reports before what waits for it: a statement about the trace alone. */
  lemma ShutdownFollowsReports(before: nat, after: nat, factory: bool, events: seq<Event>)
    ensures var s := Run(Start(before, after, factory), events);
      && (s.flags.interruptRequested ==> forall i :: 0 <= i < before ==> Reported(events, true, i))
      && (s.appShutdowns > 0 ==> forall i :: 0 <= i < after ==> Reported(events, false, i))
  {
    hide Run, Reported;
    FinishedMeansReported(before, after, factory, events);
    ShutdownIsOrdered(before, after, factory, events);
  }

  // ---- Shutdown gets through ----

  ghost predicate Waiting(cs: seq<Completion>, c: Completion) {
    exists i :: 0 <= i < |cs| && cs[i] == c
  }

  lemma WaitingMore(cs: seq<Completion>, d: Completion)
    ensures forall c :: Waiting(cs + [d], c) <==> Waiting(cs, c) || c == d
  {
    forall c ensures Waiting(cs + [d], c) <==> Waiting(cs, c) || c == d {
      assert (cs + [d])[|cs|] == d;
      if Waiting(cs, c) {
        var i :| 0 <= i < |cs| && cs[i] == c;
        assert (cs + [d])[i] == c;
      }
    }
  }

  lemma WaitingLess(cs: seq<Completion>)
    requires cs != []
    ensures forall c :: Waiting(cs, c) ==> c == cs[0] || Waiting(cs[1..], c)
  {
    forall c | Waiting(cs, c) && c != cs[0] ensures Waiting(cs[1..], c) {
      var i :| 0 <= i < |cs| && cs[i] == c;
      assert cs[1..][i - 1] == c;
    }
  }

  /** Nothing has gone wrong: no exception handled, no outside stop, not destroyed. */
  predicate Undisturbed(s: State) {
    s.alive && !s.flags.runaway && !s.foreignStop
  }

  /** The way from the request to the result is never empty of the thing that moves it on. */
  ghost predicate InterruptPath(s: State) {
    && (s.coordinator.requested && !s.coordinator.drainingBefore ==> s.flags.interruptRequested)
    && (s.flags.interruptRequested ==>
          s.control.queue != [] || s.control.completions != [] || s.coordinator.drainingAfter)
    && (s.coordinator.drainingAfter && AllDone(s.coordinator.after) ==> s.flags.shutdownRequested)
  }

  ghost predicate ShutdownPath(s: State) {
    && (s.flags.shutdownRequested ==>
          HasRank(s.init.queue, 1) || Waiting(s.init.completions, ShutdownDone(true))
          || Waiting(s.init.completions, ShutdownFailed) || s.flags.complete || s.shared.threw)
    && (s.shared.threw ==> Waiting(s.init.completions, InitDone(true)))
    && s.init.stopping == s.flags.complete && s.control.stopping == s.flags.complete
    && (s.flags.complete && s.init.drained && s.control.drained ==> s.flags.emitted)
  }

  ghost predicate Progress(s: State) {
    Undisturbed(s) ==> InterruptPath(s) && ShutdownPath(s)
  }

  lemma WorkerProgress(s: State, e: Event)
    requires Inv(s) && Progress(s)
    ensures Progress(WorkerStep(s, e))
  {
    hide Ranked, HasRank, Waiting, CoordinatorInv, AllDone;
    if s.init.queue != [] {
      RankedFinish(s.init.queue);
      if s.init.queue[0].InitMain? {
        RankedStage(s.init.queue, Skips);
        RankedStage(s.init.queue, Subscribes);
        RankedStage(s.init.queue, Subscribed);
      }
    }
    WaitingMore(s.init.completions, InitDone(false));
    WaitingMore(s.init.completions, InitDone(true));
    WaitingMore(s.init.completions, ShutdownDone(true));
    WaitingMore(s.init.completions, ShutdownDone(false));
    WaitingMore(s.init.completions, ShutdownFailed);
    WaitingMore(s.init.completions, RetireDone);
  }

  lemma InitializeProgress(s: State)
    requires Inv(s) && Progress(s) && s.alive
    ensures Progress(DoInitialize(s))
  {
    hide Waiting, CoordinatorInv, AllDone;
  }

  lemma InterruptProgress(s: State)
    requires Inv(s) && s.alive && (Undisturbed(s) ==> ShutdownPath(s))
    requires !s.coordinator.drainingAfter && !s.flags.interruptRequested
    ensures Progress(Obey(s, Interrupt))
  {
    hide Ranked, HasRank, Waiting, CoordinatorInv, AllDone;
  }

  lemma AppShutdownProgress(s: State)
    requires Inv(s) && s.alive && (Undisturbed(s) ==> ShutdownPath(s))
    requires s.coordinator.drainingAfter && s.flags.interruptRequested && !s.flags.shutdownRequested
    ensures Progress(Obey(s, AppShutdown))
  {
    hide Ranked, Waiting, CoordinatorInv, AllDone;
    var q := s.init.queue;
    assert (q + [NodeShutdown])[|q|] == NodeShutdown;
    assert HasRank(q + [NodeShutdown], 1);
    hide HasRank;
  }

  /** A coordinator step leaves the rest of the state to the call it makes. */
  lemma CoordinatorProgress(s: State, d: Coordinator, call: Call)
    requires Inv(s.(coordinator := d)) && s.alive && (Undisturbed(s) ==> ShutdownPath(s))
    requires call == NoCall && Undisturbed(s) ==> InterruptPath(s.(coordinator := d))
    requires call == Interrupt ==> !d.drainingAfter && !s.flags.interruptRequested
    requires call == AppShutdown ==> d.drainingAfter && s.flags.interruptRequested && !s.flags.shutdownRequested
    ensures Progress(Coordinate(s, (d, call)))
  {
    hide Inv, InterruptPath, Obey;
    var t := s.(coordinator := d);
    assert ShutdownPath(t) == ShutdownPath(s);
    hide ShutdownPath;
    match call {
      case NoCall => ObeyNothing(t);
      case Interrupt => InterruptProgress(t);
      case AppShutdown => AppShutdownProgress(t);
    }
  }

  lemma CoordinatorKeeps(s: State, d: Coordinator)
    requires Inv(s) && CoordinatorInv(d)
    requires s.flags.interruptRequested ==> d.requested && !d.drainingBefore
    requires d.drainingAfter ==> s.interrupts == 1 && s.flags.interruptRequested
    requires s.flags.shutdownRequested ==> d.drainingAfter && AllDone(d.after)
    ensures Inv(s.(coordinator := d))
  {
    hide InitInv, ControlInv, ReportInv, ResultInv, CoordinatorInv, AllDone;
    SameElsewhere(s, s.(coordinator := d));
  }

  lemma RequestProgress(s: State)
    requires Inv(s) && Progress(s) && s.alive
    ensures Progress(GuiStep(s, RequestStop))
  {
    hide InitInv, ControlInv, ReportInv, ResultInv, ShutdownPath, Coordinate, Left, AllDone, NoneDone;
    RequestKeeps(s.coordinator);
    var (d, call) := Begin(s.coordinator);
    CoordinatorKeeps(s, d);
    CoordinatorProgress(s, d, call);
  }

  lemma ParticipantProgress(s: State, early: bool, i: nat)
    requires Inv(s) && Progress(s) && s.alive
    ensures Progress(GuiStep(s, ParticipantDone(early, i)))
  {
    hide InitInv, ControlInv, ReportInv, ResultInv, ShutdownPath, Coordinate, Left, AllDone, NoneDone, Signal;
    FinishedKeeps(s.coordinator, early, i);
    SignalFacts(s.coordinator, early, i);
    var (d, call) := Signal(s.coordinator, early, i);
    CoordinatorKeeps(s, d);
    CoordinatorProgress(s, d, call);
  }

  lemma InterruptDoneProgress(s: State)
    requires Inv(s) && s.alive && s.interrupts == 1
    requires Undisturbed(s) ==> ShutdownPath(s)
    requires s.coordinator.drainingAfter ==> Progress(s)
    ensures Progress(Coordinate(s, BeginAfter(s.coordinator)))
  {
    DrainKeeps(s.coordinator);
    hide InitInv, ReportInv, ResultInv, ShutdownPath, Coordinate, CoordinatorInv, Left;
    var (d, call) := BeginAfter(s.coordinator);
    assert !s.coordinator.drainingAfter ==> NoneDone(d.after) by { AfterUntouched(s.coordinator); }
    assert !s.coordinator.drainingAfter && call == NoCall ==> !AllDone(d.after) by {
      if !s.coordinator.drainingAfter && call == NoCall {
        assert !d.after[0];
      }
    }
    CoordinatorKeeps(s, d);
    CoordinatorProgress(s, d, call);
  }

  lemma AfterUntouched(c: Coordinator)
    requires CoordinatorInv(c)
    ensures !c.drainingAfter ==> NoneDone(c.after)
  {
  }

  lemma PopPath(s: State, control: bool)
    requires Inv(s) && ShutdownPath(s) && (if control then s.control else s.init).completions != []
    ensures var w := if control then s.control else s.init; var c := w.completions[0];
      var t := if control then s.(control := w.(completions := w.completions[1..]))
               else s.(init := w.(completions := w.completions[1..]));
      && (ShutdownPath(t) || (!control && (c == ShutdownDone(true) || c == ShutdownFailed || c == InitDone(true))))
      && (InterruptPath(s) ==> InterruptPath(t) || (control && !s.coordinator.drainingAfter))
  {
    hide Ranked, HasRank, Waiting, CoordinatorInv, AllDone;
    WaitingLess((if control then s.control else s.init).completions);
  }

  /** Handling a completion that was just taken from its queue. */
  lemma HandleProgress(s: State, c: Completion)
    requires Inv(s) && s.alive
    requires c == ShutdownDone(true) ==> s.appShutdowns == 1
    requires c.InterruptDone? ==> s.interrupts == 1
    requires Undisturbed(s) && !(c == ShutdownDone(true) || c == ShutdownFailed || c == InitDone(true))
        ==> ShutdownPath(s)
    requires Undisturbed(s) && !(c.InterruptDone? && !s.coordinator.drainingAfter) ==> InterruptPath(s)
    requires Undisturbed(s) && c == ShutdownDone(true) ==> !s.flags.complete && !s.init.drained && !s.control.drained
    ensures Progress(Handle(s, c))
  {
    hide Ranked, HasRank, Waiting, CoordinatorInv, AllDone, Coordinate;
    if c == InterruptDone(false) && !s.flags.runaway {
      InterruptDoneProgress(s);
    }
  }

  lemma DrainedProgress(s: State, control: bool)
    requires Inv(s) && Progress(s) && s.alive
    ensures Progress(GuiStep(s, Drained(control)))
  {
    hide Ranked, HasRank, Waiting, CoordinatorInv, AllDone;
  }

  lemma CompleteProgress(s: State, control: bool)
    requires Inv(s) && Progress(s) && s.alive
    ensures Progress(GuiStep(s, if control then CompleteControl else CompleteInit))
  {
    var w := if control then s.control else s.init;
    if w.completions != [] {
      assert w.completions[0].InterruptDone? ==> control;
      assert control ==> w.completions[0].InterruptDone?;
      assert !control && w.completions[0] == ShutdownDone(true) ==> s.appShutdowns == 1;
      if Undisturbed(s) {
        PopPath(s, control);
      }
      PopKeeps(s, control);
      assert !w.stopping;
      assert Undisturbed(s) ==> !s.flags.complete && !s.init.drained && !s.control.drained;
      hide Inv, Handle, InterruptPath, ShutdownPath;
      HandleProgress(if control then s.(control := w.(completions := w.completions[1..]))
                     else s.(init := w.(completions := w.completions[1..])), w.completions[0]);
    }
  }

  lemma StepProgress(s: State, e: Event)
    requires Inv(s) && Progress(s)
    ensures Progress(Step(s, e))
  {
    hide Inv, InterruptPath, ShutdownPath, WorkerStep, GuiStep;
    if !OnGui(e) {
      WorkerProgress(s, e);
    } else if s.alive {
      match e {
        case Initialize =>
          InitializeProgress(s);
          GuiCases(s);
        case RequestStop => RequestProgress(s);
        case ParticipantDone(early, i) => ParticipantProgress(s, early, i);
        case CompleteInit => CompleteProgress(s, false);
        case CompleteControl => CompleteProgress(s, true);
        case Drained(control) => DrainedProgress(s, control);
        case StopExecutor(control) => GuiCases(s);
        case Destroy => GuiCases(s);
      }
    }
  }

  lemma GuiCases(s: State)
    ensures GuiStep(s, Initialize) == DoInitialize(s)
    ensures GuiStep(s, StopExecutor(true)).foreignStop && GuiStep(s, StopExecutor(false)).foreignStop
    ensures !GuiStep(s, Destroy).alive
  {
  }

  lemma {:induction false} RunProgress(start: State, events: seq<Event>)
    requires Inv(start) && Progress(start)
    ensures Progress(Run(start, events))
    decreases |events|
  {
    hide Inv, Step, Progress;
    if events != [] {
      RunProgress(start, events[..|events| - 1]);
      RunKeeps(start, events[..|events| - 1]);
      StepProgress(Run(start, events[..|events| - 1]), events[|events| - 1]);
    }
  }

  /** No worker, completion or drain step is left, and no participant of a draining phase is awaited. */
  predicate AtRest(s: State) {
    && s.init.queue == [] && s.control.queue == [] && s.init.completions == [] && s.control.completions == []
    && !CanDrain(s.init) && !CanDrain(s.control)
    && !s.coordinator.drainingBefore && (s.coordinator.drainingAfter ==> AllDone(s.coordinator.after))
  }

  /** Shutdown cannot get stuck: an undisturbed run that came to rest after a request has shut the node down. */
  lemma ShutdownGetsThrough(before: nat, after: nat, factory: bool, events: seq<Event>)
    requires var s := Run(Start(before, after, factory), events); Undisturbed(s) && AtRest(s) && s.coordinator.requested
    ensures var s := Run(Start(before, after, factory), events);
      s.results == 1 && s.appShutdowns == 1 && s.interrupts == 1
  {
    hide Run;
    StartInv(before, after, factory);
    RunKeeps(Start(before, after, factory), events);
    RunProgress(Start(before, after, factory), events);
  }

  lemma PhaseDone(s: State)
    requires Inv(s)
    ensures s.coordinator.requested && !s.coordinator.drainingBefore ==> AllDone(s.coordinator.before)
    ensures s.coordinator.drainingAfter ==> s.interrupts == 1
  {
    hide InitInv, ControlInv, ReportInv, ResultInv;
  }

  lemma FinishKeeps(s: State)
    requires Inv(s)
    ensures Inv(FinishShutdown(s)) && FinishShutdown(s).results <= 1
  {
    hide Ranked, HasRank, CoordinatorInv, AllDone;
  }

  lemma {:induction false} RunTail(start: State, e: Event, events: seq<Event>)
    ensures Run(start, [e] + events) == Run(Step(start, e), events)
    decreases |events|
  {
    hide Step;
    if events == [] {
      assert [e] + events == [e] && [e][..0] == [];
    } else {
      var n := |events| - 1;
      assert ([e] + events)[..n + 1] == [e] + events[..n];
      RunTail(start, e, events[..n]);
    }
  }

  const ASKED := Coordinator(true, false, false, 0, [], [])

  /** After the interrupt, without participants, node shutdown is queued. */
  function Interrupted(): State {
    State(ASKED.(drainingAfter := true), Flags(false, true, true, false, false, false), Shared(true, false, false,
        false),
      Worker([NodeShutdown], [], false, false), IDLE, true, false, 1, 0, 0, NOTHING)
  }

  /** After node shutdown was reported, both executors are stopped. */
  function ShutDown(): State {
    var stopped := Worker([], [], true, false);
    State(ASKED.(drainingAfter := true), Flags(false, true, true, true, false, false), Shared(true, false, false,
        false),
      stopped, stopped, true, false, 1, 1, 0, NOTHING)
  }

  lemma InterruptRun()
    ensures Step(Step(Step(Start(0, 0, false), RequestStop), InterruptRuns(false)), CompleteControl) == Interrupted()
  {
    hide Left, Ranked, HasRank;
    assert Start(0, 0, false).coordinator == Coordinator(false, false, false, 0, [], []);
    var s1 := Step(Start(0, 0, false), RequestStop);
    assert s1.control == Worker([StartShutdown], [], false, false) && s1.coordinator == ASKED;
    var s2 := Step(s1, InterruptRuns(false));
    assert s2.control == Worker([], [InterruptDone(false)], false, false);
  }

  lemma NodeRun()
    ensures Step(Step(Interrupted(), ShutdownRuns(Completes)), CompleteInit) == ShutDown()
  {
    var s := Step(Interrupted(), ShutdownRuns(Completes));
    assert s.init == Worker([], [ShutdownDone(true)], false, false);
  }

  lemma DrainRun()
    ensures var s := Step(Step(ShutDown(), Drained(true)), Drained(false));
      Undisturbed(s) && AtRest(s) && s.coordinator.requested
  {
  }

  /** Shutdown comes to rest: a run without participants that satisfies every premise of `ShutdownGetsThrough`. */
  lemma ShutdownComesToRest()
    ensures var s := Run(Start(0, 0, false), [RequestStop] + ([InterruptRuns(false)] + ([CompleteControl]
                     + ([ShutdownRuns(Completes)] + ([CompleteInit] + ([Drained(true)] + ([Drained(false)] + [])))))));
      Undisturbed(s) && AtRest(s) && s.coordinator.requested
  {
    hide Step, Undisturbed, AtRest, Interrupted, ShutDown, Start;
    var s := Start(0, 0, false);
    var e7 := [Drained(false)] + [];
    var e6 := [Drained(true)] + e7;
    var e5 := [CompleteInit] + e6;
    var e4 := [ShutdownRuns(Completes)] + e5;
    var e3 := [CompleteControl] + e4;
    var e2 := [InterruptRuns(false)] + e3;
    RunTail(s, RequestStop, e2);
    RunTail(Step(s, RequestStop), InterruptRuns(false), e3);
    RunTail(Step(Step(s, RequestStop), InterruptRuns(false)), CompleteControl, e4);
    InterruptRun();
    RunTail(Interrupted(), ShutdownRuns(Completes), e5);
    RunTail(Step(Interrupted(), ShutdownRuns(Completes)), CompleteInit, e6);
    NodeRun();
    RunTail(ShutDown(), Drained(true), e7);
    RunTail(Step(ShutDown(), Drained(true)), Drained(false), []);
    DrainRun();
  }

  // ---- The initialization executor object ----

  /** The GUI-thread side; `shared`, `init` and `control` stand for the worker state and the two executors. */
  class QmlInitExecutor {
    var flags: Flags
    var shared: Shared
    var init: Worker
    var control: Worker
    var results: nat

    constructor (factory: bool)
      ensures flags == Flags(false, false, false, false, false, false)
      ensures shared == Shared(false, false, factory, false) && init == IDLE && control == IDLE && results == 0
    {
      flags := Flags(false, false, false, false, false, false);
      shared := Shared(false, false, factory, false);
      init, control, results := IDLE, IDLE, 0;
    }

    /** The object and its queues inside a whole state. */
    ghost function Inside(s: State): State
      reads this
    {
      s.(flags := flags, shared := shared, init := init, control := control, results := results)
    }

    method Initialize(ghost s: State)
      requires Inside(s) == s && Inv(s) && s.alive
      modifies this
      ensures Inside(s) == DoInitialize(s)
      ensures Inv(Inside(s))
    {
      InitializeKeeps(s);
      hide Inv;
      if flags.initRequested || flags.shutdownRequested || flags.runaway {
        return;
      }
      flags := flags.(initRequested := true);
      init := Submit(init, InitMain(Fresh));
    }

    method InterruptNode(ghost s: State)
      requires Inside(s) == s && Inv(s) && s.coordinator.requested && !s.coordinator.drainingBefore
      modifies this
      ensures Inside(s) == Obey(s, Interrupt)
      ensures Inv(Inside(s)) && AllDone(s.coordinator.before)
    {
      InterruptKeeps(s);
      PhaseDone(s);
      hide Inv, AllDone;
      if flags.interruptRequested || flags.runaway {
        return;
      }
      flags := flags.(interruptRequested := true);
      shared := shared.(stopping := true);
      control := Submit(control, StartShutdown);
    }

    method ShutdownNode(ghost s: State)
      requires Inside(s) == s && Inv(s) && s.alive && s.coordinator.drainingAfter && AllDone(s.coordinator.after)
      modifies this
      ensures Inside(s) == Obey(s, AppShutdown)
      ensures Inv(Inside(s)) && s.interrupts == 1
    {
      AppShutdownKeeps(s);
      PhaseDone(s);
      hide Inv, AllDone;
      if flags.shutdownRequested || flags.runaway {
        return;
      }
      flags := flags.(shutdownRequested := true);
      shared := shared.(stopping := true);
      init := Submit(init, NodeShutdown);
    }

    method HandleRunawayException(ghost s: State)
      requires Inside(s) == s && Inv(s) && s.alive
      modifies this
      ensures Inside(s) == Handle(s, ShutdownFailed) == Handle(s, InitDone(true)) == Handle(s, InterruptDone(true))
      ensures Inv(Inside(s))
    {
      HandleKeeps(s, ShutdownFailed);
      hide Inv;
      flags := flags.(runaway := true);
    }

    method OnShutdownCompleted(completed: bool, ghost s: State)
      requires Inside(s) == s && Inv(s) && s.alive && (completed ==> s.appShutdowns == 1)
      modifies this
      ensures Inside(s) == Handle(s, ShutdownDone(completed))
      ensures Inv(Inside(s))
    {
      HandleKeeps(s, ShutdownDone(completed));
      hide Inv;
      if !completed {
        return;
      }
      flags := flags.(complete := true);
      init := Stop(init);
      control := Stop(control);
    }

    method Finish(ghost s: State)
      requires Inside(s) == s && Inv(s)
      modifies this
      ensures Inside(s) == FinishShutdown(s)
      ensures Inv(Inside(s)) && results <= 1
    {
      FinishKeeps(s);
      hide Inv;
      if flags.runaway || !flags.complete || flags.emitted {
        return;
      }
      if !init.drained || !control.drained {
        return;
      }
      flags := flags.(emitted := true);
      results := results + 1;
    }
  }
}
