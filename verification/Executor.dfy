/** One backend executor: FIFO work on a worker thread, completions on the GUI thread, shutdown at any moment. */
module Executor {
  import opened Options

  type Id = nat

  /** How a piece of work ends: with a value, or by throwing. */
  datatype Outcome = Value(v: int) | Thrown(e: int)

  datatype Message = RunTask(id: Id) | ReleaseTask(id: Id) | ReleaseAllAndQuit

  /** What a completion did: call `done` with the value, call `failed` with the error, or nothing for a dead
      receiver. */
  datatype Delivery = Done(id: Id, v: int) | Failed(id: Id, e: int) | Dropped(id: Id)

  datatype State = State(
    nextTaskId: nat,
    stopping: bool,
    completions: set<Id>,      // tasks whose GUI completion is still registered
    workerQueue: seq<Message>,
    signals: seq<Id>,          // `completed` signals queued to the GUI thread
    handling: Option<Id>,      // a completion is running on the GUI thread
    retained: set<Id>,         // tasks kept alive on the worker
    deadReceivers: set<Id>,
    quit: bool,                // the worker thread was asked to quit
    accepted: seq<Id>,         // history: submissions that returned true
    ran: seq<Id>,              // history: work executed
    delivered: seq<Delivery>)  // history: completions invoked

  const START := State(0, false, {}, [], [], None, {}, {}, false, [], [], [])

  datatype Event =
    | Submit            // GUI, possibly from inside a completion
    | Shutdown          // GUI, possibly from inside a completion
    | WorkerStep
    | HandleSignal      // GUI: take the next signal and start its completion
    | EndHandler        // GUI: the completion returned
    | ReceiverDies(id: Id)

  function Deliver(id: Id, dead: bool, work: Id -> Outcome): Delivery {
    if dead then Dropped(id)
    else match work(id)
      case Value(v) => Done(id, v)
      case Thrown(e) => Failed(id, e)
  }

  function Step(s: State, e: Event, work: Id -> Outcome): State {
    match e
    case Submit =>
      if s.stopping then s
      else
        var id := s.nextTaskId + 1;
        s.(nextTaskId := id, completions := s.completions + {id},
           workerQueue := s.workerQueue + [RunTask(id)], accepted := s.accepted + [id])
    case Shutdown =>
      if s.stopping then s
      else s.(stopping := true, completions := {}, workerQueue := s.workerQueue + [ReleaseAllAndQuit])
    case WorkerStep =>
      if s.workerQueue == [] then s
      else
        var t := s.(workerQueue := s.workerQueue[1..]);
        (match s.workerQueue[0]
         case RunTask(id) =>
           t.(retained := t.retained + {id}, ran := t.ran + [id],
              signals := if t.stopping then t.signals else t.signals + [id])
         case ReleaseTask(id) => t.(retained := t.retained - {id})
         case ReleaseAllAndQuit => t.(retained := {}, quit := true))
    case HandleSignal =>
      if s.handling.Some? || s.signals == [] then s
      else
        var id := s.signals[0];
        var t := s.(signals := s.signals[1..]);
        if id !in t.completions then t
        else t.(completions := t.completions - {id}, handling := Some(id),
                delivered := t.delivered + [Deliver(id, id in t.deadReceivers, work)])
    case EndHandler =>
      if s.handling.None? then s
      else if s.stopping then s.(handling := None)
      else s.(handling := None, workerQueue := s.workerQueue + [ReleaseTask(s.handling.value)])
    case ReceiverDies(id) => s.(deadReceivers := s.deadReceivers + {id})
  }

  function RunFrom(s: State, events: seq<Event>, work: Id -> Outcome): State
    decreases |events|
  {
    if events == [] then s else Step(RunFrom(s, events[..|events| - 1], work), events[|events| - 1], work)
  }

  function Run(events: seq<Event>, work: Id -> Outcome): State {
    RunFrom(START, events, work)
  }

  /** Ids still to be run by a queue. */
  function Tasks(q: seq<Message>): seq<Id> {
    if q == [] then [] else Tasks(q[..|q| - 1]) + if q[|q| - 1].RunTask? then [q[|q| - 1].id] else []
  }

  function Ids(ds: seq<Delivery>): (r: seq<Id>)
    ensures |r| == |ds|
  {
    seq(|ds|, i requires 0 <= i < |ds| => ds[i].id)
  }

  lemma {:induction false} TasksTail(q: seq<Message>)
    requires q != []
    ensures Tasks(q) == (if q[0].RunTask? then [q[0].id] else []) + Tasks(q[1..])
    decreases |q|
  {
    var n := |q| - 1;
    if n == 0 {
      assert q[..0] == [] && q[1..] == [];
    } else {
      var last := if q[n].RunTask? then [q[n].id] else [];
      assert Tasks(q) == Tasks(q[..n]) + last;
      assert Tasks(q[1..]) == Tasks(q[1..][..n - 1]) + last;
      hide Tasks;
      TasksTail(q[..n]);
      assert q[..n][1..] == q[1..][..n - 1];
    }
  }

  /** Work is neither lost nor repeated nor reordered. */
  ghost predicate Ordered(s: State) {
    && s.ran + Tasks(s.workerQueue) == s.accepted
    && |s.accepted| == s.nextTaskId
    && forall i :: 0 <= i < |s.accepted| ==> s.accepted[i] == i + 1
  }

  /** Completions follow the work in order and stop with the shutdown. */
  ghost predicate Completed(s: State) {
    && Ids(s.delivered) <= s.ran
    && (!s.stopping ==> Ids(s.delivered) + s.signals == s.ran)
    && (!s.stopping ==> forall id :: id in s.completions <==> id in s.signals + Tasks(s.workerQueue))
    && (s.stopping ==> s.completions == {})
  }

  /** The quit request is the last message and follows all work. */
  ghost predicate Quitting(s: State) {
    && (forall i :: 0 <= i < |s.workerQueue| && s.workerQueue[i].ReleaseAllAndQuit? ==> i == |s.workerQueue| - 1)
    && (s.stopping <==> s.quit || (s.workerQueue != [] && s.workerQueue[|s.workerQueue| - 1].ReleaseAllAndQuit?))
    && (s.quit ==> s.workerQueue == [])
  }

  /** A task stays alive on the worker until its completion has returned, or until shutdown. */
  ghost predicate Alive(s: State) {
    && (forall i :: 0 <= i < |s.signals| ==> s.signals[i] in s.retained)
    && (s.handling.Some? ==> s.handling.value == |s.delivered| && s.handling.value in s.retained)
    && (forall i :: 0 <= i < |s.workerQueue| && s.workerQueue[i].ReleaseTask? ==>
          s.workerQueue[i].id <= |s.delivered| && (s.handling.Some? ==> s.workerQueue[i].id < |s.delivered|))
  }

  /** Each completion reported the outcome of its own work; only those of dead receivers were dropped. */
  ghost predicate Faithful(s: State, work: Id -> Outcome) {
    forall i :: 0 <= i < |s.delivered| ==>
      (match s.delivered[i]
       case Done(id, v) => work(id) == Value(v)
       case Failed(id, e) => work(id) == Thrown(e)
       case Dropped(id) => id in s.deadReceivers)
  }

  ghost predicate Inv(s: State, work: Id -> Outcome) {
    Ordered(s) && Completed(s) && Quitting(s) && (!s.stopping ==> Alive(s)) && Faithful(s, work)
  }

  lemma TasksSnoc(q: seq<Message>, m: Message)
    ensures Tasks(q + [m]) == Tasks(q) + if m.RunTask? then [m.id] else []
  {
    assert (q + [m])[..|q|] == q;
  }

  lemma QueueOrdered(s: State, e: Event, work: Id -> Outcome)
    requires Ordered(s) && (e.Submit? || e.Shutdown? || e.EndHandler?)
    ensures Ordered(Step(s, e, work))
  {
    hide Tasks;
    match e
    case Submit => TasksSnoc(s.workerQueue, RunTask(s.nextTaskId + 1));
    case Shutdown => TasksSnoc(s.workerQueue, ReleaseAllAndQuit);
    case EndHandler =>
      if s.handling.Some? {
        TasksSnoc(s.workerQueue, ReleaseTask(s.handling.value));
      }
  }

  lemma StepOrdered(s: State, e: Event, work: Id -> Outcome)
    requires Ordered(s)
    ensures Ordered(Step(s, e, work))
  {
    hide Tasks;
    if e.Submit? || e.Shutdown? || e.EndHandler? {
      QueueOrdered(s, e, work);
    } else if e.WorkerStep? && s.workerQueue != [] {
      TasksTail(s.workerQueue);
      assert Step(s, e, work).ran + Tasks(s.workerQueue[1..]) == s.ran + Tasks(s.workerQueue);
    }
  }

  lemma StepQuitting(s: State, e: Event, work: Id -> Outcome)
    requires Quitting(s)
    ensures Quitting(Step(s, e, work))
  {
  }

  /** The ids are consecutive, so the next signal is the one after the last delivery. */
  lemma NextSignal(s: State)
    requires Ordered(s) && Ids(s.delivered) + s.signals == s.ran
    ensures forall i :: 0 <= i < |s.signals| ==> s.signals[i] == |s.delivered| + i + 1
    ensures forall i :: 0 <= i < |Tasks(s.workerQueue)| ==> Tasks(s.workerQueue)[i] == |s.ran| + i + 1
  {
    hide Tasks;
    forall i | 0 <= i < |s.signals|
      ensures s.signals[i] == |s.delivered| + i + 1
    {
      assert s.signals[i] == s.ran[|s.delivered| + i] == s.accepted[|s.delivered| + i];
    }
    forall i | 0 <= i < |Tasks(s.workerQueue)|
      ensures Tasks(s.workerQueue)[i] == |s.ran| + i + 1
    {
      assert Tasks(s.workerQueue)[i] == s.accepted[|s.ran| + i];
    }
  }

  lemma IdsSnoc(ds: seq<Delivery>, d: Delivery)
    ensures Ids(ds + [d]) == Ids(ds) + [d.id]
  {
  }

  lemma SubmitCompleted(s: State, work: Id -> Outcome)
    requires Completed(s)
    ensures Completed(Step(s, Submit, work))
  {
    hide Tasks, Ids;
    TasksSnoc(s.workerQueue, RunTask(s.nextTaskId + 1));
  }

  lemma WorkCompleted(s: State, work: Id -> Outcome)
    requires Completed(s) && s.workerQueue != []
    ensures Completed(Step(s, WorkerStep, work))
  {
    hide Tasks, Ids;
    TasksTail(s.workerQueue);
    var t := Step(s, WorkerStep, work);
    assert s.ran <= t.ran;
    assert !s.stopping ==> s.signals + Tasks(s.workerQueue) == t.signals + Tasks(t.workerQueue);
  }

  lemma HandleCompleted(s: State, work: Id -> Outcome)
    requires Ordered(s) && Completed(s) && s.handling.None? && s.signals != []
    ensures Completed(Step(s, HandleSignal, work))
  {
    hide Tasks, Ids;
    if s.signals[0] in s.completions {
      IdsSnoc(s.delivered, Deliver(s.signals[0], s.signals[0] in s.deadReceivers, work));
      NextSignal(s);
    }
  }

  lemma StepCompleted(s: State, e: Event, work: Id -> Outcome)
    requires Ordered(s) && Completed(s)
    ensures Completed(Step(s, e, work))
  {
    hide Tasks, Ids;
    if e.Submit? {
      SubmitCompleted(s, work);
    } else if e.WorkerStep? && s.workerQueue != [] {
      WorkCompleted(s, work);
    } else if e.HandleSignal? && s.handling.None? && s.signals != [] {
      HandleCompleted(s, work);
    } else if e.EndHandler? && s.handling.Some? {
      TasksSnoc(s.workerQueue, ReleaseTask(s.handling.value));
    }
  }

  lemma StepAlive(s: State, e: Event, work: Id -> Outcome)
    requires Ordered(s) && Completed(s) && Quitting(s) && !s.stopping && Alive(s)
    ensures Step(s, e, work).stopping || Alive(Step(s, e, work))
  {
    hide Tasks, Ids;
    NextSignal(s);
    var t := Step(s, e, work);
    if e.HandleSignal? && s.signals != [] {
      assert s.signals[0] in s.signals + Tasks(s.workerQueue);
      assert forall i :: 0 <= i < |s.signals| - 1 ==> s.signals[1..][i] == s.signals[i + 1];
    } else if e.WorkerStep? && s.workerQueue != [] {
      assert forall i :: 0 <= i < |t.workerQueue| ==> t.workerQueue[i] == s.workerQueue[i + 1];
    }
  }

  lemma StepInv(s: State, e: Event, work: Id -> Outcome)
    requires Inv(s, work)
    ensures Inv(Step(s, e, work), work)
  {
    StepOrdered(s, e, work);
    StepCompleted(s, e, work);
    StepQuitting(s, e, work);
    if !s.stopping {
      StepAlive(s, e, work);
    }
  }

  lemma {:induction false} RunInv(events: seq<Event>, work: Id -> Outcome)
    ensures Inv(Run(events, work), work)
    decreases |events|
  {
    if events != [] {
      RunInv(events[..|events| - 1], work);
      StepInv(Run(events[..|events| - 1], work), events[|events| - 1], work);
    }
  }

  /** In every run the executed work is a prefix of the accepted tasks, in submission order and without repeats, and
      the worker thread is asked to quit only after all of them ran. */
  lemma WorkRunsInOrder(events: seq<Event>, work: Id -> Outcome)
    ensures var s := Run(events, work);
      && s.ran <= s.accepted
      && (forall i, j :: 0 <= i < j < |s.accepted| ==> s.accepted[i] != s.accepted[j])
      && (s.quit ==> s.ran == s.accepted)
  {
    RunInv(events, work);
  }

  /** Completions run at most once, after their work, in order, and report its outcome to every live receiver. Before
      shutdown none is lost: what has run is delivered or signalled. */
  lemma CompletionsFollowWork(events: seq<Event>, work: Id -> Outcome)
    ensures var s := Run(events, work);
      && Ids(s.delivered) <= s.ran && (!s.stopping ==> Ids(s.delivered) + s.signals == s.ran)
      && (forall i :: 0 <= i < |s.delivered| && s.delivered[i].Done? ==>
            work(s.delivered[i].id) == Value(s.delivered[i].v))
      && (forall i :: 0 <= i < |s.delivered| && s.delivered[i].Failed? ==>
            work(s.delivered[i].id) == Thrown(s.delivered[i].e))
      && (forall i :: 0 <= i < |s.delivered| && s.delivered[i].Dropped? ==> s.delivered[i].id in s.deadReceivers)
  {
    RunInv(events, work);
  }

  /** Submissions that came before any shutdown. */
  function Submissions(events: seq<Event>): nat
    decreases |events|
  {
    if events == [] then 0
    else
      var n := |events| - 1;
      Submissions(events[..n]) + if events[n].Submit? && Shutdown !in events[..n] then 1 else 0
  }

  /** About the events alone: exactly the submissions before the first shutdown are accepted, numbered in order. */
  lemma {:induction false} AcceptedExactly(events: seq<Event>, work: Id -> Outcome)
    ensures var s := Run(events, work);
      && (s.stopping <==> Shutdown in events)
      && s.accepted == seq(Submissions(events), i => i + 1)
    decreases |events|
  {
    RunInv(events, work);
    if events != [] {
      var n := |events| - 1;
      AcceptedExactly(events[..n], work);
      assert events == events[..n] + [events[n]];
      StepAccepts(Run(events[..n], work), events[n], work);
      hide Step, Run;
    }
  }

  lemma StepAccepts(s: State, e: Event, work: Id -> Outcome)
    ensures var t := Step(s, e, work);
      && (t.stopping <==> s.stopping || e.Shutdown?)
      && |t.accepted| == |s.accepted| + if e.Submit? && !s.stopping then 1 else 0
  {
    hide Deliver;
  }

  /** After `shutdown` no completion starts, whatever happens next. */
  lemma {:induction false} NoCompletionAfterShutdown(events: seq<Event>, later: seq<Event>, work: Id -> Outcome)
    requires Run(events, work).stopping
    ensures var s := RunFrom(Run(events, work), later, work);
      s.stopping && s.completions == {} && s.delivered == Run(events, work).delivered
    decreases |later|
  {
    if later == [] {
      RunInv(events, work);
    } else {
      NoCompletionAfterShutdown(events, later[..|later| - 1], work);
    }
  }

  /** A task whose completion has not returned is still held by the worker, unless shutdown was asked for. */
  lemma TaskOutlivesCompletion(events: seq<Event>, work: Id -> Outcome, id: Id)
    requires var s := Run(events, work); !s.stopping && (id in s.signals || s.handling == Some(id))
    ensures id in Run(events, work).retained
  {
    RunInv(events, work);
  }

  /** Letting the worker take as many steps as it has messages. */
  function Drain(s: State, n: nat, work: Id -> Outcome): State
    decreases n
  {
    if n == 0 then s else Drain(Step(s, WorkerStep, work), n - 1, work)
  }

  /** Accepted work always gets done: once the worker empties its queue everything accepted has run, shutdown or not. */
  lemma {:induction false} AcceptedWorkRuns(s: State, work: Id -> Outcome)
    requires Ordered(s)
    ensures var t := Drain(s, |s.workerQueue|, work);
      t.workerQueue == [] && t.accepted == s.accepted && t.ran == s.accepted
    decreases |s.workerQueue|
  {
    if s.workerQueue != [] {
      StepOrdered(s, WorkerStep, work);
      AcceptedWorkRuns(Step(s, WorkerStep, work), work);
    }
  }

  /** What the invariant says to a user of the executor. */
  lemma Consequences(s: State, work: Id -> Outcome)
    requires Inv(s, work)
    ensures s.ran <= s.accepted && (s.quit ==> s.ran == s.accepted) && |s.accepted| == s.nextTaskId
    ensures Ids(s.delivered) <= s.ran && (s.stopping ==> s.completions == {})
  {
  }

  // ---- Nothing is kept for ever, nothing goes unheard ----

  predicate ToRelease(q: seq<Message>, id: Id) {
    exists i :: 0 <= i < |q| && q[i] == ReleaseTask(id)
  }

  /** A task is retained only while its signal, its running completion or its release is still to come. */
  ghost predicate Held(s: State) {
    && (s.quit ==> s.retained == {})
    && (!s.stopping ==> forall id :: id in s.retained ==>
          id in s.signals || s.handling == Some(id) || ToRelease(s.workerQueue, id))
  }

  lemma ToReleaseMore(q: seq<Message>, m: Message)
    ensures forall id :: ToRelease(q + [m], id) <==> ToRelease(q, id) || m == ReleaseTask(id)
  {
    forall id ensures ToRelease(q + [m], id) <==> ToRelease(q, id) || m == ReleaseTask(id) {
      assert (q + [m])[|q|] == m;
      if ToRelease(q, id) {
        var i :| 0 <= i < |q| && q[i] == ReleaseTask(id);
        assert (q + [m])[i] == ReleaseTask(id);
      }
    }
  }

  lemma ToReleaseLess(q: seq<Message>)
    requires q != []
    ensures forall id :: ToRelease(q, id) ==> q[0] == ReleaseTask(id) || ToRelease(q[1..], id)
  {
    forall id | ToRelease(q, id) && q[0] != ReleaseTask(id) ensures ToRelease(q[1..], id) {
      var i :| 0 <= i < |q| && q[i] == ReleaseTask(id);
      assert q[1..][i - 1] == ReleaseTask(id);
    }
  }

  lemma StepHeld(s: State, e: Event, work: Id -> Outcome)
    requires Inv(s, work) && Held(s)
    ensures Held(Step(s, e, work))
  {
    hide Tasks, Ids, Ordered, Alive, Faithful, ToRelease;
    ToReleaseMore(s.workerQueue, RunTask(s.nextTaskId + 1));
    if s.handling.Some? {
      ToReleaseMore(s.workerQueue, ReleaseTask(s.handling.value));
    }
    if s.workerQueue != [] {
      ToReleaseLess(s.workerQueue);
    }
  }

  lemma {:induction false} RunHeld(events: seq<Event>, work: Id -> Outcome)
    ensures Held(Run(events, work))
    decreases |events|
  {
    if events != [] {
      hide Inv, Held, Step;
      RunHeld(events[..|events| - 1], work);
      RunInv(events[..|events| - 1], work);
      StepHeld(Run(events[..|events| - 1], work), events[|events| - 1], work);
    } else {
      hide Inv;
    }
  }

  /** In every run, an executor at rest retains no task, and one that has quit retains none either. */
  lemma NothingRetainedAtRest(events: seq<Event>, work: Id -> Outcome)
    requires var s := Run(events, work);
      s.quit || (!s.stopping && s.workerQueue == [] && s.signals == [] && s.handling.None?)
    ensures Run(events, work).retained == {}
  {
    RunHeld(events, work);
    var s := Run(events, work);
    assert s.workerQueue == [] ==> forall id :: !ToRelease(s.workerQueue, id);
  }

  /** The GUI thread ends the completion that is running and runs those that are signalled. */
  function Pump(s: State, n: nat, work: Id -> Outcome): State
    decreases n
  {
    if n == 0 then s else Pump(Step(Step(s, HandleSignal, work), EndHandler, work), n - 1, work)
  }

  lemma {:induction false} PumpHears(s: State, work: Id -> Outcome)
    requires Inv(s, work) && !s.stopping && s.handling.None? && Tasks(s.workerQueue) == []
    ensures var t := Pump(s, |s.signals|, work);
      t.signals == [] && t.handling.None? && t.ran == s.ran && t.accepted == s.accepted && Ids(t.delivered) == s.ran
    decreases |s.signals|
  {
    hide Tasks, Faithful, Alive, Quitting;
    if s.signals == [] {
      assert Ids(s.delivered) + [] == Ids(s.delivered);
    } else {
      var a := Step(s, HandleSignal, work);
      StepInv(s, HandleSignal, work);
      assert s.signals[0] in s.signals + Tasks(s.workerQueue);
      assert a.handling == Some(s.signals[0]);
      StepInv(a, EndHandler, work);
      TasksSnoc(a.workerQueue, ReleaseTask(s.signals[0]));
      PumpHears(Step(a, EndHandler, work), work);
    }
  }

  lemma {:induction false} DrainKeeps(s: State, n: nat, work: Id -> Outcome)
    requires Inv(s, work) && !s.stopping && s.handling.None?
    ensures var t := Drain(s, n, work); Inv(t, work) && !t.stopping && t.handling.None? && t.accepted == s.accepted
    decreases n
  {
    hide Inv;
    if n > 0 {
      StepInv(s, WorkerStep, work);
      DrainKeeps(Step(s, WorkerStep, work), n - 1, work);
    }
  }

  /** Everything accepted is heard: let the running completion end, the worker empty its queue and the GUI thread handle
      what is signalled, and every accepted task was delivered, in order. */
  lemma AcceptedWorkIsHeard(events: seq<Event>, work: Id -> Outcome)
    requires !Run(events, work).stopping
    ensures var s := Step(Run(events, work), EndHandler, work);
      var t := Drain(s, |s.workerQueue|, work);
      Ids(Pump(t, |t.signals|, work).delivered) == Run(events, work).accepted
  {
    hide Inv, Step, Tasks;
    var r := Run(events, work);
    RunInv(events, work);
    StepInv(r, EndHandler, work);
    var s := Step(r, EndHandler, work);
    HandlerEnds(r, work);
    InvOrdered(s, work);
    AcceptedWorkRuns(s, work);
    DrainKeeps(s, |s.workerQueue|, work);
    NoTasks();
    PumpHears(Drain(s, |s.workerQueue|, work), work);
  }

  lemma NoTasks()
    ensures Tasks([]) == []
  {
  }

  lemma InvOrdered(s: State, work: Id -> Outcome)
    requires Inv(s, work)
    ensures Ordered(s)
  {
  }

  lemma HandlerEnds(s: State, work: Id -> Outcome)
    ensures var t := Step(s, EndHandler, work); t.handling.None? && t.stopping == s.stopping && t.accepted == s.accepted
  {
  }

  /** A dead receiver hears nothing: a completion that starts after its receiver died is dropped. */
  lemma {:induction false} DeadReceiverHearsNothing(events: seq<Event>, id: Id, later: seq<Event>, work: Id -> Outcome)
    requires id !in Ids(Run(events, work).delivered)
    ensures var s := RunFrom(Step(Run(events, work), ReceiverDies(id), work), later, work);
      && id in s.deadReceivers && |Run(events, work).delivered| <= |s.delivered|
      && s.delivered[..|Run(events, work).delivered|] == Run(events, work).delivered
      && forall i :: |Run(events, work).delivered| <= i < |s.delivered| && s.delivered[i].id == id ==>
           s.delivered[i].Dropped?
    decreases |later|
  {
    hide Run;
    if later != [] {
      DeadReceiverHearsNothing(events, id, later[..|later| - 1], work);
    }
  }

  /** And only a dead one: a receiver in `deadReceivers` died in the run. */
  lemma {:induction false} DeadReceiversDied(events: seq<Event>, work: Id -> Outcome, id: Id)
    requires id in Run(events, work).deadReceivers
    ensures ReceiverDies(id) in events
    decreases |events|
  {
    if events != [] && events[|events| - 1] != ReceiverDies(id) {
      DeadReceiversDied(events[..|events| - 1], work, id);
    }
  }

  // ---- The executor object ----

  class BackendExecutor {
    const work: Id -> Outcome
    var nextTaskId: nat
    var stopping: bool
    var completions: set<Id>
    var workerQueue: seq<Message>
    var signals: seq<Id>
    var handling: Option<Id>
    var retained: set<Id>
    var deadReceivers: set<Id>
    var quit: bool
    ghost var accepted: seq<Id>
    ghost var ran: seq<Id>
    ghost var delivered: seq<Delivery>

    /** The invariant of every run: order, completions, quitting and lifetime. */
    ghost predicate Valid()
      reads this
    {
      Inv(View(), work)
    }

    constructor (work: Id -> Outcome)
      ensures Valid() && View() == START && this.work == work
    {
      this.work := work;
      nextTaskId, stopping, completions, workerQueue, signals := 0, false, {}, [], [];
      handling, retained, deadReceivers, quit := None, {}, {}, false;
      accepted, ran, delivered := [], [], [];
    }

    ghost function View(): State
      reads this
    {
      State(nextTaskId, stopping, completions, workerQueue, signals, handling, retained, deadReceivers, quit,
            accepted, ran, delivered)
    }

    method Enqueue() returns (ok: bool)
      requires Valid()
      modifies this
      ensures Valid() && View() == Step(old(View()), Submit, work) && (ok <==> !old(stopping))
      ensures ok ==> accepted == old(accepted) + [nextTaskId] && nextTaskId == |accepted|
    {
      hide Inv, Tasks, Ids;
      StepInv(View(), Submit, work);
      Consequences(Step(View(), Submit, work), work);
      if stopping {
        return false;
      }
      nextTaskId := nextTaskId + 1;
      completions := completions + {nextTaskId};
      workerQueue := workerQueue + [RunTask(nextTaskId)];
      accepted := accepted + [nextTaskId];
      ok := true;
    }

    method ShutDown()
      requires Valid()
      modifies this
      ensures Valid() && View() == Step(old(View()), Shutdown, work)
      ensures stopping && completions == {}
    {
      hide Inv, Tasks, Ids;
      StepInv(View(), Shutdown, work);
      Consequences(Step(View(), Shutdown, work), work);
      if stopping {
        return;
      }
      stopping := true;
      completions := {};
      workerQueue := workerQueue + [ReleaseAllAndQuit];
    }

    /** The worker thread takes its next message. */
    method Work()
      requires Valid()
      modifies this
      ensures Valid() && View() == Step(old(View()), WorkerStep, work)
      ensures ran <= accepted && (quit ==> ran == accepted)
    {
      hide Inv, Tasks, Ids;
      StepInv(View(), WorkerStep, work);
      Consequences(Step(View(), WorkerStep, work), work);
      if workerQueue == [] {
        return;
      }
      var m := workerQueue[0];
      workerQueue := workerQueue[1..];
      match m {
        case RunTask(id) =>
          retained := retained + {id};
          ran := ran + [id];
          if !stopping {
            signals := signals + [id];
          }
        case ReleaseTask(id) => retained := retained - {id};
        case ReleaseAllAndQuit => retained, quit := {}, true;
      }
    }

    /** The completion handler up to the call of the completion, which `outcome` describes. */
    method OnCompleted() returns (outcome: Option<Delivery>)
      requires Valid() && handling.None? && signals != []
      modifies this
      ensures Valid() && View() == Step(old(View()), HandleSignal, work)
      ensures outcome.Some? <==> old(signals)[0] in old(completions)
      ensures outcome.Some? ==> delivered == old(delivered) + [outcome.value] && !stopping
      ensures outcome.Some? && outcome.value.Done? ==> work(outcome.value.id) == Value(outcome.value.v)
      ensures outcome.Some? && outcome.value.Failed? ==> work(outcome.value.id) == Thrown(outcome.value.e)
      ensures outcome.Some? && outcome.value.Dropped? ==> outcome.value.id in deadReceivers
      ensures outcome.Some? ==> outcome.value.id == old(signals)[0]
      ensures Ids(delivered) <= ran
    {
      hide Inv, Tasks, Ids;
      StepInv(View(), HandleSignal, work);
      Consequences(View(), work);
      Consequences(Step(View(), HandleSignal, work), work);
      var id := signals[0];
      signals := signals[1..];
      if id !in completions {
        return None;
      }
      completions := completions - {id};
      handling := Some(id);
      var d := Deliver(id, id in deadReceivers, work);
      delivered := delivered + [d];
      outcome := Some(d);
    }

    /** The rest of the handler, after the completion returned. */
    method CompletionReturned()
      requires Valid() && handling.Some?
      modifies this
      ensures Valid() && View() == Step(old(View()), EndHandler, work)
    {
      hide Inv, Tasks, Ids;
      StepInv(View(), EndHandler, work);
      var id := handling.value;
      handling := None;
      if stopping {
        return;
      }
      workerQueue := workerQueue + [ReleaseTask(id)];
    }
  }
}
