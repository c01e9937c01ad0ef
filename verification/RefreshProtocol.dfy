/** The single-read-in-flight protocol of the log model, as a state machine over GUI and reader-thread steps. */
module RefreshProtocol {
  import opened Options

  /** A read handed to the reader thread. */
  datatype Job = Job(full: bool, generation: nat)

  /** An accepted refresh request: what was asked for, in which activation, and how many reads had started before it. */
  datatype Request = Request(full: bool, generation: nat, startsBefore: nat)

  datatype State = State(
    logToFile: bool,
    active: bool,
    stopping: bool,
    generation: nat,
    readInFlight: bool,
    refreshPending: bool,
    pendingFullLoad: bool,
    queued: seq<Job>,        // posted to the reader thread, not started
    reading: Option<Job>,    // on the reader thread
    finished: seq<Job>,      // completions posted to the GUI thread
    requests: seq<Request>,  // history of accepted requests
    starts: seq<Job>)        // history of started reads

  function Initial(logToFile: bool): State {
    State(logToFile, false, false, 0, false, false, false, [], None, [], [], [])
  }

  datatype Event =
    | Refresh(full: bool)
    | SetActive(on: bool, full: bool)   // on activation, `full` says that the retained tail is too narrow
    | Stop
    | StartRead
    | FinishRead
    | Deliver(readable: bool, needsWider: bool)

  /** The body of `refresh`: queue a read, or fold the request into a trailing one. */
  function Queue(s: State, full: bool): State {
    if !s.active || s.stopping || !s.logToFile then s
    else if s.readInFlight then
      s.(refreshPending := true, pendingFullLoad := s.pendingFullLoad || full)
    else
      s.(readInFlight := true, queued := s.queued + [Job(full, s.generation)])
  }

  /** A refresh asked for from outside; it counts as accepted unless the model is inactive, stopping or has no file. */
  function Ask(s: State, full: bool): State {
    if !s.active || s.stopping || !s.logToFile then s
    else Queue(s.(requests := s.requests + [Request(full, s.generation, |s.starts|)]), full)
  }

  /** A completion: the flags are lowered and a trailing read is queued if one is owed. */
  function Complete(s: State, job: Job, readable: bool, needsWider: bool): State {
    if s.stopping then s
    else
      var idle := s.(readInFlight := false, refreshPending := false, pendingFullLoad := false);
      if !s.active || job.generation != s.generation then
        if s.active && s.refreshPending then Queue(idle, s.pendingFullLoad) else s.(readInFlight := false)
      else if !readable then
        if s.refreshPending then Queue(idle, s.pendingFullLoad) else s.(readInFlight := false)
      else if s.refreshPending || needsWider then Queue(idle, s.pendingFullLoad || needsWider)
      else idle
  }

  function Step(s: State, e: Event): State {
    match e
    case Refresh(full) => Ask(s, full)
    case SetActive(on, full) =>
      if s.active == on || s.stopping then s
      else if on then Ask(s.(active := true, generation := s.generation + 1), full)
      else s.(active := false, generation := s.generation + 1, refreshPending := false, pendingFullLoad := false)
    case Stop =>
      s.(stopping := true, refreshPending := false, pendingFullLoad := false, readInFlight := false)
    case StartRead =>
      if s.queued == [] || s.reading.Some? then s
      else if s.stopping then s.(queued := s.queued[1..])
      else s.(queued := s.queued[1..], reading := Some(s.queued[0]), starts := s.starts + [s.queued[0]])
    case FinishRead =>
      if s.reading.None? then s
      else if s.stopping then s.(reading := None)
      else s.(reading := None, finished := s.finished + [s.reading.value])
    case Deliver(readable, needsWider) =>
      if s.finished == [] then s
      else Complete(s.(finished := s.finished[1..]), s.finished[0], readable, needsWider)
  }

  function Run(s: State, events: seq<Event>): State
    decreases |events|
  {
    if events == [] then s else Step(Run(s, events[..|events| - 1]), events[|events| - 1])
  }

  /** Reads between their request and their completion. */
  function Outstanding(s: State): nat {
    |s.queued| + (if s.reading.Some? then 1 else 0) + |s.finished|
  }

  /** The read does at least what was asked for, and in the same activation, so that its result is not discarded. */
  predicate Serves(job: Job, r: Request) {
    job.generation == r.generation && (r.full ==> job.full)
  }

  /** One of the first two reads that start after the request serves it. */
  predicate Served(s: State, r: Request) {
    exists k :: r.startsBefore <= k < |s.starts| && k <= r.startsBefore + 1 && Serves(s.starts[k], r)
  }

  /** The read that will serve the request is queued, or owed as a trailing read. */
  predicate Owed(s: State, r: Request) {
    || (|s.queued| == 1 && |s.starts| <= r.startsBefore + 1 && Serves(s.queued[0], r))
    || (s.refreshPending && Serves(Job(s.pendingFullLoad, s.generation), r)
        && |s.starts| + |s.queued| <= r.startsBefore + 1)
  }

  predicate Kept(s: State, r: Request) {
    Served(s, r) || Owed(s, r)
  }

  predicate Current(s: State, r: Request) {
    s.active && !s.stopping && r.generation == s.generation
  }

  ghost predicate Flags(s: State) {
    && Outstanding(s) <= 1
    && (!s.stopping ==> (s.readInFlight <==> Outstanding(s) == 1))
    && (s.refreshPending ==> s.readInFlight && s.active)
    && (s.pendingFullLoad ==> s.refreshPending)
    && (s.requests != [] ==> s.logToFile)
  }

  ghost predicate PastRequests(s: State) {
    forall i :: 0 <= i < |s.requests| ==>
      s.requests[i].startsBefore <= |s.starts| && s.requests[i].generation <= s.generation
  }

  ghost predicate NoneForgotten(s: State) {
    forall i :: 0 <= i < |s.requests| && Current(s, s.requests[i]) ==> Kept(s, s.requests[i])
  }

  ghost predicate Inv(s: State) {
    Flags(s) && PastRequests(s) && NoneForgotten(s)
  }

  lemma AskFlags(s: State, full: bool)
    requires Flags(s)
    ensures Flags(Ask(s, full))
  {
  }

  lemma DeliverFlags(s: State, readable: bool, needsWider: bool)
    requires Flags(s)
    ensures Flags(Step(s, Deliver(readable, needsWider)))
  {
  }

  lemma ReaderFlags(s: State)
    requires Flags(s)
    ensures Flags(Step(s, StartRead)) && Flags(Step(s, FinishRead))
  {
    hide Ask, Complete;
  }

  lemma StepFlags(s: State, e: Event)
    requires Flags(s)
    ensures Flags(Step(s, e))
  {
    hide Ask, Complete;
    match e {
      case Refresh(full) => AskFlags(s, full);
      case SetActive(on, full) =>
        if on {
          AskFlags(s.(active := true, generation := s.generation + 1), full);
        }
      case Stop =>
      case StartRead => ReaderFlags(s);
      case FinishRead => ReaderFlags(s);
      case Deliver(readable, needsWider) => DeliverFlags(s, readable, needsWider);
    }
  }

  lemma AskPastRequests(s: State, full: bool)
    requires PastRequests(s)
    ensures PastRequests(Ask(s, full))
  {
    var t := Ask(s, full);
    assert t.starts == s.starts && t.generation == s.generation;
    assert t.requests == s.requests || t.requests == s.requests + [Request(full, s.generation, |s.starts|)];
  }

  lemma DeliverSameHistory(s: State, readable: bool, needsWider: bool)
    ensures var t := Step(s, Deliver(readable, needsWider));
      t.requests == s.requests && t.starts == s.starts && t.generation == s.generation
  {
  }

  lemma StepPastRequests(s: State, e: Event)
    requires PastRequests(s)
    ensures PastRequests(Step(s, e))
  {
    hide Ask, Complete;
    match e
    case Refresh(full) => AskPastRequests(s, full);
    case SetActive(on, full) =>
      if on {
        AskPastRequests(s.(active := true, generation := s.generation + 1), full);
      }
    case Stop =>
    case StartRead =>
    case FinishRead =>
    case Deliver(readable, needsWider) => DeliverSameHistory(s, readable, needsWider);
  }

  lemma StillServed(s: State, t: State, r: Request)
    requires Served(s, r) && s.starts <= t.starts
    ensures Served(t, r)
  {
    var k :| r.startsBefore <= k < |s.starts| && k <= r.startsBefore + 1 && Serves(s.starts[k], r);
    assert t.starts[k] == s.starts[k];
  }

  lemma StartKeeps(s: State, r: Request)
    requires Inv(s) && s.queued != [] && !s.stopping && Kept(s, r) && r.startsBefore <= |s.starts|
    ensures Kept(Step(s, StartRead), r)
  {
    var t := Step(s, StartRead);
    if Served(s, r) {
      StillServed(s, t, r);
    } else if Serves(s.queued[0], r) && |s.starts| <= r.startsBefore + 1 {
      assert t.starts[|s.starts|] == s.queued[0];
    }
  }

  lemma DeliverKeeps(s: State, readable: bool, needsWider: bool, r: Request)
    requires Inv(s) && s.finished != [] && !s.stopping && s.active && Kept(s, r)
    ensures s.logToFile ==> Kept(Step(s, Deliver(readable, needsWider)), r)
  {
    var t := Step(s, Deliver(readable, needsWider));
    assert t.starts == s.starts;
    if Served(s, r) {
      StillServed(s, t, r);
    }
  }

  lemma AskKeeps(s: State, full: bool, i: nat)
    requires Inv(s) && s.active && !s.stopping && s.logToFile && i <= |s.requests|
    requires i < |s.requests| ==> Kept(s, s.requests[i])
    ensures var t := Ask(s, full); |t.requests| == |s.requests| + 1 && Kept(t, t.requests[i])
  {
    var t := Ask(s, full);
    if i < |s.requests| && Served(s, s.requests[i]) {
      StillServed(s, t, s.requests[i]);
    }
  }

  /** Every step keeps: one read at most, flags that mean what they say, and no current request forgotten. */
  lemma StepInv(s: State, e: Event)
    requires Inv(s)
    ensures Inv(Step(s, e))
  {
    var t := Step(s, e);
    StepFlags(s, e);
    StepPastRequests(s, e);
    forall i | 0 <= i < |t.requests| && Current(t, t.requests[i])
      ensures Kept(t, t.requests[i])
    {
      match e
      case StartRead =>
        if s.queued != [] && s.reading.None? {
          StartKeeps(s, s.requests[i]);
        }
      case Deliver(readable, needsWider) =>
        if s.finished != [] {
          DeliverKeeps(s, readable, needsWider, s.requests[i]);
        }
      case Refresh(full) =>
        if s.logToFile {
          AskKeeps(s, full, i);
        }
      case SetActive(on, full) =>
        if i < |s.requests| && s.active == on {
          assert t == s;
        }
      case Stop =>
      case FinishRead =>
        if Served(s, s.requests[i]) {
          StillServed(s, t, s.requests[i]);
        }
    }
  }

  lemma {:induction false} RunInv(logToFile: bool, events: seq<Event>)
    ensures Inv(Run(Initial(logToFile), events))
    decreases |events|
  {
    if events != [] {
      RunInv(logToFile, events[..|events| - 1]);
      StepInv(Run(Initial(logToFile), events[..|events| - 1]), events[|events| - 1]);
    }
  }

  /** In every run at most one read is between its request and its completion. */
  lemma SingleRead(logToFile: bool, events: seq<Event>)
    ensures Outstanding(Run(Initial(logToFile), events)) <= 1
  {
    RunInv(logToFile, events);
  }

  /** No request is lost or downgraded: in every run, whenever the active model has no read outstanding, each request
      of this activation was served by one of the first two reads started after it, fully if it asked for a full load.
      */
  lemma EveryRequestServed(logToFile: bool, events: seq<Event>, i: nat)
    requires var s := Run(Initial(logToFile), events);
      i < |s.requests| && Current(s, s.requests[i]) && Outstanding(s) == 0
    ensures var s := Run(Initial(logToFile), events); Served(s, s.requests[i])
  {
    RunInv(logToFile, events);
  }

  /** Whether the page was last switched on. */
  function SwitchedOn(events: seq<Event>): bool
    decreases |events|
  {
    if events == [] then false
    else if events[|events| - 1].SetActive? then events[|events| - 1].on
    else SwitchedOn(events[..|events| - 1])
  }

  /** Requests made while the page is on, and the one that switching it on makes. */
  function Asked(events: seq<Event>): nat
    decreases |events|
  {
    if events == [] then 0
    else
      var n := |events| - 1;
      var on := SwitchedOn(events[..n]);
      Asked(events[..n]) + if (events[n].Refresh? && on) || (events[n].SetActive? && events[n].on && !on) then 1 else 0
  }

  /** Nothing that a request changes beside the reads. */
  predicate SameAsk(s: State, t: State) {
    t.requests == s.requests && t.active == s.active && t.stopping == s.stopping && t.logToFile == s.logToFile
  }

  lemma QueueAsksNothing(s: State, full: bool)
    ensures SameAsk(s, Queue(s, full))
  {
  }

  lemma CompleteAsksNothing(s: State, job: Job, readable: bool, needsWider: bool)
    ensures SameAsk(s, Complete(s, job, readable, needsWider))
  {
  }

  lemma StepAccepts(s: State, e: Event)
    ensures var t := Step(s, e);
      && t.logToFile == s.logToFile && (t.stopping <==> s.stopping || e.Stop?)
      && (!s.stopping ==> t.active == if e.SetActive? then e.on else s.active)
      && |t.requests| == |s.requests| + (
           if !s.stopping && s.logToFile && ((e.Refresh? && s.active) || (e.SetActive? && e.on && !s.active))
           then 1 else 0)
  {
    hide Complete, Queue;
    forall u: State, full: bool ensures SameAsk(u, Queue(u, full)) {
      QueueAsksNothing(u, full);
    }
    if e.Deliver? && s.finished != [] {
      CompleteAsksNothing(s.(finished := s.finished[1..]), s.finished[0], e.readable, e.needsWider);
    }
  }

  /**
   * About the events alone: the model has stopped exactly if it was told to; until then it is active exactly while
   * switched on, and accepts every request made meanwhile if there is a log file, and none otherwise.
   */
  lemma {:induction false} AcceptsWhileOn(logToFile: bool, events: seq<Event>)
    ensures var s := Run(Initial(logToFile), events);
      && (s.stopping <==> Stop in events)
      && (Stop !in events ==>
            s.active == SwitchedOn(events) && |s.requests| == if logToFile then Asked(events) else 0)
      && s.logToFile == logToFile
    decreases |events|
  {
    if events != [] {
      hide Step;
      var n := |events| - 1;
      AcceptsWhileOn(logToFile, events[..n]);
      StepAccepts(Run(Initial(logToFile), events[..n]), events[n]);
      assert events == events[..n] + [events[n]];
    }
  }

  /** Before the first activation nothing is read. */
  lemma {:induction false} NothingBeforeActivation(logToFile: bool, events: seq<Event>)
    requires forall i :: 0 <= i < |events| ==> !(events[i].SetActive? && events[i].on)
    ensures var s := Run(Initial(logToFile), events);
      !s.active && s.starts == [] && s.requests == [] && Outstanding(s) == 0
    decreases |events|
  {
    if events != [] {
      NothingBeforeActivation(logToFile, events[..|events| - 1]);
    }
  }

  /** A stopped reader thread empties its queue: what was posted is dropped, what was being read is not delivered. */
  lemma StoppedReaderEmpties(s: State)
    requires Flags(s) && s.stopping
    ensures var t := Step(Step(s, FinishRead), StartRead);
      t.queued == [] && t.reading.None? && t.finished == s.finished && t.starts == s.starts
  {
  }

  /** After `stop` no read starts, none is queued, and none is owed, whatever happens next. */
  lemma {:induction false} NothingAfterStop(s: State, later: seq<Event>)
    ensures var t := Run(Step(s, Stop), later);
      t.stopping && t.starts == s.starts && t.requests == s.requests && |t.queued| <= |s.queued|
      && !t.readInFlight && !t.refreshPending && !t.pendingFullLoad
    decreases |later|
  {
    if later != [] {
      NothingAfterStop(s, later[..|later| - 1]);
    }
  }

  /** The reader thread and the GUI each take their turn once; the read is readable and wide enough. */
  function Round(s: State): State {
    Step(Step(Step(s, StartRead), FinishRead), Deliver(true, false))
  }

  lemma ReaderTurn(s: State)
    requires Flags(s) && !s.stopping
    ensures var b := Step(Step(s, StartRead), FinishRead);
      && b.reading.None? && b.queued == [] && |b.finished| <= 1 && !b.stopping && b.refreshPending == s.refreshPending
      && (b.refreshPending ==> b.finished != [] && b.active)
  {
    var a := Step(s, StartRead);
    assert a.queued == [] && |a.finished| + (if a.reading.Some? then 1 else 0) == Outstanding(s);
    assert !a.stopping && a.refreshPending == s.refreshPending && a.active == s.active;
    hide Queue, Complete;
  }

  /** After a completion nothing is owed, and at most the trailing read is queued. */
  lemma GuiTurn(b: State)
    requires b.reading.None? && b.queued == [] && |b.finished| <= 1 && !b.stopping
    requires b.refreshPending ==> b.finished != [] && b.active
    ensures var t := Step(b, Deliver(true, false));
      && !t.stopping && !t.refreshPending && t.reading.None? && t.finished == [] && |t.queued| <= 1
      && (!b.refreshPending ==> t.queued == [])
  {
  }

  lemma OneRound(s: State)
    requires Flags(s) && !s.stopping
    ensures var t := Round(s);
      && !t.stopping && !t.refreshPending && t.reading.None? && t.finished == [] && |t.queued| <= 1
      && (!s.refreshPending ==> t.queued == [])
  {
    hide Step, Flags;
    ReaderTurn(s);
    GuiTurn(Step(Step(s, StartRead), FinishRead));
  }

  lemma RoundFlags(s: State)
    requires Flags(s)
    ensures Flags(Round(s))
  {
    hide Step, Flags;
    StepFlags(s, StartRead);
    StepFlags(Step(s, StartRead), FinishRead);
    StepFlags(Step(Step(s, StartRead), FinishRead), Deliver(true, false));
  }

  /** A burst collapses to at most two reads: the one in flight plus one trailing read. Two undisturbed rounds leave
      nothing outstanding. */
  lemma TwoRoundsDrain(logToFile: bool, events: seq<Event>)
    requires !Run(Initial(logToFile), events).stopping
    ensures Outstanding(Round(Round(Run(Initial(logToFile), events)))) == 0
  {
    hide Step, Round;
    var s := Run(Initial(logToFile), events);
    RunInv(logToFile, events);
    OneRound(s);
    RoundFlags(s);
    OneRound(Round(s));
  }

  lemma SingleWhenValid(s: State)
    requires Inv(s)
    ensures Outstanding(s) <= 1
  {
  }

  /** A request that was just accepted is in the hands of a queued or a trailing read. */
  lemma AskedIsKept(s: State, full: bool)
    requires Inv(s)
    ensures s.active && !s.stopping && s.logToFile ==> Kept(Ask(s, full), Request(full, s.generation, |s.starts|))
  {
    if s.active && !s.stopping && s.logToFile {
      AskKeeps(s, full, |s.requests|);
      assert Ask(s, full).requests[|s.requests|] == Request(full, s.generation, |s.starts|);
    }
  }

  // ---- The flags of the model object ----

  /** The part of the log model that schedules reads. Jobs and completions are event queues. */
  class ReadScheduler {
    const logToFile: bool
    var active: bool
    var stopping: bool
    var generation: nat
    var readInFlight: bool
    var refreshPending: bool
    var pendingFullLoad: bool
    var queued: seq<Job>
    var reading: Option<Job>
    var finished: seq<Job>
    ghost var requests: seq<Request>
    ghost var starts: seq<Job>

    /** The invariant of every run: one read at most, truthful flags, no current request forgotten. */
    ghost predicate Valid()
      reads this
    {
      Inv(View())
    }

    constructor (logToFile: bool)
      ensures Valid() && View() == Initial(logToFile)
    {
      this.logToFile := logToFile;
      active, stopping, generation, readInFlight, refreshPending, pendingFullLoad := false, false, 0, false, false,
          false;
      queued, reading, finished, requests, starts := [], None, [], [], [];
    }

    ghost function View(): State
      reads this
    {
      State(logToFile, active, stopping, generation, readInFlight, refreshPending, pendingFullLoad, queued, reading,
            finished, requests, starts)
    }

    method Refresh(full: bool)
      modifies this
      ensures View() == Queue(old(View()), full)
    {
      if !active || stopping {
        return;
      }
      if !logToFile {
        return;
      }
      if readInFlight {
        refreshPending := true;
        if full {
          pendingFullLoad := true;
        }
        return;
      }
      readInFlight := true;
      queued := queued + [Job(full, generation)];
    }

    /** A refresh asked for from outside. */
    method RequestRefresh(full: bool)
      requires Valid()
      modifies this
      ensures Valid() && View() == Step(old(View()), Event.Refresh(full))
      ensures active && !stopping && logToFile ==> Kept(View(), Request(full, generation, |starts|))
    {
      hide Inv, Kept;
      StepInv(View(), Event.Refresh(full));
      AskedIsKept(View(), full);
      if active && !stopping && logToFile {
        requests := requests + [Request(full, generation, |starts|)];
      }
      Refresh(full);
    }

    method SetActive(on: bool, tooNarrow: bool)
      requires Valid()
      modifies this
      ensures Valid() && View() == Step(old(View()), Event.SetActive(on, tooNarrow))
    {
      hide Inv;
      StepInv(View(), Event.SetActive(on, tooNarrow));
      if active == on || stopping {
        return;
      }
      active := on;
      generation := generation + 1;
      if active {
        if logToFile {
          requests := requests + [Request(tooNarrow, generation, |starts|)];
        }
        Refresh(tooNarrow);
        return;
      }
      refreshPending := false;
      pendingFullLoad := false;
    }

    /** The trailing read that a busy period owes. */
    method RunTrailing()
      modifies this
      ensures View() == if old(refreshPending)
                        then Queue(old(View()).(refreshPending := false, pendingFullLoad := false),
                            old(pendingFullLoad))
                        else old(View())
    {
      if refreshPending {
        refreshPending := false;
        var full := pendingFullLoad;
        pendingFullLoad := false;
        Refresh(full);
      }
    }

    /** What a completion does to the flags: stale, unreadable or current. */
    method CompleteRead(job: Job, readable: bool, needsWider: bool)
      modifies this
      ensures View() == Complete(old(View()), job, readable, needsWider)
    {
      hide Queue;
      if stopping {
        return;
      }
      if !active || job.generation != generation {
        readInFlight := false;
        if active {
          RunTrailing();
        }
        return;
      }
      if !readable {
        readInFlight := false;
        RunTrailing();
        return;
      }
      var trailing := refreshPending || needsWider;
      var full := pendingFullLoad || needsWider;
      refreshPending := false;
      pendingFullLoad := false;
      readInFlight := false;
      if trailing {
        Refresh(full);
      }
    }

    /** A completion reaches the GUI thread. */
    method OnReadCompleted(readable: bool, needsWider: bool)
      requires Valid() && finished != []
      modifies this
      ensures Valid() && View() == Step(old(View()), Deliver(readable, needsWider))
      ensures Outstanding(View()) <= 1
    {
      hide Queue, Inv, Outstanding, Complete;
      StepInv(View(), Deliver(readable, needsWider));
      SingleWhenValid(Step(View(), Deliver(readable, needsWider)));
      var job := finished[0];
      finished := finished[1..];
      CompleteRead(job, readable, needsWider);
    }
  }
}
