/** Waiting for all background threads: the executor registry, the thread-join registry and their callbacks. */
module Drain {
  type Thread = nat
  type Receiver = nat

  /** A thread from start to the moment its object is deleted on the GUI thread. */
  datatype Phase = Running | FinishedQueued | Joining | JoinedQueued | Gone

  datatype Callback = Callback(id: nat, receiver: Receiver)

  /** A callback posted to its receiver, and the registries at that moment. */
  datatype Post = Post(callback: Callback, executors: set<Thread>, joins: int)

  datatype State = State(
    phase: map<Thread, Phase>,
    owners: set<Thread>,            // registered executor threads
    executorWaiters: seq<Callback>,
    pendingJoins: int,
    joinWaiters: seq<Callback>,
    dead: set<Receiver>,
    registered: seq<Callback>,      // history of shutdownAll calls
    posted: seq<Post>,
    dropped: seq<Callback>)

  const START := State(map[], {}, [], 0, [], {}, [], [], [])

  datatype Event =
    | NewExecutor(thread: Thread)
    | ThreadFinishes(thread: Thread)   // the worker's event loop ends
    | HandleFinished(thread: Thread)   // GUI: start joining the executor's thread
    | JoinOther(thread: Thread)        // GUI: another component joins its own thread
    | JoinReturns(thread: Thread)      // the helper thread is done waiting
    // GUI: bookkeeping of a finished join, whose callbacks build executors
    | HandleJoined(thread: Thread, built: set<Thread>)
    | ShutdownAll(receiver: Receiver)
    | ReceiverDies(receiver: Receiver)

  predicate In(s: State, thread: Thread, p: Phase) {
    thread in s.phase && s.phase[thread] == p
  }

  /** Hands the waiting callbacks to their receivers, skipping dead ones. */
  function Release(s: State, waiters: seq<Callback>): State
    decreases |waiters|
  {
    if waiters == [] then s
    else
      var c := waiters[0];
      Release(if c.receiver in s.dead then s.(dropped := s.dropped + [c])
              else s.(posted := s.posted + [Post(c, s.owners, s.pendingJoins)]), waiters[1..])
  }

  function NotifyJoins(s: State): State {
    if s.pendingJoins != 0 then s else Release(s.(joinWaiters := []), s.joinWaiters)
  }

  /** `WaitForThreadJoins` for one callback of the executor registry. */
  function Route(s: State, c: Callback): State {
    if c.receiver in s.dead then s.(dropped := s.dropped + [c])
    else NotifyJoins(s.(joinWaiters := s.joinWaiters + [c]))
  }

  function PassOn(s: State, waiters: seq<Callback>): State
    decreases |waiters|
  {
    if waiters == [] then s else PassOn(Route(s, waiters[0]), waiters[1..])
  }

  function NotifyExecutors(s: State): State {
    if s.owners != {} then s else PassOn(s.(executorWaiters := []), s.executorWaiters)
  }

  /** Executors built together; threads that exist already are not new. */
  function Built(s: State, built: set<Thread>): State {
    var added := built - s.phase.Keys;
    s.(phase := s.phase + (map b | b in added :: Running), owners := s.owners + added)
  }

  /** The thread object is gone: one join less, and one executor less if it ran an executor. */
  function Retired(s: State, t: Thread): State {
    s.(phase := s.phase[t := Gone], pendingJoins := s.pendingJoins - 1, owners := s.owners - {t})
  }

  /** Between the bookkeeping and the notifications the callbacks of the join run. */
  function Joined(s: State, t: Thread, built: set<Thread>): State {
    Built(Retired(s, t), built)
  }

  function Enlist(s: State, c: Callback): State {
    s.(executorWaiters := s.executorWaiters + [c], registered := s.registered + [c])
  }

  function Step(s: State, e: Event): State {
    match e
    case NewExecutor(t) =>
      if t in s.phase then s else s.(phase := s.phase[t := Running], owners := s.owners + {t})
    case ThreadFinishes(t) =>
      if In(s, t, Running) && t in s.owners then s.(phase := s.phase[t := FinishedQueued]) else s
    case HandleFinished(t) =>
      if In(s, t, FinishedQueued) then s.(phase := s.phase[t := Joining], pendingJoins := s.pendingJoins + 1) else s
    case JoinOther(t) =>
      if t in s.phase then s else s.(phase := s.phase[t := Joining], pendingJoins := s.pendingJoins + 1)
    case JoinReturns(t) => if In(s, t, Joining) then s.(phase := s.phase[t := JoinedQueued]) else s
    case HandleJoined(t, built) =>
      if !In(s, t, JoinedQueued) then s
      else
        NotifyJoins(if t in s.owners then NotifyExecutors(Joined(s, t, built)) else Joined(s, t, built))
    case ShutdownAll(receiver) =>
      NotifyExecutors(Enlist(s, Callback(|s.registered|, receiver)))
    case ReceiverDies(receiver) => s.(dead := s.dead + {receiver})
  }

  function Run(events: seq<Event>): State
    decreases |events|
  {
    if events == [] then START else Step(Run(events[..|events| - 1]), events[|events| - 1])
  }

  /** Joins begun and not finished. */
  function OpenJoins(phase: map<Thread, Phase>): set<Thread> {
    set t | t in phase && (phase[t].Joining? || phase[t].JoinedQueued?)
  }

  function PostedCallbacks(posts: seq<Post>): (r: seq<Callback>)
    ensures |r| == |posts|
  {
    seq(|posts|, i requires 0 <= i < |posts| => posts[i].callback)
  }

  /** Callbacks that have left both registries. */
  function Out(s: State): multiset<Callback> {
    multiset(PostedCallbacks(s.posted)) + multiset(s.dropped)
  }

  /** Callbacks that are no longer with the executor registry. */
  function Settled(s: State): multiset<Callback> {
    multiset(s.joinWaiters) + Out(s)
  }

  /** Every callback is in exactly one place. */
  ghost predicate Conserved(s: State) {
    multiset(s.registered) == Placed(s)
  }

  function Placed(s: State): multiset<Callback> {
    multiset(s.executorWaiters) + Settled(s)
  }

  ghost predicate CountedThreads(s: State) {
    && s.pendingJoins == |OpenJoins(s.phase)|
    && (forall t :: t in s.owners ==> t in s.phase && !s.phase[t].Gone?)
    && (forall t :: t in s.phase && (s.phase[t].Running? || s.phase[t].FinishedQueued?) ==> t in s.owners)
  }

  ghost predicate Counted(s: State) {
    && CountedThreads(s)
    && NoneLeft(s)
    && (s.owners == {} ==> s.executorWaiters == [])
    && (forall i :: 0 <= i < |s.registered| ==> s.registered[i].id == i)
  }

  /** Posts happen with no join open, drops only for dead receivers. */
  ghost predicate Justified(s: State) {
    && (forall i :: 0 <= i < |s.posted| ==> s.posted[i].joins == 0)
    && (forall i :: 0 <= i < |s.dropped| ==> s.dropped[i].receiver in s.dead)
  }

  ghost predicate Inv(s: State) {
    Conserved(s) && Counted(s) && Justified(s)
  }

  // ---- The effect of the notifications ----

  /** The parts of the state that a notification leaves alone. */
  ghost predicate SameThreads(s: State, t: State) {
    t.phase == s.phase && t.owners == s.owners && t.pendingJoins == s.pendingJoins && t.dead == s.dead
    && t.registered == s.registered
  }

  /** What a notification adds: posts made now, drops of dead receivers. */
  ghost predicate Notified(s: State, t: State) {
    && SameThreads(s, t)
    && (Justified(s) ==> Justified(t))
    && s.posted <= t.posted
    && (forall i :: |s.posted| <= i < |t.posted| ==> t.posted[i].executors == s.owners)
  }

  /** Without an open join nobody waits for one. */
  ghost predicate NoneLeft(s: State) {
    s.pendingJoins == 0 ==> s.joinWaiters == []
  }

  lemma NotifiedThen(s: State, t: State, u: State)
    requires Notified(s, t) && Notified(t, u)
    ensures Notified(s, u)
  {
  }

  lemma ReleaseOne(s: State, c: Callback)
    requires s.pendingJoins == 0
    ensures var t := if c.receiver in s.dead then s.(dropped := s.dropped + [c])
                     else s.(posted := s.posted + [Post(c, s.owners, s.pendingJoins)]);
      Notified(s, t) && Out(t) == Out(s) + multiset{c}
  {
    var p := Post(c, s.owners, s.pendingJoins);
    assert PostedCallbacks(s.posted + [p]) == PostedCallbacks(s.posted) + [c];
  }

  predicate AnyAlive(dead: set<Receiver>, waiters: seq<Callback>) {
    exists i :: 0 <= i < |waiters| && waiters[i].receiver !in dead
  }

  lemma AnyAliveHead(dead: set<Receiver>, waiters: seq<Callback>)
    requires waiters != []
    ensures AnyAlive(dead, waiters) <==> (waiters[0].receiver !in dead || AnyAlive(dead, waiters[1..]))
  {
    if AnyAlive(dead, waiters) && waiters[0].receiver in dead {
      var i :| 0 <= i < |waiters| && waiters[i].receiver !in dead;
      assert waiters[1..][i - 1].receiver !in dead;
    }
  }

  lemma {:induction false} ReleaseEffect(s: State, waiters: seq<Callback>)
    requires s.pendingJoins == 0
    ensures var t := Release(s, waiters);
      Notified(s, t) && t.executorWaiters == s.executorWaiters && t.joinWaiters == s.joinWaiters
      && Out(t) == Out(s) + multiset(waiters)
      && (AnyAlive(s.dead, waiters) <==> |s.posted| < |t.posted|)
    decreases |waiters|
  {
    if waiters != [] {
      var c := waiters[0];
      assert waiters == [c] + waiters[1..];
      ReleaseOne(s, c);
      var next := if c.receiver in s.dead then s.(dropped := s.dropped + [c])
                  else s.(posted := s.posted + [Post(c, s.owners, s.pendingJoins)]);
      hide Out, Justified, AnyAlive;
      ReleaseEffect(next, waiters[1..]);
      AnyAliveHead(s.dead, waiters);
      NotifiedThen(s, next, Release(next, waiters[1..]));
    }
  }

  lemma NotifyJoinsEffect(s: State)
    ensures var t := NotifyJoins(s);
      && Notified(s, t) && t.executorWaiters == s.executorWaiters
      && t.joinWaiters == (if s.pendingJoins == 0 then [] else s.joinWaiters)
      && Settled(t) == Settled(s) && Placed(t) == Placed(s)
      && (s.pendingJoins == 0 && AnyAlive(s.dead, s.joinWaiters) <==> |s.posted| < |t.posted|)
  {
    if s.pendingJoins == 0 {
      var open := s.(joinWaiters := []);
      ReleaseEffect(open, s.joinWaiters);
      assert Out(open) == Out(s);
      hide Release, Out, Justified;
    }
  }

  lemma DropEffect(s: State, c: Callback)
    requires c.receiver in s.dead
    ensures var t := s.(dropped := s.dropped + [c]);
      Notified(s, t) && Settled(t) == Settled(s) + multiset{c}
  {
    hide PostedCallbacks;
  }

  lemma JoinEffect(s: State, c: Callback)
    ensures var t := s.(joinWaiters := s.joinWaiters + [c]);
      Notified(s, t) && Settled(t) == Settled(s) + multiset{c}
  {
    assert Out(s.(joinWaiters := s.joinWaiters + [c])) == Out(s);
    hide Out;
  }

  lemma RouteEffect(s: State, c: Callback)
    ensures var t := Route(s, c);
      && Notified(s, t) && t.executorWaiters == s.executorWaiters
      && (NoneLeft(s) ==> NoneLeft(t))
      && Settled(t) == Settled(s) + multiset{c}
  {
    if c.receiver in s.dead {
      DropEffect(s, c);
      hide NotifyJoins, Settled, Out, Justified, PostedCallbacks;
    } else {
      var joined := s.(joinWaiters := s.joinWaiters + [c]);
      JoinEffect(s, c);
      NotifyJoinsEffect(joined);
      hide NotifyJoins, Settled, Out, PostedCallbacks, Justified;
      NotifiedThen(s, joined, NotifyJoins(joined));
    }
  }

  lemma {:induction false} PassOnEffect(s: State, waiters: seq<Callback>)
    ensures var t := PassOn(s, waiters);
      && Notified(s, t) && t.executorWaiters == s.executorWaiters
      && (NoneLeft(s) ==> NoneLeft(t))
      && Settled(t) == Settled(s) + multiset(waiters)
    decreases |waiters|
  {
    hide Route, Settled, Justified;
    if waiters != [] {
      var c := waiters[0];
      assert waiters == [c] + waiters[1..];
      RouteEffect(s, c);
      PassOnEffect(Route(s, c), waiters[1..]);
      NotifiedThen(s, Route(s, c), PassOn(Route(s, c), waiters[1..]));
    }
  }

  lemma NotifyExecutorsEffect(s: State)
    ensures var t := NotifyExecutors(s);
      && Notified(s, t)
      && (NoneLeft(s) ==> NoneLeft(t))
      && t.executorWaiters == (if s.owners == {} then [] else s.executorWaiters)
      && Placed(t) == Placed(s)
      && (s.owners != {} ==> t == s)
  {
    if s.owners == {} {
      var open := s.(executorWaiters := []);
      PassOnEffect(open, s.executorWaiters);
      assert Settled(open) == Settled(s);
      hide PassOn, Settled, Justified;
    }
  }

  // ---- Every step keeps the invariant ----

  predicate Open(phase: map<Thread, Phase>, t: Thread) {
    t in phase && (phase[t].Joining? || phase[t].JoinedQueued?)
  }

  lemma OpenUpdate(phase: map<Thread, Phase>, t: Thread, p: Phase)
    ensures |OpenJoins(phase[t := p])| == |OpenJoins(phase)| - (if Open(phase, t) then 1 else 0)
                                          + (if p.Joining? || p.JoinedQueued? then 1 else 0)
  {
    var before := OpenJoins(phase);
    assert (t in before) == Open(phase, t);
    assert OpenJoins(phase[t := p]) == if p.Joining? || p.JoinedQueued? then before + {t} else before - {t};
  }

  /** A step that touches only threads. */
  lemma ThreadStep(s: State, n: State, t: Thread, p: Phase)
    requires Inv(s) && n == s.(phase := s.phase[t := p], owners := n.owners, pendingJoins := n.pendingJoins)
    requires n.pendingJoins == s.pendingJoins - (if Open(s.phase, t) then 1 else 0)
                               + (if p.Joining? || p.JoinedQueued? then 1 else 0)
    requires p.Running? || p.FinishedQueued? ==> t in n.owners
    requires n.owners == s.owners - {t} || (!p.Gone? && (n.owners == s.owners || n.owners == s.owners + {t}))
    ensures Conserved(n) && Justified(n) && CountedThreads(n)
  {
    OpenUpdate(s.phase, t, p);
    assert Placed(n) == Placed(s);
  }

  lemma BuiltSame(s: State, built: set<Thread>)
    ensures var n := Built(s, built);
      n == s.(phase := n.phase, owners := n.owners) && s.owners <= n.owners && n.owners <= s.owners + built
  {
  }

  lemma BuiltKeeps(s: State, built: set<Thread>)
    requires Conserved(s) && Justified(s) && CountedThreads(s)
    ensures var n := Built(s, built); Conserved(n) && Justified(n) && CountedThreads(n)
  {
    var n := Built(s, built);
    assert OpenJoins(n.phase) == OpenJoins(s.phase);
    assert Placed(n) == Placed(s);
    hide Placed, OpenJoins;
  }

  lemma HandleJoinedInv(s: State, t: Thread, built: set<Thread>)
    requires Inv(s) && In(s, t, JoinedQueued)
    ensures Inv(Step(s, HandleJoined(t, built)))
  {
    hide Placed, Settled, Out, OpenJoins, NotifyExecutors, NotifyJoins, Justified, Built;
    var j := Joined(s, t, built);
    ThreadStep(s, Retired(s, t), t, Gone);
    BuiltKeeps(Retired(s, t), built);
    BuiltSame(Retired(s, t), built);
    var m := if t in s.owners then NotifyExecutors(j) else j;
    NotifyExecutorsEffect(j);
    NotifyJoinsEffect(m);
    assert Step(s, HandleJoined(t, built)) == NotifyJoins(m);
  }

  lemma ShutdownAllInv(s: State, r: Receiver)
    requires Inv(s)
    ensures Inv(Step(s, ShutdownAll(r)))
  {
    hide Placed, Settled, Out, OpenJoins, NotifyExecutors, Justified;
    var c := Callback(|s.registered|, r);
    var e := Enlist(s, c);
    EnlistConserved(s, c);
    NotifyExecutorsEffect(e);
  }

  lemma EnlistConserved(s: State, c: Callback)
    requires Conserved(s) && Justified(s)
    ensures Conserved(Enlist(s, c)) && Justified(Enlist(s, c))
  {
    var e := Enlist(s, c);
    assert Settled(e) == Settled(s);
    assert multiset(e.executorWaiters) == multiset(s.executorWaiters) + multiset{c};
    assert multiset(e.registered) == multiset(s.registered) + multiset{c};
    hide Settled, Enlist;
  }

  lemma PhaseInv(s: State, e: Event)
    requires Inv(s) && !e.HandleJoined? && !e.ShutdownAll? && !e.ReceiverDies?
    ensures Inv(Step(s, e))
  {
    hide NotifyJoins, NotifyExecutors, Conserved, Justified, OpenJoins;
    var n := Step(s, e);
    if n != s {
      ThreadStep(s, n, e.thread, n.phase[e.thread]);
    }
  }

  lemma StepInv(s: State, e: Event)
    requires Inv(s)
    ensures Inv(Step(s, e))
  {
    if e.ShutdownAll? {
      ShutdownAllInv(s, e.receiver);
    } else if e.ReceiverDies? {
      assert Placed(Step(s, e)) == Placed(s);
    } else if !e.HandleJoined? {
      PhaseInv(s, e);
    } else if In(s, e.thread, JoinedQueued) {
      HandleJoinedInv(s, e.thread, e.built);
    }
  }

  lemma {:induction false} RunInv(events: seq<Event>)
    ensures Inv(Run(events))
    decreases |events|
  {
    if events != [] {
      hide Inv;
      RunInv(events[..|events| - 1]);
      StepInv(Run(events[..|events| - 1]), events[|events| - 1]);
    }
  }

  // ---- Main results ----

  lemma {:induction false} DistinctIds(callbacks: seq<Callback>, c: Callback)
    requires forall i :: 0 <= i < |callbacks| ==> callbacks[i].id == i
    ensures multiset(callbacks)[c] <= 1
    decreases |callbacks|
  {
    if callbacks != [] {
      var n := |callbacks| - 1;
      assert callbacks == callbacks[..n] + [callbacks[n]];
      DistinctIds(callbacks[..n], c);
      assert forall i :: 0 <= i < n ==> callbacks[..n][i].id != callbacks[n].id;
    }
  }

  lemma TwoPlaces(callbacks: seq<Callback>, i: nat, j: nat)
    requires i < j < |callbacks| && callbacks[i] == callbacks[j]
    ensures multiset(callbacks)[callbacks[i]] >= 2
  {
    assert callbacks == callbacks[..j] + callbacks[j..];
    assert callbacks[..j][i] == callbacks[j..][0];
  }

  /** In every run the counter is the number of joins begun and not finished, and posts find it at zero. */
  lemma JoinsCounted(events: seq<Event>)
    ensures var s := Run(events);
      s.pendingJoins == |OpenJoins(s.phase)| && forall i :: 0 <= i < |s.posted| ==> s.posted[i].joins == 0
  {
    RunInv(events);
  }

  /** Only registered callbacks are posted. */
  lemma PostedWasRegistered(events: seq<Event>, i: nat)
    requires i < |Run(events).posted|
    ensures Run(events).posted[i].callback in Run(events).registered
  {
    hide Run;
    var s := Run(events);
    RunInv(events);
    var callbacks := PostedCallbacks(s.posted);
    assert callbacks[i] in multiset(callbacks);
    assert callbacks[i] in multiset(s.registered);
  }

  /** No callback is posted twice. */
  lemma PostedOnce(events: seq<Event>, i: nat, j: nat)
    requires i < j < |Run(events).posted|
    ensures Run(events).posted[i].callback != Run(events).posted[j].callback
  {
    hide Run;
    var s := Run(events);
    RunInv(events);
    var callbacks := PostedCallbacks(s.posted);
    DistinctIds(s.registered, callbacks[i]);
    if callbacks[i] == callbacks[j] {
      TwoPlaces(callbacks, i, j);
    }
  }

  /** Once no executor is registered and no join is open, every callback is posted or its receiver is dead. */
  lemma AllServed(events: seq<Event>, k: nat)
    requires var s := Run(events); k < |s.registered| && s.owners == {} && s.pendingJoins == 0
    ensures var s := Run(events);
      s.registered[k].receiver in s.dead || exists i :: 0 <= i < |s.posted| && s.posted[i].callback == s.registered[k]
  {
    hide Run;
    var s := Run(events);
    RunInv(events);
    var c := s.registered[k];
    assert c in multiset(s.registered);
    assert c in Out(s);
    if c in s.dropped {
      var i :| 0 <= i < |s.dropped| && s.dropped[i] == c;
    } else {
      var i :| 0 <= i < |s.posted| && PostedCallbacks(s.posted)[i] == c;
    }
  }

  /** The step ends the last join for a live waiter while an executor is registered. */
  predicate Late(s: State, e: Event) {
    e.HandleJoined? && In(s, e.thread, JoinedQueued) && s.pendingJoins == 1
    && Joined(s, e.thread, e.built).owners != {} && AnyAlive(s.dead, s.joinWaiters)
  }

  ghost predicate OnlyDrained(s: State) {
    forall i :: 0 <= i < |s.posted| ==> s.posted[i].executors == {}
  }

  lemma HandleJoinedPosts(s: State, t: Thread, built: set<Thread>)
    requires Inv(s) && In(s, t, JoinedQueued)
    ensures OnlyDrained(Step(s, HandleJoined(t, built))) <==> OnlyDrained(s) && !Late(s, HandleJoined(t, built))
  {
    hide Placed, Settled, Out, OpenJoins, NotifyExecutors, NotifyJoins, Conserved, AnyAlive, Built;
    var j := Joined(s, t, built);
    BuiltSame(Retired(s, t), built);
    var m := if t in s.owners then NotifyExecutors(j) else j;
    NotifyExecutorsEffect(j);
    NotifyJoinsEffect(m);
    var n := NotifyJoins(m);
    assert j.owners == {} ==> forall i :: |s.posted| <= i < |n.posted| ==> n.posted[i].executors == {};
    assert j.owners != {} ==> m == j;
    assert Late(s, HandleJoined(t, built)) ==> n.posted[|s.posted|].executors != {};
  }

  lemma StepPosts(s: State, e: Event)
    requires Inv(s)
    ensures OnlyDrained(Step(s, e)) <==> OnlyDrained(s) && !Late(s, e)
  {
    hide Placed, Settled, Out, OpenJoins, NotifyExecutors, NotifyJoins, Conserved, AnyAlive;
    if e.HandleJoined? && In(s, e.thread, JoinedQueued) {
      HandleJoinedPosts(s, e.thread, e.built);
    } else if e.ShutdownAll? {
      NotifyExecutorsEffect(Enlist(s, Callback(|s.registered|, e.receiver)));
    }
  }


  ghost predicate NeverLate(events: seq<Event>) {
    forall k :: 0 <= k < |events| ==> !Late(Run(events[..k]), events[k])
  }

  lemma NeverLateSnoc(front: seq<Event>, e: Event)
    ensures NeverLate(front + [e]) <==> NeverLate(front) && !Late(Run(front), e)
  {
    hide Run, Late;
    var events := front + [e];
    assert events[..|front|] == front && events[|front|] == e;
    assert forall k :: 0 <= k < |front| ==> front[..k] == events[..k] && front[k] == events[k];
    if NeverLate(front) && !Late(Run(front), e) {
      forall k | 0 <= k < |events| ensures !Late(Run(events[..k]), events[k]) {
        if k < |front| {
          assert !Late(Run(front[..k]), front[k]);
        }
      }
    }
  }

  /** Callbacks find no registered executor exactly when no step was late. */
  lemma {:induction false} PostsFindNoExecutor(events: seq<Event>)
    ensures OnlyDrained(Run(events)) <==> NeverLate(events)
    decreases |events|
  {
    if events != [] {
      hide Step, Inv, Late, OnlyDrained, NeverLate;
      var n := |events| - 1;
      PostsFindNoExecutor(events[..n]);
      RunInv(events[..n]);
      StepPosts(Run(events[..n]), events[n]);
      NeverLateSnoc(events[..n], events[n]);
      assert events == events[..n] + [events[n]];
    }
  }

  predicate Builds(e: Event) {
    e.NewExecutor? || (e.HandleJoined? && e.built != {})
  }

  /** Executors are built only while nobody waits for joins. */
  ghost predicate NoneBuiltWhileWaiting(events: seq<Event>) {
    forall k :: 0 <= k < |events| && Builds(events[k]) ==> Run(events[..k]).joinWaiters == []
  }

  lemma StepKeepsApart(s: State, e: Event)
    requires Inv(s) && (s.joinWaiters != [] ==> s.owners == {}) && (Builds(e) ==> s.joinWaiters == [])
    ensures var n := Step(s, e); !Late(s, e) && (n.joinWaiters != [] ==> n.owners == {})
  {
    hide Placed, Settled, Out, OpenJoins, NotifyExecutors, NotifyJoins, Conserved, Built;
    if e.HandleJoined? && In(s, e.thread, JoinedQueued) {
      var j := Joined(s, e.thread, e.built);
      BuiltSame(Retired(s, e.thread), e.built);
      NotifyExecutorsEffect(j);
      NotifyJoinsEffect(if e.thread in s.owners then NotifyExecutors(j) else j);
    } else if e.ShutdownAll? {
      NotifyExecutorsEffect(Enlist(s, Callback(|s.registered|, e.receiver)));
    }
  }

  /** Without such executors every callback is posted with both registries empty. */
  lemma {:induction false} PostsFindAllDrained(events: seq<Event>)
    requires NoneBuiltWhileWaiting(events)
    ensures OnlyDrained(Run(events)) && (Run(events).joinWaiters != [] ==> Run(events).owners == {})
    decreases |events|
  {
    if events != [] {
      var n := |events| - 1;
      var front := events[..n];
      assert forall k :: 0 <= k < n ==> front[..k] == events[..k] && front[k] == events[k];
      hide Step, Inv, Late, OnlyDrained;
      PostsFindAllDrained(front);
      RunInv(front);
      StepKeepsApart(Run(front), events[n]);
      StepPosts(Run(front), events[n]);
    }
  }

  lemma RunSnoc(front: seq<Event>, e: Event)
    ensures Run(front + [e]) == Step(Run(front), e)
  {
    assert (front + [e])[..|front|] == front;
  }

  lemma WaitingIsLate(s: State)
    requires s.phase == map[1 := Joining] && s.pendingJoins == 1 && s.dead == {} && s.joinWaiters == [Callback(0, 7)]
    ensures Late(Step(Step(s, NewExecutor(2)), JoinReturns(1)), HandleJoined(1, {}))
  {
    var t := Step(Step(s, NewExecutor(2)), JoinReturns(1));
    assert 2 in Joined(t, 1, {}).owners;
    assert t.joinWaiters[0].receiver !in t.dead;
  }

  /** A callback registered while a thread is being joined waits for that join. */
  lemma CallbackWaits()
    ensures var s := Run([JoinOther(1), ShutdownAll(7)]);
      s.phase == map[1 := Joining] && s.pendingJoins == 1 && s.dead == {} && s.joinWaiters == [Callback(0, 7)]
  {
    var c := Callback(0, 7);
    assert [] + [JoinOther(1)] == [JoinOther(1)];
    assert [JoinOther(1)] + [ShutdownAll(7)] == [JoinOther(1), ShutdownAll(7)];
    RunSnoc([], JoinOther(1));
    RunSnoc([JoinOther(1)], ShutdownAll(7));
    var s1 := Run([JoinOther(1)]);
    assert s1 == START.(phase := map[1 := Joining], pendingJoins := 1);
    assert Enlist(s1, c).executorWaiters == [c];
    var s := Enlist(s1, c).(executorWaiters := []);
    assert PassOn(s, [c]) == PassOn(Route(s, c), []) by { assert [c][1..] == []; }
    assert s.joinWaiters + [c] == [c];
  }

  /** An executor built while a callback waits for a join is still registered when the callback is posted. */
  lemma PostedBesideAnExecutor()
    ensures !OnlyDrained(Run([JoinOther(1), ShutdownAll(7), NewExecutor(2), JoinReturns(1), HandleJoined(1, {})]))
  {
    hide Run, Step, Inv, Late, OnlyDrained;
    var events := [JoinOther(1), ShutdownAll(7)];
    CallbackWaits();
    WaitingIsLate(Run(events));
    RunSnoc(events, NewExecutor(2));
    RunSnoc(events + [NewExecutor(2)], JoinReturns(1));
    RunSnoc(events + [NewExecutor(2)] + [JoinReturns(1)], HandleJoined(1, {}));
    RunInv(events + [NewExecutor(2)] + [JoinReturns(1)]);
    StepPosts(Run(events + [NewExecutor(2)] + [JoinReturns(1)]), HandleJoined(1, {}));
    assert events + [NewExecutor(2)] + [JoinReturns(1)] + [HandleJoined(1, {})]
        == [JoinOther(1), ShutdownAll(7), NewExecutor(2), JoinReturns(1), HandleJoined(1, {})];
  }

  // ---- Every thread can be drained ----

  /** A thread from whatever phase it is in to its end. */
  function Ending(s: State, t: Thread): State {
    Step(Step(Step(Step(s, ThreadFinishes(t)), HandleFinished(t)), JoinReturns(t)), HandleJoined(t, {}))
  }

  lemma NothingBuilt(s: State)
    ensures Built(s, {}) == s
  {
    assert s.phase + (map b | b in ({} - s.phase.Keys) :: Running) == s.phase;
  }

  lemma ThreadJoins(s: State, t: Thread)
    requires Inv(s) && t in s.phase && !s.phase[t].Gone?
    ensures var j := Step(Step(Step(s, ThreadFinishes(t)), HandleFinished(t)), JoinReturns(t));
      && Inv(j) && j == s.(phase := s.phase[t := JoinedQueued], pendingJoins := j.pendingJoins)
  {
    hide Conserved, Justified, OpenJoins;
    var a := Step(s, ThreadFinishes(t));
    var b := Step(a, HandleFinished(t));
    StepInv(s, ThreadFinishes(t));
    StepInv(a, HandleFinished(t));
    StepInv(b, JoinReturns(t));
    assert a.phase == if s.phase[t].Running? then s.phase[t := FinishedQueued] else s.phase;
    assert b.phase[t].Joining? || b.phase[t].JoinedQueued?;
    assert b.phase == s.phase[t := b.phase[t]];
  }

  lemma ThreadEnds(s: State, t: Thread)
    requires Inv(s) && t in s.phase && !s.phase[t].Gone?
    ensures var u := Ending(s, t);
      Inv(u) && u.phase == s.phase[t := Gone] && u.registered == s.registered && u.dead == s.dead
  {
    hide Inv, Conserved, Justified, OpenJoins, Step, Joined;
    ThreadJoins(s, t);
    var j := Step(Step(Step(s, ThreadFinishes(t)), HandleFinished(t)), JoinReturns(t));
    StepInv(j, HandleJoined(t, {}));
    JoinEnds(j, t);
    assert j.phase[t := Gone] == s.phase[t := Gone];
  }

  lemma JoinEnds(j: State, t: Thread)
    requires In(j, t, JoinedQueued)
    ensures var u := Step(j, HandleJoined(t, {}));
      u.phase == j.phase[t := Gone] && u.registered == j.registered && u.dead == j.dead
  {
    NothingBuilt(Retired(j, t));
    var k := Joined(j, t, {});
    assert k == Retired(j, t);
    var m := if t in j.owners then NotifyExecutors(k) else k;
    assert Step(j, HandleJoined(t, {})) == NotifyJoins(m);
    hide Step, NotifyJoins, NotifyExecutors, Built, Joined, Justified, Settled, Placed;
    NotifyExecutorsEffect(k);
    NotifyJoinsEffect(m);
  }

  function Unfinished(s: State): set<Thread> {
    set t | t in s.phase && !s.phase[t].Gone?
  }

  /**
   * Every registered callback can be served: from every state of every run, letting the existing threads end one after
   * the other empties both registries, and every callback is then posted or its receiver dead.
   */
  lemma DrainsCompletely(events: seq<Event>) returns (more: seq<Event>)
    ensures var s := Run(events); var t := Run(events + more);
      && t.registered == s.registered && t.dead == s.dead && t.owners == {} && t.pendingJoins == 0
      && forall k :: 0 <= k < |s.registered| ==>
           s.registered[k].receiver in s.dead
           || exists i :: 0 <= i < |t.posted| && t.posted[i].callback == s.registered[k]
    decreases |Unfinished(Run(events))|
  {
    var s := Run(events);
    RunInv(events);
    hide Run, Inv, Step, Ending;
    if t :| t in s.phase && !s.phase[t].Gone? {
      var four := [ThreadFinishes(t)] + [HandleFinished(t)] + [JoinReturns(t)] + [HandleJoined(t, {})];
      FourSteps(events, t);
      ThreadEnds(s, t);
      OneLess(s, Run(events + four), t);
      var rest := DrainsCompletely(events + four);
      more := four + rest;
      assert events + four + rest == events + more;
    } else {
      more := [];
      assert events + more == events;
      AllGone(s);
      forall k | 0 <= k < |s.registered|
        ensures s.registered[k].receiver in s.dead
                || exists i :: 0 <= i < |s.posted| && s.posted[i].callback == s.registered[k]
      {
        AllServed(events, k);
      }
    }
  }

  lemma OneLess(s: State, u: State, t: Thread)
    requires t in s.phase && !s.phase[t].Gone? && u.phase == s.phase[t := Gone]
    ensures |Unfinished(u)| < |Unfinished(s)|
  {
    assert t in Unfinished(s);
    assert Unfinished(u) == Unfinished(s) - {t};
  }

  lemma AllGone(s: State)
    requires Inv(s) && forall t :: t in s.phase ==> s.phase[t].Gone?
    ensures s.owners == {} && s.pendingJoins == 0
  {
    assert OpenJoins(s.phase) == {};
  }

  lemma FourSteps(events: seq<Event>, t: Thread)
    ensures Run(events + ([ThreadFinishes(t)] + [HandleFinished(t)] + [JoinReturns(t)] + [HandleJoined(t, {})]))
         == Ending(Run(events), t)
  {
    hide Run, Step;
    var a := events + [ThreadFinishes(t)];
    var b := a + [HandleFinished(t)];
    var c := b + [JoinReturns(t)];
    RunSnoc(events, ThreadFinishes(t));
    RunSnoc(a, HandleFinished(t));
    RunSnoc(b, JoinReturns(t));
    RunSnoc(c, HandleJoined(t, {}));
    assert c + [HandleJoined(t, {})]
        == events + ([ThreadFinishes(t)] + [HandleFinished(t)] + [JoinReturns(t)] + [HandleJoined(t, {})]);
  }

  // ---- Dead receivers ----

  /** How many callbacks were posted to a receiver. */
  function PostsTo(posts: seq<Post>, r: Receiver): nat {
    if posts == [] then 0
    else PostsTo(posts[..|posts| - 1], r) + if posts[|posts| - 1].callback.receiver == r then 1 else 0
  }

  lemma {:induction false} ReleaseDead(s: State, waiters: seq<Callback>, r: Receiver)
    requires r in s.dead
    ensures PostsTo(Release(s, waiters).posted, r) == PostsTo(s.posted, r) && Release(s, waiters).dead == s.dead
    decreases |waiters|
  {
    if waiters != [] {
      var c := waiters[0];
      var p := s.posted + [Post(c, s.owners, s.pendingJoins)];
      assert p[..|p| - 1] == s.posted;
      ReleaseDead(if c.receiver in s.dead then s.(dropped := s.dropped + [c]) else s.(posted := p), waiters[1..], r);
    }
  }

  lemma {:induction false} PassOnDead(s: State, waiters: seq<Callback>, r: Receiver)
    requires r in s.dead
    ensures PostsTo(PassOn(s, waiters).posted, r) == PostsTo(s.posted, r) && PassOn(s, waiters).dead == s.dead
    decreases |waiters|
  {
    if waiters != [] {
      var c := waiters[0];
      var joined := s.(joinWaiters := s.joinWaiters + [c]);
      ReleaseDead(joined.(joinWaiters := []), joined.joinWaiters, r);
      hide Release, PostsTo;
      PassOnDead(Route(s, c), waiters[1..], r);
    }
  }

  lemma StepDead(s: State, e: Event, r: Receiver)
    requires r in s.dead
    ensures PostsTo(Step(s, e).posted, r) == PostsTo(s.posted, r) && r in Step(s, e).dead
  {
    hide Release, PassOn, PostsTo;
    if e.HandleJoined? && In(s, e.thread, JoinedQueued) {
      var j := Joined(s, e.thread, e.built);
      PassOnDead(j.(executorWaiters := []), j.executorWaiters, r);
      var m := if e.thread in s.owners then NotifyExecutors(j) else j;
      ReleaseDead(m.(joinWaiters := []), m.joinWaiters, r);
    } else if e.ShutdownAll? {
      var n := Enlist(s, Callback(|s.registered|, e.receiver));
      PassOnDead(n.(executorWaiters := []), n.executorWaiters, r);
    }
  }

  /** Nothing is posted to a receiver after it died. */
  lemma {:induction false} DeadReceiverGetsNothing(events: seq<Event>, r: Receiver, later: seq<Event>)
    ensures PostsTo(Run(events + [ReceiverDies(r)] + later).posted, r) == PostsTo(Run(events).posted, r)
    ensures r in Run(events + [ReceiverDies(r)] + later).dead
    decreases |later|
  {
    hide PostsTo, Run;
    if later == [] {
      assert events + [ReceiverDies(r)] + later == events + [ReceiverDies(r)];
      RunSnoc(events, ReceiverDies(r));
    } else {
      hide Step;
      var n := |later| - 1;
      DeadReceiverGetsNothing(events, r, later[..n]);
      assert events + [ReceiverDies(r)] + later == events + [ReceiverDies(r)] + later[..n] + [later[n]];
      RunSnoc(events + [ReceiverDies(r)] + later[..n], later[n]);
      StepDead(Run(events + [ReceiverDies(r)] + later[..n]), later[n], r);
    }
  }

  /** Only receivers that died are dead. */
  lemma {:induction false} DeadReceiversDied(events: seq<Event>, r: Receiver)
    requires r in Run(events).dead
    ensures ReceiverDies(r) in events
    decreases |events|
  {
    if events != [] && events[|events| - 1] != ReceiverDies(r) {
      StepAddsNoDead(Run(events[..|events| - 1]), events[|events| - 1]);
      DeadReceiversDied(events[..|events| - 1], r);
    }
  }

  lemma StepAddsNoDead(s: State, e: Event)
    ensures Step(s, e).dead == if e.ReceiverDies? then s.dead + {e.receiver} else s.dead
  {
    hide NotifyJoins, NotifyExecutors;
    if e.HandleJoined? {
      var j := Joined(s, e.thread, e.built);
      NotifyExecutorsEffect(j);
      NotifyJoinsEffect(if e.thread in s.owners then NotifyExecutors(j) else j);
    } else if e.ShutdownAll? {
      NotifyExecutorsEffect(Enlist(s, Callback(|s.registered|, e.receiver)));
    }
  }

  /** What the invariant says to a user of the registries. */
  lemma Consequences(s: State)
    requires Inv(s)
    ensures s.pendingJoins == |OpenJoins(s.phase)|
    ensures s.owners == {} && s.pendingJoins == 0 ==> s.executorWaiters == [] && s.joinWaiters == []
  {
    hide Conserved, Justified;
  }

  // ---- The registries ----

  /** The executor registry and the thread-join registry, with the event queue they post to. */
  class Registries {
    var phase: map<Thread, Phase>
    var owners: set<Thread>
    var executorWaiters: seq<Callback>
    var pendingJoins: int
    var joinWaiters: seq<Callback>
    var dead: set<Receiver>
    var registered: seq<Callback>
    var posted: seq<Post>
    var dropped: seq<Callback>

    /** The invariant of every run: callbacks conserved, joins counted, posts justified. */
    ghost predicate Valid()
      reads this
    {
      Inv(View())
    }

    constructor ()
      ensures Valid() && View() == START
    {
      phase, owners, executorWaiters, pendingJoins, joinWaiters := map[], {}, [], 0, [];
      dead, registered, posted, dropped := {}, [], [], [];
    }

    ghost function View(): State
      reads this
    {
      State(phase, owners, executorWaiters, pendingJoins, joinWaiters, dead, registered, posted, dropped)
    }

    /** Posts the callbacks that wait for joins, if no join is open. */
    method NotifyIfJoined()
      modifies this
      ensures View() == NotifyJoins(old(View()))
    {
      if pendingJoins != 0 {
        return;
      }
      var ready := joinWaiters;
      joinWaiters := [];
      for i := 0 to |ready|
        invariant Release(View(), ready[i..]) == NotifyJoins(old(View()))
      {
        var c := ready[i];
        assert ready[i..][0] == c && ready[i..][1..] == ready[i + 1..];
        if c.receiver in dead {
          dropped := dropped + [c];
        } else {
          posted := posted + [Post(c, owners, pendingJoins)];
        }
      }
    }

    method WaitForThreadJoins(c: Callback)
      modifies this
      ensures View() == NotifyJoins(old(View()).(joinWaiters := old(joinWaiters) + [c]))
    {
      joinWaiters := joinWaiters + [c];
      NotifyIfJoined();
    }

    /** Hands the executor registry's callbacks on, if no executor is registered. */
    method NotifyIfDrained()
      modifies this
      ensures View() == NotifyExecutors(old(View()))
    {
      hide NotifyJoins;
      if owners != {} {
        return;
      }
      var ready := executorWaiters;
      executorWaiters := [];
      for i := 0 to |ready|
        invariant PassOn(View(), ready[i..]) == NotifyExecutors(old(View()))
      {
        var c := ready[i];
        assert ready[i..][0] == c && ready[i..][1..] == ready[i + 1..];
        if c.receiver in dead {
          dropped := dropped + [c];
        } else {
          WaitForThreadJoins(c);
        }
      }
    }

    /** Starts joining a thread: an executor's that has finished, or another component's. */
    method JoinThreadAsync(t: Thread)
      requires Valid() && (t !in phase || phase[t] == FinishedQueued)
      modifies this
      ensures Valid() && View() == Step(old(View()), if t in old(phase) then HandleFinished(t) else JoinOther(t))
      ensures pendingJoins == |OpenJoins(phase)|
    {
      hide Inv, OpenJoins, NotifyJoins, NotifyExecutors;
      ghost var e := if t in phase then HandleFinished(t) else JoinOther(t);
      StepInv(View(), e);
      Consequences(Step(View(), e));
      pendingJoins := pendingJoins + 1;
      phase := phase[t := Joining];
    }

    /** The bookkeeping of a finished join. */
    method OnJoined(t: Thread, built: set<Thread>)
      requires Valid() && In(View(), t, JoinedQueued)
      modifies this
      ensures Valid() && View() == Step(old(View()), HandleJoined(t, built))
      ensures pendingJoins == |OpenJoins(phase)|
      ensures owners == {} && pendingJoins == 0 ==> executorWaiters == [] && joinWaiters == []
    {
      hide NotifyJoins, NotifyExecutors, Inv, OpenJoins;
      StepInv(View(), HandleJoined(t, built));
      Consequences(Step(View(), HandleJoined(t, built)));
      var wasExecutor := t in owners;
      phase := phase[t := Gone];
      pendingJoins := pendingJoins - 1;
      owners := owners - {t};
      // The join's own callbacks run here.
      var added := built - phase.Keys;
      phase := phase + (map b | b in added :: Running);
      owners := owners + added;
      if wasExecutor {
        NotifyIfDrained();
      }
      NotifyIfJoined();
    }

    method ShutdownAll(receiver: Receiver)
      requires Valid()
      modifies this
      ensures Valid() && View() == Step(old(View()), Event.ShutdownAll(receiver))
      ensures owners == {} && pendingJoins == 0 ==> executorWaiters == [] && joinWaiters == []
    {
      hide NotifyExecutors, Inv, OpenJoins;
      StepInv(View(), Event.ShutdownAll(receiver));
      Consequences(Step(View(), Event.ShutdownAll(receiver)));
      var c := Callback(|registered|, receiver);
      executorWaiters := executorWaiters + [c];
      registered := registered + [c];
      NotifyIfDrained();
    }
  }
}
