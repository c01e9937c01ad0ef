/** The cache against the chain: registration, snapshot, buffered and live events in every interleaving. */
module ChainSync {
  import opened Options
  import opened BlockClockHistory

  /** Notifications in the order the node issues them. Events of a background chainstate are `Historical`. */
  datatype ChainEvent = Connect(hash: Hash) | Disconnect(hash: Hash) | Historical(hash: Hash)

  /** The active chain after a log of events. */
  function Chain(log: seq<ChainEvent>): seq<Hash>
    decreases |log|
  {
    if log == [] then []
    else
      var before := Chain(log[..|log| - 1]);
      match log[|log| - 1]
      case Connect(h) => before + [h]
      case Disconnect(_) => if before == [] then [] else before[..|before| - 1]
      case Historical(_) => before
  }

  /** A node connects blocks that are not in the chain and disconnects only the tip. */
  ghost predicate Lawful(log: seq<ChainEvent>)
    decreases |log|
  {
    log == [] ||
    (var n := |log| - 1;
     && Lawful(log[..n])
     && match log[n]
        case Connect(h) => h !in Chain(log[..n])
        case Disconnect(h) => Chain(log[..n]) != [] && Chain(log[..n])[|Chain(log[..n])| - 1] == h
        case Historical(_) => true)
  }

  /** Whether the last event on `h` among log[from..until] connected it; None if there is none. */
  function LastEvent(log: seq<ChainEvent>, from: nat, until: nat, h: Hash): Option<bool>
    requires from <= until <= |log|
    decreases until
  {
    if from == until then None
    else
      match log[until - 1]
      case Connect(x) => if x == h then Some(true) else LastEvent(log, from, until - 1, h)
      case Disconnect(x) => if x == h then Some(false) else LastEvent(log, from, until - 1, h)
      case Historical(_) => LastEvent(log, from, until - 1, h)
  }

  predicate Decided(last: Option<bool>, otherwise: bool) {
    match last
    case Some(connected) => connected
    case None => otherwise
  }

  ghost predicate NoRepeats(s: seq<Hash>) {
    forall i, j :: 0 <= i < j < |s| ==> s[i] != s[j]
  }

  lemma {:induction false} ChainNoRepeats(log: seq<ChainEvent>)
    requires Lawful(log)
    ensures NoRepeats(Chain(log))
    decreases |log|
  {
    if log != [] {
      ChainNoRepeats(log[..|log| - 1]);
    }
  }

  lemma LawfulPrefix(log: seq<ChainEvent>, n: nat)
    requires Lawful(log) && n <= |log|
    ensures Lawful(log[..n])
    decreases |log|
  {
    if n < |log| {
      assert log[..|log| - 1][..n] == log[..n];
      LawfulPrefix(log[..|log| - 1], n);
    } else {
      assert log[..n] == log;
    }
  }

  /** The last event on a block since any earlier moment decides whether it is active; without one, nothing changed. */
  lemma {:induction false} LastEventDecides(log: seq<ChainEvent>, from: nat, until: nat, h: Hash)
    requires from <= until <= |log| && Lawful(log[..until])
    ensures h in Chain(log[..until]) <==> Decided(LastEvent(log, from, until, h), h in Chain(log[..from]))
    decreases until
  {
    if from < until {
      var was := log[..until - 1];
      assert log[..until][..until - 1] == was;
      LastEventDecides(log, from, until - 1, h);
      ChainNoRepeats(was);
      var tip := |Chain(was)| - 1;
      if log[until - 1].Disconnect? {
        assert Chain(log[..until]) == Chain(was)[..tip];
        assert Chain(was) == Chain(was)[..tip] + [Chain(was)[tip]];
      }
    }
  }

  /** Everything that happens: the node's log, how much of it was dispatched, and the subscription's progress. */
  datatype World = World(
    log: seq<ChainEvent>,
    delivered: nat,
    boundary: Option<int>,     // retention boundary read before registering
    registered: Option<nat>,   // dispatch position at registration
    anchor: Option<nat>,       // log position at which the best block was taken
    cache: Cache,
    highWater: int)            // largest retention boundary ever set

  datatype Event =
    | ChainMoves(e: ChainEvent)
    | Dispatch
    | ReadBoundary
    | Register
    | TakeAnchor
    | Install
    | SetRetention(start: int)
    | StopCache

  const START := World([], 0, None, None, None, EMPTY, 0)

  /** The blocks that the ancestor walk collects from the anchor. */
  ghost function Snapshot(w: World, time: Hash -> int): map<Hash, int>
    requires w.anchor.Some? && w.anchor.value <= |w.log| && w.boundary.Some?
  {
    var chain := Chain(w.log[..w.anchor.value]);
    map h | h in chain && time(h) >= w.boundary.value :: time(h)
  }

  ghost function Deliver(c: Cache, e: ChainEvent, time: Hash -> int): Cache {
    match e
    case Connect(h) => Recorded(c, h, time(h), true)
    case Disconnect(h) => Recorded(c, h, time(h), false)
    case Historical(_) => c
  }

  ghost function Step(w: World, e: Event, time: Hash -> int): World {
    match e
    case ChainMoves(m) => if Lawful(w.log + [m]) then w.(log := w.log + [m]) else w
    case Dispatch =>
      if w.delivered >= |w.log| then w
      else w.(delivered := w.delivered + 1,
              cache := if w.registered.Some? then Deliver(w.cache, w.log[w.delivered], time) else w.cache)
    case ReadBoundary =>
      if w.boundary.Some? || w.cache.stopped then w else w.(boundary := Some(w.cache.retention))
    case Register =>
      if w.boundary.None? || w.registered.Some? then w else w.(registered := Some(w.delivered))
    case TakeAnchor =>
      if w.registered.None? || w.anchor.Some? then w else w.(anchor := Some(|w.log|))
    case Install =>
      if w.anchor.None? || w.boundary.None? || w.anchor.value > |w.log| then w
      else w.(cache := Initialized(w.cache, Snapshot(w, time)))
    case SetRetention(start) =>
      w.(cache := WithRetention(w.cache, start), highWater := if start > w.highWater then start else w.highWater)
    case StopCache => w.(cache := Stopped(w.cache))
  }

  ghost function Run(events: seq<Event>, time: Hash -> int): World
    decreases |events|
  {
    if events == [] then START else Step(Run(events[..|events| - 1], time), events[|events| - 1], time)
  }

  ghost predicate Positions(w: World) {
    && Lawful(w.log)
    && w.delivered <= |w.log|
    && (w.registered.Some? ==> w.boundary.Some? && w.registered.value <= w.delivered)
    && (w.anchor.Some? ==> w.registered.Some? && w.registered.value <= w.anchor.value <= |w.log|)
    && (w.cache.initialized ==> w.anchor.Some?)
    && (w.registered.None? ==> w.cache.pending == map[])
    && w.cache.retention <= w.highWater && (w.boundary.Some? ==> w.boundary.value <= w.highWater)
    && (!w.cache.initialized ==> w.cache.blocks == map[])
    && (w.cache.initialized || w.cache.stopped ==> w.cache.pending == map[])
  }

  // ---- One block under a moving boundary ----

  /**
   * What matters of the past of a block: the dispatch position `since` which the boundary has not been past the
   * block, the last event on the block that was heard before, and whether the boundary was past it after the
   * snapshot was installed.
   */
  datatype Sight = Sight(since: nat, heard: Option<bool>, cutLive: bool)

  /** The boundary is past a block: its events are ignored. */
  predicate Blind(w: World, time: Hash -> int, h: Hash) {
    w.cache.retention > time(h)
  }

  ghost function NextSight(w: World, g: Sight, e: Event, time: Hash -> int, h: Hash): Sight
    requires g.since <= w.delivered <= |w.log|
  {
    var t := Step(w, e, time);
    match e
    case Register => if w.registered.None? && t.registered.Some? then Sight(w.delivered, None, false) else g
    case Install => if t.cache.initialized && Blind(w, time, h) then g.(cutLive := true) else g
    case SetRetention(_) =>
      if Blind(t, time, h) then
        if Blind(w, time, h) then g
        else
          var last := LastEvent(w.log, g.since, w.delivered, h);
          Sight(g.since, if last.Some? then last else g.heard, g.cutLive || w.cache.initialized)
      else if Blind(w, time, h) then g.(since := w.delivered)
      else g
    case _ => g
  }

  lemma NextSightBehind(w: World, g: Sight, e: Event, time: Hash -> int, h: Hash)
    requires g.since <= w.delivered <= |w.log|
    ensures var t := Step(w, e, time); NextSight(w, g, e, time, h).since <= t.delivered <= |t.log|
  {
    hide Deliver, WithRetention, Initialized, Snapshot, LastEvent, Lawful;
  }

  /** The view of `h` after a run. */
  ghost function SightAfter(events: seq<Event>, time: Hash -> int, h: Hash): (g: Sight)
    ensures g.since <= Run(events, time).delivered <= |Run(events, time).log|
    decreases |events|
  {
    if events == [] then Sight(0, None, false)
    else
      var n := |events| - 1;
      NextSightBehind(Run(events[..n], time), SightAfter(events[..n], time, h), events[n], time, h);
      NextSight(Run(events[..n], time), SightAfter(events[..n], time, h), events[n], time, h)
  }

  /** What the cache goes by until an event on the block is heard again. */
  ghost predicate Remembered(w: World, g: Sight, time: Hash -> int, h: Hash)
    requires Positions(w) && w.anchor.Some?
  {
    !g.cutLive && g.heard != Some(false) && time(h) >= w.boundary.value && h in Chain(w.log[..w.anchor.value])
  }

  /** What is buffered about the block before the snapshot is installed. */
  ghost predicate Buffers(c: Cache, news: Option<bool>, time: int, h: Hash) {
    match news
    case None => h !in c.pending
    case Some(true) => h in c.pending && c.pending[h] == Some(time)
    case Some(false) => h in c.pending && c.pending[h] == None
  }

  /** The exact content of the cache for one block, whatever the boundary did. */
  ghost predicate Sees(w: World, g: Sight, time: Hash -> int, h: Hash)
    requires Positions(w) && w.registered.Some? && g.since <= w.delivered
  {
    var kept := if g.heard == Some(false) then g.heard else None;
    var last := LastEvent(w.log, g.since, w.delivered, h);
    && w.registered.value <= g.since
    && (!w.cache.initialized ==> !g.cutLive)
    && (!w.cache.initialized ==>
          Buffers(w.cache, if Blind(w, time, h) || last.None? then kept else last, time(h), h))
    && (w.cache.initialized && Blind(w, time, h) ==> g.cutLive && h !in w.cache.blocks)
    && (w.cache.initialized && !Blind(w, time, h) ==>
          (h in w.cache.blocks <==> Decided(last, Remembered(w, g, time, h))))
  }

  ghost predicate Inv(w: World, time: Hash -> int) {
    && Positions(w)
    && (forall h :: h in w.cache.blocks ==> w.cache.blocks[h] == time(h) && time(h) >= w.cache.retention)
    && (forall h :: h in w.cache.pending && w.cache.pending[h].Some? ==> w.cache.pending[h].value == time(h))
  }

  lemma StepPositions(w: World, e: Event, time: Hash -> int)
    requires Positions(w)
    ensures Positions(Step(w, e, time))
  {
  }

  lemma StepBlocks(w: World, e: Event, time: Hash -> int)
    requires Inv(w, time)
    ensures Inv(Step(w, e, time), time)
  {
    StepPositions(w, e, time);
    hide Chain, Lawful;
  }

  lemma {:induction false} RunInv(events: seq<Event>, time: Hash -> int)
    ensures Inv(Run(events, time), time)
    decreases |events|
  {
    if events != [] {
      RunInv(events[..|events| - 1], time);
      StepBlocks(Run(events[..|events| - 1], time), events[|events| - 1], time);
    }
  }

  /** An event is dispatched to the registered cache. */
  lemma DispatchSees(w: World, g: Sight, time: Hash -> int, h: Hash)
    requires Inv(w, time) && w.registered.Some? && !w.cache.stopped && w.delivered < |w.log|
    requires g.since <= w.delivered && Sees(w, g, time, h)
    ensures var t := Step(w, Dispatch, time); Positions(t) && Sees(t, g, time, h)
  {
    hide Chain, Lawful;
  }

  lemma InstallSees(w: World, g: Sight, time: Hash -> int, h: Hash)
    requires Inv(w, time) && w.registered.Some? && !w.cache.stopped && w.anchor.Some?
    requires g.since <= w.delivered && Sees(w, g, time, h)
    ensures var t := Step(w, Install, time); Positions(t) && Sees(t, NextSight(w, g, Install, time, h), time, h)
  {
    hide Chain, Lawful, LastEvent;
  }

  lemma RetentionSees(w: World, g: Sight, time: Hash -> int, start: int, h: Hash)
    requires Inv(w, time) && w.registered.Some? && !w.cache.stopped
    requires g.since <= w.delivered && Sees(w, g, time, h)
    ensures var t := Step(w, SetRetention(start), time);
      Positions(t) && Sees(t, NextSight(w, g, SetRetention(start), time, h), time, h)
  {
    hide Chain, Lawful;
  }

  /** Growing the log changes neither the past events nor the past chain. */
  lemma ChainMovesSees(w: World, g: Sight, time: Hash -> int, m: ChainEvent, h: Hash)
    requires Inv(w, time) && w.registered.Some? && !w.cache.stopped && Lawful(w.log + [m])
    requires g.since <= w.delivered && Sees(w, g, time, h)
    ensures var t := Step(w, ChainMoves(m), time); Positions(t) && Sees(t, g, time, h)
  {
    var t := Step(w, ChainMoves(m), time);
    LastEventGrows(w.log, m, g.since, w.delivered, h);
    if w.anchor.Some? {
      assert t.log[..w.anchor.value] == w.log[..w.anchor.value];
    }
  }

  lemma {:induction false} LastEventGrows(log: seq<ChainEvent>, m: ChainEvent, from: nat, until: nat, h: Hash)
    requires from <= until <= |log|
    ensures LastEvent(log + [m], from, until, h) == LastEvent(log, from, until, h)
    decreases until
  {
    if from < until {
      LastEventGrows(log, m, from, until - 1, h);
    }
  }

  lemma StepSees(w: World, g: Sight, e: Event, time: Hash -> int, h: Hash)
    requires Inv(w, time) && g.since <= w.delivered
    requires w.registered.Some? && !w.cache.stopped ==> Sees(w, g, time, h)
    ensures var t := Step(w, e, time);
      Positions(t) && (t.registered.Some? && !t.cache.stopped ==> Sees(t, NextSight(w, g, e, time, h), time, h))
  {
    var t := Step(w, e, time);
    StepPositions(w, e, time);
    if t.registered.Some? && !t.cache.stopped {
      match e
      case ChainMoves(m) =>
        if Lawful(w.log + [m]) {
          ChainMovesSees(w, g, time, m, h);
        }
      case Dispatch =>
        if w.delivered < |w.log| {
          DispatchSees(w, g, time, h);
        }
      case Install =>
        if w.anchor.Some? {
          InstallSees(w, g, time, h);
        }
      case SetRetention(start) => RetentionSees(w, g, time, start, h);
      case ReadBoundary =>
      case Register =>
      case TakeAnchor =>
      case StopCache =>
    }
  }

  lemma {:induction false} RunSees(events: seq<Event>, time: Hash -> int, h: Hash)
    ensures var w := Run(events, time);
      Positions(w) && (w.registered.Some? && !w.cache.stopped ==> Sees(w, SightAfter(events, time, h), time, h))
    decreases |events|
  {
    if events != [] {
      hide Sees, Step, NextSight;
      var n := |events| - 1;
      RunSees(events[..n], time, h);
      RunInv(events[..n], time);
      StepSees(Run(events[..n], time), SightAfter(events[..n], time, h), events[n], time, h);
    }
  }

  // ---- Main results ----

  lemma {:induction false} LastEventSplit(log: seq<ChainEvent>, r: nat, a: nat, d: nat, h: Hash)
    requires r <= a <= d <= |log|
    ensures LastEvent(log, r, d, h) ==
      if LastEvent(log, a, d, h).Some? then LastEvent(log, a, d, h) else LastEvent(log, r, a, h)
    decreases d
  {
    if a < d {
      LastEventSplit(log, r, a, d - 1, h);
    }
  }

  /** The cache has its snapshot, and dispatch has passed the snapshot's anchor. */
  predicate Settled(w: World) {
    w.cache.initialized && !w.cache.stopped && w.anchor.Some? && w.delivered >= w.anchor.value
  }

  /** Whether what the cache goes by is right: the condition on the past of a block without news since. */
  ghost predicate StillRight(w: World, g: Sight, time: Hash -> int, h: Hash)
    requires Positions(w) && w.anchor.Some? && g.since <= |w.log|
  {
    if g.cutLive || g.heard == Some(false) || time(h) < w.boundary.value then h !in Chain(w.log[..g.since])
    else g.since <= w.anchor.value || (h in Chain(w.log[..w.anchor.value]) <==> h in Chain(w.log[..g.since]))
  }

  lemma QuietSinceAnchor(w: World, since: nat, h: Hash)
    requires Positions(w) && w.anchor.Some? && since <= w.anchor.value <= w.delivered
    requires LastEvent(w.log, since, w.delivered, h).None?
    ensures h in Chain(w.log[..w.anchor.value]) <==> h in Chain(w.log[..since])
  {
    LastEventSplit(w.log, since, w.anchor.value, w.delivered, h);
    LawfulPrefix(w.log, w.anchor.value);
    LastEventDecides(w.log, since, w.anchor.value, h);
  }

  /**
   * In every run, for every block inside the retained range, whatever the boundary did: cache and dispatched chain
   * agree on the block if and only if an event on it was dispatched since the boundary was last past it, or it was
   * not active at that point and the cache goes by nothing, or the snapshot's word on it still held at that point.
   */
  lemma CacheAgrees(events: seq<Event>, time: Hash -> int, h: Hash)
    requires Settled(Run(events, time)) && !Blind(Run(events, time), time, h)
    ensures var w := Run(events, time); var g := SightAfter(events, time, h);
      && Positions(w)
      && ((h in w.cache.blocks <==> h in Chain(w.log[..w.delivered]))
          <==> LastEvent(w.log, g.since, w.delivered, h).Some? || StillRight(w, g, time, h))
  {
    hide Run, SightAfter;
    var w, g := Run(events, time), SightAfter(events, time, h);
    RunSees(events, time, h);
    LawfulPrefix(w.log, w.delivered);
    LastEventDecides(w.log, g.since, w.delivered, h);
    if LastEvent(w.log, g.since, w.delivered, h).None? && g.since <= w.anchor.value {
      QuietSinceAnchor(w, g.since, h);
    }
  }

  lemma StepInSight(w: World, g: Sight, e: Event, time: Hash -> int, h: Hash)
    requires Positions(w) && g.since <= w.delivered && time(h) >= Step(w, e, time).highWater
    requires w.registered.Some? ==> g == Sight(w.registered.value, None, false)
    ensures var t := Step(w, e, time);
      w.highWater <= t.highWater
      && (t.registered.Some? ==> NextSight(w, g, e, time, h) == Sight(t.registered.value, None, false))
  {
    StepPositions(w, e, time);
    hide Chain, Lawful, LastEvent, Deliver, Initialized, Snapshot;
  }

  /** A block that no boundary ever passed has been in sight since registration. */
  lemma {:induction false} AlwaysInSight(events: seq<Event>, time: Hash -> int, h: Hash)
    requires time(h) >= Run(events, time).highWater
    ensures var w := Run(events, time); var g := SightAfter(events, time, h);
      w.registered.Some? ==> g == Sight(w.registered.value, None, false)
    decreases |events|
  {
    if events != [] {
      hide Step, NextSight, Positions;
      var n := |events| - 1;
      RunInv(events[..n], time);
      HighWaterGrows(Run(events[..n], time), events[n], time);
      AlwaysInSight(events[..n], time, h);
      StepInSight(Run(events[..n], time), SightAfter(events[..n], time, h), events[n], time, h);
    }
  }

  lemma HighWaterGrows(w: World, e: Event, time: Hash -> int)
    ensures w.highWater <= Step(w, e, time).highWater
  {
  }

  /** In every run, a block at or above every retention boundary set so far is cached exactly if it is in the active
      chain as dispatched. */
  lemma CacheFollowsChain(events: seq<Event>, time: Hash -> int, h: Hash)
    requires Settled(Run(events, time)) && time(h) >= Run(events, time).highWater
    ensures var w := Run(events, time);
      w.delivered <= |w.log| && (h in w.cache.blocks <==> h in Chain(w.log[..w.delivered]))
  {
    hide Run, SightAfter;
    RunInv(events, time);
    AlwaysInSight(events, time, h);
    CacheAgrees(events, time, h);
  }

  /** With a retention boundary that never moved back, the cache is exactly the active chain from the boundary on. */
  lemma CacheExact(events: seq<Event>, time: Hash -> int)
    requires Settled(Run(events, time)) && Run(events, time).highWater == Run(events, time).cache.retention
    ensures var w := Run(events, time);
      && w.delivered <= |w.log|
      && w.cache.blocks == map h | h in Chain(w.log[..w.delivered]) && time(h) >= w.cache.retention :: time(h)
  {
    RunInv(events, time);
    var w := Run(events, time);
    var chain := Chain(w.log[..w.delivered]);
    forall h | time(h) >= w.highWater
      ensures h in w.cache.blocks <==> h in chain
    {
      CacheFollowsChain(events, time, h);
    }
    assert forall h :: h in w.cache.blocks <==> h in chain && time(h) >= w.cache.retention;
  }

  /** The ancestor walk over the anchor's path computes the snapshot this state machine installs. */
  lemma WalkIsSnapshot(w: World, time: Hash -> int, path: seq<Block>, collected: map<Hash, int>)
    requires w.anchor.Some? && w.anchor.value <= |w.log| && w.boundary.Some?
    requires var chain := Chain(w.log[..w.anchor.value]);
      |path| == |chain| && forall i :: 0 <= i < |chain| ==> path[i] == Block(chain[i], time(chain[i]))
    requires RecentFrom(path, 0, w.boundary.value, collected)
    ensures collected == Snapshot(w, time)
  {
    var chain := Chain(w.log[..w.anchor.value]);
    forall h | h in chain && time(h) >= w.boundary.value
      ensures h in collected && collected[h] == time(h)
    {
      var i :| 0 <= i < |chain| && chain[i] == h;
      assert path[i].time >= w.boundary.value;
    }
  }

  /** The boundary passes a cached block and returns: the block is gone although the chain did not change. */
  lemma RetentionMovedBack(w: World, time: Hash -> int, h: Hash, ahead: int, back: int)
    requires Inv(w, time) && !w.cache.stopped && h in w.cache.blocks
    requires back <= time(h) < ahead
    ensures var t := Step(Step(w, SetRetention(ahead), time), SetRetention(back), time);
      t.log == w.log && t.cache.retention == back && time(h) >= back && h !in t.cache.blocks
  {
  }

  /** A disconnect that is dispatched while the boundary is past the block leaves no trace in the buffer. */
  lemma MissedDisconnect(w: World, time: Hash -> int, h: Hash, ahead: int, back: int)
    requires Positions(w) && !w.cache.stopped && !w.cache.initialized && w.registered.Some?
    requires h !in w.cache.pending && w.delivered < |w.log| && w.log[w.delivered] == Disconnect(h)
    requires back <= time(h) < ahead
    ensures var t := Step(Step(Step(w, SetRetention(ahead), time), Dispatch, time), SetRetention(back), time);
      && t == w.(cache := t.cache, delivered := w.delivered + 1, highWater := t.highWater)
      && h !in t.cache.pending && t.cache.retention == back && !t.cache.stopped && !t.cache.initialized
  {
    hide Chain, Lawful;
    var a := Step(w, SetRetention(ahead), time);
    assert a.cache.retention == ahead && h !in a.cache.pending;
    assert Step(a, Dispatch, time) == a.(delivered := w.delivered + 1);
  }

  /** The boundary passes a block while its disconnect is dispatched into the buffer: the snapshot then brings back a
      block that is no longer active. */
  lemma PhantomBlock(w: World, time: Hash -> int, h: Hash, ahead: int, back: int)
    requires Positions(w) && !w.cache.stopped && !w.cache.initialized && w.anchor.Some?
    requires h in Chain(w.log[..w.anchor.value]) && h !in w.cache.pending && w.boundary.value <= time(h)
    requires w.delivered < |w.log| && w.log[w.delivered] == Disconnect(h) && back <= time(h) < ahead
    ensures var t := Step(Step(Step(Step(w, SetRetention(ahead), time), Dispatch, time), SetRetention(back), time),
        Install, time);
      h in t.cache.blocks && t.delivered <= |t.log| && h !in Chain(t.log[..t.delivered])
  {
    LawfulPrefix(w.log, w.delivered + 1);
    LastEventDecides(w.log, w.delivered, w.delivered + 1, h);
    MissedDisconnect(w, time, h, ahead, back);
    var c := Step(Step(Step(w, SetRetention(ahead), time), Dispatch, time), SetRetention(back), time);
    InstallBrings(c, time, h);
    hide Chain, Lawful, Step;
  }

  lemma InstallBrings(c: World, time: Hash -> int, h: Hash)
    requires c.anchor.Some? && c.anchor.value <= |c.log| && c.boundary.Some? && !c.cache.stopped && !c.cache.initialized
    requires h in Chain(c.log[..c.anchor.value]) && h !in c.cache.pending
    requires c.boundary.value <= time(h) && c.cache.retention <= time(h)
    ensures var t := Step(c, Install, time); h in t.cache.blocks && t.log == c.log && t.delivered == c.delivered
  {
    hide Chain;
  }

  // ---- Background blocks and a stopped cache ----

  /** A background chainstate may connect any block at any time; the active chain and the cache do not notice. */
  lemma HistoricalUnnoticed(w: World, time: Hash -> int, h: Hash)
    requires Positions(w)
    ensures var moved := Step(w, ChainMoves(Historical(h)), time);
      moved == w.(log := w.log + [Historical(h)]) && Chain(moved.log) == Chain(w.log)
    ensures w.delivered < |w.log| && w.log[w.delivered] == Historical(h) ==>
      Step(w, Dispatch, time).cache == w.cache
  {
    assert (w.log + [Historical(h)])[..|w.log|] == w.log;
  }

  lemma StepFrozen(w: World, e: Event, time: Hash -> int)
    requires w.cache.stopped && w.cache.pending == map[]
    ensures Step(w, e, time).cache == w.cache
  {
    hide Lawful, Snapshot, Chain;
  }

  lemma {:induction false} FrozenOnceStopped(front: seq<Event>, rest: seq<Event>, time: Hash -> int)
    requires Run(front, time).cache.stopped && Run(front, time).cache.pending == map[]
    ensures Run(front + rest, time).cache == Run(front, time).cache
    decreases |rest|
  {
    hide Step, Run;
    if rest == [] {
      assert front + rest == front;
    } else {
      var n := |rest| - 1;
      FrozenOnceStopped(front, rest[..n], time);
      assert front + rest == front + rest[..n] + [rest[n]];
      RunSnoc(front + rest[..n], rest[n], time);
      StepFrozen(Run(front + rest[..n], time), rest[n], time);
    }
  }

  /** Whatever happens after the cache is stopped, its blocks, boundary and flags stay, and it buffers nothing. */
  lemma StoppedForGood(front: seq<Event>, rest: seq<Event>, time: Hash -> int)
    ensures Run(front + [StopCache] + rest, time).cache
         == Run(front, time).cache.(stopped := true, pending := map[])
  {
    RunSnoc(front, StopCache, time);
    FrozenOnceStopped(front + [StopCache], rest, time);
    hide Run;
  }

  lemma RunSnoc(front: seq<Event>, e: Event, time: Hash -> int)
    ensures Run(front + [e], time) == Step(Run(front, time), e, time)
  {
    assert (front + [e])[..|front|] == front;
  }

  const SETUP: seq<Event> :=
    [ChainMoves(Connect(1)), Dispatch, ReadBoundary, Register, TakeAnchor, ChainMoves(Disconnect(1))]

  lemma TwoEvents()
    ensures Lawful([Connect(1)]) && Chain([Connect(1)]) == [1] && Lawful([Connect(1), Disconnect(1)])
  {
    assert [Connect(1)][..0] == [] && Chain([]) == [];
    assert [Connect(1), Disconnect(1)][..1] == [Connect(1)];
  }

  lemma ConnectRun(time: Hash -> int)
    ensures Run([ChainMoves(Connect(1)), Dispatch, ReadBoundary], time)
         == World([Connect(1)], 1, Some(0), None, None, EMPTY, 0)
  {
    TwoEvents();
    RunNone(time);
    hide Chain, Lawful, Run;
    var e1, e2 := [ChainMoves(Connect(1))], [ChainMoves(Connect(1)), Dispatch];
    assert [] + [Connect(1)] == [Connect(1)];
    assert [] + [ChainMoves(Connect(1))] == e1 && e1 + [Dispatch] == e2;
    assert e2 + [ReadBoundary] == [ChainMoves(Connect(1)), Dispatch, ReadBoundary];
    RunSnoc([], ChainMoves(Connect(1)), time);
    RunSnoc(e1, Dispatch, time);
    RunSnoc(e2, ReadBoundary, time);
  }

  /** A block is connected before the registration and disconnected after the anchor was taken. */
  lemma SetupRun(time: Hash -> int)
    ensures Run(SETUP, time) == World([Connect(1), Disconnect(1)], 1, Some(0), Some(1), Some(1), EMPTY, 0)
  {
    TwoEvents();
    ConnectRun(time);
    hide Chain, Lawful, Run;
    var e3 := [ChainMoves(Connect(1)), Dispatch, ReadBoundary];
    assert [Connect(1)] + [Disconnect(1)] == [Connect(1), Disconnect(1)];
    RunSnoc(e3, Register, time);
    RunSnoc(e3 + [Register], TakeAnchor, time);
    RunSnoc(e3 + [Register] + [TakeAnchor], ChainMoves(Disconnect(1)), time);
    assert e3 + [Register] + [TakeAnchor] + [ChainMoves(Disconnect(1))] == SETUP;
  }

  lemma RunNone(time: Hash -> int)
    ensures Run([], time) == START
  {
  }

  /** The phantom is reached by a run: the boundary moves past the block and back while the disconnect is dispatched. */
  lemma PhantomRun(time: Hash -> int)
    requires time(1) == 5
    ensures var w := Run(SETUP + [SetRetention(10)] + [Dispatch] + [SetRetention(0)] + [Install], time);
      w.delivered <= |w.log| && 1 in w.cache.blocks && 1 !in Chain(w.log[..w.delivered])
  {
    SetupRun(time);
    TwoEvents();
    RunInv(SETUP, time);
    var w := Run(SETUP, time);
    assert w.log[..1] == [Connect(1)];
    hide Run, Step, Chain;
    PhantomBlock(w, time, 1, 10, 0);
    RunSnoc(SETUP, SetRetention(10), time);
    RunSnoc(SETUP + [SetRetention(10)], Dispatch, time);
    RunSnoc(SETUP + [SetRetention(10)] + [Dispatch], SetRetention(0), time);
    RunSnoc(SETUP + [SetRetention(10)] + [Dispatch] + [SetRetention(0)], Install, time);
  }
}
