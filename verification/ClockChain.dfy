/** The block clock from the chain to the display: the node, the cache and the GUI model in one transition system. */
module ClockChain {
  import opened Options
  import opened BlockClockHistory
  import ChainSync
  import ClockModel

  /** The chain as the cache hears of it, and the GUI model with the same cache. */
  datatype State = State(world: ChainSync.World, clock: ClockModel.State)

  datatype Event =
    | Backend(sync: ChainSync.Event)   // boundaries are set by the GUI alone
    | Gui(gui: ClockModel.Event)       // the GUI thread's own steps

  const START := State(ChainSync.START, ClockModel.START)

  /** What an event of the node or its subscription does to the shared cache, in the model's terms. */
  ghost function Told(w: ChainSync.World, e: ChainSync.Event, time: Hash -> int): Option<ClockModel.Event> {
    match e
    case Dispatch =>
      if w.delivered >= |w.log| || w.registered.None? then None
      else (
        match w.log[w.delivered]
        case Connect(h) => Some(ClockModel.Record(h, time(h), true))
        case Disconnect(h) => Some(ClockModel.Record(h, time(h), false))
        case Historical(_) => None)
    case Install =>
      if w.anchor.None? || w.boundary.None? || w.anchor.value > |w.log| then None
      else Some(ClockModel.Initialize(ChainSync.Snapshot(w, time)))
    case StopCache => Some(ClockModel.StopCache)
    case _ => None
  }

  predicate OnGui(e: ClockModel.Event) {
    !e.Record? && !e.Initialize? && !e.StopCache?
  }

  /** The boundary that a step of the GUI sets: one period before the new one. */
  ghost function Boundary(s: ClockModel.State, e: ClockModel.Event): Option<int> {
    if e.UpdateTime? && ClockModel.Step(s, e).periodStart != s.periodStart
    then Some(e.period - ClockModel.PERIOD_SECONDS) else None
  }

  ghost function Step(s: State, e: Event, time: Hash -> int): State {
    match e
    case Backend(c) =>
      if c.SetRetention? then s
      else
        var told := Told(s.world, c, time);
        State(ChainSync.Step(s.world, c, time),
              if told.Some? then ClockModel.Step(s.clock, told.value) else s.clock)
    case Gui(g) =>
      if !OnGui(g) then s
      else
        var boundary := Boundary(s.clock, g);
        State(if boundary.Some? then ChainSync.Step(s.world, ChainSync.SetRetention(boundary.value), time) else s.world,
              ClockModel.Step(s.clock, g))
  }

  ghost function Run(events: seq<Event>, time: Hash -> int): State
    decreases |events|
  {
    if events == [] then START else Step(Run(events[..|events| - 1], time), events[|events| - 1], time)
  }

  // ---- Both halves are runs of their own ----

  ghost function ChainEvents(events: seq<Event>, time: Hash -> int): seq<ChainSync.Event>
    decreases |events|
  {
    if events == [] then []
    else
      var n := |events| - 1;
      var before := ChainEvents(events[..n], time);
      match events[n]
      case Backend(c) => if c.SetRetention? then before else before + [c]
      case Gui(g) =>
        var boundary := Boundary(Run(events[..n], time).clock, g);
        if OnGui(g) && boundary.Some? then before + [ChainSync.SetRetention(boundary.value)] else before
  }

  ghost function ClockEvents(events: seq<Event>, time: Hash -> int): seq<ClockModel.Event>
    decreases |events|
  {
    if events == [] then []
    else
      var n := |events| - 1;
      var before := ClockEvents(events[..n], time);
      match events[n]
      case Backend(c) =>
        var told := Told(Run(events[..n], time).world, c, time);
        if !c.SetRetention? && told.Some? then before + [told.value] else before
      case Gui(g) => if OnGui(g) then before + [g] else before
  }

  lemma {:induction false} ChainHalf(events: seq<Event>, time: Hash -> int)
    ensures Run(events, time).world == ChainSync.Run(ChainEvents(events, time), time)
    decreases |events|
  {
    hide ChainSync.Step, ClockModel.Step, Told, ChainSync.Run;
    if events == [] {
      ChainSync.RunNone(time);
    } else {
      var n := |events| - 1;
      ChainHalf(events[..n], time);
      var before := ChainEvents(events[..n], time);
      if events[n].Backend? {
        ChainSync.RunSnoc(before, events[n].sync, time);
      } else {
        var boundary := Boundary(Run(events[..n], time).clock, events[n].gui);
        if boundary.Some? {
          ChainSync.RunSnoc(before, ChainSync.SetRetention(boundary.value), time);
        }
      }
    }
  }

  lemma {:induction false} ClockHalf(events: seq<Event>, time: Hash -> int)
    ensures Run(events, time).clock == ClockModel.Run(ClockEvents(events, time))
    decreases |events|
  {
    hide ChainSync.Step, ClockModel.Step, Told, Boundary;
    if events != [] {
      var n := |events| - 1;
      ClockHalf(events[..n], time);
      var before := ClockEvents(events[..n], time);
      if events[n].Gui? {
        ClockModel.RunSnoc(before, events[n].gui);
      } else {
        var told := Told(Run(events[..n], time).world, events[n].sync, time);
        if told.Some? {
          ClockModel.RunSnoc(before, told.value);
        }
      }
    }
  }

  // ---- They speak of the same cache ----

  /** Equal but for the flag that the GUI clears. */
  predicate SameCache(c: Cache, d: Cache) {
    c.(dirty := false) == d.(dirty := false)
  }

  lemma SameOperations(c: Cache, d: Cache)
    requires SameCache(c, d)
    ensures forall h, t, connected :: SameCache(Recorded(c, h, t, connected), Recorded(d, h, t, connected))
    ensures forall snapshot :: SameCache(Initialized(c, snapshot), Initialized(d, snapshot))
    ensures forall retention :: SameCache(WithRetention(c, retention), WithRetention(d, retention))
    ensures SameCache(Stopped(c), Stopped(d))
  {
    hide Reconciled;
  }

  /** What the model does to its cache when it is told something. */
  lemma ToldCache(s: ClockModel.State, e: ClockModel.Event)
    requires !OnGui(e)
    ensures ClockModel.Step(s, e).cache == match e
      case Record(h, t, connected) => Recorded(s.cache, h, t, connected)
      case Initialize(snapshot) => Initialized(s.cache, snapshot)
      case _ => Stopped(s.cache)
  {
    hide Recorded, WithRetention, Stopped, ClockModel.Timeline, Lists;
  }

  lemma BackendSame(s: State, c: ChainSync.Event, time: Hash -> int)
    requires SameCache(s.world.cache, s.clock.cache)
    ensures var t := Step(s, Backend(c), time); SameCache(t.world.cache, t.clock.cache)
  {
    hide ChainSync.Lawful, ChainSync.Snapshot, ChainSync.Chain, ClockModel.Step, SameCache;
    hide Recorded, Initialized, Stopped, WithRetention;
    SameOperations(s.world.cache, s.clock.cache);
    var told := Told(s.world, c, time);
    if told.Some? {
      ToldCache(s.clock, told.value);
    }
  }

  /** A step of the GUI thread changes of the cache only the boundary, and the flag. */
  lemma GuiCache(s: ClockModel.State, g: ClockModel.Event)
    requires OnGui(g)
    ensures var boundary := Boundary(s, g);
      SameCache(ClockModel.Step(s, g).cache,
                if boundary.Some? then WithRetention(s.cache, boundary.value) else s.cache)
  {
    hide WithRetention, Recorded, Initialized, ClockModel.Timeline, Lists;
  }

  lemma GuiSame(s: State, g: ClockModel.Event, time: Hash -> int)
    requires SameCache(s.world.cache, s.clock.cache)
    ensures var t := Step(s, Gui(g), time); SameCache(t.world.cache, t.clock.cache)
  {
    hide WithRetention, ClockModel.Step, Boundary;
    SameOperations(s.world.cache, s.clock.cache);
    if OnGui(g) {
      GuiCache(s.clock, g);
    }
  }

  lemma {:induction false} RunSame(events: seq<Event>, time: Hash -> int)
    ensures var s := Run(events, time); SameCache(s.world.cache, s.clock.cache)
    decreases |events|
  {
    hide Step, SameCache;
    if events == [] {
      SameAtStart();
    } else {
      var n := |events| - 1;
      RunSame(events[..n], time);
      match events[n] {
        case Backend(c) => BackendSame(Run(events[..n], time), c, time);
        case Gui(g) => GuiSame(Run(events[..n], time), g, time);
      }
    }
  }

  lemma SameAtStart()
    ensures SameCache(START.world.cache, START.clock.cache)
  {
  }

  // ---- The boundary and the clock ----

  /** No time update was more than one period past `bound`. */
  ghost predicate NotBeyond(events: seq<Event>, bound: int) {
    forall e <- events :: e.Gui? && e.gui.UpdateTime? ==> e.gui.period - ClockModel.PERIOD_SECONDS <= bound
  }

  lemma {:induction false} HighWaterBound(events: seq<Event>, time: Hash -> int, bound: int)
    requires NotBeyond(events, bound) && 0 <= bound
    ensures Run(events, time).world.highWater <= bound
    decreases |events|
  {
    if events != [] {
      var n := |events| - 1;
      HighWaterBound(events[..n], time, bound);
      var s := Run(events[..n], time);
      assert events[n] in events;
      hide Run, Boundary, ClockModel.Step, Told, ChainSync.Deliver, ChainSync.Lawful, ChainSync.Snapshot;
    }
  }

  // ---- Main result ----

  /** Active blocks with one timestamp. */
  ghost function ActiveAt(chain: seq<Hash>, time: Hash -> int, t: int): nat {
    |set h | h in chain && time(h) == t|
  }

  lemma CachedAreActive(events: seq<Event>, time: Hash -> int, t: int)
    requires var s := Run(events, time);
      ChainSync.Settled(s.world) && s.world.delivered == |s.world.log| && t >= s.world.highWater
    ensures var s := Run(events, time);
      CountAt(s.clock.cache.blocks, t) == ActiveAt(ChainSync.Chain(s.world.log), time, t)
  {
    hide Run, ChainSync.Run, ChainSync.Chain;
    var s := Run(events, time);
    var chain := ChainSync.Chain(s.world.log);
    ChainHalf(events, time);
    RunSame(events, time);
    ChainSync.RunInv(ChainEvents(events, time), time);
    assert s.world.log[..s.world.delivered] == s.world.log;
    forall h | time(h) == t
      ensures h in s.clock.cache.blocks <==> h in chain
    {
      ChainSync.CacheFollowsChain(ChainEvents(events, time), time, h);
    }
    assert StampedAt(s.clock.cache.blocks, t) == set h | h in chain && time(h) == t;
  }

  /** Nothing is left to do: model attached and in its event loop, no refresh queued, all notifications dispatched. */
  predicate Quiet(s: State) {
    s.clock.attached && s.clock.pc.Idle? && s.clock.queued == 0 && s.clock.cache.initialized
    && s.world.delivered == |s.world.log|
  }

  /**
   * The display is the chain: in every run of the node, its dispatcher, the subscription and the GUI thread, whenever
   * all is quiet and the clock was never set more than one period past the one shown, the timeline is sorted and
   * holds every time of that period exactly as often as the active chain has blocks with it.
   */
  lemma ClockShowsChain(events: seq<Event>, time: Hash -> int)
    requires var s := Run(events, time); Quiet(s) && s.clock.periodStart >= 0 && NotBeyond(events, s.clock.periodStart)
    ensures var s := Run(events, time);
      && ClockModel.Sorted(s.clock.timeline)
      && forall t :: multiset(s.clock.timeline)[t] ==
           if s.clock.periodStart <= t < s.clock.periodStart + 43_200
           then ActiveAt(ChainSync.Chain(s.world.log), time, t) else 0
  {
    hide Run, ChainSync.Run, ChainSync.Chain, ActiveAt, NotBeyond, ClockModel.Run;
    var s := Run(events, time);
    ClockHalf(events, time);
    ChainHalf(events, time);
    RunSame(events, time);
    ChainSync.RunInv(ChainEvents(events, time), time);
    ClockModel.RunInv(ClockEvents(events, time));
    ClockModel.TimelineIsCurrent(ClockEvents(events, time));
    HighWaterBound(events, time, s.clock.periodStart);
    forall t | s.clock.periodStart <= t
      ensures CountAt(s.clock.cache.blocks, t) == ActiveAt(ChainSync.Chain(s.world.log), time, t)
    {
      CachedAreActive(events, time, t);
    }
  }

  // ---- It gets there ----

  /** The display owes nothing but steps that can be taken: dispatches, and handlers of the GUI thread. */
  lemma SettlingStep(s: State, time: Hash -> int) returns (e: Event)
    requires ClockModel.Inv(s.clock) && SameCache(s.world.cache, s.clock.cache)
    requires s.clock.attached && s.clock.cache.initialized && !Quiet(s) && s.world.delivered <= |s.world.log|
    ensures var t := Step(s, e, time);
      && t.world.log == s.world.log && t.clock.attached && t.clock.cache.initialized
      && t.clock.periodStart == s.clock.periodStart
      && (e.Gui? && e.gui.UpdateTime? ==> e.gui.period == s.clock.periodStart)
      && s.world.delivered <= t.world.delivered <= |t.world.log|
      && (t.world.delivered > s.world.delivered || t.clock.queued < s.clock.queued
          || (t.clock.queued == s.clock.queued
              && ClockModel.StepsLeft(t.clock.pc) < ClockModel.StepsLeft(s.clock.pc)))
  {
    hide ClockModel.Timeline, Lists, WithRetention, Recorded, ChainSync.Lawful, ChainSync.Deliver;
    if s.world.delivered < |s.world.log| {
      e := Backend(ChainSync.Dispatch);
      DispatchKeeps(s, time);
      hide Step;
    } else if s.clock.pc.Idle? {
      e := Gui(ClockModel.Wake);
    } else {
      var times := ListingExists(s.clock.cache.blocks);
      ClockModel.NextGuiAdvances(s.clock, times);
      var g := ClockModel.NextGui(s.clock, times);
      e := Gui(g);
      assert Boundary(s.clock, g).None?;
      hide ClockModel.Step;
    }
  }

  lemma DispatchKeeps(s: State, time: Hash -> int)
    requires s.world.delivered < |s.world.log| && s.clock.attached && s.clock.cache.initialized
    ensures var t := Step(s, Backend(ChainSync.Dispatch), time);
      && t.world.log == s.world.log && t.clock.attached && t.clock.cache.initialized
      && t.clock.periodStart == s.clock.periodStart && t.world.delivered == s.world.delivered + 1
  {
    hide ClockModel.Timeline, Lists, WithRetention, ChainSync.Lawful, ChainSync.Deliver;
  }

  lemma RunSnoc(front: seq<Event>, e: Event, time: Hash -> int)
    ensures Run(front + [e], time) == Step(Run(front, time), e, time)
  {
    assert (front + [e])[..|front|] == front;
  }

  lemma RunKeeps(events: seq<Event>, time: Hash -> int)
    ensures var s := Run(events, time);
      ClockModel.Inv(s.clock) && SameCache(s.world.cache, s.clock.cache) && s.world.delivered <= |s.world.log|
  {
    hide Run, ChainSync.Run, ClockModel.Run;
    ClockHalf(events, time);
    ChainHalf(events, time);
    RunSame(events, time);
    ChainSync.RunInv(ChainEvents(events, time), time);
    ClockModel.RunInv(ClockEvents(events, time));
  }

  /**
   * From every reachable state with the model attached and the snapshot installed, dispatches and steps of the GUI
   * thread alone make all quiet, with the chain and the period as they are.
   */
  lemma {:induction false} BecomesQuiet(events: seq<Event>, time: Hash -> int) returns (more: seq<Event>)
    requires Run(events, time).clock.attached && Run(events, time).clock.cache.initialized
    ensures var s, t := Run(events, time), Run(events + more, time);
      Quiet(t) && t.world.log == s.world.log && t.clock.periodStart == s.clock.periodStart
    ensures forall e <- more :: e.Gui? && e.gui.UpdateTime? ==> e.gui.period == Run(events, time).clock.periodStart
    decreases |Run(events, time).world.log| - Run(events, time).world.delivered, Run(events, time).clock.queued,
              ClockModel.StepsLeft(Run(events, time).clock.pc)
  {
    hide Run, Step, ClockModel.Inv;
    var s := Run(events, time);
    if Quiet(s) {
      more := [];
      assert events + more == events;
    } else {
      RunKeeps(events, time);
      var e := SettlingStep(s, time);
      RunSnoc(events, e, time);
      RunKeeps(events + [e], time);
      var rest := BecomesQuiet(events + [e], time);
      more := [e] + rest;
      assert events + [e] + rest == events + more;
    }
  }

  /** So the display catches up with the chain from wherever it stands. */
  lemma ClockCatchesUp(events: seq<Event>, time: Hash -> int) returns (more: seq<Event>)
    requires var s := Run(events, time);
      && s.clock.attached && s.clock.cache.initialized
      && s.clock.periodStart >= 0 && NotBeyond(events, s.clock.periodStart)
    ensures var s, t := Run(events, time), Run(events + more, time);
      && t.world.log == s.world.log && t.clock.periodStart == s.clock.periodStart
      && ClockModel.Sorted(t.clock.timeline)
      && forall x :: multiset(t.clock.timeline)[x] ==
           if s.clock.periodStart <= x < s.clock.periodStart + 43_200
           then ActiveAt(ChainSync.Chain(s.world.log), time, x) else 0
  {
    hide Run, ChainSync.Chain, ActiveAt;
    more := BecomesQuiet(events, time);
    ClockShowsChain(events + more, time);
  }
}
