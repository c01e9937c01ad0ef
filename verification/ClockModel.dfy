/** The GUI side of the block clock: coalesced wake-ups and the timeline of the current period. */
module ClockModel {
  import opened Sorting
  import opened BlockClockHistory

  const PERIOD_SECONDS: int := 12 * 60 * 60

  predicate Sorted(s: seq<int>) {
    forall i, j :: 0 <= i < j < |s| ==> s[i] <= s[j]
  }

  function TimeKey(t: int): real {
    t as real
  }

  function Sort(s: seq<int>): seq<int> {
    SortBy(s, TimeKey)
  }

  ghost predicate AllAtLeast(s: seq<int>, low: int) {
    forall i :: 0 <= i < |s| ==> s[i] >= low
  }

  lemma SortSorted(s: seq<int>)
    ensures Sorted(Sort(s)) && multiset(Sort(s)) == multiset(s)
  {
    SortBySorts(s, TimeKey);
    hide SortBy;
    var r := Sort(s);
    assert forall i, j :: 0 <= i < j < |r| ==> TimeKey(r[i]) <= TimeKey(r[j]);
  }

  predicate InPeriod(t: int, periodStart: int) {
    periodStart <= t < periodStart + PERIOD_SECONDS
  }

  function Cut(s: seq<int>, periodStart: int): seq<int> {
    if s == [] then []
    else (if InPeriod(s[0], periodStart) then [s[0]] else []) + Cut(s[1..], periodStart)
  }

  lemma {:induction false} CutAtLeast(s: seq<int>, periodStart: int, low: int)
    requires AllAtLeast(s, low)
    ensures AllAtLeast(Cut(s, periodStart), low)
  {
    if s != [] {
      CutAtLeast(s[1..], periodStart, low);
    }
  }

  lemma {:induction false} CutSorted(s: seq<int>, periodStart: int)
    requires Sorted(s)
    ensures Sorted(Cut(s, periodStart))
  {
    if s != [] {
      CutSorted(s[1..], periodStart);
      CutAtLeast(s[1..], periodStart, s[0]);
    }
  }

  lemma {:induction false} CutCount(s: seq<int>, periodStart: int, t: int)
    ensures multiset(Cut(s, periodStart))[t] == if InPeriod(t, periodStart) then multiset(s)[t] else 0
  {
    if s != [] {
      assert s == [s[0]] + s[1..];
      CutCount(s[1..], periodStart, t);
    }
  }

  /** What `replaceBlockHistory` leaves of a list of timestamps. */
  function Timeline(timestamps: seq<int>, periodStart: int): seq<int> {
    Cut(Sort(timestamps), periodStart)
  }

  /** The right timeline for a cache: sorted, and holding each timestamp of the period once per cached block. */
  ghost predicate Shows(timeline: seq<int>, blocks: map<Hash, int>, periodStart: int) {
    && Sorted(timeline)
    && forall t :: multiset(timeline)[t] == if InPeriod(t, periodStart) then CountAt(blocks, t) else 0
  }

  lemma TimelineShows(times: seq<int>, blocks: map<Hash, int>, periodStart: int)
    requires Lists(times, blocks)
    ensures Shows(Timeline(times, periodStart), blocks, periodStart)
  {
    SortSorted(times);
    CutSorted(Sort(times), periodStart);
    forall t
      ensures multiset(Timeline(times, periodStart))[t] == if InPeriod(t, periodStart) then CountAt(blocks, t) else 0
    {
      CutCount(Sort(times), periodStart, t);
    }
  }

  // ---- The two threads ----

  /** Where the GUI thread stands. Everything between two lock acquisitions is one step. */
  datatype Pc =
    | Idle
    | Woken                 // a queued refresh was taken from the event queue, the pending flag still set
    | Cleared               // flag cleared, snapshot not yet taken
    | Took                  // snapshot taken, time not yet updated
    | Retained(next: Next)  // period changed and the boundary was moved; a snapshot follows
    | Replacing             // timeline about to be rebuilt
    | Attaching             // constructor: about to install the callback
    | Starting              // constructor: before the first time update

  /** What follows the time update. */
  datatype Next = ThenIdle | ThenReplace | ThenAttach

  datatype State = State(
    cache: Cache,
    attached: bool,
    stopped: bool,            // the model, not the cache
    refreshPending: bool,
    queued: nat,              // refresh events in the GUI queue
    pc: Pc,
    cached: seq<int>,
    periodStart: int,
    timeline: seq<int>)

  datatype Event =
    // backend threads
    | Record(hash: Hash, time: int, connected: bool)
    | Initialize(snapshot: map<Hash, int>)
    | StopCache
    // GUI thread
    | Wake
    | ClearFlag
    | TakeSnapshot(times: seq<int>)
    | UpdateTime(period: int)
    | TakeAfterPeriod(times: seq<int>)
    | Replace
    | Attach
    | StopModel

  const START := State(EMPTY, false, false, false, 0, Starting, [], 0, [])

  /** The coalesced wake-up: one queued refresh at a time. */
  function Notify(s: State): State {
    if !s.attached || s.refreshPending then s else s.(refreshPending := true, queued := s.queued + 1)
  }

  function PcAfter(next: Next): Pc {
    match next
    case ThenIdle => Idle
    case ThenReplace => Replacing
    case ThenAttach => Attaching
  }

  predicate Ready(c: Cache) {
    !c.stopped && c.initialized && c.dirty
  }

  ghost function Step(s: State, e: Event): State {
    match e
    case Record(h, time, connected) =>
      var c := Recorded(s.cache, h, time, connected);
      if c.blocks == s.cache.blocks then s.(cache := c) else Notify(s.(cache := c))
    case Initialize(snapshot) =>
      var c := Initialized(s.cache, snapshot);
      if c.initialized && !s.cache.initialized then Notify(s.(cache := c)) else s
    case StopCache => s.(cache := Stopped(s.cache), attached := false)
    case Wake => if s.pc.Idle? && s.queued > 0 then s.(pc := Woken, queued := s.queued - 1) else s
    case ClearFlag => if s.pc.Woken? then s.(pc := Cleared, refreshPending := false) else s
    case TakeSnapshot(times) =>
      if !s.pc.Cleared? then s
      else if s.stopped || !Ready(s.cache) then s.(pc := Idle)
      else if !Lists(times, s.cache.blocks) then s
      else s.(pc := Took, cached := times, cache := s.cache.(dirty := false))
    case UpdateTime(period) =>
      if s.stopped || !(s.pc.Idle? || s.pc.Took? || s.pc.Starting?) then s
      else
        var next := if s.pc.Idle? then ThenIdle else if s.pc.Took? then ThenReplace else ThenAttach;
        if period == s.periodStart then s.(pc := PcAfter(next))
        else s.(pc := Retained(next), periodStart := period, cache := WithRetention(s.cache, period - PERIOD_SECONDS))
    case TakeAfterPeriod(times) =>
      if !s.pc.Retained? then s
      else if !Ready(s.cache) then s.(pc := PcAfter(s.pc.next), timeline := Timeline(s.cached, s.periodStart))
      else if !Lists(times, s.cache.blocks) then s
      else s.(pc := PcAfter(s.pc.next), cached := times, cache := s.cache.(dirty := false),
              timeline := Timeline(times, s.periodStart))
    case Replace =>
      if s.pc.Replacing? then s.(pc := Idle, timeline := Timeline(s.cached, s.periodStart)) else s
    case Attach =>
      if !s.pc.Attaching? then s
      else if s.cache.stopped then s.(pc := Idle)
      else
        var t := s.(pc := Idle, attached := true);
        if t.cache.initialized && t.cache.dirty then Notify(t) else t
    case StopModel => if s.pc.Idle? then s.(stopped := true, attached := s.cache.stopped && s.attached) else s
  }

  ghost function Run(events: seq<Event>): State
    decreases |events|
  {
    if events == [] then START else Step(Run(events[..|events| - 1]), events[|events| - 1])
  }

  /** The GUI thread is on its way to take a snapshot. */
  predicate AboutToTake(pc: Pc) {
    pc.Woken? || pc.Cleared? || pc.Retained?
  }

  ghost predicate Inv(s: State) {
    && s.queued <= 1
    && (s.refreshPending <==> s.queued == 1 || s.pc.Woken?)
    && (s.pc.Woken? ==> s.queued == 0)
    && (s.stopped ==> !s.attached && (s.pc.Idle? || s.pc.Woken? || s.pc.Cleared?))
    && (s.attached ==> !s.cache.stopped && !s.pc.Starting? && !s.pc.Attaching? && s.pc != Retained(ThenAttach))
    && (s.attached && Ready(s.cache) ==> s.queued == 1 || AboutToTake(s.pc))
    && (!s.cache.initialized ==> s.cache.blocks == map[])
  }

  /** The retained copy of the timestamps is current unless the cache says otherwise. */
  ghost predicate CopyCurrent(s: State) {
    !s.cache.dirty ==> Lists(s.cached, s.cache.blocks)
  }

  /** Outside a time update, the timeline is that of the retained copy. */
  ghost predicate TimelineCurrent(s: State) {
    s.pc.Idle? || s.pc.Woken? || s.pc.Cleared? || s.pc.Attaching? || s.pc.Starting? ==>
      s.timeline == Timeline(s.cached, s.periodStart)
  }

  lemma BackendInv(s: State, e: Event)
    requires Inv(s) && (e.Record? || e.Initialize? || e.StopCache?)
    ensures Inv(Step(s, e))
  {
    hide Timeline, Lists;
  }

  lemma GuiInv(s: State, e: Event)
    requires Inv(s) && !(e.Record? || e.Initialize? || e.StopCache?)
    ensures Inv(Step(s, e))
  {
    hide Timeline, Lists, Recorded, Initialized;
    if e.UpdateTime? {
      var c := WithRetention(s.cache, e.period - PERIOD_SECONDS);
      assert s.cache.blocks == map[] ==> c.blocks == map[];
    }
  }

  lemma StepInv(s: State, e: Event)
    requires Inv(s)
    ensures Inv(Step(s, e))
  {
    hide Step, Inv;
    if e.Record? || e.Initialize? || e.StopCache? {
      BackendInv(s, e);
    } else {
      GuiInv(s, e);
    }
  }

  lemma StepCopy(s: State, e: Event)
    requires CopyCurrent(s)
    ensures CopyCurrent(Step(s, e))
  {
    hide Timeline, Lists;
  }

  lemma StepTimeline(s: State, e: Event)
    requires TimelineCurrent(s)
    ensures TimelineCurrent(Step(s, e))
  {
    hide Timeline, Lists;
  }

  lemma {:induction false} RunInv(events: seq<Event>)
    ensures Inv(Run(events)) && CopyCurrent(Run(events)) && TimelineCurrent(Run(events))
    decreases |events|
  {
    if events == [] {
      ListsNone();
    } else {
      RunInv(events[..|events| - 1]);
      StepInv(Run(events[..|events| - 1]), events[|events| - 1]);
      StepCopy(Run(events[..|events| - 1]), events[|events| - 1]);
      StepTimeline(Run(events[..|events| - 1]), events[|events| - 1]);
    }
  }

  /** No lost wake-up: between GUI handlers, an initialized, dirty, unstopped cache with an attached model has a
      refresh queued. */
  lemma NoLostWakeUp(events: seq<Event>)
    requires var s := Run(events); s.pc.Idle? && s.attached && Ready(s.cache)
    ensures Run(events).queued == 1
  {
    RunInv(events);
  }

  /** Between GUI handlers, a clean cache is shown: the timeline is the sorted list of the cached timestamps inside
      the current period. */
  lemma TimelineIsCurrent(events: seq<Event>)
    requires var s := Run(events); s.pc.Idle? && !s.cache.dirty
    ensures var s := Run(events); Shows(s.timeline, s.cache.blocks, s.periodStart)
  {
    RunInv(events);
    var s := Run(events);
    TimelineShows(s.cached, s.cache.blocks, s.periodStart);
  }

  // ---- Handlers run to their end ----

  lemma RunSnoc(front: seq<Event>, e: Event)
    ensures Run(front + [e]) == Step(Run(front), e)
  {
    assert (front + [e])[..|front|] == front;
  }

  /** The refresh handler from the event queue to the timeline. */
  lemma RefreshSteps(s: State, times: seq<int>)
    requires Inv(s) && s.pc.Idle? && s.attached && Ready(s.cache) && Lists(times, s.cache.blocks)
    ensures Step(Step(Step(Step(Step(s, Wake), ClearFlag), TakeSnapshot(times)), UpdateTime(s.periodStart)), Replace)
         == s.(cached := times, cache := s.cache.(dirty := false), timeline := Timeline(times, s.periodStart),
               queued := 0, refreshPending := false)
  {
    hide Timeline, Lists;
  }

  /**
   * A waiting refresh shows the cache: in every run, once a dirty cache waits for an attached model between handlers,
   * the handler left to itself ends with the timeline of the cached blocks, a clean cache and nothing queued.
   */
  lemma RefreshShows(events: seq<Event>, times: seq<int>)
    requires var s := Run(events); s.pc.Idle? && s.attached && Ready(s.cache) && Lists(times, s.cache.blocks)
    ensures var s := Run(events);
      var t := Run(events + [Wake] + [ClearFlag] + [TakeSnapshot(times)] + [UpdateTime(s.periodStart)] + [Replace]);
      && Shows(t.timeline, s.cache.blocks, s.periodStart) && t.cache == s.cache.(dirty := false)
      && t.pc.Idle? && t.queued == 0 && !t.refreshPending
  {
    var s := Run(events);
    RunInv(events);
    RefreshSteps(s, times);
    TimelineShows(times, s.cache.blocks, s.periodStart);
    hide Run, Step, Timeline, Lists, Shows;
    RunSnoc(events, Wake);
    RunSnoc(events + [Wake], ClearFlag);
    RunSnoc(events + [Wake] + [ClearFlag], TakeSnapshot(times));
    RunSnoc(events + [Wake] + [ClearFlag] + [TakeSnapshot(times)], UpdateTime(s.periodStart));
    RunSnoc(events + [Wake] + [ClearFlag] + [TakeSnapshot(times)] + [UpdateTime(s.periodStart)], Replace);
  }

  /** The first snapshot of the chain reaches an attached model: it is installed and a refresh is queued for it. */
  lemma FirstSnapshotWakes(events: seq<Event>, snapshot: map<Hash, int>)
    requires var s := Run(events); s.pc.Idle? && s.attached && !s.cache.initialized
    ensures var s := Run(events); var t := Run(events + [Initialize(snapshot)]);
      && t.pc.Idle? && t.attached && Ready(t.cache) && t.queued == 1
      && forall h :: h in t.cache.blocks <==>
           if h in s.cache.pending then s.cache.pending[h].Some? && s.cache.pending[h].value >= s.cache.retention
           else h in snapshot && snapshot[h] >= s.cache.retention
  {
    RunInv(events);
    RunSnoc(events, Initialize(snapshot));
    RunInv(events + [Initialize(snapshot)]);
    hide Run, Lists, Timeline;
  }

  lemma NewPeriodSteps(s: State, period: int, times: seq<int>)
    requires s.pc.Idle? && !s.stopped && period != s.periodStart && s.cache.initialized && !s.cache.stopped
    requires Lists(times, WithRetention(s.cache, period - PERIOD_SECONDS).blocks)
    ensures var t := Step(Step(s, UpdateTime(period)), TakeAfterPeriod(times));
      && t.pc.Idle? && t.periodStart == period && !t.cache.dirty
      && (s.cache.retention != period - PERIOD_SECONDS ==> forall h :: h in t.cache.blocks <==>
            h in s.cache.blocks && s.cache.blocks[h] >= period - PERIOD_SECONDS)
      && t.cache == WithRetention(s.cache, period - PERIOD_SECONDS).(dirty := false) && !t.stopped
  {
    hide Timeline, Lists;
  }

  /** A change of period between handlers shows the new period of the blocks that the new boundary leaves. */
  lemma NewPeriodShows(events: seq<Event>, period: int, times: seq<int>)
    requires var s := Run(events);
      && s.pc.Idle? && !s.stopped && period != s.periodStart && s.cache.initialized && !s.cache.stopped
      && Lists(times, WithRetention(s.cache, period - PERIOD_SECONDS).blocks)
    ensures var s := Run(events); var t := Run(events + [UpdateTime(period)] + [TakeAfterPeriod(times)]);
      && t.pc.Idle? && t.periodStart == period && !t.cache.dirty
      && (s.cache.retention != period - PERIOD_SECONDS ==> forall h :: h in t.cache.blocks <==>
            h in s.cache.blocks && s.cache.blocks[h] >= period - PERIOD_SECONDS)
      && t.cache == WithRetention(s.cache, period - PERIOD_SECONDS).(dirty := false) && !t.stopped
      && Shows(t.timeline, t.cache.blocks, period)
  {
    RunSnoc(events, UpdateTime(period));
    RunSnoc(events + [UpdateTime(period)], TakeAfterPeriod(times));
    NewPeriodSteps(Run(events), period, times);
    TimelineIsCurrent(events + [UpdateTime(period)] + [TakeAfterPeriod(times)]);
    hide Run, Step, Lists, Timeline, Shows;
  }

  /**
   * The clock set more than one period past a shown block and back: the same period is shown again, without the block,
   * although nothing was disconnected.
   */
  lemma SetBackTooFar(events: seq<Event>, h: Hash, far: int) returns (more: seq<Event>)
    requires var s := Run(events);
      && s.pc.Idle? && !s.stopped && s.cache.initialized && !s.cache.stopped && !s.cache.dirty
      && h in s.cache.blocks && InPeriod(s.cache.blocks[h], s.periodStart)
      && s.cache.retention <= s.cache.blocks[h] < far - PERIOD_SECONDS
    ensures forall e <- more :: e.UpdateTime? || e.TakeAfterPeriod?
    ensures var s, t := Run(events), Run(events + more);
      && t.periodStart == s.periodStart && t.pc.Idle?
      && multiset(s.timeline)[s.cache.blocks[h]] > 0 && multiset(t.timeline)[s.cache.blocks[h]] == 0
  {
    hide Run, Lists, Timeline;
    var s := Run(events);
    var first := ListingExists(WithRetention(s.cache, far - PERIOD_SECONDS).blocks);
    NewPeriodShows(events, far, first);
    var ahead := events + [UpdateTime(far)] + [TakeAfterPeriod(first)];
    var second := ListingExists(WithRetention(Run(ahead).cache, s.periodStart - PERIOD_SECONDS).blocks);
    NewPeriodShows(ahead, s.periodStart, second);
    more := [UpdateTime(far)] + [TakeAfterPeriod(first)] + [UpdateTime(s.periodStart)] + [TakeAfterPeriod(second)];
    assert events + more == ahead + [UpdateTime(s.periodStart)] + [TakeAfterPeriod(second)];
    CountAtZero(Run(events + more).cache.blocks, s.cache.blocks[h]);
    TimelineIsCurrent(events);
    assert h in StampedAt(s.cache.blocks, s.cache.blocks[h]);
  }

  /** How far the GUI thread is from the end of its handler. */
  function StepsLeft(pc: Pc): nat {
    match pc
    case Idle => 0
    case Replacing => 1
    case Attaching => 1
    case Retained(_) => 2
    case Took => 3
    case Starting => 3
    case Cleared => 4
    case Woken => 5
  }

  /** The constructor has not yet installed its callback. */
  predicate Constructing(pc: Pc) {
    pc.Starting? || pc.Attaching? || pc == Retained(ThenAttach)
  }

  function NextGui(s: State, times: seq<int>): Event
    requires !s.pc.Idle?
  {
    match s.pc
    case Woken => ClearFlag
    case Cleared => TakeSnapshot(times)
    case Took => UpdateTime(s.periodStart)
    case Starting => UpdateTime(s.periodStart)
    case Retained(_) => TakeAfterPeriod(times)
    case Replacing => Replace
    case Attaching => Attach
  }

  lemma NextGuiAdvances(s: State, times: seq<int>)
    requires Inv(s) && !s.pc.Idle? && Lists(times, s.cache.blocks)
    ensures var t := Step(s, NextGui(s, times));
      && StepsLeft(t.pc) < StepsLeft(s.pc) && t.cache.stopped == s.cache.stopped
      && t.cache.initialized == s.cache.initialized && t.periodStart == s.periodStart
      && (Constructing(s.pc) && !s.cache.stopped ==> Constructing(t.pc) || t.attached)
      && (s.attached ==> t.attached && t.queued == s.queued)
  {
    hide Timeline, Lists;
  }

  /**
   * Every handler ends: from every reachable state at most five more steps of the GUI thread bring it back to its
   * event loop, and a constructor leaves the model attached unless the cache was stopped.
   */
  lemma {:induction false} HandlersEnd(events: seq<Event>) returns (more: seq<Event>)
    ensures |more| <= StepsLeft(Run(events).pc) <= 5 && Run(events + more).pc.Idle?
    ensures forall e <- more :: !e.Record? && !e.Initialize? && !e.StopCache? && !e.StopModel? && !e.Wake?
    ensures (Constructing(Run(events).pc) && !Run(events).cache.stopped) || Run(events).attached ==>
      Run(events + more).attached
    decreases StepsLeft(Run(events).pc)
  {
    hide Step, Lists, Run, Inv;
    var s := Run(events);
    if s.pc.Idle? {
      more := [];
      assert events + more == events;
    } else {
      var times := ListingExists(s.cache.blocks);
      RunInv(events);
      NextGuiAdvances(s, times);
      var e := NextGui(s, times);
      RunSnoc(events, e);
      var rest := HandlersEnd(events + [e]);
      more := [e] + rest;
      assert events + [e] + rest == events + more;
    }
  }

  /** A refresh is queued only for news: a change of the cache, or the attachment of the model to a dirty one. */
  lemma WakesOnlyForNews(s: State, e: Event)
    ensures var t := Step(s, e);
      t.queued > s.queued ==> t.attached && Ready(t.cache) && (e.Attach? || t.cache.blocks != s.cache.blocks
                                                               || !s.cache.initialized)
  {
    hide Timeline, Lists;
  }

  predicate SameDisplay(s: State, t: State) {
    t.timeline == s.timeline && t.cached == s.cached && t.periodStart == s.periodStart
  }

  lemma StepAfterStop(s: State, e: Event)
    requires Inv(s) && s.stopped
    ensures var t := Step(s, e); t.stopped && t.queued <= s.queued && SameDisplay(s, t)
  {
    hide Timeline, Lists;
  }

  lemma {:induction false} RunAfterStop(front: seq<Event>, rest: seq<Event>)
    requires Run(front).stopped
    ensures var s, t := Run(front), Run(front + rest); t.stopped && t.queued <= s.queued && SameDisplay(s, t)
    decreases |rest|
  {
    hide Step, Run, Inv;
    if rest == [] {
      assert front + rest == front;
    } else {
      var n := |rest| - 1;
      RunAfterStop(front, rest[..n]);
      var most := front + rest[..n];
      assert front + rest == most + [rest[n]];
      RunInv(most);
      RunSnoc(most, rest[n]);
      StepAfterStop(Run(most), rest[n]);
    }
  }

  /** A stopped model is left alone: whatever happens, its display stays and no refresh is queued for it. */
  lemma StoppedModelStays(front: seq<Event>, rest: seq<Event>)
    requires Run(front).pc.Idle?
    ensures var s, t := Run(front), Run(front + [StopModel] + rest);
      t.stopped && t.queued <= s.queued && SameDisplay(s, t)
  {
    RunSnoc(front, StopModel);
    hide Run, Timeline, Lists;
    RunAfterStop(front + [StopModel], rest);
  }

  /** Every time lies in exactly one of the periods that follow one another from any start. */
  lemma PeriodsTile(t: int, start: int, k: int)
    ensures InPeriod(t, start + k * 43_200) <==> k == (t - start) / 43_200
  {
    var q := (t - start) / 43_200;
    var r := (t - start) % 43_200;
    assert t - start == q * 43_200 + r && 0 <= r < 43_200;
    if k < q {
      assert k * 43_200 + 43_200 <= q * 43_200;
    } else if k > q {
      assert q * 43_200 + 43_200 <= k * 43_200;
    }
  }

  // ---- The timeline object ----

  /** Where a timestamp stands in its period, from 0 to 1. */
  function FractionFor(t: int, periodStart: int): real {
    var f := (t - periodStart) as real / PERIOD_SECONDS as real;
    if periodStart == 0 then 0.0 else if f < 0.0 then 0.0 else if f > 1.0 then 1.0 else f
  }

  function Fractions(timeline: seq<int>, periodStart: int): (r: seq<real>)
    ensures |r| == |timeline|
  {
    seq(|timeline|, i requires 0 <= i < |timeline| => FractionFor(timeline[i], periodStart))
  }

  /** The fraction is the share of the period gone by at the timestamp, and stays at the ends outside of it. */
  lemma FractionExact(t: int, periodStart: int)
    requires periodStart != 0
    ensures var f := FractionFor(t, periodStart);
      && (InPeriod(t, periodStart) ==> 0.0 <= f < 1.0 && f * 43_200.0 == (t - periodStart) as real)
      && (t < periodStart ==> f == 0.0) && (t >= periodStart + PERIOD_SECONDS ==> f == 1.0)
  {
  }

  /** Before the first time update nothing is placed: every fraction is zero. */
  lemma NoFractionBeforeTime(t: int)
    ensures FractionFor(t, 0) == 0.0
  {
  }

  /** The GUI-thread fields of the model. */
  class BlockClockModel {
    var refreshPending: bool
    var queued: nat
    var cached: seq<int>
    var periodStart: int
    var timeline: seq<int>
    var fractions: seq<real>

    /** The fractions are those of the timeline. */
    ghost predicate Valid()
      reads this
    {
      fractions == Fractions(timeline, periodStart)
    }

    constructor ()
      ensures Valid() && !refreshPending && queued == 0 && cached == [] && periodStart == 0 && timeline == []
    {
      refreshPending, queued, cached, periodStart, timeline, fractions := false, 0, [], 0, [], [];
    }

    /** Posts one refresh until the posted one runs. */
    method ScheduleHistoryRefresh()
      modifies this`refreshPending, this`queued
      ensures refreshPending && queued == old(queued) + if old(refreshPending) then 0 else 1
    {
      if refreshPending {
        return;
      }
      refreshPending := true;
      queued := queued + 1;
    }

    /** The timestamps of the period, in order. */
    method SortAndCut(timestamps: seq<int>) returns (kept: seq<int>)
      ensures kept == Timeline(timestamps, periodStart)
    {
      var sorted := Sort(timestamps);
      kept := [];
      for i := 0 to |sorted|
        invariant kept + Cut(sorted[i..], periodStart) == Cut(sorted, periodStart)
      {
        assert sorted[i..][0] == sorted[i] && sorted[i..][1..] == sorted[i + 1..];
        if !(sorted[i] < periodStart || sorted[i] >= periodStart + PERIOD_SECONDS) {
          kept := kept + [sorted[i]];
        }
      }
    }

    method RebuildBlockTimeFractions()
      modifies this`fractions
      ensures Valid()
    {
      fractions := [];
      for i := 0 to |timeline|
        invariant |fractions| == i && forall j :: 0 <= j < i ==> fractions[j] == FractionFor(timeline[j], periodStart)
      {
        fractions := fractions + [FractionFor(timeline[i], periodStart)];
      }
    }

    /** Replaces the timeline and its fractions; `notify` reports a change of the fractions. */
    method ReplaceBlockHistory(timestamps: seq<int>, periodChanged: bool) returns (notify: bool)
      requires !periodChanged ==> Valid()
      modifies this`timeline, this`fractions
      ensures Valid() && timeline == Timeline(timestamps, periodStart)
      ensures notify <==> fractions != old(fractions)
    {
      var kept := SortAndCut(timestamps);
      if timeline == kept && !periodChanged {
        return false;
      }
      var previous := fractions;
      timeline := kept;
      RebuildBlockTimeFractions();
      notify := previous != fractions;
    }

    /** A new copy of the cached timestamps: the timeline shows exactly the cache, inside the period. */
    method RefreshHistory(snapshot: seq<int>, ghost blocks: map<Hash, int>) returns (notify: bool)
      requires Valid() && Lists(snapshot, blocks)
      modifies this`cached, this`timeline, this`fractions
      ensures Valid() && cached == snapshot && Shows(timeline, blocks, periodStart)
      ensures notify <==> fractions != old(fractions)
    {
      cached := snapshot;
      notify := ReplaceBlockHistory(cached, false);
      TimelineShows(snapshot, blocks, periodStart);
    }

    /** A new period with the retained copy; the fractions follow the period. */
    method ChangePeriod(period: int, snapshot: seq<int>, ghost blocks: map<Hash, int>) returns (notify: bool)
      requires Valid() && Lists(snapshot, blocks)
      modifies this`periodStart, this`cached, this`timeline, this`fractions
      ensures Valid() && periodStart == period && cached == snapshot && Shows(timeline, blocks, period)
      ensures notify <==> fractions != old(fractions)
    {
      periodStart := period;
      cached := snapshot;
      notify := ReplaceBlockHistory(cached, true);
      TimelineShows(snapshot, blocks, periodStart);
    }
  }
}
