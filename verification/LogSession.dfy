/**
 * The log model as a whole: the read protocol drives reads, a read captures the limit when it is queued, and its
 * result changes the retained lines when it is delivered. At rest, the retained lines are exact.
 */
module LogSession {
  import opened Options
  import opened Sequences
  import opened LogText
  import opened TailReader
  import opened DeltaReader
  import opened LogModel
  import opened LogCapacity
  import P = RefreshProtocol

  /** `broken` is history: an activation relied on a capacity that could not be trusted, or an owed full read failed. */
  datatype Session = Session(
    proto: P.State,
    capacity: Capacity,
    captured: nat,          // limit captured by the read in flight
    content: seq<byte>,     // the file as that read found it
    seen: seq<byte>,        // the file as of the last applied read
    positioned: bool,       // a read was applied
    broken: bool)

  datatype Event =
    | SetLimit(limit: int)
    | LoadMore
    | Ask(full: bool)
    | Activate(on: bool)
    | StopModel
    | ReaderStarts
    | ReaderFinishes(file: seq<byte>)
    | Deliver(readable: bool, oversized: bool)   // `oversized`: too much was appended for a delta

  const INITIAL_LIMIT: nat := 1000
  const MORE: nat := 1000

  function Initial(logToFile: bool): Session {
    Session(P.Initial(logToFile), Capacity(Retained([], false), INITIAL_LIMIT, 0), 0, [], [], false, false)
  }

  /** A protocol step; a read that it queues captures the limit. */
  function Drive(s: Session, e: P.Event): Session {
    var p := P.Step(s.proto, e);
    s.(proto := p, captured := if |p.queued| > |s.proto.queued| then s.capacity.limit else s.captured)
  }

  function Clamp(limit: int, max: nat): nat {
    if limit < 1 then 1 else if limit > max then max else limit
  }

  function WithLimit(s: Session, limit: nat, sizes: Sizes): Session {
    if limit == s.capacity.limit then s
    else
      var t := s.(capacity := AfterLimit(s.capacity, limit, sizes));
      if limit > s.capacity.limit then Drive(t, P.Refresh(true)) else t
  }

  /** The job at the head of the protocol is of this activation. */
  predicate IsCurrent(p: P.State, job: P.Job) {
    p.active && !p.stopping && job.generation == p.generation
  }

  function Apply(s: Session, job: P.Job, oversized: bool, sizes: Sizes, dec: Decoder): Session
    requires s.seen <= s.content
  {
    var full := job.full || !s.positioned || oversized;
    var r := if full then TailResult(s.content, s.captured, sizes, dec)
             else DeltaResult(s.seen, s.content, s.captured, sizes, dec);
    s.(capacity := AfterRead(s.capacity, r, sizes), seen := s.content, positioned := true, broken := s.broken && !full)
  }

  ghost function Step(s: Session, e: Event, sizes: Sizes, dec: Decoder): Session {
    match e
    case SetLimit(limit) => WithLimit(s, Clamp(limit, sizes.maxLoad), sizes)
    case LoadMore =>
      if s.capacity.limit >= sizes.maxLoad then
        s.(capacity := s.capacity.(retained := s.capacity.retained.(hasMore := false)))
      else WithLimit(s, Clamp(s.capacity.limit + MORE, sizes.maxLoad), sizes)
    case Ask(full) => Drive(s, P.Refresh(full))
    case Activate(on) =>
      var relies := on && !s.proto.active && !s.proto.stopping;
      Drive(s.(broken := if relies then !Trusted(s.capacity, s.seen, sizes, dec) else s.broken),
            P.SetActive(on, s.capacity.loaded < s.capacity.limit))
    case StopModel => Drive(s, P.Stop)
    case ReaderStarts => Drive(s, P.StartRead)
    case ReaderFinishes(file) =>
      if s.seen <= file && NoLineAtLimit(file, sizes) && s.proto.reading.Some?
          then Drive(s.(content := file), P.FinishRead) else s
    case Deliver(readable, oversized) =>
      if s.proto.finished == [] || !(s.seen <= s.content) then s
      else
        var job := s.proto.finished[0];
        if IsCurrent(s.proto, job) && readable then
          var t := Apply(s, job, oversized, sizes, dec);
          Drive(t, P.Deliver(true, t.capacity.loaded < t.capacity.limit))
        else
          var lost := IsCurrent(s.proto, job) && job.full && !(s.proto.refreshPending && s.proto.pendingFullLoad);
          Drive(s.(broken := s.broken || lost), P.Deliver(readable, false))
  }

  ghost function Run(logToFile: bool, events: seq<Event>, sizes: Sizes, dec: Decoder): Session
    decreases |events|
  {
    if events == [] then Initial(logToFile)
    else Step(Run(logToFile, events[..|events| - 1], sizes, dec), events[|events| - 1], sizes, dec)
  }

  // ---- The invariant ----

  /** The one read between its request and its completion. */
  function InFlight(p: P.State): Option<P.Job> {
    if p.queued != [] then Some(p.queued[0])
    else if p.reading.Some? then Some(p.reading.value)
    else if p.finished != [] then Some(p.finished[0])
    else None
  }

  predicate Live(p: P.State) {
    p.active && !p.stopping && p.logToFile
  }

  /** A full read of this activation is in flight, or owed as a trailing read. */
  predicate OwesFull(p: P.State) {
    || (InFlight(p).Some? && InFlight(p).value.full && InFlight(p).value.generation == p.generation)
    || (p.refreshPending && p.pendingFullLoad)
  }

  /** The retained lines are representative at a capacity that covers the limit. */
  ghost predicate Good(c: Capacity, seen: seq<byte>, sizes: Sizes, dec: Decoder) {
    c.loaded >= c.limit && Represents(c, AllLines(seen, sizes, dec), sizes.maxLoad)
  }

  /** Bookkeeping. */
  ghost predicate Shape(s: Session, sizes: Sizes) {
    && P.Flags(s.proto)
    && (InFlight(s.proto).Some? ==> InFlight(s.proto).value.generation <= s.proto.generation && s.proto.logToFile)
    && 1 <= s.capacity.limit <= sizes.maxLoad && s.captured <= sizes.maxLoad
    && |s.capacity.retained.lines| <= s.capacity.limit
    && (s.proto.finished != [] ==> s.seen <= s.content && NoLineAtLimit(s.content, sizes))
    && (!s.positioned ==> s.capacity.loaded == 0 && s.capacity.retained == Retained([], false))
  }

  /** Either the lines are good, or a full read is on its way; and without one on its way a read of this activation in
      flight captured at least the present limit. */
  ghost predicate Care(s: Session, sizes: Sizes, dec: Decoder) {
    Live(s.proto) && !s.broken && !OwesFull(s.proto) ==>
      && Good(s.capacity, s.seen, sizes, dec)
      && (InFlight(s.proto).Some? && InFlight(s.proto).value.generation == s.proto.generation ==>
            s.captured >= s.capacity.limit)
  }

  ghost predicate Inv(s: Session, sizes: Sizes, dec: Decoder) {
    Shape(s, sizes) && Care(s, sizes, dec)
  }

  lemma InitialInv(logToFile: bool, sizes: Sizes, dec: Decoder)
    requires sizes.maxLoad >= INITIAL_LIMIT
    ensures Inv(Initial(logToFile), sizes, dec)
  {
  }

  // ---- What the protocol does to the read in flight ----

  lemma AskFlight(p: P.State, full: bool)
    requires P.Flags(p)
    ensures var q := P.Step(p, P.Refresh(full));
      && (!Live(p) ==> q == p)
      && (Live(p) && InFlight(p).None? ==> InFlight(q) == Some(P.Job(full, p.generation)) && q.queued != [])
      && (Live(p) && InFlight(p).Some? ==> InFlight(q) == InFlight(p) && q.queued == p.queued
                                           && q.refreshPending && q.pendingFullLoad == (p.pendingFullLoad || full))
      && q.active == p.active && q.stopping == p.stopping && q.generation == p.generation && q.logToFile == p.logToFile
      && q.finished == p.finished && q.reading == p.reading
  {
  }

  lemma ActivateFlight(p: P.State, on: bool, full: bool)
    requires P.Flags(p)
    ensures var q := P.Step(p, P.SetActive(on, full));
      && (p.active == on || p.stopping ==> q == p)
      && (p.active != on && !p.stopping ==>
            q.active == on && !q.stopping && q.generation == p.generation + 1 && q.logToFile == p.logToFile
            && q.finished == p.finished && q.reading == p.reading)
      && (p.active != on && !p.stopping && !(on && p.logToFile) ==> q.queued == p.queued)
      && (p.active != on && !p.stopping && on && p.logToFile ==>
            if InFlight(p).None? then InFlight(q) == Some(P.Job(full, q.generation)) && q.queued != []
            else InFlight(q) == InFlight(p) && q.queued == p.queued && q.refreshPending && (full ==> q.pendingFullLoad))
  {
  }

  /** The reader thread only moves the read along. */
  lemma ReaderFlight(p: P.State, e: P.Event)
    requires P.Flags(p) && (e.StartRead? || e.FinishRead?)
    ensures var q := P.Step(p, e);
      && |q.queued| <= |p.queued| && (!p.stopping ==> InFlight(q) == InFlight(p))
      && (InFlight(q).Some? ==> InFlight(q) == InFlight(p))
      && q.active == p.active && q.stopping == p.stopping && q.generation == p.generation && q.logToFile == p.logToFile
      && q.refreshPending == p.refreshPending && q.pendingFullLoad == p.pendingFullLoad
      && (e.StartRead? ==> q.finished == p.finished)
  {
  }

  /** What is in flight after a completion. */
  function NextFlight(p: P.State, readable: bool, wider: bool): Option<P.Job>
    requires p.finished != []
  {
    var applied := IsCurrent(p, p.finished[0]) && readable;
    if p.active && (p.refreshPending || (applied && wider)) then
      Some(P.Job(p.pendingFullLoad || (applied && wider), p.generation))
    else None
  }

  lemma CompletedFlight(p: P.State)
    requires P.Flags(p) && p.finished != []
    ensures InFlight(p) == Some(p.finished[0])
  {
  }

  lemma DeliverFlight(p: P.State, readable: bool, wider: bool)
    requires P.Flags(p) && p.finished != [] && p.logToFile
    ensures var q := P.Step(p, P.Deliver(readable, wider));
      && q.active == p.active && q.stopping == p.stopping && q.generation == p.generation && q.logToFile == p.logToFile
      && q.finished == [] && q.reading.None? && p.queued == []
      && (!p.stopping ==> InFlight(q) == NextFlight(p, readable, wider) && !q.refreshPending)
      && (p.stopping ==> q.queued == [])
  {
  }

  // ---- Steps that only ask ----

  lemma AskInv(s: Session, full: bool, sizes: Sizes, dec: Decoder)
    requires Inv(s, sizes, dec)
    ensures Inv(Drive(s, P.Refresh(full)), sizes, dec)
  {
    AskFlight(s.proto, full);
    P.StepFlags(s.proto, P.Refresh(full));
    hide P.Step, P.Flags, Good, NoLineAtLimit;
  }

  lemma ReaderInv(s: Session, sizes: Sizes, dec: Decoder)
    requires Inv(s, sizes, dec)
    ensures Inv(Drive(s, P.StartRead), sizes, dec)
  {
    ReaderFlight(s.proto, P.StartRead);
    P.StepFlags(s.proto, P.StartRead);
    hide P.Step, P.Flags, Good, NoLineAtLimit;
  }

  lemma FinishInv(s: Session, file: seq<byte>, sizes: Sizes, dec: Decoder)
    requires Inv(s, sizes, dec) && s.seen <= file && NoLineAtLimit(file, sizes) && s.proto.reading.Some?
    ensures Inv(Drive(s.(content := file), P.FinishRead), sizes, dec)
  {
    ReaderFlight(s.proto, P.FinishRead);
    P.StepFlags(s.proto, P.FinishRead);
    hide P.Step, P.Flags, Good, NoLineAtLimit;
  }

  lemma ActivateInv(s: Session, on: bool, sizes: Sizes, dec: Decoder)
    requires Inv(s, sizes, dec)
    ensures Inv(Step(s, Activate(on), sizes, dec), sizes, dec)
  {
    hide P.Step, P.Flags, Represents, NoLineAtLimit, Exact;
    var full := s.capacity.loaded < s.capacity.limit;
    ActivateFlight(s.proto, on, full);
    P.StepFlags(s.proto, P.SetActive(on, full));
    if !full && Trusted(s.capacity, s.seen, sizes, dec) {
      ExactRepresents(s.capacity, s.seen, sizes, dec);
    }
  }

  /** Exact lines are representative. */
  lemma ExactRepresents(c: Capacity, file: seq<byte>, sizes: Sizes, dec: Decoder)
    requires c.limit <= sizes.maxLoad && c.retained == Exact(file, c.limit, sizes, dec)
    ensures Represents(c, AllLines(file, sizes, dec), sizes.maxLoad)
  {
    hide LinesFrom, Shown;
  }

  lemma StopInv(s: Session, sizes: Sizes, dec: Decoder)
    requires Inv(s, sizes, dec)
    ensures Inv(Drive(s, P.Stop), sizes, dec)
  {
    P.StepFlags(s.proto, P.Stop);
    hide P.Flags, Good, NoLineAtLimit;
  }

  // ---- Limit changes ----

  lemma LowerGood(c: Capacity, limit: nat, seen: seq<byte>, sizes: Sizes, dec: Decoder)
    requires Good(c, seen, sizes, dec) && limit < c.limit
    ensures Good(AfterLimit(c, limit, sizes), seen, sizes, dec)
  {
    hide LinesFrom, Shown, ShownLines, AllLines;
    LowerRepresents(c, limit, AllLines(seen, sizes, dec), sizes);
  }

  lemma LimitInv(s: Session, limit: nat, sizes: Sizes, dec: Decoder)
    requires Inv(s, sizes, dec) && 1 <= limit <= sizes.maxLoad
    ensures Inv(WithLimit(s, limit, sizes), sizes, dec)
  {
    AskFlight(s.proto, true);
    P.StepFlags(s.proto, P.Refresh(true));
    if limit < s.capacity.limit && Good(s.capacity, s.seen, sizes, dec) {
      LowerGood(s.capacity, limit, s.seen, sizes, dec);
    }
    hide P.Step, P.Flags, Good, NoLineAtLimit;
  }

  lemma CeilingInv(s: Session, sizes: Sizes, dec: Decoder)
    requires Inv(s, sizes, dec) && s.capacity.limit >= sizes.maxLoad
    ensures Inv(s.(capacity := s.capacity.(retained := s.capacity.retained.(hasMore := false))), sizes, dec)
  {
    hide P.Flags, NoLineAtLimit, AllLines;
  }

  // ---- Completions ----

  /** What an applied result makes of the retained lines. */
  lemma ApplyEffect(s: Session, job: P.Job, oversized: bool, sizes: Sizes, dec: Decoder)
    requires sizes.block > 0 && Shape(s, sizes) && s.proto.finished != []
    ensures var t := Apply(s, job, oversized, sizes, dec); var c := t.capacity;
      && c.limit == s.capacity.limit && |c.retained.lines| <= c.limit && t.proto == s.proto && t.captured == s.captured
      && t.positioned && t.seen == t.content == s.content
      && (job.full || !s.positioned || oversized ==> !t.broken && (c.loaded >= c.limit ==> Good(c, t.seen, sizes, dec)))
      && (!(job.full || !s.positioned || oversized) ==> t.broken == s.broken)
      && (Good(s.capacity, s.seen, sizes, dec) && s.captured >= c.limit && c.loaded >= c.limit
          ==> Good(c, t.seen, sizes, dec))
  {
    hide LinesFrom, Shown, Split, ShownLines, AllLines, NoLineAtLimit, TailResult, DeltaResult, P.Flags;
    var full := job.full || !s.positioned || oversized;
    if full {
      SnapshotRepresents(s.capacity, s.content, s.captured, sizes, dec);
    } else if Good(s.capacity, s.seen, sizes, dec) && s.captured >= s.capacity.limit {
      DeltaRepresents(s.capacity, s.seen, s.content, s.captured, sizes, dec);
      UnraisedDeltaSafe(s.capacity, Gained(s.seen, s.content, sizes, dec), s.captured, sizes.maxLoad);
    }
    hide Represents;
  }

  lemma AppliedInv(s: Session, oversized: bool, sizes: Sizes, dec: Decoder)
    requires sizes.block > 0 && Inv(s, sizes, dec) && s.proto.finished != [] && IsCurrent(s.proto, s.proto.finished[0])
    ensures Inv(Step(s, Deliver(true, oversized), sizes, dec), sizes, dec)
  {
    hide P.Step, P.Flags, Good, NoLineAtLimit, Apply;
    var job := s.proto.finished[0];
    CompletedFlight(s.proto);
    ApplyEffect(s, job, oversized, sizes, dec);
    var t := Apply(s, job, oversized, sizes, dec);
    var wider := t.capacity.loaded < t.capacity.limit;
    DeliverFlight(s.proto, true, wider);
    P.StepFlags(s.proto, P.Deliver(true, wider));
  }

  lemma DroppedInv(s: Session, readable: bool, oversized: bool, sizes: Sizes, dec: Decoder)
    requires Inv(s, sizes, dec) && s.proto.finished != [] && !(IsCurrent(s.proto, s.proto.finished[0]) && readable)
    ensures Inv(Step(s, Deliver(readable, oversized), sizes, dec), sizes, dec)
  {
    hide P.Step, P.Flags, Good, NoLineAtLimit, Apply;
    CompletedFlight(s.proto);
    DeliverFlight(s.proto, readable, false);
    P.StepFlags(s.proto, P.Deliver(readable, false));
  }

  lemma StepInv(s: Session, e: Event, sizes: Sizes, dec: Decoder)
    requires sizes.block > 0 && Inv(s, sizes, dec)
    ensures Inv(Step(s, e, sizes, dec), sizes, dec)
  {
    match e {
      case SetLimit(limit) => LimitInv(s, Clamp(limit, sizes.maxLoad), sizes, dec);
      case LoadMore =>
        if s.capacity.limit >= sizes.maxLoad {
          CeilingInv(s, sizes, dec);
        } else {
          LimitInv(s, Clamp(s.capacity.limit + MORE, sizes.maxLoad), sizes, dec);
        }
      case Ask(full) => AskInv(s, full, sizes, dec);
      case Activate(on) => ActivateInv(s, on, sizes, dec);
      case StopModel => StopInv(s, sizes, dec);
      case ReaderStarts => ReaderInv(s, sizes, dec);
      case ReaderFinishes(file) =>
        if s.seen <= file && NoLineAtLimit(file, sizes) && s.proto.reading.Some? {
          FinishInv(s, file, sizes, dec);
        }
      case Deliver(readable, oversized) =>
        if s.proto.finished != [] {
          if IsCurrent(s.proto, s.proto.finished[0]) && readable {
            AppliedInv(s, oversized, sizes, dec);
          } else {
            DroppedInv(s, readable, oversized, sizes, dec);
          }
        }
    }
  }

  lemma {:induction false} RunInv(logToFile: bool, events: seq<Event>, sizes: Sizes, dec: Decoder)
    requires sizes.block > 0 && sizes.maxLoad >= INITIAL_LIMIT
    ensures Inv(Run(logToFile, events, sizes, dec), sizes, dec)
    decreases |events|
  {
    if events == [] {
      InitialInv(logToFile, sizes, dec);
    } else {
      hide Inv, Step;
      RunInv(logToFile, events[..|events| - 1], sizes, dec);
      StepInv(Run(logToFile, events[..|events| - 1], sizes, dec), events[|events| - 1], sizes, dec);
    }
  }

  /**
   * In every run over an append-only file, for every interleaving of limit changes, requests, activations, failed and
   * successful reads: whenever the active model has no read outstanding, the retained lines and the more-lines flag are
   * exactly those of the file read last at the present limit, unless since the last full read an activation relied on
   * a capacity that could not be trusted, or an owed full read failed.
   */
  lemma AtRestExact(logToFile: bool, events: seq<Event>, sizes: Sizes, dec: Decoder)
    requires sizes.block > 0 && sizes.maxLoad >= INITIAL_LIMIT
    requires var s := Run(logToFile, events, sizes, dec);
      Live(s.proto) && P.Outstanding(s.proto) == 0 && !s.broken
    ensures var s := Run(logToFile, events, sizes, dec);
      s.capacity.retained == Exact(s.seen, s.capacity.limit, sizes, dec) && s.capacity.loaded >= s.capacity.limit
  {
    hide Run, Represents;
    var s := Run(logToFile, events, sizes, dec);
    RunInv(logToFile, events, sizes, dec);
    RepresentsTrusted(s.capacity, s.seen, sizes, dec);
  }

  // ---- Asking for more lines ----

  function Least(a: nat, b: nat): nat {
    if a <= b then a else b
  }

  lemma LoadMoreStep(s: Session, sizes: Sizes, dec: Decoder)
    requires Shape(s, sizes)
    ensures var t := Step(s, LoadMore, sizes, dec);
      && t.capacity.limit == Least(s.capacity.limit + 1000, sizes.maxLoad)
      && t.capacity.retained.lines == s.capacity.retained.lines
      && (s.capacity.limit == sizes.maxLoad ==> !t.capacity.retained.hasMore && t.proto == s.proto)
      && (s.capacity.limit < sizes.maxLoad && Live(s.proto) ==> OwesFull(t.proto))
  {
    AskFlight(s.proto, true);
    hide P.Step, NoLineAtLimit;
  }

  /**
   * In every run, asking `n` times for more raises the limit by a thousand each time up to the ceiling and keeps the
   * lines; asking once more at the ceiling says that there are no more.
   */
  lemma {:induction false} MoreUntilCeiling(logToFile: bool, events: seq<Event>, n: nat, sizes: Sizes, dec: Decoder)
    requires sizes.block > 0 && sizes.maxLoad >= INITIAL_LIMIT
    ensures var s, t := Run(logToFile, events, sizes, dec),
                        Run(logToFile, events + seq(n, _ => LoadMore), sizes, dec);
      && t.capacity.limit == Least(s.capacity.limit + 1000 * n, sizes.maxLoad)
      && t.capacity.retained.lines == s.capacity.retained.lines
      && (s.capacity.limit + 1000 * n >= sizes.maxLoad + 1000 ==> !t.capacity.retained.hasMore)
  {
    hide Run, Step, Care;
    RunInv(logToFile, events, sizes, dec);
    if n == 0 {
      assert events + seq(n, _ => LoadMore) == events;
    } else {
      var most := events + seq(n - 1, _ => LoadMore);
      MoreUntilCeiling(logToFile, events, n - 1, sizes, dec);
      assert events + seq(n, _ => LoadMore) == most + [LoadMore];
      RunInv(logToFile, most, sizes, dec);
      RunSnoc(logToFile, most, LoadMore, sizes, dec);
      LoadMoreStep(Run(logToFile, most, sizes, dec), sizes, dec);
    }
  }

  lemma RunSnoc(logToFile: bool, front: seq<Event>, e: Event, sizes: Sizes, dec: Decoder)
    ensures Run(logToFile, front + [e], sizes, dec) == Step(Run(logToFile, front, sizes, dec), e, sizes, dec)
  {
    assert (front + [e])[..|front|] == front;
  }

  // ---- Coming to rest ----

  /** A read of an earlier activation still in flight means that a trailing read is owed. */
  ghost predicate StaleOwes(s: Session) {
    Live(s.proto) && InFlight(s.proto).Some? && InFlight(s.proto).value.generation != s.proto.generation ==>
      s.proto.refreshPending
  }

  lemma StepStaleOwes(s: Session, e: Event, sizes: Sizes, dec: Decoder)
    requires Shape(s, sizes) && StaleOwes(s)
    ensures StaleOwes(Step(s, e, sizes, dec))
  {
    hide P.Step, P.Flags, Good, NoLineAtLimit, Apply, AfterLimit, Trusted;
    match e {
      case SetLimit(_) => AskFlight(s.proto, true);
      case LoadMore => AskFlight(s.proto, true);
      case Ask(full) => AskFlight(s.proto, full);
      case Activate(on) => ActivateFlight(s.proto, on, s.capacity.loaded < s.capacity.limit);
      case StopModel => StopFlight(s.proto);
      case ReaderStarts => ReaderFlight(s.proto, P.StartRead);
      case ReaderFinishes(_) => ReaderFlight(s.proto, P.FinishRead);
      case Deliver(readable, oversized) =>
        if s.proto.finished != [] && s.seen <= s.content {
          CompletedFlight(s.proto);
          ApplyKeepsProtocol(s, s.proto.finished[0], oversized, sizes, dec);
          var c := Apply(s, s.proto.finished[0], oversized, sizes, dec).capacity;
          DeliverFlight(s.proto, true, c.loaded < c.limit);
          DeliverFlight(s.proto, readable, false);
        }
    }
  }

  lemma StopFlight(p: P.State)
    ensures P.Step(p, P.Stop).stopping
  {
  }

  lemma ApplyKeepsProtocol(s: Session, job: P.Job, oversized: bool, sizes: Sizes, dec: Decoder)
    requires s.seen <= s.content
    ensures Apply(s, job, oversized, sizes, dec).proto == s.proto
  {
  }

  lemma {:induction false} RunStaleOwes(logToFile: bool, events: seq<Event>, sizes: Sizes, dec: Decoder)
    requires sizes.block > 0 && sizes.maxLoad >= INITIAL_LIMIT
    ensures StaleOwes(Run(logToFile, events, sizes, dec))
    decreases |events|
  {
    if events != [] {
      hide Shape, Care, Step, StaleOwes;
      RunStaleOwes(logToFile, events[..|events| - 1], sizes, dec);
      RunInv(logToFile, events[..|events| - 1], sizes, dec);
      StepStaleOwes(Run(logToFile, events[..|events| - 1], sizes, dec), events[|events| - 1], sizes, dec);
    } else {
      hide Shape, Care;
    }
  }

  /** One successful read from start to delivery, or what is left of it. */
  ghost function Round(s: Session, file: seq<byte>, oversized: bool, sizes: Sizes, dec: Decoder): Session {
    Step(Step(Step(s, ReaderStarts, sizes, dec), ReaderFinishes(file), sizes, dec),
         Deliver(true, oversized), sizes, dec)
  }

  /** The file a read may find: grown from all that was read so far. */
  ghost predicate Ahead(s: Session, file: seq<byte>, sizes: Sizes) {
    s.seen <= file && (s.proto.finished != [] ==> s.content <= file) && NoLineAtLimit(file, sizes)
  }

  lemma ReaderDone(p: P.State)
    requires P.Flags(p) && InFlight(p).Some? && !p.stopping
    ensures var r := P.Step(p, P.StartRead);
      && (p.finished == [] <==> r.reading.Some?) && (p.finished != [] ==> r == p)
      && (p.finished == [] ==> P.Step(r, P.FinishRead).finished == [InFlight(p).value])
      && (p.finished != [] ==> p.finished == [InFlight(p).value])
  {
  }

  lemma ReadReady(s: Session, file: seq<byte>, sizes: Sizes, dec: Decoder)
    requires Inv(s, sizes, dec) && sizes.block > 0 && Live(s.proto) && Ahead(s, file, sizes) && InFlight(s.proto).Some?
    ensures var t := Step(Step(s, ReaderStarts, sizes, dec), ReaderFinishes(file), sizes, dec);
      && t == s.(proto := t.proto, content := t.content) && Inv(t, sizes, dec) && t.content <= file
      && Live(t.proto) && t.proto.generation == s.proto.generation && InFlight(t.proto) == InFlight(s.proto)
      && t.proto.finished == [InFlight(s.proto).value]
      && t.proto.refreshPending == s.proto.refreshPending && t.proto.pendingFullLoad == s.proto.pendingFullLoad
  {
    hide P.Step, P.Flags, NoLineAtLimit, Care, Shape;
    var r := Step(s, ReaderStarts, sizes, dec);
    StepInv(s, ReaderStarts, sizes, dec);
    StepInv(r, ReaderFinishes(file), sizes, dec);
    ShapeFlags(s, sizes);
    ShapeFlags(r, sizes);
    ReaderFlight(s.proto, P.StartRead);
    ReaderFlight(r.proto, P.FinishRead);
    ReaderDone(s.proto);
  }

  lemma ShapeFlags(s: Session, sizes: Sizes)
    requires Shape(s, sizes)
    ensures P.Flags(s.proto)
  {
    hide P.Flags;
  }

  /** What one round leaves in flight, and what it does to the capacity. */
  lemma OneRound(s: Session, file: seq<byte>, oversized: bool, sizes: Sizes, dec: Decoder)
    requires Inv(s, sizes, dec) && sizes.block > 0 && StaleOwes(s) && Live(s.proto) && Ahead(s, file, sizes)
    requires InFlight(s.proto).Some?
    ensures var t := Round(s, file, oversized, sizes, dec); var job := InFlight(s.proto).value;
      && Inv(t, sizes, dec) && StaleOwes(t) && Live(t.proto) && !t.proto.refreshPending && t.proto.finished == []
      && t.seen <= file && t.capacity.limit == s.capacity.limit
      && (InFlight(t.proto).Some? ==>
            InFlight(t.proto).value.generation == t.proto.generation && t.captured == t.capacity.limit)
      && (job.generation != s.proto.generation ==> InFlight(t.proto).Some?)
      && (job.generation == s.proto.generation ==>
            && (t.capacity.loaded < t.capacity.limit ==> InFlight(t.proto).Some? && InFlight(t.proto).value.full)
            && (!s.proto.refreshPending && t.capacity.loaded >= t.capacity.limit ==> InFlight(t.proto).None?)
            && (job.full && s.captured >= s.capacity.limit ==> t.capacity.loaded >= t.capacity.limit))
  {
    hide P.Step, P.Flags, Good, NoLineAtLimit, Apply;
    ReadReady(s, file, sizes, dec);
    var r := Step(Step(s, ReaderStarts, sizes, dec), ReaderFinishes(file), sizes, dec);
    var job := r.proto.finished[0];
    ApplyKeepsProtocol(r, job, oversized, sizes, dec);
    ApplyCapacity(r, job, oversized, sizes, dec);
    var c := Apply(r, job, oversized, sizes, dec).capacity;
    DeliverFlight(r.proto, true, c.loaded < c.limit);
    DeliverFlight(r.proto, true, false);
    StepInv(r, Deliver(true, oversized), sizes, dec);
    StepStaleOwes(r, Deliver(true, oversized), sizes, dec);
    hide Care;
  }

  /** A full read that captured the present limit or more covers it afterwards. */
  lemma ApplyCapacity(s: Session, job: P.Job, oversized: bool, sizes: Sizes, dec: Decoder)
    requires s.seen <= s.content && s.captured <= sizes.maxLoad
    ensures var t := Apply(s, job, oversized, sizes, dec);
      && t.capacity.limit == s.capacity.limit && t.seen == s.content && t.captured == s.captured
      && (job.full && s.captured >= s.capacity.limit ==> t.capacity.loaded == t.capacity.limit)
  {
  }

  /** A round at rest changes nothing. */
  lemma RestRound(s: Session, file: seq<byte>, oversized: bool, sizes: Sizes, dec: Decoder)
    requires Shape(s, sizes) && InFlight(s.proto).None?
    ensures Round(s, file, oversized, sizes, dec) == s
  {
    hide NoLineAtLimit, Apply;
  }

  /** Between rounds: at rest and covered, or one read of this activation on its way at the present limit. */
  ghost predicate Settling(s: Session) {
    && Live(s.proto) && !s.proto.refreshPending && s.proto.finished == []
    && (InFlight(s.proto).None? ==> s.capacity.loaded >= s.capacity.limit)
    && (InFlight(s.proto).Some? ==>
          InFlight(s.proto).value.generation == s.proto.generation && s.captured == s.capacity.limit)
  }

  lemma SettlingRound(s: Session, file: seq<byte>, oversized: bool, sizes: Sizes, dec: Decoder)
    requires Inv(s, sizes, dec) && sizes.block > 0 && StaleOwes(s) && Settling(s)
    requires s.seen <= file && NoLineAtLimit(file, sizes)
    ensures var t := Round(s, file, oversized, sizes, dec);
      && Inv(t, sizes, dec) && StaleOwes(t) && Settling(t) && t.seen <= file && t.capacity.limit == s.capacity.limit
      && (InFlight(t.proto).Some? ==> InFlight(t.proto).value.full)
      && (InFlight(s.proto).Some? && InFlight(s.proto).value.full ==> InFlight(t.proto).None?)
      && (InFlight(s.proto).None? ==> InFlight(t.proto).None?)
  {
    if InFlight(s.proto).None? {
      RestRound(s, file, oversized, sizes, dec);
    } else {
      OneRound(s, file, oversized, sizes, dec);
    }
    hide Round, NoLineAtLimit, Shape, Care, StaleOwes;
  }

  lemma RestCovers(s: Session, sizes: Sizes, dec: Decoder)
    requires Inv(s, sizes, dec) && Live(s.proto) && !s.broken && InFlight(s.proto).None?
    ensures s.capacity.loaded >= s.capacity.limit && !s.proto.refreshPending && s.proto.finished == []
  {
    hide NoLineAtLimit, Represents;
  }

  lemma NothingInFlight(p: P.State)
    requires InFlight(p).None?
    ensures P.Outstanding(p) == 0
  {
  }

  /**
   * When limits and requests stop, three successful reads bring every live session to rest with a capacity that covers
   * the limit, unless nothing is in flight although a full read that was owed has failed.
   */
  lemma ComesToRest(logToFile: bool, events: seq<Event>, f: seq<byte>, g: seq<byte>, h: seq<byte>,
                    o: bool, p: bool, q: bool, sizes: Sizes, dec: Decoder)
    requires sizes.block > 0 && sizes.maxLoad >= INITIAL_LIMIT
    requires var s := Run(logToFile, events, sizes, dec);
      Live(s.proto) && (InFlight(s.proto).Some? || !s.broken) && Ahead(s, f, sizes)
    requires f <= g <= h && NoLineAtLimit(g, sizes) && NoLineAtLimit(h, sizes)
    ensures var s := Run(logToFile, events, sizes, dec);
      var t := Round(Round(Round(s, f, o, sizes, dec), g, p, sizes, dec), h, q, sizes, dec);
      && Live(t.proto) && P.Outstanding(t.proto) == 0
      && t.capacity.limit == s.capacity.limit && t.capacity.loaded >= t.capacity.limit
  {
    hide Run, Round, NoLineAtLimit, Shape, Care, StaleOwes;
    var s := Run(logToFile, events, sizes, dec);
    RunInv(logToFile, events, sizes, dec);
    RunStaleOwes(logToFile, events, sizes, dec);
    if InFlight(s.proto).None? {
      RestCovers(s, sizes, dec);
      RestRound(s, f, o, sizes, dec);
    } else {
      OneRound(s, f, o, sizes, dec);
    }
    var a := Round(s, f, o, sizes, dec);
    SettlingRound(a, g, p, sizes, dec);
    var b := Round(a, g, p, sizes, dec);
    SettlingRound(b, h, q, sizes, dec);
    NothingInFlight(Round(b, h, q, sizes, dec).proto);
  }

  // ---- A run that comes to rest with a hole ----

  /** An active session with at most one queued read, seen from outside. */
  ghost predicate Looks(s: Session, generation: nat, queued: seq<P.Job>, pending: bool, pendingFull: bool) {
    && Live(s.proto) && s.proto.generation == generation && s.proto.queued == queued
    && s.proto.reading.None? && s.proto.finished == []
    && s.proto.readInFlight == (queued != []) && s.proto.refreshPending == pending
        && s.proto.pendingFullLoad == pendingFull
  }

  /** A queued read runs to its completion, which is next to be delivered. */
  lemma ReadRuns(s: Session, job: P.Job, pending: bool, pendingFull: bool, file: seq<byte>, sizes: Sizes, dec: Decoder)
    requires Looks(s, s.proto.generation, [job], pending, pendingFull) && s.seen <= file && NoLineAtLimit(file, sizes)
    ensures var t := Step(Step(s, ReaderStarts, sizes, dec), ReaderFinishes(file), sizes, dec);
      && t == s.(proto := t.proto, content := file)
      && Live(t.proto) && t.proto.generation == s.proto.generation && t.proto.finished == [job]
      && t.proto.queued == [] && t.proto.reading.None? && t.proto.readInFlight
      && t.proto.refreshPending == pending && t.proto.pendingFullLoad == pendingFull
  {
    hide NoLineAtLimit;
  }

  /** One read from start to delivery. */
  ghost function ReadNow(s: Session, file: seq<byte>, sizes: Sizes, dec: Decoder): Session {
    Step(Step(Step(s, ReaderStarts, sizes, dec), ReaderFinishes(file), sizes, dec), Deliver(true, false), sizes, dec)
  }

  /** A delta is queued at limit one, and the limit is raised to three. */
  ghost function LoweredAskedRaised(s: Session, sizes: Sizes, dec: Decoder): Session {
    Step(Step(Step(s, SetLimit(1), sizes, dec), Ask(false), sizes, dec), SetLimit(3), sizes, dec)
  }

  lemma DeltaQueuedAtOne(s: Session, sizes: Sizes, dec: Decoder)
    requires Looks(s, s.proto.generation, [], false, false) && sizes.maxLoad > 3
    requires s.capacity == LoadedThree(s.seen, sizes, dec) && |AllLines(s.seen, sizes, dec)| == 1
    ensures var a := LoweredAskedRaised(s, sizes, dec); var g := s.proto.generation;
      a == s.(proto := a.proto, captured := 1) && Looks(a, g, [P.Job(false, g)], true, true)
  {
    hide LinesFrom, Shown, ShownLines;
    OneLine(s.seen, sizes, dec);
    var g := s.proto.generation;
    var s1 := Step(s, SetLimit(1), sizes, dec);
    assert s1 == s.(capacity := s.capacity.(limit := 1));
    var s2 := Step(s1, Ask(false), sizes, dec);
    assert s2 == s1.(proto := s2.proto, captured := 1) && Looks(s2, g, [P.Job(false, g)], false, false);
    hide Exact, LoadedThree;
  }

  /** First part: the delta that was captured at limit one lands at limit three, with a full read owed. */
  lemma HoleLandsInSession(s: Session, file: seq<byte>, sizes: Sizes, dec: Decoder)
    requires Looks(s, s.proto.generation, [], false, false) && s.positioned && s.seen <= file
        && NoLineAtLimit(file, sizes)
    requires sizes.maxLoad > 3 && s.capacity == LoadedThree(s.seen, sizes, dec)
    requires |AllLines(s.seen, sizes, dec)| == 1 && |AllLines(file, sizes, dec)| >= 4
    ensures
      var t := ReadNow(LoweredAskedRaised(s, sizes, dec), file, sizes, dec);
      && Looks(t, s.proto.generation, [P.Job(true, s.proto.generation)], false, false)
      && t.seen == file && t.positioned && t.capacity.limit == t.capacity.loaded == 3
      && |t.capacity.retained.lines| == 3 && t.capacity.retained.lines != Exact(file, 3, sizes, dec).lines
  {
    hide LinesFrom, Shown, Newest, ShownLines, NoLineAtLimit, DeltaResult, AfterRead, LoweredAskedRaised, Exact, Step;
    var g := s.proto.generation;
    var a := LoweredAskedRaised(s, sizes, dec);
    OneLine(s.seen, sizes, dec);
    DeltaQueuedAtOne(s, sizes, dec);
    ReadRuns(a, P.Job(false, g), true, true, file, sizes, dec);
    HoleShape(s.capacity, s.seen, file, sizes, dec);
    DeltaLands(Step(Step(a, ReaderStarts, sizes, dec), ReaderFinishes(file), sizes, dec), g, sizes, dec);
  }

  /** A delta of this activation is delivered while a full read is owed. */
  lemma DeltaLands(b: Session, g: nat, sizes: Sizes, dec: Decoder)
    requires Live(b.proto) && b.proto.generation == g && b.proto.finished == [P.Job(false, g)] && b.proto.queued == []
    requires b.proto.reading.None? && b.proto.readInFlight && b.proto.refreshPending && b.proto.pendingFullLoad
    requires b.positioned && b.seen <= b.content
    ensures var t := Step(b, Deliver(true, false), sizes, dec);
      && Looks(t, g, [P.Job(true, g)], false, false) && t.seen == b.content && t.positioned
      && t.capacity == AfterRead(b.capacity, DeltaResult(b.seen, b.content, b.captured, sizes, dec), sizes)
  {
    hide DeltaResult, AfterRead, TailResult;
  }

  /** The capacity after the delta: three lines, not the last three. */
  lemma HoleShape(c: Capacity, seen: seq<byte>, file: seq<byte>, sizes: Sizes, dec: Decoder)
    requires seen <= file && sizes.maxLoad > 3 && c.limit == c.loaded == 3
        && c.retained.lines == AllLines(seen, sizes, dec)
    requires |AllLines(seen, sizes, dec)| == 1 && |AllLines(file, sizes, dec)| >= 4
    ensures var d := AfterRead(c, DeltaResult(seen, file, 1, sizes, dec), sizes);
      && d.limit == d.loaded == 3 && |d.retained.lines| == 3 && d.retained.lines != Exact(file, 3, sizes, dec).lines
  {
    hide LinesFrom, Shown, Newest, ShownLines;
    var all, newest := AllLines(seen, sizes, dec), Newest(NewLines(seen, file), dec, UpTo(sizes.maxLine));
    NewEntries(seen, file, sizes, dec);
    AllLinesDistinct(file, sizes, dec);
    assert AllLines(file, sizes, dec) == all + Reverse(newest);
    HoleShows(all, all, newest, Take(newest, 2), 3);
    hide Distinct;
  }

  /** Second part: the model is deactivated and activated again, so the owed read is dropped for a delta that finds
      nothing new. The model is at rest, and the hole stays. */
  lemma HoleStays(t: Session, file: seq<byte>, sizes: Sizes, dec: Decoder)
    requires Looks(t, t.proto.generation, [P.Job(true, t.proto.generation)], false, false) && t.positioned
        && t.seen == file
    requires NoLineAtLimit(file, sizes) && sizes.maxLoad > 3 && t.capacity.limit == t.capacity.loaded == 3
    requires |t.capacity.retained.lines| == 3
    ensures
      var a := Step(Step(t, Activate(false), sizes, dec), Activate(true), sizes, dec);
      var u := ReadNow(ReadNow(a, file, sizes, dec), file, sizes, dec);
      && Live(u.proto) && P.Outstanding(u.proto) == 0 && u.seen == file && u.capacity.limit == 3
      && u.capacity.retained.lines == t.capacity.retained.lines
  {
    hide LinesFrom, Shown, Newest, ShownLines, NoLineAtLimit, DeltaResult, AfterRead, Trusted;
    var g := t.proto.generation;
    var a := Step(Step(t, Activate(false), sizes, dec), Activate(true), sizes, dec);
    assert a.capacity == t.capacity && a.positioned && a.seen == file && Looks(a, g + 2, [P.Job(true, g)], true, false);
    ReadRuns(a, P.Job(true, g), true, false, file, sizes, dec);
    var b := ReadNow(a, file, sizes, dec);
    assert Looks(b, g + 2, [P.Job(false, g + 2)], false, false) && b.capacity == t.capacity && b.captured == 3;
    ReadRuns(b, P.Job(false, g + 2), false, false, file, sizes, dec);
    NothingNew(t.capacity, file, sizes, dec);
  }

  /** A delta of an unchanged file leaves the retained lines as they are. */
  lemma NothingNew(c: Capacity, file: seq<byte>, sizes: Sizes, dec: Decoder)
    requires |c.retained.lines| <= c.limit
    ensures var d := AfterRead(c, DeltaResult(file, file, c.limit, sizes, dec), sizes);
      d.limit == c.limit && d.loaded == c.loaded && d.retained.lines == c.retained.lines
  {
    hide LinesFrom, Shown, Newest, ShownLines;
    NewEntries(file, file, sizes, dec);
    var newest := Newest(NewLines(file, file), dec, UpTo(sizes.maxLine));
    assert |newest| == 0;
    assert newest == [];
    assert Reverse(Take(newest, Target(c.limit, sizes))) == [];
  }

  /** Why `AtRestExact` looks at activations: from every session at rest with one line at limit three, and every file
      that
      has grown to four lines or more, the two parts together come to rest with wrong lines. */
  lemma RestsWithAHole(s: Session, file: seq<byte>, sizes: Sizes, dec: Decoder)
    requires Looks(s, s.proto.generation, [], false, false) && s.positioned && s.seen <= file
        && NoLineAtLimit(file, sizes)
    requires sizes.maxLoad > 3 && s.capacity == LoadedThree(s.seen, sizes, dec)
    requires |AllLines(s.seen, sizes, dec)| == 1 && |AllLines(file, sizes, dec)| >= 4
    ensures
      var t := ReadNow(LoweredAskedRaised(s, sizes, dec), file, sizes, dec);
      var a := Step(Step(t, Activate(false), sizes, dec), Activate(true), sizes, dec);
      var u := ReadNow(ReadNow(a, file, sizes, dec), file, sizes, dec);
      && Live(u.proto) && P.Outstanding(u.proto) == 0 && u.seen == file
      && u.capacity.retained != Exact(file, u.capacity.limit, sizes, dec)
  {
    hide Step, ReadNow, LoweredAskedRaised, Exact, LoadedThree, NoLineAtLimit;
    HoleLandsInSession(s, file, sizes, dec);
    HoleStays(ReadNow(LoweredAskedRaised(s, sizes, dec), file, sizes, dec), file, sizes, dec);
  }
}
