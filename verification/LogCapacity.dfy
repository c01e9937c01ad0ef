/**
 * What the retained lines stand for while reads are in flight and the load limit changes: a read captures the limit
 * when it is queued, and its result is applied at the limit then in force.
 */
module LogCapacity {
  import opened Options
  import opened Sequences
  import opened LogText
  import opened TailReader
  import opened DeltaReader
  import opened LogModel

  function AllLines(file: seq<byte>, sizes: Sizes, dec: Decoder): seq<LogLine> {
    ShownLines(file, dec, UpTo(sizes.maxLine))
  }

  /**
   * The retained lines are the end of all displayable lines and reach back as far as the believed capacity, the limit
   * or the file allows. The more-lines flag is never wrongly set, and below the ceiling never wrongly cleared.
   */
  ghost predicate Represents(c: Capacity, all: seq<LogLine>, max: nat) {
    var n := |c.retained.lines|;
    && n <= |all| && n <= c.limit <= max && c.retained.lines == Last(all, n)
    && (n >= c.loaded || n == c.limit || n == |all|)
    && (c.retained.hasMore ==> |all| > n && n < max)
    && (c.limit < max && |all| > n ==> c.retained.hasMore)
  }

  lemma RepresentsTrusted(c: Capacity, file: seq<byte>, sizes: Sizes, dec: Decoder)
    requires Represents(c, AllLines(file, sizes, dec), sizes.maxLoad)
    ensures Trusted(c, file, sizes, dec)
  {
    hide LinesFrom, Shown;
  }

  // ---- Changing the limit ----

  /** Lowering is sound unless the flag was cleared at the ceiling while older lines exist and no line is dropped now.
      */
  predicate LowerSafe(c: Capacity, limit: nat, all: nat, max: nat) {
    c.limit < max || |c.retained.lines| > limit || c.retained.hasMore || all == |c.retained.lines|
  }

  lemma LowerRepresents(c: Capacity, limit: nat, all: seq<LogLine>, sizes: Sizes)
    requires Represents(c, all, sizes.maxLoad) && limit < c.limit
    ensures Represents(AfterLimit(c, limit, sizes), all, sizes.maxLoad) <==> LowerSafe(c, limit, |all|, sizes.maxLoad)
  {
    if |c.retained.lines| > limit {
      LastLast(all, |c.retained.lines|, limit);
    }
  }

  /** Raising is sound if and only if the lines reach back to the believed capacity, or there is nothing older. */
  predicate RaiseSafe(c: Capacity) {
    c.loaded <= |c.retained.lines| || !c.retained.hasMore
  }

  lemma RaiseRepresents(c: Capacity, limit: nat, all: seq<LogLine>, sizes: Sizes)
    requires Represents(c, all, sizes.maxLoad) && c.limit < limit <= sizes.maxLoad
    ensures Represents(AfterLimit(c, limit, sizes), all, sizes.maxLoad) <==> RaiseSafe(c)
    ensures c.loaded <= c.limit ==> RaiseSafe(c)
  {
  }

  // ---- Applying a full read ----

  /** A full read is sound at whatever limit it was captured and is applied. */
  lemma SnapshotRepresents(c: Capacity, file: seq<byte>, captured: nat, sizes: Sizes, dec: Decoder)
    requires sizes.block > 0 && captured <= sizes.maxLoad && c.limit <= sizes.maxLoad && NoLineAtLimit(file, sizes)
    ensures Represents(AfterRead(c, TailResult(file, captured, sizes, dec), sizes), AllLines(file, sizes, dec),
        sizes.maxLoad)
  {
    hide LinesFrom, Shown;
    TailReadFaithful(file, captured, sizes, dec);
    var all := AllLines(file, sizes, dec);
    var least := if captured <= c.limit then captured else c.limit;
    TakeTwice(Reverse(all), captured, c.limit, least);
    ReverseTake(all, least);
  }

  lemma TakeTwice<T>(s: seq<T>, m: nat, n: nat, least: nat)
    requires least == if m <= n then m else n
    ensures Take(Take(s, m), n) == Take(s, least)
  {
  }

  // ---- Applying a delta ----

  /**
   * When a delta of `k` new displayable lines, captured at one limit and applied at another, is sound: nothing was cut
   * off that the limit now wants between old and new lines, and the flag is not set for a cut that lost nothing.
   */
  predicate DeltaSafe(c: Capacity, k: nat, captured: nat, max: nat) {
    if k > captured + 1 && c.limit > captured + 1 then
      c.retained.lines == [] && c.loaded <= captured + 1
    else
      !(c.limit < max && k == captured + 1 && !c.retained.hasMore && |c.retained.lines| + k <= c.limit)
  }

  function Appended(c: Capacity, lines: seq<LogLine>, captured: nat, max: nat): Capacity {
    c.(retained := Retained(
      Last(c.retained.lines + Reverse(lines), c.limit),
      (c.retained.hasMore || |lines| > captured || |c.retained.lines| + |lines| > c.limit) && c.limit < max))
  }

  /** Without a hole the retained lines are the end of all lines. */
  lemma TailOfAppended(all: seq<LogLine>, ret: seq<LogLine>, newest: seq<LogLine>, lines: seq<LogLine>, limit: nat)
    requires |ret| <= |all| && ret == Last(all, |ret|) && |lines| <= |newest| && lines == Take(newest, |lines|)
    requires |lines| == |newest| || limit <= |lines| || ret == []
    ensures var now := Last(ret + Reverse(lines), limit); var more := all + Reverse(newest);
      && |now| == (if |ret| + |lines| <= limit then |ret| + |lines| else limit) && now == Last(more, |now|)
      && |more| == |all| + |newest|
  {
    var added := Reverse(newest);
    var now := Last(ret + Reverse(lines), limit);
    assert Reverse(lines) == Last(added, |lines|) by {
      ReverseTwice(newest);
      ReverseTake(added, |lines|);
    }
    if |lines| == |newest| {
      assert Reverse(lines) == added;
      assert ret + added == Last(all + added, |ret| + |added|);
      LastLast(all + added, |ret| + |added|, |now|);
    } else {
      LastOfTail(all, added, |lines|);
      if ret == [] {
        assert ret + Reverse(lines) == Reverse(lines);
      } else {
        LastOfTail(ret, Reverse(lines), limit);
      }
      LastLast(all + added, |lines|, |now|);
    }
  }

  ghost predicate Distinct(lines: seq<LogLine>) {
    forall i, j :: 0 <= i < j < |lines| ==> lines[i].offset != lines[j].offset
  }

  /** With lines cut off between old and new ones the retained lines are not the end of all lines. */
  lemma HoleShows(all: seq<LogLine>, ret: seq<LogLine>, newest: seq<LogLine>, lines: seq<LogLine>, limit: nat)
    requires |ret| <= |all| && ret == Last(all, |ret|) && |lines| < |newest| && lines == Take(newest, |lines|)
    requires |lines| < limit && ret != [] && Distinct(all + Reverse(newest))
    ensures var now := Last(ret + Reverse(lines), limit); var more := all + Reverse(newest);
      |now| <= |more| ==> now != Last(more, |now|)
  {
    var now := Last(ret + Reverse(lines), limit);
    var more := all + Reverse(newest);
    var i := |now| - |lines| - 1;
    assert now[i] == ret[|ret| - 1] == all[|all| - 1];
    assert more[|all| - 1] == all[|all| - 1];
    if |now| <= |more| {
      var j := |more| - |lines| - 1;
      assert Last(more, |now|)[i] == more[j];
      assert j > |all| - 1;
    }
  }

  lemma AppendExact(c: Capacity, all: seq<LogLine>, newest: seq<LogLine>, captured: nat, max: nat)
    requires Represents(c, all, max) && Distinct(all + Reverse(newest))
    ensures Represents(Appended(c, Take(newest, captured + 1), captured, max), all + Reverse(newest), max)
            <==> DeltaSafe(c, |newest|, captured, max)
  {
    var ret, lines := c.retained.lines, Take(newest, captured + 1);
    assert lines == Take(newest, |lines|);
    if |lines| < |newest| && |lines| < c.limit && ret != [] {
      HoleShows(all, ret, newest, lines, c.limit);
    } else {
      TailOfAppended(all, ret, newest, lines, c.limit);
    }
    hide Take, Reverse, Last, Distinct;
  }

  // ---- Offsets name lines ----

  ghost predicate Increasing(raws: seq<Raw>) {
    forall i, j :: 0 <= i < j < |raws| ==> raws[i].offset < raws[j].offset
  }

  lemma {:induction false} ShownIncreasing(raws: seq<Raw>, dec: Decoder, lim: Limit)
    requires Increasing(raws)
    ensures Increasing(Shown(raws, dec, lim))
    ensures forall i :: 0 <= i < |Shown(raws, dec, lim)| ==>
              raws != [] && raws[0].offset <= Shown(raws, dec, lim)[i].offset
  {
    if raws != [] {
      ShownIncreasing(raws[1..], dec, lim);
    }
  }

  lemma SplitIncreasing(file: seq<byte>)
    ensures Increasing(Split(file, 0))
  {
    forall i, j | 0 <= i < j < |Split(file, 0)| ensures Split(file, 0)[i].offset < Split(file, 0)[j].offset {
      LinesFromIncreasing(file, 0, 0, i, j);
    }
  }

  lemma AllLinesDistinct(file: seq<byte>, sizes: Sizes, dec: Decoder)
    ensures Distinct(AllLines(file, sizes, dec))
  {
    hide LinesFrom, Shown;
    SplitIncreasing(file);
    ShownIncreasing(Split(file, 0), dec, UpTo(sizes.maxLine));
  }

  /** How many displayable lines a file has gained. */
  function Gained(seen: seq<byte>, file: seq<byte>, sizes: Sizes, dec: Decoder): nat
    requires seen <= file
  {
    |Newest(NewLines(seen, file), dec, UpTo(sizes.maxLine))|
  }

  /** A delta keeps the retained lines representative if and only if it is safe, whatever limit it was captured at. */
  lemma DeltaRepresents(c: Capacity, seen: seq<byte>, file: seq<byte>, captured: nat, sizes: Sizes, dec: Decoder)
    requires seen <= file && captured <= sizes.maxLoad && Represents(c, AllLines(seen, sizes, dec), sizes.maxLoad)
    ensures Represents(AfterRead(c, DeltaResult(seen, file, captured, sizes, dec), sizes), AllLines(file, sizes, dec),
        sizes.maxLoad)
            <==> DeltaSafe(c, Gained(seen, file, sizes, dec), captured, sizes.maxLoad)
  {
    hide LinesFrom, Shown, Split, Newest, ShownLines, Represents, DeltaSafe;
    NewEntries(seen, file, sizes, dec);
    AllLinesDistinct(file, sizes, dec);
    var newest := Newest(NewLines(seen, file), dec, UpTo(sizes.maxLine));
    AppendExact(c, AllLines(seen, sizes, dec), newest, captured, sizes.maxLoad);
  }

  /** A delta that is applied at no higher limit than it was captured at is always safe. */
  lemma UnraisedDeltaSafe(c: Capacity, k: nat, captured: nat, max: nat)
    requires c.limit <= captured
    ensures DeltaSafe(c, k, captured, max)
  {
  }

  // ---- Runs of reads in flight and limit changes ----

  /** A queued read: the limit it captured, and whether it is a full one. */
  datatype Flight = Flight(captured: nat, full: bool)

  datatype Progress = Progress(seen: seq<byte>, capacity: Capacity, flight: Option<Flight>)

  datatype Act =
    | ChangeLimit(limit: nat)
    | StartRead(full: bool)
    | FinishRead(file: seq<byte>)
    | DropRead

  /** What the environment may do: limits up to the ceiling, an append-only file without a line of the maximal length.
      */
  ghost predicate Possible(p: Progress, act: Act, sizes: Sizes) {
    match act
    case ChangeLimit(limit) => limit <= sizes.maxLoad
    case FinishRead(file) => p.seen <= file && NoLineAtLimit(file, sizes)
    case _ => true
  }

  ghost function Perform(p: Progress, act: Act, sizes: Sizes, dec: Decoder): Progress
    requires Possible(p, act, sizes)
  {
    var c := p.capacity;
    match act
    case ChangeLimit(limit) => if limit == c.limit then p else p.(capacity := AfterLimit(c, limit, sizes))
    case StartRead(full) => if p.flight.Some? then p else p.(flight := Some(Flight(c.limit, full)))
    case FinishRead(file) =>
      if p.flight.None? then p
      else
        var f := p.flight.value;
        var r := if f.full then TailResult(file, f.captured, sizes, dec)
            else DeltaResult(p.seen, file, f.captured, sizes, dec);
        Progress(file, AfterRead(c, r, sizes), None)
    case DropRead => p.(flight := None)
  }

  /** A dropped read never lands. */
  lemma DroppedReadIsGone(p: Progress, file: seq<byte>, sizes: Sizes, dec: Decoder)
    requires Possible(p, FinishRead(file), sizes)
    ensures var dropped := Perform(p, DropRead, sizes, dec);
      && dropped.capacity == p.capacity && dropped.seen == p.seen
      && Possible(dropped, FinishRead(file), sizes)
      && Perform(dropped, FinishRead(file), sizes, dec) == dropped
  {
  }

  /** The guard of each act: what the code would have to look at to keep its lines representative. */
  ghost predicate Safe(p: Progress, act: Act, sizes: Sizes, dec: Decoder)
    requires Possible(p, act, sizes)
  {
    var c := p.capacity;
    match act
    case ChangeLimit(limit) =>
      && (limit < c.limit ==> LowerSafe(c, limit, |AllLines(p.seen, sizes, dec)|, sizes.maxLoad))
      && (limit > c.limit ==> RaiseSafe(c))
    case FinishRead(file) =>
      p.flight.None? || p.flight.value.full
      || DeltaSafe(c, Gained(p.seen, file, sizes, dec), p.flight.value.captured, sizes.maxLoad)
    case _ => true
  }

  ghost predicate Sound(p: Progress, sizes: Sizes, dec: Decoder) {
    && Represents(p.capacity, AllLines(p.seen, sizes, dec), sizes.maxLoad)
    && (p.flight.Some? ==> p.flight.value.captured <= sizes.maxLoad)
  }

  /** Every act keeps the retained lines representative if and only if its guard holds. */
  lemma PerformExact(p: Progress, act: Act, sizes: Sizes, dec: Decoder)
    requires sizes.block > 0 && Sound(p, sizes, dec) && Possible(p, act, sizes)
    ensures Sound(Perform(p, act, sizes, dec), sizes, dec) <==> Safe(p, act, sizes, dec)
  {
    assert p.capacity.limit <= sizes.maxLoad;
    hide LinesFrom, Shown, Split, ShownLines, AllLines, Represents, Absorb, LowerSafe, RaiseSafe, DeltaSafe,
        NoLineAtLimit,
         TailResult, DeltaResult, Gained, AfterLimit, AfterRead;
    var c := p.capacity;
    match act {
      case ChangeLimit(limit) =>
        if limit < c.limit {
          LowerRepresents(c, limit, AllLines(p.seen, sizes, dec), sizes);
        } else if limit > c.limit {
          RaiseRepresents(c, limit, AllLines(p.seen, sizes, dec), sizes);
        }
      case FinishRead(file) =>
        if p.flight.Some? {
          if p.flight.value.full {
            SnapshotRepresents(c, file, p.flight.value.captured, sizes, dec);
          } else {
            DeltaRepresents(c, p.seen, file, p.flight.value.captured, sizes, dec);
          }
        }
      case StartRead(_) =>
      case DropRead =>
    }
  }

  ghost predicate SafeRun(p: Progress, acts: seq<Act>, sizes: Sizes, dec: Decoder)
    decreases |acts|
  {
    acts == [] ||
    (Possible(p, acts[0], sizes) && Safe(p, acts[0], sizes, dec)
     && SafeRun(Perform(p, acts[0], sizes, dec), acts[1..], sizes, dec))
  }

  ghost function PerformAll(p: Progress, acts: seq<Act>, sizes: Sizes, dec: Decoder): Progress
    requires SafeRun(p, acts, sizes, dec)
    decreases |acts|
  {
    if acts == [] then p else PerformAll(Perform(p, acts[0], sizes, dec), acts[1..], sizes, dec)
  }

  /** In every run of safe acts a believed capacity that covers the limit means exact lines and an exact flag. */
  lemma {:induction false} CapacityTrusted(p: Progress, acts: seq<Act>, sizes: Sizes, dec: Decoder)
    requires sizes.block > 0 && Sound(p, sizes, dec) && SafeRun(p, acts, sizes, dec)
    ensures var q := PerformAll(p, acts, sizes, dec); Sound(q, sizes, dec) && Trusted(q.capacity, q.seen, sizes, dec)
    decreases |acts|
  {
    if acts == [] {
      RepresentsTrusted(p.capacity, p.seen, sizes, dec);
    } else {
      hide Sound, Trusted, Perform, Safe, Possible;
      PerformExact(p, acts[0], sizes, dec);
      CapacityTrusted(Perform(p, acts[0], sizes, dec), acts[1..], sizes, dec);
    }
  }

  // ---- Three ways to lose lines or the flag ----

  /** At the moment of a raise inside the believed capacity, trust is kept if and only if no older lines are reported.
      */
  lemma RaiseTrusted(c: Capacity, limit: nat, file: seq<byte>, sizes: Sizes, dec: Decoder)
    requires Trusted(c, file, sizes, dec) && c.limit < limit <= sizes.maxLoad && c.loaded >= limit
    ensures Trusted(AfterLimit(c, limit, sizes), file, sizes, dec) <==> !c.retained.hasMore
  {
    hide LinesFrom, Shown;
    var all := AllLines(file, sizes, dec);
    assert c.retained == Exact(file, c.limit, sizes, dec);
    assert |c.retained.lines| <= c.limit;
    assert c.retained.hasMore <==> |all| > c.limit;
  }

  /** A full read of a file with one displayable line, at limit three. */
  function LoadedThree(seen: seq<byte>, sizes: Sizes, dec: Decoder): Capacity {
    Capacity(Exact(seen, 3, sizes, dec), 3, 3)
  }

  lemma OneLine(seen: seq<byte>, sizes: Sizes, dec: Decoder)
    requires |AllLines(seen, sizes, dec)| == 1 && sizes.maxLoad > 3
    ensures var c := LoadedThree(seen, sizes, dec);
      && Represents(c, AllLines(seen, sizes, dec), sizes.maxLoad)
      && AfterLimit(c, 1, sizes) == c.(limit := 1) && !c.retained.hasMore
      && c.retained.lines == AllLines(seen, sizes, dec) && Exact(seen, 3, sizes, dec) == Exact(seen, 1, sizes, dec)
  {
    hide LinesFrom, Shown;
  }

  /** A stale raise, for every file that grows from one displayable line to more: load, lower the limit to one, which
      drops nothing and leaves the believed capacity, read the new lines, raise the limit to two. A line is missing. */
  lemma StaleCapacity(seen: seq<byte>, file: seq<byte>, sizes: Sizes, dec: Decoder)
    requires seen <= file && sizes.maxLoad > 3
    requires |AllLines(seen, sizes, dec)| == 1 && |AllLines(file, sizes, dec)| >= 2
    ensures
      var lowered := AfterLimit(LoadedThree(seen, sizes, dec), 1, sizes);
      var grown := AfterRead(lowered, DeltaResult(seen, file, 1, sizes, dec), sizes);
      && Trusted(grown, file, sizes, dec)
      && !Trusted(AfterLimit(grown, 2, sizes), file, sizes, dec)
  {
    hide LinesFrom, Shown, Newest;
    OneLine(seen, sizes, dec);
    DeltaExact(seen, file, 1, sizes, dec);
  }

  /** A hole, for every file that grows from one displayable line to four or more: load, lower the limit to one, queue a
      delta, raise the limit to three with nothing older reported, and the delta lands. The oldest line and the two
      newest are retained as if nothing were between them. */
  lemma HoleInFlight(seen: seq<byte>, file: seq<byte>, sizes: Sizes, dec: Decoder)
    requires seen <= file && NoLineAtLimit(file, sizes) && sizes.maxLoad > 3
    requires |AllLines(seen, sizes, dec)| == 1 && |AllLines(file, sizes, dec)| >= 4
    ensures
      var p := Progress(seen, LoadedThree(seen, sizes, dec), None);
      var a := Perform(p, ChangeLimit(1), sizes, dec);
      var b := Perform(a, StartRead(false), sizes, dec);
      var raised := Perform(b, ChangeLimit(3), sizes, dec);
      && Sound(p, sizes, dec) && Safe(p, ChangeLimit(1), sizes, dec) && Safe(b, ChangeLimit(3), sizes, dec)
      && raised.seen == seen && Trusted(raised.capacity, seen, sizes, dec)
      && !Trusted(Perform(raised, FinishRead(file), sizes, dec).capacity, file, sizes, dec)
  {
    hide LinesFrom, Shown, Newest, ShownLines, NoLineAtLimit;
    var c := LoadedThree(seen, sizes, dec);
    OneLine(seen, sizes, dec);
    RepresentsTrusted(c, seen, sizes, dec);
    HoleLands(c, seen, file, sizes, dec);
  }

  lemma HoleLands(c: Capacity, seen: seq<byte>, file: seq<byte>, sizes: Sizes, dec: Decoder)
    requires seen <= file && sizes.maxLoad > 3 && c.limit == c.loaded == 3
    requires c.retained.lines == AllLines(seen, sizes, dec)
    requires |AllLines(seen, sizes, dec)| == 1 && |AllLines(file, sizes, dec)| >= 4
    ensures !Trusted(AfterRead(c, DeltaResult(seen, file, 1, sizes, dec), sizes), file, sizes, dec)
  {
    hide LinesFrom, Shown, Newest, ShownLines;
    var all, newest := AllLines(seen, sizes, dec), Newest(NewLines(seen, file), dec, UpTo(sizes.maxLine));
    NewEntries(seen, file, sizes, dec);
    AllLinesDistinct(file, sizes, dec);
    assert AllLines(file, sizes, dec) == all + Reverse(newest);
    HoleShows(all, all, newest, Take(newest, 2), 3);
    hide Distinct;
  }

  /** A lost flag, for every file with two displayable lines or more: load at limit one, queue a delta, raise the limit
      to the ceiling, and the delta lands, even empty. Back at limit one, no more lines are reported. */
  lemma FlagLostAtCeiling(file: seq<byte>, sizes: Sizes, dec: Decoder)
    requires |AllLines(file, sizes, dec)| >= 2 && sizes.maxLoad > 1 && NoLineAtLimit(file, sizes)
    ensures
      var p := Progress(file, Capacity(Exact(file, 1, sizes, dec), 1, 1), None);
      var a := Perform(p, StartRead(false), sizes, dec);
      var b := Perform(a, ChangeLimit(sizes.maxLoad), sizes, dec);
      var c := Perform(b, FinishRead(file), sizes, dec);
      && Sound(p, sizes, dec) && Safe(a, ChangeLimit(sizes.maxLoad), sizes, dec)
          && Safe(b, FinishRead(file), sizes, dec)
      && !Trusted(Perform(c, ChangeLimit(1), sizes, dec).capacity, file, sizes, dec)
  {
    hide LinesFrom, Shown, Newest, ShownLines, NoLineAtLimit;
    NewEntries(file, file, sizes, dec);
    var newest := Newest(NewLines(file, file), dec, UpTo(sizes.maxLine));
    assert |newest| == 0;
    assert newest == [];
    assert Take(newest, 2) == [] && Reverse<LogLine>([]) == [];
    var one := Exact(file, 1, sizes, dec);
    assert |one.lines| == 1 && one.hasMore;
  }
}
