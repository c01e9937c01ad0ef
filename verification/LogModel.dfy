/** The model behind the log page: retained lines, filtered rows, row notifications, and following a growing file. */

/** Row notifications and what they do to a view that mirrors the rows. */
module RowChanges {
  datatype Change<T> = Inserted(first: nat, rows: seq<T>) | Removed(first: nat, count: nat) | Reset(rows: seq<T>)

  predicate Fits<T>(mirror: seq<T>, c: Change<T>) {
    match c
    case Inserted(first, rows) => first <= |mirror| && rows != []
    case Removed(first, count) => first + count <= |mirror| && count > 0
    case Reset(_) => true
  }

  function Apply<T>(mirror: seq<T>, c: Change<T>): seq<T>
    requires Fits(mirror, c)
  {
    match c
    case Inserted(first, rows) => mirror[..first] + rows + mirror[first..]
    case Removed(first, count) => mirror[..first] + mirror[first + count..]
    case Reset(rows) => rows
  }

  /** Applying `changes` to `mirror`, each one fitting, ends in `rows`. */
  ghost predicate Replays<T>(mirror: seq<T>, changes: seq<Change<T>>, rows: seq<T>)
    decreases |changes|
  {
    if changes == [] then mirror == rows
    else Fits(mirror, changes[0]) && Replays(Apply(mirror, changes[0]), changes[1..], rows)
  }

  lemma {:induction false} ReplaysThen<T>(mirror: seq<T>, changes: seq<Change<T>>, mid: seq<T>, c: Change<T>)
    requires Replays(mirror, changes, mid) && Fits(mid, c)
    ensures Replays(mirror, changes + [c], Apply(mid, c))
    decreases |changes|
  {
    if changes == [] {
      assert [c][1..] == [];
    } else {
      assert (changes + [c])[1..] == changes[1..] + [c];
      ReplaysThen(Apply(mirror, changes[0]), changes[1..], mid, c);
    }
  }

  lemma {:induction false} ReplaysConcat<T>(mirror: seq<T>, first: seq<Change<T>>, mid: seq<T>,
      second: seq<Change<T>>, rows: seq<T>)
    requires Replays(mirror, first, mid) && Replays(mid, second, rows)
    ensures Replays(mirror, first + second, rows)
    decreases |first|
  {
    if first == [] {
      assert first + second == second;
    } else {
      assert (first + second)[1..] == first[1..] + second;
      ReplaysConcat(Apply(mirror, first[0]), first[1..], mid, second, rows);
    }
  }

  lemma ReplaysNothing<T>(rows: seq<T>)
    ensures Replays(rows, [], rows)
  {
  }

  lemma ReplaysOne<T>(mirror: seq<T>, c: Change<T>)
    requires Fits(mirror, c)
    ensures Replays(mirror, [c], Apply(mirror, c))
  {
    assert [c][1..] == [];
  }
}

module LogModel {
  import opened Sequences
  import opened LogText
  import opened TailReader
  import opened DeltaReader
  import opened RowChanges

  /** Search text and the warnings-and-errors switch. */
  datatype RowFilter = RowFilter(text: string, warningsOnly: bool)

  /** Case-insensitive substring search, as Qt provides it. */
  type Search = (string, string) -> bool

  function Searchable(line: LogLine): string {
    line.timestamp + " "
    + (if line.isError then "error " else if line.isWarning then "warning " else "regular ")
    + line.message
  }

  predicate Matches(line: LogLine, f: RowFilter, search: Search) {
    && (f.warningsOnly ==> line.isError || line.isWarning)
    && (f.text != "" ==> search(Searchable(line), f.text))
  }

  /** The rows a filter leaves. */
  function Filtered(lines: seq<LogLine>, f: RowFilter, search: Search): (r: seq<LogLine>)
    ensures |r| <= |lines|
  {
    if lines == [] then [] else
      var init := Filtered(lines[..|lines| - 1], f, search);
      if Matches(lines[|lines| - 1], f, search) then init + [lines[|lines| - 1]] else init
  }

  /** Without filter every line is a row. */
  lemma {:induction false} NoFilterShowsAll(lines: seq<LogLine>, search: Search)
    ensures Filtered(lines, RowFilter("", false), search) == lines
  {
    if lines != [] {
      NoFilterShowsAll(lines[..|lines| - 1], search);
    }
  }

  /** The rows are exactly the lines that the switch and the search text let through, as often as they occur. */
  lemma {:induction false} FilteredExact(lines: seq<LogLine>, f: RowFilter, search: Search, line: LogLine)
    ensures multiset(Filtered(lines, f, search))[line]
         == if (f.warningsOnly && !line.isError && !line.isWarning)
               || (f.text != "" && !search(line.timestamp + " " + Level(line) + " " + line.message, f.text)) then 0
            else multiset(lines)[line]
  {
    if lines != [] {
      var n := |lines| - 1;
      assert lines == lines[..n] + [lines[n]];
      FilteredExact(lines[..n], f, search, line);
      SearchedText(lines[n]);
      hide Searchable;
    }
  }

  /** The word by which a line's level can be searched. */
  function Level(line: LogLine): string {
    if line.isError then "error" else if line.isWarning then "warning" else "regular"
  }

  lemma SearchedText(line: LogLine)
    ensures Searchable(line) == line.timestamp + " " + Level(line) + " " + line.message
  {
  }

  lemma {:induction false} FilteredConcat(a: seq<LogLine>, b: seq<LogLine>, f: RowFilter, search: Search)
    ensures Filtered(a + b, f, search) == Filtered(a, f, search) + Filtered(b, f, search)
    decreases |b|
  {
    if b == [] {
      assert a + b == a;
    } else {
      assert (a + b)[..|a + b| - 1] == a + b[..|b| - 1];
      FilteredConcat(a, b[..|b| - 1], f, search);
    }
  }

  /** Dropping lines in front and appending lines behind does the same to the rows. */
  lemma ShiftedRows(all: seq<LogLine>, remove: nat, lines: seq<LogLine>, f: RowFilter, search: Search)
    requires remove <= |all|
    ensures var gone := |Filtered(all[..remove], f, search)|;
      && gone <= |Filtered(all, f, search)|
      && Filtered(all[remove..] + lines, f, search) == Filtered(all, f, search)[gone..] + Filtered(lines, f, search)
  {
    hide Filtered;
    assert all == all[..remove] + all[remove..];
    FilteredConcat(all[..remove], all[remove..], f, search);
    FilteredConcat(all[remove..], lines, f, search);
  }

  method FilteredLines(lines: seq<LogLine>, f: RowFilter, search: Search) returns (r: seq<LogLine>)
    ensures r == Filtered(lines, f, search)
  {
    r := [];
    for i := 0 to |lines|
      invariant r == Filtered(lines[..i], f, search)
    {
      assert lines[..i + 1][..i] == lines[..i];
      if Matches(lines[i], f, search) {
        r := r + [lines[i]];
      }
    }
    assert lines[..|lines|] == lines;
  }

  /** Retained lines and the more-lines flag after a read result, when at most `limit` lines are kept. */
  datatype Retained = Retained(lines: seq<LogLine>, hasMore: bool)

  function Absorb(was: Retained, r: ReadResult, limit: nat, sizes: Sizes): Retained {
    if r.fullSnapshot then
      Retained(Reverse(Take(r.lines, limit)), (r.hasMore || |r.lines| > limit) && limit < sizes.maxLoad)
    else
      Retained(Last(was.lines + Reverse(r.lines), limit),
               (was.hasMore || r.hasMore || |was.lines| + |r.lines| > limit) && limit < sizes.maxLoad)
  }

  /** What should be retained of `file`: its last `limit` displayable lines. */
  function Exact(file: seq<byte>, limit: nat, sizes: Sizes, dec: Decoder): Retained {
    var all := ShownLines(file, dec, UpTo(sizes.maxLine));
    Retained(Last(all, limit), |all| > limit && limit < sizes.maxLoad)
  }

  lemma LastOfLast<T>(a: seq<T>, b: seq<T>, m: nat, n: nat)
    requires m >= n
    ensures Last(a + Last(b, m), n) == Last(a + b, n)
  {
    if |b| > m {
      LastOfTail(a, Last(b, m), n);
      LastOfTail(a, b, n);
      LastLast(b, m, n);
    }
  }

  lemma LastLast<T>(s: seq<T>, m: nat, n: nat)
    requires m >= n
    ensures Last(Last(s, m), n) == Last(s, n)
  {
  }

  lemma ReverseTake<T>(s: seq<T>, n: nat)
    ensures Reverse(Take(Reverse(s), n)) == Last(s, n)
  {
    TakeReverse(s, n);
    ReverseTwice(Last(s, n));
  }

  /** A full snapshot of a file without a line at the size limit is exact. */
  lemma SnapshotExact(file: seq<byte>, was: Retained, lost: bool, limit: nat, sizes: Sizes, dec: Decoder)
    requires sizes.block > 0 && limit <= sizes.maxLoad && NoLineAtLimit(file, sizes)
    ensures var r := TailResult(file, limit, sizes, dec).(continuityLost := lost);
      Absorb(was, r, limit, sizes) == Exact(file, limit, sizes, dec)
  {
    hide LinesFrom, Shown;
    TailReadFaithful(file, limit, sizes, dec);
    var all := ShownLines(file, dec, UpTo(sizes.maxLine));
    var newest := Reverse(all);
    assert TailNewest(file, sizes, dec) == newest;
    assert Take(Take(newest, limit), limit) == Take(newest, limit);
    ReverseTake(all, limit);
  }

  lemma NotLost(file: seq<byte>, limit: nat, sizes: Sizes, dec: Decoder)
    ensures TailResult(file, limit, sizes, dec).(continuityLost := false) == TailResult(file, limit, sizes, dec)
  {
    hide LinesFrom, Shown, TailNewest, UnfinishedOf, AnchorOf;
  }

  lemma NewEntries(seen: seq<byte>, file: seq<byte>, sizes: Sizes, dec: Decoder)
    requires seen <= file
    ensures ShownLines(file, dec, UpTo(sizes.maxLine))
         == ShownLines(seen, dec, UpTo(sizes.maxLine)) + Reverse(Newest(NewLines(seen, file), dec, UpTo(sizes.maxLine)))
  {
    hide LinesFrom, Shown;
    var u := UpTo(sizes.maxLine);
    NewLinesComplete(seen, file);
    ShownConcat(Split(seen, 0), NewLines(seen, file), dec, u);
    EntriesConcat(Shown(Split(seen, 0), dec, u), Shown(NewLines(seen, file), dec, u), dec);
    ReverseTwice(Entries(Shown(NewLines(seen, file), dec, u), dec));
  }

  /** A delta on top of an exact state is exact. */
  lemma DeltaExact(seen: seq<byte>, file: seq<byte>, limit: nat, sizes: Sizes, dec: Decoder)
    requires seen <= file && limit <= sizes.maxLoad
    ensures Absorb(Exact(seen, limit, sizes, dec), DeltaResult(seen, file, limit, sizes, dec), limit, sizes)
         == Exact(file, limit, sizes, dec)
  {
    hide LinesFrom, Shown, Split, Newest;
    NewEntries(seen, file, sizes, dec);
    var newest := Newest(NewLines(seen, file), dec, UpTo(sizes.maxLine));
    AppendAlgebra(ShownLines(seen, dec, UpTo(sizes.maxLine)), newest, limit);
  }

  /** Appending the newest `limit + 1` of the new lines to the last `limit` old ones loses nothing that counts. */
  lemma AppendAlgebra(before: seq<LogLine>, newest: seq<LogLine>, limit: nat)
    ensures var lines := Take(newest, limit + 1);
      && Last(Last(before, limit) + Reverse(lines), limit) == Last(before + Reverse(newest), limit)
      && (|before| > limit || |lines| > limit || |Last(before, limit)| + |lines| > limit
          <==> |before + Reverse(newest)| > limit)
  {
    var added, lines := Reverse(newest), Take(newest, limit + 1);
    assert Reverse(lines) == Last(added, limit + 1) by {
      ReverseTwice(newest);
      ReverseTake(added, limit + 1);
    }
    assert Last(Last(before, limit) + Reverse(lines), limit) == Last(before + added, limit) by {
      LastOfLast(Last(before, limit), added, limit + 1, limit);
      LastConcat(before, added, limit);
    }
  }

  /** Lines of an earlier state of the file are lines of the later one. */
  lemma NoLineAtLimitBefore(seen: seq<byte>, file: seq<byte>, sizes: Sizes)
    requires seen <= file && NoLineAtLimit(file, sizes)
    ensures NoLineAtLimit(seen, sizes)
  {
    hide LinesFrom;
    NewLinesComplete(seen, file);
    forall i | 0 <= i < |Split(seen, 0)|
      ensures |Split(seen, 0)[i].bytes| != sizes.maxLine
    {
      assert Split(file, 0)[i] == Split(seen, 0)[i];
    }
  }

  /** One read of a run: the file as it was then, and whether the read took a full snapshot. */
  datatype Read = Read(file: seq<byte>, full: bool)

  ghost predicate AppendOnly(run: seq<Read>) {
    forall i :: 0 < i < |run| ==> run[i - 1].file <= run[i].file
  }

  /** The retained state after a run of reads; the first one is always a full snapshot. */
  ghost function AfterRun(run: seq<Read>, limit: nat, sizes: Sizes, dec: Decoder): Retained
    requires run != [] && AppendOnly(run)
    decreases |run|
  {
    var n := |run| - 1;
    var file := run[n].file;
    if n == 0 then Absorb(Retained([], false), TailResult(file, limit, sizes, dec), limit, sizes)
    else
      var was := AfterRun(run[..n], limit, sizes, dec);
      Absorb(was, if run[n].full then TailResult(file, limit, sizes, dec)
                  else DeltaResult(run[n - 1].file, file, limit, sizes, dec), limit, sizes)
  }

  /** Every run over an append-only file, however the appends are cut into reads and whichever reads are full
      snapshots, retains exactly the last `limit` displayable lines of the file read last. */
  lemma {:induction false} RunExact(run: seq<Read>, limit: nat, sizes: Sizes, dec: Decoder)
    requires run != [] && AppendOnly(run) && sizes.block > 0 && limit <= sizes.maxLoad
    requires NoLineAtLimit(run[|run| - 1].file, sizes)
    ensures AfterRun(run, limit, sizes, dec) == Exact(run[|run| - 1].file, limit, sizes, dec)
    decreases |run|
  {
    hide LinesFrom, Shown, Absorb, Exact, NoLineAtLimit, TailResult, DeltaResult;
    var n := |run| - 1;
    var file := run[n].file;
    if n == 0 {
      SnapshotExact(file, Retained([], false), false, limit, sizes, dec);
      NotLost(file, limit, sizes, dec);
    } else {
      NoLineAtLimitBefore(run[n - 1].file, file, sizes);
      RunExact(run[..n], limit, sizes, dec);
      if run[n].full {
        SnapshotExact(file, AfterRun(run[..n], limit, sizes, dec), false, limit, sizes, dec);
        NotLost(file, limit, sizes, dec);
      } else {
        DeltaExact(run[n - 1].file, file, limit, sizes, dec);
      }
    }
  }

  /** A stretch of rows that old and new lists have in common. */
  datatype Overlap = Overlap(oldStart: nat, newStart: nat, count: nat)

  ghost predicate IsOverlap(was: seq<LogLine>, now: seq<LogLine>, o: Overlap) {
    && o.oldStart + o.count <= |was| && o.newStart + o.count <= |now|
    && forall k :: o.oldStart <= k < o.oldStart + o.count ==> was[k] == now[k - o.oldStart + o.newStart]
  }

  lemma OverlapParts(was: seq<LogLine>, now: seq<LogLine>, o: Overlap)
    requires IsOverlap(was, now, o)
    ensures now[..o.newStart] + was[o.oldStart..o.oldStart + o.count] + now[o.newStart + o.count..] == now
  {
  }

  ghost predicate DistinctOffsets(lines: seq<LogLine>) {
    forall i, j :: 0 <= i < j < |lines| ==> lines[i].offset != lines[j].offset
  }

  /** Finds a common run by the source offset of the lines: it starts at the first row that survives, cannot be
      made longer, and is empty only if no row survives. */
  method FindOverlap(was: seq<LogLine>, now: seq<LogLine>) returns (o: Overlap)
    ensures IsOverlap(was, now, o)
    ensures o.count == 0 && DistinctOffsets(now) ==> forall i :: 0 <= i < |was| ==> was[i] !in now
    ensures o.count > 0 && DistinctOffsets(now) ==> forall i :: 0 <= i < o.oldStart ==> was[i] !in now
    ensures o.count > 0 ==> o.oldStart + o.count == |was| || o.newStart + o.count == |now|
                            || was[o.oldStart + o.count] != now[o.newStart + o.count]
  {
    var positions: map<nat, nat> := map[];
    for i := 0 to |now|
      invariant forall p :: p in positions ==> positions[p] < i && now[positions[p]].offset == p
      invariant forall j :: 0 <= j < i ==> now[j].offset in positions
    {
      positions := positions[now[i].offset := i];
    }
    for i := 0 to |was|
      invariant DistinctOffsets(now) ==> forall k :: 0 <= k < i ==> was[k] !in now
    {
      if was[i].offset in positions && was[i] == now[positions[was[i].offset]] {
        var count := CommonRun(was, now, i, positions[was[i].offset]);
        return Overlap(i, positions[was[i].offset], count);
      }
    }
    o := Overlap(0, 0, 0);
  }

  /** How far two lists agree from the given positions on. */
  method CommonRun(was: seq<LogLine>, now: seq<LogLine>, i: nat, j: nat) returns (count: nat)
    requires i <= |was| && j <= |now|
    ensures IsOverlap(was, now, Overlap(i, j, count))
    ensures i + count == |was| || j + count == |now| || was[i + count] != now[j + count]
  {
    count := 0;
    while i + count < |was| && j + count < |now| && was[i + count] == now[j + count]
      invariant IsOverlap(was, now, Overlap(i, j, count))
    {
      count := count + 1;
    }
  }

  /** Retained lines together with the requested capacity and the capacity they are believed to represent. */
  datatype Capacity = Capacity(retained: Retained, limit: nat, loaded: nat)

  /** Applying a read result. */
  function AfterRead(c: Capacity, r: ReadResult, sizes: Sizes): Capacity {
    Capacity(
      Absorb(c.retained, r, c.limit, sizes),
      c.limit,
      if !r.fullSnapshot then c.loaded else if r.snapshotLimit <= c.limit then r.snapshotLimit else c.limit)
  }

  /** Changing the load limit: the believed capacity is lowered only if lines had to be dropped. */
  function AfterLimit(c: Capacity, limit: nat, sizes: Sizes): Capacity {
    if |c.retained.lines| > limit then
      Capacity(Retained(Last(c.retained.lines, limit), limit < sizes.maxLoad),
               limit,
               if c.loaded <= limit then c.loaded else limit)
    else c.(limit := limit)
  }

  /** The believed capacity can be trusted: if it covers the limit, the retained lines are exact. Reactivation
      relies on this to skip the full read. */
  ghost predicate Trusted(c: Capacity, file: seq<byte>, sizes: Sizes, dec: Decoder) {
    c.loaded >= c.limit ==> c.retained == Exact(file, c.limit, sizes, dec)
  }

  class DebugLogModel {
    const sizes: Sizes
    const dec: Decoder
    const search: Search
    var allLines: seq<LogLine>
    var displayLines: seq<LogLine>
    var filter: RowFilter
    var loadLimit: nat
    var loadedLimit: nat
    var hasMoreLines: bool
    var fileSize: int
    var unfinished: Unfinished
    var anchor: seq<byte>
    /** The file as it was at the last applied read. */
    ghost var seen: seq<byte>

    /** Rows are the filter of the retained lines, the retained lines fit the limit, and the saved position is that
        of a forward scan of everything read so far. */
    ghost predicate Valid()
      reads this
    {
      && sizes.block > 0
      && displayLines == Filtered(allLines, filter, search)
      && |allLines| <= loadLimit <= sizes.maxLoad
      && (fileSize >= 0 ==>
            fileSize == |seen| && unfinished == UnfinishedOf(seen, sizes.maxLine) && anchor == AnchorOf(seen))
    }

    constructor (sizes: Sizes, dec: Decoder, search: Search)
      requires sizes.block > 0 && sizes.maxLoad >= 1000
      ensures Valid() && fileSize < 0 && allLines == [] && loadLimit == 1000
    {
      this.sizes, this.dec, this.search := sizes, dec, search;
      allLines, displayLines := [], [];
      filter := RowFilter("", false);
      loadLimit, loadedLimit, hasMoreLines := 1000, 0, false;
      fileSize, unfinished, anchor := -1, Unfinished([], false), [];
      seen := [];
    }

    /** Brings the rows to `lines`, keeping a common run in place. */
    method ApplyDisplayLines(lines: seq<LogLine>, forceReset: bool) returns (changes: seq<Change<LogLine>>)
      modifies `displayLines
      ensures displayLines == lines
      ensures Replays(old(displayLines), changes, displayLines)
      ensures !forceReset ==> forall i :: 0 <= i < |changes| ==> !changes[i].Reset?
    {
      if !forceReset && lines == displayLines {
        return [];
      }
      ghost var was := displayLines;
      changes := [];
      if forceReset {
        ReplaysOne(was, Reset(lines));
        displayLines := lines;
        return [Reset(lines)];
      }
      var o := Overlap(0, 0, 0);
      if displayLines != [] && lines != [] {
        o := FindOverlap(displayLines, lines);
      }
      if o.count == 0 {
        o := Overlap(0, 0, 0);
      }
      OverlapParts(displayLines, lines, o);
      var removed := RemoveAround(o);
      ghost var kept := displayLines;
      var inserted := InsertAround(lines[..o.newStart], lines[o.newStart + o.count..]);
      changes := removed + inserted;
      ReplaysConcat(was, removed, kept, inserted, displayLines);
    }

    /** Inserts rows in front of and behind the present ones. */
    method InsertAround(before: seq<LogLine>, after: seq<LogLine>) returns (changes: seq<Change<LogLine>>)
      modifies `displayLines
      ensures displayLines == before + old(displayLines) + after
      ensures Replays(old(displayLines), changes, displayLines)
      ensures forall i :: 0 <= i < |changes| ==> changes[i].Inserted?
    {
      ghost var was := displayLines;
      changes := [];
      if before != [] {
        ReplaysThen(was, changes, displayLines, Inserted(0, before));
        changes := changes + [Inserted(0, before)];
        displayLines := before + displayLines;
      }
      if after != [] {
        var first := |displayLines|;
        ReplaysThen(was, changes, displayLines, Inserted(first, after));
        assert Apply(displayLines, Inserted(first, after)) == displayLines + after;
        changes := changes + [Inserted(first, after)];
        displayLines := displayLines + after;
      }
    }

    /** Removes the rows outside the common run, the ones behind it first. */
    method RemoveAround(o: Overlap) returns (changes: seq<Change<LogLine>>)
      requires o.oldStart + o.count <= |displayLines|
      modifies `displayLines
      ensures displayLines == old(displayLines)[o.oldStart..o.oldStart + o.count]
      ensures Replays(old(displayLines), changes, displayLines)
      ensures forall i :: 0 <= i < |changes| ==> changes[i].Removed?
    {
      ghost var was := displayLines;
      changes := [];
      var end := o.oldStart + o.count;
      var suffix := |displayLines| - end;
      if suffix > 0 {
        ReplaysThen(was, changes, displayLines, Removed(end, suffix));
        changes := changes + [Removed(end, suffix)];
        displayLines := displayLines[..end];
      }
      if o.oldStart > 0 {
        ReplaysThen(was, changes, displayLines, Removed(0, o.oldStart));
        changes := changes + [Removed(0, o.oldStart)];
        displayLines := displayLines[o.oldStart..];
      }
    }

    ghost function Capacities(): Capacity
      reads this
    {
      Capacity(Retained(allLines, hasMoreLines), loadLimit, loadedLimit)
    }

    /** Replaces the retained lines. */
    method ApplyLines(lines: seq<LogLine>, forceReset: bool) returns (changes: seq<Change<LogLine>>)
      modifies `allLines, `displayLines
      ensures allLines == lines && displayLines == Filtered(lines, filter, search)
      ensures Replays(old(displayLines), changes, displayLines)
    {
      var display := FilteredLines(lines, filter, search);
      allLines := lines;
      changes := ApplyDisplayLines(display, forceReset);
    }

    /** Appends new lines, given newest first, and drops the oldest retained ones beyond the limit. */
    method ApplyDelta(newest: seq<LogLine>) returns (pruned: bool, changes: seq<Change<LogLine>>)
      requires displayLines == Filtered(allLines, filter, search) && |allLines| <= loadLimit
      modifies `allLines, `displayLines
      ensures allLines == Last(old(allLines) + Reverse(newest), loadLimit)
      ensures displayLines == Filtered(allLines, filter, search)
      ensures pruned <==> |old(allLines)| + |newest| > loadLimit
      ensures Replays(old(displayLines), changes, displayLines)
    {
      hide Filtered;
      changes := [];
      if newest == [] {
        assert allLines + Reverse(newest) == allLines;
        return false, [];
      }
      var omitted := |newest| > loadLimit;
      var lines := Reverse(if omitted then newest[..loadLimit] else newest);
      var keep := if |allLines| < loadLimit - |lines| then |allLines| else loadLimit - |lines|;
      var remove := |allLines| - keep;
      KeepNewest(allLines, newest, lines, keep, loadLimit);
      var removedRows := FilteredLines(allLines[..remove], filter, search);
      var insertedRows := FilteredLines(lines, filter, search);
      ShiftedRows(allLines, remove, lines, filter, search);
      changes := ShiftRows(|removedRows|, insertedRows);
      allLines := allLines[remove..] + lines;
      pruned := omitted || remove > 0;
    }

    /** Drops rows at the front and appends rows at the end. */
    method ShiftRows(remove: nat, rows: seq<LogLine>) returns (changes: seq<Change<LogLine>>)
      requires remove <= |displayLines|
      modifies `displayLines
      ensures displayLines == old(displayLines)[remove..] + rows
      ensures Replays(old(displayLines), changes, displayLines)
    {
      ghost var was := displayLines;
      changes := [];
      if remove > 0 {
        ReplaysThen(was, changes, displayLines, Removed(0, remove));
        changes := changes + [Removed(0, remove)];
        displayLines := displayLines[remove..];
      }
      if rows != [] {
        var first := |displayLines|;
        ReplaysThen(was, changes, displayLines, Inserted(first, rows));
        assert Apply(displayLines, Inserted(first, rows)) == displayLines + rows;
        changes := changes + [Inserted(first, rows)];
        displayLines := displayLines + rows;
      }
    }

    /** Search text or the warnings switch changed. */
    method SetFilter(f: RowFilter) returns (changes: seq<Change<LogLine>>)
      requires Valid()
      modifies `filter, `displayLines
      ensures Valid() && filter == f
      ensures Replays(old(displayLines), changes, displayLines)
    {
      if f == filter {
        return [];
      }
      filter := f;
      var display := FilteredLines(allLines, filter, search);
      changes := ApplyDisplayLines(display, true);
    }

    /** Clamps and sets the load limit; `raised` asks an active caller for a full read. */
    method SetLoadLimit(requested: int) returns (raised: bool, changes: seq<Change<LogLine>>)
      requires Valid() && sizes.maxLoad >= 1
      modifies `loadLimit, `allLines, `displayLines, `loadedLimit, `hasMoreLines
      ensures Valid()
      ensures loadLimit == if requested < 1 then 1 else if requested > sizes.maxLoad then sizes.maxLoad else requested
      ensures loadLimit != old(loadLimit) ==> Capacities() == AfterLimit(old(Capacities()), loadLimit, sizes)
      ensures loadLimit == old(loadLimit) ==> Capacities() == old(Capacities()) && changes == []
      ensures raised <==> loadLimit > old(loadLimit)
      ensures Replays(old(displayLines), changes, displayLines)
    {
      var limit := if requested < 1 then 1 else if requested > sizes.maxLoad then sizes.maxLoad else requested;
      hide Filtered, UnfinishedOf, AnchorOf, Replays;
      changes := [];
      ReplaysNothing(displayLines);
      raised := limit > loadLimit;
      if limit == loadLimit {
        return;
      }
      loadLimit := limit;
      if |allLines| > loadLimit {
        changes := DropOldest();
      }
    }

    /** Cuts the retained lines to the limit. */
    method DropOldest() returns (changes: seq<Change<LogLine>>)
      requires |allLines| > loadLimit
      modifies `allLines, `displayLines, `loadedLimit, `hasMoreLines
      ensures allLines == Last(old(allLines), loadLimit) && displayLines == Filtered(allLines, filter, search)
      ensures loadedLimit == (if old(loadedLimit) <= loadLimit then old(loadedLimit) else loadLimit)
      ensures hasMoreLines <==> loadLimit < sizes.maxLoad
      ensures Replays(old(displayLines), changes, displayLines)
    {
      hide Filtered, Replays;
      changes := ApplyLines(allLines[|allLines| - loadLimit..], false);
      loadedLimit := if loadedLimit <= loadLimit then loadedLimit else loadLimit;
      hasMoreLines := loadLimit < sizes.maxLoad;
    }

    /** Applies a finished read of `file`; `needsWider` says that the retained tail is narrower than the limit. */
    method OnReadCompleted(result: ReadResult, ghost file: seq<byte>)
      returns (needsWider: bool, changes: seq<Change<LogLine>>)
      requires Valid()
      requires result.fileSize == |file| && result.unfinished == UnfinishedOf(file, sizes.maxLine)
          && result.anchor == AnchorOf(file)
      modifies this
      ensures Valid() && seen == file && fileSize == |file|
      ensures Capacities() == AfterRead(old(Capacities()), result, sizes)
      ensures filter == old(filter) && Replays(old(displayLines), changes, displayLines)
      ensures needsWider <==> loadedLimit < loadLimit
    {
      hide Filtered, UnfinishedOf, AnchorOf, Replays, Reverse, Take, Last;
      fileSize, unfinished, anchor := result.fileSize, result.unfinished, result.anchor;
      seen := file;
      if result.fullSnapshot {
        changes := ApplySnapshot(result);
      } else {
        var pruned;
        pruned, changes := ApplyDelta(result.lines);
        hasMoreLines := (hasMoreLines || result.hasMore || pruned) && loadLimit < sizes.maxLoad;
      }
      needsWider := loadedLimit < loadLimit;
    }

    /** The retained lines become the newest of a full snapshot. */
    method ApplySnapshot(result: ReadResult) returns (changes: seq<Change<LogLine>>)
      requires result.fullSnapshot
      modifies `allLines, `displayLines, `loadedLimit, `hasMoreLines
      ensures Capacities() == AfterRead(old(Capacities()), result, sizes)
      ensures |allLines| <= loadLimit && displayLines == Filtered(allLines, filter, search)
      ensures Replays(old(displayLines), changes, displayLines)
    {
      hide Filtered, Replays;
      var next := Reverse(Take(result.lines, loadLimit));
      var more := (result.hasMore || |result.lines| > loadLimit) && loadLimit < sizes.maxLoad;
      changes := ApplyLines(next, result.continuityLost || allLines == []);
      loadedLimit := if result.snapshotLimit <= loadLimit then result.snapshotLimit else loadLimit;
      hasMoreLines := more;
    }

    /** One refresh from start to end: read the file, apply the result. The file has grown, or its end no longer
        matches the saved position. A full read is exact, and a delta on top of exact lines is exact. */
    method Refresh(file: seq<byte>, fullLoad: bool) returns (needsWider: bool, changes: seq<Change<LogLine>>)
      requires Valid()
      requires fullLoad || fileSize < 0 || seen <= file || !SameEnd(seen, file)
      modifies this
      ensures Valid() && seen == file && loadLimit == old(loadLimit)
      ensures fullLoad ==> !needsWider && loadedLimit == loadLimit
      ensures !fullLoad && old(fileSize) >= 0 && !SameEnd(old(seen), file) ==>
                !needsWider && loadedLimit == loadLimit
      ensures filter == old(filter) && Replays(old(displayLines), changes, displayLines)
      ensures
        && NoLineAtLimit(file, sizes)
        && (fullLoad || old(fileSize) < 0 || !(old(seen) <= file)
            || old(Capacities()).retained == Exact(old(seen), old(loadLimit), sizes, dec))
        ==> Capacities().retained == Exact(file, loadLimit, sizes, dec)
    {
      hide LinesFrom, Shown, Absorb, Exact, Filtered, Replays;
      ghost var was, before := Capacities().retained, seen;
      var result := ReadAndFilter(file, loadLimit, fullLoad, fileSize, unfinished, anchor, seen, sizes, dec);
      if NoLineAtLimit(file, sizes) && result.fullSnapshot {
        SnapshotExact(file, was, result.continuityLost, loadLimit, sizes, dec);
      } else if before <= file && !result.fullSnapshot {
        DeltaExact(before, file, loadLimit, sizes, dec);
      }
      needsWider, changes := OnReadCompleted(result, file);
    }
  }

  /** The arithmetic of `ApplyDelta`. */
  lemma KeepNewest(all: seq<LogLine>, newest: seq<LogLine>, lines: seq<LogLine>, keep: nat, limit: nat)
    requires |all| <= limit
    requires lines == Reverse(if |newest| > limit then newest[..limit] else newest)
    requires keep == if |all| < limit - |lines| then |all| else limit - |lines|
    ensures all[|all| - keep..] + lines == Last(all + Reverse(newest), limit)
  {
    assert lines == Last(Reverse(newest), limit);
    if |newest| > limit {
      LastOfTail(all, Reverse(newest), limit);
    } else {
      LastKeep(all, lines, limit);
    }
  }
}
