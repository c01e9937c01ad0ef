/** Reading the newest lines of a log by walking the file backwards in fixed-size blocks. */
module TailReader {
  import opened Sequences
  import opened LogText

  /** The sizes the source fixes: read block (64 KiB), longest shown line (1 MiB) and load ceiling (50 000). */
  datatype Sizes = Sizes(block: nat, maxLine: nat, maxLoad: nat)

  const SOURCE_SIZES := Sizes(65536, 1048576, 50000)
  const ANCHOR_SIZE: nat := 256

  /** Outcome of one read. Lines are newest first. */
  datatype ReadResult = ReadResult(
    lines: seq<LogLine>,
    fullSnapshot: bool,
    continuityLost: bool,
    hasMore: bool,
    snapshotLimit: nat,
    fileSize: nat,
    unfinished: Unfinished,
    anchor: seq<byte>)

  /** One more line than asked for is looked for, to learn whether older ones exist. */
  function Target(limit: nat, sizes: Sizes): nat {
    1 + if limit <= sizes.maxLoad then limit else sizes.maxLoad
  }

  function AnchorOf(file: seq<byte>): seq<byte> {
    Last(file, ANCHOR_SIZE)
  }

  /** Text that ends without a newline is read as if it ended with one. */
  function Terminated(bytes: seq<byte>): (r: seq<byte>)
    ensures Complete(r)
    ensures Complete(bytes) ==> r == bytes
  {
    if bytes == [] || bytes[|bytes| - 1] == LF then bytes else bytes + [LF]
  }

  /** Newest-first answer over the lines of `bytes`. */
  function Newest(raws: seq<Raw>, dec: Decoder, lim: Limit): (r: seq<LogLine>) {
    Reverse(Entries(Shown(raws, dec, lim), dec))
  }

  lemma NewestConcat(a: seq<Raw>, b: seq<Raw>, dec: Decoder, lim: Limit)
    ensures Newest(a + b, dec, lim) == Newest(b, dec, lim) + Newest(a, dec, lim)
  {
    hide LinesFrom, Shown, NextNewline;
    ShownConcat(a, b, dec, lim);
    var x, y := Shown(a, dec, lim), Shown(b, dec, lim);
    EntriesConcat(x, y, dec);
    ReverseConcat(Entries(x, dec), Entries(y, dec));
  }

  lemma NewestOne(r: Raw, dec: Decoder, lim: Limit)
    ensures Newest([r], dec, lim) == if lim.Accepts(r) && Displayable(Entry(r, dec)) then [Entry(r, dec)] else []
  {
    assert [r][1..] == [];
    assert Shown([r], dec, lim) == if lim.Accepts(r) && Displayable(Entry(r, dec)) then [r] else [];
  }

  lemma ShownNone(dec: Decoder, lim: Limit)
    ensures Shown([], dec, lim) == []
  {
  }

  lemma NewestNone(dec: Decoder, lim: Limit)
    ensures Newest([], dec, lim) == []
  {
  }

  /** Peeling the last line off a text. */
  lemma PeelLast(s: seq<byte>, prev: nat, base: nat)
    requires prev < |s| && s[|s| - 1] == LF
    requires prev == 0 || s[prev - 1] == LF
    requires forall j :: prev <= j < |s| - 1 ==> s[j] != LF
    ensures Split(s, base) == Split(s[..prev], base) + [Raw(base + prev, s[prev..|s| - 1])]
  {
    hide LinesFrom, Shown, NextNewline;
    var x := s[prev..|s| - 1];
    assert s == s[..prev] + (x + [LF]);
    SplitConcat(s[..prev], x + [LF], base);
    SplitOne(x, base + prev);
  }

  /** The newest record of `bytes[..scanEnd]` and what is left before it. */
  lemma NewestRecord(bytes: seq<byte>, scanEnd: nat, terminator: nat, start: nat, base: nat)
    requires 0 < scanEnd <= |bytes|
    requires terminator == if bytes[scanEnd - 1] == LF then scanEnd - 1 else scanEnd
    requires start == LineStart(bytes, terminator)
    ensures start < scanEnd && (start == 0 || bytes[start - 1] == LF)
    ensures Split(Terminated(bytes[..scanEnd]), base)
         == Split(Terminated(bytes[..start]), base) + [Raw(base + start, bytes[start..terminator])]
  {
    hide LinesFrom, Shown, NextNewline;
    var text := Terminated(bytes[..scanEnd]);
    assert text[..start] == bytes[..start];
    assert text[start..|text| - 1] == bytes[start..terminator];
    assert Terminated(bytes[..start]) == bytes[..start];
    PeelLast(text, start, base);
  }

  lemma AddOlder(older: seq<Raw>, line: Raw, done: seq<Raw>, dec: Decoder, lim: Limit)
    ensures older + [line] + done == older + ([line] + done)
    ensures Newest([line] + done, dec, lim) == Newest(done, dec, lim)
         + if lim.Accepts(line) && Displayable(Entry(line, dec)) then [Entry(line, dec)] else []
  {
    NewestOne(line, dec, lim);
    NewestConcat([line], done, dec, lim);
  }

  /** Parses records from the newest to the oldest and stops once `max` of them are displayable. */
  method ParseCompleteLines(bytes: seq<byte>, base: nat, max: nat, sizes: Sizes, dec: Decoder)
    returns (result: seq<LogLine>)
    ensures result == Take(Newest(Split(Terminated(bytes), base), dec, UpTo(sizes.maxLine)), max)
  {
    ghost var lim := UpTo(sizes.maxLine);
    ghost var all := Split(Terminated(bytes), base);
    ghost var done: seq<Raw> := [];
    ghost var older := all;
    result := [];
    var scanEnd := |bytes|;
    assert bytes[..|bytes|] == bytes;
    NewestNone(dec, lim);
    while scanEnd > 0 && |result| < max
      invariant 0 <= scanEnd <= |bytes|
      invariant older == Split(Terminated(bytes[..scanEnd]), base)
      invariant all == older + done
      invariant result == Newest(done, dec, lim)
      invariant |result| <= max
    {
      var terminator := if bytes[scanEnd - 1] == LF then scanEnd - 1 else scanEnd;
      var start := LineStart(bytes, terminator);
      NewestRecord(bytes, scanEnd, terminator, start, base);
      var line := Raw(base + start, bytes[start..terminator]);
      older := Split(Terminated(bytes[..start]), base);
      AddOlder(older, line, done, dec, lim);
      if terminator - start <= sizes.maxLine {
        var entry := Entry(line, dec);
        if Displayable(entry) {
          result := result + [entry];
        }
      }
      done := [line] + done;
      scanEnd := start;
    }
    NewestConcat(older, done, dec, lim);
    if scanEnd == 0 {
      SplitNone([], base);
    }
  }

  /** What the backward reader accepts in a text whose complete part ends at `end`. */
  function TailLimit(end: nat, sizes: Sizes): Limit {
    TailUpTo(sizes.maxLine, end, sizes.block)
  }

  /** No line of `lines` is one the backward reader loses. */
  ghost predicate NoneOnBoundary(lines: seq<Raw>, t: Limit)
    requires t.TailUpTo?
  {
    forall i :: 0 <= i < |lines| ==> !t.OnLostBoundary(lines[i])
  }

  lemma {:induction false} OffGrid(x: nat, d: nat, block: nat)
    requires 0 < d < block && OnGrid(x, block)
    ensures !OnGrid(x + d, block)
  {
    if x >= block {
      OffGrid(x - block, d, block);
    }
  }

  /** Where the walk stands: `[cursor, end)` has been read, the lines from `q` on are accounted for, and
      `[cursor, q)` is the tail of one line whose beginning is not read yet. */
  ghost predicate Walk(comp: seq<byte>, cursor: nat, q: nat, sizes: Sizes) {
    && cursor <= |comp| && q <= |comp|
    && (q == 0 || comp[q - 1] == LF)
    && sizes.block > 0
    && (cursor > 0 ==> OnGrid(|comp| - cursor, sizes.block))
    && forall j :: cursor <= j < q - 1 ==> comp[j] != LF
  }

  /** No line of the segment a block completes is one of those lost on a block boundary. */
  lemma NoneLost(comp: seq<byte>, start: nat, cursor: nat, q1: nat, q: nat, sizes: Sizes, r: Raw)
    requires Walk(comp, cursor, q, sizes) && 0 < cursor
    requires start == (if cursor > sizes.block then cursor - sizes.block else 0)
    requires q1 <= q && (q1 > start || q1 == start == 0) && (q1 == 0 || comp[q1 - 1] == LF)
    requires q - cursor <= sizes.maxLine
    requires r in Split(comp[q1..q], q1)
    ensures !TailLimit(|comp|, sizes).OnLostBoundary(r)
  {
    var k :| 0 <= k < |Split(comp[q1..q], q1)| && Split(comp[q1..q], q1)[k] == r;
    LinesFromSound(comp[q1..q], 0, q1, k);
    var o := r.offset;
    assert o == q1 || comp[o - 1] == LF;
    assert comp[o + |r.bytes|] == LF;
    assert o <= cursor;
    if o == cursor {
      assert o + |r.bytes| >= q - 1;
    } else if o > 0 {
      OffGrid(|comp| - cursor, cursor - o, sizes.block);
    }
  }

  lemma SegmentNotLost(comp: seq<byte>, start: nat, cursor: nat, q1: nat, q: nat, sizes: Sizes, lines: seq<Raw>)
    requires Walk(comp, cursor, q, sizes) && 0 < cursor
    requires start == (if cursor > sizes.block then cursor - sizes.block else 0)
    requires q1 <= q && (q1 > start || q1 == start == 0) && (q1 == 0 || comp[q1 - 1] == LF)
    requires q - cursor <= sizes.maxLine
    requires lines == Split(comp[q1..q], q1)
    ensures NoneOnBoundary(lines, TailLimit(|comp|, sizes))
  {
    forall k | 0 <= k < |lines|
      ensures !TailLimit(|comp|, sizes).OnLostBoundary(lines[k])
    {
      NoneLost(comp, start, cursor, q1, q, sizes, lines[k]);
    }
  }

  /** Accounting for one more complete segment. */
  lemma SegmentStep(comp: seq<byte>, q1: nat, q: nat, sizes: Sizes, dec: Decoder, target: nat)
    requires q1 <= q <= |comp| && (q == 0 || comp[q - 1] == LF)
    requires NoneOnBoundary(Split(comp[q1..q], q1), TailLimit(|comp|, sizes))
    ensures var tail := TailLimit(|comp|, sizes);
      var newest := Take(Newest(Split(comp[q..], q), dec, tail), target);
      newest + Take(Newest(Split(comp[q1..q], q1), dec, UpTo(sizes.maxLine)), target - |newest|)
      == Take(Newest(Split(comp[q1..], q1), dec, tail), target)
  {
    hide LinesFrom, Shown, NextNewline;
    var tail := TailLimit(|comp|, sizes);
    var seg, later, both := Split(comp[q1..q], q1), Split(comp[q..], q), Split(comp[q1..], q1);
    assert both == seg + later by {
      assert comp[q1..] == comp[q1..q] + comp[q..];
      SplitConcat(comp[q1..q], comp[q..], q1);
    }
    NewestConcat(seg, later, dec, tail);
    ShownAgree(seg, dec, tail, UpTo(sizes.maxLine));
    TakeMore(Newest(later, dec, tail), Newest(seg, dec, tail), target);
  }

  /** A line that outgrew the limit before its start was found is one the reader does not accept. */
  lemma DropStep(comp: seq<byte>, o: nat, from: nat, q: nat, sizes: Sizes, dec: Decoder)
    requires Oversized(comp, o, from, q, sizes)
    ensures var tail := TailLimit(|comp|, sizes);
      Newest(Split(comp[o..], o), dec, tail) == Newest(Split(comp[q..], q), dec, tail)
  {
    hide LinesFrom, Shown, NextNewline;
    var tail := TailLimit(|comp|, sizes);
    var line := Raw(o, comp[o..q - 1]);
    assert Split(comp[o..], o) == [line] + Split(comp[q..], q) by {
      assert comp[o..] == (comp[o..q - 1] + [LF]) + comp[q..];
      SplitConcat(comp[o..q - 1] + [LF], comp[q..], o);
      SplitOne(comp[o..q - 1], o);
    }
    assert !tail.Accepts(line) by {
      assert |line.bytes| == q - 1 - o;
      assert |line.bytes| == sizes.maxLine ==> o == from;
    }
    AddOlder([], line, Split(comp[q..], q), dec, tail);
  }

  /** The scan for the last newline, block by block from the end. */
  method FindCompleteEnd(file: seq<byte>, sizes: Sizes) returns (end: int)
    requires sizes.block > 0
    ensures end == (if CompleteEnd(file) > 0 then CompleteEnd(file) else -1)
  {
    end := -1;
    var cursor := |file|;
    while cursor > 0
      invariant 0 <= cursor <= |file|
      invariant forall j :: cursor <= j < |file| ==> file[j] != LF
      invariant end == -1
    {
      var start := if cursor > sizes.block then cursor - sizes.block else 0;
      var lastNewline := CompleteEnd(file[start..cursor]);
      if lastNewline > 0 {
        end := start + lastNewline;
        assert file[end - 1] == file[start..cursor][lastNewline - 1];
        assert forall j :: end <= j < cursor ==> file[j] == file[start..cursor][j - start];
        assert file[CompleteEnd(file) - 1] == LF;
        return;
      }
      assert forall j :: start <= j < cursor ==> file[j] == file[start..cursor][j - start];
      cursor := start;
    }
  }

  /** Stepping back by one block. */
  function BlockStart(cursor: nat, sizes: Sizes): (start: nat)
    requires sizes.block > 0
    ensures start <= cursor && (cursor > 0 ==> start < cursor)
  {
    if cursor > sizes.block then cursor - sizes.block else 0
  }

  /** `Walk` together with what is remembered of the line under construction: its bytes, or only that it is too long
      already at block start `from`. */
  ghost predicate Position(comp: seq<byte>, cursor: nat, q: nat, carry: seq<byte>, discarding: bool, from: nat,
      sizes: Sizes) {
    && Walk(comp, cursor, q, sizes)
    && (!discarding ==>
          cursor <= q && carry == comp[cursor..q] && |carry| <= sizes.maxLine && (cursor == 0 ==> q == 0))
    && (discarding ==>
          carry == [] && cursor <= from < q && 0 < from && OnGrid(|comp| - from, sizes.block)
              && q - from > sizes.maxLine)
  }

  /** A skipped line: it starts at `o`, ends before `q`, and was too long already at block start `from`. */
  ghost predicate Oversized(comp: seq<byte>, o: nat, from: nat, q: nat, sizes: Sizes) {
    && o <= from < q <= |comp| && comp[q - 1] == LF
    && (o == 0 || comp[o - 1] == LF)
    && (forall j :: o <= j < q - 1 ==> comp[j] != LF)
    && 0 < from && sizes.block > 0 && OnGrid(|comp| - from, sizes.block) && q - from > sizes.maxLine
  }

  /** While discarding: find the newline before the oversized line, if the block has one. */
  method SkipOversized(comp: seq<byte>, start: nat, cursor: nat, ghost q: nat, ghost from: nat, sizes: Sizes)
    returns (o: nat)
    requires 0 < cursor && Position(comp, cursor, q, [], true, from, sizes) && start == BlockStart(cursor, sizes)
    ensures o == 0 ==> Position(comp, start, q, [], true, from, sizes)
    ensures o > 0 ==> start < o <= cursor && Oversized(comp, o, from, q, sizes)
  {
    var chunk := comp[start..cursor];
    var keep := CompleteEnd(chunk);
    assert forall j :: start <= j < cursor ==> comp[j] == chunk[j - start];
    o := if keep == 0 then 0 else start + keep;
    assert keep > 0 ==> comp[o - 1] == chunk[keep - 1];
  }

  /** Cut the text `[start, q)` into the line that may begin in an older block and the complete rest. */
  method CutBlock(comp: seq<byte>, start: nat, cursor: nat, data: seq<byte>, ghost q: nat, sizes: Sizes)
    returns (offset: nat, carry: seq<byte>, discarding: bool)
    requires 0 < cursor && Walk(comp, cursor, q, sizes) && start == BlockStart(cursor, sizes)
    requires start < q && data == comp[start..q]
    ensures start <= offset <= q && (offset > start || start == 0)
    ensures Position(comp, start, offset, carry, discarding, start, sizes)
  {
    if start == 0 {
      return 0, [], false;
    }
    var first := NextNewline(data, 0);
    assert data[|data| - 1] == comp[q - 1];
    if first == |data| {
      // `[start, q)` ends in a newline, so the carried text never lacks one.
      assert false;
    }
    assert comp[start + first] == data[first];
    assert forall j :: start <= j < start + first ==> comp[j] == data[j - start];
    offset := start + first + 1;
    carry := data[..first + 1];
    assert carry == comp[start..offset];
    discarding := |carry| > sizes.maxLine;
    if discarding {
      carry := [];
    }
  }

  /** The lines found once everything from `q` on is accounted for. */
  ghost function Found(comp: seq<byte>, q: nat, target: nat, sizes: Sizes, dec: Decoder): seq<LogLine>
    requires q <= |comp|
  {
    Take(Newest(Split(comp[q..], q), dec, TailLimit(|comp|, sizes)), target)
  }

  /** Parse what a block completes and add it to the lines found so far. */
  method ParseBlock(comp: seq<byte>, start: nat, cursor: nat, data: seq<byte>, ghost q: nat,
                    target: nat, found: seq<LogLine>, sizes: Sizes, dec: Decoder)
    returns (offset: nat, carry: seq<byte>, discarding: bool, newest: seq<LogLine>)
    requires 0 < cursor && Walk(comp, cursor, q, sizes) && start == BlockStart(cursor, sizes)
    requires start < q && data == comp[start..q] && q - cursor <= sizes.maxLine
    requires found == Found(comp, q, target, sizes, dec)
    ensures Position(comp, start, offset, carry, discarding, start, sizes)
    ensures newest == Found(comp, offset, target, sizes, dec)
  {
    hide LinesFrom, Shown, LineStart, NextNewline;
    offset, carry, discarding := CutBlock(comp, start, cursor, data, q, sizes);
    var segment := data[offset - start..];
    assert segment == comp[offset..q] && Complete(segment);
    SegmentNotLost(comp, start, cursor, offset, q, sizes, Split(segment, offset));
    SegmentStep(comp, offset, q, sizes, dec, target);
    var parsed := ParseCompleteLines(segment, offset, target - |found|, sizes, dec);
    newest := found + parsed;
  }

  /** The second phase of the tail read: complete lines from newest to oldest. At most one line that spans a
      block boundary is carried; once the carried part outgrows the limit it is dropped and its beginning skipped. */
  method CollectNewest(comp: seq<byte>, target: nat, sizes: Sizes, dec: Decoder) returns (newest: seq<LogLine>)
    requires sizes.block > 0 && Complete(comp)
    ensures newest == Take(Newest(Split(comp, 0), dec, TailLimit(|comp|, sizes)), target)
  {
    hide LinesFrom, Shown, LineStart, NextNewline;
    newest := [];
    var carry: seq<byte> := [];
    var discarding := false;
    var cursor: nat := |comp|;
    ghost var q: nat, from: nat := |comp|, 0;
    FoundNone(comp, target, sizes, dec);
    while cursor > 0 && |newest| < target
      invariant Position(comp, cursor, q, carry, discarding, from, sizes)
      invariant newest == Found(comp, q, target, sizes, dec)
    {
      var start := BlockStart(cursor, sizes);
      var data := comp[start..cursor] + carry;
      if discarding {
        var o := SkipOversized(comp, start, cursor, q, from, sizes);
        if o == 0 {
          cursor := start;
          continue;
        }
        data := comp[start..o];
        DropStep(comp, o, from, q, sizes, dec);
        q := o;
      } else {
        assert data == comp[start..q];
      }
      var offset;
      offset, carry, discarding, newest := ParseBlock(comp, start, cursor, data, q, target, newest, sizes, dec);
      cursor, q, from := start, offset, start;
    }
    FoundAll(comp, cursor, q, carry, discarding, from, target, sizes, dec);
  }

  lemma FoundNone(comp: seq<byte>, target: nat, sizes: Sizes, dec: Decoder)
    ensures Found(comp, |comp|, target, sizes, dec) == []
  {
    assert comp[|comp|..] == [];
    NewestNone(dec, TailLimit(|comp|, sizes));
  }

  /** When the walk ends, everything that can matter has been found. */
  lemma FoundAll(comp: seq<byte>, cursor: nat, q: nat, carry: seq<byte>, discarding: bool, from: nat,
                 target: nat, sizes: Sizes, dec: Decoder)
    requires Position(comp, cursor, q, carry, discarding, from, sizes)
    requires cursor == 0 || |Found(comp, q, target, sizes, dec)| >= target
    ensures Found(comp, q, target, sizes, dec) == Take(Newest(Split(comp, 0), dec, TailLimit(|comp|, sizes)), target)
  {
    if cursor == 0 && discarding {
      DropStep(comp, 0, from, q, sizes, dec);
    }
    NewestTail(comp, if cursor == 0 then 0 else q, target, dec, TailLimit(|comp|, sizes));
  }

  /** Lines before the ones that already fill the quota do not matter. */
  lemma NewestTail(comp: seq<byte>, q: nat, target: nat, dec: Decoder, lim: Limit)
    requires q <= |comp| && (q == 0 || comp[q - 1] == LF)
    requires q > 0 ==> |Newest(Split(comp[q..], q), dec, lim)| >= target
    ensures Take(Newest(Split(comp[q..], q), dec, lim), target) == Take(Newest(Split(comp, 0), dec, lim), target)
  {
    var older, later := Split(comp[..q], 0), Split(comp[q..], q);
    assert Split(comp, 0) == older + later by {
      assert comp == comp[..q] + comp[q..];
      SplitConcat(comp[..q], comp[q..], 0);
    }
    NewestConcat(older, later, dec, lim);
    if q == 0 {
      SplitNone(comp[..q], 0);
    }
  }

  /** Every line the tail reader can show of `file`, newest first. */
  function TailNewest(file: seq<byte>, sizes: Sizes, dec: Decoder): seq<LogLine> {
    Newest(Split(file, 0), dec, TailLimit(CompleteEnd(file), sizes))
  }

  /** How many lines a tail read returns at most; a limit above the ceiling is not cut back to it. */
  function Quota(limit: nat, sizes: Sizes): nat {
    if limit <= sizes.maxLoad then limit else sizes.maxLoad + 1
  }

  /** What a tail read of `file` yields, in terms of the forward split. */
  function TailResult(file: seq<byte>, limit: nat, sizes: Sizes, dec: Decoder): ReadResult {
    ReadResult(
      Take(TailNewest(file, sizes, dec), Quota(limit, sizes)),
      true,
      false,
      limit <= sizes.maxLoad && |TailNewest(file, sizes, dec)| > limit,
      if limit <= sizes.maxLoad then limit else sizes.maxLoad,
      |file|,
      UnfinishedOf(file, sizes.maxLine),
      AnchorOf(file))
  }

  /** The lines of a file are those of its complete part. */
  lemma TailNewestComplete(file: seq<byte>, sizes: Sizes, dec: Decoder)
    ensures var end := CompleteEnd(file);
      TailNewest(file, sizes, dec) == Newest(Split(file[..end], 0), dec, TailLimit(end, sizes))
    ensures CompleteEnd(file) == 0 ==> TailNewest(file, sizes, dec) == []
  {
    SplitCompletePart(file, 0);
    if CompleteEnd(file) == 0 {
      SplitNone(file[..0], 0);
      NewestNone(dec, TailLimit(0, sizes));
    }
  }

  /** The unfinished last line: its bytes, or the fact that it is too long. */
  method ReadUnfinished(file: seq<byte>, partialStart: nat, sizes: Sizes) returns (u: Unfinished)
    requires partialStart == CompleteEnd(file)
    ensures u == UnfinishedOf(file, sizes.maxLine)
  {
    if |file| - partialStart > sizes.maxLine {
      u := Unfinished([], true);
    } else {
      u := Unfinished(file[partialStart..], false);
    }
  }

  /** Looking for one line more than the limit tells whether there are more; the extra one is dropped again. */
  lemma QuotaCut(all: seq<LogLine>, limit: nat, sizes: Sizes)
    ensures var newest := Take(all, Target(limit, sizes));
      && (|newest| > limit <==> limit <= sizes.maxLoad && |all| > limit)
      && Take(all, Quota(limit, sizes)) == (if |newest| > limit then newest[..|newest| - 1] else newest)
    ensures Take<LogLine>([], Quota(limit, sizes)) == []
  {
  }

  /** A bounded snapshot of the end of the file. */
  method ReadTail(file: seq<byte>, limit: nat, sizes: Sizes, dec: Decoder) returns (r: ReadResult)
    requires sizes.block > 0
    ensures r == TailResult(file, limit, sizes, dec)
  {
    hide LinesFrom, Shown, LineStart, NextNewline, Split, Newest, UnfinishedOf, AnchorOf, Take, Quota, Target,
        TailNewest;
    var completeEnd := FindCompleteEnd(file, sizes);
    var partialStart := if completeEnd < 0 then 0 else completeEnd;
    var unfinished := ReadUnfinished(file, partialStart, sizes);
    var snapshotLimit := if limit <= sizes.maxLoad then limit else sizes.maxLoad;
    TailNewestComplete(file, sizes, dec);
    QuotaCut(TailNewest(file, sizes, dec), limit, sizes);
    if completeEnd < 0 {
      return ReadResult([], true, false, false, snapshotLimit, |file|, unfinished, AnchorOf(file));
    }
    var newest := CollectNewest(file[..completeEnd], Target(limit, sizes), sizes, dec);
    var hasMore := |newest| > limit;
    if hasMore {
      newest := newest[..|newest| - 1];
    }
    r := ReadResult(newest, true, false, hasMore, snapshotLimit, |file|, unfinished, AnchorOf(file));
  }

  /** The newest lines a plain forward split with the documented limit would give. */
  function Reference(file: seq<byte>, sizes: Sizes, dec: Decoder): seq<LogLine> {
    Newest(Split(file, 0), dec, UpTo(sizes.maxLine))
  }

  lemma TakeNewest(raws: seq<Raw>, dec: Decoder, lim: Limit, n: nat)
    ensures Take(Newest(raws, dec, lim), n) == Reverse(Entries(Last(Shown(raws, dec, lim), n), dec))
  {
    var s := Shown(raws, dec, lim);
    TakeReverse(Entries(s, dec), n);
    assert Last(Entries(s, dec), n) == Entries(Last(s, n), dec);
  }

  lemma {:induction false} ShownTwice(raws: seq<Raw>, dec: Decoder, u: Limit, t: Limit)
    requires t.TailUpTo? && u == UpTo(t.max)
    ensures Shown(Shown(raws, dec, u), dec, t) == Shown(raws, dec, t)
  {
    if raws != [] {
      var one := if u.Accepts(raws[0]) && Displayable(Entry(raws[0], dec)) then [raws[0]] else [];
      ShownConcat(one, Shown(raws[1..], dec, u), dec, t);
      ShownTwice(raws[1..], dec, u, t);
      assert one != [] ==> one[1..] == [];
    }
  }

  ghost predicate AllShown(raws: seq<Raw>, dec: Decoder, lim: Limit) {
    forall i :: 0 <= i < |raws| ==> lim.Accepts(raws[i]) && Displayable(Entry(raws[i], dec))
  }

  lemma {:induction false} ShownEvery(raws: seq<Raw>, dec: Decoder, lim: Limit)
    requires AllShown(raws, dec, lim)
    ensures Shown(raws, dec, lim) == raws
  {
    if raws != [] {
      ShownEvery(raws[1..], dec, lim);
    }
  }

  lemma {:induction false} ShownAccepted(raws: seq<Raw>, dec: Decoder, lim: Limit)
    ensures AllShown(Shown(raws, dec, lim), dec, lim)
  {
    if raws != [] {
      ShownAccepted(raws[1..], dec, lim);
    }
  }

  lemma LastAllShown(all: seq<Raw>, dec: Decoder, u: Limit, t: Limit, n: nat)
    requires t.TailUpTo? && u == UpTo(t.max)
    requires AllShown(all, dec, u) && NoneOnBoundary(Last(all, n), t)
    ensures AllShown(Last(all, n), dec, t)
  {
  }

  /** If the last n of `all` pass a filter, filtering keeps exactly them at the end. */
  lemma LastAfterFilter(all: seq<Raw>, dec: Decoder, t: Limit, n: nat)
    requires AllShown(Last(all, n), dec, t)
    ensures Last(Shown(all, dec, t), n) == Last(all, n)
  {
    hide Shown, AllShown;
    var last := Last(all, n);
    var before := all[..|all| - |last|];
    assert all == before + last;
    ShownConcat(before, last, dec, t);
    ShownEvery(last, dec, t);
    ShownNone(dec, t);
    LastOfConcat(Shown(before, dec, t), last, n);
  }

  lemma LastShownAgree(raws: seq<Raw>, dec: Decoder, u: Limit, t: Limit, n: nat)
    requires t.TailUpTo? && u == UpTo(t.max)
    requires NoneOnBoundary(Last(Shown(raws, dec, u), n), t)
    ensures Last(Shown(raws, dec, t), n) == Last(Shown(raws, dec, u), n)
  {
    hide LinesFrom, Shown, AllShown;
    ShownTwice(raws, dec, u, t);
    ShownAccepted(raws, dec, u);
    LastAllShown(Shown(raws, dec, u), dec, u, t, n);
    LastAfterFilter(Shown(raws, dec, u), dec, t, n);
  }

  lemma LastOfConcat<T>(a: seq<T>, b: seq<T>, n: nat)
    requires |b| <= n && (a == [] || |b| == n)
    ensures Last(a + b, n) == b
  {
  }

  lemma SameOffsetSameLine(s: seq<byte>, a: Raw, b: Raw)
    requires a in Split(s, 0) && b in Split(s, 0) && a.offset == b.offset
    ensures a == b
  {
    var i :| 0 <= i < |Split(s, 0)| && Split(s, 0)[i] == a;
    var j :| 0 <= j < |Split(s, 0)| && Split(s, 0)[j] == b;
    if i < j {
      LinesFromIncreasing(s, 0, 0, i, j);
    } else if j < i {
      LinesFromIncreasing(s, 0, 0, j, i);
    }
  }

  /** The tail read returns exactly the newest lines of the forward split if and only if none of those lines is
      of exactly the maximal length and starts on a block boundary. */
  lemma TailReadExact(file: seq<byte>, limit: nat, sizes: Sizes, dec: Decoder)
    requires sizes.block > 0
    ensures TailResult(file, limit, sizes, dec).lines == Take(Reference(file, sizes, dec), Quota(limit, sizes))
      <==> NoneOnBoundary(Last(Shown(Split(file, 0), dec, UpTo(sizes.maxLine)), Quota(limit, sizes)),
                          TailLimit(CompleteEnd(file), sizes))
  {
    hide LinesFrom, Shown, LineStart, NextNewline;
    var n := Quota(limit, sizes);
    var u, t := UpTo(sizes.maxLine), TailLimit(CompleteEnd(file), sizes);
    var raws := Split(file, 0);
    TakeNewest(raws, dec, u, n);
    TakeNewest(raws, dec, t, n);
    if NoneOnBoundary(Last(Shown(raws, dec, u), n), t) {
      LastShownAgree(raws, dec, u, t, n);
    } else if Take(Newest(raws, dec, t), n) == Take(Newest(raws, dec, u), n) {
      SameLinesNoneLost(file, dec, u, t, n);
    }
  }

  lemma ReversedEntriesEqual(a: seq<Raw>, b: seq<Raw>, dec: Decoder)
    requires Reverse(Entries(a, dec)) == Reverse(Entries(b, dec))
    ensures |a| == |b| && forall i :: 0 <= i < |a| ==> a[i].offset == b[i].offset
  {
    var x, y := Entries(a, dec), Entries(b, dec);
    forall i | 0 <= i < |a|
      ensures x[i] == y[i]
    {
      assert Reverse(x)[|a| - 1 - i] == Reverse(y)[|a| - 1 - i];
    }
  }

  lemma LastShownMember(file: seq<byte>, dec: Decoder, lim: Limit, n: nat, i: nat)
    requires i < |Last(Shown(Split(file, 0), dec, lim), n)|
    ensures var x := Last(Shown(Split(file, 0), dec, lim), n)[i]; x in Split(file, 0) && lim.Accepts(x)
  {
    hide LinesFrom, Shown;
    var all := Shown(Split(file, 0), dec, lim);
    ShownMember(Split(file, 0), dec, lim, |all| - |Last(all, n)| + i);
  }

  lemma SameLinesNoneLost(file: seq<byte>, dec: Decoder, u: Limit, t: Limit, n: nat)
    requires t.TailUpTo?
    requires var raws := Split(file, 0);
      Reverse(Entries(Last(Shown(raws, dec, t), n), dec)) == Reverse(Entries(Last(Shown(raws, dec, u), n), dec))
    ensures NoneOnBoundary(Last(Shown(Split(file, 0), dec, u), n), t)
  {
    hide LinesFrom, Shown, LineStart, NextNewline;
    var ref, got := Last(Shown(Split(file, 0), dec, u), n), Last(Shown(Split(file, 0), dec, t), n);
    ReversedEntriesEqual(got, ref, dec);
    forall i | 0 <= i < |ref|
      ensures !t.OnLostBoundary(ref[i])
    {
      LastShownMember(file, dec, t, n, i);
      LastShownMember(file, dec, u, n, i);
      SameOffsetSameLine(file, got[i], ref[i]);
    }
  }

  ghost predicate NoLineAtLimit(file: seq<byte>, sizes: Sizes) {
    forall i :: 0 <= i < |Split(file, 0)| ==> |Split(file, 0)[i].bytes| != sizes.maxLine
  }

  /** Displayable lines of `raws` that the backward reader loses. */
  function LostLines(raws: seq<Raw>, dec: Decoder, t: Limit): nat
    requires t.TailUpTo?
  {
    if raws == [] then 0
    else (if t.OnLostBoundary(raws[0]) && Displayable(Entry(raws[0], dec)) then 1 else 0) + LostLines(raws[1..], dec, t)
  }

  lemma {:induction false} LostLinesCounted(raws: seq<Raw>, dec: Decoder, t: Limit)
    requires t.TailUpTo?
    ensures |Shown(raws, dec, UpTo(t.max))| == |Shown(raws, dec, t)| + LostLines(raws, dec, t)
  {
    if raws != [] {
      LostLinesCounted(raws[1..], dec, t);
    }
  }

  /** The more-lines flag is right if and only if the lost lines do not make up the difference to the limit. */
  lemma MoreLinesExact(file: seq<byte>, limit: nat, sizes: Sizes, dec: Decoder)
    requires limit <= sizes.maxLoad
    ensures var lost := LostLines(Split(file, 0), dec, TailLimit(CompleteEnd(file), sizes));
      var all := |Reference(file, sizes, dec)|;
      (TailResult(file, limit, sizes, dec).hasMore <==> all > limit) <==> !(limit < all <= limit + lost)
  {
    hide LinesFrom, Shown, LineStart, NextNewline, LostLines;
    LostLinesCounted(Split(file, 0), dec, TailLimit(CompleteEnd(file), sizes));
  }

  /** In particular, without a line of exactly the maximal length both the lines and the more-lines flag are exact. */
  lemma TailReadFaithful(file: seq<byte>, limit: nat, sizes: Sizes, dec: Decoder)
    requires sizes.block > 0
    requires NoLineAtLimit(file, sizes)
    ensures TailNewest(file, sizes, dec) == Reference(file, sizes, dec)
    ensures TailResult(file, limit, sizes, dec).lines == Take(Reference(file, sizes, dec), Quota(limit, sizes))
    ensures TailResult(file, limit, sizes, dec).hasMore
            <==> limit <= sizes.maxLoad && |Reference(file, sizes, dec)| > limit
  {
    hide LinesFrom, Shown, LineStart, NextNewline;
    ShownAgree(Split(file, 0), dec, TailLimit(CompleteEnd(file), sizes), UpTo(sizes.maxLine));
  }

  // ---- The lost line ----

  /** Text around a line of exactly the maximal length whose end is a whole number of blocks after its start. */
  ghost predicate AroundLost(before: seq<byte>, x: seq<byte>, after: seq<byte>, sizes: Sizes) {
    && before != [] && Complete(before) && NoNewline(x) && Complete(after)
    && |x| == sizes.maxLine && sizes.block > 0 && OnGrid(|x| + 1 + |after|, sizes.block)
  }

  lemma SplitAround(before: seq<byte>, x: seq<byte>, after: seq<byte>)
    requires Complete(before) && NoNewline(x)
    ensures Split(before + (x + [LF] + after), 0)
         == Split(before, 0) + ([Raw(|before|, x)] + Split(after, |before| + |x| + 1))
  {
    hide LinesFrom, LineStart, NextNewline;
    SplitConcat(before, x + [LF] + after, 0);
    SplitConcat(x + [LF], after, |before|);
    SplitOne(x, |before|);
  }

  /** A line among others is shown if it is accepted and displayable. */
  lemma ShownBetween(a: seq<Raw>, r: Raw, b: seq<Raw>, dec: Decoder, lim: Limit)
    requires lim.Accepts(r) && Displayable(Entry(r, dec))
    ensures r in Shown(a + ([r] + b), dec, lim)
  {
    ShownConcat(a, [r] + b, dec, lim);
    ShownConcat([r], b, dec, lim);
    assert Shown([r], dec, lim) == [r] + Shown([r][1..], dec, lim);
    assert r in Shown([r], dec, lim) + Shown(b, dec, lim);
  }

  lemma NewestHas(raws: seq<Raw>, dec: Decoder, lim: Limit, r: Raw)
    requires r in Shown(raws, dec, lim)
    ensures Entry(r, dec) in Newest(raws, dec, lim)
  {
    hide Shown;
    var all := Shown(raws, dec, lim);
    var i :| 0 <= i < |all| && all[i] == r;
    assert Reverse(Entries(all, dec))[|all| - 1 - i] == Entry(r, dec);
  }

  /** A line that is not accepted is not among the newest, since an offset names one line. */
  lemma NewestLacks(file: seq<byte>, dec: Decoder, lim: Limit, r: Raw)
    requires r in Split(file, 0) && !lim.Accepts(r)
    ensures Entry(r, dec) !in Newest(Split(file, 0), dec, lim)
  {
    hide LinesFrom, Shown, LineStart, NextNewline;
    var all := Shown(Split(file, 0), dec, lim);
    var newest := Reverse(Entries(all, dec));
    forall i | 0 <= i < |newest| ensures newest[i] != Entry(r, dec) {
      var j := |all| - 1 - i;
      assert newest[i] == Entry(all[j], dec);
      ShownMember(Split(file, 0), dec, lim, j);
      if all[j].offset == r.offset {
        SameOffsetSameLine(file, all[j], r);
      }
    }
  }

  /** At every block size and line limit: a displayable line of exactly the limit that starts a whole number of blocks
      before the end of the complete text, and not at the start of the file, is lost, whatever surrounds it. */
  lemma TailReadLosesALine(before: seq<byte>, x: seq<byte>, after: seq<byte>, limit: nat, sizes: Sizes, dec: Decoder)
    requires AroundLost(before, x, after, sizes) && Displayable(Entry(Raw(|before|, x), dec))
    ensures var file := before + (x + [LF] + after); var line := Entry(Raw(|before|, x), dec);
      line in Reference(file, sizes, dec) && line !in TailResult(file, limit, sizes, dec).lines
  {
    hide LinesFrom, Shown, LineStart, NextNewline;
    var file := before + (x + [LF] + after);
    var r := Raw(|before|, x);
    SplitAround(before, x, after);
    ShownBetween(Split(before, 0), r, Split(after, |before| + |x| + 1), dec, UpTo(sizes.maxLine));
    NewestHas(Split(file, 0), dec, UpTo(sizes.maxLine), r);
    assert file[|file| - 1] == LF;
    assert CompleteEnd(file) == |file|;
    var t := TailLimit(|file|, sizes);
    assert !t.Accepts(r);
    assert r in Split(file, 0) by {
      assert r in [r] + Split(after, |before| + |x| + 1);
    }
    NewestLacks(file, dec, t, r);
    TakeMembers(TailNewest(file, sizes, dec), Quota(limit, sizes), Entry(r, dec));
  }

  lemma TakeMembers<T>(s: seq<T>, n: nat, x: T)
    requires x !in s
    ensures x !in Take(s, n)
  {
  }

  lemma {:induction false} WholeBlocks(k: nat, block: nat)
    requires block > 0
    ensures OnGrid(k * block, block)
  {
    if k > 0 {
      WholeBlocks(k - 1, block);
      assert k * block - block == (k - 1) * block;
    }
  }

  /** Blank lines after any text can be chosen so that its length is a whole number of blocks. */
  lemma {:induction false} PaddingExists(n: nat, block: nat) returns (p: nat)
    requires block > 0
    ensures p < block && OnGrid(n + p, block)
  {
    if n == 0 {
      p := 0;
    } else if n < block {
      p := block - n;
      WholeBlocks(1, block);
    } else {
      p := PaddingExists(n - block, block);
    }
  }

  /** Whatever the sizes, a newline, the line and fewer blank lines than a block has bytes are enough. */
  lemma LostAtEverySize(x: seq<byte>, limit: nat, sizes: Sizes, dec: Decoder) returns (p: nat)
    requires sizes.block > 0 && |x| == sizes.maxLine && NoNewline(x) && Displayable(Entry(Raw(1, x), dec))
    ensures p < sizes.block
    ensures var file := [LF] + (x + [LF] + seq(p, _ => LF)); var line := Entry(Raw(1, x), dec);
      line in Reference(file, sizes, dec) && line !in TailResult(file, limit, sizes, dec).lines
  {
    p := PaddingExists(|x| + 1, sizes.block);
    assert AroundLost([LF], x, seq(p, _ => LF), sizes);
    hide *;
    TailReadLosesALine([LF], x, seq(p, _ => LF), limit, sizes, dec);
  }

  /** At the source's sizes: a newline, a line of 1 MiB, and 65 535 blank lines. */
  lemma LostAtSourceSizes(x: seq<byte>, limit: nat, dec: Decoder)
    requires |x| == SOURCE_SIZES.maxLine && NoNewline(x) && Displayable(Entry(Raw(1, x), dec))
    ensures var file := [LF] + (x + [LF] + seq(65535, _ => LF)); var line := Entry(Raw(1, x), dec);
      line in Reference(file, SOURCE_SIZES, dec) && line !in TailResult(file, limit, SOURCE_SIZES, dec).lines
  {
    var after := seq(65535, _ => LF);
    WholeBlocks(17, 65536);
    assert AroundLost([LF], x, after, SOURCE_SIZES);
    hide *;
    TailReadLosesALine([LF], x, after, limit, SOURCE_SIZES, dec);
  }
}
