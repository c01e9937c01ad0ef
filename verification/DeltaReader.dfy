/** Reading only what was appended to a log since the last read, with a carried unfinished line. */
module DeltaReader {
  import opened Sequences
  import opened LogText
  import opened TailReader

  const MAX_DELTA_BYTES: nat := 8 * 1024 * 1024

  /** The lines completed by growing `seen` into `file`. */
  function NewLines(seen: seq<byte>, file: seq<byte>): seq<Raw>
    requires seen <= file
  {
    Split(file[CompleteEnd(seen)..], CompleteEnd(seen))
  }

  /** Nothing is lost or read twice: the old lines and the new ones are all the lines. */
  lemma NewLinesComplete(seen: seq<byte>, file: seq<byte>)
    requires seen <= file
    ensures Split(file, 0) == Split(seen, 0) + NewLines(seen, file)
  {
    var e := CompleteEnd(seen);
    SplitCompletePart(seen, 0);
    assert file[..e] == seen[..e];
    assert file == file[..e] + file[e..];
    SplitConcat(file[..e], file[e..], 0);
  }

  /** The unfinished line of the grown file starts at the first byte after the last newline of the rest. */
  lemma CompleteEndAfter(file: seq<byte>, from: nat)
    requires from <= |file| && (from == 0 || file[from - 1] == LF)
    ensures CompleteEnd(file) == from + CompleteEnd(file[from..])
    ensures file[CompleteEnd(file)..] == file[from..][CompleteEnd(file[from..])..]
  {
    var rest := file[from..];
    var e := CompleteEnd(rest);
    assert forall j :: from <= j < |file| ==> file[j] == rest[j - from];
    assert e > 0 ==> file[from + e - 1] == rest[e - 1];
    assert CompleteEnd(file) > 0 ==> file[CompleteEnd(file) - 1] == LF;
  }

  /** What a delta read yields, in terms of the forward split of the whole file. */
  function DeltaResult(seen: seq<byte>, file: seq<byte>, limit: nat, sizes: Sizes, dec: Decoder): ReadResult
    requires seen <= file
  {
    var lines := Take(Newest(NewLines(seen, file), dec, UpTo(sizes.maxLine)), Target(limit, sizes));
    ReadResult(lines, false, false, |lines| > limit, 0, |file|, UnfinishedOf(file, sizes.maxLine), AnchorOf(file))
  }

  /** The bytes at the old end of file still match, so the saved offset can be trusted. */
  predicate Continues(file: seq<byte>, size: nat, anchor: seq<byte>) {
    && |anchor| <= size <= |file|
    && (size > 0 ==> anchor != [] && file[size - |anchor|..size] == anchor)
  }

  /** The saved position of `seen` stands in `file`: no byte of its last 256 has changed. */
  ghost predicate SameEnd(seen: seq<byte>, file: seq<byte>) {
    |seen| <= |file| && forall i :: 0 <= i < |seen| && |seen| - 256 <= i ==> file[i] == seen[i]
  }

  /** The continuity test on the saved anchor says exactly that. */
  lemma ContinuesExactly(seen: seq<byte>, file: seq<byte>)
    ensures Continues(file, |seen|, AnchorOf(seen)) <==> SameEnd(seen, file)
  {
    var a := AnchorOf(seen);
    var from := |seen| - |a|;
    assert forall i :: 0 <= i < |a| ==> a[i] == seen[from + i];
    if |seen| <= |file| {
      var there := file[from..|seen|];
      assert forall i :: from <= i < |seen| ==> there[i - from] == file[i];
      assert there == a <==> forall i :: from <= i < |seen| ==> file[i] == seen[i] by {
        if there == a {
          forall i | from <= i < |seen| ensures file[i] == seen[i] {
            assert there[i - from] == a[i - from];
          }
        }
      }
    }
  }

  lemma GrowthContinues(seen: seq<byte>, file: seq<byte>)
    requires seen <= file
    ensures Continues(file, |seen|, AnchorOf(seen))
  {
    var a := AnchorOf(seen);
    assert file[|seen| - |a|..|seen|] == a;
  }

  /** The result of parsing `text`, which starts at `offset` of the file. */
  function AppendedResult(file: seq<byte>, text: seq<byte>, offset: nat, limit: nat, sizes: Sizes,
      dec: Decoder): ReadResult {
    var lines := Take(Newest(Split(text, offset), dec, UpTo(sizes.maxLine)), Target(limit, sizes));
    ReadResult(lines, false, false, |lines| > limit, 0, |file|, UnfinishedOf(text, sizes.maxLine), AnchorOf(file))
  }

  /** Parse the complete lines of `combined` and keep its unfinished rest. */
  method ReadAppended(file: seq<byte>, combined: seq<byte>, offset: nat, limit: nat, sizes: Sizes, dec: Decoder)
    returns (r: ReadResult)
    ensures r == AppendedResult(file, combined, offset, limit, sizes, dec)
  {
    var complete := CompleteEnd(combined);
    var rest := combined[complete..];
    var unfinished := if |rest| <= sizes.maxLine then Unfinished(rest, false) else Unfinished([], true);
    SplitCompletePart(combined, offset);
    var lines := ParseCompleteLines(combined[..complete], offset, Target(limit, sizes), sizes, dec);
    r := ReadResult(lines, false, false, |lines| > limit, 0, |file|, unfinished, AnchorOf(file));
  }

  /** An oversized line in front shows nothing: `[from, end)` is one line, `end` its newline. */
  lemma OversizedInFront(file: seq<byte>, from: nat, end: nat, sizes: Sizes, dec: Decoder)
    requires from + sizes.maxLine < end < |file| && file[end] == LF
    requires forall j :: from <= j < end ==> file[j] != LF
    ensures Newest(Split(file[from..], from), dec, UpTo(sizes.maxLine))
         == Newest(Split(file[end + 1..], end + 1), dec, UpTo(sizes.maxLine))
  {
    hide LinesFrom, Shown, LineStart, NextNewline;
    var line := Raw(from, file[from..end]);
    var rest := Split(file[end + 1..], end + 1);
    assert Split(file[from..], from) == [line] + rest by {
      assert file[from..] == (file[from..end] + [LF]) + file[end + 1..];
      SplitConcat(file[from..end] + [LF], file[end + 1..], from);
      SplitOne(file[from..end], from);
    }
    AddOlder([], line, rest, dec, UpTo(sizes.maxLine));
  }

  /** The first newline after `seen`, and that the line it ends began before `seen` did. */
  lemma FirstNewlineAfter(seen: seq<byte>, file: seq<byte>, n: nat)
    requires seen <= file && n == NextNewline(file[|seen|..], 0)
    ensures |seen| + n <= |file|
    ensures |seen| + n < |file| ==> file[|seen| + n] == LF
    ensures forall j :: CompleteEnd(seen) <= j < |seen| + n ==> file[j] != LF
  {
    var rest := file[|seen|..];
    assert forall j :: |seen| <= j < |file| ==> file[j] == rest[j - |seen|];
  }

  /** The unfinished line does not depend on what precedes a newline. */
  lemma UnfinishedAfter(file: seq<byte>, from: nat, max: nat)
    requires from <= |file| && (from == 0 || file[from - 1] == LF)
    ensures UnfinishedOf(file, max) == UnfinishedOf(file[from..], max)
  {
    CompleteEndAfter(file, from);
  }

  /** Still inside the oversized line: nothing new, nothing unfinished worth keeping. */
  lemma StillSkipping(seen: seq<byte>, file: seq<byte>, limit: nat, sizes: Sizes, dec: Decoder)
    requires seen <= file && UnfinishedOf(seen, sizes.maxLine).discarding
    requires NextNewline(file[|seen|..], 0) == |file| - |seen|
    ensures DeltaResult(seen, file, limit, sizes, dec)
         == ReadResult([], false, false, false, 0, |file|, Unfinished([], true), AnchorOf(file))
  {
    var e := CompleteEnd(seen);
    FirstNewlineAfter(seen, file, |file| - |seen|);
    SplitNone(file[e..], e);
    NewestNone(dec, UpTo(sizes.maxLine));
    assert CompleteEnd(file) <= e;
  }

  /** A delta result is decided by the new lines and the unfinished one. */
  lemma SameDelta(seen: seq<byte>, file: seq<byte>, text: seq<byte>, offset: nat, limit: nat, sizes: Sizes,
      dec: Decoder)
    requires seen <= file
    requires Newest(Split(file[CompleteEnd(seen)..], CompleteEnd(seen)), dec, UpTo(sizes.maxLine))
          == Newest(Split(text, offset), dec, UpTo(sizes.maxLine))
    requires UnfinishedOf(file, sizes.maxLine) == UnfinishedOf(text, sizes.maxLine)
    ensures DeltaResult(seen, file, limit, sizes, dec) == AppendedResult(file, text, offset, limit, sizes, dec)
  {
    hide Split, Newest, UnfinishedOf, AnchorOf;
  }

  /** Past the newline of the oversized line, only the text after it counts. */
  lemma DoneSkipping(seen: seq<byte>, file: seq<byte>, n: nat, limit: nat, sizes: Sizes, dec: Decoder)
    requires seen <= file && UnfinishedOf(seen, sizes.maxLine).discarding
    requires n == NextNewline(file[|seen|..], 0) < |file| - |seen|
    ensures var from := |seen| + n + 1;
      DeltaResult(seen, file, limit, sizes, dec) == AppendedResult(file, file[from..], from, limit, sizes, dec)
  {
    hide LinesFrom, Shown, LineStart, NextNewline;
    FirstNewlineAfter(seen, file, n);
    assert |seen| - CompleteEnd(seen) > sizes.maxLine;
    OversizedInFront(file, CompleteEnd(seen), |seen| + n, sizes, dec);
    UnfinishedAfter(file, |seen| + n + 1, sizes.maxLine);
    SameDelta(seen, file, file[|seen| + n + 1..], |seen| + n + 1, limit, sizes, dec);
    hide *;
  }

  /** A carried unfinished line and the appended bytes are the text after the last newline seen. */
  lemma CarriedOver(seen: seq<byte>, file: seq<byte>, limit: nat, sizes: Sizes, dec: Decoder)
    requires seen <= file && !UnfinishedOf(seen, sizes.maxLine).discarding
    ensures var partial := UnfinishedOf(seen, sizes.maxLine).partial;
      && |partial| <= |seen|
      && DeltaResult(seen, file, limit, sizes, dec)
         == AppendedResult(file, partial + file[|seen|..], |seen| - |partial|, limit, sizes, dec)
  {
    hide LinesFrom, Shown, LineStart, NextNewline;
    var e := CompleteEnd(seen);
    assert seen[e..] + file[|seen|..] == file[e..];
    UnfinishedAfter(file, e, sizes.maxLine);
  }

  /** The delta proper: everything after the saved position, joined to what was carried. */
  method ReadDelta(file: seq<byte>, limit: nat, prevSize: nat, prev: Unfinished, ghost seen: seq<byte>,
                   sizes: Sizes, dec: Decoder)
    returns (r: ReadResult)
    requires prevSize == |seen| <= |file| && prev == UnfinishedOf(seen, sizes.maxLine)
    ensures !r.fullSnapshot && !r.continuityLost
    ensures seen <= file ==> r == DeltaResult(seen, file, limit, sizes, dec)
  {
    hide LinesFrom, Shown, LineStart, NextNewline;
    var appended := file[prevSize..];
    if prev.discarding {
      var newline := NextNewline(appended, 0);
      if newline == |appended| {
        if seen <= file {
          StillSkipping(seen, file, limit, sizes, dec);
        }
        return ReadResult([], false, false, false, 0, |file|, Unfinished([], true), AnchorOf(file));
      }
      if seen <= file {
        DoneSkipping(seen, file, newline, limit, sizes, dec);
      }
      var from := prevSize + newline + 1;
      r := ReadAppended(file, file[from..], from, limit, sizes, dec);
    } else {
      if seen <= file {
        CarriedOver(seen, file, limit, sizes, dec);
      }
      r := ReadAppended(file, prev.partial + appended, prevSize - |prev.partial|, limit, sizes, dec);
    }
  }

  /** One read on the worker: a tail snapshot, or only the appended bytes when the saved position is still valid.
      `seen` is the file as it was when the saved position was taken; with no saved position `prevSize` is negative. */
  method ReadAndFilter(file: seq<byte>, limit: nat, fullLoad: bool, prevSize: int, prev: Unfinished,
                       prevAnchor: seq<byte>, ghost seen: seq<byte>, sizes: Sizes, dec: Decoder)
    returns (r: ReadResult)
    requires sizes.block > 0
    requires prevSize >= 0 ==>
      prevSize == |seen| && prev == UnfinishedOf(seen, sizes.maxLine) && prevAnchor == AnchorOf(seen)
    ensures fullLoad || prevSize < 0 ==> r == TailResult(file, limit, sizes, dec)
    ensures r.fullSnapshot ==> r == TailResult(file, limit, sizes, dec).(continuityLost := r.continuityLost)
    ensures !r.fullSnapshot
            <==> !fullLoad && prevSize >= 0 && SameEnd(seen, file)
                 && |file| - |seen| + |prev.partial| <= 8 * 1024 * 1024
    ensures !r.fullSnapshot && seen <= file ==> r == DeltaResult(seen, file, limit, sizes, dec)
    ensures r.continuityLost <==> !fullLoad && prevSize >= 0 && !SameEnd(seen, file)
    ensures prevSize >= 0 && seen <= file ==> !r.continuityLost
  {
    if fullLoad || prevSize < 0 {
      r := ReadTail(file, limit, sizes, dec);
      return;
    }
    ContinuesExactly(seen, file);
    if !Continues(file, prevSize, prevAnchor) {
      r := ReadTail(file, limit, sizes, dec);
      r := r.(continuityLost := true);
      return;
    }
    if |file| - prevSize > MAX_DELTA_BYTES || |prev.partial| > MAX_DELTA_BYTES - (|file| - prevSize) {
      r := ReadTail(file, limit, sizes, dec);
      return;
    }
    r := ReadDelta(file, limit, prevSize, prev, seen, sizes, dec);
  }
}
