/** Bytes of a debug log, the plain forward split into lines, and what the viewer shows of them. */

/** Sequence facts shared by the log modules. */
module Sequences {
  function Take<T>(s: seq<T>, n: nat): (r: seq<T>)
    ensures |r| == if |s| <= n then |s| else n
    ensures r <= s
  {
    if |s| <= n then s else s[..n]
  }

  /** The last n elements, or all of them. */
  function Last<T>(s: seq<T>, n: nat): (r: seq<T>)
    ensures |r| == if |s| <= n then |s| else n
    ensures forall i :: 0 <= i < |r| ==> r[i] == s[|s| - |r| + i]
  {
    if |s| <= n then s else s[|s| - n..]
  }

  function Reverse<T>(s: seq<T>): (r: seq<T>)
    ensures |r| == |s|
    ensures forall i :: 0 <= i < |s| ==> r[i] == s[|s| - 1 - i]
  {
    seq(|s|, i requires 0 <= i < |s| => s[|s| - 1 - i])
  }

  lemma ReverseConcat<T>(a: seq<T>, b: seq<T>)
    ensures Reverse(a + b) == Reverse(b) + Reverse(a)
  {
  }

  lemma ReverseTwice<T>(a: seq<T>)
    ensures Reverse(Reverse(a)) == a
  {
  }

  /** Cutting a reversed list at n is the reversal of its last n elements. */
  lemma TakeReverse<T>(s: seq<T>, n: nat)
    ensures Take(Reverse(s), n) == Reverse(Last(s, n))
  {
  }

  /** Filling up to n from a further source is the same as cutting the concatenation. */
  lemma TakeMore<T>(a: seq<T>, b: seq<T>, n: nat)
    ensures Take(a, n) + Take(b, n - |Take(a, n)|) == Take(a + b, n)
  {
  }

  /** Keeping the last n of a growing list only ever needs the last n kept so far. */
  lemma LastConcat<T>(a: seq<T>, b: seq<T>, n: nat)
    ensures Last(Last(a, n) + b, n) == Last(a + b, n)
  {
    if |b| >= n {
      LastOfTail(Last(a, n), b, n);
      LastOfTail(a, b, n);
    } else if |a| <= n {
      assert Last(a, n) == a;
    } else {
      LastKeep(Last(a, n), b, n);
      LastKeep(a, b, n);
      assert Last(Last(a, n), n - |b|) == Last(a, n - |b|);
      hide Last;
    }
  }

  lemma LastKeep<T>(a: seq<T>, b: seq<T>, n: nat)
    requires |b| <= n
    ensures Last(a, n - |b|) + b == Last(a + b, n)
  {
  }

  lemma LastOfTail<T>(a: seq<T>, b: seq<T>, n: nat)
    requires |b| >= n
    ensures Last(b, n) == Last(a + b, n)
  {
  }
}

module LogText {
  import opened Sequences

  newtype byte = x: int | 0 <= x < 256
  const LF: byte := 10
  const CR: byte := 13

  /** What decoding one physical line yields: timestamp pattern, prefixes and level are opaque here. */
  datatype Decoded = Decoded(message: string, timestamp: string, isError: bool, isWarning: bool)
  type Decoder = seq<byte> -> Decoded

  datatype LogLine = LogLine(message: string, timestamp: string, offset: nat, isError: bool, isWarning: bool)

  /** One newline-terminated line: where it starts in the file, and its bytes without the newline. */
  datatype Raw = Raw(offset: nat, bytes: seq<byte>)

  ghost predicate NoNewline(s: seq<byte>) {
    forall j :: 0 <= j < |s| ==> s[j] != LF
  }

  /** Index of the first newline at or after `from`, or the length when there is none. */
  function NextNewline(s: seq<byte>, from: nat): (i: nat)
    requires from <= |s|
    ensures from <= i <= |s|
    ensures i < |s| ==> s[i] == LF
    ensures forall j :: from <= j < i ==> s[j] != LF
    decreases |s| - from
  {
    if from == |s| || s[from] == LF then from else NextNewline(s, from + 1)
  }

  lemma NextNewlineIs(s: seq<byte>, from: nat, i: nat)
    requires from <= i <= |s|
    requires forall j :: from <= j < i ==> s[j] != LF
    requires i < |s| ==> s[i] == LF
    ensures NextNewline(s, from) == i
  {
    var n := NextNewline(s, from);
    assert n < |s| ==> s[n] == LF;
    assert i < |s| ==> s[i] == LF;
  }

  /** Where the line that is cut off at `end` starts: one past the last newline before `end`, or 0. */
  function LineStart(s: seq<byte>, end: nat): (e: nat)
    requires end <= |s|
    ensures e <= end
    ensures e > 0 ==> s[e - 1] == LF
    ensures forall j :: e <= j < end ==> s[j] != LF
  {
    if end == 0 || s[end - 1] == LF then end else LineStart(s, end - 1)
  }

  /** Where the complete lines end and the unfinished last line starts. */
  function CompleteEnd(s: seq<byte>): (e: nat)
    ensures e <= |s|
    ensures e > 0 ==> s[e - 1] == LF
    ensures forall j :: e <= j < |s| ==> s[j] != LF
  {
    LineStart(s, |s|)
  }

  ghost predicate Complete(s: seq<byte>) {
    s == [] || s[|s| - 1] == LF
  }

  /** The terminated lines that start at index `from` or later, scanning forward; offsets are shifted by `base`. */
  function LinesFrom(s: seq<byte>, from: nat, base: nat): (lines: seq<Raw>)
    requires from <= |s|
    decreases |s| - from
  {
    var i := NextNewline(s, from);
    if i == |s| then [] else [Raw(base + from, s[from..i])] + LinesFrom(s, i + 1, base)
  }

  /** The reference: split the text on newlines from the front, keeping every terminated line. */
  function Split(s: seq<byte>, base: nat): (lines: seq<Raw>) {
    LinesFrom(s, 0, base)
  }

  lemma SplitNone(s: seq<byte>, base: nat)
    requires NoNewline(s)
    ensures Split(s, base) == []
  {
  }

  lemma SplitOne(x: seq<byte>, base: nat)
    requires NoNewline(x)
    ensures Split(x + [LF], base) == [Raw(base, x)]
  {
    var s := x + [LF];
    NextNewlineIs(s, 0, |x|);
    assert s[..|x|] == x;
    assert LinesFrom(s, |s|, base) == [];
  }

  lemma {:induction false} LinesFromShift(a: seq<byte>, b: seq<byte>, from: nat, base: nat)
    requires from <= |b|
    ensures LinesFrom(a + b, |a| + from, base) == LinesFrom(b, from, base + |a|)
    decreases |b| - from
  {
    NextNewlineShift(a, b, from);
    var i := NextNewline(b, from);
    if i < |b| {
      LinesFromShift(a, b, i + 1, base);
    }
  }

  lemma NextNewlineShift(a: seq<byte>, b: seq<byte>, from: nat)
    requires from <= |b|
    ensures NextNewline(a + b, |a| + from) == |a| + NextNewline(b, from)
    ensures (a + b)[|a| + from..|a| + NextNewline(b, from)] == b[from..NextNewline(b, from)]
  {
    NextNewlineIs(a + b, |a| + from, |a| + NextNewline(b, from));
  }

  lemma NextNewlineInPrefix(a: seq<byte>, b: seq<byte>, from: nat)
    requires Complete(a) && from < |a|
    ensures NextNewline(a, from) < |a| && NextNewline(a + b, from) == NextNewline(a, from)
    ensures (a + b)[from..NextNewline(a, from)] == a[from..NextNewline(a, from)]
  {
    NextNewlineIs(a + b, from, NextNewline(a, from));
  }

  lemma {:induction false} LinesFromConcat(a: seq<byte>, b: seq<byte>, from: nat, base: nat)
    requires Complete(a) && from <= |a|
    ensures LinesFrom(a + b, from, base) == LinesFrom(a, from, base) + Split(b, base + |a|)
    decreases |a| - from
  {
    hide NextNewline;
    if from == |a| {
      LinesFromShift(a, b, 0, base);
    } else {
      NextNewlineInPrefix(a, b, from);
      LinesFromConcat(a, b, NextNewline(a, from) + 1, base);
    }
  }

  lemma SplitConcat(a: seq<byte>, b: seq<byte>, base: nat)
    requires Complete(a)
    ensures Split(a + b, base) == Split(a, base) + Split(b, base + |a|)
  {
    LinesFromConcat(a, b, 0, base);
  }

  /** An unfinished last line contributes nothing. */
  lemma SplitCompletePart(s: seq<byte>, base: nat)
    ensures Split(s, base) == Split(s[..CompleteEnd(s)], base)
  {
    var e := CompleteEnd(s);
    assert s == s[..e] + s[e..];
    SplitConcat(s[..e], s[e..], base);
    SplitNone(s[e..], base + e);
  }

  /** Every line of a split is a newline-bounded stretch of the text, found at its offset. */
  ghost predicate LineOf(s: seq<byte>, base: nat, r: Raw) {
    && base <= r.offset
    && r.offset - base + |r.bytes| < |s|
    && s[r.offset - base..r.offset - base + |r.bytes|] == r.bytes
    && s[r.offset - base + |r.bytes|] == LF
    && NoNewline(r.bytes)
    && (r.offset == base || s[r.offset - base - 1] == LF)
  }

  lemma {:induction false} LinesFromSound(s: seq<byte>, from: nat, base: nat, k: nat)
    requires from <= |s| && k < |LinesFrom(s, from, base)|
    requires from == 0 || s[from - 1] == LF
    ensures LineOf(s, base, LinesFrom(s, from, base)[k]) && base + from <= LinesFrom(s, from, base)[k].offset
    decreases |s| - from
  {
    var i := NextNewline(s, from);
    if k > 0 {
      LinesFromSound(s, i + 1, base, k - 1);
    }
  }

  /** Offsets grow strictly, so an offset names one line. */
  lemma {:induction false} LinesFromIncreasing(s: seq<byte>, from: nat, base: nat, j: nat, k: nat)
    requires from <= |s| && j < k < |LinesFrom(s, from, base)|
    requires from == 0 || s[from - 1] == LF
    ensures LinesFrom(s, from, base)[j].offset < LinesFrom(s, from, base)[k].offset
    decreases |s| - from
  {
    var i := NextNewline(s, from);
    if j == 0 {
      LinesFromSound(s, i + 1, base, k - 1);
    } else {
      LinesFromIncreasing(s, i + 1, base, j - 1, k - 1);
    }
  }

  /** A trailing carriage return is not part of what is decoded. */
  function Entry(r: Raw, dec: Decoder): (e: LogLine)
    ensures e.offset == r.offset
  {
    var n := |r.bytes|;
    var d := dec(if n > 0 && r.bytes[n - 1] == CR then r.bytes[..n - 1] else r.bytes);
    LogLine(d.message, d.timestamp, r.offset, d.isError, d.isWarning)
  }

  predicate Displayable(e: LogLine) {
    e.message != "" || e.timestamp != ""
  }

  /** Whether a distance is a whole number of blocks. */
  predicate OnGrid(distance: int, block: nat)
    requires block > 0
    decreases distance
  {
    if distance < block then distance == 0 else OnGrid(distance - block, block)
  }

  /** Which line lengths a reader accepts. `UpTo` is the documented limit. `TailUpTo` is what the
      backward block reader really does: a line of exactly the limit that starts on a block boundary
      (counted back from the end of the complete text, and not at the start of the file) is lost. */
  datatype Limit = UpTo(max: nat) | TailUpTo(max: nat, end: nat, block: nat) {
    predicate Accepts(r: Raw) {
      && |r.bytes| <= max
      && !(TailUpTo? && OnLostBoundary(r))
    }

    predicate OnLostBoundary(r: Raw)
      requires TailUpTo?
    {
      |r.bytes| == max && 0 < r.offset <= end && block > 0 && OnGrid(end - r.offset, block)
    }
  }

  /** The lines of `raws` that reach the viewer, in order. */
  function Shown(raws: seq<Raw>, dec: Decoder, lim: Limit): (r: seq<Raw>)
  {
    if raws == [] then [] else
      (if lim.Accepts(raws[0]) && Displayable(Entry(raws[0], dec)) then [raws[0]] else [])
      + Shown(raws[1..], dec, lim)
  }

  function Entries(raws: seq<Raw>, dec: Decoder): (r: seq<LogLine>)
    ensures |r| == |raws|
    ensures forall i :: 0 <= i < |raws| ==> r[i] == Entry(raws[i], dec)
  {
    seq(|raws|, i requires 0 <= i < |raws| => Entry(raws[i], dec))
  }

  /** Both line endings decode alike: one carriage return before the newline is not part of the text. */
  lemma LineEndings(offset: nat, text: seq<byte>, dec: Decoder)
    requires text == [] || text[|text| - 1] != CR
    ensures var d := dec(text);
      Entry(Raw(offset, text), dec) == LogLine(d.message, d.timestamp, offset, d.isError, d.isWarning)
    ensures Entry(Raw(offset, text + [CR]), dec) == Entry(Raw(offset, text), dec)
  {
    assert (text + [CR])[..|text|] == text;
  }

  /** Exactly the lines within the limit that decode to a message or a timestamp reach the viewer. */
  lemma {:induction false} ShownExact(raws: seq<Raw>, dec: Decoder, max: nat, r: Raw)
    ensures multiset(Shown(raws, dec, UpTo(max)))[r]
         == if |r.bytes| <= max && !(Entry(r, dec).message == "" && Entry(r, dec).timestamp == "")
            then multiset(raws)[r] else 0
  {
    if raws != [] {
      ShownExact(raws[1..], dec, max, r);
      assert raws == [raws[0]] + raws[1..];
      hide Entry;
    }
  }

  lemma {:induction false} ShownMember(raws: seq<Raw>, dec: Decoder, lim: Limit, i: nat)
    requires i < |Shown(raws, dec, lim)|
    ensures var x := Shown(raws, dec, lim)[i]; lim.Accepts(x) && Displayable(Entry(x, dec)) && x in raws
  {
    var n := if lim.Accepts(raws[0]) && Displayable(Entry(raws[0], dec)) then 1 else 0;
    if i >= n {
      ShownMember(raws[1..], dec, lim, i - n);
      assert Shown(raws, dec, lim)[i] == Shown(raws[1..], dec, lim)[i - n];
    }
  }

  lemma EntriesConcat(a: seq<Raw>, b: seq<Raw>, dec: Decoder)
    ensures Entries(a + b, dec) == Entries(a, dec) + Entries(b, dec)
  {
  }

  lemma {:induction false} ShownConcat(a: seq<Raw>, b: seq<Raw>, dec: Decoder, lim: Limit)
    ensures Shown(a + b, dec, lim) == Shown(a, dec, lim) + Shown(b, dec, lim)
    decreases |a|
  {
    if a == [] {
      assert a + b == b;
    } else {
      assert (a + b)[1..] == a[1..] + b;
      ShownConcat(a[1..], b, dec, lim);
    }
  }

  lemma {:induction false} ShownAgree(raws: seq<Raw>, dec: Decoder, l1: Limit, l2: Limit)
    requires forall i :: 0 <= i < |raws| ==> (l1.Accepts(raws[i]) <==> l2.Accepts(raws[i]))
    ensures Shown(raws, dec, l1) == Shown(raws, dec, l2)
  {
    if raws != [] {
      ShownAgree(raws[1..], dec, l1, l2);
    }
  }

  /** The reference answer, oldest first: every displayable line of `file` within the limit. */
  function ShownLines(file: seq<byte>, dec: Decoder, lim: Limit): seq<LogLine> {
    Entries(Shown(Split(file, 0), dec, lim), dec)
  }

  /** The unfinished last line as a forward scan would hold it: its bytes, or the fact that it is already too long. */
  datatype Unfinished = Unfinished(partial: seq<byte>, discarding: bool)

  function UnfinishedOf(file: seq<byte>, max: nat): Unfinished {
    var tail := file[CompleteEnd(file)..];
    if |tail| <= max then Unfinished(tail, false) else Unfinished([], true)
  }
}
