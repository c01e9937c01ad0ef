/** Block segments on the face of the block clock, over exact reals. */
module Dial {
  import opened Sorting

  /** A visual boundary and the blocks gathered on it. */
  datatype Boundary = Boundary(fraction: real, blocks: nat)

  /** An arc with the confirmation depths at its two ends. */
  datatype Segment = Segment(start: real, end: real, startDepth: int, endDepth: int)

  predicate Sorted(blocks: seq<real>) {
    forall i, j :: 0 <= i < j < |blocks| ==> blocks[i] <= blocks[j]
  }

  /** The nearest point of the dial. */
  function Bound(x: real): (r: real)
    ensures 0.0 <= r <= 1.0 && (0.0 <= x <= 1.0 ==> r == x)
    ensures (r < x ==> r == 1.0) && (r > x ==> r == 0.0)
  {
    if x < 0.0 then 0.0 else if x > 1.0 then 1.0 else x
  }

  // ---- Counting blocks ----

  function CountLater(blocks: seq<real>, time: real, n: nat): nat
    requires n <= |blocks|
  {
    if n == 0 then 0 else CountLater(blocks, time, n - 1) + if blocks[n - 1] > time then 1 else 0
  }

  function CountNotBefore(blocks: seq<real>, time: real, n: nat): nat
    requires n <= |blocks|
  {
    if n == 0 then 0 else CountNotBefore(blocks, time, n - 1) + if blocks[n - 1] >= time then 1 else 0
  }

  /** Blocks of the whole list later than a time. */
  function Later(blocks: seq<real>, time: real): nat {
    CountLater(blocks, time, |blocks|)
  }

  /** Blocks of the whole list at or after a time. */
  function Future(blocks: seq<real>, time: real): nat {
    CountNotBefore(blocks, time, |blocks|)
  }

  lemma {:induction false} CountLaterAt(blocks: seq<real>, time: real, k: nat, n: nat)
    requires k <= n <= |blocks|
    requires forall i :: 0 <= i < k ==> blocks[i] <= time
    requires forall i :: k <= i < n ==> blocks[i] > time
    ensures CountLater(blocks, time, n) == n - k
  {
    if n > k {
      CountLaterAt(blocks, time, k, n - 1);
    } else if n > 0 {
      CountLaterAt(blocks, time, k - 1, n - 1);
    }
  }

  lemma {:induction false} CountNotBeforeAt(blocks: seq<real>, time: real, k: nat, n: nat)
    requires k <= n <= |blocks|
    requires forall i :: 0 <= i < k ==> blocks[i] < time
    requires forall i :: k <= i < n ==> blocks[i] >= time
    ensures CountNotBefore(blocks, time, n) == n - k
  {
    if n > k {
      CountNotBeforeAt(blocks, time, k, n - 1);
    } else if n > 0 {
      CountNotBeforeAt(blocks, time, k - 1, n - 1);
    }
  }

  /** Blocks on the newest `n` boundaries. */
  function Gathered(bounds: seq<Boundary>, n: nat): nat
    requires n <= |bounds|
  {
    if n == 0 then 0 else Gathered(bounds, n - 1) + bounds[n - 1].blocks
  }

  lemma {:induction false} GatheredSame(bounds: seq<Boundary>, more: seq<Boundary>, n: nat)
    requires n <= |bounds| && n <= |more|
    requires forall i :: 0 <= i < n ==> bounds[i] == more[i]
    ensures Gathered(bounds, n) == Gathered(more, n)
  {
    if n > 0 {
      GatheredSame(bounds, more, n - 1);
    }
  }

  // ---- Boundaries ----

  /** Boundaries from the current time backwards, at least `least` apart. */
  ghost predicate Spaced(bounds: seq<Boundary>, current: real, least: real) {
    && |bounds| > 0 && bounds[0].fraction == current
    && (forall j :: 0 <= j < |bounds| - 1 ==> bounds[j].fraction - bounds[j + 1].fraction >= least)
    && (forall j :: 0 <= j < |bounds| ==> bounds[j].fraction > 0.0)
  }

  /** Depth at each boundary is the number of later blocks. */
  ghost predicate Deep(bounds: seq<Boundary>, blocks: seq<real>, future: nat) {
    forall j :: 1 <= j < |bounds| ==> future + Gathered(bounds, j) == Later(blocks, bounds[j].fraction)
  }

  /** The block is drawn: on a boundary or less than `least` before one. */
  predicate Drawn(bounds: seq<Boundary>, block: real, least: real) {
    exists j :: 0 <= j < |bounds| && 0.0 <= bounds[j].fraction - block < least
  }

  /** More boundaries at the same places draw the same blocks. */
  lemma DrawnMore(bounds: seq<Boundary>, more: seq<Boundary>, least: real)
    requires |bounds| <= |more| && forall j :: 0 <= j < |bounds| ==> bounds[j].fraction == more[j].fraction
    ensures forall b :: Drawn(bounds, b, least) ==> Drawn(more, b, least)
  {
  }

  lemma DrawnAt(bounds: seq<Boundary>, j: nat, block: real, least: real)
    requires j < |bounds| && 0.0 <= bounds[j].fraction - block < least
    ensures Drawn(bounds, block, least)
  {
  }

  function Join(bounds: seq<Boundary>): (r: seq<Boundary>)
    requires |bounds| > 0
    ensures |r| == |bounds| && forall j :: 0 <= j < |r| ==> r[j].fraction == bounds[j].fraction
  {
    var n := |bounds| - 1;
    bounds[n := bounds[n].(blocks := bounds[n].blocks + 1)]
  }

  /** Joining one more block to the oldest boundary. */
  lemma JoinKeeps(bounds: seq<Boundary>, blocks: seq<real>, future: nat, current: real, least: real)
    requires Spaced(bounds, current, least) && Deep(bounds, blocks, future)
    ensures Spaced(Join(bounds), current, least) && Deep(Join(bounds), blocks, future)
    ensures Gathered(Join(bounds), |bounds|) == Gathered(bounds, |bounds|) + 1
  {
    hide Later;
    var more := Join(bounds);
    forall j | 0 <= j < |bounds| ensures Gathered(more, j) == Gathered(bounds, j) {
      GatheredSame(bounds, more, j);
    }
    assert Gathered(more, |bounds|) == Gathered(bounds, |bounds|) + 1;
    hide Gathered, Join;
  }

  /** Opening a boundary at a block. */
  lemma PushKeeps(bounds: seq<Boundary>, blocks: seq<real>, future: nat, current: real, least: real, block: real)
    requires Spaced(bounds, current, least) && Deep(bounds, blocks, future)
    requires block > 0.0 && bounds[|bounds| - 1].fraction - block >= least
    requires future + Gathered(bounds, |bounds|) == Later(blocks, block)
    ensures var more := bounds + [Boundary(block, 1)];
      Spaced(more, current, least) && Deep(more, blocks, future)
          && Gathered(more, |more|) == Gathered(bounds, |bounds|) + 1
  {
    hide Later;
    var more := bounds + [Boundary(block, 1)];
    forall j | 0 <= j <= |bounds| ensures Gathered(more, j) == Gathered(bounds, j) {
      GatheredSame(bounds, more, j);
    }
    assert Gathered(more, |more|) == Gathered(more, |bounds|) + 1;
    hide Gathered;
    PushSpaced(bounds, current, least, block);
    hide Spaced;
    assert forall j :: 1 <= j < |bounds| ==> more[j] == bounds[j];
    assert more[|bounds|].fraction == block;
  }

  lemma PushSpaced(bounds: seq<Boundary>, current: real, least: real, block: real)
    requires Spaced(bounds, current, least) && block > 0.0 && bounds[|bounds| - 1].fraction - block >= least
    ensures Spaced(bounds + [Boundary(block, 1)], current, least)
  {
  }

  lemma StartsSpaced(blocks: seq<real>, current: real, least: real)
    requires current > 0.0
    ensures var bounds := [Boundary(current, 0)];
      Spaced(bounds, current, least) && Gathered(bounds, 1) == 0 && forall future: nat :: Deep(bounds, blocks, future)
  {
    assert Gathered([Boundary(current, 0)], 0) == 0;
  }

  /** The backward walk over the blocks. */
  method Boundaries(blocks: seq<real>, current: real, least: real) returns (bounds: seq<Boundary>, future: nat)
    requires Sorted(blocks) && current > 0.0 && least > 0.0
    ensures Spaced(bounds, current, least) && Deep(bounds, blocks, future)
    ensures future == Future(blocks, current)
    ensures future + Gathered(bounds, |bounds|) == Later(blocks, 0.0)
    ensures forall k :: 0 <= k < |blocks| && 0.0 < blocks[k] < current ==> Drawn(bounds, blocks[k], least)
  {
    hide Gathered, Deep, Spaced, Drawn, CountLater, CountNotBefore;
    bounds, future := [Boundary(current, 0)], 0;
    StartsSpaced(blocks, current, least);
    var next := current;
    ghost var positive, early := |blocks|, |blocks|;
    var i := |blocks|;
    while i > 0
      invariant 0 <= i <= positive <= early <= |blocks|
      invariant forall k :: early <= k < |blocks| ==> blocks[k] >= current
      invariant forall k :: positive <= k < early ==> 0.0 < blocks[k] < current && Drawn(bounds, blocks[k], least)
      invariant i < positive ==> blocks[positive - 1] <= 0.0
      invariant positive == early ==> bounds == [Boundary(current, 0)]
      invariant future == |blocks| - early
      invariant |bounds| > 0 && bounds[|bounds| - 1].fraction == next <= current
      invariant forall k :: positive <= k < |blocks| ==> blocks[k] > next - least
      invariant positive < early ==> blocks[positive] <= next
      invariant Spaced(bounds, current, least) && Deep(bounds, blocks, future)
      invariant future + Gathered(bounds, |bounds|) == |blocks| - positive
    {
      i := i - 1;
      var block := blocks[i];
      if block <= 0.0 {
        continue;
      }
      if block >= current {
        future := future + 1;
        positive, early := i, i;
        continue;
      }
      positive := i;
      if next - block < least {
        JoinKeeps(bounds, blocks, future, current, least);
        DrawnMore(bounds, Join(bounds), least);
        bounds := Join(bounds);
        DrawnAt(bounds, |bounds| - 1, block, least);
        continue;
      }
      CountLaterAt(blocks, block, i + 1, |blocks|);
      PushKeeps(bounds, blocks, future, current, least, block);
      DrawnMore(bounds, bounds + [Boundary(block, 1)], least);
      bounds := bounds + [Boundary(block, 1)];
      DrawnAt(bounds, |bounds| - 1, block, least);
      next := block;
    }
    CountLaterAt(blocks, 0.0, positive, |blocks|);
    CountNotBeforeAt(blocks, current, early, |blocks|);
  }

  // ---- Segments ----

  /** The segment that ends at boundary `j`, counted from the newest. */
  function SegmentAt(bounds: seq<Boundary>, future: nat, j: nat): Segment
    requires j < |bounds|
  {
    Segment(if j + 1 < |bounds| then bounds[j + 1].fraction else 0.0, bounds[j].fraction,
            future + Gathered(bounds, j + 1), future + Gathered(bounds, j))
  }

  /** From the oldest boundary to the newest, each crossing takes its blocks off the depth. */
  method PaintSegments(bounds: seq<Boundary>, future: nat) returns (segments: seq<Segment>)
    ensures Painted(bounds, future, segments)
  {
    var depth: int := future;
    for j := 0 to |bounds|
      invariant depth == future + Gathered(bounds, j)
    {
      depth := depth + bounds[j].blocks;
    }
    segments := [];
    var start := 0.0;
    for j := |bounds| downto 0
      invariant |segments| == |bounds| - j
      invariant depth == future + Gathered(bounds, j)
      invariant start == if j < |bounds| then bounds[j].fraction else 0.0
      invariant forall m :: 0 <= m < |segments| ==> segments[m] == SegmentAt(bounds, future, |bounds| - 1 - m)
    {
      var next := depth - bounds[j].blocks;
      segments := segments + [Segment(start, bounds[j].fraction, depth, next)];
      start := bounds[j].fraction;
      depth := next;
    }
  }

  /** The segments cover the dial from zero to the current time, and depths agree where they adjoin. */
  ghost predicate Tiles(segments: seq<Segment>, current: real) {
    && |segments| > 0 && segments[0].start == 0.0 && segments[|segments| - 1].end == current
    && (forall m :: 0 <= m < |segments| ==> 0.0 <= segments[m].start < segments[m].end)
    && (forall m :: 0 <= m < |segments| - 1 ==>
          segments[m].end == segments[m + 1].start && segments[m].endDepth == segments[m + 1].startDepth)
  }

  /** Depths count the blocks after a point: inside the dial exactly, and at the current time the future ones. */
  ghost predicate DepthsCount(segments: seq<Segment>, blocks: seq<real>, current: real) {
    && (forall m :: 0 <= m < |segments| && segments[m].start > 0.0 ==>
          segments[m].startDepth == Later(blocks, segments[m].start))
    && (|segments| > 0 ==> segments[|segments| - 1].endDepth == Future(blocks, current))
  }

  /** The dial's own start shows every block but those of a sliver too small to draw. */
  ghost predicate FirstDepthCounts(segments: seq<Segment>, blocks: seq<real>, least: real) {
    |segments| > 0 && exists cut :: 0.0 <= cut < least && segments[0].startDepth == Later(blocks, cut)
  }

  ghost predicate WideEnough(segments: seq<Segment>, least: real) {
    |segments| > 1 ==> forall m :: 0 <= m < |segments| ==> segments[m].end - segments[m].start >= least
  }

  /** No block is lost: it is close before the end of a segment, or in the first sliver of the dial. */
  ghost predicate NoBlockLost(segments: seq<Segment>, block: real, least: real) {
    block < least || exists m :: 0 <= m < |segments| && 0.0 <= segments[m].end - block < least
  }

  ghost predicate Painted(bounds: seq<Boundary>, future: nat, segments: seq<Segment>) {
    && |segments| == |bounds|
    && forall m :: 0 <= m < |bounds| ==> segments[m] == SegmentAt(bounds, future, |bounds| - 1 - m)
  }

  /** One segment lies between two boundaries at least `least` apart. */
  lemma SegmentBetween(bounds: seq<Boundary>, future: nat, current: real, least: real, segments: seq<Segment>, m: nat)
    requires Spaced(bounds, current, least) && least > 0.0 && Painted(bounds, future, segments) && m < |bounds|
    requires |bounds| > 1 ==> bounds[|bounds| - 1].fraction >= least
    ensures segments[m].end == bounds[|bounds| - 1 - m].fraction
    ensures m == 0 ==> segments[m].start == 0.0
    ensures m > 0 ==> segments[m].start == bounds[|bounds| - m].fraction == segments[m - 1].end
    ensures m > 0 ==> segments[m].startDepth == segments[m - 1].endDepth == future + Gathered(bounds, |bounds| - m)
    ensures 0.0 <= segments[m].start < segments[m].end
    ensures |bounds| > 1 ==> segments[m].end - segments[m].start >= least
  {
    hide Gathered;
    var j := |bounds| - 1 - m;
    assert segments[m] == SegmentAt(bounds, future, j);
    if m > 0 {
      assert segments[m - 1] == SegmentAt(bounds, future, j + 1);
      assert bounds[j].fraction - bounds[j + 1].fraction >= least;
    }
  }

  lemma SegmentsTile(bounds: seq<Boundary>, blocks: seq<real>, future: nat, current: real, least: real,
      segments: seq<Segment>)
    requires Spaced(bounds, current, least) && Deep(bounds, blocks, future) && future == Future(blocks, current)
        && least > 0.0
    requires |bounds| > 1 ==> bounds[|bounds| - 1].fraction >= least
    requires Painted(bounds, future, segments)
    ensures Tiles(segments, current) && DepthsCount(segments, blocks, current) && WideEnough(segments, least)
  {
    hide Later, Future;
    var n := |bounds|;
    LastSegment(bounds, future, current, least, segments);
    forall m | 0 <= m < n
      ensures 0.0 <= segments[m].start < segments[m].end && (m == 0 ==> segments[m].start == 0.0)
      ensures m > 0 ==> segments[m].start == segments[m - 1].end && segments[m].startDepth == segments[m - 1].endDepth
      ensures n > 1 ==> segments[m].end - segments[m].start >= least
      ensures m > 0 ==> segments[m].startDepth == Later(blocks, segments[m].start)
    {
      SegmentBetween(bounds, future, current, least, segments, m);
      hide Gathered, Spaced, Painted;
    }
    hide Gathered, Spaced, Painted, Deep, SegmentAt;
  }

  lemma LastSegment(bounds: seq<Boundary>, future: nat, current: real, least: real, segments: seq<Segment>)
    requires Spaced(bounds, current, least) && Painted(bounds, future, segments)
    ensures |segments| == |bounds| > 0
    ensures segments[|bounds| - 1].end == current && segments[|bounds| - 1].endDepth == future
  {
    assert segments[|bounds| - 1] == SegmentAt(bounds, future, 0);
    assert Gathered(bounds, 0) == 0;
  }

  lemma DrawnIsKept(bounds: seq<Boundary>, kept: seq<Boundary>, future: nat, segments: seq<Segment>, block: real,
      least: real)
    requires Drawn(bounds, block, least)
    requires kept == bounds || (|bounds| > 1 && kept == bounds[..|bounds| - 1] && bounds[|bounds| - 1].fraction < least)
    requires Painted(kept, future, segments)
    ensures NoBlockLost(segments, block, least)
  {
    var j :| 0 <= j < |bounds| && 0.0 <= bounds[j].fraction - block < least;
    if j < |kept| {
      assert segments[|kept| - 1 - j].end == kept[j].fraction;
    }
  }

  lemma TrimKeeps(bounds: seq<Boundary>, blocks: seq<real>, future: nat, current: real, least: real)
    requires Spaced(bounds, current, least) && Deep(bounds, blocks, future) && |bounds| > 1
    ensures var kept := bounds[..|bounds| - 1];
      && Spaced(kept, current, least) && Deep(kept, blocks, future)
      && (|kept| > 1 ==> kept[|kept| - 1].fraction >= least)
      && future + Gathered(kept, |kept|) == Later(blocks, bounds[|bounds| - 1].fraction)
  {
    hide Later;
    var kept := bounds[..|bounds| - 1];
    forall j | 0 <= j <= |kept| ensures Gathered(kept, j) == Gathered(bounds, j) {
      GatheredSame(kept, bounds, j);
    }
    hide Gathered;
    assert bounds[|kept| - 1].fraction - bounds[|kept|].fraction >= least;
  }

  method CoalescedSegments(blocks: seq<real>, currentTime: real, least: real) returns (segments: seq<Segment>)
    requires Sorted(blocks) && least > 0.0
    ensures Bound(currentTime) == 0.0 <==> segments == []
    ensures segments != [] ==> Tiles(segments, Bound(currentTime)) && DepthsCount(segments, blocks, Bound(currentTime))
    ensures segments != [] ==> WideEnough(segments, least)
    ensures segments != [] ==> FirstDepthCounts(segments, blocks, least)
    ensures forall k :: 0 <= k < |blocks| && 0.0 < blocks[k] < Bound(currentTime) ==>
              NoBlockLost(segments, blocks[k], least)
  {
    var current := Bound(currentTime);
    if current <= 0.0 {
      return [];
    }
    hide Spaced, Deep, Later, Future, Drawn, Gathered, Tiles, DepthsCount, WideEnough, NoBlockLost, Painted,
         FirstDepthCounts, Sorted;
    var bounds, future := Boundaries(blocks, current, least);
    SpacedSize(bounds, current, least);
    var kept := bounds;
    ghost var cut := 0.0;
    if |bounds| > 1 && bounds[|bounds| - 1].fraction < least {
      TrimKeeps(bounds, blocks, future, current, least);
      cut := bounds[|bounds| - 1].fraction;
      kept := bounds[..|bounds| - 1];
    }
    segments := PaintSegments(kept, future);
    SegmentsTile(kept, blocks, future, current, least, segments);
    FirstDepth(kept, blocks, future, segments, least, cut);
    AllDrawnKept(blocks, current, bounds, kept, future, segments, least);
  }

  lemma AllDrawnKept(blocks: seq<real>, current: real, bounds: seq<Boundary>, kept: seq<Boundary>, future: nat,
                     segments: seq<Segment>, least: real)
    requires forall k :: 0 <= k < |blocks| && 0.0 < blocks[k] < current ==> Drawn(bounds, blocks[k], least)
    requires kept == bounds || (|bounds| > 1 && kept == bounds[..|bounds| - 1] && bounds[|bounds| - 1].fraction < least)
    requires Painted(kept, future, segments)
    ensures forall k :: 0 <= k < |blocks| && 0.0 < blocks[k] < current ==> NoBlockLost(segments, blocks[k], least)
  {
    hide NoBlockLost, Drawn, Painted;
    forall k | 0 <= k < |blocks| && 0.0 < blocks[k] < current ensures NoBlockLost(segments, blocks[k], least) {
      DrawnIsKept(bounds, kept, future, segments, blocks[k], least);
    }
  }

  lemma FirstDepth(bounds: seq<Boundary>, blocks: seq<real>, future: nat, segments: seq<Segment>, least: real,
      cut: real)
    requires Painted(bounds, future, segments) && |bounds| > 0
    requires 0.0 <= cut < least && future + Gathered(bounds, |bounds|) == Later(blocks, cut)
    ensures FirstDepthCounts(segments, blocks, least)
  {
    assert segments[0] == SegmentAt(bounds, future, |bounds| - 1);
    hide Gathered, Painted;
    assert |segments| > 0;
    assert segments[0].startDepth == Later(blocks, cut);
  }

  lemma SpacedSize(bounds: seq<Boundary>, current: real, least: real)
    requires Spaced(bounds, current, least)
    ensures |bounds| > 0 && bounds[|bounds| - 1].fraction > 0.0
  {
  }

  // ---- The dial ----

  function Self(x: real): real {
    x
  }

  lemma SortTimesSorts(times: seq<real>)
    ensures Sorted(SortBy(times, Self)) && multiset(SortBy(times, Self)) == multiset(times)
  {
    SortBySorts(times, Self);
    hide SortBy;
    var r := SortBy(times, Self);
    assert forall i, j :: 0 <= i < j < |r| ==> Self(r[i]) <= Self(r[j]);
  }

  function Bounded(times: seq<real>): (r: seq<real>)
    ensures |r| == |times|
  {
    seq(|times|, i requires 0 <= i < |times| => Bound(times[i]))
  }

  class BlockClockDial {
    var currentTime: real
    var blockTimes: seq<real>

    ghost predicate Valid()
      reads this
    {
      Sorted(blockTimes)
    }

    constructor ()
      ensures Valid() && blockTimes == [] && currentTime == 0.0
    {
      currentTime, blockTimes := 0.0, [];
    }

    /** Any list may be given; the dial keeps it bounded and in order. */
    method SetBlockTimeFractions(fractions: seq<real>) returns (repaint: bool)
      requires Valid()
      modifies this`blockTimes
      ensures Valid() && multiset(blockTimes) == multiset(Bounded(fractions))
      ensures repaint <==> blockTimes != old(blockTimes)
    {
      var sorted := SortBy(Bounded(fractions), Self);
      SortTimesSorts(Bounded(fractions));
      repaint := blockTimes != sorted;
      if repaint {
        blockTimes := sorted;
      }
    }

    /** The segments to paint, for an arc whose smallest drawable part is `least`. */
    method Segments(least: real) returns (segments: seq<Segment>)
      requires Valid() && least > 0.0
      ensures Bound(currentTime) == 0.0 <==> segments == []
      ensures segments != [] ==>
                Tiles(segments, Bound(currentTime)) && DepthsCount(segments, blockTimes, Bound(currentTime))
                && WideEnough(segments, least)
    {
      segments := CoalescedSegments(blockTimes, currentTime, least);
    }
  }
}
