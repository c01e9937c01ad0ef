/** Widths of the ribbons of a transaction flow diagram, over exact reals. */
module Ribbon {
  import opened Sorting

  datatype Kind = DataKind | FeeKind | OtherKind

  /** `reported` is false for a missing or non-finite amount. */
  datatype Entry = Entry(kind: Kind, reported: bool, amount: real)

  datatype Item = Item(index: nat, amount: real)

  predicate Known(e: Entry) {
    e.reported && e.amount >= 0.0
  }

  predicate Positive(e: Entry) {
    Known(e) && e.amount > 0.0
  }

  function Max(a: real, b: real): real {
    if a < b then b else a
  }

  // ---- Sums ----

  function Sum(items: seq<Item>): real {
    if items == [] then 0.0 else items[0].amount + Sum(items[1..])
  }

  function Times(level: real, amount: real): real {
    level * amount
  }

  /** The part of the width that goes to one amount out of a total. */
  function Share(amount: real, total: real, width: real): real
    requires total > 0.0
  {
    amount / total * width
  }

  /** A ribbon of the water-filling allocation with the given level. */
  function Fill(level: real, amount: real): real {
    Max(1.0, Times(level, amount))
  }

  function FillSum(level: real, items: seq<Item>): real {
    if items == [] then 0.0 else Fill(level, items[0].amount) + FillSum(level, items[1..])
  }

  predicate Ascending(items: seq<Item>) {
    forall i, j :: 0 <= i < j < |items| ==> items[i].amount <= items[j].amount
  }

  predicate AllPositive(items: seq<Item>) {
    forall i :: 0 <= i < |items| ==> items[i].amount > 0.0
  }

  lemma {:induction false} SumPositive(items: seq<Item>)
    requires AllPositive(items)
    ensures Sum(items) >= 0.0 && (items != [] ==> Sum(items) >= items[0].amount > 0.0)
  {
    if items != [] {
      SumPositive(items[1..]);
    }
  }

  // ---- Arithmetic ----

  lemma Monotone(level: real, a: real, b: real)
    requires level >= 0.0 && a <= b
    ensures Times(level, a) <= Times(level, b)
  {
  }

  lemma Distribute(level: real, a: real, b: real)
    ensures Times(level, a + b) == Times(level, a) + Times(level, b)
  {
  }

  lemma FillOne(level: real, amount: real, c: real)
    requires level >= 0.0 && 0.0 < c <= amount && Times(level, c) <= 1.0
    ensures Times(c, Fill(level, amount)) <= amount
  {
    var x := level * c;
    assert c * (level * amount) == x * amount;
    Monotone(amount, x, 1.0);
  }

  lemma ShareOfProportional(a: real, total: real, level: real)
    requires total > 0.0
    ensures Share(a, total, Times(level, total)) == Times(level, a)
  {
    var q := a / total;
    assert q * total == a;
    assert q * (level * total) == level * (q * total);
  }

  lemma ShareBelowFloor(a: real, total: real, width: real)
    requires total > 0.0
    ensures Times(a, width) <= total <==> Share(a, total, width) <= 1.0
    ensures Times(a, width) >= total <==> Share(a, total, width) >= 1.0
  {
    var q := a / total;
    var w := q * width;
    assert q * total == a;
    assert a * width == w * total;
    Strict(total, w);
  }

  lemma Strict(total: real, w: real)
    requires total > 0.0
    ensures w > 1.0 ==> w * total > total
    ensures w < 1.0 ==> w * total < total
    ensures w == 1.0 ==> w * total == total
  {
  }

  lemma Rate(width: real, total: real)
    requires total > 0.0 && width >= 0.0
    ensures width / total >= 0.0 && Times(width / total, total) == width
  {
  }

  // ---- The water level ----

  /** Above the floor every ribbon is proportional. */
  lemma {:induction false} FillProportional(level: real, items: seq<Item>)
    requires Ascending(items) && level >= 0.0 && (items != [] ==> Times(level, items[0].amount) >= 1.0)
    ensures FillSum(level, items) == Times(level, Sum(items))
    ensures FillSum(level, items) >= |items| as real
  {
    if items == [] {
      Distribute(level, 0.0, 0.0);
    } else {
      hide Times;
      if |items| > 1 {
        Monotone(level, items[0].amount, items[1].amount);
      }
      FillProportional(level, items[1..]);
      Distribute(level, items[0].amount, Sum(items[1..]));
    }
  }

  /** When the smallest amount stays at the floor, its share of the whole is at most the floor. */
  lemma {:induction false} FillAtMost(level: real, items: seq<Item>, c: real)
    requires level >= 0.0 && c > 0.0 && Times(level, c) <= 1.0
    requires forall i :: 0 <= i < |items| ==> c <= items[i].amount
    ensures Times(c, FillSum(level, items)) <= Sum(items)
  {
    if items != [] {
      hide Times, Fill;
      FillAtMost(level, items[1..], c);
      FillOne(level, items[0].amount, c);
      Distribute(c, Fill(level, items[0].amount), FillSum(level, items[1..]));
    }
  }

  /** The level at which the ribbons fill the reserved width. */
  function Level(items: seq<Item>, width: real): real
    requires AllPositive(items)
  {
    if items == [] then 0.0
    else
      SumPositive(items);
      if Share(items[0].amount, Sum(items), width) >= 1.0 then width / Sum(items) else Level(items[1..], width - 1.0)
  }

  /** Filling to the level uses up the width exactly. */
  lemma {:induction false} LevelFills(items: seq<Item>, width: real)
    requires AllPositive(items) && Ascending(items) && items != [] && width >= |items| as real
    ensures Level(items, width) >= 0.0 && FillSum(Level(items, width), items) == width
  {
    SumPositive(items);
    var total := Sum(items);
    var a := items[0].amount;
    Rate(width, total);
    ShareOfProportional(a, total, width / total);
    if Share(a, total, width) >= 1.0 {
      FillProportional(width / total, items);
    } else {
      if |items| == 1 {
        SingleShare(a, width);
      }
      assert |items| > 1;
      hide Sum, Fill, Times, Share;
      LevelFills(items[1..], width - 1.0);
      HeadOnFloor(items, width, Level(items[1..], width - 1.0));
    }
  }

  lemma SingleShare(a: real, width: real)
    requires a > 0.0 && width >= 1.0
    ensures Share(a, a, width) >= 1.0
  {
    ShareBelowFloor(a, a, width);
    Monotone(a, 1.0, width);
  }

  /** A tail filled to its level leaves the head at the floor, unless the whole is proportional. */
  lemma HeadOnFloor(items: seq<Item>, width: real, level: real)
    requires AllPositive(items) && Ascending(items) && |items| > 1 && level >= 0.0 && Sum(items) > 0.0
    requires FillSum(level, items[1..]) == width - 1.0 && Share(items[0].amount, Sum(items), width) < 1.0
    ensures Fill(level, items[0].amount) == 1.0
  {
    hide Times, Share;
    var a := items[0].amount;
    var rest := items[1..];
    if Times(level, a) > 1.0 {
      Monotone(level, a, rest[0].amount);
      FillProportional(level, rest);
      SumPositive(rest);
      TooHigh(level, a, Sum(rest), width);
    }
  }

  /** If the tail's level lifted the head above the floor, the whole would have been proportional. */
  lemma TooHigh(level: real, a: real, rest: real, width: real)
    requires a > 0.0 && rest >= 0.0 && Times(level, rest) == width - 1.0 && Times(level, a) > 1.0
    ensures Share(a, a + rest, width) >= 1.0
  {
    var lift := level * a;
    assert a * (width - 1.0) == lift * rest;
    Monotone(rest, 1.0, lift);
    ShareBelowFloor(a, a + rest, width);
  }

  /** One greedy step takes exactly the ribbon of the water level. */
  lemma GreedyStep(level: real, items: seq<Item>)
    requires AllPositive(items) && Ascending(items) && items != [] && level >= 0.0 && Sum(items) > 0.0
    ensures Max(1.0, Share(items[0].amount, Sum(items), FillSum(level, items))) == Fill(level, items[0].amount)
  {
    hide Times, Share;
    var a := items[0].amount;
    if Times(level, a) >= 1.0 {
      FillProportional(level, items);
      ShareOfProportional(a, Sum(items), level);
    } else {
      FillAtMost(level, items, a);
      ShareBelowFloor(a, Sum(items), FillSum(level, items));
    }
  }

  // ---- Sorting by amount ----

  function AmountOf(x: Item): real {
    x.amount
  }

  function SortByAmount(items: seq<Item>): seq<Item> {
    SortBy(items, AmountOf)
  }

  lemma SortSorts(items: seq<Item>)
    ensures Ascending(SortByAmount(items)) && multiset(SortByAmount(items)) == multiset(items)
  {
    SortBySorts(items, AmountOf);
    hide SortBy;
    var r := SortByAmount(items);
    assert forall i, j :: 0 <= i < j < |r| ==> AmountOf(r[i]) <= AmountOf(r[j]);
  }

  lemma {:induction false} InsertSums(x: Item, items: seq<Item>, level: real)
    ensures Sum(Insert(x, items, AmountOf)) == x.amount + Sum(items)
    ensures FillSum(level, Insert(x, items, AmountOf)) == Fill(level, x.amount) + FillSum(level, items)
  {
    hide Fill;
    if items == [] || x.amount < items[0].amount {
      assert ([x] + items)[1..] == items;
    } else {
      InsertSums(x, items[1..], level);
      assert ([items[0]] + Insert(x, items[1..], AmountOf))[1..] == Insert(x, items[1..], AmountOf);
    }
  }

  lemma {:induction false} SumsSnoc(items: seq<Item>, x: Item, level: real)
    ensures Sum(items + [x]) == Sum(items) + x.amount
    ensures FillSum(level, items + [x]) == FillSum(level, items) + Fill(level, x.amount)
  {
    hide Fill;
    if items == [] {
      assert items + [x] == [x] && [x][1..] == [];
    } else {
      SumsSnoc(items[1..], x, level);
      assert (items + [x])[1..] == items[1..] + [x];
    }
  }

  lemma {:induction false} SortSums(items: seq<Item>, level: real)
    ensures Sum(SortByAmount(items)) == Sum(items)
    ensures FillSum(level, SortByAmount(items)) == FillSum(level, items)
  {
    if items != [] {
      var n := |items| - 1;
      var front := SortByAmount(items[..n]);
      assert SortByAmount(items) == Insert(items[n], front, AmountOf);
      hide *;
      SortSums(items[..n], level);
      InsertSums(items[n], front, level);
      SumsSnoc(items[..n], items[n], level);
      assert items == items[..n] + [items[n]];
    }
  }

  // ---- Entries ----

  /** The positive amounts among the first `n` entries. */
  function KnownItems(entries: seq<Entry>, n: nat): (r: seq<Item>)
    requires n <= |entries|
  {
    if n == 0 then []
    else KnownItems(entries, n - 1) + if Positive(entries[n - 1]) then [Item(n - 1, entries[n - 1].amount)] else []
  }

  lemma {:induction false} KnownItemsExact(entries: seq<Entry>, n: nat)
    requires n <= |entries|
    ensures forall k :: 0 <= k < |KnownItems(entries, n)| ==> ItemOf(entries, KnownItems(entries, n)[k])
    ensures forall i :: 0 <= i < n && Positive(entries[i]) ==> Item(i, entries[i].amount) in KnownItems(entries, n)
  {
    if n > 0 {
      KnownItemsExact(entries, n - 1);
    }
  }

  function KnownTotal(entries: seq<Entry>, n: nat): real
    requires n <= |entries|
  {
    if n == 0 then 0.0 else KnownTotal(entries, n - 1) + if Known(entries[n - 1]) then entries[n - 1].amount else 0.0
  }

  lemma {:induction false} KnownTotalIsSum(entries: seq<Entry>, n: nat)
    requires n <= |entries|
    ensures Sum(KnownItems(entries, n)) == KnownTotal(entries, n)
  {
    if n > 0 {
      hide Sum, FillSum;
      KnownTotalIsSum(entries, n - 1);
      SumsSnoc(KnownItems(entries, n - 1), Item(n - 1, entries[n - 1].amount), 0.0);
      assert KnownItems(entries, n - 1) + [] == KnownItems(entries, n - 1);
    }
  }

  /** Zero-valued data outputs, drawn as one-pixel lines. */
  function DataLines(entries: seq<Entry>, n: nat): nat
    requires n <= |entries|
  {
    if n == 0 then 0
    else DataLines(entries, n - 1)
         + if Known(entries[n - 1]) && entries[n - 1].kind.DataKind? && entries[n - 1].amount == 0.0 then 1 else 0
  }

  function PositiveCount(entries: seq<Entry>): nat {
    |KnownItems(entries, |entries|)|
  }

  /** The fixed width of everything that is not a positive amount. */
  function BaseWidth(e: Entry): real {
    if Known(e) then if e.kind.DataKind? && e.amount == 0.0 then 1.0 else 0.0
    else if e.kind.FeeKind? then 2.0 else 4.0
  }

  /** The width reserved for the positive amounts of one side. */
  function Reserved(entries: seq<Entry>, scale: real, band: real): real {
    Max(PositiveCount(entries) as real,
        if scale > 0.0 then KnownTotal(entries, |entries|) / scale * band - DataLines(entries,
            |entries|) as real else 0.0)
  }

  /** The widths of positive amounts, added up. */
  function PositiveExtent(entries: seq<Entry>, widths: seq<real>, n: nat): real
    requires n <= |entries| == |widths|
  {
    if n == 0 then 0.0
    else PositiveExtent(entries, widths, n - 1) + if Positive(entries[n - 1]) then widths[n - 1] else 0.0
  }

  /** The specification: fixed widths, and water filling of the reserved width. */
  ghost predicate Allocated(entries: seq<Entry>, widths: seq<real>, level: real) {
    && |widths| == |entries| && level >= 0.0
    && forall i :: 0 <= i < |entries| ==>
         widths[i] == if Positive(entries[i]) then Fill(level, entries[i].amount) else BaseWidth(entries[i])
  }

  lemma {:induction false} PositiveExtentIsFill(entries: seq<Entry>, widths: seq<real>, level: real, n: nat)
    requires Allocated(entries, widths, level) && n <= |entries|
    ensures PositiveExtent(entries, widths, n) == FillSum(level, KnownItems(entries, n))
  {
    if n > 0 {
      hide Fill;
      PositiveExtentIsFill(entries, widths, level, n - 1);
      SumsSnoc(KnownItems(entries, n - 1), Item(n - 1, entries[n - 1].amount), level);
      assert KnownItems(entries, n - 1) + [] == KnownItems(entries, n - 1);
    }
  }

  function SortedItems(entries: seq<Entry>): (r: seq<Item>)
    ensures AllPositive(r) && |r| == PositiveCount(entries)
  {
    var items := KnownItems(entries, |entries|);
    KnownItemsExact(entries, |entries|);
    SortSorts(items);
    SamePositive(items, SortByAmount(items));
    SortByAmount(items)
  }

  lemma SamePositive(items: seq<Item>, r: seq<Item>)
    requires multiset(r) == multiset(items) && AllPositive(items)
    ensures AllPositive(r) && |r| == |items|
  {
    assert |multiset(r)| == |r| && |multiset(items)| == |items|;
    assert forall k :: 0 <= k < |r| ==> r[k] in multiset(items);
  }

  /** An item of the entries from which it was collected. */
  predicate ItemOf(entries: seq<Entry>, x: Item) {
    x.index < |entries| && Positive(entries[x.index]) && x.amount == entries[x.index].amount
  }

  lemma SortedItemsExact(entries: seq<Entry>)
    ensures var r := SortedItems(entries);
      && Ascending(r) && Sum(r) == KnownTotal(entries, |entries|)
      && (forall k :: 0 <= k < |r| ==> ItemOf(entries, r[k]))
      && (forall i :: 0 <= i < |entries| && Positive(entries[i]) ==> Item(i, entries[i].amount) in r)
  {
    var items := KnownItems(entries, |entries|);
    SortSorts(items);
    SortSums(items, 0.0);
    KnownTotalIsSum(entries, |entries|);
    KnownItemsExact(entries, |entries|);
    var r := SortedItems(entries);
    assert r == SortByAmount(items);
    SortSorts(items);
    hide *;
    forall k | 0 <= k < |r| ensures ItemOf(entries, r[k]) {
      assert r[k] in multiset(items);
      var m :| 0 <= m < |items| && items[m] == r[k];
    }
    forall i | 0 <= i < |entries| && Positive(entries[i]) ensures Item(i, entries[i].amount) in r {
      assert Item(i, entries[i].amount) in multiset(items);
    }
  }

  /** The level of one side of the diagram. */
  function WaterLevel(entries: seq<Entry>, scale: real, band: real): real {
    Level(SortedItems(entries), Reserved(entries, scale, band))
  }

  lemma WaterLevelFills(entries: seq<Entry>, scale: real, band: real)
    requires PositiveCount(entries) > 0
    ensures WaterLevel(entries, scale, band) >= 0.0
    ensures FillSum(WaterLevel(entries, scale, band), SortedItems(entries)) == Reserved(entries, scale, band)
  {
    SortedItemsExact(entries);
    LevelFills(SortedItems(entries), Reserved(entries, scale, band));
  }

  /** Known amounts, added up; with `knownOnly` unset a missing amount makes the sum unknown. */
  method AddUp(entries: seq<Entry>, knownOnly: bool) returns (known: bool, total: real)
    ensures known <==> knownOnly || forall i :: 0 <= i < |entries| ==> Known(entries[i])
    ensures known ==> total == KnownTotal(entries, |entries|)
  {
    total := 0.0;
    for i := 0 to |entries|
      invariant total == KnownTotal(entries, i)
      invariant knownOnly || forall j :: 0 <= j < i ==> Known(entries[j])
    {
      if !Known(entries[i]) {
        if knownOnly {
          continue;
        }
        return false, 0.0;
      }
      total := total + entries[i].amount;
    }
    known := true;
  }

  method BaseWidths(entries: seq<Entry>) returns (widths: seq<real>, dataWidth: real, known: seq<Item>)
    ensures |widths| == |entries| && forall i :: 0 <= i < |entries| ==> widths[i] == BaseWidth(entries[i])
    ensures dataWidth == DataLines(entries, |entries|) as real
    ensures known == KnownItems(entries, |entries|)
  {
    widths, dataWidth, known := [], 0.0, [];
    for i := 0 to |entries|
      invariant |widths| == i && forall j :: 0 <= j < i ==> widths[j] == BaseWidth(entries[j])
    {
      widths := widths + [BaseWidth(entries[i])];
    }
    for i := 0 to |entries|
      invariant dataWidth == DataLines(entries, i) as real && known == KnownItems(entries, i)
    {
      if Known(entries[i]) && entries[i].kind.DataKind? {
        dataWidth := dataWidth + widths[i];
      }
      if Positive(entries[i]) {
        known := known + [Item(i, entries[i].amount)];
      }
    }
  }

  /** The greedy pass over the amounts in ascending order. */
  method Allot(entries: seq<Entry>, base: seq<real>, items: seq<Item>, total: real, width: real, ghost level: real)
    returns (widths: seq<real>)
    requires |base| == |entries| && AllPositive(items) && Ascending(items) && level >= 0.0
    requires forall k :: 0 <= k < |items| ==> ItemOf(entries, items[k])
    requires total == Sum(items) && width == FillSum(level, items)
    ensures |widths| == |entries|
    ensures forall k :: 0 <= k < |items| ==>
              ItemOf(entries, items[k]) && widths[items[k].index] == Fill(level, items[k].amount)
    ensures forall i :: 0 <= i < |entries| && !Positive(entries[i]) ==> widths[i] == base[i]
  {
    hide Sum, FillSum, Fill, Share;
    widths := base;
    var remainingAmount, remainingWidth := total, width;
    for k := 0 to |items|
      invariant |widths| == |entries|
      invariant remainingAmount == Sum(items[k..]) && remainingWidth == FillSum(level, items[k..])
      invariant forall j :: 0 <= j < k ==> widths[items[j].index] == Fill(level, items[j].amount)
      invariant forall i :: 0 <= i < |entries| && !Positive(entries[i]) ==> widths[i] == base[i]
    {
      var rest := items[k..];
      SumPositive(rest);
      GreedyStep(level, rest);
      SumsHead(level, rest);
      var w := Max(1.0, Share(items[k].amount, remainingAmount, remainingWidth));
      widths := widths[items[k].index := w];
      remainingAmount := remainingAmount - items[k].amount;
      remainingWidth := remainingWidth - w;
      assert items[k..][1..] == items[k + 1..];
    }
  }

  lemma SumsHead(level: real, items: seq<Item>)
    requires items != []
    ensures Sum(items) == items[0].amount + Sum(items[1..])
    ensures FillSum(level, items) == Fill(level, items[0].amount) + FillSum(level, items[1..])
  {
  }

  function LevelOf(entries: seq<Entry>, scale: real, band: real): real {
    if PositiveCount(entries) == 0 then 0.0 else WaterLevel(entries, scale, band)
  }

  /** What the greedy pass starts from. */
  lemma Prepared(entries: seq<Entry>, scale: real, band: real)
    ensures var level := LevelOf(entries, scale, band);
      level >= 0.0 && FillSum(level, SortedItems(entries)) == Reserved(entries, scale, band)
  {
    if PositiveCount(entries) == 0 {
      NothingReserved(entries, scale, band);
    } else {
      WaterLevelFills(entries, scale, band);
    }
  }

  /** What the greedy pass ends with. */
  lemma Allotted(entries: seq<Entry>, base: seq<real>, widths: seq<real>, level: real)
    requires |base| == |widths| == |entries| && level >= 0.0
    requires forall i :: 0 <= i < |entries| ==> base[i] == BaseWidth(entries[i])
    requires forall k :: 0 <= k < |SortedItems(entries)| ==>
               var x := SortedItems(entries)[k]; ItemOf(entries, x) && widths[x.index] == Fill(level, x.amount)
    requires forall i :: 0 <= i < |entries| && !Positive(entries[i]) ==> widths[i] == base[i]
    ensures Allocated(entries, widths, level)
    ensures PositiveExtent(entries, widths, |entries|) == FillSum(level, SortedItems(entries))
  {
    SortedItemsExact(entries);
    SortSums(KnownItems(entries, |entries|), level);
    hide Sum, FillSum, Fill, SortByAmount, KnownItems, KnownTotal, BaseWidth, PositiveExtent;
    var items := SortedItems(entries);
    forall i | 0 <= i < |entries| && Positive(entries[i]) ensures widths[i] == Fill(level, entries[i].amount) {
      var k :| 0 <= k < |items| && items[k] == Item(i, entries[i].amount);
    }
    PositiveExtentIsFill(entries, widths, level, |entries|);
  }

  /** Water filling: the positive ribbons share the reserved width exactly. */
  method RibbonWidths(entries: seq<Entry>, scale: real, band: real) returns (widths: seq<real>)
    ensures Allocated(entries, widths, LevelOf(entries, scale, band))
    ensures PositiveExtent(entries, widths, |entries|) == Reserved(entries, scale, band)
  {
    hide LevelOf, Sum, FillSum, Fill, SortByAmount, KnownItems, KnownTotal, PositiveExtent, Allocated, BaseWidth,
        DataLines;
    var base, dataWidth, known := BaseWidths(entries);
    var items := SortByAmount(known);
    var _, total := AddUp(entries, true);
    var width := Max(|known| as real, if scale > 0.0 then total / scale * band - dataWidth else 0.0);
    SortedItemsExact(entries);
    Prepared(entries, scale, band);
    ghost var level := LevelOf(entries, scale, band);
    widths := Allot(entries, base, items, total, width, level);
    Allotted(entries, base, widths, level);
  }

  lemma NothingReserved(entries: seq<Entry>, scale: real, band: real)
    ensures PositiveCount(entries) == 0 ==> Reserved(entries, scale, band) == 0.0
    ensures FillSum(0.0, []) == 0.0 && Sum([]) == 0.0
  {
    if PositiveCount(entries) == 0 {
      KnownTotalIsSum(entries, |entries|);
      assert KnownTotal(entries, |entries|) == 0.0;
      if scale > 0.0 {
        assert 0.0 / scale == 0.0;
      }
    }
  }

  /** Every positive amount is visible, and a larger amount is never thinner. */
  lemma VisibleAndMonotone(entries: seq<Entry>, widths: seq<real>, level: real, i: nat, j: nat)
    requires Allocated(entries, widths, level) && i < |entries| && j < |entries|
    requires Positive(entries[i]) && Positive(entries[j]) && entries[i].amount <= entries[j].amount
    ensures 1.0 <= widths[i] <= widths[j]
    ensures widths[i] > 1.0 ==> Times(widths[i], entries[j].amount) == Times(widths[j], entries[i].amount)
  {
    Monotone(level, entries[i].amount, entries[j].amount);
    if widths[i] > 1.0 {
      Crossed(level, entries[i].amount, entries[j].amount);
    }
  }

  lemma Crossed(level: real, a: real, b: real)
    ensures Times(Times(level, a), b) == Times(Times(level, b), a)
  {
  }

  /**
   * What is not a positive amount has a fixed width: a data output of zero one pixel, another reported zero none, and a
   * missing, infinite or negative amount two pixels for the fee and four elsewhere.
   */
  lemma FixedWidths(entries: seq<Entry>, widths: seq<real>, level: real, i: nat)
    requires Allocated(entries, widths, level) && i < |entries|
    ensures var e, w := entries[i], widths[i];
      && (e.reported && e.amount == 0.0 ==> w == if e.kind.DataKind? then 1.0 else 0.0)
      && (!e.reported || e.amount < 0.0 ==> w == if e.kind.FeeKind? then 2.0 else 4.0)
      && (e.reported && e.amount > 0.0 ==> w >= 1.0)
  {
    assert widths[i] == if Positive(entries[i]) then Fill(level, entries[i].amount) else BaseWidth(entries[i]);
    if Positive(entries[i]) {
      VisibleAndMonotone(entries, widths, level, i, i);
    }
  }

  // ---- The two sides of the diagram ----

  predicate AllKnown(entries: seq<Entry>) {
    forall i :: 0 <= i < |entries| ==> Known(entries[i])
  }

  function ExtentUpTo(widths: seq<real>, n: nat): real
    requires n <= |widths|
  {
    if n == 0 then 0.0 else ExtentUpTo(widths, n - 1) + widths[n - 1]
  }

  function Extent(widths: seq<real>): real {
    ExtentUpTo(widths, |widths|)
  }

  lemma {:induction false} ExtentSplits(entries: seq<Entry>, widths: seq<real>, level: real, n: nat)
    requires Allocated(entries, widths, level) && AllKnown(entries) && n <= |entries|
    ensures ExtentUpTo(widths, n) == PositiveExtent(entries, widths, n) + DataLines(entries, n) as real
  {
    if n > 0 {
      ExtentSplits(entries, widths, level, n - 1);
    }
  }

  function Band(inputs: seq<Entry>, outputs: seq<Entry>): real {
    Max(Max(64.0, PositiveCount(inputs) as real), PositiveCount(outputs) as real)
  }

  function Scale(inputs: seq<Entry>, outputs: seq<Entry>): real {
    Max(KnownTotal(inputs, |inputs|), KnownTotal(outputs, |outputs|))
  }

  /** The whole extent of a balanced side. */
  lemma BalancedExtent(entries: seq<Entry>, widths: seq<real>, level: real, scale: real, band: real)
    requires Allocated(entries, widths, level) && AllKnown(entries)
    requires PositiveExtent(entries, widths, |entries|) == Reserved(entries, scale, band)
    requires scale == KnownTotal(entries, |entries|) > 0.0
    ensures Extent(widths) == Max(PositiveCount(entries) as real + DataLines(entries, |entries|) as real, band)
  {
    ExtentSplits(entries, widths, level, |entries|);
    assert scale / scale * band == band;
  }

  /** Ribbons that need at least one pixel each: positive amounts and data lines. */
  function Lines(entries: seq<Entry>): nat {
    PositiveCount(entries) + DataLines(entries, |entries|)
  }

  predicate FitsBand(inputs: seq<Entry>, outputs: seq<Entry>, entries: seq<Entry>) {
    Lines(entries) as real <= Band(inputs, outputs)
  }

  predicate BothFit(inputs: seq<Entry>, outputs: seq<Entry>) {
    FitsBand(inputs, outputs, inputs) && FitsBand(inputs, outputs, outputs)
  }

  /** When totals balance, the sides meet exactly when both fit the band or need equally many lines. */
  lemma SidesMeet(inputs: seq<Entry>, outputs: seq<Entry>, left: seq<real>, right: seq<real>, a: real, b: real)
    requires AllKnown(inputs) && AllKnown(outputs)
    requires KnownTotal(inputs, |inputs|) == KnownTotal(outputs, |outputs|) > 0.0
    requires Allocated(inputs, left, a) && Allocated(outputs, right, b)
    requires PositiveExtent(inputs, left, |inputs|) == Reserved(inputs, Scale(inputs, outputs), Band(inputs, outputs))
    requires PositiveExtent(outputs, right, |outputs|) == Reserved(outputs, Scale(inputs, outputs), Band(inputs,
        outputs))
    ensures Extent(left) == Max(Lines(inputs) as real, Band(inputs, outputs))
    ensures Extent(left) == Extent(right)
            <==> BothFit(inputs, outputs) || Lines(inputs) == Lines(outputs)
    ensures DataLines(inputs, |inputs|) == 0 ==> (Extent(left) == Extent(right) <==> FitsBand(inputs, outputs, outputs))
  {
    hide Reserved, Allocated, Extent, PositiveExtent, KnownTotal, PositiveCount, DataLines, AllKnown;
    var scale, band := Scale(inputs, outputs), Band(inputs, outputs);
    BalancedExtent(inputs, left, a, scale, band);
    BalancedExtent(outputs, right, b, scale, band);
    MeetWhenFitting(Lines(inputs), Lines(outputs), band);
    LinesOfInputs(inputs, outputs);
  }

  lemma MeetWhenFitting(x: nat, y: nat, band: real)
    ensures Max(x as real, band) == Max(y as real, band) <==> (x as real <= band && y as real <= band) || x == y
  {
  }

  /** Without data lines the inputs fit, the band being at least as wide as there are positive inputs. */
  lemma LinesOfInputs(inputs: seq<Entry>, outputs: seq<Entry>)
    ensures DataLines(inputs, |inputs|) == 0 ==> FitsBand(inputs, outputs, inputs)
  {
    hide PositiveCount, DataLines;
  }

  // ---- Inputs of unknown amount ----

  function UnknownCount(entries: seq<Entry>, n: nat): nat
    requires n <= |entries|
  {
    if n == 0 then 0 else UnknownCount(entries, n - 1) + if Known(entries[n - 1]) then 0 else 1
  }

  function KnownExtent(entries: seq<Entry>, widths: seq<real>, n: nat): real
    requires n <= |entries| == |widths|
  {
    if n == 0 then 0.0 else KnownExtent(entries, widths, n - 1) + if Known(entries[n - 1]) then widths[n - 1] else 0.0
  }

  lemma {:induction false} SharedExtent(entries: seq<Entry>, before: seq<real>, widths: seq<real>, share: real, n: nat)
    requires n <= |entries| == |before| == |widths|
    requires forall i :: 0 <= i < |entries| ==> widths[i] == if Known(entries[i]) then before[i] else share
    ensures ExtentUpTo(widths, n) == KnownExtent(entries, before, n) + Times(share, UnknownCount(entries, n) as real)
  {
    if n > 0 {
      hide Times;
      SharedExtent(entries, before, widths, share, n - 1);
      Distribute(share, UnknownCount(entries, n - 1) as real, 1.0);
      Unit(share);
    } else {
      Distribute(share, 0.0, 0.0);
    }
  }

  lemma Unit(x: real)
    ensures Times(x, 1.0) == x
  {
  }

  lemma {:induction false} NoUnknown(entries: seq<Entry>, n: nat)
    requires n <= |entries|
    ensures UnknownCount(entries, n) == 0 <==> forall i :: 0 <= i < n ==> Known(entries[i])
  {
    if n > 0 {
      NoUnknown(entries, n - 1);
    }
  }

  /** Missing inputs share what the outputs leave, so that both sides have one extent. */
  method InferInputs(inputs: seq<Entry>, left: seq<real>, right: seq<real>) returns (widths: seq<real>, inferred: bool)
    requires |left| == |inputs|
    ensures |widths| == |inputs|
    ensures forall i :: 0 <= i < |inputs| && Known(inputs[i]) ==> widths[i] == left[i]
    ensures inferred <==> !AllKnown(inputs) && Extent(right) > KnownExtent(inputs, left, |inputs|)
    ensures !inferred ==> widths == left
    ensures inferred ==> Extent(widths) == Extent(right)
    ensures inferred ==> forall i, j :: 0 <= i < |inputs| && 0 <= j < |inputs| && !Known(inputs[i]) && !Known(inputs[j])
                           ==> widths[i] == widths[j] > 0.0
  {
    var unknown, known := 0, 0.0;
    for i := 0 to |inputs|
      invariant unknown == UnknownCount(inputs, i) && known == KnownExtent(inputs, left, i)
    {
      if Known(inputs[i]) {
        known := known + left[i];
      } else {
        unknown := unknown + 1;
      }
    }
    var extent := 0.0;
    for i := 0 to |right|
      invariant extent == ExtentUpTo(right, i)
    {
      extent := extent + right[i];
    }
    NoUnknown(inputs, |inputs|);
    widths, inferred := left, false;
    if unknown > 0 && extent - known > 0.0 {
      var share := (extent - known) / unknown as real;
      Rate(extent - known, unknown as real);
      for i := 0 to |inputs|
        invariant |widths| == |inputs|
        invariant forall j :: 0 <= j < |inputs| ==> widths[j] == if j < i && !Known(inputs[j]) then share else left[j]
      {
        if !Known(inputs[i]) {
          widths := widths[i := share];
        }
      }
      inferred := true;
      SharedExtent(inputs, left, widths, share, |inputs|);
      PositiveRate(extent - known, unknown as real);
    }
  }

  lemma PositiveRate(width: real, total: real)
    requires width > 0.0 && total > 0.0
    ensures width / total > 0.0
  {
  }

  /** Known inputs take the reserved width and their data lines. */
  lemma {:induction false} KnownExtentSplits(entries: seq<Entry>, widths: seq<real>, level: real, n: nat)
    requires Allocated(entries, widths, level) && n <= |entries|
    ensures KnownExtent(entries, widths, n) == PositiveExtent(entries, widths, n) + DataLines(entries, n) as real
  {
    if n > 0 {
      hide Fill;
      KnownExtentSplits(entries, widths, level, n - 1);
    }
  }

  // ---- Ports ----

  /** Where the ribbons of one side meet the junction: centred, in order, without gap or overlap. */
  method Ports(widths: seq<real>, height: real) returns (ports: seq<real>)
    ensures |ports| == |widths|
    ensures forall i :: 0 <= i < |widths| ==>
              ports[i] - widths[i] / 2.0 == (height - Extent(widths)) / 2.0 + ExtentUpTo(widths, i)
    ensures forall i :: 0 <= i < |widths| - 1 ==>
              ports[i] + widths[i] / 2.0 == ports[i + 1] - widths[i + 1] / 2.0
    ensures widths != [] ==>
              ports[0] - widths[0] / 2.0 == (height - Extent(widths)) / 2.0
              && ports[|widths| - 1] + widths[|widths| - 1] / 2.0 == (height + Extent(widths)) / 2.0
  {
    hide ExtentUpTo;
    var extent := SumWidths(widths);
    var top := (height - extent) / 2.0;
    ports := LayOut(widths, top);
    forall i | 0 <= i < |widths| ensures ports[i] + widths[i] / 2.0 == top + ExtentUpTo(widths, i + 1) {
      LowerEdge(widths, i, top, ports[i]);
    }
    NoExtent(widths);
  }

  method SumWidths(widths: seq<real>) returns (extent: real)
    ensures extent == Extent(widths)
  {
    extent := 0.0;
    for i := 0 to |widths|
      invariant extent == ExtentUpTo(widths, i)
    {
      extent := extent + widths[i];
    }
  }

  method LayOut(widths: seq<real>, top: real) returns (ports: seq<real>)
    ensures |ports| == |widths|
    ensures forall i :: 0 <= i < |widths| ==> ports[i] - widths[i] / 2.0 == top + ExtentUpTo(widths, i)
  {
    hide ExtentUpTo;
    NoExtent(widths);
    var offset := 0.0;
    ports := [];
    for i := 0 to |widths|
      invariant |ports| == i && offset == ExtentUpTo(widths, i)
      invariant forall j :: 0 <= j < i ==> ports[j] == top + ExtentUpTo(widths, j) + widths[j] / 2.0
    {
      LowerEdge(widths, i, top, top + offset + widths[i] / 2.0);
      ports := ports + [top + offset + widths[i] / 2.0];
      offset := offset + widths[i];
    }
  }

  lemma NoExtent(widths: seq<real>)
    ensures ExtentUpTo(widths, 0) == 0.0
  {
  }

  /** A ribbon ends where the extent up to and including it ends. */
  lemma LowerEdge(widths: seq<real>, i: nat, top: real, port: real)
    requires i < |widths| && port - widths[i] / 2.0 == top + ExtentUpTo(widths, i)
    ensures port + widths[i] / 2.0 == top + ExtentUpTo(widths, i + 1)
  {
  }

  /** The whole diagram: both sides allocated, missing inputs inferred, ports laid out. */
  method Calculate(inputs: seq<Entry>, outputs: seq<Entry>, height: real)
    returns (left: seq<real>, right: seq<real>, inferred: bool, leftPorts: seq<real>, rightPorts: seq<real>)
    ensures |left| == |inputs| == |leftPorts| && |right| == |outputs| == |rightPorts|
    ensures Allocated(outputs, right, LevelOf(outputs, Scale(inputs, outputs), Band(inputs, outputs)))
    ensures !inferred ==> Allocated(inputs, left, LevelOf(inputs, Scale(inputs, outputs), Band(inputs, outputs)))
    ensures inferred ==> Extent(left) == Extent(right)
    ensures inferred
            <==> !AllKnown(inputs)
                 && Extent(right) > Reserved(inputs, Scale(inputs, outputs), Band(inputs, outputs))
                                    + DataLines(inputs, |inputs|) as real
    ensures inferred ==> forall i, j ::
              0 <= i < |inputs| && 0 <= j < |inputs| && !Known(inputs[i]) && !Known(inputs[j]) ==>
                left[i] == left[j] > 0.0
    ensures AllKnown(inputs) && AllKnown(outputs) && KnownTotal(inputs, |inputs|) == KnownTotal(outputs,
        |outputs|) > 0.0 ==>
              (Extent(left) == Extent(right)
               <==> BothFit(inputs, outputs) || Lines(inputs) == Lines(outputs))
    ensures Extent(left) == Extent(right) && inputs != [] && outputs != [] ==>
              leftPorts[0] - left[0] / 2.0 == rightPorts[0] - right[0] / 2.0
  {
    hide Allocated, KnownTotal, KnownItems, LevelOf, PositiveExtent, ExtentUpTo, Reserved, KnownExtent, DataLines;
    var _, inTotal := AddUp(inputs, true);
    var _, outTotal := AddUp(outputs, true);
    var _, _, inKnown := BaseWidths(inputs);
    var _, _, outKnown := BaseWidths(outputs);
    var scale := Max(inTotal, outTotal);
    var band := Max(Max(64.0, |inKnown| as real), |outKnown| as real);
    var first := RibbonWidths(inputs, scale, band);
    right := RibbonWidths(outputs, scale, band);
    assert |first| == |inputs| && |right| == |outputs| by { AllocatedSize(inputs, first, LevelOf(inputs, scale, band));
      AllocatedSize(outputs, right, LevelOf(outputs, scale, band)); }
    left, inferred := InferInputs(inputs, first, right);
    KnownExtentSplits(inputs, first, LevelOf(inputs, scale, band), |inputs|);
    if AllKnown(inputs) && AllKnown(outputs) && inTotal == outTotal && inTotal > 0.0 {
      SidesMeet(inputs, outputs, left, right, LevelOf(inputs, scale, band), LevelOf(outputs, scale, band));
    }
    leftPorts := Ports(left, height);
    rightPorts := Ports(right, height);
  }

  lemma AllocatedSize(entries: seq<Entry>, widths: seq<real>, level: real)
    requires Allocated(entries, widths, level)
    ensures |widths| == |entries|
  {
  }
}
