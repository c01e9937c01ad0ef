/** The block clock's cache of recent active-chain blocks: snapshot, buffered events, live events. */
module BlockClockHistory {
  import opened Options

  type Hash = nat

  /** A block on the path from genesis to the anchor; the index in the path is its height. */
  datatype Block = Block(hash: Hash, time: int)

  ghost predicate DistinctHashes(path: seq<Block>) {
    forall i, j :: 0 <= i < j < |path| ==> path[i].hash != path[j].hash
  }

  /** The largest time among the blocks up to this height, as the block index records it. */
  function MaxTime(path: seq<Block>, height: nat): (t: int)
    requires height < |path|
    ensures forall i :: 0 <= i <= height ==> path[i].time <= t
  {
    if height == 0 then path[0].time
    else
      var below := MaxTime(path, height - 1);
      if path[height].time > below then path[height].time else below
  }

  /** `blocks` holds exactly the blocks of `path` from height `from` on that are stamped `start` or later. */
  ghost predicate RecentFrom(path: seq<Block>, from: int, start: int, blocks: map<Hash, int>) {
    && (forall i :: 0 <= i < |path| && from <= i && path[i].time >= start ==>
          path[i].hash in blocks && blocks[path[i].hash] == path[i].time)
    && (forall h :: h in blocks ==>
          exists i :: 0 <= i < |path| && from <= i && path[i] == Block(h, blocks[h]) && blocks[h] >= start)
  }

  /** Walks from the anchor towards genesis and stops at the first block whose running maximum time is before `start`.
      Block times are not monotone, yet nothing older can qualify. An unknown anchor has an empty path. */
  method CollectAncestors(path: seq<Block>, start: int) returns (blocks: map<Hash, int>)
    requires DistinctHashes(path)
    ensures RecentFrom(path, 0, start, blocks)
  {
    blocks := map[];
    if path == [] {
      return;
    }
    var height := |path| - 1;
    while MaxTime(path, height) >= start
      invariant 0 <= height < |path|
      invariant RecentFrom(path, height + 1, start, blocks)
      decreases height
    {
      if path[height].time >= start {
        blocks := blocks[path[height].hash := path[height].time];
      }
      assert RecentFrom(path, height, start, blocks) by {
        forall h | h in blocks
          ensures exists i :: 0 <= i < |path| && height <= i && path[i] == Block(h, blocks[h]) && blocks[h] >= start
        {
          if h == path[height].hash && path[height].time >= start {
            assert path[height] == Block(h, blocks[h]);
          }
        }
      }
      if height == 0 {
        return;
      }
      height := height - 1;
    }
  }

  /** The cache proper. Before the snapshot is installed, only the last event per hash is kept. */
  datatype Cache = Cache(
    blocks: map<Hash, int>,
    pending: map<Hash, Option<int>>,
    retention: int,
    initialized: bool,
    dirty: bool,
    stopped: bool)

  const EMPTY := Cache(map[], map[], 0, false, false, false)

  function Recorded(c: Cache, h: Hash, time: int, connected: bool): Cache {
    if c.stopped || time < c.retention then c
    else if !c.initialized then c.(pending := c.pending[h := if connected then Some(time) else None])
    else if connected then (if h in c.blocks then c else c.(blocks := c.blocks[h := time], dirty := true))
    else (if h in c.blocks then c.(blocks := c.blocks - {h}, dirty := true) else c)
  }

  function Initialized(c: Cache, snapshot: map<Hash, int>): Cache {
    if c.stopped || c.initialized then c
    else c.(blocks := Reconciled(snapshot, c.pending, c.retention), pending := map[], initialized := true,
        dirty := true)
  }

  /** The snapshot overridden by the last buffered event per hash, without expired blocks. */
  function Reconciled(snapshot: map<Hash, int>, pending: map<Hash, Option<int>>, retention: int): map<Hash, int> {
    map h | h in snapshot.Keys + pending.Keys
         && (if h in pending then pending[h].Some? && pending[h].value >= retention else snapshot[h] >= retention)
      :: if h in pending then pending[h].value else snapshot[h]
  }

  function WithRetention(c: Cache, retention: int): Cache {
    if c.stopped || c.retention == retention then c
    else c.(
      retention := retention,
      blocks := map h | h in c.blocks && c.blocks[h] >= retention :: c.blocks[h],
      pending := map h | h in c.pending && (c.pending[h].Some? ==> c.pending[h].value >= retention) :: c.pending[h],
      dirty := true)
  }

  function Stopped(c: Cache): Cache {
    c.(stopped := true, pending := map[])
  }

  /** Replays the buffered events onto the snapshot, in any order. */
  method Merge(snapshot: map<Hash, int>, pending: map<Hash, Option<int>>) returns (merged: map<Hash, int>)
    ensures forall h :: h in merged <==> if h in pending then pending[h].Some? else h in snapshot
    ensures forall h :: h in merged ==> merged[h] == if h in pending then pending[h].value else snapshot[h]
  {
    merged := snapshot;
    var todo := pending.Keys;
    while todo != {}
      invariant todo <= pending.Keys
      invariant forall h :: h in merged <==> if h in pending && h !in todo then pending[h].Some? else h in snapshot
      invariant forall h :: h in merged ==> merged[h] == if h in pending && h !in todo then pending[h].value
          else snapshot[h]
      decreases todo
    {
      var h :| h in todo;
      match pending[h] {
        case Some(time) => merged := merged[h := time];
        case None => merged := merged - {h};
      }
      todo := todo - {h};
    }
  }

  /** How many cached blocks carry a timestamp. */
  ghost function CountAt(blocks: map<Hash, int>, t: int): nat {
    |StampedAt(blocks, t)|
  }

  ghost function StampedAt(blocks: map<Hash, int>, t: int): set<Hash> {
    set h | h in blocks && blocks[h] == t
  }

  /** `times` lists the cached timestamps, once per block. */
  ghost predicate Lists(times: seq<int>, blocks: map<Hash, int>) {
    forall t :: multiset(times)[t] == CountAt(blocks, t)
  }

  lemma CountAtAdd(blocks: map<Hash, int>, h: Hash, time: int, t: int)
    requires h !in blocks
    ensures CountAt(blocks[h := time], t) == CountAt(blocks, t) + if time == t then 1 else 0
  {
    var more := blocks[h := time];
    var was, now := StampedAt(blocks, t), StampedAt(more, t);
    if time == t {
      assert h !in was && now == was + {h};
    } else {
      assert now == was;
    }
  }

  lemma CountAtZero(blocks: map<Hash, int>, t: int)
    requires forall h :: h in blocks ==> blocks[h] != t
    ensures CountAt(blocks, t) == 0
  {
    assert StampedAt(blocks, t) == {};
  }

  lemma ListsNone()
    ensures Lists([], map[])
  {
    forall t ensures CountAt(map[], t) == 0 {
      CountAtZero(map[], t);
    }
  }

  /** Every map has a listing. */
  lemma ListingExists(blocks: map<Hash, int>) returns (times: seq<int>)
    ensures Lists(times, blocks)
    decreases |blocks|
  {
    if blocks == map[] {
      ListsNone();
      times := [];
    } else {
      var h :| h in blocks;
      var fewer := blocks - {h};
      times := ListingExists(fewer);
      assert blocks == fewer[h := blocks[h]];
      forall t ensures multiset(times + [blocks[h]])[t] == CountAt(blocks, t) {
        CountAtAdd(fewer, h, blocks[h], t);
      }
      times := times + [blocks[h]];
    }
  }

  /** Lists the timestamps of a map by walking over its entries. */
  method ListTimes(blocks: map<Hash, int>) returns (times: seq<int>)
    ensures Lists(times, blocks)
  {
    times := [];
    var todo := blocks.Keys;
    ghost var done: map<Hash, int> := map[];
    ListsNone();
    while todo != {}
      invariant todo <= blocks.Keys && done == map h | h in blocks && h !in todo :: blocks[h]
      invariant Lists(times, done)
      decreases todo
    {
      var h :| h in todo;
      forall t ensures multiset(times + [blocks[h]])[t] == CountAt(done[h := blocks[h]], t) {
        CountAtAdd(done, h, blocks[h], t);
      }
      times := times + [blocks[h]];
      done := done[h := blocks[h]];
      todo := todo - {h};
    }
    assert done == blocks;
  }

  /** The object of the source: fields updated under a mutex, the wake-up reported as `notify`. */
  class HistoryCache {
    var blocks: map<Hash, int>
    var pending: map<Hash, Option<int>>
    var retention: int
    var initialized: bool
    var dirty: bool
    var stopped: bool
    var attached: bool

    ghost function View(): Cache
      reads this
    {
      Cache(blocks, pending, retention, initialized, dirty, stopped)
    }

    constructor ()
      ensures View() == EMPTY && !attached
    {
      blocks, pending, retention := map[], map[], 0;
      initialized, dirty, stopped, attached := false, false, false, false;
    }

    method Record(h: Hash, time: int, connected: bool) returns (notify: bool)
      modifies this
      ensures View() == Recorded(old(View()), h, time, connected) && attached == old(attached)
      ensures notify <==> attached && View().blocks != old(View()).blocks
    {
      notify := false;
      if stopped || time < retention {
        return;
      }
      if !initialized {
        pending := pending[h := if connected then Some(time) else None];
        return;
      }
      var changed := if connected then h !in blocks else h in blocks;
      if !changed {
        return;
      }
      blocks := if connected then blocks[h := time] else blocks - {h};
      assert connected ==> h in blocks;
      dirty := true;
      notify := attached;
    }

    /** Installs the snapshot after replaying the buffered events onto it, in any order. */
    method Initialize(snapshot: map<Hash, int>) returns (notify: bool)
      modifies this
      ensures View() == Initialized(old(View()), snapshot) && attached == old(attached)
      ensures notify <==> attached && View().initialized && !old(View()).initialized
    {
      if stopped || initialized {
        return false;
      }
      var merged := Merge(snapshot, pending);
      blocks := map h | h in merged && merged[h] >= retention :: merged[h];
      assert blocks == Reconciled(snapshot, pending, retention);
      pending := map[];
      initialized, dirty := true, true;
      notify := attached;
    }

    method SetRetentionStart(start: int)
      modifies this
      ensures View() == WithRetention(old(View()), start) && attached == old(attached)
    {
      if stopped || retention == start {
        return;
      }
      retention := start;
      blocks := map h | h in blocks && blocks[h] >= start :: blocks[h];
      pending := map h | h in pending && (pending[h].Some? ==> pending[h].value >= start) :: pending[h];
      dirty := true;
    }

    /** The changed timestamps, or nothing if nothing changed. */
    method TakeSnapshot() returns (times: Option<seq<int>>)
      modifies `dirty
      ensures times.Some? <==> old(!stopped && initialized && dirty)
      ensures times.Some? ==> Lists(times.value, blocks) && View() == old(View()).(dirty := false)
      ensures times.None? ==> View() == old(View())
    {
      if stopped || !initialized || !dirty {
        return None;
      }
      var list := ListTimes(blocks);
      dirty := false;
      return Some(list);
    }

    method Stop()
      modifies this
      ensures View() == Stopped(old(View())) && !attached
    {
      stopped, pending, attached := true, map[], false;
    }

    method SetChangedCallback(present: bool) returns (notify: bool)
      modifies `attached
      ensures View() == old(View())
      ensures attached == if stopped then old(attached) else present
      ensures notify <==> !stopped && present && initialized && dirty
    {
      if stopped {
        return false;
      }
      attached := present;
      notify := attached && initialized && dirty;
    }
  }
}
