/** Saving settings as a transaction: a failed save is undone key by key, beside other writers. */
module PersistSettings {
  import opened Options
  import opened CoreSettings

  type Store = map<Key, Value>

  /** What each named key held, or that it was absent. */
  type Saved = map<Key, Option<Value>>

  function At(rw: Store, k: Key): Option<Value> {
    if k in rw then Some(rw[k]) else None
  }

  function Put(rw: Store, k: Key, v: Option<Value>): Store {
    if v.Some? then rw[k := v.value] else rw - {k}
  }

  function SavedOf(rw: Store, keys: set<Key>): Saved {
    map k | k in keys :: At(rw, k)
  }

  /** What a key holds after the rollback. */
  function Undone(rw: Store, before: Saved, attempted: Saved, k: Key): Option<Value> {
    if k in before && k in attempted && At(rw, k) == attempted[k] then before[k] else At(rw, k)
  }

  function Restored(rw: Store, before: Saved, attempted: Saved): Store {
    map k | k in rw.Keys + before.Keys && Undone(rw, before, attempted, k).Some? ::
      Undone(rw, before, attempted, k).value
  }

  lemma RestoredAt(rw: Store, before: Saved, attempted: Saved, k: Key)
    ensures At(Restored(rw, before, attempted), k) == Undone(rw, before, attempted, k)
  {
  }

  lemma PutAt(rw: Store, k: Key, v: Option<Value>, j: Key)
    ensures At(Put(rw, k, v), j) == if j == k then v else At(rw, j)
  {
  }

  // ---- The store ----

  class SettingsStore {
    var rw: Store

    constructor (initial: Store)
      ensures rw == initial
    {
      rw := initial;
    }

    method Read(keys: set<Key>) returns (saved: Saved)
      ensures saved == SavedOf(rw, keys)
    {
      saved := map[];
      var todo := keys;
      while todo != {}
        invariant todo <= keys && saved.Keys == keys - todo
        invariant forall k :: k in saved ==> saved[k] == At(rw, k)
      {
        var k :| k in todo;
        saved := saved[k := At(rw, k)];
        todo := todo - {k};
      }
    }

    /** Restores every key that still holds what this save wrote. */
    method RollBack(before: Saved, attempted: Saved)
      requires before.Keys == attempted.Keys
      modifies this
      ensures rw == Restored(old(rw), before, attempted)
    {
      hide Restored, Put;
      var todo := before.Keys;
      while todo != {}
        invariant todo <= before.Keys
        invariant forall k :: At(rw, k) == if k in todo then At(old(rw), k) else Undone(old(rw), before, attempted, k)
      {
        var k :| k in todo;
        if At(rw, k) == attempted[k] {
          ghost var was := rw;
          rw := Put(rw, k, before[k]);
          forall j ensures At(rw, j) == if j == k then before[k] else At(was, j) {
            PutAt(was, k, before[k], j);
          }
        }
        todo := todo - {k};
      }
      forall k ensures At(rw, k) == At(Restored(old(rw), before, attempted), k) {
        RestoredAt(old(rw), before, attempted, k);
      }
      SameStore(rw, Restored(old(rw), before, attempted));
    }
  }

  lemma SameStore(a: Store, b: Store)
    requires forall k :: At(a, k) == At(b, k)
    ensures a == b
  {
    forall k ensures (k in a <==> k in b) && (k in a ==> a[k] == b[k]) {
      assert At(a, k) == At(b, k);
    }
  }

  // ---- A save beside other writers ----

  datatype Outcome = Accepted | Refused | Threw

  datatype Phase = Ready | Mutating | Ended(outcome: Outcome) | Checked(outcome: Outcome) | WriteFailed | Failed | Done

  datatype State = State(rw: Store, phase: Phase, before: Saved, attempted: Saved)

  datatype Event =
    | Other(key: Key, value: Option<Value>)    // a backend writer
    | Begin
    | Mutate(write: Store -> Store)            // one locked section of the save's own callback, which may be anything
    | EndMutation(outcome: Outcome)
    | ReadAttempted
    | WriteFile(ok: bool)
    | RollBack

  predicate MustUndo(p: Phase) {
    p == WriteFailed || p == Checked(Refused) || p == Checked(Threw)
  }

  ghost function Step(keys: set<Key>, s: State, e: Event): State {
    match e
    case Other(k, v) => s.(rw := Put(s.rw, k, v))
    case Begin => if s.phase == Ready then s.(phase := Mutating, before := SavedOf(s.rw, keys)) else s
    case Mutate(write) => if s.phase == Mutating then s.(rw := write(s.rw)) else s
    case EndMutation(outcome) => if s.phase == Mutating then s.(phase := Ended(outcome)) else s
    case ReadAttempted =>
      if s.phase.Ended? then s.(phase := Checked(s.phase.outcome), attempted := SavedOf(s.rw, keys)) else s
    case WriteFile(ok) =>
      if s.phase == Checked(Accepted) then s.(phase := if ok then Done else WriteFailed) else s
    case RollBack =>
      if MustUndo(s.phase) then s.(phase := Failed, rw := Restored(s.rw, s.before, s.attempted)) else s
  }

  ghost function Run(keys: set<Key>, s: State, events: seq<Event>): State
    decreases |events|
  {
    if |events| == 0 then s else Step(keys, Run(keys, s, events[..|events| - 1]), events[|events| - 1])
  }

  function Start(rw: Store): State {
    State(rw, Ready, map[], map[])
  }

  /** The store as the other writers alone would have left it. */
  ghost function OthersOnly(rw: Store, events: seq<Event>): Store
    decreases |events|
  {
    if |events| == 0 then rw
    else
      var n := |events| - 1;
      var front := OthersOnly(rw, events[..n]);
      if events[n].Other? then Put(front, events[n].key, events[n].value) else front
  }

  predicate SavedFor(keys: set<Key>, s: State) {
    && (s.phase.Ready? || s.before.Keys == keys)
    && (s.phase.Ready? || s.phase.Mutating? || s.phase.Ended? || s.attempted.Keys == keys)
    && (s.phase.Ready? ==> s.before == map[]) && s.before.Keys <= keys && s.attempted.Keys <= keys
  }

  lemma {:induction false} SavedKeys(keys: set<Key>, rw: Store, events: seq<Event>)
    ensures SavedFor(keys, Run(keys, Start(rw), events))
    decreases |events|
  {
    hide Restored, Put;
    if |events| > 0 {
      SavedKeys(keys, rw, events[..|events| - 1]);
    }
  }

  /** A change of the store that leaves all other keys alone: what a callback owes its caller. */
  ghost predicate Framed(write: Store -> Store, keys: set<Key>) {
    forall rw: Store, j: Key :: j !in keys ==> At(write(rw), j) == At(rw, j)
  }

  /** A save never alters a key it does not name, in any run and at any moment, if its callback does not. */
  lemma {:induction false} OtherKeysUntouched(keys: set<Key>, rw: Store, events: seq<Event>, k: Key)
    requires k !in keys && forall i :: 0 <= i < |events| && events[i].Mutate? ==> Framed(events[i].write, keys)
    ensures At(Run(keys, Start(rw), events).rw, k) == At(OthersOnly(rw, events), k)
    decreases |events|
  {
    if |events| > 0 {
      hide Restored, Put, SavedOf;
      var n := |events| - 1;
      var s := Run(keys, Start(rw), events[..n]);
      var e := events[n];
      OtherKeysUntouched(keys, rw, events[..n], k);
      SavedKeys(keys, rw, events[..n]);
      RestoredAt(s.rw, s.before, s.attempted, k);
      if e.Other? {
        PutAt(s.rw, e.key, e.value, k);
        PutAt(OthersOnly(rw, events[..n]), e.key, e.value, k);
      }
    }
  }

  predicate NoOther(events: seq<Event>, k: Key) {
    forall i :: 0 <= i < |events| ==> !(events[i].Other? && events[i].key == k)
  }

  /** Whether a key has its old value back, or is in the hands of the save. */
  ghost predicate Undoable(s: State, prior: Option<Value>, k: Key) {
    && ((s.phase.Ready? || s.phase.Failed?) ==> At(s.rw, k) == prior)
    && (!s.phase.Ready? ==> k in s.before && s.before[k] == prior)
    && ((s.phase.Checked? || s.phase.WriteFailed?) ==> k in s.attempted && s.attempted[k] == At(s.rw, k))
  }

  lemma StepUndoable(keys: set<Key>, s: State, e: Event, prior: Option<Value>, k: Key)
    requires k in keys && Undoable(s, prior, k) && !(e.Other? && e.key == k)
    ensures Undoable(Step(keys, s, e), prior, k)
  {
    hide Restored, Put;
    if e.RollBack? {
      RestoredAt(s.rw, s.before, s.attempted, k);
    } else if e.Other? {
      PutAt(s.rw, e.key, e.value, k);
    }
  }

  /** In every run without another writer of the key, a named key has its old value or is in the hands of the save. */
  lemma {:induction false} UndoableThroughout(keys: set<Key>, rw: Store, events: seq<Event>, k: Key)
    requires k in keys && NoOther(events, k)
    ensures Undoable(Run(keys, Start(rw), events), At(rw, k), k)
    decreases |events|
  {
    if |events| > 0 {
      hide Step, Undoable;
      var n := |events| - 1;
      UndoableThroughout(keys, rw, events[..n], k);
      StepUndoable(keys, Run(keys, Start(rw), events[..n]), events[n], At(rw, k), k);
    }
  }

  lemma {:induction false} RunConcat(keys: set<Key>, s: State, a: seq<Event>, b: seq<Event>)
    ensures Run(keys, s, a + b) == Run(keys, Run(keys, s, a), b)
    decreases |b|
  {
    if |b| == 0 {
      assert a + b == a;
    } else {
      var n := |b| - 1;
      assert (a + b)[..|a + b| - 1] == a + b[..n];
      RunConcat(keys, s, a, b[..n]);
    }
  }

  lemma RunOne(keys: set<Key>, s: State, e: Event)
    ensures Run(keys, s, [e]) == Step(keys, s, e)
  {
    assert [e][..0] == [];
  }

  // ---- The outcome, from the events alone ----

  /** The store after the callback's writes and those of the others. */
  ghost function AllWrites(rw: Store, events: seq<Event>): Store
    decreases |events|
  {
    if |events| == 0 then rw
    else
      var n := |events| - 1;
      var front := AllWrites(rw, events[..n]);
      match events[n]
      case Other(k, v) => Put(front, k, v)
      case Mutate(write) => write(front)
      case _ => front
  }

  /** The result of the first attempt to write the file. */
  ghost function FirstWrite(events: seq<Event>): Option<bool>
    decreases |events|
  {
    if |events| == 0 then None
    else
      var n := |events| - 1;
      var front := FirstWrite(events[..n]);
      if front.None? && events[n].WriteFile? then Some(events[n].ok) else front
  }

  /** The events of one save beside other writers, in order. */
  datatype Trace = Trace(
    pre: seq<Event>,       // before the save
    muts: seq<Event>,      // while the callback runs
    outcome: Outcome,      // how it ends
    rest: seq<Event>,      // until the post-mutation snapshot
    between: seq<Event>)   // after the snapshot

  ghost predicate Orderly(t: Trace) {
    && (forall i :: 0 <= i < |t.pre| ==> !t.pre[i].Begin?)
    && (forall i :: 0 <= i < |t.muts| ==> !t.muts[i].EndMutation?)
    && (forall i :: 0 <= i < |t.rest| ==> !t.rest[i].ReadAttempted?)
  }

  ghost function Events(t: Trace): seq<Event> {
    t.pre + [Begin] + t.muts + [EndMutation(t.outcome)] + t.rest + [ReadAttempted] + t.between
  }

  /** What the store held when the save began, and at the snapshot. */
  ghost function PriorStore(rw: Store, t: Trace): Store {
    OthersOnly(rw, t.pre)
  }

  ghost function SnapshotStore(rw: Store, t: Trace): Store {
    OthersOnly(AllWrites(PriorStore(rw, t), t.muts), t.rest)
  }

  /** Until the save begins, only the others have written. */
  lemma {:induction false} BeforeBegin(keys: set<Key>, rw: Store, events: seq<Event>)
    requires forall i :: 0 <= i < |events| ==> !events[i].Begin?
    ensures var t := Run(keys, Start(rw), events); t.phase.Ready? && t.rw == OthersOnly(rw, events)
    decreases |events|
  {
    hide Put, Restored, SavedOf;
    if |events| > 0 {
      BeforeBegin(keys, rw, events[..|events| - 1]);
    }
  }

  /** While the callback runs, it and the others write. */
  lemma {:induction false} DuringCallback(keys: set<Key>, s: State, events: seq<Event>)
    requires s.phase.Mutating? && forall i :: 0 <= i < |events| ==> !events[i].EndMutation?
    ensures Run(keys, s, events) == s.(rw := AllWrites(s.rw, events))
    decreases |events|
  {
    hide Put, Restored, SavedOf;
    if |events| > 0 {
      DuringCallback(keys, s, events[..|events| - 1]);
    }
  }

  /** Between the callback and the snapshot only the others write. */
  lemma {:induction false} BeforeSnapshot(keys: set<Key>, s: State, events: seq<Event>)
    requires s.phase.Ended? && forall i :: 0 <= i < |events| ==> !events[i].ReadAttempted?
    ensures Run(keys, s, events) == s.(rw := OthersOnly(s.rw, events))
    decreases |events|
  {
    hide Put, Restored, SavedOf;
    if |events| > 0 {
      BeforeSnapshot(keys, s, events[..|events| - 1]);
    }
  }

  /** The phase that the outcome and the first file write lead to. */
  ghost function Decision(outcome: Outcome, write: Option<bool>): Phase {
    if outcome != Accepted || write.None? then Checked(outcome)
    else if write.value then Done else WriteFailed
  }

  /** After the snapshot only the others write, until a rollback; an accepted and written save is never rolled back. */
  lemma {:induction false} AfterSnapshot(keys: set<Key>, s: State, events: seq<Event>)
    requires s.phase.Checked?
    requires (forall i :: 0 <= i < |events| ==> !events[i].RollBack?) || KeptSave(s.phase.outcome, events)
    ensures var d := Decision(s.phase.outcome, FirstWrite(events));
      Run(keys, s, events) == s.(phase := d, rw := OthersOnly(s.rw, events))
    decreases |events|
  {
    hide Put, Restored, SavedOf;
    if |events| > 0 {
      var front := events[..|events| - 1];
      if KeptSave(s.phase.outcome, events) && !KeptSave(s.phase.outcome, front) {
        assert FirstWrite(front).None?;
        Undecided(keys, s, front);
      } else {
        AfterSnapshot(keys, s, front);
      }
    }
  }

  ghost predicate KeptSave(outcome: Outcome, events: seq<Event>) {
    outcome == Accepted && FirstWrite(events) == Some(true)
  }

  /** An accepted save before its file write cannot be rolled back. */
  lemma {:induction false} Undecided(keys: set<Key>, s: State, events: seq<Event>)
    requires s.phase == Checked(Accepted) && FirstWrite(events).None?
    ensures Run(keys, s, events) == s.(rw := OthersOnly(s.rw, events))
    decreases |events|
  {
    hide Put, Restored, SavedOf;
    if |events| > 0 {
      Undecided(keys, s, events[..|events| - 1]);
    }
  }

  /** Where a save stands at its snapshot. */
  lemma AtSnapshot(keys: set<Key>, rw: Store, t: Trace)
    requires Orderly(t)
    ensures Run(keys, Start(rw), t.pre + [Begin] + t.muts + [EndMutation(t.outcome)] + t.rest + [ReadAttempted])
         == State(SnapshotStore(rw, t), Checked(t.outcome), SavedOf(PriorStore(rw, t), keys),
                  SavedOf(SnapshotStore(rw, t), keys))
  {
    hide Put, Restored, SavedOf, Run, OthersOnly, AllWrites;
    var s0 := Run(keys, Start(rw), t.pre);
    BeforeBegin(keys, rw, t.pre);
    RunConcat(keys, Start(rw), t.pre, [Begin]);
    RunOne(keys, s0, Begin);
    var s1 := Run(keys, Start(rw), t.pre + [Begin]);
    RunConcat(keys, Start(rw), t.pre + [Begin], t.muts);
    DuringCallback(keys, s1, t.muts);
    var s2 := Run(keys, s1, t.muts);
    RunConcat(keys, Start(rw), t.pre + [Begin] + t.muts, [EndMutation(t.outcome)]);
    RunOne(keys, s2, EndMutation(t.outcome));
    var s3 := Step(keys, s2, EndMutation(t.outcome));
    RunConcat(keys, Start(rw), t.pre + [Begin] + t.muts + [EndMutation(t.outcome)], t.rest);
    BeforeSnapshot(keys, s3, t.rest);
    var s4 := Run(keys, s3, t.rest);
    RunConcat(keys, Start(rw), t.pre + [Begin] + t.muts + [EndMutation(t.outcome)] + t.rest, [ReadAttempted]);
    RunOne(keys, s4, ReadAttempted);
  }

  /** The save has to be undone: its callback refused or threw, or the file could not be written. */
  ghost predicate HasFailed(t: Trace) {
    t.outcome == Refused || t.outcome == Threw || FirstWrite(t.between) == Some(false)
  }

  /**
   * The outcome of every failed save, over whole runs, whatever the callback does and the others write before, during
   * and after it: a named key whose value is still that of the post-mutation snapshot gets back what it held when the
   * save began, value or absence; a key that was changed since the snapshot keeps the newest value.
   */
  lemma FailureOutcome(keys: set<Key>, rw: Store, t: Trace, k: Key)
    requires Orderly(t) && HasFailed(t) && k in keys
    requires forall i :: 0 <= i < |t.between| ==> !t.between[i].RollBack?
    ensures var prior := At(PriorStore(rw, t), k);
      var snapshot := At(SnapshotStore(rw, t), k);
      var newest := At(OthersOnly(SnapshotStore(rw, t), t.between), k);
      At(Run(keys, Start(rw), Events(t) + [RollBack]).rw, k) == if newest == snapshot then prior else newest
  {
    hide Put, Restored, Run, OthersOnly, AllWrites, FirstWrite, Orderly;
    AtSnapshot(keys, rw, t);
    var upTo := t.pre + [Begin] + t.muts + [EndMutation(t.outcome)] + t.rest + [ReadAttempted];
    var s := Run(keys, Start(rw), upTo);
    RunConcat(keys, Start(rw), upTo, t.between);
    AfterSnapshot(keys, s, t.between);
    var u := Run(keys, s, t.between);
    RunConcat(keys, Start(rw), Events(t), [RollBack]);
    RunOne(keys, u, RollBack);
    RestoredAt(u.rw, u.before, u.attempted, k);
  }

  lemma {:induction false} OthersLeave(rw: Store, events: seq<Event>, k: Key)
    requires NoOther(events, k)
    ensures At(OthersOnly(rw, events), k) == At(rw, k)
    decreases |events|
  {
    if |events| > 0 {
      hide Put;
      var n := |events| - 1;
      OthersLeave(rw, events[..n], k);
      if events[n].Other? {
        PutAt(OthersOnly(rw, events[..n]), events[n].key, events[n].value, k);
      }
    }
  }

  /** A failed save gives a named key back its old value, or its absence, if no other writer set that key. */
  lemma FailureRestores(keys: set<Key>, rw: Store, t: Trace, k: Key)
    requires Orderly(t) && HasFailed(t) && k in keys && NoOther(t.pre, k) && NoOther(t.between, k)
    requires forall i :: 0 <= i < |t.between| ==> !t.between[i].RollBack?
    ensures At(Run(keys, Start(rw), Events(t) + [RollBack]).rw, k) == At(rw, k)
  {
    hide Run, OthersOnly, AllWrites, FirstWrite, At;
    FailureOutcome(keys, rw, t, k);
    OthersLeave(rw, t.pre, k);
    OthersLeave(SnapshotStore(rw, t), t.between, k);
  }

  /** The outcome of every successful save: the callback's writes stay, whatever follows the file write. */
  lemma SuccessOutcome(keys: set<Key>, rw: Store, t: Trace)
    requires Orderly(t) && t.outcome == Accepted && FirstWrite(t.between) == Some(true)
    ensures Run(keys, Start(rw), Events(t)).rw == OthersOnly(SnapshotStore(rw, t), t.between)
  {
    hide Put, Restored, Run, OthersOnly, AllWrites, FirstWrite, Orderly;
    AtSnapshot(keys, rw, t);
    var upTo := t.pre + [Begin] + t.muts + [EndMutation(t.outcome)] + t.rest + [ReadAttempted];
    RunConcat(keys, Start(rw), upTo, t.between);
    AfterSnapshot(keys, Run(keys, Start(rw), upTo), t.between);
  }

  // ---- The callbacks of the session ----

  lemma LookupIsAt(a: Store, b: Store, j: Key)
    requires (j in a <==> j in b) && Lookup(a, j) == Lookup(b, j)
    ensures At(a, j) == At(b, j)
  {
  }

  /** Writing one setting of a session, as a callback of a save. */
  function SessionWrite(core: Core, s: Settings, values: Values, k: Key): Store -> Store {
    (rw: Store) => WriteOne(core, s.(rw := rw), values, k).0.rw
  }

  /** One locked write in it. */
  function KeyWrite(s: Settings, k: Key, v: Value): Store -> Store {
    (rw: Store) => SetRw(s.(rw := rw), k, v).rw
  }

  lemma SessionWriteAt(core: Core, s: Settings, values: Values, k: Key, rw: Store, j: Key)
    requires j != k && j != Prev(k)
    ensures At(SessionWrite(core, s, values, k)(rw), j) == At(rw, j)
  {
    hide WriteOne, Effective, Persistent;
    WriteOneFrame(core, s.(rw := rw), values, k, j);
    LookupIsAt(WriteOne(core, s.(rw := rw), values, k).0.rw, rw, j);
  }

  lemma KeyWriteAt(s: Settings, k: Key, v: Value, rw: Store, j: Key)
    requires j != k
    ensures At(KeyWrite(s, k, v)(rw), j) == At(rw, j)
  {
    hide SetRw, Effective, Persistent;
    SetRwEffect(s.(rw := rw), k, v, j);
    LookupIsAt(SetRw(s.(rw := rw), k, v).rw, rw, j);
  }

  /** A save that names a setting's key and its previous-value key may use it: the callback keeps to these keys, as a
      whole and in each locked write. */
  lemma SessionWriteFramed(core: Core, s: Settings, values: Values, k: Key, v: Value)
    ensures Framed(SessionWrite(core, s, values, k), {k, Prev(k)})
    ensures Framed(KeyWrite(s, k, v), {k, Prev(k)}) && Framed(KeyWrite(s, Prev(k), v), {k, Prev(k)})
  {
    hide SessionWrite, KeyWrite, At;
    forall rw: Store, j: Key | j !in {k, Prev(k)}
      ensures At(SessionWrite(core, s, values, k)(rw), j) == At(rw, j)
      ensures At(KeyWrite(s, k, v)(rw), j) == At(rw, j) && At(KeyWrite(s, Prev(k), v)(rw), j) == At(rw, j)
    {
      SessionWriteAt(core, s, values, k, rw, j);
      KeyWriteAt(s, k, v, rw, j);
      KeyWriteAt(s, Prev(k), v, rw, j);
    }
  }
}
