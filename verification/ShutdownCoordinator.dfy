/** The two-phase participant countdown of the shutdown coordinator. */
module ShutdownCoordinator {
  /** What the coordinator asks of the initialization executor. */
  datatype Call = NoCall | Interrupt | AppShutdown

  /** `before[i]` and `after[i]` are the once-only flags of the participants of each phase. */
  datatype Coordinator = Coordinator(
    requested: bool, drainingBefore: bool, drainingAfter: bool, pending: int, before: seq<bool>, after: seq<bool>)

  /** Participants that have not finished. */
  function Left(done: seq<bool>): nat
    decreases |done|
  {
    if done == [] then 0 else Left(done[..|done| - 1]) + if done[|done| - 1] then 0 else 1
  }

  predicate NoneDone(done: seq<bool>) {
    forall i :: 0 <= i < |done| ==> !done[i]
  }

  predicate AllDone(done: seq<bool>) {
    forall i :: 0 <= i < |done| ==> done[i]
  }

  lemma {:induction false} LeftBounds(done: seq<bool>)
    ensures Left(done) <= |done|
    ensures Left(done) == 0 <==> AllDone(done)
    ensures Left(done) == |done| <==> NoneDone(done)
    decreases |done|
  {
    if done != [] {
      LeftBounds(done[..|done| - 1]);
    }
  }

  lemma {:induction false} LeftFinish(done: seq<bool>, i: nat)
    requires i < |done| && !done[i]
    ensures Left(done[i := true]) == Left(done) - 1
    decreases |done|
  {
    var n := |done| - 1;
    if i < n {
      LeftFinish(done[..n], i);
      assert done[i := true][..n] == done[..n][i := true];
    } else {
      assert done[i := true][..n] == done[..n];
    }
  }

  function Begin(c: Coordinator): (Coordinator, Call) {
    if c.requested then (c, NoCall)
    else if |c.before| == 0 then (c.(requested := true, pending := 0), Interrupt)
    else (c.(requested := true, pending := |c.before|, drainingBefore := true), NoCall)
  }

  function BeginAfter(c: Coordinator): (Coordinator, Call) {
    if c.drainingAfter then (c, NoCall)
    else (c.(drainingAfter := true, pending := |c.after|), if |c.after| == 0 then AppShutdown else NoCall)
  }

  function CountDown(c: Coordinator, early: bool): (Coordinator, Call) {
    var d := c.(pending := c.pending - 1);
    if d.pending != 0 then (d, NoCall)
    else if early then (d.(drainingBefore := false), Interrupt)
    else (d, AppShutdown)
  }

  /** The closure connected to a participant's finished signal. */
  function Signal(c: Coordinator, early: bool, i: nat): (Coordinator, Call) {
    if early then
      if !c.drainingBefore || i >= |c.before| || c.before[i] then (c, NoCall)
      else CountDown(c.(before := c.before[i := true]), true)
    else
      if !c.drainingAfter || i >= |c.after| || c.after[i] then (c, NoCall)
      else CountDown(c.(after := c.after[i := true]), false)
  }

  ghost predicate CoordinatorInv(c: Coordinator) {
    && (c.drainingBefore ==> c.requested && !c.drainingAfter && c.pending == Left(c.before) && c.pending > 0)
    && (c.drainingAfter ==> c.requested && c.pending == Left(c.after))
    && (!c.requested ==> NoneDone(c.before))
    && (!c.drainingAfter ==> NoneDone(c.after))
    && (c.requested && !c.drainingBefore ==> AllDone(c.before))
  }

  lemma RequestKeeps(c: Coordinator)
    requires CoordinatorInv(c)
    ensures var r := Begin(c);
      CoordinatorInv(r.0) && (r.1 == Interrupt <==> !c.requested && c.before == [])
  {
    LeftBounds(c.before);
  }

  lemma DrainKeeps(c: Coordinator)
    requires CoordinatorInv(c) && c.requested && !c.drainingBefore
    ensures CoordinatorInv(BeginAfter(c).0)
  {
    LeftBounds(c.after);
  }

  /** The counter never goes below zero, and each phase ends exactly when its last participant finishes. */
  lemma FinishedKeeps(c: Coordinator, early: bool, i: nat)
    requires CoordinatorInv(c)
    ensures var (d, call) := Signal(c, early, i);
      && CoordinatorInv(d)
      && (c.drainingBefore || c.drainingAfter ==> d.pending >= 0)
      && (call == Interrupt <==> c.drainingBefore && !d.drainingBefore)
      && (call == Interrupt ==> early && AllDone(d.before))
      && (call == AppShutdown <==> c.drainingAfter && !AllDone(c.after) && AllDone(d.after))
  {
    var done := if early then c.before else c.after;
    LeftBounds(done);
    LeftBounds(c.before);
    LeftBounds(c.after);
    if i < |done| && !done[i] {
      LeftFinish(done, i);
      LeftBounds(done[i := true]);
    }
    hide Left;
  }

  /** The coordinator object. */
  class QmlShutdownCoordinator {
    var requested: bool
    var drainingBefore: bool
    var drainingAfter: bool
    var pending: nat
    var before: seq<bool>
    var after: seq<bool>

    ghost function View(): Coordinator
      reads this
    {
      Coordinator(requested, drainingBefore, drainingAfter, pending, before, after)
    }

    ghost predicate Valid()
      reads this
    {
      CoordinatorInv(View())
    }

    constructor ()
      ensures Valid() && View() == Coordinator(false, false, false, 0, [], [])
    {
      requested, drainingBefore, drainingAfter, pending, before, after := false, false, false, 0, [], [];
    }

    method Add(early: bool)
      requires Valid() && !requested
      modifies this
      ensures Valid()
      ensures View() == if early then old(View()).(before := old(before) + [false])
                        else old(View()).(after := old(after) + [false])
    {
      if early {
        before := before + [false];
      } else {
        after := after + [false];
      }
    }

    method RequestShutdown() returns (call: Call)
      requires Valid()
      modifies this
      ensures Valid() && (View(), call) == Begin(old(View()))
    {
      RequestKeeps(View());
      call := NoCall;
      if requested {
        return;
      }
      requested := true;
      pending := |before|;
      if pending == 0 {
        call := Interrupt;
        return;
      }
      drainingBefore := true;
    }

    method DrainAfterInterrupt() returns (call: Call)
      requires Valid() && requested && !drainingBefore
      modifies this
      ensures Valid() && (View(), call) == BeginAfter(old(View()))
    {
      DrainKeeps(View());
      call := NoCall;
      if drainingAfter {
        return;
      }
      drainingAfter := true;
      pending := |after|;
      if pending == 0 {
        call := AppShutdown;
      }
    }

    method ParticipantFinished(early: bool) returns (call: Call)
      requires pending > 0
      modifies this
      ensures (View(), call) == CountDown(old(View()), early)
    {
      call := NoCall;
      pending := pending - 1;
      if pending != 0 {
        return;
      }
      if early {
        drainingBefore := false;
        call := Interrupt;
      } else {
        call := AppShutdown;
      }
    }

    /** A participant's finished signal. */
    method OnFinished(early: bool, i: nat) returns (call: Call)
      requires Valid() && i < if early then |before| else |after|
      modifies this
      ensures Valid() && (View(), call) == Signal(old(View()), early, i)
    {
      FinishedKeeps(View(), early, i);
      call := NoCall;
      var draining := if early then drainingBefore else drainingAfter;
      if !draining {
        return;
      }
      LeftBounds(after);
      if early {
        if before[i] {
          return;
        }
        before := before[i := true];
      } else {
        if after[i] {
          return;
        }
        after := after[i := true];
      }
      call := ParticipantFinished(early);
    }
  }
}
