/** What the locking protocol guarantees over every run of every number of threads. */
module LockingTheorems {
  import opened Wrappers
  import opened InstanceTable
  import opened Locking
  import opened LockingInvariant

  // ----- safety -----

  /** None of the source's assertions fails, and no thread touches freed memory. */
  lemma {:induction false} NoThreadAborts(threads: nat, steps: seq<(Tid, Action)>, s: State, t: Tid)
    requires Run(Init(threads), steps, s) && t < |s.threads|
    ensures s.threads[t] != Aborted
  {
    var w := Reachable(threads, steps, s);
    assert ThreadOk(s, t);
  }

  /** The slot has the three objects of one instance, and they exist. */
  ghost predicate Backed(s: State, sys: Subsystem, n: int, m: Id) {
    && 1 <= n <= |s.Mgr(sys).table.slots| && s.Mgr(sys).table.slots[n - 1] == Slot(true, Some(m), Some(m), Some(m))
    && m in s.toxes && m in s.eventBuffers && m in s.mutexes
  }

  /** The three objects of an instance that has been moved out exist. */
  ghost predicate Whole(s: State, d: Slot) {
    && d.live && d.tox.Some? && d.events.Some? && d.mutex.Some?
    && d.tox.value in s.toxes && d.events.value in s.eventBuffers && d.mutex.value in s.mutexes
  }

  /** What a thread is about to use is there. */
  ghost predicate PointersOk(s: State, t: Tid, th: Thread) {
    match th
    case AwaitInstance(sys, n, m) => Backed(s, sys, n, m)
    case Entered(sys, n, m) => Backed(s, sys, n, m)
    case AwaitDying(_, _, d) => Whole(s, d)
    case DyingLocked(_, _, d) => Whole(s, d) && s.mutexes[d.mutex.value] == Some(t)
    case DyingUnlocked(_, _, d) => Whole(s, d) && s.mutexes[d.mutex.value] == None
    case _ => true
  }

  /** The mutexes that a thread holds or waits for exist; `with_lock` finds its pointers;
      an instance that is destroyed is whole, and then nobody holds its mutex. */
  lemma {:induction false} PointersAreLive(threads: nat, steps: seq<(Tid, Action)>, s: State, t: Tid)
    requires Run(Init(threads), steps, s) && t < |s.threads|
    ensures forall m :: HoldsMutex(s.threads[t], m) || AwaitsMutex(s.threads[t], m) ==> m in s.mutexes
    ensures PointersOk(s, t, s.threads[t])
  {
    var w := Reachable(threads, steps, s);
    MutexesExist(s, w, t);
    match s.threads[t]
    case AwaitInstance(sys, n, m) => SlotBacked(s, w, t, sys, n, m);
    case Entered(sys, n, m) => SlotBacked(s, w, t, sys, n, m);
    case AwaitDying(_, _, d) => DyingWhole(s, w, t, d);
    case DyingLocked(_, _, d) => DyingWhole(s, w, t, d);
    case DyingUnlocked(_, _, d) => DyingWhole(s, w, t, d);
    case _ =>
  }

  lemma {:induction false} SlotBacked(s: State, w: Owners, t: Tid, sys: Subsystem, n: int, m: Id)
    requires Inv(s, w) && t < |s.threads|
    requires s.threads[t] == AwaitInstance(sys, n, m) || s.threads[t] == Entered(sys, n, m)
    ensures Backed(s, sys, n, m)
  {
    assert ThreadOk(s, t);
    OwnedExists(s, w, BySlot(sys, n - 1), m);
  }

  lemma {:induction false} DyingWhole(s: State, w: Owners, t: Tid, d: Slot)
    requires Inv(s, w) && t < |s.threads|
    requires s.threads[t].AwaitDying? || s.threads[t].DyingLocked? || s.threads[t].DyingUnlocked?
    requires s.threads[t].dying == d
    ensures Whole(s, d)
    ensures s.threads[t].DyingLocked? ==> s.mutexes[d.mutex.value] == Some(t)
    ensures s.threads[t].DyingUnlocked? ==> s.mutexes[d.mutex.value] == None
  {
    assert ThreadOk(s, t);
    OwnedExists(s, w, ByThread(t), d.tox.value);
    if s.threads[t].DyingLocked? { assert HoldsIt(s, t, d.mutex.value); }
  }

  lemma {:induction false} OwnedExists(s: State, w: Owners, o: Owner, id: Id)
    requires OwnersOk(s, w) && HeapOk(s) && Owned(s, o) == Some(id)
    ensures id in s.toxes && id in s.eventBuffers && id in s.mutexes
  {
  }

  /** The assertions of `add` hold whenever a thread comes to them, and those of `finalize`
      when it sets a number free. */
  lemma {:induction false} AssertionsHold(threads: nat, steps: seq<(Tid, Action)>, s: State, t: Tid)
    requires Run(Init(threads), steps, s) && t < |s.threads|
    ensures match s.threads[t]
            case InManager(sys, AddOp(id)) => AddAsserts(s.Mgr(sys).table, Live(id))
            case InAvManager(_, _, _, id) => AddAsserts(s.av.table, Live(id))
            case Reaped(sys, FinalizeOp(n)) =>
              var table := s.Mgr(sys).table;
              1 <= n <= |table.slots| && !table.slots[n - 1].live && n !in table.freelist
            case _ => true
  {
    var w := Reachable(threads, steps, s);
    assert ThreadOk(s, t);
    match s.threads[t]
    case InManager(sys, AddOp(id)) => CanAdd(s, w, t, sys, id);
    case InAvManager(_, _, _, id) => CanAdd(s, w, t, Av, id);
    case _ =>
  }

  lemma {:induction false} MutexesExist(s: State, w: Owners, t: Tid)
    requires Inv(s, w) && t < |s.threads|
    ensures forall m :: HoldsMutex(s.threads[t], m) || AwaitsMutex(s.threads[t], m) ==> m in s.mutexes
  {
    assert ThreadOk(s, t);
    forall m | HoldsMutex(s.threads[t], m) || AwaitsMutex(s.threads[t], m)
      ensures m in s.mutexes
    {
      if AwaitsMutex(s.threads[t], m) {
        var o := AwaitedOwner(s, w, t, m);
      } else {
        assert HoldsIt(s, t, m);
      }
    }
  }

  lemma {:induction false} CanAdd(s: State, w: Owners, t: Tid, sys: Subsystem, id: Id)
    requires Inv(s, w) && t < |s.threads| && ThreadOwns(s.threads[t]) == Some(id)
    ensures AddAsserts(s.Mgr(sys).table, Live(id))
  {
    assert Owned(s, ByThread(t)) == Some(id);
    AddedIsFresh(s, w, t, sys, id);
    AddRefines(s.Mgr(sys).table, id);
  }

  /** A function given to with_instance has its tox and events under it for as long
      as it runs, and is the only one running on them. */
  lemma {:induction false} RunningIsExclusive(threads: nat, steps: seq<(Tid, Action)>, s: State, t: Tid)
    requires Run(Init(threads), steps, s) && t < |s.threads| && InFunction(s.threads[t])
    ensures s.threads[t].tox in s.toxes && s.threads[t].events in s.eventBuffers
    ensures forall u :: 0 <= u < |s.threads| && u != t && InFunction(s.threads[u]) ==>
              s.threads[u].tox != s.threads[t].tox && s.threads[u].events != s.threads[t].events
  {
    var w := Reachable(threads, steps, s);
    assert ThreadOk(s, t);
    var m := s.threads[t].mutex;
    assert HoldsMutex(s.threads[t], m);
    assert HoldsIt(s, t, m);
    forall u | 0 <= u < |s.threads| && u != t && InFunction(s.threads[u])
      ensures s.threads[u].mutex != m && s.threads[u].tox == s.threads[u].events == s.threads[u].mutex
    {
      assert ThreadOk(s, u);
      assert HoldsMutex(s.threads[u], s.threads[u].mutex);
      assert HoldsIt(s, u, s.threads[u].mutex);
    }
  }

  /** A native call that has returned holds no lock: the Java side calls its listeners when
      `toxIteration` has returned, so no listener runs under a lock. */
  lemma {:induction false} ReturnedHoldsNothing(threads: nat, steps: seq<(Tid, Action)>, s: State, t: Tid)
    requires Run(Init(threads), steps, s) && t < |s.threads| && s.threads[t] == Idle
    ensures s.core.holder != Some(t) && s.av.holder != Some(t)
    ensures forall m :: m in s.mutexes ==> s.mutexes[m] != Some(t)
  {
    var w := Reachable(threads, steps, s);
    assert ThreadOk(s, t);
    assert !HoldsMgr(s, t, Core) && !HoldsMgr(s, t, Av);
    forall m | m in s.mutexes
      ensures s.mutexes[m] != Some(t)
    {
      assert HoldsIt(s, t, m) <==> HoldsMutex(s.threads[t], m);
    }
  }

  /** Whatever a step destroys, no thread holds it, waits for it or runs on it. */
  lemma {:induction false} DestroysOnlyUnused(threads: nat, steps: seq<(Tid, Action)>, s: State, t: Tid,
                                              a: Action, id: Id, u: Tid)
    requires Run(Init(threads), steps, s) && Can(s, t, a) && u < |s.threads|
    requires id in s.mutexes && id !in Do(s, t, a).mutexes
    ensures !HoldsMutex(s.threads[u], id) && !AwaitsMutex(s.threads[u], id)
    ensures InFunction(s.threads[u]) ==> s.threads[u].tox != id && s.threads[u].events != id
    ensures id !in Do(s, t, a).toxes && id !in Do(s, t, a).eventBuffers
  {
    var w := Reachable(threads, steps, s);
    assert ThreadOk(s, t) && ThreadOk(s, u);
    var w' := LockingInvariant.StepKeeps(s, w, t, a);
    OnlyDestroyFrees(s, t, a, id);
    assert Owned(s, ByThread(t)) == Some(id) && s.mutexes[id] == None;
    assert !HoldsIt(s, u, id);
    if AwaitsMutex(s.threads[u], id) {
      var o := AwaitedOwner(s, w, u, id);
      assert false;
    }
  }

  lemma {:induction false} AwaitedOwner(s: State, w: Owners, u: Tid, id: Id) returns (o: Owner)
    requires Inv(s, w) && u < |s.threads| && AwaitsMutex(s.threads[u], id)
    ensures Owned(s, o) == Some(id) && (o.BySlot? || o == ByThread(u))
  {
    assert ThreadOk(s, u);
    match s.threads[u]
    case AwaitInstance(sys, n, _) => o := BySlot(sys, n - 1);
    case AwaitDying(_, _, _) => o := ByThread(u);
  }

  lemma {:induction false} OnlyDestroyFrees(s: State, t: Tid, a: Action, id: Id)
    requires Can(s, t, a) && ThreadOk(s, t)
    requires id in s.mutexes && id !in Do(s, t, a).mutexes
    ensures a == Advance && s.threads[t].DyingUnlocked? && s.threads[t].dying == Live(id)
  {
  }

  /** When every thread is idle, exactly the live slots' objects are left: nothing
      leaks, and nothing that is needed was freed. */
  lemma {:induction false} NothingLeaks(threads: nat, steps: seq<(Tid, Action)>, s: State, id: Id)
    requires Run(Init(threads), steps, s)
    requires forall t :: 0 <= t < |s.threads| ==> s.threads[t] == Idle
    ensures id in s.toxes <==> exists sys, i :: TableOwns(s.Mgr(sys).table, i) == Some(id)
    ensures s.toxes == s.eventBuffers == s.mutexes.Keys
  {
    var w := Reachable(threads, steps, s);
    if id in s.toxes {
      assert Owned(s, w[id]) == Some(id);
      assert w[id].BySlot?;
      assert TableOwns(s.Mgr(w[id].sys).table, w[id].index) == Some(id);
    }
    forall sys, i | TableOwns(s.Mgr(sys).table, i) == Some(id)
      ensures id in s.toxes
    {
      assert Owned(s, BySlot(sys, i)) == Some(id);
    }
  }

  // ----- which subsystem an instance belongs to -----

  type Kinds = map<Id, Subsystem>

  ghost predicate IsKind(k: Kinds, id: Id, sys: Subsystem) {
    id in k && k[id] == sys
  }

  ghost predicate ThreadKind(k: Kinds, th: Thread) {
    match th
    case AwaitManager(sys, AddOp(id)) => IsKind(k, id, sys)
    case InManager(sys, AddOp(id)) => IsKind(k, id, sys)
    case AwaitInstance(sys, _, m) => IsKind(k, m, sys)
    case Entered(sys, _, m) => IsKind(k, m, sys)
    case Running(sys, m, _, _) => IsKind(k, m, sys)
    case AwaitAvManager(m, _, _, id) => IsKind(k, m, Core) && IsKind(k, id, Av)
    case InAvManager(m, _, _, id) => IsKind(k, m, Core) && IsKind(k, id, Av)
    case AwaitDying(sys, _, d) => d.tox.Some? && IsKind(k, d.tox.value, sys)
    case DyingLocked(sys, _, d) => d.tox.Some? && IsKind(k, d.tox.value, sys)
    case DyingUnlocked(sys, _, d) => d.tox.Some? && IsKind(k, d.tox.value, sys)
    case _ => true
  }

  ghost predicate TableKind(k: Kinds, table: Table, sys: Subsystem) {
    forall i :: 0 <= i < |table.slots| && table.slots[i].live && table.slots[i].tox.Some? ==>
      IsKind(k, table.slots[i].tox.value, sys)
  }

  ghost predicate KindsOk(s: State, k: Kinds) {
    && TableKind(k, s.core.table, Core) && TableKind(k, s.av.table, Av)
    && (forall t :: 0 <= t < |s.threads| ==> ThreadKind(k, s.threads[t]))
    && (forall id :: id in k ==> id < s.next)
  }

  lemma {:induction false} CreateKinds(s: State, k: Kinds, t: Tid, sys: Subsystem, th: Thread) returns (k': Kinds)
    requires KindsOk(s, k) && t < |s.threads|
    requires ThreadKind(k[s.next := sys], th)
    ensures KindsOk(s.Create().Go(t, th), k')
  {
    k' := k[s.next := sys];
    forall u | 0 <= u < |s.threads|
      ensures ThreadKind(k', s.threads[u])
    {
      assert ThreadKind(k, s.threads[u]);
    }
  }

  lemma {:induction false} MoveKinds(s: State, k: Kinds, t: Tid, s': State)
    requires KindsOk(s, k) && t < |s.threads| && |s'.threads| == |s.threads| && s'.next == s.next
    requires forall u :: 0 <= u < |s.threads| && u != t ==> s'.threads[u] == s.threads[u]
    requires ThreadKind(k, s'.threads[t])
    requires TableKind(k, s'.core.table, Core) && TableKind(k, s'.av.table, Av)
    ensures KindsOk(s', k)
  {
    forall u | 0 <= u < |s'.threads|
      ensures ThreadKind(k, s'.threads[u])
    {
      assert u != t ==> ThreadKind(k, s.threads[u]);
    }
  }

  lemma {:induction false} TableKinds(k: Kinds, table: Table, sys: Subsystem, n: int, id: Id)
    requires TableKind(k, table, sys) && Valid(table)
    ensures TableKind(k, Kill(table, n).0, sys) && TableKind(k, Finalize(table, n).0, sys)
    ensures TableKind(k, table.SetFree(n), sys)
    ensures table.InRange(n) && table.At(n).live ==> table.At(n).tox.Some? && IsKind(k, table.At(n).tox.value, sys)
    ensures AddAsserts(table, Live(id)) && IsKind(k, id, sys) ==> TableKind(k, Add(table, Live(id)).0, sys)
  {
  }

  lemma {:induction false} ConsultKinds(s: State, k: Kinds, t: Tid, sys: Subsystem, op: Op)
    requires KindsOk(s, k) && t < |s.threads| && s.threads[t] == InManager(sys, op)
    requires Valid(s.Mgr(sys).table)
    ensures KindsOk(Consult(s, t, sys, op), k)
  {
    assert ThreadKind(k, s.threads[t]);
    assert TableKind(k, s.Mgr(sys).table, sys);
    if op.AddOp? {
      AddKinds(s, k, t, sys, op.id, Idle);
    } else {
      ConsultThread(s, k, t, sys, op);
      MoveKinds(s, k, t, Consult(s, t, sys, op));
    }
  }

  lemma {:induction false} ConsultThread(s: State, k: Kinds, t: Tid, sys: Subsystem, op: Op)
    requires t < |s.threads| && !op.AddOp? && Valid(s.Mgr(sys).table)
    requires TableKind(k, s.Mgr(sys).table, sys)
    ensures ThreadKind(k, Consult(s, t, sys, op).threads[t])
    ensures TableKind(k, Consult(s, t, sys, op).Mgr(sys).table, sys)
    ensures forall x :: x != sys ==> Consult(s, t, sys, op).Mgr(x) == s.Mgr(x)
  {
    TableKinds(k, s.Mgr(sys).table, sys, op.n, 0);
  }

  lemma {:induction false} AddKinds(s: State, k: Kinds, t: Tid, sys: Subsystem, id: Id, after: Thread)
    requires KindsOk(s, k) && t < |s.threads| && Valid(s.Mgr(sys).table)
    requires IsKind(k, id, sys) && ThreadKind(k, after)
    ensures KindsOk(AddTo(s, t, sys, id, after), k)
  {
    assert TableKind(k, s.Mgr(sys).table, sys);
    TableKinds(k, s.Mgr(sys).table, sys, 0, id);
    MoveKinds(s, k, t, AddTo(s, t, sys, id, after));
  }

  lemma {:induction false} LeaveKinds(s: State, k: Kinds, t: Tid, sys: Subsystem, op: Op)
    requires KindsOk(s, k) && t < |s.threads| && Valid(s.Mgr(sys).table)
    ensures KindsOk(Leave(s, t, sys, op), k)
  {
    assert TableKind(k, s.Mgr(sys).table, sys);
    if op.FinalizeOp? {
      TableKinds(k, s.Mgr(sys).table, sys, op.n, 0);
    }
    MoveKinds(s, k, t, Leave(s, t, sys, op));
  }

  lemma {:induction false} AdvanceKinds(s: State, k: Kinds, t: Tid)
    requires KindsOk(s, k) && CanAdvance(s, t)
    requires Valid(s.core.table) && Valid(s.av.table)
    requires PointOk(s, s.threads[t])
    ensures KindsOk(Do(s, t, Advance), k)
  {
    assert ThreadKind(k, s.threads[t]);
    var th := s.threads[t];
    if th.InManager? {
      ConsultKinds(s, k, t, th.sys, th.op);
    } else if th.InAvManager? {
      AddKinds(s, k, t, Av, th.id, Running(Core, th.mutex, th.tox, th.events));
    } else if th.Reaped? {
      LeaveKinds(s, k, t, th.sys, th.op);
    } else {
      MoveKinds(s, k, t, Do(s, t, Advance));
    }
  }

  lemma {:induction false} StepKinds(s: State, w: Owners, k: Kinds, t: Tid, a: Action) returns (k': Kinds)
    requires Inv(s, w) && KindsOk(s, k) && Can(s, t, a)
    ensures KindsOk(Do(s, t, a), k')
  {
    k' := k;
    assert ThreadKind(k, s.threads[t]) && ThreadOk(s, t);
    match a
    case Advance => AdvanceKinds(s, k, t);
    case CallAvNew =>
      var th := s.threads[t];
      k' := CreateKinds(s, k, t, Av, AwaitAvManager(th.mutex, th.tox, th.events, s.next));
    case Start(sys, op) =>
      if op.AddOp? {
        k' := CreateKinds(s, k, t, sys, AwaitManager(sys, op));
      }
  }

  lemma {:induction false} RunKinds(s: State, w: Owners, k: Kinds, steps: seq<(Tid, Action)>, s': State)
    returns (w': Owners, k': Kinds)
    requires Inv(s, w) && KindsOk(s, k) && Run(s, steps, s')
    ensures Inv(s', w') && KindsOk(s', k')
    decreases |steps|
  {
    if steps == [] {
      w', k' := w, k;
    } else {
      var w1 := LockingInvariant.StepKeeps(s, w, steps[0].0, steps[0].1);
      var k1 := StepKinds(s, w, k, steps[0].0, steps[0].1);
      w', k' := RunKinds(Do(s, steps[0].0, steps[0].1), w1, k1, steps[1..], s');
    }
  }

  // ----- progress -----

  /** The place, in the order core manager, core instance, av manager, av instance,
      of the mutex a thread waits for; 4 when it waits for none. */
  function Rank(th: Thread): nat {
    match th
    case AwaitManager(sys, _) => if sys == Core then 0 else 2
    case AwaitInstance(sys, _, _) => if sys == Core then 1 else 3
    case AwaitDying(sys, _, _) => if sys == Core then 1 else 3
    case AwaitAvManager(_, _, _, _) => 2
    case _ => 4
  }

  ghost predicate Busy(s: State, t: Tid) {
    t < |s.threads| && s.threads[t] != Idle
  }

  /** A waiting thread waits for someone who waits, if at all, further up. */
  lemma {:induction false} HolderIsFurther(s: State, w: Owners, k: Kinds, t: Tid) returns (u: Tid)
    requires Inv(s, w) && KindsOk(s, k) && Busy(s, t) && !CanAdvance(s, t)
    ensures Busy(s, u) && Rank(s.threads[u]) > Rank(s.threads[t])
  {
    assert ThreadOk(s, t) && ThreadKind(k, s.threads[t]);
    match s.threads[t]
    case AwaitManager(sys, _) => u := s.Mgr(sys).holder.value; assert HoldsMgr(s, u, sys); assert ThreadOk(s, u);
    case AwaitAvManager(_, _, _, _) => u := s.av.holder.value; assert HoldsMgr(s, u, Av); assert ThreadOk(s, u);
    case AwaitInstance(sys, _, m) =>
      u := s.mutexes[m].value;
      InstanceHolder(s, w, k, m, sys);
    case AwaitDying(sys, _, d) =>
      u := s.mutexes[d.mutex.value].value;
      InstanceHolder(s, w, k, d.mutex.value, sys);
  }

  lemma {:induction false} InstanceHolder(s: State, w: Owners, k: Kinds, m: Id, sys: Subsystem)
    requires Inv(s, w) && KindsOk(s, k) && IsKind(k, m, sys)
    requires m in s.mutexes && s.mutexes[m].Some?
    ensures Busy(s, s.mutexes[m].value)
    ensures Rank(s.threads[s.mutexes[m].value]) >= if sys == Core then 2 else 4
  {
    var u := s.mutexes[m].value;
    assert HoldsIt(s, u, m);
    assert ThreadOk(s, u) && ThreadKind(k, s.threads[u]);
    assert HoldsMutex(s.threads[u], m);
  }

  lemma {:induction false} SomeoneAdvances(s: State, w: Owners, k: Kinds, t: Tid) returns (u: Tid)
    requires Inv(s, w) && KindsOk(s, k) && Busy(s, t)
    ensures CanAdvance(s, u)
    decreases 4 - Rank(s.threads[t])
  {
    if CanAdvance(s, t) {
      u := t;
    } else {
      var h := HolderIsFurther(s, w, k, t);
      u := SomeoneAdvances(s, w, k, h);
    }
  }

  /** The two managers and all instances together never deadlock: while a thread is
      busy, some busy thread can take its next step. */
  lemma {:induction false} NoDeadlock(threads: nat, steps: seq<(Tid, Action)>, s: State, t: Tid)
    requires Run(Init(threads), steps, s) && Busy(s, t)
    ensures exists u :: CanAdvance(s, u)
  {
    InitOk(threads);
    var w, k := RunKinds(Init(threads), map[], map[], steps, s);
    var u := SomeoneAdvances(s, w, k, t);
  }

  // ----- every call returns -----

  /** An upper bound on the steps a thread still has to take before it is idle. */
  function Work(th: Thread): nat {
    match th
    case Idle => 0
    case Aborted => 0
    case AwaitManager(_, _) => 7
    case InManager(_, _) => 6
    case AwaitInstance(_, _, _) => 3
    case Entered(_, _, _) => 2
    case Running(_, _, _, _) => 1
    case AwaitAvManager(_, _, _, _) => 3
    case InAvManager(_, _, _, _) => 2
    case AwaitDying(_, _, _) => 4
    case DyingLocked(_, _, _) => 3
    case DyingUnlocked(_, _, _) => 2
    case Reaped(_, _) => 1
  }

  function TotalWork(ths: seq<Thread>): nat {
    if ths == [] then 0 else TotalWork(ths[..|ths| - 1]) + Work(ths[|ths| - 1])
  }

  lemma {:induction false} TotalWorkUpdate(ths: seq<Thread>, t: nat, th: Thread)
    requires t < |ths|
    ensures TotalWork(ths[t := th]) == TotalWork(ths) - Work(ths[t]) + Work(th)
    ensures Work(ths[t]) <= TotalWork(ths)
  {
    var n := |ths| - 1;
    if t < n {
      TotalWorkUpdate(ths[..n], t, th);
      assert ths[t := th][..n] == ths[..n][t := th];
    } else {
      assert ths[t := th][..n] == ths[..n];
    }
  }

  lemma {:induction false} AdvanceWorks(s: State, t: Tid)
    requires CanAdvance(s, t)
    ensures TotalWork(Do(s, t, Advance).threads) < TotalWork(s.threads)
  {
    var th := Do(s, t, Advance).threads[t];
    assert Work(th) < Work(s.threads[t]);
    assert Do(s, t, Advance).threads == s.threads[t := th];
    TotalWorkUpdate(s.threads, t, th);
  }

  /** Nobody starts anything new in these steps. */
  ghost predicate OnlyAdvances(steps: seq<(Tid, Action)>) {
    forall i :: 0 <= i < |steps| ==> steps[i].1 == Advance
  }

  /** However the scheduler chooses, the pending calls take boundedly many steps. */
  lemma {:induction false} PendingWorkIsBounded(s: State, steps: seq<(Tid, Action)>, s': State)
    requires Run(s, steps, s') && OnlyAdvances(steps)
    ensures |steps| + TotalWork(s'.threads) <= TotalWork(s.threads)
    decreases |steps|
  {
    if steps != [] {
      AdvanceWorks(s, steps[0].0);
      PendingWorkIsBounded(Do(s, steps[0].0, Advance), steps[1..], s');
    }
  }

  /** And when they can go no further, every call has returned. */
  lemma {:induction false} EveryCallReturns(threads: nat, before: seq<(Tid, Action)>, s: State,
                                            steps: seq<(Tid, Action)>, s': State)
    requires Run(Init(threads), before, s) && Run(s, steps, s') && OnlyAdvances(steps)
    ensures |steps| <= TotalWork(s.threads)
    ensures (forall u :: !CanAdvance(s', u)) ==> forall t :: 0 <= t < |s'.threads| ==> s'.threads[t] == Idle
  {
    PendingWorkIsBounded(s, steps, s');
    RunAppend(Init(threads), before, s, steps, s');
    forall t | (forall u :: !CanAdvance(s', u)) && 0 <= t < |s'.threads|
      ensures s'.threads[t] == Idle
    {
      if Busy(s', t) {
        NoDeadlock(threads, before + steps, s', t);
      }
    }
  }

  lemma {:induction false} RunAppend(s: State, a: seq<(Tid, Action)>, s1: State, b: seq<(Tid, Action)>, s2: State)
    requires Run(s, a, s1) && Run(s1, b, s2)
    ensures Run(s, a + b, s2)
    decreases |a|
  {
    if a == [] {
      assert a + b == b;
    } else {
      RunAppend(Do(s, a[0].0, a[0].1), a[1..], s1, b, s2);
      assert (a + b)[1..] == a[1..] + b && (a + b)[0] == a[0];
    }
  }
}
