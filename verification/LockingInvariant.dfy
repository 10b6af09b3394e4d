/** The invariant of the locking protocol, and that every step keeps it.

    - Each heap object has one owner: a live slot, or a thread that is about to add it or
      to destroy it (`OwnersOk`).
    - A mutex is held by just the thread whose program point says so (`LocksOk`).
    - What a thread remembers of a slot stays true, because slots change only under the
      manager mutex, which the thread keeps until it has locked the instance (`PointOk`).
    - A step of one thread touches nothing that another one relies on (`Touches`). */
module LockingInvariant {
  import opened Wrappers
  import opened InstanceTable
  import opened Locking

  /** Every heap object has exactly one owner: a live slot, or a thread that is about
      to add it or to destroy it. */
  datatype Owner = BySlot(sys: Subsystem, index: nat) | ByThread(t: Tid)

  type Owners = map<Id, Owner>

  function ThreadOwns(th: Thread): Option<Id> {
    match th
    case AwaitManager(_, AddOp(id)) => Some(id)
    case InManager(_, AddOp(id)) => Some(id)
    case AwaitAvManager(_, _, _, id) => Some(id)
    case InAvManager(_, _, _, id) => Some(id)
    case AwaitDying(_, _, d) => d.tox
    case DyingLocked(_, _, d) => d.tox
    case DyingUnlocked(_, _, d) => d.tox
    case _ => None
  }

  function TableOwns(table: Table, i: nat): Option<Id> {
    if i < |table.slots| && table.slots[i].live then table.slots[i].tox else None
  }

  function Owned(s: State, o: Owner): Option<Id> {
    match o
    case BySlot(sys, i) => TableOwns(s.Mgr(sys).table, i)
    case ByThread(t) => if t < |s.threads| then ThreadOwns(s.threads[t]) else None
  }

  /** The dying instance of a kill or finalize: whole, and no longer in the table. */
  ghost predicate DyingOk(table: Table, op: Op, d: Slot) {
    && d.tox.Some? && d == Live(d.tox.value)
    && LeavingOk(table, op)
  }

  ghost predicate LeavingOk(table: Table, op: Op) {
    && (op.KillOp? || op.FinalizeOp?)
    && (op.FinalizeOp? ==> table.InRange(op.n) && table.At(op.n) == DEAD && !table.IsFree(op.n))
  }

  /** What a thread's program point says about the managers and the heap. */
  ghost predicate PointOk(s: State, th: Thread) {
    match th
    case Aborted => false
    case AwaitInstance(sys, n, m) => s.Mgr(sys).table.InRange(n) && s.Mgr(sys).table.At(n) == Live(m)
    case Entered(sys, n, m) => s.Mgr(sys).table.InRange(n) && s.Mgr(sys).table.At(n) == Live(m)
    case Running(_, m, tox, events) => tox == events == m
    case AwaitAvManager(m, tox, events, _) => tox == events == m
    case InAvManager(m, tox, events, _) => tox == events == m
    case AwaitDying(sys, op, d) => DyingOk(s.Mgr(sys).table, op, d)
    case DyingLocked(sys, op, d) => DyingOk(s.Mgr(sys).table, op, d)
    case DyingUnlocked(sys, op, d) =>
      DyingOk(s.Mgr(sys).table, op, d) && (d.tox.value in s.mutexes ==> s.mutexes[d.tox.value] == None)
    case Reaped(sys, op) => LeavingOk(s.Mgr(sys).table, op)
    case _ => true
  }

  ghost predicate HoldsMgr(s: State, t: Tid, sys: Subsystem) {
    s.Mgr(sys).holder == Some(t)
  }

  ghost predicate HoldsIt(s: State, t: Tid, m: Id) {
    m in s.mutexes && s.mutexes[m] == Some(t)
  }

  /** The managers and mutexes agree with the thread about what it holds. */
  ghost predicate LocksOk(s: State, t: Tid, th: Thread) {
    && (HoldsMgr(s, t, Core) <==> HoldsManager(th, Core))
    && (HoldsMgr(s, t, Av) <==> HoldsManager(th, Av))
    && (forall m :: HoldsIt(s, t, m) <==> HoldsMutex(th, m))
  }

  ghost predicate ThreadOk(s: State, t: Tid) {
    t < |s.threads| ==> PointOk(s, s.threads[t]) && LocksOk(s, t, s.threads[t])
  }

  /** No mutex is held by a thread that does not exist. */
  ghost predicate HoldersExist(s: State) {
    && (s.core.holder.Some? ==> s.core.holder.value < |s.threads|)
    && (s.av.holder.Some? ==> s.av.holder.value < |s.threads|)
    && (forall m :: m in s.mutexes && s.mutexes[m].Some? ==> s.mutexes[m].value < |s.threads|)
  }

  ghost predicate HeapOk(s: State) {
    && s.toxes == s.eventBuffers == s.mutexes.Keys
    && (forall id :: id in s.toxes ==> id < s.next)
  }

  ghost predicate OwnersOk(s: State, w: Owners) {
    && w.Keys == s.toxes
    && (forall o :: Owned(s, o).Some? ==> Owned(s, o).value in w && w[Owned(s, o).value] == o)
    && (forall id :: id in w ==> Owned(s, w[id]) == Some(id))
  }

  ghost predicate Inv(s: State, w: Owners) {
    && Valid(s.core.table) && Valid(s.av.table)
    && HeapOk(s) && HoldersExist(s) && OwnersOk(s, w)
    && (forall t :: ThreadOk(s, t))
  }

  // ----- a step of t leaves the other threads alone -----

  /** t may take or drop a manager mutex, and change the table while it holds it. */
  ghost predicate TouchesManager(m: Manager, t: Tid, m': Manager) {
    && (m'.holder == m.holder
        || (m.holder == None && m'.holder == Some(t))
        || (m.holder == Some(t) && m'.holder == None))
    && (m'.table == m.table || m.holder == Some(t))
  }

  /** Only the mutex c changes, and only between free and held by t. */
  ghost predicate TouchesMutexes(s: State, t: Tid, s': State, c: Option<Id>) {
    && (forall m :: m in s.mutexes && c != Some(m) ==> m in s'.mutexes && s'.mutexes[m] == s.mutexes[m])
    && (forall m :: m in s'.mutexes && c != Some(m) ==> m in s.mutexes || (m == s.next && s'.mutexes[m] == None))
    && (c.Some? && c.value in s.mutexes ==> s.mutexes[c.value] == None || s.mutexes[c.value] == Some(t))
    && (c.Some? && c.value in s'.mutexes ==> s'.mutexes[c.value] == None || s'.mutexes[c.value] == Some(t))
  }

  ghost predicate Touches(s: State, t: Tid, s': State, c: Option<Id>) {
    && t < |s.threads| && |s'.threads| == |s.threads|
    && (forall u :: 0 <= u < |s.threads| && u != t ==> s'.threads[u] == s.threads[u])
    && TouchesManager(s.core, t, s'.core) && TouchesManager(s.av, t, s'.av)
    && TouchesMutexes(s, t, s', c)
    && (c.Some? ==> forall u :: 0 <= u < |s.threads| && u != t ==> ThreadOwns(s.threads[u]) != c)
  }

  lemma {:induction false} OthersKeepPoint(s: State, t: Tid, s': State, c: Option<Id>, u: Tid)
    requires Touches(s, t, s', c) && u != t && u < |s.threads| && ThreadOk(s, u)
    requires ThreadOwns(s.threads[u]).Some? ==> ThreadOwns(s.threads[u]).value < s.next
    ensures PointOk(s', s'.threads[u])
  {
    var th := s.threads[u];
    assert HoldsManager(th, Core) ==> s'.core.table == s.core.table;
    assert HoldsManager(th, Av) ==> s'.av.table == s.av.table;
  }

  lemma {:induction false} OthersKeepLocks(s: State, t: Tid, s': State, c: Option<Id>, u: Tid)
    requires Touches(s, t, s', c) && u != t && u < |s.threads| && LocksOk(s, u, s.threads[u])
    ensures LocksOk(s', u, s'.threads[u])
  {
    forall m
      ensures HoldsIt(s', u, m) <==> HoldsIt(s, u, m)
    {
    }
  }

  /** The frame rule of the protocol. */
  lemma {:induction false} Keeps(s: State, w: Owners, t: Tid, s': State, w': Owners, c: Option<Id>)
    requires Inv(s, w) && Touches(s, t, s', c)
    requires Valid(s'.core.table) && Valid(s'.av.table)
    requires HeapOk(s') && OwnersOk(s', w')
    requires PointOk(s', s'.threads[t]) && LocksOk(s', t, s'.threads[t])
    ensures Inv(s', w')
  {
    forall u: Tid
      ensures ThreadOk(s', u)
    {
      if u < |s.threads| && u != t {
        assert ThreadOk(s, u);
        OwnerBelowNext(s, w, ByThread(u));
        OthersKeepPoint(s, t, s', c, u);
        OthersKeepLocks(s, t, s', c, u);
      }
    }
    forall m | m in s'.mutexes && s'.mutexes[m].Some?
      ensures s'.mutexes[m].value < |s'.threads|
    {
    }
  }

  lemma {:induction false} OwnerBelowNext(s: State, w: Owners, o: Owner)
    requires HeapOk(s) && OwnersOk(s, w)
    ensures Owned(s, o).Some? ==> Owned(s, o).value < s.next && Owned(s, o).value in s.mutexes
  {
  }

  /** Steps that do not move any instance. */
  lemma {:induction false} OwnersStay(s: State, w: Owners, t: Tid, s': State)
    requires OwnersOk(s, w) && t < |s.threads| && |s'.threads| == |s.threads|
    requires forall u :: 0 <= u < |s.threads| && u != t ==> s'.threads[u] == s.threads[u]
    requires ThreadOwns(s'.threads[t]) == ThreadOwns(s.threads[t])
    requires forall i :: TableOwns(s'.core.table, i) == TableOwns(s.core.table, i)
    requires forall i :: TableOwns(s'.av.table, i) == TableOwns(s.av.table, i)
    requires s'.toxes == s.toxes
    ensures OwnersOk(s', w)
  {
    forall o
      ensures Owned(s', o) == Owned(s, o)
    {
    }
  }

  // ----- the steps -----

  lemma {:induction false} BeginKeeps(s: State, w: Owners, t: Tid, sys: Subsystem, op: Op) returns (w': Owners)
    requires Inv(s, w) && Can(s, t, Start(sys, op))
    ensures Inv(Begin(s, t, sys, op), w')
  {
    var s' := Begin(s, t, sys, op);
    w' := w;
    assert ThreadOk(s, t);
    if s' != s {
      if op.AddOp? {
        w' := CreateKeeps(s, w, t, AwaitManager(sys, op));
      } else {
        assert forall m :: HoldsIt(s', t, m) <==> HoldsIt(s, t, m);
        LockStepKeeps(s, w, t, s', None);
      }
    }
  }

  lemma {:induction false} CreateKeeps(s: State, w: Owners, t: Tid, th: Thread) returns (w': Owners)
    requires Inv(s, w) && t < |s.threads|
    requires ThreadOwns(s.threads[t]) == None && ThreadOwns(th) == Some(s.next)
    requires PointOk(s, th) && LocksOk(s, t, th)
    requires th.AwaitManager? || th.AwaitAvManager?
    ensures Inv(s.Create().Go(t, th), w')
  {
    var s' := s.Create().Go(t, th);
    w' := w[s.next := ByThread(t)];
    forall o
      ensures Owned(s', o) == if o == ByThread(t) then Some(s.next) else Owned(s, o)
    {
    }
    OwnersCreated(s, w, t, s', w');
    forall m
      ensures HoldsIt(s', t, m) <==> HoldsIt(s, t, m)
    {
    }
    Keeps(s, w, t, s', w', None);
  }

  lemma {:induction false} OwnersCreated(s: State, w: Owners, t: Tid, s': State, w': Owners)
    requires OwnersOk(s, w) && HeapOk(s)
    requires w' == w[s.next := ByThread(t)] && s'.toxes == s.toxes + {s.next}
    requires Owned(s, ByThread(t)) == None
    requires forall o :: Owned(s', o) == if o == ByThread(t) then Some(s.next) else Owned(s, o)
    ensures OwnersOk(s', w')
  {
  }

  /** Steps that only take or drop a manager mutex or one instance mutex. */
  lemma {:induction false} LockStepKeeps(s: State, w: Owners, t: Tid, s': State, c: Option<Id>)
    requires Inv(s, w) && Touches(s, t, s', c)
    requires s'.core.table == s.core.table && s'.av.table == s.av.table
    requires s'.toxes == s.toxes && s'.eventBuffers == s.eventBuffers && s'.next == s.next
    requires s'.mutexes.Keys == s.mutexes.Keys
    requires ThreadOwns(s'.threads[t]) == ThreadOwns(s.threads[t])
    requires PointOk(s', s'.threads[t]) && LocksOk(s', t, s'.threads[t])
    ensures Inv(s', w)
  {
    OwnersStay(s, w, t, s');
    Keeps(s, w, t, s', w, c);
  }

  lemma {:induction false} AwaitManagerKeeps(s: State, w: Owners, t: Tid)
    requires Inv(s, w) && CanAdvance(s, t) && s.threads[t].AwaitManager?
    ensures Inv(Do(s, t, Advance), w)
  {
    var s' := Do(s, t, Advance);
    assert ThreadOk(s, t);
    assert forall m :: HoldsIt(s', t, m) <==> HoldsIt(s, t, m);
    LockStepKeeps(s, w, t, s', None);
  }

  lemma {:induction false} AwaitAvManagerKeeps(s: State, w: Owners, t: Tid)
    requires Inv(s, w) && CanAdvance(s, t) && s.threads[t].AwaitAvManager?
    ensures Inv(Do(s, t, Advance), w)
  {
    var s' := Do(s, t, Advance);
    assert ThreadOk(s, t);
    assert forall m :: HoldsIt(s', t, m) <==> HoldsIt(s, t, m);
    LockStepKeeps(s, w, t, s', None);
  }

  lemma {:induction false} AwaitInstanceKeeps(s: State, w: Owners, t: Tid)
    requires Inv(s, w) && CanAdvance(s, t) && s.threads[t].AwaitInstance?
    ensures Inv(Do(s, t, Advance), w)
  {
    assert ThreadOk(s, t);
    var AwaitInstance(sys, n, m) := s.threads[t];
    assert Owned(s, BySlot(sys, n - 1)) == Some(m);
    AcquireKeeps(s, w, t, m, BySlot(sys, n - 1), Entered(sys, n, m));
  }

  lemma {:induction false} AwaitDyingKeeps(s: State, w: Owners, t: Tid)
    requires Inv(s, w) && CanAdvance(s, t) && s.threads[t].AwaitDying?
    ensures Inv(Do(s, t, Advance), w)
  {
    assert ThreadOk(s, t);
    var AwaitDying(sys, op, d) := s.threads[t];
    assert Owned(s, ByThread(t)) == Some(d.tox.value);
    AcquireKeeps(s, w, t, d.tox.value, ByThread(t), DyingLocked(sys, op, d));
  }

  /** Thread t locks the free mutex m, which a slot or t itself owns. */
  lemma {:induction false} AcquireKeeps(s: State, w: Owners, t: Tid, m: Id, o: Owner, th: Thread)
    requires Inv(s, w) && t < |s.threads| && Owned(s, o) == Some(m) && (o == ByThread(t) || o.BySlot?)
    requires m in s.mutexes ==> s.mutexes[m] == None
    requires ThreadOwns(th) == ThreadOwns(s.threads[t])
    requires PointOk(s, th) && !th.DyingUnlocked?
    requires forall sys :: HoldsManager(th, sys) <==> HoldsManager(s.threads[t], sys)
    requires forall x :: !HoldsMutex(s.threads[t], x) && (HoldsMutex(th, x) <==> x == m)
    ensures Inv(LockInstance(s, t, m, th), w)
  {
    assert ThreadOk(s, t);
    OwnerElsewhere(s, w, o, t);
    var s' := LockInstance(s, t, m, th);
    assert forall x :: HoldsIt(s', t, x) <==> x == m || HoldsIt(s, t, x);
    LockStepKeeps(s, w, t, s', Some(m));
  }

  /** What one owner has, no other thread has. */
  lemma {:induction false} OwnerElsewhere(s: State, w: Owners, o: Owner, t: Tid)
    requires o == ByThread(t) || o.BySlot?
    requires OwnersOk(s, w) && Owned(s, o).Some?
    ensures Owned(s, o).value in s.toxes
    ensures forall u :: 0 <= u < |s.threads| && u != t ==> ThreadOwns(s.threads[u]) != Owned(s, o)
  {
    forall u | 0 <= u < |s.threads| && u != t
      ensures ThreadOwns(s.threads[u]) != Owned(s, o)
    {
      assert Owned(s, ByThread(u)) == ThreadOwns(s.threads[u]);
    }
  }

  lemma {:induction false} EnteredKeeps(s: State, w: Owners, t: Tid)
    requires Inv(s, w) && CanAdvance(s, t) && s.threads[t].Entered?
    ensures Inv(Do(s, t, Advance), w)
  {
    assert ThreadOk(s, t);
    var s' := Do(s, t, Advance);
    assert forall m :: HoldsIt(s', t, m) <==> HoldsIt(s, t, m);
    LockStepKeeps(s, w, t, s', None);
  }

  lemma {:induction false} RunningKeeps(s: State, w: Owners, t: Tid)
    requires Inv(s, w) && CanAdvance(s, t) && s.threads[t].Running?
    ensures Inv(Do(s, t, Advance), w)
  {
    assert ThreadOk(s, t);
    var m := s.threads[t].mutex;
    assert HoldsMutex(s.threads[t], m);
    assert HoldsIt(s, t, m);
    LetGoKeeps(s, w, t, m, Idle);
  }

  /** Thread t unlocks the one instance mutex it holds. */
  lemma {:induction false} LetGoKeeps(s: State, w: Owners, t: Tid, m: Id, th: Thread)
    requires Inv(s, w) && t < |s.threads| && HoldsIt(s, t, m)
    requires ThreadOwns(th) == ThreadOwns(s.threads[t])
    requires PointOk(s.(mutexes := s.mutexes[m := None]), th)
    requires forall sys :: HoldsManager(th, sys) <==> HoldsManager(s.threads[t], sys)
    requires forall x :: !HoldsMutex(th, x) && (HoldsMutex(s.threads[t], x) <==> x == m)
    ensures Inv(s.(mutexes := s.mutexes[m := None]).Go(t, th), w)
  {
    assert ThreadOk(s, t);
    var s' := s.(mutexes := s.mutexes[m := None]).Go(t, th);
    assert forall x :: HoldsIt(s', t, x) <==> x != m && HoldsIt(s, t, x);
    OwnersStay(s, w, t, s');
    ReleaseKeeps(s, w, t, s', m);
  }

  /** Unlocking a mutex can only help the others. */
  lemma {:induction false} ReleaseKeeps(s: State, w: Owners, t: Tid, s': State, m: Id)
    requires Inv(s, w) && t < |s.threads| && HoldsIt(s, t, m)
    requires |s'.threads| == |s.threads| && s' == s.(mutexes := s.mutexes[m := None]).Go(t, s'.threads[t])
    requires OwnersOk(s', w)
    requires PointOk(s', s'.threads[t]) && LocksOk(s', t, s'.threads[t])
    ensures Inv(s', w)
  {
    forall u: Tid
      ensures ThreadOk(s', u)
    {
      assert ThreadOk(s, u);
      assert u != t ==> forall x :: HoldsIt(s', u, x) <==> HoldsIt(s, u, x);
    }
  }

  lemma {:induction false} DyingLockedHolds(s: State, t: Tid)
    requires t < |s.threads| && s.threads[t].DyingLocked? && ThreadOk(s, t)
    ensures s.threads[t].dying.tox.Some? && HoldsIt(s, t, s.threads[t].dying.tox.value)
    ensures var DyingLocked(sys, op, d) := s.threads[t];
            Do(s, t, Advance) ==
            s.(mutexes := s.mutexes[d.tox.value := None]).Go(t, DyingUnlocked(sys, op, d))
  {
    assert HoldsMutex(s.threads[t], s.threads[t].dying.tox.value);
  }

  lemma {:induction false} DyingLockedKeeps(s: State, w: Owners, t: Tid)
    requires Inv(s, w) && CanAdvance(s, t) && s.threads[t].DyingLocked?
    ensures Inv(Do(s, t, Advance), w)
  {
    assert ThreadOk(s, t);
    DyingLockedHolds(s, t);
    var DyingLocked(sys, op, d) := s.threads[t];
    LetGoKeeps(s, w, t, d.tox.value, DyingUnlocked(sys, op, d));
  }

  /** The heap without the objects of instance m. */
  function Freed(s: State, t: Tid, m: Id, th: Thread): State
    requires t < |s.threads|
  {
    s.(mutexes := s.mutexes - {m}, eventBuffers := s.eventBuffers - {m}, toxes := s.toxes - {m}).Go(t, th)
  }

  lemma {:induction false} DyingUnlockedKeeps(s: State, w: Owners, t: Tid) returns (w': Owners)
    requires Inv(s, w) && CanAdvance(s, t) && s.threads[t].DyingUnlocked?
    ensures Inv(Do(s, t, Advance), w')
  {
    assert ThreadOk(s, t);
    var DyingUnlocked(sys, op, d) := s.threads[t];
    assert Owned(s, ByThread(t)) == Some(d.tox.value);
    w' := FreedKeeps(s, w, t, d.tox.value, Reaped(sys, op));
  }

  lemma {:induction false} FreedKeeps(s: State, w: Owners, t: Tid, m: Id, th: Thread) returns (w': Owners)
    requires Inv(s, w) && t < |s.threads| && Owned(s, ByThread(t)) == Some(m) && s.mutexes[m] == None
    requires ThreadOwns(th) == None && PointOk(s, th) && th.Reaped?
    requires forall sys :: HoldsManager(th, sys) <==> HoldsManager(s.threads[t], sys)
    requires forall x :: HoldsMutex(th, x) <==> HoldsMutex(s.threads[t], x)
    ensures Inv(Freed(s, t, m, th), w')
  {
    assert ThreadOk(s, t);
    OwnerElsewhere(s, w, ByThread(t), t);
    var s' := Freed(s, t, m, th);
    w' := w - {m};
    forall o
      ensures Owned(s', o) == if o == ByThread(t) then None else Owned(s, o)
    {
    }
    OwnersDestroyed(s, w, t, m, s', w');
    assert forall x :: HoldsIt(s', t, x) <==> HoldsIt(s, t, x);
    Keeps(s, w, t, s', w', Some(m));
  }

  lemma {:induction false} OwnersDestroyed(s: State, w: Owners, t: Tid, m: Id, s': State, w': Owners)
    requires OwnersOk(s, w) && Owned(s, ByThread(t)) == Some(m)
    requires w' == w - {m} && s'.toxes == s.toxes - {m}
    requires forall o :: Owned(s', o) == if o == ByThread(t) then None else Owned(s, o)
    ensures OwnersOk(s', w')
  {
  }

  // ----- the steps that consult or change a table -----

  /** t holds the manager mutex of sys, puts table there and lets the mutex go. */
  ghost predicate LeavesWith(s: State, t: Tid, sys: Subsystem, table: Table, th: Thread, s': State) {
    && t < |s.threads|
    && s' == s.WithTable(sys, table).Unlock(sys).Go(t, th)
  }

  lemma {:induction false} LeavingTouches(s: State, t: Tid, sys: Subsystem, table: Table, th: Thread, s': State)
    requires LeavesWith(s, t, sys, table, th, s') && HoldsMgr(s, t, sys)
    ensures Touches(s, t, s', None)
    ensures s'.Mgr(sys) == Manager(None, table)
    ensures forall x :: x != sys ==> s'.Mgr(x) == s.Mgr(x)
    ensures forall m :: HoldsIt(s', t, m) <==> HoldsIt(s, t, m)
  {
  }

  /** Leaving a manager whose live slots stay the same. */
  lemma {:induction false} LeavesKeeps(s: State, w: Owners, t: Tid, sys: Subsystem, table: Table, th: Thread, s': State)
    requires Inv(s, w) && LeavesWith(s, t, sys, table, th, s') && HoldsMgr(s, t, sys)
    requires Valid(table) && forall i :: TableOwns(table, i) == TableOwns(s.Mgr(sys).table, i)
    requires ThreadOwns(th) == ThreadOwns(s.threads[t])
    requires PointOk(s', th) && LocksOk(s', t, th)
    ensures Inv(s', w)
  {
    LeavingTouches(s, t, sys, table, th, s');
    OwnersStay(s, w, t, s');
    Keeps(s, w, t, s', w, None);
  }

  lemma {:induction false} ConsultWithKeeps(s: State, w: Owners, t: Tid, sys: Subsystem, n: int)
    requires Inv(s, w) && t < |s.threads| && s.threads[t] == InManager(sys, WithInstance(n))
    ensures Inv(Do(s, t, Advance), w)
  {
    assert ThreadOk(s, t);
    var s' := Do(s, t, Advance);
    CallRefines(s.Mgr(sys).table, n);
    if s'.threads[t] == Idle {
      LeavingTouches(s, t, sys, s.Mgr(sys).table, Idle, s');
      LeavesKeeps(s, w, t, sys, s.Mgr(sys).table, Idle, s');
    } else {
      assert forall m :: HoldsIt(s', t, m) <==> HoldsIt(s, t, m);
      LockStepKeeps(s, w, t, s', None);
    }
  }

  lemma {:induction false} AddOwns(table: Table, id: Id) returns (table': Table, n: int)
    requires Valid(table) && FreshId(table, id)
    ensures AddAsserts(table, Live(id)) && (table', n) == Add(table, Live(id)) && n > 0
    ensures Valid(table') && TableOwns(table, n - 1) == None
    ensures forall i :: TableOwns(table', i) == if i == n - 1 then Some(id) else TableOwns(table, i)
  {
    AddRefines(table, id);
    var r := Add(table, Live(id));
    table', n := r.0, r.1;
  }

  /** What a thread is about to add is in no slot. */
  lemma {:induction false} AddedIsFresh(s: State, w: Owners, t: Tid, sys: Subsystem, id: Id)
    requires OwnersOk(s, w) && Owned(s, ByThread(t)) == Some(id)
    ensures FreshId(s.Mgr(sys).table, id)
  {
    var table := s.Mgr(sys).table;
    forall i | 0 <= i < |table.slots|
      ensures table.slots[i] != Live(id)
    {
      assert Owned(s, BySlot(sys, i)) == TableOwns(table, i);
    }
  }

  /** Both an ordinary add and the nested one of toxAvNew. */
  lemma {:induction false} AddKeeps(s: State, w: Owners, t: Tid, sys: Subsystem, id: Id, after: Thread)
    returns (w': Owners)
    requires Inv(s, w) && t < |s.threads| && HoldsMgr(s, t, sys)
    requires Owned(s, ByThread(t)) == Some(id)
    requires after.Idle? || (after.Running? && after.tox == after.events == after.mutex)
    requires LocksOk(s.Unlock(sys).Go(t, after), t, after)
    ensures Inv(AddTo(s, t, sys, id, after), w')
  {
    AddedIsFresh(s, w, t, sys, id);
    var table', n := AddOwns(s.Mgr(sys).table, id);
    var s' := AddTo(s, t, sys, id, after);
    assert LeavesWith(s, t, sys, table', after, s');
    LeavingTouches(s, t, sys, table', after, s');
    w' := w[id := BySlot(sys, n - 1)];
    AddMoves(s, w, t, sys, id, table', n, after, s');
    AddLocks(s, t, sys, table', after, s');
    Keeps(s, w, t, s', w', None);
  }

  lemma {:induction false} AddMoves(s: State, w: Owners, t: Tid, sys: Subsystem, id: Id, table': Table, n: int,
                                    after: Thread, s': State)
    requires OwnersOk(s, w) && LeavesWith(s, t, sys, table', after, s')
    requires Owned(s, ByThread(t)) == Some(id) && ThreadOwns(after) == None && n > 0
    requires TableOwns(s.Mgr(sys).table, n - 1) == None
    requires forall i :: TableOwns(table', i) == if i == n - 1 then Some(id) else TableOwns(s.Mgr(sys).table, i)
    ensures OwnersOk(s', w[id := BySlot(sys, n - 1)])
  {
    OwnerMoves(s, w, t, id, BySlot(sys, n - 1), s');
  }

  lemma {:induction false} AddLocks(s: State, t: Tid, sys: Subsystem, table': Table, after: Thread, s': State)
    requires LeavesWith(s, t, sys, table', after, s')
    requires LocksOk(s.Unlock(sys).Go(t, after), t, after)
    ensures LocksOk(s', t, after)
  {
    var s0 := s.Unlock(sys).Go(t, after);
    assert forall m :: HoldsIt(s', t, m) <==> HoldsIt(s0, t, m);
  }

  /** The instance id goes from thread t to the slot o. */
  lemma {:induction false} OwnerMoves(s: State, w: Owners, t: Tid, id: Id, o: Owner, s': State)
    requires OwnersOk(s, w) && t < |s.threads| && Owned(s, ByThread(t)) == Some(id) && o.BySlot?
    requires |s'.threads| == |s.threads| && ThreadOwns(s'.threads[t]) == None && s'.toxes == s.toxes
    requires forall u :: 0 <= u < |s.threads| && u != t ==> s'.threads[u] == s.threads[u]
    requires Owned(s, o) == None
    requires forall p: Owner :: p.BySlot? ==> Owned(s', p) == if p == o then Some(id) else Owned(s, p)
    ensures OwnersOk(s', w[id := o])
  {
    forall p: Owner
      ensures Owned(s', p) == if p == o then Some(id) else if p == ByThread(t) then None else Owned(s, p)
    {
    }
  }

  lemma {:induction false} MoveOutOwns(table: Table, n: int)
    requires Valid(table) && table.InRange(n)
    ensures Valid(table.MoveOut(n))
    ensures table.At(n).live ==> table.At(n) == Live(table.At(n).tox.value)
    ensures forall i :: TableOwns(table.MoveOut(n), i) == if i == n - 1 then None else TableOwns(table, i)
  {
    MoveOutKeeps(table, n);
  }

  /** A live instance is moved out of the table to be destroyed. */
  function MovedOut(s: State, t: Tid, sys: Subsystem, op: Op): State
    requires t < |s.threads| && (op.KillOp? || op.FinalizeOp?) && s.Mgr(sys).table.InRange(op.n)
  {
    s.WithTable(sys, s.Mgr(sys).table.MoveOut(op.n)).Go(t, AwaitDying(sys, op, s.Mgr(sys).table.At(op.n)))
  }

  lemma {:induction false} MoveOutOwned(s: State, t: Tid, sys: Subsystem, op: Op)
    requires t < |s.threads| && (op.KillOp? || op.FinalizeOp?) && Valid(s.Mgr(sys).table)
    requires s.Mgr(sys).table.InRange(op.n) && s.Mgr(sys).table.At(op.n).live
    ensures Owned(s, BySlot(sys, op.n - 1)) == s.Mgr(sys).table.At(op.n).tox
    ensures forall p: Owner :: p.BySlot? ==>
              Owned(MovedOut(s, t, sys, op), p) == if p == BySlot(sys, op.n - 1) then None else Owned(s, p)
  {
    MoveOutOwns(s.Mgr(sys).table, op.n);
  }

  lemma {:induction false} MoveOutOwners(s: State, w: Owners, t: Tid, sys: Subsystem, op: Op)
    requires Inv(s, w) && t < |s.threads| && s.threads[t] == InManager(sys, op)
    requires op.KillOp? || op.FinalizeOp?
    requires s.Mgr(sys).table.InRange(op.n) && s.Mgr(sys).table.At(op.n).live
    ensures s.Mgr(sys).table.At(op.n).tox.Some?
    ensures OwnersOk(MovedOut(s, t, sys, op), w[s.Mgr(sys).table.At(op.n).tox.value := ByThread(t)])
  {
    var table, o := s.Mgr(sys).table, BySlot(sys, op.n - 1);
    MoveOutOwns(table, op.n);
    MoveOutOwned(s, t, sys, op);
    OwnerMovesBack(s, w, t, table.At(op.n).tox.value, o, MovedOut(s, t, sys, op));
  }

  lemma {:induction false} MoveOutTouches(s: State, t: Tid, sys: Subsystem, op: Op)
    requires t < |s.threads| && s.threads[t] == InManager(sys, op) && ThreadOk(s, t)
    requires op.KillOp? || op.FinalizeOp?
    requires s.Mgr(sys).table.InRange(op.n)
    ensures Touches(s, t, MovedOut(s, t, sys, op), None)
    ensures LocksOk(MovedOut(s, t, sys, op), t, MovedOut(s, t, sys, op).threads[t])
  {
    assert forall m :: HoldsIt(MovedOut(s, t, sys, op), t, m) <==> HoldsIt(s, t, m);
  }

  lemma {:induction false} MoveOutKeepsInv(s: State, w: Owners, t: Tid, sys: Subsystem, op: Op)
    returns (w': Owners)
    requires Inv(s, w) && t < |s.threads| && s.threads[t] == InManager(sys, op)
    requires op.KillOp? || op.FinalizeOp?
    requires s.Mgr(sys).table.InRange(op.n) && s.Mgr(sys).table.At(op.n).live
    requires op.FinalizeOp? ==> !s.Mgr(sys).table.IsFree(op.n)
    ensures Inv(MovedOut(s, t, sys, op), w')
  {
    assert ThreadOk(s, t);
    MoveOutOwns(s.Mgr(sys).table, op.n);
    MoveOutOwners(s, w, t, sys, op);
    MoveOutTouches(s, t, sys, op);
    w' := w[s.Mgr(sys).table.At(op.n).tox.value := ByThread(t)];
    Keeps(s, w, t, MovedOut(s, t, sys, op), w', None);
  }

  lemma {:induction false} OwnerMovesBack(s: State, w: Owners, t: Tid, id: Id, o: Owner, s': State)
    requires OwnersOk(s, w) && t < |s.threads| && Owned(s, o) == Some(id) && o.BySlot?
    requires |s'.threads| == |s.threads| && s'.toxes == s.toxes
    requires ThreadOwns(s.threads[t]) == None && ThreadOwns(s'.threads[t]) == Some(id)
    requires forall u :: 0 <= u < |s.threads| && u != t ==> s'.threads[u] == s.threads[u]
    requires forall p: Owner :: p.BySlot? ==> Owned(s', p) == if p == o then None else Owned(s, p)
    ensures OwnersOk(s', w[id := ByThread(t)])
  {
    forall p: Owner
      ensures Owned(s', p) == if p == o then None else if p == ByThread(t) then Some(id) else Owned(s, p)
    {
    }
  }

  lemma {:induction false} ConsultKillKeeps(s: State, w: Owners, t: Tid, sys: Subsystem, n: int) returns (w': Owners)
    requires Inv(s, w) && t < |s.threads| && s.threads[t] == InManager(sys, KillOp(n))
    ensures Inv(Do(s, t, Advance), w')
  {
    assert ThreadOk(s, t);
    var s', table := Do(s, t, Advance), s.Mgr(sys).table;
    w' := w;
    KillRefines(table, n);
    if table.InRange(n) && table.At(n).live {
      MoveOutOwns(table, n);
      w' := MoveOutKeepsInv(s, w, t, sys, KillOp(n));
    } else {
      var table' := Kill(table, n).0;
      assert table'.slots == table.slots;
      LeavingTouches(s, t, sys, table', Idle, s');
      LeavesKeeps(s, w, t, sys, table', Idle, s');
    }
  }

  lemma {:induction false} ConsultFinalizeKeeps(s: State, w: Owners, t: Tid, sys: Subsystem, n: int)
    returns (w': Owners)
    requires Inv(s, w) && t < |s.threads| && s.threads[t] == InManager(sys, FinalizeOp(n))
    ensures Inv(Do(s, t, Advance), w')
  {
    assert ThreadOk(s, t);
    var s', table := Do(s, t, Advance), s.Mgr(sys).table;
    w' := w;
    FinalizeRefines(table, n);
    if Finalize(table, n).1.FinalizeLeaked? {
      MoveOutOwns(table, n);
      w' := MoveOutKeepsInv(s, w, t, sys, FinalizeOp(n));
    } else {
      var table' := Finalize(table, n).0;
      assert table'.slots == table.slots;
      LeavingTouches(s, t, sys, table', Idle, s');
      LeavesKeeps(s, w, t, sys, table', Idle, s');
    }
  }

  lemma {:induction false} ReapedKeeps(s: State, w: Owners, t: Tid)
    requires Inv(s, w) && t < |s.threads| && s.threads[t].Reaped?
    ensures Inv(Do(s, t, Advance), w)
  {
    assert ThreadOk(s, t);
    var Reaped(sys, op) := s.threads[t];
    var s', table := Do(s, t, Advance), s.Mgr(sys).table;
    var table' := if op.FinalizeOp? then table.SetFree(op.n) else table;
    if op.FinalizeOp? {
      SetFreeKeeps(table, op.n);
    }
    LeavingTouches(s, t, sys, table', Idle, s');
    LeavesKeeps(s, w, t, sys, table', Idle, s');
  }

  lemma {:induction false} SetFreeKeeps(table: Table, n: int)
    requires Valid(table) && table.InRange(n) && !table.At(n).live && !table.IsFree(n)
    ensures Valid(table.SetFree(n))
  {
  }

  // ----- all steps, all runs -----

  lemma {:induction false} AvNewKeeps(s: State, w: Owners, t: Tid) returns (w': Owners)
    requires Inv(s, w) && Can(s, t, CallAvNew)
    ensures Inv(Do(s, t, CallAvNew), w')
  {
    assert ThreadOk(s, t);
    var th := s.threads[t];
    w' := CreateKeeps(s, w, t, AwaitAvManager(th.mutex, th.tox, th.events, s.next));
  }

  lemma {:induction false} ConsultKeeps(s: State, w: Owners, t: Tid) returns (w': Owners)
    requires Inv(s, w) && CanAdvance(s, t) && s.threads[t].InManager?
    ensures Inv(Do(s, t, Advance), w')
  {
    assert ThreadOk(s, t);
    w' := w;
    var InManager(sys, op) := s.threads[t];
    match op
    case WithInstance(n) => ConsultWithKeeps(s, w, t, sys, n);
    case KillOp(n) => w' := ConsultKillKeeps(s, w, t, sys, n);
    case FinalizeOp(n) => w' := ConsultFinalizeKeeps(s, w, t, sys, n);
    case AddOp(id) =>
      assert forall m :: HoldsIt(s.Unlock(sys).Go(t, Idle), t, m) <==> HoldsIt(s, t, m);
      w' := AddKeeps(s, w, t, sys, id, Idle);
  }

  lemma {:induction false} AvAddKeeps(s: State, w: Owners, t: Tid) returns (w': Owners)
    requires Inv(s, w) && CanAdvance(s, t) && s.threads[t].InAvManager?
    ensures Inv(Do(s, t, Advance), w')
  {
    assert ThreadOk(s, t);
    var InAvManager(m, tox, ev, id) := s.threads[t];
    var after := Running(Core, m, tox, ev);
    assert forall x :: HoldsIt(s.Unlock(Av).Go(t, after), t, x) <==> HoldsIt(s, t, x);
    w' := AddKeeps(s, w, t, Av, id, after);
  }

  lemma {:induction false} AdvanceKeeps(s: State, w: Owners, t: Tid) returns (w': Owners)
    requires Inv(s, w) && CanAdvance(s, t)
    ensures Inv(Do(s, t, Advance), w')
  {
    w' := w;
    match s.threads[t]
    case AwaitManager(_, _) => AwaitManagerKeeps(s, w, t);
    case InManager(_, _) => w' := ConsultKeeps(s, w, t);
    case AwaitInstance(_, _, _) => AwaitInstanceKeeps(s, w, t);
    case Entered(_, _, _) => EnteredKeeps(s, w, t);
    case Running(_, _, _, _) => RunningKeeps(s, w, t);
    case AwaitAvManager(_, _, _, _) => AwaitAvManagerKeeps(s, w, t);
    case InAvManager(_, _, _, _) => w' := AvAddKeeps(s, w, t);
    case AwaitDying(_, _, _) => AwaitDyingKeeps(s, w, t);
    case DyingLocked(_, _, _) => DyingLockedKeeps(s, w, t);
    case DyingUnlocked(_, _, _) => w' := DyingUnlockedKeeps(s, w, t);
    case Reaped(_, _) => ReapedKeeps(s, w, t);
  }

  lemma {:induction false} StepKeeps(s: State, w: Owners, t: Tid, a: Action) returns (w': Owners)
    requires Inv(s, w) && Can(s, t, a)
    ensures Inv(Do(s, t, a), w')
  {
    match a
    case Start(sys, op) => w' := BeginKeeps(s, w, t, sys, op);
    case Advance => w' := AdvanceKeeps(s, w, t);
    case CallAvNew => w' := AvNewKeeps(s, w, t);
  }

  lemma {:induction false} InitOk(threads: nat)
    ensures Inv(Init(threads), map[])
  {
    var s := Init(threads);
    forall t: Tid
      ensures ThreadOk(s, t)
    {
    }
  }

  lemma {:induction false} RunKeeps(s: State, w: Owners, steps: seq<(Tid, Action)>, s': State) returns (w': Owners)
    requires Inv(s, w) && Run(s, steps, s')
    ensures Inv(s', w')
    decreases |steps|
  {
    if steps == [] {
      w' := w;
    } else {
      var w1 := StepKeeps(s, w, steps[0].0, steps[0].1);
      w' := RunKeeps(Do(s, steps[0].0, steps[0].1), w1, steps[1..], s');
    }
  }

  lemma {:induction false} Reachable(threads: nat, steps: seq<(Tid, Action)>, s: State) returns (w: Owners)
    requires Run(Init(threads), steps, s)
    ensures Inv(s, w)
  {
    InitOk(threads);
    w := RunKeeps(Init(threads), map[], steps, s);
  }
}
