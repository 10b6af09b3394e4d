/** The threads of `Locking` use a manager as if each operation happened at once, when it
    has the manager mutex. */
module Linearization {
  import opened Wrappers
  import opened InstanceTable
  import opened Locking
  import opened LockingInvariant

  /** A finalize that has yet to set its number free. */
  predicate Freeing(th: Thread, sys: Subsystem) {
    match th
    case AwaitDying(x, op, _) => x == sys && op.FinalizeOp?
    case DyingLocked(x, op, _) => x == sys && op.FinalizeOp?
    case DyingUnlocked(x, op, _) => x == sys && op.FinalizeOp?
    case Reaped(x, op) => x == sys && op.FinalizeOp?
    case _ => false
  }

  /** The table as it is once the operation that holds the manager is done. */
  function Settled(s: State, sys: Subsystem): Table {
    var m := s.Mgr(sys);
    if m.holder.Some? && m.holder.value < |s.threads| && Freeing(s.threads[m.holder.value], sys)
      then m.table.SetFree(s.threads[m.holder.value].op.n)
      else m.table
  }

  /** An operation as one step. */
  function Effect(table: Table, op: Op): Table {
    match op
    case WithInstance(_) => table
    case AddOp(id) => if AddAsserts(table, Live(id)) then Add(table, Live(id)).0 else table
    case KillOp(n) => Kill(table, n).0
    case FinalizeOp(n) => Finalized(table, n)
  }

  /** The operation that a step decides on. */
  function Decides(s: State, t: Tid, a: Action, sys: Subsystem): Option<Op>
    requires Can(s, t, a)
  {
    if a != Advance then None
    else match s.threads[t]
      case InManager(x, op) => if x == sys then Some(op) else None
      case InAvManager(_, _, _, id) => if sys == Av then Some(AddOp(id)) else None
      case _ => None
  }

  function EffectOf(table: Table, op: Option<Op>): Table {
    if op == None then table else Effect(table, op.value)
  }

  // ----- one step -----

  lemma {:induction false} ConsultSettles(s: State, w: Owners, t: Tid, sys: Subsystem, op: Op)
    requires Inv(s, w) && t < |s.threads| && s.threads[t] == InManager(sys, op)
    ensures Settled(Consult(s, t, sys, op), sys) == Effect(Settled(s, sys), op)
  {
    assert ThreadOk(s, t);
    assert HoldsMgr(s, t, sys);
    var table := s.Mgr(sys).table;
    if op.AddOp? {
      AddSettles(s, w, t, sys, op.id, Idle);
    } else if op.KillOp? {
      KillSettles(s, t, sys, op.n);
    } else if op.FinalizeOp? {
      FinalizeSettles(s, t, sys, op.n);
    }
  }

  lemma {:induction false} AddSettles(s: State, w: Owners, t: Tid, sys: Subsystem, id: Id, after: Thread)
    requires Inv(s, w) && t < |s.threads| && HoldsMgr(s, t, sys)
    requires ThreadOwns(s.threads[t]) == Some(id) && !Freeing(s.threads[t], sys)
    ensures Settled(AddTo(s, t, sys, id, after), sys) == Effect(Settled(s, sys), AddOp(id))
  {
    IdIsFresh(s, w, t, sys, id);
    AddRefines(s.Mgr(sys).table, id);
  }

  /** An instance that a thread is about to add is in no slot. */
  lemma {:induction false} IdIsFresh(s: State, w: Owners, t: Tid, sys: Subsystem, id: Id)
    requires Inv(s, w) && t < |s.threads| && ThreadOwns(s.threads[t]) == Some(id)
    ensures Valid(s.Mgr(sys).table) && FreshId(s.Mgr(sys).table, id)
  {
    assert Owned(s, ByThread(t)) == Some(id);
    forall i | 0 <= i < |s.Mgr(sys).table.slots|
      ensures s.Mgr(sys).table.slots[i] != Live(id)
    {
      assert Owned(s, BySlot(sys, i)) == TableOwns(s.Mgr(sys).table, i);
    }
  }

  lemma {:induction false} KillSettles(s: State, t: Tid, sys: Subsystem, n: int)
    requires t < |s.threads| && s.threads[t] == InManager(sys, KillOp(n)) && HoldsMgr(s, t, sys)
    requires Valid(s.Mgr(sys).table)
    ensures Settled(Consult(s, t, sys, KillOp(n)), sys) == Kill(s.Mgr(sys).table, n).0
  {
    KillRefines(s.Mgr(sys).table, n);
  }

  lemma {:induction false} FinalizeSettles(s: State, t: Tid, sys: Subsystem, n: int)
    requires t < |s.threads| && s.threads[t] == InManager(sys, FinalizeOp(n)) && HoldsMgr(s, t, sys)
    requires Valid(s.Mgr(sys).table)
    ensures Settled(Consult(s, t, sys, FinalizeOp(n)), sys) == Finalized(s.Mgr(sys).table, n)
  {
    FinalizeRefines(s.Mgr(sys).table, n);
  }

  /** A thread that frees nothing, before or after, may take or drop the manager. */
  lemma {:induction false} LockSettles(s: State, t: Tid, s': State, sys: Subsystem)
    requires t < |s.threads| && |s'.threads| == |s.threads|
    requires forall u :: 0 <= u < |s.threads| && u != t ==> s'.threads[u] == s.threads[u]
    requires TouchesManager(s.Mgr(sys), t, s'.Mgr(sys)) && s'.Mgr(sys).table == s.Mgr(sys).table
    requires !Freeing(s.threads[t], sys) && !Freeing(s'.threads[t], sys)
    ensures Settled(s', sys) == Settled(s, sys)
  {
  }

  lemma {:induction false} LeaveSettles(s: State, w: Owners, t: Tid, sys: Subsystem)
    requires Inv(s, w) && t < |s.threads| && s.threads[t].Reaped?
    ensures Settled(Do(s, t, Advance), sys) == Settled(s, sys)
  {
    assert ThreadOk(s, t);
    assert HoldsMgr(s, t, s.threads[t].sys);
  }

  /** On its way through the destruction a thread keeps the manager and its operation. */
  lemma {:induction false} DyingGoesOn(s: State, t: Tid)
    requires CanAdvance(s, t)
    requires s.threads[t].AwaitDying? || s.threads[t].DyingLocked? || s.threads[t].DyingUnlocked?
    ensures var (th, s') := (s.threads[t], Do(s, t, Advance));
            && s'.core == s.core && s'.av == s.av && |s'.threads| == |s.threads|
            && s'.threads == s.threads[t := s'.threads[t]]
            && (s'.threads[t] == Aborted
                || ((s'.threads[t].DyingLocked? || s'.threads[t].DyingUnlocked? || s'.threads[t].Reaped?)
                    && s'.threads[t].sys == th.sys && s'.threads[t].op == th.op))
  {
  }

  lemma {:induction false} SameManager(s: State, t: Tid, s': State, sys: Subsystem)
    requires t < |s.threads| && |s'.threads| == |s.threads| && s'.threads == s.threads[t := s'.threads[t]]
    requires s'.core == s.core && s'.av == s.av
    requires Freeing(s'.threads[t], sys) <==> Freeing(s.threads[t], sys)
    requires Freeing(s.threads[t], sys) ==> s'.threads[t].op == s.threads[t].op
    ensures Settled(s', sys) == Settled(s, sys)
  {
  }

  lemma {:induction false} DyingSettles(s: State, w: Owners, t: Tid, sys: Subsystem)
    requires Inv(s, w) && CanAdvance(s, t)
    requires s.threads[t].AwaitDying? || s.threads[t].DyingLocked? || s.threads[t].DyingUnlocked?
    ensures Settled(Do(s, t, Advance), sys) == Settled(s, sys)
  {
    var w' := LockingInvariant.StepKeeps(s, w, t, Advance);
    NotAborted(Do(s, t, Advance), w', t);
    DyingGoesOn(s, t);
    SameManager(s, t, Do(s, t, Advance), sys);
  }

  lemma {:induction false} NotAborted(s: State, w: Owners, t: Tid)
    requires Inv(s, w) && t < |s.threads|
    ensures s.threads[t] != Aborted
  {
    assert ThreadOk(s, t);
  }

  lemma {:induction false} AdvanceSettles(s: State, t: Tid, sys: Subsystem)
    requires CanAdvance(s, t) && LocksOk(s, t, s.threads[t])
    requires var th := s.threads[t];
             th.AwaitManager? || th.AwaitInstance? || th.Entered? || th.Running? || th.AwaitAvManager?
    ensures Settled(Do(s, t, Advance), sys) == Settled(s, sys)
  {
    assert HoldsMgr(s, t, Core) <==> HoldsManager(s.threads[t], Core);
    assert HoldsMgr(s, t, Av) <==> HoldsManager(s.threads[t], Av);
    LockSettles(s, t, Do(s, t, Advance), sys);
  }

  lemma {:induction false} QuietSettles(s: State, w: Owners, t: Tid, a: Action, sys: Subsystem)
    requires Inv(s, w) && Can(s, t, a)
    requires a == Advance ==>
               !s.threads[t].InManager? && !s.threads[t].InAvManager? && !s.threads[t].Reaped?
    ensures Settled(Do(s, t, a), sys) == Settled(s, sys)
  {
    assert ThreadOk(s, t);
    if a != Advance {
      LockSettles(s, t, Do(s, t, a), sys);
    } else if s.threads[t].AwaitDying? || s.threads[t].DyingLocked? || s.threads[t].DyingUnlocked? {
      DyingSettles(s, w, t, sys);
    } else {
      AdvanceSettles(s, t, sys);
    }
  }

  lemma {:induction false} OtherManager(s: State, t: Tid, sys: Subsystem, op: Op, other: Subsystem)
    requires t < |s.threads| && sys != other
    ensures Consult(s, t, sys, op).Mgr(other) == s.Mgr(other)
    ensures |Consult(s, t, sys, op).threads| == |s.threads|
    ensures forall u :: 0 <= u < |s.threads| && u != t ==> Consult(s, t, sys, op).threads[u] == s.threads[u]
  {
  }

  /** Each step of each thread does nothing to a manager but the operation it decides on. */
  lemma {:induction false} StepSettles(s: State, w: Owners, t: Tid, a: Action, sys: Subsystem)
    requires Inv(s, w) && Can(s, t, a)
    ensures Settled(Do(s, t, a), sys) == EffectOf(Settled(s, sys), Decides(s, t, a, sys))
  {
    assert ThreadOk(s, t);
    var th := s.threads[t];
    if th.InManager? && a == Advance {
      if th.sys == sys {
        ConsultSettles(s, w, t, sys, th.op);
      } else {
        OtherManager(s, t, th.sys, th.op, sys);
        assert HoldsMgr(s, t, sys) <==> HoldsManager(th, sys);
      }
    } else if th.InAvManager? && a == Advance {
      assert HoldsMgr(s, t, Av);
      assert HoldsMgr(s, t, sys) <==> HoldsManager(th, sys);
      if sys == Av { AddSettles(s, w, t, Av, th.id, Running(Core, th.mutex, th.tox, th.events)); }
    } else if th.Reaped? && a == Advance {
      LeaveSettles(s, w, t, sys);
    } else {
      QuietSettles(s, w, t, a, sys);
    }
  }

  // ----- runs -----

  /** The operations that the steps of a run decide on, in order. */
  ghost function Decided(s: State, steps: seq<(Tid, Action)>, sys: Subsystem): seq<Op>
    decreases |steps|
  {
    if steps == [] || !Can(s, steps[0].0, steps[0].1) then []
    else
      var op := Decides(s, steps[0].0, steps[0].1, sys);
      (if op == None then [] else [op.value]) + Decided(Do(s, steps[0].0, steps[0].1), steps[1..], sys)
  }

  function Effects(table: Table, ops: seq<Op>): Table
    decreases |ops|
  {
    if ops == [] then table else Effects(Effect(table, ops[0]), ops[1..])
  }

  lemma {:induction false} EffectsConcat(table: Table, op: Option<Op>, ops: seq<Op>)
    ensures Effects(table, (if op == None then [] else [op.value]) + ops) == Effects(EffectOf(table, op), ops)
  {
    if op == None {
      assert [] + ops == ops;
    } else {
      assert ([op.value] + ops)[1..] == ops;
    }
  }

  lemma {:induction false} RunSettles(s: State, w: Owners, steps: seq<(Tid, Action)>, s': State, sys: Subsystem)
    requires Inv(s, w) && Run(s, steps, s')
    ensures Settled(s', sys) == Effects(Settled(s, sys), Decided(s, steps, sys))
    decreases |steps|
  {
    if steps != [] {
      var (t, a) := steps[0];
      var s1 := Do(s, t, a);
      StepSettles(s, w, t, a, sys);
      var w1 := LockingInvariant.StepKeeps(s, w, t, a);
      RunSettles(s1, w1, steps[1..], s', sys);
      EffectsConcat(Settled(s, sys), Decides(s, t, a, sys), Decided(s1, steps[1..], sys));
    }
  }

  /** Linearizability: in every interleaving the table of a manager is, once the operation
      that holds it is done, what the operations make of it one after the other, in the
      order in which they had the manager mutex. */
  lemma {:induction false} ManagersAreLinear(threads: nat, steps: seq<(Tid, Action)>, s: State, sys: Subsystem)
    requires Run(Init(threads), steps, s)
    ensures Settled(s, sys) == Effects(EMPTY, Decided(Init(threads), steps, sys))
  {
    InitOk(threads);
    RunSettles(Init(threads), map[], steps, s, sys);
  }

  /** A thread that goes on to lock an instance does not stray: it holds the manager until
      it has locked this instance and runs on it. */
  lemma {:induction false} AwaitedIsRun(threads: nat, steps: seq<(Tid, Action)>, s: State, t: Tid)
    requires Run(Init(threads), steps, s) && t < |s.threads|
    requires s.threads[t].AwaitInstance? || s.threads[t].Entered?
    ensures var th := s.threads[t];
            && HoldsMgr(s, t, th.sys) && th.mutex in s.mutexes
            && (CanAdvance(s, t) ==>
                 Do(s, t, Advance).threads[t] ==
                 if th.AwaitInstance? then Entered(th.sys, th.n, th.mutex)
                 else Running(th.sys, th.mutex, th.mutex, th.mutex))
  {
    var w := Reachable(threads, steps, s);
    assert ThreadOk(s, t);
    assert Owned(s, BySlot(s.threads[t].sys, s.threads[t].n - 1)) == Some(s.threads[t].mutex);
  }
}
