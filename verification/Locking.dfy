/** The two-level locking protocol of `ToxInstances.h` and `with_instance.h` as a
    step relation: any number of threads over the core manager and the av manager,
    on a heap of tox objects, event buffers and instance mutexes that are created
    and destroyed. A manager's table changes as `InstanceTable` says. */
module Locking {
  import opened Wrappers
  import opened InstanceTable

  type Tid = nat

  datatype Subsystem = Core | Av

  datatype Op = WithInstance(n: int) | AddOp(id: Id) | KillOp(n: int) | FinalizeOp(n: int)

  /** Where a thread is. The names of the lock states say what it waits for. */
  datatype Thread =
    | Idle
      // the manager mutex
    | AwaitManager(sys: Subsystem, op: Op)
    | InManager(sys: Subsystem, op: Op)
      // with_instance: the manager is held until Running
    | AwaitInstance(sys: Subsystem, n: int, mutex: Id)
    | Entered(sys: Subsystem, n: int, mutex: Id)
    | Running(sys: Subsystem, mutex: Id, tox: Id, events: Id)
      // toxAvNew: a function running on a core instance adds an av instance
    | AwaitAvManager(mutex: Id, tox: Id, events: Id, id: Id)
    | InAvManager(mutex: Id, tox: Id, events: Id, id: Id)
      // kill and finalize: the manager is held all along
    | AwaitDying(sys: Subsystem, op: Op, dying: Slot)
    | DyingLocked(sys: Subsystem, op: Op, dying: Slot)
    | DyingUnlocked(sys: Subsystem, op: Op, dying: Slot)
    | Reaped(sys: Subsystem, op: Op)
      // an assertion failed or a null or dead pointer was used
    | Aborted

  datatype Manager = Manager(holder: Option<Tid>, table: Table)

  datatype State = State(
    core: Manager, av: Manager, threads: seq<Thread>,
    toxes: set<Id>, eventBuffers: set<Id>, mutexes: map<Id, Option<Tid>>, next: Id)
  {
    function Mgr(sys: Subsystem): Manager {
      if sys == Core then core else av
    }

    function WithMgr(sys: Subsystem, m: Manager): State {
      if sys == Core then this.(core := m) else this.(av := m)
    }

    function Go(t: Tid, th: Thread): State
      requires t < |threads|
    {
      this.(threads := threads[t := th])
    }

    function Lock(sys: Subsystem, t: Tid): State {
      WithMgr(sys, Mgr(sys).(holder := Some(t)))
    }

    function Unlock(sys: Subsystem): State {
      WithMgr(sys, Mgr(sys).(holder := None))
    }

    function WithTable(sys: Subsystem, table: Table): State {
      WithMgr(sys, Mgr(sys).(table := table))
    }

    /** Create the three heap objects of a new instance. */
    function Create(): State {
      this.(toxes := toxes + {next}, eventBuffers := eventBuffers + {next},
            mutexes := mutexes[next := None], next := next + 1)
    }
  }

  function Init(threads: nat): State {
    State(Manager(None, EMPTY), Manager(None, EMPTY), seq(threads, _ => Idle), {}, {}, map[], 0)
  }

  datatype Action =
    | Start(sys: Subsystem, op: Op)  // an idle thread makes a call from Java
    | Advance                        // a busy thread takes its next step
    | CallAvNew                      // a running core function creates an av instance

  // ----- one step -----

  /** A thread can always take its next step unless it waits for a held mutex. */
  predicate CanAdvance(s: State, t: Tid) {
    && t < |s.threads|
    && match s.threads[t] {
         case Idle => false
         case Aborted => false
         case AwaitManager(sys, _) => s.Mgr(sys).holder == None
         case AwaitAvManager(_, _, _, _) => s.av.holder == None
         case AwaitInstance(_, _, m) => m in s.mutexes ==> s.mutexes[m] == None
         case AwaitDying(_, _, d) =>
           d.mutex.Some? && d.mutex.value in s.mutexes ==> s.mutexes[d.mutex.value] == None
         case _ => true
       }
  }

  predicate Can(s: State, t: Tid, a: Action) {
    && t < |s.threads|
    && match a {
         case Start(sys, op) => s.threads[t].Idle? && (op.AddOp? ==> op.id == s.next)
         case Advance => CanAdvance(s, t)
         case CallAvNew => s.threads[t].Running? && s.threads[t].sys == Core
       }
  }

  function Do(s: State, t: Tid, a: Action): State
    requires Can(s, t, a)
  {
    match a
    case Start(sys, op) => Begin(s, t, sys, op)
    case CallAvNew =>
      var th := s.threads[t];
      s.Create().Go(t, AwaitAvManager(th.mutex, th.tox, th.events, s.next))
    case Advance =>
      match s.threads[t] {
        case AwaitManager(sys, op) => s.Lock(sys, t).Go(t, InManager(sys, op))
        case InManager(sys, op) => Consult(s, t, sys, op)
        case AwaitInstance(sys, n, m) => LockInstance(s, t, m, Entered(sys, n, m))
        case Entered(sys, n, m) => Enter(s, t, sys, n, m)
        case Running(_, m, tox, events) => Return(s, t, m, tox, events)
        case AwaitAvManager(m, tox, ev, id) => s.Lock(Av, t).Go(t, InAvManager(m, tox, ev, id))
        case InAvManager(m, tox, ev, id) => AddTo(s, t, Av, id, Running(Core, m, tox, ev))
        case AwaitDying(sys, op, d) =>
          if d.mutex.Some? then LockInstance(s, t, d.mutex.value, DyingLocked(sys, op, d)) else s.Go(t, Aborted)
        case DyingLocked(sys, op, d) => UnlockDying(s, t, sys, op, d)
        case DyingUnlocked(sys, op, d) => Destroy(s, t, sys, op, d)
        case Reaped(sys, op) => Leave(s, t, sys, op)
      }
  }

  /** The checks before the manager mutex is taken; the objects of an instance to be
      added are created outside the critical section. */
  function Begin(s: State, t: Tid, sys: Subsystem, op: Op): State
    requires t < |s.threads|
  {
    if op.WithInstance? && op.n == 0 then s
    else if op.FinalizeOp? && op.n == 0 then s
    else if op.AddOp? then s.Create().Go(t, AwaitManager(sys, op))
    else s.Go(t, AwaitManager(sys, op))
  }

  /** What the operation does with the table, once it has the manager mutex. */
  function Consult(s: State, t: Tid, sys: Subsystem, op: Op): State
    requires t < |s.threads|
  {
    var table := s.Mgr(sys).table;
    match op
    case WithInstance(n) =>
      var r := Call(table, n);
      if !r.CallReaches? then s.Unlock(sys).Go(t, Idle)
      else if r.tox.mutex == None then s.Go(t, Aborted)
      else s.Go(t, AwaitInstance(sys, n, r.tox.mutex.value))
    case AddOp(id) => AddTo(s, t, sys, id, Idle)
    case KillOp(n) =>
      var (table', r) := Kill(table, n);
      if !r.KillDying? then s.WithTable(sys, table').Unlock(sys).Go(t, Idle)
      else if !r.dying.live || !AssertValid(r.dying) then s.Go(t, Aborted)
      else s.WithTable(sys, table').Go(t, AwaitDying(sys, op, r.dying))
    case FinalizeOp(n) =>
      var (table', r) := Finalize(table, n);
      if !r.FinalizeLeaked? then s.WithTable(sys, table').Unlock(sys).Go(t, Idle)
      else if !AssertValid(r.dying) then s.Go(t, Aborted)
      else s.WithTable(sys, table').Go(t, AwaitDying(sys, op, r.dying))
  }

  /** `add` holds the manager mutex for its whole body. */
  function AddTo(s: State, t: Tid, sys: Subsystem, id: Id, after: Thread): State
    requires t < |s.threads|
  {
    var table := s.Mgr(sys).table;
    if !AddAsserts(table, Live(id)) then s.Go(t, Aborted)
    else s.WithTable(sys, Add(table, Live(id)).0).Unlock(sys).Go(t, after)
  }

  /** Locking a mutex that no longer exists is a use after free. */
  function LockInstance(s: State, t: Tid, m: Id, after: Thread): State
    requires t < |s.threads|
  {
    if m !in s.mutexes then s.Go(t, Aborted)
    else s.(mutexes := s.mutexes[m := Some(t)]).Go(t, after)
  }

  /** With both mutexes held `with_lock` reads the pointers and its function drops
      the manager mutex. */
  function Enter(s: State, t: Tid, sys: Subsystem, n: int, m: Id): State
    requires t < |s.threads|
  {
    var table := s.Mgr(sys).table;
    if !table.InRange(n) || table.At(n).tox == None || table.At(n).events == None then s.Go(t, Aborted)
    else s.Unlock(sys).Go(t, Running(sys, m, table.At(n).tox.value, table.At(n).events.value))
  }

  /** The function used its tox and events until it returned. */
  function Return(s: State, t: Tid, m: Id, tox: Id, events: Id): State
    requires t < |s.threads|
  {
    if tox !in s.toxes || events !in s.eventBuffers || m !in s.mutexes then s.Go(t, Aborted)
    else s.(mutexes := s.mutexes[m := None]).Go(t, Idle)
  }

  function UnlockDying(s: State, t: Tid, sys: Subsystem, op: Op, d: Slot): State
    requires t < |s.threads|
  {
    if d.mutex == None || d.mutex.value !in s.mutexes then s.Go(t, Aborted)
    else s.(mutexes := s.mutexes[d.mutex.value := None]).Go(t, DyingUnlocked(sys, op, d))
  }

  /** The destructor of the moved-out instance frees its mutex, events and tox.
      Freeing an object twice, or a mutex that is held, would be an error. */
  function Destroy(s: State, t: Tid, sys: Subsystem, op: Op, d: Slot): State
    requires t < |s.threads|
  {
    if d.mutex == None || d.events == None || d.tox == None then s.Go(t, Aborted)
    else if d.mutex.value !in s.mutexes || d.events.value !in s.eventBuffers || d.tox.value !in s.toxes
      then s.Go(t, Aborted)
    else if s.mutexes[d.mutex.value] != None then s.Go(t, Aborted)
    else s.(mutexes := s.mutexes - {d.mutex.value}, eventBuffers := s.eventBuffers - {d.events.value},
            toxes := s.toxes - {d.tox.value}).Go(t, Reaped(sys, op))
  }

  /** `kill` is done; `finalize` still has to set the number free. */
  function Leave(s: State, t: Tid, sys: Subsystem, op: Op): State
    requires t < |s.threads|
  {
    var table := s.Mgr(sys).table;
    if !op.FinalizeOp? then s.Unlock(sys).Go(t, Idle)
    else if !table.InRange(op.n) || table.At(op.n).live then s.Go(t, Aborted)
    else s.WithTable(sys, table.SetFree(op.n)).Unlock(sys).Go(t, Idle)
  }

  // ----- runs -----

  /** s' is what a run of the listed steps makes of s. */
  ghost predicate Run(s: State, steps: seq<(Tid, Action)>, s': State)
    decreases |steps|
  {
    if steps == [] then s == s'
    else Can(s, steps[0].0, steps[0].1) && Run(Do(s, steps[0].0, steps[0].1), steps[1..], s')
  }

  // ----- who holds and awaits what -----

  predicate HoldsManager(th: Thread, sys: Subsystem) {
    match th
    case InManager(x, _) => x == sys
    case AwaitInstance(x, _, _) => x == sys
    case Entered(x, _, _) => x == sys
    case InAvManager(_, _, _, _) => sys == Av
    case AwaitDying(x, _, _) => x == sys
    case DyingLocked(x, _, _) => x == sys
    case DyingUnlocked(x, _, _) => x == sys
    case Reaped(x, _) => x == sys
    case _ => false
  }

  predicate HoldsMutex(th: Thread, m: Id) {
    match th
    case Entered(_, _, x) => x == m
    case Running(_, x, _, _) => x == m
    case AwaitAvManager(x, _, _, _) => x == m
    case InAvManager(x, _, _, _) => x == m
    case DyingLocked(_, _, d) => d.mutex == Some(m)
    case _ => false
  }

  predicate AwaitsMutex(th: Thread, m: Id) {
    match th
    case AwaitInstance(_, _, x) => x == m
    case AwaitDying(_, _, d) => d.mutex == Some(m)
    case _ => false
  }

  /** A function given by the caller of with_instance is executing. */
  predicate InFunction(th: Thread) {
    th.Running? || th.AwaitAvManager? || th.InAvManager?
  }
}
