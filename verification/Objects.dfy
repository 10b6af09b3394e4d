/** Threads that call through Java objects. Each thread obeys the rules of Java alone: it
    uses an object that has been built, and an object is collected when no call through
    it waits for the manager and none can start any more. That a call finds its own
    object's instance, whatever the other threads do, is then a theorem. */
module Objects {
  import opened Wrappers
  import opened InstanceTable
  import opened Locking
  import opened LockingInvariant
  import opened Linearization
  import Handles

  type Job = Handles.Event

  /** The threads, the objects of one manager, and for each thread that is to use this
      manager what it is about to do there. */
  datatype Heap = Heap(s: State, w: Handles.World, jobs: map<Tid, Job>)

  /** The operation that a thread has started and not decided on yet. */
  function Pending(th: Thread, sys: Subsystem): Option<Op> {
    match th
    case AwaitManager(x, op) => if x == sys then Some(op) else None
    case InManager(x, op) => if x == sys then Some(op) else None
    case AwaitAvManager(_, _, _, id) => if sys == Av then Some(AddOp(id)) else None
    case InAvManager(_, _, _, id) => if sys == Av then Some(AddOp(id)) else None
    case _ => None
  }

  predicate Through(job: Job, h: nat) {
    match job
    case New(_) => false
    case NewThrows => false
    case Use(k) => k == h
    case Close(k) => k == h
    case Collect(k) => k == h
  }

  /** An object that can be used: built, and not being collected. */
  predicate Usable(j: Heap, h: nat) {
    && h < |j.w.handles| && !j.w.handles[h].finalized && j.w.handles[h].number != 0
    && forall t :: t in j.jobs ==> j.jobs[t] != Handles.Collect(h)
  }

  function OpFor(w: Handles.World, job: Job): Option<Op> {
    match job
    case New(id) => Some(AddOp(id))
    case NewThrows => None
    case Use(h) => if h < |w.handles| then Some(WithInstance(w.handles[h].number)) else None
    case Close(h) => if h < |w.handles| then Some(KillOp(w.handles[h].number)) else None
    case Collect(h) => if h < |w.handles| then Some(FinalizeOp(w.handles[h].number)) else None
  }

  /** The rules of Java for a thread that starts something. An object whose constructor
      threw is only ever finalized, under the number 0. */
  predicate Lawful(j: Heap, t: Tid, a: Action, job: Option<Job>, sys: Subsystem) {
    && Can(j.s, t, a)
    && match a {
         case Start(x, op) =>
           if x != sys || op == FinalizeOp(0) then job == None
           else && job.Some? && OpFor(j.w, job.value) == Some(op)
                && match job.value {
                     case New(_) => true
                     case NewThrows => false
                     case Use(h) => Usable(j, h)
                     case Close(h) => Usable(j, h)
                     case Collect(h) => Usable(j, h) && forall u :: u in j.jobs ==> !Through(j.jobs[u], h)
                   }
         case CallAvNew => if sys == Av then job == Some(Handles.New(j.s.next)) else job == None
         case Advance => job == None
       }
  }

  /** What a step makes of the objects: an operation takes effect when it is decided on. */
  ghost function Next(j: Heap, t: Tid, a: Action, job: Option<Job>, sys: Subsystem): Heap
    requires Lawful(j, t, a, job, sys)
    requires Decides(j.s, t, a, sys).Some? ==> t in j.jobs && Handles.Allowed(j.w, j.jobs[t])
  {
    if Decides(j.s, t, a, sys).Some? then Heap(Do(j.s, t, a), Handles.Step(j.w, j.jobs[t]), j.jobs - {t})
    else Heap(Do(j.s, t, a), j.w, if job.Some? then j.jobs[t := job.value] else j.jobs)
  }

  // ----- the invariant -----

  /** A job fits the objects as they are. */
  ghost predicate JobOk(j: Heap, t: Tid, job: Job) {
    match job
    case New(id) => id !in j.w.made && id < j.s.next
    case NewThrows => false
    case Use(h) => h < |j.w.handles| && !j.w.handles[h].finalized && j.w.handles[h].number != 0
    case Close(h) => h < |j.w.handles| && !j.w.handles[h].finalized && j.w.handles[h].number != 0
    case Collect(h) =>
      && h < |j.w.handles| && !j.w.handles[h].finalized && j.w.handles[h].number != 0
      && forall u :: u in j.jobs && u != t ==> !Through(j.jobs[u], h)
  }

  ghost predicate ThreadJob(j: Heap, t: Tid, sys: Subsystem) {
    && (t < |j.s.threads| && Pending(j.s.threads[t], sys).Some? <==> t in j.jobs)
    && (t in j.jobs && t < |j.s.threads| ==>
          && OpFor(j.w, j.jobs[t]) == Pending(j.s.threads[t], sys)
          && JobOk(j, t, j.jobs[t]))
  }

  ghost predicate JobsDiffer(j: Heap) {
    forall t, u :: t in j.jobs && u in j.jobs && t != u && j.jobs[t].New? ==> j.jobs[t] != j.jobs[u]
  }

  ghost predicate Ok(j: Heap, sys: Subsystem) {
    && Handles.Inv(j.w) && Settled(j.s, sys) == j.w.table
    && (forall t: Tid :: ThreadJob(j, t, sys))
    && JobsDiffer(j) && (forall id :: id in j.w.made ==> id < j.s.next)
  }

  // ----- what a step does to the pending operations -----

  /** A step changes one thread, and makes instance numbers only go up. */
  ghost predicate OneThread(s: State, t: Tid, s': State) {
    && t < |s.threads| && |s'.threads| == |s.threads| && s'.next >= s.next
    && forall u :: 0 <= u < |s.threads| && u != t ==> s'.threads[u] == s.threads[u]
  }

  lemma {:induction false} ConsultPends(s: State, t: Tid, sys: Subsystem, op: Op)
    requires t < |s.threads| && s.threads[t] == InManager(sys, op)
    ensures OneThread(s, t, Consult(s, t, sys, op))
    ensures forall x :: Pending(Consult(s, t, sys, op).threads[t], x) == None
  {
  }

  lemma {:induction false} AddPends(s: State, t: Tid, th: Thread)
    requires t < |s.threads| && s.threads[t].InAvManager?
    requires th == Running(Core, s.threads[t].mutex, s.threads[t].tox, s.threads[t].events)
    ensures OneThread(s, t, AddTo(s, t, Av, s.threads[t].id, th))
    ensures forall x :: Pending(AddTo(s, t, Av, s.threads[t].id, th).threads[t], x) == None
  {
  }

  lemma {:induction false} QuietPends(s: State, t: Tid, sys: Subsystem)
    requires CanAdvance(s, t) && !s.threads[t].InManager? && !s.threads[t].InAvManager?
    ensures OneThread(s, t, Do(s, t, Advance))
    ensures Pending(Do(s, t, Advance).threads[t], sys) == Pending(s.threads[t], sys)
  {
  }

  lemma {:induction false} AdvancePends(s: State, t: Tid, sys: Subsystem)
    requires CanAdvance(s, t)
    ensures OneThread(s, t, Do(s, t, Advance))
    ensures if Decides(s, t, Advance, sys) == None
            then Pending(Do(s, t, Advance).threads[t], sys) == Pending(s.threads[t], sys)
            else Decides(s, t, Advance, sys) == Pending(s.threads[t], sys)
                 && Pending(Do(s, t, Advance).threads[t], sys) == None
  {
    var th := s.threads[t];
    if th.InManager? {
      ConsultPends(s, t, th.sys, th.op);
    } else if th.InAvManager? {
      AddPends(s, t, Running(Core, th.mutex, th.tox, th.events));
    } else {
      QuietPends(s, t, sys);
    }
  }

  lemma {:induction false} StartPends(s: State, t: Tid, x: Subsystem, op: Op, sys: Subsystem)
    requires Can(s, t, Start(x, op))
    ensures OneThread(s, t, Do(s, t, Start(x, op)))
    ensures Pending(s.threads[t], sys) == None
    ensures Pending(Do(s, t, Start(x, op)).threads[t], sys) ==
            if x == sys && op != FinalizeOp(0) && op != WithInstance(0) then Some(op) else None
    ensures op.AddOp? ==> op.id == s.next < Do(s, t, Start(x, op)).next
  {
  }

  lemma {:induction false} CallAvPends(s: State, t: Tid, sys: Subsystem)
    requires Can(s, t, CallAvNew)
    ensures OneThread(s, t, Do(s, t, CallAvNew))
    ensures Pending(s.threads[t], sys) == None
    ensures Pending(Do(s, t, CallAvNew).threads[t], sys) == if sys == Av then Some(AddOp(s.next)) else None
    ensures s.next < Do(s, t, CallAvNew).next
  {
  }

  // ----- every step keeps the invariant -----

  lemma {:induction false} JobAt(j: Heap, sys: Subsystem, t: Tid)
    requires Ok(j, sys)
    ensures ThreadJob(j, t, sys)
  {
  }

  /** A thread starts a job. */
  lemma {:induction false} TakesJob(j: Heap, t: Tid, job: Job, s': State, sys: Subsystem)
    requires Ok(j, sys) && OneThread(j.s, t, s') && Settled(s', sys) == Settled(j.s, sys)
    requires t !in j.jobs && OpFor(j.w, job).Some? && OpFor(j.w, job) == Pending(s'.threads[t], sys)
    requires match job {
               case New(id) => id == j.s.next < s'.next
               case NewThrows => false
               case Use(h) => Usable(j, h)
               case Close(h) => Usable(j, h)
               case Collect(h) => Usable(j, h) && forall u :: u in j.jobs ==> !Through(j.jobs[u], h)
             }
    ensures Ok(Heap(s', j.w, j.jobs[t := job]), sys)
  {
    var j' := Heap(s', j.w, j.jobs[t := job]);
    forall u: Tid
      ensures ThreadJob(j', u, sys)
    {
      JobAt(j, sys, u);
      if u != t && u in j.jobs { OtherJob(j, t, job, u, j'); }
    }
    NewJobsDiffer(j, t, job, j', sys);
  }

  lemma {:induction false} OtherJob(j: Heap, t: Tid, job: Job, u: Tid, j': Heap)
    requires u in j.jobs && u != t && JobOk(j, u, j.jobs[u]) && j'.w == j.w && j'.s.next >= j.s.next
    requires j'.jobs == j.jobs[t := job]
    requires match job {
               case New(_) => true
               case NewThrows => true
               case Use(h) => Usable(j, h)
               case Close(h) => Usable(j, h)
               case Collect(h) => Usable(j, h)
             }
    ensures JobOk(j', u, j.jobs[u])
  {
  }

  lemma {:induction false} NewJobsDiffer(j: Heap, t: Tid, job: Job, j': Heap, sys: Subsystem)
    requires Ok(j, sys) && t !in j.jobs && (job.New? ==> job.id == j.s.next) && j'.jobs == j.jobs[t := job]
    ensures JobsDiffer(j')
  {
    forall u, v | u in j'.jobs && v in j'.jobs && u != v && j'.jobs[u].New?
      ensures j'.jobs[u] != j'.jobs[v]
    {
      JobAt(j, sys, u);
      JobAt(j, sys, v);
    }
  }

  /** A step that neither starts a job nor decides on one. */
  lemma {:induction false} KeepsJobs(j: Heap, t: Tid, s': State, sys: Subsystem)
    requires Ok(j, sys) && OneThread(j.s, t, s') && Settled(s', sys) == Settled(j.s, sys)
    requires Pending(s'.threads[t], sys) == Pending(j.s.threads[t], sys)
    ensures Ok(Heap(s', j.w, j.jobs), sys)
  {
    var j' := Heap(s', j.w, j.jobs);
    forall u: Tid
      ensures ThreadJob(j', u, sys)
    {
      JobAt(j, sys, u);
    }
  }

  lemma {:induction false} JobAllowed(j: Heap, t: Tid, sys: Subsystem)
    requires Ok(j, sys) && t in j.jobs
    ensures Handles.Allowed(j.w, j.jobs[t]) && Handles.Inv(Handles.Step(j.w, j.jobs[t]))
    ensures OpFor(j.w, j.jobs[t]).Some?
  {
    JobAt(j, sys, t);
    Handles.StepKeeps(j.w, j.jobs[t]);
  }

  /** The event in the life of the objects is the operation on the table. */
  lemma {:induction false} EventIsOp(w: Handles.World, job: Job)
    requires Handles.Allowed(w, job) && OpFor(w, job).Some?
    ensures Handles.Step(w, job).table == Effect(w.table, OpFor(w, job).value)
  {
  }

  /** It leaves the other objects alone. */
  lemma {:induction false} EventLeaves(w: Handles.World, job: Job, h: nat)
    requires Handles.Allowed(w, job) && h < |w.handles|
    ensures var w' := Handles.Step(w, job);
            && h < |w'.handles| && w'.handles[h].number == w.handles[h].number
            && (w'.handles[h].finalized <==> w.handles[h].finalized || job == Handles.Collect(h))
  {
  }

  lemma {:induction false} JobStays(j: Heap, t: Tid, u: Tid, j': Heap, sys: Subsystem)
    requires Ok(j, sys) && t in j.jobs && u in j.jobs && u != t
    requires Handles.Allowed(j.w, j.jobs[t]) && j'.w == Handles.Step(j.w, j.jobs[t])
    requires j'.jobs == j.jobs - {t} && j'.s.next >= j.s.next
    ensures JobOk(j', u, j.jobs[u]) && OpFor(j'.w, j.jobs[u]) == OpFor(j.w, j.jobs[u])
  {
    JobAt(j, sys, u);
    JobAt(j, sys, t);
    match j.jobs[u]
    case New(id) =>
    case NewThrows =>
    case Use(h) => EventLeaves(j.w, j.jobs[t], h); assert Through(j.jobs[u], h);
    case Close(h) => EventLeaves(j.w, j.jobs[t], h); assert Through(j.jobs[u], h);
    case Collect(h) => EventLeaves(j.w, j.jobs[t], h); assert Through(j.jobs[u], h);
  }

  /** A thread decides on its job. */
  lemma {:induction false} DecidesJob(j: Heap, t: Tid, s': State, sys: Subsystem)
    requires Ok(j, sys) && OneThread(j.s, t, s') && t in j.jobs && Handles.Allowed(j.w, j.jobs[t])
    requires OpFor(j.w, j.jobs[t]).Some? && Settled(s', sys) == Effect(Settled(j.s, sys), OpFor(j.w, j.jobs[t]).value)
    requires Pending(s'.threads[t], sys) == None
    ensures Ok(Heap(s', Handles.Step(j.w, j.jobs[t]), j.jobs - {t}), sys)
  {
    var j' := Heap(s', Handles.Step(j.w, j.jobs[t]), j.jobs - {t});
    JobAllowed(j, t, sys);
    EventIsOp(j.w, j.jobs[t]);
    JobAt(j, sys, t);
    forall u: Tid
      ensures ThreadJob(j', u, sys)
    {
      JobAt(j, sys, u);
      if u != t && u in j.jobs { JobStays(j, t, u, j', sys); }
    }
  }

  lemma {:induction false} StepOk(j: Heap, ow: Owners, t: Tid, a: Action, job: Option<Job>, sys: Subsystem)
    requires Ok(j, sys) && LockingInvariant.Inv(j.s, ow) && Lawful(j, t, a, job, sys)
    ensures Decides(j.s, t, a, sys).Some? ==> t in j.jobs && Handles.Allowed(j.w, j.jobs[t])
    ensures Ok(Next(j, t, a, job, sys), sys)
  {
    StepSettles(j.s, ow, t, a, sys);
    JobAt(j, sys, t);
    var s' := Do(j.s, t, a);
    match a
    case Start(x, op) =>
      StartPends(j.s, t, x, op, sys);
      if job.Some? { TakesJob(j, t, job.value, s', sys); } else { KeepsJobs(j, t, s', sys); }
    case CallAvNew =>
      CallAvPends(j.s, t, sys);
      if job.Some? { TakesJob(j, t, job.value, s', sys); } else { KeepsJobs(j, t, s', sys); }
    case Advance =>
      AdvancePends(j.s, t, sys);
      if Decides(j.s, t, a, sys).Some? {
        JobAllowed(j, t, sys);
        DecidesJob(j, t, s', sys);
      } else {
        KeepsJobs(j, t, s', sys);
      }
  }

  // ----- runs -----

  /** A step of a thread, with the job it takes on, if any. */
  type Move = (Tid, Action, Option<Job>)

  ghost predicate Run(j: Heap, moves: seq<Move>, j': Heap, sys: Subsystem)
    decreases |moves|
  {
    if moves == [] then j == j'
    else
      var (t, a, job) := moves[0];
      && Lawful(j, t, a, job, sys)
      && (Decides(j.s, t, a, sys).Some? ==> t in j.jobs && Handles.Allowed(j.w, j.jobs[t]))
      && Run(Next(j, t, a, job, sys), moves[1..], j', sys)
  }

  function Begin(threads: nat): Heap {
    Heap(Init(threads), Handles.START, map[])
  }

  lemma {:induction false} BeginOk(threads: nat, sys: Subsystem)
    ensures Ok(Begin(threads), sys)
  {
  }

  lemma {:induction false} RunOk(j: Heap, ow: Owners, moves: seq<Move>, j': Heap, sys: Subsystem) returns (ow': Owners)
    requires Ok(j, sys) && LockingInvariant.Inv(j.s, ow) && Run(j, moves, j', sys)
    ensures Ok(j', sys) && LockingInvariant.Inv(j'.s, ow')
    decreases |moves|
  {
    if moves == [] {
      ow' := ow;
    } else {
      var (t, a, job) := moves[0];
      StepOk(j, ow, t, a, job, sys);
      var ow1 := LockingInvariant.StepKeeps(j.s, ow, t, a);
      ow' := RunOk(Next(j, t, a, job, sys), ow1, moves[1..], j', sys);
    }
  }

  /** Whatever the rules of Java let a thread do next, the objects can follow: what the
      run relation asks of decisions is never missing. */
  lemma {:induction false} NeverStuck(threads: nat, moves: seq<Move>, j: Heap, sys: Subsystem,
                                      t: Tid, a: Action, job: Option<Job>)
    requires Run(Begin(threads), moves, j, sys) && Lawful(j, t, a, job, sys)
    ensures Decides(j.s, t, a, sys).Some? ==> t in j.jobs && Handles.Allowed(j.w, j.jobs[t])
  {
    BeginOk(threads, sys);
    InitOk(threads);
    var ow := RunOk(Begin(threads), map[], moves, j, sys);
    StepOk(j, ow, t, a, job, sys);
  }

  /** Threads that race for Java objects, each obeying the rules of Java: a thread that
      calls through an object and has the manager goes on to lock the instance of that
      very object while it is open, and fails as killed once it is closed. */
  lemma {:induction false} CallsFindTheirObject(threads: nat, moves: seq<Move>, j: Heap, sys: Subsystem, t: Tid)
    requires Run(Begin(threads), moves, j, sys)
    requires t < |j.s.threads| && t in j.jobs && j.jobs[t].Use?
    ensures j.jobs[t].h < |j.w.handles|
    ensures Pending(j.s.threads[t], sys) == Some(WithInstance(j.w.handles[j.jobs[t].h].number))
    ensures j.s.threads[t].InManager? ==>
              && CanAdvance(j.s, t)
              && var o := j.w.handles[j.jobs[t].h];
                 && Call(j.s.Mgr(sys).table, o.number) == (if o.closed then CallKilled else CallReaches(Live(o.id)))
                 && Do(j.s, t, Advance).threads[t] ==
                    if o.closed then Idle else AwaitInstance(sys, o.number, o.id)
  {
    BeginOk(threads, sys);
    InitOk(threads);
    var ow := RunOk(Begin(threads), map[], moves, j, sys);
    JobAt(j, sys, t);
    Handles.OwnInstance(j.w, j.jobs[t].h);
    if j.s.threads[t].InManager? { FindsInstance(j.s, ow, t, sys, j.w.handles[j.jobs[t].h].number); }
  }

  lemma {:induction false} FindsInstance(s: State, ow: Owners, t: Tid, sys: Subsystem, n: int)
    requires LockingInvariant.Inv(s, ow) && t < |s.threads| && s.threads[t] == InManager(sys, WithInstance(n))
    ensures Settled(s, sys) == s.Mgr(sys).table && CanAdvance(s, t)
    ensures var r := Call(s.Mgr(sys).table, n);
            Do(s, t, Advance).threads[t] ==
            if r.CallReaches? && r.tox.mutex.Some? then AwaitInstance(sys, n, r.tox.mutex.value)
            else if r.CallReaches? then Aborted
            else Idle
  {
    assert ThreadOk(s, t);
    assert HoldsMgr(s, t, sys);
  }

  /** And a thread that closes or collects an object and has the manager goes on to destroy
      the instance of that very object, unless somebody has closed it, and no number is
      ever set free twice. */
  lemma {:induction false} DestroysTheirObject(threads: nat, moves: seq<Move>, j: Heap, sys: Subsystem, t: Tid)
    requires Run(Begin(threads), moves, j, sys)
    requires t < |j.s.threads| && t in j.jobs && (j.jobs[t].Close? || j.jobs[t].Collect?)
    requires j.s.threads[t].InManager?
    ensures j.jobs[t].h < |j.w.handles| && CanAdvance(j.s, t)
    ensures var (o, table) := (j.w.handles[j.jobs[t].h], j.s.Mgr(sys).table);
            && (j.jobs[t].Close? ==>
                 Kill(table, o.number).1 == if o.closed then KillAlreadyDead else KillDying(Live(o.id)))
            && (j.jobs[t].Collect? ==>
                 Finalize(table, o.number).1 == if o.closed then FinalizeDead else FinalizeLeaked(Live(o.id)))
            && Do(j.s, t, Advance).threads[t] ==
               if o.closed then Idle else AwaitDying(sys, j.s.threads[t].op, Live(o.id))
  {
    BeginOk(threads, sys);
    InitOk(threads);
    var ow := RunOk(Begin(threads), map[], moves, j, sys);
    JobAt(j, sys, t);
    OwnIsDying(j, t, sys);
    if j.jobs[t].Close? {
      KillsInstance(j.s, ow, t, sys, j.w.handles[j.jobs[t].h].number);
    } else {
      FinalizesInstance(j.s, ow, t, sys, j.w.handles[j.jobs[t].h].number);
    }
  }

  /** What such a thread is about to do, as far as the objects are concerned. */
  lemma {:induction false} OwnIsDying(j: Heap, t: Tid, sys: Subsystem)
    requires Ok(j, sys) && t in j.jobs && (j.jobs[t].Close? || j.jobs[t].Collect?)
    ensures j.jobs[t].h < |j.w.handles|
    ensures var (o, table) := (j.w.handles[j.jobs[t].h], Settled(j.s, sys));
            && (j.jobs[t].Close? ==>
                 Kill(table, o.number).1 == if o.closed then KillAlreadyDead else KillDying(Live(o.id)))
            && (j.jobs[t].Collect? ==>
                 Finalize(table, o.number).1 == if o.closed then FinalizeDead else FinalizeLeaked(Live(o.id)))
  {
    JobAt(j, sys, t);
    Handles.OwnOutcomes(j.w, j.jobs[t].h);
  }

  lemma {:induction false} KillsInstance(s: State, ow: Owners, t: Tid, sys: Subsystem, n: int)
    requires LockingInvariant.Inv(s, ow) && t < |s.threads| && s.threads[t] == InManager(sys, KillOp(n))
    ensures Settled(s, sys) == s.Mgr(sys).table && CanAdvance(s, t)
    ensures Do(s, t, Advance).threads[t] ==
            match Kill(s.Mgr(sys).table, n).1
            case KillDying(d) => AwaitDying(sys, KillOp(n), d)
            case _ => Idle
  {
    assert ThreadOk(s, t);
    assert HoldsMgr(s, t, sys);
    KillRefines(s.Mgr(sys).table, n);
  }

  lemma {:induction false} FinalizesInstance(s: State, ow: Owners, t: Tid, sys: Subsystem, n: int)
    requires LockingInvariant.Inv(s, ow) && t < |s.threads| && s.threads[t] == InManager(sys, FinalizeOp(n))
    ensures Settled(s, sys) == s.Mgr(sys).table && CanAdvance(s, t)
    ensures Do(s, t, Advance).threads[t] ==
            match Finalize(s.Mgr(sys).table, n).1
            case FinalizeLeaked(d) => AwaitDying(sys, FinalizeOp(n), d)
            case _ => Idle
  {
    assert ThreadOk(s, t);
    assert HoldsMgr(s, t, sys);
    FinalizeRefines(s.Mgr(sys).table, n);
  }
}
