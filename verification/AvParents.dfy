/** An av instance keeps a pointer to the core instance it was made on, and uses it when
    it runs and when it is killed. Nothing in the source makes it outlive its av
    instances; this is when it does. */
module AvParents {
  import opened Wrappers
  import opened InstanceTable
  import opened Locking
  import opened LockingInvariant
  import opened LockingTheorems

  /** The core instance that each av instance was made on. */
  type Parents = map<Id, Id>

  function NextParents(s: State, p: Parents, t: Tid, a: Action): Parents
    requires Can(s, t, a)
  {
    if a == CallAvNew then p[s.next := s.threads[t].tox] else p
  }

  /** An av instance exists and its core instance has been freed. */
  ghost predicate Orphaned(s: State, p: Parents, child: Id) {
    child in p && child in s.toxes && p[child] !in s.toxes
  }

  ghost predicate AnyOrphan(s: State, p: Parents) {
    exists child :: Orphaned(s, p, child)
  }

  /** A kill or a finalize frees a core instance before an av instance that was made on it. */
  ghost predicate FreesParent(s: State, p: Parents, t: Tid, a: Action)
    requires Can(s, t, a)
  {
    && a == Advance && s.threads[t].DyingUnlocked?
    && (s.threads[t].op.KillOp? || s.threads[t].op.FinalizeOp?)
    && exists child :: child in p && child in s.toxes && s.threads[t].dying == Live(p[child])
  }

  /** Children are younger than their parents. */
  ghost predicate ParentsOk(s: State, p: Parents) {
    forall child :: child in p ==> p[child] < child < s.next
  }

  // ----- one step -----

  lemma {:induction false} AdvanceToxes(s: State, t: Tid)
    requires CanAdvance(s, t) && ThreadOk(s, t)
    ensures var s' := Do(s, t, Advance);
            && s'.next == s.next
            && s'.toxes == if s.threads[t].DyingUnlocked? && s'.threads[t] != Aborted
                           then s.toxes - {s.threads[t].dying.tox.value} else s.toxes
  {
  }

  lemma {:induction false} ToxesAfter(s: State, t: Tid, a: Action)
    requires Can(s, t, a) && ThreadOk(s, t)
    ensures var s' := Do(s, t, a);
            && s'.next >= s.next
            && (forall id :: id in s'.toxes ==> id in s.toxes || id == s.next)
            && (forall id :: id in s.toxes && id !in s'.toxes ==>
                  a == Advance && s.threads[t].DyingUnlocked? && s.threads[t].dying == Live(id))
            && (a == CallAvNew ==> s'.toxes == s.toxes + {s.next} && s'.next > s.next)
  {
    if a == Advance { AdvanceToxes(s, t); }
  }

  lemma {:induction false} StepOrphans(s: State, w: Owners, p: Parents, t: Tid, a: Action)
    requires Inv(s, w) && Can(s, t, a) && ParentsOk(s, p) && !AnyOrphan(s, p)
    ensures ParentsOk(Do(s, t, a), NextParents(s, p, t, a))
    ensures AnyOrphan(Do(s, t, a), NextParents(s, p, t, a)) <==> FreesParent(s, p, t, a)
  {
    assert ThreadOk(s, t);
    ToxesAfter(s, t, a);
    if a == CallAvNew { CallerExists(s, w, t); }
    if FreesParent(s, p, t, a) { MakesOrphan(s, w, p, t); }
    if AnyOrphan(Do(s, t, a), NextParents(s, p, t, a)) {
      var child :| Orphaned(Do(s, t, a), NextParents(s, p, t, a), child);
      NewOrphan(s, w, p, t, a, child);
    }
  }

  lemma {:induction false} MakesOrphan(s: State, w: Owners, p: Parents, t: Tid)
    requires Inv(s, w) && Can(s, t, Advance) && ParentsOk(s, p) && FreesParent(s, p, t, Advance)
    ensures AnyOrphan(Do(s, t, Advance), p)
  {
    assert ThreadOk(s, t);
    var child :| child in p && child in s.toxes && s.threads[t].dying == Live(p[child]);
    FreesOne(s, w, t);
    assert Orphaned(Do(s, t, Advance), p, child);
  }

  lemma {:induction false} FreesOne(s: State, w: Owners, t: Tid)
    requires Inv(s, w) && Can(s, t, Advance) && s.threads[t].DyingUnlocked?
    ensures s.threads[t].dying.tox.Some? && Do(s, t, Advance).toxes == s.toxes - {s.threads[t].dying.tox.value}
  {
    assert ThreadOk(s, t);
    assert Owned(s, ByThread(t)) == s.threads[t].dying.tox;
  }

  /** A running core function has its tox under it. */
  lemma {:induction false} CallerExists(s: State, w: Owners, t: Tid)
    requires Inv(s, w) && Can(s, t, CallAvNew)
    ensures s.threads[t].tox in s.toxes && s.threads[t].tox < s.next
  {
    assert ThreadOk(s, t);
    assert HoldsMutex(s.threads[t], s.threads[t].mutex);
    assert HoldsIt(s, t, s.threads[t].mutex);
  }

  lemma {:induction false} NewOrphan(s: State, w: Owners, p: Parents, t: Tid, a: Action, child: Id)
    requires Inv(s, w) && Can(s, t, a) && ParentsOk(s, p) && !AnyOrphan(s, p)
    requires Orphaned(Do(s, t, a), NextParents(s, p, t, a), child)
    ensures FreesParent(s, p, t, a)
  {
    assert ThreadOk(s, t);
    ToxesAfter(s, t, a);
    if a == CallAvNew { CallerExists(s, w, t); }
    assert child in p && child in s.toxes;
    assert !Orphaned(s, p, child);
    assert s.threads[t].dying == Live(p[child]);
  }

  // ----- runs -----

  ghost predicate EverOrphan(s: State, p: Parents, steps: seq<(Tid, Action)>)
    decreases |steps|
  {
    AnyOrphan(s, p) ||
    (steps != [] && Can(s, steps[0].0, steps[0].1) &&
     EverOrphan(Do(s, steps[0].0, steps[0].1), NextParents(s, p, steps[0].0, steps[0].1), steps[1..]))
  }

  ghost predicate EverFreesParent(s: State, p: Parents, steps: seq<(Tid, Action)>)
    decreases |steps|
  {
    steps != [] && Can(s, steps[0].0, steps[0].1) &&
    (FreesParent(s, p, steps[0].0, steps[0].1) ||
     EverFreesParent(Do(s, steps[0].0, steps[0].1), NextParents(s, p, steps[0].0, steps[0].1), steps[1..]))
  }

  lemma {:induction false} RunOrphans(s: State, w: Owners, p: Parents, steps: seq<(Tid, Action)>, s': State)
    requires Inv(s, w) && ParentsOk(s, p) && !AnyOrphan(s, p) && Run(s, steps, s')
    ensures EverOrphan(s, p, steps) <==> EverFreesParent(s, p, steps)
    decreases |steps|
  {
    if steps != [] {
      var (t, a) := steps[0];
      StepOrphans(s, w, p, t, a);
      var w1 := LockingInvariant.StepKeeps(s, w, t, a);
      if !FreesParent(s, p, t, a) {
        RunOrphans(Do(s, t, a), w1, NextParents(s, p, t, a), steps[1..], s');
      }
    }
  }

  /** In a run an av instance ever exists without its core instance if and only if some kill
      or finalize frees a core instance before an av instance that was made on it. */
  lemma {:induction false} OrphansAreMade(threads: nat, steps: seq<(Tid, Action)>, s: State)
    requires Run(Init(threads), steps, s)
    ensures EverOrphan(Init(threads), map[], steps) <==> EverFreesParent(Init(threads), map[], steps)
  {
    InitOk(threads);
    RunOrphans(Init(threads), map[], map[], steps, s);
  }

  ghost function ParentsAfter(s: State, p: Parents, steps: seq<(Tid, Action)>): Parents
    decreases |steps|
  {
    if steps == [] || !Can(s, steps[0].0, steps[0].1) then p
    else ParentsAfter(Do(s, steps[0].0, steps[0].1), NextParents(s, p, steps[0].0, steps[0].1), steps[1..])
  }

  lemma {:induction false} OrphanAtEnd(s: State, p: Parents, steps: seq<(Tid, Action)>, s': State)
    requires Run(s, steps, s')
    ensures AnyOrphan(s', ParentsAfter(s, p, steps)) ==> EverOrphan(s, p, steps)
    decreases |steps|
  {
    if steps != [] {
      OrphanAtEnd(Do(s, steps[0].0, steps[0].1), NextParents(s, p, steps[0].0, steps[0].1), steps[1..], s');
    }
  }

  /** So when no core instance is freed before its av instances, a running function of an
      av instance always has the core instance under it. */
  lemma {:induction false} RunningHasItsCore(threads: nat, steps: seq<(Tid, Action)>, s: State, t: Tid)
    requires Run(Init(threads), steps, s) && !EverFreesParent(Init(threads), map[], steps)
    requires t < |s.threads| && InFunction(s.threads[t])
    ensures var p := ParentsAfter(Init(threads), map[], steps);
            s.threads[t].tox in p ==> p[s.threads[t].tox] in s.toxes
  {
    OrphansAreMade(threads, steps, s);
    OrphanAtEnd(Init(threads), map[], steps, s);
    RunningIsExclusive(threads, steps, s, t);
    var p := ParentsAfter(Init(threads), map[], steps);
    assert !Orphaned(s, p, s.threads[t].tox);
  }
}
