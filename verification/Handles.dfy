/** Runs of Java objects over one instance manager: each object is built by
    `toxNew`, used and closed any number of times, and finalized once, by the
    garbage collector, when nothing refers to it any more. Numbers are reused. */
module Handles {
  import opened InstanceTable

  /** A Java object: the number it keeps for ever, 0 when its constructor threw. */
  datatype Handle = Handle(number: int, id: Id, closed: bool, finalized: bool) {
    predicate Open() {
      number != 0 && !closed && !finalized
    }
  }

  /** The table, the objects, and the instances made so far. */
  datatype World = World(table: Table, handles: seq<Handle>, made: set<Id>)

  const START := World(EMPTY, [], {})

  datatype Event =
    | New(id: Id)     // a constructor that succeeds
    | NewThrows       // a constructor that throws
    | Use(h: nat)     // any other call
    | Close(h: nat)
    | Collect(h: nat) // the garbage collector calls finalize

  /** Java guarantees that only objects that exist and are not yet finalized are used;
      an instance is made for one object. */
  predicate Allowed(w: World, e: Event) {
    match e
    case New(id) => AddAsserts(w.table, Live(id)) && id !in w.made
    case NewThrows => true
    case Use(h) => h < |w.handles| && !w.handles[h].finalized
    case Close(h) => h < |w.handles| && !w.handles[h].finalized
    case Collect(h) => h < |w.handles| && !w.handles[h].finalized
  }

  function Step(w: World, e: Event): World
    requires Allowed(w, e)
  {
    match e
    case New(id) =>
      var (t, n) := Add(w.table, Live(id));
      World(t, w.handles + [Handle(n, id, false, false)], w.made + {id})
    case NewThrows => w.(handles := w.handles + [Handle(0, 0, false, false)])
    case Use(h) => w
    case Close(h) =>
      w.(table := Kill(w.table, w.handles[h].number).0,
         handles := w.handles[h := w.handles[h].(closed := true)])
    case Collect(h) =>
      w.(table := Finalized(w.table, w.handles[h].number),
         handles := w.handles[h := w.handles[h].(finalized := true)])
  }

  /** Only the Java side restricts a run; the assertions of `add` are not assumed. */
  predicate JavaAllows(w: World, e: Event) {
    if e.New? then e.id !in w.made else Allowed(w, e)
  }

  ghost predicate Run(w: World, events: seq<Event>, w': World)
    decreases |events|
  {
    if events == [] then w == w'
    else JavaAllows(w, events[0]) && Allowed(w, events[0]) && Run(Step(w, events[0]), events[1..], w')
  }

  /** Whoever is not finalized owns its slot, and nobody else does. */
  ghost predicate Owns(w: World, h: nat)
    requires h < |w.handles|
  {
    var o := w.handles[h];
    o.number != 0 && !o.finalized ==>
      && w.table.InRange(o.number) && !w.table.IsFree(o.number)
      && w.table.At(o.number) == if o.closed then DEAD else Live(o.id)
  }

  ghost predicate Distinct(w: World, h: nat, k: nat)
    requires h < |w.handles| && k < |w.handles|
  {
    var o, p := w.handles[h], w.handles[k];
    h != k && o.number != 0 && !o.finalized && !p.finalized ==> o.number != p.number
  }

  ghost predicate Used(w: World, n: int) {
    exists h :: 0 <= h < |w.handles| && w.handles[h].number == n && !w.handles[h].finalized
  }

  ghost predicate Inv(w: World) {
    && Valid(w.table)
    && (forall i :: 0 <= i < |w.table.slots| && w.table.slots[i].live ==> w.table.slots[i].tox.value in w.made)
    && (forall h :: 0 <= h < |w.handles| ==> Owns(w, h))
    && (forall h, k :: 0 <= h < |w.handles| && 0 <= k < |w.handles| ==> Distinct(w, h, k))
    && (forall n :: w.table.InRange(n) && !w.table.IsFree(n) ==> Used(w, n))
  }

  lemma {:induction false} NewKeeps(w: World, id: Id)
    requires Inv(w) && id !in w.made
    ensures Allowed(w, New(id)) && Inv(Step(w, New(id)))
  {
    AddRefines(w.table, id);
    var w' := Step(w, New(id));
    var n := w'.handles[|w.handles|].number;
    forall h | 0 <= h < |w.handles|
      ensures Owns(w', h) && (!w.handles[h].finalized ==> w.handles[h].number != n)
    {
      assert Owns(w, h);
    }
    forall h, k | 0 <= h < |w'.handles| && 0 <= k < |w'.handles|
      ensures Distinct(w', h, k)
    {
      if h < |w.handles| && k < |w.handles| { assert Distinct(w, h, k); }
    }
    forall m | w'.table.InRange(m) && !w'.table.IsFree(m)
      ensures Used(w', m)
    {
      if m == n {
        assert w'.handles[|w.handles|].number == m;
      } else {
        assert w.table.InRange(m) && StatusOf(w'.table, m) == StatusOf(w.table, m);
        assert Used(w, m);
        var h :| 0 <= h < |w.handles| && w.handles[h].number == m && !w.handles[h].finalized;
        assert w'.handles[h] == w.handles[h];
      }
    }
  }

  lemma {:induction false} NewThrowsKeeps(w: World)
    requires Inv(w)
    ensures Inv(Step(w, NewThrows))
  {
    var w' := Step(w, NewThrows);
    forall h | 0 <= h < |w.handles|
      ensures Owns(w', h)
    {
      assert Owns(w, h);
    }
    forall h, k | 0 <= h < |w'.handles| && 0 <= k < |w'.handles|
      ensures Distinct(w', h, k)
    {
      if h < |w.handles| && k < |w.handles| { assert Distinct(w, h, k); }
    }
    UsedStays(w, w');
  }

  /** Handles that keep their number and stay unfinalized keep using it. */
  lemma {:induction false} UsedStays(w: World, w': World)
    requires |w.handles| <= |w'.handles|
    requires forall h :: 0 <= h < |w.handles| ==> w'.handles[h].number == w.handles[h].number
    requires forall h :: 0 <= h < |w.handles| ==> w'.handles[h].finalized == w.handles[h].finalized
    ensures forall n :: Used(w, n) ==> Used(w', n)
  {
    forall n | Used(w, n)
      ensures Used(w', n)
    {
      var h :| 0 <= h < |w.handles| && w.handles[h].number == n && !w.handles[h].finalized;
      assert w'.handles[h].number == n;
    }
  }

  lemma {:induction false} CloseKeeps(w: World, h: nat)
    requires Inv(w) && Allowed(w, Close(h))
    ensures Inv(Step(w, Close(h)))
  {
    var n := w.handles[h].number;
    var w' := Step(w, Close(h));
    KillRefines(w.table, n);
    assert Owns(w, h);
    forall k | 0 <= k < |w.handles|
      ensures Owns(w', k)
    {
      assert Owns(w, k) && Distinct(w, k, h);
    }
    forall k, l | 0 <= k < |w.handles| && 0 <= l < |w.handles|
      ensures Distinct(w', k, l)
    {
      assert Distinct(w, k, l);
    }
    UsedStays(w, w');
  }

  lemma {:induction false} CollectKeeps(w: World, h: nat)
    requires Inv(w) && Allowed(w, Collect(h))
    ensures Inv(Step(w, Collect(h)))
  {
    var n := w.handles[h].number;
    var w' := Step(w, Collect(h));
    FinalizeRefines(w.table, n);
    assert Owns(w, h);
    forall k | 0 <= k < |w.handles|
      ensures Owns(w', k)
    {
      assert Owns(w, k) && Distinct(w, k, h);
      var m := w.handles[k].number;
      if m != n && m != 0 && !w.handles[k].finalized {
        assert StatusOf(w'.table, m) == StatusOf(w.table, m);
      }
    }
    forall k, l | 0 <= k < |w.handles| && 0 <= l < |w.handles|
      ensures Distinct(w', k, l)
    {
      assert Distinct(w, k, l);
    }
    forall m | w'.table.InRange(m) && !w'.table.IsFree(m)
      ensures Used(w', m)
    {
      assert m != n;
      assert StatusOf(w'.table, m) == StatusOf(w.table, m);
      assert Used(w, m);
      var k :| 0 <= k < |w.handles| && w.handles[k].number == m && !w.handles[k].finalized;
      assert w'.handles[k] == w.handles[k];
    }
  }

  lemma {:induction false} StepKeeps(w: World, e: Event)
    requires Inv(w) && JavaAllows(w, e)
    ensures Allowed(w, e) && Inv(Step(w, e))
  {
    match e
    case New(id) => NewKeeps(w, id);
    case NewThrows => NewThrowsKeeps(w);
    case Use(_) =>
    case Close(h) => CloseKeeps(w, h);
    case Collect(h) => CollectKeeps(w, h);
  }

  lemma {:induction false} RunKeeps(w: World, events: seq<Event>, w': World)
    requires Inv(w) && Run(w, events, w')
    ensures Inv(w')
    decreases |events|
  {
    if events != [] {
      StepKeeps(w, events[0]);
      RunKeeps(Step(w, events[0]), events[1..], w');
    }
  }

  /** A run never gets stuck on an assertion: whatever Java may do next, it can. */
  lemma {:induction false} NeverStuck(events: seq<Event>, w: World, e: Event)
    requires Run(START, events, w) && JavaAllows(w, e)
    ensures Allowed(w, e)
  {
    RunKeeps(START, events, w);
    StepKeeps(w, e);
  }

  /** No two unfinalized objects share a number, and a call through an object finds
      its own instance while it is open and fails as killed ever after, whatever
      was created, closed or collected in between. */
  lemma {:induction false} HandleIsFaithful(events: seq<Event>, w: World, h: nat)
    requires Run(START, events, w) && h < |w.handles| && !w.handles[h].finalized
    ensures Call(w.table, w.handles[h].number) ==
            if w.handles[h].number == 0 then CallIncomplete
            else if w.handles[h].closed then CallKilled
            else CallReaches(Live(w.handles[h].id))
    ensures forall k :: 0 <= k < |w.handles| && k != h && !w.handles[k].finalized && w.handles[h].number != 0
              ==> w.handles[k].number != w.handles[h].number
  {
    RunKeeps(START, events, w);
    OwnInstance(w, h);
    forall k | 0 <= k < |w.handles| && k != h && !w.handles[k].finalized && w.handles[h].number != 0
      ensures w.handles[k].number != w.handles[h].number
    {
      assert Distinct(w, h, k);
    }
  }

  lemma {:induction false} OwnInstance(w: World, h: nat)
    requires Inv(w) && h < |w.handles| && !w.handles[h].finalized
    ensures Call(w.table, w.handles[h].number) ==
            if w.handles[h].number == 0 then CallIncomplete
            else if w.handles[h].closed then CallKilled
            else CallReaches(Live(w.handles[h].id))
  {
    assert Owns(w, h);
  }

  /** Closing an object destroys its own instance the first time and says nothing ever
      after; collecting it sets its number free, and destroys its instance if nobody has
      closed it. Neither raises, but for the close of an object that never had a number. */
  lemma {:induction false} CloseAndCollect(events: seq<Event>, w: World, h: nat)
    requires Run(START, events, w) && h < |w.handles| && !w.handles[h].finalized
    ensures Kill(w.table, w.handles[h].number).1 ==
            if w.handles[h].number == 0 then KillInvalid
            else if w.handles[h].closed then KillAlreadyDead
            else KillDying(Live(w.handles[h].id))
    ensures Finalize(w.table, w.handles[h].number).1 ==
            if w.handles[h].number == 0 then FinalizeIncomplete
            else if w.handles[h].closed then FinalizeDead
            else FinalizeLeaked(Live(w.handles[h].id))
  {
    RunKeeps(START, events, w);
    OwnOutcomes(w, h);
  }

  lemma {:induction false} OwnOutcomes(w: World, h: nat)
    requires Inv(w) && h < |w.handles| && !w.handles[h].finalized
    ensures Kill(w.table, w.handles[h].number).1 ==
            if w.handles[h].number == 0 then KillInvalid
            else if w.handles[h].closed then KillAlreadyDead
            else KillDying(Live(w.handles[h].id))
    ensures Finalize(w.table, w.handles[h].number).1 ==
            if w.handles[h].number == 0 then FinalizeIncomplete
            else if w.handles[h].closed then FinalizeDead
            else FinalizeLeaked(Live(w.handles[h].id))
  {
    assert Owns(w, h);
  }

  /** The manager holds no instance but those of open objects: what a number
      reaches belongs to exactly one of them. */
  lemma {:induction false} NothingLeaks(events: seq<Event>, w: World, n: int)
    requires Run(START, events, w)
    ensures n in Reach(w.table) <==>
            exists h :: 0 <= h < |w.handles| && w.handles[h].Open() && w.handles[h].number == n
  {
    RunKeeps(START, events, w);
    if n in Reach(w.table) {
      assert w.table.InRange(n) && !w.table.IsFree(n);
      assert Used(w, n);
      var h :| 0 <= h < |w.handles| && w.handles[h].number == n && !w.handles[h].finalized;
      assert Owns(w, h);
      assert w.handles[h].Open();
    }
    forall h | 0 <= h < |w.handles| && w.handles[h].Open() && w.handles[h].number == n
      ensures n in Reach(w.table)
    {
      assert Owns(w, h);
    }
  }
}
