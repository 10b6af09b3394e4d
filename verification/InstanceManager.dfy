/** `ToxInstances.h` in its own form: instances that are moved between objects in
    place, and the manager with its two vectors. Each method does to the objects
    what the function of the same name in `InstanceTable` does to the table; the
    `assert`s in the bodies are the source's. Locking is the subject of `Locking`. */
module InstanceManager {
  import opened Wrappers
  import Spec = InstanceTable

  type Id = Spec.Id

  class ToxInstance {
    var live: bool
    var tox: Option<Id>
    var events: Option<Id>
    var mutex: Option<Id>

    function View(): Spec.Slot
      reads this
    {
      Spec.Slot(live, tox, events, mutex)
    }

    predicate AssertValid()
      reads this
    {
      Spec.AssertValid(View())
    }

    /** A new instance around three objects just created. */
    constructor (tox: Id, events: Id, mutex: Id)
      ensures View() == Spec.Slot(true, Some(tox), Some(events), Some(mutex)) && AssertValid()
    {
      this.live := true;
      this.tox, this.events, this.mutex := Some(tox), Some(events), Some(mutex);
    }

    /** Move construction: the right-hand side is DEAD afterwards. */
    constructor Move(rhs: ToxInstance)
      requires rhs.AssertValid()
      modifies rhs
      ensures View() == old(rhs.View())
      ensures rhs.View() == Spec.DEAD
    {
      live := rhs.live;
      tox, events, mutex := rhs.tox, rhs.events, rhs.mutex;
      new;
      rhs.tox, rhs.events, rhs.mutex := None, None, None;
      rhs.live := false;
      assert AssertValid();
      assert rhs.AssertValid();
    }

    /** Move assignment to a DEAD object, which is then live again. */
    method Assign(rhs: ToxInstance)
      requires this != rhs
      requires !live && rhs.live && AssertValid() && rhs.AssertValid()
      modifies this, rhs
      ensures View() == old(rhs.View())
      ensures rhs.View() == Spec.DEAD
    {
      tox, rhs.tox := rhs.tox, None;
      events, rhs.events := rhs.events, None;
      mutex, rhs.mutex := rhs.mutex, None;
      rhs.live := false;
      live := true;
      assert AssertValid();
      assert rhs.AssertValid();
    }
  }

  class Manager {
    var instances: seq<ToxInstance>
    var freelist: seq<int>

    /** The slots of the vector are different objects. */
    ghost predicate Distinct()
      reads this
    {
      forall i, j :: 0 <= i < j < |instances| ==> instances[i] != instances[j]
    }

    function View(): Spec.Table
      reads this, instances
    {
      var slots := seq(|instances|, i requires 0 <= i < |instances| reads this, instances => instances[i].View());
      Spec.Table(slots, freelist)
    }

    ghost predicate Valid()
      reads this, instances
    {
      Distinct() && Spec.Valid(View())
    }

    constructor ()
      ensures Valid() && View() == Spec.EMPTY && instances == []
    {
      instances, freelist := [], [];
    }

    predicate IsValid(n: int)
      reads this
    {
      n > 0 && n <= |instances|
    }

    method Add(instance: ToxInstance, ghost id: Id) returns (n: int)
      requires Valid() && instance !in instances
      requires instance.View() == Spec.Live(id) && Spec.FreshId(View(), id)
      modifies this, instances, instance
      ensures Valid()
      ensures Spec.AddAsserts(old(View()), Spec.Live(id))
      ensures (View(), n) == Spec.Add(old(View()), Spec.Live(id))
      ensures instance.View() == Spec.DEAD
      ensures forall o :: o in instances ==> o in old(instances) || fresh(o)
    {
      ghost var before := View();
      Spec.AddRefines(before, id);
      if freelist != [] {
        n := freelist[|freelist| - 1];
        assert before.freelist == freelist && before.InRange(n);
        assert n >= 1;
        freelist := freelist[..|freelist| - 1];
        assert before.At(n) == instances[n - 1].View();
        assert !instances[n - 1].live;
        instances[n - 1].Assign(instance);
        assert instances[n - 1].live;
      } else {
        var moved := new ToxInstance.Move(instance);
        instances := instances + [moved];
        n := |instances|;
      }
      assert View() == Spec.Add(before, Spec.Live(id)).0;
    }

    /** `remove`, into a local object. */
    method Remove(n: int) returns (dying: ToxInstance)
      requires Valid() && IsValid(n)
      modifies instances[n - 1]
      ensures fresh(dying)
      ensures dying.View() == old(View()).At(n)
      ensures View() == old(View()).MoveOut(n) && Valid()
    {
      ghost var before := View();
      assert before.At(n) == instances[n - 1].View();
      dying := new ToxInstance.Move(instances[n - 1]);
      assert View() == before.MoveOut(n);
      Spec.MoveOutKeeps(before, n);
    }

    method Kill(n: int) returns (r: Spec.KillOutcome)
      requires Valid()
      modifies instances
      ensures Valid()
      ensures (View(), r) == Spec.Kill(old(View()), n)
    {
      if n < 0 {
        return Spec.KillOutOfRange;
      }
      if !IsValid(n) {
        return Spec.KillInvalid;
      }
      var dying := Remove(n);
      if dying.tox == None {
        return Spec.KillAlreadyDead;
      }
      assert dying.live;
      assert dying.AssertValid();
      assert dying.mutex != None;  // locked, then unlocked, before dying is destroyed
      return Spec.KillDying(dying.View());
    }

    method Finalize(n: int) returns (r: Spec.FinalizeOutcome)
      requires Valid()
      modifies this`freelist, instances
      ensures Valid()
      ensures r == Spec.Finalize(old(View()), n).1
      ensures View() == Spec.Finalized(old(View()), n)
    {
      ghost var before := View();
      Spec.FinalizeRefines(before, n);
      if n == 0 {
        return Spec.FinalizeIncomplete;
      }
      if instances == [] {
        return Spec.FinalizeEmpty;
      }
      if !IsValid(n) {
        return Spec.FinalizeOutOfRange;
      }
      if n in freelist {
        return Spec.FinalizeTwice;
      }
      r := Spec.FinalizeDead;
      assert before.At(n) == instances[n - 1].View();
      if instances[n - 1].live {
        var dying := Remove(n);
        assert dying.live;
        assert dying.AssertValid();
        assert dying.mutex != None;
        r := Spec.FinalizeLeaked(dying.View());
      }
      assert View().At(n) == Spec.DEAD;
      assert !instances[n - 1].live;
      freelist := freelist + [n];
      assert View() == Spec.Finalized(before, n);
    }

    /** What `with_instance` finds under the manager lock. */
    method Lookup(n: int) returns (r: Spec.CallOutcome)
      requires Valid()
      ensures r == Spec.Call(View(), n)
      ensures r.CallReaches? <==> n in Spec.Reach(View())
      ensures r.CallReaches? ==> r.tox == Spec.Reach(View())[n]
    {
      Spec.CallRefines(View(), n);
      if n == 0 {
        return Spec.CallIncomplete;
      }
      if !IsValid(n) {
        return Spec.CallInvalid;
      }
      assert View().At(n) == instances[n - 1].View();
      if !instances[n - 1].live {
        return Spec.CallKilled;
      }
      assert instances[n - 1].mutex != None && instances[n - 1].events != None;
      return Spec.CallReaches(instances[n - 1].View());
    }
  }
}
