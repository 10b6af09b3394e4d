/** The table of tox instances as a value: what `ToxInstances.h` does to its
    `instances` and `freelist` vectors in one critical section.

    The heap objects of the k-th instance ever created are named k: a pointer is
    `Some(k)` and `nullptr` is `None`. The three pointers of a slot are separate
    fields, so that moving or dropping only some of them would show. */
module InstanceTable {
  import opened Wrappers

  type Id = nat

  datatype Slot = Slot(live: bool, tox: Option<Id>, events: Option<Id>, mutex: Option<Id>)

  const DEAD := Slot(false, None, None, None)

  function Live(id: Id): Slot {
    Slot(true, Some(id), Some(id), Some(id))
  }

  /** `assertValid`. */
  predicate AssertValid(s: Slot): (valid: bool)
    ensures valid <==> s == DEAD || (s.live && s.tox.Some? && s.events.Some? && s.mutex.Some?)
  {
    if s.live then s.tox.Some? && s.events.Some? && s.mutex.Some?
    else s == DEAD
  }

  datatype Table = Table(slots: seq<Slot>, freelist: seq<int>) {

    /** `isValid`. */
    predicate InRange(n: int) {
      n > 0 && n <= |slots|
    }

    function At(n: int): Slot
      requires InRange(n)
    {
      slots[n - 1]
    }

    /** `isFree`. */
    predicate IsFree(n: int) {
      n in freelist
    }

    /** `remove`: the move leaves a DEAD object behind. */
    function MoveOut(n: int): Table
      requires InRange(n)
    {
      this.(slots := slots[n - 1 := DEAD])
    }

    function SetFree(n: int): Table {
      this.(freelist := freelist + [n])
    }
  }

  const EMPTY := Table([], [])

  // ----- the operations -----

  /** The assertions of `add` and of the move assignment it performs. */
  predicate AddAsserts(t: Table, s: Slot): (holds: bool)
    ensures var n := |t.freelist|;
            holds <==> n == 0 || (0 < t.freelist[n - 1] <= |t.slots| && t.slots[t.freelist[n - 1] - 1] == DEAD
                                  && s.live && s.tox.Some? && s.events.Some? && s.mutex.Some?)
  {
    if t.freelist == [] then true
    else
      var n := t.freelist[|t.freelist| - 1];
      t.InRange(n) && !t.At(n).live && AssertValid(t.At(n)) && s.live && AssertValid(s)
  }

  function Add(t: Table, s: Slot): (r: (Table, int))
    requires AddAsserts(t, s)
  {
    if t.freelist != [] then
      var n := t.freelist[|t.freelist| - 1];
      (Table(t.slots[n - 1 := s], t.freelist[..|t.freelist| - 1]), n)
    else
      (t.(slots := t.slots + [s]), |t.slots| + 1)
  }

  datatype KillOutcome =
    | KillOutOfRange          // IllegalStateException
    | KillInvalid             // ToxKilledException
    | KillAlreadyDead         // returns silently
    | KillDying(dying: Slot)  // moved out, still to be destroyed

  function Kill(t: Table, n: int): (Table, KillOutcome) {
    if n < 0 then (t, KillOutOfRange)
    else if !t.InRange(n) then (t, KillInvalid)
    else if t.At(n).tox == None then (t.MoveOut(n), KillAlreadyDead)
    else (t.MoveOut(n), KillDying(t.At(n)))
  }

  datatype FinalizeOutcome =
    | FinalizeIncomplete          // number 0, nothing to do
    | FinalizeEmpty               // the other three raise IllegalStateException
    | FinalizeOutOfRange
    | FinalizeTwice
    | FinalizeDead                // already killed; the number is free again
    | FinalizeLeaked(dying: Slot) // moved out, still to be destroyed, then set free

  function Finalize(t: Table, n: int): (Table, FinalizeOutcome) {
    if n == 0 then (t, FinalizeIncomplete)
    else if t.slots == [] then (t, FinalizeEmpty)
    else if !t.InRange(n) then (t, FinalizeOutOfRange)
    else if t.IsFree(n) then (t, FinalizeTwice)
    else if t.At(n).live then (t.MoveOut(n), FinalizeLeaked(t.At(n)))
    else (t.SetFree(n), FinalizeDead)
  }

  datatype CallOutcome =
    | CallIncomplete    // number 0: IllegalStateException
    | CallInvalid       // ToxKilledException
    | CallKilled        // ToxKilledException
    | CallReaches(tox: Slot)

  /** The checks of `with_instance` before it takes the instance lock. */
  function Call(t: Table, n: int): CallOutcome {
    if n == 0 then CallIncomplete
    else if !t.InRange(n) then CallInvalid
    else if !t.At(n).live then CallKilled
    else CallReaches(t.At(n))
  }

  // ----- the invariant -----

  /** Every slot is valid, no live slot shares a pointer with another, and the free
      list holds distinct numbers of dead slots. */
  ghost predicate Valid(t: Table) {
    && (forall i :: 0 <= i < |t.slots| ==> AssertValid(t.slots[i]))
    && (forall i :: 0 <= i < |t.slots| && t.slots[i].live ==> t.slots[i] == Live(t.slots[i].tox.value))
    && (forall i, j :: 0 <= i < j < |t.slots| && t.slots[i].live ==> t.slots[i] != t.slots[j])
    && (forall k :: 0 <= k < |t.freelist| ==> t.InRange(t.freelist[k]) && !t.At(t.freelist[k]).live)
    && (forall k, l :: 0 <= k < l < |t.freelist| ==> t.freelist[k] != t.freelist[l])
  }

  /** A slot is exactly one of LIVE, DEAD and COLLECTED. */
  datatype Status = LIVE | DEAD_SLOT | COLLECTED

  function StatusOf(t: Table, n: int): Status
    requires t.InRange(n)
  {
    if t.IsFree(n) then COLLECTED else if t.At(n).live then LIVE else DEAD_SLOT
  }

  /** The abstract value: which number reaches which instance. */
  ghost function Reach(t: Table): map<int, Slot> {
    map n | 1 <= n <= |t.slots| && t.At(n).live :: t.At(n)
  }

  ghost predicate FreshId(t: Table, id: Id) {
    forall i :: 0 <= i < |t.slots| ==> t.slots[i] != Live(id)
  }

  // ----- what the operations keep and do -----

  /** The free list loses its last number, and that number's dead slot is used again. */
  lemma {:induction false} AddReuses(t: Table, id: Id)
    requires Valid(t) && FreshId(t, id) && t.freelist != []
    ensures AddAsserts(t, Live(id))
    ensures var (t', n) := Add(t, Live(id));
            && Valid(t') && t.freelist == t'.freelist + [n] && n !in t'.freelist
            && t.InRange(n) && !t.At(n).live && t'.slots == t.slots[n - 1 := Live(id)]
  {
    var (t', n) := Add(t, Live(id));
    assert t.freelist == t'.freelist + [n];
  }

  lemma {:induction false} AddGrows(t: Table, id: Id)
    requires Valid(t) && FreshId(t, id) && t.freelist == []
    ensures AddAsserts(t, Live(id))
    ensures var (t', n) := Add(t, Live(id));
            && Valid(t') && t'.freelist == [] && n == |t.slots| + 1 && t'.slots == t.slots + [Live(id)]
  {
  }

  /** `add` hands out a number that reaches nothing, and afterwards that number
      reaches exactly the new instance. None of its assertions can fail. */
  lemma {:induction false} AddRefines(t: Table, id: Id)
    requires Valid(t) && FreshId(t, id)
    ensures AddAsserts(t, Live(id))
    ensures var (t', n) := Add(t, Live(id));
            && Valid(t')
            && n > 0 && n !in Reach(t)
            && Reach(t') == Reach(t)[n := Live(id)]
            && (t.freelist == [] ==> n == |t.slots| + 1)
            && (t.freelist != [] ==> n == t.freelist[|t.freelist| - 1] && StatusOf(t, n) == COLLECTED
                                     && t'.slots[n - 1] == Live(id))
            && (forall m :: t.InRange(m) && m != n ==> t'.InRange(m) && StatusOf(t', m) == StatusOf(t, m))
  {
    if t.freelist != [] { AddReuses(t, id); } else { AddGrows(t, id); }
  }

  lemma {:induction false} MoveOutKeeps(t: Table, n: int)
    requires Valid(t) && t.InRange(n)
    ensures Valid(t.MoveOut(n)) && Reach(t.MoveOut(n)) == Reach(t) - {n}
    ensures forall m :: t.InRange(m) && m != n ==> t.MoveOut(n).At(m) == t.At(m)
  {
    var t' := t.MoveOut(n);
    assert forall m :: t.InRange(m) && m != n ==> t'.At(m) == t.At(m);
    assert t'.At(n) == DEAD;
  }

  /** `kill` makes its number reach nothing and leaves every other number alone. It is
      silent about an instance that is already dead, and raises if there never was one. */
  lemma {:induction false} KillRefines(t: Table, n: int)
    requires Valid(t)
    ensures var (t', r) := Kill(t, n);
            && Valid(t') && t'.freelist == t.freelist
            && Reach(t') == Reach(t) - {n}
            && (r.KillDying? <==> n in Reach(t))
            && (r.KillDying? ==> r.dying == Reach(t)[n])
            && (r == KillAlreadyDead <==> 1 <= n <= |t.slots| && n !in Reach(t))
            && (r == KillInvalid <==> n == 0 || n > |t.slots|)
            && (r == KillOutOfRange <==> n < 0)
            && (forall m :: t.InRange(m) && m != n ==> t'.At(m) == t.At(m))
  {
    if t.InRange(n) {
      MoveOutKeeps(t, n);
    }
  }

  /** The table once `finalize` has also destroyed a leaked instance. */
  function Finalized(t: Table, n: int): Table {
    var (t', r) := Finalize(t, n);
    if r.FinalizeLeaked? then t'.SetFree(n) else t'
  }

  lemma {:induction false} FinalizeKeeps(t: Table, n: int)
    requires Valid(t)
    ensures Valid(Finalized(t, n)) && Reach(Finalized(t, n)) == Reach(t) - {n}
    ensures t.InRange(n) ==> StatusOf(Finalized(t, n), n) == COLLECTED
    ensures forall m :: t.InRange(m) && m != n ==> StatusOf(Finalized(t, n), m) == StatusOf(t, m)
  {
    var t' := Finalized(t, n);
    if t.InRange(n) && !t.IsFree(n) {
      assert t'.freelist == t.freelist + [n];
      assert t'.freelist[|t.freelist|] == n;
    }
  }

  /** `finalize` makes its number reach nothing; the number is set free exactly
      when it was in use, and never twice. It raises for a number that is free already
      or never was in use. */
  lemma {:induction false} FinalizeRefines(t: Table, n: int)
    requires Valid(t)
    ensures var (t', r) := Finalize(t, n);
            && (r.FinalizeLeaked? <==> n in Reach(t))
            && (r.FinalizeLeaked? ==> r.dying == Reach(t)[n] && !t.IsFree(n))
            && (r == FinalizeDead <==> t.InRange(n) && StatusOf(t, n) == DEAD_SLOT)
            && (r == FinalizeTwice <==> t.InRange(n) && StatusOf(t, n) == COLLECTED)
            && (r == FinalizeIncomplete <==> n == 0)
            && (r == FinalizeEmpty <==> n != 0 && |t.slots| == 0)
            && (r == FinalizeOutOfRange <==> |t.slots| > 0 && (n < 0 || n > |t.slots|))
            && Valid(Finalized(t, n)) && Reach(Finalized(t, n)) == Reach(t) - {n}
            && (t.InRange(n) ==> StatusOf(Finalized(t, n), n) == COLLECTED)
            && (forall m :: t.InRange(m) && m != n ==> StatusOf(Finalized(t, n), m) == StatusOf(t, m))
  {
    FinalizeKeeps(t, n);
  }

  lemma {:induction false} CallRefines(t: Table, n: int)
    requires Valid(t)
    ensures Call(t, n).CallReaches? <==> n in Reach(t)
    ensures n in Reach(t) ==> Call(t, n) == CallReaches(Reach(t)[n])
    ensures Call(t, n) == CallKilled <==> 1 <= n <= |t.slots| && n !in Reach(t)
    ensures Call(t, n) == CallIncomplete <==> n == 0
    ensures Call(t, n) == CallInvalid <==> n < 0 || n > |t.slots|
  {
  }

  /** The free list and the three states partition the slots. */
  lemma {:induction false} Partition(t: Table, n: int)
    requires Valid(t) && t.InRange(n)
    ensures StatusOf(t, n) == LIVE <==> n in Reach(t)
    ensures StatusOf(t, n) == COLLECTED <==> n in t.freelist
    ensures StatusOf(t, n) != LIVE ==> t.At(n) == DEAD
  {
  }
}
