/** Which events the listeners hear over a whole run, and in which order. */
module EventOrder {
  import opened Wrappers
  import opened Events
  import Transfers

  lemma {:induction false} OfConcat(a: seq<Event>, b: seq<Event>, k: Kind)
    ensures Of(a + b, k) == Of(a, k) + Of(b, k)
  {
    if b == [] {
      assert a + b == a;
    } else {
      OfConcat(a, b[..|b| - 1], k);
      assert (a + b)[..|a + b| - 1] == a + b[..|b| - 1];
    }
  }

  lemma {:induction false} OfOne(log: seq<Event>, k: Kind)
    requires forall i :: 0 <= i < |log| ==> KindOf(log[i]) == k
    ensures Of(log, k) == log
  {
    if log != [] { OfOne(log[..|log| - 1], k); }
  }

  lemma {:induction false} OfNone(log: seq<Event>, k: Kind)
    requires forall i :: 0 <= i < |log| ==> KindOf(log[i]) != k
    ensures Of(log, k) == []
  {
    if log != [] { OfNone(log[..|log| - 1], k); }
  }

  lemma {:induction false} OfKeepsKind(log: seq<Event>, k: Kind)
    ensures forall i :: 0 <= i < |Of(log, k)| ==> KindOf(Of(log, k)[i]) == k
  {
    if log != [] { OfKeepsKind(log[..|log| - 1], k); }
  }

  lemma {:induction false} RankIsUnique(k: Kind, l: Kind)
    ensures Rank(k) == Rank(l) <==> k == l
  {
    assert ORDER[Rank(k)] == k && ORDER[Rank(l)] == l;
  }

  // ----- conservation -----

  /** The events of the rounds in which the kind has a listener. */
  function RecordedFor(run: seq<Round>, k: Kind): seq<Event> {
    if run == [] then []
    else
      var r := run[|run| - 1];
      RecordedFor(run[..|run| - 1], k) + if k in r.listeners then r.log else []
  }

  lemma {:induction false} OfPart(log: seq<Event>, listeners: set<Kind>, l: Kind, k: Kind)
    ensures Of(if l in listeners then Of(log, l) else [], k) == if k == l && k in listeners then Of(log, k) else []
  {
    OfKeepsKind(log, l);
    if k == l { OfOne(Of(log, l), k); } else { OfNone(Of(log, l), k); }
  }

  lemma {:induction false} OfHeard(log: seq<Event>, listeners: set<Kind>, kinds: seq<Kind>, k: Kind)
    requires Ascending(kinds)
    ensures Of(Heard(log, listeners, kinds), k) == if k in kinds && k in listeners then Of(log, k) else []
  {
    if kinds != [] {
      var n, l := |kinds| - 1, kinds[|kinds| - 1];
      OfHeard(log, listeners, kinds[..n], k);
      OfPart(log, listeners, l, k);
      OfConcat(Heard(log, listeners, kinds[..n]), if l in listeners then Of(log, l) else [], k);
    }
  }

  lemma {:induction false} OfHeardIn(r: Round, k: Kind)
    ensures Of(HeardIn(r), k) == if k in r.listeners then Of(r.log, k) else []
  {
    OrderIsComplete();
    OrderAscends();
    OfHeard(r.log, r.listeners, ORDER, k);
  }

  /** The events of a kind are heard each once and in order, apart from those of rounds
      in which the kind has no listener. */
  lemma {:induction false} EventsAreConserved(run: seq<Round>, k: Kind)
    ensures Of(Delivered(run), k) == Of(RecordedFor(run, k), k)
  {
    if run != [] {
      var before, r := run[..|run| - 1], run[|run| - 1];
      EventsAreConserved(before, k);
      OfHeardIn(r, k);
      OfConcat(Delivered(before), HeardIn(r), k);
      OfConcat(RecordedFor(before, k), if k in r.listeners then r.log else [], k);
    }
  }

  lemma {:induction false} NothingLostWithListeners(run: seq<Round>, k: Kind)
    requires forall i :: 0 <= i < |run| ==> k in run[i].listeners
    ensures Of(Delivered(run), k) == Of(Recorded(run), k)
  {
    EventsAreConserved(run, k);
    AllRecorded(run, k);
  }

  lemma {:induction false} AllRecorded(run: seq<Round>, k: Kind)
    requires forall i :: 0 <= i < |run| ==> k in run[i].listeners
    ensures RecordedFor(run, k) == Recorded(run)
  {
    if run != [] {
      assert k in run[|run| - 1].listeners;
      AllRecorded(run[..|run| - 1], k);
    }
  }

  // ----- the batch as a stable sort -----

  ghost predicate Sorted(out: seq<Event>) {
    forall i, j :: 0 <= i < j < |out| ==> RankOf(out[i]) <= RankOf(out[j])
  }

  ghost predicate AllSet(listeners: set<Kind>) {
    forall k: Kind :: k in listeners
  }

  lemma {:induction false} HeardIsSorted(log: seq<Event>, listeners: set<Kind>, kinds: seq<Kind>)
    requires Ascending(kinds)
    ensures Sorted(Heard(log, listeners, kinds))
    ensures forall i :: 0 <= i < |Heard(log, listeners, kinds)| ==> KindOf(Heard(log, listeners, kinds)[i]) in kinds
  {
    if kinds != [] {
      HeardIsSorted(log, listeners, kinds[..|kinds| - 1]);
      OfKeepsKind(log, kinds[|kinds| - 1]);
    }
  }

  ghost predicate SameByKind(a: seq<Event>, b: seq<Event>) {
    forall k: Kind :: Of(a, k) == Of(b, k)
  }

  lemma {:induction false} LastKind(a: seq<Event>, b: seq<Event>, k: Kind)
    requires a != [] && KindOf(a[|a| - 1]) == k && Of(a, k) == Of(b, k)
    ensures exists j :: 0 <= j < |b| && KindOf(b[j]) == k
  {
    if forall j :: 0 <= j < |b| ==> KindOf(b[j]) != k {
      OfNone(b, k);
      assert false;
    }
  }

  lemma {:induction false} SameLast(a: seq<Event>, b: seq<Event>)
    requires Sorted(a) && Sorted(b) && SameByKind(a, b) && a != []
    ensures b != [] && a[|a| - 1] == b[|b| - 1]
  {
    var k := KindOf(a[|a| - 1]);
    LastKind(a, b, k);
    var l := KindOf(b[|b| - 1]);
    LastKind(b, a, l);
    RankIsUnique(k, l);
    assert Of(a, k)[|Of(a, k)| - 1] == a[|a| - 1];
  }

  /** Only one sequence goes up in rank and has these events of each kind. */
  lemma {:induction false} SortIsUnique(a: seq<Event>, b: seq<Event>)
    requires Sorted(a) && Sorted(b) && SameByKind(a, b)
    ensures a == b
  {
    if a == [] {
      if b != [] { SameLast(b, a); }
    } else {
      SameLast(a, b);
      var a', b' := a[..|a| - 1], b[..|b| - 1];
      var e := a[|a| - 1];
      assert a == a' + [e] && b == b' + [e];
      forall k: Kind
        ensures Of(a', k) == Of(b', k)
      {
        SameWithoutLast(a', b', e, k);
      }
      SortIsUnique(a', b');
    }
  }

  lemma {:induction false} SameWithoutLast(a: seq<Event>, b: seq<Event>, e: Event, k: Kind)
    requires Of(a + [e], k) == Of(b + [e], k)
    ensures Of(a, k) == Of(b, k)
  {
    OfConcat(a, [e], k);
    OfConcat(b, [e], k);
    SamePrefix(Of(a, k), Of(b, k), Of([e], k));
  }

  lemma {:induction false} SamePrefix(a: seq<Event>, b: seq<Event>, c: seq<Event>)
    requires a + c == b + c
    ensures a == b
  {
    assert |a| == |b|;
    assert (a + c)[..|a|] == a && (b + c)[..|b|] == b;
  }

  /** With all listeners set, a batch is heard as the stable sort of what was recorded:
      the one sequence that goes up in rank and has each kind's events in their order. */
  lemma {:induction false} BatchIsTheStableSort(r: Round, out: seq<Event>)
    requires AllSet(r.listeners)
    ensures out == HeardIn(r) <==> Sorted(out) && SameByKind(out, r.log)
  {
    OrderAscends();
    HeardIsSorted(r.log, r.listeners, ORDER);
    forall k: Kind
      ensures Of(HeardIn(r), k) == Of(r.log, k)
    {
      OfHeardIn(r, k);
    }
    if Sorted(out) && SameByKind(out, r.log) {
      SortIsUnique(out, HeardIn(r));
    }
  }

  // ----- where each single event is heard -----

  ghost predicate Audible(run: seq<Round>, r: nat, i: nat) {
    r < |run| && i < |run[r].log| && KindOf(run[r].log[i]) in run[r].listeners
  }

  /** The place of a recorded event among all events heard. */
  ghost function Place(run: seq<Round>, r: nat, i: nat): nat
    requires Audible(run, r, i)
  {
    |Delivered(run[..r])| + PlaceInRound(run[r], i)
  }

  ghost function PlaceInRound(r: Round, i: nat): nat
    requires i < |r.log|
  {
    |Heard(r.log, r.listeners, ORDER[..RankOf(r.log[i])])| + |Of(r.log[..i], KindOf(r.log[i]))|
  }

  lemma {:induction false} OfAt(log: seq<Event>, i: nat)
    requires i < |log|
    ensures var k := KindOf(log[i]); |Of(log[..i], k)| < |Of(log, k)| && Of(log, k)[|Of(log[..i], k)|] == log[i]
  {
    var k := KindOf(log[i]);
    assert log == log[..i] + [log[i]] + log[i + 1..];
    OfConcat(log[..i] + [log[i]], log[i + 1..], k);
    OfConcat(log[..i], [log[i]], k);
    OfOne([log[i]], k);
  }

  lemma {:induction false} HeardGrows(log: seq<Event>, listeners: set<Kind>, kinds: seq<Kind>, n: nat)
    requires n <= |kinds|
    ensures |Heard(log, listeners, kinds[..n])| <= |Heard(log, listeners, kinds)|
    ensures Heard(log, listeners, kinds[..n]) == Heard(log, listeners, kinds)[..|Heard(log, listeners, kinds[..n])|]
  {
    if n < |kinds| {
      var before := kinds[..|kinds| - 1];
      HeardGrows(log, listeners, before, n);
      assert before[..n] == kinds[..n];
    } else {
      assert kinds[..n] == kinds;
    }
  }

  /** An event is heard among those of its kind, and these between lower and higher kinds. */
  lemma {:induction false} HeardAt(log: seq<Event>, listeners: set<Kind>, kinds: seq<Kind>, n: nat, i: nat)
    requires i < |log| && KindOf(log[i]) in listeners && n < |kinds| && kinds[n] == KindOf(log[i])
    ensures var place := |Heard(log, listeners, kinds[..n])| + |Of(log[..i], kinds[n])|;
            && place < |Heard(log, listeners, kinds[..n + 1])| <= |Heard(log, listeners, kinds)|
            && Heard(log, listeners, kinds)[place] == log[i]
  {
    OfAt(log, i);
    assert kinds[..n + 1] == kinds[..n] + [kinds[n]];
    HeardNext(log, listeners, kinds[..n], kinds[n]);
    HeardGrows(log, listeners, kinds, n + 1);
  }

  lemma {:induction false} HeardInRound(r: Round, i: nat)
    requires i < |r.log| && KindOf(r.log[i]) in r.listeners
    ensures PlaceInRound(r, i) < |HeardIn(r)|
    ensures HeardIn(r)[PlaceInRound(r, i)] == r.log[i]
  {
    HeardAt(r.log, r.listeners, ORDER, RankOf(r.log[i]), i);
  }

  lemma {:induction false} DeliveredGrows(run: seq<Round>, r: nat)
    requires r <= |run|
    ensures |Delivered(run[..r])| <= |Delivered(run)|
    ensures Delivered(run[..r]) == Delivered(run)[..|Delivered(run[..r])|]
    decreases |run| - r
  {
    if r < |run| {
      DeliveredGrows(run, r + 1);
      assert run[..r + 1][..r] == run[..r];
    } else {
      assert run[..r] == run;
    }
  }

  /** Each recorded event whose kind has a listener is heard at its place. */
  lemma {:induction false} HeardAtItsPlace(run: seq<Round>, r: nat, i: nat)
    requires Audible(run, r, i)
    ensures Place(run, r, i) < |Delivered(run[..r + 1])| <= |Delivered(run)|
    ensures Delivered(run)[Place(run, r, i)] == run[r].log[i]
  {
    HeardInRound(run[r], i);
    assert run[..r + 1][..r] == run[..r];
    assert Delivered(run[..r + 1]) == Delivered(run[..r]) + HeardIn(run[r]);
    assert Delivered(run[..r + 1])[Place(run, r, i)] == run[r].log[i];
    DeliveredGrows(run, r + 1);
  }

  lemma {:induction false} PlaceInRoundOrder(r: Round, i: nat, j: nat)
    requires i < |r.log| && j < |r.log|
    requires KindOf(r.log[i]) in r.listeners && KindOf(r.log[j]) in r.listeners
    requires RankOf(r.log[i]) < RankOf(r.log[j]) || (RankOf(r.log[i]) == RankOf(r.log[j]) && i < j)
    ensures PlaceInRound(r, i) < PlaceInRound(r, j)
  {
    if RankOf(r.log[i]) < RankOf(r.log[j]) {
      LowerKindFirst(r.log, r.listeners, ORDER, RankOf(r.log[i]), i, RankOf(r.log[j]));
    } else {
      RankIsUnique(KindOf(r.log[i]), KindOf(r.log[j]));
      OfAt(r.log[..j], i);
      assert r.log[..j][..i] == r.log[..i];
    }
  }

  lemma {:induction false} LowerKindFirst(log: seq<Event>, listeners: set<Kind>, kinds: seq<Kind>, n: nat,
                                          i: nat, m: nat)
    requires i < |log| && KindOf(log[i]) in listeners && n < m < |kinds| && kinds[n] == KindOf(log[i])
    ensures |Heard(log, listeners, kinds[..n])| + |Of(log[..i], kinds[n])| < |Heard(log, listeners, kinds[..m])|
  {
    HeardAt(log, listeners, kinds, n, i);
    HeardGrows(log, listeners, kinds[..m], n + 1);
    assert kinds[..m][..n + 1] == kinds[..n + 1];
  }

  lemma {:induction false} PlacesOfRounds(run: seq<Round>, r: nat, i: nat, s: nat, j: nat)
    requires Audible(run, r, i) && Audible(run, s, j) && r < s
    ensures Place(run, r, i) < Place(run, s, j)
  {
    HeardAtItsPlace(run[..s], r, i);
    assert run[..s][..r] == run[..r];
  }

  /** The whole order: rounds first, then the rank of the kind, then the recording. So
      two events are heard in the order in which they were recorded if and only if they
      fell into different rounds or the rank does not go down between them. */
  lemma {:induction false} OrderOfEvents(run: seq<Round>, r: nat, i: nat, s: nat, j: nat)
    requires Audible(run, r, i) && Audible(run, s, j)
    ensures Place(run, r, i) < Place(run, s, j) <==>
            || r < s
            || (r == s && RankOf(run[r].log[i]) < RankOf(run[s].log[j]))
            || (r == s && RankOf(run[r].log[i]) == RankOf(run[s].log[j]) && i < j)
  {
    if r < s {
      PlacesOfRounds(run, r, i, s, j);
    } else if s < r {
      PlacesOfRounds(run, s, j, r, i);
    } else {
      var (p, q) := (RankOf(run[r].log[i]), RankOf(run[r].log[j]));
      if p < q || (p == q && i < j) {
        PlaceInRoundOrder(run[r], i, j);
      } else if i != j {
        PlaceInRoundOrder(run[r], j, i);
      }
    }
  }

  /** And nothing else is heard. */
  lemma {:induction false} OnlyRecordedIsHeard(run: seq<Round>, p: nat) returns (r: nat, i: nat)
    requires p < |Delivered(run)|
    ensures Audible(run, r, i) && Place(run, r, i) == p
  {
    var n := |run| - 1;
    if p < |Delivered(run[..n])| {
      r, i := OnlyRecordedIsHeard(run[..n], p);
      assert run[..n][..r] == run[..r];
    } else {
      r := n;
      i := HeardFrom(run[n], p - |Delivered(run[..n])|);
    }
  }

  lemma {:induction false} HeardFrom(r: Round, p: nat) returns (i: nat)
    requires p < |HeardIn(r)|
    ensures i < |r.log| && KindOf(r.log[i]) in r.listeners && PlaceInRound(r, i) == p
  {
    var n;
    n, i := HeardFromKind(r.log, r.listeners, ORDER, p);
    assert ORDER[n] == KindOf(r.log[i]);
    RankOfOrder(n);
  }

  lemma {:induction false} HeardFromKind(log: seq<Event>, listeners: set<Kind>, kinds: seq<Kind>, p: nat)
    returns (n: nat, i: nat)
    requires p < |Heard(log, listeners, kinds)|
    ensures n < |kinds| && i < |log| && KindOf(log[i]) == kinds[n] && kinds[n] in listeners
    ensures |Heard(log, listeners, kinds[..n])| + |Of(log[..i], kinds[n])| == p
  {
    var m := |kinds| - 1;
    if p < |Heard(log, listeners, kinds[..m])| {
      n, i := HeardFromKind(log, listeners, kinds[..m], p);
      assert kinds[..m][..n] == kinds[..n];
    } else {
      n := m;
      i := OfFrom(log, kinds[m], p - |Heard(log, listeners, kinds[..m])|);
    }
  }

  lemma {:induction false} OfFrom(log: seq<Event>, k: Kind, p: nat) returns (i: nat)
    requires p < |Of(log, k)|
    ensures i < |log| && KindOf(log[i]) == k && |Of(log[..i], k)| == p
  {
    var n := |log| - 1;
    if p < |Of(log[..n], k)| {
      i := OfFrom(log[..n], k, p);
      assert log[..n][..i] == log[..i];
    } else {
      i := n;
    }
  }

  // ----- files -----

  /** When a file's last data and the sender's end notice arrive, the callbacks record
      the chunk and then a request of length zero. The client hears them in that order
      if and only if they fell into different rounds. */
  lemma {:induction false} EndOvertakesTheLastChunk(t: Transfers.Table, friend: nat, n: Transfers.Num, bytes: Bytes,
                                 run: seq<Round>, r: nat, i: nat, s: nat, j: nat)
    requires (friend, n + 256) in t && Audible(run, r, i) && Audible(run, s, j)
    requires r < s || (r == s && i < j)
    requires var data := Transfers.OnData(t, friend, n, bytes);
             && data.event.Some? && run[r].log[i] == OfFile(data.event.value)
             && var end := Transfers.OnControl(data.table, friend, false, n, Transfers.FINISHED);
             end.event.Some? && run[s].log[j] == OfFile(end.event.value)
    ensures run[r].log[i].file == Transfers.ReceiveChunk(friend, n + 256, t[(friend, n + 256)].position, bytes)
    ensures run[s].log[j].file ==
            Transfers.RequestChunk(friend, n + 256, t[(friend, n + 256)].position + |bytes|, 0)
    ensures Place(run, r, i) < Place(run, s, j) <==> r < s
  {
    OrderOfEvents(run, r, i, s, j);
  }

  /** The same holds for the announcement of the next file under the same number: in one
      round it is heard before the old file's last chunk. */
  lemma {:induction false} NextFileOvertakesTheLastChunk(run: seq<Round>, r: nat, i: nat, s: nat, j: nat)
    requires Audible(run, r, i) && Audible(run, s, j)
    requires r < s || (r == s && i < j)
    requires KindOf(run[r].log[i]) == FileReceiveChunk && KindOf(run[s].log[j]) == FileReceive
    ensures Place(run, r, i) < Place(run, s, j) <==> r < s
  {
    OrderOfEvents(run, r, i, s, j);
  }
}
