/** What happens to the events of a tox instance: the callbacks of old toxcore append
    them to one list per kind, an iteration hands the lists over and empties them, and
    the Java side calls its listeners kind by kind, in a fixed order. */
module Events {
  import opened Wrappers
  import Transfers

  datatype Kind =
    | ConnectionStatus | FriendName | FriendStatusMessage | FriendStatus
    | FriendConnectionStatus | FriendTyping | ReadReceipt | FriendRequest
    | FriendMessage | FriendAction | FileControl | FileRequestChunk
    | FileReceive | FileReceiveChunk | FriendLossyPacket | FriendLosslessPacket

  datatype Event =
    | OfFile(file: Transfers.Event)
    | Other(other: Kind, friend: nat, content: Bytes)

  /** The list an event of old toxcore is appended to. */
  function KindOf(e: Event): (k: Kind)
    ensures e.Other? ==> k == e.other
    ensures e.OfFile? ==> && (k == FileReceive <==> e.file.FileReceive?)
                          && (k == FileControl <==> e.file.FileResumed?)
                          && (k == FileRequestChunk <==> e.file.RequestChunk?)
                          && (k == FileReceiveChunk <==> e.file.ReceiveChunk?)
  {
    match e
    case Other(k, _, _) => k
    case OfFile(FileReceive(_, _, _)) => FileReceive
    case OfFile(FileResumed(_, _)) => FileControl
    case OfFile(RequestChunk(_, _, _, _)) => FileRequestChunk
    case OfFile(ReceiveChunk(_, _, _, _)) => FileReceiveChunk
  }

  /** The order in which `iteration` calls the listeners. */
  const ORDER: seq<Kind> := [
    ConnectionStatus, FriendName, FriendStatusMessage, FriendStatus,
    FriendConnectionStatus, FriendTyping, ReadReceipt, FriendRequest,
    FriendMessage, FriendAction, FileControl, FileRequestChunk,
    FileReceive, FileReceiveChunk, FriendLossyPacket, FriendLosslessPacket]

  function Rank(k: Kind): (r: nat)
    ensures r < |ORDER| && ORDER[r] == k
  {
    match k
    case ConnectionStatus => 0
    case FriendName => 1
    case FriendStatusMessage => 2
    case FriendStatus => 3
    case FriendConnectionStatus => 4
    case FriendTyping => 5
    case ReadReceipt => 6
    case FriendRequest => 7
    case FriendMessage => 8
    case FriendAction => 9
    case FileControl => 10
    case FileRequestChunk => 11
    case FileReceive => 12
    case FileReceiveChunk => 13
    case FriendLossyPacket => 14
    case FriendLosslessPacket => 15
  }

  ghost predicate Ascending(kinds: seq<Kind>) {
    forall i, j :: 0 <= i < j < |kinds| ==> Rank(kinds[i]) < Rank(kinds[j])
  }

  lemma {:induction false} RankOfOrder(n: nat)
    requires n < |ORDER|
    ensures Rank(ORDER[n]) == n
  {
  }

  lemma {:induction false} OrderAscends()
    ensures Ascending(ORDER)
  {
    forall i, j | 0 <= i < j < |ORDER|
      ensures Rank(ORDER[i]) < Rank(ORDER[j])
    {
      RankOfOrder(i);
      RankOfOrder(j);
    }
  }

  lemma {:induction false} OrderIsComplete()
    ensures forall k: Kind :: k in ORDER
  {
    forall k: Kind
      ensures k in ORDER
    {
      assert ORDER[Rank(k)] == k;
    }
  }

  function RankOf(e: Event): nat {
    Rank(KindOf(e))
  }

  /** The events of one kind, in the order they were recorded. */
  function Of(log: seq<Event>, k: Kind): seq<Event> {
    if log == [] then []
    else Of(log[..|log| - 1], k) + if KindOf(log[|log| - 1]) == k then [log[|log| - 1]] else []
  }

  /** What the listeners of these kinds hear of a batch when they are called in this
      order; the events of a kind without a listener are lost. */
  function Heard(log: seq<Event>, listeners: set<Kind>, kinds: seq<Kind>): seq<Event> {
    if kinds == [] then []
    else
      var k := kinds[|kinds| - 1];
      Heard(log, listeners, kinds[..|kinds| - 1]) + if k in listeners then Of(log, k) else []
  }

  lemma {:induction false} HeardNext(log: seq<Event>, listeners: set<Kind>, kinds: seq<Kind>, k: Kind)
    ensures Heard(log, listeners, kinds + [k]) ==
            Heard(log, listeners, kinds) + if k in listeners then Of(log, k) else []
  {
    assert (kinds + [k])[..|kinds|] == kinds;
  }

  /** One iteration: what old toxcore reports and which listeners are set then. */
  datatype Round = Round(log: seq<Event>, listeners: set<Kind>)

  function HeardIn(r: Round): seq<Event> {
    Heard(r.log, r.listeners, ORDER)
  }

  function Recorded(run: seq<Round>): seq<Event> {
    if run == [] then [] else Recorded(run[..|run| - 1]) + run[|run| - 1].log
  }

  function Delivered(run: seq<Round>): seq<Event> {
    if run == [] then []
    else Delivered(run[..|run| - 1]) + HeardIn(run[|run| - 1])
  }
}

/** The C++ event lists and the Java dispatch in their own form. */
module EventBuffer {
  import opened Events

  type Lists = map<Kind, seq<Event>>

  ghost predicate Holds(lists: Lists, log: seq<Event>) {
    forall k: Kind :: k in lists && lists[k] == Of(log, k)
  }

  function Empty(): (lists: Lists)
    ensures Holds(lists, [])
  {
    OrderIsComplete();
    map k | k in ORDER :: []
  }

  lemma {:induction false} HoldsNext(lists: Lists, log: seq<Event>, e: Event)
    requires Holds(lists, log)
    ensures Holds(lists[KindOf(e) := lists[KindOf(e)] + [e]], log + [e])
  {
    assert (log + [e])[..|log|] == log;
  }

  lemma {:induction false} ToldNext(batch: Lists, told: seq<Event>, listeners: set<Kind>, kinds: seq<Kind>, k: Kind)
    requires Holds(batch, told)
    ensures k in batch
    ensures Heard(told, listeners, kinds + [k]) ==
            Heard(told, listeners, kinds) + if k in listeners then batch[k] else []
  {
    HeardNext(told, listeners, kinds, k);
  }

  class ToxCore {
    var events: Lists          // the `Events` message of the instance
    var listeners: set<Kind>   // the Java callbacks that are not null
    var heard: seq<Event>      // the calls made to them
    ghost var log: seq<Event>  // recorded since the last iteration

    ghost predicate Valid()
      reads this
    {
      Holds(events, log)
    }

    constructor ()
      ensures Valid() && listeners == {} && heard == [] && log == []
    {
      events, listeners, heard, log := Empty(), {}, [], [];
    }

    /** The `tox4j_*_cb` functions. */
    method Record(e: Event)
      requires Valid()
      modifies this`events, this`log
      ensures Valid() && log == old(log) + [e]
    {
      HoldsNext(events, log, e);
      events := events[KindOf(e) := events[KindOf(e)] + [e]];
      log := log + [e];
    }

    /** Old toxcore iterates and calls back with the given events; then the lists are
        serialised and cleared. */
    method ToxIteration(calls: seq<Event>) returns (batch: Lists)
      requires Valid()
      modifies this`events, this`log
      ensures Valid() && log == [] && Holds(batch, old(log) + calls)
    {
      for i := 0 to |calls|
        invariant Valid() && log == old(log) + calls[..i]
      {
        Record(calls[i]);
        assert calls[..i + 1] == calls[..i] + [calls[i]];
      }
      assert calls[..|calls|] == calls;
      batch := events;
      events, log := Empty(), [];
    }

    method Call(list: seq<Event>)
      modifies this`heard
      ensures heard == old(heard) + list
    {
      for i := 0 to |list|
        invariant heard == old(heard) + list[..i]
      {
        heard := heard + [list[i]];
      }
      assert list[..|list|] == list;
    }

    /** The loop of one kind: its listener hears the events of its list in turn. */
    method Tell(k: Kind, batch: Lists, ghost told: seq<Event>, ghost before: seq<Event>, ghost kinds: seq<Kind>)
      returns (ghost now: seq<Kind>)
      requires Holds(batch, told) && heard == before + Heard(told, listeners, kinds)
      modifies this`heard
      ensures now == kinds + [k] && heard == before + Heard(told, listeners, now)
    {
      ToldNext(batch, told, listeners, kinds, k);
      if k in listeners {
        Call(batch[k]);
      }
      now := kinds + [k];
    }

    method Iteration(calls: seq<Event>)
      requires Valid()
      modifies this
      ensures Valid() && log == [] && listeners == old(listeners)
      ensures heard == old(heard) + HeardIn(Round(old(log) + calls, listeners))
    {
      var batch := ToxIteration(calls);
      Dispatch(batch, old(log) + calls);
    }

    /** The sixteen loops of the Java `iteration`. */
    method Dispatch(batch: Lists, ghost told: seq<Event>)
      requires Holds(batch, told)
      modifies this`heard
      ensures heard == old(heard) + HeardIn(Round(told, listeners))
    {
      ghost var done := [];
      done := Tell(ConnectionStatus, batch, told, old(heard), done);
      done := Tell(FriendName, batch, told, old(heard), done);
      done := Tell(FriendStatusMessage, batch, told, old(heard), done);
      done := Tell(FriendStatus, batch, told, old(heard), done);
      done := Tell(FriendConnectionStatus, batch, told, old(heard), done);
      done := Tell(FriendTyping, batch, told, old(heard), done);
      done := Tell(ReadReceipt, batch, told, old(heard), done);
      done := Tell(FriendRequest, batch, told, old(heard), done);
      done := Tell(FriendMessage, batch, told, old(heard), done);
      done := Tell(FriendAction, batch, told, old(heard), done);
      done := Tell(FileControl, batch, told, old(heard), done);
      done := Tell(FileRequestChunk, batch, told, old(heard), done);
      done := Tell(FileReceive, batch, told, old(heard), done);
      done := Tell(FileReceiveChunk, batch, told, old(heard), done);
      done := Tell(FriendLossyPacket, batch, told, old(heard), done);
      done := Tell(FriendLosslessPacket, batch, told, old(heard), done);
      assert done == ORDER;
    }

    method SetListeners(now: set<Kind>)
      modifies this`listeners
      ensures listeners == now
    {
      listeners := now;
    }
  }

  /** Any number of iterations deliver what `Delivered` says. */
  method RunIterations(core: ToxCore, run: seq<Round>)
    requires core.Valid() && core.log == [] && core.heard == []
    modifies core
    ensures core.Valid() && core.log == [] && core.heard == Delivered(run)
  {
    for i := 0 to |run|
      invariant core.Valid() && core.log == [] && core.heard == Delivered(run[..i])
    {
      core.SetListeners(run[i].listeners);
      core.Iteration(run[i].log);
      assert run[..i + 1][..i] == run[..i];
      assert [] + run[i].log == run[i].log;
    }
    assert run[..|run|] == run;
  }
}
