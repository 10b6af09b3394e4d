/** `new_Tox` in its own form: the transfer map as a field that the API calls and the
    callbacks update step by step. Each method is proved to do what the function of
    the same name in `Transfers` says. */
module NewTox {
  import opened Wrappers
  import Spec = Transfers

  type Key = Spec.Key
  type Num = Spec.Num

  /** The order of `std::map` keys. */
  predicate Before(k: Key, l: Key) {
    k.0 < l.0 || (k.0 == l.0 && k.1 < l.1)
  }

  ghost predicate InOrder(keys: seq<Key>) {
    forall i, j :: 0 <= i < j < |keys| ==> Before(keys[i], keys[j])
  }

  /** What `iteration` leaves of the table, and the requests it raises, when it visits
      the given keys. */
  function Visit(t: Spec.Table, keys: seq<Key>, dataSize: nat): (Spec.Table, seq<Spec.Event>)
    requires forall k :: k in t ==> t[k].position <= t[k].fileSize
    requires forall i :: 0 <= i < |keys| ==> keys[i] in t
  {
    if keys == [] then (t, [])
    else
      var k := keys[|keys| - 1];
      var before := Visit(t, keys[..|keys| - 1], dataSize);
      (before.0[k := Spec.Requested(t[k], dataSize)],
       before.1 + if Spec.Due(t[k]) then
         [Spec.RequestChunk(k.0, k.1, t[k].position, Spec.Min(dataSize, t[k].fileSize - t[k].position))] else [])
  }

  /** Visiting all keys gives every transfer its request exactly once. */
  lemma {:induction false} VisitAll(t: Spec.Table, keys: seq<Key>, dataSize: nat)
    requires forall k :: k in t ==> t[k].position <= t[k].fileSize
    requires forall i :: 0 <= i < |keys| ==> keys[i] in t
    ensures Visit(t, keys, dataSize).0.Keys == t.Keys
    ensures forall k :: k in t ==>
              Visit(t, keys, dataSize).0[k] == if k in keys then Spec.Requested(t[k], dataSize) else t[k]
  {
    if keys != [] {
      var n := |keys| - 1;
      VisitAll(t, keys[..n], dataSize);
      assert forall k :: k in keys <==> k in keys[..n] || k == keys[n];
    }
  }

  /** How many of the events ask for a chunk of this transfer. */
  function Requests(events: seq<Spec.Event>, k: Key): nat {
    if events == [] then 0
    else
      var e := events[|events| - 1];
      Requests(events[..|events| - 1], k) +
      if e.RequestChunk? && e.friend == k.0 && e.fileNumber == k.1 then 1 else 0
  }

  lemma {:induction false} RequestsNext(events: seq<Spec.Event>, e: Spec.Event, k: Key)
    ensures Requests(events + [e], k) ==
            Requests(events, k) + if e.RequestChunk? && e.friend == k.0 && e.fileNumber == k.1 then 1 else 0
  {
    assert (events + [e])[..|events|] == events;
  }

  /** Each due transfer among the visited is asked for exactly once, at its position and
      for what is left or a full packet, and no other is asked for. */
  lemma {:induction false} VisitAsksOnce(t: Spec.Table, keys: seq<Key>, dataSize: nat, k: Key)
    requires forall k :: k in t ==> t[k].position <= t[k].fileSize
    requires forall i :: 0 <= i < |keys| ==> keys[i] in t
    requires InOrder(keys)
    ensures Requests(Visit(t, keys, dataSize).1, k) == if k in keys && Spec.Due(t[k]) then 1 else 0
    ensures k in keys && Spec.Due(t[k]) ==>
              Spec.RequestChunk(k.0, k.1, t[k].position, Spec.Min(dataSize, t[k].fileSize - t[k].position))
              in Visit(t, keys, dataSize).1
  {
    if keys != [] {
      var before, last := keys[..|keys| - 1], keys[|keys| - 1];
      assert keys == before + [last] && last !in before;
      VisitAsksOnce(t, before, dataSize, k);
      VisitNext(t, before, last, dataSize);
      if Spec.Due(t[last]) {
        var e := Spec.RequestChunk(last.0, last.1, t[last].position,
                                   Spec.Min(dataSize, t[last].fileSize - t[last].position));
        RequestsNext(Visit(t, before, dataSize).1, e, k);
      } else {
        assert Visit(t, before, dataSize).1 + [] == Visit(t, before, dataSize).1;
      }
      if k == last {
        assert k in keys && k !in before;
      } else {
        assert k in keys <==> k in before;
      }
    }
  }

  /** Each request is for a visited transfer, and friends come first, then file numbers. */
  lemma {:induction false} VisitInOrder(t: Spec.Table, keys: seq<Key>, dataSize: nat)
    requires forall k :: k in t ==> t[k].position <= t[k].fileSize
    requires forall i :: 0 <= i < |keys| ==> keys[i] in t
    requires InOrder(keys)
    ensures var events := Visit(t, keys, dataSize).1;
            && (forall i :: 0 <= i < |events| ==> (events[i].friend, events[i].fileNumber) in keys)
            && (forall i, j :: 0 <= i < j < |events| ==>
                  || events[i].friend < events[j].friend
                  || (events[i].friend == events[j].friend && events[i].fileNumber < events[j].fileNumber))
  {
    if keys != [] {
      var before, last := keys[..|keys| - 1], keys[|keys| - 1];
      VisitInOrder(t, before, dataSize);
      assert keys == before + [last] && forall k :: k in before ==> Before(k, last);
      VisitNext(t, before, last, dataSize);
    }
  }

  lemma {:induction false} FirstExists(rest: set<Key>)
    requires rest != {}
    ensures exists k :: k in rest && forall l :: l in rest ==> l == k || Before(k, l)
  {
    var k :| k in rest;
    if rest == {k} {
    } else {
      FirstExists(rest - {k});
      var m :| m in rest - {k} && forall l :: l in rest - {k} ==> l == m || Before(m, l);
      assert Before(k, m) || Before(m, k);
      var f := if Before(k, m) then k else m;
      forall l | l in rest
        ensures l == f || Before(f, l)
      {
        if l != k { assert l in rest - {k}; }
      }
      assert f in rest;
    }
  }

  lemma {:induction false} VisitNext(t: Spec.Table, keys: seq<Key>, key: Key, dataSize: nat)
    requires forall k :: k in t ==> t[k].position <= t[k].fileSize
    requires forall i :: 0 <= i < |keys| ==> keys[i] in t
    requires key in t
    ensures var (before, after) := (Visit(t, keys, dataSize), Visit(t, keys + [key], dataSize));
            && after.0 == before.0[key := Spec.Requested(t[key], dataSize)]
            && after.1 == before.1 +
                 if Spec.Due(t[key]) then
                   [Spec.RequestChunk(key.0, key.1, t[key].position,
                                      Spec.Min(dataSize, t[key].fileSize - t[key].position))]
                 else []
  {
    assert (keys + [key])[..|keys|] == keys;
  }

  /** How far the loop over the map has come. */
  ghost predicate Visited(t: Spec.Table, order: seq<Key>, rest: set<Key>) {
    && InOrder(order) && rest <= t.Keys
    && (forall i :: 0 <= i < |order| ==> order[i] in t)
    && (forall k :: k in t ==> (k in rest <==> k !in order))
    && (forall i, k :: 0 <= i < |order| && k in rest ==> Before(order[i], k))
  }

  lemma {:induction false} VisitedNext(t: Spec.Table, order: seq<Key>, rest: set<Key>, key: Key)
    requires Visited(t, order, rest)
    requires key in rest && forall l :: l in rest ==> l == key || Before(key, l)
    ensures Visited(t, order + [key], rest - {key})
  {
    assert forall k :: k in order + [key] <==> k in order || k == key;
  }

  class Tox {
    const dataSize: nat
    var transfers: Spec.Table

    /** No transfer is past its end; the callers of the API and the peer see to it. */
    ghost predicate Valid()
      reads this
    {
      forall k :: k in transfers ==> transfers[k].position <= transfers[k].fileSize
    }

    constructor (dataSize: nat)
      ensures this.dataSize == dataSize && transfers == map[]
    {
      this.dataSize := dataSize;
      transfers := map[];
    }

    /** The state after a call: as the outcome says, or as it was. */
    twostate predicate Becomes(r: Spec.Outcome)
      reads this
    {
      transfers == if r.Done? then r.table else old(transfers)
    }

    method AddTransfer(friend: nat, fileNumber: nat, fileSize: nat)
      requires (friend, fileNumber) !in transfers
      modifies this
      ensures transfers == old(transfers)[(friend, fileNumber) := Spec.NewTransfer(fileSize)]
    {
      transfers := transfers[(friend, fileNumber) := Spec.NewTransfer(fileSize)];
    }

    method RemoveTransfer(friend: nat, fileNumber: nat)
      requires (friend, fileNumber) in transfers
      modifies this
      ensures transfers == old(transfers) - {(friend, fileNumber)}
    {
      transfers := transfers - {(friend, fileNumber)};
    }

    /** Nothing but the entry of one transfer has changed. */
    twostate predicate OnlyTouches(key: Key)
      reads this
    {
      forall k :: k != key ==>
        (k in transfers <==> k in old(transfers)) && (k in transfers ==> transfers[k] == old(transfers)[k])
    }

    method FileSend(friend: nat, sender: Num, fileSize: nat) returns (r: Spec.Outcome)
      modifies this
      ensures r == Spec.FileSend(old(transfers), friend, sender, fileSize)
      ensures Becomes(r) && OnlyTouches((friend, sender as nat))
      ensures r.Done? <==> (friend, sender as nat) !in old(transfers)
      ensures (friend, sender as nat) in transfers
      ensures r.Done? ==> transfers[(friend, sender as nat)] == Spec.Transfer(Spec.PAUSED, 0, fileSize, false, 0)
    {
      if (friend, sender) in transfers {
        return Spec.AssertFails;
      }
      AddTransfer(friend, sender, fileSize);
      r := Spec.Done(transfers, [Spec.SendRequest(sender, fileSize)], None);
    }

    /** No control changes the own state; a RESUME or PAUSE only reaches the other side. */
    method FileControl(status: Spec.FriendStatus, friend: nat, fileNumber: nat, control: Spec.FileControlType,
                       cause: Spec.PauseReason) returns (r: Spec.Outcome)
      ensures r == Spec.FileControl(transfers, status, friend, fileNumber, control, cause)
      ensures r.Done? ==> r.table == transfers && r.event == None && (r.packets == [] <==> control == Spec.CANCEL)
      ensures r.Done? && control != Spec.CANCEL ==>
                r.packets == [Spec.Control(Spec.SendReceive(fileNumber), fileNumber % 256,
                                           if control == Spec.RESUME then Spec.ACCEPT else Spec.FILECONTROL_PAUSE)]
      ensures control == Spec.RESUME ==>
                (r.Done? <==> && status == Spec.ONLINE && (friend, fileNumber) in transfers
                              && transfers[(friend, fileNumber)].state == Spec.PAUSED && cause != Spec.FRIEND)
    {
      if status == Spec.UNKNOWN {
        return Spec.Refused(Spec.FRIEND_NOT_FOUND);
      }
      if status == Spec.OFFLINE {
        return Spec.Refused(Spec.FRIEND_NOT_CONNECTED);
      }
      if (friend, fileNumber) !in transfers {
        return Spec.Refused(Spec.NOT_FOUND);
      }
      var transfer := transfers[(friend, fileNumber)];
      match control
      case PAUSE =>
        if transfer.state == Spec.PAUSED {
          return Spec.Refused(Spec.ALREADY_PAUSED);
        }
        r := SendControl(fileNumber, Spec.FILECONTROL_PAUSE);
      case RESUME =>
        if transfer.state != Spec.PAUSED {
          return Spec.Refused(Spec.NOT_PAUSED);
        }
        if cause == Spec.FRIEND {
          return Spec.Refused(Spec.DENIED);
        }
        r := SendControl(fileNumber, Spec.ACCEPT);
      case CANCEL =>
        r := Spec.Done(transfers, [], None);
    }

    method SendControl(fileNumber: nat, control: Spec.ControlType) returns (r: Spec.Outcome)
      ensures r == Spec.Done(transfers,
                [Spec.Control(Spec.SendReceive(fileNumber), Spec.OldFileNumber(fileNumber), control)], None)
    {
      r := Spec.Done(transfers,
                     [Spec.Control(Spec.SendReceive(fileNumber), Spec.OldFileNumber(fileNumber), control)], None);
    }

    /** Requests go out in key order, one for every transfer that is due. */
    method Iteration() returns (events: seq<Spec.Event>, ghost order: seq<Key>)
      requires Valid()
      modifies this
      ensures InOrder(order) && (forall k :: k in order <==> k in old(transfers))
      ensures events == Visit(old(transfers), order, dataSize).1
      ensures forall i, j :: 0 <= i < j < |events| ==>
                || events[i].friend < events[j].friend
                || (events[i].friend == events[j].friend && events[i].fileNumber < events[j].fileNumber)
      ensures transfers == map k | k in old(transfers) :: Spec.Requested(old(transfers)[k], dataSize)
      ensures Valid()
    {
      ghost var before := transfers;
      var rest := transfers.Keys;
      events, order := [], [];
      while rest != {}
        invariant Visited(before, order, rest)
        invariant (transfers, events) == Visit(before, order, dataSize)
        decreases rest
      {
        FirstExists(rest);
        var key :| key in rest && forall l :: l in rest ==> l == key || Before(key, l);
        VisitAll(before, order, dataSize);
        VisitNext(before, order, key, dataSize);
        VisitedNext(before, order, rest, key);
        var transfer := transfers[key];
        if transfer.position != transfer.fileSize {
          if transfer.state == Spec.RUNNING && !transfer.eventPending {
            transfer := transfer.(sizeRequested := Spec.Min(dataSize, transfer.fileSize - transfer.position));
            events := events + [Spec.RequestChunk(key.0, key.1, transfer.position, transfer.sizeRequested)];
            transfer := transfer.(eventPending := true);
          }
        }
        assert transfer == Spec.Requested(before[key], dataSize);
        assert events == Visit(before, order + [key], dataSize).1;
        transfers := transfers[key := transfer];
        order := order + [key];
        rest := rest - {key};
      }
      VisitAll(before, order, dataSize);
      VisitInOrder(before, order, dataSize);
    }

    /** A chunk that is taken moves the position by its length and answers the request;
        FINISHED follows exactly at the end of the file. */
    method FileSendChunk(status: Spec.FriendStatus, friend: nat, fileNumber: nat, data: Option<Bytes>, length: nat)
      returns (r: Spec.Outcome)
      requires data.Some? ==> |data.value| == length
      modifies this
      ensures r == Spec.SendChunk(old(transfers), status, friend, fileNumber, data, length, dataSize)
      ensures Becomes(r) && OnlyTouches((friend, fileNumber))
      ensures r.Done? <==> && 1 <= length <= dataSize && data.Some? && status == Spec.ONLINE
                           && (friend, fileNumber) in old(transfers)
      ensures r.Done? ==> (friend, fileNumber) in transfers
      ensures r.Done? ==> var (was, now) := (old(transfers)[(friend, fileNumber)], transfers[(friend, fileNumber)]);
                && now == was.(position := was.position + length, eventPending := false)
                && |r.packets| > 0 && r.packets[0] == Spec.Data(fileNumber % 256, data.value)
                && (|r.packets| == 1 <==> now.position != now.fileSize)
                && (now.position == now.fileSize ==>
                    r.packets[1..] == [Spec.Control(Spec.SendReceive(fileNumber), fileNumber % 256, Spec.FINISHED)])
    {
      if length == 0 {
        return Spec.AssertFails;
      }
      if length > dataSize {
        return Spec.Refused(Spec.TOO_LARGE);
      }
      if data == None {
        return Spec.Refused(Spec.NULL_DATA);
      }
      if status == Spec.UNKNOWN {
        return Spec.Refused(Spec.FRIEND_NOT_FOUND);
      }
      if status == Spec.OFFLINE {
        return Spec.Refused(Spec.FRIEND_NOT_CONNECTED);
      }
      if (friend, fileNumber) !in transfers {
        return Spec.Refused(Spec.NOT_FOUND);
      }
      var transfer := transfers[(friend, fileNumber)];
      var packets := [Spec.Data(Spec.OldFileNumber(fileNumber), data.value)];
      transfer := transfer.(position := transfer.position + length);
      transfer := transfer.(eventPending := false);
      transfers := transfers[(friend, fileNumber) := transfer];
      if transfer.position == transfer.fileSize {
        packets := packets +
          [Spec.Control(Spec.SendReceive(fileNumber), Spec.OldFileNumber(fileNumber), Spec.FINISHED)];
      }
      r := Spec.Done(transfers, packets, None);
    }

    method OnSendRequest(friend: nat, filenumber: Num, fileSize: nat) returns (r: Spec.Outcome)
      modifies this
      ensures r == Spec.OnSendRequest(old(transfers), friend, filenumber, fileSize)
      ensures Becomes(r) && OnlyTouches((friend, filenumber + 256))
      ensures r.Done? <==> (friend, filenumber + 256) !in old(transfers)
      ensures (friend, filenumber + 256) in transfers
      ensures r.Done? ==>
                && transfers[(friend, filenumber + 256)] == Spec.Transfer(Spec.PAUSED, 0, fileSize, false, 0)
                && r.event == Some(Spec.FileReceive(friend, filenumber + 256, fileSize))
    {
      if (friend, filenumber + 256) in transfers {
        return Spec.AssertFails;
      }
      AddTransfer(friend, filenumber + 256, fileSize);
      r := Spec.Done(transfers, [], Some(Spec.FileReceive(friend, filenumber + 256, fileSize)));
    }

    method OnControl(friend: nat, receiveSend: bool, filenumber: Num, control: Spec.ControlType)
      returns (r: Spec.Outcome)
      modifies this
      ensures r == Spec.OnControl(old(transfers), friend, receiveSend, filenumber, control)
      ensures Becomes(r) && OnlyTouches((friend, Spec.NewFileNumber(receiveSend, filenumber)))
      ensures var key := (friend, Spec.NewFileNumber(receiveSend, filenumber));
              && (r.Done? <==> key in old(transfers) && control != Spec.FILECONTROL_PAUSE)
              && (r.Done? && control == Spec.ACCEPT ==>
                    && key in transfers && transfers[key] == old(transfers)[key].(state := Spec.RUNNING)
                    && r.packets == [] && r.event == Some(Spec.FileResumed(friend, key.1)))
              && (r.Done? && control == Spec.FINISHED ==>
                    && key !in transfers && r.packets == []
                    && r.event == Some(Spec.RequestChunk(friend, key.1, old(transfers)[key].position, 0)))
    {
      var fileNumber := Spec.NewFileNumber(receiveSend, filenumber);
      if (friend, fileNumber) !in transfers {
        return Spec.AssertFails;
      }
      var transfer := transfers[(friend, fileNumber)];
      if control == Spec.FINISHED {
        var event := Spec.RequestChunk(friend, fileNumber, transfer.position, 0);
        RemoveTransfer(friend, fileNumber);
        return Spec.Done(transfers, [], Some(event));
      }
      if control == Spec.FILECONTROL_PAUSE {
        return Spec.AssertFails;
      }
      transfer := transfer.(state := Spec.RUNNING);
      transfers := transfers[(friend, fileNumber) := transfer];
      r := Spec.Done(transfers, [], Some(Spec.FileResumed(friend, fileNumber)));
    }

    method OnData(friend: nat, filenumber: Num, bytes: Bytes) returns (r: Spec.Outcome)
      modifies this
      ensures r == Spec.OnData(old(transfers), friend, filenumber, bytes)
      ensures Becomes(r) && OnlyTouches((friend, filenumber + 256))
      ensures r.Done? <==> (friend, filenumber + 256) in old(transfers)
      ensures r.Done? ==> (friend, filenumber + 256) in transfers
      ensures r.Done? ==>
                var (was, now) := (old(transfers)[(friend, filenumber + 256)], transfers[(friend, filenumber + 256)]);
                && now == was.(position := was.position + |bytes|)
                && r.event == Some(Spec.ReceiveChunk(friend, filenumber + 256, was.position, bytes))
                && (r.packets == [] <==> now.position != now.fileSize)
                && (now.position == now.fileSize ==> r.packets == [Spec.Control(true, filenumber, Spec.FINISHED)])
    {
      if (friend, filenumber + 256) !in transfers {
        return Spec.AssertFails;
      }
      var transfer := transfers[(friend, filenumber + 256)];
      var event := Spec.ReceiveChunk(friend, filenumber + 256, transfer.position, bytes);
      transfer := transfer.(position := transfer.position + |bytes|);
      transfers := transfers[(friend, filenumber + 256) := transfer];
      var packets := [];
      if transfer.position == transfer.fileSize {
        packets := [Spec.Control(true, filenumber, Spec.FINISHED)];
      }
      r := Spec.Done(transfers, packets, Some(event));
    }
  }
}
