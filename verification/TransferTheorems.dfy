/** What file transfer guarantees over every run of every number of peers, with
    transfers in both directions and file numbers reused. */
module TransferTheorems {
  import opened Wrappers
  import opened Transfers
  import opened TransferNet
  import opened TransferLinks
  import opened TransferInvariant

  /** No assertion about transfers fails: `add_transfer` never finds an old entry, and
      `file_control` and `file_data` always find theirs. */
  lemma {:induction false} NoAssertionFails(dataSize: nat, actions: seq<Action>, s: Net)
    requires dataSize > 0 && Run(Start(dataSize), actions, s)
    ensures !s.aborted
  {
    Reachable(dataSize, actions, s);
  }

  /** Some run of clients that behave makes an assertion fail. */
  ghost predicate CanAbort(s: Net) {
    exists actions, s' :: Run(s, actions, s') && s'.aborted
  }

  lemma {:induction false} SafeNet(s: Net)
    requires Inv(s) && Numbered(s)
    ensures !CanAbort(s)
  {
    forall actions, s' | Run(s, actions, s')
      ensures !s'.aborted
    {
      RunKeeps(s, actions, s');
    }
  }

  lemma {:induction false} RunNext(s: Net, a: Action, actions: seq<Action>, s': Net)
    requires Can(s, a) && Run(Do(s, a), actions, s')
    ensures Run(s, [a] + actions, s')
  {
    assert ([a] + actions)[1..] == actions;
  }

  /** What q's client has of the file p's client gave out last. */
  function Arrived(v: View): Bytes {
    if exists i :: 0 <= i < |v.fwd| && v.fwd[i].SendRequest? then [] else v.h.bytes
  }

  /** What has arrived, followed by the data in flight, is the first `position` bytes
      of the sender's file. */
  lemma {:induction false} DeliveryIsExact(dataSize: nat, actions: seq<Action>, s: Net, l: Link)
    requires dataSize > 0 && Run(Start(dataSize), actions, s)
    requires ViewOf(s, l).snd.Some?
    ensures var v := ViewOf(s, l);
            && v.h.sent != [] && v.snd.value.position <= v.snd.value.fileSize == |Content(v)|
            && Arrived(v) + Payload(v.fwd) == Content(v)[..v.snd.value.position]
  {
    Reachable(dataSize, actions, s);
    var v := ViewOf(s, l);
    assert LinkInv(v, l.n, s.dataSize);
    ArrivedIsExact(v, l.n, dataSize);
  }

  lemma {:induction false} ArrivedIsExact(v: View, n: Num, dataSize: nat)
    requires LinkInv(v, n, dataSize) && v.snd.Some?
    ensures v.h.sent != [] && v.snd.value.position <= |Content(v)|
    ensures Arrived(v) + Payload(v.fwd) == Content(v)[..v.snd.value.position]
  {
    if Behind(v, n) {
      PayloadHead(v.fwd);
      PayloadHead(v.fwd[1..]);
      assert v.fwd[1..][1..] == v.fwd[2..] && v.fwd[1].SendRequest?;
    } else if Announced(v, n) {
      PayloadHead(v.fwd);
      assert v.fwd[0].SendRequest?;
    } else if Received(v, n) || Acked(v, n) {
      AllArrived(v, n);
    } else {
      OpenArrives(v, n);
    }
  }

  lemma {:induction false} AllArrived(v: View, n: Num)
    requires Received(v, n) || Acked(v, n)
    ensures Arrived(v) == Content(v) && Payload(v.fwd) == []
  {
    if v.fwd != [] { PayloadOne(Fin(n)); }
  }

  lemma {:induction false} OpenArrives(v: View, n: Num)
    requires Open(v, n)
    ensures Arrived(v) == v.h.bytes
  {
  }

  /** The sender's client is told that its file is finished (by a request for no bytes,
      at the end of the file) only when the receiver's client has all of it. */
  lemma {:induction false} FinishedMeansDelivered(dataSize: nat, actions: seq<Action>, s: Net, l: Link)
    requires dataSize > 0 && Run(Start(dataSize), actions, s)
    requires NextBackward(s, l) && s.Channel(l.q, l.p)[0].control == FINISHED
    ensures var (v, v') := (ViewOf(s, l), ViewOf(Do(s, Deliver(l.q, l.p)), l));
            && v.snd.Some? && v.snd.value.position == v.snd.value.fileSize
            && v.h.sent != [] && v.h.bytes == Content(v)
            && v.bwd != [] && v' == Closes(v) && v'.h.acks == |v'.h.sent|
  {
    Reachable(dataSize, actions, s);
    NextInView(s, l);
    var v := ViewOf(s, l);
    CloseKeeps(v, l.n, dataSize);
    CloseView(s, l);
  }

  /** And the receiver's client is told so only when it has all of the file. */
  lemma {:induction false} ReceiverFinishesWhole(dataSize: nat, actions: seq<Action>, s: Net, l: Link)
    requires dataSize > 0 && Run(Start(dataSize), actions, s)
    requires NextForward(s, l) && s.Channel(l.p, l.q)[0] == Fin(l.n)
    ensures var (v, v') := (ViewOf(s, l), ViewOf(Do(s, Deliver(l.p, l.q)), l));
            && v.rcv.Some? && v.rcv.value.position == v.rcv.value.fileSize
            && |v.h.got| < |v.h.sent| && v.h.bytes == v.h.sent[|v.h.got|]
            && v.fwd != [] && v' == Ends(v)
  {
    Reachable(dataSize, actions, s);
    NextInView(s, l);
    var v := ViewOf(s, l);
    EndKeeps(v, l.n, dataSize);
    FirstPacket(v, l.n, dataSize);
    EndView(s, l);
  }

  /** Reuse of a number mixes nothing up: the files finished on a link are exactly the
      first ones sent on it, whole and in order. At most the last one is unfinished
      for the sender's client and at most the last two for the receiver's, and of
      whatever the sender's client takes for finished the receiver's has every byte. */
  lemma {:induction false} FilesArriveInOrder(dataSize: nat, actions: seq<Action>, s: Net, l: Link)
    requires dataSize > 0 && Run(Start(dataSize), actions, s)
    ensures var h := s.HistoryOf(l);
            && |h.got| <= |h.sent| && h.got == h.sent[..|h.got|]
            && |h.sent| - 1 <= h.acks <= |h.sent| && |h.sent| - 2 <= |h.got|
            && |h.got| >= h.acks - 1
            && (|h.got| == h.acks - 1 ==> h.bytes == h.sent[|h.got|])
  {
    Reachable(dataSize, actions, s);
    FilesOfLink(ViewOf(s, l), l.n, s.dataSize);
  }

  lemma {:induction false} FilesOfLink(v: View, n: Num, dataSize: nat)
    requires LinkInv(v, n, dataSize)
    ensures var h := v.h;
            && |h.got| <= |h.sent| && h.got == h.sent[..|h.got|]
            && |h.sent| - 1 <= h.acks <= |h.sent| && |h.sent| - 2 <= |h.got|
            && |h.got| >= h.acks - 1
            && (|h.got| == h.acks - 1 ==> h.bytes == h.sent[|h.got|])
  {
  }

  /** Not a byte of a file is asked for or sent before its receiver's client has accepted
      that very file, and no file is accepted before it is announced. */
  lemma {:induction false} NothingBeforeResume(dataSize: nat, actions: seq<Action>, s: Net, l: Link)
    requires dataSize > 0 && Run(Start(dataSize), actions, s)
    ensures var v := ViewOf(s, l);
            && (v.snd.Some? && (v.snd.value.state == RUNNING || v.h.asked != [] || v.snd.value.position > 0) ==>
                  Resumed(v))
            && (v.snd.Some? && v.rcv == None && |v.h.got| == |v.h.sent| - 1 ==> !Resumed(v))
            && (forall i :: i in v.h.resumed ==> i < |v.h.sent|)
  {
    Reachable(dataSize, actions, s);
    ReachableAccepted(dataSize, actions, s);
    InvAt(s, l);
    AcceptedFirst(ViewOf(s, l), l.n, s.dataSize);
  }

  lemma {:induction false} AcceptedFirst(v: View, n: Num, dataSize: nat)
    requires LinkInv(v, n, dataSize) && Accepted(v)
    ensures v.snd.Some? && (v.snd.value.state == RUNNING || v.h.asked != [] || v.snd.value.position > 0) ==> Resumed(v)
    ensures forall i :: i in v.h.resumed ==> i < |v.h.sent|
  {
    if v.snd.Some? && v.snd.value.position > 0 { StartedIsRunning(v, n, dataSize); }
  }

  /** p's client is told that a file is resumed just when its transfer starts, so before it
      is asked for any of it, and only of files that q's client has accepted. */
  lemma {:induction false} StartsAreReported(dataSize: nat, actions: seq<Action>, s: Net, l: Link)
    requires dataSize > 0 && Run(Start(dataSize), actions, s)
    ensures var v := ViewOf(s, l);
            && v.h.started <= v.h.resumed
            && (v.snd.Some? ==> (v.snd.value.state == RUNNING <==> Started(v)))
            && (v.snd.Some? && (v.h.asked != [] || v.snd.value.position > 0) ==> Started(v))
  {
    Reachable(dataSize, actions, s);
    ReachableAccepted(dataSize, actions, s);
    InvAt(s, l);
    assert Accepted(ViewOf(s, l));
    if ViewOf(s, l).snd.Some? && ViewOf(s, l).snd.value.position > 0 {
      StartedIsRunning(ViewOf(s, l), l.n, s.dataSize);
    }
  }

  // ----- requests -----

  /** Requests are contiguous and at most one is unanswered, which is what the
      `event_pending` flag says; each asks for at least one byte and for no more than
      a packet holds or the file has left. */
  lemma {:induction false} RequestsAreContiguous(dataSize: nat, actions: seq<Action>, s: Net, l: Link, i: nat)
    requires dataSize > 0 && Run(Start(dataSize), actions, s)
    requires ViewOf(s, l).snd.Some? && i < |s.HistoryOf(l).asked|
    ensures var (h, t) := (s.HistoryOf(l), ViewOf(s, l).snd.value);
            && |h.asked| == |h.chunks| + (if t.eventPending then 1 else 0)
            && i <= |h.chunks| && h.asked[i].position == Sum(h.chunks[..i]) < t.fileSize
            && 1 <= h.asked[i].length == Min(dataSize, t.fileSize - h.asked[i].position)
            && t.position == Sum(h.chunks) <= t.fileSize
            && (i < |h.chunks| ==> 1 <= h.chunks[i] <= h.asked[i].length)
  {
    Reachable(dataSize, actions, s);
    var v := ViewOf(s, l);
    assert LinkInv(v, l.n, s.dataSize);
  }

  function CeilDiv(a: nat, b: nat): nat
    requires b > 0
  {
    (a + b - 1) / b
  }

  ghost predicate AnsweredInFull(h: History) {
    forall i :: 0 <= i < |h.chunks| && i < |h.asked| ==> h.chunks[i] == h.asked[i].length
  }

  /** A file takes at most as many chunks as it has bytes, and when every request is
      answered in full, exactly its size over the packet size, rounded up. */
  lemma {:induction false} ChunkCount(dataSize: nat, actions: seq<Action>, s: Net, l: Link)
    requires dataSize > 0 && Run(Start(dataSize), actions, s)
    requires ViewOf(s, l).snd.Some?
    ensures var (h, t) := (s.HistoryOf(l), ViewOf(s, l).snd.value);
            && |h.chunks| <= t.position <= t.fileSize
            && (AnsweredInFull(h) ==> |h.chunks| == CeilDiv(t.position, dataSize))
  {
    Reachable(dataSize, actions, s);
    var v := ViewOf(s, l);
    assert LinkInv(v, l.n, s.dataSize);
    var h := v.h;
    SumAtLeast(h.chunks);
    if AnsweredInFull(h) {
      FullChunks(h, |h.chunks|, v.snd.value.fileSize, dataSize);
      assert h.chunks[..|h.chunks|] == h.chunks;
    }
  }

  lemma {:induction false} SumAtLeast(s: seq<nat>)
    requires forall i :: 0 <= i < |s| ==> s[i] >= 1
    ensures Sum(s) >= |s|
  {
    if s != [] {
      SumAtLeast(s[..|s| - 1]);
    }
  }

  /** After k full answers the position is k packets, or the end of the file. */
  lemma {:induction false} FullChunks(h: History, k: nat, size: nat, dataSize: nat)
    requires dataSize > 0 && Asked(h, size, dataSize) && AnsweredInFull(h)
    requires k <= |h.chunks| <= |h.asked| && forall i :: 0 <= i < |h.chunks| ==> h.chunks[i] >= 1
    ensures k == CeilDiv(Sum(h.chunks[..k]), dataSize)
    ensures Sum(h.chunks[..k]) == Min(k * dataSize, size)
  {
    if k > 0 {
      FullChunks(h, k - 1, size, dataSize);
      var before := Sum(h.chunks[..k - 1]);
      assert h.chunks[..k][..k - 1] == h.chunks[..k - 1];
      assert Sum(h.chunks[..k]) == before + h.chunks[k - 1];
      assert h.asked[k - 1].position == before < size;
      FullStep(k, before, size, dataSize);
    } else {
      CeilZero(dataSize);
    }
  }

  lemma {:induction false} FullStep(k: nat, before: nat, size: nat, d: nat)
    requires d > 0 && k > 0 && before < size && before == Min((k - 1) * d, size)
    ensures before + Min(d, size - before) == Min(k * d, size)
    ensures CeilDiv(before + Min(d, size - before), d) == k
  {
    assert before == (k - 1) * d && k * d == before + d;
    var r := Min(d, size - before);
    Quotient(before + r + d - 1, d, k, r - 1);
  }

  lemma {:induction false} CeilZero(d: nat)
    requires d > 0
    ensures CeilDiv(0, d) == 0
  {
    Quotient(d - 1, d, 0, d - 1);
  }

  lemma {:induction false} Quotient(x: nat, d: nat, q: nat, r: nat)
    requires d > 0 && r < d && x == q * d + r
    ensures x / d == q
  {
    var q' := x / d;
    assert x == q' * d + x % d;
    if q' < q { Less(q', q, d); } else if q < q' { Less(q, q', d); }
  }

  lemma {:induction false} Less(a: nat, b: nat, d: nat)
    requires a < b
    ensures a * d + d <= b * d
    decreases b - a
  {
    assert (a + 1) * d == a * d + d;
    if a + 1 < b { Less(a + 1, b, d); }
  }

  // ----- never stuck -----

  /** While a non-empty file is on a link something can still happen to it: a packet
      on one of its channels can be delivered, a request can go out or be answered,
      or the receiver can accept. */
  lemma {:induction false} TransferNeverStuck(dataSize: nat, actions: seq<Action>, s: Net, l: Link)
    requires dataSize > 0 && Run(Start(dataSize), actions, s)
    requires ViewOf(s, l).snd.Some? && ViewOf(s, l).snd.value.fileSize > 0
    ensures || Can(s, Deliver(l.p, l.q)) || Can(s, Deliver(l.q, l.p))
            || Can(s, Request(l.p, (l.q, l.n as nat))) || Can(s, Answer(l, 1))
            || (Can(s, Resume(l)) && ViewOf(s, l).rcv.Some? && ViewOf(s, l).snd.value.state == PAUSED)
  {
    Reachable(dataSize, actions, s);
    if s.Channel(l.p, l.q) != [] {
      assert Can(s, Deliver(l.p, l.q));
    } else if s.Channel(l.q, l.p) != [] {
      assert Can(s, Deliver(l.q, l.p));
    } else {
      QuietLinkMoves(s, l);
    }
  }

  lemma {:induction false} QuietLinkMoves(s: Net, l: Link)
    requires Inv(s) && s.Channel(l.p, l.q) == [] && s.Channel(l.q, l.p) == []
    requires ViewOf(s, l).snd.Some? && ViewOf(s, l).snd.value.fileSize > 0
    ensures || Can(s, Request(l.p, (l.q, l.n as nat))) || Can(s, Answer(l, 1))
            || (Can(s, Resume(l)) && ViewOf(s, l).rcv.Some? && ViewOf(s, l).snd.value.state == PAUSED)
  {
    InvAt(s, l);
    EmptyView(s, l);
    StuckOpen(ViewOf(s, l), l.n, s.dataSize);
    NextMove(s, l, ViewOf(s, l));
  }

  lemma {:induction false} EmptyView(s: Net, l: Link)
    requires s.Channel(l.p, l.q) == [] && s.Channel(l.q, l.p) == []
    ensures ViewOf(s, l).fwd == [] && ViewOf(s, l).bwd == []
  {
  }

  lemma {:induction false} NextMove(s: Net, l: Link, v: View)
    requires v == ViewOf(s, l) && v.snd.Some? && v.rcv.Some? && v.h.sent != []
    requires v.snd.value.position < v.snd.value.fileSize && v.rcv.value.position < v.rcv.value.fileSize
    requires v.snd.value.state == PAUSED || v.snd.value.state == RUNNING
    requires v.snd.value.eventPending ==> v.h.asked != [] && 1 <= v.h.asked[|v.h.asked| - 1].length
    ensures || Can(s, Request(l.p, (l.q, l.n as nat))) || Can(s, Answer(l, 1))
            || (Can(s, Resume(l)) && v.snd.value.state == PAUSED)
  {
    if v.snd.value.eventPending {
      assert Can(s, Answer(l, 1));
    } else if v.snd.value.state == RUNNING {
      assert Can(s, Request(l.p, (l.q, l.n as nat)));
    } else {
      assert Can(s, Resume(l));
    }
  }

  /** With nothing on its way a transfer is in the middle of its file. */
  lemma {:induction false} StuckOpen(v: View, n: Num, dataSize: nat)
    requires LinkInv(v, n, dataSize) && v.snd.Some? && v.snd.value.fileSize > 0 && v.fwd == [] && v.bwd == []
    ensures v.rcv.Some? && v.rcv.value.position < v.rcv.value.fileSize
    ensures v.h.sent != [] && v.snd.value.position < v.snd.value.fileSize
    ensures v.snd.value.state != PAUSED ==> v.snd.value.state == RUNNING
    ensures v.snd.value.eventPending ==>
              v.h.asked != [] && (dataSize > 0 ==> 1 <= v.h.asked[|v.h.asked| - 1].length)
  {
    assert Open(v, n);
    var k := |v.h.chunks|;
    assert v.h.chunks[..k] == v.h.chunks;
    if v.snd.value.eventPending {
      assert v.h.asked[k].position == Sum(v.h.chunks[..k]);
    }
    assert Payload(v.fwd) == [];
    assert |v.h.bytes| == |Content(v)[..v.snd.value.position]|;
  }
}
