/** What holds of one link at every moment, and that each thing that can happen to a
    link keeps it. A link goes round and round through

      Quiet -> Announced -> Open -> Received -> Acked -> Quiet

    or, when the sender learns of the end first, Received -> Tail -> Quiet, or on to
    the next file with the old FINISHED still on its way, Tail -> Behind -> Announced.
    A sender that was started may send data in each of Behind, Announced and Open. */
module TransferLinks {
  import opened Wrappers
  import opened Transfers
  import opened TransferNet

  function Sum(s: seq<nat>): nat {
    if s == [] then 0 else Sum(s[..|s| - 1]) + s[|s| - 1]
  }

  /** The file p's client gave out last. */
  function Content(v: View): Bytes
    requires v.h.sent != []
  {
    v.h.sent[|v.h.sent| - 1]
  }

  // ----- the sender's requests -----

  /** A request that comes after answers of these sizes. */
  ghost predicate AskedAfter(ask: Ask, chunks: seq<nat>, size: nat, dataSize: nat) {
    ask.position == Sum(chunks) < size && ask.length == Min(dataSize, size - ask.position)
  }

  /** Requests are contiguous, the i-th one starting where the first i answers end,
      and every one asks for what is left or for a full packet. */
  ghost predicate Asked(h: History, size: nat, dataSize: nat) {
    && (forall i :: 0 <= i < |h.asked| && i <= |h.chunks| ==> AskedAfter(h.asked[i], h.chunks[..i], size, dataSize))
    && (forall i :: 0 <= i < |h.chunks| && i < |h.asked| ==> 1 <= h.chunks[i] <= h.asked[i].length)
  }

  /** The sender's entry agrees with what its client has seen. */
  ghost predicate SenderAgrees(v: View) {
    && v.busy && v.snd.Some? && v.h.sent != []
    && v.h.acks == |v.h.sent| - 1
    && var t := v.snd.value;
       && t.fileSize == |Content(v)|
       && t.position == Sum(v.h.chunks) <= t.fileSize
       && |v.h.asked| == |v.h.chunks| + (if t.eventPending then 1 else 0)
       && (t.eventPending ==> t.sizeRequested == v.h.asked[|v.h.asked| - 1].length)
       && t.state != FINISHED_STATE
       && (t.state == PAUSED ==> v.h.asked == [])
  }

  ghost predicate SenderOk(v: View, n: Num, dataSize: nat) {
    SenderAgrees(v) && Asked(v.h, v.snd.value.fileSize, dataSize)
  }

  // ----- the seven phases -----

  function Fin(n: Num): Packet { Control(false, n, FINISHED) }
  function Ack(n: Num): Packet { Control(true, n, FINISHED) }
  function Accept(n: Num): Packet { Control(true, n, ACCEPT) }
  function Go(n: Num): Packet { Control(false, n, ACCEPT) }

  /** The first k packets carry data. */
  ghost predicate AllData(n: Num, packets: seq<Packet>, k: int) {
    && k <= |packets|
    && forall i :: 0 <= i < k ==> packets[i].Data? && packets[i].filenumber == n && packets[i].bytes != []
  }

  /** The first k packets are RESUMEs. */
  ghost predicate AllAccept(n: Num, packets: seq<Packet>, k: int) {
    && k <= |packets|
    && forall i :: 0 <= i < k ==> packets[i] == Accept(n)
  }

  /** The sender's own RESUMEs. */
  ghost predicate AllGo(n: Num, packets: seq<Packet>) {
    forall i :: 0 <= i < |packets| ==> packets[i] == Go(n)
  }

  /** RESUMEs that came too late to matter, then the receiver's FINISHED. */
  ghost predicate AcceptsThenAck(n: Num, packets: seq<Packet>) {
    packets != [] && packets[|packets| - 1] == Ack(n) && AllAccept(n, packets, |packets| - 1)
  }

  /** q has all of this file and still has its entry. */
  ghost predicate Complete(v: View, file: Bytes) {
    && file != [] && v.h.bytes == file
    && v.rcv == Some(Transfer(PAUSED, |file|, |file|, false, 0))
  }

  /** The first k files are finished for q's client. */
  ghost predicate Got(v: View, k: int) {
    0 <= k <= |v.h.sent| && v.h.got == v.h.sent[..k]
  }

  ghost predicate Quiet(v: View, n: Num) {
    v.snd == None && v.rcv == None && v.fwd == [] && v.bwd == [] && !v.busy
    && v.h.acks == |v.h.sent| && Got(v, |v.h.sent|)
  }

  ghost predicate Tail(v: View, n: Num) {
    v.snd == None && v.fwd == [Fin(n)] && v.bwd == [] && !v.busy
    && v.h.acks == |v.h.sent| > 0 && Got(v, |v.h.sent| - 1) && Complete(v, Content(v))
  }

  /** Data on the way, followed by the sender's FINISHED if that was the last of it. */
  ghost predicate DataThenFin(n: Num, packets: seq<Packet>, all: bool) {
    if all then packets != [] && packets[|packets| - 1] == Fin(n) && AllData(n, packets, |packets| - 1)
    else AllData(n, packets, |packets|)
  }

  /** The packets of the latest file, after its announcement: what has arrived and what
      they carry is what has been sent. For an empty file there are only RESUMEs. */
  ghost predicate Flow(v: View, n: Num, arrived: Bytes, packets: seq<Packet>) {
    && v.snd.Some? && v.h.sent != [] && v.snd.value.position <= |Content(v)|
    && arrived + Payload(packets) == Content(v)[..v.snd.value.position]
    && if Content(v) == [] then AllGo(n, packets)
       else DataThenFin(n, packets, v.snd.value.position == v.snd.value.fileSize)
  }

  ghost predicate Behind(v: View, n: Num) {
    && |v.h.sent| > 1 && |v.fwd| >= 2
    && v.fwd[0] == Fin(n) && v.fwd[1] == SendRequest(n, |Content(v)|) && Flow(v, n, [], v.fwd[2..])
    && AllAccept(n, v.bwd, |v.bwd|)
    && Got(v, |v.h.sent| - 2) && Complete(v, v.h.sent[|v.h.sent| - 2])
  }

  ghost predicate Announced(v: View, n: Num) {
    && v.h.sent != [] && v.fwd != []
    && v.fwd[0] == SendRequest(n, |Content(v)|) && Flow(v, n, [], v.fwd[1..])
    && AllAccept(n, v.bwd, |v.bwd|)
    && Got(v, |v.h.sent| - 1) && v.rcv == None
  }

  /** The receiver's entry is only ever started for an empty file. */
  ghost predicate ReceiverOk(v: View) {
    && v.rcv.Some? && v.h.sent != []
    && v.rcv.value == Transfer(v.rcv.value.state, |v.h.bytes|, |Content(v)|, false, 0)
    && (v.rcv.value.state == PAUSED || (v.rcv.value.state == RUNNING && Content(v) == []))
    && (|v.h.bytes| < |Content(v)| || Content(v) == [])
  }

  ghost predicate Open(v: View, n: Num) {
    && ReceiverOk(v) && Flow(v, n, v.h.bytes, v.fwd)
    && AllAccept(n, v.bwd, |v.bwd|)
    && Got(v, |v.h.sent| - 1)
  }

  /** q's client has accepted the file p's client gave out last. */
  ghost predicate Resumed(v: View) {
    |v.h.sent| - 1 in v.h.resumed
  }

  /** p's client was told that the file it gave out last is resumed. */
  ghost predicate Started(v: View) {
    |v.h.sent| - 1 in v.h.started
  }

  /** Only files that have been announced are accepted, only a file that has been
      accepted is started, and just when it is, p's client is told so. */
  ghost predicate Accepted(v: View) {
    && (forall i :: i in v.h.resumed ==> i < |v.h.got| || (v.rcv.Some? && i == |v.h.got|))
    && (v.snd.Some? && (v.snd.value.state == RUNNING || v.bwd != []) ==> Resumed(v))
    && v.h.started <= v.h.resumed
    && (forall i :: i in v.h.started ==> i < |v.h.sent|)
    && (v.snd.Some? ==> (v.snd.value.state == RUNNING <==> Started(v)))
  }

  /** The sender has sent everything. */
  ghost predicate AllSent(v: View) {
    v.snd.Some? && v.snd.value.position == v.snd.value.fileSize && !v.snd.value.eventPending
  }

  ghost predicate Received(v: View, n: Num) {
    && AllSent(v) && v.h.sent != [] && v.fwd == [Fin(n)] && AcceptsThenAck(n, v.bwd)
    && Got(v, |v.h.sent| - 1) && Complete(v, Content(v))
  }

  ghost predicate Acked(v: View, n: Num) {
    && AllSent(v) && v.h.sent != [] && v.fwd == [] && v.rcv == None && AcceptsThenAck(n, v.bwd)
    && Got(v, |v.h.sent|) && v.h.bytes == Content(v) != []
  }

  ghost predicate LinkInv(v: View, n: Num, dataSize: nat) {
    if v.snd == None then Quiet(v, n) || Tail(v, n)
    else
      && SenderOk(v, n, dataSize)
      && (Behind(v, n) || Announced(v, n) || Open(v, n) || Received(v, n) || Acked(v, n))
  }

  // ----- sums and payloads -----

  lemma {:induction false} SumAppend(s: seq<nat>, x: nat)
    ensures Sum(s + [x]) == Sum(s) + x
  {
    assert (s + [x])[..|s|] == s;
  }

  lemma {:induction false} PayloadConcat(a: seq<Packet>, b: seq<Packet>)
    ensures Payload(a + b) == Payload(a) + Payload(b)
  {
    if b == [] {
      assert a + b == a;
    } else {
      var n := |b| - 1;
      PayloadConcat(a, b[..n]);
      assert (a + b)[..|a + b| - 1] == a + b[..n];
    }
  }

  lemma {:induction false} PayloadOne(p: Packet)
    ensures Payload([p]) == if p.Data? then p.bytes else []
  {
    assert [p][..0] == [];
    assert Payload([]) == [];
  }

  lemma {:induction false} PayloadHead(packets: seq<Packet>)
    requires packets != []
    ensures Payload(packets) == (if packets[0].Data? then packets[0].bytes else []) + Payload(packets[1..])
  {
    assert packets == [packets[0]] + packets[1..];
    PayloadConcat([packets[0]], packets[1..]);
    PayloadOne(packets[0]);
  }

  // ----- p's client sends a file -----

  function Sends(v: View, n: Num, content: Bytes): View {
    v.(snd := Some(NewTransfer(|content|)), fwd := v.fwd + [SendRequest(n, |content|)], busy := true,
       h := v.h.(sent := v.h.sent + [content], asked := [], chunks := []))
  }

  lemma {:induction false} SendKeeps(v: View, n: Num, dataSize: nat, content: Bytes)
    requires LinkInv(v, n, dataSize) && v.snd == None
    ensures LinkInv(Sends(v, n, content), n, dataSize)
  {
    var v' := Sends(v, n, content);
    assert Content(v') == content && content[..0] == [] && Payload([]) == [];
    if Quiet(v, n) {
      assert v'.fwd[1..] == [];
      assert Announced(v', n);
    } else {
      assert v'.h.sent[|v'.h.sent| - 2] == Content(v);
      assert v'.fwd[2..] == [];
      assert Behind(v', n);
    }
  }

  // ----- q's client accepts it -----

  function Resumes(v: View, n: Num): View {
    v.(bwd := v.bwd + [Accept(n)], h := v.h.(resumed := v.h.resumed + {|v.h.got|}))
  }

  lemma {:induction false} ResumeKeeps(v: View, n: Num, dataSize: nat)
    requires LinkInv(v, n, dataSize) && v.rcv.Some?
    requires v.rcv.value.position < v.rcv.value.fileSize || v.rcv.value.fileSize == 0
    ensures LinkInv(Resumes(v, n), n, dataSize)
  {
    UnfinishedIsOpen(v, n, dataSize);
    assert Open(Resumes(v, n), n);
  }

  lemma {:induction false} UnfinishedIsOpen(v: View, n: Num, dataSize: nat)
    requires LinkInv(v, n, dataSize) && v.rcv.Some?
    requires v.rcv.value.position < v.rcv.value.fileSize || v.rcv.value.fileSize == 0
    ensures SenderOk(v, n, dataSize) && Open(v, n)
  {
  }

  // ----- p's client accepts its own file -----

  function OwnResumes(v: View, n: Num): View {
    v.(fwd := v.fwd + [Go(n)])
  }

  lemma {:induction false} OwnResumeKeeps(v: View, n: Num, dataSize: nat)
    requires LinkInv(v, n, dataSize) && v.snd.Some? && v.snd.value.fileSize == 0
    ensures LinkInv(OwnResumes(v, n), n, dataSize)
  {
    var v' := OwnResumes(v, n);
    if Behind(v, n) {
      GoFlow(v, n, [], v.fwd[2..]);
      assert v'.fwd[2..] == v.fwd[2..] + [Go(n)];
      assert Behind(v', n);
    } else if Announced(v, n) {
      GoFlow(v, n, [], v.fwd[1..]);
      assert v'.fwd[1..] == v.fwd[1..] + [Go(n)];
      assert Announced(v', n);
    } else {
      GoFlow(v, n, v.h.bytes, v.fwd);
      assert Open(v', n);
    }
  }

  lemma {:induction false} GoFlow(v: View, n: Num, arrived: Bytes, packets: seq<Packet>)
    requires Flow(v, n, arrived, packets) && Content(v) == []
    ensures Flow(OwnResumes(v, n), n, arrived, packets + [Go(n)])
  {
    PayloadConcat(packets, [Go(n)]);
    PayloadOne(Go(n));
    assert arrived + (Payload(packets) + []) == arrived + Payload(packets);
  }

  // ----- p asks its client for a chunk and gets one -----

  function Asks(v: View, dataSize: nat): View
    requires v.snd.Some? && v.snd.value.position <= v.snd.value.fileSize
  {
    var t := Requested(v.snd.value, dataSize);
    v.(snd := Some(t), h := v.h.(asked := v.h.asked + [Ask(t.position, t.sizeRequested)]))
  }

  lemma {:induction false} AskKeepsAsked(h: History, size: nat, dataSize: nat, position: nat)
    requires dataSize > 0 && Asked(h, size, dataSize) && |h.asked| == |h.chunks|
    requires position == Sum(h.chunks) < size
    ensures Asked(h.(asked := h.asked + [Ask(position, Min(dataSize, size - position))]), size, dataSize)
  {
    var h' := h.(asked := h.asked + [Ask(position, Min(dataSize, size - position))]);
    assert h.chunks[..|h.chunks|] == h.chunks;
    forall i | 0 <= i < |h'.asked| && i <= |h'.chunks|
      ensures AskedAfter(h'.asked[i], h'.chunks[..i], size, dataSize)
    {
      if i < |h.asked| { assert AskedAfter(h.asked[i], h.chunks[..i], size, dataSize); }
    }
  }

  lemma {:induction false} AskAgrees(v: View, dataSize: nat)
    requires dataSize > 0 && SenderAgrees(v) && Due(v.snd.value)
    ensures SenderAgrees(Asks(v, dataSize))
    ensures Requested(v.snd.value, dataSize).sizeRequested > 0
  {
  }

  lemma {:induction false} AskKeepsSender(v: View, n: Num, dataSize: nat)
    requires dataSize > 0 && SenderOk(v, n, dataSize) && Due(v.snd.value)
    ensures SenderOk(Asks(v, dataSize), n, dataSize)
    ensures Requested(v.snd.value, dataSize).sizeRequested > 0
  {
    AskAgrees(v, dataSize);
    AskKeepsAsked(v.h, v.snd.value.fileSize, dataSize, v.snd.value.position);
  }

  lemma {:induction false} AskKeeps(v: View, n: Num, dataSize: nat)
    requires dataSize > 0 && LinkInv(v, n, dataSize) && v.snd.Some? && Due(v.snd.value)
    ensures v.snd.value.position < v.snd.value.fileSize
    ensures LinkInv(Asks(v, dataSize), n, dataSize)
    ensures Requested(v.snd.value, dataSize).sizeRequested > 0
  {
    AskKeepsSender(v, n, dataSize);
    AskKeepsPhase(v, n, dataSize);
  }

  lemma {:induction false} AskKeepsPhase(v: View, n: Num, dataSize: nat)
    requires SenderAgrees(v) && Due(v.snd.value) && (Behind(v, n) || Announced(v, n) || Open(v, n))
    ensures var v' := Asks(v, dataSize); Behind(v', n) || Announced(v', n) || Open(v', n)
  {
    var v' := Asks(v, dataSize);
    if Behind(v, n) {
      assert Flow(v', n, [], v'.fwd[2..]);
    } else if Announced(v, n) {
      assert Flow(v', n, [], v'.fwd[1..]);
    } else {
      assert Flow(v', n, v'.h.bytes, v'.fwd);
    }
  }

  function Answers(v: View, n: Num, k: nat): View
    requires v.snd.Some? && v.h.sent != []
  {
    var t := v.snd.value.(position := v.snd.value.position + k, eventPending := false);
    v.(snd := Some(t),
       fwd := v.fwd + [Data(n, Chunk(Content(v), v.snd.value.position, k))] +
              if t.position == t.fileSize then [Fin(n)] else [],
       h := v.h.(chunks := v.h.chunks + [k]))
  }

  lemma {:induction false} AnswerKeepsAsked(h: History, size: nat, dataSize: nat, k: nat)
    requires Asked(h, size, dataSize) && |h.asked| == |h.chunks| + 1
    requires 1 <= k <= h.asked[|h.asked| - 1].length
    ensures Asked(h.(chunks := h.chunks + [k]), size, dataSize)
  {
    var h' := h.(chunks := h.chunks + [k]);
    forall i | 0 <= i < |h'.asked| && i <= |h'.chunks|
      ensures AskedAfter(h'.asked[i], h'.chunks[..i], size, dataSize)
    {
      assert h'.chunks[..i] == h.chunks[..i];
      assert AskedAfter(h.asked[i], h.chunks[..i], size, dataSize);
    }
    assert h.chunks[..|h.chunks|] == h.chunks;
  }

  /** The open request is the one for the sender's position. */
  lemma {:induction false} OpenRequest(v: View, n: Num, dataSize: nat)
    requires SenderOk(v, n, dataSize) && v.snd.value.eventPending
    ensures |v.h.asked| == |v.h.chunks| + 1
    ensures var ask := v.h.asked[|v.h.asked| - 1];
            && ask.position == v.snd.value.position < v.snd.value.fileSize
            && ask.length == Min(dataSize, v.snd.value.fileSize - ask.position)
  {
    assert v.h.chunks[..|v.h.chunks|] == v.h.chunks;
    assert v.h.asked[|v.h.chunks|].position == Sum(v.h.chunks[..|v.h.chunks|]);
  }

  lemma {:induction false} AnswerAgrees(v: View, n: Num, k: nat)
    requires SenderAgrees(v) && v.snd.value.eventPending && v.snd.value.position + k <= v.snd.value.fileSize
    ensures SenderAgrees(Answers(v, n, k))
  {
    SumAppend(v.h.chunks, k);
  }

  lemma {:induction false} AnswerKeepsSender(v: View, n: Num, dataSize: nat, k: nat)
    requires SenderOk(v, n, dataSize) && v.snd.value.eventPending
    requires 1 <= k <= v.h.asked[|v.h.asked| - 1].length
    ensures v.h.asked[|v.h.asked| - 1].position == v.snd.value.position
    ensures v.snd.value.position + k <= v.snd.value.fileSize && k <= dataSize
    ensures SenderOk(Answers(v, n, k), n, dataSize)
  {
    OpenRequest(v, n, dataSize);
    AnswerAgrees(v, n, k);
    AnswerKeepsAsked(v.h, v.snd.value.fileSize, dataSize, k);
  }

  lemma {:induction false} AnswerKeeps(v: View, n: Num, dataSize: nat, k: nat)
    requires LinkInv(v, n, dataSize) && v.snd.Some? && v.snd.value.eventPending
    requires 1 <= k <= v.h.asked[|v.h.asked| - 1].length
    ensures v.h.asked[|v.h.asked| - 1].position == v.snd.value.position
    ensures v.snd.value.position + k <= v.snd.value.fileSize && k <= dataSize
    ensures LinkInv(Answers(v, n, k), n, dataSize)
  {
    AnswerKeepsSender(v, n, dataSize, k);
    AnswerKeepsPhase(v, n, k);
  }

  /** Sending data, and the sender's FINISHED after the last of it. */
  lemma {:induction false} MoreData(n: Num, fwd: seq<Packet>, chunk: Bytes, last: bool) returns (fwd': seq<Packet>)
    requires AllData(n, fwd, |fwd|) && chunk != []
    ensures fwd' == fwd + [Data(n, chunk)] + if last then [Fin(n)] else []
    ensures DataThenFin(n, fwd', last)
    ensures Payload(fwd') == Payload(fwd) + chunk
  {
    var d := fwd + [Data(n, chunk)];
    PayloadConcat(fwd, [Data(n, chunk)]);
    PayloadOne(Data(n, chunk));
    if last {
      fwd' := d + [Fin(n)];
      PayloadConcat(d, [Fin(n)]);
      PayloadOne(Fin(n));
    } else {
      fwd' := d;
      assert fwd' == d + [];
    }
  }

  /** What an answer puts on the way. */
  function Sent(v: View, n: Num, k: nat): seq<Packet>
    requires v.snd.Some? && v.h.sent != []
  {
    [Data(n, Chunk(Content(v), v.snd.value.position, k))] +
    if v.snd.value.position + k == v.snd.value.fileSize then [Fin(n)] else []
  }

  lemma {:induction false} AnswerFlow(v: View, n: Num, k: nat, arrived: Bytes, packets: seq<Packet>)
    requires Flow(v, n, arrived, packets)
    requires 1 <= k && v.snd.value.position + k <= v.snd.value.fileSize == |Content(v)|
    ensures Flow(Answers(v, n, k), n, arrived, packets + Sent(v, n, k))
  {
    var t := v.snd.value;
    var packets' := MoreOfFile(n, Content(v), t.position, k, arrived, packets);
    assert packets' == packets + Sent(v, n, k);
  }

  /** The next k bytes of a file go out. */
  lemma {:induction false} MoreOfFile(n: Num, c: Bytes, position: nat, k: nat, arrived: Bytes, packets: seq<Packet>)
    returns (packets': seq<Packet>)
    requires 1 <= k && position + k <= |c| && AllData(n, packets, |packets|)
    requires arrived + Payload(packets) == c[..position]
    ensures packets' == packets +
              ([Data(n, Chunk(c, position, k))] + if position + k == |c| then [Fin(n)] else [])
    ensures arrived + Payload(packets') == c[..position + k]
    ensures DataThenFin(n, packets', position + k == |c|)
  {
    ChunkExtends(c, position, k);
    packets' := MoreData(n, packets, Chunk(c, position, k), position + k == |c|);
    Associates(arrived, Payload(packets), Chunk(c, position, k));
  }

  lemma {:induction false} ChunkExtends(c: Bytes, position: nat, k: nat)
    requires position + k <= |c|
    ensures |Chunk(c, position, k)| == k && c[..position] + Chunk(c, position, k) == c[..position + k]
  {
  }

  lemma {:induction false} Associates(a: Bytes, b: Bytes, c: Bytes)
    ensures a + (b + c) == (a + b) + c
  {
  }

  lemma {:induction false} AnswerKeepsPhase(v: View, n: Num, k: nat)
    requires Behind(v, n) || Announced(v, n) || Open(v, n)
    requires 1 <= k && v.snd.Some? && v.snd.value.position + k <= v.snd.value.fileSize == |Content(v)|
    ensures var v' := Answers(v, n, k); Behind(v', n) || Announced(v', n) || Open(v', n)
  {
    if Behind(v, n) {
      AnswerBehind(v, n, k);
    } else if Announced(v, n) {
      AnswerAnnounced(v, n, k);
    } else {
      AnswerOpen(v, n, k);
    }
  }

  lemma {:induction false} AnswerBehind(v: View, n: Num, k: nat)
    requires Behind(v, n) && 1 <= k && v.snd.value.position + k <= v.snd.value.fileSize == |Content(v)|
    ensures Behind(Answers(v, n, k), n)
  {
    AnswerFlow(v, n, k, [], v.fwd[2..]);
    AnswerAppends(v, n, k);
    assert (v.fwd + Sent(v, n, k))[2..] == v.fwd[2..] + Sent(v, n, k);
  }

  lemma {:induction false} AnswerAnnounced(v: View, n: Num, k: nat)
    requires Announced(v, n) && 1 <= k && v.snd.value.position + k <= v.snd.value.fileSize == |Content(v)|
    ensures Announced(Answers(v, n, k), n)
  {
    AnswerFlow(v, n, k, [], v.fwd[1..]);
    AnswerAppends(v, n, k);
    assert (v.fwd + Sent(v, n, k))[1..] == v.fwd[1..] + Sent(v, n, k);
  }

  lemma {:induction false} AnswerOpen(v: View, n: Num, k: nat)
    requires Open(v, n) && 1 <= k && v.snd.value.position + k <= v.snd.value.fileSize == |Content(v)|
    ensures Open(Answers(v, n, k), n)
  {
    AnswerFlow(v, n, k, v.h.bytes, v.fwd);
    AnswerAppends(v, n, k);
  }

  lemma {:induction false} AnswerAppends(v: View, n: Num, k: nat)
    requires v.snd.Some? && v.h.sent != []
    ensures Answers(v, n, k).fwd == v.fwd + Sent(v, n, k)
  {
  }

  // ----- q receives the next packet of the link -----

  /** `file_send_request` at q. */
  function Announces(v: View): View
    requires v.fwd != [] && v.fwd[0].SendRequest?
  {
    v.(rcv := Some(NewTransfer(v.fwd[0].fileSize)), fwd := v.fwd[1..], h := v.h.(bytes := []))
  }

  lemma {:induction false} AnnounceKeeps(v: View, n: Num, dataSize: nat)
    requires LinkInv(v, n, dataSize) && v.fwd != [] && v.fwd[0].SendRequest?
    ensures v.rcv == None && LinkInv(Announces(v), n, dataSize)
  {
    FirstPacket(v, n, dataSize);
    SenderFrame(v, Announces(v), n, dataSize);
    assert Flow(Announces(v), n, [], v.fwd[1..]);
    assert Open(Announces(v), n);
  }

  /** What the first packet of a link tells about its phase. */
  lemma {:induction false} FirstPacket(v: View, n: Num, dataSize: nat)
    requires LinkInv(v, n, dataSize) && v.fwd != []
    ensures v.fwd[0].SendRequest? ==> Announced(v, n)
    ensures v.fwd[0].Data? ==> Open(v, n) && Content(v) != []
    ensures v.fwd[0].Control? ==>
              || (v.fwd[0] == Fin(n) && (Tail(v, n) || Behind(v, n) || Received(v, n)))
              || (v.fwd[0] == Go(n) && Open(v, n) && Content(v) == [])
  {
    if Open(v, n) && Content(v) != [] {
      OpenHasData(v, n);
    }
  }

  lemma {:induction false} OpenHasData(v: View, n: Num)
    requires Open(v, n) && v.fwd != [] && v.snd.value.fileSize == |Content(v)| > 0
    ensures v.fwd[0].Data?
  {
    if AllGone(v) && |v.fwd| == 1 {
      PayloadOne(Fin(n));
      assert false;
    }
  }

  /** `file_data` at q. */
  function Takes(v: View, n: Num): View
    requires v.fwd != [] && v.fwd[0].Data? && v.rcv.Some?
  {
    var d := v.fwd[0].bytes;
    var r := v.rcv.value.(position := v.rcv.value.position + |d|);
    v.(rcv := Some(r), fwd := v.fwd[1..],
       bwd := v.bwd + if r.position == r.fileSize then [Ack(n)] else [],
       h := v.h.(bytes := WriteAt(v.h.bytes, v.rcv.value.position, d)))
  }

  /** What q does touches nothing of the sender. */
  lemma {:induction false} SenderFrame(v: View, v': View, n: Num, dataSize: nat)
    requires SenderOk(v, n, dataSize)
    requires v'.snd == v.snd && v'.busy == v.busy
    requires v'.h == v.h.(bytes := v'.h.bytes, got := v'.h.got)
    ensures SenderOk(v', n, dataSize)
  {
  }

  lemma {:induction false} TakeKeeps(v: View, n: Num, dataSize: nat)
    requires LinkInv(v, n, dataSize) && v.fwd != [] && v.fwd[0].Data?
    ensures v.rcv.Some? && LinkInv(Takes(v, n), n, dataSize)
  {
    FirstPacket(v, n, dataSize);
    TakeKeepsOpen(v, n, dataSize);
  }

  lemma {:induction false} TakeKeepsOpen(v: View, n: Num, dataSize: nat)
    requires SenderOk(v, n, dataSize) && Open(v, n) && v.fwd != [] && v.fwd[0].Data? && Content(v) != []
    ensures LinkInv(Takes(v, n), n, dataSize)
  {
    SenderFrame(v, Takes(v, n), n, dataSize);
    if Takes(v, n).rcv.value.position == |Content(v)| {
      TakeLast(v, n, dataSize);
    } else {
      TakeMore(v, n);
    }
  }

  lemma {:induction false} TakeMore(v: View, n: Num)
    requires Open(v, n) && v.fwd != [] && v.fwd[0].Data? && v.snd.value.fileSize == |Content(v)| > 0
    requires Takes(v, n).rcv.value.position != |Content(v)|
    ensures Open(Takes(v, n), n)
  {
    TakeGrows(v, n);
    assert Takes(v, n).bwd == v.bwd;
    assert Flow(Takes(v, n), n, Takes(v, n).h.bytes, Takes(v, n).fwd);
  }

  /** The receiver's bytes and the data on the way stay the sender's beginning. */
  lemma {:induction false} TakeGrows(v: View, n: Num)
    requires Open(v, n) && v.fwd != [] && v.fwd[0].Data? && v.snd.value.fileSize == |Content(v)| > 0
    ensures var v' := Takes(v, n);
            && v'.h.bytes == v.h.bytes + v.fwd[0].bytes
            && v'.h.bytes + Payload(v'.fwd) == Content(v)[..v.snd.value.position]
            && v'.rcv.value.position == |v'.h.bytes| <= |Content(v)|
            && DataThenFin(n, v'.fwd, AllGone(v))
            && |v'.h.bytes| > 0
  {
    var v' := Takes(v, n);
    PayloadHead(v.fwd);
    assert v.h.bytes[..|v.h.bytes|] == v.h.bytes;
    assert v.h.bytes + (v.fwd[0].bytes + Payload(v.fwd[1..])) == (v.h.bytes + v.fwd[0].bytes) + Payload(v.fwd[1..]);
  }

  ghost predicate AllGone(v: View) {
    v.snd.Some? && v.snd.value.position == v.snd.value.fileSize && v.snd.value.fileSize > 0
  }

  /** The last byte arrives only when the sender has sent all. */
  lemma {:induction false} TakeLast(v: View, n: Num, dataSize: nat)
    requires Open(v, n) && v.fwd != [] && v.fwd[0].Data? && SenderOk(v, n, dataSize) && Content(v) != []
    requires Takes(v, n).rcv.value.position == |Content(v)|
    ensures Received(Takes(v, n), n)
  {
    TakeGrows(v, n);
    var v' := Takes(v, n);
    assert |Content(v)[..v.snd.value.position]| >= |Content(v)|;
    assert Content(v)[..v.snd.value.position] == Content(v);
    assert Payload(v'.fwd) == [] && v'.h.bytes == Content(v);
    NoPayload(n, v'.fwd);
    SentAllAsked(v, n, dataSize);
  }

  /** Only a running transfer has sent anything. */
  lemma {:induction false} StartedIsRunning(v: View, n: Num, dataSize: nat)
    requires SenderOk(v, n, dataSize) && v.snd.value.position > 0
    ensures v.snd.value.state == RUNNING
  {
    assert v.h.chunks != [];
  }

  /** With every byte sent no request is open. */
  lemma {:induction false} SentAllAsked(v: View, n: Num, dataSize: nat)
    requires SenderOk(v, n, dataSize) && v.snd.value.position == v.snd.value.fileSize
    ensures !v.snd.value.eventPending
  {
    assert v.h.chunks[..|v.h.chunks|] == v.h.chunks;
  }

  lemma {:induction false} NoPayload(n: Num, packets: seq<Packet>)
    requires DataThenFin(n, packets, true) && Payload(packets) == []
    ensures packets == [Fin(n)]
  {
    if |packets| > 1 {
      PayloadHead(packets);
    }
  }

  /** The sender's FINISHED at q. */
  function Ends(v: View): View
    requires v.fwd != []
  {
    v.(rcv := None, fwd := v.fwd[1..], h := v.h.(got := v.h.got + [v.h.bytes]))
  }

  lemma {:induction false} EndKeeps(v: View, n: Num, dataSize: nat)
    requires LinkInv(v, n, dataSize) && v.fwd != [] && v.fwd[0] == Fin(n)
    ensures v.rcv.Some? && v.rcv.value.position == v.rcv.value.fileSize == |v.h.bytes|
    ensures |v.h.got| < |v.h.sent| && v.h.bytes == v.h.sent[|v.h.got|]
    ensures LinkInv(Ends(v), n, dataSize)
  {
    FirstPacket(v, n, dataSize);
    if Tail(v, n) {
      EndGot(v, |v.h.sent| - 1);
      assert Quiet(Ends(v), n);
    } else {
      EndKeepsOpen(v, n, dataSize);
    }
  }

  lemma {:induction false} EndGot(v: View, k: nat)
    requires k < |v.h.sent| && Got(v, k) && Complete(v, v.h.sent[k]) && v.fwd != []
    ensures |v.h.got| == k && Got(Ends(v), k + 1)
  {
    assert v.h.sent[..k] + [v.h.sent[k]] == v.h.sent[..k + 1];
  }

  lemma {:induction false} EndKeepsOpen(v: View, n: Num, dataSize: nat)
    requires SenderOk(v, n, dataSize) && (Behind(v, n) || Received(v, n))
    ensures |v.h.got| < |v.h.sent| && v.h.bytes == v.h.sent[|v.h.got|]
    ensures LinkInv(Ends(v), n, dataSize)
  {
    SenderFrame(v, Ends(v), n, dataSize);
    if Behind(v, n) {
      EndGot(v, |v.h.sent| - 2);
      assert Ends(v).fwd[1..] == v.fwd[2..];
      assert Flow(Ends(v), n, [], Ends(v).fwd[1..]);
      assert Announced(Ends(v), n);
    } else {
      EndGot(v, |v.h.sent| - 1);
      assert Acked(Ends(v), n);
    }
  }

  /** The sender's RESUME at q. */
  function Goes(v: View): View
    requires v.fwd != [] && v.rcv.Some?
  {
    v.(rcv := Some(v.rcv.value.(state := RUNNING)), fwd := v.fwd[1..])
  }

  lemma {:induction false} GoKeeps(v: View, n: Num, dataSize: nat)
    requires LinkInv(v, n, dataSize) && v.fwd != [] && v.fwd[0] == Go(n)
    ensures v.rcv.Some? && LinkInv(Goes(v), n, dataSize)
  {
    FirstPacket(v, n, dataSize);
    PayloadHead(v.fwd);
    assert v.h.bytes + ([] + Payload(v.fwd[1..])) == v.h.bytes + Payload(v.fwd[1..]);
    SenderFrame(v, Goes(v), n, dataSize);
    assert Flow(Goes(v), n, v.h.bytes, v.fwd[1..]);
    assert Open(Goes(v), n);
  }

  // ----- p receives the next packet of the link -----

  /** ACCEPT at p. */
  function Starts(v: View): View
    requires v.bwd != [] && v.snd.Some?
  {
    v.(snd := Some(v.snd.value.(state := RUNNING)), bwd := v.bwd[1..],
       h := v.h.(started := v.h.started + {v.h.acks}))
  }

  lemma {:induction false} StartKeeps(v: View, n: Num, dataSize: nat)
    requires LinkInv(v, n, dataSize) && v.bwd != [] && v.bwd[0] == Accept(n)
    ensures v.snd.Some? && LinkInv(Starts(v), n, dataSize)
  {
    var v' := Starts(v);
    assert SenderOk(v', n, dataSize);
    if Received(v, n) || Acked(v, n) {
      assert AcceptsThenAck(n, v'.bwd);
      if Received(v, n) { assert Received(v', n); } else { assert Acked(v', n); }
    } else {
      StartKeepsPhase(v, n);
    }
  }

  lemma {:induction false} StartKeepsPhase(v: View, n: Num)
    requires v.bwd != [] && (Behind(v, n) || Announced(v, n) || Open(v, n))
    ensures var v' := Starts(v); Behind(v', n) || Announced(v', n) || Open(v', n)
  {
    var v' := Starts(v);
    if Behind(v, n) {
      assert Flow(v', n, [], v'.fwd[2..]);
    } else if Announced(v, n) {
      assert Flow(v', n, [], v'.fwd[1..]);
    } else {
      assert Flow(v', n, v'.h.bytes, v'.fwd);
    }
  }

  /** The receiver's FINISHED at p. */
  function Closes(v: View): View
    requires v.bwd != []
  {
    v.(snd := None, bwd := v.bwd[1..], busy := false, h := v.h.(acks := v.h.acks + 1))
  }

  lemma {:induction false} CloseKeeps(v: View, n: Num, dataSize: nat)
    requires LinkInv(v, n, dataSize) && v.bwd != [] && v.bwd[0] == Ack(n)
    ensures v.snd.Some? && v.snd.value.position == v.snd.value.fileSize
    ensures v.h.sent != [] && v.h.acks == |v.h.sent| - 1 && v.h.bytes == Content(v)
    ensures LinkInv(Closes(v), n, dataSize)
  {
    assert Received(v, n) || Acked(v, n);
    assert |v.bwd| == 1;
    var v' := Closes(v);
    if Received(v, n) { assert Tail(v', n); } else { assert Quiet(v', n); }
  }

  /** Nothing but ACCEPT and FINISHED comes back. */
  lemma {:induction false} FirstBack(v: View, n: Num, dataSize: nat)
    requires LinkInv(v, n, dataSize) && v.bwd != []
    ensures v.bwd[0] == Accept(n) || v.bwd[0] == Ack(n)
  {
  }
}
