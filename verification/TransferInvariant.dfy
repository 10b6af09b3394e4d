/** Every step of the net is a step of one link and leaves all other links as they
    are; hence the invariant of the links holds in every run.

    - A channel carries the packets of all links between two peers, but what a call adds
      to it, or a delivery takes off it, is seen by one link alone.
    - A client takes note of an event in the history of the link that the event names,
      and that is the link the call or callback is about (`Concerns`).
    - So each action is one of the steps of `TransferLinks` on one link, and nothing on
      all the others (`Others`).
    - Beside the invariant goes what later modules need: the numbers that entries can
      have (`Numbered`), that a file is started only when it has been accepted, and that
      its sender's client is told just then (`AllAccepted`). */
module TransferInvariant {
  import opened Wrappers
  import opened Transfers
  import opened TransferNet
  import opened TransferLinks

  ghost predicate Inv(s: Net) {
    && s.dataSize > 0 && !s.aborted
    && forall l :: LinkInv(ViewOf(s, l), l.n, s.dataSize)
  }

  // ----- packets of one link in a shared channel -----

  lemma {:induction false} ForwardsConcat(n: Num, a: seq<Packet>, b: seq<Packet>)
    ensures Forwards(n, a + b) == Forwards(n, a) + Forwards(n, b)
  {
    if b == [] {
      assert a + b == a;
    } else {
      var before, last := b[..|b| - 1], b[|b| - 1];
      ForwardsConcat(n, a, before);
      assert (a + b)[..|a + b| - 1] == a + before && (a + b)[|a + b| - 1] == last;
    }
  }

  lemma {:induction false} BackwardsConcat(n: Num, a: seq<Packet>, b: seq<Packet>)
    ensures Backwards(n, a + b) == Backwards(n, a) + Backwards(n, b)
  {
    if b == [] {
      assert a + b == a;
    } else {
      var m := |b| - 1;
      BackwardsConcat(n, a, b[..m]);
      assert (a + b)[..|a + b| - 1] == a + b[..m];
    }
  }

  /** The packets a call about this file number may send. */
  predicate About(fileNumber: nat, packet: Packet) {
    if fileNumber < 256 then Forward(fileNumber, packet) else Backward(fileNumber % 256, packet)
  }

  lemma {:induction false} AboutOne(fileNumber: nat, packets: seq<Packet>, n: Num)
    requires fileNumber < 512 && forall i :: 0 <= i < |packets| ==> About(fileNumber, packets[i])
    ensures Forwards(n, packets) == if fileNumber == n then packets else []
    ensures Backwards(n, packets) == if fileNumber == n + 256 then packets else []
  {
    if packets != [] {
      AboutOne(fileNumber, packets[..|packets| - 1], n);
      assert About(fileNumber, packets[|packets| - 1]);
    }
  }

  lemma {:induction false} FirstForward(n: Num, packets: seq<Packet>)
    requires packets != []
    ensures Forwards(n, packets) == (if Forward(n, packets[0]) then [packets[0]] else []) + Forwards(n, packets[1..])
    ensures Backwards(n, packets) == (if Backward(n, packets[0]) then [packets[0]] else []) + Backwards(n, packets[1..])
  {
    var one := [packets[0]];
    assert packets == one + packets[1..];
    ForwardsConcat(n, one, packets[1..]);
    BackwardsConcat(n, one, packets[1..]);
    assert one[..0] == [];
    assert Forwards(n, []) == [] && Backwards(n, []) == [];
  }

  // ----- frames -----

  /** The outcome only touches the entry of this file, sends its packets and tells of it. */
  ghost predicate Concerns(t: Table, friend: Peer, fileNumber: nat, r: Outcome) {
    && r.Done? && fileNumber < 512
    && (forall k :: k != (friend, fileNumber) ==> Find(r.table, k) == Find(t, k))
    && (forall i :: 0 <= i < |r.packets| ==> About(fileNumber, r.packets[i]))
    && (r.event.Some? ==> r.event.value.friend == friend && r.event.value.fileNumber == fileNumber)
  }

  function Reacts(h: History, sending: bool, event: Option<Event>): History {
    if event == None then h else React(h, sending, event.value)
  }

  /** Which link a call about this file number is about. */
  lemma {:induction false} LinkOfIs(p: Peer, friend: Peer, fileNumber: nat, l: Link)
    requires fileNumber < 512
    ensures l == LinkOf(p, friend, fileNumber) <==>
            if fileNumber < 256 then l.p == p && l.q == friend && fileNumber == l.n
            else l.q == p && l.p == friend && fileNumber == l.n + 256
  {
  }

  lemma {:induction false} PushForwards(s: Net, p: Peer, friend: Peer, fileNumber: nat, packets: seq<Packet>, l: Link)
    requires fileNumber < 512 && forall i :: 0 <= i < |packets| ==> About(fileNumber, packets[i])
    ensures Forwards(l.n, s.Push(p, friend, packets).Channel(l.p, l.q)) ==
            Forwards(l.n, s.Channel(l.p, l.q)) +
            if l.p == p && l.q == friend && fileNumber == l.n then packets else []
  {
    if l.p == p && l.q == friend {
      ForwardsConcat(l.n, s.Channel(p, friend), packets);
      AboutOne(fileNumber, packets, l.n);
    }
  }

  lemma {:induction false} PushBackwards(s: Net, p: Peer, friend: Peer, fileNumber: nat, packets: seq<Packet>, l: Link)
    requires fileNumber < 512 && forall i :: 0 <= i < |packets| ==> About(fileNumber, packets[i])
    ensures Backwards(l.n, s.Push(p, friend, packets).Channel(l.q, l.p)) ==
            Backwards(l.n, s.Channel(l.q, l.p)) +
            if l.q == p && l.p == friend && fileNumber == l.n + 256 then packets else []
  {
    if l.q == p && l.p == friend {
      BackwardsConcat(l.n, s.Channel(p, friend), packets);
      AboutOne(fileNumber, packets, l.n);
    }
  }

  /** A view with what a call adds to the two streams of the link it is about. */
  function Pushed(v: View, fileNumber: nat, packets: seq<Packet>): View {
    v.(fwd := v.fwd + if fileNumber < 256 then packets else [],
       bwd := v.bwd + if fileNumber < 256 then [] else packets)
  }

  /** The view of the link that a call is about. */
  function Applied(v: View, friend: Peer, fileNumber: nat, r: Outcome): View
    requires r.Done?
  {
    var entry, h := Find(r.table, (friend, fileNumber)), Reacts(v.h, fileNumber < 256, r.event);
    var v' := Pushed(v, fileNumber, r.packets);
    if fileNumber < 256 then v'.(snd := entry, h := h) else v'.(rcv := entry, h := h)
  }

  lemma {:induction false} PushView(s: Net, p: Peer, friend: Peer, fileNumber: nat, packets: seq<Packet>, l: Link)
    requires fileNumber < 512 && forall i :: 0 <= i < |packets| ==> About(fileNumber, packets[i])
    ensures ViewOf(s.Push(p, friend, packets), l) ==
            if l == LinkOf(p, friend, fileNumber) then Pushed(ViewOf(s, l), fileNumber, packets) else ViewOf(s, l)
  {
    LinkOfIs(p, friend, fileNumber, l);
    PushForwards(s, p, friend, fileNumber, packets, l);
    PushBackwards(s, p, friend, fileNumber, packets, l);
  }

  lemma {:induction false} TableView(s: Net, p: Peer, friend: Peer, fileNumber: nat, table: Table, l: Link)
    requires fileNumber < 512
    requires forall k :: k != (friend, fileNumber) ==> Find(table, k) == Find(s.TableOf(p), k)
    ensures var v, v' := ViewOf(s, l), ViewOf(s.(tables := s.tables[p := table]), l);
            v' == if l != LinkOf(p, friend, fileNumber) then v
                  else if fileNumber < 256 then v.(snd := Find(table, (friend, fileNumber)))
                  else v.(rcv := Find(table, (friend, fileNumber)))
  {
    var s' := s.(tables := s.tables[p := table]);
    assert forall k :: Find(s'.TableOf(p), k) == Find(table, k);
  }

  /** The packets and the new table, before the clients take note. */
  function Sent(s: Net, p: Peer, friend: Peer, r: Outcome): Net
    requires r.Done?
  {
    s.(tables := s.tables[p := r.table]).Push(p, friend, r.packets)
  }

  lemma {:induction false} SentView(s: Net, p: Peer, friend: Peer, fileNumber: nat, r: Outcome, l: Link)
    requires Concerns(s.TableOf(p), friend, fileNumber, r)
    ensures ViewOf(Sent(s, p, friend, r), l) ==
            if l == LinkOf(p, friend, fileNumber)
            then Applied(ViewOf(s, l), friend, fileNumber, r).(h := ViewOf(s, l).h)
            else ViewOf(s, l)
  {
    TableView(s, p, friend, fileNumber, r.table, l);
    PushView(s.(tables := s.tables[p := r.table]), p, friend, fileNumber, r.packets, l);
  }

  lemma {:induction false} ApplyView(s: Net, p: Peer, friend: Peer, fileNumber: nat, r: Outcome, l: Link)
    requires Concerns(s.TableOf(p), friend, fileNumber, r)
    ensures ViewOf(Apply(s, p, friend, r), l) ==
            if l == LinkOf(p, friend, fileNumber) then Applied(ViewOf(s, l), friend, fileNumber, r) else ViewOf(s, l)
  {
    var k, s2 := LinkOf(p, friend, fileNumber), Sent(s, p, friend, r);
    SentView(s, p, friend, fileNumber, r, l);
    var h := Reacts(s2.HistoryOf(k), fileNumber < 256, r.event);
    assert Apply(s, p, friend, r) == if r.event == None then s2 else s2.Record(k, h);
    RecordView(s2, k, h, l);
  }

  lemma {:induction false} RecordView(s: Net, k: Link, h: History, l: Link)
    ensures ViewOf(s.Record(k, h), l) == if l == k then ViewOf(s, l).(h := h) else ViewOf(s, l)
  {
  }

  lemma {:induction false} PopView(s: Net, p: Peer, q: Peer, l: Link)
    requires s.Channel(p, q) != []
    ensures var v, v', packet := ViewOf(s, l), ViewOf(s.Pop(p, q), l), s.Channel(p, q)[0];
            && (v.fwd == (if l.p == p && l.q == q && Forward(l.n, packet) then [packet] else []) + v'.fwd)
            && (v.bwd == (if l.q == p && l.p == q && Backward(l.n, packet) then [packet] else []) + v'.bwd)
            && v' == v.(fwd := v'.fwd, bwd := v'.bwd)
  {
    PopForwards(s, p, q, l);
    PopBackwards(s, p, q, l);
  }

  lemma {:induction false} PopForwards(s: Net, p: Peer, q: Peer, l: Link)
    requires s.Channel(p, q) != []
    ensures var packet := s.Channel(p, q)[0];
            Forwards(l.n, s.Channel(l.p, l.q)) ==
            (if l.p == p && l.q == q && Forward(l.n, packet) then [packet] else [])
            + Forwards(l.n, s.Pop(p, q).Channel(l.p, l.q))
  {
    var after := Forwards(l.n, s.Pop(p, q).Channel(l.p, l.q));
    if l.p == p && l.q == q { FirstForward(l.n, s.Channel(p, q)); } else { assert [] + after == after; }
  }

  lemma {:induction false} PopBackwards(s: Net, p: Peer, q: Peer, l: Link)
    requires s.Channel(p, q) != []
    ensures var packet := s.Channel(p, q)[0];
            Backwards(l.n, s.Channel(l.q, l.p)) ==
            (if l.q == p && l.p == q && Backward(l.n, packet) then [packet] else [])
            + Backwards(l.n, s.Pop(p, q).Channel(l.q, l.p))
  {
    var after := Backwards(l.n, s.Pop(p, q).Channel(l.q, l.p));
    if l.q == p && l.p == q { FirstForward(l.n, s.Channel(p, q)); } else { assert [] + after == after; }
  }

  // ----- the steps -----

  ghost predicate Others(s: Net, s': Net, l: Link) {
    && s'.dataSize == s.dataSize && s'.aborted == s.aborted
    && forall m :: m != l ==> ViewOf(s', m) == ViewOf(s, m)
  }

  lemma {:induction false} OneLinkKeeps(s: Net, s': Net, l: Link)
    requires Inv(s) && Others(s, s', l) && LinkInv(ViewOf(s', l), l.n, s'.dataSize)
    ensures Inv(s')
  {
    forall m
      ensures LinkInv(ViewOf(s', m), m.n, s'.dataSize)
    {
      if m != l { assert LinkInv(ViewOf(s, m), m.n, s.dataSize); }
    }
  }

  lemma {:induction false} ApplyOthers(s: Net, p: Peer, friend: Peer, fileNumber: nat, r: Outcome)
    requires Concerns(s.TableOf(p), friend, fileNumber, r)
    ensures var l := LinkOf(p, friend, fileNumber);
            var s' := Apply(s, p, friend, r);
            Others(s, s', l) && ViewOf(s', l) == Applied(ViewOf(s, l), friend, fileNumber, r)
  {
    forall m
      ensures ViewOf(Apply(s, p, friend, r), m) == if m == LinkOf(p, friend, fileNumber)
                                  then Applied(ViewOf(s, m), friend, fileNumber, r) else ViewOf(s, m)
    {
      ApplyView(s, p, friend, fileNumber, r, m);
    }
  }

  // Each step in two parts: what it does to the views, and that this keeps the links.

  lemma {:induction false} RecordOthers(s: Net, l: Link, h: History, busy: set<Link>)
    requires busy == s.busy || busy == s.busy + {l} || busy == s.busy - {l}
    ensures var s' := s.(busy := busy).Record(l, h);
            Others(s, s', l) && ViewOf(s', l) == ViewOf(s, l).(busy := l in busy, h := h)
  {
  }

  /** The net with the new file in the history and its number taken. */
  function SendNoted(s: Net, l: Link, content: Bytes): Net {
    var h := s.HistoryOf(l);
    s.(busy := s.busy + {l}).Record(l, h.(sent := h.sent + [content], asked := [], chunks := []))
  }

  lemma {:induction false} SendNotedView(s: Net, l: Link, content: Bytes)
    ensures Others(s, SendNoted(s, l, content), l)
    ensures var v := ViewOf(s, l);
            ViewOf(SendNoted(s, l, content), l) ==
            v.(busy := true, h := v.h.(sent := v.h.sent + [content], asked := [], chunks := []))
    ensures SendNoted(s, l, content).TableOf(l.p) == s.TableOf(l.p)
  {
    var h := s.HistoryOf(l);
    RecordOthers(s, l, h.(sent := h.sent + [content], asked := [], chunks := []), s.busy + {l});
  }

  lemma {:induction false} SendApplied(t: Table, v: View, q: Peer, n: Num, size: nat)
    requires v.snd == Find(t, (q, n as nat)) == None
    ensures Concerns(t, q, n, FileSend(t, q, n, size))
    ensures Applied(v, q, n, FileSend(t, q, n, size)) ==
            v.(snd := Some(NewTransfer(size)), fwd := v.fwd + [SendRequest(n, size)])
  {
    assert v.bwd + [] == v.bwd;
  }

  lemma {:induction false} SendView(s: Net, l: Link, content: Bytes)
    requires Possible(s, Send(l, content)) && ViewOf(s, l).snd == None
    ensures Others(s, DoSend(s, l, content), l)
    ensures ViewOf(DoSend(s, l, content), l) == Sends(ViewOf(s, l), l.n, content)
  {
    var s1 := SendNoted(s, l, content);
    SendNotedView(s, l, content);
    SendApplied(s1.TableOf(l.p), ViewOf(s1, l), l.q, l.n, |content|);
    NotedApplies(s1, l, FileSend(s1.TableOf(l.p), l.q, l.n, |content|));
    OthersTwice(s, s1, DoSend(s, l, content), l);
  }

  lemma {:induction false} ResumeApplied(t: Table, v: View, p: Peer, n: Num)
    requires v.rcv == Find(t, (p, n + 256)) && FileResume(t, p, n + 256).Done?
    ensures Concerns(t, p, n + 256, FileResume(t, p, n + 256))
    ensures Applied(v, p, n + 256, FileResume(t, p, n + 256)) == v.(bwd := v.bwd + [Accept(n)])
  {
    assert v.fwd + [] == v.fwd;
    FileNumbersMirror(n + 256);
  }

  lemma {:induction false} ResumeView(s: Net, l: Link)
    requires FileResume(s.TableOf(l.q), l.p, l.n + 256).Done?
    ensures Others(s, DoResume(s, l), l)
    ensures ViewOf(DoResume(s, l), l) == Resumes(ViewOf(s, l), l.n)
  {
    NotedView(s, l);
    NotedResumes(ResumeNoted(s, l), l);
    ResumeIsApply(s, l);
    OthersTwice(s, ResumeNoted(s, l), DoResume(s, l), l);
  }

  lemma {:induction false} ResumeIsApply(s: Net, l: Link)
    requires FileResume(s.TableOf(l.q), l.p, l.n + 256).Done?
    ensures var s1 := ResumeNoted(s, l);
            DoResume(s, l) == Apply(s1, l.q, l.p, FileResume(s1.TableOf(l.q), l.p, l.n + 256))
  {
  }

  lemma {:induction false} NotedView(s: Net, l: Link)
    ensures Others(s, ResumeNoted(s, l), l)
    ensures var h := s.HistoryOf(l);
            ViewOf(ResumeNoted(s, l), l) == ViewOf(s, l).(h := h.(resumed := h.resumed + {|h.got|}))
    ensures ResumeNoted(s, l).TableOf(l.q) == s.TableOf(l.q)
  {
    var h := s.HistoryOf(l);
    RecordOthers(s, l, h.(resumed := h.resumed + {|h.got|}), s.busy);
  }

  lemma {:induction false} NotedResumes(s: Net, l: Link)
    requires FileResume(s.TableOf(l.q), l.p, l.n + 256).Done?
    ensures var s' := Apply(s, l.q, l.p, FileResume(s.TableOf(l.q), l.p, l.n + 256));
            Others(s, s', l) && ViewOf(s', l) == ViewOf(s, l).(bwd := ViewOf(s, l).bwd + [Accept(l.n)])
  {
    ResumeApplied(s.TableOf(l.q), ViewOf(s, l), l.p, l.n);
    LinkOfIs(l.q, l.p, l.n + 256, l);
    ApplyOthers(s, l.q, l.p, l.n + 256, FileResume(s.TableOf(l.q), l.p, l.n + 256));
  }

  lemma {:induction false} RequestView(s: Net, l: Link)
    requires Possible(s, Request(l.p, (l.q, l.n as nat)))
    requires ViewOf(s, l).snd.value.position < ViewOf(s, l).snd.value.fileSize
    requires Requested(ViewOf(s, l).snd.value, s.dataSize).sizeRequested > 0
    ensures Others(s, DoRequest(s, l.p, (l.q, l.n as nat)), l)
    ensures ViewOf(DoRequest(s, l.p, (l.q, l.n as nat)), l) == Asks(ViewOf(s, l), s.dataSize)
  {
    var v := ViewOf(s, l);
    ApplyOthers(s, l.p, l.q, l.n, RequestOne(s.TableOf(l.p), (l.q, l.n as nat), s.dataSize));
    assert v.fwd + [] == v.fwd && v.bwd + [] == v.bwd;
  }

  lemma {:induction false} AnswerApplied(t: Table, v: View, q: Peer, n: Num, k: nat, dataSize: nat)
    requires v.snd.Some? && v.snd == Find(t, (q, n as nat)) && v.h.sent != [] && 1 <= k <= dataSize
    requires v.snd.value.position + k <= |Content(v)|
    ensures var r := FileSendChunk(t, q, n, Chunk(Content(v), v.snd.value.position, k), dataSize);
            && Concerns(t, q, n, r)
            && Applied(v.(h := v.h.(chunks := v.h.chunks + [k])), q, n, r) == Answers(v, n, k)
  {
    assert |Chunk(Content(v), v.snd.value.position, k)| == k;
    assert v.bwd + [] == v.bwd;
  }

  /** The net with the answer in the history. */
  function AnswerNoted(s: Net, l: Link, k: nat): Net {
    var h := s.HistoryOf(l);
    s.Record(l, h.(chunks := h.chunks + [k]))
  }

  lemma {:induction false} AnswerNotedView(s: Net, l: Link, k: nat)
    ensures Others(s, AnswerNoted(s, l, k), l)
    ensures var v := ViewOf(s, l);
            ViewOf(AnswerNoted(s, l, k), l) == v.(h := v.h.(chunks := v.h.chunks + [k]))
    ensures AnswerNoted(s, l, k).TableOf(l.p) == s.TableOf(l.p)
  {
    var h := s.HistoryOf(l);
    RecordOthers(s, l, h.(chunks := h.chunks + [k]), s.busy);
  }

  lemma {:induction false} AnswerIsApply(s: Net, l: Link, k: nat)
    requires Possible(s, Answer(l, k))
    requires ViewOf(s, l).snd.Some?
    requires s.HistoryOf(l).asked[|s.HistoryOf(l).asked| - 1].position == ViewOf(s, l).snd.value.position
    ensures var v := ViewOf(s, l);
            DoAnswer(s, l, k) ==
            Apply(AnswerNoted(s, l, k), l.p, l.q,
                  FileSendChunk(s.TableOf(l.p), l.q, l.n, Chunk(Content(v), v.snd.value.position, k), s.dataSize))
  {
  }

  lemma {:induction false} AnswerView(s: Net, l: Link, k: nat)
    requires Possible(s, Answer(l, k)) && ViewOf(s, l).snd.Some? && 1 <= k <= s.dataSize
    requires var v := ViewOf(s, l);
             && v.h.asked[|v.h.asked| - 1].position == v.snd.value.position
             && v.snd.value.position + k <= |Content(v)|
    ensures Others(s, DoAnswer(s, l, k), l)
    ensures ViewOf(DoAnswer(s, l, k), l) == Answers(ViewOf(s, l), l.n, k)
  {
    var v := ViewOf(s, l);
    AnswerNotedView(s, l, k);
    AnswerIsApply(s, l, k);
    AnswerApplied(s.TableOf(l.p), v, l.q, l.n, k, s.dataSize);
    NotedApplies(AnswerNoted(s, l, k), l,
                 FileSendChunk(s.TableOf(l.p), l.q, l.n, Chunk(Content(v), v.snd.value.position, k), s.dataSize));
    OthersTwice(s, AnswerNoted(s, l, k), DoAnswer(s, l, k), l);
  }

  lemma {:induction false} NotedApplies(s: Net, l: Link, r: Outcome)
    requires Concerns(s.TableOf(l.p), l.q, l.n, r)
    ensures var s' := Apply(s, l.p, l.q, r);
            Others(s, s', l) && ViewOf(s', l) == Applied(ViewOf(s, l), l.q, l.n, r)
  {
    LinkOfIs(l.p, l.q, l.n, l);
    ApplyOthers(s, l.p, l.q, l.n, r);
  }

  /** Old toxcore gives out only numbers that the transfer map does not have. */
  lemma {:induction false} FreeNumber(v: View, n: Num, dataSize: nat)
    requires LinkInv(v, n, dataSize)
    ensures v.busy <==> v.snd.Some?
  {
  }

  lemma {:induction false} SendStep(s: Net, l: Link, content: Bytes)
    requires Inv(s) && Can(s, Send(l, content))
    ensures Inv(DoSend(s, l, content))
  {
    FreeNumber(ViewOf(s, l), l.n, s.dataSize);
    SendView(s, l, content);
    SendKeeps(ViewOf(s, l), l.n, s.dataSize, content);
    OneLinkKeeps(s, DoSend(s, l, content), l);
  }

  lemma {:induction false} InvAt(s: Net, l: Link)
    requires Inv(s)
    ensures LinkInv(ViewOf(s, l), l.n, s.dataSize)
  {
  }

  /** The receiving side accepts a file; a RESUME for anything else is refused. */
  predicate Resumable(v: View) {
    v.rcv.Some? && v.rcv.value.state == PAUSED
  }

  lemma {:induction false} ResumeRefused(s: Net, l: Link)
    requires !Resumable(ViewOf(s, l))
    ensures DoResume(s, l) == s
  {
  }

  lemma {:induction false} ResumeDone(s: Net, l: Link)
    requires Resumable(ViewOf(s, l))
    ensures FileResume(s.TableOf(l.q), l.p, l.n + 256).Done?
  {
  }

  lemma {:induction false} ResumeStep(s: Net, l: Link)
    requires Inv(s) && ClientsBehave(s, Resume(l))
    ensures Inv(DoResume(s, l))
  {
    if Resumable(ViewOf(s, l)) {
      InvAt(s, l);
      ResumeKeeps(ViewOf(s, l), l.n, s.dataSize);
      ResumeDone(s, l);
      ResumeView(s, l);
      OneLinkKeeps(s, DoResume(s, l), l);
    } else {
      ResumeRefused(s, l);
    }
  }

  lemma {:induction false} OwnResumeApplied(t: Table, v: View, q: Peer, n: Num)
    requires v.snd == Find(t, (q, n as nat)) && FileResume(t, q, n).Done?
    ensures Concerns(t, q, n, FileResume(t, q, n))
    ensures Applied(v, q, n, FileResume(t, q, n)) == OwnResumes(v, n)
  {
    assert v.bwd + [] == v.bwd;
  }

  /** p's entry for its own file is there and not started. */
  predicate Waiting(v: View) {
    v.snd.Some? && v.snd.value.state == PAUSED
  }

  lemma {:induction false} OwnResumeView(s: Net, l: Link)
    ensures Waiting(ViewOf(s, l)) ==>
              Others(s, DoResumeOwn(s, l), l) && ViewOf(DoResumeOwn(s, l), l) == OwnResumes(ViewOf(s, l), l.n)
    ensures !Waiting(ViewOf(s, l)) ==> DoResumeOwn(s, l) == s
  {
    var r := FileResume(s.TableOf(l.p), l.q, l.n);
    if Waiting(ViewOf(s, l)) {
      OwnResumeApplied(s.TableOf(l.p), ViewOf(s, l), l.q, l.n);
      LinkOfIs(l.p, l.q, l.n, l);
      ApplyOthers(s, l.p, l.q, l.n, r);
    }
  }

  lemma {:induction false} OwnResumeStep(s: Net, l: Link)
    requires Inv(s) && ClientsBehave(s, ResumeOwn(l))
    ensures Inv(DoResumeOwn(s, l))
  {
    OwnResumeView(s, l);
    if Waiting(ViewOf(s, l)) {
      InvAt(s, l);
      OwnResumeKeeps(ViewOf(s, l), l.n, s.dataSize);
      OneLinkKeeps(s, DoResumeOwn(s, l), l);
    }
  }

  /** So nobody is asked for what it receives. */
  lemma {:induction false} NeverAnswersBack(s: Net, l: Link, bytes: Bytes)
    requires Inv(s)
    ensures !ClientsBehave(s, AnswerBack(l, bytes))
  {
    InvAt(s, l);
    if ViewOf(s, l).rcv.Some? { ReceiverNeverAsks(ViewOf(s, l), l.n, s.dataSize); }
  }

  lemma {:induction false} RequestStep(s: Net, l: Link)
    requires Inv(s) && Can(s, Request(l.p, (l.q, l.n as nat)))
    ensures Inv(DoRequest(s, l.p, (l.q, l.n as nat)))
  {
    AskKeeps(ViewOf(s, l), l.n, s.dataSize);
    RequestView(s, l);
    OneLinkKeeps(s, DoRequest(s, l.p, (l.q, l.n as nat)), l);
  }

  /** Iteration asks for nothing on the receiving side: its entries stay PAUSED, or are
      about an empty file. */
  lemma {:induction false} ReceiverNeverAsks(v: View, n: Num, dataSize: nat)
    requires LinkInv(v, n, dataSize) && v.rcv.Some?
    ensures v.rcv.value.state == PAUSED || v.rcv.value.fileSize == 0
    ensures !Due(v.rcv.value) && !v.rcv.value.eventPending
  {
  }

  lemma {:induction false} AnswerStep(s: Net, l: Link, k: nat)
    requires Inv(s) && Can(s, Answer(l, k))
    ensures Inv(DoAnswer(s, l, k))
  {
    AnswerKeeps(ViewOf(s, l), l.n, s.dataSize, k);
    AnswerView(s, l, k);
    OneLinkKeeps(s, DoAnswer(s, l, k), l);
  }

  // ----- deliveries -----

  /** A packet of this link leaves the channel. */
  lemma {:induction false} PopOthers(s: Net, p: Peer, q: Peer, l: Link)
    requires s.Channel(p, q) != []
    requires l == if Forward(s.Channel(p, q)[0].filenumber, s.Channel(p, q)[0])
                  then Link(p, q, s.Channel(p, q)[0].filenumber) else Link(q, p, s.Channel(p, q)[0].filenumber)
    ensures Others(s, s.Pop(p, q), l)
    ensures var v, v' := ViewOf(s, l), ViewOf(s.Pop(p, q), l);
            if Forward(l.n, s.Channel(p, q)[0]) then v.fwd == [s.Channel(p, q)[0]] + v'.fwd && v' == v.(fwd := v'.fwd)
            else v.bwd == [s.Channel(p, q)[0]] + v'.bwd && v' == v.(bwd := v'.bwd)
  {
    forall m | m != l
      ensures ViewOf(s.Pop(p, q), m) == ViewOf(s, m)
    {
      PopElsewhere(s, p, q, m);
    }
    PopView(s, p, q, l);
  }

  lemma {:induction false} PopElsewhere(s: Net, p: Peer, q: Peer, m: Link)
    requires s.Channel(p, q) != []
    requires var packet := s.Channel(p, q)[0];
             m != if Forward(packet.filenumber, packet) then Link(p, q, packet.filenumber)
                  else Link(q, p, packet.filenumber)
    ensures ViewOf(s.Pop(p, q), m) == ViewOf(s, m)
  {
    PopView(s, p, q, m);
    assert [] + ViewOf(s.Pop(p, q), m).fwd == ViewOf(s.Pop(p, q), m).fwd;
    assert [] + ViewOf(s.Pop(p, q), m).bwd == ViewOf(s.Pop(p, q), m).bwd;
  }

  lemma {:induction false} AnnounceApplied(t: Table, v: View, p: Peer, n: Num, size: nat, rest: seq<Packet>)
    requires v.rcv == Find(t, (p, n + 256)) == None && v.fwd == [SendRequest(n, size)] + rest
    ensures Concerns(t, p, n + 256, OnSendRequest(t, p, n, size))
    ensures Applied(v.(fwd := rest), p, n + 256, OnSendRequest(t, p, n, size)) == Announces(v)
  {
    assert v.bwd + [] == v.bwd && rest + [] == rest && v.fwd[1..] == rest;
  }

  lemma {:induction false} TakeApplied(t: Table, v: View, p: Peer, n: Num, bytes: Bytes, rest: seq<Packet>)
    requires v.rcv.Some? && v.rcv == Find(t, (p, n + 256)) && v.fwd == [Data(n, bytes)] + rest
    ensures Concerns(t, p, n + 256, OnData(t, p, n, bytes))
    ensures Applied(v.(fwd := rest), p, n + 256, OnData(t, p, n, bytes)) == Takes(v, n)
  {
    assert rest + [] == rest && v.fwd[1..] == rest;
  }

  lemma {:induction false} EndApplied(t: Table, v: View, p: Peer, n: Num, rest: seq<Packet>)
    requires v.rcv.Some? && v.rcv == Find(t, (p, n + 256)) && v.fwd == [Fin(n)] + rest
    ensures Concerns(t, p, n + 256, OnControl(t, p, false, n, FINISHED))
    ensures Applied(v.(fwd := rest), p, n + 256, OnControl(t, p, false, n, FINISHED)) == Ends(v)
  {
    assert v.bwd + [] == v.bwd && rest + [] == rest && v.fwd[1..] == rest;
  }

  lemma {:induction false} GoApplied(t: Table, v: View, p: Peer, n: Num, rest: seq<Packet>)
    requires v.rcv.Some? && v.rcv == Find(t, (p, n + 256)) && v.fwd == [Go(n)] + rest
    ensures Concerns(t, p, n + 256, OnControl(t, p, false, n, ACCEPT))
    ensures Applied(v.(fwd := rest), p, n + 256, OnControl(t, p, false, n, ACCEPT)) == Goes(v)
  {
    assert v.bwd + [] == v.bwd && rest + [] == rest && v.fwd[1..] == rest;
  }

  lemma {:induction false} StartApplied(t: Table, v: View, q: Peer, n: Num, rest: seq<Packet>)
    requires v.snd.Some? && v.snd == Find(t, (q, n as nat)) && v.bwd == [Accept(n)] + rest
    ensures Concerns(t, q, n, OnControl(t, q, true, n, ACCEPT))
    ensures Applied(v.(bwd := rest), q, n, OnControl(t, q, true, n, ACCEPT)) == Starts(v)
  {
    assert v.fwd + [] == v.fwd && rest + [] == rest && v.bwd[1..] == rest;
  }

  lemma {:induction false} CloseApplied(t: Table, v: View, q: Peer, n: Num, rest: seq<Packet>)
    requires v.snd.Some? && v.snd == Find(t, (q, n as nat)) && v.bwd == [Ack(n)] + rest
    ensures Concerns(t, q, n, OnControl(t, q, true, n, FINISHED))
    ensures Applied(v.(bwd := rest), q, n, OnControl(t, q, true, n, FINISHED)).(busy := false) == Closes(v)
  {
    assert v.fwd + [] == v.fwd && rest + [] == rest && v.bwd[1..] == rest;
  }

  /** One more step on the same link. */
  lemma {:induction false} OthersTwice(s: Net, s1: Net, s2: Net, l: Link)
    requires Others(s, s1, l) && Others(s1, s2, l)
    ensures Others(s, s2, l)
  {
  }

  /** The first packet of p's channel to q goes forward on this link. */
  ghost predicate NextForward(s: Net, l: Link) {
    s.Channel(l.p, l.q) != [] && Forward(l.n, s.Channel(l.p, l.q)[0])
  }

  ghost predicate NextBackward(s: Net, l: Link) {
    s.Channel(l.q, l.p) != [] && Backward(l.n, s.Channel(l.q, l.p)[0])
  }

  /** A packet leaves the channel from p to q, and q's callback does the rest. */
  lemma {:induction false} PopApply(s: Net, l: Link, p: Peer, q: Peer, fileNumber: nat, r: Outcome)
    requires s.Channel(p, q) != [] && Concerns(s.TableOf(q), p, fileNumber, r)
    requires l == LinkOf(q, p, fileNumber)
    requires if fileNumber < 256 then Backward(l.n, s.Channel(p, q)[0]) else Forward(l.n, s.Channel(p, q)[0])
    ensures Others(s, Apply(s.Pop(p, q), q, p, r), l)
    ensures ViewOf(Apply(s.Pop(p, q), q, p, r), l) == Applied(ViewOf(s.Pop(p, q), l), p, fileNumber, r)
  {
    PopOthers(s, p, q, l);
    ApplyOthers(s.Pop(p, q), q, p, fileNumber, r);
    OthersTwice(s, s.Pop(p, q), Apply(s.Pop(p, q), q, p, r), l);
  }

  /** The view without its first packet. */
  lemma {:induction false} PoppedForward(s: Net, l: Link) returns (rest: seq<Packet>)
    requires NextForward(s, l)
    ensures ViewOf(s, l).fwd == [s.Channel(l.p, l.q)[0]] + rest
    ensures ViewOf(s.Pop(l.p, l.q), l) == ViewOf(s, l).(fwd := rest)
  {
    PopOthers(s, l.p, l.q, l);
    rest := ViewOf(s.Pop(l.p, l.q), l).fwd;
  }

  lemma {:induction false} PoppedBackward(s: Net, l: Link) returns (rest: seq<Packet>)
    requires NextBackward(s, l)
    ensures ViewOf(s, l).bwd == [s.Channel(l.q, l.p)[0]] + rest
    ensures ViewOf(s.Pop(l.q, l.p), l) == ViewOf(s, l).(bwd := rest)
  {
    PopOthers(s, l.q, l.p, l);
    rest := ViewOf(s.Pop(l.q, l.p), l).bwd;
  }

  /** The callback that handles the next packet. */
  lemma {:induction false} DeliversRequest(s: Net, p: Peer, q: Peer, n: Num, size: nat)
    requires s.Channel(p, q) != [] && s.Channel(p, q)[0] == SendRequest(n, size)
    ensures Do(s, Deliver(p, q)) == Apply(s.Pop(p, q), q, p, OnSendRequest(s.TableOf(q), p, n, size))
  {
  }

  lemma {:induction false} DeliversData(s: Net, p: Peer, q: Peer, n: Num, bytes: Bytes)
    requires s.Channel(p, q) != [] && s.Channel(p, q)[0] == Data(n, bytes)
    ensures Do(s, Deliver(p, q)) == Apply(s.Pop(p, q), q, p, OnData(s.TableOf(q), p, n, bytes))
  {
  }

  lemma {:induction false} DeliversControl(s: Net, p: Peer, q: Peer, receiveSend: bool, n: Num, control: ControlType)
    requires s.Channel(p, q) != [] && s.Channel(p, q)[0] == Control(receiveSend, n, control)
    ensures var s1 := Apply(s.Pop(p, q), q, p,
                            OnControl(s.TableOf(q), p, receiveSend, n, control));
            Do(s, Deliver(p, q)) ==
            if receiveSend && control == FINISHED then s1.(busy := s1.busy - {Link(q, p, n)}) else s1
  {
  }

  lemma {:induction false} AnnounceView(s: Net, l: Link)
    requires NextForward(s, l) && s.Channel(l.p, l.q)[0].SendRequest? && ViewOf(s, l).rcv == None
    ensures ViewOf(s, l).fwd != [] && ViewOf(s, l).fwd[0] == s.Channel(l.p, l.q)[0]
    ensures Others(s, Do(s, Deliver(l.p, l.q)), l)
    ensures ViewOf(Do(s, Deliver(l.p, l.q)), l) == Announces(ViewOf(s, l))
  {
    var SendRequest(n, size) := s.Channel(l.p, l.q)[0];
    var rest := PoppedForward(s, l);
    AnnounceApplied(s.TableOf(l.q), ViewOf(s, l), l.p, n, size, rest);
    PopApply(s, l, l.p, l.q, n + 256, OnSendRequest(s.TableOf(l.q), l.p, n, size));
    DeliversRequest(s, l.p, l.q, n, size);
  }

  lemma {:induction false} TakeView(s: Net, l: Link)
    requires NextForward(s, l) && s.Channel(l.p, l.q)[0].Data? && ViewOf(s, l).rcv.Some?
    ensures ViewOf(s, l).fwd != [] && ViewOf(s, l).fwd[0] == s.Channel(l.p, l.q)[0]
    ensures Others(s, Do(s, Deliver(l.p, l.q)), l)
    ensures ViewOf(Do(s, Deliver(l.p, l.q)), l) == Takes(ViewOf(s, l), l.n)
  {
    var Data(n, bytes) := s.Channel(l.p, l.q)[0];
    var rest := PoppedForward(s, l);
    TakeApplied(s.TableOf(l.q), ViewOf(s, l), l.p, n, bytes, rest);
    PopApply(s, l, l.p, l.q, n + 256, OnData(s.TableOf(l.q), l.p, n, bytes));
    DeliversData(s, l.p, l.q, n, bytes);
  }

  lemma {:induction false} EndView(s: Net, l: Link)
    requires NextForward(s, l) && s.Channel(l.p, l.q)[0] == Fin(l.n) && ViewOf(s, l).rcv.Some?
    ensures ViewOf(s, l).fwd != [] && ViewOf(s, l).fwd[0] == s.Channel(l.p, l.q)[0]
    ensures Others(s, Do(s, Deliver(l.p, l.q)), l)
    ensures ViewOf(Do(s, Deliver(l.p, l.q)), l) == Ends(ViewOf(s, l))
  {
    var rest := PoppedForward(s, l);
    EndApplied(s.TableOf(l.q), ViewOf(s, l), l.p, l.n, rest);
    PopApply(s, l, l.p, l.q, l.n + 256, OnControl(s.TableOf(l.q), l.p, false, l.n, FINISHED));
    DeliversControl(s, l.p, l.q, false, l.n, FINISHED);
  }

  lemma {:induction false} GoView(s: Net, l: Link)
    requires NextForward(s, l) && s.Channel(l.p, l.q)[0] == Go(l.n) && ViewOf(s, l).rcv.Some?
    ensures ViewOf(s, l).fwd != [] && ViewOf(s, l).fwd[0] == s.Channel(l.p, l.q)[0]
    ensures Others(s, Do(s, Deliver(l.p, l.q)), l)
    ensures ViewOf(Do(s, Deliver(l.p, l.q)), l) == Goes(ViewOf(s, l))
  {
    var rest := PoppedForward(s, l);
    GoApplied(s.TableOf(l.q), ViewOf(s, l), l.p, l.n, rest);
    PopApply(s, l, l.p, l.q, l.n + 256, OnControl(s.TableOf(l.q), l.p, false, l.n, ACCEPT));
    DeliversControl(s, l.p, l.q, false, l.n, ACCEPT);
  }

  lemma {:induction false} StartView(s: Net, l: Link)
    requires NextBackward(s, l) && s.Channel(l.q, l.p)[0] == Accept(l.n) && ViewOf(s, l).snd.Some?
    ensures ViewOf(s, l).bwd != [] && ViewOf(s, l).bwd[0] == s.Channel(l.q, l.p)[0]
    ensures Others(s, Do(s, Deliver(l.q, l.p)), l)
    ensures ViewOf(Do(s, Deliver(l.q, l.p)), l) == Starts(ViewOf(s, l))
  {
    var rest := PoppedBackward(s, l);
    StartApplied(s.TableOf(l.p), ViewOf(s, l), l.q, l.n, rest);
    PopApply(s, l, l.q, l.p, l.n, OnControl(s.TableOf(l.p), l.q, true, l.n, ACCEPT));
    DeliversControl(s, l.q, l.p, true, l.n, ACCEPT);
  }

  lemma {:induction false} CloseView(s: Net, l: Link)
    requires NextBackward(s, l) && s.Channel(l.q, l.p)[0] == Ack(l.n) && ViewOf(s, l).snd.Some?
    ensures ViewOf(s, l).bwd != [] && ViewOf(s, l).bwd[0] == s.Channel(l.q, l.p)[0]
    ensures Others(s, Do(s, Deliver(l.q, l.p)), l)
    ensures ViewOf(Do(s, Deliver(l.q, l.p)), l) == Closes(ViewOf(s, l))
  {
    var s1, r := s.Pop(l.q, l.p), OnControl(s.TableOf(l.p), l.q, true, l.n, FINISHED);
    var rest := PoppedBackward(s, l);
    CloseApplied(s.TableOf(l.p), ViewOf(s, l), l.q, l.n, rest);
    PopApply(s, l, l.q, l.p, l.n, r);
    DeliversControl(s, l.q, l.p, true, l.n, FINISHED);
    BusyView(Apply(s1, l.p, l.q, r), l);
  }

  lemma {:induction false} BusyView(s: Net, l: Link)
    ensures Others(s, s.(busy := s.busy - {l}), l)
    ensures ViewOf(s.(busy := s.busy - {l}), l) == ViewOf(s, l).(busy := false)
  {
  }

  /** The link sees the packet that old toxcore delivers next. */
  lemma {:induction false} NextInView(s: Net, l: Link)
    ensures NextForward(s, l) ==> ViewOf(s, l).fwd != [] && ViewOf(s, l).fwd[0] == s.Channel(l.p, l.q)[0]
    ensures NextBackward(s, l) ==> ViewOf(s, l).bwd != [] && ViewOf(s, l).bwd[0] == s.Channel(l.q, l.p)[0]
  {
    if NextForward(s, l) { FirstForward(l.n, s.Channel(l.p, l.q)); }
    if NextBackward(s, l) { FirstForward(l.n, s.Channel(l.q, l.p)); }
  }

  /** What the receiver needs in order to handle the next packet of a link. */
  ghost predicate Expected(v: View, n: Num) {
    && v.fwd != []
    && (v.fwd[0].SendRequest? ==> v.rcv == None)
    && (v.fwd[0].Data? ==> v.rcv.Some?)
    && (v.fwd[0].Control? ==> v.rcv.Some? && (v.fwd[0] == Fin(n) || v.fwd[0] == Go(n)))
  }

  lemma {:induction false} ForwardExpected(v: View, n: Num, dataSize: nat)
    requires LinkInv(v, n, dataSize) && v.fwd != []
    ensures Expected(v, n)
  {
    FirstPacket(v, n, dataSize);
  }

  function Arrives(v: View, n: Num): View
    requires Expected(v, n)
  {
    if v.fwd[0].SendRequest? then Announces(v)
    else if v.fwd[0].Data? then Takes(v, n)
    else if v.fwd[0] == Fin(n) then Ends(v)
    else Goes(v)
  }

  lemma {:induction false} ArrivesKeeps(v: View, n: Num, dataSize: nat)
    requires LinkInv(v, n, dataSize) && Expected(v, n)
    ensures LinkInv(Arrives(v, n), n, dataSize)
  {
    if v.fwd[0].SendRequest? {
      AnnounceKeeps(v, n, dataSize);
    } else if v.fwd[0].Data? {
      TakeKeeps(v, n, dataSize);
    } else if v.fwd[0] == Fin(n) {
      EndKeeps(v, n, dataSize);
    } else {
      GoKeeps(v, n, dataSize);
    }
  }

  lemma {:induction false} ArrivesView(s: Net, l: Link)
    requires NextForward(s, l) && Expected(ViewOf(s, l), l.n)
    ensures Others(s, Do(s, Deliver(l.p, l.q)), l)
    ensures ViewOf(Do(s, Deliver(l.p, l.q)), l) == Arrives(ViewOf(s, l), l.n)
  {
    NextInView(s, l);
    if ViewOf(s, l).fwd[0].SendRequest? {
      AnnounceView(s, l);
    } else if ViewOf(s, l).fwd[0].Data? {
      TakeView(s, l);
    } else if ViewOf(s, l).fwd[0] == Fin(l.n) {
      EndView(s, l);
    } else {
      GoView(s, l);
    }
  }

  lemma {:induction false} NextExpected(s: Net, l: Link)
    requires Inv(s) && NextForward(s, l)
    ensures LinkInv(ViewOf(s, l), l.n, s.dataSize) && Expected(ViewOf(s, l), l.n)
  {
    NextInView(s, l);
    ForwardExpected(ViewOf(s, l), l.n, s.dataSize);
  }

  lemma {:induction false} DeliverForward(s: Net, l: Link)
    requires Inv(s) && NextForward(s, l)
    ensures Inv(Do(s, Deliver(l.p, l.q)))
  {
    NextExpected(s, l);
    ArrivesKeeps(ViewOf(s, l), l.n, s.dataSize);
    ArrivesView(s, l);
    OneLinkKeeps(s, Do(s, Deliver(l.p, l.q)), l);
  }

  /** The same for what comes back to the sender. */
  ghost predicate ExpectedBack(v: View, n: Num) {
    v.bwd != [] && v.snd.Some? && (v.bwd[0] == Accept(n) || v.bwd[0] == Ack(n))
  }

  function Returns(v: View, n: Num): View
    requires ExpectedBack(v, n)
  {
    if v.bwd[0] == Accept(n) then Starts(v) else Closes(v)
  }

  lemma {:induction false} ReturnsKeeps(v: View, n: Num, dataSize: nat)
    requires LinkInv(v, n, dataSize) && v.bwd != []
    ensures ExpectedBack(v, n) && LinkInv(Returns(v, n), n, dataSize)
  {
    FirstBack(v, n, dataSize);
    if v.bwd[0] == Accept(n) { StartKeeps(v, n, dataSize); } else { CloseKeeps(v, n, dataSize); }
  }

  lemma {:induction false} ReturnsView(s: Net, l: Link)
    requires NextBackward(s, l) && ExpectedBack(ViewOf(s, l), l.n)
    ensures Others(s, Do(s, Deliver(l.q, l.p)), l)
    ensures ViewOf(Do(s, Deliver(l.q, l.p)), l) == Returns(ViewOf(s, l), l.n)
  {
    NextInView(s, l);
    if ViewOf(s, l).bwd[0] == Accept(l.n) { StartView(s, l); } else { CloseView(s, l); }
  }

  lemma {:induction false} NextExpectedBack(s: Net, l: Link)
    requires Inv(s) && NextBackward(s, l)
    ensures ExpectedBack(ViewOf(s, l), l.n) && LinkInv(Returns(ViewOf(s, l), l.n), l.n, s.dataSize)
  {
    NextInView(s, l);
    assert LinkInv(ViewOf(s, l), l.n, s.dataSize);
    ReturnsKeeps(ViewOf(s, l), l.n, s.dataSize);
  }

  lemma {:induction false} DeliverBackward(s: Net, l: Link)
    requires Inv(s) && NextBackward(s, l)
    ensures Inv(Do(s, Deliver(l.q, l.p)))
  {
    NextExpectedBack(s, l);
    ReturnsView(s, l);
    OneLinkKeeps(s, Do(s, Deliver(l.q, l.p)), l);
  }

  lemma {:induction false} DeliverStep(s: Net, p: Peer, q: Peer)
    requires Inv(s) && Can(s, Deliver(p, q))
    ensures Inv(Do(s, Deliver(p, q)))
  {
    var packet := s.Channel(p, q)[0];
    if Forward(packet.filenumber, packet) {
      DeliverForward(s, Link(p, q, packet.filenumber));
    } else {
      DeliverBackward(s, Link(q, p, packet.filenumber));
    }
  }

  // ----- all steps, all runs -----

  /** Sending entries are numbered 0..255, receiving ones 256..511. */
  ghost predicate Numbered(s: Net) {
    forall p, k :: p in s.tables && k in s.tables[p] ==> k.1 < 512
  }

  lemma {:induction false} ApplyNumbered(s: Net, p: Peer, friend: Peer, r: Outcome)
    requires Numbered(s)
    requires r.Done? ==> forall k :: k in r.table ==> k in s.TableOf(p) || k.1 < 512
    ensures Numbered(Apply(s, p, friend, r))
  {
  }

  lemma {:induction false} ReceiveNumbered(s: Net, q: Peer, p: Peer, packet: Packet)
    requires Numbered(s)
    ensures Numbered(Receive(s, q, p, packet))
  {
    var t := s.TableOf(q);
    match packet
    case SendRequest(n, size) => ApplyNumbered(s, q, p, OnSendRequest(t, p, n, size));
    case Data(n, bytes) => ApplyNumbered(s, q, p, OnData(t, p, n, bytes));
    case Control(rs, n, control) => ApplyNumbered(s, q, p, OnControl(t, p, rs, n, control));
  }

  lemma {:induction false} AnswerNumbered(s: Net, l: Link, k: nat)
    requires Numbered(s) && s.HistoryOf(l).asked != [] && s.HistoryOf(l).sent != []
    ensures Numbered(DoAnswer(s, l, k))
  {
    var h := s.HistoryOf(l);
    var chunk := Chunk(h.sent[|h.sent| - 1], h.asked[|h.asked| - 1].position, k);
    ApplyNumbered(s.Record(l, h.(chunks := h.chunks + [k])), l.p, l.q,
                  FileSendChunk(s.TableOf(l.p), l.q, l.n, chunk, s.dataSize));
  }

  lemma {:induction false} SendNumbered(s: Net, l: Link, content: Bytes)
    requires Numbered(s)
    ensures Numbered(DoSend(s, l, content))
  {
    var h := s.HistoryOf(l);
    ApplyNumbered(s.(busy := s.busy + {l}).Record(l, h.(sent := h.sent + [content], asked := [], chunks := [])),
                  l.p, l.q, FileSend(s.TableOf(l.p), l.q, l.n, |content|));
  }

  lemma {:induction false} ResumeNumbered(s: Net, l: Link)
    requires Numbered(s)
    ensures Numbered(DoResume(s, l))
  {
    ApplyNumbered(ResumeNoted(s, l), l.q, l.p, FileResume(s.TableOf(l.q), l.p, l.n + 256));
  }

  lemma {:induction false} StepNumbered(s: Net, a: Action)
    requires Numbered(s) && Possible(s, a)
    ensures Numbered(Do(s, a))
  {
    match a
    case Send(l, content) => SendNumbered(s, l, content);
    case Answer(l, k) => AnswerNumbered(s, l, k);
    case Resume(l) => ResumeNumbered(s, l);
    case ResumeOwn(l) => ApplyNumbered(s, l.p, l.q, FileResume(s.TableOf(l.p), l.q, l.n));
    case AnswerBack(l, bytes) =>
      ApplyNumbered(s, l.q, l.p,
                    FileSendChunk(s.TableOf(l.q), l.p, l.n + 256, bytes, s.dataSize));
    case Request(p, key) =>
      if s.TableOf(p)[key].position <= s.TableOf(p)[key].fileSize {
        ApplyNumbered(s, p, key.0, RequestOne(s.TableOf(p), key, s.dataSize));
      }
    case Deliver(p, q) => ReceiveNumbered(s.Pop(p, q), q, p, s.Channel(p, q)[0]);
  }

  lemma {:induction false} ReceiveDataSize(s: Net, q: Peer, p: Peer, packet: Packet)
    ensures Receive(s, q, p, packet).dataSize == s.dataSize
  {
  }

  lemma {:induction false} StepDataSize(s: Net, a: Action)
    requires Possible(s, a)
    ensures Do(s, a).dataSize == s.dataSize
  {
    match a
    case Send(l, content) => assert DoSend(s, l, content).dataSize == s.dataSize;
    case Answer(l, k) => assert DoAnswer(s, l, k).dataSize == s.dataSize;
    case Resume(l) => assert DoResume(s, l).dataSize == s.dataSize;
    case ResumeOwn(l) => assert DoResumeOwn(s, l).dataSize == s.dataSize;
    case AnswerBack(l, bytes) => assert DoAnswerBack(s, l, bytes).dataSize == s.dataSize;
    case Request(p, key) => assert DoRequest(s, p, key).dataSize == s.dataSize;
    case Deliver(p, q) => ReceiveDataSize(s.Pop(p, q), q, p, s.Channel(p, q)[0]);
  }

  /** Iteration raises requests for sending entries alone. */
  lemma {:induction false} AsksForward(s: Net, p: Peer, key: Key)
    requires Inv(s) && Numbered(s) && Possible(s, Request(p, key))
    ensures key.1 < 256
  {
    if key.1 >= 256 {
      var l := Link(key.0, p, key.1 - 256);
      InvAt(s, l);
      ReceiverNeverAsks(ViewOf(s, l), l.n, s.dataSize);
    }
  }

  lemma {:induction false} StepKeeps(s: Net, a: Action)
    requires Inv(s) && Numbered(s) && Can(s, a)
    ensures Inv(Do(s, a)) && Numbered(Do(s, a))
  {
    StepNumbered(s, a);
    match a
    case Send(l, content) => SendStep(s, l, content);
    case Resume(l) => ResumeStep(s, l);
    case ResumeOwn(l) => OwnResumeStep(s, l);
    case AnswerBack(l, bytes) => NeverAnswersBack(s, l, bytes); assert false;
    case Answer(l, k) => AnswerStep(s, l, k);
    case Deliver(p, q) => DeliverStep(s, p, q);
    case Request(p, key) =>
      AsksForward(s, p, key);
      RequestStep(s, Link(p, key.0, key.1));
  }

  // ----- only accepted files are started -----

  ghost predicate AllAccepted(s: Net) {
    forall l :: Accepted(ViewOf(s, l))
  }

  lemma {:induction false} OneLinkAccepted(s: Net, s': Net, l: Link)
    requires AllAccepted(s) && Others(s, s', l) && Accepted(ViewOf(s', l))
    ensures AllAccepted(s')
  {
    forall m
      ensures Accepted(ViewOf(s', m))
    {
      if m != l { assert Accepted(ViewOf(s, m)); }
    }
  }

  lemma {:induction false} SendsAccepted(v: View, n: Num, dataSize: nat, content: Bytes)
    requires LinkInv(v, n, dataSize) && v.snd == None && Accepted(v)
    ensures Accepted(Sends(v, n, content))
  {
  }

  lemma {:induction false} ResumesAccepted(v: View, n: Num, dataSize: nat)
    requires LinkInv(v, n, dataSize) && v.rcv.Some? && Accepted(v)
    requires v.rcv.value.position < v.rcv.value.fileSize || v.rcv.value.fileSize == 0
    ensures Accepted(Resumes(v, n))
  {
    UnfinishedIsOpen(v, n, dataSize);
    assert |v.h.got| == |v.h.sent| - 1;
  }

  /** The sender is running when data is on the way. */
  lemma {:induction false} DataIsStarted(v: View, n: Num, dataSize: nat)
    requires LinkInv(v, n, dataSize) && v.fwd != [] && v.fwd[0].Data?
    ensures v.snd.Some? && v.snd.value.state == RUNNING
  {
    FirstPacket(v, n, dataSize);
    PayloadHead(v.fwd);
    assert v.snd.value.position > 0;
    StartedIsRunning(v, n, dataSize);
  }

  lemma {:induction false} TakesAccepted(v: View, n: Num)
    requires v.fwd != [] && v.fwd[0].Data? && v.rcv.Some? && v.snd.Some? && v.snd.value.state == RUNNING
    requires Accepted(v)
    ensures Accepted(Takes(v, n))
  {
  }

  lemma {:induction false} ControlAccepted(v: View, n: Num)
    requires Expected(v, n) && !v.fwd[0].Data? && Accepted(v)
    ensures Accepted(Arrives(v, n))
  {
  }

  lemma {:induction false} ArrivesAccepted(v: View, n: Num, dataSize: nat)
    requires LinkInv(v, n, dataSize) && Expected(v, n) && Accepted(v)
    ensures Accepted(Arrives(v, n))
  {
    if v.fwd[0].Data? {
      DataIsStarted(v, n, dataSize);
      TakesAccepted(v, n);
    } else {
      ControlAccepted(v, n);
    }
  }

  lemma {:induction false} ReturnsAccepted(v: View, n: Num)
    requires ExpectedBack(v, n) && Accepted(v) && v.h.acks == |v.h.sent| - 1
    ensures Accepted(Returns(v, n))
  {
  }

  lemma {:induction false} DeliverAccepted(s: Net, p: Peer, q: Peer)
    requires Inv(s) && AllAccepted(s) && s.Channel(p, q) != []
    ensures AllAccepted(Do(s, Deliver(p, q)))
  {
    var packet := s.Channel(p, q)[0];
    if Forward(packet.filenumber, packet) {
      var l := Link(p, q, packet.filenumber);
      NextExpected(s, l);
      ArrivesAccepted(ViewOf(s, l), l.n, s.dataSize);
      ArrivesView(s, l);
      OneLinkAccepted(s, Do(s, Deliver(p, q)), l);
    } else {
      var l := Link(q, p, packet.filenumber);
      NextExpectedBack(s, l);
      InvAt(s, l);
      ReturnsAccepted(ViewOf(s, l), l.n);
      ReturnsView(s, l);
      OneLinkAccepted(s, Do(s, Deliver(p, q)), l);
    }
  }

  lemma {:induction false} SendAccepted(s: Net, l: Link, content: Bytes)
    requires Inv(s) && AllAccepted(s) && Can(s, Send(l, content))
    ensures AllAccepted(DoSend(s, l, content))
  {
    InvAt(s, l);
    FreeNumber(ViewOf(s, l), l.n, s.dataSize);
    SendView(s, l, content);
    SendsAccepted(ViewOf(s, l), l.n, s.dataSize, content);
    OneLinkAccepted(s, DoSend(s, l, content), l);
  }

  /** What a client that behaves accepts is not there yet, or empty. */
  lemma {:induction false} ResumesUnfinished(s: Net, l: Link)
    requires Resumable(ViewOf(s, l)) && ClientsBehave(s, Resume(l))
    ensures var t := ViewOf(s, l).rcv.value; t.position < t.fileSize || t.fileSize == 0
  {
  }

  lemma {:induction false} ResumableAccepted(s: Net, l: Link, v: View)
    requires Inv(s) && v == ViewOf(s, l) && Accepted(v) && Resumable(v) && ClientsBehave(s, Resume(l))
    ensures Accepted(Resumes(v, l.n))
  {
    InvAt(s, l);
    ResumesUnfinished(s, l);
    ResumesAccepted(v, l.n, s.dataSize);
  }

  lemma {:induction false} ResumeAccepted(s: Net, l: Link)
    requires Inv(s) && AllAccepted(s) && Can(s, Resume(l))
    ensures AllAccepted(DoResume(s, l))
  {
    var v := ViewOf(s, l);
    if Resumable(v) {
      assert Accepted(v);
      ResumableAccepted(s, l, v);
      ResumeDone(s, l);
      ResumeView(s, l);
      OneLinkAccepted(s, DoResume(s, l), l);
    } else {
      ResumeRefused(s, l);
    }
  }

  lemma {:induction false} OwnResumeAccepted(s: Net, l: Link)
    requires AllAccepted(s)
    ensures AllAccepted(DoResumeOwn(s, l))
  {
    OwnResumeView(s, l);
    if Waiting(ViewOf(s, l)) {
      assert Accepted(ViewOf(s, l));
      OneLinkAccepted(s, DoResumeOwn(s, l), l);
    }
  }

  lemma {:induction false} RequestAccepted(s: Net, l: Link)
    requires Inv(s) && AllAccepted(s) && Can(s, Request(l.p, (l.q, l.n as nat)))
    ensures AllAccepted(DoRequest(s, l.p, (l.q, l.n as nat)))
  {
    InvAt(s, l);
    AskKeeps(ViewOf(s, l), l.n, s.dataSize);
    RequestView(s, l);
    OneLinkAccepted(s, DoRequest(s, l.p, (l.q, l.n as nat)), l);
  }

  lemma {:induction false} AnswersAccepted(v: View, n: Num, k: nat)
    requires v.snd.Some? && v.h.sent != [] && Accepted(v)
    ensures Accepted(Answers(v, n, k))
  {
  }

  lemma {:induction false} AnswerAccepted(s: Net, l: Link, k: nat)
    requires Inv(s) && AllAccepted(s) && Can(s, Answer(l, k))
    ensures AllAccepted(DoAnswer(s, l, k))
  {
    InvAt(s, l);
    AnswerKeeps(ViewOf(s, l), l.n, s.dataSize, k);
    AnswerView(s, l, k);
    AnswersAccepted(ViewOf(s, l), l.n, k);
    OneLinkAccepted(s, DoAnswer(s, l, k), l);
  }

  lemma {:induction false} StepAccepted(s: Net, a: Action)
    requires Inv(s) && Numbered(s) && AllAccepted(s) && Can(s, a)
    ensures AllAccepted(Do(s, a))
  {
    match a
    case Send(l, content) => SendAccepted(s, l, content);
    case Resume(l) => ResumeAccepted(s, l);
    case ResumeOwn(l) => OwnResumeAccepted(s, l);
    case AnswerBack(l, bytes) => NeverAnswersBack(s, l, bytes); assert false;
    case Answer(l, k) => AnswerAccepted(s, l, k);
    case Deliver(p, q) => DeliverAccepted(s, p, q);
    case Request(p, key) =>
      AsksForward(s, p, key);
      RequestAccepted(s, Link(p, key.0, key.1));
  }

  lemma {:induction false} RunAccepted(s: Net, actions: seq<Action>, s': Net)
    requires Inv(s) && Numbered(s) && AllAccepted(s) && Run(s, actions, s')
    ensures AllAccepted(s')
    decreases |actions|
  {
    if actions != [] {
      StepKeeps(s, actions[0]);
      StepAccepted(s, actions[0]);
      RunAccepted(Do(s, actions[0]), actions[1..], s');
    }
  }

  lemma {:induction false} ReachableAccepted(dataSize: nat, actions: seq<Action>, s: Net)
    requires dataSize > 0 && Run(Start(dataSize), actions, s)
    ensures AllAccepted(s)
  {
    StartOk(dataSize);
    RunAccepted(Start(dataSize), actions, s);
  }

  lemma {:induction false} StartOk(dataSize: nat)
    requires dataSize > 0
    ensures Inv(Start(dataSize)) && Numbered(Start(dataSize))
  {
    var s := Start(dataSize);
    forall l
      ensures LinkInv(ViewOf(s, l), l.n, dataSize)
    {
      assert Quiet(ViewOf(s, l), l.n);
    }
  }

  lemma {:induction false} RunKeeps(s: Net, actions: seq<Action>, s': Net)
    requires Inv(s) && Numbered(s) && Run(s, actions, s')
    ensures Inv(s') && Numbered(s') && s'.dataSize == s.dataSize
    decreases |actions|
  {
    if actions != [] {
      StepKeeps(s, actions[0]);
      StepDataSize(s, actions[0]);
      RunKeeps(Do(s, actions[0]), actions[1..], s');
    }
  }

  lemma {:induction false} Reachable(dataSize: nat, actions: seq<Action>, s: Net)
    requires dataSize > 0 && Run(Start(dataSize), actions, s)
    ensures Inv(s) && Numbered(s) && s.dataSize == dataSize
  {
    StartOk(dataSize);
    RunKeeps(Start(dataSize), actions, s);
  }
}
