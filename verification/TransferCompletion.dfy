/** Every transfer can be completed: from each reachable state, clients that behave and
    old toxcore can bring a non-empty file to its end. */
module TransferCompletion {
  import opened Wrappers
  import opened Transfers
  import opened TransferNet
  import opened TransferLinks
  import opened TransferInvariant
  import TransferTheorems
  import TransferProgress

  // ----- packets on the way -----

  /** A data packet may cause one more packet, any other packet none. */
  function WeightOf(packet: Packet): nat {
    if packet.Data? then 2 else 1
  }

  function Weight(packets: seq<Packet>): nat {
    if packets == [] then 0 else Weight(packets[..|packets| - 1]) + WeightOf(packets[|packets| - 1])
  }

  lemma {:induction false} WeightConcat(a: seq<Packet>, b: seq<Packet>)
    ensures Weight(a + b) == Weight(a) + Weight(b)
  {
    if b == [] {
      assert a + b == a;
    } else {
      WeightConcat(a, b[..|b| - 1]);
      assert (a + b)[..|a + b| - 1] == a + b[..|b| - 1];
    }
  }

  lemma {:induction false} WeightOne(packet: Packet)
    ensures Weight([packet]) == WeightOf(packet)
  {
    assert [packet][..0] == [];
  }

  function Load(s: Net, p: Peer, q: Peer): nat {
    Weight(s.Channel(p, q)) + Weight(s.Channel(q, p))
  }

  lemma {:induction false} PopWeight(s: Net, p: Peer, q: Peer)
    requires s.Channel(p, q) != []
    ensures Weight(s.Pop(p, q).Channel(p, q)) == Weight(s.Channel(p, q)) - WeightOf(s.Channel(p, q)[0])
    ensures p != q ==> s.Pop(p, q).Channel(q, p) == s.Channel(q, p)
  {
    var packets := s.Channel(p, q);
    assert packets == [packets[0]] + packets[1..];
    WeightConcat([packets[0]], packets[1..]);
    WeightOne(packets[0]);
  }

  lemma {:induction false} ApplyWeight(s: Net, p: Peer, friend: Peer, r: Outcome)
    ensures Weight(Apply(s, p, friend, r).Channel(p, friend)) ==
            Weight(s.Channel(p, friend)) + if r.Done? then Weight(r.packets) else 0
    ensures p != friend ==> Apply(s, p, friend, r).Channel(friend, p) == s.Channel(friend, p)
  {
    if r.Done? { WeightConcat(s.Channel(p, friend), r.packets); }
  }

  /** What a callback sends back. */
  lemma {:induction false} OutcomeWeight(t: Table, p: Peer, packet: Packet, r: Outcome)
    requires match packet
             case SendRequest(n, size) => r == OnSendRequest(t, p, n, size)
             case Data(n, bytes) => r == OnData(t, p, n, bytes)
             case Control(rs, n, control) => r == OnControl(t, p, rs, n, control)
    ensures r.Done? ==> Weight(r.packets) < WeightOf(packet)
  {
    if packet.Data? { WeightOne(Ack(packet.filenumber)); }
  }

  lemma {:induction false} ControlWeight(s: Net, q: Peer, p: Peer, rs: bool, n: Num, control: ControlType)
    ensures Weight(ReceiveControl(s, q, p, rs, n, control).Channel(q, p)) <= Weight(s.Channel(q, p))
    ensures p != q ==> ReceiveControl(s, q, p, rs, n, control).Channel(p, q) == s.Channel(p, q)
  {
    var r := OnControl(s.TableOf(q), p, rs, n, control);
    ApplyWeight(s, q, p, r);
    OutcomeWeight(s.TableOf(q), p, Control(rs, n, control), r);
  }

  lemma {:induction false} ReceiveWeight(s: Net, q: Peer, p: Peer, packet: Packet)
    ensures Weight(Receive(s, q, p, packet).Channel(q, p)) < Weight(s.Channel(q, p)) + WeightOf(packet)
    ensures p != q ==> Receive(s, q, p, packet).Channel(p, q) == s.Channel(p, q)
  {
    var t := s.TableOf(q);
    match packet
    case SendRequest(n, size) =>
      OutcomeWeight(t, p, packet, OnSendRequest(t, p, n, size));
      ApplyWeight(s, q, p, OnSendRequest(t, p, n, size));
    case Data(n, bytes) =>
      OutcomeWeight(t, p, packet, OnData(t, p, n, bytes));
      ApplyWeight(s, q, p, OnData(t, p, n, bytes));
    case Control(rs, n, control) => ControlWeight(s, q, p, rs, n, control);
  }

  lemma {:induction false} DeliverLightens(s: Net, p: Peer, q: Peer)
    requires s.Channel(p, q) != []
    ensures Load(Do(s, Deliver(p, q)), p, q) < Load(s, p, q)
  {
    var packet := s.Channel(p, q)[0];
    PopLightens(s, p, q);
    ReceiveLoad(s.Pop(p, q), p, q, packet);
    assert Do(s, Deliver(p, q)) == Receive(s.Pop(p, q), q, p, packet);
  }

  lemma {:induction false} PopLightens(s: Net, p: Peer, q: Peer)
    requires s.Channel(p, q) != []
    ensures Load(s.Pop(p, q), p, q) ==
            Load(s, p, q) - WeightOf(s.Channel(p, q)[0]) * if p == q then 2 else 1
  {
    PopWeight(s, p, q);
  }

  lemma {:induction false} ReceiveLoad(s: Net, p: Peer, q: Peer, packet: Packet)
    ensures Load(Receive(s, q, p, packet), p, q) < Load(s, p, q) + WeightOf(packet) * if p == q then 2 else 1
  {
    ReceiveWeight(s, q, p, packet);
  }

  // ----- one step nearer to the end -----

  function Left(v: View): nat {
    if v.snd.Some? && v.snd.value.position <= v.snd.value.fileSize
      then v.snd.value.fileSize - v.snd.value.position
      else 0
  }

  /** The sender waits for a RESUME that nobody has sent. */
  function Stalled(v: View): nat {
    if v.snd.Some? && v.snd.value.state == PAUSED && v.bwd == [] then 1 else 0
  }

  function Unasked(v: View): nat {
    if v.snd.Some? && v.snd.value.eventPending then 0 else 1
  }

  /** Deliveries take nothing back. */
  ghost predicate Forwarded(v: View, v': View) {
    && v'.h.sent == v.h.sent
    && (v'.snd == None
        || (v.snd.Some? && v'.snd.Some? && v'.snd.value.fileSize == v.snd.value.fileSize
            && Left(v') == Left(v) && Stalled(v') <= Stalled(v) && Unasked(v') == Unasked(v)))
  }

  lemma {:induction false} ArrivesForwards(v: View, n: Num)
    requires Expected(v, n) && v.snd.Some?
    ensures Forwarded(v, Arrives(v, n))
  {
  }

  lemma {:induction false} ReturnsForwards(v: View, n: Num)
    requires ExpectedBack(v, n)
    ensures Forwarded(v, Returns(v, n))
  {
  }

  lemma {:induction false} DeliverForwards(s: Net, p: Peer, q: Peer, l: Link)
    requires Inv(s) && s.Channel(p, q) != [] && ViewOf(s, l).snd.Some?
    ensures Forwarded(ViewOf(s, l), ViewOf(Do(s, Deliver(p, q)), l))
  {
    var packet := s.Channel(p, q)[0];
    if Forward(packet.filenumber, packet) {
      var m := Link(p, q, packet.filenumber);
      NextExpected(s, m);
      ArrivesView(s, m);
      if m == l { ArrivesForwards(ViewOf(s, l), l.n); }
    } else {
      var m := Link(q, p, packet.filenumber);
      NextExpectedBack(s, m);
      ReturnsView(s, m);
      if m == l { ReturnsForwards(ViewOf(s, l), l.n); }
    }
  }

  ghost predicate Nearer(s: Net, s': Net, l: Link) {
    var (v, v') := (ViewOf(s, l), ViewOf(s', l));
    && v'.h.sent == v.h.sent
    && (v'.snd == None
        || (&& v.snd.Some? && v'.snd.Some? && v'.snd.value.fileSize == v.snd.value.fileSize
            && (|| Left(v') < Left(v)
                || (Left(v') == Left(v) && Stalled(v') < Stalled(v))
                || (Left(v') == Left(v) && Stalled(v') == Stalled(v) && Unasked(v') < Unasked(v))
                || (Left(v') == Left(v) && Stalled(v') == Stalled(v) && Unasked(v') == Unasked(v)
                    && Load(s', l.p, l.q) < Load(s, l.p, l.q)))))
  }

  lemma {:induction false} DeliverNearer(s: Net, p: Peer, q: Peer, l: Link)
    requires Inv(s) && s.Channel(p, q) != [] && ViewOf(s, l).snd.Some?
    requires (p == l.p && q == l.q) || (p == l.q && q == l.p)
    ensures Nearer(s, Do(s, Deliver(p, q)), l)
  {
    DeliverForwards(s, p, q, l);
    DeliverLightens(s, p, q);
  }

  lemma {:induction false} AnswerNearer(s: Net, l: Link)
    requires Inv(s) && Can(s, Answer(l, 1))
    ensures Nearer(s, Do(s, Answer(l, 1)), l)
  {
    InvAt(s, l);
    AnswerKeeps(ViewOf(s, l), l.n, s.dataSize, 1);
    AnswerView(s, l, 1);
  }

  lemma {:induction false} RequestNearer(s: Net, l: Link)
    requires Inv(s) && Can(s, Request(l.p, (l.q, l.n as nat)))
    ensures Nearer(s, Do(s, Request(l.p, (l.q, l.n as nat))), l)
  {
    InvAt(s, l);
    AskKeeps(ViewOf(s, l), l.n, s.dataSize);
    RequestView(s, l);
  }

  lemma {:induction false} ResumeNearer(s: Net, l: Link)
    requires Inv(s) && ViewOf(s, l).rcv.Some? && ViewOf(s, l).bwd == []
    requires ViewOf(s, l).snd.Some? && ViewOf(s, l).snd.value.state == PAUSED
    requires ViewOf(s, l).snd.value.fileSize > 0
    ensures Nearer(s, Do(s, Resume(l)), l)
  {
    InvAt(s, l);
    ReceiverIsPaused(ViewOf(s, l), l.n, s.dataSize);
    ResumeDone(s, l);
    ResumeView(s, l);
  }

  lemma {:induction false} ReceiverIsPaused(v: View, n: Num, dataSize: nat)
    requires LinkInv(v, n, dataSize) && v.snd.Some? && v.snd.value.fileSize > 0 && v.rcv.Some?
    ensures v.rcv.value.state == PAUSED
  {
  }

  /** There always is a step that brings the sender nearer to the end. */
  lemma {:induction false} NextStep(s: Net, l: Link) returns (a: Action)
    requires Inv(s) && ViewOf(s, l).snd.Some? && ViewOf(s, l).snd.value.fileSize > 0
    ensures Can(s, a) && Nearer(s, Do(s, a), l)
  {
    if s.Channel(l.p, l.q) != [] {
      a := Deliver(l.p, l.q);
      DeliverNearer(s, l.p, l.q, l);
    } else if s.Channel(l.q, l.p) != [] {
      a := Deliver(l.q, l.p);
      DeliverNearer(s, l.q, l.p, l);
    } else {
      a := QuietStep(s, l);
    }
  }

  lemma {:induction false} QuietStep(s: Net, l: Link) returns (a: Action)
    requires Inv(s) && s.Channel(l.p, l.q) == [] && s.Channel(l.q, l.p) == []
    requires ViewOf(s, l).snd.Some? && ViewOf(s, l).snd.value.fileSize > 0
    ensures Can(s, a) && Nearer(s, Do(s, a), l)
  {
    TransferTheorems.QuietLinkMoves(s, l);
    TransferTheorems.EmptyView(s, l);
    if Can(s, Request(l.p, (l.q, l.n as nat))) {
      a := Request(l.p, (l.q, l.n as nat));
      RequestNearer(s, l);
    } else if Can(s, Answer(l, 1)) {
      a := Answer(l, 1);
      AnswerNearer(s, l);
    } else {
      a := Resume(l);
      ResumeNearer(s, l);
    }
  }

  // ----- to the end -----

  lemma {:induction false} Finish(s: Net, l: Link) returns (actions: seq<Action>, s': Net)
    requires Inv(s) && Numbered(s) && ViewOf(s, l).snd.Some? && ViewOf(s, l).snd.value.fileSize > 0
    ensures Run(s, actions, s') && ViewOf(s', l).snd == None && s'.HistoryOf(l).sent == s.HistoryOf(l).sent
    decreases Left(ViewOf(s, l)), Stalled(ViewOf(s, l)), Unasked(ViewOf(s, l)), Load(s, l.p, l.q)
  {
    var a := NextStep(s, l);
    var s1 := Do(s, a);
    TransferInvariant.StepKeeps(s, a);
    var rest;
    if ViewOf(s1, l).snd == None {
      rest, s' := [], s1;
    } else {
      rest, s' := Finish(s1, l);
    }
    actions := [a] + rest;
    assert actions[1..] == rest;
  }

  /** From every reachable state a non-empty file on its way can be delivered: some run
      ends with the sender's client told of the end and the receiver's client holding
      the whole file, last written or already finished. */
  lemma {:induction false} EveryFileCanArrive(dataSize: nat, before: seq<Action>, s: Net, l: Link)
    returns (actions: seq<Action>, s': Net)
    requires dataSize > 0 && Run(Start(dataSize), before, s)
    requires ViewOf(s, l).snd.Some? && ViewOf(s, l).snd.value.fileSize > 0
    ensures Run(s, actions, s') && ViewOf(s', l).snd == None
    ensures var (h, h') := (s.HistoryOf(l), s'.HistoryOf(l));
            && h'.sent == h.sent != [] && h'.acks == |h.sent|
            && (h'.got == h.sent || (h'.got == h.sent[..|h.sent| - 1] && h'.bytes == h.sent[|h.sent| - 1]))
  {
    TransferInvariant.Reachable(dataSize, before, s);
    actions, s' := Finish(s, l);
    TransferInvariant.RunKeeps(s, actions, s');
    InvAt(s, l);
    InvAt(s', l);
    EndOfLink(ViewOf(s', l), l.n, s'.dataSize);
  }

  lemma {:induction false} EndOfLink(v: View, n: Num, dataSize: nat)
    requires LinkInv(v, n, dataSize) && v.snd == None && v.h.sent != []
    ensures v.h.acks == |v.h.sent|
    ensures v.h.got == v.h.sent || (v.h.got == v.h.sent[..|v.h.sent| - 1] && v.h.bytes == v.h.sent[|v.h.sent| - 1])
  {
    assert v.h.sent[..|v.h.sent|] == v.h.sent;
  }

  /** In particular any non-empty file can be sent, in packets of any size. */
  lemma {:induction false} AnyFileCanBeSent(dataSize: nat, l: Link, content: Bytes)
    returns (actions: seq<Action>, s: Net)
    requires dataSize > 0 && content != []
    ensures Run(Start(dataSize), actions, s) && s.HistoryOf(l).sent == [content] && s.HistoryOf(l).acks == 1
    ensures s.HistoryOf(l).got == [content] || s.HistoryOf(l).bytes == content
  {
    var s0 := Start(dataSize);
    var s1 := Do(s0, Send(l, content));
    assert [Send(l, content)][1..] == [];
    assert Run(s1, [], s1);
    assert Run(s0, [Send(l, content)], s1);
    SendView(s0, l, content);
    var rest;
    rest, s := EveryFileCanArrive(dataSize, [Send(l, content)], s1, l);
    actions := [Send(l, content)] + rest;
    assert actions[1..] == rest;
  }

  // ----- empty files -----

  /** The sender waits for the end of an empty file. */
  ghost predicate EmptyFile(v: View) {
    v.snd.Some? && v.snd.value.fileSize == 0 && v.busy
  }

  /** Nothing about an empty file is ever due, asked for or acknowledged. */
  lemma {:induction false} EmptyIsIdle(v: View, n: Num, dataSize: nat)
    requires LinkInv(v, n, dataSize) && v.snd.Some? && v.snd.value.fileSize == 0
    ensures v.busy && v.h.sent != [] && Content(v) == []
    ensures !Due(v.snd.value) && !v.snd.value.eventPending && v.snd.value.position == 0
    ensures v.bwd != [] ==> v.bwd[0] == Accept(n)
  {
    if v.snd.value.eventPending { OpenRequest(v, n, dataSize); }
  }

  lemma {:induction false} EmptyDelivers(s: Net, p: Peer, q: Peer, l: Link)
    requires Inv(s) && s.Channel(p, q) != [] && EmptyFile(ViewOf(s, l))
    ensures EmptyFile(ViewOf(Do(s, Deliver(p, q)), l))
    ensures Do(s, Deliver(p, q)).HistoryOf(l).acks == s.HistoryOf(l).acks
  {
    InvAt(s, l);
    EmptyIsIdle(ViewOf(s, l), l.n, s.dataSize);
    var packet := s.Channel(p, q)[0];
    if Forward(packet.filenumber, packet) {
      var m := Link(p, q, packet.filenumber);
      NextExpected(s, m);
      ArrivesView(s, m);
    } else {
      var m := Link(q, p, packet.filenumber);
      NextExpectedBack(s, m);
      ReturnsView(s, m);
    }
  }

  /** No request and no answer is about an empty file. */
  lemma {:induction false} EmptyNotAsked(s: Net, l: Link)
    requires Inv(s) && EmptyFile(ViewOf(s, l))
    ensures !Can(s, Request(l.p, (l.q, l.n as nat))) && forall k :: !ClientsBehave(s, Answer(l, k))
  {
    InvAt(s, l);
    EmptyIsIdle(ViewOf(s, l), l.n, s.dataSize);
  }

  lemma {:induction false} NobodyAsksBack(s: Net, p: Peer, key: Key)
    requires Inv(s) && key.1 < 512 && key.1 >= 256
    ensures !Can(s, Request(p, key))
  {
    var m := LinkOf(p, key.0, key.1);
    InvAt(s, m);
    if key in s.TableOf(p) { ReceiverNeverAsks(ViewOf(s, m), m.n, s.dataSize); }
  }

  lemma {:induction false} EmptyNotTouched(s: Net, a: Action, l: Link)
    requires Inv(s) && Numbered(s) && Can(s, a) && EmptyFile(ViewOf(s, l)) && !a.Deliver?
    ensures ((a.Resume? || a.ResumeOwn?) && a.l == l) || TransferProgress.ActionLink(s, a) != l
  {
    EmptyNotAsked(s, l);
    if a.Request? && a.key.1 >= 256 { NobodyAsksBack(s, a.p, a.key); }
    if a.AnswerBack? { NeverAnswersBack(s, a.l, a.bytes); }
  }

  lemma {:induction false} EmptyStays(s: Net, a: Action, l: Link)
    requires Inv(s) && Numbered(s) && Can(s, a) && EmptyFile(ViewOf(s, l))
    ensures EmptyFile(ViewOf(Do(s, a), l)) && Do(s, a).HistoryOf(l).acks == s.HistoryOf(l).acks
  {
    if a.Deliver? {
      EmptyDelivers(s, a.p, a.q, l);
    } else if a == Resume(l) {
      EmptyResumed(s, l);
    } else if a == ResumeOwn(l) {
      OwnResumeView(s, l);
    } else {
      EmptyNotTouched(s, a, l);
      TransferProgress.StepMoves(s, a);
      OtherLinkSame(s, Do(s, a), TransferProgress.ActionLink(s, a), l);
    }
  }

  lemma {:induction false} OtherLinkSame(s: Net, s': Net, m: Link, l: Link)
    requires Others(s, s', m) && m != l && EmptyFile(ViewOf(s, l))
    ensures EmptyFile(ViewOf(s', l)) && s'.HistoryOf(l).acks == s.HistoryOf(l).acks
  {
    assert ViewOf(s', l) == ViewOf(s, l);
  }

  lemma {:induction false} EmptyResumed(s: Net, l: Link)
    requires EmptyFile(ViewOf(s, l))
    ensures EmptyFile(ViewOf(DoResume(s, l), l)) && DoResume(s, l).HistoryOf(l).acks == s.HistoryOf(l).acks
  {
    if Resumable(ViewOf(s, l)) {
      ResumeDone(s, l);
      ResumeView(s, l);
    } else {
      ResumeRefused(s, l);
    }
  }

  lemma {:induction false} EmptyOverRuns(s: Net, actions: seq<Action>, s': Net, l: Link)
    requires Inv(s) && Numbered(s) && Run(s, actions, s') && EmptyFile(ViewOf(s, l))
    ensures EmptyFile(ViewOf(s', l)) && s'.HistoryOf(l).acks == s.HistoryOf(l).acks
    decreases |actions|
  {
    if actions != [] {
      TransferInvariant.StepKeeps(s, actions[0]);
      EmptyStays(s, actions[0], l);
      EmptyOverRuns(Do(s, actions[0]), actions[1..], s', l);
    }
  }

  /** Some run brings the sender's transfer to its end. */
  ghost predicate CanFinish(s: Net, l: Link) {
    exists actions, s' :: Run(s, actions, s') && ViewOf(s', l).snd == None
  }

  /** From a reachable state a transfer can be brought to its end if and only if its file
      is not empty. The entry and the number of an empty one stay taken for ever, and
      its sender's client never hears that it is finished. */
  lemma {:induction false} FinishesUnlessEmpty(dataSize: nat, before: seq<Action>, s: Net, l: Link)
    requires dataSize > 0 && Run(Start(dataSize), before, s) && ViewOf(s, l).snd.Some?
    ensures s.HistoryOf(l).sent != []
    ensures CanFinish(s, l) <==> Content(ViewOf(s, l)) != []
    ensures Content(ViewOf(s, l)) == [] ==>
              forall actions, s' :: Run(s, actions, s') ==>
                && l in s'.busy && ViewOf(s', l).snd.Some? && s'.HistoryOf(l).acks == s.HistoryOf(l).acks
  {
    TransferInvariant.Reachable(dataSize, before, s);
    InvAt(s, l);
    var v := ViewOf(s, l);
    assert SenderOk(v, l.n, s.dataSize);
    if v.snd.value.fileSize > 0 {
      var actions, s' := Finish(s, l);
    } else {
      EmptyIsIdle(v, l.n, s.dataSize);
      forall actions, s' | Run(s, actions, s')
        ensures l in s'.busy && ViewOf(s', l).snd.Some? && s'.HistoryOf(l).acks == s.HistoryOf(l).acks
      {
        EmptyOverRuns(s, actions, s', l);
      }
    }
  }

  /** So it is for the empty file as the first one sent. */
  lemma {:induction false} EmptyFileNeverEnds(dataSize: nat, l: Link, actions: seq<Action>, s: Net)
    requires dataSize > 0 && Run(Start(dataSize), [Send(l, [])] + actions, s)
    ensures Can(Start(dataSize), Send(l, []))
    ensures l in s.busy && ViewOf(s, l).snd.Some? && s.HistoryOf(l).acks == 0
  {
    var s0 := Start(dataSize);
    var all := [Send(l, [])] + actions;
    assert all[0] == Send(l, []) && all[1..] == actions;
    StartOk(dataSize);
    TransferInvariant.StepKeeps(s0, Send(l, []));
    SendView(s0, l, []);
    EmptyOverRuns(Do(s0, Send(l, [])), actions, s, l);
  }
}
