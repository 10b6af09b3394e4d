/** File transfers come to an end: what happens on one link is bounded by what its
    clients start. */
module TransferProgress {
  import opened Wrappers
  import opened Transfers
  import opened TransferNet
  import opened TransferLinks
  import opened TransferInvariant
  import TransferTheorems

  /** How much can still happen on a link before a client starts something new. */
  function Potential(v: View): int {
    (if v.snd.Some? then 6 * (v.snd.value.fileSize - v.snd.value.position) + (if v.snd.value.eventPending then 0 else 1)
     else 0)
    + 2 * |v.fwd| + |v.bwd|
  }

  lemma {:induction false} PotentialNat(v: View, n: Num, dataSize: nat)
    requires LinkInv(v, n, dataSize)
    ensures Potential(v) >= 0
  {
  }

  /** The link an action is about. */
  function ActionLink(s: Net, a: Action): Link {
    match a
    case Send(l, _) => l
    case Resume(l) => l
    case ResumeOwn(l) => l
    case AnswerBack(l, _) => l
    case Answer(l, _) => l
    case Request(p, key) => LinkOf(p, key.0, key.1)
    case Deliver(p, q) =>
      if s.Channel(p, q) == [] then Link(p, q, 0)
      else if Forward(s.Channel(p, q)[0].filenumber, s.Channel(p, q)[0]) then Link(p, q, s.Channel(p, q)[0].filenumber)
      else Link(q, p, s.Channel(p, q)[0].filenumber)
  }

  /** What a client's own initiative adds. */
  function Stake(a: Action): nat {
    match a
    case Send(_, content) => 6 * |content| + 3
    case Resume(_) => 1
    case ResumeOwn(_) => 2
    case _ => 0
  }

  ghost predicate Moves(s: Net, a: Action)
    requires Possible(s, a)
  {
    var l := ActionLink(s, a);
    && Others(s, Do(s, a), l)
    && Potential(ViewOf(Do(s, a), l)) <= Potential(ViewOf(s, l)) + (if Stake(a) > 0 then Stake(a) else -1)
  }

  lemma {:induction false} SendMoves(s: Net, l: Link, content: Bytes)
    requires Inv(s) && Can(s, Send(l, content))
    ensures Moves(s, Send(l, content))
  {
    assert LinkInv(ViewOf(s, l), l.n, s.dataSize);
    FreeNumber(ViewOf(s, l), l.n, s.dataSize);
    SendView(s, l, content);
  }

  lemma {:induction false} ResumeMoves(s: Net, l: Link)
    ensures Moves(s, Resume(l))
  {
    if Resumable(ViewOf(s, l)) {
      ResumeDone(s, l);
      ResumeView(s, l);
    } else {
      ResumeRefused(s, l);
    }
  }

  lemma {:induction false} SenderMoves(s: Net, a: Action)
    requires Inv(s) && Numbered(s) && Can(s, a) && (a.Request? || a.Answer?)
    ensures Moves(s, a)
  {
    var l := ActionLink(s, a);
    match a
    case Request(p, key) =>
      if key.1 >= 256 {
        ReceiverNeverAsks(ViewOf(s, l), l.n, s.dataSize);
      } else {
        assert key == (l.q, l.n as nat);
        AskKeeps(ViewOf(s, l), l.n, s.dataSize);
        RequestView(s, l);
      }
    case Answer(_, k) =>
      AnswerKeeps(ViewOf(s, l), l.n, s.dataSize, k);
      AnswerView(s, l, k);
  }

  lemma {:induction false} ArrivesMoves(v: View, n: Num)
    requires Expected(v, n)
    ensures Potential(Arrives(v, n)) < Potential(v)
  {
  }

  lemma {:induction false} ReturnsMoves(v: View, n: Num)
    requires ExpectedBack(v, n) && (v.bwd[0] == Ack(n) ==> v.snd.value.position == v.snd.value.fileSize)
    ensures Potential(Returns(v, n)) < Potential(v)
  {
  }

  lemma {:induction false} NextLink(s: Net, l: Link)
    ensures NextForward(s, l) ==> ActionLink(s, Deliver(l.p, l.q)) == l
    ensures NextBackward(s, l) ==> ActionLink(s, Deliver(l.q, l.p)) == l
  {
  }

  lemma {:induction false} ForwardMoves(s: Net, l: Link)
    requires Inv(s) && NextForward(s, l)
    ensures Moves(s, Deliver(l.p, l.q))
  {
    NextLink(s, l);
    NextExpected(s, l);
    ArrivesMoves(ViewOf(s, l), l.n);
    ArrivesView(s, l);
  }

  lemma {:induction false} AckAtTheEnd(v: View, n: Num, dataSize: nat)
    requires LinkInv(v, n, dataSize) && v.bwd != [] && v.bwd[0] == Ack(n)
    ensures v.snd.Some? && v.snd.value.position == v.snd.value.fileSize
  {
  }

  lemma {:induction false} BackwardMoves(s: Net, l: Link)
    requires Inv(s) && NextBackward(s, l)
    ensures Moves(s, Deliver(l.q, l.p))
  {
    NextLink(s, l);
    NextExpectedBack(s, l);
    var v := ViewOf(s, l);
    if v.bwd[0] == Ack(l.n) { AckAtTheEnd(v, l.n, s.dataSize); }
    ReturnsMoves(v, l.n);
    ReturnsView(s, l);
  }

  lemma {:induction false} StepMoves(s: Net, a: Action)
    requires Inv(s) && Numbered(s) && Can(s, a)
    ensures Moves(s, a)
  {
    if a.Deliver? {
      var l := ActionLink(s, a);
      var packet := s.Channel(a.p, a.q)[0];
      if Forward(packet.filenumber, packet) {
        ForwardMoves(s, l);
      } else {
        BackwardMoves(s, l);
      }
    } else if a.Send? {
      SendMoves(s, a.l, a.content);
    } else if a.Resume? {
      ResumeMoves(s, a.l);
    } else if a.ResumeOwn? {
      OwnResumeView(s, a.l);
    } else if a.AnswerBack? {
      NeverAnswersBack(s, a.l, a.bytes);
      assert false;
    } else {
      SenderMoves(s, a);
    }
  }

  /** The steps of a run that are about l, and what its clients staked on it. */
  ghost function Count(s: Net, actions: seq<Action>, l: Link): nat
    decreases |actions|
  {
    if actions == [] || !Possible(s, actions[0]) then 0
    else (if ActionLink(s, actions[0]) == l then 1 else 0) + Count(Do(s, actions[0]), actions[1..], l)
  }

  ghost function Stakes(s: Net, actions: seq<Action>, l: Link): nat
    decreases |actions|
  {
    if actions == [] || !Possible(s, actions[0]) then 0
    else (if ActionLink(s, actions[0]) == l && Stake(actions[0]) > 0 then Stake(actions[0]) + 1 else 0)
         + Stakes(Do(s, actions[0]), actions[1..], l)
  }

  lemma {:induction false} RunIsBounded(s: Net, actions: seq<Action>, s': Net, l: Link)
    requires Inv(s) && Numbered(s) && Run(s, actions, s')
    ensures Count(s, actions, l) + Potential(ViewOf(s', l)) <= Potential(ViewOf(s, l)) + Stakes(s, actions, l)
    decreases |actions|
  {
    if actions != [] {
      StepMoves(s, actions[0]);
      TransferInvariant.StepKeeps(s, actions[0]);
      RunIsBounded(Do(s, actions[0]), actions[1..], s', l);
    }
  }

  /** Over a whole run, the requests, answers and deliveries on a link number at most
      six for each byte of the files its clients sent, three more for each file, and
      one or two for each RESUME. */
  lemma {:induction false} StepsAreBounded(dataSize: nat, actions: seq<Action>, s: Net, l: Link)
    requires dataSize > 0 && Run(Start(dataSize), actions, s)
    ensures Count(Start(dataSize), actions, l) <= Stakes(Start(dataSize), actions, l)
  {
    StartOk(dataSize);
    RunIsBounded(Start(dataSize), actions, s, l);
    RunKeeps(Start(dataSize), actions, s);
    PotentialNat(ViewOf(s, l), l.n, s.dataSize);
  }

  /** Nothing is left to do on a link: no packet to deliver between the two, no request
      to raise or to answer, no transfer that waits to be accepted. */
  ghost predicate AtRest(s: Net, l: Link) {
    && !Can(s, Deliver(l.p, l.q)) && !Can(s, Deliver(l.q, l.p))
    && !Can(s, Request(l.p, (l.q, l.n as nat))) && !Can(s, Answer(l, 1))
    && (ViewOf(s, l).snd.Some? && ViewOf(s, l).rcv.Some? && Can(s, Resume(l)) ==>
          ViewOf(s, l).snd.value.state != PAUSED)
  }

  /** All files sent on the link are finished for both clients, but for a last one that
      is empty. */
  ghost predicate AllFinished(s: Net, l: Link) {
    var h := s.HistoryOf(l);
    if ViewOf(s, l).snd == None then h.got == h.sent && h.acks == |h.sent|
    else && h.sent != [] && h.sent[|h.sent| - 1] == []
         && h.got == h.sent[..|h.sent| - 1] && h.acks == |h.sent| - 1
  }

  /** Every transfer comes to an end: the steps of a run are bounded by what its clients
      started, and when a link has come to rest its files are finished. */
  lemma {:induction false} TransfersEnd(dataSize: nat, actions: seq<Action>, s: Net, l: Link)
    requires dataSize > 0 && Run(Start(dataSize), actions, s)
    ensures Count(Start(dataSize), actions, l) <= Stakes(Start(dataSize), actions, l)
    ensures AtRest(s, l) ==> AllFinished(s, l)
  {
    StepsAreBounded(dataSize, actions, s, l);
    Reachable(dataSize, actions, s);
    if AtRest(s, l) { RestFinishes(s, l); }
  }

  lemma {:induction false} RestFinishes(s: Net, l: Link)
    requires Inv(s) && AtRest(s, l)
    ensures AllFinished(s, l)
  {
    InvAt(s, l);
    RestIsEmpty(s, l);
    if ViewOf(s, l).snd.Some? && ViewOf(s, l).snd.value.fileSize > 0 {
      TransferTheorems.QuietLinkMoves(s, l);
      assert false;
    }
    TransferTheorems.EmptyView(s, l);
    RestIsFinished(ViewOf(s, l), l.n, s.dataSize);
  }

  lemma {:induction false} RestIsEmpty(s: Net, l: Link)
    requires AtRest(s, l)
    ensures s.Channel(l.p, l.q) == [] && s.Channel(l.q, l.p) == []
  {
  }

  lemma {:induction false} RestIsFinished(v: View, n: Num, dataSize: nat)
    requires LinkInv(v, n, dataSize) && v.fwd == [] && v.bwd == []
    requires v.snd.Some? ==> v.snd.value.fileSize == 0
    ensures if v.snd == None then v.h.got == v.h.sent && v.h.acks == |v.h.sent|
            else && v.h.sent != [] && v.h.sent[|v.h.sent| - 1] == []
                 && v.h.got == v.h.sent[..|v.h.sent| - 1] && v.h.acks == |v.h.sent| - 1
  {
    assert v.h.sent[..|v.h.sent|] == v.h.sent;
  }
}
