/** What a RESUME does that comes too late: for a file that its receiver already holds
    completely. The code does not refuse it. */
module TransferLate {
  import opened Wrappers
  import opened Transfers
  import opened TransferNet
  import opened TransferLinks
  import opened TransferInvariant
  import opened TransferCompletion
  import opened TransferTheorems

  /** A run in which old toxcore delivers packets and nobody calls anything. */
  ghost predicate Delivers(s: Net, actions: seq<Action>, s': Net) {
    (forall i :: 0 <= i < |actions| ==> actions[i].Deliver?) && Run(s, actions, s')
  }

  lemma {:induction false} DeliversNext(s: Net, p: Peer, q: Peer, actions: seq<Action>, s': Net)
    requires s.Channel(p, q) != [] && Delivers(Do(s, Deliver(p, q)), actions, s')
    ensures Delivers(s, [Deliver(p, q)] + actions, s')
  {
    var all := [Deliver(p, q)] + actions;
    assert all[1..] == actions;
  }

  // ----- deliveries in a state of any kind -----

  function NumberOf(packet: Packet): nat {
    match packet
    case SendRequest(n, _) => n + 256
    case Data(n, _) => n + 256
    case Control(rs, n, _) => NewFileNumber(rs, n)
  }

  /** What the callback for a packet from p makes of the table. */
  function Handled(t: Table, p: Peer, packet: Packet): Outcome {
    match packet
    case SendRequest(n, size) => OnSendRequest(t, p, n, size)
    case Data(n, bytes) => OnData(t, p, n, bytes)
    case Control(rs, n, control) => OnControl(t, p, rs, n, control)
  }

  lemma {:induction false} HandledConcerns(t: Table, p: Peer, packet: Packet)
    ensures var r := Handled(t, p, packet);
            r == AssertFails || Concerns(t, p, NumberOf(packet), r)
    ensures NumberOf(packet) < 512
  {
  }

  lemma {:induction false} PacketLink(p: Peer, q: Peer, packet: Packet, l: Link)
    requires l == LinkOf(q, p, NumberOf(packet))
    ensures if NumberOf(packet) < 256 then Backward(l.n, packet) && l == Link(q, p, packet.filenumber)
            else Forward(l.n, packet) && l == Link(p, q, packet.filenumber)
  {
  }

  /** A delivery fails an assertion or is about one link only. */
  lemma {:induction false} DeliverHandles(s: Net, p: Peer, q: Peer, l: Link)
    requires s.Channel(p, q) != []
    requires l == LinkOf(q, p, NumberOf(s.Channel(p, q)[0]))
    ensures var (packet, s') := (s.Channel(p, q)[0], Do(s, Deliver(p, q)));
            var r := Handled(s.TableOf(q), p, packet);
            if r == AssertFails then s'.aborted
            else && Concerns(s.TableOf(q), p, NumberOf(packet), r) && Others(s, s', l)
                 && ViewOf(s', l) ==
                    Applied(ViewOf(s.Pop(p, q), l), p, NumberOf(packet), r).(busy := l in s'.busy)
  {
    var packet := s.Channel(p, q)[0];
    var r := Handled(s.TableOf(q), p, packet);
    HandledConcerns(s.TableOf(q), p, packet);
    PacketLink(p, q, packet, l);
    if r == AssertFails {
      AssertAborts(s, p, q);
    } else {
      PopApply(s, l, p, q, NumberOf(packet), r);
      DeliverIsApply(s, p, q);
      BusyOnly(s, Apply(s.Pop(p, q), q, p, r), Do(s, Deliver(p, q)), l);
    }
  }

  lemma {:induction false} AssertAborts(s: Net, p: Peer, q: Peer)
    requires s.Channel(p, q) != [] && Handled(s.TableOf(q), p, s.Channel(p, q)[0]) == AssertFails
    ensures Do(s, Deliver(p, q)).aborted
  {
  }

  lemma {:induction false} DeliverIsApply(s: Net, p: Peer, q: Peer)
    requires s.Channel(p, q) != []
    ensures var packet := s.Channel(p, q)[0];
            var s1 := Apply(s.Pop(p, q), q, p, Handled(s.TableOf(q), p, packet));
            Do(s, Deliver(p, q)) == s1 || Do(s, Deliver(p, q)) == s1.(busy := s1.busy - {Link(q, p, packet.filenumber)})
    ensures NumberOf(s.Channel(p, q)[0]) >= 256 ==>
              var packet := s.Channel(p, q)[0];
              Do(s, Deliver(p, q)) == Apply(s.Pop(p, q), q, p, Handled(s.TableOf(q), p, packet))
  {
  }

  lemma {:induction false} BusyOnly(s: Net, s1: Net, s2: Net, l: Link)
    requires Others(s, s1, l) && (s2 == s1 || s2 == s1.(busy := s1.busy - {l}))
    ensures Others(s, s2, l) && ViewOf(s2, l) == ViewOf(s1, l).(busy := l in s2.busy)
  {
  }

  // ----- the late RESUME overtaken by FINISHED -----

  /** An ACCEPT is on its way back, and by the time it arrives the sender's entry is gone. */
  ghost predicate DoomedBy(v: View, n: Num, j: nat) {
    && j < |v.bwd| && v.bwd[j] == Accept(n)
    && (v.snd == None || exists i :: 0 <= i < j && v.bwd[i] == Ack(n))
  }

  /** One packet less: the entry is still there, unless that packet was FINISHED. */
  lemma {:induction false} DoomedNext(v: View, v': View, n: Num, j: nat)
    requires DoomedBy(v, n, j) && v.snd.Some? && v'.bwd == v.bwd[1..]
    requires v'.snd == None <==> v.bwd[0] == Ack(n)
    ensures j > 0 && DoomedBy(v', n, j - 1)
  {
    var i :| 0 <= i < j && v.bwd[i] == Ack(n);
    assert v'.bwd[j - 1] == v.bwd[j];
    if i > 0 { assert v'.bwd[i - 1] == v.bwd[i]; }
  }

  lemma {:induction false} DoomedBackward(s: Net, l: Link, j: nat)
    requires NextBackward(s, l) && DoomedBy(ViewOf(s, l), l.n, j)
    ensures var s' := Do(s, Deliver(l.q, l.p)); s'.aborted || (j > 0 && DoomedBy(ViewOf(s', l), l.n, j - 1))
  {
    var packet, v := s.Channel(l.q, l.p)[0], ViewOf(s, l);
    LinkOfIs(l.p, l.q, NumberOf(packet), l);
    DeliverHandles(s, l.q, l.p, l);
    var rest := PoppedBackward(s, l);
    assert v.bwd[1..] == rest;
    var s', r := Do(s, Deliver(l.q, l.p)), Handled(s.TableOf(l.p), l.q, packet);
    if r != AssertFails {
      assert ViewOf(s', l).bwd == rest && v.snd.Some?;
      DoomedNext(v, ViewOf(s', l), l.n, j);
    }
  }

  lemma {:induction false} DoomedStays(v: View, v': View, n: Num, j: nat)
    requires DoomedBy(v, n, j) && v'.snd == v.snd && v.bwd <= v'.bwd
    ensures DoomedBy(v', n, j)
  {
    if v.snd.Some? {
      var i :| 0 <= i < j && v.bwd[i] == Ack(n);
      assert v'.bwd[i] == Ack(n);
    }
  }

  /** A delivery to p that is not about what goes back on l. */
  lemma {:induction false} DoomedOther(s: Net, l: Link, j: nat)
    requires s.Channel(l.q, l.p) != [] && !NextBackward(s, l) && DoomedBy(ViewOf(s, l), l.n, j)
    ensures var s' := Do(s, Deliver(l.q, l.p)); s'.aborted || DoomedBy(ViewOf(s', l), l.n, j)
  {
    var packet, s' := s.Channel(l.q, l.p)[0], Do(s, Deliver(l.q, l.p));
    var m := LinkOf(l.p, l.q, NumberOf(packet));
    PacketLink(l.q, l.p, packet, m);
    DeliverHandles(s, l.q, l.p, m);
    if m == l && !s'.aborted {
      PopView(s, l.q, l.p, l);
      DoomedStays(ViewOf(s, l), ViewOf(s', l), l.n, j);
    }
  }

  lemma {:induction false} NothingBack(s: Net, l: Link)
    requires s.Channel(l.q, l.p) == []
    ensures ViewOf(s, l).bwd == []
  {
  }

  /** Delivering what is on the way to the sender ends in the failed assertion. */
  lemma {:induction false} Dooms(s: Net, l: Link, j: nat) returns (actions: seq<Action>, s': Net)
    requires DoomedBy(ViewOf(s, l), l.n, j)
    ensures Delivers(s, actions, s') && s'.aborted
    decreases Load(s, l.q, l.p)
  {
    if s.Channel(l.q, l.p) == [] { NothingBack(s, l); }
    var s1 := Do(s, Deliver(l.q, l.p));
    DeliverLightens(s, l.q, l.p);
    var j1 := j;
    if NextBackward(s, l) {
      DoomedBackward(s, l, j);
      if !s1.aborted { j1 := j - 1; }
    } else {
      DoomedOther(s, l, j);
    }
    var rest;
    if s1.aborted {
      rest, s' := [], s1;
    } else {
      rest, s' := Dooms(s1, l, j1);
    }
    DeliversNext(s, l.q, l.p, rest, s');
    actions := [Deliver(l.q, l.p)] + rest;
  }

  // ----- the late RESUME that meets the next file -----

  /** The late ACCEPT for the old file is on its way, or has started the new one, which its
      receiver has not accepted. */
  ghost predicate Misled(v: View, n: Num) {
    && v.h.sent != [] && v.snd.Some? && !Resumed(v)
    && ((v.snd.value.state == PAUSED && v.bwd == [Accept(n)]) || v.snd.value.state == RUNNING)
  }

  lemma {:induction false} MisledArrives(v: View, n: Num, dataSize: nat)
    requires LinkInv(v, n, dataSize) && Misled(v, n) && Expected(v, n)
    ensures Misled(Arrives(v, n), n)
  {
    if v.fwd[0].Data? { DataIsStarted(v, n, dataSize); }
  }

  lemma {:induction false} MisledReturns(v: View, n: Num)
    requires Misled(v, n) && ExpectedBack(v, n) && v.snd.value.state == PAUSED
    ensures Misled(Returns(v, n), n)
  {
  }

  lemma {:induction false} MisledDelivers(s: Net, l: Link)
    requires Inv(s) && s.Channel(l.q, l.p) != [] && Misled(ViewOf(s, l), l.n)
    requires ViewOf(s, l).snd.value.state == PAUSED
    ensures Misled(ViewOf(Do(s, Deliver(l.q, l.p)), l), l.n)
  {
    var packet := s.Channel(l.q, l.p)[0];
    if Forward(packet.filenumber, packet) {
      var m := Link(l.q, l.p, packet.filenumber);
      NextExpected(s, m);
      ArrivesView(s, m);
      if m == l { MisledArrives(ViewOf(s, l), l.n, s.dataSize); }
    } else {
      var m := Link(l.p, l.q, packet.filenumber);
      NextExpectedBack(s, m);
      ReturnsView(s, m);
      if m == l { MisledReturns(ViewOf(s, l), l.n); }
    }
  }

  /** Then deliveries start the next file before its receiver has accepted it. */
  lemma {:induction false} MisledStarts(s: Net, l: Link) returns (actions: seq<Action>, s': Net)
    requires Inv(s) && Misled(ViewOf(s, l), l.n)
    ensures Delivers(s, actions, s') && StartedUnaccepted(s', l)
    decreases Load(s, l.q, l.p)
  {
    if ViewOf(s, l).snd.value.state == RUNNING {
      return [], s;
    }
    if s.Channel(l.q, l.p) == [] { NothingBack(s, l); }
    MisledDelivers(s, l);
    DeliverStep(s, l.q, l.p);
    DeliverLightens(s, l.q, l.p);
    var rest;
    rest, s' := MisledStarts(Do(s, Deliver(l.q, l.p)), l);
    DeliversNext(s, l.q, l.p, rest, s');
    actions := [Deliver(l.q, l.p)] + rest;
  }

  // ----- every late RESUME -----

  /** When a RESUME comes late the link is in one of three phases. */
  lemma {:induction false} LateIs(v: View, n: Num, dataSize: nat)
    requires LinkInv(v, n, dataSize) && v.rcv.Some?
    requires v.rcv.value.position >= v.rcv.value.fileSize > 0
    ensures v.rcv.value.state == PAUSED && v.h.sent != []
    ensures if |v.h.got| + 1 == |v.h.sent| then Received(v, n) || Tail(v, n) else Behind(v, n)
  {
  }

  lemma {:induction false} LateDooms(v: View, n: Num)
    requires Received(v, n) || Tail(v, n)
    ensures DoomedBy(Resumes(v, n), n, |v.bwd|)
  {
    if Received(v, n) { assert Resumes(v, n).bwd[|v.bwd| - 1] == Ack(n); }
  }

  lemma {:induction false} LateMisleads(v: View, n: Num, dataSize: nat)
    requires LinkInv(v, n, dataSize) && Behind(v, n) && Accepted(v)
    ensures LinkInv(Resumes(v, n), n, dataSize) && Misled(Resumes(v, n), n)
  {
    assert |v.h.got| == |v.h.sent| - 2;
    assert Behind(Resumes(v, n), n);
  }

  lemma {:induction false} LateResumeView(s: Net, l: Link)
    requires Inv(s) && !ClientsBehave(s, Resume(l))
    ensures ViewOf(s, l).rcv.Some? && ViewOf(s, l).rcv.value.position >= ViewOf(s, l).rcv.value.fileSize > 0
    ensures Others(s, DoResume(s, l), l) && ViewOf(DoResume(s, l), l) == Resumes(ViewOf(s, l), l.n)
  {
    InvAt(s, l);
    LateIs(ViewOf(s, l), l.n, s.dataSize);
    ResumeDone(s, l);
    ResumeView(s, l);
  }

  /** The sender's file is running, and its receiver has not accepted it. */
  ghost predicate StartedUnaccepted(s: Net, l: Link) {
    var v := ViewOf(s, l);
    !s.aborted && v.snd.Some? && v.snd.value.state == RUNNING && v.h.sent != [] && !Resumed(v)
  }

  /** A late RESUME can make an assertion fail, in some run of clients that behave from
      then on, if and only if the sender has announced no newer file under that number;
      and then mere deliveries do. If it has, deliveries can start the newer file
      although its receiver has not accepted it. */
  lemma {:induction false} LateResume(dataSize: nat, before: seq<Action>, s: Net, l: Link)
    requires dataSize > 0 && Run(Start(dataSize), before, s) && !ClientsBehave(s, Resume(l))
    ensures Possible(s, Resume(l))
    ensures CanAbort(Do(s, Resume(l))) <==> |s.HistoryOf(l).got| + 1 == |s.HistoryOf(l).sent|
    ensures CanAbort(Do(s, Resume(l))) ==>
              exists actions, s' :: Delivers(Do(s, Resume(l)), actions, s') && s'.aborted
    ensures !CanAbort(Do(s, Resume(l))) ==>
              exists actions, s' :: Delivers(Do(s, Resume(l)), actions, s') && StartedUnaccepted(s', l)
  {
    TransferInvariant.Reachable(dataSize, before, s);
    ReachableAccepted(dataSize, before, s);
    InvAt(s, l);
    LateResumeView(s, l);
    var v, s1 := ViewOf(s, l), DoResume(s, l);
    LateIs(v, l.n, s.dataSize);
    if |v.h.got| + 1 == |v.h.sent| {
      LateDooms(v, l.n);
      var actions, s' := Dooms(s1, l, |v.bwd|);
    } else {
      LateMisleads(v, l.n, s.dataSize);
      OneLinkKeeps(s, s1, l);
      StepNumbered(s, Resume(l));
      SafeNet(s1);
      var actions, s' := MisledStarts(s1, l);
    }
  }

  /** The shortest backlog: the receiver's FINISHED and the late ACCEPT. */
  lemma {:induction false} AckThenAccept(s: Net, l: Link)
    requires Inv(s) && s.Channel(l.q, l.p) == [Ack(l.n)]
    requires ViewOf(s, l).rcv.Some? && ViewOf(s, l).rcv.value.position == ViewOf(s, l).rcv.value.fileSize > 0
    ensures Possible(s, Resume(l)) && !ClientsBehave(s, Resume(l))
    ensures var s1 := Do(s, Resume(l));
            && Possible(s1, Deliver(l.q, l.p))
            && var s2 := Do(s1, Deliver(l.q, l.p));
               Possible(s2, Deliver(l.q, l.p)) && Do(s2, Deliver(l.q, l.p)).aborted
  {
    LateEntries(s, l);
    LateChannel(s, l);
    var s1 := DoResume(s, l);
    DeliversControl(s1, l.q, l.p, true, l.n, FINISHED);
    LateAck(s1, l);
    DeliversControl(Do(s1, Deliver(l.q, l.p)), l.q, l.p, true, l.n, ACCEPT);
  }

  lemma {:induction false} LateEntries(s: Net, l: Link)
    requires Inv(s) && s.Channel(l.q, l.p) == [Ack(l.n)]
    requires ViewOf(s, l).rcv.Some? && ViewOf(s, l).rcv.value.position == ViewOf(s, l).rcv.value.fileSize > 0
    ensures Find(s.TableOf(l.p), (l.q, l.n as nat)).Some?
    ensures (l.p, l.n + 256) in s.TableOf(l.q) && s.TableOf(l.q)[(l.p, l.n + 256)].state == PAUSED
  {
    InvAt(s, l);
    NextInView(s, l);
    assert Received(ViewOf(s, l), l.n);
  }

  lemma {:induction false} LateChannel(s: Net, l: Link)
    requires s.Channel(l.q, l.p) == [Ack(l.n)]
    requires (l.p, l.n + 256) in s.TableOf(l.q) && s.TableOf(l.q)[(l.p, l.n + 256)].state == PAUSED
    ensures DoResume(s, l).Channel(l.q, l.p) == [Ack(l.n), Accept(l.n)]
    ensures DoResume(s, l).TableOf(l.p) == s.TableOf(l.p)
  {
    FileNumbersMirror(l.n + 256);
  }

  lemma {:induction false} LateAck(s: Net, l: Link)
    requires s.Channel(l.q, l.p) == [Ack(l.n), Accept(l.n)] && (l.q, l.n as nat) in s.TableOf(l.p)
    ensures var s' := Do(s, Deliver(l.q, l.p));
            s'.Channel(l.q, l.p) == [Accept(l.n)] && (l.q, l.n as nat) !in s'.TableOf(l.p)
  {
    DeliversControl(s, l.q, l.p, true, l.n, FINISHED);
  }

  // ----- one such run, step by step -----

  const L: Link := Link(0, 1, 0)

  /** Everything about the link L in a net where nothing else happens. */
  ghost predicate At(s: Net, snd: Option<Transfer>, rcv: Option<Transfer>, there: seq<Packet>, back: seq<Packet>,
                     h: History)
  {
    && s.dataSize == 1 && !s.aborted && s.HistoryOf(L) == h
    && Find(s.TableOf(0), (1, 0)) == snd && Find(s.TableOf(1), (0, 256)) == rcv
    && s.Channel(0, 1) == there && s.Channel(1, 0) == back
  }

  const FILE: Bytes := [7]

  lemma {:induction false} Sending(s: Net)
    requires s == Start(1)
    ensures Can(s, Send(L, FILE))
    ensures At(Do(s, Send(L, FILE)), Some(Transfer(PAUSED, 0, 1, false, 0)), None, [SendRequest(0, 1)],
               [], History([FILE], [], [], 0, [], [], {}, {}))
  {
  }

  lemma {:induction false} Announcing(s: Net)
    requires At(s, Some(Transfer(PAUSED, 0, 1, false, 0)), None, [SendRequest(0, 1)],
               [], History([FILE], [], [], 0, [], [], {}, {}))
    ensures Can(s, Deliver(0, 1))
    ensures At(Do(s, Deliver(0, 1)),
               Some(Transfer(PAUSED, 0, 1, false, 0)), Some(Transfer(PAUSED, 0, 1, false, 0)), [],
               [], History([FILE], [], [], 0, [], [], {}, {}))
  {
  }

  lemma {:induction false} Accepting(s: Net)
    requires At(s, Some(Transfer(PAUSED, 0, 1, false, 0)), Some(Transfer(PAUSED, 0, 1, false, 0)), [],
               [], History([FILE], [], [], 0, [], [], {}, {}))
    ensures Can(s, Resume(L))
    ensures At(Do(s, Resume(L)), Some(Transfer(PAUSED, 0, 1, false, 0)), Some(Transfer(PAUSED, 0, 1, false, 0)), [],
               [Accept(0)], History([FILE], [], [], 0, [], [], {0}, {}))
  {
    FileNumbersMirror(256);
  }

  lemma {:induction false} Starting(s: Net)
    requires At(s, Some(Transfer(PAUSED, 0, 1, false, 0)), Some(Transfer(PAUSED, 0, 1, false, 0)), [],
               [Accept(0)], History([FILE], [], [], 0, [], [], {0}, {}))
    ensures Can(s, Deliver(1, 0))
    ensures At(Do(s, Deliver(1, 0)), Some(Transfer(RUNNING, 0, 1, false, 0)),
               Some(Transfer(PAUSED, 0, 1, false, 0)), [],
               [], History([FILE], [], [], 0, [], [], {0}, {0}))
  {
  }

  lemma {:induction false} Asking(s: Net)
    requires At(s, Some(Transfer(RUNNING, 0, 1, false, 0)), Some(Transfer(PAUSED, 0, 1, false, 0)), [],
               [], History([FILE], [], [], 0, [], [], {0}, {0}))
    ensures Can(s, Request(0, (1, 0)))
    ensures At(Do(s, Request(0, (1, 0))), Some(Transfer(RUNNING, 0, 1, true, 1)),
               Some(Transfer(PAUSED, 0, 1, false, 0)), [],
               [], History([FILE], [], [], 0, [Ask(0, 1)], [], {0}, {0}))
  {
  }

  lemma {:induction false} Answering(s: Net)
    requires At(s, Some(Transfer(RUNNING, 0, 1, true, 1)), Some(Transfer(PAUSED, 0, 1, false, 0)), [],
               [], History([FILE], [], [], 0, [Ask(0, 1)], [], {0}, {0}))
    ensures Can(s, Answer(L, 1))
    ensures At(Do(s, Answer(L, 1)), Some(Transfer(RUNNING, 1, 1, false, 1)),
               Some(Transfer(PAUSED, 0, 1, false, 0)), [Data(0, FILE), Fin(0)],
               [], History([FILE], [], [], 0, [Ask(0, 1)], [1], {0}, {0}))
  {
    assert Chunk(FILE, 0, 1) == FILE;
  }

  lemma {:induction false} Taking(s: Net)
    requires At(s, Some(Transfer(RUNNING, 1, 1, false, 1)),
               Some(Transfer(PAUSED, 0, 1, false, 0)), [Data(0, FILE), Fin(0)],
               [], History([FILE], [], [], 0, [Ask(0, 1)], [1], {0}, {0}))
    ensures Can(s, Deliver(0, 1))
    ensures At(Do(s, Deliver(0, 1)), Some(Transfer(RUNNING, 1, 1, false, 1)),
               Some(Transfer(PAUSED, 1, 1, false, 0)), [Fin(0)],
               [Ack(0)], History([FILE], FILE, [], 0, [Ask(0, 1)], [1], {0}, {0}))
  {
  }

  /** The actions lead from s to t, and on wherever t leads. */
  ghost predicate Leads(s: Net, actions: seq<Action>, t: Net) {
    forall more, s' :: Run(t, more, s') ==> Run(s, actions + more, s')
  }

  lemma {:induction false} LeadsOn(s: Net, a: seq<Action>, t: Net, b: seq<Action>, u: Net)
    requires Leads(s, a, t) && Leads(t, b, u)
    ensures Leads(s, a + b, u)
  {
    forall more, s' | Run(u, more, s')
      ensures Run(s, (a + b) + more, s')
    {
      assert Run(t, b + more, s');
      assert (a + b) + more == a + (b + more);
    }
  }

  lemma {:induction false} LeadsTo(s: Net, actions: seq<Action>, t: Net, more: seq<Action>, s': Net)
    requires Leads(s, actions, t) && Run(t, more, s')
    ensures Run(s, actions + more, s')
  {
  }

  const OPENING: seq<Action> := [Send(L, FILE), Deliver(0, 1)] + [Resume(L), Deliver(1, 0)]
  const SENDING: seq<Action> := [Request(0, (1, 0)), Answer(L, 1)] + [Deliver(0, 1)]

  /** A file of one byte is sent. Each of these lemmas also says how a run goes on. */
  lemma {:induction false} FileAnnounced(s0: Net) returns (s2: Net)
    requires s0 == Start(1)
    ensures At(s2, Some(Transfer(PAUSED, 0, 1, false, 0)), Some(Transfer(PAUSED, 0, 1, false, 0)), [],
               [], History([FILE], [], [], 0, [], [], {}, {}))
    ensures Leads(s0, [Send(L, FILE), Deliver(0, 1)], s2)
  {
    Sending(s0);
    var s1 := Do(s0, Send(L, FILE));
    Announcing(s1);
    s2 := Do(s1, Deliver(0, 1));
    forall more, s' | Run(s2, more, s')
      ensures Run(s0, [Send(L, FILE), Deliver(0, 1)] + more, s')
    {
      RunNext(s1, Deliver(0, 1), more, s');
      RunNext(s0, Send(L, FILE), [Deliver(0, 1)] + more, s');
      assert [Send(L, FILE)] + ([Deliver(0, 1)] + more) == [Send(L, FILE), Deliver(0, 1)] + more;
    }
  }

  lemma {:induction false} FileAccepted(s2: Net) returns (s4: Net)
    requires At(s2, Some(Transfer(PAUSED, 0, 1, false, 0)), Some(Transfer(PAUSED, 0, 1, false, 0)), [],
               [], History([FILE], [], [], 0, [], [], {}, {}))
    ensures At(s4, Some(Transfer(RUNNING, 0, 1, false, 0)), Some(Transfer(PAUSED, 0, 1, false, 0)), [],
               [], History([FILE], [], [], 0, [], [], {0}, {0}))
    ensures Leads(s2, [Resume(L), Deliver(1, 0)], s4)
  {
    Accepting(s2);
    var s3 := Do(s2, Resume(L));
    Starting(s3);
    s4 := Do(s3, Deliver(1, 0));
    forall more, s' | Run(s4, more, s')
      ensures Run(s2, [Resume(L), Deliver(1, 0)] + more, s')
    {
      RunNext(s3, Deliver(1, 0), more, s');
      RunNext(s2, Resume(L), [Deliver(1, 0)] + more, s');
      assert [Resume(L)] + ([Deliver(1, 0)] + more) == [Resume(L), Deliver(1, 0)] + more;
    }
  }

  lemma {:induction false} FileAsked(s4: Net) returns (s6: Net)
    requires At(s4, Some(Transfer(RUNNING, 0, 1, false, 0)), Some(Transfer(PAUSED, 0, 1, false, 0)), [],
               [], History([FILE], [], [], 0, [], [], {0}, {0}))
    ensures At(s6, Some(Transfer(RUNNING, 1, 1, false, 1)), Some(Transfer(PAUSED, 0, 1, false, 0)),
               [Data(0, FILE), Fin(0)], [], History([FILE], [], [], 0, [Ask(0, 1)], [1], {0}, {0}))
    ensures Leads(s4, [Request(0, (1, 0)), Answer(L, 1)], s6)
  {
    Asking(s4);
    var s5 := Do(s4, Request(0, (1, 0)));
    Answering(s5);
    s6 := Do(s5, Answer(L, 1));
    forall more, s' | Run(s6, more, s')
      ensures Run(s4, [Request(0, (1, 0)), Answer(L, 1)] + more, s')
    {
      RunNext(s5, Answer(L, 1), more, s');
      RunNext(s4, Request(0, (1, 0)), [Answer(L, 1)] + more, s');
      assert [Request(0, (1, 0))] + ([Answer(L, 1)] + more) == [Request(0, (1, 0)), Answer(L, 1)] + more;
    }
  }

  lemma {:induction false} FileTaken(s6: Net) returns (s: Net)
    requires At(s6, Some(Transfer(RUNNING, 1, 1, false, 1)), Some(Transfer(PAUSED, 0, 1, false, 0)),
               [Data(0, FILE), Fin(0)], [], History([FILE], [], [], 0, [Ask(0, 1)], [1], {0}, {0}))
    ensures At(s, Some(Transfer(RUNNING, 1, 1, false, 1)), Some(Transfer(PAUSED, 1, 1, false, 0)), [Fin(0)],
               [Ack(0)], History([FILE], FILE, [], 0, [Ask(0, 1)], [1], {0}, {0}))
    ensures Leads(s6, [Deliver(0, 1)], s)
  {
    Taking(s6);
    s := Do(s6, Deliver(0, 1));
    forall more, s' | Run(s, more, s')
      ensures Run(s6, [Deliver(0, 1)] + more, s')
    {
      RunNext(s6, Deliver(0, 1), more, s');
    }
  }

  lemma {:induction false} FileArrives() returns (s: Net)
    ensures At(s, Some(Transfer(RUNNING, 1, 1, false, 1)), Some(Transfer(PAUSED, 1, 1, false, 0)), [Fin(0)],
               [Ack(0)], History([FILE], FILE, [], 0, [Ask(0, 1)], [1], {0}, {0}))
    ensures Leads(Start(1), OPENING + SENDING, s)
  {
    var s2 := FileAnnounced(Start(1));
    var s4 := FileAccepted(s2);
    var s6 := FileAsked(s4);
    s := FileTaken(s6);
    LeadsOn(Start(1), [Send(L, FILE), Deliver(0, 1)], s2, [Resume(L), Deliver(1, 0)], s4);
    LeadsOn(s4, [Request(0, (1, 0)), Answer(L, 1)], s6, [Deliver(0, 1)], s);
    LeadsOn(Start(1), OPENING, s4, SENDING, s);
  }

  lemma {:induction false} ThenLate(actions: seq<Action>, s: Net)
    requires Run(Start(1), actions, s)
    requires At(s, Some(Transfer(RUNNING, 1, 1, false, 1)), Some(Transfer(PAUSED, 1, 1, false, 0)), [Fin(0)],
               [Ack(0)], History([FILE], FILE, [], 0, [Ask(0, 1)], [1], {0}, {0}))
    ensures Possible(s, Resume(L)) && !ClientsBehave(s, Resume(L))
    ensures var s1 := Do(s, Resume(L));
            && Possible(s1, Deliver(1, 0))
            && var s2 := Do(s1, Deliver(1, 0));
               Possible(s2, Deliver(1, 0)) && Do(s2, Deliver(1, 0)).aborted
  {
    TransferInvariant.Reachable(1, actions, s);
    AckThenAccept(s, L);
  }

  /** A file of one byte is sent, accepted, asked for and delivered; then its receiver
      accepts it again, and the two packets on their way to the sender are delivered. */
  lemma {:induction false} LateResumeAborts() returns (s: Net)
    ensures Run(Start(1), OPENING + SENDING, s) && !ClientsBehave(s, Resume(L))
    ensures Possible(s, Resume(L)) && Possible(Do(s, Resume(L)), Deliver(1, 0))
    ensures var s2 := Do(Do(s, Resume(L)), Deliver(1, 0));
            Possible(s2, Deliver(1, 0)) && Do(s2, Deliver(1, 0)).aborted
  {
    s := FileArrives();
    LeadsTo(Start(1), OPENING + SENDING, s, [], s);
    assert OPENING + SENDING + [] == OPENING + SENDING;
    ThenLate(OPENING + SENDING, s);
  }

  lemma {:induction false} Closing(s: Net)
    requires At(s, Some(Transfer(RUNNING, 1, 1, false, 1)), Some(Transfer(PAUSED, 1, 1, false, 0)), [Fin(0)],
               [Ack(0)], History([FILE], FILE, [], 0, [Ask(0, 1)], [1], {0}, {0}))
    ensures Can(s, Deliver(1, 0))
    ensures var s' := Do(s, Deliver(1, 0));
            && L !in s'.busy && s'.dataSize == 1 && s'.Channel(0, 1) == [Fin(0)] && s'.Channel(1, 0) == []
            && Find(s'.TableOf(0), (1, 0)) == None
            && Find(s'.TableOf(1), (0, 256)) == Some(Transfer(PAUSED, 1, 1, false, 0))
            && s'.HistoryOf(L) == History([FILE], FILE, [], 1, [Ask(0, 1)], [1], {0}, {0})
  {
    DeliversControl(s, 1, 0, true, 0, FINISHED);
  }

  lemma {:induction false} SendingAgain(s: Net)
    requires L !in s.busy && Find(s.TableOf(0), (1, 0)) == None
    requires Find(s.TableOf(1), (0, 256)) == Some(Transfer(PAUSED, 1, 1, false, 0))
    requires s.HistoryOf(L) == History([FILE], FILE, [], 1, [Ask(0, 1)], [1], {0}, {0})
    ensures Can(s, Send(L, FILE)) && !ClientsBehave(Do(s, Send(L, FILE)), Resume(L))
    ensures Do(s, Send(L, FILE)).HistoryOf(L).got == [] && Do(s, Send(L, FILE)).HistoryOf(L).sent == [FILE, FILE]
  {
  }

  /** The other case: the sender hears that its file is finished and sends the next one
      under the same number before the receiver accepts the old one again. */
  lemma {:induction false} LateResumeMisleads() returns (s: Net)
    ensures Run(Start(1), OPENING + SENDING + [Deliver(1, 0), Send(L, FILE)], s) && !ClientsBehave(s, Resume(L))
    ensures !CanAbort(Do(s, Resume(L)))
    ensures exists more, s' :: Delivers(Do(s, Resume(L)), more, s') && StartedUnaccepted(s', L)
  {
    var s7 := FileArrives();
    s := SecondFile(s7);
    LeadsTo(Start(1), OPENING + SENDING, s7, [Deliver(1, 0), Send(L, FILE)], s);
    LateResume(1, OPENING + SENDING + [Deliver(1, 0), Send(L, FILE)], s, L);
  }

  lemma {:induction false} SecondFile(s7: Net) returns (s: Net)
    requires At(s7, Some(Transfer(RUNNING, 1, 1, false, 1)), Some(Transfer(PAUSED, 1, 1, false, 0)), [Fin(0)],
               [Ack(0)], History([FILE], FILE, [], 0, [Ask(0, 1)], [1], {0}, {0}))
    ensures Run(s7, [Deliver(1, 0), Send(L, FILE)], s) && !ClientsBehave(s, Resume(L))
    ensures s.HistoryOf(L).got == [] && s.HistoryOf(L).sent == [FILE, FILE]
  {
    Closing(s7);
    var s8 := Do(s7, Deliver(1, 0));
    SendingAgain(s8);
    s := Do(s8, Send(L, FILE));
    RunNext(s8, Send(L, FILE), [], s);
    RunNext(s7, Deliver(1, 0), [Send(L, FILE)], s);
  }
}
