/** What the sender's RESUME does to its own file. The code takes it as it takes the
    receiver's, and it starts the receiver's entry, which is then asked for chunks. */
module TransferOwn {
  import opened Wrappers
  import opened Transfers
  import opened TransferNet
  import opened TransferLinks
  import opened TransferInvariant
  import opened TransferTheorems
  import opened TransferCompletion
  import opened TransferLate

  // ----- the RESUME reaches the receiver -----

  /** The sender's RESUME is on its way, behind nothing but the announcement of its file
      and an older FINISHED. */
  ghost predicate Heading(v: View, n: Num, size: nat) {
    || (v.rcv.Some? && v.fwd == [Fin(n), SendRequest(n, size), Go(n)])
    || (v.rcv == None && v.fwd == [SendRequest(n, size), Go(n)])
    || (v.rcv.Some? && v.fwd == [Go(n)]
        && v.rcv.value == Transfer(v.rcv.value.state, 0, size, false, 0) && v.rcv.value.state != FINISHED_STATE)
  }

  /** The receiver's entry runs, with some of the file behind it. */
  ghost predicate Driven(v: View, size: nat, position: nat) {
    && v.fwd == [] && position <= size
    && v.rcv.Some? && v.rcv.value == Transfer(RUNNING, position, size, false, v.rcv.value.sizeRequested)
  }

  lemma {:induction false} WaitingHeads(v: View, n: Num, dataSize: nat)
    requires LinkInv(v, n, dataSize) && Waiting(v) && v.snd.value.fileSize > 0
    ensures Heading(OwnResumes(v, n), n, v.snd.value.fileSize)
  {
    assert v.snd.value.position == 0 by {
      if v.snd.value.position > 0 { StartedIsRunning(v, n, dataSize); }
    }
    if Behind(v, n) {
      NothingFlows(v, n, [], v.fwd[2..]);
      assert v.fwd == [v.fwd[0], v.fwd[1]] + v.fwd[2..];
    } else if Announced(v, n) {
      NothingFlows(v, n, [], v.fwd[1..]);
      assert v.fwd == [v.fwd[0]] + v.fwd[1..];
    } else if Open(v, n) {
      NothingFlows(v, n, v.h.bytes, v.fwd);
    }
  }

  lemma {:induction false} NothingFlows(v: View, n: Num, arrived: Bytes, packets: seq<Packet>)
    requires Flow(v, n, arrived, packets) && v.snd.value.position == 0 < v.snd.value.fileSize && Content(v) != []
    ensures packets == [] && arrived == []
  {
    assert |arrived + Payload(packets)| == 0;
    if packets != [] { PayloadHead(packets); }
  }

  /** A delivery to q that is not about l's own way there, between two different peers. */
  lemma {:induction false} OtherWay(s: Net, l: Link)
    requires l.p != l.q && s.Channel(l.p, l.q) != [] && !NextForward(s, l)
    ensures var s' := Do(s, Deliver(l.p, l.q)); s'.aborted || ViewOf(s', l) == ViewOf(s, l)
  {
    var packet := s.Channel(l.p, l.q)[0];
    var m := LinkOf(l.q, l.p, NumberOf(packet));
    PacketLink(l.p, l.q, packet, m);
    DeliverHandles(s, l.p, l.q, m);
  }

  /** What a delivery on l's own way does: an assertion fails, or the callback's work. */
  lemma {:induction false} ThisWay(s: Net, l: Link) returns (r: Outcome)
    requires l.p != l.q && NextForward(s, l)
    ensures r == Handled(s.TableOf(l.q), l.p, s.Channel(l.p, l.q)[0])
    ensures var (v, s') := (ViewOf(s, l), Do(s, Deliver(l.p, l.q)));
            && v.fwd != [] && v.fwd[0] == s.Channel(l.p, l.q)[0]
            && if r == AssertFails then s'.aborted
               else && r.Done? && ViewOf(s', l).fwd == v.fwd[1..]
                    && ViewOf(s', l).rcv == Find(r.table, (l.p, l.n + 256))
  {
    var packet := s.Channel(l.p, l.q)[0];
    r := Handled(s.TableOf(l.q), l.p, packet);
    LinkOfIs(l.q, l.p, NumberOf(packet), l);
    DeliverHandles(s, l.p, l.q, l);
    var rest := PoppedForward(s, l);
    assert ViewOf(s, l).fwd[1..] == rest && NumberOf(packet) == l.n + 256;
  }

  lemma {:induction false} HeadingDelivers(s: Net, l: Link, size: nat)
    requires l.p != l.q && NextForward(s, l) && Heading(ViewOf(s, l), l.n, size)
    ensures var s' := Do(s, Deliver(l.p, l.q));
            s'.aborted || Heading(ViewOf(s', l), l.n, size) || Driven(ViewOf(s', l), size, 0)
  {
    var r := ThisWay(s, l);
  }

  lemma {:induction false} NothingThere(s: Net, l: Link)
    requires s.Channel(l.p, l.q) == []
    ensures ViewOf(s, l).fwd == []
  {
  }

  lemma {:induction false} HeadingAborts(s: Net, l: Link, size: nat) returns (actions: seq<Action>, s': Net)
    requires l.p != l.q && s.dataSize > 0 && size > 0 && Heading(ViewOf(s, l), l.n, size)
    ensures Run(s, actions, s') && s'.aborted
    decreases Load(s, l.p, l.q)
  {
    if s.Channel(l.p, l.q) == [] { NothingThere(s, l); }
    var a := Deliver(l.p, l.q);
    var s1 := Do(s, a);
    StepDataSize(s, a);
    DeliverLightens(s, l.p, l.q);
    var rest;
    if NextForward(s, l) { HeadingDelivers(s, l, size); } else { OtherWay(s, l); }
    if s1.aborted {
      rest, s' := [], s1;
    } else if Heading(ViewOf(s1, l), l.n, size) {
      rest, s' := HeadingAborts(s1, l, size);
    } else {
      rest, s' := DrivenAborts(s1, l, size, 0);
    }
    RunNext(s, a, rest, s');
    actions := [a] + rest;
  }

  // ----- the receiver's client is asked, and answers -----

  lemma {:induction false} AsksBack(s: Net, l: Link, size: nat, position: nat)
    requires s.dataSize > 0 && Driven(ViewOf(s, l), size, position) && position < size
    ensures Can(s, Request(l.q, (l.p, l.n + 256)))
    ensures var v := ViewOf(DoRequest(s, l.q, (l.p, l.n + 256)), l);
            && v.fwd == [] && v.rcv == Some(Transfer(RUNNING, position, size, true, Min(s.dataSize, size - position)))
  {
    var r := RequestOne(s.TableOf(l.q), (l.p, l.n + 256), s.dataSize);
    LinkOfIs(l.q, l.p, l.n + 256, l);
    ApplyOthers(s, l.q, l.p, l.n + 256, r);
  }

  function BackPackets(n: Num, bytes: Bytes, last: bool): seq<Packet> {
    [Data(n, bytes)] + if last then [Ack(n)] else []
  }

  lemma {:induction false} BackOutcome(t: Table, p: Peer, n: Num, size: nat, position: nat, bytes: Bytes, dataSize: nat)
    requires 1 <= |bytes| <= dataSize
    requires Find(t, (p, n + 256)) == Some(Transfer(RUNNING, position, size, true, |bytes|))
    ensures FileSendChunk(t, p, n + 256, bytes, dataSize) ==
            Done(t[(p, n + 256) := Transfer(RUNNING, position + |bytes|, size, false, |bytes|)],
                 BackPackets(n, bytes, position + |bytes| == size), None)
  {
  }

  lemma {:induction false} BackPacketsBack(n: Num, packets: seq<Packet>, bytes: Bytes, last: bool)
    ensures Backwards(n, packets + BackPackets(n, bytes, last)) == Backwards(n, packets) + if last then [Ack(n)] else []
  {
    var more := if last then [Ack(n)] else [];
    BackwardsConcat(n, packets, [Data(n, bytes)] + more);
    BackwardsConcat(n, [Data(n, bytes)], more);
    BackwardsOne(n, Data(n, bytes));
    BackwardsOne(n, Ack(n));
  }

  function BackTable(t: Table, l: Link, position: nat, size: nat, k: nat): Table {
    t[(l.p, l.n + 256) := Transfer(RUNNING, position, size, false, k)]
  }

  lemma {:induction false} BackIsApply(s: Net, l: Link, size: nat, position: nat, bytes: Bytes)
    requires 1 <= |bytes| <= s.dataSize
    requires ViewOf(s, l).rcv == Some(Transfer(RUNNING, position, size, true, |bytes|))
    ensures Can(s, AnswerBack(l, bytes))
    ensures DoAnswerBack(s, l, bytes) ==
            Apply(s, l.q, l.p,
                  Done(BackTable(s.TableOf(l.q), l, position + |bytes|, size, |bytes|),
                       BackPackets(l.n, bytes, position + |bytes| == size), None))
  {
    BackOutcome(s.TableOf(l.q), l.p, l.n, size, position, bytes, s.dataSize);
  }

  /** The answer goes to p as data under the number of the file that p sends. */
  lemma {:induction false} AnswersBack(s: Net, l: Link, size: nat, position: nat, bytes: Bytes)
    requires l.p != l.q && ViewOf(s, l).fwd == [] && 1 <= |bytes| <= s.dataSize && position + |bytes| <= size
    requires ViewOf(s, l).rcv == Some(Transfer(RUNNING, position, size, true, |bytes|))
    ensures Can(s, AnswerBack(l, bytes))
    ensures var v := ViewOf(DoAnswerBack(s, l, bytes), l);
            && Driven(v, size, position + |bytes|)
            && (position + |bytes| == size ==> FalselyAcked(v, l.n, |ViewOf(s, l).bwd|))
  {
    var done := position + |bytes| == size;
    BackIsApply(s, l, size, position, bytes);
    BackPacketsBack(l.n, s.Channel(l.q, l.p), bytes, done);
    SentBack(s, l, BackTable(s.TableOf(l.q), l, position + |bytes|, size, |bytes|), BackPackets(l.n, bytes, done));
  }

  /** A call at q that sends p packets of any kind, and reports nothing. */
  lemma {:induction false} SentBack(s: Net, l: Link, table: Table, packets: seq<Packet>)
    requires l.p != l.q
    ensures var v := ViewOf(Apply(s, l.q, l.p, Done(table, packets, None)), l);
            && v.rcv == Find(table, (l.p, l.n + 256)) && v.fwd == ViewOf(s, l).fwd
            && v.bwd == Backwards(l.n, s.Channel(l.q, l.p) + packets)
  {
  }

  lemma {:induction false} BackwardsOne(n: Num, packet: Packet)
    ensures Backwards(n, [packet]) == if Backward(n, packet) then [packet] else []
    ensures Backwards(n, []) == []
  {
    assert [packet][..0] == [];
  }

  lemma {:induction false} AskAndAnswer(s: Net, l: Link, bytes: Bytes)
    requires Can(s, Request(l.q, (l.p, l.n + 256)))
    requires Can(DoRequest(s, l.q, (l.p, l.n + 256)), AnswerBack(l, bytes))
    ensures Leads(s, [Request(l.q, (l.p, l.n + 256)), AnswerBack(l, bytes)],
                  DoAnswerBack(DoRequest(s, l.q, (l.p, l.n + 256)), l, bytes))
  {
    var s1 := DoRequest(s, l.q, (l.p, l.n + 256));
    forall more, s' | Run(DoAnswerBack(s1, l, bytes), more, s')
      ensures Run(s, [Request(l.q, (l.p, l.n + 256)), AnswerBack(l, bytes)] + more, s')
    {
      RunNext(s1, AnswerBack(l, bytes), more, s');
      RunNext(s, Request(l.q, (l.p, l.n + 256)), [AnswerBack(l, bytes)] + more, s');
      assert [Request(l.q, (l.p, l.n + 256))] + ([AnswerBack(l, bytes)] + more) ==
             [Request(l.q, (l.p, l.n + 256)), AnswerBack(l, bytes)] + more;
    }
  }

  /** One request to the receiver's client, answered in full. */
  lemma {:induction false} Exchange(s: Net, l: Link, size: nat, position: nat)
    returns (actions: seq<Action>, s2: Net, k: nat, j: nat)
    requires l.p != l.q && s.dataSize > 0 && Driven(ViewOf(s, l), size, position) && position < size
    ensures Leads(s, actions, s2) && k == Min(s.dataSize, size - position) && s2.dataSize == s.dataSize
    ensures Driven(ViewOf(s2, l), size, position + k)
    ensures position + k == size ==> FalselyAcked(ViewOf(s2, l), l.n, j)
  {
    k := Min(s.dataSize, size - position);
    var bytes := seq(k, _ => 0);
    AsksBack(s, l, size, position);
    var s1 := DoRequest(s, l.q, (l.p, l.n + 256));
    StepDataSize(s, Request(l.q, (l.p, l.n + 256)));
    AnswersBack(s1, l, size, position, bytes);
    j := |ViewOf(s1, l).bwd|;
    s2 := DoAnswerBack(s1, l, bytes);
    StepDataSize(s1, AnswerBack(l, bytes));
    AskAndAnswer(s, l, bytes);
    actions := [Request(l.q, (l.p, l.n + 256)), AnswerBack(l, bytes)];
  }

  /** Asked again and again, the receiver's client sends as much as the file has. */
  lemma {:induction false} DrivenAborts(s: Net, l: Link, size: nat, position: nat)
    returns (actions: seq<Action>, s': Net)
    requires l.p != l.q && s.dataSize > 0 && Driven(ViewOf(s, l), size, position) && position < size
    ensures Run(s, actions, s') && s'.aborted
    decreases size - position
  {
    var exchange, s2, k, j := Exchange(s, l, size, position);
    var rest;
    if position + k == size {
      rest, s' := AckedAborts(s2, l, j);
    } else {
      rest, s' := DrivenAborts(s2, l, size, position + k);
    }
    LeadsTo(s, exchange, s2, rest, s');
    actions := exchange + rest;
  }

  // ----- its FINISHED ends the sender's transfer -----

  /** The receiver has an entry, and a FINISHED from it is on its way. */
  ghost predicate FalselyAcked(v: View, n: Num, j: nat) {
    v.rcv.Some? && v.fwd == [] && j < |v.bwd| && v.bwd[j] == Ack(n)
  }

  /** The sender's entry is gone, the receiver's is not. */
  ghost predicate LeftOver(v: View) {
    v.rcv.Some? && v.fwd == [] && v.snd == None && !v.busy
  }

  lemma {:induction false} AckDelivers(s: Net, l: Link, j: nat)
    requires l.p != l.q && NextBackward(s, l) && FalselyAcked(ViewOf(s, l), l.n, j)
    ensures var s' := Do(s, Deliver(l.q, l.p));
            s'.aborted || LeftOver(ViewOf(s', l)) || (j > 0 && FalselyAcked(ViewOf(s', l), l.n, j - 1))
  {
    var packet := s.Channel(l.q, l.p)[0];
    NextInView(s, l);
    if packet == Ack(l.n) && ViewOf(s, l).snd.Some? {
      CloseView(s, l);
    } else if packet == Accept(l.n) && ViewOf(s, l).snd.Some? {
      StartView(s, l);
    } else {
      AssertAborts(s, l.q, l.p);
    }
  }

  lemma {:induction false} OtherWayBack(s: Net, l: Link)
    requires l.p != l.q && s.Channel(l.q, l.p) != [] && !NextBackward(s, l)
    ensures var s' := Do(s, Deliver(l.q, l.p)); s'.aborted || ViewOf(s', l) == ViewOf(s, l)
  {
    var packet := s.Channel(l.q, l.p)[0];
    var m := LinkOf(l.p, l.q, NumberOf(packet));
    PacketLink(l.q, l.p, packet, m);
    DeliverHandles(s, l.q, l.p, m);
  }

  lemma {:induction false} AckedAborts(s: Net, l: Link, j: nat) returns (actions: seq<Action>, s': Net)
    requires l.p != l.q && FalselyAcked(ViewOf(s, l), l.n, j)
    ensures Run(s, actions, s') && s'.aborted
    decreases Load(s, l.q, l.p)
  {
    if s.Channel(l.q, l.p) == [] { NothingBack(s, l); }
    var a := Deliver(l.q, l.p);
    var s1 := Do(s, a);
    DeliverLightens(s, l.q, l.p);
    var rest;
    if NextBackward(s, l) { AckDelivers(s, l, j); } else { OtherWayBack(s, l); }
    if s1.aborted {
      rest, s' := [], s1;
    } else if LeftOver(ViewOf(s1, l)) {
      rest, s' := LeftOverAborts(s1, l);
    } else {
      rest, s' := AckedAborts(s1, l, if NextBackward(s, l) then j - 1 else j);
    }
    RunNext(s, a, rest, s');
    actions := [a] + rest;
  }

  // ----- and the next file finds the old entry -----

  lemma {:induction false} LeftOverAborts(s: Net, l: Link) returns (actions: seq<Action>, s': Net)
    requires l.p != l.q && LeftOver(ViewOf(s, l))
    ensures Run(s, actions, s') && s'.aborted
  {
    var a := Send(l, []);
    SendView(s, l, []);
    var s1 := Do(s, a);
    var rest;
    rest, s' := AnnouncedAborts(s1, l);
    RunNext(s, a, rest, s');
    actions := [a] + rest;
  }

  lemma {:induction false} AnnouncedAborts(s: Net, l: Link) returns (actions: seq<Action>, s': Net)
    requires l.p != l.q && ViewOf(s, l).rcv.Some? && ViewOf(s, l).fwd == [SendRequest(l.n, 0)]
    ensures Run(s, actions, s') && s'.aborted
    decreases Load(s, l.p, l.q)
  {
    if s.Channel(l.p, l.q) == [] { NothingThere(s, l); }
    var a := Deliver(l.p, l.q);
    var s1 := Do(s, a);
    DeliverLightens(s, l.p, l.q);
    var rest;
    if NextForward(s, l) { var r := ThisWay(s, l); } else { OtherWay(s, l); }
    if s1.aborted {
      rest, s' := [], s1;
    } else {
      rest, s' := AnnouncedAborts(s1, l);
    }
    RunNext(s, a, rest, s');
    actions := [a] + rest;
  }

  // ----- every RESUME of a sender -----

  /** When the sender sends RESUME for its own file, an assertion can fail in some run of
      clients that behave from then on if and only if its entry is there, not started,
      and the file is not empty. (Nobody is a friend of itself.) */
  lemma {:induction false} OwnResume(dataSize: nat, before: seq<Action>, s: Net, l: Link)
    requires dataSize > 0 && Run(Start(dataSize), before, s) && l.p != l.q
    ensures Possible(s, ResumeOwn(l))
    ensures CanAbort(Do(s, ResumeOwn(l))) <==>
            && (l.q, l.n as nat) in s.TableOf(l.p)
            && s.TableOf(l.p)[(l.q, l.n as nat)].state == PAUSED && s.TableOf(l.p)[(l.q, l.n as nat)].fileSize > 0
  {
    TransferInvariant.Reachable(dataSize, before, s);
    if ClientsBehave(s, ResumeOwn(l)) {
      TransferInvariant.StepKeeps(s, ResumeOwn(l));
      SafeNet(Do(s, ResumeOwn(l)));
    } else {
      InvAt(s, l);
      OwnResumeView(s, l);
      WaitingHeads(ViewOf(s, l), l.n, s.dataSize);
      StepDataSize(s, ResumeOwn(l));
      var actions, s' := HeadingAborts(DoResumeOwn(s, l), l, ViewOf(s, l).snd.value.fileSize);
    }
  }

  // ----- one such run -----

  /** As `At`, while the receiver of L sends the sender nothing. */
  ghost predicate Alone(s: Net, snd: Option<Transfer>, rcv: Option<Transfer>, there: seq<Packet>, back: seq<Packet>) {
    At(s, snd, rcv, there, back, History([FILE], [], [], 0, [], [], {}, {})) && (1, 256) !in s.TableOf(0)
  }

  lemma {:induction false} OwnSending()
    ensures Can(Start(1), Send(L, FILE))
    ensures Alone(Do(Start(1), Send(L, FILE)), Some(Transfer(PAUSED, 0, 1, false, 0)), None,
                  [SendRequest(0, 1)], [])
  {
  }

  lemma {:induction false} OwnAccepting(s: Net)
    requires Alone(s, Some(Transfer(PAUSED, 0, 1, false, 0)), None,
                  [SendRequest(0, 1)], [])
    ensures Possible(s, ResumeOwn(L))
    ensures Alone(Do(s, ResumeOwn(L)), Some(Transfer(PAUSED, 0, 1, false, 0)), None,
                  [SendRequest(0, 1), Go(0)], [])
  {
    assert SendReceive(0) == false && OldFileNumber(0) == 0;
  }

  lemma {:induction false} OwnAnnouncing(s: Net)
    requires Alone(s, Some(Transfer(PAUSED, 0, 1, false, 0)), None,
                  [SendRequest(0, 1), Go(0)], [])
    ensures Can(s, Deliver(0, 1))
    ensures Alone(Do(s, Deliver(0, 1)), Some(Transfer(PAUSED, 0, 1, false, 0)), Some(Transfer(PAUSED, 0, 1, false, 0)),
                  [Go(0)], [])
  {
  }

  lemma {:induction false} OwnStarting(s: Net)
    requires Alone(s, Some(Transfer(PAUSED, 0, 1, false, 0)), Some(Transfer(PAUSED, 0, 1, false, 0)),
                  [Go(0)], [])
    ensures Can(s, Deliver(0, 1))
    ensures Alone(Do(s, Deliver(0, 1)), Some(Transfer(PAUSED, 0, 1, false, 0)), Some(Transfer(RUNNING, 0, 1, false, 0)),
                  [], [])
  {
  }

  lemma {:induction false} OwnAsking(s: Net)
    requires Alone(s, Some(Transfer(PAUSED, 0, 1, false, 0)), Some(Transfer(RUNNING, 0, 1, false, 0)),
                  [], [])
    ensures Can(s, Request(1, (0, 256)))
    ensures Alone(Do(s, Request(1, (0, 256))), Some(Transfer(PAUSED, 0, 1, false, 0)),
                  Some(Transfer(RUNNING, 0, 1, true, 1)),
                  [], [])
  {
  }

  lemma {:induction false} OwnAnswering(s: Net)
    requires Alone(s, Some(Transfer(PAUSED, 0, 1, false, 0)), Some(Transfer(RUNNING, 0, 1, true, 1)),
                  [], [])
    ensures Can(s, AnswerBack(L, [9]))
    ensures Alone(Do(s, AnswerBack(L, [9])), Some(Transfer(PAUSED, 0, 1, false, 0)),
                  Some(Transfer(RUNNING, 1, 1, false, 1)),
                  [], [Data(0, [9]), Ack(0)])
  {
    assert SendReceive(256) && OldFileNumber(256) == 0;
  }

  lemma {:induction false} OwnData(s: Net)
    requires Alone(s, Some(Transfer(PAUSED, 0, 1, false, 0)), Some(Transfer(RUNNING, 1, 1, false, 1)),
                  [], [Data(0, [9]), Ack(0)])
    ensures Can(s, Deliver(1, 0)) && Do(s, Deliver(1, 0)).aborted
  {
  }

  /** A file of one byte is sent, and its sender sends RESUME. The receiver's client is
      asked for the byte, and what it answers fails the sender's assertion. */
  lemma {:induction false} OwnResumeAborts() returns (s: Net, actions: seq<Action>, s': Net)
    ensures Run(Start(1), [Send(L, FILE)], s) && !ClientsBehave(s, ResumeOwn(L))
    ensures actions == [Deliver(0, 1), Deliver(0, 1)] + [Request(1, (0, 256)), AnswerBack(L, [9])] + [Deliver(1, 0)]
    ensures Run(Do(s, ResumeOwn(L)), actions, s') && s'.aborted
  {
    OwnSending();
    s := Do(Start(1), Send(L, FILE));
    RunNext(Start(1), Send(L, FILE), [], s);
    assert [Send(L, FILE)] + [] == [Send(L, FILE)];
    OwnAccepting(s);
    var s1 := Do(s, ResumeOwn(L));
    var s3 := OwnDelivered(s1);
    var s5 := OwnAsked(s3);
    OwnData(s5);
    s' := Do(s5, Deliver(1, 0));
    RunNext(s5, Deliver(1, 0), [], s');
    LeadsOn(s1, [Deliver(0, 1), Deliver(0, 1)], s3, [Request(1, (0, 256)), AnswerBack(L, [9])], s5);
    actions := [Deliver(0, 1), Deliver(0, 1)] + [Request(1, (0, 256)), AnswerBack(L, [9])] + [Deliver(1, 0)];
    LeadsTo(s1, [Deliver(0, 1), Deliver(0, 1)] + [Request(1, (0, 256)), AnswerBack(L, [9])], s5, [Deliver(1, 0)], s');
  }

  lemma {:induction false} OwnDelivered(s1: Net) returns (s3: Net)
    requires Alone(s1, Some(Transfer(PAUSED, 0, 1, false, 0)), None,
                  [SendRequest(0, 1), Go(0)], [])
    ensures Alone(s3, Some(Transfer(PAUSED, 0, 1, false, 0)), Some(Transfer(RUNNING, 0, 1, false, 0)),
                  [], [])
    ensures Leads(s1, [Deliver(0, 1), Deliver(0, 1)], s3)
  {
    OwnAnnouncing(s1);
    var s2 := Do(s1, Deliver(0, 1));
    OwnStarting(s2);
    s3 := Do(s2, Deliver(0, 1));
    forall more, s' | Run(s3, more, s')
      ensures Run(s1, [Deliver(0, 1), Deliver(0, 1)] + more, s')
    {
      RunNext(s2, Deliver(0, 1), more, s');
      RunNext(s1, Deliver(0, 1), [Deliver(0, 1)] + more, s');
      assert [Deliver(0, 1)] + ([Deliver(0, 1)] + more) == [Deliver(0, 1), Deliver(0, 1)] + more;
    }
  }

  lemma {:induction false} OwnAsked(s3: Net) returns (s5: Net)
    requires Alone(s3, Some(Transfer(PAUSED, 0, 1, false, 0)), Some(Transfer(RUNNING, 0, 1, false, 0)),
                  [], [])
    ensures Alone(s5, Some(Transfer(PAUSED, 0, 1, false, 0)), Some(Transfer(RUNNING, 1, 1, false, 1)),
                  [], [Data(0, [9]), Ack(0)])
    ensures Leads(s3, [Request(1, (0, 256)), AnswerBack(L, [9])], s5)
  {
    OwnAsking(s3);
    var s4 := Do(s3, Request(1, (0, 256)));
    OwnAnswering(s4);
    s5 := Do(s4, AnswerBack(L, [9]));
    AskAndAnswer(s3, L, [9]);
  }
}
