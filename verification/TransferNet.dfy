/** Any number of peers that send files to each other: the transfer maps of all of
    them, old toxcore as a FIFO lossless channel per ordered pair, and clients that
    answer every request once. File numbers are reused when old toxcore frees them. */
module TransferNet {
  import opened Wrappers
  import opened Transfers

  type Peer = nat

  /** The transfers from p to q under one old file number, one after the other. */
  datatype Link = Link(p: Peer, q: Peer, n: Num)

  datatype Ask = Ask(position: nat, length: nat)

  /** What the two clients of a link have seen, as a record of their callbacks.
      - sent: the contents p's client gave out, one file after the other
      - bytes: what q's client has written of the file it currently receives
      - got: the files q's client was told are finished
      - acks: how many files p's client was told are finished
      - asked, chunks: the requests for the latest file and the sizes of the answers
      - resumed: the files, by their places in sent, that q's client has accepted
      - started: those that p's client was told are resumed */
  datatype History = History(
    sent: seq<Bytes>, bytes: Bytes, got: seq<Bytes>, acks: nat, asked: seq<Ask>, chunks: seq<nat>,
    resumed: set<nat>, started: set<nat>)

  const NO_HISTORY := History([], [], [], 0, [], [], {}, {})

  datatype Net = Net(
    dataSize: nat,                           // tox_file_data_size
    tables: map<Peer, Table>,
    channels: map<(Peer, Peer), seq<Packet>>,
    busy: set<Link>,                         // the sender numbers old toxcore has given out
    histories: map<Link, History>,
    aborted: bool)                           // an assertion of the source has failed
  {
    function TableOf(p: Peer): Table {
      if p in tables then tables[p] else map[]
    }

    function Channel(p: Peer, q: Peer): seq<Packet> {
      if (p, q) in channels then channels[(p, q)] else []
    }

    function HistoryOf(l: Link): History {
      if l in histories then histories[l] else NO_HISTORY
    }

    function Push(p: Peer, q: Peer, packets: seq<Packet>): Net {
      this.(channels := channels[(p, q) := Channel(p, q) + packets])
    }

    function Pop(p: Peer, q: Peer): Net
      requires Channel(p, q) != []
    {
      this.(channels := channels[(p, q) := Channel(p, q)[1..]])
    }

    function Record(l: Link, h: History): Net {
      this.(histories := histories[l := h])
    }
  }

  function Start(dataSize: nat): Net {
    Net(dataSize, map[], map[], {}, map[], false)
  }

  // ----- the clients -----

  function LinkOf(p: Peer, friend: Peer, fileNumber: nat): Link {
    if fileNumber < 256 then Link(p, friend, fileNumber) else Link(friend, p, fileNumber % 256)
  }

  /** Writing a chunk where the callback says it belongs. */
  function WriteAt(file: Bytes, position: nat, chunk: Bytes): Bytes {
    if position <= |file| then file[..position] + chunk else file
  }

  /** How the clients take note of an event at peer p. The file that p's client sends
      comes after those it was told are finished. */
  function React(h: History, sending: bool, e: Event): History {
    match e
    case FileReceive(_, _, _) => h.(bytes := [])
    case FileResumed(_, _) => if sending then h.(started := h.started + {h.acks}) else h
    case ReceiveChunk(_, _, position, chunk) => h.(bytes := WriteAt(h.bytes, position, chunk))
    case RequestChunk(_, _, position, length) =>
      if length > 0 then (if sending then h.(asked := h.asked + [Ask(position, length)]) else h)
      else if sending then h.(acks := h.acks + 1)
      else h.(got := h.got + [h.bytes])
  }

  // ----- steps -----

  /** A client knows what an event is about from the numbers in it alone. */
  function Notice(s: Net, p: Peer, e: Event): Net {
    var l := LinkOf(p, e.friend, e.fileNumber);
    s.Record(l, React(s.HistoryOf(l), e.fileNumber < 256, e))
  }

  /** The effects of a call or callback at p about one transfer with a friend. */
  function Apply(s: Net, p: Peer, friend: Peer, r: Outcome): Net {
    match r
    case AssertFails => s.(aborted := true)
    case Refused(_) => s
    case Done(table, packets, event) =>
      var s1 := s.(tables := s.tables[p := table]).Push(p, friend, packets);
      if event == None then s1 else Notice(s1, p, event.value)
  }

  datatype Action =
    | Send(l: Link, content: Bytes)        // p's client sends a file
    | Resume(l: Link)                      // q's client accepts it
    | ResumeOwn(l: Link)                   // p's client sends RESUME for its own file
    | Request(p: Peer, key: Key)           // p's iteration comes to this transfer
    | Answer(l: Link, k: nat)              // p's client answers the request with k bytes
    | AnswerBack(l: Link, bytes: Bytes)    // q's client answers a request for what it receives
    | Deliver(p: Peer, q: Peer)            // old toxcore hands q the next packet from p

  function Receive(s: Net, q: Peer, p: Peer, packet: Packet): Net {
    var t := s.TableOf(q);
    match packet
    case SendRequest(n, size) => Apply(s, q, p, OnSendRequest(t, p, n, size))
    case Data(n, bytes) => Apply(s, q, p, OnData(t, p, n, bytes))
    case Control(receiveSend, n, control) => ReceiveControl(s, q, p, receiveSend, n, control)
  }

  /** Old toxcore frees the number of a sender that is told FINISHED. */
  function ReceiveControl(s: Net, q: Peer, p: Peer, receiveSend: bool, n: Num, control: ControlType): Net {
    var s1 := Apply(s, q, p, OnControl(s.TableOf(q), p, receiveSend, n, control));
    if receiveSend && control == FINISHED then s1.(busy := s1.busy - {Link(q, p, n)}) else s1
  }

  /** What can happen, whether or not a client should do it. Of a client's calls PAUSE and
      CANCEL are left out, and chunks of a file of which none was ever asked for. */
  predicate Possible(s: Net, a: Action) {
    match a
    case Send(l, _) => l !in s.busy
    case Resume(_) => true
    case ResumeOwn(_) => true
    case AnswerBack(_, _) => true
    case Request(p, key) => key in s.TableOf(p) && Due(s.TableOf(p)[key])
    case Answer(l, k) =>
      s.HistoryOf(l).asked != [] && s.HistoryOf(l).sent != []
    case Deliver(p, q) => s.Channel(p, q) != []
  }

  function Do(s: Net, a: Action): Net
    requires Possible(s, a)
  {
    match a
    case Send(l, content) => DoSend(s, l, content)
    case Resume(l) => DoResume(s, l)
    case ResumeOwn(l) => DoResumeOwn(s, l)
    case AnswerBack(l, bytes) => DoAnswerBack(s, l, bytes)
    case Request(p, key) => DoRequest(s, p, key)
    case Answer(l, k) => DoAnswer(s, l, k)
    case Deliver(p, q) => Receive(s.Pop(p, q), q, p, s.Channel(p, q)[0])
  }

  function DoSend(s: Net, l: Link, content: Bytes): Net {
    var h := s.HistoryOf(l);
    Apply(s.(busy := s.busy + {l}).Record(l, h.(sent := h.sent + [content], asked := [], chunks := [])),
          l.p, l.q, FileSend(s.TableOf(l.p), l.q, l.n, |content|))
  }

  /** The file that q currently receives comes after those it has got. */
  function DoResume(s: Net, l: Link): Net {
    var r := FileResume(s.TableOf(l.q), l.p, l.n + 256);
    if r.Done? then Apply(ResumeNoted(s, l), l.q, l.p, r) else s
  }

  function ResumeNoted(s: Net, l: Link): Net {
    var h := s.HistoryOf(l);
    s.Record(l, h.(resumed := h.resumed + {|h.got|}))
  }

  function DoResumeOwn(s: Net, l: Link): Net {
    Apply(s, l.p, l.q, FileResume(s.TableOf(l.p), l.q, l.n))
  }

  function DoAnswerBack(s: Net, l: Link, bytes: Bytes): Net {
    Apply(s, l.q, l.p, FileSendChunk(s.TableOf(l.q), l.p, l.n + 256, bytes, s.dataSize))
  }

  function DoRequest(s: Net, p: Peer, key: Key): Net
    requires key in s.TableOf(p)
  {
    if s.TableOf(p)[key].position > s.TableOf(p)[key].fileSize then s.(aborted := true)
    else Apply(s, p, key.0, RequestOne(s.TableOf(p), key, s.dataSize))
  }

  function DoAnswer(s: Net, l: Link, k: nat): Net
    requires s.HistoryOf(l).asked != [] && s.HistoryOf(l).sent != []
  {
    var h := s.HistoryOf(l);
    Apply(s.Record(l, h.(chunks := h.chunks + [k])), l.p, l.q,
          FileSendChunk(s.TableOf(l.p), l.q, l.n,
                        Chunk(h.sent[|h.sent| - 1], h.asked[|h.asked| - 1].position, k), s.dataSize))
  }

  /** The k bytes of a file from a position on, or what there is of them. */
  function Chunk(file: Bytes, position: nat, k: nat): Bytes {
    if position + k <= |file| then file[position..position + k] else if position <= |file| then file[position..] else []
  }

  /** The clients' side of the bargain: each request is answered once, with at least
      one byte and at most as many as asked. RESUME is not sent for a file that has
      already arrived completely, and not by the sender for a file that is not empty
      and has yet to be started. */
  predicate ClientsBehave(s: Net, a: Action) {
    match a
    case Answer(l, k) =>
      && (l.q, l.n as nat) in s.TableOf(l.p)
      && s.TableOf(l.p)[(l.q, l.n as nat)].eventPending
      && s.HistoryOf(l).asked != [] && 1 <= k <= s.HistoryOf(l).asked[|s.HistoryOf(l).asked| - 1].length
    case Resume(l) =>
      (l.p, l.n + 256) in s.TableOf(l.q) ==>
        var t := s.TableOf(l.q)[(l.p, l.n + 256)];
        t.position < t.fileSize || t.fileSize == 0
    case ResumeOwn(l) =>
      (l.q, l.n as nat) in s.TableOf(l.p) && s.TableOf(l.p)[(l.q, l.n as nat)].state == PAUSED ==>
        s.TableOf(l.p)[(l.q, l.n as nat)].fileSize == 0
    case AnswerBack(l, bytes) =>
      && (l.p, l.n + 256) in s.TableOf(l.q)
      && s.TableOf(l.q)[(l.p, l.n + 256)].eventPending
      && 1 <= |bytes| <= s.TableOf(l.q)[(l.p, l.n + 256)].sizeRequested
    case _ => true
  }

  predicate Can(s: Net, a: Action) {
    Possible(s, a) && ClientsBehave(s, a)
  }

  ghost predicate Run(s: Net, actions: seq<Action>, s': Net)
    decreases |actions|
  {
    if actions == [] then s == s'
    else Can(s, actions[0]) && Run(Do(s, actions[0]), actions[1..], s')
  }

  // ----- one link of the net -----

  /** The packets of a channel that carry transfer n forward, from its sender. */
  predicate Forward(n: Num, packet: Packet) {
    packet.filenumber == n && (packet.Control? ==> !packet.sendReceive)
  }

  /** The packets of a channel that go back to the sender of transfer n. */
  predicate Backward(n: Num, packet: Packet) {
    packet.filenumber == n && packet.Control? && packet.sendReceive
  }

  function Forwards(n: Num, packets: seq<Packet>): seq<Packet> {
    if packets == [] then []
    else Forwards(n, packets[..|packets| - 1]) +
         if Forward(n, packets[|packets| - 1]) then [packets[|packets| - 1]] else []
  }

  function Backwards(n: Num, packets: seq<Packet>): seq<Packet> {
    if packets == [] then []
    else Backwards(n, packets[..|packets| - 1]) +
         if Backward(n, packets[|packets| - 1]) then [packets[|packets| - 1]] else []
  }

  function Find(t: Table, key: Key): Option<Transfer> {
    if key in t then Some(t[key]) else None
  }

  /** Everything that belongs to one link: its two entries, its packets on the way,
      its number's state in old toxcore, its history. */
  datatype View = View(
    snd: Option<Transfer>, rcv: Option<Transfer>, fwd: seq<Packet>, bwd: seq<Packet>, busy: bool, h: History)

  function ViewOf(s: Net, l: Link): View {
    View(Find(s.TableOf(l.p), (l.q, l.n as nat)), Find(s.TableOf(l.q), (l.p, l.n + 256)),
         Forwards(l.n, s.Channel(l.p, l.q)), Backwards(l.n, s.Channel(l.q, l.p)),
         l in s.busy, s.HistoryOf(l))
  }

  /** The file contents among packets on the way. */
  function Payload(packets: seq<Packet>): Bytes {
    if packets == [] then []
    else Payload(packets[..|packets| - 1]) +
         if packets[|packets| - 1].Data? then packets[|packets| - 1].bytes else []
  }
}
