/** The file events of one tox instance over whole runs: what its callbacks and calls
    record, and that the client hears of a file before it gets any part of it, and of its
    acceptance before it is asked for any. */
module FileEvents {
  import opened Wrappers
  import opened Events
  import opened EventOrder
  import T = Transfers

  /** What can happen to the transfers of an instance, or to its other events. RESUME
      changes neither. */
  datatype Input =
    | Announced(friend: nat, n: T.Num, fileSize: nat)
    | DataCame(friend: nat, n: T.Num, bytes: Bytes)
    | ControlCame(friend: nat, receiveSend: bool, n: T.Num, control: T.ControlType)
    | FileSent(friend: nat, sender: T.Num, fileSize: nat)
    | ChunkSent(friend: nat, fileNumber: nat, bytes: Bytes)
    | Visited(key: T.Key)     // by the loop of an iteration
    | Noted(event: Event)     // any event that is not about a file

  datatype State = State(table: T.Table, log: seq<Event>)

  /** The loop visits existing entries; none is past its end. */
  predicate Allowed(s: State, i: Input) {
    match i
    case Visited(key) => key in s.table && s.table[key].position <= s.table[key].fileSize
    case Noted(e) => e.Other?
    case _ => true
  }

  function Outcome(t: T.Table, i: Input, dataSize: nat): T.Outcome
    requires !i.Noted? && Allowed(State(t, []), i)
  {
    match i
    case Announced(friend, n, size) => T.OnSendRequest(t, friend, n, size)
    case DataCame(friend, n, bytes) => T.OnData(t, friend, n, bytes)
    case ControlCame(friend, rs, n, control) => T.OnControl(t, friend, rs, n, control)
    case FileSent(friend, sender, size) => T.FileSend(t, friend, sender, size)
    case ChunkSent(friend, number, bytes) => T.FileSendChunk(t, friend, number, bytes, dataSize)
    case Visited(key) => T.RequestOne(t, key, dataSize)
  }

  /** None when an assertion fails. */
  function Step(s: State, i: Input, dataSize: nat): Option<State>
    requires Allowed(s, i)
  {
    if i.Noted? then Some(s.(log := s.log + [i.event]))
    else match Outcome(s.table, i, dataSize)
      case AssertFails => None
      case Refused(_) => Some(s)
      case Done(table, _, event) => Some(State(table, if event == None then s.log else s.log + [OfFile(event.value)]))
  }

  ghost predicate Run(s: State, inputs: seq<Input>, dataSize: nat, s': State)
    decreases |inputs|
  {
    if inputs == [] then s == s'
    else && Allowed(s, inputs[0]) && Step(s, inputs[0], dataSize).Some?
         && Run(Step(s, inputs[0], dataSize).value, inputs[1..], dataSize, s')
  }

  // ----- a chunk belongs to an announced file, a request to an accepted one -----

  predicate Announces(e: Event, friend: nat, number: nat) {
    e.OfFile? && e.file.FileReceive? && e.file.friend == friend && e.file.fileNumber == number
  }

  predicate Accepts(e: Event, friend: nat, number: nat) {
    e.OfFile? && e.file.FileResumed? && e.file.friend == friend && e.file.fileNumber == number
  }

  predicate Carries(e: Event, friend: nat, number: nat) {
    e.OfFile? && e.file.ReceiveChunk? && e.file.friend == friend && e.file.fileNumber == number
  }

  predicate Asks(e: Event, friend: nat, number: nat) {
    e.OfFile? && e.file.RequestChunk? && e.file.friend == friend && e.file.fileNumber == number && e.file.length > 0
  }

  /** A request for no bytes: the file under this number is finished. */
  predicate Ends(e: Event, friend: nat, number: nat) {
    e.OfFile? && e.file.RequestChunk? && e.file.friend == friend && e.file.fileNumber == number && e.file.length == 0
  }

  /** What opens the file for chunks, or for requests. */
  predicate Opens(e: Event, friend: nat, number: nat, asks: bool) {
    if asks then Accepts(e, friend, number) else Announces(e, friend, number)
  }

  /** The i-th event opens a file that has not ended before the j-th. */
  ghost predicate OpenFrom(log: seq<Event>, i: nat, j: nat, friend: nat, number: nat, asks: bool) {
    && i < j <= |log| && Opens(log[i], friend, number, asks)
    && forall x :: i < x < j ==> !Ends(log[x], friend, number)
  }

  ghost predicate OpenAt(log: seq<Event>, j: nat, friend: nat, number: nat, asks: bool) {
    exists i :: OpenFrom(log, i, j, friend, number, asks)
  }

  /** An entry that can get chunks, or for which the client can be asked. */
  predicate Ready(t: T.Table, key: T.Key, asks: bool) {
    key in t && if asks then t[key].state == T.RUNNING else key.1 >= 256
  }

  predicate Needs(e: Event, friend: nat, number: nat, asks: bool) {
    if asks then Asks(e, friend, number) else Carries(e, friend, number)
  }

  /** Each entry that is ready, and each chunk or request recorded, has what opened it. */
  ghost predicate Inv(s: State, asks: bool) {
    && (forall key :: Ready(s.table, key, asks) ==> OpenAt(s.log, |s.log|, key.0, key.1, asks))
    && (forall j: nat, friend: nat, number: nat :: 0 <= j < |s.log| && Needs(s.log[j], friend, number, asks) ==>
          OpenAt(s.log, j, friend, number, asks))
  }

  lemma {:induction false} OpenStays(log: seq<Event>, e: Event, j: nat, friend: nat, number: nat, asks: bool)
    requires j <= |log| && OpenAt(log, j, friend, number, asks)
    ensures OpenAt(log + [e], j, friend, number, asks)
    ensures j == |log| && !Ends(e, friend, number) ==> OpenAt(log + [e], j + 1, friend, number, asks)
  {
    var i :| OpenFrom(log, i, j, friend, number, asks);
    assert OpenFrom(log + [e], i, j, friend, number, asks);
    if j == |log| && !Ends(e, friend, number) { assert OpenFrom(log + [e], i, j + 1, friend, number, asks); }
  }

  /** What an event has to do with the table for the invariant to stay. */
  ghost predicate Fits(t: T.Table, e: Event, t': T.Table, asks: bool) {
    && (forall friend: nat, number: nat :: Needs(e, friend, number, asks) ==> Ready(t, (friend, number), asks))
    && (forall key :: Ready(t', key, asks) ==>
          Opens(e, key.0, key.1, asks) || (Ready(t, key, asks) && !Ends(e, key.0, key.1)))
  }

  lemma {:induction false} RecordKeeps(s: State, e: Event, t': T.Table, asks: bool)
    requires Inv(s, asks) && Fits(s.table, e, t', asks)
    ensures Inv(State(t', s.log + [e]), asks)
  {
    var log := s.log + [e];
    forall key | Ready(t', key, asks)
      ensures OpenAt(log, |log|, key.0, key.1, asks)
    {
      if Opens(e, key.0, key.1, asks) {
        assert OpenFrom(log, |s.log|, |log|, key.0, key.1, asks);
      } else {
        OpenStays(s.log, e, |s.log|, key.0, key.1, asks);
      }
    }
    forall j: nat, friend: nat, number: nat | 0 <= j < |log| && Needs(log[j], friend, number, asks)
      ensures OpenAt(log, j, friend, number, asks)
    {
      if j == |s.log| { assert Ready(s.table, (friend, number), asks); }
      assert OpenAt(s.log, j, friend, number, asks);
      OpenStays(s.log, e, j, friend, number, asks);
    }
  }

  lemma {:induction false} EventFits(t: T.Table, i: Input, dataSize: nat, asks: bool)
    requires dataSize > 0 && !i.Noted? && Allowed(State(t, []), i)
    ensures var r := Outcome(t, i, dataSize);
            r.Done? ==>
              if r.event.Some? then Fits(t, OfFile(r.event.value), r.table, asks)
              else forall key :: Ready(r.table, key, asks) ==> Ready(t, key, asks)
  {
  }

  lemma {:induction false} StepKeeps(s: State, i: Input, dataSize: nat, asks: bool)
    requires dataSize > 0 && Inv(s, asks) && Allowed(s, i) && Step(s, i, dataSize).Some?
    ensures Inv(Step(s, i, dataSize).value, asks)
  {
    if i.Noted? {
      RecordKeeps(s, i.event, s.table, asks);
    } else {
      EventFits(s.table, i, dataSize, asks);
      var r := Outcome(s.table, i, dataSize);
      if r.Done? && r.event.Some? { RecordKeeps(s, OfFile(r.event.value), r.table, asks); }
    }
  }

  lemma {:induction false} RunKeeps(s: State, inputs: seq<Input>, dataSize: nat, s': State, asks: bool)
    requires dataSize > 0 && Inv(s, asks) && Run(s, inputs, dataSize, s')
    ensures Inv(s', asks)
    decreases |inputs|
  {
    if inputs != [] {
      StepKeeps(s, inputs[0], dataSize, asks);
      RunKeeps(Step(s, inputs[0], dataSize).value, inputs[1..], dataSize, s', asks);
    }
  }

  const START := State(map[], [])

  // ----- what the client hears -----

  /** The place of an event in the whole recording. */
  ghost function Index(run: seq<Round>, r: nat, i: nat): nat
    requires r < |run| && i < |run[r].log|
  {
    |Recorded(run[..r])| + i
  }

  lemma {:induction false} RecordedGrows(run: seq<Round>, r: nat)
    requires r <= |run|
    ensures Recorded(run[..r]) <= Recorded(run)
    decreases |run| - r
  {
    if r < |run| {
      RecordedGrows(run, r + 1);
      assert run[..r + 1][..r] == run[..r];
    } else {
      assert run[..r] == run;
    }
  }

  lemma {:induction false} RecordedAt(run: seq<Round>, r: nat, i: nat)
    requires r < |run| && i < |run[r].log|
    ensures Index(run, r, i) < |Recorded(run[..r + 1])| <= |Recorded(run)|
    ensures Recorded(run)[Index(run, r, i)] == run[r].log[i]
  {
    assert run[..r + 1][..r] == run[..r];
    RecordedGrows(run, r + 1);
  }

  /** Which event of which round an event of the recording is. */
  lemma {:induction false} RoundOf(run: seq<Round>, g: nat) returns (r: nat, i: nat)
    requires g < |Recorded(run)|
    ensures r < |run| && i < |run[r].log| && Index(run, r, i) == g
  {
    var n := |run| - 1;
    if g < |Recorded(run[..n])| {
      r, i := RoundOf(run[..n], g);
      assert run[..n][..r] == run[..r];
    } else {
      r, i := n, g - |Recorded(run[..n])|;
    }
  }

  lemma {:induction false} LaterRound(run: seq<Round>, r: nat, i: nat, s: nat, j: nat)
    requires r < s < |run| && i < |run[r].log| && j < |run[s].log|
    ensures Index(run, r, i) < Index(run, s, j)
  {
    RecordedAt(run[..s], r, i);
    assert run[..s][..r] == run[..r];
  }

  lemma {:induction false} EarlierRound(run: seq<Round>, r: nat, i: nat, s: nat, j: nat)
    requires r < |run| && i < |run[r].log| && s < |run| && j < |run[s].log|
    requires Index(run, r, i) < Index(run, s, j)
    ensures r < s || (r == s && i < j)
  {
    if s < r {
      LaterRound(run, s, j, r, i);
      assert false;
    }
  }

  /** A chunk, or a request, and what opened its file. */
  lemma {:induction false} OpenedBefore(inputs: seq<Input>, dataSize: nat, end: State, run: seq<Round>,
                                        s: nat, j: nat, friend: nat, number: nat, asks: bool) returns (r: nat, i: nat)
    requires dataSize > 0 && Run(START, inputs, dataSize, end) && Recorded(run) == end.log
    requires s < |run| && j < |run[s].log| && Needs(run[s].log[j], friend, number, asks)
    ensures r < |run| && i < |run[r].log| && Index(run, r, i) < Index(run, s, j)
    ensures Opens(run[r].log[i], friend, number, asks) && (r < s || (r == s && i < j))
    ensures forall x :: Index(run, r, i) < x < Index(run, s, j) && x < |end.log| ==> !Ends(end.log[x], friend, number)
  {
    RunKeeps(START, inputs, dataSize, end, asks);
    RecordedAt(run, s, j);
    var g := Index(run, s, j);
    assert Needs(end.log[g], friend, number, asks);
    var a :| OpenFrom(end.log, a, g, friend, number, asks);
    r, i := RoundOf(run, a);
    RecordedAt(run, r, i);
    EarlierRound(run, r, i, s, j);
  }

  /** A file's announcement always precedes its chunks. For each chunk recorded in a run
      there is an announcement of a file from the same friend under the same number,
      recorded before, with no end of that file in between; and the client hears of the
      file before it hears the chunk, if it listens to both when they are delivered. */
  lemma {:induction false} AnnouncementComesFirst(inputs: seq<Input>, dataSize: nat, end: State, run: seq<Round>,
                                                  s: nat, j: nat) returns (r: nat, i: nat)
    requires dataSize > 0 && Run(START, inputs, dataSize, end) && Recorded(run) == end.log
    requires s < |run| && j < |run[s].log| && run[s].log[j].OfFile? && run[s].log[j].file.ReceiveChunk?
    ensures r < |run| && i < |run[r].log| && Index(run, r, i) < Index(run, s, j)
    ensures var chunk := run[s].log[j].file;
            && Announces(run[r].log[i], chunk.friend, chunk.fileNumber)
            && forall x :: Index(run, r, i) < x < Index(run, s, j) && x < |end.log| ==>
                 !Ends(end.log[x], chunk.friend, chunk.fileNumber)
    ensures Audible(run, r, i) && Audible(run, s, j) ==> Place(run, r, i) < Place(run, s, j)
  {
    var chunk := run[s].log[j].file;
    r, i := OpenedBefore(inputs, dataSize, end, run, s, j, chunk.friend, chunk.fileNumber, false);
    if Audible(run, r, i) && Audible(run, s, j) { HeardBefore(run, r, i, s, j); }
  }

  /** The same for a file that is sent: the client hears that the friend has accepted it
      before it is asked for any of it. */
  lemma {:induction false} AcceptanceComesFirst(inputs: seq<Input>, dataSize: nat, end: State, run: seq<Round>,
                                                s: nat, j: nat) returns (r: nat, i: nat)
    requires dataSize > 0 && Run(START, inputs, dataSize, end) && Recorded(run) == end.log
    requires s < |run| && j < |run[s].log| && run[s].log[j].OfFile? && run[s].log[j].file.RequestChunk?
    requires run[s].log[j].file.length > 0
    ensures r < |run| && i < |run[r].log| && Index(run, r, i) < Index(run, s, j)
    ensures var request := run[s].log[j].file;
            && Accepts(run[r].log[i], request.friend, request.fileNumber)
            && forall x :: Index(run, r, i) < x < Index(run, s, j) && x < |end.log| ==>
                 !Ends(end.log[x], request.friend, request.fileNumber)
    ensures Audible(run, r, i) && Audible(run, s, j) ==> Place(run, r, i) < Place(run, s, j)
  {
    var request := run[s].log[j].file;
    r, i := OpenedBefore(inputs, dataSize, end, run, s, j, request.friend, request.fileNumber, true);
    if Audible(run, r, i) && Audible(run, s, j) { HeardBefore(run, r, i, s, j); }
  }

  /** An announcement ranks before a chunk, and an acceptance before a request. */
  lemma {:induction false} HeardBefore(run: seq<Round>, r: nat, i: nat, s: nat, j: nat)
    requires Audible(run, r, i) && Audible(run, s, j) && (r < s || (r == s && i < j))
    requires run[r].log[i].OfFile? && run[s].log[j].OfFile?
    requires var (e, f) := (run[r].log[i].file, run[s].log[j].file);
             (e.FileReceive? && f.ReceiveChunk?) || (e.FileResumed? && f.RequestChunk?)
    ensures Place(run, r, i) < Place(run, s, j)
  {
    OrderOfEvents(run, r, i, s, j);
  }
}
