/** The file transfers of one tox instance (`core_private.h`, `core.cpp`) as a value:
    what each API call and each callback of old toxcore does to the transfer map,
    which packets it hands to old toxcore and which event it raises.

    `cause` is never assigned in the source; it is a parameter here. */
module Transfers {
  import opened Wrappers

  type Num = n: nat | n < 256  // uint8_t, the file numbers of the old API

  datatype TransferState = PAUSED | RUNNING | FINISHED_STATE

  datatype Transfer = Transfer(
    state: TransferState, position: nat, fileSize: nat, eventPending: bool, sizeRequested: nat)

  /** The constructor of `file_transfer`. */
  function NewTransfer(fileSize: nat): Transfer {
    Transfer(PAUSED, 0, fileSize, false, 0)
  }

  type Key = (nat, nat)  // friend number, file number
  type Table = map<Key, Transfer>

  // ----- file numbers: per direction in the old API, not in the new one -----

  /** `(!receive_send << 8) | filenumber`. */
  function NewFileNumber(receiveSend: bool, filenumber: Num): nat {
    (if receiveSend then 0 else 256) + filenumber
  }

  /** `file_number & 0xff`. */
  function OldFileNumber(fileNumber: nat): Num {
    fileNumber % 256
  }

  /** `file_number & 0x100`. */
  predicate SendReceive(fileNumber: nat) {
    (fileNumber / 256) % 2 == 1
  }

  /** A control that one side sends about one of its transfers reaches, on the other
      side, the transfer of the same old number in the opposite direction. */
  lemma {:induction false} FileNumbersMirror(fileNumber: nat)
    requires fileNumber < 512
    ensures NewFileNumber(SendReceive(fileNumber), OldFileNumber(fileNumber)) ==
            if fileNumber < 256 then fileNumber + 256 else fileNumber - 256
  {
  }

  // ----- packets, events, outcomes -----

  datatype ControlType = ACCEPT | FILECONTROL_PAUSE | FINISHED

  datatype Packet =
    | SendRequest(filenumber: Num, fileSize: nat)
    | Data(filenumber: Num, bytes: Bytes)
    | Control(sendReceive: bool, filenumber: Num, control: ControlType)

  datatype Event =
    | FileReceive(friend: nat, fileNumber: nat, fileSize: nat)
    | FileResumed(friend: nat, fileNumber: nat)
    | RequestChunk(friend: nat, fileNumber: nat, position: nat, length: nat)
    | ReceiveChunk(friend: nat, fileNumber: nat, position: nat, bytes: Bytes)

  datatype ErrorCode =
    | FRIEND_NOT_FOUND | FRIEND_NOT_CONNECTED | NOT_FOUND
    | ALREADY_PAUSED | NOT_PAUSED | DENIED
    | NULL_DATA | TOO_LARGE

  /** What old toxcore says of a friend. */
  datatype FriendStatus = UNKNOWN | OFFLINE | ONLINE

  /** What a client can ask for, and why a transfer is paused. */
  datatype FileControlType = PAUSE | RESUME | CANCEL
  datatype PauseReason = INITIAL | SELF | FRIEND

  datatype Outcome =
    | AssertFails
    | Refused(error: ErrorCode)
    | Done(table: Table, packets: seq<Packet>, event: Option<Event>)

  // ----- API calls -----

  /** `new_tox_file_send`, once old toxcore has given out a file number. */
  function FileSend(t: Table, friend: nat, sender: Num, fileSize: nat): Outcome {
    if (friend, sender) in t then AssertFails
    else Done(t[(friend, sender as nat) := NewTransfer(fileSize)], [SendRequest(sender, fileSize)], None)
  }

  /** `new_tox_file_control`. The packet reaches an old toxcore that is connected. */
  function FileControl(t: Table, status: FriendStatus, friend: nat, fileNumber: nat, control: FileControlType,
                       cause: PauseReason): (r: Outcome)
    ensures r == Refused(FRIEND_NOT_FOUND) <==> status == UNKNOWN
    ensures r == Refused(FRIEND_NOT_CONNECTED) <==> status == OFFLINE
    ensures var key: Key := (friend, fileNumber);
            var known := status == ONLINE && key in t;
            var paused := known && t[key].state == PAUSED;
            && (r == Refused(NOT_FOUND) <==> status == ONLINE && !known)
            && (r == Refused(ALREADY_PAUSED) <==> paused && control == PAUSE)
            && (r == Refused(NOT_PAUSED) <==> known && !paused && control == RESUME)
            && (r == Refused(DENIED) <==> paused && control == RESUME && cause == FRIEND)
            && (r.Done? <==> known && (control == PAUSE ==> !paused)
                                   && (control == RESUME ==> paused && cause != FRIEND))
  {
    if status == UNKNOWN then Refused(FRIEND_NOT_FOUND)
    else if status == OFFLINE then Refused(FRIEND_NOT_CONNECTED)
    else if (friend, fileNumber) !in t then Refused(NOT_FOUND)
    else match control
      case PAUSE =>
        if t[(friend, fileNumber)].state == PAUSED then Refused(ALREADY_PAUSED)
        else Done(t, [Control(SendReceive(fileNumber), OldFileNumber(fileNumber), FILECONTROL_PAUSE)], None)
      case RESUME =>
        if t[(friend, fileNumber)].state != PAUSED then Refused(NOT_PAUSED)
        else if cause == FRIEND then Refused(DENIED)
        else Done(t, [Control(SendReceive(fileNumber), OldFileNumber(fileNumber), ACCEPT)], None)
      case CANCEL => Done(t, [], None)
  }

  /** RESUME to a connected friend; the own state stays PAUSED. */
  function FileResume(t: Table, friend: nat, fileNumber: nat): Outcome {
    FileControl(t, ONLINE, friend, fileNumber, RESUME, INITIAL)
  }

  function Min(a: nat, b: nat): nat {
    if a < b then a else b
  }

  /** The transfers for which `new_tox_iteration` raises a request. */
  predicate Due(t: Transfer) {
    t.position != t.fileSize && t.state == RUNNING && !t.eventPending
  }

  function Requested(t: Transfer, dataSize: nat): Transfer
    requires t.position <= t.fileSize
  {
    if Due(t) then t.(sizeRequested := Min(dataSize, t.fileSize - t.position), eventPending := true) else t
  }

  /** One round of the loop of `new_tox_iteration`. */
  function RequestOne(t: Table, key: Key, dataSize: nat): Outcome
    requires key in t && t[key].position <= t[key].fileSize
  {
    var r := Requested(t[key], dataSize);
    Done(t[key := r], [],
         if Due(t[key]) then Some(RequestChunk(key.0, key.1, r.position, r.sizeRequested)) else None)
  }

  /** `new_tox_file_send_chunk` to a connected friend. */
  function FileSendChunk(t: Table, friend: nat, fileNumber: nat, bytes: Bytes, dataSize: nat): Outcome {
    if bytes == [] then AssertFails
    else if |bytes| > dataSize then Refused(TOO_LARGE)
    else if (friend, fileNumber) !in t then Refused(NOT_FOUND)
    else
      var tr := t[(friend, fileNumber)];
      var tr' := tr.(position := tr.position + |bytes|, eventPending := false);
      Done(t[(friend, fileNumber) := tr'],
           [Data(OldFileNumber(fileNumber), bytes)] +
           if tr'.position == tr'.fileSize
             then [Control(SendReceive(fileNumber), OldFileNumber(fileNumber), FINISHED)] else [],
           None)
  }

  /** `new_tox_file_send_chunk` with all its checks; no data is a null pointer. */
  function SendChunk(t: Table, status: FriendStatus, friend: nat, fileNumber: nat, data: Option<Bytes>, length: nat,
                     dataSize: nat): (r: Outcome)
    requires data.Some? ==> |data.value| == length
    ensures r == AssertFails <==> length == 0
    ensures r == Refused(TOO_LARGE) <==> length > dataSize && length > 0
    ensures var fits := 0 < length <= dataSize;
            && (r == Refused(NULL_DATA) <==> fits && data == None)
            && (r == Refused(FRIEND_NOT_FOUND) <==> fits && data.Some? && status == UNKNOWN)
            && (r == Refused(FRIEND_NOT_CONNECTED) <==> fits && data.Some? && status == OFFLINE)
            && (r == Refused(NOT_FOUND) <==> fits && data.Some? && status == ONLINE && (friend, fileNumber) !in t)
            && (r.Done? <==> fits && data.Some? && status == ONLINE && (friend, fileNumber) in t)
  {
    if length == 0 then AssertFails
    else if length > dataSize then Refused(TOO_LARGE)
    else if data == None then Refused(NULL_DATA)
    else if status == UNKNOWN then Refused(FRIEND_NOT_FOUND)
    else if status == OFFLINE then Refused(FRIEND_NOT_CONNECTED)
    else FileSendChunk(t, friend, fileNumber, data.value, dataSize)
  }

  // ----- callbacks -----

  /** `CB::file_send_request`. */
  function OnSendRequest(t: Table, friend: nat, filenumber: Num, fileSize: nat): Outcome {
    var key := (friend, filenumber + 256);
    if key in t then AssertFails
    else Done(t[key := NewTransfer(fileSize)], [], Some(FileReceive(friend, key.1, fileSize)))
  }

  /** `CB::file_control`. */
  function OnControl(t: Table, friend: nat, receiveSend: bool, filenumber: Num, control: ControlType): Outcome {
    var key := (friend, NewFileNumber(receiveSend, filenumber));
    if key !in t then AssertFails
    else match control
      case ACCEPT =>
        Done(t[key := t[key].(state := RUNNING)], [], Some(FileResumed(friend, key.1)))
      case FILECONTROL_PAUSE => AssertFails
      case FINISHED =>
        Done(t - {key}, [], Some(RequestChunk(friend, key.1, t[key].position, 0)))
  }

  /** `CB::file_data`. */
  function OnData(t: Table, friend: nat, filenumber: Num, bytes: Bytes): Outcome {
    var key := (friend, filenumber + 256);
    if key !in t then AssertFails
    else
      var tr' := t[key].(position := t[key].position + |bytes|);
      Done(t[key := tr'],
           if tr'.position == tr'.fileSize then [Control(true, filenumber, FINISHED)] else [],
           Some(ReceiveChunk(friend, key.1, t[key].position, bytes)))
  }

  // ----- what a call comes to on the other side -----

  /** The control that RESUME or PAUSE sends about a file is about the entry of the other
      side for the same file, in the opposite direction: after RESUME that entry runs and
      its client is told so, and nothing else changes there; PAUSE fails an assertion. */
  lemma {:induction false} ControlReaches(t: Table, friend: nat, fileNumber: nat, control: FileControlType,
                                          cause: PauseReason, u: Table, me: nat)
    requires fileNumber < 512 && control != CANCEL
    requires FileControl(t, ONLINE, friend, fileNumber, control, cause).Done?
    ensures var r := FileControl(t, ONLINE, friend, fileNumber, control, cause);
            && r.table == t && r.event == None && |r.packets| == 1 && r.packets[0].Control?
            && var (p, key) := (r.packets[0], (me, if fileNumber < 256 then fileNumber + 256 else fileNumber - 256));
               OnControl(u, me, p.sendReceive, p.filenumber, p.control) ==
               if control == RESUME && key in u
               then Done(u[key := u[key].(state := RUNNING)], [], Some(FileResumed(me, key.1)))
               else AssertFails
  {
    FileNumbersMirror(fileNumber);
  }
}
