/** The packers and unpackers in their own form, over a mutable buffer with a cursor:
    `message.ml`, `packet.ml`, `node.ml`, `crypto.ml`, `dhtPacket.ml`,
    `networkPacket.ml` and the four packet modules. Each is proved to compute what the
    function of `PacketFormat` says about the bytes of the buffer. */
module PacketCodec {
  import opened Wrappers
  import opened Numbers
  import opened DhtTypes
  import opened PacketFormat

  function Value<T>(r: Result<Parsed<T>>): Result<T> {
    match r
    case Ok(p) => Ok(p.value)
    case Error(e) => Error(e)
    case Raised => Raised
  }

  /** r is what the parser found, and the window is what it left. */
  ghost predicate Took<T(!new)>(r: Result<T>, parsed: Result<Parsed<T>>, window: Bytes) {
    r == Value(parsed) && (parsed.Ok? ==> window == parsed.value.rest)
  }

  /** An `Iobuf`: the bytes, and the window that is still to be read or filled. */
  class Message {
    const data: array<Byte>
    var lo: nat
    var hi: nat

    ghost predicate Valid()
      reads this
    {
      lo <= hi <= data.Length
    }

    function Window(): Bytes
      requires lo <= hi <= data.Length
      reads this, data
    {
      data[lo..hi]
    }

    /** What has been filled in so far. */
    function Filled(): Bytes
      requires lo <= data.Length
      reads this, data
    {
      data[..lo]
    }

    constructor Create(capacity: nat)
      ensures Valid() && fresh(data) && lo == 0 && hi == data.Length == capacity
      ensures Filled() == []
    {
      data := new Byte[capacity];
      lo, hi := 0, capacity;
    }

    constructor OfString(s: Bytes)
      ensures Valid() && fresh(data) && Window() == s
    {
      data := new Byte[|s|](i requires 0 <= i < |s| => s[i]);
      lo, hi := 0, |s|;
    }

    /** `flip_lo`: the window becomes what was filled. */
    method FlipLo()
      requires Valid()
      modifies this
      ensures Valid() && Window() == old(Filled())
    {
      hi := lo;
      lo := 0;
    }

    // ----- Consume -----

    method ConsumeUint8() returns (r: Result<Byte>)
      requires Valid()
      modifies this`lo
      ensures Valid() && Took(r, TakeUint8(old(Window())), Window())
    {
      if lo == hi {
        return Raised;
      }
      r := Ok(data[lo]);
      lo := lo + 1;
    }

    method ConsumeString(len: nat) returns (r: Result<Bytes>)
      requires Valid()
      modifies this`lo
      ensures Valid() && Took(r, TakeString(old(Window()), len), Window())
    {
      if hi - lo < len {
        return Raised;
      }
      ghost var before := Window();
      r := Ok(data[lo..lo + len]);
      lo := lo + len;
      assert before[..len] == r.value && before[len..] == Window();
    }

    /** `Consume.string` without a length takes all that is left. */
    method ConsumeRest() returns (s: Bytes)
      requires Valid()
      modifies this`lo
      ensures Valid() && s == old(Window())
    {
      s := data[lo..hi];
      lo := hi;
    }

    method ConsumeUint16() returns (r: Result<nat>)
      requires Valid()
      modifies this`lo
      ensures Valid() && Took(r, TakeUint16(old(Window())), Window())
    {
      var s :- ConsumeString(2);
      r := Ok(BigEndian(s));
    }

    method ConsumeInt64() returns (r: Result<Int64>)
      requires Valid()
      modifies this`lo
      ensures Valid() && Took(r, TakeInt64(old(Window())), Window())
    {
      var s :- ConsumeString(8);
      r := Ok(ToInt64(s));
    }

    // ----- Fill -----

    method FillUint8(b: Byte) returns (r: Result<()>)
      requires Valid()
      modifies this`lo, data
      ensures Valid() && hi == old(hi)
      ensures r == if old(lo) < hi then Ok(()) else Raised
      ensures r.Ok? ==> Filled() == old(Filled()) + [b]
    {
      if lo == hi {
        return Raised;
      }
      data[lo] := b;
      lo := lo + 1;
      r := Ok(());
    }

    method FillString(s: Bytes) returns (r: Result<()>)
      requires Valid()
      modifies this`lo, data
      ensures Valid() && hi == old(hi)
      ensures r == if old(lo) + |s| <= hi then Ok(()) else Raised
      ensures r.Ok? ==> Filled() == old(Filled()) + s
    {
      if hi - lo < |s| {
        return Raised;
      }
      var start := lo;
      forall i | 0 <= i < |s| {
        data[start + i] := s[i];
      }
      lo := lo + |s|;
      r := Ok(());
    }
  }

  // ----- unpacking -----

  method UnpackKind(buf: Message) returns (r: Result<Kind>)
    requires buf.Valid()
    modifies buf`lo
    ensures buf.Valid() && Took(r, TakeKind(old(buf.Window())), buf.Window())
  {
    var kind :- buf.ConsumeUint8();
    match kind
    case 0x00 => r := Ok(EchoRequestKind);
    case 0x01 => r := Ok(EchoResponseKind);
    case 0x02 => r := Ok(NodesRequestKind);
    case 0x04 => r := Ok(NodesResponseKind);
    case _ => r := Error(FormatError);
  }

  method UnpackKey(buf: Message) returns (r: Result<Key>)
    requires buf.Valid()
    modifies buf`lo
    ensures buf.Valid() && Took(r, TakeKey(old(buf.Window())), buf.Window())
  {
    var s :- buf.ConsumeString(PUBLIC_KEY_SIZE);
    r := Ok(s);
  }

  method UnpackNonce(buf: Message) returns (r: Result<Nonce>)
    requires buf.Valid()
    modifies buf`lo
    ensures buf.Valid() && Took(r, TakeNonce(old(buf.Window())), buf.Window())
  {
    var s :- buf.ConsumeString(NONCE_SIZE);
    r := Ok(s);
  }

  method UnpackAfterProto(buf: Message, proto: Protocol, addr: InetAddr) returns (r: Result<Node>)
    requires buf.Valid()
    modifies buf`lo
    ensures buf.Valid() && Took(r, TakeAfterProto(old(buf.Window()), proto, addr), buf.Window())
  {
    var port :- buf.ConsumeUint16();
    if port > 65535 {
      return Error(FormatError);
    }
    var key :- UnpackKey(buf);
    r := Ok(Node(proto, addr, port, key));
  }

  method UnpackNode(buf: Message) returns (r: Result<Node>)
    requires buf.Valid()
    modifies buf`lo
    ensures buf.Valid() && Took(r, TakeNode(old(buf.Window())), buf.Window())
  {
    var protocol :- buf.ConsumeUint8();
    var proto := if protocol / 128 == 0 then UDP else TCP;
    if protocol % 128 == 0x02 {
      var ip :- buf.ConsumeString(4);
      r := UnpackAfterProto(buf, proto, IPv4(ip));
    } else if protocol % 128 == 0x0a {
      var ip :- buf.ConsumeString(16);
      r := UnpackAfterProto(buf, proto, IPv6(ip));
    } else {
      r := Error(FormatError);
    }
  }

  function Reverse<T>(s: seq<T>): seq<T> {
    if s == [] then [] else Reverse(s[1..]) + [s[0]]
  }

  /** What the decoder makes of the rest, after the nodes it has already. */
  function Prepend(ns: seq<Node>, r: Result<Parsed<seq<Node>>>): Result<Parsed<seq<Node>>> {
    match r
    case Ok(p) => Ok(Parsed(ns + p.value, p.rest))
    case Error(e) => Error(e)
    case Raised => Raised
  }

  /** The loop of `unpack_repeated` as a value: the list is collected backwards. */
  function Collect(acc: seq<Node>, b: Bytes, n: nat): Result<Parsed<seq<Node>>>
    decreases n
  {
    if n == 0 then Ok(Parsed(Reverse(acc), b))
    else
      var node :- TakeNode(b);
      Collect([node.value] + acc, node.rest, n - 1)
  }

  lemma {:induction false} CollectTakes(acc: seq<Node>, b: Bytes, n: nat)
    ensures Collect(acc, b, n) == Prepend(Reverse(acc), TakeNodes(b, n))
    decreases n
  {
    if n == 0 {
      assert Reverse(acc) + [] == Reverse(acc);
    } else if TakeNode(b).Ok? {
      var node := TakeNode(b).value;
      CollectTakes([node.value] + acc, node.rest, n - 1);
      assert ([node.value] + acc)[1..] == acc;
      if TakeNodes(node.rest, n - 1).Ok? {
        ConcatOne(Reverse(acc), node.value, TakeNodes(node.rest, n - 1).value.value);
      }
    }
  }

  lemma {:induction false} ConcatOne(a: seq<Node>, x: Node, b: seq<Node>)
    ensures a + ([x] + b) == (a + [x]) + b
  {
  }

  method UnpackLoop(buf: Message, acc: seq<Node>, n: nat) returns (r: Result<seq<Node>>)
    requires buf.Valid()
    modifies buf`lo
    ensures buf.Valid() && Took(r, Collect(acc, old(buf.Window()), n), buf.Window())
    decreases n
  {
    if n == 0 {
      return Ok(Reverse(acc));
    }
    var v :- UnpackNode(buf);
    r := UnpackLoop(buf, [v] + acc, n - 1);
  }

  /** `unpack_repeated` with `Node.unpack`. */
  method UnpackNodes(buf: Message) returns (r: Result<seq<Node>>)
    requires buf.Valid()
    modifies buf`lo
    ensures buf.Valid()
    ensures var count := TakeUint8(old(buf.Window()));
            if count.Ok? then Took(r, TakeNodes(count.value.rest, count.value.value), buf.Window()) else r == Raised
  {
    var len: nat :- buf.ConsumeUint8();
    CollectTakes([], buf.Window(), len);
    PrependNothing(TakeNodes(buf.Window(), len));
    r := UnpackLoop(buf, [], len);
  }

  lemma {:induction false} PrependNothing(r: Result<Parsed<seq<Node>>>)
    ensures Prepend(Reverse([]), r) == r
  {
    if r.Ok? { assert [] + r.value.value == r.value.value; }
  }

  method UnpackPlain(kind: Kind, buf: Message) returns (r: Result<Packet>)
    requires buf.Valid()
    modifies buf`lo
    ensures r == TakePlain(kind, old(buf.Window()))
  {
    match kind
    case EchoRequestKind =>
      var ping :- buf.ConsumeInt64();
      r := Ok(EchoRequest(ping));
    case EchoResponseKind =>
      var ping :- buf.ConsumeInt64();
      r := Ok(EchoResponse(ping));
    case NodesRequestKind =>
      var key :- UnpackKey(buf);
      var ping :- buf.ConsumeInt64();
      r := Ok(NodesRequest(key, ping));
    case NodesResponseKind =>
      var nodes :- UnpackNodes(buf);
      var ping :- buf.ConsumeInt64();
      r := Ok(NodesResponse(nodes, ping));
  }

  /** `NetworkPacket.unpack` down to the packet modules. */
  method Unpack(box: Box, dht: Dht, buf: Message) returns (r: Result<(ConnectedNode, Packet)>)
    requires buf.Valid()
    modifies buf`lo
    ensures r == ReadPacket(box, dht, old(buf.Window()))
  {
    var kind :- UnpackKind(buf);
    var publicKey :- UnpackKey(buf);
    var nonce :- UnpackNonce(buf);
    var node :- NodeByKey(dht, publicKey);
    var cipherText := buf.ConsumeRest();
    var plainText := box.open(node.channelKey, nonce, cipherText);
    if plainText == None {
      return Error(BoxOpenFailed);
    }
    var plain := new Message.OfString(plainText.value);
    var result :- UnpackPlain(kind, plain);
    r := Ok((node, result));
  }

  // ----- packing -----

  /** The plain text of a packet, into a buffer of its own. */
  method PackPlain(buf: Message, p: Packet) returns (r: Result<()>)
    requires buf.Valid() && buf.Filled() == []
    modifies buf`lo, buf.data
    ensures buf.Valid() && buf.hi == old(buf.hi)
    ensures r.Ok? <==> PlainBytes(p).Ok? && |PlainBytes(p).value| <= buf.hi
    ensures !r.Ok? ==> r == Raised
    ensures r.Ok? ==> buf.Filled() == PlainBytes(p).value
  {
    assert buf.lo == |buf.Filled()| == 0;
    match p
    case EchoRequest(ping) => r := buf.FillString(OfInt64(ping));
    case EchoResponse(ping) => r := buf.FillString(OfInt64(ping));
    case NodesRequest(key, ping) =>
      var _ :- buf.FillString(key);
      r := buf.FillString(OfInt64(ping));
    case NodesResponse(nodes, ping) =>
      var _ :- buf.FillUint8(|nodes| % 256);
      if nodes != [] {
        return Raised;  // Node.pack
      }
      r := buf.FillString(OfInt64(ping));
  }

  /** `pack_encrypted`. */
  method PackEncrypted(box: Box, channelKey: Bytes, nonce: Nonce, buf: Message, p: Packet, capacity: nat)
    returns (r: Result<()>)
    requires buf.Valid()
    modifies buf`lo, buf.data
    ensures buf.Valid() && buf.hi == old(buf.hi)
    ensures r.Ok? <==> && PlainBytes(p).Ok? && |PlainBytes(p).value| <= capacity
                       && old(buf.lo) + |box.seal(channelKey, nonce, PlainBytes(p).value)| <= buf.hi
    ensures !r.Ok? ==> r == Raised
    ensures r.Ok? ==> buf.Filled() == old(buf.Filled()) + box.seal(channelKey, nonce, PlainBytes(p).value)
  {
    var plain := new Message.Create(capacity);
    var _ :- PackPlain(plain, p);
    plain.FlipLo();
    var cipherText := box.seal(channelKey, nonce, plain.Window());
    r := buf.FillString(cipherText);
  }

  method PackHeader(buf: Message, kind: Kind, pk: Key, nonce: Nonce) returns (r: Result<()>)
    requires buf.Valid() && buf.lo == 0
    modifies buf`lo, buf.data
    ensures buf.Valid() && buf.hi == old(buf.hi)
    ensures r == if 57 <= buf.hi then Ok(()) else Raised
    ensures r.Ok? ==> buf.lo == 57 && buf.Filled() == [KindToInt(kind)] + pk + nonce
  {
    var _ :- buf.FillUint8(KindToInt(kind));
    assert buf.lo == |buf.Filled()|;
    var _ :- buf.FillString(pk);
    assert buf.lo == |buf.Filled()|;
    r := buf.FillString(nonce);
    assert buf.lo == |buf.Filled()|;
  }

  /** `NetworkPacket.pack`: the buffer it returns holds the packet's bytes. */
  method Pack(box: Box, dht: Dht, to: ConnectedNode, p: Packet, nonce: Nonce, capacity: nat)
    returns (r: Result<Message>)
    ensures PacketBytes(box, dht, to, p, nonce, capacity).Ok? <==> r.Ok?
    ensures !r.Ok? ==> r == Raised
    ensures r.Ok? ==> fresh(r.value) && r.value.Valid()
                      && r.value.Window() == PacketBytes(box, dht, to, p, nonce, capacity).value
  {
    var buf := new Message.Create(capacity);
    var _ :- PackHeader(buf, KindOf(p), dht.pk, nonce);
    var _ :- PackEncrypted(box, to.channelKey, nonce, buf, p, capacity);
    buf.FlipLo();
    r := Ok(buf);
  }
}
