/** The bytes of a packet as a value: parsers from the remaining bytes of a buffer and
    the layouts of `doc/protocol.md` they invert.

    In one place the code and the document differ, and this follows the code: the
    plain text of an echo packet is the ping id alone, without an `enc_type` byte. */
module PacketFormat {
  import opened Wrappers
  import opened Numbers
  import opened DhtTypes

  /** A parsed value and the bytes after it. */
  datatype Parsed<+T> = Parsed(value: T, rest: Bytes)

  // ----- Message.Consume: an exception when the buffer is too short -----

  function TakeUint8(b: Bytes): Result<Parsed<Byte>> {
    if b == [] then Raised else Ok(Parsed(b[0], b[1..]))
  }

  function TakeString(b: Bytes, len: nat): Result<Parsed<Bytes>> {
    if |b| < len then Raised else Ok(Parsed(b[..len], b[len..]))
  }

  function TakeUint16(b: Bytes): Result<Parsed<nat>> {
    var s :- TakeString(b, 2);
    Ok(Parsed(BigEndian(s.value), s.rest))
  }

  function TakeInt64(b: Bytes): Result<Parsed<Int64>> {
    if |b| < 8 then Raised else Ok(Parsed(ToInt64(b[..8]), b[8..]))
  }

  function TakeKey(b: Bytes): Result<Parsed<Key>> {
    if |b| < 32 then Raised else Ok(Parsed(b[..32], b[32..]))
  }

  function TakeNonce(b: Bytes): Result<Parsed<Nonce>> {
    if |b| < 24 then Raised else Ok(Parsed(b[..24], b[24..]))
  }

  // ----- packet kinds -----

  function KindToInt(k: Kind): (r: Byte)
    ensures r in {0, 1, 2, 4}
    ensures (r == 0 <==> k.EchoRequestKind?) && (r == 1 <==> k.EchoResponseKind?)
    ensures (r == 2 <==> k.NodesRequestKind?) && (r == 4 <==> k.NodesResponseKind?)
  {
    match k
    case EchoRequestKind => 0x00
    case EchoResponseKind => 0x01
    case NodesRequestKind => 0x02
    case NodesResponseKind => 0x04
  }

  function TakeKind(b: Bytes): Result<Parsed<Kind>> {
    var k :- TakeUint8(b);
    match k.value
    case 0x00 => Ok(Parsed(EchoRequestKind, k.rest))
    case 0x01 => Ok(Parsed(EchoResponseKind, k.rest))
    case 0x02 => Ok(Parsed(NodesRequestKind, k.rest))
    case 0x04 => Ok(Parsed(NodesResponseKind, k.rest))
    case _ => Error(FormatError)
  }

  // ----- nodes -----

  /** The layout of the document: protocol bit, seven bits of address family,
      address, port, key. */
  function NodeBytes(n: Node): Bytes
    requires WellFormed(n)
  {
    var proto := if n.proto == UDP then 0 else 128;
    (match n.addr
     case IPv4(ip) => [proto + 0x02] + ip
     case IPv6(ip) => [proto + 0x0a] + ip)
    + BytesOf(n.port, 2) + n.key
  }

  function NodesBytes(ns: seq<Node>): Bytes
    requires forall i :: 0 <= i < |ns| ==> WellFormed(ns[i])
  {
    if ns == [] then [] else NodeBytes(ns[0]) + NodesBytes(ns[1..])
  }

  /** `unpack_after_proto`. */
  function TakeAfterProto(b: Bytes, proto: Protocol, addr: InetAddr): Result<Parsed<Node>> {
    var port :- TakeUint16(b);
    if port.value > 65535 then Error(FormatError)
    else
      var key :- TakeKey(port.rest);
      Ok(Parsed(Node(proto, addr, port.value, key.value), key.rest))
  }

  /** `Node.unpack`. */
  function TakeNode(b: Bytes): Result<Parsed<Node>> {
    var protocol :- TakeUint8(b);
    var proto := if protocol.value / 128 == 0 then UDP else TCP;
    match protocol.value % 128
    case 0x02 => var ip :- TakeString(protocol.rest, 4); TakeAfterProto(ip.rest, proto, IPv4(ip.value))
    case 0x0a => var ip :- TakeString(protocol.rest, 16); TakeAfterProto(ip.rest, proto, IPv6(ip.value))
    case _ => Error(FormatError)
  }

  function TakeNodes(b: Bytes, count: nat): Result<Parsed<seq<Node>>> {
    if count == 0 then Ok(Parsed([], b))
    else
      var node :- TakeNode(b);
      var more :- TakeNodes(node.rest, count - 1);
      Ok(Parsed([node.value] + more.value, more.rest))
  }

  // ----- plain texts -----

  /** What the packers write; `Node.pack` is not implemented and raises. */
  function PlainBytes(p: Packet): Result<Bytes> {
    match p
    case EchoRequest(ping) => Ok(OfInt64(ping))
    case EchoResponse(ping) => Ok(OfInt64(ping))
    case NodesRequest(key, ping) => Ok(key + OfInt64(ping))
    case NodesResponse(nodes, ping) => if nodes == [] then Ok([0] + OfInt64(ping)) else Raised
  }

  /** What the unpackers read; they do not look at what follows. */
  function TakePlain(kind: Kind, b: Bytes): Result<Packet> {
    match kind
    case EchoRequestKind => var ping :- TakeInt64(b); Ok(EchoRequest(ping.value))
    case EchoResponseKind => var ping :- TakeInt64(b); Ok(EchoResponse(ping.value))
    case NodesRequestKind =>
      var key :- TakeKey(b);
      var ping :- TakeInt64(key.rest);
      Ok(NodesRequest(key.value, ping.value))
    case NodesResponseKind =>
      var count :- TakeUint8(b);
      var nodes :- TakeNodes(count.rest, count.value);
      var ping :- TakeInt64(nodes.rest);
      Ok(NodesResponse(nodes.value, ping.value))
  }

  // ----- whole packets -----

  /** `NetworkPacket.pack` with the nonce it draws, into buffers of the given capacity. */
  function PacketBytes(box: Box, dht: Dht, to: ConnectedNode, p: Packet, nonce: Nonce, capacity: nat): Result<Bytes> {
    var plain :- PlainBytes(p);
    var envelope := [KindToInt(KindOf(p))] + dht.pk + nonce + box.seal(to.channelKey, nonce, plain);
    if |plain| > capacity || |envelope| > capacity then Raised else Ok(envelope)
  }

  /** `Dht.node_by_key`. */
  function NodeByKey(dht: Dht, key: Key): Result<ConnectedNode> {
    if key in dht.nodes then Ok(dht.nodes[key]) else Error(NoSuchKey)
  }

  /** `NetworkPacket.unpack`. */
  function ReadPacket(box: Box, dht: Dht, b: Bytes): Result<(ConnectedNode, Packet)> {
    var kind :- TakeKind(b);
    var key :- TakeKey(kind.rest);
    var nonce :- TakeNonce(key.rest);
    var node :- NodeByKey(dht, key.value);
    var plain :- match box.open(node.channelKey, nonce.value, nonce.rest) {
      case None => Error(BoxOpenFailed)
      case Some(plain) => Ok(plain)
    };
    var packet :- TakePlain(kind.value, plain);
    Ok((node, packet))
  }

  // ----- the node decoder inverts the layout -----

  lemma {:induction false} TakeNodeOfBytes(n: Node, rest: Bytes)
    requires WellFormed(n)
    ensures TakeNode(NodeBytes(n) + rest) == Ok(Parsed(n, rest))
    ensures |NodeBytes(n)| == if n.addr.IPv4? then 39 else 51
  {
    var b := NodeBytes(n) + rest;
    var ip := match n.addr case IPv4(ip) => ip case IPv6(ip) => ip;
    var tail := BytesOf(n.port, 2) + n.key + rest;
    BytesLength(n.port, 2);
    assert b[1..] == ip + tail;
    assert TakeString(b[1..], |ip|) == Ok(Parsed(ip, tail));
    AfterProtoOfBytes(n, rest);
  }

  lemma {:induction false} AfterProtoOfBytes(n: Node, rest: Bytes)
    requires WellFormed(n)
    ensures TakeAfterProto(BytesOf(n.port, 2) + n.key + rest, n.proto, n.addr) == Ok(Parsed(n, rest))
  {
    var tail := BytesOf(n.port, 2) + n.key + rest;
    BytesLength(n.port, 2);
    assert Pow256(2) == 65536;
    BigEndianOfBytes(n.port, 2);
    assert tail[..2] == BytesOf(n.port, 2) && tail[2..] == n.key + rest;
    assert tail[2..][..32] == n.key && tail[2..][32..] == rest;
  }

  lemma {:induction false} AfterProtoIsBytes(b: Bytes, proto: Protocol, addr: InetAddr)
    requires TakeAfterProto(b, proto, addr).Ok?
    ensures var r := TakeAfterProto(b, proto, addr).value;
            && r.value.proto == proto && r.value.addr == addr && r.value.port <= 65535
            && b == BytesOf(r.value.port, 2) + r.value.key + r.rest
  {
    BytesOfBigEndian(b[..2]);
    assert b == b[..2] + b[2..][..32] + b[2..][32..];
  }

  lemma {:induction false} FourParts(a: Bytes, b: Bytes, c: Bytes, d: Bytes)
    ensures (a + b + c) + d == a + (b + c + d)
  {
  }

  lemma {:induction false} TakeNodeIsBytes(b: Bytes)
    requires TakeNode(b).Ok?
    ensures var r := TakeNode(b).value;
            WellFormed(r.value) && b == NodeBytes(r.value) + r.rest
  {
    var r := TakeNode(b).value;
    var len := if b[0] % 128 == 0x02 then 4 else 16;
    var ip, tail := b[1..][..len], b[1..][len..];
    var addr := if len == 4 then IPv4(ip) else IPv6(ip);
    var proto := if b[0] / 128 == 0 then UDP else TCP;
    assert TakeNode(b) == TakeAfterProto(tail, proto, addr);
    AfterProtoIsBytes(tail, proto, addr);
    assert b[0] == (if proto == UDP then 0 else 128) + if len == 4 then 0x02 else 0x0a;
    assert b == [b[0]] + ip + tail;
    FourParts([b[0]] + ip, BytesOf(r.value.port, 2), r.value.key, r.rest);
  }

  /** One node and then the others. */
  lemma {:induction false} ConsNodes(b: Bytes, count: nat, node: Parsed<Node>, more: Parsed<seq<Node>>)
    requires count > 0 && TakeNode(b) == Ok(node) && TakeNodes(node.rest, count - 1) == Ok(more)
    ensures TakeNodes(b, count) == Ok(Parsed([node.value] + more.value, more.rest))
  {
  }

  lemma {:induction false} SplitNodes(b: Bytes, count: nat) returns (node: Parsed<Node>, more: Parsed<seq<Node>>)
    requires count > 0 && TakeNodes(b, count).Ok?
    ensures TakeNode(b) == Ok(node) && TakeNodes(node.rest, count - 1) == Ok(more)
    ensures TakeNodes(b, count) == Ok(Parsed([node.value] + more.value, more.rest))
  {
    node := TakeNode(b).value;
    more := TakeNodes(node.rest, count - 1).value;
  }

  predicate AllWellFormed(ns: seq<Node>) {
    forall i :: 0 <= i < |ns| ==> WellFormed(ns[i])
  }

  lemma {:induction false} ConsBytes(n: Node, ns: seq<Node>)
    requires WellFormed(n) && AllWellFormed(ns)
    ensures AllWellFormed([n] + ns) && NodesBytes([n] + ns) == NodeBytes(n) + NodesBytes(ns)
  {
    assert ([n] + ns)[1..] == ns;
  }

  lemma {:induction false} ConcatAssociates(x: Bytes, y: Bytes, z: Bytes)
    ensures x + (y + z) == (x + y) + z
  {
  }

  /** Bytes that begin with a node go on with the others. */
  lemma {:induction false} PrependNode(b: Bytes, node: Parsed<Node>, ns: seq<Node>, rest: Bytes)
    requires WellFormed(node.value) && b == NodeBytes(node.value) + node.rest
    requires AllWellFormed(ns) && node.rest == NodesBytes(ns) + rest
    ensures AllWellFormed([node.value] + ns) && b == NodesBytes([node.value] + ns) + rest
  {
    ConsBytes(node.value, ns);
    ConcatAssociates(NodeBytes(node.value), NodesBytes(ns), rest);
  }

  lemma {:induction false} NodesBytesSplit(ns: seq<Node>, rest: Bytes)
    requires AllWellFormed(ns) && ns != []
    ensures NodesBytes(ns) + rest == NodeBytes(ns[0]) + (NodesBytes(ns[1..]) + rest)
  {
  }

  lemma {:induction false} TakeNodesOfBytes(ns: seq<Node>, rest: Bytes)
    requires AllWellFormed(ns)
    ensures TakeNodes(NodesBytes(ns) + rest, |ns|) == Ok(Parsed(ns, rest))
  {
    if ns == [] {
      assert NodesBytes(ns) + rest == rest;
    } else {
      var b, tail := NodesBytes(ns) + rest, NodesBytes(ns[1..]) + rest;
      NodesBytesSplit(ns, rest);
      TakeNodeOfBytes(ns[0], tail);
      TakeNodesOfBytes(ns[1..], rest);
      ConsNodes(b, |ns|, Parsed(ns[0], tail), Parsed(ns[1..], rest));
      assert [ns[0]] + ns[1..] == ns;
    }
  }

  lemma {:induction false} TakeNodesIsBytes(b: Bytes, count: nat)
    requires TakeNodes(b, count).Ok?
    ensures var r := TakeNodes(b, count).value;
            |r.value| == count && AllWellFormed(r.value) && b == NodesBytes(r.value) + r.rest
  {
    if count == 0 {
      assert NodesBytes([]) + b == b;
    } else {
      var node, more := SplitNodes(b, count);
      TakeNodeIsBytes(b);
      TakeNodesIsBytes(node.rest, count - 1);
      PrependNode(b, node, more.value, more.rest);
    }
  }

  /** The node-list decoder accepts exactly the written format: it returns a list and a
      rest if and only if the bytes are that list, laid out node by node, and the
      rest. */
  lemma {:induction false} NodesFormat(b: Bytes, count: nat, ns: seq<Node>, rest: Bytes)
    ensures TakeNodes(b, count) == Ok(Parsed(ns, rest)) <==>
            |ns| == count && AllWellFormed(ns) && b == NodesBytes(ns) + rest
  {
    if TakeNodes(b, count).Ok? {
      TakeNodesIsBytes(b, count);
    }
    if AllWellFormed(ns) {
      TakeNodesOfBytes(ns, rest);
    }
  }

  /** 39 bytes for each IPv4 node, 51 for each IPv6 node. */
  function NodesSize(ns: seq<Node>): nat {
    if ns == [] then 0 else (if ns[0].addr.IPv4? then 39 else 51) + NodesSize(ns[1..])
  }

  lemma {:induction false} NodesBytesSize(ns: seq<Node>)
    requires AllWellFormed(ns)
    ensures |NodesBytes(ns)| == NodesSize(ns)
  {
    if ns != [] {
      TakeNodeOfBytes(ns[0], []);
      NodesBytesSize(ns[1..]);
    }
  }

  /** A nodes response of the documented layout, of any length a count byte can say,
      is read back node for node; the cursor stands at the ping id after the list,
      and what follows the ping id is not looked at. */
  lemma {:induction false} NodesResponseFormat(ns: seq<Node>, ping: Int64, rest: Bytes)
    requires |ns| <= 255 && AllWellFormed(ns)
    ensures var (list, tail) := (NodesBytes(ns), OfInt64(ping) + rest);
            && |list| == NodesSize(ns)
            && TakeNodes(list + tail, |ns|) == Ok(Parsed(ns, tail))
            && TakePlain(NodesResponseKind, [|ns| as Byte] + (list + tail)) == Ok(NodesResponse(ns, ping))
  {
    var list, tail := NodesBytes(ns), OfInt64(ping) + rest;
    NodesBytesSize(ns);
    TakeNodesOfBytes(ns, tail);
    assert tail[..8] == OfInt64(ping);
    Int64RoundTrip(ping);
    var b := [|ns| as Byte] + (list + tail);
    assert b[1..] == list + tail;
    PlainOfNodes(b, ns, tail, ping);
  }

  lemma {:induction false} PlainOfNodes(b: Bytes, ns: seq<Node>, tail: Bytes, ping: Int64)
    requires b != [] && TakeNodes(b[1..], b[0]) == Ok(Parsed(ns, tail))
    requires TakeInt64(tail).Ok? && TakeInt64(tail).value.value == ping
    ensures TakePlain(NodesResponseKind, b) == Ok(NodesResponse(ns, ping))
  {
  }

  // ----- what one packs the other reads -----

  /** Reading what was written gives the packet back, for every packet that can be
      written: all but nodes responses with nodes in them. */
  lemma {:induction false} PlainRoundTrip(p: Packet)
    ensures PlainBytes(p).Ok? <==> !(p.NodesResponse? && p.nodes != [])
    ensures PlainBytes(p).Ok? ==> TakePlain(KindOf(p), PlainBytes(p).value) == Ok(p)
  {
    Int64RoundTrip(p.pingId);
    var ping := OfInt64(p.pingId);
    assert ping[..8] == ping;
    match p
    case EchoRequest(_) =>
    case EchoResponse(_) =>
    case NodesRequest(key, _) =>
      var b := key + ping;
      assert b[..32] == key && b[32..] == ping;
    case NodesResponse(nodes, _) =>
      if nodes == [] {
        var b := [0] + ping;
        assert b[1..] == ping;
        assert TakeNodes(b[1..], 0) == Ok(Parsed([], ping));
      }
  }

  /** Packing succeeds for just the packets that can be written and buffers they fit in:
      with boxes that add 16 bytes, those of at least 73 bytes and the plain text. */
  lemma {:induction false} PacketFits(box: Box, dht: Dht, to: ConnectedNode, p: Packet, nonce: Nonce, capacity: nat)
    requires forall ck, nonce, m :: |box.seal(ck, nonce, m)| == |m| + 16
    ensures PacketBytes(box, dht, to, p, nonce, capacity).Ok? <==>
            match p
            case EchoRequest(_) => capacity >= 81
            case EchoResponse(_) => capacity >= 81
            case NodesRequest(_, _) => capacity >= 113
            case NodesResponse(nodes, _) => nodes == [] && capacity >= 82
  {
    assert |OfInt64(p.pingId)| == 8;
  }

  /** The envelope: whoever holds the other half of the channel key reads the packet;
      whoever does not know the sender's key gets an error. */
  lemma {:induction false} EnvelopeRoundTrip(box: Box, from: Dht, to: ConnectedNode, p: Packet, nonce: Nonce,
                                             capacity: nat, at: Dht)
    requires Lawful(box)
    requires PacketBytes(box, from, to, p, nonce, capacity).Ok?
    requires from.pk in at.nodes ==> at.nodes[from.pk].channelKey == to.channelKey
    ensures ReadPacket(box, at, PacketBytes(box, from, to, p, nonce, capacity).value) ==
            if from.pk in at.nodes then Ok((at.nodes[from.pk], p)) else Error(NoSuchKey)
  {
    var b := PacketBytes(box, from, to, p, nonce, capacity).value;
    var plain := PlainBytes(p).value;
    var cipher := box.seal(to.channelKey, nonce, plain);
    assert b[1..] == from.pk + (nonce + cipher);
    assert b[1..][..32] == from.pk && b[1..][32..] == nonce + cipher;
    assert b[1..][32..][..24] == nonce && b[1..][32..][24..] == cipher;
    PlainRoundTrip(p);
  }

  // ----- exactly what is read, and why something is not -----

  lemma {:induction false} KindFormat(b: Bytes)
    ensures TakeKind(b) == Raised <==> b == []
    ensures TakeKind(b) == Error(FormatError) <==> b != [] && b[0] !in {0, 1, 2, 4}
    ensures b != [] && b[0] in {0, 1, 2, 4} ==>
              TakeKind(b).Ok? && KindToInt(TakeKind(b).value.value) == b[0] && TakeKind(b).value.rest == b[1..]
  {
  }

  lemma {:induction false} AfterProtoFails(b: Bytes, proto: Protocol, addr: InetAddr)
    ensures TakeAfterProto(b, proto, addr).Ok? <==> |b| >= 34
    ensures TakeAfterProto(b, proto, addr) == Raised <==> |b| < 34
  {
    if |b| >= 2 {
      BigEndianBound(b[..2]);
      assert Pow256(2) == 65536;
    }
  }

  /** The first byte of a node says the protocol and the address family; a node is not read
      for any other family, or when there are too few bytes for it. */
  lemma {:induction false} NodeHeader(b: Bytes)
    ensures TakeNode(b) == Error(FormatError) <==> b != [] && b[0] !in {2, 10, 130, 138}
    ensures TakeNode(b) == Raised <==>
            b == [] || (b[0] in {2, 130} && |b| < 39) || (b[0] in {10, 138} && |b| < 51)
    ensures TakeNode(b).Ok? ==> (TakeNode(b).value.value.proto == TCP <==> b[0] in {130, 138})
    ensures TakeNode(b).Ok? ==> (TakeNode(b).value.value.addr.IPv4? <==> b[0] in {2, 130})
  {
    if b != [] && b[0] in {2, 10, 130, 138} {
      var len := if b[0] % 128 == 0x02 then 4 else 16;
      if |b| > len {
        var ip, proto := b[1..][..len], if b[0] / 128 == 0 then UDP else TCP;
        var addr := if len == 4 then IPv4(ip) else IPv6(ip);
        AfterProtoFails(b[1..][len..], proto, addr);
        if |b| >= len + 35 { AfterProtoIsBytes(b[1..][len..], proto, addr); }
      }
    }
  }

  /** The bytes are some nodes, fewer than there should be, and a byte no node begins with. */
  ghost predicate BreaksOff(b: Bytes, count: nat, ns: seq<Node>, rest: Bytes) {
    && |ns| < count && AllWellFormed(ns) && b == NodesBytes(ns) + rest
    && rest != [] && rest[0] !in {2, 10, 130, 138}
  }

  lemma {:induction false} FirstFails(b: Bytes, count: nat)
    requires count > 0 && b != [] && b[0] !in {2, 10, 130, 138}
    ensures TakeNodes(b, count) == Error(FormatError)
  {
    NodeHeader(b);
  }

  lemma {:induction false} LaterFails(b: Bytes, count: nat, node: Parsed<Node>)
    requires count > 0 && TakeNode(b) == Ok(node) && TakeNodes(node.rest, count - 1) == Error(FormatError)
    ensures TakeNodes(b, count) == Error(FormatError)
  {
  }

  /** Nodes that can be read do not hide the error after them. */
  lemma {:induction false} ErrorAfter(ns: seq<Node>, rest: Bytes, more: nat)
    requires AllWellFormed(ns) && TakeNodes(rest, more) == Error(FormatError)
    ensures TakeNodes(NodesBytes(ns) + rest, |ns| + more) == Error(FormatError)
  {
    if ns == [] {
      assert NodesBytes(ns) + rest == rest;
    } else {
      var b, tail := NodesBytes(ns) + rest, NodesBytes(ns[1..]) + rest;
      NodesBytesSplit(ns, rest);
      TakeNodeOfBytes(ns[0], tail);
      ErrorAfter(ns[1..], rest, more);
      LaterFails(b, |ns| + more, Parsed(ns[0], tail));
    }
  }

  lemma {:induction false} BreaksOffFails(b: Bytes, count: nat, ns: seq<Node>, rest: Bytes)
    requires BreaksOff(b, count, ns, rest)
    ensures TakeNodes(b, count) == Error(FormatError)
  {
    var all, more: nat := NodesBytes(ns) + rest, count - |ns|;
    assert TakeNodes(all, |ns| + more) == Error(FormatError) by {
      FirstFails(rest, more);
      ErrorAfter(ns, rest, more);
    }
    assert b == all && |ns| + more == count;
  }

  lemma {:induction false} FailsBreakOff(b: Bytes, count: nat) returns (ns: seq<Node>, rest: Bytes)
    requires TakeNodes(b, count) == Error(FormatError)
    ensures BreaksOff(b, count, ns, rest)
  {
    NodeHeader(b);
    if TakeNode(b).Ok? {
      var node := TakeNode(b).value;
      TakeNodeIsBytes(b);
      ns, rest := FailsBreakOff(node.rest, count - 1);
      PrependNode(b, node, ns, rest);
      ns := [node.value] + ns;
    } else {
      ns, rest := [], b;
      assert NodesBytes([]) + b == b;
    }
  }

  lemma {:induction false} NodesErrors(b: Bytes, count: nat)
    ensures TakeNodes(b, count).Error? ==> TakeNodes(b, count) == Error(FormatError)
    decreases count
  {
    if count > 0 {
      NodeHeader(b);
      if TakeNode(b).Ok? { NodesErrors(TakeNode(b).value.rest, count - 1); }
    }
  }

  /** A packet that can be laid out: a count byte says how many nodes there are. */
  predicate Writable(p: Packet) {
    p.NodesResponse? ==> |p.nodes| <= 255 && AllWellFormed(p.nodes)
  }

  /** The plain text of a packet as the document lays it out. */
  function Layout(p: Packet): Bytes
    requires Writable(p)
  {
    match p
    case EchoRequest(ping) => OfInt64(ping)
    case EchoResponse(ping) => OfInt64(ping)
    case NodesRequest(key, ping) => key + OfInt64(ping)
    case NodesResponse(nodes, ping) => [|nodes| as Byte] + NodesBytes(nodes) + OfInt64(ping)
  }

  lemma {:induction false} BeginsWith(b: Bytes, list: Bytes, rest: Bytes)
    requires b != [] && b[1..] == list + rest && |rest| >= 8
    ensures [b[0]] + list + rest[..8] <= b
  {
    assert b == [b[0]] + list + rest;
  }

  lemma {:induction false} NodesAreLayout(b: Bytes)
    requires TakePlain(NodesResponseKind, b).Ok?
    ensures var p := TakePlain(NodesResponseKind, b).value; p.NodesResponse? && Writable(p) && Layout(p) <= b
  {
    var nodes := TakeNodes(b[1..], b[0]).value;
    TakeNodesIsBytes(b[1..], b[0]);
    Int64OfBytes(nodes.rest[..8]);
    BeginsWith(b, NodesBytes(nodes.value), nodes.rest);
  }

  lemma {:induction false} PlainIsLayout(kind: Kind, b: Bytes)
    requires TakePlain(kind, b).Ok?
    ensures var p := TakePlain(kind, b).value; KindOf(p) == kind && Writable(p) && Layout(p) <= b
  {
    match kind
    case EchoRequestKind => Int64OfBytes(b[..8]);
    case EchoResponseKind => Int64OfBytes(b[..8]);
    case NodesRequestKind =>
      Int64OfBytes(b[32..][..8]);
      assert b == b[..32] + b[32..][..8] + b[40..];
    case NodesResponseKind => NodesAreLayout(b);
  }

  lemma {:induction false} SplitAfter(b: Bytes, x: Bytes, y: Bytes, z: Bytes) returns (rest: Bytes)
    requires x + y + z <= b
    ensures b == x + (y + (z + rest))
  {
    rest := b[|x| + |y| + |z|..];
  }

  lemma {:induction false} NodesAreRead(ns: seq<Node>, ping: Int64, b: Bytes)
    requires |ns| <= 255 && AllWellFormed(ns) && [|ns| as Byte] + NodesBytes(ns) + OfInt64(ping) <= b
    ensures TakePlain(NodesResponseKind, b) == Ok(NodesResponse(ns, ping))
  {
    var rest := SplitAfter(b, [|ns| as Byte], NodesBytes(ns), OfInt64(ping));
    NodesResponseFormat(ns, ping, rest);
  }

  lemma {:induction false} LayoutIsRead(p: Packet, b: Bytes)
    requires Writable(p) && Layout(p) <= b
    ensures TakePlain(KindOf(p), b) == Ok(p)
  {
    Int64RoundTrip(p.pingId);
    match p
    case EchoRequest(ping) => assert b[..8] == OfInt64(ping);
    case EchoResponse(ping) => assert b[..8] == OfInt64(ping);
    case NodesRequest(key, ping) => assert b[..32] == key && b[32..][..8] == OfInt64(ping);
    case NodesResponse(ns, ping) => NodesAreRead(ns, ping, b);
  }

  /** An unpacker reads a packet of its kind if and only if the plain text begins with that
      packet's layout. */
  lemma {:induction false} PlainFormat(kind: Kind, b: Bytes, p: Packet)
    ensures TakePlain(kind, b) == Ok(p) <==> KindOf(p) == kind && Writable(p) && Layout(p) <= b
  {
    if TakePlain(kind, b).Ok? { PlainIsLayout(kind, b); }
    if KindOf(p) == kind && Writable(p) && Layout(p) <= b { LayoutIsRead(p, b); }
  }

  /** Otherwise it raises, unless a list of nodes breaks off at a byte no node begins with. */
  lemma {:induction false} PlainFailure(kind: Kind, b: Bytes)
    ensures TakePlain(kind, b).Error? ==> TakePlain(kind, b) == Error(FormatError)
    ensures TakePlain(kind, b).Error? <==>
            kind.NodesResponseKind? && b != [] && exists ns, rest :: BreaksOff(b[1..], b[0], ns, rest)
  {
    if kind.NodesResponseKind? && b != [] {
      NodesErrors(b[1..], b[0]);
      if TakeNodes(b[1..], b[0]).Error? { var ns, rest := FailsBreakOff(b[1..], b[0]); }
      forall ns, rest | BreaksOff(b[1..], b[0], ns, rest)
        ensures TakeNodes(b[1..], b[0]) == Error(FormatError)
      {
        BreaksOffFails(b[1..], b[0], ns, rest);
      }
    }
  }

  /** What a packet is on the wire: the byte of its kind, a known public key, a nonce, and a
      box that opens under the channel key of that entry to a text that begins with the
      layout of the packet. */
  ghost predicate OnWire(box: Box, dht: Dht, b: Bytes, node: ConnectedNode, p: Packet) {
    && |b| >= 57 && b[0] == KindToInt(KindOf(p)) && b[1..33] in dht.nodes && node == dht.nodes[b[1..33]]
    && match box.open(node.channelKey, b[33..57], b[57..])
       case None => false
       case Some(plain) => Writable(p) && Layout(p) <= plain
  }

  /** Up to its plain text. */
  lemma {:induction false} ReadEnvelope(box: Box, dht: Dht, b: Bytes)
    requires b != [] && b[0] in {0, 1, 2, 4}
    ensures |b| < 57 ==> ReadPacket(box, dht, b) == Raised
    ensures |b| >= 57 ==>
              ReadPacket(box, dht, b) ==
              if b[1..33] !in dht.nodes then Error(NoSuchKey)
              else match box.open(dht.nodes[b[1..33]].channelKey, b[33..57], b[57..])
                case None => Error(BoxOpenFailed)
                case Some(plain) =>
                  match TakePlain(TakeKind(b).value.value, plain)
                  case Ok(p) => Ok((dht.nodes[b[1..33]], p))
                  case Error(e) => Error(e)
                  case Raised => Raised
  {
    KindFormat(b);
    if |b| >= 57 {
      assert b[1..][..32] == b[1..33];
      assert b[1..][32..][..24] == b[33..57] && b[1..][32..][24..] == b[57..];
    }
  }

  /** `unpack` returns a packet from a node if and only if that is what is on the wire; so
      nothing is ever read from a box that does not open. */
  lemma {:induction false} ReadPacketFormat(box: Box, dht: Dht, b: Bytes, node: ConnectedNode, p: Packet)
    ensures ReadPacket(box, dht, b) == Ok((node, p)) <==> OnWire(box, dht, b, node, p)
  {
    KindFormat(b);
    if b != [] && b[0] in {0, 1, 2, 4} {
      ReadEnvelope(box, dht, b);
      if |b| >= 57 && b[1..33] in dht.nodes {
        var plain := box.open(dht.nodes[b[1..33]].channelKey, b[33..57], b[57..]);
        if plain.Some? { PlainFormat(TakeKind(b).value.value, plain.value, p); }
      }
    }
  }

  /** And each error is for just one reason, of several the first. */
  lemma {:induction false} ReadPacketFailure(box: Box, dht: Dht, b: Bytes)
    ensures var r := ReadPacket(box, dht, b);
            var kind := b != [] && b[0] in {0, 1, 2, 4};
            var known := kind && |b| >= 57 && b[1..33] in dht.nodes;
            var plain := if known then box.open(dht.nodes[b[1..33]].channelKey, b[33..57], b[57..]) else None;
            && (r == Error(NoSuchKey) <==> kind && |b| >= 57 && !known)
            && (r == Error(BoxOpenFailed) <==> known && plain == None)
            && (r == Error(FormatError) <==>
                 (b != [] && !kind) || (plain.Some? && TakePlain(TakeKind(b).value.value, plain.value).Error?))
            && (r == Raised <==>
                 || b == [] || (kind && |b| < 57)
                 || (plain.Some? && TakePlain(TakeKind(b).value.value, plain.value) == Raised))
  {
    KindFormat(b);
    if b != [] && b[0] in {0, 1, 2, 4} {
      ReadEnvelope(box, dht, b);
      if |b| >= 57 && b[1..33] in dht.nodes {
        var plain := box.open(dht.nodes[b[1..33]].channelKey, b[33..57], b[57..]);
        if plain.Some? { PlainFailure(TakeKind(b).value.value, plain.value); }
      }
    }
  }
}
