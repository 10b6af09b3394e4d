/** The types of `types.ml` and `packet.ml`, and the primitives of `Sodium.Box`. */
module DhtTypes {
  import opened Wrappers
  import opened Numbers

  const PUBLIC_KEY_SIZE := 32
  const NONCE_SIZE := 24

  type Key = s: Bytes | |s| == 32 witness seq(32, _ => 0)
  type Nonce = s: Bytes | |s| == 24 witness seq(24, _ => 0)

  /** An OCaml computation that returns `Or_error.t` and may also raise. */
  datatype Result<+T> = Ok(value: T) | Error(error: Failure) | Raised {
    predicate IsFailure() {
      !Ok?
    }

    function PropagateFailure<U>(): Result<U>
      requires IsFailure()
    {
      if Raised? then Raised else Error(error)
    }

    function Extract(): T
      requires !IsFailure()
    {
      value
    }
  }

  datatype Failure = FormatError | NoSuchKey | BoxOpenFailed

  datatype Protocol = UDP | TCP

  datatype InetAddr = IPv4(ip4: Bytes) | IPv6(ip6: Bytes)

  datatype Node = Node(proto: Protocol, addr: InetAddr, port: nat, key: Key)

  /** The sizes and ranges that the types of `inetAddr.ml` and `port.ml` keep. */
  predicate WellFormed(n: Node) {
    && (match n.addr case IPv4(ip) => |ip| == 4 case IPv6(ip) => |ip| == 16)
    && n.port <= 65535
  }

  datatype ConnectedNode = ConnectedNode(node: Node, channelKey: Bytes)

  datatype Dht = Dht(sk: Bytes, pk: Key, nodes: map<Key, ConnectedNode>)

  datatype Kind = EchoRequestKind | EchoResponseKind | NodesRequestKind | NodesResponseKind

  datatype Packet =
    | EchoRequest(pingId: Int64)
    | EchoResponse(pingId: Int64)
    | NodesRequest(key: Key, pingId: Int64)
    | NodesResponse(nodes: seq<Node>, pingId: Int64)

  function KindOf(p: Packet): Kind {
    match p
    case EchoRequest(_) => EchoRequestKind
    case EchoResponse(_) => EchoResponseKind
    case NodesRequest(_, _) => NodesRequestKind
    case NodesResponse(_, _) => NodesResponseKind
  }

  /** Public-key boxes: sodium is not part of this model. */
  datatype Box = Box(
    publicOf: Bytes -> Key,
    precompute: (Bytes, Key) -> Bytes,
    seal: (Bytes, Nonce, Bytes) -> Bytes,
    open: (Bytes, Nonce, Bytes) -> Option<Bytes>)

  /** What is assumed of them: opening undoes sealing under the same channel key and
      nonce, and two key pairs compute the same channel key from either side. */
  ghost predicate Lawful(box: Box) {
    && (forall ck, nonce, m :: box.open(ck, nonce, box.seal(ck, nonce, m)) == Some(m))
    && (forall a, b :: box.precompute(a, box.publicOf(b)) == box.precompute(b, box.publicOf(a)))
  }

  /** The laws can be met: here by a box that hides nothing. */
  lemma {:induction false} LawfulBoxesExist()
    ensures exists box :: Lawful(box)
  {
    var box := Box(_ => seq(32, _ => 0), (_, _) => [], (_, _, m) => m, (_, _, c) => Some(c));
    assert Lawful(box);
  }
}
