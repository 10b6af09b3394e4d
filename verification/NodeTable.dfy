/** The node table of `dht.ml` and what the bootstrap and response handlers of
    `network.ml` and `main.ml` make of it over whole runs. */
module NodeTable {
  import opened Wrappers
  import opened Numbers
  import opened DhtTypes
  import opened PacketFormat

  /** 0x8765432101234567L as a signed number. */
  const PING_ID: Int64 := 0x8765432101234567 - 0x1_0000_0000_0000_0000

  // ----- dht.ml -----

  /** `create`, with the secret key it draws. */
  function Create(box: Box, sk: Bytes): Dht {
    Dht(sk, box.publicOf(sk), map[])
  }

  function AddDhtNode(dht: Dht, n: ConnectedNode): Dht {
    dht.(nodes := dht.nodes[n.node.key := n])
  }

  function AddNode(box: Box, dht: Dht, node: Node): Dht {
    if node.key !in dht.nodes then
      AddDhtNode(dht, ConnectedNode(node, box.precompute(dht.sk, node.key)))
    else if dht.nodes[node.key].node == node then dht
    else AddDhtNode(dht, dht.nodes[node.key].(node := node))
  }

  /** What holds of every table: each entry is filed under its own key and caches the
      channel key of the two parties. */
  ghost predicate TableOk(box: Box, dht: Dht) {
    && dht.pk == box.publicOf(dht.sk)
    && forall k :: k in dht.nodes ==>
         dht.nodes[k].node.key == k && dht.nodes[k].channelKey == box.precompute(dht.sk, k)
  }

  /** The first clause is the assertion of `add_node`. */
  lemma {:induction false} AddNodeKeeps(box: Box, dht: Dht, node: Node)
    requires TableOk(box, dht)
    ensures node.key in dht.nodes ==> dht.nodes[node.key].node.key == node.key
    ensures var dht' := AddNode(box, dht, node);
            && TableOk(box, dht') && dht'.sk == dht.sk && dht'.pk == dht.pk
            && dht'.nodes == dht.nodes[node.key := ConnectedNode(node, box.precompute(dht.sk, node.key))]
            && NodeByKey(dht', node.key) == Ok(ConnectedNode(node, box.precompute(dht.sk, node.key)))
  {
    if node.key in dht.nodes && dht.nodes[node.key].node == node {
      assert dht.nodes == dht.nodes[node.key := dht.nodes[node.key]];
    }
  }

  // ----- handling a nodes response -----

  type Queue = seq<(ConnectedNode, Packet)>

  function AddIPv4(box: Box, dht: Dht, nodes: seq<Node>): Dht {
    if nodes == [] then dht
    else
      var before := AddIPv4(box, dht, nodes[..|nodes| - 1]);
      if nodes[|nodes| - 1].addr.IPv4? then AddNode(box, before, nodes[|nodes| - 1]) else before
  }

  /** One request to each IPv4 node, under the table entry it has just been given. */
  function Requests(box: Box, dht: Dht, nodes: seq<Node>): Queue {
    if nodes == [] then []
    else
      var n := nodes[|nodes| - 1];
      Requests(box, dht, nodes[..|nodes| - 1]) +
      if n.addr.IPv4? then [(ConnectedNode(n, box.precompute(dht.sk, n.key)), NodesRequest(dht.pk, PING_ID))] else []
  }

  /** The last IPv4 node of the list with this key. */
  function Latest(nodes: seq<Node>, key: Key): Option<Node> {
    if nodes == [] then None
    else if nodes[|nodes| - 1].addr.IPv4? && nodes[|nodes| - 1].key == key then Some(nodes[|nodes| - 1])
    else Latest(nodes[..|nodes| - 1], key)
  }

  /** After a response the table has the last word of the list on every key the list
      mentions, and its old entries for all others. */
  lemma {:induction false} LastNodeWins(box: Box, dht: Dht, nodes: seq<Node>, key: Key)
    requires TableOk(box, dht)
    ensures var dht' := AddIPv4(box, dht, nodes);
            && TableOk(box, dht') && dht'.sk == dht.sk && dht'.pk == dht.pk
            && (key in dht'.nodes <==> key in dht.nodes || Latest(nodes, key).Some?)
            && (key in dht'.nodes ==>
                 dht'.nodes[key] == if Latest(nodes, key).Some?
                                    then ConnectedNode(Latest(nodes, key).value, box.precompute(dht.sk, key))
                                    else dht.nodes[key])
  {
    if nodes != [] {
      var n := |nodes| - 1;
      LastNodeWins(box, dht, nodes[..n], key);
      if nodes[n].addr.IPv4? {
        AddNodeKeeps(box, AddIPv4(box, dht, nodes[..n]), nodes[n]);
      }
    }
  }

  /** The number of IPv4 nodes. */
  function CountIPv4(nodes: seq<Node>): nat {
    if nodes == [] then 0
    else CountIPv4(nodes[..|nodes| - 1]) + if nodes[|nodes| - 1].addr.IPv4? then 1 else 0
  }

  /** The requests go to the IPv4 nodes of the list, in its order. */
  lemma {:induction false} OneRequestEach(box: Box, dht: Dht, nodes: seq<Node>, i: nat)
    requires i < |nodes|
    ensures |Requests(box, dht, nodes)| == CountIPv4(nodes)
    ensures nodes[i].addr.IPv4? ==>
              && CountIPv4(nodes[..i]) < CountIPv4(nodes)
              && Requests(box, dht, nodes)[CountIPv4(nodes[..i])] ==
                 (ConnectedNode(nodes[i], box.precompute(dht.sk, nodes[i].key)), NodesRequest(dht.pk, PING_ID))
  {
    var n := |nodes| - 1;
    if i < n {
      OneRequestEach(box, dht, nodes[..n], i);
      assert nodes[..n][..i] == nodes[..i];
    } else if n > 0 {
      OneRequestEach(box, dht, nodes[..n], 0);
    }
  }

  // ----- the client -----

  class Client {
    const box: Box
    var dht: Dht
    var sendQueue: Queue

    constructor (box: Box, sk: Bytes)
      ensures this.box == box && dht == Create(box, sk) && sendQueue == []
      ensures TableOk(box, dht)
    {
      this.box := box;
      dht := Create(box, sk);
      sendQueue := [];
    }

    /** The Bootstrap step of `control_loop`. */
    method Bootstrap(node: Node)
      requires TableOk(box, dht)
      modifies this
      ensures TableOk(box, dht)
      ensures dht == AddNode(box, old(dht), node)
      ensures sendQueue == old(sendQueue) +
                [(ConnectedNode(node, box.precompute(dht.sk, node.key)), NodesRequest(dht.pk, PING_ID))]
    {
      AddNodeKeeps(box, dht, node);
      dht := AddNode(box, dht, node);
      var found := NodeByKey(dht, node.key);
      assert found.Ok?;  // ok_exn does not raise
      sendQueue := sendQueue + [(found.value, NodesRequest(dht.pk, PING_ID))];
    }

    /** `handle_network_event`; a response to another ping raises. */
    method HandleNetworkEvent(from: ConnectedNode, packet: Packet) returns (r: Result<()>)
      requires TableOk(box, dht)
      modifies this
      ensures TableOk(box, dht) && dht.sk == old(dht.sk) && dht.pk == old(dht.pk)
      ensures r == if packet.NodesResponse? && packet.pingId != PING_ID then Raised else Ok(())
      ensures dht == if packet.NodesResponse? && r.Ok? then AddIPv4(box, old(dht), packet.nodes) else old(dht)
      ensures sendQueue == old(sendQueue) +
                match packet {
                  case EchoRequest(ping) => [(from, EchoResponse(ping))]
                  case EchoResponse(_) => []
                  case NodesRequest(_, _) => []
                  case NodesResponse(nodes, _) => if r.Ok? then Requests(box, old(dht), nodes) else []
                }
    {
      r := Ok(());
      match packet
      case EchoRequest(ping) => sendQueue := sendQueue + [(from, EchoResponse(ping))];
      case EchoResponse(_) =>
      case NodesRequest(_, _) =>
      case NodesResponse(nodes, ping) =>
        if ping != PING_ID {
          return Raised;
        }
        AddNodes(nodes);
    }

    method AddNodes(nodes: seq<Node>)
      requires TableOk(box, dht)
      modifies this
      ensures TableOk(box, dht) && dht.sk == old(dht.sk) && dht.pk == old(dht.pk)
      ensures dht == AddIPv4(box, old(dht), nodes)
      ensures sendQueue == old(sendQueue) + Requests(box, old(dht), nodes)
    {
      for i := 0 to |nodes|
        invariant TableOk(box, dht) && dht.sk == old(dht.sk) && dht.pk == old(dht.pk)
        invariant dht == AddIPv4(box, old(dht), nodes[..i])
        invariant sendQueue == old(sendQueue) + Requests(box, old(dht), nodes[..i])
      {
        var node := nodes[i];
        assert nodes[..i + 1][..i] == nodes[..i];
        if node.addr.IPv4? {
          AddNodeKeeps(box, dht, node);
          dht := AddNode(box, dht, node);
          var found := NodeByKey(dht, node.key);
          assert found.Ok?;  // ok_exn does not raise
          sendQueue := sendQueue + [(found.value, NodesRequest(dht.pk, PING_ID))];
        }
      }
      assert nodes[..|nodes|] == nodes;
    }
  }

  // ----- runs -----

  /** What can happen to a table: a bootstrap, or the response of some node. The other
      packets leave it alone. */
  datatype Event = Bootstrapped(node: Node) | Responded(nodes: seq<Node>)

  function After(box: Box, dht: Dht, events: seq<Event>): Dht {
    if events == [] then dht
    else
      var before := After(box, dht, events[..|events| - 1]);
      match events[|events| - 1]
      case Bootstrapped(node) => AddNode(box, before, node)
      case Responded(nodes) => AddIPv4(box, before, nodes)
  }

  /** In every table a run can produce the entries are right, no key is ever lost, and
      the own key pair stays. */
  lemma {:induction false} TableOverRuns(box: Box, sk: Bytes, events: seq<Event>, more: seq<Event>, key: Key)
    ensures var (dht, dht') := (After(box, Create(box, sk), events), After(box, Create(box, sk), events + more));
            && TableOk(box, dht') && dht'.sk == sk && dht'.pk == box.publicOf(sk)
            && (key in dht.nodes ==> key in dht'.nodes && dht'.nodes[key].channelKey == dht.nodes[key].channelKey)
    decreases |events| + |more|
  {
    if more == [] {
      assert events + more == events;
      if events != [] {
        TableOverRuns(box, sk, events[..|events| - 1], [], key);
        assert events[..|events| - 1] + [] == events[..|events| - 1];
        EventKeeps(box, After(box, Create(box, sk), events[..|events| - 1]), events[|events| - 1], key);
      }
    } else {
      var n := |more| - 1;
      TableOverRuns(box, sk, events, more[..n], key);
      assert (events + more)[..|events + more| - 1] == events + more[..n];
      EventKeeps(box, After(box, Create(box, sk), events + more[..n]), more[n], key);
    }
  }

  lemma {:induction false} EventKeeps(box: Box, dht: Dht, e: Event, key: Key)
    requires TableOk(box, dht)
    ensures var dht' := match e { case Bootstrapped(node) => AddNode(box, dht, node)
                                  case Responded(nodes) => AddIPv4(box, dht, nodes) };
            && TableOk(box, dht') && dht'.sk == dht.sk && dht'.pk == dht.pk
            && (key in dht.nodes ==> key in dht'.nodes && dht'.nodes[key].channelKey == dht.nodes[key].channelKey)
  {
    match e
    case Bootstrapped(node) => AddNodeKeeps(box, dht, node);
    case Responded(nodes) => LastNodeWins(box, dht, nodes, key);
  }

  /** Two peers whose tables have been filled by any runs of bootstraps and responses:
      what a packs for b, b reads as the same packet from a's entry in its table,
      provided a is there; from a stranger it gets an error, whatever the packet. */
  lemma {:induction false} PeersUnderstand(box: Box, skA: Bytes, skB: Bytes, eventsA: seq<Event>, eventsB: seq<Event>,
                        p: Packet, nonce: Nonce, capacity: nat)
    requires Lawful(box)
    requires box.publicOf(skB) in After(box, Create(box, skA), eventsA).nodes
    requires var a := After(box, Create(box, skA), eventsA);
             PacketBytes(box, a, a.nodes[box.publicOf(skB)], p, nonce, capacity).Ok?
    ensures var (a, b) := (After(box, Create(box, skA), eventsA), After(box, Create(box, skB), eventsB));
            ReadPacket(box, b, PacketBytes(box, a, a.nodes[box.publicOf(skB)], p, nonce, capacity).value) ==
            if box.publicOf(skA) in b.nodes then Ok((b.nodes[box.publicOf(skA)], p)) else Error(NoSuchKey)
  {
    var a, b := After(box, Create(box, skA), eventsA), After(box, Create(box, skB), eventsB);
    var pkA, pkB := box.publicOf(skA), box.publicOf(skB);
    TableOverRuns(box, skA, eventsA, [], pkB);
    TableOverRuns(box, skB, eventsB, [], pkA);
    assert eventsA + [] == eventsA && eventsB + [] == eventsB;
    assert a.nodes[pkB].channelKey == box.precompute(skA, pkB) == box.precompute(skB, pkA);
    EnvelopeRoundTrip(box, a, a.nodes[pkB], p, nonce, capacity, b);
  }
}
