// A network of nodes that receive as client/DPReceive.c does: no frame is relayed twice, and
// every frame a device gets is the one its sender sent to it.
module SingleHop {
  import opened Bytes
  import opened Wrappers
  import opened DPReceive

  // A frame on its way between two nodes. The bytes are all the nodes see; origin, dest, payload
  // and hops (how many relays it has crossed) are what happened.
  datatype Packet = Packet(sender: nat, receiver: nat, bytes: seq<byte>, origin: nat, dest: nat, payload: seq<byte>, hops: nat)

  datatype Delivery = Delivery(at: nat, src: nat, data: seq<byte>, packet: Packet)

  datatype Network = Network(nodes: map<nat, Device>, flying: seq<Packet>, delivered: seq<Delivery>)

  // The node knows its own id or none yet, is not its own peer, and knows each peer once.
  ghost predicate NodeOk(id: nat, d: Device) {
    && (d.ownId.Some? ==> d.ownId.value == id)
    && (forall i :: 0 <= i < |d.peers| ==> d.peers[i].id != id)
    && (forall i, j :: 0 <= i < j < |d.peers| ==> d.peers[i].id != d.peers[j].id)
  }

  ghost predicate NodesOk(nodes: map<nat, Device>) {
    forall id <- nodes :: NodeOk(id, nodes[id])
  }

  datatype Step =
    // device_dpsource_handler: a frame for dest leaves over the link of `via`, dest or a relay
    | Originate(node: nat, dest: nat, via: nat, flags: byte, frame: seq<byte>)
    // packet i arrives; if it is relayed on, it goes over the destination's own link
    | Arrive(i: nat, flags: byte)
    | Lose(i: nat)
    // peers come and go, ids are assigned
    | Reconfigure(nodes: map<nat, Device>)

  function Without(s: seq<Packet>, i: nat): seq<Packet>
    requires i < |s|
  {
    s[..i] + s[i + 1..]
  }


  function LinkOf(d: Device, id: nat): (i: nat)
    ensures i <= |d.peers|
    ensures i < |d.peers| ==> d.peers[i].id == id
    ensures forall j :: 0 <= j < i ==> d.peers[j].id != id
    decreases |d.peers|
  {
    if d.peers == [] then 0
    else if d.peers[0].id == id then 0
    else 1 + LinkOf(d.(peers := d.peers[1..]), id)
  }

  // One step. A packet from a peer the node does not know has no link to arrive on and is lost.
  ghost predicate Next(n: Network, s: Step, m: Network) {
    match s
    case Originate(node, dest, via, flags, frame) =>
      && node in n.nodes && node < 0x1_0000 && dest < 0x1_0000 && dest != node && Known(n.nodes[node], dest)
      && m == n.(flying := n.flying + [Packet(node, via, Header(flags, node, dest) + frame, node, dest, frame, 0)])
    case Arrive(i, flags) =>
      && i < |n.flying| && n.flying[i].receiver in n.nodes && m.nodes == n.nodes
      && Arrived(n.nodes[n.flying[i].receiver], n.flying[i], flags, Without(n.flying, i), n.delivered, m)
    case Lose(i) =>
      i < |n.flying| && m == n.(flying := Without(n.flying, i))
    case Reconfigure(nodes) =>
      NodesOk(nodes) && m == n.(nodes := nodes)
  }

  ghost predicate Arrived(d: Device, p: Packet, flags: byte, rest: seq<Packet>, delivered: seq<Delivery>, m: Network) {
    var link := LinkOf(d, p.sender);
    var f := Parse(p.bytes);
    if link == |d.peers| || f.None? then m.flying == rest && m.delivered == delivered
    else if Accepts(d, f.value) then
      m.flying == rest && m.delivered == delivered + [Delivery(p.receiver, f.value.src, f.value.data, p)]
    else if Relays(d, d.peers[link], f.value) then
      && m.delivered == delivered
      && m.flying == rest + [Packet(p.receiver, f.value.to.value, Header(flags, f.value.src, f.value.to.value) + f.value.data,
                                    p.origin, p.dest, p.payload, p.hops + 1)]
    else m.flying == rest && m.delivered == delivered
  }

  // The header is right, and tells how often the frame was relayed: a frame that was not is from
  // its sender; a frame that was is at its destination, and not from its sender.
  ghost predicate PacketOk(p: Packet) {
    && (exists flags :: Parse(p.bytes) == Some(Frame(flags, p.origin, Some(p.dest), p.payload)))
    && p.origin != p.dest
    && ((p.hops == 0 && p.sender == p.origin) || (p.hops == 1 && p.receiver == p.dest && p.sender != p.origin))
  }

  ghost predicate DeliveryOk(d: Delivery) {
    d.at == d.packet.dest && d.src == d.packet.origin && d.data == d.packet.payload && d.packet.hops <= 1
  }

  ghost predicate NetworkOk(n: Network) {
    && NodesOk(n.nodes)
    && (forall i :: 0 <= i < |n.flying| ==> PacketOk(n.flying[i]))
    && (forall i :: 0 <= i < |n.delivered| ==> DeliveryOk(n.delivered[i]))
  }

  // A frame that was relayed is never relayed again, whatever the node knows.
  lemma NoSecondRelay(d: Device, p: Packet, f: Frame, link: ReceivePeer)
    requires NodeOk(p.receiver, d) && PacketOk(p) && p.hops >= 1 && Parse(p.bytes) == Some(f) && link.id == p.sender
    ensures !Relays(d, link, f)
  {
  }

  lemma NextKeeps(n: Network, s: Step, m: Network)
    requires NetworkOk(n) && Next(n, s, m)
    ensures NetworkOk(m)
  {
    match s
    case Originate(node, dest, via, flags, frame) =>
      ParseHeader(flags, node, dest, frame);
    case Arrive(i, flags) =>
      ArriveKeeps(n, i, flags, m);
    case Lose(i) =>
    case Reconfigure(nodes) =>
  }

  lemma ArriveKeeps(n: Network, i: nat, flags: byte, m: Network)
    requires NetworkOk(n) && Next(n, Arrive(i, flags), m)
    ensures NetworkOk(m)
  {
    var p := n.flying[i];
    var d := n.nodes[p.receiver];
    assert NodeOk(p.receiver, d) && PacketOk(p);
    var link, f := LinkOf(d, p.sender), Parse(p.bytes);
    if link < |d.peers| && Relays(d, d.peers[link], f.value) {
      NoSecondRelayOrFirst(d, p, f.value, d.peers[link]);
      ParseHeader(flags, f.value.src, f.value.to.value, f.value.data);
    }
  }

  lemma NoSecondRelayOrFirst(d: Device, p: Packet, f: Frame, link: ReceivePeer)
    requires NodeOk(p.receiver, d) && PacketOk(p) && Parse(p.bytes) == Some(f) && link.id == p.sender
    requires Relays(d, link, f) && link in d.peers
    ensures p.hops == 0 && f.src == p.origin && f.to == Some(p.dest) && f.data == p.payload && p.receiver != p.origin
  {
    if p.hops >= 1 {
      NoSecondRelay(d, p, f, link);
    }
  }

  ghost predicate Run(n: Network, steps: seq<Step>, m: Network)
    decreases |steps|
  {
    if steps == [] then m == n else exists t :: Next(n, steps[0], t) && Run(t, steps[1..], m)
  }

  // In every run: each frame in flight has crossed at most one relay, and each frame that reached
  // a device is the one its origin sent to that device.
  lemma {:induction false} SingleRelayHop(n: Network, steps: seq<Step>, m: Network)
    requires NetworkOk(n) && Run(n, steps, m)
    ensures NetworkOk(m)
    ensures forall i :: 0 <= i < |m.flying| ==> m.flying[i].hops <= 1
    ensures forall i :: 0 <= i < |m.delivered| ==> DeliveryOk(m.delivered[i])
    decreases |steps|
  {
    if steps == [] {
      forall i | 0 <= i < |m.flying| ensures m.flying[i].hops <= 1 {
        assert PacketOk(m.flying[i]);
      }
    } else {
      var t :| Next(n, steps[0], t) && Run(t, steps[1..], m);
      NextKeeps(n, steps[0], t);
      SingleRelayHop(t, steps[1..], m);
    }
  }
}
