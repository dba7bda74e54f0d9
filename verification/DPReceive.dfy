// client/DPReceive.c: what a node does with a packet that arrives over the link of a peer, and
// the DataProto header (protocol/dataproto.h) it goes by.
module DPReceive {
  import opened Bytes
  import opened Wrappers
  import FragmentProto

  const FLAG_RECEIVING_KEEPALIVES: byte := 1

  // A parsed packet. `to` is None for a keep-alive.
  datatype Frame = Frame(flags: byte, src: nat, to: Option<nat>, data: seq<byte>)

  datatype ReceivePeer = ReceivePeer(id: nat, isRelayClient: bool)

  // ownId is None until the server has told the node its id.
  datatype Device = Device(ownId: Option<nat>, mtu: nat, peers: seq<ReceivePeer>)

  datatype Relayed = Relayed(src: nat, dst: nat, data: seq<byte>)

  // `received` is what the sink of the link is told, `local` the frame passed to the device.
  datatype Verdict = Verdict(received: Option<bool>, local: Option<(nat, seq<byte>)>, relay: Option<Relayed>)

  // The header DataProtoFlow_Route writes; the flags are set when the packet leaves.
  function Header(flags: byte, src: nat, dst: nat): (b: seq<byte>)
    requires src < 0x1_0000 && dst < 0x1_0000
    ensures |b| == 7
  {
    [flags] + FragmentProto.Le16(src) + FragmentProto.Le16(1) + FragmentProto.Le16(dst)
  }

  function Parse(b: seq<byte>): (f: Option<Frame>)
    ensures f.Some? ==> f.value.src < 0x1_0000 && (f.value.to.Some? ==> f.value.to.value < 0x1_0000)
  {
    if |b| < 5 then None
    else
      var src, count := FragmentProto.FromLe16(b[1], b[2]), FragmentProto.FromLe16(b[3], b[4]);
      if count == 0 then Some(Frame(b[0], src, None, b[5..]))
      else if count == 1 && |b| >= 7 then Some(Frame(b[0], src, Some(FragmentProto.FromLe16(b[5], b[6])), b[7..]))
      else None
  }

  lemma ParseHeader(flags: byte, src: nat, dst: nat, data: seq<byte>)
    requires src < 0x1_0000 && dst < 0x1_0000
    ensures Parse(Header(flags, src, dst) + data) == Some(Frame(flags, src, Some(dst), data))
  {
    var b := Header(flags, src, dst) + data;
    FragmentProto.Le16RoundTrip(src);
    FragmentProto.Le16RoundTrip(1);
    FragmentProto.Le16RoundTrip(dst);
    assert b[1..3] == FragmentProto.Le16(src) && b[3..5] == FragmentProto.Le16(1) && b[5..7] == FragmentProto.Le16(dst);
    assert b[7..] == data;
  }

  // A packet as it is written: a keep-alive names no destination, a frame names one.
  function Written(f: Frame): seq<byte>
    requires f.src < 0x1_0000 && (f.to.Some? ==> f.to.value < 0x1_0000)
  {
    match f.to
    case None => [f.flags] + FragmentProto.Le16(f.src) + FragmentProto.Le16(0) + f.data
    case Some(dst) => Header(f.flags, f.src, dst) + f.data
  }

  // Exactly the packets that were written so are parsed.
  lemma ParsesExactly(b: seq<byte>, f: Frame)
    ensures Parse(b) == Some(f) <==> f.src < 0x1_0000 && (f.to.Some? ==> f.to.value < 0x1_0000) && b == Written(f)
  {
    if Parse(b) == Some(f) {
      assert FragmentProto.Le16(f.src) == b[1..3];
      if f.to.None? {
        assert FragmentProto.Le16(0) == b[3..5];
      } else {
        assert FragmentProto.Le16(1) == b[3..5] && FragmentProto.Le16(f.to.value) == b[5..7];
      }
    }
    if f.src < 0x1_0000 && f.to.Some? && f.to.value < 0x1_0000 && b == Written(f) {
      ParseHeader(f.flags, f.src, f.to.value, f.data);
    }
    if f.src < 0x1_0000 && f.to.None? && b == Written(f) {
      FragmentProto.Le16RoundTrip(f.src);
      assert b[1..3] == FragmentProto.Le16(f.src) && b[3..5] == FragmentProto.Le16(0) && b[5..] == f.data;
    }
  }

  ghost predicate Known(d: Device, id: nat) {
    exists i :: 0 <= i < |d.peers| && d.peers[i].id == id
  }

  // find_peer: the first peer with the id
  method FindPeer(d: Device, id: nat) returns (r: Option<nat>)
    ensures r.Some? <==> Known(d, id)
    ensures r.Some? ==> r.value < |d.peers| && d.peers[r.value].id == id
  {
    var i := 0;
    while i < |d.peers|
      invariant 0 <= i <= |d.peers| && forall j :: 0 <= j < i ==> d.peers[j].id != id
    {
      if d.peers[i].id == id {
        return Some(i);
      }
      i := i + 1;
    }
    r := None;
  }

  // When a frame is for this node.
  ghost predicate Accepts(d: Device, f: Frame) {
    f.to.Some? && |f.data| <= d.mtu && Known(d, f.src) && d.ownId == f.to
  }

  // When a frame that came over the link of `link` is relayed: the peer may use relays, sent the
  // frame itself, and the destination is another known peer.
  ghost predicate Relays(d: Device, link: ReceivePeer, f: Frame) {
    && f.to.Some? && |f.data| <= d.mtu && d.ownId != f.to
    && link.isRelayClient && f.src == link.id && Known(d, f.to.value) && f.to.value != f.src
  }

  // receiver_recv_handler_send, for a packet over the link of peers[link]
  method ReceiverRecv(d: Device, link: nat, packet: seq<byte>) returns (v: Verdict)
    requires link < |d.peers|
    requires forall i, j :: 0 <= i < j < |d.peers| ==> d.peers[i].id != d.peers[j].id
    ensures var f := Parse(packet);
      && (v.received.Some? <==> f.Some? && |f.value.data| <= d.mtu)
      && (v.received.Some? ==> v.received.value == (f.value.flags % 2 == 1))
      && (v.local.Some? <==> f.Some? && Accepts(d, f.value))
      && (v.local.Some? ==> v.local.value == (f.value.src, f.value.data))
      && (v.relay.Some? <==> f.Some? && Relays(d, d.peers[link], f.value))
      && (v.relay.Some? ==> v.relay.value == Relayed(f.value.src, f.value.to.value, f.value.data))
  {
    v := Verdict(None, None, None);
    if |packet| < 5 {
      return;
    }
    var flags, src, count := packet[0], FragmentProto.FromLe16(packet[1], packet[2]), FragmentProto.FromLe16(packet[3], packet[4]);
    var data := packet[5..];
    if !(count == 0 || count == 1) {
      return;
    }
    var to := 0;
    if count == 1 {
      if |data| < 2 {
        return;
      }
      to := FragmentProto.FromLe16(data[0], data[1]);
      data := data[2..];
    }
    if |data| > d.mtu {
      return;
    }
    v := v.(received := Some(flags % 2 == FLAG_RECEIVING_KEEPALIVES));
    if count == 1 {
      var srcPeer := FindPeer(d, src);
      if srcPeer.None? {
        return;
      }
      if d.ownId.Some? && to == d.ownId.value {
        v := v.(local := Some((src, data)));
        return;
      }
      if !d.peers[link].isRelayClient {
        return;
      }
      if srcPeer.value != link {
        return;
      }
      var destPeer := FindPeer(d, to);
      if destPeer.None? {
        return;
      }
      if destPeer.value == srcPeer.value {
        return;
      }
      v := v.(relay := Some(Relayed(src, to, data)));
    }
  }
}
