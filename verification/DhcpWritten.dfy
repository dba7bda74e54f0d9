// A reply as a server writes it (section 2 of RFC 2131, section 3 of RFC 2132) is read back.
module DhcpWritten {
  import opened Bytes
  import opened Wrappers
  import opened DhcpSpec
  import opened DhcpMessage

  // Network byte order: the most significant byte first.
  function ToBe(n: nat, width: nat): (b: seq<byte>)
    ensures |b| == width
    decreases width
  {
    if width == 0 then [] else ToBe(n / 256, width - 1) + [(n % 256) as byte]
  }

  lemma {:induction false} BeRoundTrip(n: nat, width: nat)
    requires n < Range(width)
    ensures FromBe(ToBe(n, width)) == n
    decreases width
  {
    if width > 0 {
      BeRoundTrip(n / 256, width - 1);
      assert ToBe(n, width)[..width - 1] == ToBe(n / 256, width - 1);
    }
  }

  lemma OneByte(b: byte)
    ensures FromBe([b]) == b as nat
  {
    assert [b][..0] == [];
    assert FromBe([]) == 0;
  }

  predicate Fits32(n: nat) {
    n < 0x1_0000_0000
  }

  lemma Be32(n: nat)
    requires Fits32(n)
    ensures FromBe(ToBe(n, 4)) == n
  {
    Range4();
    BeRoundTrip(n, 4);
  }

  // What a server can say, with room for its DNS addresses in the client.
  ghost predicate Sayable(r: Reply) {
    && Fits32(r.xid) && Fits32(r.yiaddr) && Fits32(r.serverId)
    && (r.leaseTime.Some? ==> Fits32(r.leaseTime.value)) && (r.subnetMask.Some? ==> Fits32(r.subnetMask.value))
    && (r.router.Some? ==> Fits32(r.router.value))
    && |r.dns| <= 16 && forall i :: 0 <= i < |r.dns| ==> Fits32(r.dns[i])
  }

  // DHCPOFFER, DHCPACK and DHCPNAK
  function TypeCode(k: Kind): byte {
    match k
    case Offer => 2
    case Ack => 5
    case Nak => 6
  }

  // Only these message types are taken.
  lemma KindsExactly(messageType: nat, k: Kind)
    ensures KindOf(messageType) == Some(k) <==> messageType == TypeCode(k) as nat
  {
  }

  // The sizes RFC 2132 gives the options the client knows: of the message type (53), of the mask,
  // the router, the lease time and the server identifier (1, 3, 51, 54), and of the DNS servers (6).
  lemma SizesMean(o: Opt)
    ensures WellSized(o) <==>
      && (o.code == 53 ==> |o.value| == 1)
      && (o.code == 1 || o.code == 3 || o.code == 51 || o.code == 54 ==> |o.value| == 4)
      && (o.code == 6 ==> |o.value| % 4 == 0)
  {
  }

  function AddressList(dns: seq<nat>): (b: seq<byte>)
    ensures |b| == 4 * |dns|
  {
    if dns == [] then [] else ToBe(dns[0], 4) + AddressList(dns[1..])
  }

  function NumberOption(code: byte, n: Option<nat>): seq<Opt> {
    if n.Some? then [Opt(code, ToBe(n.value, 4))] else []
  }

  // The options of the reply: 53 is the message type, 54 the server, 51 the lease time, 1 the
  // subnet mask, 3 the router, 6 the DNS servers.
  function OptionsOf(r: Reply): seq<Opt> {
    [Opt(53, [TypeCode(r.kind)])] + [Opt(54, ToBe(r.serverId, 4))]
    + NumberOption(51, r.leaseTime) + NumberOption(1, r.subnetMask) + NumberOption(3, r.router)
    + (if r.dns == [] then [] else [Opt(6, AddressList(r.dns))])
  }

  // What the client does not look at: hops, the fields around yiaddr, and those after the address
  // of the client.
  datatype Rest = Rest(hops: byte, before: seq<byte>, after: seq<byte>, tail: seq<byte>) {
    predicate Valid() {
      |before| == 8 && |after| == 8 && |tail| == 202
    }
  }

  // BOOTREPLY over Ethernet, with 6 bytes of hardware address, and the magic cookie 99.130.83.99
  function HeaderOf(r: Reply, mac: seq<byte>, rest: Rest): seq<byte> {
    [2, 1, 6, rest.hops] + ToBe(r.xid, 4) + rest.before + ToBe(r.yiaddr, 4) + rest.after + mac + rest.tail + [99, 130, 83, 99]
  }

  lemma {:induction false} CollectAppend(info: Info, a: seq<Opt>, b: seq<Opt>)
    ensures Collect(info, a + b) == if Collect(info, a).None? then None else Collect(Collect(info, a).value, b)
    decreases |a|
  {
    if a == [] {
      assert a + b == b;
    } else {
      assert (a + b)[1..] == a[1..] + b;
      if WellSized(a[0]) {
        CollectAppend(Take(info, a[0]), a[1..], b);
      }
    }
  }

  lemma CollectOne(info: Info, o: Opt)
    ensures Collect(info, [o]) == if WellSized(o) then Some(Take(info, o)) else None
  {
    assert [o][1..] == [];
  }

  lemma {:induction false} AddressesRoundTrip(dns: seq<nat>, max: nat)
    requires |dns| <= max && forall i :: 0 <= i < |dns| ==> Fits32(dns[i])
    ensures Addresses(AddressList(dns), max) == dns
    decreases max
  {
    if dns != [] {
      var b := AddressList(dns);
      assert b[..4] == ToBe(dns[0], 4) && b[4..] == AddressList(dns[1..]);
      Be32(dns[0]);
      AddressesRoundTrip(dns[1..], max - 1);
      assert dns == [dns[0]] + dns[1..];
    }
  }

  lemma NumberCollected(info: Info, code: byte, n: Option<nat>)
    requires code in {LEASE_TIME, SUBNET_MASK, ROUTER, SERVER_IDENTIFIER} && (n.Some? ==> Fits32(n.value))
    ensures Collect(info, NumberOption(code, n)) == Some(
      if n.None? then info
      else if code == LEASE_TIME then info.(leaseTime := n)
      else if code == SUBNET_MASK then info.(subnetMask := n)
      else if code == ROUTER then info.(router := n)
      else info.(serverId := n))
  {
    if n.Some? {
      Be32(n.value);
      CollectOne(info, Opt(code, ToBe(n.value, 4)));
    }
  }

  lemma DnsCollected(info: Info, dns: seq<nat>)
    requires info.dns == [] && |dns| <= 16 && forall i :: 0 <= i < |dns| ==> Fits32(dns[i])
    ensures Collect(info, if dns == [] then [] else [Opt(6, AddressList(dns))]) == Some(info.(dns := dns))
  {
    hide Addresses, AddressList, Fits32, FromBe, ToBe;
    if dns != [] {
      AddressesRoundTrip(dns, 16);
      CollectOne(info, Opt(6, AddressList(dns)));
    }
  }

  function InfoOf(r: Reply): Info {
    Info(Some(TypeCode(r.kind) as nat), Some(r.serverId), r.leaseTime, r.subnetMask, r.router, r.dns)
  }

  lemma OptionsCollected(r: Reply)
    requires Sayable(r)
    ensures Collect(NO_INFO, OptionsOf(r)) == Some(InfoOf(r))
  {
    var i := InfoOf(r);
    var k, s := [Opt(53, [TypeCode(r.kind)])], NumberOption(54, Some(r.serverId));
    var l, m, g := NumberOption(51, r.leaseTime), NumberOption(1, r.subnetMask), NumberOption(3, r.router);
    var d: seq<Opt> := if r.dns == [] then [] else [Opt(6, AddressList(r.dns))];
    assert OptionsOf(r) == k + s + l + m + g + d;
    OneByte(TypeCode(r.kind));
    CollectOne(NO_INFO, k[0]);
    var known := NO_INFO.(messageType := i.messageType);
    NumberCollected(known, 54, Some(r.serverId));
    NumberCollected(known.(serverId := i.serverId), 51, r.leaseTime);
    NumberCollected(known.(serverId := i.serverId, leaseTime := i.leaseTime), 1, r.subnetMask);
    NumberCollected(i.(dns := [], router := None), 3, r.router);
    DnsCollected(i.(dns := []), r.dns);
    hide Collect, NumberOption, AddressList;
    CollectAppend(NO_INFO, k, s);
    CollectAppend(NO_INFO, k + s, l);
    CollectAppend(NO_INFO, k + s + l, m);
    CollectAppend(NO_INFO, k + s + l + m, g);
    CollectAppend(NO_INFO, k + s + l + m + g, d);
  }

  lemma OptionsWritable(r: Reply)
    requires Sayable(r)
    ensures forall o <- OptionsOf(r) :: Writable(o)
  {
  }

  // A reply to this client, written with any padding between its options, is read back as it is.
  lemma WrittenReplyIsRead(r: Reply, mac: seq<byte>, rest: Rest, pads: seq<nat>)
    requires Sayable(r) && |mac| == 6 && rest.Valid() && |pads| == |OptionsOf(r)| + 2
    ensures forall o <- OptionsOf(r) :: Writable(o)
    ensures Parse(mac, HeaderOf(r, mac, rest) + Write(OptionsOf(r), pads)) == Some(r)
  {
    OptionsWritable(r);
    FieldReads(r, pads);
    hide OptionsOf, Sayable, Continue, Write, HeaderOk, FromBe, HeaderOf, ReplyOf, Writable;
    var field := Write(OptionsOf(r), pads);
    HeaderReads(r, mac, rest, field);
    InfoReads(r);
  }

  lemma FieldReads(r: Reply, pads: seq<nat>)
    requires Sayable(r) && |pads| == |OptionsOf(r)| + 2
    ensures forall o <- OptionsOf(r) :: Writable(o)
    ensures Fits32(r.xid) && Fits32(r.yiaddr) && Continue(NO_INFO, Write(OptionsOf(r), pads), false) == Some(InfoOf(r))
  {
    OptionsWritable(r);
    OptionsCollected(r);
    hide OptionsOf, Collect, Options, Write, Writable;
    WrittenParses(OptionsOf(r), pads);
  }

  lemma InfoReads(r: Reply)
    ensures ReplyOf(r.xid, r.yiaddr, Some(InfoOf(r))) == Some(r)
  {
  }

  lemma HeaderReads(r: Reply, mac: seq<byte>, rest: Rest, field: seq<byte>)
    requires Fits32(r.xid) && Fits32(r.yiaddr) && |mac| == 6 && rest.Valid()
    ensures var b := HeaderOf(r, mac, rest) + field;
      HeaderOk(mac, b) && FromBe(b[4..8]) == r.xid && FromBe(b[16..20]) == r.yiaddr && b[HEADER_SIZE..] == field
  {
    hide FromBe, ToBe;
    var b := HeaderOf(r, mac, rest) + field;
    Be32(r.xid);
    Be32(r.yiaddr);
    assert b[4..8] == ToBe(r.xid, 4) && b[16..20] == ToBe(r.yiaddr, 4);
    assert b[28..34] == mac && b[236..240] == [99, 130, 83, 99] && b[HEADER_SIZE..] == field;
  }
}
