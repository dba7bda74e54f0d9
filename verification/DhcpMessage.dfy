// The replies recv_handler_done of dhcpclient/BDHCPClientCore.c accepts (section 2 of RFC 2131,
// section 2 of RFC 2132).
module DhcpMessage {
  import opened Bytes
  import opened Wrappers
  import opened DhcpSpec

  const MAX_DOMAIN_NAME_SERVERS: nat := 16
  const HEADER_SIZE: nat := 240
  const MAGIC: seq<byte> := [0x63, 0x82, 0x53, 0x63]

  const SUBNET_MASK: byte := 1
  const ROUTER: byte := 3
  const DOMAIN_NAME_SERVER: byte := 6
  const LEASE_TIME: byte := 51
  const MESSAGE_TYPE: byte := 53
  const SERVER_IDENTIFIER: byte := 54

  // Big-endian numbers.
  function FromBe(b: seq<byte>): (n: nat) {
    if b == [] then 0 else 256 * FromBe(b[..|b| - 1]) + b[|b| - 1] as nat
  }

  datatype Opt = Opt(code: byte, value: seq<byte>)

  // The options of an option field: padding anywhere, and after the end option nothing else.
  function Options(b: seq<byte>, haveEnd: bool): Option<seq<Opt>> {
    if b == [] then if haveEnd then Some([]) else None
    else if b[0] == 0 then Options(b[1..], haveEnd)
    else if haveEnd then None
    else if b[0] == 0xff then Options(b[1..], true)
    else if |b| < 2 || b[1] as nat > |b| - 2 then None
    else
      var rest := Options(b[2 + b[1] as nat..], false);
      if rest.None? then None else Some([Opt(b[0], b[2..2 + b[1] as nat])] + rest.value)
  }

  datatype Info = Info(messageType: Option<nat>, serverId: Option<nat>, leaseTime: Option<nat>, subnetMask: Option<nat>,
                       router: Option<nat>, dns: seq<nat>)

  const NO_INFO := Info(None, None, None, None, None, [])

  // The first addresses of a list, as many as there is place for.
  function Addresses(b: seq<byte>, max: nat): (a: seq<nat>)
    decreases max
  {
    if |b| < 4 || max == 0 then [] else [FromBe(b[..4])] + Addresses(b[4..], max - 1)
  }

  // The size a known option must have.
  predicate WellSized(o: Opt) {
    if o.code == MESSAGE_TYPE then |o.value| == 1
    else if o.code in {SERVER_IDENTIFIER, LEASE_TIME, SUBNET_MASK, ROUTER} then |o.value| == 4
    else if o.code == DOMAIN_NAME_SERVER then |o.value| % 4 == 0
    else true
  }

  function Take(info: Info, o: Opt): Info {
    if o.code == MESSAGE_TYPE then info.(messageType := Some(FromBe(o.value)))
    else if o.code == SERVER_IDENTIFIER then info.(serverId := Some(FromBe(o.value)))
    else if o.code == LEASE_TIME then info.(leaseTime := Some(FromBe(o.value)))
    else if o.code == SUBNET_MASK then info.(subnetMask := Some(FromBe(o.value)))
    else if o.code == ROUTER then info.(router := Some(FromBe(o.value)))
    else if o.code == DOMAIN_NAME_SERVER then info.(dns := Addresses(o.value, MAX_DOMAIN_NAME_SERVERS))
    else info
  }

  function Collect(info: Info, opts: seq<Opt>): Option<Info>
    decreases |opts|
  {
    if opts == [] then Some(info)
    else if !WellSized(opts[0]) then None
    else Collect(Take(info, opts[0]), opts[1..])
  }

  function Continue(info: Info, b: seq<byte>, haveEnd: bool): Option<Info> {
    var opts := Options(b, haveEnd);
    if opts.None? then None else Collect(info, opts.value)
  }

  predicate HeaderOk(mac: seq<byte>, b: seq<byte>) {
    |b| >= HEADER_SIZE && b[0] == 2 && b[1] == 1 && b[2] == 6 && b[28..34] == mac && b[236..240] == MAGIC
  }

  // struct dhcp_header and the options; the xid is compared by the caller.
  function Parse(mac: seq<byte>, b: seq<byte>): Option<Reply>
    requires |mac| == 6
  {
    if !HeaderOk(mac, b) then None
    else ReplyOf(FromBe(b[4..8]), FromBe(b[16..20]), Continue(NO_INFO, b[HEADER_SIZE..], false))
  }

  function ReplyOf(xid: nat, yiaddr: nat, info: Option<Info>): Option<Reply> {
    if info.None? || info.value.messageType.None? || KindOf(info.value.messageType.value).None? || info.value.serverId.None? then None
    else
      var i := info.value;
      Some(Reply(KindOf(i.messageType.value).value, xid, yiaddr, i.serverId.value, i.leaseTime, i.subnetMask, i.router, i.dns))
  }

  function KindOf(messageType: nat): Option<Kind> {
    if messageType == 2 then Some(Offer)
    else if messageType == 5 then Some(Ack)
    else if messageType == 6 then Some(Nak)
    else None
  }

  // The bytes of options, with `pads` zero bytes before each, before the end and after it.
  function Write(opts: seq<Opt>, pads: seq<nat>): seq<byte>
    requires |pads| == |opts| + 2
    requires forall o <- opts :: Writable(o)
  {
    if opts == [] then Pad(pads[0]) + [0xff] + Pad(pads[1])
    else Pad(pads[0]) + WriteOption(opts[0]) + Write(opts[1..], pads[1..])
  }

  function WriteOption(o: Opt): seq<byte>
    requires Writable(o)
  {
    [o.code, |o.value| as byte] + o.value
  }

  predicate Writable(o: Opt) {
    0 < o.code < 0xff && |o.value| < 256
  }

  function Pad(n: nat): (b: seq<byte>)
    ensures |b| == n && forall i :: 0 <= i < n ==> b[i] == 0
  {
    seq(n, _ => 0)
  }

  lemma {:induction false} SkipPad(n: nat, b: seq<byte>, haveEnd: bool)
    ensures Options(Pad(n) + b, haveEnd) == Options(b, haveEnd)
    decreases n
  {
    if n == 0 {
      assert Pad(0) + b == b;
    } else {
      assert (Pad(n) + b)[1..] == Pad(n - 1) + b;
      SkipPad(n - 1, b, haveEnd);
    }
  }

  // What is written is parsed.
  lemma {:induction false} WrittenParses(opts: seq<Opt>, pads: seq<nat>)
    requires |pads| == |opts| + 2 && forall o <- opts :: Writable(o)
    ensures Options(Write(opts, pads), false) == Some(opts)
    decreases |opts|
  {
    if opts == [] {
      var rest := [0xff] + Pad(pads[1]);
      assert Write(opts, pads) == Pad(pads[0]) + rest;
      SkipPad(pads[0], rest, false);
      assert rest[1..] == Pad(pads[1]) + [];
      SkipPad(pads[1], [], true);
    } else {
      var o, tail := opts[0], Write(opts[1..], pads[1..]);
      var rest := WriteOption(o) + tail;
      assert Write(opts, pads) == Pad(pads[0]) + rest;
      SkipPad(pads[0], rest, false);
      assert rest[2..2 + |o.value|] == o.value && rest[2 + |o.value|..] == tail;
      assert rest[0] == o.code && rest[1] as nat == |o.value|;
      WrittenParses(opts[1..], pads[1..]);
      assert opts == [o] + opts[1..];
    }
  }

  lemma MorePad(opts: seq<Opt>, pads: seq<nat>)
    requires |pads| == |opts| + 2 && forall o <- opts :: Writable(o)
    ensures Write(opts, pads[0 := pads[0] + 1]) == [0] + Write(opts, pads)
  {
    assert Pad(pads[0] + 1) == [0] + Pad(pads[0]);
    assert pads[0 := pads[0] + 1][1..] == pads[1..];
  }

  lemma OptionFirst(b: seq<byte>, o: Opt, rest: seq<byte>)
    requires |b| >= 2 && 0 < b[0] < 0xff && b[1] as nat <= |b| - 2
    requires o == Opt(b[0], b[2..2 + b[1] as nat]) && rest == b[2 + b[1] as nat..]
    ensures Writable(o) && b == Pad(0) + WriteOption(o) + rest
  {
  }

  // The padding of an option field that parses.
  lemma {:induction false} ParsedWasWritten(b: seq<byte>, opts: seq<Opt>) returns (pads: seq<nat>)
    requires Options(b, false) == Some(opts)
    ensures |pads| == |opts| + 2 && (forall o <- opts :: Writable(o)) && b == Write(opts, pads)
    decreases |b|
  {
    hide Write, WriteOption;
    if b[0] == 0 {
      var rest := ParsedWasWritten(b[1..], opts);
      pads := rest[0 := rest[0] + 1];
      MorePad(opts, rest);
      assert b == [0] + b[1..];
    } else if b[0] == 0xff {
      OnlyPad(b[1..], opts);
      pads := [0, |b| - 1];
      EndFirst(b);
    } else {
      var n := b[1] as nat;
      var rest := ParsedWasWritten(b[2 + n..], opts[1..]);
      pads := [0] + rest;
      OptionFirst(b, opts[0], b[2 + n..]);
      assert opts == [opts[0]] + opts[1..];
      WriteFirst(opts, rest);
    }
  }

  lemma WriteFirst(opts: seq<Opt>, rest: seq<nat>)
    requires opts != [] && |rest| == |opts| + 1 && forall o <- opts :: Writable(o)
    ensures Write(opts, [0] + rest) == Pad(0) + WriteOption(opts[0]) + Write(opts[1..], rest)
  {
    assert ([0] + rest)[1..] == rest;
  }

  lemma EndFirst(b: seq<byte>)
    requires b != [] && b[0] == 0xff && b[1..] == Pad(|b| - 1)
    ensures b == Write([], [0, |b| - 1])
  {
  }

  lemma {:induction false} OnlyPad(b: seq<byte>, opts: seq<Opt>)
    requires Options(b, true) == Some(opts)
    ensures opts == [] && b == Pad(|b|)
    decreases |b|
  {
    if b != [] {
      OnlyPad(b[1..], opts);
    }
  }

  // An option field parses exactly when it consists of options, one end and padding.
  lemma OptionsIffWritten(b: seq<byte>, opts: seq<Opt>)
    ensures Options(b, false) == Some(opts) <==>
      (forall o <- opts :: Writable(o)) && exists pads: seq<nat> | |pads| == |opts| + 2 :: b == Write(opts, pads)
  {
    if Options(b, false) == Some(opts) {
      var pads := ParsedWasWritten(b, opts);
      assert |pads| == |opts| + 2;
    }
    if (forall o <- opts :: Writable(o)) && exists pads: seq<nat> | |pads| == |opts| + 2 :: b == Write(opts, pads) {
      var pads: seq<nat> :| |pads| == |opts| + 2 && b == Write(opts, pads);
      WrittenParses(opts, pads);
    }
  }

  // The value of the last option with a code.
  function LastValue(opts: seq<Opt>, code: byte): Option<seq<byte>> {
    if opts == [] then None
    else if LastValue(opts[1..], code).Some? then LastValue(opts[1..], code)
    else if opts[0].code == code then Some(opts[0].value)
    else None
  }

  function NumberOf(value: Option<seq<byte>>, default: Option<nat>): Option<nat> {
    if value.Some? then Some(FromBe(value.value)) else default
  }

  // Options are accepted exactly when every known one has its size, and the last of each counts.
  lemma {:induction false} LastOptionCounts(info: Info, opts: seq<Opt>)
    ensures Collect(info, opts) ==
      if exists o <- opts :: !WellSized(o) then None
      else Some(Info(
        NumberOf(LastValue(opts, MESSAGE_TYPE), info.messageType), NumberOf(LastValue(opts, SERVER_IDENTIFIER), info.serverId),
        NumberOf(LastValue(opts, LEASE_TIME), info.leaseTime), NumberOf(LastValue(opts, SUBNET_MASK), info.subnetMask),
        NumberOf(LastValue(opts, ROUTER), info.router),
        var dns := LastValue(opts, DOMAIN_NAME_SERVER);
        if dns.Some? then Addresses(dns.value, MAX_DOMAIN_NAME_SERVERS) else info.dns))
    decreases |opts|
  {
    if opts != [] {
      assert opts == [opts[0]] + opts[1..];
      if WellSized(opts[0]) {
        LastOptionCounts(Take(info, opts[0]), opts[1..]);
      }
    }
  }

  // The reply says what the last options of each kind say.
  predicate Describes(r: Reply, opts: seq<Opt>) {
    && LastValue(opts, MESSAGE_TYPE).Some? && KindOf(FromBe(LastValue(opts, MESSAGE_TYPE).value)) == Some(r.kind)
    && NumberOf(LastValue(opts, SERVER_IDENTIFIER), None) == Some(r.serverId)
    && r.leaseTime == NumberOf(LastValue(opts, LEASE_TIME), None)
    && r.subnetMask == NumberOf(LastValue(opts, SUBNET_MASK), None)
    && r.router == NumberOf(LastValue(opts, ROUTER), None)
    && var dns := LastValue(opts, DOMAIN_NAME_SERVER);
      r.dns == if dns.Some? then Addresses(dns.value, MAX_DOMAIN_NAME_SERVERS) else []
  }

  predicate OptionField(b: seq<byte>, opts: seq<Opt>, pads: seq<nat>) {
    (forall o <- opts :: Writable(o)) && |pads| == |opts| + 2 && b == Write(opts, pads)
  }

  // A packet is taken as a reply exactly when its header is that of a reply to this client and
  // its option field consists of options of the right sizes that describe the reply.
  lemma AcceptedExactly(mac: seq<byte>, b: seq<byte>, r: Reply)
    requires |mac| == 6
    ensures Parse(mac, b) == Some(r) <==>
      && HeaderOk(mac, b) && r.xid == FromBe(b[4..8]) && r.yiaddr == FromBe(b[16..20])
      && exists opts, pads | OptionField(b[HEADER_SIZE..], opts, pads) :: (forall o <- opts :: WellSized(o)) && Describes(r, opts)
  {
    if HeaderOk(mac, b) {
      var field := b[HEADER_SIZE..];
      hide Write, WellSized, Writable;
      if Parse(mac, b) == Some(r) {
        var opts := Options(field, false).value;
        var pads := ParsedWasWritten(field, opts);
        LastOptionCounts(NO_INFO, opts);
        assert OptionField(field, opts, pads);
      }
      if opts, pads :| OptionField(field, opts, pads) && (forall o <- opts :: WellSized(o)) && Describes(r, opts) {
        WrittenParses(opts, pads);
        LastOptionCounts(NO_INFO, opts);
      }
    }
  }
}
