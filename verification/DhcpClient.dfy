// dhcpclient/BDHCPClientCore.c: the object, and the up flag of dhcpclient/BDHCPClient.c.
module DhcpClient {
  import opened Bytes
  import opened Wrappers
  import opened DhcpSpec
  import opened DhcpMessage
  import opened DhcpSafety

  lemma AddressesStep(addresses: seq<nat>, value: seq<byte>, i: nat, max: nat)
    requires 4 * i + 4 <= |value| && max > 0
    ensures addresses + Addresses(value[4 * i..], max) ==
      (addresses + [FromBe(value[4 * i..4 * i + 4])]) + Addresses(value[4 * (i + 1)..], max - 1)
  {
    var rest := value[4 * i..];
    assert rest[..4] == value[4 * i..4 * i + 4] && rest[4..] == value[4 * (i + 1)..];
  }

  // The loop over the domain name servers.
  method ReadAddresses(value: seq<byte>) returns (addresses: seq<nat>)
    requires |value| % 4 == 0
    ensures addresses == Addresses(value, MAX_DOMAIN_NAME_SERVERS)
  {
    var numServers := |value| / 4;
    addresses := [];
    var i := 0;
    while i < numServers && i < MAX_DOMAIN_NAME_SERVERS
      invariant 0 <= i <= numServers && i <= MAX_DOMAIN_NAME_SERVERS
      invariant addresses + Addresses(value[4 * i..], MAX_DOMAIN_NAME_SERVERS - i) == Addresses(value, MAX_DOMAIN_NAME_SERVERS)
    {
      AddressesStep(addresses, value, i, MAX_DOMAIN_NAME_SERVERS - i);
      addresses := addresses + [FromBe(value[4 * i..4 * i + 4])];
      i := i + 1;
    }
  }

  // The switch on an option's type.
  method TakeOption(info: Info, o: Opt) returns (taken: Option<Info>)
    ensures taken == if WellSized(o) then Some(Take(info, o)) else None
  {
    if o.code == MESSAGE_TYPE {
      if |o.value| != 1 {
        return None;
      }
      taken := Some(info.(messageType := Some(FromBe(o.value))));
    } else if o.code == SERVER_IDENTIFIER {
      if |o.value| != 4 {
        return None;
      }
      taken := Some(info.(serverId := Some(FromBe(o.value))));
    } else if o.code == LEASE_TIME {
      if |o.value| != 4 {
        return None;
      }
      taken := Some(info.(leaseTime := Some(FromBe(o.value))));
    } else if o.code == SUBNET_MASK {
      if |o.value| != 4 {
        return None;
      }
      taken := Some(info.(subnetMask := Some(FromBe(o.value))));
    } else if o.code == ROUTER {
      if |o.value| != 4 {
        return None;
      }
      taken := Some(info.(router := Some(FromBe(o.value))));
    } else if o.code == DOMAIN_NAME_SERVER {
      if |o.value| % 4 != 0 {
        return None;
      }
      var addresses := ReadAddresses(o.value);
      taken := Some(info.(dns := addresses));
    } else {
      taken := Some(info);
    }
  }

  // One round of the loop over the options.
  lemma ContinueStep(info: Info, b: seq<byte>, haveEnd: bool)
    requires b != []
    ensures b[0] == 0 ==> Continue(info, b, haveEnd) == Continue(info, b[1..], haveEnd)
    ensures b[0] != 0 && haveEnd ==> Continue(info, b, haveEnd).None?
    ensures b[0] == 0xff && !haveEnd ==> Continue(info, b, haveEnd) == Continue(info, b[1..], true)
    ensures b[0] != 0 && b[0] != 0xff && (|b| < 2 || b[1] as nat > |b| - 2) ==> Continue(info, b, haveEnd).None?
    ensures b[0] != 0 && b[0] != 0xff && !haveEnd && |b| >= 2 && b[1] as nat <= |b| - 2 ==>
      var o := Opt(b[0], b[2..2 + b[1] as nat]);
      if WellSized(o) then Continue(info, b, haveEnd) == Continue(Take(info, o), b[2 + b[1] as nat..], false)
      else Continue(info, b, haveEnd).None?
  {
  }

  // The loop over the options of a packet in the receive buffer.
  method ParseOptions(buf: array<byte>, start: nat, dataLen: nat) returns (info: Option<Info>)
    requires start <= dataLen <= buf.Length
    ensures info == Continue(NO_INFO, buf[start..dataLen], false)
  {
    hide Continue, WellSized, Take;
    var pos, len, haveEnd, collected := start, dataLen - start, false, NO_INFO;
    while len > 0
      invariant start <= pos <= dataLen && pos + len == dataLen
      invariant Continue(collected, buf[pos..dataLen], haveEnd) == Continue(NO_INFO, buf[start..dataLen], false)
    {
      ghost var rest := buf[pos..dataLen];
      ContinueStep(collected, rest, haveEnd);
      assert rest[1..] == buf[pos + 1..dataLen];
      if buf[pos] == 0 {
        pos, len := pos + 1, len - 1;
        continue;
      }
      if haveEnd {
        return None;
      }
      if buf[pos] == 0xff {
        pos, len, haveEnd := pos + 1, len - 1, true;
        continue;
      }
      if len < 2 {
        return None;
      }
      var code, size := buf[pos], buf[pos + 1] as nat;
      pos, len := pos + 2, len - 2;
      if size > len {
        return None;
      }
      var value := buf[pos..pos + size];
      assert value == rest[2..2 + size] && buf[pos + size..dataLen] == rest[2 + size..];
      pos, len := pos + size, len - size;
      var taken := TakeOption(collected, Opt(code, value));
      if taken.None? {
        return None;
      }
      collected := taken.value;
    }
    AtEnd(collected, buf[pos..dataLen], haveEnd);
    info := if haveEnd then Some(collected) else None;
  }

  lemma AtEnd(info: Info, b: seq<byte>, haveEnd: bool)
    requires b == []
    ensures Continue(info, b, haveEnd) == if haveEnd then Some(info) else None
  {
  }

  // The checks of recv_handler_done that do not depend on the client's state.
  method ParseReply(mac: seq<byte>, buf: array<byte>, dataLen: nat) returns (reply: Option<Reply>)
    requires |mac| == 6 && dataLen <= buf.Length
    ensures reply == Parse(mac, buf[..dataLen])
  {
    hide Continue;
    if dataLen < HEADER_SIZE {
      return None;
    }
    HeaderParts(buf[..], dataLen);
    if buf[0] != 2 || buf[1] != 1 || buf[2] != 6 || buf[28..34] != mac || buf[236..240] != MAGIC {
      return None;
    }
    var info := ParseOptions(buf, HEADER_SIZE, dataLen);
    reply := ReplyOf(FromBe(buf[4..8]), FromBe(buf[16..20]), info);
  }

  lemma HeaderParts(buf: seq<byte>, dataLen: nat)
    requires HEADER_SIZE <= dataLen <= |buf|
    ensures var b := buf[..dataLen];
      && b[28..34] == buf[28..34] && b[236..240] == buf[236..240] && b[4..8] == buf[4..8] && b[16..20] == buf[16..20]
      && b[HEADER_SIZE..] == buf[HEADER_SIZE..dataLen]
  {
  }

  class Core {
    const clientMac: seq<byte>
    // The reactor's time and the greatest delay with which it fires timers.
    var now: nat
    ghost const delay: nat
    var phase: Phase
    var resetTimer: Option<nat>
    var requestTimer: Option<nat>
    var renewTimer: Option<nat>
    var renewRequestTimer: Option<nat>
    var leaseTimer: Option<nat>
    var sending: bool
    var requestCount: nat
    var xid: nat
    var xidReuseCounter: nat
    var offered: Offered
    var acked: Acked
    // BDHCPClient's flag
    var up: bool
    ghost var reports: seq<Report>
    ghost var sent: seq<Message>
    ghost var starts: seq<Start>
    ghost var ackTime: nat

    ghost function State(): State
      reads this
    {
      DhcpSpec.State(now, phase, Timers(resetTimer, requestTimer, renewTimer, renewRequestTimer, leaseTimer), sending,
                     requestCount, xid, xidReuseCounter, offered, acked, reports, sent, starts, ackTime)
    }

    ghost predicate Valid()
      reads this
    {
      |clientMac| == 6 && DhcpSafety.Valid(State(), delay) && (up <==> IsUp(State()))
    }

    // The timers and the flag are those of the phase.
    ghost predicate Consistent()
      reads this
    {
      TimersOfPhase(phase, State().timers) && (up <==> IsUp(State()))
    }

    constructor (clientMac: seq<byte>, now: nat, newXid: Option<nat>, ghost delay: nat)
      requires |clientMac| == 6
      ensures Valid() && State() == Init(now, newXid) && this.delay == delay
    {
      this.clientMac, this.now, this.delay, this.phase := clientMac, now, delay, Resetting;
      resetTimer, requestTimer, renewTimer, renewRequestTimer, leaseTimer := None, None, None, None, None;
      sending, requestCount, xid, xidReuseCounter := false, 0, 0, 0;
      offered, acked, up := Offered(0, 0), Acked(0, 0, None, [], 0), false;
      reports, sent, starts, ackTime := [], [], [], now;
      new;
      StartProcess(true, newXid);
      InitValid(now, newXid, delay);
    }

    // send_message, up to the bytes of the message
    method SendMessage(m: Message)
      modifies this`sending, this`sent
      ensures State() == DhcpSpec.SendMessage(old(State()), m)
    {
      if sending {
        return;
      }
      sending, sent := true, sent + [m];
    }

    // BReactor_SetTimer, BReactor_SetTimerAfter and BReactor_RemoveTimer
    method SetResetTimer(at: Option<nat>)
      modifies this`resetTimer
      ensures State() == old(State()).(timers := old(State()).timers.(reset := at))
    {
      resetTimer := at;
    }

    method SetRequestTimer(at: Option<nat>)
      modifies this`requestTimer
      ensures State() == old(State()).(timers := old(State()).timers.(request := at))
    {
      requestTimer := at;
    }

    method SetRenewTimer(at: Option<nat>)
      modifies this`renewTimer
      ensures State() == old(State()).(timers := old(State()).timers.(renew := at))
    {
      renewTimer := at;
    }

    method SetRenewRequestTimer(at: Option<nat>)
      modifies this`renewRequestTimer
      ensures State() == old(State()).(timers := old(State()).timers.(renewRequest := at))
    {
      renewRequestTimer := at;
    }

    method SetLeaseTimer(at: Option<nat>)
      modifies this`leaseTimer
      ensures State() == old(State()).(timers := old(State()).timers.(lease := at))
    {
      leaseTimer := at;
    }

    method Enter(next: Phase)
      modifies this`phase
      ensures State() == old(State()).(phase := next)
    {
      phase := next;
    }

    method StartProcess(forceNewXid: bool, newXid: Option<nat>)
      modifies this`xid, this`xidReuseCounter, this`starts, this`sending, this`sent, this`resetTimer, this`phase
      ensures State() == DhcpSpec.StartProcess(old(State()), forceNewXid, newXid)
    {
      ghost var generation := LastGeneration(State());
      if forceNewXid || xidReuseCounter == XID_REUSE_MAX {
        xid := GenerateXid(newXid);
        xidReuseCounter := 0;
        generation := generation + 1;
      } else if starts == [] {
        generation := 0;
      }
      xidReuseCounter := xidReuseCounter + 1;
      starts := starts + [Start(generation, xid)];
      SendMessage(Discover(xid));
      SetResetTimer(Some(now + RESET_TIMEOUT));
      Enter(SentDiscover);
    }

    method ReportUp()
      requires !up
      modifies this`up, this`reports
      ensures up && reports == old(reports) + [Up]
    {
      up, reports := true, reports + [Up];
    }

    method ReportDown()
      requires up
      modifies this`up, this`reports
      ensures !up && reports == old(reports) + [Down]
    {
      up, reports := false, reports + [Down];
    }

    method SendHandlerDone()
      requires Valid() && sending
      modifies this`sending
      ensures Valid() && State() == Step(old(State()), SendDone)
    {
      StepKeepsValid(State(), SendDone, delay);
      hide DhcpSafety.Valid, OnResetTimer, OnRequestTimer, OnRenewTimer, OnRenewRequestTimer, OnLeaseTimer, ReceiveReply, DhcpSpec.StartProcess;
      sending := false;
    }

    // Time passes, as far as the reactor lets it before it fires a timer.
    method Advance(dt: nat)
      requires Valid() && OnTime(State().timers, now + dt, delay)
      modifies this`now
      ensures Valid() && State() == Step(old(State()), DhcpSpec.Advance(dt))
    {
      StepKeepsValid(State(), DhcpSpec.Advance(dt), delay);
      hide DhcpSafety.Valid, OnResetTimer, OnRequestTimer, OnRenewTimer, OnRenewRequestTimer, OnLeaseTimer, ReceiveReply, DhcpSpec.StartProcess;
      now := now + dt;
    }

    method ResetTimerHandler(newXid: Option<nat>)
      requires Valid() && Expired(resetTimer, now)
      modifies this
      ensures Valid() && State() == Step(old(State()), ResetTimer(newXid))
    {
      StepKeepsValid(State(), ResetTimer(newXid), delay);
      assert phase == Resetting || phase == SentDiscover;
      hide DhcpSafety.Valid, OnRequestTimer, OnRenewTimer, OnRenewRequestTimer, OnLeaseTimer, ReceiveReply, DhcpSpec.StartProcess;
      SetResetTimer(None);
      StartProcess(phase == Resetting, newXid);
    }

    method RequestTimerHandler(newXid: Option<nat>)
      requires Valid() && Expired(requestTimer, now)
      modifies this
      ensures Valid() && State() == Step(old(State()), RequestTimer(newXid))
    {
      StepKeepsValid(State(), RequestTimer(newXid), delay);
      assert phase == SentRequest && 1 <= requestCount <= MAX_REQUESTS;
      hide DhcpSafety.Valid, DhcpSpec.StartProcess, DhcpSpec.SendMessage, ReceiveReply;
      SetRequestTimer(None);
      if requestCount == MAX_REQUESTS {
        StartProcess(false, newXid);
        return;
      }
      RetryRequest();
    }

    method RetryRequest()
      modifies this`requestTimer, this`sending, this`sent, this`requestCount
      ensures State() == DhcpSpec.SendMessage(old(State()), Request(xid, offered.yiaddr, Some(offered.serverId))).
        (timers := old(State()).timers.(request := Some(now + REQUEST_TIMEOUT)), requestCount := old(requestCount) + 1)
    {
      SendMessage(Request(xid, offered.yiaddr, Some(offered.serverId)));
      SetRequestTimer(Some(now + REQUEST_TIMEOUT));
      requestCount := requestCount + 1;
    }

    method RenewTimerHandler()
      requires Valid() && Expired(renewTimer, now)
      modifies this
      ensures Valid() && State() == Step(old(State()), RenewTimer)
    {
      StepKeepsValid(State(), RenewTimer, delay);
      assert phase == Finished;
      hide DhcpSafety.Valid, OnRenewTimer;
      StartRenewing();
    }

    // The body of renew_timer_handler.
    method StartRenewing()
      requires phase == Finished
      modifies this`renewTimer, this`sending, this`sent, this`renewRequestTimer, this`leaseTimer, this`phase
      ensures State() == OnRenewTimer(old(State())) && phase == Renewing
    {
      hide LeaseTimeout;
      SetRenewTimer(None);
      SendMessage(Request(xid, offered.yiaddr, None));
      SetRenewRequestTimer(Some(now + RENEW_REQUEST_TIMEOUT));
      SetLeaseTimer(Some(now + LeaseTimeout(acked.leaseTime)));
      Enter(Renewing);
    }

    method RenewRequestTimerHandler()
      requires Valid() && Expired(renewRequestTimer, now)
      modifies this
      ensures Valid() && State() == Step(old(State()), RenewRequestTimer)
    {
      StepKeepsValid(State(), RenewRequestTimer, delay);
      assert phase == Renewing;
      hide DhcpSafety.Valid, OnResetTimer, OnRequestTimer, OnRenewTimer, OnLeaseTimer, ReceiveReply, DhcpSpec.StartProcess;
      SetRenewRequestTimer(None);
      SendMessage(Request(xid, offered.yiaddr, None));
      SetRenewRequestTimer(Some(now + RENEW_REQUEST_TIMEOUT));
    }

    method LeaseTimerHandler(newXid: Option<nat>)
      requires Valid() && Expired(leaseTimer, now)
      modifies this
      ensures Valid() && State() == Step(old(State()), LeaseTimer(newXid))
    {
      StepKeepsValid(State(), LeaseTimer(newXid), delay);
      assert phase == Renewing;
      hide DhcpSafety.Valid, OnResetTimer, OnRequestTimer, OnRenewTimer, OnRenewRequestTimer, ReceiveReply, DhcpSpec.StartProcess;
      SetLeaseTimer(None);
      SetRenewRequestTimer(None);
      StartProcess(true, newXid);
      ReportDown();
    }

    // The three cases of a NAK.
    method HandleNak(reply: Reply)
      requires Consistent() && phase != Resetting
      modifies this
      ensures (up <==> IsUp(State())) && State() == ReceiveNak(old(State()), reply)
    {
      if phase != SentRequest && phase != Finished && phase != Renewing {
        return;
      }
      if reply.serverId != offered.serverId {
        return;
      }
      if phase == SentRequest {
        SetRequestTimer(None);
        SetResetTimer(Some(now + RESET_TIMEOUT));
        Enter(Resetting);
      } else if phase == Finished {
        SetRenewTimer(None);
        SetResetTimer(Some(now + RESET_TIMEOUT));
        Enter(Resetting);
        ReportDown();
      } else {
        SetRenewRequestTimer(None);
        SetLeaseTimer(None);
        SetResetTimer(Some(now + RESET_TIMEOUT));
        Enter(Resetting);
        ReportDown();
      }
    }

    method HandleOffer(reply: Reply)
      requires Consistent() && phase == SentDiscover
      requires reply.leaseTime.Some? && reply.subnetMask.Some?
      modifies this
      ensures (up <==> IsUp(State())) && State() == ReceiveOffer(old(State()), reply)
    {
      offered := Offered(reply.yiaddr, reply.serverId);
      SendMessage(Request(xid, offered.yiaddr, Some(offered.serverId)));
      SetResetTimer(None);
      SetRequestTimer(Some(now + REQUEST_TIMEOUT));
      Enter(SentRequest);
      requestCount := 1;
    }

    method HandleAck(reply: Reply, senderMac: nat)
      requires Consistent() && (phase == SentRequest || phase == Renewing)
      requires reply.leaseTime.Some? && reply.subnetMask.Some?
      modifies this
      ensures (up <==> IsUp(State())) && State() == ReceiveAck(old(State()), reply, senderMac)
    {
      if reply.yiaddr != offered.yiaddr {
        return;
      }
      if reply.serverId != offered.serverId {
        return;
      }
      if phase == SentRequest {
        acked := Acked(reply.leaseTime.value, reply.subnetMask.value, reply.router, reply.dns, senderMac);
        SetRequestTimer(None);
        Bind();
        ReportUp();
      } else {
        acked := acked.(leaseTime := reply.leaseTime.value);
        SetRenewRequestTimer(None);
        SetLeaseTimer(None);
        Bind();
      }
    }

    // What both ACKs end in: the lease runs from now.
    method Bind()
      modifies this`renewTimer, this`phase, this`ackTime
      ensures State() == old(State()).(phase := Finished, ackTime := now,
        timers := old(State()).timers.(renew := Some(now + RenewTimeout(acked.leaseTime))))
    {
      SetRenewTimer(Some(now + RenewTimeout(acked.leaseTime)));
      ackTime := now;
      Enter(Finished);
    }

    // What recv_handler_done makes of bytes: of a packet it does not accept, nothing.
    ghost function Received(s: State, b: seq<byte>, senderMac: nat): State
      requires |clientMac| == 6
    {
      var reply := Parse(clientMac, b);
      if reply.None? then s else Step(s, Receive(reply.value, senderMac))
    }

    method RecvHandlerDone(buf: array<byte>, dataLen: nat, senderMac: nat)
      requires Valid() && dataLen <= buf.Length
      modifies this
      ensures Valid() && State() == old(Received(State(), buf[..dataLen], senderMac))
    {
      assert Consistent();
      hide DhcpSafety.Valid, Parse, TimersOfPhase, ReceiveNak, ReceiveOffer, ReceiveAck;
      if phase == Resetting {
        return;
      }
      var parsed := ParseReply(clientMac, buf, dataLen);
      if parsed.None? {
        return;
      }
      var reply := parsed.value;
      StepKeepsValid(State(), Receive(reply, senderMac), delay);
      if reply.xid != xid {
        return;
      }
      if reply.kind == Nak {
        HandleNak(reply);
        return;
      }
      if reply.yiaddr == 0 || reply.leaseTime.None? || reply.subnetMask.None? {
        return;
      }
      if phase == SentDiscover && reply.kind == Offer {
        HandleOffer(reply);
      } else if (phase == SentRequest || phase == Renewing) && reply.kind == Ack {
        HandleAck(reply, senderMac);
      }
    }

    // BDHCPClientCore_GetClientIP
    method GetClientIP() returns (ip: nat)
      requires Valid() && up
      ensures ip == State().offered.yiaddr
    {
      ip := offered.yiaddr;
    }
  }
}
