// The timed state machine of dhcpclient/BDHCPClientCore.c (the client of RFC 2131). Times are in
// milliseconds.
module DhcpSpec {
  import opened Wrappers

  const RESET_TIMEOUT: nat := 4000
  const REQUEST_TIMEOUT: nat := 3000
  const RENEW_REQUEST_TIMEOUT: nat := 20000
  const MAX_REQUESTS: nat := 4
  const XID_REUSE_MAX: nat := 8

  function RenewTimeout(lease: nat): nat {
    500 * lease
  }

  function LeaseTimeout(lease: nat): nat {
    1000 * lease - RenewTimeout(lease)
  }

  datatype Kind = Offer | Ack | Nak

  // What recv_handler_done takes from a well-formed reply.
  datatype Reply = Reply(kind: Kind, xid: nat, yiaddr: nat, serverId: nat, leaseTime: Option<nat>,
                         subnetMask: Option<nat>, router: Option<nat>, dns: seq<nat>)

  datatype Phase = Resetting | SentDiscover | SentRequest | Finished | Renewing

  // When each timer expires, if it runs.
  datatype Timers = Timers(reset: Option<nat>, request: Option<nat>, renew: Option<nat>, renewRequest: Option<nat>, lease: Option<nat>)

  const NO_TIMERS := Timers(None, None, None, None, None)

  datatype Offered = Offered(yiaddr: nat, serverId: nat)

  datatype Acked = Acked(leaseTime: nat, subnetMask: nat, router: Option<nat>, dns: seq<nat>, serverMac: nat)

  datatype Report = Up | Down

  datatype Message = Discover(xid: nat) | Request(xid: nat, ip: nat, serverId: Option<nat>)

  // A start of the process with a generated xid: which generation it was, and the xid.
  datatype Start = Start(generation: nat, xid: nat)

  // The last four fields are history: the reports to the user, the messages sent, the starts, and
  // when the last accepted ACK came.
  datatype State = State(
    now: nat, phase: Phase, timers: Timers, sending: bool, requestCount: nat, xid: nat, xidReuseCounter: nat,
    offered: Offered, acked: Acked,
    reports: seq<Report>, sent: seq<Message>, starts: seq<Start>, ackTime: nat)

  // A newXid of None is a failure of the random generator.
  datatype Event =
    | Advance(dt: nat)
    | SendDone
    | Receive(reply: Reply, senderMac: nat)
    | ResetTimer(newXid: Option<nat>)
    | RequestTimer(newXid: Option<nat>)
    | RenewTimer
    | RenewRequestTimer
    | LeaseTimer(newXid: Option<nat>)

  predicate IsUp(s: State) {
    s.phase == Finished || s.phase == Renewing
  }

  function SendMessage(s: State, m: Message): State {
    if s.sending then s else s.(sending := true, sent := s.sent + [m])
  }

  function GenerateXid(newXid: Option<nat>): nat {
    if newXid.Some? then newXid.value else 3416960072
  }

  function LastGeneration(s: State): int {
    if s.starts == [] then -1 else s.starts[|s.starts| - 1].generation
  }

  function StartProcess(s: State, forceNewXid: bool, newXid: Option<nat>): State {
    var renewed := forceNewXid || s.xidReuseCounter == XID_REUSE_MAX;
    var xid := if renewed then GenerateXid(newXid) else s.xid;
    var generation := if renewed || s.starts == [] then (LastGeneration(s) + 1) as nat else s.starts[|s.starts| - 1].generation;
    var counted := s.(xid := xid, xidReuseCounter := if renewed then 1 else s.xidReuseCounter + 1,
                      starts := s.starts + [Start(generation, xid)]);
    SendMessage(counted, Discover(xid)).(phase := SentDiscover, timers := s.timers.(reset := Some(s.now + RESET_TIMEOUT)))
  }

  function Init(now: nat, newXid: Option<nat>): State {
    StartProcess(State(now, Resetting, NO_TIMERS, false, 0, 0, 0, Offered(0, 0), Acked(0, 0, None, [], 0), [], [], [], now),
                 true, newXid)
  }

  // The timers that run in a phase.
  predicate TimersOfPhase(phase: Phase, t: Timers) {
    && (t.reset.Some? <==> phase == Resetting || phase == SentDiscover)
    && (t.request.Some? <==> phase == SentRequest)
    && (t.renew.Some? <==> phase == Finished)
    && (t.renewRequest.Some? <==> phase == Renewing)
    && (t.lease.Some? <==> phase == Renewing)
  }

  predicate Expired(t: Option<nat>, now: nat) {
    t.Some? && t.value <= now
  }

  // No running timer is overdue by more than the delay.
  predicate NotLate(t: Option<nat>, now: nat, delay: nat) {
    t.Some? ==> now <= t.value + delay
  }

  predicate OnTime(t: Timers, now: nat, delay: nat) {
    && NotLate(t.reset, now, delay) && NotLate(t.request, now, delay) && NotLate(t.renew, now, delay)
    && NotLate(t.renewRequest, now, delay) && NotLate(t.lease, now, delay)
  }

  // An expired timer fires; time passes only as far as the reactor's delay lets it.
  predicate Enabled(s: State, e: Event, delay: nat) {
    match e
    case Advance(dt) => OnTime(s.timers, s.now + dt, delay)
    case SendDone => s.sending
    case Receive(_, _) => true
    case ResetTimer(_) => Expired(s.timers.reset, s.now)
    case RequestTimer(_) => Expired(s.timers.request, s.now)
    case RenewTimer => Expired(s.timers.renew, s.now)
    case RenewRequestTimer => Expired(s.timers.renewRequest, s.now)
    case LeaseTimer(_) => Expired(s.timers.lease, s.now)
  }

  // The end of a negotiation or a lease by a NAK.
  function Reset(s: State): State {
    s.(phase := Resetting, timers := NO_TIMERS.(reset := Some(s.now + RESET_TIMEOUT)),
       reports := if IsUp(s) then s.reports + [Down] else s.reports)
  }

  function ReceiveNak(s: State, r: Reply): State {
    if (s.phase == SentRequest || IsUp(s)) && r.serverId == s.offered.serverId then Reset(s) else s
  }

  function ReceiveOffer(s: State, r: Reply): State {
    if s.phase != SentDiscover then s
    else
      var t := SendMessage(s, Request(s.xid, r.yiaddr, Some(r.serverId)));
      t.(phase := SentRequest, timers := NO_TIMERS.(request := Some(s.now + REQUEST_TIMEOUT)),
         requestCount := 1, offered := Offered(r.yiaddr, r.serverId))
  }

  function ReceiveAck(s: State, r: Reply, senderMac: nat): State
    requires r.leaseTime.Some? && r.subnetMask.Some?
  {
    var lease := r.leaseTime.value;
    if Offered(r.yiaddr, r.serverId) != s.offered then s
    else if s.phase == SentRequest then
      s.(phase := Finished, timers := NO_TIMERS.(renew := Some(s.now + RenewTimeout(lease))), ackTime := s.now,
         acked := Acked(lease, r.subnetMask.value, r.router, r.dns, senderMac), reports := s.reports + [Up])
    else if s.phase == Renewing then
      s.(phase := Finished, timers := NO_TIMERS.(renew := Some(s.now + RenewTimeout(lease))), ackTime := s.now,
         acked := s.acked.(leaseTime := lease))
    else s
  }

  function ReceiveReply(s: State, r: Reply, senderMac: nat): State {
    if s.phase == Resetting || r.xid != s.xid then s
    else if r.kind == Nak then ReceiveNak(s, r)
    else if r.yiaddr == 0 || r.leaseTime.None? || r.subnetMask.None? then s
    else if r.kind == Offer then ReceiveOffer(s, r)
    else ReceiveAck(s, r, senderMac)
  }

  function Renew(s: State): Message {
    Request(s.xid, s.offered.yiaddr, None)
  }

  function OnResetTimer(s: State, newXid: Option<nat>): State {
    StartProcess(s.(timers := s.timers.(reset := None)), s.phase == Resetting, newXid)
  }

  function OnRequestTimer(s: State, newXid: Option<nat>): State {
    if s.requestCount == MAX_REQUESTS then StartProcess(s.(timers := s.timers.(request := None)), false, newXid)
    else
      SendMessage(s, Request(s.xid, s.offered.yiaddr, Some(s.offered.serverId))).
        (timers := s.timers.(request := Some(s.now + REQUEST_TIMEOUT)), requestCount := s.requestCount + 1)
  }

  function OnRenewTimer(s: State): State {
    SendMessage(s, Renew(s)).(phase := Renewing,
      timers := s.timers.(renew := None, renewRequest := Some(s.now + RENEW_REQUEST_TIMEOUT),
                          lease := Some(s.now + LeaseTimeout(s.acked.leaseTime))))
  }

  function OnRenewRequestTimer(s: State): State {
    SendMessage(s, Renew(s)).(timers := s.timers.(renewRequest := Some(s.now + RENEW_REQUEST_TIMEOUT)))
  }

  function OnLeaseTimer(s: State, newXid: Option<nat>): State {
    var t := StartProcess(s.(timers := s.timers.(lease := None, renewRequest := None)), true, newXid);
    t.(reports := t.reports + [Down])
  }

  function Step(s: State, e: Event): State {
    match e
    case Advance(dt) => s.(now := s.now + dt)
    case SendDone => s.(sending := false)
    case Receive(reply, senderMac) => ReceiveReply(s, reply, senderMac)
    case ResetTimer(newXid) => OnResetTimer(s, newXid)
    case RequestTimer(newXid) => OnRequestTimer(s, newXid)
    case RenewTimer => OnRenewTimer(s)
    case RenewRequestTimer => OnRenewRequestTimer(s)
    case LeaseTimer(newXid) => OnLeaseTimer(s, newXid)
  }

  ghost predicate Reaches(s: State, events: seq<Event>, delay: nat, t: State)
    decreases |events|
  {
    if events == [] then s == t
    else Enabled(s, events[0], delay) && Reaches(Step(s, events[0]), events[1..], delay, t)
  }
}
