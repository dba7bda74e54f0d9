// The properties of whole runs of the DHCP client.
module DhcpRuns {
  import opened Wrappers
  import opened DhcpSpec
  import opened DhcpSafety

  lemma {:induction false} RunsStayValid(s: State, events: seq<Event>, delay: nat, t: State)
    requires Valid(s, delay) && Reaches(s, events, delay, t)
    ensures Valid(t, delay)
    decreases |events|
  {
    hide Valid, Step, Enabled;
    if events != [] {
      StepKeepsValid(s, events[0], delay);
      RunsStayValid(Step(s, events[0]), events[1..], delay, t);
    }
  }

  // The running timers are a function of the phase, UP and DOWN alternate, the client is up
  // exactly when the last report was UP, and no xid serves more than XID_REUSE_MAX starts in a
  // row: starts XID_REUSE_MAX apart never share their generation.
  lemma EveryRun(now: nat, newXid: Option<nat>, events: seq<Event>, delay: nat, s: State)
    requires Reaches(Init(now, newXid), events, delay, s)
    ensures TimersOfPhase(s.phase, s.timers)
    ensures forall i | 0 <= i < |s.reports| :: s.reports[i] == if i % 2 == 0 then Up else Down
    ensures IsUp(s) <==> s.reports != [] && s.reports[|s.reports| - 1] == Up
    ensures forall i, j | 0 <= i < j < |s.starts| ::
      && s.starts[i].generation <= s.starts[j].generation
      && (s.starts[i].generation == s.starts[j].generation ==> s.starts[i].xid == s.starts[j].xid && j < i + XID_REUSE_MAX)
    ensures s.phase == SentRequest ==> 1 <= s.requestCount <= MAX_REQUESTS
  {
    InitValid(now, newXid, delay);
    RunsStayValid(Init(now, newXid), events, delay, s);
  }

  // A reply the client takes, with when it came and from where.
  datatype Taken = Taken(at: nat, renewal: bool, reply: Reply, senderMac: nat)

  predicate AnswersXid(s: State, e: Event) {
    e.Receive? && e.reply.xid == s.xid && e.reply.yiaddr != 0 && e.reply.leaseTime.Some? && e.reply.subnetMask.Some?
  }

  // The client takes the first offer to its DISCOVER,
  predicate TakesOffer(s: State, e: Event) {
    AnswersXid(s, e) && e.reply.kind == Offer && s.phase == SentDiscover
  }

  // and any ACK of the offered address by its server to a REQUEST.
  predicate TakesAck(s: State, e: Event) {
    AnswersXid(s, e) && e.reply.kind == Ack && (s.phase == SentRequest || s.phase == Renewing)
    && Offered(e.reply.yiaddr, e.reply.serverId) == s.offered
  }

  // The offers and the ACKs taken in a run, in order.
  ghost function Offers(s: State, events: seq<Event>): seq<Taken>
    decreases |events|
  {
    if events == [] then [] else OfferIn(s, events[0]) + Offers(Step(s, events[0]), events[1..])
  }

  function OfferIn(s: State, e: Event): seq<Taken> {
    if TakesOffer(s, e) then [Taken(s.now, false, e.reply, e.senderMac)] else []
  }

  ghost function Acks(s: State, events: seq<Event>): seq<Taken>
    decreases |events|
  {
    if events == [] then [] else AckIn(s, events[0]) + Acks(Step(s, events[0]), events[1..])
  }

  function AckIn(s: State, e: Event): seq<Taken> {
    if TakesAck(s, e) then [Taken(s.now, s.phase == Renewing, e.reply, e.senderMac)] else []
  }

  // The last ACK that was not of a renewal.
  function LastFirst(acks: seq<Taken>): Option<Taken>
    decreases |acks|
  {
    if acks == [] then None
    else if !acks[|acks| - 1].renewal then Some(acks[|acks| - 1])
    else LastFirst(acks[..|acks| - 1])
  }

  // The client holds to the last offer, the lease time of the last ACK and the rest of the last
  // ACK that was not of a renewal.
  ghost predicate Remembers(s: State, offers: seq<Taken>, acks: seq<Taken>) {
    && (s.phase == SentRequest || IsUp(s) ==>
          && offers != []
          && s.offered == Offered(offers[|offers| - 1].reply.yiaddr, offers[|offers| - 1].reply.serverId))
    && (IsUp(s) ==>
          && acks != [] && LastFirst(acks).Some?
          && var last, first := acks[|acks| - 1], LastFirst(acks).value;
            && s.ackTime == last.at && last.reply.leaseTime == Some(s.acked.leaseTime)
            && Offered(last.reply.yiaddr, last.reply.serverId) == s.offered
            && first.reply.subnetMask == Some(s.acked.subnetMask) && first.reply.router == s.acked.router
            && first.reply.dns == s.acked.dns && first.senderMac == s.acked.serverMac)
  }

  lemma StepRemembers(s: State, e: Event, delay: nat, offers: seq<Taken>, acks: seq<Taken>)
    requires Valid(s, delay) && Enabled(s, e, delay) && Remembers(s, offers, acks)
    ensures Remembers(Step(s, e), offers + OfferIn(s, e), acks + AckIn(s, e))
  {
    hide XidOk, Alternate, LeaseOk;
    assert offers + [] == offers && acks + [] == acks;
    if TakesAck(s, e) {
      var all := acks + AckIn(s, e);
      assert all[..|all| - 1] == acks;
    }
  }

  lemma {:induction false} RunRemembers(s: State, events: seq<Event>, delay: nat, t: State, offers: seq<Taken>, acks: seq<Taken>)
    requires Valid(s, delay) && Reaches(s, events, delay, t) && Remembers(s, offers, acks)
    ensures Remembers(t, offers + Offers(s, events), acks + Acks(s, events))
    decreases |events|
  {
    hide Valid, Step, Enabled, Remembers, OfferIn, AckIn;
    if events == [] {
      assert offers + [] == offers && acks + [] == acks;
    } else {
      var e, u := events[0], Step(s, events[0]);
      StepRemembers(s, e, delay, offers, acks);
      StepKeepsValid(s, e, delay);
      RunRemembers(u, events[1..], delay, t, offers + OfferIn(s, e), acks + AckIn(s, e));
      assert offers + Offers(s, events) == (offers + OfferIn(s, e)) + Offers(u, events[1..]);
      assert acks + Acks(s, events) == (acks + AckIn(s, e)) + Acks(u, events[1..]);
    }
  }

  // What the client holds, in every run, is what the replies it took said.
  lemma HoldsLastReplies(now: nat, newXid: Option<nat>, events: seq<Event>, delay: nat, s: State)
    requires Reaches(Init(now, newXid), events, delay, s)
    ensures Remembers(s, Offers(Init(now, newXid), events), Acks(Init(now, newXid), events))
  {
    hide Remembers, Valid;
    var i := Init(now, newXid);
    InitValid(now, newXid, delay);
    assert Remembers(i, [], []) by {
      NotUpAtFirst(now, newXid);
    }
    RunRemembers(i, events, delay, s, [], []);
    assert [] + Offers(i, events) == Offers(i, events) && [] + Acks(i, events) == Acks(i, events);
  }

  lemma NotUpAtFirst(now: nat, newXid: Option<nat>)
    ensures Remembers(Init(now, newXid), [], [])
  {
  }

  // When no timer fires later than the delay, the client is never up later than twice that delay
  // after the end of the lease the last ACK taken gave; with timers on time, never after it. The
  // lease timer never fires before that end, and renewing begins half the lease after the ACK.
  lemma LeaseIsRespected(now: nat, newXid: Option<nat>, events: seq<Event>, delay: nat, s: State)
    requires Reaches(Init(now, newXid), events, delay, s) && IsUp(s)
    ensures var acks := Acks(Init(now, newXid), events);
      && acks != [] && acks[|acks| - 1].reply.leaseTime.Some?
      && var at, lease := acks[|acks| - 1].at, acks[|acks| - 1].reply.leaseTime.value;
        && at <= s.now <= at + 1000 * lease + 2 * delay
        && (forall newXid :: Enabled(s, LeaseTimer(newXid), delay) ==> s.now >= at + 1000 * lease)
        && (s.phase == Finished ==> s.timers.renew == Some(at + 500 * lease))
  {
    hide XidOk;
    InitValid(now, newXid, delay);
    RunsStayValid(Init(now, newXid), events, delay, s);
    HoldsLastReplies(now, newXid, events, delay, s);
  }

  // The client goes up exactly on an ACK of the request it sent.
  lemma GoesUp(s: State, e: Event, delay: nat)
    requires Valid(s, delay) && Enabled(s, e, delay)
    ensures !IsUp(s) && IsUp(Step(s, e)) <==>
      && s.phase == SentRequest && e.Receive? && e.reply.kind == Ack && e.reply.xid == s.xid
      && Offered(e.reply.yiaddr, e.reply.serverId) == s.offered && e.reply.yiaddr != 0
      && e.reply.leaseTime.Some? && e.reply.subnetMask.Some?
  {
    hide XidOk, Alternate;
  }

  // It goes down exactly when the lease timer fires or its server sends a NAK.
  lemma GoesDown(s: State, e: Event, delay: nat)
    requires Valid(s, delay) && Enabled(s, e, delay)
    ensures IsUp(s) && !IsUp(Step(s, e)) <==>
      || e.LeaseTimer?
      || (IsUp(s) && e.Receive? && e.reply.kind == Nak && e.reply.xid == s.xid && e.reply.serverId == s.offered.serverId)
  {
    hide XidOk, Alternate;
  }

  // While up, the address, its server and the acknowledged parameters stay; only an ACK of a
  // renewal changes the lease time.
  lemma StepKeepsLease(s: State, e: Event, delay: nat)
    requires Valid(s, delay) && Enabled(s, e, delay) && IsUp(s)
    ensures s.reports <= Step(s, e).reports
    ensures Step(s, e).reports == s.reports ==>
      IsUp(Step(s, e)) && SameLease(s, Step(s, e))
  {
    hide XidOk, Alternate;
  }

  predicate SameLease(s: State, t: State) {
    s.offered == t.offered && s.acked.(leaseTime := 0) == t.acked.(leaseTime := 0)
  }

  lemma ReportsGrow(s: State, e: Event)
    ensures s.reports <= Step(s, e).reports
  {
  }

  lemma {:induction false} RunReportsGrow(s: State, events: seq<Event>, delay: nat, t: State)
    requires Reaches(s, events, delay, t)
    ensures s.reports <= t.reports
    decreases |events|
  {
    hide Step, Enabled;
    if events != [] {
      ReportsGrow(s, events[0]);
      RunReportsGrow(Step(s, events[0]), events[1..], delay, t);
    }
  }

  // The client IP is constant while up: from a report of UP to the next report of DOWN.
  lemma {:induction false} AddressIsConstant(s: State, events: seq<Event>, delay: nat, t: State)
    requires Valid(s, delay) && IsUp(s) && Reaches(s, events, delay, t) && t.reports == s.reports
    ensures IsUp(t) && SameLease(s, t)
    decreases |events|
  {
    hide Valid, Step, Enabled;
    if events != [] {
      var u := Step(s, events[0]);
      StepKeepsLease(s, events[0], delay);
      StepKeepsValid(s, events[0], delay);
      RunReportsGrow(u, events[1..], delay, t);
      assert u.reports == s.reports;
      AddressIsConstant(u, events[1..], delay, t);
    }
  }

  predicate IsTimer(e: Event) {
    e.ResetTimer? || e.RequestTimer? || e.RenewTimer? || e.RenewRequestTimer? || e.LeaseTimer?
  }

  // A timer or an accepted offer sends one message unless one is being sent, which it is until it is
  // done; nothing else sends.
  // The message is a DISCOVER of a new start or a REQUEST for the offered address, naming the
  // server except when renewing.
  lemma MessagesSent(s: State, e: Event, delay: nat)
    requires Valid(s, delay) && Enabled(s, e, delay)
    ensures var t := Step(s, e);
      && (t.sent != s.sent <==> !s.sending && (IsTimer(e) || (s.phase == SentDiscover && t.phase == SentRequest)))
      && (t.sending <==> t.sent != s.sent || (s.sending && !e.SendDone?))
    ensures var t := Step(s, e);
      || t.sent == s.sent
      || (t.phase == SentDiscover && |t.starts| == |s.starts| + 1 && t.sent == s.sent + [Discover(t.xid)])
      || (t.phase == SentRequest && t.sent == s.sent + [Request(t.xid, t.offered.yiaddr, Some(t.offered.serverId))])
      || (t.phase == Renewing && t.sent == s.sent + [Request(t.xid, t.offered.yiaddr, None)])
  {
    hide XidOk, Alternate;
  }
}
