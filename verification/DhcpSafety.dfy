// What every run of the DHCP client keeps.
module DhcpSafety {
  import opened Wrappers
  import opened DhcpSpec

  // UP and DOWN alternate, starting with UP.
  ghost predicate Alternate(reports: seq<Report>) {
    forall i | 0 <= i < |reports| :: reports[i] == (if i % 2 == 0 then Up else Down)
  }

  // The last xidReuseCounter starts, and no others, used the current xid.
  ghost predicate XidOk(s: State) {
    && 1 <= s.xidReuseCounter <= XID_REUSE_MAX && s.xidReuseCounter <= |s.starts|
    && (forall i | |s.starts| - s.xidReuseCounter <= i < |s.starts| :: s.starts[i] == Start(LastGeneration(s), s.xid))
    && (forall i | 0 <= i < |s.starts| - s.xidReuseCounter :: s.starts[i].generation < LastGeneration(s))
    && Spaced(s.starts)
  }

  // Starts of one generation share their xid and are fewer than XID_REUSE_MAX apart; a later start
  // is of the same generation or a later one.
  ghost predicate Spaced(starts: seq<Start>) {
    && (forall i, j | 0 <= i < j < |starts| :: starts[i].generation <= starts[j].generation)
    && (forall i, j | 0 <= i < j < |starts| && starts[i].generation == starts[j].generation ::
          starts[i].xid == starts[j].xid && j < i + XID_REUSE_MAX)
  }

  // The lease timing: the renew timer runs half the lease after the ACK, the lease timer the whole.
  predicate LeaseOk(s: State, delay: nat) {
    && OnTime(s.timers, s.now, delay)
    && s.ackTime <= s.now
    && (s.phase == Finished ==> s.timers.renew == Some(s.ackTime + RenewTimeout(s.acked.leaseTime)))
    && (s.phase == Renewing ==> s.timers.lease.Some? && s.timers.lease.value <= s.ackTime + 1000 * s.acked.leaseTime + delay)
    && (s.phase == Renewing ==> s.timers.lease.Some? && s.timers.lease.value >= s.ackTime + 1000 * s.acked.leaseTime)
  }

  ghost predicate Valid(s: State, delay: nat) {
    && TimersOfPhase(s.phase, s.timers)
    && (s.phase == SentRequest ==> 1 <= s.requestCount <= MAX_REQUESTS)
    && Alternate(s.reports) && (IsUp(s) <==> |s.reports| % 2 == 1)
    && XidOk(s) && LeaseOk(s, delay)
  }

  lemma StartKeepsXid(s: State, force: bool, newXid: Option<nat>)
    requires XidOk(s) || (s.starts == [] && force)
    ensures XidOk(StartProcess(s, force, newXid))
  {
  }

  lemma StepKeepsXid(s: State, e: Event)
    requires XidOk(s)
    ensures XidOk(Step(s, e))
  {
    hide XidOk, StartProcess;
    match e {
      case ResetTimer(newXid) =>
        SameXid(s, s.(timers := s.timers.(reset := None)));
        StartKeepsXid(s.(timers := s.timers.(reset := None)), s.phase == Resetting, newXid);
      case RequestTimer(newXid) =>
        SameXid(s, s.(timers := s.timers.(request := None)));
        StartKeepsXid(s.(timers := s.timers.(request := None)), false, newXid);
        if s.requestCount != MAX_REQUESTS {
          SameXid(s, Step(s, e));
        }
      case LeaseTimer(newXid) =>
        var stopped := s.(timers := s.timers.(lease := None, renewRequest := None));
        SameXid(s, stopped);
        StartKeepsXid(stopped, true, newXid);
        SameXid(StartProcess(stopped, true, newXid), Step(s, e));
      case _ => SameXid(s, Step(s, e));
    }
  }

  lemma SameXid(s: State, t: State)
    requires XidOk(s) && t.xid == s.xid && t.starts == s.starts && t.xidReuseCounter == s.xidReuseCounter
    ensures XidOk(t)
  {
  }

  lemma ReceiveKeepsValid(s: State, r: Reply, senderMac: nat, delay: nat)
    requires Valid(s, delay) && XidOk(ReceiveReply(s, r, senderMac))
    ensures Valid(ReceiveReply(s, r, senderMac), delay)
  {
    hide XidOk;
  }

  lemma RestartKeepsValid(s: State, e: Event, delay: nat)
    requires Valid(s, delay) && Enabled(s, e, delay) && XidOk(Step(s, e))
    requires e.ResetTimer? || e.RequestTimer? || e.LeaseTimer?
    ensures Valid(Step(s, e), delay)
  {
    hide XidOk, ReceiveReply;
  }

  // Every event keeps the invariant.
  lemma StepKeepsValid(s: State, e: Event, delay: nat)
    requires Valid(s, delay) && Enabled(s, e, delay)
    ensures Valid(Step(s, e), delay)
  {
    StepKeepsXid(s, e);
    hide XidOk, StartProcess, ReceiveReply;
    match e {
      case Receive(r, senderMac) => ReceiveKeepsValid(s, r, senderMac, delay);
      case ResetTimer(_) => RestartKeepsValid(s, e, delay);
      case RequestTimer(_) => RestartKeepsValid(s, e, delay);
      case LeaseTimer(_) => RestartKeepsValid(s, e, delay);
      case _ =>
    }
  }

  lemma InitValid(now: nat, newXid: Option<nat>, delay: nat)
    ensures Valid(Init(now, newXid), delay)
  {
    hide XidOk;
    var s := State(now, Resetting, NO_TIMERS, false, 0, 0, 0, Offered(0, 0), Acked(0, 0, None, [], 0), [], [], [], now);
    StartKeepsXid(s, true, newXid);
  }
}
