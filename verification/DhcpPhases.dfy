// The phases of the DHCP client as a diagram (section 4.4 of RFC 2131): what takes it from one to
// another, when the timers it waits for run out, and which xid a start uses.
module DhcpPhases {
  import opened Wrappers
  import opened DhcpSpec
  import opened DhcpSafety
  import opened DhcpRuns

  // A NAK of the server the client deals with.
  predicate TakesNak(s: State, e: Event) {
    && e.Receive? && e.reply.kind == Nak && e.reply.xid == s.xid && e.reply.serverId == s.offered.serverId
    && (s.phase == SentRequest || IsUp(s))
  }

  // The process starts again: after a wait, without an answer to four requests, or at the end of
  // the lease.
  predicate Restarts(s: State, e: Event) {
    e.ResetTimer? || e.LeaseTimer? || (e.RequestTimer? && s.requestCount == MAX_REQUESTS)
  }

  predicate Retries(s: State, e: Event) {
    e.RequestTimer? && s.requestCount < MAX_REQUESTS
  }

  // The arrows of the diagram.
  lemma PhaseAfter(s: State, e: Event, delay: nat)
    requires Valid(s, delay) && Enabled(s, e, delay)
    ensures Step(s, e).phase ==
      if Restarts(s, e) then SentDiscover
      else if TakesNak(s, e) then Resetting
      else if TakesOffer(s, e) then SentRequest
      else if TakesAck(s, e) then Finished
      else if e.RenewTimer? then Renewing
      else s.phase
  {
    hide XidOk, Alternate, LeaseOk;
  }

  // In each phase the client waits at most this long for an answer: 4 seconds after a start or a
  // NAK, 3 after a request, 20 between requests of a renewal.
  lemma WaitsAfter(s: State, e: Event, delay: nat)
    requires Valid(s, delay) && Enabled(s, e, delay)
    ensures var t := Step(s, e);
      && (t.timers.reset.Some? ==>
            t.timers.reset == if Restarts(s, e) || TakesNak(s, e) then Some(s.now + 4000) else s.timers.reset)
      && (t.timers.request.Some? ==>
            t.timers.request == if TakesOffer(s, e) || Retries(s, e) then Some(s.now + 3000) else s.timers.request)
      && (t.timers.renewRequest.Some? ==>
            t.timers.renewRequest == if e.RenewTimer? || e.RenewRequestTimer? then Some(s.now + 20000) else s.timers.renewRequest)
      && t.now == if e.Advance? then s.now + e.dt else s.now
  {
    hide XidOk, Alternate, LeaseOk;
  }

  // How many times the request for the last offer was due: once with the offer, and at each
  // request timer since.
  ghost function Tries(n: nat, s: State, events: seq<Event>): nat
    decreases |events|
  {
    if events == [] then n else Tries(TriesOne(n, s, events[0]), Step(s, events[0]), events[1..])
  }

  function TriesOne(n: nat, s: State, e: Event): nat {
    if TakesOffer(s, e) then 1 else if e.RequestTimer? then n + 1 else n
  }

  lemma TriesStep(n: nat, s: State, e: Event, delay: nat)
    requires Valid(s, delay) && Enabled(s, e, delay) && (s.phase == SentRequest ==> s.requestCount == n)
    ensures Step(s, e).phase == SentRequest ==> Step(s, e).requestCount == TriesOne(n, s, e)
  {
    hide XidOk, Alternate, LeaseOk;
  }

  lemma {:induction false} TriesRun(n: nat, s: State, events: seq<Event>, delay: nat, t: State)
    requires Valid(s, delay) && Reaches(s, events, delay, t) && (s.phase == SentRequest ==> s.requestCount == n)
    ensures t.phase == SentRequest ==> t.requestCount == Tries(n, s, events)
    decreases |events|
  {
    hide Valid, Step, Enabled, TriesOne;
    if events != [] {
      TriesStep(n, s, events[0], delay);
      StepKeepsValid(s, events[0], delay);
      TriesRun(TriesOne(n, s, events[0]), Step(s, events[0]), events[1..], delay, t);
    }
  }

  // In every run the client asks exactly 4 times for an offer before it starts again.
  lemma AsksFourTimes(now: nat, newXid: Option<nat>, events: seq<Event>, delay: nat, s: State, again: Option<nat>)
    requires Reaches(Init(now, newXid), events, delay, s) && Enabled(s, RequestTimer(again), delay)
    ensures Step(s, RequestTimer(again)).phase == if Tries(0, Init(now, newXid), events) == 4 then SentDiscover else SentRequest
    ensures 1 <= Tries(0, Init(now, newXid), events) <= 4
  {
    InitValid(now, newXid, delay);
    RunsStayValid(Init(now, newXid), events, delay, s);
    TriesRun(0, Init(now, newXid), events, delay, s);
    PhaseAfter(s, RequestTimer(again), delay);
  }

  function NewXid(e: Event): Option<nat> {
    match e
    case ResetTimer(newXid) => newXid
    case RequestTimer(newXid) => newXid
    case LeaseTimer(newXid) => newXid
    case _ => None
  }

  // A generated xid; without randomness there is a fixed one.
  function XidFrom(newXid: Option<nat>): nat {
    match newXid
    case Some(xid) => xid
    case None => 0xCBAA_AC48
  }

  // The current xid served the last 8 starts.
  ghost predicate UsedUp(s: State) {
    |s.starts| >= 8 && s.starts[|s.starts| - 8].generation == LastGeneration(s)
  }

  // Exactly when a start has a new xid: after a NAK, at the end of a lease, and after 8 starts with
  // the old one. Else it has that of the last start.
  lemma StartXid(s: State, e: Event, delay: nat)
    requires Valid(s, delay) && Enabled(s, e, delay)
    ensures var t := Step(s, e);
      if !Restarts(s, e) then t.starts == s.starts && t.xid == s.xid
      else
        && s.starts != []
        && t.starts == s.starts + [
             if e.LeaseTimer? || s.phase == Resetting || UsedUp(s) then Start((LastGeneration(s) + 1) as nat, XidFrom(NewXid(e)))
             else s.starts[|s.starts| - 1]]
        && t.xid == t.starts[|t.starts| - 1].xid
  {
    hide Alternate, LeaseOk, Spaced;
    assert UsedUp(s) <==> s.xidReuseCounter == XID_REUSE_MAX;
  }

  // What happens between the loss of a lease and the next start.
  ghost predicate AllNewer(s: State, n: nat, last: int) {
    && n <= |s.starts|
    && (forall j :: n <= j < |s.starts| ==> s.starts[j].generation > last)
    && (|s.starts| == n ==> s.phase == Resetting && LastGeneration(s) == last)
  }

  lemma StaysNewer(s: State, e: Event, delay: nat, n: nat, last: int)
    requires Valid(s, delay) && Enabled(s, e, delay) && AllNewer(s, n, last)
    ensures AllNewer(Step(s, e), n, last) && s.starts <= Step(s, e).starts
  {
    PhaseAfter(s, e, delay);
    StartXid(s, e, delay);
    hide Step, Valid, UsedUp, Enabled;
  }

  lemma {:induction false} RunStaysNewer(s: State, events: seq<Event>, delay: nat, t: State, n: nat, last: int)
    requires Valid(s, delay) && Reaches(s, events, delay, t) && AllNewer(s, n, last)
    ensures AllNewer(t, n, last) && s.starts <= t.starts
    decreases |events|
  {
    hide Valid, Step, Enabled, AllNewer;
    if events != [] {
      StaysNewer(s, events[0], delay, n, last);
      StepKeepsValid(s, events[0], delay);
      RunStaysNewer(Step(s, events[0]), events[1..], delay, t, n, last);
    }
  }

  // After a NAK or the end of a lease, no start of the run uses an xid generated before.
  lemma NewXidAfterLoss(s: State, e: Event, events: seq<Event>, delay: nat, t: State)
    requires Valid(s, delay) && Enabled(s, e, delay) && (TakesNak(s, e) || e.LeaseTimer?) && Reaches(Step(s, e), events, delay, t)
    ensures s.starts <= t.starts
    ensures forall i, j :: 0 <= i < |s.starts| <= j < |t.starts| ==> t.starts[i].generation < t.starts[j].generation
  {
    PhaseAfter(s, e, delay);
    StartXid(s, e, delay);
    StepKeepsValid(s, e, delay);
    hide Step, UsedUp, Enabled, LeaseOk, Alternate;
    assert AllNewer(Step(s, e), |s.starts|, LastGeneration(s));
    RunStaysNewer(Step(s, e), events, delay, t, |s.starts|, LastGeneration(s));
  }
}
