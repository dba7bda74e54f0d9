// Whole events of client/client.c, from one return to the event loop to the next.
module PeersRuns {
  import opened Wrappers
  import opened DataProtoState
  import opened DPRelayState
  import opened PeersSpec
  import opened PeersSafety
  import opened PeersEvents

  // A peer is a relay exactly when the server said it may be and its link reported that it is up.
  ghost predicate FlagOk(x: Peer, reports: map<DataProtoSink, bool>) {
    x.isRelay <==> x.haveLink && x.relayServer && x.sendDp != null && x.sendDp in reports && reports[x.sendDp]
  }

  // What holds whenever no handler is running.
  ghost predicate Settled(n: Net) {
    NetOk(n) && Assigned(n) && forall p <- n.peers :: FlagOk(n.peers[p], n.reports)
  }

  // Other peers' links report as before.
  ghost predicate OthersReport(n: Net, m: Net, p: nat)
    requires p in n.peers
  {
    forall s <- n.reports :: s != n.peers[p].sendDp ==> s in m.reports && m.reports[s] == n.reports[s]
  }

  // A change of one peer's core that keeps its relay flag right.
  lemma SettledAfter(n: Net, m: Net, p: nat, x: Peer)
    requires Settled(n) && NetOk(m) && Assigned(m) && p in n.peers
    requires Cores(m) == Cores(n)[p := Core(x)] && OthersReport(n, m, p) && FlagOk(x, m.reports)
    ensures Settled(m)
  {
    forall q <- m.peers ensures FlagOk(m.peers[q], m.reports) {
      assert Cores(m)[q] == Core(m.peers[q]);
      if q != p {
        assert q in n.peers && Cores(n)[q] == Core(n.peers[q]);
        assert FlagOk(n.peers[q], n.reports) && PeerOk(n, q);
      }
    }
  }

  lemma CleanupSettled(n: Net, p: nat)
    requires Settled(n) && p in n.peers
    ensures Settled(Cleanup(n, p))
  {
    hide Links, Cores, Core, PeerOk, Cleanup;
    SettledAfter(n, Cleanup(n, p), p, NoLink(n.peers[p]));
  }

  lemma NeedRelaySettled(n: Net, p: nat)
    requires Settled(n) && p in n.peers && !n.peers[p].isRelay
    ensures Settled(NeedRelay(n, p))
  {
    hide Links, Cores, Core, PeerOk, NeedRelay;
    SettledAfter(n, NeedRelay(n, p), p, NoLink(n.peers[p]));
  }

  lemma InitLinkCores(n: Net, p: nat, s: DataProtoSink)
    requires p in n.peers
    ensures Cores(InitLink(n, p, s)) == Cores(n)[p := Core(n.peers[p].(haveLink := true, sendDp := s))]
  {
  }

  lemma NewLinkIsFresh(n: Net, s: DataProtoSink)
    requires NetOk(n) && s !in n.reports
    ensures forall q <- n.peers :: n.peers[q].sendDp != s
  {
    forall q <- n.peers ensures n.peers[q].sendDp != s {
      assert n.peers[q].sendDp != null ==> n.peers[q].sendDp in Links(n.peers);
    }
  }

  lemma InitLinkSettled(n: Net, p: nat, s: DataProtoSink)
    requires Settled(n) && p in n.peers && Unconnected(n.peers[p]) && !n.peers[p].isRelay && s !in n.reports
    ensures Settled(InitLink(n, p, s))
  {
    hide Links, Cores, Core, PeerOk;
    NewLinkIsFresh(n, s);
    InitLinkKeeps(n, p, s);
    InitLinkCores(n, p, s);
    SettledAfter(n, InitLink(n, p, s), p, n.peers[p].(haveLink := true, sendDp := s));
  }

  // The retry timer and the binding position are not part of how peers are connected.
  function Mark(n: Net, p: nat, timer: bool, binding: bool, bindingPos: nat): Net
    requires p in n.peers
  {
    n.With(p, n.peers[p].(timer := timer, binding := binding, bindingPos := bindingPos))
  }

  lemma MarkPeer(n: Net, p: nat, timer: bool, binding: bool, bindingPos: nat, q: nat)
    requires NetOk(n) && p in n.peers && q in n.peers && (timer ==> n.Master(p)) && bindingPos <= n.cfg.bindAddrs
    ensures PeerOk(Mark(n, p, timer, binding, bindingPos), q)
  {
    hide Links, DistinctLinks;
    assert PeerOk(n, q) && PeerOk(n, p);
  }

  lemma MarkSettled(n: Net, p: nat, timer: bool, binding: bool, bindingPos: nat)
    requires Settled(n) && p in n.peers && (timer ==> n.Master(p)) && bindingPos <= n.cfg.bindAddrs
    ensures Settled(Mark(n, p, timer, binding, bindingPos))
  {
    hide PeerOk, Links;
    var m := Mark(n, p, timer, binding, bindingPos);
    SameLinkSet(n.peers, m.peers);
    forall q <- m.peers ensures PeerOk(m, q) {
      MarkPeer(n, p, timer, binding, bindingPos, q);
    }
  }

  // peer_reset
  ghost function Reset(n: Net, p: nat): (r: Net)
    requires Settled(n) && p in n.peers
    ensures Settled(r) && p in r.peers && Unconnected(r.peers[p]) && r.cfg == n.cfg && (n.Master(p) ==> r.peers[p].timer)
    ensures r.peers[p].bindingPos == n.peers[p].bindingPos
  {
    hide PeerOk, Links, Cores, Cleanup;
    CleanupSettled(n, p);
    var m := Cleanup(n, p);
    CoreAt(n, m, p, NoLink(n.peers[p]));
    TimerIsMasters(m, p);
    var x := m.peers[p];
    if n.Master(p) then
      MarkSettled(m, p, true, x.binding, x.bindingPos);
      Mark(m, p, true, x.binding, x.bindingPos)
    else m
  }

  // What happens at one bind address: it has no external addresses, no link could be made, all
  // its ports are taken, or the link is bound.
  datatype BindResult = NoAddress | NoLinkMade | PortsBusy | Bound {
    predicate MakesLink() {
      PortsBusy? || Bound?
    }
  }

  // How far peer_bind gets from address pos: up to an address where it stops.
  function Reach(results: seq<BindResult>, pos: nat): (r: nat)
    ensures pos < |results| ==> pos < r <= |results|
    decreases |results| - pos
  {
    if pos >= |results| then |results|
    else if results[pos].Bound? || results[pos].NoLinkMade? then pos + 1
    else Reach(results, pos + 1)
  }

  // links[i] is the link made at bind address i, new whenever one is made.
  ghost predicate NewLinks(reports: map<DataProtoSink, bool>, results: seq<BindResult>, links: seq<DataProtoSink?>, pos: nat) {
    |links| == |results| && NewUpTo(reports, results, links, pos, Reach(results, pos))
  }

  ghost predicate NewUpTo(reports: map<DataProtoSink, bool>, results: seq<BindResult>, links: seq<DataProtoSink?>, pos: nat, end: nat)
    requires end <= |results| && end <= |links|
  {
    && (forall i :: pos <= i < end && results[i].MakesLink() ==> links[i] != null && links[i] !in reports)
    && (forall i, j :: pos <= i < j < end && results[i].MakesLink() && results[j].MakesLink() ==> links[i] != links[j])
  }

  // A link in place of whatever the peer had.
  ghost function FreshLink(n: Net, p: nat, s: DataProtoSink): (r: Net)
    requires Settled(n) && p in n.peers && s !in n.reports
    ensures Settled(r) && r.cfg == n.cfg && p in r.peers && r.peers[p].haveLink && r.peers[p].sendDp == s
    ensures r.reports == Unreport(n.reports, n.peers[p].sendDp)[s := false]
    ensures Core(r.peers[p]) == Core(n.peers[p].(haveLink := true, sendDp := s, isRelay := false))
  {
    hide PeerOk, Links, Cores, Cleanup;
    CleanupSettled(n, p);
    var m := Cleanup(n, p);
    LinkFlags(m, p);
    CoreAt(n, m, p, NoLink(n.peers[p]));
    InitLinkSettled(m, p, s);
    InitLink(m, p, s)
  }

  // What an attempt leaves a peer with: the link made, or nothing and the retry timer.
  ghost predicate Bound(n: Net, p: nat, result: BindResult, s: DataProtoSink?, x: Peer) {
    if result.MakesLink() then x.haveLink && x.sendDp == s && !x.isRelay
    else result.NoLinkMade? ==> Unconnected(x) && (n.Master(p) ==> x.timer)
  }

  // peer_bind_one_address
  ghost function BindOne(n: Net, p: nat, result: BindResult, s: DataProtoSink?): (r: Net)
    requires Settled(n) && p in n.peers && (result.MakesLink() ==> s != null && s !in n.reports)
    ensures Settled(r) && r.cfg == n.cfg && p in r.peers
    ensures result.MakesLink() ==> r.reports == Unreport(n.reports, n.peers[p].sendDp)[s := false]
    ensures r.peers[p].bindingPos == n.peers[p].bindingPos && Bound(n, p, result, s, r.peers[p])
  {
    hide PeerOk, Links, DistinctLinks, Cores, Cleanup, Reset, FreshLink, FlagOk, Unreport;
    if result.MakesLink() then FreshLink(n, p, s)
    else
      CleanupSettled(n, p);
      CoreAt(n, Cleanup(n, p), p, NoLink(n.peers[p]));
      Reset(Cleanup(n, p), p)
  }

  ghost function NextAddress(n: Net, p: nat): (r: Net)
    requires Settled(n) && p in n.peers && n.peers[p].bindingPos < n.cfg.bindAddrs
    ensures Settled(r) && r.cfg == n.cfg && r.reports == n.reports && p in r.peers
    ensures r.peers[p] == n.peers[p].(bindingPos := n.peers[p].bindingPos + 1)
  {
    hide PeerOk, Links, DistinctLinks, FlagOk;
    TimerIsMasters(n, p);
    MarkSettled(n, p, n.peers[p].timer, n.peers[p].binding, n.peers[p].bindingPos + 1);
    Mark(n, p, n.peers[p].timer, n.peers[p].binding, n.peers[p].bindingPos + 1)
  }

  // One turn of the loop of peer_bind.
  ghost function BindTurn(n: Net, p: nat, result: BindResult, s: DataProtoSink?): (r: Net)
    requires Settled(n) && p in n.peers && n.peers[p].bindingPos < n.cfg.bindAddrs && (result.MakesLink() ==> s != null && s !in n.reports)
    ensures Settled(r) && r.cfg == n.cfg && p in r.peers
    ensures r.peers[p].bindingPos == n.peers[p].bindingPos + 1 && Bound(n, p, result, s, r.peers[p])
    ensures result.MakesLink() ==> r.reports == Unreport(n.reports, n.peers[p].sendDp)[s := false]
    ensures result.NoAddress? ==> r.reports == n.reports && r.peers[p].isRelay == n.peers[p].isRelay
  {
    hide PeerOk, Links, DistinctLinks, Cores, Core, Reset, BindOne, FlagOk, Unreport, NextAddress;
    if result.NoAddress? then NextAddress(n, p) else NextAddress(BindOne(n, p, result, s), p)
  }

  // The end of peer_bind, when no address is left.
  ghost function BindEnd(n: Net, p: nat): (r: Net)
    requires Settled(n) && p in n.peers
    ensures Settled(r) && r.cfg == n.cfg && p in r.peers && !r.peers[p].binding && r.peers[p].bindingPos == n.peers[p].bindingPos
    ensures !n.Master(p) && !n.peers[p].isRelay ==> Served(r, p)
  {
    hide PeerOk, Links, DistinctLinks, Cores, NeedRelay, FlagOk;
    var x := n.peers[p];
    TimerIsMasters(n, p);
    MarkSettled(n, p, x.timer, false, x.bindingPos);
    var m := Mark(n, p, x.timer, false, x.bindingPos);
    if !n.Master(p) && !x.isRelay then
      NeedRelaySettled(m, p);
      CoreAt(m, NeedRelay(m, p), p, NoLink(m.peers[p]));
      NeedRelay(m, p)
    else m
  }

  lemma NewLinksNext(reports: map<DataProtoSink, bool>, next: map<DataProtoSink, bool>, results: seq<BindResult>,
                     links: seq<DataProtoSink?>, pos: nat, own: DataProtoSink?)
    requires NewLinks(reports, results, links, pos) && pos < |results|
    requires results[pos].NoAddress? ==> next == reports
    requires results[pos].MakesLink() ==> links[pos] != null && next == Unreport(reports, own)[links[pos] := false]
    ensures results[pos].NoAddress? || results[pos].PortsBusy? ==> NewLinks(next, results, links, pos + 1)
  {
  }

  // The address peer_bind stops at.
  function Stops(results: seq<BindResult>, pos: nat): (k: Option<nat>)
    ensures k.Some? ==> pos <= k.value < |results|
    decreases |results| - pos
  {
    if pos >= |results| then None
    else if results[pos].Bound? || results[pos].NoLinkMade? then Some(pos)
    else Stops(results, pos + 1)
  }

  // peer_bind
  ghost function Bind(n: Net, p: nat, results: seq<BindResult>, links: seq<DataProtoSink?>): (r: Net)
    requires Settled(n) && p in n.peers && |results| == n.cfg.bindAddrs && NewLinks(n.reports, results, links, n.peers[p].bindingPos)
    ensures Settled(r) && r.cfg == n.cfg && p in r.peers
    decreases if p in n.peers then |results| - n.peers[p].bindingPos else 0
  {
    hide PeerOk, Links, DistinctLinks, BindTurn, BindEnd, FlagOk, Unreport;
    var pos := n.peers[p].bindingPos;
    if pos < |results| then
      var m := BindTurn(n, p, results[pos], links[pos]);
      NewLinksNext(n.reports, m.reports, results, links, pos, n.peers[p].sendDp);
      if results[pos].NoAddress? || results[pos].PortsBusy? then Bind(m, p, results, links) else m
    else
      BindEnd(n, p)
  }

  // It stops with a bound link, or where no link could be made, with none and the retry timer;
  // past the last address a peer that is not the master waits for a relay or has one.
  lemma {:induction false} BindStops(n: Net, p: nat, results: seq<BindResult>, links: seq<DataProtoSink?>)
    requires Settled(n) && p in n.peers && |results| == n.cfg.bindAddrs && NewLinks(n.reports, results, links, n.peers[p].bindingPos)
    ensures var r, k := Bind(n, p, results, links), Stops(results, n.peers[p].bindingPos);
      if k.Some? then r.peers[p].bindingPos == k.value + 1 && Bound(n, p, results[k.value], links[k.value], r.peers[p])
      else r.peers[p].bindingPos == n.cfg.bindAddrs && !r.peers[p].binding && (!n.Master(p) ==> Served(r, p) || n.peers[p].isRelay)
    decreases |results| - n.peers[p].bindingPos
  {
    hide NetOk, PeerOk, Links, DistinctLinks, BindTurn, BindEnd, FlagOk, Unreport;
    TimerIsMasters(n, p);
    var pos := n.peers[p].bindingPos;
    if pos < |results| {
      var m := BindTurn(n, p, results[pos], links[pos]);
      NewLinksNext(n.reports, m.reports, results, links, pos, n.peers[p].sendDp);
      if results[pos].NoAddress? || results[pos].PortsBusy? {
        BindStops(m, p, results, links);
      }
    }
  }

  // The loop of peer_bind has come from n to m, making `links`, and goes on.
  ghost predicate BindTrace(n: Net, p: nat, results: seq<BindResult>, links: seq<DataProtoSink?>, m: Net)
    requires Settled(n) && p in n.peers
    decreases if p in n.peers then |links| - n.peers[p].bindingPos else 0
  {
    var pos := n.peers[p].bindingPos;
    if pos >= |links| then n == m && pos == |links|
    else
      && pos < |results| == n.cfg.bindAddrs && (results[pos].NoAddress? || results[pos].PortsBusy?)
      && (results[pos].MakesLink() ==> links[pos] != null && links[pos] !in n.reports)
      && BindTrace(BindTurn(n, p, results[pos], links[pos]), p, results, links, m)
  }

  lemma {:induction false} TraceSnoc(n: Net, p: nat, results: seq<BindResult>, links: seq<DataProtoSink?>, m: Net, s: DataProtoSink?)
    requires Settled(n) && p in n.peers && BindTrace(n, p, results, links, m) && |links| < |results| == n.cfg.bindAddrs
    requires results[|links|].NoAddress? || (results[|links|].PortsBusy? && s != null && s !in m.reports)
    ensures m.cfg == n.cfg && Settled(m) && p in m.peers && m.peers[p].bindingPos == |links|
    ensures BindTrace(n, p, results, links + [s], BindTurn(m, p, results[|links|], s))
    decreases |links| - n.peers[p].bindingPos
  {
    hide PeerOk, Links, DistinctLinks, FlagOk, BindTurn;
    var pos := n.peers[p].bindingPos;
    if pos < |links| {
      assert (links + [s])[pos] == links[pos];
      TraceSnoc(BindTurn(n, p, results[pos], links[pos]), p, results, links, m, s);
    } else {
      assert (links + [s])[pos] == s;
    }
  }

  lemma {:induction false} TraceEnd(n: Net, p: nat, results: seq<BindResult>, links: seq<DataProtoSink?>, m: Net,
                                    full: seq<DataProtoSink?>)
    requires Settled(n) && p in n.peers && BindTrace(n, p, results, links, m)
    requires links <= full && |results| == n.cfg.bindAddrs && NewLinks(n.reports, results, full, n.peers[p].bindingPos)
    ensures m.cfg == n.cfg && Settled(m) && p in m.peers && m.peers[p].bindingPos == |links|
    ensures NewLinks(m.reports, results, full, |links|) && Bind(n, p, results, full) == Bind(m, p, results, full)
    decreases |links| - n.peers[p].bindingPos
  {
    hide PeerOk, Links, DistinctLinks, FlagOk, BindTurn, BindEnd, Unreport;
    var pos := n.peers[p].bindingPos;
    if pos < |links| {
      var next := BindTurn(n, p, results[pos], links[pos]);
      NewLinksNext(n.reports, next.reports, results, full, pos, n.peers[p].sendDp);
      TraceEnd(next, p, results, links, m, full);
    }
  }

  lemma TimerIsMasters(n: Net, p: nat)
    requires Settled(n) && p in n.peers
    ensures (n.peers[p].timer ==> n.Master(p)) && n.peers[p].bindingPos <= n.cfg.bindAddrs
  {
    assert PeerOk(n, p);
  }

  // peer_start_binding
  ghost function StartBinding(n: Net, p: nat, results: seq<BindResult>, links: seq<DataProtoSink?>): (r: Net)
    requires Settled(n) && p in n.peers && |results| == n.cfg.bindAddrs && NewLinks(n.reports, results, links, 0)
    ensures Settled(r) && r.cfg == n.cfg
  {
    hide PeerOk, Links, DistinctLinks, FlagOk, Bind;
    TimerIsMasters(n, p);
    MarkSettled(n, p, n.peers[p].timer, true, 0);
    Bind(Mark(n, p, n.peers[p].timer, true, 0), p, results, links)
  }

  datatype ConnectResult = NoLinkToConnect | ConnectFailed | Connected

  // peer_connect
  ghost function Connect(n: Net, p: nat, result: ConnectResult, s: DataProtoSink?): (r: Net)
    requires Settled(n) && p in n.peers && (!result.NoLinkToConnect? ==> s != null && s !in n.reports)
    ensures Settled(r) && r.cfg == n.cfg && p in r.peers
    ensures if result.Connected? then r.peers[p].haveLink && r.peers[p].sendDp == s && !r.peers[p].isRelay
            else Unconnected(r.peers[p]) && (n.Master(p) ==> r.peers[p].timer)
  {
    hide PeerOk, Links, DistinctLinks, FlagOk, FreshLink, Reset, Cleanup, Cores;
    if result.NoLinkToConnect? then
      CleanupSettled(n, p);
      Reset(Cleanup(n, p), p)
    else
      var m := FreshLink(n, p, s);
      if result.ConnectFailed? then Reset(m, p) else m
  }

  // peer_msg_cannotbind
  ghost function CannotBind(n: Net, p: nat, results: seq<BindResult>, links: seq<DataProtoSink?>): (r: Net)
    requires Settled(n) && p in n.peers && (!n.Master(p) ==> CanBind(n, results, links, 0))
    ensures Settled(r) && r.cfg == n.cfg
  {
    hide PeerOk, Links, DistinctLinks, FlagOk, StartBinding, NeedRelay, Cores;
    if !n.Master(p) then StartBinding(n, p, results, links)
    else if !n.peers[p].isRelay then
      NeedRelaySettled(n, p);
      NeedRelay(n, p)
    else n
  }

  function SetReport(n: Net, s: DataProtoSink, up: bool): Net {
    n.(reports := n.reports[s := up])
  }

  lemma SetReportKeeps(n: Net, s: DataProtoSink, up: bool)
    requires NetOk(n) && s in n.reports
    ensures NetOk(SetReport(n, s, up)) && Cores(SetReport(n, s, up)) == Cores(n)
    ensures SetReport(n, s, up).reports.Keys == n.reports.Keys
  {
    hide Links, DistinctLinks;
    forall q <- n.peers ensures PeerOk(SetReport(n, s, up), q) {
      assert PeerOk(n, q);
    }
  }

  lemma LinkReports(n: Net, p: nat)
    requires NetOk(n) && p in n.peers && n.peers[p].haveLink
    ensures n.peers[p].sendDp != null && n.peers[p].sendDp in n.reports
  {
    assert PeerOk(n, p) && n.peers[p].sendDp in Links(n.peers);
  }

  // A relay server whose link comes up becomes a relay.
  lemma UpSettled(n: Net, p: nat)
    requires Settled(n) && p in n.peers && n.peers[p].haveLink && n.peers[p].relayServer
    requires n.peers[p].sendDp != null && n.peers[p].sendDp in n.reports && !n.reports[n.peers[p].sendDp]
    ensures var m := SetReport(n, n.peers[p].sendDp, true);
      NetOk(m) && !n.peers[p].isRelay && Settled(EnableRelay(m, p))
  {
    hide PeerOk, Links, DistinctLinks, Cores, EnableRelay;
    var x := n.peers[p];
    var m := SetReport(n, x.sendDp, true);
    SetReportKeeps(n, x.sendDp, true);
    assert FlagOk(x, n.reports);
    SettledAfter(n, EnableRelay(m, p), p, x.(isRelay := true));
  }

  // A relay whose link goes down is one no longer.
  lemma DownSettled(n: Net, p: nat)
    requires Settled(n) && p in n.peers && n.peers[p].haveLink && n.peers[p].isRelay
    ensures n.peers[p].sendDp != null && n.peers[p].sendDp in n.reports
    ensures var m := SetReport(n, n.peers[p].sendDp, false);
      NetOk(m) && Settled(DisableRelay(m, p))
  {
    hide PeerOk, Links, DistinctLinks, Cores, DisableRelay;
    LinkReports(n, p);
    var x := n.peers[p];
    var m := SetReport(n, x.sendDp, false);
    SetReportKeeps(n, x.sendDp, false);
    SettledAfter(n, DisableRelay(m, p), p, x.(isRelay := false));
  }

  lemma ReportSettled(n: Net, p: nat, up: bool)
    requires Settled(n) && p in n.peers && n.peers[p].haveLink && (if up then !n.peers[p].relayServer else !n.peers[p].isRelay)
    ensures n.peers[p].sendDp != null && n.peers[p].sendDp in n.reports && Settled(SetReport(n, n.peers[p].sendDp, up))
  {
    hide PeerOk, Links, DistinctLinks, Cores;
    LinkReports(n, p);
    var x := n.peers[p];
    var m := SetReport(n, x.sendDp, up);
    SetReportKeeps(n, x.sendDp, up);
    assert FlagOk(x, n.reports);
    SameCoresAt(n, p);
    SettledAfter(n, m, p, x);
  }

  // up_job_handler of the peer's link, which calls peer_dataproto_handler
  ghost function LinkReport(n: Net, p: nat): (r: Net)
    requires Settled(n) && p in n.peers && n.peers[p].haveLink
    ensures Settled(r) && r.cfg == n.cfg
  {
    hide PeerOk, Links, DistinctLinks, Cores, EnableRelay, DisableRelay, FlagOk;
    LinkReports(n, p);
    var x := n.peers[p];
    var up := !n.reports[x.sendDp];
    var m := SetReport(n, x.sendDp, up);
    if up && x.relayServer then
      UpSettled(n, p);
      EnableRelay(m, p)
    else if !up && x.isRelay then
      DownSettled(n, p);
      DisableRelay(m, p)
    else
      ReportSettled(n, p, up);
      m
  }

  // The link reports the other state, and the peer is a relay exactly when it may be and is up now.
  lemma LinkReportFlips(n: Net, p: nat)
    requires Settled(n) && p in n.peers && n.peers[p].haveLink
    ensures n.peers[p].sendDp != null && n.peers[p].sendDp in n.reports
    ensures var r, up := LinkReport(n, p), !n.reports[n.peers[p].sendDp];
      && r.reports == n.reports[n.peers[p].sendDp := up]
      && p in r.peers && r.peers[p].sendDp == n.peers[p].sendDp && r.peers[p].haveLink
      && (r.peers[p].isRelay <==> n.peers[p].relayServer && up)
  {
    hide NetOk, PeerOk, Links, DistinctLinks, Cores, EnableRelay, DisableRelay;
    LinkReports(n, p);
    var x := n.peers[p];
    var up := !n.reports[x.sendDp];
    var m := SetReport(n, x.sendDp, up);
    SetReportKeeps(n, x.sendDp, up);
    assert FlagOk(x, n.reports);
    if up && x.relayServer {
      LinkFlags(n, p);
      CoreAt(n, EnableRelay(m, p), p, x.(isRelay := true));
    } else if !up && x.isRelay {
      CoreAt(n, DisableRelay(m, p), p, x.(isRelay := false));
    }
  }

  lemma SameCoresAt(n: Net, p: nat)
    requires p in n.peers
    ensures Cores(n) == Cores(n)[p := Core(n.peers[p])]
  {
    assert Cores(n)[p] == Core(n.peers[p]);
  }

  // server_handler_newclient and peer_add
  ghost function NewClient(n: Net, p: nat, relayServer: bool): (r: Net)
    requires Settled(n)
    ensures Settled(r) && r.cfg == n.cfg
  {
    hide PeerOk, Links, DistinctLinks;
    if p in n.peers || p == n.cfg.myId || |n.peers| >= n.cfg.maxPeers then n
    else
      AddPeerKeeps(n, p, relayServer);
      AddPeer(n, p, relayServer)
  }

  // A new peer comes exactly when there is room, starts with no connection, and the others stay.
  lemma NewClientAdds(n: Net, p: nat, relayServer: bool)
    requires Settled(n)
    ensures var r := NewClient(n, p, relayServer);
      && (forall q <- n.peers :: q in r.peers && r.peers[q] == n.peers[q]) && r.peers.Keys <= n.peers.Keys + {p}
      && (p !in n.peers ==> (p in r.peers <==> p != n.cfg.myId && |n.peers| < n.cfg.maxPeers))
      && (p !in n.peers && p in r.peers ==> r.peers[p] == NewPeer(relayServer) && Unconnected(r.peers[p]))
      && (|n.peers| <= n.cfg.maxPeers ==> |r.peers| <= n.cfg.maxPeers)
  {
    hide NetOk, Settled;
  }

  // peer_remove
  ghost function RemovePeer(n: Net, p: nat): (r: Net)
    requires Settled(n) && p in n.peers
    ensures Settled(r) && r.cfg == n.cfg && p !in r.peers
  {
    hide PeerOk, Links, DistinctLinks, Cores, Cleanup;
    CleanupSettled(n, p);
    var m := Cleanup(n, p);
    DeletePeerKeeps(m, p);
    DeletePeer(m, p)
  }

  // DPRelayRouter_SubmitFrame: the flow from src to dst, which there may be already
  ghost function SubmitRelayed(n: Net, src: nat, dst: nat): (r: Net)
    requires Settled(n) && src in n.peers && dst in n.peers
    ensures Settled(r) && r.cfg == n.cfg
  {
    hide Links, DistinctLinks;
    var m := n.(relayed := n.relayed[Route(src, dst) := n.peers[dst].sendDp]);
    RelayedSettled(n, m);
    m
  }

  // flow_inactivity_handler of client/DPRelay.c
  ghost function DropRelayed(n: Net, src: nat, dst: nat): (r: Net)
    requires Settled(n)
    ensures Settled(r) && r.cfg == n.cfg
  {
    var m := n.(relayed := n.relayed - {Route(src, dst)});
    RelayedSettled(n, m);
    m
  }

  // Relay flows come and go without a change to the peers.
  lemma RelayedSettled(n: Net, m: Net)
    requires Settled(n) && m == n.(relayed := m.relayed) && RelayedOk(m)
    ensures Settled(m)
  {
    hide Links, DistinctLinks;
    forall q <- m.peers ensures PeerOk(m, q) {
      assert PeerOk(n, q);
    }
  }

  datatype Event =
    | ServerNewClient(p: nat, relayServer: bool)
    | ServerEndClient(p: nat)
    | JobInit(p: nat, results: seq<BindResult>, links: seq<DataProtoSink?>)
    | ResetTimer(p: nat, results: seq<BindResult>, links: seq<DataProtoSink?>)
    | MsgCannotConnect(p: nat, results: seq<BindResult>, links: seq<DataProtoSink?>)
    | MsgCannotBind(p: nat, results: seq<BindResult>, links: seq<DataProtoSink?>)
    | MsgYouConnect(p: nat, result: ConnectResult, link: DataProtoSink?)
    | MsgYouRetry(p: nat)
    | LinkError(p: nat)
    | LinkUpDown(p: nat)
    | SubmitFrame(src: nat, dst: nat)
    | FlowInactive(src: nat, dst: nat)

  // One result for every bind address, and new links.
  ghost predicate CanBind(n: Net, results: seq<BindResult>, links: seq<DataProtoSink?>, pos: nat) {
    |results| == n.cfg.bindAddrs && NewLinks(n.reports, results, links, pos)
  }

  // When the event loop may call the handler: timers run, links exist, new links are new.
  ghost predicate Enabled(n: Net, e: Event) {
    match e
    case ServerNewClient(_, _) => true
    case ServerEndClient(_) => true
    case JobInit(p, results, links) => p in n.peers && (n.Master(p) ==> CanBind(n, results, links, 0))
    case ResetTimer(p, results, links) => p in n.peers && n.peers[p].timer && CanBind(n, results, links, 0)
    case MsgCannotConnect(p, results, links) =>
      p in n.peers && (n.peers[p].binding ==> CanBind(n, results, links, n.peers[p].bindingPos))
    case MsgCannotBind(p, results, links) => p in n.peers && (!n.Master(p) ==> CanBind(n, results, links, 0))
    case MsgYouConnect(p, result, s) => p in n.peers && (!result.NoLinkToConnect? ==> s != null && s !in n.reports)
    case MsgYouRetry(p) => p in n.peers
    case LinkError(p) => p in n.peers && n.peers[p].haveLink
    case LinkUpDown(p) => p in n.peers && n.peers[p].haveLink
    case SubmitFrame(src, dst) => src in n.peers && dst in n.peers
    case FlowInactive(src, dst) => Route(src, dst) in n.relayed
  }

  // Every handler leaves the tables settled.
  ghost function Step(n: Net, e: Event): (r: Net)
    requires Settled(n) && Enabled(n, e)
    ensures Settled(r) && r.cfg == n.cfg
  {
    hide PeerOk, Links, DistinctLinks, FlagOk, NewClient, RemovePeer, StartBinding, Bind, CannotBind, Connect, Reset, LinkReport, SubmitRelayed, DropRelayed;
    match e
    case ServerNewClient(p, relayServer) => NewClient(n, p, relayServer)
    case ServerEndClient(p) => if p in n.peers then RemovePeer(n, p) else n
    case JobInit(p, results, links) => if n.Master(p) then StartBinding(n, p, results, links) else n
    case ResetTimer(p, results, links) =>
      TimerIsMasters(n, p);
      MarkSettled(n, p, false, n.peers[p].binding, n.peers[p].bindingPos);
      StartBinding(Mark(n, p, false, n.peers[p].binding, n.peers[p].bindingPos), p, results, links)
    case MsgCannotConnect(p, results, links) => if n.peers[p].binding then Bind(n, p, results, links) else n
    case MsgCannotBind(p, results, links) => CannotBind(n, p, results, links)
    case MsgYouConnect(p, result, s) => Connect(n, p, result, s)
    case MsgYouRetry(p) => if n.Master(p) then Reset(n, p) else n
    case LinkError(p) => Reset(n, p)
    case LinkUpDown(p) => LinkReport(n, p)
    case SubmitFrame(src, dst) => SubmitRelayed(n, src, dst)
    case FlowInactive(src, dst) => DropRelayed(n, src, dst)
  }

  // Tables a run of events can lead to.
  ghost predicate Reaches(n: Net, es: seq<Event>, m: Net)
    requires Settled(n)
    decreases |es|
  {
    if es == [] then m == n
    else Enabled(n, es[0]) && Reaches(Step(n, es[0]), es[1..], m)
  }

  ghost function Start(cfg: NetConfig): (n: Net)
    ensures Settled(n)
  {
    Net(cfg, map[], [], [], map[], map[], map[])
  }

  // Relay assignment, in every reachable state: the invariants, nobody waiting while there is a
  // relay, and relays exactly where a relay server's link is up.
  lemma {:induction false} ReachableSettled(n: Net, es: seq<Event>, m: Net)
    requires Settled(n) && Reaches(n, es, m)
    ensures Settled(m)
    decreases |es|
  {
    if es != [] {
      ReachableSettled(Step(n, es[0]), es[1..], m);
    }
  }

  // Sink lifetime, in every reachable state: when a peer's link is freed, the only flows attached
  // to it are the peer's own local flow and the relay flows towards the peer, and afterwards no
  // flow of any kind is.
  lemma FreedLinkUnwanted(n: Net, es: seq<Event>, m: Net, p: nat)
    requires Settled(n) && Reaches(n, es, m) && p in m.peers && m.peers[p].haveLink && !m.peers[p].isRelay
    ensures m.peers[p].sendDp != null
    ensures forall q <- m.peers :: q in m.wants && (m.wants[q] == m.peers[p].sendDp <==> q == p)
    ensures forall r <- m.relayed :: m.relayed[r] == m.peers[p].sendDp <==> r.dst == p
    ensures var f := FreeLink(m, p);
      m.peers[p].sendDp !in f.wants.Values && m.peers[p].sendDp !in f.relayed.Values && m.peers[p].sendDp !in f.reports
  {
    ReachableSettled(n, es, m);
    FreeLinkKeeps(m, p);
    assert PeerOk(m, p);
  }
}
