// What every event of client/client.c leaves each peer with: links, flags and timers exactly, and
// whether it waits for a relay or has one.
module PeersOutcomes {
  import opened Wrappers
  import opened Lists
  import opened DataProtoState
  import opened DPRelayState
  import opened PeersSpec
  import opened PeersSafety
  import opened PeersEvents
  import opened PeersRuns

  // The peers but p wait for a relay or have one exactly if they did.
  ghost predicate SameServed(n: Net, m: Net, p: nat) {
    forall q: nat :: q != p ==> (Served(n, q) <==> Served(m, q))
  }

  ghost predicate AllServed(n: Net, m: Net) {
    forall q: nat :: Served(n, q) <==> Served(m, q)
  }

  lemma AssignOneServed(n: Net)
    requires NetOk(n) && !Assigned(n)
    ensures AllServed(n, AssignOne(n))
  {
    WaitingFirst(n);
    hide NetOk, Remove;
  }

  lemma {:induction false} AssignServed(n: Net)
    requires NetOk(n)
    ensures AllServed(n, AssignRelays(n))
    decreases |n.waiting|
  {
    hide NetOk, AssignOne, Served;
    if !Assigned(n) {
      AssignKeeps(n);
      AssignOneServed(n);
      AssignServed(AssignOne(n));
    }
  }

  lemma AssignedOne(n: Net)
    requires NetOk(n) && !Assigned(n)
    ensures var m, p, relay := AssignOne(n), n.waiting[0], n.relays[0];
      && relay in n.peers && relay in m.peers && m.peers.Keys == n.peers.Keys && m.waiting == n.waiting[1..]
      && m.peers[relay].relayUsers == n.peers[relay].relayUsers + [p]
      && (forall q <- n.peers :: m.peers[q].relaying == if q == p then Some(relay) else n.peers[q].relaying)
      && (forall q <- n.peers :: q != relay ==> m.peers[q].relayUsers == n.peers[q].relayUsers)
  {
    WaitingFirst(n);
    hide NetOk;
  }

  // Assigning gives all peers that wait to the first relay, in the order in which they wait, and
  // changes nobody else.
  lemma {:induction false} AssignsToFirst(n: Net, q: nat)
    requires NetOk(n) && n.relays != [] && q in n.peers
    ensures var r, relay := AssignRelays(n), n.relays[0];
      && r.waiting == [] && q in r.peers
      && r.peers[q].relaying == (if q in n.waiting then Some(relay) else n.peers[q].relaying)
      && r.peers[q].relayUsers == n.peers[q].relayUsers + if q == relay then n.waiting else []
    decreases |n.waiting|
  {
    hide NetOk, AssignOne;
    if n.waiting != [] {
      AssignKeeps(n);
      AssignedOne(n);
      AssignsToFirst(AssignOne(n), q);
      assert n.waiting == [n.waiting[0]] + n.waiting[1..];
    } else {
      assert n.peers[q].relayUsers + [] == n.peers[q].relayUsers;
    }
  }

  lemma DropUserServed(n: Net, p: nat)
    requires NetOk(n) && p in n.peers && n.peers[p].relayUsers != []
    ensures AllServed(n, DropUser(n, p))
  {
    FirstUser(n, p);
    hide NetOk, Remove;
  }

  lemma {:induction false} DropUsersServed(n: Net, p: nat)
    requires NetOk(n) && p in n.peers
    ensures AllServed(n, DropUsers(n, p))
    decreases |n.peers[p].relayUsers|
  {
    hide NetOk, DropUser, Served;
    if n.peers[p].relayUsers != [] {
      DropUserKeeps(n, p);
      DropUserServed(n, p);
      DropUsersServed(DropUser(n, p), p);
    }
  }

  lemma DisableServed(n: Net, p: nat)
    requires NetOk(n) && p in n.peers && n.peers[p].isRelay
    ensures AllServed(n, DisableRelay(n, p))
  {
    hide PeerOk, Links, DistinctLinks, Remove, DropUsers;
    var m := DropUsers(n, p);
    DropUsersServed(n, p);
    SameCore(n, m, p);
    RemoveRelayKeeps(m, p);
    AssignServed(RemoveRelay(m, p));
    hide NetOk, DropUsers, AssignRelays;
    assert AllServed(m, RemoveRelay(m, p));
  }

  lemma EnableServed(n: Net, p: nat)
    requires NetOk(n) && p in n.peers && n.peers[p].haveLink && !n.peers[p].isRelay
    ensures AllServed(n, EnableRelay(n, p))
  {
    hide PeerOk, Links, DistinctLinks;
    AddRelayKeeps(n, p);
    AssignServed(AddRelay(n, p));
    hide NetOk, AssignRelays;
    assert AllServed(n, AddRelay(n, p));
  }

  lemma UnlinkServed(n: Net, p: nat)
    requires NetOk(n) && p in n.peers && n.peers[p].haveLink
    ensures AllServed(n, Unlink(n, p))
  {
    hide PeerOk, Links, DistinctLinks, DisableRelay;
    if n.peers[p].isRelay {
      var m := DisableRelay(n, p);
      DisableServed(n, p);
      DropLinkKeeps(n, m, p);
      hide NetOk, DisableRelay;
      assert AllServed(m, FreeLink(m, p));
    } else {
      NotRelayCore(n, p);
      DropLinkKeeps(n, n, p);
      hide NetOk;
    }
  }

  lemma CleanupServed(n: Net, p: nat)
    requires NetOk(n) && p in n.peers
    ensures SameServed(n, Cleanup(n, p), p) && !Served(Cleanup(n, p), p)
  {
    if n.peers[p].haveLink {
      UnlinkServed(n, p);
      hide NetOk, Unlink;
    } else {
      assert PeerOk(n, p);
      hide NetOk, PeerOk, Remove;
    }
  }

  lemma NeedRelayServed(n: Net, p: nat)
    requires NetOk(n) && p in n.peers && !n.peers[p].isRelay
    ensures SameServed(n, NeedRelay(n, p), p) && Served(NeedRelay(n, p), p)
  {
    if !n.peers[p].waitingRelay {
      var m := Cleanup(n, p);
      CleanupServed(n, p);
      RegisterKeeps(m, p);
      AssignServed(Register(m, p));
      hide NetOk, Cleanup, AssignRelays;
      assert SameServed(m, Register(m, p), p);
    }
  }

  // Other peers' links report what they did, and no link reports up that did not before.
  ghost predicate ReportsFollow(n: Net, r: Net, p: nat) {
    && (forall q <- n.peers :: q != p && n.peers[q].sendDp != null ==>
          var s := n.peers[q].sendDp;
          s in n.reports && s in r.reports && r.reports[s] == n.reports[s])
    && (forall s <- r.reports :: r.reports[s] ==> s in n.reports && n.reports[s])
  }

  // Only p changes, and becomes y, but for how it uses relays.
  ghost predicate Becomes(n: Net, r: Net, p: nat, y: Peer) {
    p in n.peers && r.cfg == n.cfg && Cores(r) == Cores(n)[p := Core(y)] && SameServed(n, r, p) && ReportsFollow(n, r, p)
  }

  lemma CoresEqual(n: Net, r: Net, p: nat, x: Peer, q: nat)
    requires p in n.peers && Cores(r) == Cores(n)[p := Core(x)] && q in n.peers && q != p
    ensures q in r.peers && r.peers[q].sendDp == n.peers[q].sendDp && Core(r.peers[q]) == Core(n.peers[q])
  {
    assert q in Cores(r) && Cores(r)[q] == Core(r.peers[q]) && Cores(n)[q] == Core(n.peers[q]);
  }

  lemma Chained(n: Net, m: Net, r: Net, p: nat, y: Peer, z: Peer)
    requires Becomes(n, m, p, y) && Becomes(m, r, p, z)
    ensures Becomes(n, r, p, z)
  {
    hide Cores, Served, Core;
    assert Cores(n)[p := Core(y)][p := Core(z)] == Cores(n)[p := Core(z)];
    forall q <- n.peers | q != p && n.peers[q].sendDp != null
      ensures n.peers[q].sendDp in r.reports && r.reports[n.peers[q].sendDp] == n.reports[n.peers[q].sendDp]
    {
      CoresEqual(n, m, p, y, q);
    }
  }

  lemma OtherLink(n: Net, p: nat, q: nat)
    requires NetOk(n) && p in n.peers && q in n.peers && p != q && n.peers[q].sendDp != null
    ensures n.peers[q].sendDp in n.reports && n.peers[q].sendDp != n.peers[p].sendDp
  {
    hide PeerOk;
    assert n.peers[q].sendDp in Links(n.peers);
  }

  lemma UnreportFollows(n: Net, r: Net, p: nat)
    requires NetOk(n) && p in n.peers && r.reports == Unreport(n.reports, n.peers[p].sendDp)
    ensures ReportsFollow(n, r, p)
  {
    hide NetOk;
    forall q <- n.peers | q != p && n.peers[q].sendDp != null
      ensures n.peers[q].sendDp in n.reports && n.peers[q].sendDp in r.reports
      ensures r.reports[n.peers[q].sendDp] == n.reports[n.peers[q].sendDp]
    {
      OtherLink(n, p, q);
    }
  }

  lemma CleanupBecomes(n: Net, p: nat)
    requires NetOk(n) && p in n.peers
    ensures Becomes(n, Cleanup(n, p), p, NoLink(n.peers[p])) && !Served(Cleanup(n, p), p)
  {
    hide NetOk, Cores, Served, Cleanup;
    CleanupServed(n, p);
    UnreportFollows(n, Cleanup(n, p), p);
  }

  lemma SameReports(n: Net, r: Net, p: nat)
    requires NetOk(n) && r.reports == n.reports
    ensures ReportsFollow(n, r, p)
  {
    hide PeerOk, DistinctLinks;
    forall q <- n.peers | n.peers[q].sendDp != null ensures n.peers[q].sendDp in n.reports {
      assert n.peers[q].sendDp in Links(n.peers);
    }
  }

  lemma MarkBecomes(n: Net, p: nat, timer: bool, binding: bool, bindingPos: nat)
    requires NetOk(n) && p in n.peers
    ensures Becomes(n, Mark(n, p, timer, binding, bindingPos), p, n.peers[p].(timer := timer, binding := binding, bindingPos := bindingPos))
    ensures Served(Mark(n, p, timer, binding, bindingPos), p) <==> Served(n, p)
  {
    hide PeerOk, Links, DistinctLinks;
    SameReports(n, Mark(n, p, timer, binding, bindingPos), p);
    hide NetOk, RelayedOk;
  }

  lemma NeedRelayBecomes(n: Net, p: nat)
    requires NetOk(n) && p in n.peers && !n.peers[p].isRelay
    ensures Becomes(n, NeedRelay(n, p), p, NoLink(n.peers[p])) && Served(NeedRelay(n, p), p)
  {
    hide NetOk, Cores, Served, NeedRelay;
    NeedRelayServed(n, p);
    UnreportFollows(n, NeedRelay(n, p), p);
  }

  // A peer that is reset has no connection, and a master the retry timer.
  function ResetPeer(master: bool, x: Peer): Peer {
    NoLink(x).(timer := x.timer || master)
  }

  function LinkedPeer(x: Peer, s: DataProtoSink): Peer {
    x.(haveLink := true, sendDp := s, isRelay := false)
  }

  lemma ResetBecomes(n: Net, p: nat)
    requires Settled(n) && p in n.peers
    ensures Becomes(n, Reset(n, p), p, ResetPeer(n.Master(p), n.peers[p])) && !Served(Reset(n, p), p)
  {
    hide PeerOk, Links, DistinctLinks, Cores, Served, Cleanup;
    var m, x := Cleanup(n, p), n.peers[p];
    CleanupSettled(n, p);
    CleanupBecomes(n, p);
    CoreAt(n, m, p, NoLink(x));
    TimerIsMasters(m, p);
    if n.Master(p) {
      var y := m.peers[p];
      MarkBecomes(m, p, true, y.binding, y.bindingPos);
      Chained(n, m, Reset(n, p), p, NoLink(x), y.(timer := true));
      assert Core(y.(timer := true)) == Core(ResetPeer(true, x));
    } else {
      TimerIsMasters(n, p);
    }
  }

  lemma InitLinkBecomes(n: Net, p: nat, s: DataProtoSink)
    requires NetOk(n) && p in n.peers && s !in n.reports && n.peers[p].sendDp == null
    ensures Becomes(n, InitLink(n, p, s), p, n.peers[p].(haveLink := true, sendDp := s))
    ensures Served(InitLink(n, p, s), p) <==> Served(n, p)
  {
    InitLinkCores(n, p, s);
    SameReports(n, n, p);
    hide NetOk, Retarget;
  }

  lemma FreshLinkBecomes(n: Net, p: nat, s: DataProtoSink)
    requires Settled(n) && p in n.peers && s !in n.reports
    ensures Becomes(n, FreshLink(n, p, s), p, LinkedPeer(n.peers[p], s)) && !Served(FreshLink(n, p, s), p)
  {
    hide PeerOk, Links, DistinctLinks, Cores, Served, Cleanup, InitLink;
    var m := Cleanup(n, p);
    CleanupBecomes(n, p);
    CoreAt(n, m, p, NoLink(n.peers[p]));
    LinkFlags(m, p);
    InitLinkBecomes(m, p, s);
    Chained(n, m, InitLink(m, p, s), p, NoLink(n.peers[p]), m.peers[p].(haveLink := true, sendDp := s));
    assert Core(m.peers[p].(haveLink := true, sendDp := s)) == Core(LinkedPeer(n.peers[p], s));
  }

  // The last address from pos on at which a link was made but all ports were taken.
  function LastBusy(results: seq<BindResult>, pos: nat): (k: Option<nat>)
    ensures k.Some? ==> pos <= k.value < |results|
    decreases |results| - pos
  {
    if pos >= |results| then None
    else if LastBusy(results, pos + 1).Some? then LastBusy(results, pos + 1)
    else if results[pos].PortsBusy? then Some(pos)
    else None
  }

  // What binding from address pos on leaves a peer with: a bound link; or, where no link could be
  // made, what a reset leaves; or, past the last address, the last link made, which a peer that is
  // neither the master nor a relay gives up for a relay.
  function BoundPeer(master: bool, x: Peer, results: seq<BindResult>, links: seq<DataProtoSink?>, pos: nat): Peer
    requires |links| == |results|
  {
    var k, busy := Stops(results, pos), LastBusy(results, pos);
    if k.Some? && results[k.value].Bound? then TakeLink(x, links[k.value]).(bindingPos := k.value + 1)
    else if k.Some? then ResetPeer(master, x).(bindingPos := k.value + 1)
    else EndPeer(master, if busy.Some? then TakeLink(x, links[busy.value]) else x, |results|)
  }

  function EndPeer(master: bool, x: Peer, end: nat): Peer {
    var y := x.(binding := false, bindingPos := end);
    if master || y.isRelay then y else NoLink(y)
  }

  function TakeLink(x: Peer, s: DataProtoSink?): Peer {
    if s == null then x else LinkedPeer(x, s)
  }

  // After binding a peer waits for a relay or has one: when it ran out of addresses, and gave up
  // its link for a relay or never got as far as making one.
  predicate StillServed(keeps: bool, before: bool, results: seq<BindResult>, pos: nat) {
    Stops(results, pos).None? && (keeps ==> LastBusy(results, pos).None? && before)
  }

  ghost predicate BindOutcome(n: Net, p: nat, x: Peer, results: seq<BindResult>, links: seq<DataProtoSink?>, pos: nat, r: Net)
    requires p in n.peers && |links| == |results|
  {
    var y := BoundPeer(n.Master(p), x, results, links, pos);
    && Becomes(n, r, p, y)
    && (Served(r, p) <==> StillServed(n.Master(p) || y.isRelay, Served(n, p), results, pos))
  }

  lemma NextBecomes(n: Net, p: nat)
    requires Settled(n) && p in n.peers && n.peers[p].bindingPos < n.cfg.bindAddrs
    ensures Becomes(n, NextAddress(n, p), p, n.peers[p].(bindingPos := n.peers[p].bindingPos + 1))
    ensures Served(NextAddress(n, p), p) <==> Served(n, p)
  {
    hide PeerOk, Links, DistinctLinks;
    MarkBecomes(n, p, n.peers[p].timer, n.peers[p].binding, n.peers[p].bindingPos + 1);
  }

  function TurnPeer(master: bool, x: Peer, result: BindResult, s: DataProtoSink?): Peer {
    (if result.NoAddress? then x else if result.NoLinkMade? then ResetPeer(master, x) else TakeLink(x, s)).
      (bindingPos := x.bindingPos + 1)
  }

  lemma BindOneBecomes(n: Net, p: nat, result: BindResult, s: DataProtoSink?)
    requires Settled(n) && p in n.peers && (result.MakesLink() ==> s != null && s !in n.reports) && !result.NoAddress?
    ensures Becomes(n, BindOne(n, p, result, s), p, if result.MakesLink() then TakeLink(n.peers[p], s) else ResetPeer(n.Master(p), n.peers[p]))
    ensures !Served(BindOne(n, p, result, s), p)
  {
    hide PeerOk, Links, DistinctLinks, Cores, Served, Cleanup, FreshLink, Reset, NetOk;
    if result.MakesLink() {
      FreshLinkBecomes(n, p, s);
    } else {
      var m, x := Cleanup(n, p), n.peers[p];
      CleanupSettled(n, p);
      CleanupBecomes(n, p);
      CoreAt(n, m, p, NoLink(x));
      ResetBecomes(m, p);
      Chained(n, m, Reset(m, p), p, NoLink(x), ResetPeer(n.Master(p), m.peers[p]));
      assert Core(ResetPeer(n.Master(p), m.peers[p])) == Core(ResetPeer(n.Master(p), x));
    }
  }

  lemma TurnBecomes(n: Net, p: nat, result: BindResult, s: DataProtoSink?)
    requires Settled(n) && p in n.peers && n.peers[p].bindingPos < n.cfg.bindAddrs && (result.MakesLink() ==> s != null && s !in n.reports)
    ensures Becomes(n, BindTurn(n, p, result, s), p, TurnPeer(n.Master(p), n.peers[p], result, s))
    ensures Served(BindTurn(n, p, result, s), p) <==> result.NoAddress? && Served(n, p)
  {
    hide PeerOk, Links, DistinctLinks, Cores, Served, BindOne, NextAddress, NetOk;
    if result.NoAddress? {
      NextBecomes(n, p);
    } else {
      var m := BindOne(n, p, result, s);
      BindOneBecomes(n, p, result, s);
      NextBecomes(m, p);
      var y := if result.MakesLink() then TakeLink(n.peers[p], s) else ResetPeer(n.Master(p), n.peers[p]);
      CoreAt(n, m, p, y);
      Chained(n, m, NextAddress(m, p), p, y, m.peers[p].(bindingPos := m.peers[p].bindingPos + 1));
      assert Core(m.peers[p].(bindingPos := m.peers[p].bindingPos + 1)) == Core(y.(bindingPos := n.peers[p].bindingPos + 1));
    }
  }

  lemma EndBecomes(n: Net, p: nat)
    requires Settled(n) && p in n.peers
    ensures var y := n.peers[p].(binding := false);
      && Becomes(n, BindEnd(n, p), p, if n.Master(p) || y.isRelay then y else NoLink(y))
      && (Served(BindEnd(n, p), p) <==> (if n.Master(p) || y.isRelay then Served(n, p) else true))
  {
    hide PeerOk, Links, DistinctLinks, Cores, Served, NeedRelay, Mark;
    var x := n.peers[p];
    TimerIsMasters(n, p);
    MarkSettled(n, p, x.timer, false, x.bindingPos);
    var m := Mark(n, p, x.timer, false, x.bindingPos);
    MarkBecomes(n, p, x.timer, false, x.bindingPos);
    if !n.Master(p) && !x.isRelay {
      CoreAt(n, m, p, x.(binding := false));
      NeedRelayBecomes(m, p);
      Chained(n, m, NeedRelay(m, p), p, x.(binding := false), NoLink(m.peers[p]));
      assert Core(NoLink(m.peers[p])) == Core(NoLink(x.(binding := false)));
    }
  }

  // There is a link wherever one was made before the loop stops.
  ghost predicate LinksThere(results: seq<BindResult>, links: seq<DataProtoSink?>, pos: nat) {
    |links| == |results| && forall i :: pos <= i < Reach(results, pos) && results[i].MakesLink() ==> links[i] != null
  }

  lemma {:induction false} ReachesEnd(results: seq<BindResult>, pos: nat)
    ensures Stops(results, pos).None? ==> Reach(results, pos) == |results| || pos > |results|
    ensures Stops(results, pos).Some? ==> Reach(results, pos) == Stops(results, pos).value + 1
    decreases |results| - pos
  {
    if pos < |results| {
      ReachesEnd(results, pos + 1);
    }
  }

  lemma SameBound(master: bool, x: Peer, y: Peer, results: seq<BindResult>, links: seq<DataProtoSink?>, pos: nat)
    requires |links| == |results| && Core(x).(bindingPos := 0) == Core(y).(bindingPos := 0)
    ensures Core(BoundPeer(master, x, results, links, pos)) == Core(BoundPeer(master, y, results, links, pos))
    ensures BoundPeer(master, x, results, links, pos).isRelay == BoundPeer(master, y, results, links, pos).isRelay
  {
    hide Stops, LastBusy, TakeLink;
    var k, busy := Stops(results, pos), LastBusy(results, pos);
    if k.Some? && results[k.value].Bound? {
      SameTake(x, y, links[k.value]);
    } else if k.None? && busy.Some? {
      SameTake(x, y, links[busy.value]);
    }
  }

  lemma SameTake(x: Peer, y: Peer, s: DataProtoSink?)
    requires Core(x).(bindingPos := 0) == Core(y).(bindingPos := 0)
    ensures Core(TakeLink(x, s)).(bindingPos := 0) == Core(TakeLink(y, s)).(bindingPos := 0)
  {
  }

  // A further address of a loop that goes on: the outcome from the next one on is that from here on.
  lemma TurnBound(master: bool, x: Peer, results: seq<BindResult>, links: seq<DataProtoSink?>, pos: nat)
    requires pos < |results| && (results[pos].NoAddress? || results[pos].PortsBusy?) && LinksThere(results, links, pos)
    ensures var t := TurnPeer(master, x, results[pos], links[pos]);
      BoundPeer(master, t, results, links, pos + 1) == BoundPeer(master, x, results, links, pos)
  {
    ReachesEnd(results, pos);
    if Stops(results, pos).Some? {
      TurnStops(master, x, results, links, pos);
    } else {
      TurnEnds(master, x, results, links, pos);
    }
  }

  lemma TurnStops(master: bool, x: Peer, results: seq<BindResult>, links: seq<DataProtoSink?>, pos: nat)
    requires |links| == |results| && pos < |results| && (results[pos].NoAddress? || results[pos].PortsBusy?)
    requires Stops(results, pos).Some? && (results[Stops(results, pos).value].Bound? ==> links[Stops(results, pos).value] != null)
    ensures var t := TurnPeer(master, x, results[pos], links[pos]);
      BoundPeer(master, t, results, links, pos + 1) == BoundPeer(master, x, results, links, pos)
  {
    var k := Stops(results, pos).value;
    TakenOver(master, x, links[pos], x.bindingPos + 1, links[k]);
    hide TakeLink, ResetPeer, LastBusy;
  }

  lemma TurnEnds(master: bool, x: Peer, results: seq<BindResult>, links: seq<DataProtoSink?>, pos: nat)
    requires pos < |results| && (results[pos].NoAddress? || results[pos].PortsBusy?) && LinksThere(results, links, pos)
    requires Stops(results, pos).None? && Reach(results, pos) == |results| == |links|
    ensures var t := TurnPeer(master, x, results[pos], links[pos]);
      BoundPeer(master, t, results, links, pos + 1) == BoundPeer(master, x, results, links, pos)
  {
    hide TakeLink, ResetPeer, Reach, EndPeer, LastBusy, Stops, LinksThere;
    BusyNext(results, links, pos);
    var busy := LastBusy(results, pos + 1);
    var next := if busy.Some? then links[busy.value] else null;
    TakenOver(master, x, links[pos], x.bindingPos + 1, next);
    if busy.Some? {
      SameEnd(master, TakeLink(x, next), x.bindingPos + 1, |results|);
    } else if results[pos].PortsBusy? {
      SameEnd(master, TakeLink(x, links[pos]), x.bindingPos + 1, |results|);
    } else {
      SameEnd(master, x, x.bindingPos + 1, |results|);
    }
  }

  lemma BusyNext(results: seq<BindResult>, links: seq<DataProtoSink?>, pos: nat)
    requires pos < |results| && (results[pos].NoAddress? || results[pos].PortsBusy?) && LinksThere(results, links, pos)
    requires Stops(results, pos).None? && Reach(results, pos) == |results|
    ensures var busy := LastBusy(results, pos + 1);
      && LastBusy(results, pos) == (if busy.Some? then busy else if results[pos].PortsBusy? then Some(pos) else None)
      && Stops(results, pos + 1).None? && (busy.Some? ==> links[busy.value] != null)
  {
    BusyIsBusy(results, pos + 1);
  }

  lemma SameEnd(master: bool, y: Peer, pos: nat, end: nat)
    ensures EndPeer(master, y.(bindingPos := pos), end) == EndPeer(master, y, end)
  {
  }

  // A link is taken in place of another, and a reset gives it up.
  lemma TakenOver(master: bool, x: Peer, s: DataProtoSink?, pos: nat, next: DataProtoSink?)
    ensures TakeLink(x.(bindingPos := pos), next) == TakeLink(x, next).(bindingPos := pos)
    ensures next != null ==> TakeLink(TakeLink(x, s).(bindingPos := pos), next) == TakeLink(x, next).(bindingPos := pos)
    ensures ResetPeer(master, TakeLink(x, s).(bindingPos := pos)) == ResetPeer(master, x).(bindingPos := pos)
    ensures ResetPeer(master, x.(bindingPos := pos)) == ResetPeer(master, x).(bindingPos := pos)
  {
  }

  lemma {:induction false} BusyIsBusy(results: seq<BindResult>, pos: nat)
    ensures LastBusy(results, pos).Some? ==> results[LastBusy(results, pos).value].PortsBusy?
    decreases |results| - pos
  {
    if pos < |results| {
      BusyIsBusy(results, pos + 1);
    }
  }

  // One address after another comes to the same as the outcome says at once.
  lemma NextOutcome(n: Net, p: nat, m: Net, r: Net, x: Peer, results: seq<BindResult>, links: seq<DataProtoSink?>, pos: nat)
    requires p in n.peers && p in m.peers && LinksThere(results, links, pos) && pos < |results|
    requires results[pos].NoAddress? || results[pos].PortsBusy?
    requires x == n.peers[p] && Becomes(n, m, p, TurnPeer(n.Master(p), x, results[pos], links[pos]))
    requires Served(m, p) <==> results[pos].NoAddress? && Served(n, p)
    requires BindOutcome(m, p, m.peers[p], results, links, pos + 1, r)
    ensures BindOutcome(n, p, x, results, links, pos, r)
  {
    var t := TurnPeer(n.Master(p), x, results[pos], links[pos]);
    CoreAt(n, m, p, t);
    TurnBound(n.Master(p), x, results, links, pos);
    hide Cores, Served, BoundPeer, TurnPeer;
    SameBound(n.Master(p), t, m.peers[p], results, links, pos + 1);
    Chained(n, m, r, p, t, BoundPeer(n.Master(p), m.peers[p], results, links, pos + 1));
  }

  lemma {:induction false} BindBecomes(n: Net, p: nat, results: seq<BindResult>, links: seq<DataProtoSink?>)
    requires Settled(n) && p in n.peers && |results| == n.cfg.bindAddrs && NewLinks(n.reports, results, links, n.peers[p].bindingPos)
    ensures BindOutcome(n, p, n.peers[p], results, links, n.peers[p].bindingPos, Bind(n, p, results, links))
    decreases |results| - n.peers[p].bindingPos
  {
    hide NetOk, PeerOk, Links, DistinctLinks, BindTurn, BindEnd, FlagOk, Unreport, Becomes, Served, BindOutcome;
    TimerIsMasters(n, p);
    var pos, x := n.peers[p].bindingPos, n.peers[p];
    if pos < |results| {
      var m := BindTurn(n, p, results[pos], links[pos]);
      TurnBecomes(n, p, results[pos], links[pos]);
      NewLinksNext(n.reports, m.reports, results, links, pos, x.sendDp);
      if results[pos].NoAddress? || results[pos].PortsBusy? {
        BindBecomes(m, p, results, links);
        LinksAreThere(n.reports, results, links, pos);
        NextOutcome(n, p, m, Bind(m, p, results, links), x, results, links, pos);
      } else {
        LastTurn(n, p, m, results, links);
      }
    } else {
      EndBecomes(n, p);
      EndOutcome(n, p, results, links);
    }
  }

  lemma LinksAreThere(reports: map<DataProtoSink, bool>, results: seq<BindResult>, links: seq<DataProtoSink?>, pos: nat)
    requires NewLinks(reports, results, links, pos)
    ensures LinksThere(results, links, pos)
  {
  }

  lemma LastTurn(n: Net, p: nat, m: Net, results: seq<BindResult>, links: seq<DataProtoSink?>)
    requires p in n.peers && |links| == |results| && n.peers[p].bindingPos < |results|
    requires var pos := n.peers[p].bindingPos;
      && (results[pos].NoLinkMade? || (results[pos].Bound? && links[pos] != null))
      && Becomes(n, m, p, TurnPeer(n.Master(p), n.peers[p], results[pos], links[pos])) && !Served(m, p)
    ensures BindOutcome(n, p, n.peers[p], results, links, n.peers[p].bindingPos, m)
  {
    hide Becomes, Served;
  }

  lemma EndOutcome(n: Net, p: nat, results: seq<BindResult>, links: seq<DataProtoSink?>)
    requires Settled(n) && p in n.peers && |links| == |results| == n.cfg.bindAddrs == n.peers[p].bindingPos
    requires var y := n.peers[p].(binding := false);
      && Becomes(n, BindEnd(n, p), p, if n.Master(p) || y.isRelay then y else NoLink(y))
      && (Served(BindEnd(n, p), p) <==> (if n.Master(p) || y.isRelay then Served(n, p) else true))
    ensures BindOutcome(n, p, n.peers[p], results, links, n.peers[p].bindingPos, BindEnd(n, p))
  {
    hide Becomes, Served, Settled, BindEnd;
    assert n.peers[p].(binding := false, bindingPos := |results|) == n.peers[p].(binding := false);
  }

  // A whole attempt to bind, from the first address on.
  lemma StartBecomes(n: Net, p: nat, results: seq<BindResult>, links: seq<DataProtoSink?>)
    requires Settled(n) && p in n.peers && CanBind(n, results, links, 0)
    ensures BindOutcome(n, p, n.peers[p].(binding := true), results, links, 0, StartBinding(n, p, results, links))
  {
    hide NetOk, PeerOk, Links, DistinctLinks, FlagOk, Bind, Cores, Served;
    var x := n.peers[p];
    TimerIsMasters(n, p);
    MarkSettled(n, p, x.timer, true, 0);
    var m := Mark(n, p, x.timer, true, 0);
    MarkBecomes(n, p, x.timer, true, 0);
    BindBecomes(m, p, results, links);
    SamePlace(n, p, m, Bind(m, p, results, links), x.(binding := true), results, links);
  }

  lemma SamePlace(n: Net, p: nat, m: Net, r: Net, x: Peer, results: seq<BindResult>, links: seq<DataProtoSink?>)
    requires p in n.peers && p in m.peers && |links| == |results| && m.peers[p] == x.(bindingPos := 0)
    requires Becomes(n, m, p, m.peers[p]) && (Served(m, p) <==> Served(n, p))
    requires BindOutcome(m, p, m.peers[p], results, links, 0, r)
    ensures BindOutcome(n, p, x, results, links, 0, r)
  {
    hide Cores, Served, BoundPeer;
    SameBound(n.Master(p), x, m.peers[p], results, links, 0);
    Chained(n, m, r, p, m.peers[p], BoundPeer(n.Master(p), m.peers[p], results, links, 0));
  }

  ghost predicate IsReset(n: Net, p: nat, r: Net)
    requires p in n.peers
  {
    Becomes(n, r, p, ResetPeer(n.Master(p), n.peers[p])) && !Served(r, p)
  }

  // What an event leaves the peers with. `binding` and the retry timer are as they were unless the
  // event says otherwise.
  ghost predicate Outcome(n: Net, e: Event, r: Net)
    requires Enabled(n, e)
  {
    match e
    case ServerNewClient(p, relayServer) =>
      if p in n.peers || p == n.cfg.myId || |n.peers| >= n.cfg.maxPeers then r == n
      else r == n.(peers := n.peers[p := NewPeer(relayServer)], wants := n.wants[p := null])
    case ServerEndClient(p) =>
      if p !in n.peers then r == n
      else Cores(r) == Cores(n) - {p} && SameServed(n, r, p) && ReportsFollow(n, r, p)
    case JobInit(p, results, links) =>
      if n.Master(p) then BindOutcome(n, p, n.peers[p].(binding := true), results, links, 0, r) else r == n
    case ResetTimer(p, results, links) =>
      BindOutcome(n, p, n.peers[p].(timer := false, binding := true), results, links, 0, r)
    case MsgCannotConnect(p, results, links) =>
      if n.peers[p].binding then BindOutcome(n, p, n.peers[p], results, links, n.peers[p].bindingPos, r) else r == n
    case MsgCannotBind(p, results, links) =>
      if !n.Master(p) then BindOutcome(n, p, n.peers[p].(binding := true), results, links, 0, r)
      else if n.peers[p].isRelay then r == n
      else Becomes(n, r, p, NoLink(n.peers[p])) && Served(r, p) && (n.peers[p].waitingRelay ==> r == n)
    case MsgYouConnect(p, result, s) =>
      if result.Connected? then Becomes(n, r, p, TakeLink(n.peers[p], s)) && !Served(r, p) else IsReset(n, p, r)
    case MsgYouRetry(p) => if n.Master(p) then IsReset(n, p, r) else r == n
    case LinkError(p) => IsReset(n, p, r)
    case LinkUpDown(p) =>
      && LinkReportOf(n, p, r)
      && SameServed(n, r, p) && !Served(r, p)
    case SubmitFrame(src, dst) => r == n.(relayed := n.relayed[Route(src, dst) := n.peers[dst].sendDp])
    case FlowInactive(src, dst) => r == n.(relayed := n.relayed - {Route(src, dst)})
  }

  // The link reports the opposite, and the peer is a relay if it may be and the link is up now.
  ghost predicate LinkReportOf(n: Net, p: nat, r: Net)
    requires p in n.peers
  {
    && n.peers[p].sendDp != null && n.peers[p].sendDp in n.reports
    && var up := !n.reports[n.peers[p].sendDp];
      && r.reports == n.reports[n.peers[p].sendDp := up]
      && Cores(r) == Cores(n)[p := Core(n.peers[p].(isRelay := n.peers[p].relayServer && up))]
  }

  lemma RemoveOutcome(n: Net, p: nat)
    requires Settled(n) && p in n.peers
    ensures Outcome(n, ServerEndClient(p), RemovePeer(n, p))
  {
    hide PeerOk, Links, DistinctLinks, Cores, Served, Cleanup;
    var m := Cleanup(n, p);
    CleanupSettled(n, p);
    CleanupBecomes(n, p);
    DeletePeerKeeps(m, p);
    DeletedCores(n, m, DeletePeer(m, p), p, NoLink(n.peers[p]));
  }

  lemma DeletedCores(n: Net, m: Net, r: Net, p: nat, y: Peer)
    requires p in n.peers && p in m.peers && Becomes(n, m, p, y)
    requires r.peers == m.peers - {p} && r.reports == m.reports
    ensures Cores(r) == Cores(n) - {p} && SameServed(n, r, p) && ReportsFollow(n, r, p)
  {
    assert Cores(r) == Cores(m) - {p};
    assert Cores(n)[p := Core(y)] - {p} == Cores(n) - {p};
  }

  lemma ConnectOutcome(n: Net, p: nat, result: ConnectResult, s: DataProtoSink?)
    requires Settled(n) && Enabled(n, MsgYouConnect(p, result, s))
    ensures Outcome(n, MsgYouConnect(p, result, s), Connect(n, p, result, s))
  {
    hide PeerOk, Links, DistinctLinks, FlagOk, FreshLink, Reset, Cleanup, Cores, Served;
    var x := n.peers[p];
    if result.NoLinkToConnect? {
      var m := Cleanup(n, p);
      CleanupSettled(n, p);
      CleanupBecomes(n, p);
      ResetAfter(n, m, p, NoLink(x));
    } else {
      var m := FreshLink(n, p, s);
      FreshLinkBecomes(n, p, s);
      if result.ConnectFailed? {
        ResetAfter(n, m, p, LinkedPeer(x, s));
      }
    }
  }

  lemma ResetAfter(n: Net, m: Net, p: nat, y: Peer)
    requires p in n.peers && Settled(m) && p in m.peers && Becomes(n, m, p, y)
    requires Core(NoLink(y)) == Core(NoLink(n.peers[p]))
    ensures IsReset(n, p, Reset(m, p))
  {
    hide PeerOk, Links, DistinctLinks, FlagOk, Reset, Cores, Served, Settled;
    CoreAt(n, m, p, y);
    ResetBecomes(m, p);
    Chained(n, m, Reset(m, p), p, y, ResetPeer(m.Master(p), m.peers[p]));
    assert Core(ResetPeer(m.Master(p), m.peers[p])) == Core(ResetPeer(n.Master(p), n.peers[p]));
  }

  lemma ReportOutcome(n: Net, p: nat)
    requires Settled(n) && p in n.peers && n.peers[p].haveLink
    ensures Outcome(n, LinkUpDown(p), LinkReport(n, p))
  {
    hide PeerOk, Links, DistinctLinks, Cores, EnableRelay, DisableRelay, Served;
    LinkReports(n, p);
    LinkFlags(n, p);
    var x := n.peers[p];
    var up := !n.reports[x.sendDp];
    var m := SetReport(n, x.sendDp, up);
    SetReportKeeps(n, x.sendDp, up);
    SameCoresAt(n, p);
    assert FlagOk(x, n.reports);
    ReportServed(n, x.sendDp, up);
    if up && x.relayServer {
      EnableServed(m, p);
    } else if !up && x.isRelay {
      DisableServed(m, p);
    }
    NotServed(n, p);
  }

  lemma ReportServed(n: Net, s: DataProtoSink, up: bool)
    ensures AllServed(n, SetReport(n, s, up))
  {
  }

  lemma NotServed(n: Net, p: nat)
    requires NetOk(n) && p in n.peers && n.peers[p].haveLink
    ensures !Served(n, p)
  {
    assert PeerOk(n, p);
  }

  lemma TimerOutcome(n: Net, p: nat, results: seq<BindResult>, links: seq<DataProtoSink?>)
    requires Settled(n) && Enabled(n, Event.ResetTimer(p, results, links))
    ensures Outcome(n, Event.ResetTimer(p, results, links), Step(n, Event.ResetTimer(p, results, links)))
  {
    hide NetOk, PeerOk, Links, DistinctLinks, FlagOk, StartBinding, Cores, Served;
    var x := n.peers[p];
    TimerIsMasters(n, p);
    MarkSettled(n, p, false, x.binding, x.bindingPos);
    var m := Mark(n, p, false, x.binding, x.bindingPos);
    MarkBecomes(n, p, false, x.binding, x.bindingPos);
    StartBecomes(m, p, results, links);
    AlsoBinds(n, p, m, StartBinding(m, p, results, links), m.peers[p].(binding := true), results, links);
  }

  lemma AlsoBinds(n: Net, p: nat, m: Net, r: Net, x: Peer, results: seq<BindResult>, links: seq<DataProtoSink?>)
    requires p in n.peers && p in m.peers && |links| == |results| && Becomes(n, m, p, m.peers[p])
    requires (Served(m, p) <==> Served(n, p)) && BindOutcome(m, p, x, results, links, 0, r)
    ensures BindOutcome(n, p, x, results, links, 0, r)
  {
    hide Cores, Served, BoundPeer;
    Chained(n, m, r, p, m.peers[p], BoundPeer(n.Master(p), x, results, links, 0));
  }

  // A peer that waits already keeps its place.
  lemma WaitsOn(n: Net, p: nat)
    requires NetOk(n) && p in n.peers && !n.peers[p].isRelay
    ensures n.peers[p].waitingRelay ==> NeedRelay(n, p) == n
  {
    hide NetOk;
  }

  // What every event leaves every peer with.
  lemma StepOutcome(n: Net, e: Event)
    requires Settled(n) && Enabled(n, e)
    ensures Outcome(n, e, Step(n, e))
  {
    hide NetOk, PeerOk, Links, DistinctLinks, FlagOk, RemovePeer, StartBinding, Bind, Connect, Reset, LinkReport, NeedRelay, Cores, Served;
    match e
    case ServerNewClient(p, relayServer) =>
    case ServerEndClient(p) => if p in n.peers { RemoveOutcome(n, p); }
    case JobInit(p, results, links) => if n.Master(p) { StartBecomes(n, p, results, links); }
    case ResetTimer(p, results, links) => TimerOutcome(n, p, results, links);
    case MsgCannotConnect(p, results, links) => if n.peers[p].binding { BindBecomes(n, p, results, links); }
    case MsgCannotBind(p, results, links) =>
      if !n.Master(p) {
        StartBecomes(n, p, results, links);
      } else if !n.peers[p].isRelay {
        NeedRelayBecomes(n, p);
        WaitsOn(n, p);
      }
    case MsgYouConnect(p, result, s) => ConnectOutcome(n, p, result, s);
    case MsgYouRetry(p) => if n.Master(p) { ResetBecomes(n, p); }
    case LinkError(p) => ResetBecomes(n, p);
    case LinkUpDown(p) => ReportOutcome(n, p);
    case SubmitFrame(_, _) =>
    case FlowInactive(_, _) =>
  }
}
