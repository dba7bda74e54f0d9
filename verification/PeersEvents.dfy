// The handlers of client/client.c that change how peers are connected, on the tables.
module PeersEvents {
  import opened Lists
  import opened Wrappers
  import opened DataProtoState
  import opened PeersSpec
  import opened PeersSafety

  // What a peer is apart from how it uses relays.
  function Core(x: Peer): Peer {
    x.(relaying := None, waitingRelay := false, relayUsers := [])
  }

  ghost function Cores(n: Net): map<nat, Peer> {
    map p | p in n.peers :: Core(n.peers[p])
  }

  // Nobody waits while there is a relay.
  predicate Assigned(n: Net) {
    n.waiting == [] || n.relays == []
  }

  // The peer waits for a relay or has one.
  predicate Served(n: Net, p: nat) {
    p in n.peers && (n.peers[p].waitingRelay || n.peers[p].relaying.Some?)
  }

  // assign_relays
  ghost function AssignRelays(n: Net): (r: Net)
    requires NetOk(n)
    ensures NetOk(r) && Assigned(r) && r.cfg == n.cfg && r.reports == n.reports && r.relays == n.relays
    ensures Cores(r) == Cores(n) && forall q: nat :: Served(n, q) ==> Served(r, q)
    decreases |n.waiting|
  {
    hide PeerOk, Links, DistinctLinks, Cores, AssignOne;
    if Assigned(n) then n
    else
      AssignKeeps(n);
      AssignRelays(AssignOne(n))
  }

  // One turn of assign_relays: the first waiting peer gets the first relay.
  ghost function AssignOne(n: Net): Net
    requires NetOk(n) && !Assigned(n)
  {
    var p, relay := n.waiting[0], n.relays[0];
    WaitingFirst(n);
    InstallRelaying(Unregister(n, p), p, relay)
  }

  lemma WaitingFirst(n: Net)
    requires NetOk(n) && !Assigned(n)
    ensures var p, relay := n.waiting[0], n.relays[0];
      && p in n.peers && relay in n.peers && p != relay && n.peers[p].waitingRelay && !n.peers[p].haveLink
      && n.peers[relay].isRelay && n.peers[relay].haveLink
  {
    var p, relay := n.waiting[0], n.relays[0];
    assert p in n.waiting && relay in n.relays;
    assert PeerOk(n, p) && PeerOk(n, relay);
  }

  lemma AssignKeeps(n: Net)
    requires NetOk(n) && !Assigned(n)
    ensures var m := AssignOne(n);
      && NetOk(m) && Cores(m) == Cores(n) && m.relays == n.relays && m.cfg == n.cfg && m.reports == n.reports
      && |m.waiting| == |n.waiting| - 1 && forall q: nat :: Served(n, q) ==> Served(m, q)
  {
    hide PeerOk, Links, DistinctLinks;
    WaitingFirst(n);
    var p := n.waiting[0];
    UnregisterKeeps(n, p);
    InstallRelayingKeeps(Unregister(n, p), p, n.relays[0]);
    RemoveFacts(n.waiting, p);
    assert Cores(AssignOne(n)) == Cores(n);
  }

  // The loop of peer_disable_relay_provider: the users go back to the waiting list.
  ghost function DropUsers(n: Net, p: nat): (r: Net)
    requires NetOk(n) && p in n.peers
    ensures NetOk(r) && p in r.peers && r.peers[p].relayUsers == []
    ensures Cores(r) == Cores(n) && r.cfg == n.cfg && r.reports == n.reports && r.relays == n.relays
    decreases if p in n.peers then |n.peers[p].relayUsers| else 0
  {
    hide NetOk, PeerOk, Links, DistinctLinks, Cores, DropUser;
    if n.peers[p].relayUsers == [] then n
    else
      DropUserKeeps(n, p);
      DropUsers(DropUser(n, p), p)
  }

  // They join it in order, behind those who wait already.
  lemma {:induction false} DroppedUsersWait(n: Net, p: nat)
    requires NetOk(n) && p in n.peers
    ensures DropUsers(n, p).waiting == n.waiting + n.peers[p].relayUsers
    decreases |n.peers[p].relayUsers|
  {
    hide NetOk, PeerOk, Links, DistinctLinks, Cores, DropUser;
    if n.peers[p].relayUsers != [] {
      DropUserKeeps(n, p);
      DroppedUsersWait(DropUser(n, p), p);
    }
  }

  ghost function DropUser(n: Net, p: nat): Net
    requires NetOk(n) && p in n.peers && n.peers[p].relayUsers != []
  {
    var u := n.peers[p].relayUsers[0];
    FirstUser(n, p);
    Register(FreeRelaying(n, u), u)
  }

  lemma FirstUser(n: Net, p: nat)
    requires NetOk(n) && p in n.peers && n.peers[p].relayUsers != []
    ensures var u := n.peers[p].relayUsers[0];
      && u in n.peers && u != p && n.peers[u].relaying == Some(p) && n.peers[p].isRelay && n.peers[p].haveLink
      && !n.peers[u].haveLink && !n.peers[u].waitingRelay && !n.peers[u].isRelay
      && NoDup(n.peers[p].relayUsers)
  {
    var u := n.peers[p].relayUsers[0];
    assert PeerOk(n, p) && u in n.peers[p].relayUsers;
    assert PeerOk(n, u);
  }

  lemma DropUserKeeps(n: Net, p: nat)
    requires NetOk(n) && p in n.peers && n.peers[p].relayUsers != []
    ensures var m := DropUser(n, p);
      && NetOk(m) && Cores(m) == Cores(n) && m.relays == n.relays && m.cfg == n.cfg && m.reports == n.reports
      && p in m.peers && m.peers[p].relayUsers == n.peers[p].relayUsers[1..]
      && m.waiting == n.waiting + [n.peers[p].relayUsers[0]]
  {
    hide PeerOk, Links, DistinctLinks;
    var u := n.peers[p].relayUsers[0];
    FirstUser(n, p);
    FreeRelayingKeeps(n, u);
    RegisterKeeps(FreeRelaying(n, u), u);
    RemoveFacts(n.peers[p].relayUsers, u);
    assert Cores(DropUser(n, p)) == Cores(n);
  }

  lemma RelayCores(n: Net, p: nat)
    requires p in n.peers
    ensures Cores(RemoveRelay(n, p)) == Cores(n)[p := Core(n.peers[p].(isRelay := false))]
    ensures n.peers[p].relayUsers == [] || !n.peers[p].isRelay ==>
      Cores(AddRelay(n, p)) == Cores(n)[p := Core(n.peers[p].(isRelay := true))]
  {
  }

  // peer_disable_relay_provider
  ghost function DisableRelay(n: Net, p: nat): (r: Net)
    requires NetOk(n) && p in n.peers && n.peers[p].isRelay
    ensures NetOk(r) && Assigned(r) && r.reports == n.reports && r.cfg == n.cfg
    ensures Cores(r) == Cores(n)[p := Core(n.peers[p].(isRelay := false))]
  {
    hide PeerOk, Links, DistinctLinks, Cores, DropUsers;
    var m := DropUsers(n, p);
    SameCore(n, m, p);
    RemoveRelayKeeps(m, p);
    RelayCores(m, p);
    AssignRelays(RemoveRelay(m, p))
  }

  // peer_enable_relay_provider
  ghost function EnableRelay(n: Net, p: nat): (r: Net)
    requires NetOk(n) && p in n.peers && n.peers[p].haveLink && !n.peers[p].isRelay
    ensures NetOk(r) && Assigned(r) && r.reports == n.reports && r.cfg == n.cfg
    ensures Cores(r) == Cores(n)[p := Core(n.peers[p].(isRelay := true))]
  {
    hide PeerOk, Links, DistinctLinks, Cores;
    AddRelayKeeps(n, p);
    RelayCores(n, p);
    AssignRelays(AddRelay(n, p))
  }

  lemma SameCore(n: Net, m: Net, p: nat)
    requires p in n.peers && Cores(m) == Cores(n)
    ensures p in m.peers && Core(m.peers[p]) == Core(n.peers[p])
  {
    assert p in Cores(n) && Cores(m)[p] == Core(m.peers[p]);
  }

  // Without its own link.
  function NoLink(x: Peer): Peer {
    x.(haveLink := false, sendDp := null, isRelay := false)
  }

  ghost function Unreport(reports: map<DataProtoSink, bool>, s: DataProtoSink?): map<DataProtoSink, bool> {
    if s == null then reports else reports - {s}
  }

  lemma FreeLinkCores(n: Net, p: nat)
    requires p in n.peers && n.peers[p].sendDp != null && !n.peers[p].isRelay
    ensures Cores(FreeLink(n, p)) == Cores(n)[p := Core(NoLink(n.peers[p]))]
  {
  }

  // The link of peer p goes, when p is no longer a relay: m is what disabling it made of n.
  lemma DropLinkKeeps(n: Net, m: Net, p: nat)
    requires NetOk(m) && p in n.peers && n.peers[p].haveLink && Cores(m) == Cores(n)[p := Core(n.peers[p].(isRelay := false))]
    ensures p in m.peers && m.peers[p].sendDp != null && m.peers[p].sendDp == n.peers[p].sendDp
    ensures m.peers[p].haveLink && !m.peers[p].isRelay
    ensures NetOk(FreeLink(m, p)) && Unconnected(FreeLink(m, p).peers[p])
    ensures Cores(FreeLink(m, p)) == Cores(n)[p := Core(NoLink(n.peers[p]))]
  {
    hide PeerOk, Links, DistinctLinks, Cores;
    CoreAt(n, m, p, n.peers[p].(isRelay := false));
    FreeLinkKeeps(m, p);
    LinkFlags(m, p);
    FreeLinkCores(m, p);
  }

  lemma RelayingCores(n: Net, p: nat)
    requires p in n.peers && n.peers[p].relaying.Some? && n.peers[p].relaying.value in n.peers
    ensures Cores(FreeRelaying(n, p)) == Cores(n)
  {
    hide Remove;
  }

  lemma WaitingCores(n: Net, p: nat)
    requires p in n.peers
    ensures Cores(Unregister(n, p)) == Cores(n)
  {
  }

  // A peer without a link is cleaned up some other way.
  lemma NoLinkCore(n: Net, p: nat)
    requires NetOk(n) && p in n.peers && !n.peers[p].haveLink
    ensures Cores(n) == Cores(n)[p := Core(NoLink(n.peers[p]))] && n.peers[p].sendDp == null
  {
    assert PeerOk(n, p);
    assert Cores(n)[p] == Core(n.peers[p]);
  }

  // A peer that is not a relay keeps its core when disabling is skipped.
  lemma NotRelayCore(n: Net, p: nat)
    requires p in n.peers && !n.peers[p].isRelay
    ensures Cores(n) == Cores(n)[p := Core(n.peers[p].(isRelay := false))]
  {
    assert n.peers[p] == n.peers[p].(isRelay := false);
    assert Cores(n)[p] == Core(n.peers[p]);
  }

  // peer_cleanup_connections, for a peer without a link
  ghost function Leave(n: Net, p: nat): (r: Net)
    requires NetOk(n) && p in n.peers && !n.peers[p].haveLink
    ensures NetOk(r) && (Assigned(n) ==> Assigned(r)) && r.cfg == n.cfg
    ensures Cores(r) == Cores(n) && p in r.peers && Unconnected(r.peers[p]) && r.reports == n.reports
  {
    hide PeerOk, Links, DistinctLinks, Cores;
    if n.peers[p].relaying.Some? then
      FreeRelayingKeeps(n, p);
      RelayingCores(n, p);
      FreeRelaying(n, p)
    else if n.peers[p].waitingRelay then
      UnregisterKeeps(n, p);
      WaitingCores(n, p);
      Unregister(n, p)
    else n
  }

  // peer_cleanup_connections, for a peer with a link
  ghost function Unlink(n: Net, p: nat): (r: Net)
    requires NetOk(n) && p in n.peers && n.peers[p].haveLink
    ensures NetOk(r) && (Assigned(n) ==> Assigned(r)) && r.cfg == n.cfg
    ensures Cores(r) == Cores(n)[p := Core(NoLink(n.peers[p]))]
    ensures p in r.peers && Unconnected(r.peers[p]) && r.reports == Unreport(n.reports, n.peers[p].sendDp)
  {
    hide PeerOk, Links, DistinctLinks, Cores, DisableRelay;
    if n.peers[p].isRelay then
      var m := DisableRelay(n, p);
      DropLinkKeeps(n, m, p);
      FreeLink(m, p)
    else
      NotRelayCore(n, p);
      DropLinkKeeps(n, n, p);
      FreeLink(n, p)
  }

  // peer_cleanup_connections
  ghost function Cleanup(n: Net, p: nat): (r: Net)
    requires NetOk(n) && p in n.peers
    ensures NetOk(r) && (Assigned(n) ==> Assigned(r)) && r.cfg == n.cfg
    ensures Cores(r) == Cores(n)[p := Core(NoLink(n.peers[p]))]
    ensures p in r.peers && Unconnected(r.peers[p]) && r.reports == Unreport(n.reports, n.peers[p].sendDp)
  {
    hide PeerOk, Links, DistinctLinks, Cores, Unlink, Leave;
    if n.peers[p].haveLink then Unlink(n, p)
    else
      NoLinkCore(n, p);
      Leave(n, p)
  }

  lemma CoreAt(n: Net, m: Net, p: nat, x: Peer)
    requires p in n.peers && Cores(m) == Cores(n)[p := Core(x)]
    ensures p in m.peers && Core(m.peers[p]) == Core(x)
  {
    assert p in Cores(m) && Cores(m)[p] == Core(m.peers[p]);
  }

  lemma LinkFlags(n: Net, p: nat)
    requires NetOk(n) && p in n.peers
    ensures n.peers[p].haveLink <==> n.peers[p].sendDp != null
    ensures n.peers[p].isRelay ==> n.peers[p].haveLink
    ensures n.peers[p].waitingRelay || n.peers[p].relaying.Some? ==> !n.peers[p].haveLink
  {
    assert PeerOk(n, p);
  }

  lemma RegisterCores(n: Net, p: nat)
    requires p in n.peers
    ensures Cores(Register(n, p)) == Cores(n)
  {
  }

  // peer_need_relay
  ghost function NeedRelay(n: Net, p: nat): (r: Net)
    requires NetOk(n) && p in n.peers && !n.peers[p].isRelay
    ensures NetOk(r) && (Assigned(n) ==> Assigned(r)) && r.cfg == n.cfg
    ensures Cores(r) == Cores(n)[p := Core(NoLink(n.peers[p]))] && Served(r, p)
    ensures r.reports == Unreport(n.reports, n.peers[p].sendDp)
  {
    hide PeerOk, Links, DistinctLinks, Cores, Cleanup;
    LinkFlags(n, p);
    if n.peers[p].waitingRelay then
      NoLinkCore(n, p);
      n
    else
      var m := Cleanup(n, p);
      RegisterKeeps(m, p);
      RegisterCores(m, p);
      AssignRelays(Register(m, p))
  }
}
