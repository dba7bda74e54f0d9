// Every primitive change of the peer tables keeps them consistent.
module PeersSafety {
  import opened Lists
  import opened DataProtoState
  import opened PeersSpec

  lemma SameLinkSet(a: map<nat, Peer>, b: map<nat, Peer>)
    requires a.Keys == b.Keys && forall q <- a :: a[q].sendDp == b[q].sendDp
    ensures Links(a) == Links(b)
  {
    forall s <- Links(a) ensures s in Links(b) {
      var q :| q in a && a[q].sendDp == s;
      assert b[q].sendDp == s;
    }
    forall s <- Links(b) ensures s in Links(a) {
      var q :| q in b && b[q].sendDp == s;
      assert a[q].sendDp == s;
    }
  }

  lemma AddLinkSet(a: map<nat, Peer>, p: nat, x: Peer)
    requires p in a ==> a[p].sendDp == null
    ensures Links(a[p := x]) == Links(a) + if x.sendDp == null then {} else {x.sendDp}
  {
    var b := a[p := x];
    forall s <- Links(a) ensures s in Links(b) {
      var q :| q in a && a[q].sendDp == s;
      assert b[q].sendDp == s;
    }
    if x.sendDp != null {
      assert b[p].sendDp == x.sendDp;
    }
  }

  lemma DropLinkSet(a: map<nat, Peer>, p: nat, x: Peer)
    requires DistinctLinks(a) && p in a && a[p].sendDp != null && x.sendDp == null
    ensures Links(a[p := x]) == Links(a) - {a[p].sendDp}
  {
    var b := a[p := x];
    forall s <- Links(a) - {a[p].sendDp} ensures s in Links(b) {
      var q :| q in a && a[q].sendDp == s;
      assert b[q].sendDp == s;
    }
    forall s <- Links(b) ensures s in Links(a) && s != a[p].sendDp {
      var q :| q in b && b[q].sendDp == s;
      assert q in a && a[q].sendDp == s;
    }
  }

  lemma DeleteLinkSet(a: map<nat, Peer>, p: nat)
    requires p in a && a[p].sendDp == null
    ensures Links(a - {p}) == Links(a)
  {
    forall s <- Links(a) ensures s in Links(a - {p}) {
      var q :| q in a && a[q].sendDp == s;
      assert (a - {p})[q].sendDp == s;
    }
  }

  lemma AddPeerPeer(n: Net, p: nat, relayServer: bool, q: nat)
    requires NetOk(n) && p !in n.peers && q in AddPeer(n, p, relayServer).peers
    ensures PeerOk(AddPeer(n, p, relayServer), q)
  {
    hide Links, DistinctLinks, RelayedOk;
    assert q != p ==> PeerOk(n, q);
  }

  lemma AddPeerKeeps(n: Net, p: nat, relayServer: bool)
    requires NetOk(n) && p !in n.peers
    ensures NetOk(AddPeer(n, p, relayServer))
  {
    var m := AddPeer(n, p, relayServer);
    AddLinkSet(n.peers, p, NewPeer(relayServer));
    forall q <- m.peers ensures PeerOk(m, q) {
      AddPeerPeer(n, p, relayServer, q);
    }
  }

  lemma DeletePeerPeer(n: Net, p: nat, q: nat)
    requires NetOk(n) && p in n.peers && Unconnected(n.peers[p]) && q in n.peers && q != p
    ensures PeerOk(DeletePeer(n, p), q)
  {
    hide Links, DistinctLinks, RelayedOk, Without;
    assert PeerOk(n, p) && PeerOk(n, q);
  }

  lemma DeletePeerKeeps(n: Net, p: nat)
    requires NetOk(n) && p in n.peers && Unconnected(n.peers[p])
    ensures NetOk(DeletePeer(n, p))
  {
    var m := DeletePeer(n, p);
    assert PeerOk(n, p);
    DeleteLinkSet(n.peers, p);
    hide PeerOk, Links;
    forall q <- m.peers ensures PeerOk(m, q) {
      DeletePeerPeer(n, p, q);
    }
  }

  // Neither linked, relayed nor waiting.
  predicate Unconnected(x: Peer) {
    !x.haveLink && x.relaying.None? && !x.waitingRelay
  }

  // A change of one peer's link takes the relay flows towards the peer along.
  lemma LinkChangeKeeps(n: Net, m: Net, p: nat, x: Peer)
    requires p in n.peers && RelayedOk(n) && DistinctLinks(n.peers)
    requires forall q <- n.peers :: q != p && n.peers[q].sendDp != null ==> n.peers[q].sendDp != x.sendDp
    requires m.peers == n.peers[p := x] && m.relayed == Retarget(n.relayed, p, x.sendDp)
    ensures RelayedOk(m) && DistinctLinks(m.peers)
  {
  }

  lemma InitLinkPeer(n: Net, p: nat, s: DataProtoSink, q: nat)
    requires NetOk(n) && p in n.peers && Unconnected(n.peers[p]) && q in n.peers
    ensures PeerOk(InitLink(n, p, s), q)
  {
    hide Links, DistinctLinks, RelayedOk, Retarget;
    assert PeerOk(n, p) && PeerOk(n, q);
  }

  lemma InitLinkKeeps(n: Net, p: nat, s: DataProtoSink)
    requires NetOk(n) && p in n.peers && Unconnected(n.peers[p]) && forall q <- n.peers :: n.peers[q].sendDp != s
    ensures NetOk(InitLink(n, p, s))
  {
    assert PeerOk(n, p);
    var m := InitLink(n, p, s);
    AddLinkSet(n.peers, p, m.peers[p]);
    LinkChangeKeeps(n, m, p, m.peers[p]);
    hide PeerOk, Links, DistinctLinks, RelayedOk, Retarget;
    forall q <- m.peers ensures PeerOk(m, q) {
      InitLinkPeer(n, p, s, q);
    }
  }

  lemma FreeLinkPeer(n: Net, p: nat, q: nat)
    requires NetOk(n) && p in n.peers && n.peers[p].haveLink && !n.peers[p].isRelay && q in n.peers && n.peers[p].sendDp != null
    ensures PeerOk(FreeLink(n, p), q)
  {
    hide Links, RelayedOk, Retarget;
    assert PeerOk(n, p) && PeerOk(n, q);
  }

  lemma OthersElsewhere(n: Net, p: nat, q: nat)
    requires NetOk(n) && p in n.peers && n.peers[p].haveLink && !n.peers[p].isRelay && q in n.peers && q != p
    ensures n.wants[q] != n.peers[p].sendDp
  {
    hide Links, RelayedOk;
    assert PeerOk(n, p) && PeerOk(n, q);
  }

  // When a link goes, nothing wants it but the peer's own flow.
  lemma FreeLinkKeeps(n: Net, p: nat)
    requires NetOk(n) && p in n.peers && n.peers[p].haveLink && !n.peers[p].isRelay
    ensures n.peers[p].sendDp != null && NetOk(FreeLink(n, p))
    ensures forall q <- n.peers :: q != p ==> n.wants[q] != n.peers[p].sendDp
    ensures forall q <- n.peers :: FreeLink(n, p).wants[q] != n.peers[p].sendDp
  {
    assert PeerOk(n, p);
    var m := FreeLink(n, p);
    DropLinkSet(n.peers, p, m.peers[p]);
    LinkChangeKeeps(n, m, p, m.peers[p]);
    hide PeerOk, Links, DistinctLinks, RelayedOk, Retarget;
    forall q <- m.peers ensures PeerOk(m, q) && (q != p ==> n.wants[q] != n.peers[p].sendDp) {
      FreeLinkPeer(n, p, q);
      if q != p {
        OthersElsewhere(n, p, q);
      }
    }
  }

  lemma InstallRelayingPeer(n: Net, p: nat, relay: nat, q: nat)
    requires NetOk(n) && p in n.peers && relay in n.peers && n.peers[relay].isRelay && p != relay && Unconnected(n.peers[p]) && q in n.peers
    ensures PeerOk(InstallRelaying(n, p, relay), q)
  {
    hide Links, DistinctLinks;
    assert PeerOk(n, p) && PeerOk(n, q);
    assert PeerOk(n, relay);
  }

  lemma InstallRelayingKeeps(n: Net, p: nat, relay: nat)
    requires NetOk(n) && p in n.peers && relay in n.relays && Unconnected(n.peers[p])
    ensures relay in n.peers && p != relay && NetOk(InstallRelaying(n, p, relay))
  {
    assert relay in n.peers && PeerOk(n, relay) && PeerOk(n, p);
    var m := InstallRelaying(n, p, relay);
    SameLinkSet(n.peers, m.peers);
    assert p !in n.peers[relay].relayUsers;
    forall q <- m.peers ensures PeerOk(m, q) {
      InstallRelayingPeer(n, p, relay, q);
    }
  }

  lemma FreeRelayingPeer(n: Net, p: nat, q: nat)
    requires NetOk(n) && p in n.peers && n.peers[p].relaying.Some? && n.peers[p].relaying.value in n.peers && q in n.peers
    ensures PeerOk(FreeRelaying(n, p), q)
  {
    hide Links, DistinctLinks;
    assert PeerOk(n, p) && PeerOk(n, q);
    assert PeerOk(n, n.peers[p].relaying.value);
    RemoveFacts(n.peers[n.peers[p].relaying.value].relayUsers, p);
  }

  lemma FreeRelayingKeeps(n: Net, p: nat)
    requires NetOk(n) && p in n.peers && n.peers[p].relaying.Some?
    ensures n.peers[p].relaying.value in n.peers && NetOk(FreeRelaying(n, p))
    ensures Unconnected(FreeRelaying(n, p).peers[p])
  {
    assert PeerOk(n, p);
    var relay := n.peers[p].relaying.value;
    assert PeerOk(n, relay);
    RemoveFacts(n.peers[relay].relayUsers, p);
    var m := FreeRelaying(n, p);
    SameLinkSet(n.peers, m.peers);
    forall q <- m.peers ensures PeerOk(m, q) {
      FreeRelayingPeer(n, p, q);
    }
  }

  lemma RegisterPeer(n: Net, p: nat, q: nat)
    requires NetOk(n) && p in n.peers && Unconnected(n.peers[p]) && q in n.peers
    ensures PeerOk(Register(n, p), q)
  {
    hide Links, DistinctLinks;
    assert PeerOk(n, p) && PeerOk(n, q);
  }

  lemma RegisterKeeps(n: Net, p: nat)
    requires NetOk(n) && p in n.peers && Unconnected(n.peers[p])
    ensures NetOk(Register(n, p))
  {
    var m := Register(n, p);
    SameLinkSet(n.peers, m.peers);
    assert PeerOk(n, p);
    forall q <- m.peers ensures PeerOk(m, q) {
      RegisterPeer(n, p, q);
    }
  }

  lemma UnregisterKeeps(n: Net, p: nat)
    requires NetOk(n) && p in n.peers && n.peers[p].waitingRelay
    ensures NetOk(Unregister(n, p)) && Unconnected(Unregister(n, p).peers[p])
  {
    var m := Unregister(n, p);
    SameLinkSet(n.peers, m.peers);
    assert PeerOk(n, p);
    RemoveFacts(n.waiting, p);
    forall q <- m.peers ensures PeerOk(m, q) {
      assert PeerOk(n, q);
    }
  }

  lemma AddRelayKeeps(n: Net, p: nat)
    requires NetOk(n) && p in n.peers && n.peers[p].haveLink && !n.peers[p].isRelay
    ensures NetOk(AddRelay(n, p))
  {
    var m := AddRelay(n, p);
    SameLinkSet(n.peers, m.peers);
    assert PeerOk(n, p);
    forall q <- m.peers ensures PeerOk(m, q) {
      assert PeerOk(n, q);
    }
  }

  lemma RemoveRelayKeeps(n: Net, p: nat)
    requires NetOk(n) && p in n.peers && n.peers[p].isRelay && n.peers[p].relayUsers == []
    ensures NetOk(RemoveRelay(n, p))
  {
    var m := RemoveRelay(n, p);
    SameLinkSet(n.peers, m.peers);
    assert PeerOk(n, p);
    RemoveFacts(n.relays, p);
    forall q <- m.peers ensures PeerOk(m, q) {
      assert PeerOk(n, q);
    }
  }
}
