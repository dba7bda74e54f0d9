// How the peer tables of client/client.c sit on the data plane and the relay router.
module ClientTables {
  import opened DataProtoState
  import opened DPRelayState
  import opened PeersSpec
  import opened PeersSafety
  import opened PeersRuns

  ghost function WantsOf(locals: map<nat, DataProtoFlow>, desired: Desires): map<nat, DataProtoSink?> {
    map p | p in locals :: if locals[p] in desired then desired[locals[p]] else null
  }

  // The relay flows and the link each is attached to: that of its destination.
  ghost function RelayedOf(r: Relay): map<Route, DataProtoSink?> {
    map q | q in r.routes.Values :: if q.dst in r.dests then r.dests[q.dst].dpSink else null
  }

  // Every peer has a local flow of its own, a relay source and a relay destination, which is
  // attached to the peer's link; there are no other flows.
  ghost predicate Tied(peers: map<nat, Peer>, locals: map<nat, DataProtoFlow>, r: Relay, desired: Desires) {
    && locals.Keys == peers.Keys && r.sources.Keys == peers.Keys && r.dests.Keys == peers.Keys
    && (forall p <- peers :: r.dests[p].dpSink == peers[p].sendDp)
    && (forall p <- locals :: locals[p] in desired && locals[p] !in r.routes && locals[p].destId == p)
    && (forall f <- desired :: f in r.routes || (f.destId in locals && locals[f.destId] == f))
  }

  // Only what the peers know changed.
  lemma TiedPeers(peers: map<nat, Peer>, locals: map<nat, DataProtoFlow>, r: Relay, desired: Desires, m: map<nat, Peer>)
    requires Tied(peers, locals, r, desired) && m.Keys == peers.Keys && forall p <- m :: m[p].sendDp == peers[p].sendDp
    ensures Tied(m, locals, r, desired)
  {
  }

  lemma TiedDest(peers: map<nat, Peer>, locals: map<nat, DataProtoFlow>, r: Relay, desired: Desires, p: nat)
    requires Tied(peers, locals, r, desired) && p in peers
    ensures p in r.dests && p in r.sources && r.dests[p].dpSink == peers[p].sendDp
    ensures p in locals && locals[p] in desired && WantsOf(locals, desired)[p] == desired[locals[p]]
  {
  }

  // A local flow wants something else.
  lemma TiedWants(peers: map<nat, Peer>, locals: map<nat, DataProtoFlow>, r: Relay, desired: Desires, p: nat, s: DataProtoSink?)
    requires Tied(peers, locals, r, desired) && p in peers
    ensures p in locals && locals[p] !in r.routes && Tied(peers, locals, r, desired[locals[p] := s])
    ensures WantsOf(locals, desired[locals[p] := s]) == WantsOf(locals, desired)[p := s]
    ensures locals[p] in desired && WantsOf(locals, desired)[p] == desired[locals[p]]
  {
  }

  // A peer's relay destination and the peer's link change together.
  lemma TiedRelink(peers: map<nat, Peer>, locals: map<nat, DataProtoFlow>, r: Relay, desired: Desires, p: nat, x: Peer)
    requires Tied(peers, locals, r, desired) && p in peers
    ensures Tied(peers[p := x], locals, Relink(r, p, x.sendDp), Redirect(desired, To(r.routes, p), x.sendDp))
    ensures WantsOf(locals, Redirect(desired, To(r.routes, p), x.sendDp)) == WantsOf(locals, desired)
    ensures locals[p] in desired && Redirect(desired, To(r.routes, p), x.sendDp)[locals[p]] == desired[locals[p]]
  {
  }

  lemma RelayedRelink(r: Relay, p: nat, s: DataProtoSink?)
    requires p in r.dests
    ensures RelayedOf(Relink(r, p, s)) == Retarget(RelayedOf(r), p, s)
  {
  }

  lemma RelayedNewPeer(r: Relay, p: nat)
    requires RelayOk(r) && p !in r.dests
    ensures RelayedOf(r.(sources := r.sources[p := []], dests := r.dests[p := Dest([], null)])) == RelayedOf(r)
  {
    forall q <- r.routes.Values ensures q.dst in r.dests {
      var f :| f in r.routes && r.routes[f] == q;
    }
  }

  lemma RelayedRemove(r: Relay, t: Relay, gone: set<DataProtoFlow>, p: nat)
    requires RelayOk(r) && gone == From(r.routes, p) + To(r.routes, p)
    requires t.routes == r.routes - gone && SameLinks(r.dests - {p}, t.dests)
    ensures RelayedOf(t) == Without(RelayedOf(r), p)
  {
    forall q <- r.routes.Values ensures q in t.routes.Values <==> q.src != p && q.dst != p {
      var f :| f in r.routes && r.routes[f] == q;
      if q.src != p && q.dst != p {
        assert t.routes[f] == q;
      } else {
        assert forall g <- t.routes :: g !in gone && t.routes[g] == r.routes[g];
      }
    }
    forall q <- t.routes.Values ensures q in r.routes.Values && q.dst in r.dests {
      var f :| f in t.routes && t.routes[f] == q;
      assert r.routes[f] == q;
    }
  }

  lemma RelayedAdd(r: Relay, f: DataProtoFlow, src: nat, dst: nat, current: DataProtoFlow?)
    requires src in r.sources && dst in r.dests && f !in r.routes
    ensures RelayedOf(Add(r, f, src, dst).(current := current)) == RelayedOf(r)[Route(src, dst) := r.dests[dst].dpSink]
  {
    var t := Add(r, f, src, dst).(current := current);
    assert t.routes[f] == Route(src, dst);
    forall q <- r.routes.Values ensures q in t.routes.Values {
      var g :| g in r.routes && r.routes[g] == q;
      assert t.routes[g] == q;
    }
  }

  lemma RelayedKnown(r: Relay, f: DataProtoFlow, dst: nat, current: DataProtoFlow?)
    requires f in r.routes && r.routes[f].dst == dst && dst in r.dests
    ensures RelayedOf(r.(current := current)) == RelayedOf(r)[r.routes[f] := r.dests[dst].dpSink]
  {
  }

  lemma RelayedDrop(r: Relay, f: DataProtoFlow)
    requires RelayOk(r) && f in r.routes
    ensures r.routes[f].src in r.sources && r.routes[f].dst in r.dests && r.routes[f] in RelayedOf(r)
    ensures RelayedOf(Drop(r, f)) == RelayedOf(r) - {r.routes[f]}
  {
    var t := Drop(r, f);
    forall q <- r.routes.Values ensures q in t.routes.Values <==> q != r.routes[f] {
      var g :| g in r.routes && r.routes[g] == q;
      if q != r.routes[f] {
        assert t.routes[g] == q;
      }
    }
  }

  // The table says what the relay flows want.
  lemma RelayedIsDesired(r: Relay, desired: Desires, sinks: set<DataProtoSink>)
    requires Consistent(r, desired, sinks)
    ensures forall f <- r.routes :: f in desired && r.routes[f] in RelayedOf(r) && desired[f] == RelayedOf(r)[r.routes[f]]
  {
  }

  // A relay flow more.
  lemma TiedAddFlow(peers: map<nat, Peer>, locals: map<nat, DataProtoFlow>, r: Relay, desired: Desires,
                    f: DataProtoFlow, src: nat, dst: nat, current: DataProtoFlow?)
    requires Tied(peers, locals, r, desired) && src in r.sources && dst in r.dests && f !in r.routes && f !in desired
    ensures Tied(peers, locals, Add(r, f, src, dst).(current := current), desired[f := r.dests[dst].dpSink])
    ensures WantsOf(locals, desired[f := r.dests[dst].dpSink]) == WantsOf(locals, desired)
  {
  }

  // A relay flow less.
  lemma TiedDropFlow(peers: map<nat, Peer>, locals: map<nat, DataProtoFlow>, r: Relay, desired: Desires, f: DataProtoFlow)
    requires Tied(peers, locals, r, desired) && f in r.routes && r.routes[f].src in r.sources && r.routes[f].dst in r.dests
    ensures Tied(peers, locals, Drop(r, f), desired - {f})
    ensures WantsOf(locals, desired - {f}) == WantsOf(locals, desired)
  {
  }

  lemma TiedCurrent(peers: map<nat, Peer>, locals: map<nat, DataProtoFlow>, r: Relay, desired: Desires, current: DataProtoFlow?)
    requires Tied(peers, locals, r, desired)
    ensures Tied(peers, locals, r.(current := current), desired) && RelayedOf(r.(current := current)) == RelayedOf(r)
  {
  }

  lemma UnconnectedFacts(n: Net, p: nat)
    requires NetOk(n) && p in n.peers && Unconnected(n.peers[p])
    ensures n.peers[p].sendDp == null && p in n.wants && n.wants[p] == null && !n.peers[p].isRelay
  {
    assert PeerOk(n, p);
  }

  lemma RelayFacts(n: Net, p: nat)
    requires NetOk(n) && p in n.peers && n.peers[p].isRelay
    ensures n.peers[p].sendDp != null && n.peers[p].sendDp in n.reports
  {
    assert PeerOk(n, p) && n.peers[p].sendDp in Links(n.peers);
  }

  // Leaving the waiting list does not touch another peer.
  lemma UnregisterOthers(n: Net, p: nat, q: nat)
    requires p in n.peers && q in n.peers && q != p
    ensures q in Unregister(n, p).peers && Unregister(n, p).peers[q] == n.peers[q]
  {
  }

  lemma RelayedFacts(n: Net, p: nat)
    requires NetOk(n) && p in n.peers && n.peers[p].relaying.Some?
    ensures p in n.wants && n.wants[p] != null && n.peers[p].relaying.value != p
  {
    assert PeerOk(n, p);
    assert PeerOk(n, n.peers[p].relaying.value);
  }

  // A link is its own peer's and, unless that is a relay, wanted by no other peer.
  lemma LinkIsOwn(n: Net, p: nat)
    requires NetOk(n) && p in n.peers && n.peers[p].haveLink && !n.peers[p].isRelay
    ensures n.peers[p].sendDp != null && n.peers[p].sendDp in n.reports && p in n.wants && n.wants[p] == n.peers[p].sendDp
    ensures forall q <- n.peers :: q != p ==> q in n.wants && n.wants[q] != n.peers[p].sendDp && n.peers[q].sendDp != n.peers[p].sendDp
  {
    assert PeerOk(n, p) && n.peers[p].sendDp in Links(n.peers);
    FreeLinkKeeps(n, p);
  }

  // The link of a peer is wanted by nobody once its relay destination and its local flow left it.
  lemma LinkUnwanted(n: Net, locals: map<nat, DataProtoFlow>, r: Relay, desired: Desires, sinks: set<DataProtoSink>, p: nat)
    requires NetOk(n) && p in n.peers && n.peers[p].haveLink && !n.peers[p].isRelay
    requires Consistent(r, desired, sinks) && Tied(n.peers, locals, r, desired) && n.wants == WantsOf(locals, desired)
    ensures n.peers[p].sendDp != null && n.peers[p].sendDp !in Redirect(desired, To(r.routes, p), null)[locals[p] := null].Values
    ensures LinksKnown(Relink(r, p, null), sinks - {n.peers[p].sendDp})
    ensures p in locals && locals[p] in desired && desired[locals[p]] == n.peers[p].sendDp && n.peers[p].sendDp in n.reports
  {
    hide NetOk, PeerOk, RelayOk;
    LinkIsOwn(n, p);
    var s := n.peers[p].sendDp;
    var d := Redirect(desired, To(r.routes, p), null)[locals[p] := null];
    forall f <- d ensures d[f] != s {
      if f in r.routes {
        assert desired[f] == r.dests[r.routes[f].dst].dpSink == n.peers[r.routes[f].dst].sendDp;
      } else {
        assert n.wants[f.destId] == desired[f];
      }
    }
    var t := Relink(r, p, null);
    forall q <- t.dests ensures t.dests[q].dpSink != s {
      assert r.dests[q].dpSink == n.peers[q].sendDp;
    }
  }

  // Consistency does not depend on sinks that no destination has, nor on flows of the peers.
  lemma ConsistentFewer(r: Relay, desired: Desires, sinks: set<DataProtoSink>, fewer: set<DataProtoSink>)
    requires Consistent(r, desired, sinks) && LinksKnown(r, fewer)
    ensures Consistent(r, desired, fewer)
  {
  }

  lemma ConsistentMore(r: Relay, desired: Desires, sinks: set<DataProtoSink>, s: DataProtoSink)
    requires Consistent(r, desired, sinks)
    ensures Consistent(r, desired, sinks + {s})
  {
  }

  lemma ConsistentOther(r: Relay, desired: Desires, sinks: set<DataProtoSink>, f: DataProtoFlow, s: DataProtoSink?)
    requires Consistent(r, desired, sinks) && f !in r.routes
    ensures Consistent(r, desired[f := s], sinks)
    ensures Consistent(r, desired - {f}, sinks)
  {
  }

  lemma TiedAdd(peers: map<nat, Peer>, locals: map<nat, DataProtoFlow>, r: Relay, desired: Desires, p: nat, x: Peer, f: DataProtoFlow)
    requires Tied(peers, locals, r, desired) && p !in peers && f !in desired && f !in r.routes && f.destId == p && x.sendDp == null
    ensures Tied(peers[p := x], locals[p := f],
      r.(sources := r.sources[p := []], dests := r.dests[p := Dest([], null)]), desired[f := null])
    ensures WantsOf(locals[p := f], desired[f := null]) == WantsOf(locals, desired)[p := null]
  {
  }

  lemma TiedKeys(peers: map<nat, Peer>, locals: map<nat, DataProtoFlow>, r: Relay, desired: Desires)
    requires Tied(peers, locals, r, desired)
    ensures locals.Keys == peers.Keys && r.sources.Keys == peers.Keys && r.dests.Keys == peers.Keys
  {
  }

  lemma NewFlowIsNew(r: Relay, desired: Desires, sinks: set<DataProtoSink>, f: DataProtoFlow)
    requires Consistent(r, desired, sinks) && f !in desired
    ensures f !in r.routes && Consistent(r, desired[f := null], sinks)
  {
  }

  // A peer is gone with its relay flows and its local flow.
  lemma TiedRemove(peers: map<nat, Peer>, locals: map<nat, DataProtoFlow>, r: Relay, desired: Desires,
                   t: Relay, gone: set<DataProtoFlow>, p: nat)
    requires Tied(peers, locals, r, desired) && p in peers && gone <= r.routes.Keys
    requires t.routes == r.routes - gone && t.sources.Keys == r.sources.Keys - {p} && SameLinks(r.dests - {p}, t.dests)
    ensures p in locals && locals[p] in desired && locals[p] !in gone && locals[p] !in t.routes
    ensures (desired - gone)[locals[p]] == WantsOf(locals, desired)[p]
    ensures Tied(peers - {p}, locals - {p}, t, desired - gone - {locals[p]})
    ensures WantsOf(locals - {p}, desired - gone - {locals[p]}) == WantsOf(locals, desired) - {p}
  {
  }

  // peer_bind stopped at the address after `made`, where it made `link` and m became t.
  ghost predicate StoppedAt(m: Net, p: nat, result: BindResult, made: seq<DataProtoSink?>, link: DataProtoSink?, t: Net) {
    && Settled(m) && p in m.peers && m.peers[p].bindingPos == |made| < m.cfg.bindAddrs
    && (result.Bound? || result.NoLinkMade?) && (result.MakesLink() ==> link != null && link !in m.reports)
    && t == BindTurn(m, p, result, link)
  }

  // Where peer_bind stops: at an address that is bound or has no link.
  lemma LastTurn(n: Net, p: nat, results: seq<BindResult>, made: seq<DataProtoSink?>, m: Net, full: seq<DataProtoSink?>)
    requires Settled(n) && p in n.peers && BindTrace(n, p, results, made, m) && n.peers[p].bindingPos <= |made|
    requires |made| < |results| == n.cfg.bindAddrs && (results[|made|].Bound? || results[|made|].NoLinkMade?)
    requires made <= full && NewLinks(n.reports, results, full, n.peers[p].bindingPos)
    ensures m.cfg == n.cfg && Settled(m) && p in m.peers && m.peers[p].bindingPos == |made|
    ensures (results[|made|].MakesLink() ==> full[|made|] != null && full[|made|] !in m.reports)
    ensures Bind(n, p, results, full) == BindTurn(m, p, results[|made|], full[|made|])
  {
    hide PeerOk, Links, DistinctLinks, FlagOk, BindTurn, BindEnd;
    TraceEnd(n, p, results, made, m, full);
  }

  // One more link, newer than all before it.
  lemma OneMoreLink(reports: map<DataProtoSink, bool>, results: seq<BindResult>, made: seq<DataProtoSink?>, first: nat, s: DataProtoSink?)
    requires |made| < |results| && NewUpTo(reports, results, made, first, |made|)
    requires results[|made|].MakesLink() ==> s != null && s !in reports && s !in made
    ensures NewUpTo(reports, results, made + [s], first, |made| + 1)
  {
  }

  lemma Padded(reports: map<DataProtoSink, bool>, results: seq<BindResult>, made: seq<DataProtoSink?>, first: nat, full: seq<DataProtoSink?>)
    requires |made| <= |results| == |full| && NewUpTo(reports, results, made, first, |made|) && made <= full
    requires Reach(results, first) == |made|
    ensures NewLinks(reports, results, full, first)
  {
  }
}
