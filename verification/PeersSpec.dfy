// The peers of client/client.c: which have a direct link, which send through a relay and
// which wait for one. The primitive changes, as functions on the tables.
module PeersSpec {
  import opened Lists
  import opened Wrappers
  import opened DataProtoState
  import opened DPRelayState

  // sendDp is the peer's own link, null when there is none.
  datatype Peer = Peer(relayServer: bool, haveLink: bool, sendDp: DataProtoSink?, relaying: Option<nat>,
                       waitingRelay: bool, isRelay: bool, relayUsers: seq<nat>,
                       timer: bool, binding: bool, bindingPos: nat)

  datatype NetConfig = NetConfig(myId: nat, maxPeers: nat, bindAddrs: nat)

  // wants is the sink each peer's local flow is attached to, relayed the one each relay flow is
  // attached to, reports what each link last reported: whether it is up.
  datatype Net = Net(cfg: NetConfig, peers: map<nat, Peer>, relays: seq<nat>, waiting: seq<nat>,
                     wants: map<nat, DataProtoSink?>, relayed: map<Route, DataProtoSink?>, reports: map<DataProtoSink, bool>) {
    // peer_am_master
    predicate Master(p: nat) {
      cfg.myId > p
    }

    function With(p: nat, x: Peer): Net {
      this.(peers := peers[p := x])
    }
  }

  function NewPeer(relayServer: bool): Peer {
    Peer(relayServer, false, null, None, false, false, [], false, false, 0)
  }

  // peer_add
  function AddPeer(n: Net, p: nat, relayServer: bool): Net {
    n.(peers := n.peers[p := NewPeer(relayServer)], wants := n.wants[p := null])
  }

  // The end of peer_remove
  function DeletePeer(n: Net, p: nat): Net {
    n.(peers := n.peers - {p}, wants := n.wants - {p}, relayed := Without(n.relayed, p))
  }

  // The relay flows towards a peer follow its link.
  function Retarget(relayed: map<Route, DataProtoSink?>, p: nat, s: DataProtoSink?): map<Route, DataProtoSink?> {
    map r | r in relayed :: if r.dst == p then s else relayed[r]
  }

  // The relay flows of a peer go with it.
  function Without(relayed: map<Route, DataProtoSink?>, p: nat): map<Route, DataProtoSink?> {
    map r | r in relayed && r.src != p && r.dst != p :: relayed[r]
  }

  // peer_init_link, when it succeeds
  function InitLink(n: Net, p: nat, s: DataProtoSink): Net
    requires p in n.peers
  {
    n.With(p, n.peers[p].(haveLink := true, sendDp := s))
     .(wants := n.wants[p := s], relayed := Retarget(n.relayed, p, s), reports := n.reports[s := false])
  }

  // peer_free_link
  function FreeLink(n: Net, p: nat): Net
    requires p in n.peers && n.peers[p].sendDp != null
  {
    n.With(p, n.peers[p].(haveLink := false, sendDp := null))
     .(wants := n.wants[p := null], relayed := Retarget(n.relayed, p, null), reports := n.reports - {n.peers[p].sendDp})
  }

  // peer_install_relaying
  function InstallRelaying(n: Net, p: nat, relay: nat): Net
    requires p in n.peers && relay in n.peers && p != relay
  {
    n.(peers := n.peers
         [relay := n.peers[relay].(relayUsers := n.peers[relay].relayUsers + [p])]
         [p := n.peers[p].(relaying := Some(relay))],
       wants := n.wants[p := n.peers[relay].sendDp])
  }

  // peer_free_relaying
  function FreeRelaying(n: Net, p: nat): Net
    requires p in n.peers && n.peers[p].relaying.Some? && n.peers[p].relaying.value in n.peers
  {
    var relay := n.peers[p].relaying.value;
    var m := n.With(relay, n.peers[relay].(relayUsers := Remove(n.peers[relay].relayUsers, p)));
    m.With(p, m.peers[p].(relaying := None)).(wants := n.wants[p := null])
  }

  // peer_register_need_relay
  function Register(n: Net, p: nat): Net
    requires p in n.peers
  {
    n.With(p, n.peers[p].(waitingRelay := true)).(waiting := n.waiting + [p])
  }

  // peer_unregister_need_relay
  function Unregister(n: Net, p: nat): Net
    requires p in n.peers
  {
    n.With(p, n.peers[p].(waitingRelay := false)).(waiting := Remove(n.waiting, p))
  }

  // peer_enable_relay_provider, before it assigns relays
  function AddRelay(n: Net, p: nat): Net
    requires p in n.peers
  {
    n.With(p, n.peers[p].(isRelay := true, relayUsers := [])).(relays := n.relays + [p])
  }

  // peer_disable_relay_provider, after its users have left and before it assigns relays
  function RemoveRelay(n: Net, p: nat): Net
    requires p in n.peers
  {
    n.With(p, n.peers[p].(isRelay := false)).(relays := Remove(n.relays, p))
  }

  // The sink the peer's local flow should be attached to.
  ghost function Target(n: Net, p: nat): DataProtoSink?
    requires p in n.peers
  {
    var x := n.peers[p];
    if x.haveLink then x.sendDp
    else if x.relaying.Some? && x.relaying.value in n.peers then n.peers[x.relaying.value].sendDp
    else null
  }

  // A peer has at most one of link, relay and place in the waiting list; the lists agree with
  // its flags; relays are linked, and their users know them; the local flow is on the target.
  ghost predicate PeerOk(n: Net, p: nat)
    requires p in n.peers
  {
    var x := n.peers[p];
    && (x.haveLink ==> x.relaying.None? && !x.waitingRelay)
    && (x.relaying.Some? ==> !x.waitingRelay)
    && (x.isRelay ==> x.haveLink)
    && (x.haveLink <==> x.sendDp != null)
    && (x.isRelay <==> p in n.relays)
    && (x.waitingRelay <==> p in n.waiting)
    && p in n.wants && n.wants[p] == Target(n, p)
    && (x.relaying.Some? ==>
          x.relaying.value in n.peers && n.peers[x.relaying.value].isRelay && p in n.peers[x.relaying.value].relayUsers)
    && NoDup(x.relayUsers) && (!x.isRelay ==> x.relayUsers == [])
    && (forall u <- x.relayUsers :: u in n.peers && n.peers[u].relaying == Some(p))
    && (x.timer ==> n.Master(p)) && x.bindingPos <= n.cfg.bindAddrs
  }

  ghost predicate NetOk(n: Net) {
    && n.wants.Keys == n.peers.Keys
    && (forall p <- n.peers :: PeerOk(n, p))
    && NoDup(n.relays) && NoDup(n.waiting)
    && (forall p <- n.relays :: p in n.peers) && (forall p <- n.waiting :: p in n.peers)
    && DistinctLinks(n.peers) && n.reports.Keys == Links(n.peers) && RelayedOk(n)
  }

  // A relay flow is between two peers and attached to the link of its destination.
  ghost predicate RelayedOk(n: Net) {
    forall r <- n.relayed :: r.src in n.peers && r.dst in n.peers && n.relayed[r] == n.peers[r.dst].sendDp
  }

  ghost function Links(peers: map<nat, Peer>): set<DataProtoSink> {
    set p | p in peers && peers[p].sendDp != null :: peers[p].sendDp
  }

  // No two peers share a link.
  ghost predicate DistinctLinks(peers: map<nat, Peer>) {
    forall p, q :: p in peers && q in peers && peers[p].sendDp != null && peers[p].sendDp == peers[q].sendDp ==> p == q
  }
}
