// client/client.c: the peers, their links and the relays between them.
module Client {
  import opened Lists
  import opened Wrappers
  import opened DataProtoState
  import opened DPRelayState
  import opened DPRelay
  import opened PeersSpec
  import opened PeersSafety
  import opened PeersEvents
  import opened PeersRuns
  import opened ClientTables
  import DataPlaneCalls

  datatype ClientState = ClientState(ok: bool, net: Net)

  class PeerClient {
    const router: DPRelayRouter
    const cfg: NetConfig
    var peers: map<nat, Peer>
    var relays: seq<nat>
    var waiting: seq<nat>
    var locals: map<nat, DataProtoFlow>    // local_dpflow

    ghost function Tables(): Net
      reads this, router, router.plane
    {
      Net(cfg, peers, relays, waiting, WantsOf(locals, router.plane.desired), RelayedOf(router.View()), router.plane.reports)
    }

    // In order: everything below is, and the peers sit on it as they should.
    ghost function State(): (s: ClientState)
      reads this, router, router.plane, router.plane.sinks, router.plane.flows, router.plane.buffers
      ensures s == ClientState(s.ok, Tables())
      ensures s.ok ==> router.plane.reports.Keys == router.plane.sinks
    {
      ClientState(router.State().ok && Tied(peers, locals, router.View(), router.plane.desired), Tables())
    }

    // What the plane has now and did not have before is new.
    twostate predicate Grown()
      reads this, router.plane
    {
      && fresh(router.plane.sinks - old(router.plane.sinks)) && fresh(router.plane.flows - old(router.plane.flows))
      && fresh(router.plane.buffers - old(router.plane.buffers))
    }

    constructor (router: DPRelayRouter, cfg: NetConfig)
      requires router.State().ok && router.View() == Relay(map[], map[], map[], null)
      requires router.plane.desired == map[] && router.plane.reports == map[]
      ensures State() == ClientState(true, Start(cfg)) && this.router == router
    {
      this.router := router;
      this.cfg := cfg;
      peers, relays, waiting, locals := map[], [], [], map[];
    }

    // peer_init_link, when it succeeds
    method InitLink(p: nat) returns (s: DataProtoSink)
      requires State().ok && NetOk(Tables()) && p in peers && Unconnected(peers[p])
      modifies this, router, router.plane, router.plane.sinks, router.plane.flows, router.plane.buffers
      ensures fresh(s) && s !in old(Tables()).reports
      ensures Grown()
      ensures State() == ClientState(true, PeersSpec.InitLink(old(Tables()), p, s))
    {
      hide DataPlane.State, Consistent, Tied, WantsOf, NetOk, Redirect, To, RelayedOf, Retarget, Without;
      UnconnectedFacts(Tables(), p);
      s := AddSink();
      AttachLocal(p, s);
      AttachLink(p, peers[p].(haveLink := true, sendDp := s));
    }

    method AddSink() returns (s: DataProtoSink)
      requires State().ok
      modifies router.plane
      ensures fresh(s) && s !in old(router.plane.sinks) && router.plane.buffers == old(router.plane.buffers)
      ensures router.plane.flows == old(router.plane.flows) && router.plane.sinks == old(router.plane.sinks) + {s}
      ensures State() == ClientState(true, old(Tables()).(reports := old(Tables()).reports[s := false]))
    {
      hide DataPlane.State, Consistent, Tied, WantsOf, Redirect, To, RelayedOf, Retarget, Without;
      s := DataPlaneCalls.NewSink(router.plane);
      ConsistentMore(router.View(), router.plane.desired, old(router.plane.sinks), s);
    }

    // Attaches the local flow of p.
    method AttachLocal(p: nat, s: DataProtoSink)
      requires State().ok && p in peers && p in Tables().wants && Tables().wants[p] == null && s in router.plane.sinks
      modifies router.plane, router.plane.sinks, router.plane.flows, router.plane.buffers
      ensures router.plane.buffers == old(router.plane.buffers)
      ensures router.plane.flows == old(router.plane.flows) && router.plane.sinks == old(router.plane.sinks)
      ensures State() == ClientState(true, old(Tables()).(wants := old(Tables()).wants[p := s]))
    {
      hide DataPlane.State, Consistent, Tied, WantsOf, Redirect, To, RelayedOf, Retarget, Without;
      TiedWants(peers, locals, router.View(), router.plane.desired, p, s);
      ConsistentOther(router.View(), router.plane.desired, router.plane.sinks, locals[p], s);
      DataPlaneCalls.Attach(router.plane, locals[p], s);
    }

    // Attaches the relay destination of p to its new link.
    method AttachLink(p: nat, x: Peer)
      requires State().ok && p in peers && peers[p].sendDp == null && x.sendDp != null && x.sendDp in router.plane.sinks
      modifies this`peers, router, router.plane, router.plane.sinks, router.plane.flows, router.plane.buffers
      ensures router.plane.buffers == old(router.plane.buffers)
      ensures router.plane.flows == old(router.plane.flows) && router.plane.sinks == old(router.plane.sinks)
      ensures State() == ClientState(true, old(Tables()).With(p, x).(relayed := Retarget(old(Tables()).relayed, p, x.sendDp)))
    {
      hide DataPlane.State, Consistent, Tied, WantsOf, Redirect, To, RelayedOf, Retarget, Without;
      TiedDest(peers, locals, router.View(), router.plane.desired, p);
      TiedRelink(peers, locals, router.View(), router.plane.desired, p, x);
      RelayedRelink(router.View(), p, x.sendDp);
      router.SinkAttach(p, x.sendDp);
      SetPeer(p, x);
    }

    method SetPeer(p: nat, x: Peer)
      modifies this`peers
      ensures peers == old(peers)[p := x] && router.State() == old(router.State())
    {
      peers := peers[p := x];
    }

    // peer_free_link
    method FreeLink(p: nat)
      requires State().ok && NetOk(Tables()) && p in peers && peers[p].haveLink && !peers[p].isRelay && peers[p].sendDp != null
      modifies this`peers, router, router.plane, router.plane.sinks, router.plane.flows, router.plane.buffers
      ensures router.plane.buffers <= old(router.plane.buffers) && forall b <- router.plane.buffers :: b.sink != old(peers[p].sendDp)
      ensures old(peers[p]).sendDp !in router.plane.desired.Values && old(peers[p]).sendDp !in router.plane.sinks
      ensures Grown()
      ensures State() == ClientState(true, PeersSpec.FreeLink(old(Tables()), p))
    {
      hide DataPlane.State, Consistent, Tied, WantsOf, Redirect, To, NetOk, RelayedOf, Retarget, Without;
      var s := peers[p].sendDp;
      var x := peers[p].(haveLink := false, sendDp := null);
      ghost var r, d, sinks := router.View(), router.plane.desired, router.plane.sinks;
      LinkUnwanted(Tables(), locals, r, d, sinks, p);
      TiedDest(peers, locals, r, d, p);
      TiedRelink(peers, locals, r, d, p, x);
      RelayedRelink(r, p, null);
      ghost var d' := Redirect(d, To(r.routes, p), null);
      TiedWants(peers[p := x], locals, Relink(r, p, null), d', p, null);
      RelinkConsistent(r, p, null, d, sinks);
      ConsistentOther(Relink(r, p, null), d', sinks, locals[p], null);
      ConsistentFewer(Relink(r, p, null), d'[locals[p] := null], sinks, sinks - {s});
      router.SinkDetach(p);
      DataPlaneCalls.Detach(router.plane, locals[p], true);
      DataPlaneCalls.FreeSink(router.plane, s);
      SetPeer(p, x);
    }

    // Changes a peer, but not its link.
    method UpdatePeer(p: nat, x: Peer)
      requires State().ok && p in peers && x.sendDp == peers[p].sendDp
      modifies this`peers
      ensures State() == ClientState(true, old(Tables()).With(p, x))
    {
      hide Tied, WantsOf, RelayedOf, Retarget, Without;
      TiedPeers(peers, locals, router.View(), router.plane.desired, peers[p := x]);
      SetPeer(p, x);
    }

    method SetLists(relays: seq<nat>, waiting: seq<nat>)
      requires State().ok
      modifies this`relays, this`waiting
      ensures State() == ClientState(true, old(Tables()).(relays := relays, waiting := waiting))
    {
      hide Tied, WantsOf, DataPlane.State, Consistent, RelayedOf, Retarget, Without;
      this.relays := relays;
      this.waiting := waiting;
    }

    // Detaches the local flow of p from whatever it is attached to.
    method DetachLocal(p: nat)
      requires State().ok && p in peers && p in Tables().wants && Tables().wants[p] != null
      modifies router.plane, router.plane.sinks, router.plane.flows, router.plane.buffers
      ensures router.plane.buffers == old(router.plane.buffers)
      ensures router.plane.flows == old(router.plane.flows) && router.plane.sinks == old(router.plane.sinks)
      ensures State() == ClientState(true, old(Tables()).(wants := old(Tables()).wants[p := null]))
    {
      hide DataPlane.State, Consistent, Tied, WantsOf, RelayedOf, Retarget, Without;
      TiedWants(peers, locals, router.View(), router.plane.desired, p, null);
      ConsistentOther(router.View(), router.plane.desired, router.plane.sinks, locals[p], null);
      DataPlaneCalls.Detach(router.plane, locals[p], true);
    }

    // peer_register_need_relay
    method RegisterNeedRelay(p: nat)
      requires State().ok && p in peers
      modifies this`peers, this`waiting, this`relays
      ensures State() == ClientState(true, Register(old(Tables()), p))
    {
      hide PeerClient.State, Remove, WantsOf, RelayedOf, Retarget, Without;
      SetLists(relays, waiting + [p]);
      UpdatePeer(p, peers[p].(waitingRelay := true));
    }

    // peer_unregister_need_relay
    method UnregisterNeedRelay(p: nat)
      requires State().ok && p in peers
      modifies this`peers, this`waiting, this`relays
      ensures State() == ClientState(true, Unregister(old(Tables()), p))
    {
      hide PeerClient.State, Remove, WantsOf, RelayedOf, Retarget, Without;
      SetLists(relays, Remove(waiting, p));
      UpdatePeer(p, peers[p].(waitingRelay := false));
    }

    // peer_install_relaying
    method InstallRelay(p: nat, relay: nat)
      requires State().ok && NetOk(Tables()) && p in peers && relay in peers && p != relay
      requires Unconnected(peers[p]) && peers[relay].isRelay
      modifies this, router, router.plane, router.plane.sinks, router.plane.flows, router.plane.buffers
      ensures Grown() && State() == ClientState(true, InstallRelaying(old(Tables()), p, relay))
    {
      hide PeerClient.State, Remove, WantsOf, NetOk, PeerOk, RelayedOf, Retarget, Without;
      UnconnectedFacts(Tables(), p);
      RelayFacts(Tables(), relay);
      UpdatePeer(relay, peers[relay].(relayUsers := peers[relay].relayUsers + [p]));
      AttachLocal(p, peers[relay].sendDp);
      UpdatePeer(p, peers[p].(relaying := Some(relay)));
    }

    // peer_free_relaying
    method FreeRelay(p: nat)
      requires State().ok && NetOk(Tables()) && p in peers && peers[p].relaying.Some? && peers[p].relaying.value in peers
      modifies this, router, router.plane, router.plane.sinks, router.plane.flows, router.plane.buffers
      ensures Grown() && State() == ClientState(true, FreeRelaying(old(Tables()), p))
    {
      hide PeerClient.State, Remove, WantsOf, NetOk, PeerOk, RelayedOf, Retarget, Without;
      RelayedFacts(Tables(), p);
      var relay := peers[p].relaying.value;
      DetachLocal(p);
      UpdatePeer(relay, peers[relay].(relayUsers := Remove(peers[relay].relayUsers, p)));
      UpdatePeer(p, peers[p].(relaying := None));
    }

    // assign_relays
    method AssignRelays()
      requires State().ok && NetOk(Tables())
      modifies this, router, router.plane, router.plane.sinks, router.plane.flows, router.plane.buffers
      ensures Grown() && State() == ClientState(true, PeersEvents.AssignRelays(old(Tables())))
    {
      hide PeerClient.State, Remove, WantsOf, PeerOk, Links, DistinctLinks, Unregister, InstallRelaying, Cores, RelayedOf, Retarget, Without;
      while waiting != []
        invariant State().ok && NetOk(Tables()) && Grown()
        invariant PeersEvents.AssignRelays(Tables()) == PeersEvents.AssignRelays(old(Tables()))
        decreases |waiting|
      {
        if relays == [] {
          return;
        }
        WaitingFirst(Tables());
        AssignKeeps(Tables());
        var p, relay := waiting[0], relays[0];
        ghost var n := Tables();
        UnregisterKeeps(n, p);
        UnregisterNeedRelay(p);
        UnregisterOthers(n, p, relay);
        InstallRelay(p, relay);
      }
    }

    // peer_enable_relay_provider
    method EnableRelayProvider(p: nat)
      requires State().ok && NetOk(Tables()) && p in peers && peers[p].haveLink && !peers[p].isRelay
      modifies this, router, router.plane, router.plane.sinks, router.plane.flows, router.plane.buffers
      ensures Grown() && State() == ClientState(true, EnableRelay(old(Tables()), p))
    {
      hide PeerClient.State, Remove, WantsOf, PeerOk, Links, DistinctLinks, RelayedOf, Retarget, Without;
      AddRelayKeeps(Tables(), p);
      SetLists(relays + [p], waiting);
      UpdatePeer(p, peers[p].(isRelay := true, relayUsers := []));
      AssignRelays();
    }

    // The loop of peer_disable_relay_provider.
    method DisconnectUsers(p: nat)
      requires State().ok && NetOk(Tables()) && p in peers
      modifies this, router, router.plane, router.plane.sinks, router.plane.flows, router.plane.buffers
      ensures Grown() && State() == ClientState(true, DropUsers(old(Tables()), p))
    {
      hide PeerClient.State, Remove, WantsOf, PeerOk, Links, DistinctLinks, Register, Cores, RelayedOf, Retarget, Without;
      while peers[p].relayUsers != []
        invariant State().ok && NetOk(Tables()) && Grown() && p in peers
        invariant DropUsers(Tables(), p) == DropUsers(old(Tables()), p)
        decreases |peers[p].relayUsers|
      {
        var user := peers[p].relayUsers[0];
        ghost var n := Tables();
        FirstUser(n, p);
        DropUserKeeps(n, p);
        FreeRelayingKeeps(n, user);
        FreeRelay(user);
        RegisterNeedRelay(user);
      }
    }

    // peer_disable_relay_provider
    method DisableRelayProvider(p: nat)
      requires State().ok && NetOk(Tables()) && p in peers && peers[p].isRelay
      modifies this, router, router.plane, router.plane.sinks, router.plane.flows, router.plane.buffers
      ensures Grown() && State() == ClientState(true, DisableRelay(old(Tables()), p))
    {
      hide PeerClient.State, Remove, WantsOf, PeerOk, Links, DistinctLinks, DropUsers, Assigned, RelayedOf, Retarget, Without;
      ghost var n := Tables();
      DisconnectUsers(p);
      SameCore(n, Tables(), p);
      RemoveRelayKeeps(Tables(), p);
      SetLists(Remove(relays, p), waiting);
      UpdatePeer(p, peers[p].(isRelay := false));
      AssignRelays();
    }

    // peer_cleanup_connections
    method CleanupConnections(p: nat)
      requires State().ok && NetOk(Tables()) && p in peers
      modifies this, router, router.plane, router.plane.sinks, router.plane.flows, router.plane.buffers
      ensures Grown() && State() == ClientState(true, Cleanup(old(Tables()), p))
    {
      hide PeerClient.State, Remove, WantsOf, PeerOk, Links, DistinctLinks, DisableRelay, Cores, RelayedOf, Retarget, Without;
      ghost var n := Tables();
      if peers[p].haveLink {
        if peers[p].isRelay {
          DisableRelayProvider(p);
          DropLinkKeeps(n, Tables(), p);
        } else {
          NotRelayCore(n, p);
          DropLinkKeeps(n, n, p);
        }
        FreeLink(p);
      } else if peers[p].relaying.Some? {
        FreeRelayingKeeps(n, p);
        FreeRelay(p);
      } else if peers[p].waitingRelay {
        UnregisterNeedRelay(p);
      }
    }

    // The first part of peer_need_relay: the link or the relay goes.
    method DropConnection(p: nat)
      requires State().ok && NetOk(Tables()) && p in peers && !peers[p].isRelay && !peers[p].waitingRelay
      modifies this, router, router.plane, router.plane.sinks, router.plane.flows, router.plane.buffers
      ensures Grown() && State() == ClientState(true, Cleanup(old(Tables()), p))
    {
      hide PeerClient.State, Remove, WantsOf, PeerOk, Links, DistinctLinks, Cores, RelayedOf, Retarget, Without;
      ghost var n := Tables();
      if peers[p].haveLink {
        NotRelayCore(n, p);
        DropLinkKeeps(n, n, p);
        FreeLink(p);
      } else if peers[p].relaying.Some? {
        FreeRelayingKeeps(n, p);
        FreeRelay(p);
      }
    }

    // peer_need_relay
    method NeedRelayFor(p: nat)
      requires State().ok && NetOk(Tables()) && p in peers && !peers[p].isRelay
      modifies this, router, router.plane, router.plane.sinks, router.plane.flows, router.plane.buffers
      ensures Grown() && State() == ClientState(true, NeedRelay(old(Tables()), p))
    {
      hide PeerClient.State, Remove, WantsOf, PeerOk, Links, DistinctLinks, Cores, Cleanup, NoDup, Assigned, NetOk, Core, RelayedOf, Retarget, Without;
      if peers[p].waitingRelay {
        return;
      }
      DropConnection(p);
      RegisterKeeps(Tables(), p);
      RegisterNeedRelay(p);
      AssignRelays();
    }

    // peer_reset
    method ResetPeer(p: nat)
      requires State().ok && Settled(Tables()) && p in peers
      modifies this, router, router.plane, router.plane.sinks, router.plane.flows, router.plane.buffers
      ensures Grown() && State() == ClientState(true, Reset(old(Tables()), p))
    {
      hide PeerClient.State, Remove, WantsOf, PeerOk, Links, DistinctLinks, FlagOk, Cleanup, Cores, RelayedOf, Retarget, Without;
      CleanupSettled(Tables(), p);
      CleanupConnections(p);
      if cfg.myId > p {
        UpdatePeer(p, peers[p].(timer := true));
      }
    }

    // peer_bind_one_address. Returns whether to go on to the next address.
    method BindOneAddress(p: nat, result: BindResult) returns (cont: bool, link: DataProtoSink?)
      requires State().ok && Settled(Tables()) && p in peers && !result.NoAddress?
      modifies this, router, router.plane, router.plane.sinks, router.plane.flows, router.plane.buffers
      ensures cont <==> result.PortsBusy?
      ensures link != null <==> result.MakesLink()
      ensures link != null ==> fresh(link) && link !in old(Tables()).reports
      ensures Grown() && State() == ClientState(true, BindOne(old(Tables()), p, result, link))
    {
      hide PeerClient.State, Remove, WantsOf, PeerOk, Links, DistinctLinks, FlagOk, Cleanup, Cores, NetOk, Unreport, Core, RelayedOf, Retarget, Without;
      cont, link := false, null;
      CleanupSettled(Tables(), p);
      ghost var n := Tables();
      CleanupConnections(p);
      if result.NoLinkMade? {
        ResetPeer(p);
        return;
      }
      link := InitLink(p);
      assert n.reports.Keys == old(router.plane.sinks) && link !in n.reports;
      cont := result.PortsBusy?;
    }

    // One turn of the loop of peer_bind, at the current address.
    method BindNext(p: nat, result: BindResult) returns (cont: bool, link: DataProtoSink?)
      requires State().ok && Settled(Tables()) && p in peers && peers[p].bindingPos < cfg.bindAddrs
      modifies this, router, router.plane, router.plane.sinks, router.plane.flows, router.plane.buffers
      ensures cont <==> result.NoAddress? || result.PortsBusy?
      ensures link != null <==> result.MakesLink()
      ensures link != null ==> fresh(link) && link !in old(Tables()).reports
      ensures Grown() && State() == ClientState(true, BindTurn(old(Tables()), p, result, link))
    {
      hide PeerClient.State, Remove, WantsOf, PeerOk, Links, DistinctLinks, FlagOk, BindOne, RelayedOf, Retarget, Without;
      cont, link := true, null;
      if !result.NoAddress? {
        cont, link := BindOneAddress(p, result);
      }
      UpdatePeer(p, peers[p].(bindingPos := peers[p].bindingPos + 1));
    }

    // The end of peer_bind: nothing to bind to.
    method BindFailed(p: nat)
      requires State().ok && Settled(Tables()) && p in peers
      modifies this, router, router.plane, router.plane.sinks, router.plane.flows, router.plane.buffers
      ensures Grown() && State() == ClientState(true, BindEnd(old(Tables()), p))
    {
      hide PeerClient.State, Remove, WantsOf, PeerOk, Links, DistinctLinks, FlagOk, NeedRelay, RelayedOf, Retarget, Without;
      TimerIsMasters(Tables(), p);
      MarkSettled(Tables(), p, peers[p].timer, false, peers[p].bindingPos);
      UpdatePeer(p, peers[p].(binding := false));
      if !(cfg.myId > p) {
        if !peers[p].isRelay {
          NeedRelayFor(p);
        }
      }
    }

    // The loop of peer_bind, to the address where it stops or to the end. `made` are the links of
    // the addresses before that one, `m` the tables when it was reached, `link` its link.
    method BindLoop(p: nat, results: seq<BindResult>)
      returns (going: bool, ghost made: seq<DataProtoSink?>, ghost m: Net, ghost link: DataProtoSink?)
      requires State().ok && Settled(Tables()) && p in peers && |results| == cfg.bindAddrs
      modifies this, router, router.plane, router.plane.sinks, router.plane.flows, router.plane.buffers
      ensures old(peers[p].bindingPos) <= |made| <= |results|
      ensures NewUpTo(old(Tables()).reports, results, made, old(peers[p].bindingPos), |made|)
      ensures BindTrace(old(Tables()), p, results, made, m)
      ensures State().ok && Settled(Tables()) && Grown() && p in peers
      ensures Reach(results, old(peers[p].bindingPos)) == Reach(results, |made|)
      ensures if going then m == Tables() && |made| == |results|
              else |made| < |results| && StoppedAt(m, p, results[|made|], made, link, Tables())
      ensures !going && link != null ==> link !in old(Tables()).reports && link !in made
    {
      hide PeerClient.State, Remove, WantsOf, PeerOk, Links, DistinctLinks, FlagOk, BindTurn, BindEnd, NetOk, RelayedOf, Retarget, Without;
      ghost var n, first := Tables(), peers[p].bindingPos;
      TimerIsMasters(n, p);
      going, made, m, link := true, seq(first, _ => null), n, null;
      while going && peers[p].bindingPos < |results|
        invariant State().ok && Settled(Tables()) && Grown() && p in peers
        invariant first <= |made| <= |results| && Reach(results, first) == Reach(results, |made|)
        invariant BindTrace(n, p, results, made, m) && NewUpTo(n.reports, results, made, first, |made|)
        invariant forall i :: first <= i < |made| && made[i] != null ==> fresh(made[i])
        invariant if going then m == Tables() && peers[p].bindingPos == |made|
                  else |made| < |results| && StoppedAt(m, p, results[|made|], made, link, Tables())
        invariant !going && link != null ==> link !in n.reports && link !in made
        decreases going, |results| - peers[p].bindingPos
      {
        going, link := BindNext(p, results[peers[p].bindingPos]);
        if going {
          OneMoreLink(n.reports, results, made, first, link);
          TraceSnoc(n, p, results, made, m, link);
          made := made + [link];
          m := Tables();
        }
      }
    }

    // peer_bind. `links` are the links made, by address.
    method PeerBind(p: nat, results: seq<BindResult>) returns (ghost links: seq<DataProtoSink?>)
      requires State().ok && Settled(Tables()) && p in peers && |results| == cfg.bindAddrs
      modifies this, router, router.plane, router.plane.sinks, router.plane.flows, router.plane.buffers
      ensures NewLinks(old(Tables()).reports, results, links, old(peers[p].bindingPos))
      ensures Grown() && State() == ClientState(true, Bind(old(Tables()), p, results, links))
    {
      hide PeerClient.State, Remove, WantsOf, PeerOk, Links, DistinctLinks, FlagOk, BindTurn, BindEnd, NetOk, RelayedOf, Retarget, Without;
      ghost var n, first := Tables(), peers[p].bindingPos;
      ghost var made, m, link;
      var going;
      going, made, m, link := BindLoop(p, results);
      if going {
        links := made;
        Padded(n.reports, results, made, first, links);
        TraceEnd(n, p, results, made, m, links);
        BindFailed(p);
      } else {
        links := made + [link] + seq(|results| - |made| - 1, _ => null);
        OneMoreLink(n.reports, results, made, first, link);
        Padded(n.reports, results, made + [link], first, links);
        LastTurn(n, p, results, made, m, links);
      }
    }

    // peer_start_binding
    method PeerStartBinding(p: nat, results: seq<BindResult>) returns (ghost links: seq<DataProtoSink?>)
      requires State().ok && Settled(Tables()) && p in peers && |results| == cfg.bindAddrs
      modifies this, router, router.plane, router.plane.sinks, router.plane.flows, router.plane.buffers
      ensures NewLinks(old(Tables()).reports, results, links, 0)
      ensures Grown() && State() == ClientState(true, StartBinding(old(Tables()), p, results, links))
    {
      hide PeerClient.State, Remove, WantsOf, PeerOk, Links, DistinctLinks, FlagOk, Bind, NewLinks, RelayedOf, Retarget, Without;
      TimerIsMasters(Tables(), p);
      MarkSettled(Tables(), p, peers[p].timer, true, 0);
      UpdatePeer(p, peers[p].(binding := true, bindingPos := 0));
      links := PeerBind(p, results);
    }

    // peer_connect
    method PeerConnect(p: nat, result: ConnectResult) returns (link: DataProtoSink?)
      requires State().ok && Settled(Tables()) && p in peers
      modifies this, router, router.plane, router.plane.sinks, router.plane.flows, router.plane.buffers
      ensures !result.NoLinkToConnect? ==> link != null && link !in old(Tables()).reports
      ensures Grown() && State() == ClientState(true, Connect(old(Tables()), p, result, link))
    {
      hide PeerClient.State, Remove, WantsOf, PeerOk, Links, DistinctLinks, FlagOk, BindOne, FreshLink, Reset, Cleanup, Cores, NetOk, Core, Unreport, Assigned, RelayedOf, Retarget, Without;
      CleanupSettled(Tables(), p);
      if result.NoLinkToConnect? {
        link := null;
        CleanupConnections(p);
        ResetPeer(p);
        return;
      }
      link := GetFreshLink(p);
      if result.ConnectFailed? {
        ResetPeer(p);
      }
    }

    // The link both peer_bind_one_address and peer_connect begin with.
    method GetFreshLink(p: nat) returns (link: DataProtoSink)
      requires State().ok && Settled(Tables()) && p in peers
      modifies this, router, router.plane, router.plane.sinks, router.plane.flows, router.plane.buffers
      ensures fresh(link) && link !in old(Tables()).reports
      ensures Grown() && State() == ClientState(true, FreshLink(old(Tables()), p, link))
    {
      hide PeerClient.State, Remove, WantsOf, PeerOk, Links, DistinctLinks, FlagOk, Cleanup, Cores, RelayedOf, Retarget, Without;
      ghost var n := Tables();
      CleanupConnections(p);
      link := InitLink(p);
      assert n.reports.Keys == old(router.plane.sinks) && link !in n.reports;
    }

    // up_job_handler of the peer's link, and peer_dataproto_handler
    method LinkUpDown(p: nat)
      requires State().ok && Settled(Tables()) && p in peers && peers[p].sendDp != null
      requires peers[p].sendDp.upJob && peers[p].sendDp in router.plane.sinks
      modifies this, router, router.plane, router.plane.sinks, router.plane.flows, router.plane.buffers
      ensures old(peers[p]).haveLink && Grown() && State() == ClientState(true, LinkReport(old(Tables()), p))
    {
      hide PeerClient.State, Remove, WantsOf, PeerOk, Links, DistinctLinks, EnableRelay, DisableRelay, Cores, Core, RelayedOf, Retarget, Without;
      LinkFlags(Tables(), p);
      LinkReports(Tables(), p);
      assert FlagOk(peers[p], router.plane.reports);
      ghost var s := peers[p].sendDp;
      SetReportKeeps(Tables(), s, !Tables().reports[s]);
      var up := ReportUp(p);
      if up {
        if peers[p].relayServer && !peers[p].isRelay {
          EnableRelayProvider(p);
        }
      } else {
        if peers[p].isRelay {
          DisableRelayProvider(p);
        }
      }
    }

    method ReportUp(p: nat) returns (up: bool)
      requires State().ok && p in peers && peers[p].sendDp != null
      requires peers[p].sendDp.upJob && peers[p].sendDp in router.plane.sinks
      modifies router.plane, router.plane.sinks, router.plane.flows, router.plane.buffers
      ensures old(peers[p].sendDp in router.plane.reports) && up == !old(router.plane.reports[peers[p].sendDp])
      ensures router.plane.sinks == old(router.plane.sinks) && router.plane.flows == old(router.plane.flows)
      ensures router.plane.buffers == old(router.plane.buffers)
      ensures State() == ClientState(true, SetReport(old(Tables()), peers[p].sendDp, up))
    {
      hide DataPlane.State, Consistent, Tied, WantsOf, RelayedOf, Retarget, Without;
      up := DataPlaneCalls.ReportUp(router.plane, peers[p].sendDp);
    }

    // peer_add
    method PeerAdd(p: nat, relayServer: bool)
      requires State().ok && NetOk(Tables()) && p !in peers
      modifies this, router, router.plane, router.plane.sinks, router.plane.flows, router.plane.buffers
      ensures Grown() && State() == ClientState(true, PeersSpec.AddPeer(old(Tables()), p, relayServer))
    {
      hide DataPlane.State, Consistent, Tied, WantsOf, PeerOk, NetOk, RelayedOf, Retarget, Without, RelayOk;
      TiedKeys(peers, locals, router.View(), router.plane.desired);
      ghost var r, d := router.View(), router.plane.desired;
      var f := DataPlaneCalls.NewFlow(router.plane, cfg.myId, p);
      NewFlowIsNew(r, d, router.plane.sinks, f);
      TiedAdd(peers, locals, r, d, p, NewPeer(relayServer), f);
      RelayIsOk(r, d, router.plane.sinks);
      RelayedNewPeer(r, p);
      router.AddPeer(p);
      InsertPeer(p, NewPeer(relayServer), f);
    }

    method InsertPeer(p: nat, x: Peer, f: DataProtoFlow)
      modifies this`peers, this`locals
      ensures peers == old(peers)[p := x] && locals == old(locals)[p := f] && router.State() == old(router.State())
    {
      peers := peers[p := x];
      locals := locals[p := f];
    }

    // peer_remove
    method PeerRemove(p: nat)
      requires State().ok && Settled(Tables()) && p in peers
      modifies this, router, router.plane, router.plane.sinks, router.plane.flows, router.plane.buffers
      ensures Grown() && State() == ClientState(true, RemovePeer(old(Tables()), p))
    {
      hide PeerClient.State, Remove, WantsOf, PeerOk, Links, DistinctLinks, FlagOk, Cleanup, Cores, RelayedOf, Retarget, Without;
      CleanupConnections(p);
      FreePeer(p);
    }

    // The rest of peer_remove: DPReceivePeer_Free and the local flow.
    method FreePeer(p: nat)
      requires State().ok && NetOk(Tables()) && p in peers && Unconnected(peers[p])
      modifies this, router, router.plane, router.plane.sinks, router.plane.flows, router.plane.buffers
      ensures Grown() && State() == ClientState(true, DeletePeer(old(Tables()), p))
    {
      hide DataPlane.State, Consistent, Tied, WantsOf, From, To, NetOk, RelayedOf, RelayOk, Without, Retarget;
      UnconnectedFacts(Tables(), p);
      TiedKeys(peers, locals, router.View(), router.plane.desired);
      TiedDest(peers, locals, router.View(), router.plane.desired, p);
      ghost var r, d := router.View(), router.plane.desired;
      ghost var gone := router.FreePeer(p);
      ghost var t := router.View();
      assert router.plane.desired == d - gone;
      OwnRoutes(r.routes, p);
      TiedRemove(peers, locals, r, d, t, gone, p);
      RelayIsOk(r, d, router.plane.sinks);
      RelayedRemove(r, t, gone, p);
      ConsistentOther(t, d - gone, router.plane.sinks, locals[p], null);
      DataPlaneCalls.FreeFlow(router.plane, locals[p]);
      assert router.plane.desired == d - gone - {locals[p]} && router.View() == t;
      ForgetPeer(p);
    }

    method ForgetPeer(p: nat)
      modifies this`peers, this`locals
      ensures peers == old(peers) - {p} && locals == old(locals) - {p} && router.State() == old(router.State())
    {
      locals := locals - {p};
      peers := peers - {p};
    }

    // server_handler_newclient
    method ServerNewClient(p: nat, relayServer: bool)
      requires State().ok && Settled(Tables())
      modifies this, router, router.plane, router.plane.sinks, router.plane.flows, router.plane.buffers
      ensures Grown() && State() == ClientState(true, Step(old(Tables()), Event.ServerNewClient(p, relayServer)))
    {
      hide PeerClient.State, Remove, WantsOf, PeerOk, Links, DistinctLinks, FlagOk, RelayedOf, Retarget, Without;
      if p in peers || p == cfg.myId || |peers| >= cfg.maxPeers {
        return;
      }
      PeerAdd(p, relayServer);
    }

    // server_handler_endclient
    method ServerEndClient(p: nat)
      requires State().ok && Settled(Tables())
      modifies this, router, router.plane, router.plane.sinks, router.plane.flows, router.plane.buffers
      ensures Grown() && State() == ClientState(true, Step(old(Tables()), Event.ServerEndClient(p)))
    {
      hide PeerClient.State, Remove, WantsOf, PeerOk, Links, DistinctLinks, FlagOk, RemovePeer, RelayedOf, Retarget, Without;
      if p in peers {
        PeerRemove(p);
      }
    }

    // peer_job_init
    method PeerJobInit(p: nat, results: seq<BindResult>) returns (ghost links: seq<DataProtoSink?>)
      requires State().ok && Settled(Tables()) && p in peers && |results| == cfg.bindAddrs
      modifies this, router, router.plane, router.plane.sinks, router.plane.flows, router.plane.buffers
      ensures Enabled(old(Tables()), JobInit(p, results, links))
      ensures Grown() && State() == ClientState(true, Step(old(Tables()), JobInit(p, results, links)))
    {
      hide PeerClient.State, Remove, WantsOf, PeerOk, Links, DistinctLinks, FlagOk, StartBinding, NewLinks, RelayedOf, Retarget, Without;
      if cfg.myId > p {
        links := PeerStartBinding(p, results);
      } else {
        links := [];
      }
    }

    // peer_reset_timer_handler
    method ResetTimerHandler(p: nat, results: seq<BindResult>) returns (ghost links: seq<DataProtoSink?>)
      requires State().ok && Settled(Tables()) && p in peers && peers[p].timer && |results| == cfg.bindAddrs
      modifies this, router, router.plane, router.plane.sinks, router.plane.flows, router.plane.buffers
      ensures Enabled(old(Tables()), ResetTimer(p, results, links)) && cfg.myId > p
      ensures Grown() && State() == ClientState(true, Step(old(Tables()), ResetTimer(p, results, links)))
    {
      hide PeerClient.State, Remove, WantsOf, PeerOk, Links, DistinctLinks, FlagOk, StartBinding, NewLinks, RelayedOf, Retarget, Without;
      TimerIsMasters(Tables(), p);
      MarkSettled(Tables(), p, false, peers[p].binding, peers[p].bindingPos);
      UpdatePeer(p, peers[p].(timer := false));
      links := PeerStartBinding(p, results);
    }

    // peer_msg_cannotbind
    method MsgCannotBind(p: nat, results: seq<BindResult>) returns (ghost links: seq<DataProtoSink?>)
      requires State().ok && Settled(Tables()) && p in peers && |results| == cfg.bindAddrs
      modifies this, router, router.plane, router.plane.sinks, router.plane.flows, router.plane.buffers
      ensures Enabled(old(Tables()), Event.MsgCannotBind(p, results, links))
      ensures Grown() && State() == ClientState(true, Step(old(Tables()), Event.MsgCannotBind(p, results, links)))
    {
      hide PeerClient.State, Remove, WantsOf, PeerOk, Links, DistinctLinks, FlagOk, StartBinding, NewLinks, NeedRelay, RelayedOf, Retarget, Without;
      if !(cfg.myId > p) {
        links := PeerStartBinding(p, results);
      } else {
        links := [];
        if !peers[p].isRelay {
          NeedRelayFor(p);
        }
      }
    }

    // DPRelayRouter_SubmitFrame, when DPReceive relays a frame between two peers
    method SubmitFrame(src: nat, dst: nat)
      requires State().ok && Settled(Tables()) && Enabled(Tables(), Event.SubmitFrame(src, dst)) && router.currentFlow == null
      modifies this, router, router.plane, router.plane.sinks, router.plane.flows, router.plane.buffers
      ensures Grown() && State() == ClientState(true, Step(old(Tables()), Event.SubmitFrame(src, dst)))
      ensures router.currentFlow in router.routes && router.routes[router.currentFlow] == Route(src, dst)
    {
      hide DataPlane.State, Consistent, Tied, WantsOf, RelayedOf, PeerOk, Links, DistinctLinks, FlagOk, NetOk, Retarget, Without, RelayOk;
      ghost var r, d := router.View(), router.plane.desired;
      TiedKeys(peers, locals, r, d);
      TiedDest(peers, locals, r, d, dst);
      RelayIsOk(r, d, router.plane.sinks);
      router.SubmitFrame(src, dst);
      ghost var f := router.currentFlow;
      if f in r.routes {
        RelayedKnown(r, f, dst, f);
        TiedCurrent(peers, locals, r, d, f);
      } else {
        RelayedAdd(r, f, src, dst, f);
        TiedAddFlow(peers, locals, r, d, f, src, dst, f);
      }
    }

    // router_dp_source_handler of client/DPRelay.c
    method RouterDpSourceHandler()
      requires State().ok
      modifies router
      ensures router.currentFlow == null && State() == old(State())
    {
      hide DataPlane.State, Consistent, Tied, WantsOf, RelayedOf, Retarget, Without;
      TiedCurrent(peers, locals, router.View(), router.plane.desired, null);
      router.RouterDpSourceHandler();
    }

    // flow_inactivity_handler of client/DPRelay.c
    method FlowInactivityHandler(f: DataProtoFlow)
      requires State().ok && Settled(Tables()) && f in router.routes
      modifies this, router, router.plane, router.plane.sinks, router.plane.flows, router.plane.buffers
      ensures f !in router.routes && f !in router.plane.flows
      ensures Enabled(old(Tables()), FlowInactive(old(router.routes[f]).src, old(router.routes[f]).dst))
      ensures Grown() && State() == ClientState(true, Step(old(Tables()), FlowInactive(old(router.routes[f]).src, old(router.routes[f]).dst)))
    {
      hide DataPlane.State, Consistent, Tied, WantsOf, RelayedOf, PeerOk, Links, DistinctLinks, FlagOk, NetOk, Retarget, Without;
      ghost var r, d := router.View(), router.plane.desired;
      RelayIsOk(r, d, router.plane.sinks);
      RelayedDrop(r, f);
      TiedDropFlow(peers, locals, r, d, f);
      router.FlowInactivityHandler(f);
    }
  }

  // The table of relay flows is what they want: together with the local flows, all flows there are.
  lemma TablesCoverFlows(c: PeerClient)
    requires c.State().ok
    ensures forall f <- c.router.plane.desired ::
      if f in c.router.routes then
        c.router.routes[f] in c.Tables().relayed && c.router.plane.desired[f] == c.Tables().relayed[c.router.routes[f]]
      else f.destId in c.Tables().wants && c.router.plane.desired[f] == c.Tables().wants[f.destId]
  {
    RelayedIsDesired(c.router.View(), c.router.plane.desired, c.router.plane.sinks);
  }
}
