// client/DPRelay.c: the router that relays frames between peers.
module DPRelay {
  import opened Lists
  import opened DataProtoState
  import opened DPRelayState
  import DataPlaneCalls

  datatype RouterState = RouterState(ok: bool, relay: Relay, plane: PlaneState)

  class DPRelayRouter {
    const plane: DataPlane
    var routes: map<DataProtoFlow, Route>
    var sources: map<nat, seq<DataProtoFlow>>
    var dests: map<nat, Dest>
    var currentFlow: DataProtoFlow?

    ghost function View(): Relay
      reads this
    {
      Relay(routes, sources, dests, currentFlow)
    }

    ghost function State(): (s: RouterState)
      reads this, plane, plane.sinks, plane.flows, plane.buffers
      ensures s == RouterState(s.ok, View(), plane.State())
    {
      RouterState(plane.State().ok && Consistent(View(), plane.desired, plane.sinks), View(), plane.State())
    }

    constructor (plane: DataPlane)
      requires plane.State().ok
      ensures State() == RouterState(true, Relay(map[], map[], map[], null), plane.State()) && this.plane == plane
    {
      this.plane := plane;
      routes, sources, dests, currentFlow := map[], map[], map[], null;
    }

    // source_find_flow
    method SourceFindFlow(src: nat, dst: nat) returns (f: DataProtoFlow?)
      requires RelayOk(View()) && src in sources
      ensures f != null ==> f in routes && routes[f] == Route(src, dst)
      ensures f == null ==> Route(src, dst) !in routes.Values
    {
      var list := sources[src];
      assert ListOf(list, From(routes, src));
      assert forall g <- list :: g in From(routes, src);
      var i := 0;
      while i < |list|
        invariant 0 <= i <= |list|
        invariant forall j :: 0 <= j < i ==> list[j] in routes && routes[list[j]].dst != dst
      {
        assert list[i] in list;
        if routes[list[i]].dst == dst {
          return list[i];
        }
        i := i + 1;
      }
      forall g <- routes ensures routes[g] != Route(src, dst) {
        if routes[g].src == src {
          assert g in From(routes, src);
          var j :| 0 <= j < |list| && list[j] == g;
        }
      }
      f := null;
    }

    // The list operations of create_flow.
    method Link(f: DataProtoFlow, src: nat, dst: nat)
      requires src in sources && dst in dests
      modifies this`routes, this`sources, this`dests
      ensures plane.State() == old(plane.State()) && View() == Add(old(View()), f, src, dst)
    {
      routes := routes[f := Route(src, dst)];
      sources := sources[src := sources[src] + [f]];
      dests := dests[dst := dests[dst].(flows := dests[dst].flows + [f])];
    }

    // The list operations of free_flow.
    method Unlink(f: DataProtoFlow)
      requires f in routes && routes[f].src in sources && routes[f].dst in dests
      modifies this`routes, this`sources, this`dests, this`currentFlow
      ensures plane.State() == old(plane.State()) && View() == Drop(old(View()), f)
    {
      if currentFlow == f {
        currentFlow := null;
      }
      var src, dst := routes[f].src, routes[f].dst;
      dests := dests[dst := dests[dst].(flows := Remove(dests[dst].flows, f))];
      sources := sources[src := Remove(sources[src], f)];
      routes := routes - {f};
    }

    // create_flow
    method CreateFlow(src: nat, dst: nat) returns (f: DataProtoFlow)
      requires State().ok && src in sources && dst in dests && Route(src, dst) !in routes.Values
      modifies this, plane, plane.sinks, plane.flows, plane.buffers
      ensures fresh(f) && fresh(plane.buffers - old(plane.buffers))
      ensures State() == AddFlow(old(State()), f, src, dst)
    {
      hide DataPlane.State, Consistent;
      ghost var r, d := View(), plane.desired;
      f := DataPlaneCalls.NewFlow(plane, src, dst);
      AddConsistent(r, f, src, dst, d, plane.sinks);
      Link(f, src, dst);
      DataPlaneCalls.Attach(plane, f, dests[dst].dpSink);
      assert plane.desired == d[f := r.dests[dst].dpSink];
    }

    // free_flow
    method FreeFlow(f: DataProtoFlow)
      requires State().ok && f in routes && routes[f].src in sources && routes[f].dst in dests
      modifies this, plane, plane.sinks, plane.flows, plane.buffers
      ensures plane.buffers <= old(plane.buffers) && State() == DropFlow(old(State()), f)
    {
      hide DataPlane.State, Consistent;
      ghost var d := plane.desired;
      DropConsistent(View(), f, d, plane.sinks);
      DataPlaneCalls.Detach(plane, f, dests[routes[f].dst].dpSink != null);
      Unlink(f);
      DataPlaneCalls.FreeFlow(plane, f);
      assert plane.desired == d - {f};
    }

    // flow_inactivity_handler
    method FlowInactivityHandler(f: DataProtoFlow)
      requires State().ok && f in routes
      modifies this, plane, plane.sinks, plane.flows, plane.buffers
      ensures plane.buffers <= old(plane.buffers)
      ensures f in old(View()).routes && var r := old(View()).routes[f];
        r.src in old(sources) && r.dst in old(dests) && State() == DropFlow(old(State()), f)
    {
      FlowIsListed(View(), f, plane.desired, plane.sinks);
      FreeFlow(f);
    }

    // DPRelayRouter_SubmitFrame: the flow the frame goes to, new if there was none.
    method SubmitFrame(src: nat, dst: nat)
      requires State().ok && currentFlow == null && src in sources && dst in dests
      modifies this, plane, plane.sinks, plane.flows, plane.buffers
      ensures fresh(plane.flows - old(plane.flows)) && fresh(plane.buffers - old(plane.buffers))
      ensures currentFlow !in old(routes) ==> fresh(currentFlow)
      ensures currentFlow in routes && routes[currentFlow] == Route(src, dst)
      ensures State().ok && Submitted(old(State()), State(), currentFlow, src, dst)
    {
      hide DataPlane.State, Consistent;
      RelayIsOk(View(), plane.desired, plane.sinks);
      ghost var before := State();
      var flow := SourceFindFlow(src, dst);
      if flow == null {
        flow := CreateFlow(src, dst);
      }
      SetCurrent(flow);
    }

    // router_dp_source_handler: the frame went to the current flow.
    method RouterDpSourceHandler()
      requires State().ok
      modifies this`currentFlow
      ensures State() == old(State()).(relay := old(View()).(current := null))
    {
      SetCurrent(null);
    }

    method SetCurrent(f: DataProtoFlow?)
      requires State().ok && (f != null ==> f in routes)
      modifies this`currentFlow
      ensures State() == old(State()).(relay := old(View()).(current := f))
    {
      hide DataPlane.State;
      CurrentConsistent(View(), f, plane.desired, plane.sinks);
      currentFlow := f;
    }

    // DPRelaySource_Init and DPRelaySink_Init
    method AddPeer(p: nat)
      requires State().ok && p !in sources && p !in dests
      modifies this`sources, this`dests
      ensures State() == old(State()).(relay := old(View()).(sources := old(sources)[p := []], dests := old(dests)[p := Dest([], null)]))
    {
      hide DataPlane.State, Consistent;
      AddPeerConsistent(View(), p, plane.desired, plane.sinks);
      sources := sources[p := []];
      dests := dests[p := Dest([], null)];
    }

    // The loops of DPRelaySink_Attach and DPRelaySink_Detach.
    method AttachAll(list: seq<DataProtoFlow>, s: DataProtoSink?)
      requires plane.State().ok && NoDup(list) && (s != null ==> s in plane.sinks)
      requires forall f <- list :: f in plane.desired && (plane.desired[f] == null <==> s != null)
      modifies plane, plane.sinks, plane.flows, plane.buffers
      ensures plane.buffers == old(plane.buffers) && View() == old(View())
      ensures plane.State() == old(plane.State()).(desired := Redirect(old(plane.desired), Elements(list), s))
    {
      hide DataPlane.State;
      ghost var before := plane.State();
      var i := 0;
      assert before.desired == Redirect(before.desired, Elements(list[..0]), s);
      while i < |list|
        invariant 0 <= i <= |list| && plane.buffers == old(plane.buffers) && View() == old(View())
        invariant plane.State() == before.(desired := Redirect(before.desired, Elements(list[..i]), s))
      {
        assert list[i] in list && list[i] !in list[..i];
        RedirectStep(before.desired, list, i, s);
        if s != null {
          DataPlaneCalls.Attach(plane, list[i], s);
        } else {
          DataPlaneCalls.Detach(plane, list[i], true);
        }
        i := i + 1;
      }
      assert list[..i] == list;
    }

    method SetLink(p: nat, s: DataProtoSink?)
      requires p in dests
      modifies this`dests
      ensures View() == Relink(old(View()), p, s) && plane.State() == old(plane.State())
    {
      dests := dests[p := dests[p].(dpSink := s)];
    }

    // DPRelaySink_Attach
    method SinkAttach(p: nat, s: DataProtoSink)
      requires State().ok && p in dests && dests[p].dpSink == null && s in plane.sinks
      modifies this`dests, plane, plane.sinks, plane.flows, plane.buffers
      ensures plane.buffers == old(plane.buffers) && State() == Relinked(old(State()), p, s)
    {
      hide DataPlane.State, Consistent, To;
      RelinkConsistent(View(), p, s, plane.desired, plane.sinks);
      AttachAll(dests[p].flows, s);
      SetLink(p, s);
    }

    // DPRelaySink_Detach
    method SinkDetach(p: nat)
      requires State().ok && p in dests && dests[p].dpSink != null
      modifies this`dests, plane, plane.sinks, plane.flows, plane.buffers
      ensures plane.buffers == old(plane.buffers) && State() == Relinked(old(State()), p, null)
    {
      hide DataPlane.State, Consistent, To;
      RelinkConsistent(View(), p, null, plane.desired, plane.sinks);
      AttachAll(dests[p].flows, null);
      SetLink(p, null);
    }

    // DPRelaySource_Free
    method SourceFree(p: nat)
      requires State().ok && p in sources
      modifies this, plane, plane.sinks, plane.flows, plane.buffers
      ensures plane.buffers <= old(plane.buffers) && State().ok
      ensures Freed(old(State()), State(), From(old(routes), p), {p}, {})
    {
      hide DataPlane.State, Consistent, From;
      ghost var before, own := State(), From(routes, p);
      ghost var gone: set<DataProtoFlow> := {};
      while sources[p] != []
        invariant State().ok && gone <= own && plane.buffers <= old(plane.buffers)
        invariant Freed(before, State(), gone, {}, {}) && p in sources
        decreases own - gone
      {
        var f := sources[p][0];
        OwnFlow(View(), p, plane.desired, plane.sinks, before.relay, gone);
        FreedStep(before, State(), gone, f);
        FreeFlow(f);
        gone := gone + {f};
      }
      ForgetSourceConsistent(View(), p, plane.desired, plane.sinks);
      AllGoneFrom(before.relay.routes, gone, p);
      sources := sources - {p};
    }

    // DPRelaySink_Free
    method SinkFree(p: nat)
      requires State().ok && p in dests && dests[p].dpSink == null
      modifies this, plane, plane.sinks, plane.flows, plane.buffers
      ensures plane.buffers <= old(plane.buffers) && State().ok
      ensures Freed(old(State()), State(), To(old(routes), p), {}, {p})
    {
      hide DataPlane.State, Consistent, To;
      ghost var before, own := State(), To(routes, p);
      ghost var gone: set<DataProtoFlow> := {};
      while dests[p].flows != []
        invariant State().ok && gone <= own && plane.buffers <= old(plane.buffers)
        invariant Freed(before, State(), gone, {}, {}) && p in dests
        decreases own - gone
      {
        var f := dests[p].flows[0];
        OwnFlowTo(View(), p, plane.desired, plane.sinks, before.relay, gone);
        FreedStep(before, State(), gone, f);
        FreeFlow(f);
        gone := gone + {f};
      }
      ForgetDestConsistent(View(), p, plane.desired, plane.sinks);
      AllGoneTo(before.relay.routes, gone, p);
      dests := dests - {p};
    }

    // DPReceivePeer_Free: the relay destination and the relay source of a peer.
    method FreePeer(p: nat) returns (ghost gone: set<DataProtoFlow>)
      requires State().ok && p in sources && p in dests && dests[p].dpSink == null
      modifies this, plane, plane.sinks, plane.flows, plane.buffers
      ensures plane.buffers <= old(plane.buffers) && State().ok && gone == From(old(routes), p) + To(old(routes), p)
      ensures Freed(old(State()), State(), gone, {p}, {p})
    {
      hide DataPlane.State, Consistent, DPRelayRouter.State, From, To;
      ghost var before, r := State(), routes;
      gone := To(routes, p);
      RouteSets(routes, p);
      SinkFree(p);
      ghost var middle := State();
      gone := gone + From(routes, p);
      RouteSets(routes, p);
      SourceFree(p);
      FreedBoth(before, middle, State(), p, To(r, p), From(middle.relay.routes, p));
      OwnRoutes(r, p);
    }
  }

  // What create_flow and free_flow do to the router and the plane.
  ghost function AddFlow(s: RouterState, f: DataProtoFlow, src: nat, dst: nat): RouterState
    requires src in s.relay.sources && dst in s.relay.dests
  {
    RouterState(s.ok, Add(s.relay, f, src, dst),
      s.plane.(flows := s.plane.flows + {f}, desired := s.plane.desired[f := s.relay.dests[dst].dpSink]))
  }

  ghost function DropFlow(s: RouterState, f: DataProtoFlow): RouterState
    requires f in s.relay.routes
    requires s.relay.routes[f].src in s.relay.sources && s.relay.routes[f].dst in s.relay.dests
  {
    RouterState(s.ok, Drop(s.relay, f), s.plane.(flows := s.plane.flows - {f}, desired := s.plane.desired - {f}))
  }

  ghost function Relinked(s: RouterState, p: nat, to: DataProtoSink?): RouterState
    requires p in s.relay.dests
  {
    RouterState(s.ok, Relink(s.relay, p, to),
      s.plane.(desired := Redirect(s.plane.desired, To(s.relay.routes, p), to)))
  }

  // The frame's flow is current; it is the only thing that may be new.
  ghost predicate Submitted(s: RouterState, t: RouterState, f: DataProtoFlow, src: nat, dst: nat)
    requires src in s.relay.sources && dst in s.relay.dests
  {
    var u := if f in s.relay.routes then s else AddFlow(s, f, src, dst);
    t == u.(relay := u.relay.(current := f))
  }

  // Some flows are gone, and with them the lists of some peers.
  ghost predicate Freed(s: RouterState, t: RouterState, gone: set<DataProtoFlow>, sources: set<nat>, dests: set<nat>) {
    && t.relay.routes == s.relay.routes - gone
    && t.relay.sources.Keys == s.relay.sources.Keys - sources
    && SameLinks(s.relay.dests - dests, t.relay.dests)
    && t.plane == s.plane.(flows := s.plane.flows - gone, desired := s.plane.desired - gone)
  }

  lemma FreedStep(s: RouterState, t: RouterState, gone: set<DataProtoFlow>, f: DataProtoFlow)
    requires Freed(s, t, gone, {}, {}) && f in t.relay.routes
    requires t.relay.routes[f].src in t.relay.sources && t.relay.routes[f].dst in t.relay.dests
    ensures Freed(s, DropFlow(t, f), gone + {f}, {}, {})
  {
    assert s.relay.routes - (gone + {f}) == t.relay.routes - {f};
    assert s.plane.desired - (gone + {f}) == t.plane.desired - {f};
  }

  lemma FreedBoth(s: RouterState, t: RouterState, u: RouterState, p: nat, a: set<DataProtoFlow>, b: set<DataProtoFlow>)
    requires Freed(s, t, a, {}, {p}) && Freed(t, u, b, {p}, {})
    ensures Freed(s, u, a + b, {p}, {p})
  {
  }
}
