// client/DPRelay.c: the relay flows, one per pair of peers that a frame was relayed between,
// and the two lists each of them is in.
module DPRelayState {
  import opened Lists
  import opened DataProtoState

  datatype Route = Route(src: nat, dst: nat)

  // DPRelaySink: the flows towards a peer and the link frames for it are sent on.
  datatype Dest = Dest(flows: seq<DataProtoFlow>, dpSink: DataProtoSink?)

  datatype Relay = Relay(routes: map<DataProtoFlow, Route>, sources: map<nat, seq<DataProtoFlow>>,
                         dests: map<nat, Dest>, current: DataProtoFlow?)

  // A list holds exactly the flows of one source, or towards one destination.
  ghost predicate ListOf(list: seq<DataProtoFlow>, own: set<DataProtoFlow>) {
    NoDup(list) && (forall f <- list :: f in own) && (forall f <- own :: f in list)
  }

  ghost function From(routes: map<DataProtoFlow, Route>, src: nat): set<DataProtoFlow> {
    set f | f in routes && routes[f].src == src
  }

  ghost function To(routes: map<DataProtoFlow, Route>, dst: nat): set<DataProtoFlow> {
    set f | f in routes && routes[f].dst == dst
  }

  lemma RouteSets(routes: map<DataProtoFlow, Route>, p: nat)
    ensures From(routes, p) <= routes.Keys && To(routes, p) <= routes.Keys
  {
  }

  // Once the flows towards a peer are gone, the flows from it are the rest of its flows.
  lemma OwnRoutes(routes: map<DataProtoFlow, Route>, p: nat)
    ensures To(routes, p) + From(routes - To(routes, p), p) == From(routes, p) + To(routes, p)
    ensures From(routes, p) + To(routes, p) <= routes.Keys
  {
    RouteSets(routes, p);
  }

  ghost predicate RelayOk(r: Relay) {
    && (forall f <- r.routes :: r.routes[f].src in r.sources && r.routes[f].dst in r.dests)
    && (forall p <- r.sources :: ListOf(r.sources[p], From(r.routes, p)))
    && (forall p <- r.dests :: ListOf(r.dests[p].flows, To(r.routes, p)))
    && (forall f, g :: f in r.routes && g in r.routes && r.routes[f] == r.routes[g] ==> f == g)
    && (r.current != null ==> r.current in r.routes)
  }

  // Every relay flow wants the link its destination currently has.
  ghost predicate Wanted(r: Relay, desired: Desires) {
    forall f <- r.routes :: f in desired && r.routes[f].dst in r.dests && desired[f] == r.dests[r.routes[f].dst].dpSink
  }

  ghost predicate LinksKnown(r: Relay, sinks: set<DataProtoSink>) {
    forall p <- r.dests :: r.dests[p].dpSink != null ==> r.dests[p].dpSink in sinks
  }

  // create_flow, the two lists
  function Add(r: Relay, f: DataProtoFlow, src: nat, dst: nat): Relay
    requires src in r.sources && dst in r.dests
  {
    r.(routes := r.routes[f := Route(src, dst)],
       sources := r.sources[src := r.sources[src] + [f]],
       dests := r.dests[dst := r.dests[dst].(flows := r.dests[dst].flows + [f])])
  }

  // free_flow, the two lists and the router's reference
  function Drop(r: Relay, f: DataProtoFlow): Relay
    requires f in r.routes && r.routes[f].src in r.sources && r.routes[f].dst in r.dests
  {
    var src, dst := r.routes[f].src, r.routes[f].dst;
    r.(routes := r.routes - {f},
       sources := r.sources[src := Remove(r.sources[src], f)],
       dests := r.dests[dst := r.dests[dst].(flows := Remove(r.dests[dst].flows, f))],
       current := if r.current == f then null else r.current)
  }

  lemma ListOfAppend(list: seq<DataProtoFlow>, own: set<DataProtoFlow>, f: DataProtoFlow)
    requires ListOf(list, own) && f !in own
    ensures ListOf(list + [f], own + {f})
  {
    assert f !in list;
  }

  lemma AddKeeps(r: Relay, f: DataProtoFlow, src: nat, dst: nat)
    requires RelayOk(r) && src in r.sources && dst in r.dests && f !in r.routes
    requires Route(src, dst) !in r.routes.Values
    ensures RelayOk(Add(r, f, src, dst))
  {
    var t := Add(r, f, src, dst);
    forall p <- t.sources ensures ListOf(t.sources[p], From(t.routes, p)) {
      ListOfAppend(r.sources[p], From(r.routes, p), f);
      assert From(t.routes, p) == From(r.routes, p) + if p == src then {f} else {};
    }
    forall p <- t.dests ensures ListOf(t.dests[p].flows, To(t.routes, p)) {
      ListOfAppend(r.dests[p].flows, To(r.routes, p), f);
      assert To(t.routes, p) == To(r.routes, p) + if p == dst then {f} else {};
    }
  }

  lemma DropKeeps(r: Relay, f: DataProtoFlow)
    requires RelayOk(r) && f in r.routes
    ensures RelayOk(Drop(r, f))
  {
    var t := Drop(r, f);
    forall p <- t.sources ensures ListOf(t.sources[p], From(t.routes, p)) {
      assert ListOf(r.sources[p], From(r.routes, p));
      RemoveFacts(r.sources[p], f);
    }
    forall p <- t.dests ensures ListOf(t.dests[p].flows, To(t.routes, p)) {
      assert ListOf(r.dests[p].flows, To(r.routes, p));
      RemoveFacts(r.dests[p].flows, f);
    }
  }

  // The router agrees with what its flows want from the sinks there are.
  ghost predicate Consistent(r: Relay, desired: Desires, sinks: set<DataProtoSink>) {
    RelayOk(r) && Wanted(r, desired) && LinksKnown(r, sinks)
  }

  lemma AddConsistent(r: Relay, f: DataProtoFlow, src: nat, dst: nat, desired: Desires, sinks: set<DataProtoSink>)
    requires Consistent(r, desired, sinks) && src in r.sources && dst in r.dests
    requires f !in r.routes && Route(src, dst) !in r.routes.Values
    ensures Consistent(Add(r, f, src, dst), desired[f := r.dests[dst].dpSink], sinks)
    ensures r.dests[dst].dpSink != null ==> r.dests[dst].dpSink in sinks
  {
    AddKeeps(r, f, src, dst);
  }

  lemma DropConsistent(r: Relay, f: DataProtoFlow, desired: Desires, sinks: set<DataProtoSink>)
    requires Consistent(r, desired, sinks) && f in r.routes
    ensures r.routes[f].src in r.sources && r.routes[f].dst in r.dests
    ensures f in desired && desired[f] == r.dests[r.routes[f].dst].dpSink
    ensures Consistent(Drop(r, f), desired - {f}, sinks)
  {
    DropKeeps(r, f);
  }

  // The flows of `own` now want s.
  ghost function Redirect(desired: Desires, own: set<DataProtoFlow>, s: DataProtoSink?): Desires {
    map f | f in desired :: if f in own then s else desired[f]
  }

  ghost function Elements(list: seq<DataProtoFlow>): set<DataProtoFlow> {
    set f <- list
  }

  lemma RedirectStep(desired: Desires, list: seq<DataProtoFlow>, i: nat, s: DataProtoSink?)
    requires i < |list| && list[i] in desired
    ensures Redirect(desired, Elements(list[..i]), s)[list[i] := s] == Redirect(desired, Elements(list[..i + 1]), s)
  {
    assert list[..i + 1] == list[..i] + [list[i]];
  }

  // A destination gets or loses its link, and its flows follow.
  function Relink(r: Relay, p: nat, s: DataProtoSink?): Relay
    requires p in r.dests
  {
    r.(dests := r.dests[p := r.dests[p].(dpSink := s)])
  }

  lemma RelinkConsistent(r: Relay, p: nat, s: DataProtoSink?, desired: Desires, sinks: set<DataProtoSink>)
    requires Consistent(r, desired, sinks) && p in r.dests && (s != null ==> s in sinks)
    ensures Consistent(Relink(r, p, s), Redirect(desired, To(r.routes, p), s), sinks)
    ensures ListOf(r.dests[p].flows, To(r.routes, p))
    ensures forall f <- r.dests[p].flows :: f in desired && desired[f] == r.dests[p].dpSink
    ensures Elements(r.dests[p].flows) == To(r.routes, p)
  {
    var t := Relink(r, p, s);
    assert ListOf(r.dests[p].flows, To(r.routes, p));
    forall q <- t.dests ensures ListOf(t.dests[q].flows, To(t.routes, q)) {
      assert ListOf(r.dests[q].flows, To(r.routes, q));
    }
  }

  // Relay state for a peer that has just come, without flows or link.
  lemma AddPeerConsistent(r: Relay, p: nat, desired: Desires, sinks: set<DataProtoSink>)
    requires Consistent(r, desired, sinks) && p !in r.sources && p !in r.dests
    ensures Consistent(r.(sources := r.sources[p := []], dests := r.dests[p := Dest([], null)]), desired, sinks)
  {
    assert From(r.routes, p) == {} && To(r.routes, p) == {};
  }

  lemma ForgetSourceConsistent(r: Relay, p: nat, desired: Desires, sinks: set<DataProtoSink>)
    requires Consistent(r, desired, sinks) && p in r.sources && r.sources[p] == []
    ensures Consistent(r.(sources := r.sources - {p}), desired, sinks) && From(r.routes, p) == {}
  {
    assert ListOf(r.sources[p], From(r.routes, p));
    assert forall f <- r.routes :: r.routes[f].src == p ==> f in From(r.routes, p);
  }

  lemma ForgetDestConsistent(r: Relay, p: nat, desired: Desires, sinks: set<DataProtoSink>)
    requires Consistent(r, desired, sinks) && p in r.dests && r.dests[p].flows == []
    ensures Consistent(r.(dests := r.dests - {p}), desired, sinks) && To(r.routes, p) == {}
  {
    assert ListOf(r.dests[p].flows, To(r.routes, p));
    assert forall f <- r.routes :: r.routes[f].dst == p ==> f in To(r.routes, p);
  }

  ghost predicate SameLinks(a: map<nat, Dest>, b: map<nat, Dest>) {
    a.Keys == b.Keys && forall p <- a :: a[p].dpSink == b[p].dpSink
  }

  lemma FlowIsListed(r: Relay, f: DataProtoFlow, desired: Desires, sinks: set<DataProtoSink>)
    requires Consistent(r, desired, sinks) && f in r.routes
    ensures r.routes[f].src in r.sources && r.routes[f].dst in r.dests
  {
  }

  // The first flow in the list of a source, about to be freed, when `gone` are gone already.
  lemma OwnFlow(r: Relay, p: nat, desired: Desires, sinks: set<DataProtoSink>, was: Relay, gone: set<DataProtoFlow>)
    requires Consistent(r, desired, sinks) && p in r.sources && r.sources[p] != [] && r.routes == was.routes - gone
    ensures var f := r.sources[p][0];
      && f in r.routes && f !in gone && f in From(was.routes, p)
      && r.routes[f].src in r.sources && r.routes[f].dst in r.dests
  {
    assert ListOf(r.sources[p], From(r.routes, p)) && r.sources[p][0] in r.sources[p];
  }

  lemma OwnFlowTo(r: Relay, p: nat, desired: Desires, sinks: set<DataProtoSink>, was: Relay, gone: set<DataProtoFlow>)
    requires Consistent(r, desired, sinks) && p in r.dests && r.dests[p].flows != [] && r.routes == was.routes - gone
    ensures var f := r.dests[p].flows[0];
      && f in r.routes && f !in gone && f in To(was.routes, p)
      && r.routes[f].src in r.sources && r.routes[f].dst in r.dests
  {
    assert ListOf(r.dests[p].flows, To(r.routes, p)) && r.dests[p].flows[0] in r.dests[p].flows;
  }

  // When the list of a source is empty, all its flows are gone.
  lemma AllGoneFrom(routes: map<DataProtoFlow, Route>, gone: set<DataProtoFlow>, p: nat)
    requires gone <= From(routes, p) && From(routes - gone, p) == {}
    ensures gone == From(routes, p)
  {
    var own := From(routes, p);
    assert From(routes - gone, p) == own - gone;
    assert own == gone + (own - gone);
  }

  lemma AllGoneTo(routes: map<DataProtoFlow, Route>, gone: set<DataProtoFlow>, p: nat)
    requires gone <= To(routes, p) && To(routes - gone, p) == {}
    ensures gone == To(routes, p)
  {
    var own := To(routes, p);
    assert To(routes - gone, p) == own - gone;
    assert own == gone + (own - gone);
  }

  lemma RelayIsOk(r: Relay, desired: Desires, sinks: set<DataProtoSink>)
    requires Consistent(r, desired, sinks)
    ensures RelayOk(r)
  {
  }

  lemma CurrentConsistent(r: Relay, f: DataProtoFlow?, desired: Desires, sinks: set<DataProtoSink>)
    requires Consistent(r, desired, sinks) && (f != null ==> f in r.routes)
    ensures Consistent(r.(current := f), desired, sinks)
  {
  }
}
