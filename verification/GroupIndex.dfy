// The multicast groups of client/FrameDecider.c: a pool of entries per peer, a tree by group
// address per peer, and the multicast index over the used entries of all peers.
module GroupIndex {
  import opened Lists
  import opened MacIndex
  import opened MulticastIndex

  // max_peer_groups; group_entries_free, group_entries_used and groups_tree by peer; the index
  datatype Groups = Groups(max: nat, free: map<nat, seq<Slot>>, used: map<nat, seq<Slot>>,
                           trees: map<nat, map<nat, Slot>>, index: Index)

  ghost function Members(used: map<nat, seq<Slot>>): set<Slot> {
    set p, s | p in used && s in used[p] :: s
  }

  // A peer's tree holds exactly its used entries, by group.
  ghost predicate PeerTreeOk(g: Groups, p: nat)
    requires p in g.used && p in g.trees
  {
    && (forall s <- g.used[p] :: s in g.index.entry && g.index.entry[s].group in g.trees[p] && g.trees[p][g.index.entry[s].group] == s)
    && (forall a <- g.trees[p] :: g.trees[p][a] in g.used[p] && g.trees[p][a] in g.index.entry && g.index.entry[g.trees[p][a]].group == a)
  }

  ghost predicate PoolsOk(g: Groups) {
    && g.max > 0 && g.free.Keys == g.used.Keys == g.trees.Keys
    && (forall p <- g.used :: PoolOk(g.max, p, g.free[p], g.used[p]))
    && (forall p <- g.used :: PeerTreeOk(g, p))
  }

  ghost predicate GroupsOk(g: Groups) {
    PoolsOk(g) && IndexOk(g.index, Members(g.used))
  }

  // A used entry leaves its peer's tree and used list.
  function Unuse(g: Groups, s: Slot): Groups
    requires s.peer in g.used && s.peer in g.trees && s in g.index.entry
  {
    g.(used := g.used[s.peer := Remove(g.used[s.peer], s)],
       trees := g.trees[s.peer := g.trees[s.peer] - {g.index.entry[s].group}])
  }

  // remove_group_entry
  function Leave(g: Groups, s: Slot): Groups
    requires s.peer in g.used && s.peer in g.trees && s.peer in g.free && s in g.index.entry && Droppable(g.index, s)
  {
    var h := Unuse(g.(index := Drop(g.index, s)), s);
    h.(free := h.free[s.peer := h.free[s.peer] + [s]])
  }

  predicate Droppable(x: Index, s: Slot) {
    && s in x.entry && SigForGroup(x.entry[s].group) in x.lists
    && var list := x.lists[SigForGroup(x.entry[s].group)];
      (|list| > 1 ==> NextOrPrev(list, s) in x.entry) && (s in Drop(x, s).entry)
  }

  lemma UsedIsMember(g: Groups, s: Slot)
    requires GroupsOk(g) && s.peer in g.used && s in g.used[s.peer]
    ensures s in Members(g.used) && Droppable(g.index, s) && s.peer in g.trees && s.peer in g.free
  {
    DropPossible(g.index, Members(g.used), s);
  }

  // Dropping an entry from the index changes no group.
  lemma DropSame(x: Index, s: Slot)
    requires Droppable(x, s)
    ensures Drop(x, s).entry.Keys == x.entry.Keys
    ensures forall t <- x.entry :: Drop(x, s).entry[t].group == x.entry[t].group && Drop(x, s).entry[t].endtime == x.entry[t].endtime
  {
  }

  lemma MembersRemove(g: Groups, s: Slot)
    requires PoolsOk(g) && s.peer in g.used && s in g.used[s.peer]
    ensures Members(g.used[s.peer := Remove(g.used[s.peer], s)]) == Members(g.used) - {s}
  {
    assert PoolOk(g.max, s.peer, g.free[s.peer], g.used[s.peer]);
    RemoveFacts(g.used[s.peer], s);
    var u := g.used[s.peer := Remove(g.used[s.peer], s)];
    forall t | t in Members(g.used) && t != s ensures t in Members(u) {
      var p :| p in g.used && t in g.used[p];
      assert p in u && t in u[p];
    }
    forall t | t in Members(u) ensures t in Members(g.used) && t != s {
      var p :| p in u && t in u[p];
      assert p in g.used && t in g.used[p];
      assert PoolOk(g.max, p, g.free[p], g.used[p]);
    }
  }

  // PoolsOk, except that peer p is one entry short.
  ghost predicate PoolsBut(g: Groups, p: nat) {
    && g.max > 0 && g.free.Keys == g.used.Keys == g.trees.Keys && p in g.used
    && PoolOk(g.max - 1, p, g.free[p], g.used[p])
    && (forall q <- g.used :: q != p ==> PoolOk(g.max, q, g.free[q], g.used[q]))
    && (forall q <- g.used :: PeerTreeOk(g, q))
  }

  // The pools only depend on the groups of the entries.
  lemma PoolsSame(g: Groups, x: Index)
    requires PoolsOk(g) && x.entry.Keys == g.index.entry.Keys
    requires forall s <- x.entry :: x.entry[s].group == g.index.entry[s].group
    ensures PoolsOk(g.(index := x))
  {
    forall q <- g.used ensures PeerTreeOk(g.(index := x), q) {
      assert PeerTreeOk(g, q);
    }
  }

  lemma UnuseKeeps(g: Groups, s: Slot)
    requires PoolsOk(g) && s.peer in g.used && s in g.used[s.peer]
    ensures s.peer in g.trees && s in g.index.entry && PoolsBut(Unuse(g, s), s.peer)
    ensures s !in Unuse(g, s).used[s.peer] && s !in g.free[s.peer]
  {
    var p, t := s.peer, Unuse(g, s);
    assert PoolOk(g.max, p, g.free[p], g.used[p]) && PeerTreeOk(g, p);
    RemoveFacts(g.used[p], s);
    forall q <- t.used ensures PeerTreeOk(t, q) {
      assert PeerTreeOk(g, q);
    }
  }

  lemma LeaveKeeps(g: Groups, s: Slot)
    requires GroupsOk(g) && s.peer in g.used && s in g.used[s.peer]
    ensures s.peer in g.trees && s.peer in g.free && Droppable(g.index, s) && GroupsOk(Leave(g, s))
    ensures Members(Leave(g, s).used) == Members(g.used) - {s}
  {
    hide PeerTreeOk, PoolOk, ListOk, Members;
    UsedIsMember(g, s);
    DropKeeps(g.index, Members(g.used), s);
    DropSame(g.index, s);
    var h := g.(index := Drop(g.index, s));
    PoolsSame(g, h.index);
    UnuseKeeps(h, s);
    MembersRemove(h, s);
    FreeKeeps(Unuse(h, s), s);
  }

  lemma FreeKeeps(g: Groups, s: Slot)
    requires PoolsBut(g, s.peer) && s !in g.used[s.peer] && s !in g.free[s.peer]
    ensures PoolsOk(g.(free := g.free[s.peer := g.free[s.peer] + [s]]))
  {
    var t := g.(free := g.free[s.peer := g.free[s.peer] + [s]]);
    forall q <- t.used ensures PoolOk(t.max, q, t.free[q], t.used[q]) && PeerTreeOk(t, q) {
      assert PeerTreeOk(g, q);
    }
  }

  // The entry add_group_to_peer takes: a free one, or the one joined longest ago.
  function TakenGroup(g: Groups, p: nat): Slot
    requires p in g.used && p in g.free && (g.free[p] != [] || g.used[p] != [])
  {
    if g.free[p] != [] then g.free[p][0] else g.used[p][0]
  }

  function TakeGroup(g: Groups, p: nat): Groups
    requires p in g.used && p in g.free && p in g.trees
    requires g.free[p] != [] || (g.used[p] != [] && g.used[p][0].peer == p && Droppable(g.index, g.used[p][0]))
  {
    if g.free[p] != [] then g.(free := g.free[p := g.free[p][1..]])
    else Unuse(g.(index := Drop(g.index, g.used[p][0])), g.used[p][0])
  }

  function UseGroup(g: Groups, p: nat, s: Slot, group: nat, endtime: nat): Groups
    requires p in g.used && p in g.trees
  {
    var tree: map<nat, Slot> := g.trees[p][group := s];
    g.(used := g.used[p := g.used[p] + [s]],
       trees := g.trees[p := tree],
       index := Add(g.index.(entry := g.index.entry[s := Group(group, endtime, false)]), s))
  }

  lemma CanTake(g: Groups, p: nat)
    requires GroupsOk(g) && p in g.used
    ensures p in g.free && p in g.trees
    ensures g.free[p] != [] || (g.used[p] != [] && g.used[p][0].peer == p && Droppable(g.index, g.used[p][0]))
    ensures g.free[p] == [] ==> g.used[p][0] in g.used[p]
    ensures |g.free[p]| + |g.used[p]| == g.max
  {
    assert PoolOk(g.max, p, g.free[p], g.used[p]);
    if g.free[p] == [] {
      assert g.used[p][0] in g.used[p];
      UsedIsMember(g, g.used[p][0]);
    }
  }

  lemma TakeFreeKeeps(g: Groups, p: nat)
    requires PoolsOk(g) && p in g.used && g.free[p] != []
    ensures var t, s := g.(free := g.free[p := g.free[p][1..]]), g.free[p][0];
      PoolsBut(t, p) && s.peer == p && s !in t.free[p] && s !in Members(t.used)
  {
    var t, s := g.(free := g.free[p := g.free[p][1..]]), g.free[p][0];
    assert PoolOk(g.max, p, g.free[p], g.used[p]);
    assert g.free[p] == [s] + g.free[p][1..] && s in g.free[p];
    forall q <- t.used ensures PeerTreeOk(t, q) && s !in t.used[q] {
      assert PeerTreeOk(g, q) && PoolOk(g.max, q, g.free[q], g.used[q]);
    }
  }

  lemma TakeGroupKeeps(g: Groups, p: nat)
    requires GroupsOk(g) && p in g.used
    ensures p in g.free && p in g.trees
    ensures g.free[p] != [] || (g.used[p] != [] && g.used[p][0].peer == p && Droppable(g.index, g.used[p][0]))
    ensures var t, s := TakeGroup(g, p), TakenGroup(g, p);
      && PoolsBut(t, p) && s.peer == p && s !in t.free[p] && s !in Members(t.used) && IndexOk(t.index, Members(t.used))
      && (forall a <- t.trees[p] :: a in g.trees[p]) && t.used.Keys == g.used.Keys && t.max == g.max
  {
    hide PeerTreeOk, PoolOk, ListOk, Members;
    CanTake(g, p);
    var s := TakenGroup(g, p);
    if g.free[p] != [] {
      TakeFreeKeeps(g, p);
    } else {
      UsedIsMember(g, s);
      DropKeeps(g.index, Members(g.used), s);
      DropSame(g.index, s);
      var h := g.(index := Drop(g.index, s));
      PoolsSame(g, h.index);
      UnuseKeeps(h, s);
      MembersRemove(h, s);
    }
  }

  // Values of entries that are not members do not matter.
  lemma IndexOther(x: Index, members: set<Slot>, s: Slot, v: Group)
    requires IndexOk(x, members) && s !in members
    ensures IndexOk(x.(entry := x.entry[s := v]), members)
  {
    var y := x.(entry := x.entry[s := v]);
    forall t <- y.lists ensures ListOk(y, members, t) {
      assert ListOk(x, members, t);
    }
  }

  lemma MembersAppend(used: map<nat, seq<Slot>>, p: nat, s: Slot)
    requires p in used
    ensures Members(used[p := used[p] + [s]]) == Members(used) + {s}
  {
    var u := used[p := used[p] + [s]];
    forall t <- Members(used) ensures t in Members(u) {
      var q :| q in used && t in used[q];
      assert q in u && t in u[q];
    }
    assert s in u[p];
    forall t <- Members(u) ensures t in Members(used) || t == s {
      var q :| q in u && t in u[q];
      assert q in used && (t in used[q] || t == s);
    }
  }

  lemma AddSame(x: Index, s: Slot)
    requires s in x.entry
    ensures Add(x, s).entry.Keys == x.entry.Keys
    ensures forall t <- x.entry :: Add(x, s).entry[t].group == x.entry[t].group && Add(x, s).entry[t].endtime == x.entry[t].endtime
  {
  }

  lemma UseGroupPools(g: Groups, p: nat, s: Slot, group: nat, endtime: nat)
    requires PoolsBut(g, p) && s.peer == p && s !in g.used[p] && s !in g.free[p] && group !in g.trees[p]
    requires forall q <- g.used :: s !in g.used[q]
    ensures PoolsOk(UseGroup(g, p, s, group, endtime))
  {
    var t := UseGroup(g, p, s, group, endtime);
    AddSame(g.index.(entry := g.index.entry[s := Group(group, endtime, false)]), s);
    UsePool(g.max, p, g.free[p], g.used[p], s);
    forall q <- t.used ensures PeerTreeOk(t, q) {
      assert PeerTreeOk(g, q);
    }
  }

  lemma NotMember(g: Groups, s: Slot)
    requires s !in Members(g.used)
    ensures forall q <- g.used :: s !in g.used[q]
  {
  }

  lemma UseGroupKeeps(g: Groups, p: nat, s: Slot, group: nat, endtime: nat)
    requires PoolsBut(g, p) && s.peer == p && s !in g.free[p] && s !in Members(g.used) && group !in g.trees[p]
    requires IndexOk(g.index, Members(g.used))
    ensures GroupsOk(UseGroup(g, p, s, group, endtime))
  {
    hide PeerTreeOk, PoolOk, ListOk, Members;
    NotMember(g, s);
    UseGroupPools(g, p, s, group, endtime);
    var v := Group(group, endtime, false);
    IndexOther(g.index, Members(g.used), s, v);
    AddKeeps(g.index.(entry := g.index.entry[s := v]), Members(g.used), s);
    MembersAppend(g.used, p, s);
  }
}
