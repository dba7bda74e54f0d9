// The changes of client/FrameDecider.c to its tables, with a decision possibly under way.
module FrameDeciderEvents {
  import opened Wrappers
  import opened Lists
  import M = MacIndex
  import opened MacIndex
  import opened MulticastIndex
  import opened GroupIndex
  import opened GroupSpec
  import G = GroupRefinement
  import opened FrameDeciderSpec

  // add_mac_to_peer leaves the decider in order, does what the simple table does, and changes
  // nothing that is pending.
  lemma LearnKeeps(d: Decider, p: nat, a: Mac)
    requires TablesOk(d) && p in d.peers
    ensures MacsOk(d.macs) && p in d.macs.used && TablesOk(d.(macs := AddMac(d.macs, p, a)))
    ensures DeciderOk(d.(macs := AddMac(d.macs, p, a))) <==> DeciderOk(d)
    ensures Pending(d.(macs := AddMac(d.macs, p, a))) == Pending(d)
    ensures Lru(AddMac(d.macs, p, a)) == Learn(Lru(d.macs), d.macs.max, p, a)
  {
    hide GroupsOk, MacsOk, AddMac, Learn, Lru, Members, PendingEntries;
    AddMacLearns(d.macs, p, a);
  }

  // add_group_to_peer: the entry it takes over may be one the iterator is at.
  ghost function JoinGroup(d: Decider, p: nat, group: nat, endtime: nat): Decider
    requires GroupsOk(d.groups) && p in d.groups.used
  {
    PeersTree(d.groups, p);
    CanTake(d.groups, p);
    var evicts := group !in d.groups.trees[p] && d.groups.free[p] == [];
    d.(groups := AddGroup(d.groups, p, group, endtime),
       decide := if evicts then Jumped(d.decide, d.groups.index, d.groups.used[p][0]) else d.decide)
  }

  lemma JoinMembers(g: Groups, p: nat, group: nat, endtime: nat)
    requires GroupsOk(g) && p in g.used
    ensures p in g.trees && p in g.free && (g.free[p] == [] ==> g.used[p] != [])
    ensures group in g.trees[p] || g.free[p] != [] ==> Members(g.used) <= Members(AddGroup(g, p, group, endtime).used)
    ensures group !in g.trees[p] && g.free[p] == [] ==>
      g.used[p][0] in Members(g.used) && Members(g.used) <= Members(AddGroup(g, p, group, endtime).used)
  {
    hide PoolOk, PeerTreeOk, IndexOk, Members;
    PeersTree(g, p);
    CanTake(g, p);
    if group in g.trees[p] {
      RejoinMembers(g, p, g.trees[p][group]);
    } else {
      TakeGroupKeeps(g, p);
      var t := TakeGroup(g, p);
      MembersAppend(t.used, p, TakenGroup(g, p));
      if g.free[p] == [] {
        UsedIsMember(g, g.used[p][0]);
        DropSame(g.index, g.used[p][0]);
        PoolsSame(g, Drop(g.index, g.used[p][0]));
        MembersRemove(g.(index := Drop(g.index, g.used[p][0])), g.used[p][0]);
      }
    }
  }

  lemma JoinKeeps(d: Decider, p: nat, group: nat, endtime: nat)
    requires TablesOk(d) && p in d.peers
    ensures GroupsOk(d.groups) && p in d.groups.used && TablesOk(JoinGroup(d, p, group, endtime))
    ensures DeciderOk(d) ==> DeciderOk(JoinGroup(d, p, group, endtime))
    ensures Joined(JoinGroup(d, p, group, endtime).groups) ==
      Joined(d.groups)[p := Join(Joined(d.groups)[p], d.groups.max, group, endtime)]
  {
    hide PoolsOk, IndexOk, MacsOk, Members, AddGroup, Joined, Drop;
    JoinMembers(d.groups, p, group, endtime);
    G.AddGroupJoins(d.groups, p, group, endtime);
    if group !in d.groups.trees[p] && d.groups.free[p] == [] && d.decide.Multicast? && d.decide.registered {
      DropPending(d.groups.index, Members(d.groups.used), d.decide.at, d.groups.used[p][0]);
    }
  }

  // The entry add_group_to_peer uses.
  ghost function JoinedEntry(g: Groups, p: nat, group: nat): Slot
    requires GroupsOk(g) && p in g.used
  {
    PeersTree(g, p);
    CanTake(g, p);
    if group in g.trees[p] then g.trees[p][group] else TakenGroup(g, p)
  }

  // Joining takes over an entry that was in use.
  ghost predicate Evicts(g: Groups, p: nat, group: nat)
    requires GroupsOk(g) && p in g.used
  {
    PeersTree(g, p);
    CanTake(g, p);
    group !in g.trees[p] && g.free[p] == []
  }

  // Of all entries only the one used changes whether it is pending, if and only if the iterator is
  // registered or is not at it; else the decision goes on with the entries of the joined group.
  lemma JoinPending(d: Decider, p: nat, group: nat, endtime: nat)
    requires DeciderOk(d) && p in d.peers && d.decide.Multicast?
    ensures GroupsOk(d.groups) && p in d.groups.used && JoinGroup(d, p, group, endtime).decide.Multicast?
    ensures var s, t := JoinedEntry(d.groups, p, group), JoinGroup(d, p, group, endtime);
      if Evicts(d.groups, p, group) && Lost(d.decide, s) then
        && SigForGroup(group) in t.groups.index.lists
        && PendingEntries(t.groups.index, t.decide.at) == Suffix(t.groups.index.lists[SigForGroup(group)], s)
      else
        Remove(PendingEntries(t.groups.index, t.decide.at), s) == Remove(PendingEntries(d.groups.index, d.decide.at), s)
    ensures var t := JoinGroup(d, p, group, endtime);
      p in d.groups.trees && (group in d.groups.trees[p] ==>
        PendingEntries(t.groups.index, t.decide.at) == PendingEntries(d.groups.index, d.decide.at))
  {
    hide PoolsOk, IndexOk, MacsOk, Members, Drop, PendingEntries, UseGroup, TakeGroup;
    var g, at := d.groups, d.decide.at;
    PeersTree(g, p);
    CanTake(g, p);
    if group in g.trees[p] {
      RejoinPending(g, p, g.trees[p][group], endtime, at);
    } else {
      TakeGroupKeeps(g, p);
      var s, u := TakenGroup(g, p), TakeGroup(g, p);
      if g.free[p] != [] {
        FreePending(g, p, at);
        UsePending(u, p, s, group, endtime, at);
      } else {
        UsedIsMember(g, s);
        DropPending(g.index, Members(g.used), at, s);
        if Lost(d.decide, s) {
          LostPending(u, p, s, group, endtime);
        } else {
          MembersTaken(g, p);
          UsePending(u, p, s, group, endtime, Jump(g.index, at, s));
        }
      }
    }
  }

  lemma RejoinPending(g: Groups, p: nat, s: Slot, endtime: nat, at: Option<Slot>)
    requires s in g.index.entry && p in g.used
    ensures PendingEntries(Rejoin(g, p, s, endtime).index, at) == PendingEntries(g.index, at)
  {
  }

  lemma FreePending(g: Groups, p: nat, at: Option<Slot>)
    requires GroupsOk(g) && p in g.used && p in g.free && p in g.trees && g.free[p] != [] && (at.Some? ==> at.value in Members(g.used))
    ensures TakeGroup(g, p).index == g.index && TakeGroup(g, p).used == g.used
    ensures Remove(PendingEntries(g.index, at), g.free[p][0]) == PendingEntries(g.index, at)
  {
    TakeGroupKeeps(g, p);
    if at.Some? {
      EntryListed(g.index, Members(g.used), at.value);
      SuffixSelf(g.index.lists[SigForGroup(g.index.entry[at.value].group)], at.value);
    }
  }

  lemma MembersTaken(g: Groups, p: nat)
    requires GroupsOk(g) && p in g.used && p in g.free && p in g.trees && g.free[p] == []
    requires g.used[p] != [] && g.used[p][0].peer == p && Droppable(g.index, g.used[p][0])
    ensures TakeGroup(g, p).index == Drop(g.index, g.used[p][0])
    ensures Members(TakeGroup(g, p).used) == Members(g.used) - {g.used[p][0]}
  {
    DropSame(g.index, g.used[p][0]);
    var h := g.(index := Drop(g.index, g.used[p][0]));
    PoolsSame(g, h.index);
    assert g.used[p][0] in g.used[p];
    MembersRemove(h, g.used[p][0]);
  }

  lemma UsePending(g: Groups, p: nat, s: Slot, group: nat, endtime: nat, at: Option<Slot>)
    requires p in g.used && p in g.trees && IndexOk(g.index, Members(g.used)) && s !in Members(g.used)
    requires at.Some? ==> at.value in Members(g.used)
    ensures Remove(PendingEntries(UseGroup(g, p, s, group, endtime).index, at), s) == PendingEntries(g.index, at)
  {
    hide IndexOk, Members;
    var v := Group(group, endtime, false);
    IndexOther(g.index, Members(g.used), s, v);
    AddPending(g.index.(entry := g.index.entry[s := v]), Members(g.used), at, s);
  }

  lemma LostPending(g: Groups, p: nat, s: Slot, group: nat, endtime: nat)
    requires p in g.used && p in g.trees
    ensures var x := UseGroup(g, p, s, group, endtime).index;
      && SigForGroup(group) in x.lists
      && PendingEntries(x, Some(s)) == Suffix(x.lists[SigForGroup(group)], s)
  {
    var x := g.index.(entry := g.index.entry[s := Group(group, endtime, false)]);
    AddSame(x, s);
  }

  // group_entry_timer_handler
  ghost function LeaveGroup(d: Decider, s: Slot): Decider
    requires GroupsOk(d.groups) && s.peer in d.groups.used && s in d.groups.used[s.peer]
  {
    UsedIsMember(d.groups, s);
    d.(groups := Leave(d.groups, s), decide := Jumped(d.decide, d.groups.index, s))
  }

  // The tables stay in order. What was pending stays pending, without the entry, if and only if the
  // iterator is registered or is not at the entry; else it is left at an entry that is in no list.
  lemma LeaveGroupKeeps(d: Decider, s: Slot)
    requires TablesOk(d) && s.peer in d.groups.used && s in d.groups.used[s.peer]
    ensures GroupsOk(d.groups) && TablesOk(LeaveGroup(d, s)) && s in d.groups.index.entry
    ensures Joined(LeaveGroup(d, s).groups) == Joined(d.groups)[s.peer := Quit(Joined(d.groups)[s.peer], d.groups.index.entry[s].group)]
    ensures DeciderOk(d) ==> (DeciderOk(LeaveGroup(d, s)) <==> !Lost(d.decide, s))
    ensures DeciderOk(d) && d.decide.Multicast? && !Lost(d.decide, s) ==>
      && LeaveGroup(d, s).decide.Multicast?
      && PendingEntries(LeaveGroup(d, s).groups.index, LeaveGroup(d, s).decide.at) == Remove(PendingEntries(d.groups.index, d.decide.at), s)
    ensures !d.decide.Multicast? ==> Pending(LeaveGroup(d, s)) == Pending(d)
  {
    hide PoolsOk, IndexOk, MacsOk, Members, Joined, Drop, Quit, PendingEntries;
    UsedIsMember(d.groups, s);
    LeaveKeeps(d.groups, s);
    G.LeaveQuits(d.groups, s);
    if DecideOk(d) && d.decide.Multicast? {
      DropPending(d.groups.index, Members(d.groups.used), d.decide.at, s);
    }
  }

  // FrameDeciderPeer_Init
  function PeerInit(d: Decider, p: nat): Decider {
    d.(peers := d.peers + [p], macs := M.AddPeer(d.macs, p), groups := G.AddPeer(d.groups, p))
  }

  lemma PeerInitKeeps(d: Decider, p: nat)
    requires TablesOk(d) && p !in d.peers
    ensures TablesOk(PeerInit(d, p)) && (DeciderOk(d) ==> DeciderOk(PeerInit(d, p)))
    ensures Lru(PeerInit(d, p).macs) == Lru(d.macs)[p := []] && Joined(PeerInit(d, p).groups) == Joined(d.groups)[p := []]
  {
    hide GroupsOk, MacsOk, Members, Lru, Joined;
    M.AddPeerKeeps(d.macs, p);
    G.AddPeerKeeps(d.groups, p);
    G.MembersAddPeer(d.groups.used, p);
  }

  // The iterator while the entries of a list are freed one after the other.
  ghost function JumpAll(x: Index, members: set<Slot>, at: Option<Slot>, list: seq<Slot>): Option<Slot>
    requires IndexOk(x, members) && NoDup(list) && forall s <- list :: s in members
    decreases |list|
  {
    if list == [] then at
    else
      DropKeeps(x, members, list[0]);
      assert list[0] in list && list == [list[0]] + list[1..];
      JumpAll(Drop(x, list[0]), members - {list[0]}, Jump(x, at, list[0]), list[1..])
  }

  // What of a list is left without some elements.
  function Outside<T(==)>(list: seq<T>, gone: set<T>): seq<T> {
    if list == [] then [] else if list[0] in gone then Outside(list[1..], gone) else [list[0]] + Outside(list[1..], gone)
  }

  lemma {:induction false} OutsideRemove<T>(list: seq<T>, x: T, gone: set<T>)
    requires NoDup(list)
    ensures Outside(Remove(list, x), gone) == Outside(list, gone + {x})
  {
    if list != [] {
      var rest := list[1..];
      assert list == [list[0]] + rest;
      OutsideRemove(rest, x, gone);
      if list[0] == x {
        assert x !in rest;
        assert Remove(rest, x) == rest;
      }
    }
  }

  lemma {:induction false} JumpAllPending(x: Index, members: set<Slot>, at: Option<Slot>, list: seq<Slot>)
    requires IndexOk(x, members) && NoDup(list) && (forall s <- list :: s in members) && (at.Some? ==> at.value in members)
    ensures PendingEntries(G.DropAll(x, members, list), JumpAll(x, members, at, list)) == Outside(PendingEntries(x, at), set s <- list)
    ensures var to := JumpAll(x, members, at, list); to.Some? ==> to.value in members - set s <- list
    decreases |list|
  {
    hide IndexOk, PendingEntries, Jump, Drop;
    if list == [] {
      OutsideNone(PendingEntries(x, at));
      assert (set s <- list) == {};
    } else {
      var s := list[0];
      assert s in list && list == [s] + list[1..];
      DropKeeps(x, members, s);
      DropPending(x, members, at, s);
      JumpAllPending(Drop(x, s), members - {s}, Jump(x, at, s), list[1..]);
      OutsideRemove(PendingEntries(x, at), s, set t <- list[1..]);
      assert (set t <- list[1..]) + {s} == set t <- list;
    }
  }

  lemma {:induction false} OutsideNone<T>(list: seq<T>)
    ensures Outside(list, {}) == list
  {
    if list != [] {
      OutsideNone(list[1..]);
    }
  }

  // Without the entries of a peer, the peers are without that peer.
  lemma {:induction false} OutsidePeers(list: seq<Slot>, gone: set<Slot>, p: nat)
    requires forall s <- list :: s in gone <==> s.peer == p
    ensures PeersOf(Outside(list, gone)) == Outside(PeersOf(list), {p})
  {
    if list != [] {
      assert list[0] in list && forall s <- list[1..] :: s in list;
      OutsidePeers(list[1..], gone, p);
      assert PeersOf(list)[1..] == PeersOf(list[1..]);
    }
  }

  // FrameDeciderPeer_Free
  ghost function PeerFree(d: Decider, p: nat): Decider
    requires TablesOk(d) && p in d.peers
  {
    G.NoDupUsed(d.groups, p);
    G.UsedAreMembers(d.groups, p);
    var decide := match d.decide
      case NoDecision => NoDecision
      case Unicast(q) => if q == p then NoDecision else d.decide
      case Flood(next) => if next == Some(p) then Flood(After(d.peers, p)) else d.decide
      case Multicast(at, registered) =>
        if registered then Multicast(JumpAll(d.groups.index, Members(d.groups.used), at, d.groups.used[p]), true)
        else if StaysWith(d.decide, p) then Freed else d.decide
      case Freed => Freed;
    Decider(M.RemovePeer(d.macs, p), G.RemovePeer(d.groups, p), Remove(d.peers, p), decide)
  }

  // The peer's entries go and the iterator stays at one of them.
  predicate StaysWith(decide: Decide, p: nat) {
    decide.Multicast? && !decide.registered && decide.at.Some? && decide.at.value.peer == p
  }

  // An iterator that is at none of the entries freed stays where it is.
  lemma {:induction false} JumpAllElsewhere(x: Index, members: set<Slot>, at: Option<Slot>, list: seq<Slot>)
    requires IndexOk(x, members) && NoDup(list) && (forall s <- list :: s in members) && (at.Some? ==> at.value !in list)
    ensures JumpAll(x, members, at, list) == at
    decreases |list|
  {
    hide IndexOk, Drop;
    if list != [] {
      assert list[0] in list && list == [list[0]] + list[1..];
      DropKeeps(x, members, list[0]);
      JumpAllElsewhere(Drop(x, list[0]), members - {list[0]}, at, list[1..]);
    }
  }

  lemma {:induction false} OutsideSelf<T>(list: seq<T>, x: T)
    requires x !in list
    ensures Outside(list, {x}) == list
  {
    if list != [] {
      assert list[0] in list && forall y <- list[1..] :: y in list;
      OutsideSelf(list[1..], x);
    }
  }

  lemma {:induction false} OutsideIsRemove<T>(list: seq<T>, x: T)
    requires NoDup(list)
    ensures Outside(list, {x}) == Remove(list, x)
  {
    if list != [] {
      var rest := list[1..];
      assert list == [list[0]] + rest;
      if list[0] == x {
        assert x !in rest;
        OutsideSelf(rest, x);
      } else {
        OutsideIsRemove(rest, x);
      }
    }
  }

  lemma FreeFlood(peers: seq<nat>, p: nat, q: nat)
    requires NoDup(peers) && p in peers && q in peers
    ensures q != p ==> q in Remove(peers, p) && Suffix(Remove(peers, p), q) == Outside(Suffix(peers, q), {p})
    ensures q == p ==> (if After(peers, p).Some? then After(peers, p).value in Remove(peers, p) && Suffix(Remove(peers, p), After(peers, p).value) == Outside(Suffix(peers, p), {p})
                        else Outside(Suffix(peers, p), {p}) == [])
  {
    SuffixNoDup(peers, q);
    OutsideIsRemove(Suffix(peers, q), p);
    SuffixSelf(peers, p);
    if q != p {
      SuffixRemove(peers, q, p);
    }
  }

  // Removing a peer leaves nothing of it in the tables. It leaves no pending destination of it, and
  // the others in order, if and only if the iterator is registered or is not at one of its entries.
  lemma PeerFreeLeavesNothing(d: Decider, p: nat)
    requires TablesOk(d) && p in d.peers
    ensures TablesOk(PeerFree(d, p)) && p !in PeerFree(d, p).peers
    ensures DeciderOk(d) ==> (DeciderOk(PeerFree(d, p)) <==> !StaysWith(d.decide, p))
    ensures DeciderOk(d) && !StaysWith(d.decide, p) ==> Pending(PeerFree(d, p)) == Outside(Pending(d), {p})
    ensures Lru(PeerFree(d, p).macs) == Lru(d.macs) - {p} && Joined(PeerFree(d, p).groups) == Joined(d.groups) - {p}
    ensures forall a <- PeerFree(d, p).macs.tree :: PeerFree(d, p).macs.tree[a].peer != p
    ensures forall s <- Members(PeerFree(d, p).groups.used) :: s.peer != p
  {
    hide GroupsOk, MacsOk, Members, Lru, Joined, PendingEntries, Suffix, After;
    M.RemovePeerKeeps(d.macs, p);
    G.RemovePeerKeeps(d.groups, p);
    RemoveFacts(d.peers, p);
    match d.decide
    case NoDecision =>
    case Unicast(q) =>
    case Flood(next) =>
      if next.Some? {
        FreeFlood(d.peers, p, next.value);
      }
    case Multicast(at, registered) =>
      if DecideOk(d) && !StaysWith(d.decide, p) {
        FreeMulticast(d.groups, p, at);
        if !registered {
          OwnEntries(d.groups, p);
          JumpAllElsewhere(d.groups.index, Members(d.groups.used), at, d.groups.used[p]);
        }
      }
    case Freed =>
  }

  lemma OwnEntries(g: Groups, p: nat)
    requires GroupsOk(g) && p in g.used
    ensures IndexOk(g.index, Members(g.used)) && forall s <- g.used[p] :: s.peer == p
  {
    assert PoolOk(g.max, p, g.free[p], g.used[p]);
  }

  // After the early return of FrameDecider_AnalyzeAndDecide in the middle of a multicast decision,
  // nothing was handed out and the iterator is lost with its entry: the next destination is then
  // the entry that ran out.
  lemma EarlyReturnLosesIterator(d: Decider, f: Frame, limit: nat, s: Slot)
    requires DeciderOk(d) && f.Valid() && d.decide.Multicast? && d.decide.at == Some(s)
    ensures var t := AnalyzeAndDecide(d, f, limit);
      && DeciderOk(t) && Pending(t) == Pending(d) && Lost(t.decide, s)
      && s.peer in t.groups.used && s in t.groups.used[s.peer]
      && !DeciderOk(LeaveGroup(t, s)) && NextDestination(LeaveGroup(t, s)).0 == Some(s.peer)
      && s !in Members(LeaveGroup(t, s).groups.used)
      && s.peer in t.peers && PeerFree(t, s.peer).decide == Freed
  {
    hide GroupsOk, MacsOk, NoDup, Members;
    var t := AnalyzeAndDecide(d, f, limit);
    MemberOfPeer(d.groups, s);
    LeaveGroupKeeps(t, s);
  }

  lemma MemberOfPeer(g: Groups, s: Slot)
    requires GroupsOk(g) && s in Members(g.used)
    ensures s.peer in g.used && s in g.used[s.peer]
  {
    var q :| q in g.used && s in g.used[q];
    assert PoolOk(g.max, q, g.free[q], g.used[q]);
  }

  lemma FreeMulticast(g: Groups, p: nat, at: Option<Slot>)
    requires GroupsOk(g) && p in g.used && (at.Some? ==> at.value in Members(g.used))
    ensures NoDup(g.used[p]) && forall s <- g.used[p] :: s in Members(g.used)
    ensures var to := JumpAll(g.index, Members(g.used), at, g.used[p]);
      && PeersOf(PendingEntries(G.RemovePeer(g, p).index, to)) == Outside(PeersOf(PendingEntries(g.index, at)), {p})
      && (to.Some? ==> to.value in Members(G.RemovePeer(g, p).used))
  {
    hide PoolsOk, IndexOk, Members;
    G.NoDupUsed(g, p);
    G.UsedAreMembers(g, p);
    JumpAllPending(g.index, Members(g.used), at, g.used[p]);
    G.MembersWithout(g, p);
    PendingAreMembers(g, at, p);
    OutsidePeers(PendingEntries(g.index, at), (set s <- g.used[p]), p);
  }

  lemma PendingAreMembers(g: Groups, at: Option<Slot>, p: nat)
    requires GroupsOk(g) && p in g.used && (at.Some? ==> at.value in Members(g.used))
    ensures forall s <- PendingEntries(g.index, at) :: s in g.used[p] <==> s.peer == p
  {
    if at.Some? {
      EntryListed(g.index, Members(g.used), at.value);
      var list := g.index.lists[SigForGroup(g.index.entry[at.value].group)];
      SuffixSelf(list, at.value);
      forall s <- PendingEntries(g.index, at) ensures s in g.used[p] <==> s.peer == p {
        assert s in Members(g.used);
        var q :| q in g.used && s in g.used[q];
        assert PoolOk(g.max, q, g.free[q], g.used[q]) && PoolOk(g.max, p, g.free[p], g.used[p]);
      }
    }
  }
}
