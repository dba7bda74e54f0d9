// The group entries of client/FrameDecider.c do what the simple table of memberships does, and a
// multicast frame reaches exactly the entries of its signature.
module GroupRefinement {
  import opened Bytes
  import opened Lists
  import opened MacIndex
  import opened MulticastIndex
  import opened GroupIndex
  import opened GroupSpec

  lemma JoinedAt(g: Groups, p: nat)
    requires p in g.used
    ensures Joined(g).Keys == g.used.Keys && Joined(g)[p] == MembershipsOf(g.used[p], g.index.entry)
  {
  }

  lemma HasGroup(g: Groups, p: nat, group: nat)
    requires GroupsOk(g) && p in g.used
    ensures p in g.trees && (Has(Joined(g)[p], group) <==> group in g.trees[p])
  {
    hide PoolOk, PeerTreeOk, IndexOk;
    PeersTree(g, p);
    MembershipsHas(g.used[p], g.index.entry, group);
    if group in g.trees[p] {
      assert g.trees[p][group] in g.used[p];
    }
  }

  lemma OwnGroup(g: Groups, s: Slot)
    requires GroupsOk(g) && s.peer in g.used && s in g.used[s.peer]
    ensures s in g.index.entry
    ensures MembershipsOf(Remove(g.used[s.peer], s), g.index.entry) == Quit(Joined(g)[s.peer], g.index.entry[s].group)
  {
    hide PoolOk, PeerTreeOk, IndexOk;
    PeersTree(g, s.peer);
    MembershipsRemove(g.used[s.peer], g.index.entry, s);
  }

  lemma AloneInPeer(g: Groups, s: Slot, q: nat)
    requires GroupsOk(g) && q in g.used && q != s.peer
    ensures s !in g.used[q]
  {
    assert PoolOk(g.max, q, g.free[q], g.used[q]);
  }

  lemma RejoinJoins(g: Groups, p: nat, group: nat, endtime: nat)
    requires GroupsOk(g) && p in g.used && p in g.trees && group in g.trees[p]
    ensures g.trees[p][group] in g.index.entry
    ensures Joined(Rejoin(g, p, g.trees[p][group], endtime)) == Joined(g)[p := Join(Joined(g)[p], g.max, group, endtime)]
  {
    hide PoolOk, PeerTreeOk, IndexOk, MembershipsOf;
    PeersTree(g, p);
    var s := g.trees[p][group];
    var t := Rejoin(g, p, s, endtime);
    HasGroup(g, p, group);
    OwnGroup(g, s);
    NoDupUsed(g, p);
    RemoveFacts(g.used[p], s);
    MembershipsAppend(Remove(g.used[p], s), t.index.entry, s);
    forall q <- g.used ensures q != p ==> MembershipsOf(g.used[q], t.index.entry) == MembershipsOf(g.used[q], g.index.entry) {
      if q != p {
        AloneInPeer(g, s, q);
        PeersTree(g, q);
        MembershipsSame(g.used[q], t.index.entry, g.index.entry);
      }
    }
    MembershipsSame(Remove(g.used[p], s), t.index.entry, g.index.entry);
  }

  lemma NoDupUsed(g: Groups, p: nat)
    requires GroupsOk(g) && p in g.used
    ensures NoDup(g.used[p])
  {
    assert PoolOk(g.max, p, g.free[p], g.used[p]);
  }

  // Taking an entry costs the least recent group, if there is no free one.
  lemma TakeJoined(g: Groups, p: nat)
    requires GroupsOk(g) && p in g.used
    ensures p in g.free && p in g.trees
    ensures g.free[p] != [] || (g.used[p] != [] && g.used[p][0].peer == p && Droppable(g.index, g.used[p][0]))
    ensures var l := Joined(g)[p];
      Joined(TakeGroup(g, p)) == Joined(g)[p := if |l| >= g.max && l != [] then l[1..] else l]
  {
    hide PoolOk, PeerTreeOk, IndexOk, MembershipsOf;
    CanTake(g, p);
    if g.free[p] == [] {
      var s := g.used[p][0];
      var t := TakeGroup(g, p);
      DropSame(g.index, s);
      PeersTree(g, p);
      FirstGone(g.used[p], g.index.entry);
      forall q <- g.used ensures MembershipsOf(t.used[q], t.index.entry) == MembershipsOf(t.used[q], g.index.entry) {
        PeersTree(g, q);
        NoDupUsed(g, p);
        RemoveFacts(g.used[p], s);
        MembershipsSame(t.used[q], t.index.entry, g.index.entry);
      }
    }
  }

  lemma FirstGone(list: seq<Slot>, entry: map<Slot, Group>)
    requires list != []
    ensures MembershipsOf(Remove(list, list[0]), entry) == MembershipsOf(list, entry)[1..]
  {
  }

  lemma UseJoined(g: Groups, p: nat, s: Slot, group: nat, endtime: nat)
    requires p in g.used && p in g.trees && (forall q <- g.used :: s !in g.used[q])
    requires forall q <- g.used :: forall t <- g.used[q] :: t in g.index.entry
    ensures Joined(UseGroup(g, p, s, group, endtime)) == Joined(g)[p := Joined(g)[p] + [Membership(group, endtime)]]
  {
    hide MembershipsOf;
    var v := g.index.(entry := g.index.entry[s := Group(group, endtime, false)]);
    var t := UseGroup(g, p, s, group, endtime);
    AddSame(v, s);
    forall q <- g.used ensures MembershipsOf(g.used[q], t.index.entry) == MembershipsOf(g.used[q], g.index.entry) {
      MembershipsSame(g.used[q], t.index.entry, g.index.entry);
    }
    MembershipsAppend(g.used[p], t.index.entry, s);
  }

  lemma ButHasEntries(g: Groups, p: nat)
    requires PoolsBut(g, p)
    ensures p in g.used && p in g.trees && forall q <- g.used :: forall t <- g.used[q] :: t in g.index.entry
  {
    forall q <- g.used ensures forall t <- g.used[q] :: t in g.index.entry {
      assert PeerTreeOk(g, q);
    }
  }

  lemma AddGroupJoins(g: Groups, p: nat, group: nat, endtime: nat)
    requires GroupsOk(g) && p in g.used
    ensures Joined(AddGroup(g, p, group, endtime)) == Joined(g)[p := Join(Joined(g)[p], g.max, group, endtime)]
  {
    hide PoolOk, PeerTreeOk, IndexOk, Joined, UseGroup, TakeGroup, PoolsBut;
    PeersTree(g, p);
    HasGroup(g, p, group);
    if group in g.trees[p] {
      RejoinJoins(g, p, group, endtime);
    } else {
      TakeGroupKeeps(g, p);
      TakeJoined(g, p);
      var t := TakeGroup(g, p);
      NotMember(t, TakenGroup(g, p));
      ButHasEntries(t, p);
      UseJoined(t, p, TakenGroup(g, p), group, endtime);
      JoinedAt(g, p);
    }
  }

  // remove_group_entry ends that membership and no other.
  lemma LeaveQuits(g: Groups, s: Slot)
    requires GroupsOk(g) && s.peer in g.used && s in g.used[s.peer]
    ensures s.peer in g.trees && s.peer in g.free && Droppable(g.index, s)
    ensures Joined(Leave(g, s)) == Joined(g)[s.peer := Quit(Joined(g)[s.peer], g.index.entry[s].group)]
  {
    hide PoolOk, PeerTreeOk, IndexOk, MembershipsOf;
    UsedIsMember(g, s);
    var t := Leave(g, s);
    DropSame(g.index, s);
    OwnGroup(g, s);
    NoDupUsed(g, s.peer);
    RemoveFacts(g.used[s.peer], s);
    forall q <- g.used ensures MembershipsOf(t.used[q], t.index.entry) == MembershipsOf(t.used[q], g.index.entry) {
      PeersTree(g, q);
      MembershipsSame(t.used[q], t.index.entry, g.index.entry);
    }
  }

  function Lowered(v: Group, group: nat, limit: nat): Group {
    if v.group == group && v.endtime > limit then v.(endtime := limit) else v
  }

  // One turn of the loop of lower_group_timers_to_lmqt.
  function LowerOne(entry: map<Slot, Group>, s: Slot, group: nat, limit: nat): map<Slot, Group> {
    if s in entry then entry[s := Lowered(entry[s], group, limit)] else entry
  }

  function LowerList(entry: map<Slot, Group>, list: seq<Slot>, group: nat, limit: nat): map<Slot, Group> {
    if list == [] then entry else LowerList(LowerOne(entry, list[0], group, limit), list[1..], group, limit)
  }

  lemma {:induction false} LowerListEntries(entry: map<Slot, Group>, list: seq<Slot>, group: nat, limit: nat)
    ensures LowerList(entry, list, group, limit).Keys == entry.Keys
    ensures forall s <- entry ::
      LowerList(entry, list, group, limit)[s] == if s in list then Lowered(entry[s], group, limit) else entry[s]
  {
    if list != [] {
      assert list == [list[0]] + list[1..];
      LowerListEntries(LowerOne(entry, list[0], group, limit), list[1..], group, limit);
    }
  }

  // lower_group_timers_to_lmqt, for a limit of now plus LMQT
  function Lower(g: Groups, group: nat, limit: nat): Groups {
    var sig := SigForGroup(group);
    if sig in g.index.tree && sig in g.index.lists then
      g.(index := g.index.(entry := LowerList(g.index.entry, g.index.lists[sig], group, limit)))
    else g
  }

  // Entries of the group are all in the list of its signature.
  lemma ListHasGroup(g: Groups, p: nat, group: nat)
    requires GroupsOk(g) && p in g.used
    ensures forall s <- g.used[p] :: s in g.index.entry && (g.index.entry[s].group == group ==>
      SigForGroup(group) in g.index.tree && SigForGroup(group) in g.index.lists && s in g.index.lists[SigForGroup(group)])
  {
    PeersTree(g, p);
    forall s <- g.used[p] ensures s in Members(g.used) {}
  }

  lemma LowerKeeps(g: Groups, group: nat, limit: nat)
    requires GroupsOk(g)
    ensures GroupsOk(Lower(g, group, limit))
  {
    var sig, t := SigForGroup(group), Lower(g, group, limit);
    if sig in g.index.tree {
      LowerListEntries(g.index.entry, g.index.lists[sig], group, limit);
      PoolsSame(g, t.index);
      forall u <- t.index.lists ensures ListOk(t.index, Members(g.used), u) {
        assert ListOk(g.index, Members(g.used), u);
      }
    }
  }

  lemma {:induction false} LowerMemberships(list: seq<Slot>, a: map<Slot, Group>, b: map<Slot, Group>, group: nat, limit: nat)
    requires forall s <- list :: s in a && s in b && b[s] == Lowered(a[s], group, limit)
    ensures MembershipsOf(list, b) == LowerAll(MembershipsOf(list, a), group, limit)
  {
    if list != [] {
      assert list[0] in list && forall s <- list[1..] :: s in list;
      LowerMemberships(list[1..], a, b, group, limit);
    }
  }

  // A group-specific query lowers every peer's time for the group, and no other.
  lemma LowerLowersAll(g: Groups, p: nat, group: nat, limit: nat)
    requires GroupsOk(g) && p in g.used
    ensures p in Lower(g, group, limit).used
    ensures Joined(Lower(g, group, limit))[p] == LowerAll(Joined(g)[p], group, limit)
  {
    hide PoolOk, PeerTreeOk, IndexOk, MembershipsOf, LowerList, LowerAll;
    ListHasGroup(g, p, group);
    var sig, t := SigForGroup(group), Lower(g, group, limit);
    if sig in g.index.tree && sig in g.index.lists {
      LowerListEntries(g.index.entry, g.index.lists[sig], group, limit);
    }
    LowerMemberships(g.used[p], g.index.entry, t.index.entry, group, limit);
  }

  // The loop of FrameDeciderPeer_Free over the used group entries.
  ghost function DropAll(x: Index, members: set<Slot>, list: seq<Slot>): (r: Index)
    requires IndexOk(x, members) && NoDup(list) && forall s <- list :: s in members
    ensures IndexOk(r, members - set s <- list)
    ensures r.entry.Keys == x.entry.Keys && forall s <- x.entry :: r.entry[s].group == x.entry[s].group && r.entry[s].endtime == x.entry[s].endtime
    decreases |list|
  {
    hide ListOk, IndexOk;
    if list == [] then
      assert members - (set s <- list) == members;
      x
    else
      DropKeeps(x, members, list[0]);
      DropPossible(x, members, list[0]);
      DropSame(x, list[0]);
      assert list[0] in list && list == [list[0]] + list[1..];
      assert (members - {list[0]}) - (set s <- list[1..]) == members - set s <- list;
      DropAll(Drop(x, list[0]), members - {list[0]}, list[1..])
  }

  // FrameDeciderPeer_Init
  function AddPeer(g: Groups, p: nat): Groups {
    var tree: map<nat, Slot> := map[];
    g.(free := g.free[p := AllSlots(p, g.max)], used := g.used[p := []], trees := g.trees[p := tree])
  }

  lemma MembersAddPeer(used: map<nat, seq<Slot>>, p: nat)
    requires p !in used
    ensures Members(used[p := []]) == Members(used)
  {
    var u := used[p := []];
    forall s <- Members(used) ensures s in Members(u) {
      var q :| q in used && s in used[q];
      assert q in u && s in u[q];
    }
  }

  lemma AddPeerPools(g: Groups, p: nat)
    requires PoolsOk(g) && p !in g.used
    ensures PoolsOk(AddPeer(g, p))
  {
    var t := AddPeer(g, p);
    forall q <- t.used ensures PoolOk(t.max, q, t.free[q], t.used[q]) && PeerTreeOk(t, q) {
      if q != p {
        assert PoolOk(g.max, q, g.free[q], g.used[q]) && PeerTreeOk(g, q);
      }
    }
  }

  lemma AddPeerKeeps(g: Groups, p: nat)
    requires GroupsOk(g) && p !in g.used
    ensures GroupsOk(AddPeer(g, p)) && Joined(AddPeer(g, p)) == Joined(g)[p := []]
  {
    hide PoolOk, PeerTreeOk, ListOk, Members;
    AddPeerPools(g, p);
    MembersAddPeer(g.used, p);
  }

  // FrameDeciderPeer_Free
  ghost function RemovePeer(g: Groups, p: nat): Groups
    requires GroupsOk(g) && p in g.used
  {
    NoDupUsed(g, p);
    UsedAreMembers(g, p);
    g.(index := DropAll(g.index, Members(g.used), g.used[p]), free := g.free - {p}, used := g.used - {p}, trees := g.trees - {p})
  }

  lemma UsedAreMembers(g: Groups, p: nat)
    requires p in g.used
    ensures forall s <- g.used[p] :: s in Members(g.used)
  {
  }

  lemma MembersWithout(g: Groups, p: nat)
    requires PoolsOk(g) && p in g.used
    ensures Members(g.used - {p}) == Members(g.used) - set s <- g.used[p]
  {
    var u := g.used - {p};
    forall s | s in Members(g.used) && s !in g.used[p] ensures s in Members(u) {
      var q :| q in g.used && s in g.used[q];
      assert q in u && s in u[q];
    }
    forall s <- Members(u) ensures s in Members(g.used) && s !in g.used[p] {
      var q :| q in u && s in u[q];
      assert PoolOk(g.max, q, g.free[q], g.used[q]) && PoolOk(g.max, p, g.free[p], g.used[p]);
    }
  }

  lemma RemovePeerKeeps(g: Groups, p: nat)
    requires GroupsOk(g) && p in g.used
    ensures GroupsOk(RemovePeer(g, p)) && Joined(RemovePeer(g, p)) == Joined(g) - {p}
    ensures forall s <- Members(RemovePeer(g, p).used) :: s.peer != p
  {
    hide ListOk, MembershipsOf, DropAll, IndexOk;
    NoDupUsed(g, p);
    UsedAreMembers(g, p);
    MembersWithout(g, p);
    var t := RemovePeer(g, p);
    forall q <- t.used ensures PoolOk(t.max, q, t.free[q], t.used[q]) && PeerTreeOk(t, q)
      && MembershipsOf(t.used[q], t.index.entry) == MembershipsOf(g.used[q], g.index.entry)
    {
      assert PoolOk(g.max, q, g.free[q], g.used[q]) && PeerTreeOk(g, q);
      MembershipsSame(g.used[q], t.index.entry, g.index.entry);
    }
    forall s <- Members(t.used) ensures s.peer != p {
      var q :| q in t.used && s in t.used[q];
      assert PoolOk(g.max, q, g.free[q], g.used[q]);
    }
  }

  // compute_sig_for_mac: the low 23 bits of the last four bytes of the address
  function SigForMac(mac: Mac): nat
    requires |mac| == 6
  {
    (mac[2] as nat * 0x100_0000 + mac[3] as nat * 0x1_0000 + mac[4] as nat * 0x100 + mac[5] as nat) % 0x80_0000
  }

  // The Ethernet address of a host group (section 6.4 of RFC 1112): 01-00-5E and the low 23 bits
  // of the group address.
  function MacForGroup(group: nat): (mac: Mac)
    ensures |mac| == 6
  {
    [0x01, 0x00, 0x5E, (group / 0x1_0000 % 0x80) as byte, (group / 0x100 % 0x100) as byte, (group % 0x100) as byte]
  }

  // The low 23 bits of a number, from its bytes.
  lemma LowBits(n: nat, hi: nat)
    ensures n % 0x80_0000 == n / 0x1_0000 % 0x80 * 0x1_0000 + n / 0x100 % 0x100 * 0x100 + n % 0x100
    ensures (hi * 0x80_0000 + n % 0x80_0000) % 0x80_0000 == n % 0x80_0000
  {
    var a, b := n / 0x1_0000, n % 0x1_0000;
    assert n == a * 0x1_0000 + b && a == a / 0x80 * 0x80 + a % 0x80;
    assert b == n / 0x100 % 0x100 * 0x100 + n % 0x100;
    var q, r := a / 0x80, a % 0x80 * 0x1_0000 + b;
    assert n == q * 0x80_0000 + r && 0 <= r < 0x80_0000;
  }

  lemma SigOfMapping(group: nat)
    ensures SigForMac(MacForGroup(group)) == SigForGroup(group)
  {
    LowBits(group, 0xBC);
    var mac := MacForGroup(group);
    var low := mac[3] as nat * 0x1_0000 + mac[4] as nat * 0x100 + mac[5] as nat;
    assert low == group % 0x80_0000;
    assert mac[2] as nat * 0x100_0000 == 0xBC * 0x80_0000;
  }

  // The peers a multicast frame with this signature goes to, one per entry.
  function Targets(x: Index, sig: nat): (r: seq<nat>)
    ensures |r| == if sig in x.lists then |x.lists[sig]| else 0
    ensures sig in x.lists ==> forall i :: 0 <= i < |r| ==> r[i] == x.lists[sig][i].peer
  {
    if sig in x.lists then seq(|x.lists[sig]|, i requires 0 <= i < |x.lists[sig]| => x.lists[sig][i].peer) else []
  }

  // One target for each used entry of the signature, and none else.
  lemma TargetsAreEntries(g: Groups, sig: nat)
    requires GroupsOk(g)
    ensures sig in g.index.lists ==> NoDup(g.index.lists[sig])
    ensures forall s: Slot :: sig in g.index.lists && s in g.index.lists[sig] <==>
      s.peer in g.used && s in g.used[s.peer] && s in g.index.entry && SigForGroup(g.index.entry[s].group) == sig
  {
    forall s: Slot ensures sig in g.index.lists && s in g.index.lists[sig] <==>
      s.peer in g.used && s in g.used[s.peer] && s in g.index.entry && SigForGroup(g.index.entry[s].group) == sig
    {
      if sig in g.index.lists && s in g.index.lists[sig] {
        assert ListOk(g.index, Members(g.used), sig);
        var q :| q in g.used && s in g.used[q];
        assert PoolOk(g.max, q, g.free[q], g.used[q]);
      } else if s.peer in g.used && s in g.used[s.peer] {
        assert s in Members(g.used);
      }
    }
    if sig in g.index.lists {
      assert ListOk(g.index, Members(g.used), sig);
    }
  }

  // A frame addressed to a group reaches every peer that holds the group.
  lemma GroupIsReached(g: Groups, p: nat, group: nat)
    requires GroupsOk(g) && p in g.used && Has(Joined(g)[p], group)
    ensures p in Targets(g.index, SigForMac(MacForGroup(group)))
  {
    SigOfMapping(group);
    HasGroup(g, p, group);
    PeersTree(g, p);
    var s := g.trees[p][group];
    TargetsAreEntries(g, SigForGroup(group));
    var list := g.index.lists[SigForGroup(group)];
    var i :| 0 <= i < |list| && list[i] == s;
    assert Targets(g.index, SigForGroup(group))[i] == p;
  }
}
