// Group membership as the simple table the entries of client/FrameDecider.c stand for: per peer
// the groups it joined, the one joined longest ago first, each with the time it runs out.
module GroupSpec {
  import opened Lists
  import opened MacIndex
  import opened MulticastIndex
  import opened GroupIndex

  datatype Membership = Membership(group: nat, endtime: nat)

  function MembershipsOf(list: seq<Slot>, entry: map<Slot, Group>): (r: seq<Membership>)
    ensures |r| == |list|
  {
    if list == [] then []
    else
      [if list[0] in entry then Membership(entry[list[0]].group, entry[list[0]].endtime) else Membership(0, 0)]
      + MembershipsOf(list[1..], entry)
  }

  ghost function Joined(g: Groups): map<nat, seq<Membership>> {
    map p | p in g.used :: MembershipsOf(g.used[p], g.index.entry)
  }

  predicate Has(l: seq<Membership>, group: nat) {
    exists i :: 0 <= i < |l| && l[i].group == group
  }

  // Without the (first) membership of the group.
  function Quit(l: seq<Membership>, group: nat): seq<Membership> {
    if l == [] then [] else if l[0].group == group then l[1..] else [l[0]] + Quit(l[1..], group)
  }

  // Joining makes a group the most recent one, in place of the least recent if there is no room.
  function Join(l: seq<Membership>, max: nat, group: nat, endtime: nat): seq<Membership> {
    (if Has(l, group) then Quit(l, group) else if |l| >= max && l != [] then l[1..] else l) + [Membership(group, endtime)]
  }

  // A group-specific query: memberships of the group run out at the limit at the latest.
  function LowerAll(l: seq<Membership>, group: nat, limit: nat): (r: seq<Membership>)
    ensures |r| == |l|
  {
    if l == [] then []
    else [if l[0].group == group && l[0].endtime > limit then l[0].(endtime := limit) else l[0]] + LowerAll(l[1..], group, limit)
  }

  // No group twice.
  predicate Distinct(l: seq<Membership>) {
    forall i, j :: 0 <= i < j < |l| ==> l[i].group != l[j].group
  }

  // Quitting ends the membership of the group and no other, and keeps the order.
  lemma {:induction false} QuitFacts(l: seq<Membership>, group: nat)
    requires Distinct(l)
    ensures Distinct(Quit(l, group)) && |Quit(l, group)| == |l| - if Has(l, group) then 1 else 0
    ensures forall m: Membership :: m in Quit(l, group) <==> m in l && m.group != group
  {
    if l != [] {
      assert l == [l[0]] + l[1..];
      QuitFacts(l[1..], group);
      if l[0].group == group {
        assert forall m <- l[1..] :: m.group != group;
      } else {
        HasRest(l, group);
        var r := Quit(l[1..], group);
        assert Quit(l, group) == [l[0]] + r;
        forall j | 0 <= j < |r| ensures r[j].group != l[0].group {
          assert r[j] in l[1..];
        }
      }
    }
  }

  lemma HasRest(l: seq<Membership>, group: nat)
    requires l != [] && l[0].group != group
    ensures Has(l, group) <==> Has(l[1..], group)
  {
    if Has(l, group) {
      var i :| 0 <= i < |l| && l[i].group == group;
      assert l[1..][i - 1].group == group;
    }
    if Has(l[1..], group) {
      var i :| 0 <= i < |l[1..]| && l[1..][i].group == group;
      assert l[i + 1].group == group;
    }
  }

  // Joining makes the group the most recent membership with its time; of the others none is lost
  // but the least recent one, and that only for a new group when there is no room.
  lemma JoinFacts(l: seq<Membership>, max: nat, group: nat, endtime: nat)
    requires Distinct(l) && |l| <= max && max > 0
    ensures var r := Join(l, max, group, endtime);
      && Distinct(r) && 0 < |r| <= max && r[|r| - 1] == Membership(group, endtime)
      && forall m: Membership :: m.group != group ==>
           (m in r <==> m in l && !(|l| == max && !Has(l, group) && m == l[0]))
  {
    if Has(l, group) {
      QuitFacts(l, group);
    } else {
      assert forall m <- l :: m.group != group;
      assert l != [] ==> l == [l[0]] + l[1..];
    }
  }

  // Lowering keeps every membership and its place; those of the group run out at the limit at the
  // latest.
  lemma {:induction false} LowerFacts(l: seq<Membership>, group: nat, limit: nat, i: nat)
    requires i < |l|
    ensures LowerAll(l, group, limit)[i].group == l[i].group
    ensures LowerAll(l, group, limit)[i].endtime == if l[i].group == group && limit < l[i].endtime then limit else l[i].endtime
    decreases l
  {
    if i > 0 {
      LowerFacts(l[1..], group, limit, i - 1);
    }
  }

  lemma {:induction false} MembershipsAppend(list: seq<Slot>, entry: map<Slot, Group>, s: Slot)
    requires s in entry
    ensures MembershipsOf(list + [s], entry) == MembershipsOf(list, entry) + [Membership(entry[s].group, entry[s].endtime)]
  {
    if list == [] {
      assert list + [s] == [s] && MembershipsOf([], entry) == [];
    } else {
      assert (list + [s])[1..] == list[1..] + [s];
      MembershipsAppend(list[1..], entry, s);
    }
  }

  // Only the groups and times of the listed entries matter.
  lemma {:induction false} MembershipsSame(list: seq<Slot>, a: map<Slot, Group>, b: map<Slot, Group>)
    requires forall s <- list :: s in a && s in b && a[s].group == b[s].group && a[s].endtime == b[s].endtime
    ensures MembershipsOf(list, a) == MembershipsOf(list, b)
  {
    if list != [] {
      assert list[0] in list && forall s <- list[1..] :: s in list;
      MembershipsSame(list[1..], a, b);
    }
  }

  lemma {:induction false} MembershipsRemove(list: seq<Slot>, entry: map<Slot, Group>, s: Slot)
    requires s in list && s in entry && forall t <- list :: t in entry && (entry[t].group == entry[s].group ==> t == s)
    ensures MembershipsOf(Remove(list, s), entry) == Quit(MembershipsOf(list, entry), entry[s].group)
    ensures Has(MembershipsOf(list, entry), entry[s].group)
  {
    assert list[0] in list && forall t <- list[1..] :: t in list;
    if list[0] != s {
      MembershipsRemove(list[1..], entry, s);
      var i :| 0 <= i < |list[1..]| && MembershipsOf(list[1..], entry)[i].group == entry[s].group;
      assert MembershipsOf(list, entry)[i + 1].group == entry[s].group;
    } else {
      assert MembershipsOf(list, entry)[0].group == entry[s].group;
    }
  }

  lemma {:induction false} MembershipsHas(list: seq<Slot>, entry: map<Slot, Group>, group: nat)
    requires forall t <- list :: t in entry
    ensures Has(MembershipsOf(list, entry), group) <==> exists t :: t in list && entry[t].group == group
  {
    if list != [] {
      assert list == [list[0]] + list[1..];
      MembershipsHas(list[1..], entry, group);
      var l := MembershipsOf(list, entry);
      if Has(l, group) {
        var i :| 0 <= i < |l| && l[i].group == group;
        assert i > 0 ==> MembershipsOf(list[1..], entry)[i - 1].group == group;
      }
      if exists t :: t in list && entry[t].group == group {
        var t :| t in list && entry[t].group == group;
        if t == list[0] {
          assert l[0].group == group;
        } else {
          var i :| 0 <= i < |l[1..]| && l[1..][i].group == group;
          assert l[i + 1].group == group;
        }
      }
    }
  }

  // add_group_to_peer
  ghost function AddGroup(g: Groups, p: nat, group: nat, endtime: nat): (r: Groups)
    requires GroupsOk(g) && p in g.used
    ensures GroupsOk(r) && r.used.Keys == g.used.Keys && r.max == g.max
  {
    hide PoolOk, PeerTreeOk, IndexOk;
    PeersTree(g, p);
    if group in g.trees[p] then
      RejoinKeeps(g, p, g.trees[p][group], endtime);
      Rejoin(g, p, g.trees[p][group], endtime)
    else
      TakeGroupKeeps(g, p);
      UseGroupKeeps(TakeGroup(g, p), p, TakenGroup(g, p), group, endtime);
      UseGroup(TakeGroup(g, p), p, TakenGroup(g, p), group, endtime)
  }

  // The entry moves to the end of the used list, with a new time.
  function Rejoin(g: Groups, p: nat, s: Slot, endtime: nat): Groups
    requires p in g.used && s in g.index.entry
  {
    g.(used := g.used[p := Remove(g.used[p], s) + [s]],
       index := g.index.(entry := g.index.entry[s := g.index.entry[s].(endtime := endtime)]))
  }

  lemma PeersTree(g: Groups, p: nat)
    requires GroupsOk(g) && p in g.used
    ensures p in g.trees && p in g.free
    ensures forall a <- g.trees[p] :: g.trees[p][a] in g.used[p] && g.trees[p][a] in g.index.entry && g.index.entry[g.trees[p][a]].group == a && g.trees[p][a].peer == p
    ensures forall s <- g.used[p] :: s.peer == p && s in g.index.entry && g.index.entry[s].group in g.trees[p] && g.trees[p][g.index.entry[s].group] == s
  {
    assert PeerTreeOk(g, p) && PoolOk(g.max, p, g.free[p], g.used[p]);
  }

  lemma RejoinMembers(g: Groups, p: nat, s: Slot)
    requires PoolsOk(g) && p in g.used && s in g.used[p]
    ensures Members(g.used[p := Remove(g.used[p], s) + [s]]) == Members(g.used)
  {
    assert PoolOk(g.max, p, g.free[p], g.used[p]);
    MembersRemove(g, s);
    var u := g.used[p := Remove(g.used[p], s)];
    MembersAppend(u, p, s);
    assert u[p := u[p] + [s]] == g.used[p := Remove(g.used[p], s) + [s]];
    assert s in Members(g.used);
  }

  // Times do not matter to the index.
  lemma IndexTimes(x: Index, members: set<Slot>, s: Slot, endtime: nat)
    requires IndexOk(x, members) && s in x.entry
    ensures IndexOk(x.(entry := x.entry[s := x.entry[s].(endtime := endtime)]), members)
  {
    var y := x.(entry := x.entry[s := x.entry[s].(endtime := endtime)]);
    forall t <- y.lists ensures ListOk(y, members, t) {
      assert ListOk(x, members, t);
    }
  }

  lemma RejoinPools(g: Groups, p: nat, s: Slot, endtime: nat)
    requires PoolsOk(g) && p in g.used && s in g.used[p] && s in g.index.entry
    ensures PoolsOk(Rejoin(g, p, s, endtime))
  {
    var t := Rejoin(g, p, s, endtime);
    assert PoolOk(g.max, p, g.free[p], g.used[p]);
    RemoveFacts(g.used[p], s);
    forall q <- t.used ensures PoolOk(t.max, q, t.free[q], t.used[q]) && PeerTreeOk(t, q) {
      assert PoolOk(g.max, q, g.free[q], g.used[q]) && PeerTreeOk(g, q);
    }
  }

  lemma RejoinKeeps(g: Groups, p: nat, s: Slot, endtime: nat)
    requires GroupsOk(g) && p in g.used && s in g.used[p]
    ensures s in g.index.entry && GroupsOk(Rejoin(g, p, s, endtime))
  {
    hide PoolOk, PeerTreeOk, ListOk, Members;
    PeersTree(g, p);
    RejoinPools(g, p, s, endtime);
    RejoinMembers(g, p, s);
    IndexTimes(g.index, Members(g.used), s, endtime);
  }
}
