// The multicast index of client/FrameDecider.c: the group entries by the low 23 bits of the group
// address, one of each such list the master that stands for it in the tree.
module MulticastIndex {
  import opened Lists
  import opened MacIndex

  // A used group entry, its timer running until endtime.
  datatype Group = Group(group: nat, endtime: nat, isMaster: bool)

  // The entries, multicast_tree, and the LinkedList3 list of each signature.
  datatype Index = Index(entry: map<Slot, Group>, tree: map<nat, Slot>, lists: map<nat, seq<Slot>>)

  // compute_sig_for_group
  function SigForGroup(group: nat): nat {
    group % 0x80_0000
  }

  ghost predicate ListOk(x: Index, members: set<Slot>, sig: nat)
    requires sig in x.lists
  {
    var list := x.lists[sig];
    && list != [] && NoDup(list) && sig in x.tree && x.tree[sig] == list[0]
    && forall s <- list :: s in members && s in x.entry && SigForGroup(x.entry[s].group) == sig && (x.entry[s].isMaster <==> s == list[0])
  }

  // The member entries are exactly those in the lists, each in the list of its signature; the
  // first of each list is its master, and the tree holds exactly the masters.
  ghost predicate IndexOk(x: Index, members: set<Slot>) {
    && x.lists.Keys == x.tree.Keys
    && (forall sig <- x.lists :: ListOk(x, members, sig))
    && (forall s <- members :: s in x.entry && SigForGroup(x.entry[s].group) in x.lists && s in x.lists[SigForGroup(x.entry[s].group)])
  }

  // LinkedList3Node_InitAfter
  function InsertAfter(list: seq<Slot>, ref: Slot, s: Slot): seq<Slot> {
    if list == [] then [s] else if list[0] == ref then [ref, s] + list[1..] else [list[0]] + InsertAfter(list[1..], ref, s)
  }

  // LinkedList3Node_NextOrPrev
  function NextOrPrev(list: seq<Slot>, s: Slot): Slot
    requires |list| > 1
  {
    if list[0] == s then list[1] else Before(list, s)
  }

  // The neighbour of an element that is not the first.
  function Before(list: seq<Slot>, s: Slot): Slot
    requires |list| > 1
  {
    if list[1] == s then (if |list| > 2 then list[2] else list[0])
    else if |list| == 2 then list[0] else Before(list[1..], s)
  }

  function SetMaster(x: Index, s: Slot, isMaster: bool): Index
    requires s in x.entry
  {
    x.(entry := x.entry[s := x.entry[s].(isMaster := isMaster)])
  }

  // add_to_multicast
  function Add(x: Index, s: Slot): Index
    requires s in x.entry
  {
    var sig := SigForGroup(x.entry[s].group);
    if sig in x.tree && sig in x.lists then
      SetMaster(x, s, false).(lists := x.lists[sig := InsertAfter(x.lists[sig], x.tree[sig], s)])
    else
      SetMaster(x, s, true).(tree := x.tree[sig := s], lists := x.lists[sig := [s]])
  }

  // remove_from_multicast
  function Drop(x: Index, s: Slot): Index
    requires s in x.entry && SigForGroup(x.entry[s].group) in x.lists
    requires var list := x.lists[SigForGroup(x.entry[s].group)]; |list| > 1 ==> NextOrPrev(list, s) in x.entry
  {
    var sig := SigForGroup(x.entry[s].group);
    var list := x.lists[sig];
    var y :=
      if x.entry[s].isMaster then
        if |list| > 1 then SetMaster(x, NextOrPrev(list, s), true).(tree := x.tree[sig := NextOrPrev(list, s)])
        else x.(tree := x.tree - {sig})
      else x;
    y.(lists := if |list| > 1 then x.lists[sig := Remove(list, s)] else x.lists - {sig})
  }

  lemma AddKeeps(x: Index, members: set<Slot>, s: Slot)
    requires IndexOk(x, members) && s !in members && s in x.entry
    ensures IndexOk(Add(x, s), members + {s})
  {
    var y, sig := Add(x, s), SigForGroup(x.entry[s].group);
    if sig in x.lists {
      assert ListOk(x, members, sig);
      assert y.lists[sig] == [x.lists[sig][0], s] + x.lists[sig][1..];
      assert x.lists[sig] == [x.lists[sig][0]] + x.lists[sig][1..];
    }
    forall t <- y.lists ensures ListOk(y, members + {s}, t) {
      if t != sig {
        assert ListOk(x, members, t);
      }
    }
  }

  // The entry can be dropped: it is in the list of its signature, and has a neighbour if it is
  // not the only one.
  lemma DropPossible(x: Index, members: set<Slot>, s: Slot)
    requires IndexOk(x, members) && s in members
    ensures s in x.entry && SigForGroup(x.entry[s].group) in x.lists
    ensures var list := x.lists[SigForGroup(x.entry[s].group)];
      s in list && (x.entry[s].isMaster <==> s == list[0]) && (|list| > 1 ==> NextOrPrev(list, s) in x.entry && (s == list[0] ==> NextOrPrev(list, s) == list[1]))
  {
    var sig := SigForGroup(x.entry[s].group);
    assert ListOk(x, members, sig);
    if |x.lists[sig]| > 1 {
      NeighbourIn(x.lists[sig], s);
    }
  }

  lemma {:induction false} NeighbourIn(list: seq<Slot>, s: Slot)
    requires |list| > 1
    ensures NextOrPrev(list, s) in list && Before(list, s) in list
  {
    if list[1] != s && |list| > 2 {
      NeighbourIn(list[1..], s);
      assert forall y <- list[1..] :: y in list;
    }
  }

  lemma DropKeeps(x: Index, members: set<Slot>, s: Slot)
    requires IndexOk(x, members) && s in members
    ensures s in x.entry && SigForGroup(x.entry[s].group) in x.lists
    ensures var list := x.lists[SigForGroup(x.entry[s].group)]; |list| > 1 ==> NextOrPrev(list, s) in x.entry
    ensures IndexOk(Drop(x, s), members - {s})
  {
    DropPossible(x, members, s);
    var y, sig := Drop(x, s), SigForGroup(x.entry[s].group);
    var list := x.lists[sig];
    assert ListOk(x, members, sig);
    RemoveFacts(list, s);
    forall t <- y.lists ensures ListOk(y, members - {s}, t) {
      assert ListOk(x, members, t);
    }
  }
}
