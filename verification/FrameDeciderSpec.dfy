// client/FrameDecider.c: deciding which peers a frame from the local device goes to, and handing
// them out one at a time.
module FrameDeciderSpec {
  import opened Wrappers
  import opened Lists
  import opened MacIndex
  import opened MulticastIndex
  import opened GroupIndex
  import GroupSpec
  import G = GroupRefinement

  // What the headers of a frame say. `query` is the group of a group-specific IGMP query.
  datatype Content = Igmp(query: Option<nat>) | NotIgmp
  datatype Frame = Short | Ethernet(src: Mac, dest: Mac, content: Content) {
    ghost predicate Valid() {
      Ethernet? ==> |src| == 6 && |dest| == 6
    }
  }

  // decide_state with what it refers to: the peer, the current flood peer, the iterator. A registered
  // iterator moves on when its entry goes. Freed: the iterator's entry went with its peer's memory.
  datatype Decide = NoDecision | Unicast(peer: nat) | Flood(next: Option<nat>) | Multicast(at: Option<Slot>, registered: bool) | Freed

  datatype Decider = Decider(macs: Macs, groups: Groups, peers: seq<nat>, decide: Decide)

  // What the decision refers to is there.
  ghost predicate DecideOk(d: Decider) {
    match d.decide
    case NoDecision => true
    case Unicast(p) => p in d.peers
    case Flood(next) => next.Some? ==> next.value in d.peers
    case Multicast(at, _) => at.Some? ==> at.value in Members(d.groups.used)
    case Freed => false
  }

  // The same, but for an iterator that is not registered.
  ghost predicate DecideSafe(d: Decider) {
    d.decide.Freed? || (d.decide.Multicast? && !d.decide.registered) || DecideOk(d)
  }

  ghost predicate TablesOk(d: Decider) {
    && MacsOk(d.macs) && GroupsOk(d.groups) && NoDup(d.peers) && DecideSafe(d)
    && (forall p <- d.peers :: p in d.macs.used && p in d.groups.used)
    && (forall p <- d.macs.used :: p in d.peers) && (forall p <- d.groups.used :: p in d.peers)
  }

  ghost predicate DeciderOk(d: Decider) {
    TablesOk(d) && DecideOk(d)
  }

  // The list from an element on.
  function Suffix<T(==)>(list: seq<T>, x: T): (r: seq<T>)
    ensures x in list ==> r != [] && r[0] == x
    ensures x !in list ==> r == []
  {
    if list == [] then [] else if list[0] == x then list else Suffix(list[1..], x)
  }

  function PeersOf(list: seq<Slot>): (r: seq<nat>)
    ensures |r| == |list| && forall i :: 0 <= i < |r| ==> r[i] == list[i].peer
  {
    seq(|list|, i requires 0 <= i < |list| => list[i].peer)
  }

  // The entries the iterator still has before it.
  ghost function PendingEntries(x: Index, at: Option<Slot>): seq<Slot> {
    if at.Some? && at.value in x.entry && SigForGroup(x.entry[at.value].group) in x.lists
    then Suffix(x.lists[SigForGroup(x.entry[at.value].group)], at.value) else []
  }

  // The destinations still to be handed out.
  ghost function Pending(d: Decider): seq<nat> {
    match d.decide
    case NoDecision => []
    case Unicast(p) => [p]
    case Flood(next) => if next.Some? then Suffix(d.peers, next.value) else []
    case Multicast(at, _) => PeersOf(PendingEntries(d.groups.index, at))
    case Freed => []
  }

  const BROADCAST: Mac := [0xFF, 0xFF, 0xFF, 0xFF, 0xFF, 0xFF]

  // Where a frame should go: IGMP, broadcast and unknown addresses to every peer, multicast to the
  // entries of the signature, a known address to its owner.
  ghost function Destinations(d: Decider, f: Frame): seq<nat>
    requires f.Valid()
  {
    if f.Short? then []
    else if f.content.Igmp? || f.dest == BROADCAST then d.peers
    else if f.dest[..3] == [0x01, 0x00, 0x5E] then G.Targets(d.groups.index, G.SigForMac(f.dest))
    else if f.dest in d.macs.tree then [d.macs.tree[f.dest].peer]
    else d.peers
  }

  function First(peers: seq<nat>): Option<nat> {
    if peers == [] then None else Some(peers[0])
  }

  // FrameDecider_AnalyzeAndDecide; limit is now plus the last member query time. An unfinished
  // multicast decision makes it return early, with the iterator no longer registered.
  function AnalyzeAndDecide(d: Decider, f: Frame, limit: nat): Decider
    requires f.Valid() && !d.decide.Freed?
  {
    if d.decide.Multicast? then d.(decide := Multicast(d.decide.at, false))
    else if f.Short? then d.(decide := NoDecision)
    else
      var groups := if f.content.Igmp? && f.content.query.Some? then G.Lower(d.groups, f.content.query.value, limit) else d.groups;
      d.(groups := groups, decide := Decided(d, f))
  }

  function Decided(d: Decider, f: Frame): Decide
    requires f.Ethernet? && f.Valid()
  {
    if f.content.Igmp? || f.dest == BROADCAST then Flood(First(d.peers))
    else if f.dest[..3] == [0x01, 0x00, 0x5E] then
      var sig := G.SigForMac(f.dest);
      if sig in d.groups.index.tree then Multicast(Some(d.groups.index.tree[sig]), true) else NoDecision
    else if f.dest in d.macs.tree then Unicast(d.macs.tree[f.dest].peer)
    else Flood(First(d.peers))
  }

  // LinkedList1Node_Next and LinkedList3Node_Next
  function After<T(==)>(list: seq<T>, x: T): Option<T> {
    var s := Suffix(list, x);
    if |s| > 1 then Some(s[1]) else None
  }

  function NextEntry(x: Index, s: Slot): Option<Slot> {
    if s in x.entry && SigForGroup(x.entry[s].group) in x.lists then After(x.lists[SigForGroup(x.entry[s].group)], s) else None
  }

  // FrameDecider_NextDestination
  function NextDestination(d: Decider): (Option<nat>, Decider)
    requires !d.decide.Freed?
  {
    match d.decide
    case NoDecision => (None, d)
    case Unicast(p) => (Some(p), d.(decide := NoDecision))
    case Flood(next) =>
      if next.None? then (None, d.(decide := NoDecision))
      else (next, d.(decide := Flood(After(d.peers, next.value))))
    case Multicast(at, _) =>
      if at.None? then (None, d.(decide := NoDecision))
      else (Some(at.value.peer), d.(decide := Multicast(NextEntry(d.groups.index, at.value), true)))
  }

  lemma {:induction false} SuffixStep<T>(list: seq<T>, x: T)
    requires NoDup(list) && x in list
    ensures var s := Suffix(list, x); |s| > 1 ==> s[1] in list && Suffix(list, s[1]) == s[1..]
  {
    if list[0] == x {
      if |list| > 1 {
        assert list[1] != list[0] && list[1..][0] == list[1];
      }
    } else {
      var rest := list[1..];
      assert list == [list[0]] + rest;
      SuffixStep(rest, x);
      var s := Suffix(list, x);
      if |s| > 1 {
        assert s[1] in rest && s[1] != list[0];
      }
    }
  }

  // The list the iterator runs over: its current entry is in it.
  lemma EntryListed(x: Index, members: set<Slot>, s: Slot)
    requires IndexOk(x, members) && s in members
    ensures s in x.entry && SigForGroup(x.entry[s].group) in x.lists
    ensures var list := x.lists[SigForGroup(x.entry[s].group)];
      NoDup(list) && s in list && forall t <- list :: t in members && t in x.entry && SigForGroup(x.entry[t].group) == SigForGroup(x.entry[s].group)
  {
    assert ListOk(x, members, SigForGroup(x.entry[s].group));
  }

  // Handing out: the next pending destination, or none when there is none.
  lemma NextIsPending(d: Decider)
    requires DeciderOk(d)
    ensures !d.decide.Freed?
    ensures var (dest, t) := NextDestination(d);
      && DeciderOk(t) && t.(decide := d.decide) == d
      && (if Pending(d) == [] then dest == None && t.decide == NoDecision
          else dest == Some(Pending(d)[0]) && Pending(t) == Pending(d)[1..])
  {
    hide PoolsOk, IndexOk, MacsOk, Members;
    match d.decide
    case NoDecision =>
    case Unicast(p) =>
    case Flood(next) =>
      if next.Some? {
        SuffixStep(d.peers, next.value);
      }
    case Multicast(at, _) =>
      if at.Some? {
        EntryListed(d.groups.index, Members(d.groups.used), at.value);
        SuffixStep(d.groups.index.lists[SigForGroup(d.groups.index.entry[at.value].group)], at.value);
      }
  }

  lemma DecidedRight(d: Decider, f: Frame)
    requires DeciderOk(d) && f.Ethernet? && f.Valid()
    ensures DeciderOk(d.(decide := Decided(d, f)))
    ensures Pending(d.(decide := Decided(d, f))) == Destinations(d, f)
  {
    var sig := G.SigForMac(f.dest);
    if f.content.Igmp? || f.dest == BROADCAST {
    } else if f.dest[..3] == [0x01, 0x00, 0x5E] {
      MasterHeads(d.groups, sig);
    } else if f.dest in d.macs.tree {
      TreeUsed(d.macs, f.dest);
    }
  }

  // The master of a signature is the first of its list.
  lemma MasterHeads(g: Groups, sig: nat)
    requires GroupsOk(g)
    ensures sig in g.index.tree <==> sig in g.index.lists
    ensures sig in g.index.tree ==> g.index.lists[sig] != [] && g.index.tree[sig] == g.index.lists[sig][0]
    ensures sig in g.index.tree ==> g.index.tree[sig] in Members(g.used) && PendingEntries(g.index, Some(g.index.tree[sig])) == g.index.lists[sig]
  {
    if sig in g.index.lists {
      assert ListOk(g.index, Members(g.used), sig);
      assert g.index.lists[sig][0] in g.index.lists[sig];
    }
  }

  // The decision is right whenever the last multicast decision was finished.
  lemma DecisionIsRight(d: Decider, f: Frame, limit: nat)
    requires DeciderOk(d) && f.Valid() && !d.decide.Multicast?
    ensures DeciderOk(AnalyzeAndDecide(d, f, limit))
    ensures Pending(AnalyzeAndDecide(d, f, limit)) == Destinations(d, f)
  {
    if f.Ethernet? {
      DecidedRight(d, f);
      if f.content.Igmp? && f.content.query.Some? {
        G.LowerKeeps(d.groups, f.content.query.value, limit);
      }
    }
  }

  // Deciding on a group-specific query lowers the times of every peer's membership of that group
  // to the limit; no other frame changes a membership, and neither does the early return.
  lemma DecisionLowersTimes(d: Decider, f: Frame, limit: nat, p: nat)
    requires DeciderOk(d) && f.Valid() && p in d.peers
    ensures var t := AnalyzeAndDecide(d, f, limit);
      && p in d.groups.used && p in t.groups.used && t.macs == d.macs && t.peers == d.peers
      && GroupSpec.Joined(t.groups)[p] ==
         if f.Ethernet? && f.content.Igmp? && f.content.query.Some? && !d.decide.Multicast?
         then GroupSpec.LowerAll(GroupSpec.Joined(d.groups)[p], f.content.query.value, limit)
         else GroupSpec.Joined(d.groups)[p]
  {
    hide GroupsOk, MacsOk, G.Lower, GroupSpec.Joined, GroupSpec.LowerAll;
    if f.Ethernet? && f.content.Igmp? && f.content.query.Some? {
      G.LowerLowersAll(d.groups, p, f.content.query.value, limit);
    }
  }

  // Exactly when it is right for every frame: not when a multicast decision is unfinished, unless
  // there are no peers at all.
  lemma DecisionIsRightExactly(d: Decider, limit: nat)
    requires DeciderOk(d)
    ensures (forall f: Frame :: f.Valid() ==> Pending(AnalyzeAndDecide(d, f, limit)) == Destinations(d, f))
      <==> !d.decide.Multicast? || d.peers == []
  {
    if !d.decide.Multicast? {
      forall f: Frame | f.Valid() ensures Pending(AnalyzeAndDecide(d, f, limit)) == Destinations(d, f) {
        DecisionIsRight(d, f, limit);
      }
    } else if d.peers == [] {
      NothingWithoutPeers(d);
      forall f: Frame | f.Valid() ensures Destinations(d, f) == [] {
        if f.Ethernet? && f.dest in d.macs.tree {
          TreeUsed(d.macs, f.dest);
        }
        if f.Ethernet? && G.SigForMac(f.dest) in d.groups.index.lists {
          MasterHeads(d.groups, G.SigForMac(f.dest));
        }
      }
    } else {
      var broadcast := Ethernet(BROADCAST, BROADCAST, NotIgmp);
      assert Destinations(d, broadcast) == d.peers && broadcast.Valid();
      assert Destinations(d, Short) == [] && Short.Valid();
      assert Pending(AnalyzeAndDecide(d, broadcast, limit)) == Pending(AnalyzeAndDecide(d, Short, limit));
    }
  }

  lemma NothingWithoutPeers(d: Decider)
    requires DeciderOk(d) && d.peers == []
    ensures Members(d.groups.used) == {} && (d.decide.Multicast? ==> Pending(d) == [])
  {
    assert d.groups.used.Keys == {};
  }

  // Everything handed out until there is nothing left.
  ghost function HandOut(d: Decider): seq<nat>
    requires DeciderOk(d)
    decreases |Pending(d)|
  {
    NextIsPending(d);
    var (dest, t) := NextDestination(d);
    if dest.None? then [] else [dest.value] + HandOut(t)
  }

  // A decision after a finished one hands out exactly the frame's destinations, in order.
  lemma {:induction false} HandOutIsPending(d: Decider)
    requires DeciderOk(d)
    ensures HandOut(d) == Pending(d)
    decreases |Pending(d)|
  {
    hide DeciderOk;
    NextIsPending(d);
    var (dest, t) := NextDestination(d);
    if dest.Some? {
      HandOutIsPending(t);
      assert Pending(d) == [dest.value] + Pending(t);
    }
  }

  // A frame addressed to a group reaches every peer that has joined it.
  lemma MulticastReaches(d: Decider, f: Frame, limit: nat, p: nat, group: nat)
    requires DeciderOk(d) && f.Valid() && f.Ethernet? && f.content.NotIgmp? && !d.decide.Multicast?
    requires f.dest == G.MacForGroup(group) && p in d.peers && GroupSpec.Has(GroupSpec.Joined(d.groups)[p], group)
    ensures DeciderOk(AnalyzeAndDecide(d, f, limit)) && p in HandOut(AnalyzeAndDecide(d, f, limit))
  {
    hide GroupsOk, MacsOk;
    DecisionIsRight(d, f, limit);
    HandOutIsPending(AnalyzeAndDecide(d, f, limit));
    assert f.dest[..3] == [0x01, 0x00, 0x5E] && f.dest[0] != BROADCAST[0];
    G.GroupIsReached(d.groups, p, group);
  }

  // A freed entry's iterators move on to the next entry.
  ghost function Jump(x: Index, at: Option<Slot>, s: Slot): Option<Slot> {
    if at == Some(s) then NextEntry(x, s) else at
  }

  ghost function Jumped(decide: Decide, x: Index, s: Slot): Decide {
    if decide.Multicast? && decide.registered then Multicast(Jump(x, decide.at, s), true) else decide
  }

  // The entry goes and the iterator stays at it.
  ghost predicate Lost(decide: Decide, s: Slot) {
    decide.Multicast? && !decide.registered && decide.at == Some(s)
  }

  lemma {:induction false} SuffixRemove<T>(list: seq<T>, x: T, y: T)
    requires NoDup(list) && x in list && x != y
    ensures Suffix(Remove(list, y), x) == Remove(Suffix(list, x), y) && x in Remove(list, y)
  {
    var rest := list[1..];
    assert list == [list[0]] + rest;
    if list[0] == x {
    } else if list[0] == y {
      assert y !in rest;
      SuffixOfRest(rest, x, y);
    } else {
      SuffixRemove(rest, x, y);
    }
  }

  lemma {:induction false} SuffixOfRest<T>(list: seq<T>, x: T, y: T)
    requires y !in list
    ensures y !in Suffix(list, x)
  {
    if list != [] && list[0] != x {
      SuffixOfRest(list[1..], x, y);
    }
  }

  lemma {:induction false} SuffixSelf<T>(list: seq<T>, x: T)
    requires NoDup(list) && x in list
    ensures var s := Suffix(list, x); Remove(s, x) == s[1..] && forall y <- s :: y in list
    ensures var s := Suffix(list, x); |s| > 1 ==> s[1] != x && s[1] in Remove(list, x) && Suffix(Remove(list, x), s[1]) == s[1..]
  {
    var rest := list[1..];
    assert list == [list[0]] + rest;
    if list[0] == x {
      assert |rest| > 0 ==> rest[0] in rest && list[0] != list[1];
    } else {
      SuffixSelf(rest, x);
      assert list[0] !in rest;
    }
  }

  // Freeing an entry takes it, and nothing else, from what the iterator still has before it.
  lemma DropPending(x: Index, members: set<Slot>, at: Option<Slot>, s: Slot)
    requires IndexOk(x, members) && s in members && (at.Some? ==> at.value in members)
    ensures Droppable(x, s) && PendingEntries(Drop(x, s), Jump(x, at, s)) == Remove(PendingEntries(x, at), s)
    ensures Jump(x, at, s).Some? ==> Jump(x, at, s).value in members && Jump(x, at, s).value != s
    ensures forall t <- PendingEntries(x, at) :: t in members
    ensures NoDup(PendingEntries(x, at))
  {
    DropPossible(x, members, s);
    DropSame(x, s);
    EntryListed(x, members, s);
    if at.Some? {
      EntryListed(x, members, at.value);
      hide IndexOk, ListOk;
      var a := at.value;
      var list := x.lists[SigForGroup(x.entry[a].group)];
      SuffixSelf(list, a);
      SuffixNoDup(list, a);
      if a != s {
        if s in list {
          SuffixRemove(list, a, s);
          NotAlone(list, a, s);
        } else {
          SuffixOfRest(list, a, s);
        }
      }
    }
  }

  lemma {:induction false} SuffixNoDup<T>(list: seq<T>, x: T)
    requires NoDup(list)
    ensures NoDup(Suffix(list, x))
  {
    if list != [] && list[0] != x {
      SuffixNoDup(list[1..], x);
    }
  }

  lemma NotAlone<T>(list: seq<T>, a: T, s: T)
    requires a in list && s in list && a != s
    ensures |list| > 1
  {
  }

  // A new entry in the index is the only one that may become pending.
  lemma AddPending(x: Index, members: set<Slot>, at: Option<Slot>, s: Slot)
    requires IndexOk(x, members) && s in x.entry && s !in members && (at.Some? ==> at.value in members)
    ensures Remove(PendingEntries(Add(x, s), at), s) == PendingEntries(x, at)
  {
    AddSame(x, s);
    if at.Some? {
      EntryListed(x, members, at.value);
      hide IndexOk, ListOk;
      var a, sig := at.value, SigForGroup(x.entry[at.value].group);
      var list := x.lists[sig];
      SuffixSelf(list, a);
      assert s !in Suffix(list, a);
      if sig == SigForGroup(x.entry[s].group) && sig in x.tree {
        MasterFirst(x, members, sig);
        InsertedSuffix(list, a, s);
      }
    }
  }

  lemma MasterFirst(x: Index, members: set<Slot>, sig: nat)
    requires IndexOk(x, members) && sig in x.lists
    ensures x.lists[sig] != [] && sig in x.tree && x.tree[sig] == x.lists[sig][0]
  {
    assert ListOk(x, members, sig);
  }

  lemma InsertedSuffix(list: seq<Slot>, a: Slot, s: Slot)
    requires list != [] && NoDup(list) && a in list && s !in list
    ensures Remove(Suffix(InsertAfter(list, list[0], s), a), s) == Suffix(list, a)
  {
    var rest := list[1..];
    assert list == [list[0]] + rest;
    var t := InsertAfter(list, list[0], s);
    assert t == [list[0], s] + rest;
    assert t[1..] == [s] + rest && t[1..][1..] == rest;
    if a == list[0] {
      assert Remove(t[1..], s) == rest;
    } else {
      assert Suffix(t, a) == Suffix(rest, a);
      SuffixOfRest(rest, a, s);
    }
  }
}
