// client/FrameDecider.c: the object that decides where frames go.
module FrameDecider {
  import opened Wrappers
  import opened Lists
  import opened MacIndex
  import MI = MulticastIndex
  import opened MulticastIndex
  import opened GroupIndex
  import opened GroupSpec
  import G = GroupRefinement
  import S = FrameDeciderSpec
  import opened FrameDeciderSpec
  import opened FrameDeciderEvents

  // A group record of an IGMP version 3 membership report.
  datatype RecordType = ModeIsInclude | ModeIsExclude | ChangeToInclude | ChangeToExclude | OtherRecord
  datatype Record = Record(kind: RecordType, group: nat, sources: nat) {
    // The record says that the peer wants frames of the group.
    predicate Joins() {
      match kind
      case ModeIsInclude => sources != 0
      case ChangeToInclude => sources != 0
      case ModeIsExclude => true
      case ChangeToExclude => true
      case OtherRecord => false
    }
  }

  class Decider {
    const maxPeerMacs: nat
    const maxPeerGroups: nat
    const membershipInterval: nat
    const lastMemberQueryTime: nat
    var peersList: seq<nat>
    // mac_entries_free and mac_entries_used of each peer, the entries, macs_tree
    var macFree: map<nat, seq<Slot>>
    var macUsed: map<nat, seq<Slot>>
    var macOf: map<Slot, Mac>
    var macsTree: map<Mac, Slot>
    // group_entries_free, group_entries_used and groups_tree of each peer, the entries
    var groupFree: map<nat, seq<Slot>>
    var groupUsed: map<nat, seq<Slot>>
    var groupsTree: map<nat, map<nat, Slot>>
    var groupOf: map<Slot, Group>
    // multicast_tree, and the list each master is in
    var multicastTree: map<nat, Slot>
    var sigLists: map<nat, seq<Slot>>
    var decide: Decide

    function MacTables(): Macs
      reads this
    {
      Macs(maxPeerMacs, macFree, macUsed, macOf, macsTree)
    }

    function Multicasts(): Index
      reads this
    {
      Index(groupOf, multicastTree, sigLists)
    }

    function GroupTables(): Groups
      reads this
    {
      Groups(maxPeerGroups, groupFree, groupUsed, groupsTree, Multicasts())
    }

    function View(): S.Decider
      reads this
    {
      S.Decider(MacTables(), GroupTables(), peersList, decide)
    }

    constructor (maxPeerMacs: nat, maxPeerGroups: nat, membershipInterval: nat, lastMemberQueryTime: nat)
      requires maxPeerMacs > 0 && maxPeerGroups > 0
      ensures DeciderOk(View()) && peersList == [] && decide == NoDecision
    {
      this.maxPeerMacs, this.maxPeerGroups := maxPeerMacs, maxPeerGroups;
      this.membershipInterval, this.lastMemberQueryTime := membershipInterval, lastMemberQueryTime;
      peersList, decide := [], NoDecision;
      macFree, macUsed, macOf, macsTree := map[], map[], map[], map[];
      groupFree, groupUsed, groupsTree, groupOf := map[], map[], map[], map[];
      multicastTree, sigLists := map[], map[];
    }

    // add_mac_to_peer
    method AddMacToPeer(p: nat, mac: Mac)
      requires MacsOk(MacTables()) && p in macUsed
      modifies this`macFree, this`macUsed, this`macOf, this`macsTree
      ensures MacTables() == AddMac(old(MacTables()), p, mac)
    {
      hide PoolOk, Indexed, MacsOk;
      if mac in macsTree {
        var e := macsTree[mac];
        TreeUsed(MacTables(), mac);
        DisownKeeps(MacTables(), mac);
        if e.peer == p {
          macUsed := macUsed[p := Remove(macUsed[p], e) + [e]];
          return;
        }
        macsTree := macsTree - {mac};
        macUsed := macUsed[e.peer := Remove(macUsed[e.peer], e)];
        macFree := macFree[e.peer := macFree[e.peer] + [e]];
      }
      TakeKeeps(MacTables(), p);
      var entry;
      if macFree[p] != [] {
        entry := macFree[p][0];
        macFree := macFree[p := macFree[p][1..]];
      } else {
        entry := macUsed[p][0];
        macsTree := macsTree - {macOf[entry]};
        macUsed := macUsed[p := Remove(macUsed[p], entry)];
      }
      macOf := macOf[entry := mac];
      macUsed := macUsed[p := macUsed[p] + [entry]];
      macsTree := macsTree[mac := entry];
    }

    // add_to_multicast
    method AddToMulticast(s: Slot)
      requires s in groupOf && sigLists.Keys == multicastTree.Keys
      modifies this`groupOf, this`multicastTree, this`sigLists
      ensures Multicasts() == MI.Add(old(Multicasts()), s)
    {
      var sig := SigForGroup(groupOf[s].group);
      if sig in multicastTree {
        var master := multicastTree[sig];
        groupOf := groupOf[s := groupOf[s].(isMaster := false)];
        sigLists := sigLists[sig := InsertAfter(sigLists[sig], master, s)];
      } else {
        groupOf := groupOf[s := groupOf[s].(isMaster := true)];
        multicastTree := multicastTree[sig := s];
        sigLists := sigLists[sig := [s]];
      }
    }

    // remove_from_multicast; an iterator at the entry moves on
    method RemoveFromMulticast(s: Slot)
      requires Droppable(Multicasts(), s)
      modifies this`groupOf, this`multicastTree, this`sigLists, this`decide
      ensures Multicasts() == Drop(old(Multicasts()), s)
      ensures decide == Jumped(old(decide), old(Multicasts()), s)
    {
      var sig := SigForGroup(groupOf[s].group);
      var list := sigLists[sig];
      if decide.Multicast? && decide.registered && decide.at == Some(s) {
        decide := Multicast(After(list, s), true);
      }
      if groupOf[s].isMaster {
        if |list| > 1 {
          var newMaster := NextOrPrev(list, s);
          groupOf := groupOf[newMaster := groupOf[newMaster].(isMaster := true)];
          multicastTree := multicastTree[sig := newMaster];
        } else {
          multicastTree := multicastTree - {sig};
        }
      }
      sigLists := if |list| > 1 then sigLists[sig := Remove(list, s)] else sigLists - {sig};
    }

    // The part of add_group_to_peer that acquires an entry.
    method AcquireGroup(p: nat) returns (s: Slot)
      requires GroupsOk(GroupTables()) && p in groupUsed
      modifies this`groupFree, this`groupUsed, this`groupsTree, this`groupOf, this`multicastTree, this`sigLists, this`decide
      ensures p in old(groupFree) && p in old(groupsTree)
      ensures old(groupFree)[p] != [] || (old(groupUsed)[p] != [] && old(groupUsed)[p][0].peer == p && Droppable(old(Multicasts()), old(groupUsed)[p][0]))
      ensures s == TakenGroup(old(GroupTables()), p) && GroupTables() == TakeGroup(old(GroupTables()), p)
      ensures decide == if old(groupFree)[p] == [] then Jumped(old(decide), old(Multicasts()), s) else old(decide)
    {
      hide PoolOk, PeerTreeOk, IndexOk, Droppable, Drop, GroupsOk;
      CanTake(GroupTables(), p);
      if groupFree[p] != [] {
        s := groupFree[p][0];
        groupFree := groupFree[p := groupFree[p][1..]];
      } else {
        s := groupUsed[p][0];
        ghost var x := Multicasts();
        GroupKept(x, s);
        RemoveFromMulticast(s);
        var tree: map<nat, Slot> := groupsTree[p] - {groupOf[s].group};
        groupsTree := groupsTree[p := tree];
        groupUsed := groupUsed[p := Remove(groupUsed[p], s)];
      }
    }

    // add_group_to_peer
    method AddGroupToPeer(p: nat, group: nat, now: nat)
      requires TablesOk(View()) && p in peersList
      modifies this`groupFree, this`groupUsed, this`groupsTree, this`groupOf, this`multicastTree, this`sigLists, this`decide
      ensures GroupsOk(old(GroupTables())) && p in old(groupUsed)
      ensures View() == JoinGroup(old(View()), p, group, now + membershipInterval)
    {
      hide PoolOk, PeerTreeOk, IndexOk, PoolsOk, Droppable, MacsOk, TakeGroup, PoolsBut, UseGroup, Members;
      var endtime := now + membershipInterval;
      PeersTree(GroupTables(), p);
      CanTake(GroupTables(), p);
      if group in groupsTree[p] {
        var s := groupsTree[p][group];
        groupUsed := groupUsed[p := Remove(groupUsed[p], s) + [s]];
        groupOf := groupOf[s := groupOf[s].(endtime := endtime)];
        return;
      }
      TakeGroupKeeps(GroupTables(), p);
      var s := AcquireGroup(p);
      ButKeys(GroupTables(), p);
      IndexKeys(Multicasts(), Members(groupUsed));
      UseEntry(p, s, group, endtime);
    }

    // The rest of add_group_to_peer for a new entry.
    method UseEntry(p: nat, s: Slot, group: nat, endtime: nat)
      requires p in groupUsed && p in groupsTree && sigLists.Keys == multicastTree.Keys
      modifies this`groupUsed, this`groupsTree, this`groupOf, this`multicastTree, this`sigLists
      ensures GroupTables() == UseGroup(old(GroupTables()), p, s, group, endtime)
    {
      groupUsed := groupUsed[p := groupUsed[p] + [s]];
      groupOf := groupOf[s := Group(group, endtime, false)];
      var tree: map<nat, Slot> := groupsTree[p][group := s];
      groupsTree := groupsTree[p := tree];
      AddToMulticast(s);
    }

    // remove_group_entry, when the entry's timer runs out
    method RemoveGroupEntry(s: Slot)
      requires TablesOk(View()) && s.peer in groupUsed && s in groupUsed[s.peer]
      modifies this`groupFree, this`groupUsed, this`groupsTree, this`groupOf, this`multicastTree, this`sigLists, this`decide
      ensures GroupsOk(old(GroupTables())) && View() == LeaveGroup(old(View()), s)
    {
      hide PoolOk, PeerTreeOk, IndexOk, PoolsOk, Droppable, MacsOk, Drop;
      UsedIsMember(GroupTables(), s);
      GroupKept(Multicasts(), s);
      RemoveFromMulticast(s);
      var tree: map<nat, Slot> := groupsTree[s.peer] - {groupOf[s].group};
      groupsTree := groupsTree[s.peer := tree];
      groupUsed := groupUsed[s.peer := Remove(groupUsed[s.peer], s)];
      groupFree := groupFree[s.peer := groupFree[s.peer] + [s]];
    }

    // lower_group_timers_to_lmqt
    method LowerGroupTimers(group: nat, now: nat)
      requires GroupsOk(GroupTables())
      modifies this`groupOf
      ensures GroupTables() == G.Lower(old(GroupTables()), group, now + lastMemberQueryTime)
    {
      hide IndexOk, Members;
      var sig := SigForGroup(group);
      if sig !in multicastTree {
        return;
      }
      hide PoolsOk, IndexOk, PendingEntries;
      ListEntries(GroupTables(), sig);
      ghost var limit, before := now + lastMemberQueryTime, groupOf;
      var list := sigLists[sig];
      var i := 0;
      while i < |list|
        invariant 0 <= i <= |list| && groupOf.Keys == before.Keys
        invariant G.LowerList(before, list, group, limit) == G.LowerList(groupOf, list[i..], group, limit)
      {
        var s := list[i];
        LowerStep(groupOf, list[i..], group, limit);
        assert list[i..][1..] == list[i + 1..];
        if groupOf[s].group == group {
          if groupOf[s].endtime > now + lastMemberQueryTime {
            groupOf := groupOf[s := groupOf[s].(endtime := now + lastMemberQueryTime)];
          }
        }
        i := i + 1;
      }
    }

    method AnalyzeAndDecideFrame(f: Frame, now: nat)
      requires DeciderOk(View()) && f.Valid()
      modifies this`groupOf, this`decide
      ensures View() == AnalyzeAndDecide(old(View()), f, now + lastMemberQueryTime)
    {
      if decide.Multicast? {
        // LinkedList3Iterator_Free
        decide := Multicast(decide.at, false);
        return;
      }
      decide := NoDecision;
      if f.Short? {
        return;
      }
      if f.content.Igmp? && f.content.query.Some? {
        LowerGroupTimers(f.content.query.value, now);
      }
      if f.content.Igmp? || f.dest == BROADCAST {
        decide := Flood(First(peersList));
        return;
      }
      if f.dest[..3] == [0x01, 0x00, 0x5E] {
        var sig := G.SigForMac(f.dest);
        if sig in multicastTree {
          decide := Multicast(Some(multicastTree[sig]), true);
        }
        return;
      }
      if f.dest in macsTree {
        decide := Unicast(macsTree[f.dest].peer);
        return;
      }
      decide := Flood(First(peersList));
    }

    // FrameDecider_NextDestination
    method NextPeer() returns (dest: Option<nat>)
      requires DeciderOk(View())
      modifies this`decide
      ensures (dest, View()) == NextDestination(old(View()))
    {
      dest := None;
      match decide {
        case NoDecision =>
        case Unicast(p) =>
          decide := NoDecision;
          dest := Some(p);
        case Flood(next) =>
          if next.None? {
            decide := NoDecision;
          } else {
            decide := Flood(After(peersList, next.value));
            dest := next;
          }
        case Multicast(at, _) =>
          if at.None? {
            decide := NoDecision;
          } else {
            EntryListed(Multicasts(), Members(groupUsed), at.value);
            decide := Multicast(After(sigLists[SigForGroup(groupOf[at.value].group)], at.value), true);
            dest := Some(at.value.peer);
          }
      }
    }

    // FrameDeciderPeer_Init
    method PeerInit(p: nat)
      requires p !in peersList
      modifies this`peersList, this`macFree, this`macUsed, this`groupFree, this`groupUsed, this`groupsTree
      ensures View() == FrameDeciderEvents.PeerInit(old(View()), p)
    {
      peersList := peersList + [p];
      macFree := macFree[p := AllSlots(p, maxPeerMacs)];
      macUsed := macUsed[p := []];
      groupFree := groupFree[p := AllSlots(p, maxPeerGroups)];
      groupUsed := groupUsed[p := []];
      var tree: map<nat, Slot> := map[];
      groupsTree := groupsTree[p := tree];
    }

    // The loop of FrameDeciderPeer_Free over the used group entries.
    method FreeGroupEntries(p: nat)
      requires GroupsOk(GroupTables()) && p in groupUsed
      modifies this`groupOf, this`multicastTree, this`sigLists, this`decide
      ensures GroupsOk(old(GroupTables())) && NoDup(groupUsed[p]) && forall s <- groupUsed[p] :: s in Members(groupUsed)
      ensures Multicasts() == G.DropAll(old(Multicasts()), Members(groupUsed), groupUsed[p])
      ensures decide == if old(decide).Multicast? && old(decide).registered then
        Multicast(JumpAll(old(Multicasts()), Members(groupUsed), old(decide).at, groupUsed[p]), true) else old(decide)
    {
      G.NoDupUsed(GroupTables(), p);
      G.UsedAreMembers(GroupTables(), p);
      ghost var x, d := Multicasts(), decide;
      ghost var all := Members(groupUsed);
      ghost var members := all;
      var list := groupUsed[p];
      FreeStart(x, all, d, list);
      hide Freeing, FreedEntries, IndexOk, ListOk, PoolsOk, Members, Droppable, Drop, Jump;
      var i := 0;
      while i < |list|
        invariant 0 <= i <= |list| && Freeing(Multicasts(), members, list[i..]) == true
        invariant FreedEntries(x, all, d, list) == FreedEntries(Multicasts(), members, decide, list[i..])
        invariant decide.Multicast? && decide.registered <==> d.Multicast? && d.registered
      {
        var s := list[i];
        assert list[i..][1..] == list[i + 1..];
        FreeStep(Multicasts(), members, decide, list[i..]);
        RemoveFromMulticast(s);
        members := members - {s};
        i := i + 1;
      }
      FreeEnd(Multicasts(), members, decide, list[i..]);
    }

    // The loop over the used MAC entries.
    method FreeMacEntries(p: nat)
      requires MacsOk(MacTables()) && p in macUsed
      modifies this`macsTree
      ensures macsTree == map a | a in old(macsTree) && old(macsTree)[a].peer != p :: old(macsTree)[a]
    {
      hide MacsOk, TreeOk;
      var list := macUsed[p];
      ghost var tree := macsTree;
      OwnAddresses(MacTables(), p);
      var j := 0;
      while j < |list|
        invariant 0 <= j <= |list|
        invariant macsTree == tree - AddressesOf(list[..j], macOf)
      {
        assert list[j] in list && list[..j + 1] == list[..j] + [list[j]];
        macsTree := macsTree - {macOf[list[j]]};
        j := j + 1;
      }
      assert list[..j] == list;
    }

    // FrameDeciderPeer_Free
    method FreePeer(p: nat)
      requires TablesOk(View()) && p in peersList
      modifies this
      ensures TablesOk(old(View())) && p in old(peersList) && View() == PeerFree(old(View()), p)
    {
      hide GroupsOk, MacsOk, Members, G.DropAll, JumpAll, DecideOk, Lists.Remove;
      if decide == Unicast(p) {
        decide := NoDecision;
      }
      FreeGroupEntries(p);
      FreeMacEntries(p);
      if decide == Flood(Some(p)) {
        decide := Flood(After(peersList, p));
      }
      ForgetPeer(p);
      // the peer's entries are freed, with whatever is still at one of them
      if StaysWith(decide, p) {
        decide := Freed;
      }
    }

    method ForgetPeer(p: nat)
      modifies this`peersList, this`macFree, this`macUsed, this`groupFree, this`groupUsed, this`groupsTree
      ensures View() == old(View()).(
        peers := Remove(old(peersList), p),
        macs := old(MacTables()).(free := old(macFree) - {p}, used := old(macUsed) - {p}),
        groups := old(GroupTables()).(free := old(groupFree) - {p}, used := old(groupUsed) - {p}, trees := old(groupsTree) - {p}))
    {
      peersList := Remove(peersList, p);
      macFree, macUsed := macFree - {p}, macUsed - {p};
      groupFree, groupUsed, groupsTree := groupFree - {p}, groupUsed - {p}, groupsTree - {p};
    }

    // FrameDeciderPeer_Analyze: the source address, then the groups of an IGMP report.
    method PeerAnalyze(p: nat, src: Mac, report: seq<Record>, now: nat)
      requires TablesOk(View()) && p in peersList
      modifies this
      ensures TablesOk(View()) && (DeciderOk(old(View())) ==> DeciderOk(View())) && peersList == old(peersList)
      ensures MacTables() == old(MacTables()).(free := macFree, used := macUsed, mac := macOf, tree := macsTree)
      ensures p in Lru(old(MacTables())) && Lru(MacTables()) == Learn(Lru(old(MacTables())), maxPeerMacs, p, src)
      ensures p in Joined(old(GroupTables()))
      ensures Joined(GroupTables()) == Joined(old(GroupTables()))[p := Reported(Joined(old(GroupTables()))[p], maxPeerGroups, report, now + membershipInterval)]
    {
      hide GroupsOk, MacsOk, AddMac, Learn, Lru, Joined, AddGroup, Join, NoDup, DecideOk;
      LearnKeeps(View(), p, src);
      JoinedKeys(GroupTables());
      LruKeys(MacTables());
      AddMacToPeer(p, src);
      ghost var joined := Joined(GroupTables());
      ghost var macs := MacTables();
      SameMembership(joined, p);
      var i := 0;
      while i < |report|
        invariant 0 <= i <= |report| && TablesOk(View()) && (DeciderOk(old(View())) ==> DeciderOk(View())) && p in peersList && peersList == old(peersList)
        invariant MacTables() == macs
        invariant Joined(GroupTables()).Keys == joined.Keys
        invariant joined[p := Reported(joined[p], maxPeerGroups, report, now + membershipInterval)] ==
          Joined(GroupTables())[p := Reported(Joined(GroupTables())[p], maxPeerGroups, report[i..], now + membershipInterval)]
      {
        JoinedKeys(GroupTables());
        assert report[i..] == [report[i]] + report[i + 1..];
        if report[i].Joins() {
          JoinKeeps(View(), p, report[i].group, now + membershipInterval);
          AddGroupToPeer(p, report[i].group, now);
        }
        i := i + 1;
      }
      SameMembership(Joined(GroupTables()), p);
    }
  }

  // What a report adds to a peer's memberships.
  function Reported(l: seq<Membership>, max: nat, report: seq<Record>, endtime: nat): seq<Membership>
    decreases |report|
  {
    if report == [] then l
    else Reported(if report[0].Joins() then Join(l, max, report[0].group, endtime) else l, max, report[1..], endtime)
  }

  // Which sources a record says its sender listens to: only as many as it lists, or all but those
  // (section 4.2.12 of RFC 3376).
  datatype Filter = Only(sources: nat) | AllBut(sources: nat)

  function FilterOf(r: Record): Option<Filter> {
    if r.kind.ModeIsInclude? || r.kind.ChangeToInclude? then Some(Only(r.sources))
    else if r.kind.ModeIsExclude? || r.kind.ChangeToExclude? then Some(AllBut(r.sources))
    else None
  }

  // A record joins exactly when its sender listens to some source.
  lemma JoinsExactly(r: Record)
    ensures r.Joins() <==> FilterOf(r).Some? && FilterOf(r).value != Only(0)
  {
  }

  predicate Reports(report: seq<Record>, group: nat) {
    exists i :: 0 <= i < |report| && report[i].Joins() && report[i].group == group
  }

  // The memberships before the first record's join, and after it.
  function AfterFirst(l: seq<Membership>, max: nat, report: seq<Record>, endtime: nat): seq<Membership>
    requires report != []
  {
    if report[0].Joins() then Join(l, max, report[0].group, endtime) else l
  }

  // A report adds the groups it joins with the new time, and no others.
  lemma {:induction false} ReportedOnly(l: seq<Membership>, max: nat, report: seq<Record>, endtime: nat)
    requires Distinct(l) && |l| <= max && max > 0
    ensures var r := Reported(l, max, report, endtime);
      Distinct(r) && |r| <= max && forall m <- r :: if Reports(report, m.group) then m.endtime == endtime else m in l
    decreases |report|
  {
    if report != [] {
      var k, r := AfterFirst(l, max, report, endtime), Reported(l, max, report, endtime);
      JoinFacts(l, max, report[0].group, endtime);
      hide Join, Reports, Distinct;
      ReportedOnly(k, max, report[1..], endtime);
      forall m <- r ensures if Reports(report, m.group) then m.endtime == endtime else m in l {
        ReportsRest(report, m.group);
        if !Reports(report[1..], m.group) && report[0].Joins() && m.group == report[0].group {
          OnlyOne(k, m, Membership(m.group, endtime));
        }
      }
    }
  }

  lemma OnlyOne(l: seq<Membership>, a: Membership, b: Membership)
    requires Distinct(l) && a in l && b in l && a.group == b.group
    ensures a == b
  {
  }

  // All of them, and whatever there was before, if there is room.
  lemma {:induction false} ReportedAll(l: seq<Membership>, max: nat, report: seq<Record>, endtime: nat, group: nat)
    requires Distinct(l) && |l| + |report| <= max && max > 0
    ensures var r := Reported(l, max, report, endtime);
      if Reports(report, group) || Membership(group, endtime) in l then Membership(group, endtime) in r
      else forall m <- l :: m.group == group ==> m in r
    decreases |report|
  {
    if report != [] {
      var first, k := report[0], AfterFirst(l, max, report, endtime);
      if first.Joins() {
        JoinFacts(l, max, first.group, endtime);
        JoinGrows(l, max, first.group, endtime);
      }
      ReportsRest(report, group);
      hide Join, Reports, Distinct;
      ReportedAll(k, max, report[1..], endtime, group);
    }
  }

  lemma JoinGrows(l: seq<Membership>, max: nat, group: nat, endtime: nat)
    requires Distinct(l)
    ensures |Join(l, max, group, endtime)| <= |l| + 1
  {
    QuitFacts(l, group);
  }

  // The last one in any case, as the most recent.
  lemma {:induction false} ReportedLast(l: seq<Membership>, max: nat, report: seq<Record>, endtime: nat)
    requires report != [] && report[|report| - 1].Joins()
    ensures var r := Reported(l, max, report, endtime);
      r != [] && r[|r| - 1] == Membership(report[|report| - 1].group, endtime)
    decreases |report|
  {
    if |report| > 1 {
      ReportedLast(AfterFirst(l, max, report, endtime), max, report[1..], endtime);
    } else {
      assert report[1..] == [];
    }
  }

  lemma ReportsRest(report: seq<Record>, group: nat)
    requires report != []
    ensures Reports(report, group) <==> (report[0].Joins() && report[0].group == group) || Reports(report[1..], group)
  {
    if Reports(report, group) {
      var i :| 0 <= i < |report| && report[i].Joins() && report[i].group == group;
      assert i > 0 ==> report[1..][i - 1] == report[i];
    }
    if Reports(report[1..], group) {
      var i :| 0 <= i < |report[1..]| && report[1..][i].Joins() && report[1..][i].group == group;
      assert report[i + 1] == report[1..][i];
    }
  }

  lemma SameMembership(joined: map<nat, seq<Membership>>, p: nat)
    requires p in joined
    ensures joined[p := joined[p]] == joined
  {
  }

  lemma JoinedKeys(g: Groups)
    ensures Joined(g).Keys == g.used.Keys
  {
  }

  // While the entries of a list are freed, what is left of the list is in the index.
  ghost predicate Freeing(x: Index, members: set<Slot>, list: seq<Slot>) {
    IndexOk(x, members) && NoDup(list) && forall s <- list :: s in members
  }

  ghost function FreedEntries(x: Index, members: set<Slot>, decide: Decide, list: seq<Slot>): (Index, Decide)
    requires Freeing(x, members, list)
  {
    (G.DropAll(x, members, list), if decide.Multicast? && decide.registered then Multicast(JumpAll(x, members, decide.at, list), true) else decide)
  }

  lemma FreeStart(x: Index, members: set<Slot>, decide: Decide, list: seq<Slot>)
    requires IndexOk(x, members) && NoDup(list) && forall s <- list :: s in members
    ensures Freeing(x, members, list) && list[0..] == list
    ensures FreedEntries(x, members, decide, list) ==
      (G.DropAll(x, members, list), if decide.Multicast? && decide.registered then Multicast(JumpAll(x, members, decide.at, list), true) else decide)
  {
  }

  lemma FreeEnd(x: Index, members: set<Slot>, decide: Decide, list: seq<Slot>)
    requires Freeing(x, members, list) && list == []
    ensures FreedEntries(x, members, decide, list) == (x, decide)
  {
  }

  lemma FreeStep(x: Index, members: set<Slot>, decide: Decide, list: seq<Slot>)
    requires Freeing(x, members, list) && list != []
    ensures Droppable(x, list[0]) && Freeing(Drop(x, list[0]), members - {list[0]}, list[1..])
    ensures FreedEntries(x, members, decide, list) ==
      FreedEntries(Drop(x, list[0]), members - {list[0]}, Jumped(decide, x, list[0]), list[1..])
  {
    hide IndexOk;
    assert list[0] in list && forall s <- list[1..] :: s in list;
    assert list == [list[0]] + list[1..];
    DropPossible(x, members, list[0]);
    DropKeeps(x, members, list[0]);
  }

  function AddressesOf(list: seq<Slot>, macOf: map<Slot, Mac>): set<Mac> {
    set s | s in list && s in macOf :: macOf[s]
  }

  // The addresses of a peer's used entries are those the tree has for the peer.
  lemma OwnAddresses(m: Macs, p: nat)
    requires MacsOk(m) && p in m.used
    ensures forall s <- m.used[p] :: s in m.mac
    ensures forall a <- m.tree :: m.tree[a].peer == p <==> a in AddressesOf(m.used[p], m.mac)
  {
    assert PoolOk(m.max, p, m.free[p], m.used[p]) && Indexed(m, p);
    forall a | a in m.tree && m.tree[a].peer == p ensures a in AddressesOf(m.used[p], m.mac) {
      assert m.tree[a] in m.used[p] && m.mac[m.tree[a]] == a;
    }
  }

  lemma ListEntries(g: Groups, sig: nat)
    requires GroupsOk(g)
    ensures sig in g.index.tree <==> sig in g.index.lists
    ensures sig in g.index.lists ==> forall i :: 0 <= i < |g.index.lists[sig]| ==> g.index.lists[sig][i] in g.index.entry
  {
    if sig in g.index.lists {
      assert ListOk(g.index, Members(g.used), sig);
    }
  }

  lemma LowerStep(entry: map<Slot, Group>, list: seq<Slot>, group: nat, limit: nat)
    requires list != [] && list[0] in entry
    ensures G.LowerList(entry, list, group, limit) ==
      G.LowerList(if entry[list[0]].group == group && entry[list[0]].endtime > limit
                  then entry[list[0] := entry[list[0]].(endtime := limit)] else entry, list[1..], group, limit)
  {
    assert entry[list[0] := entry[list[0]]] == entry;
  }

  // Dropping an entry from the index keeps its group.
  lemma GroupKept(x: Index, s: Slot)
    requires Droppable(x, s)
    ensures s in x.entry && s in Drop(x, s).entry && Drop(x, s).entry[s].group == x.entry[s].group
  {
    DropSame(x, s);
  }

  lemma IndexKeys(x: Index, members: set<Slot>)
    requires IndexOk(x, members)
    ensures x.lists.Keys == x.tree.Keys
  {
  }

  lemma ButKeys(g: Groups, p: nat)
    requires PoolsBut(g, p)
    ensures p in g.used && p in g.trees && p in g.free
  {
  }
}
