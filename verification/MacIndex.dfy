// The MAC addresses of client/FrameDecider.c: a pool of entries per peer and one tree over the
// used entries of all peers, and the simple table they stand for.
module MacIndex {
  import opened Bytes
  import opened Lists

  type Mac = seq<byte>

  // An entry of a peer's array.
  datatype Slot = Slot(peer: nat, index: nat)

  // max_peer_macs; mac_entries_free and mac_entries_used by peer; the entries; macs_tree
  datatype Macs = Macs(max: nat, free: map<nat, seq<Slot>>, used: map<nat, seq<Slot>>, mac: map<Slot, Mac>, tree: map<Mac, Slot>)

  // A peer's lists: all its entries, each in one of them.
  ghost predicate PoolOk(max: nat, p: nat, free: seq<Slot>, used: seq<Slot>) {
    && NoDup(free) && NoDup(used) && |free| + |used| == max
    && (forall s <- free :: s.peer == p && s !in used) && (forall s <- used :: s.peer == p)
  }

  // The used entries are in the tree, under their address.
  ghost predicate Indexed(m: Macs, p: nat)
    requires p in m.used
  {
    forall s <- m.used[p] :: s in m.mac && m.mac[s] in m.tree && m.tree[m.mac[s]] == s
  }

  ghost predicate TreeOk(m: Macs) {
    forall a <- m.tree :: m.tree[a].peer in m.used && m.tree[a] in m.used[m.tree[a].peer] && m.tree[a] in m.mac && m.mac[m.tree[a]] == a
  }

  ghost predicate MacsOk(m: Macs) {
    && m.max > 0 && m.free.Keys == m.used.Keys && TreeOk(m)
    && (forall p <- m.used :: PoolOk(m.max, p, m.free[p], m.used[p]))
    && (forall p <- m.used :: Indexed(m, p))
  }

  // add_mac_to_peer when another peer has the address
  function Disown(m: Macs, a: Mac): Macs
    requires a in m.tree && m.tree[a].peer in m.used && m.tree[a].peer in m.free
  {
    var e := m.tree[a];
    m.(tree := m.tree - {a},
       used := m.used[e.peer := Remove(m.used[e.peer], e)],
       free := m.free[e.peer := m.free[e.peer] + [e]])
  }

  // The entry add_mac_to_peer takes: a free one, or the one used longest ago.
  function Taken(m: Macs, p: nat): Slot
    requires p in m.used && p in m.free && (m.free[p] != [] || m.used[p] != [])
  {
    if m.free[p] != [] then m.free[p][0] else m.used[p][0]
  }

  function Take(m: Macs, p: nat): Macs
    requires p in m.used && p in m.free && (m.free[p] != [] || (m.used[p] != [] && m.used[p][0] in m.mac))
  {
    if m.free[p] != [] then m.(free := m.free[p := m.free[p][1..]])
    else
      var e := m.used[p][0];
      m.(tree := m.tree - {m.mac[e]}, used := m.used[p := Remove(m.used[p], e)])
  }

  function Use(m: Macs, p: nat, e: Slot, a: Mac): Macs
    requires p in m.used
  {
    m.(mac := m.mac[e := a], used := m.used[p := m.used[p] + [e]], tree := m.tree[a := e])
  }

  lemma DisownKeeps(m: Macs, a: Mac)
    requires MacsOk(m) && a in m.tree
    ensures m.tree[a].peer in m.used && m.tree[a].peer in m.free && MacsOk(Disown(m, a)) && a !in Disown(m, a).tree
  {
    var e, t := m.tree[a], Disown(m, a);
    assert PoolOk(m.max, e.peer, m.free[e.peer], m.used[e.peer]) && Indexed(m, e.peer);
    RemoveFacts(m.used[e.peer], e);
    forall q <- t.used ensures PoolOk(t.max, q, t.free[q], t.used[q]) && Indexed(t, q) {
      assert PoolOk(m.max, q, m.free[q], m.used[q]) && Indexed(m, q);
    }
  }

  lemma TakeKeeps(m: Macs, p: nat)
    requires MacsOk(m) && p in m.used
    ensures p in m.free && (m.free[p] != [] || (m.used[p] != [] && m.used[p][0] in m.mac))
    ensures var e, t := Taken(m, p), Take(m, p);
      && e.peer == p && e !in t.used[p] && e !in t.free[p] && TreeOk(t)
      && t.free.Keys == m.free.Keys && t.used.Keys == m.used.Keys && t.max == m.max && t.mac == m.mac
      && (forall q <- t.used :: Indexed(t, q))
      && (forall q <- t.used :: q != p ==> PoolOk(t.max, q, t.free[q], t.used[q]))
      && PoolOk(t.max - 1, p, t.free[p], t.used[p])
      && forall a <- t.tree :: a in m.tree
  {
    assert PoolOk(m.max, p, m.free[p], m.used[p]) && Indexed(m, p);
    var e, t := Taken(m, p), Take(m, p);
    RemoveFacts(m.used[p], e);
    if m.free[p] != [] {
      assert m.free[p] == [e] + m.free[p][1..];
      assert e in m.free[p];
    } else {
      assert e in m.used[p];
    }
    forall q <- t.used ensures Indexed(t, q) {
      assert Indexed(m, q) && PoolOk(m.max, q, m.free[q], m.used[q]);
    }
  }

  lemma UsePool(max: nat, p: nat, free: seq<Slot>, used: seq<Slot>, e: Slot)
    requires max > 0 && PoolOk(max - 1, p, free, used) && e.peer == p && e !in used && e !in free
    ensures PoolOk(max, p, free, used + [e])
  {
  }

  lemma NotInOther(m: Macs, q: nat, e: Slot)
    requires q in m.used && q in m.free && PoolOk(m.max, q, m.free[q], m.used[q]) && e.peer != q
    ensures e !in m.used[q]
  {
  }

  lemma UseIndexed(m: Macs, p: nat, e: Slot, a: Mac, q: nat)
    requires p in m.used && e.peer == p && a !in m.tree && q in m.used && Indexed(m, q) && e !in m.used[q]
    ensures Indexed(Use(m, p, e, a), q)
  {
  }

  lemma UseTree(m: Macs, p: nat, e: Slot, a: Mac)
    requires TreeOk(m) && p in m.used && e.peer == p && a !in m.tree && e !in m.used[p]
    ensures TreeOk(Use(m, p, e, a))
  {
  }

  lemma UseKeeps(m: Macs, p: nat, e: Slot, a: Mac)
    requires m.max > 0 && m.free.Keys == m.used.Keys && TreeOk(m) && p in m.used && e.peer == p && a !in m.tree
    requires e !in m.used[p] && e !in m.free[p] && PoolOk(m.max - 1, p, m.free[p], m.used[p])
    requires forall q <- m.used :: Indexed(m, q)
    requires forall q <- m.used :: q != p ==> PoolOk(m.max, q, m.free[q], m.used[q])
    ensures MacsOk(Use(m, p, e, a))
  {
    hide PoolOk, Indexed, TreeOk;
    var t := Use(m, p, e, a);
    UsePool(m.max, p, m.free[p], m.used[p], e);
    forall q <- t.used ensures PoolOk(t.max, q, t.free[q], t.used[q]) == true && Indexed(t, q) == true {
      if q != p {
        NotInOther(m, q, e);
      }
      UseIndexed(m, p, e, a, q);
    }
    UseTree(m, p, e, a);
  }

  lemma TreeUsed(m: Macs, a: Mac)
    requires MacsOk(m) && a in m.tree
    ensures m.tree[a].peer in m.used && m.tree[a] in m.used[m.tree[a].peer]
  {
  }

  // add_mac_to_peer
  ghost function AddMac(m: Macs, p: nat, a: Mac): (r: Macs)
    requires MacsOk(m) && p in m.used
    ensures MacsOk(r) && r.used.Keys == m.used.Keys && r.max == m.max
  {
    hide PoolOk, Indexed, TreeOk;
    if a in m.tree && m.tree[a].peer == p then
      TreeUsed(m, a);
      RefreshKeeps(m, p, m.tree[a]);
      Refresh(m, p, m.tree[a])
    else
      var n := WithoutOther(m, a);
      TakeKeeps(n, p);
      UseKeeps(Take(n, p), p, Taken(n, p), a);
      Use(Take(n, p), p, Taken(n, p), a)
  }

  ghost function WithoutOther(m: Macs, a: Mac): (r: Macs)
    requires MacsOk(m)
    ensures MacsOk(r) && r.used.Keys == m.used.Keys && r.max == m.max && a !in r.tree
  {
    if a in m.tree then
      DisownKeeps(m, a);
      Disown(m, a)
    else m
  }

  // The entry moves to the end of the used list.
  function Refresh(m: Macs, p: nat, e: Slot): Macs
    requires p in m.used
  {
    m.(used := m.used[p := Remove(m.used[p], e) + [e]])
  }

  lemma RefreshKeeps(m: Macs, p: nat, e: Slot)
    requires MacsOk(m) && p in m.used && e in m.used[p]
    ensures MacsOk(Refresh(m, p, e))
  {
    var t := Refresh(m, p, e);
    assert PoolOk(m.max, p, m.free[p], m.used[p]) && Indexed(m, p);
    RemoveFacts(m.used[p], e);
    forall q <- t.used ensures PoolOk(t.max, q, t.free[q], t.used[q]) && Indexed(t, q) {
      assert PoolOk(m.max, q, m.free[q], m.used[q]) && Indexed(m, q);
    }
  }

  // The table the entries stand for: each peer's addresses, least recently seen first.
  function MacsOf(list: seq<Slot>, mac: map<Slot, Mac>): (r: seq<Mac>)
    ensures |r| == |list|
  {
    if list == [] then []
    else [if list[0] in mac then mac[list[0]] else []] + MacsOf(list[1..], mac)
  }

  ghost function Lru(m: Macs): map<nat, seq<Mac>> {
    map p | p in m.used :: MacsOf(m.used[p], m.mac)
  }

  // Learning that peer p has address a: no other peer has it any more; it becomes the peer's most
  // recent one, in place of the least recent one if there is no room.
  function Learn(l: map<nat, seq<Mac>>, max: nat, p: nat, a: Mac): map<nat, seq<Mac>>
    requires p in l
  {
    map q | q in l ::
      if q != p then Remove(l[q], a)
      else if a in l[p] then Remove(l[p], a) + [a]
      else (if |l[p]| >= max && l[p] != [] then l[p][1..] else l[p]) + [a]
  }

  lemma {:induction false} MacsOfAppend(list: seq<Slot>, mac: map<Slot, Mac>, e: Slot)
    requires e in mac
    ensures MacsOf(list + [e], mac) == MacsOf(list, mac) + [mac[e]]
  {
    if list == [] {
      assert list + [e] == [e] && MacsOf([], mac) == [];
    } else {
      assert (list + [e])[1..] == list[1..] + [e];
      MacsOfAppend(list[1..], mac, e);
    }
  }

  // Entries that are not in the list do not matter.
  lemma {:induction false} MacsOfOther(list: seq<Slot>, mac: map<Slot, Mac>, e: Slot, a: Mac)
    requires e !in list
    ensures MacsOf(list, mac[e := a]) == MacsOf(list, mac)
  {
    if list != [] {
      assert list[0] in list && forall s <- list[1..] :: s in list;
      MacsOfOther(list[1..], mac, e, a);
    }
  }

  // Removing an entry removes its address, when no other entry of the list has it.
  lemma {:induction false} MacsOfRemove(list: seq<Slot>, mac: map<Slot, Mac>, e: Slot)
    requires e in list && e in mac && (forall s <- list :: s in mac && (mac[s] == mac[e] ==> s == e))
    ensures mac[e] in MacsOf(list, mac) && MacsOf(Remove(list, e), mac) == Remove(MacsOf(list, mac), mac[e])
  {
    assert list[0] in list && forall s <- list[1..] :: s in list;
    if list[0] != e {
      MacsOfRemove(list[1..], mac, e);
    }
  }

  lemma {:induction false} MacsOfHas(list: seq<Slot>, mac: map<Slot, Mac>, a: Mac)
    requires forall s <- list :: s in mac
    ensures a in MacsOf(list, mac) <==> exists s :: s in list && mac[s] == a
  {
    if list != [] {
      assert list == [list[0]] + list[1..];
      MacsOfHas(list[1..], mac, a);
    }
  }

  // A MAC has at most one owner: the peer of its entry in the tree.
  lemma OneOwner(m: Macs, q: nat, a: Mac)
    requires MacsOk(m) && q in m.used
    ensures a in Lru(m)[q] <==> a in m.tree && m.tree[a].peer == q
  {
    assert PoolOk(m.max, q, m.free[q], m.used[q]) && Indexed(m, q);
    MacsOfHas(m.used[q], m.mac, a);
  }

  // Removing the entry of an address from the list of its peer.
  lemma RemoveEntry(m: Macs, a: Mac)
    requires MacsOk(m) && a in m.tree
    ensures var e := m.tree[a]; e.peer in m.used && MacsOf(Remove(m.used[e.peer], e), m.mac) == Remove(Lru(m)[e.peer], a)
  {
    var e := m.tree[a];
    assert PoolOk(m.max, e.peer, m.free[e.peer], m.used[e.peer]) && Indexed(m, e.peer);
    MacsOfRemove(m.used[e.peer], m.mac, e);
  }

  lemma DisownLru(m: Macs, a: Mac)
    requires MacsOk(m)
    ensures Lru(WithoutOther(m, a)) == map q | q in m.used :: Remove(Lru(m)[q], a)
  {
    hide PoolOk, Indexed, TreeOk, MacsOf;
    var t := WithoutOther(m, a);
    if a in m.tree {
      RemoveEntry(m, a);
      DisownKeeps(m, a);
    }
    forall q <- m.used ensures Lru(t)[q] == Remove(Lru(m)[q], a) {
      OneOwner(m, q, a);
    }
  }

  lemma TakeFirst(list: seq<Slot>, mac: map<Slot, Mac>)
    requires list != []
    ensures MacsOf(Remove(list, list[0]), mac) == MacsOf(list, mac)[1..]
  {
  }

  lemma PoolSize(m: Macs, p: nat)
    requires MacsOk(m) && p in m.used
    ensures p in m.free && |m.free[p]| + |m.used[p]| == m.max && (m.used[p] != [] ==> m.used[p][0] in m.mac)
  {
    assert PoolOk(m.max, p, m.free[p], m.used[p]) && Indexed(m, p);
    assert m.used[p] != [] ==> m.used[p][0] in m.used[p];
  }

  lemma TakeLru(m: Macs, p: nat)
    requires MacsOk(m) && p in m.used
    ensures p in m.free && (m.free[p] != [] || (m.used[p] != [] && m.used[p][0] in m.mac))
    ensures var l := Lru(m)[p];
      Lru(Take(m, p)) == Lru(m)[p := if |l| >= m.max && l != [] then l[1..] else l]
  {
    hide PoolOk, Indexed, TreeOk, MacsOf;
    PoolSize(m, p);
    if m.free[p] == [] {
      TakeFirst(m.used[p], m.mac);
    }
  }

  lemma UseLru(m: Macs, p: nat, e: Slot, a: Mac)
    requires p in m.used && forall q <- m.used :: e !in m.used[q]
    ensures Lru(Use(m, p, e, a)) == Lru(m)[p := Lru(m)[p] + [a]]
  {
    var t := Use(m, p, e, a);
    forall q <- m.used ensures Lru(t)[q] == if q == p then Lru(m)[p] + [a] else Lru(m)[q] {
      MacsOfOther(m.used[q], m.mac, e, a);
      MacsOfAppend(m.used[p], t.mac, e);
    }
  }

  lemma TakenIsFree(m: Macs, p: nat)
    requires MacsOk(m) && p in m.used
    ensures p in m.free && (m.free[p] != [] || (m.used[p] != [] && m.used[p][0] in m.mac))
    ensures forall q <- Take(m, p).used :: Taken(m, p) !in Take(m, p).used[q]
  {
    TakeKeeps(m, p);
    var e, t := Taken(m, p), Take(m, p);
    forall q <- t.used ensures e !in t.used[q] {
      if q != p {
        assert PoolOk(t.max, q, t.free[q], t.used[q]);
      }
    }
  }

  lemma RefreshLru(m: Macs, p: nat, a: Mac)
    requires MacsOk(m) && p in m.used && a in m.tree && m.tree[a].peer == p
    ensures Lru(Refresh(m, p, m.tree[a])) == Learn(Lru(m), m.max, p, a)
  {
    hide PoolOk, Indexed, TreeOk, MacsOf, MacsOk;
    var l, e := Lru(m), m.tree[a];
    EntryOf(m, a);
    OneOwner(m, p, a);
    RemoveEntry(m, a);
    MacsOfAppend(Remove(m.used[p], e), m.mac, e);
    forall q <- m.used ensures q != p ==> Remove(l[q], a) == l[q] {
      OneOwner(m, q, a);
    }
  }

  lemma EntryOf(m: Macs, a: Mac)
    requires MacsOk(m) && a in m.tree
    ensures m.tree[a] in m.mac && m.mac[m.tree[a]] == a
  {
  }

  // Learn, when the other peers have given the address up already.
  lemma LearnNew(l: map<nat, seq<Mac>>, max: nat, p: nat, a: Mac)
    requires p in l && a !in l[p]
    ensures var k := map q | q in l :: Remove(l[q], a);
      Learn(l, max, p, a) == k[p := (if |k[p]| >= max && k[p] != [] then k[p][1..] else k[p]) + [a]]
  {
    assert Remove(l[p], a) == l[p];
  }

  lemma AddNewLru(n: Macs, p: nat, a: Mac)
    requires MacsOk(n) && p in n.used
    ensures p in n.free && (n.free[p] != [] || (n.used[p] != [] && n.used[p][0] in n.mac)) && p in Take(n, p).used
    ensures var l := Lru(n)[p];
      Lru(Use(Take(n, p), p, Taken(n, p), a)) == Lru(n)[p := (if |l| >= n.max && l != [] then l[1..] else l) + [a]]
  {
    hide PoolOk, Indexed, TreeOk, MacsOf, Lru;
    TakeKeeps(n, p);
    TakeLru(n, p);
    TakenIsFree(n, p);
    UseLru(Take(n, p), p, Taken(n, p), a);
    LruKeys(n);
  }

  // The entries and the tree do what the simple table does.
  lemma AddMacLearns(m: Macs, p: nat, a: Mac)
    requires MacsOk(m) && p in m.used
    ensures Lru(AddMac(m, p, a)) == Learn(Lru(m), m.max, p, a)
  {
    hide PoolOk, Indexed, TreeOk, Lru, Learn, MacsOf, Take, Use;
    OneOwner(m, p, a);
    if a in m.tree && m.tree[a].peer == p {
      RefreshLru(m, p, a);
    } else {
      DisownLru(m, a);
      AddNewLru(WithoutOther(m, a), p, a);
      LruKeys(m);
      LearnNew(Lru(m), m.max, p, a);
    }
  }

  lemma LruKeys(m: Macs)
    ensures Lru(m).Keys == m.used.Keys
  {
  }

  // What the simple table promises, for the entries: after learning, a is the last address of p
  // and of nobody else; p lost at most its least recent one; nobody else lost anything but a.
  lemma LearnFacts(l: map<nat, seq<Mac>>, max: nat, p: nat, a: Mac, q: nat, b: Mac)
    requires p in l && q in l && b != a && (forall x <- l :: NoDup(l[x]) && |l[x]| <= max) && max > 0
    ensures var r := Learn(l, max, p, a);
      && r[p] != [] && r[p][|r[p]| - 1] == a && (q != p ==> a !in r[q]) && |r[p]| <= max
      && (b in r[q] ==> b in l[q])
      && (b in l[q] ==> b in r[q] || (q == p && |l[p]| == max && a !in l[p] && l[p][0] == b))
  {
    RemoveFacts(l[p], a);
    RemoveFacts(l[q], a);
    assert l[p] != [] ==> l[p] == [l[p][0]] + l[p][1..];
  }

  // FrameDeciderPeer_Init: all entries free
  function AllSlots(p: nat, n: nat): (r: seq<Slot>)
    ensures |r| == n && forall i :: 0 <= i < n ==> r[i] == Slot(p, i)
  {
    seq(n, i requires 0 <= i < n => Slot(p, i))
  }

  function AddPeer(m: Macs, p: nat): Macs {
    m.(free := m.free[p := AllSlots(p, m.max)], used := m.used[p := []])
  }

  lemma AddPeerKeeps(m: Macs, p: nat)
    requires MacsOk(m) && p !in m.used
    ensures MacsOk(AddPeer(m, p)) && Lru(AddPeer(m, p)) == Lru(m)[p := []]
  {
    hide AllSlots;
    var t := AddPeer(m, p);
    forall q <- t.used ensures PoolOk(t.max, q, t.free[q], t.used[q]) && Indexed(t, q) {
      if q != p {
        assert PoolOk(m.max, q, m.free[q], m.used[q]) && Indexed(m, q);
      }
    }
  }

  // FrameDeciderPeer_Free: the used entries leave the tree, and the peer goes.
  ghost function RemovePeer(m: Macs, p: nat): Macs
    requires p in m.used
  {
    m.(tree := map a | a in m.tree && m.tree[a].peer != p :: m.tree[a], free := m.free - {p}, used := m.used - {p})
  }

  lemma RemovePeerKeeps(m: Macs, p: nat)
    requires MacsOk(m) && p in m.used
    ensures MacsOk(RemovePeer(m, p)) && Lru(RemovePeer(m, p)) == Lru(m) - {p}
    ensures forall a <- RemovePeer(m, p).tree :: RemovePeer(m, p).tree[a].peer != p
  {
    var t := RemovePeer(m, p);
    forall q <- t.used ensures PoolOk(t.max, q, t.free[q], t.used[q]) && Indexed(t, q) {
      assert PoolOk(m.max, q, m.free[q], m.used[q]) && Indexed(m, q);
    }
  }
}
