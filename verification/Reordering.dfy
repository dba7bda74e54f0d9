// Reassembly under reordering. As long as the live frames have distinct ids and fit the
// table, and no live frame waits longer than the tolerance, the assembler delivers exactly
// the frames the ideal receiver completes, in the same order, with their original bytes.
module Reordering {
  import opened Bytes
  import opened Lists
  import opened Wrappers
  import opened FragmentPlan
  import opened IdealReceiver
  import opened AssemblerSpec
  import opened AssemblerSafety

  // Distinct numbers below n are at most n, and fewer when one of them is missing.
  lemma Pigeonhole(s: seq<nat>, n: nat)
    requires NoDup(s) && Below(s, n)
    ensures |s| <= n
  {
    PositionsSize(0, n);
    SizeOfElements(s);
    SubsetSize((set x | x in s), Positions(0, n));
  }

  lemma PigeonholeMissing(s: seq<nat>, n: nat, k: nat)
    requires NoDup(s) && Below(s, n) && k < n && k !in s
    ensures |s| < n
  {
    PositionsSize(0, n);
    SizeOfElements(s);
    SubsetSize((set x | x in s), Positions(0, n) - {k});
  }

  lemma {:induction false} SizeOfElements<T>(s: seq<T>)
    requires NoDup(s)
    ensures |set x | x in s| == |s|
  {
    if s != [] {
      SizeOfElements(s[1..]);
      assert (set x | x in s) == {s[0]} + (set x | x in s[1..]);
    }
  }

  lemma DistinctPartsApart(plan: Plan, j: nat, k: nat)
    requires plan.Valid() && j < plan.Parts() && k < plan.Parts() && j != k
    ensures !Overlap(StoredAt(plan, j), StoredAt(plan, k))
  {
  }

  lemma NewPartAccepted(plan: Plan, got: seq<nat>, f: Frame, k: nat)
    requires plan.Valid() && Holds(plan, got, f) && k < plan.Parts() && k !in got
    ensures !Rejects(f, plan.ChunkAt(k))
  {
    var c := plan.ChunkAt(k);
    forall i | 0 <= i < |f.chunks| ensures !Overlap(f.chunks[i], Stored(c.start, c.data)) {
      DistinctPartsApart(plan, got[i], k);
    }
    if c.last {
      assert plan.Whole();
      assert k == plan.Parts() - 1;
    }
  }

  lemma NewPartHeld(plan: Plan, got: seq<nat>, f: Frame, k: nat, time: nat)
    requires plan.Valid() && Holds(plan, got, f) && k < plan.Parts() && k !in got
    ensures Holds(plan, got + [k], Extend(f, plan.ChunkAt(k), time))
  {
    var c := plan.ChunkAt(k);
    if c.last {
      assert plan.Whole() && k == plan.Parts() - 1;
    }
  }

  // The part, among the first n, that covers position k.
  ghost function PartOf(plan: Plan, k: nat, n: nat): (m: nat)
    requires plan.Valid() && n <= plan.Parts() && k < plan.cuts[n]
    ensures m < n && plan.cuts[m] <= k < plan.cuts[m + 1]
    decreases n
  {
    if plan.cuts[n - 1] <= k then n - 1 else PartOf(plan, k, n - 1)
  }

  // With every part of a whole plan held, every byte is covered.
  lemma AllHeldCovered(plan: Plan, got: seq<nat>, f: Frame)
    requires plan.Valid() && Holds(plan, got, f) && plan.Whole() && |got| == plan.Parts()
    ensures forall k: nat :: k < |plan.data| ==> k in Covered(f.chunks)
  {
    forall k: nat | k < |plan.data| ensures k in Covered(f.chunks) {
      var j := CoveredBy(plan, got, f, k);
    }
  }

  lemma CoveredBy(plan: Plan, got: seq<nat>, f: Frame, k: nat) returns (j: nat)
    requires plan.Valid() && Holds(plan, got, f) && plan.Whole() && |got| == plan.Parts() && k < |plan.data|
    ensures j < |f.chunks| && f.chunks[j].Has(k)
  {
    var m := PartOf(plan, k, plan.Parts());
    if m !in got {
      PigeonholeMissing(got, plan.Parts(), m);
    }
    j :| 0 <= j < |got| && got[j] == m;
    assert f.chunks[j] == StoredAt(plan, m);
  }

  // With a part of a whole plan missing, its first byte is not covered.
  lemma MissingPartUncovered(plan: Plan, got: seq<nat>, f: Frame, m: nat)
    requires plan.Valid() && Holds(plan, got, f) && plan.Whole() && m < plan.Parts() && m !in got && got != []
    ensures plan.cuts[m] < |plan.data| && plan.cuts[m] !in Covered(f.chunks)
  {
    PigeonholeMissing(got, plan.Parts(), m);
    assert plan.cuts[m] < plan.cuts[m + 1];
    if plan.cuts[m] in Covered(f.chunks) {
      var j :| 0 <= j < |f.chunks| && f.chunks[j].Has(plan.cuts[m]);
      DistinctPartsApart(plan, got[j], m);
    }
  }

  lemma AllBelow(got: seq<nat>, n: nat)
    requires NoDup(got) && Below(got, n) && |got| != n
    ensures exists m :: 0 <= m < n && m !in got
  {
    if forall m :: 0 <= m < n ==> m in got {
      PositionsSize(0, n);
      SizeOfElements(got);
      assert Positions(0, n) <= (set x | x in got);
      SubsetSize(Positions(0, n), set x | x in got);
      Pigeonhole(got, n);
    }
  }

  // A frame holding parts of a plan is complete exactly when it holds all of a whole plan,
  // and its buffer is then the frame.
  lemma CompleteWhenAllHeld(p: Params, plan: Plan, got: seq<nat>, f: Frame)
    requires plan.Valid() && Holds(plan, got, f) && FrameOk(p, f) && got != []
    ensures |got| <= plan.Parts()
    ensures Complete(f) <==> |got| == plan.Total()
    ensures Complete(f) ==> Union(f.chunks, f.length) == plan.data
  {
    var n := plan.Parts();
    Pigeonhole(got, n);
    if plan.Whole() && |got| == n {
      AllHeldCovered(plan, got, f);
      if n - 1 !in got {
        PigeonholeMissing(got, n, n - 1);
      }
      CompletionExact(f.chunks, |plan.data|);
      HeldUnion(plan, got, f);
    } else if f.length >= 0 {
      AllBelow(got, n);
      var m :| 0 <= m < n && m !in got;
      MissingPartUncovered(plan, got, f, m);
      CompletionExact(f.chunks, f.length);
    }
  }

  lemma HeldByte(plan: Plan, got: seq<nat>, f: Frame, j: nat, k: nat)
    requires plan.Valid() && Holds(plan, got, f) && Disjoint(f.chunks)
    requires k < |plan.data| && j < |f.chunks| && f.chunks[j].Has(k)
    ensures ByteAt(f.chunks, k) == plan.data[k]
  {
    ByteAtCovered(f.chunks, j, k);
    var c := StoredAt(plan, got[j]);
    assert c.data[k - c.start] == plan.data[k];
  }

  lemma HeldUnion(plan: Plan, got: seq<nat>, f: Frame)
    requires plan.Valid() && Holds(plan, got, f) && Disjoint(f.chunks)
    requires forall k: nat :: k < |plan.data| ==> k in Covered(f.chunks)
    ensures Union(f.chunks, |plan.data|) == plan.data
  {
    var u := Union(f.chunks, |plan.data|);
    forall k: nat | k < |plan.data| ensures u[k] == plan.data[k] {
      assert k in Covered(f.chunks);
      var j :| 0 <= j < |f.chunks| && f.chunks[j].Has(k);
      HeldByte(plan, got, f, j, k);
    }
  }

  // The entry the assembler uses for part a, before the part is added.
  lemma ObtainMirrors(plans: seq<Plan>, t: Ideal, s: State, a: Part)
    requires Mirrors(plans, t, s) && Fits(plans, s.params) && Tolerable(plans, s.params, t, a)
    ensures var i, u := Find(t.live, a.frame), Obtain(s, plans[a.frame].id);
      && IndexOf(u.used, plans[a.frame].id) == i
      && u == s.(used := if i < |t.live| then s.used else s.used + [Frame(plans[a.frame].id, s.time, [], 0, -1, 0)])
  {
    var i, id := Find(t.live, a.frame), plans[a.frame].id;
    if i < |t.live| {
      assert MirrorsEntry(plans, t, s, t.live[i], s.used[i]);
      ObtainKnown(s, id, i);
    } else {
      forall j | 0 <= j < |s.used| ensures s.used[j].id != id {
        OtherId(plans, t, s, a, j);
      }
      ObtainNew(s, id);
    }
  }

  lemma OtherId(plans: seq<Plan>, t: Ideal, s: State, a: Part, j: nat)
    requires Mirrors(plans, t, s) && Tolerable(plans, s.params, t, a) && j < |s.used| && t.live[j].frame != a.frame
    ensures s.used[j].id != plans[a.frame].id
  {
    assert MirrorsEntry(plans, t, s, t.live[j], s.used[j]);
    assert t.live[j] in t.live;
  }

  // The parts of frame a.frame that had arrived, and the table with an entry for it.
  ghost function GotBefore(t: Ideal, frame: nat): seq<nat> {
    var i := Find(t.live, frame);
    if i < |t.live| then t.live[i].got else []
  }

  ghost function UsedWith(plans: seq<Plan>, t: Ideal, s: State, frame: nat): seq<Frame>
    requires frame < |plans|
  {
    if Find(t.live, frame) < |t.live| then s.used
    else s.used + [Frame(plans[frame].id, s.time, [], 0, -1, 0)]
  }

  // Adding a missing part to an entry that holds some parts of a plan.
  lemma ApplyPart(u: State, i: nat, plan: Plan, got: seq<nat>, k: nat)
    requires i < |u.used| && plan.Valid() && Holds(plan, got, u.used[i]) && k < plan.Parts() && k !in got
    requires FrameOk(u.params, u.used[i]) && |plan.data| <= u.params.outputMtu && plan.Total() <= u.params.numChunks
    ensures Holds(plan, got + [k], Extend(u.used[i], plan.ChunkAt(k), u.time))
    ensures Apply(u, i, plan.ChunkAt(k)) ==
      if |got| + 1 == plan.Total() then (u.(used := Without(u.used, i)), Some(plan.data))
      else (u.(used := u.used[i := Extend(u.used[i], plan.ChunkAt(k), u.time)]), None)
  {
    var c := plan.ChunkAt(k);
    var f := u.used[i];
    var g := Extend(f, c, u.time);
    NewPartAccepted(plan, got, f, k);
    NewPartHeld(plan, got, f, k, u.time);
    ExtendKeeps(u.params, f, c, u.time);
    CompleteWhenAllHeld(u.params, plan, got + [k], g);
    assert |g.chunks| == |got| + 1;
  }

  // What process_chunk does with a tolerable part.
  lemma PartProcessed(plans: seq<Plan>, t: Ideal, s: State, a: Part) returns (s1: State, sent: Option<seq<byte>>)
    requires Mirrors(plans, t, s) && Fits(plans, s.params) && Tolerable(plans, s.params, t, a)
    ensures ProcessChunk(s, plans[a.frame].ChunkAt(a.k)) == (s1, sent) && Inv(s1)
    ensures var plan, i, u, got := plans[a.frame], Find(t.live, a.frame), UsedWith(plans, t, s, a.frame), GotBefore(t, a.frame) + [a.k];
      i < |u| &&
      var g := Extend(u[i], plan.ChunkAt(a.k), s.time);
      && Holds(plan, got, g)
      && s1 == s.(used := if |got| == plan.Total() then Without(u, i) else u[i := g])
      && sent == if |got| == plan.Total() then Some(plan.data) else None
  {
    var plan, i := plans[a.frame], Find(t.live, a.frame);
    ObtainMirrors(plans, t, s, a);
    ObtainKeeps(s, plan.id);
    ProcessChunkKeeps(s, plan.ChunkAt(a.k));
    var u := Obtain(s, plan.id);
    if i < |t.live| {
      assert MirrorsEntry(plans, t, s, t.live[i], s.used[i]);
    }
    assert u.used[i] in u.used;
    ApplyPart(u, i, plan, GotBefore(t, a.frame), a.k);
    var r := Apply(u, i, plan.ChunkAt(a.k));
    s1, sent := r.0, r.1;
  }

  // One part: the assembler does what the ideal receiver does.
  lemma ChunkMirrors(plans: seq<Plan>, t: Ideal, s: State, a: Part) returns (s1: State, sent: Option<seq<byte>>)
    requires Mirrors(plans, t, s) && Fits(plans, s.params) && Tolerable(plans, s.params, t, a)
    ensures ProcessChunk(s, plans[a.frame].ChunkAt(a.k)) == (s1, sent)
    ensures Mirrors(plans, Receive(plans, t, a), s1) && s1.params == s.params
    ensures Receive(plans, t, a).done == t.done + (if sent.Some? then [a.frame] else [])
    ensures sent.Some? ==> sent.value == plans[a.frame].data
  {
    s1, sent := PartProcessed(plans, t, s, a);
    StepMirrors(plans, t, s, a, s1);
  }

  lemma StepMirrors(plans: seq<Plan>, t: Ideal, s: State, a: Part, s': State)
    requires Mirrors(plans, t, s) && Tolerable(plans, s.params, t, a)
    requires var i, u, got := Find(t.live, a.frame), UsedWith(plans, t, s, a.frame), GotBefore(t, a.frame) + [a.k];
      i < |u| &&
      var g := Extend(u[i], plans[a.frame].ChunkAt(a.k), s.time);
      && Holds(plans[a.frame], got, g)
      && s' == s.(used := if |got| == plans[a.frame].Total() then Without(u, i) else u[i := g])
    requires Inv(s')
    ensures Mirrors(plans, Receive(plans, t, a), s')
  {
    var plan, i, u, got := plans[a.frame], Find(t.live, a.frame), UsedWith(plans, t, s, a.frame), GotBefore(t, a.frame) + [a.k];
    var t' := Receive(plans, t, a);
    var l, g := Live(a.frame, got, t.clock), Extend(u[i], plan.ChunkAt(a.k), s.time);
    if |got| == plan.Total() {
      if i < |t.live| {
        RemoveMirrors(plans, t, s, i, t', s');
      } else {
        assert Without(u, i) == s.used;
        DoneMirrors(plans, t, s, a.frame, t');
      }
    } else {
      assert MirrorsEntry(plans, t', s', l, g);
      if i < |t.live| {
        ReplaceMirrors(plans, t, s, i, l, g, t', s');
      } else {
        assert u[i := g] == s.used + [g];
        AppendMirrors(plans, t, s, l, g, t', s');
      }
    }
  }

  lemma RemoveMirrors(plans: seq<Plan>, t: Ideal, s: State, i: nat, t': Ideal, s': State)
    requires Mirrors(plans, t, s) && i < |t.live|
    requires Inv(s') && s'.time == s.time && s'.used == Without(s.used, i)
    requires t'.clock == t.clock && t'.live == t.live[..i] + t.live[i + 1..] && t'.done == t.done + [t.live[i].frame]
    ensures Mirrors(plans, t', s')
  {
    forall j | 0 <= j < |t'.live| ensures MirrorsEntry(plans, t', s', t'.live[j], s'.used[j]) {
      var m := if j < i then j else j + 1;
      assert t'.live[j] == t.live[m] && s'.used[j] == s.used[m];
      assert MirrorsEntry(plans, t, s, t.live[m], s.used[m]);
      assert t.live[m].frame != t.live[i].frame;
    }
  }

  lemma DoneMirrors(plans: seq<Plan>, t: Ideal, s: State, frame: nat, t': Ideal)
    requires Mirrors(plans, t, s) && Find(t.live, frame) == |t.live|
    requires t' == t.(done := t.done + [frame])
    ensures Mirrors(plans, t', s)
  {
    forall j | 0 <= j < |t.live| ensures MirrorsEntry(plans, t', s, t.live[j], s.used[j]) {
      assert MirrorsEntry(plans, t, s, t.live[j], s.used[j]);
    }
  }

  lemma ReplaceMirrors(plans: seq<Plan>, t: Ideal, s: State, i: nat, l: Live, g: Frame, t': Ideal, s': State)
    requires Mirrors(plans, t, s) && i < |t.live| && l.frame == t.live[i].frame
    requires t' == t.(live := t.live[i := l])
    requires Inv(s') && s'.time == s.time && s'.used == s.used[i := g]
    requires MirrorsEntry(plans, t', s', l, g)
    ensures Mirrors(plans, t', s')
  {
    forall j | 0 <= j < |t'.live| ensures MirrorsEntry(plans, t', s', t'.live[j], s'.used[j]) {
      if j != i {
        assert MirrorsEntry(plans, t, s, t.live[j], s.used[j]);
      }
    }
  }

  lemma AppendMirrors(plans: seq<Plan>, t: Ideal, s: State, l: Live, g: Frame, t': Ideal, s': State)
    requires Mirrors(plans, t, s) && Find(t.live, l.frame) == |t.live|
    requires t' == t.(live := t.live + [l])
    requires Inv(s') && s'.time == s.time && s'.used == s.used + [g]
    requires MirrorsEntry(plans, t', s', l, g)
    ensures Mirrors(plans, t', s')
  {
    forall j | 0 <= j < |t'.live| ensures MirrorsEntry(plans, t', s', t'.live[j], s'.used[j]) {
      if j < |t.live| {
        assert MirrorsEntry(plans, t, s, t.live[j], s.used[j]);
      }
    }
  }

  ghost function DataOf(plans: seq<Plan>, frames: seq<nat>): (r: seq<seq<byte>>)
    requires Below(frames, |plans|)
    ensures |r| == |frames|
    ensures forall i :: 0 <= i < |frames| ==> r[i] == plans[frames[i]].data
  {
    seq(|frames|, i requires 0 <= i < |frames| => plans[frames[i]].data)
  }

  lemma DataOfAppend(plans: seq<Plan>, a: seq<nat>, b: seq<nat>)
    requires Below(a, |plans|) && Below(b, |plans|)
    ensures Below(a + b, |plans|) && DataOf(plans, a + b) == DataOf(plans, a) + DataOf(plans, b)
  {
  }

  lemma {:induction false} TolerableExist(plans: seq<Plan>, p: Params, t: Ideal, parts: seq<Part>)
    requires TolerableParts(plans, p, t, parts)
    ensures PartsExist(plans, parts)
    decreases |parts|
  {
    if parts != [] {
      TolerableExist(plans, p, Receive(plans, t, parts[0]), parts[1..]);
      assert forall j :: 1 <= j < |parts| ==> parts[j] == parts[1..][j - 1];
    }
  }

  // The end of a packet: nobody live is timed out, so nobody is dropped and all age by one.
  lemma TickMirrors(plans: seq<Plan>, t: Ideal, s: State)
    requires Mirrors(plans, t, s)
    requires forall l :: l in t.live ==> t.clock - l.at <= s.params.numFrames
    ensures Mirrors(plans, t.(clock := t.clock + 1), Tick(s)) && Tick(s).params == s.params
  {
    TickFaithful(s);
    forall i | 0 <= i < |s.used| ensures !TimedOut(s, s.used[i]) {
      assert MirrorsEntry(plans, t, s, t.live[i], s.used[i]);
      assert t.live[i] in t.live;
    }
    NoneDropped(s, s.used);
    AgedMirrors(plans, t, s, Tick(s));
  }

  lemma AgedMirrors(plans: seq<Plan>, t: Ideal, s: State, s': State)
    requires Mirrors(plans, t, s) && Inv(s') && |s'.used| == |s.used|
    requires forall i :: 0 <= i < |s.used| ==> (
      && s'.used[i] == s.used[i].(time := s'.used[i].time)
      && s'.time - s'.used[i].time == s.time - s.used[i].time + 1)
    ensures Mirrors(plans, t.(clock := t.clock + 1), s')
  {
    var t' := t.(clock := t.clock + 1);
    forall i | 0 <= i < |t.live| ensures MirrorsEntry(plans, t', s', t.live[i], s'.used[i]) {
      assert MirrorsEntry(plans, t, s, t.live[i], s.used[i]);
    }
  }

  lemma {:induction false} NoneDropped(s: State, used: seq<Frame>)
    requires forall i :: 0 <= i < |used| ==> !TimedOut(s, used[i])
    ensures DropTimedOut(s, used) == used
  {
    if used != [] {
      NoneDropped(s, used[1..]);
    }
  }

  // The completed frames are distinct frames of the plan.
  ghost predicate DoneOk(plans: seq<Plan>, t: Ideal) {
    NoDup(t.done) && Below(t.done, |plans|)
  }

  // The frames completed since t.
  ghost function Since(t: Ideal, t': Ideal): seq<nat>
    requires t.done <= t'.done
  {
    t'.done[|t.done|..]
  }

  lemma SinceSplit(t: Ideal, t1: Ideal, t2: Ideal)
    requires t.done <= t1.done <= t2.done
    ensures Since(t, t2) == Since(t, t1) + Since(t1, t2)
  {
  }

  lemma {:induction false} PartsDone(plans: seq<Plan>, p: Params, t: Ideal, parts: seq<Part>)
    requires TolerableParts(plans, p, t, parts) && DoneOk(plans, t)
    ensures DoneOk(plans, ReceiveParts(plans, p, t, parts))
    ensures t.done <= ReceiveParts(plans, p, t, parts).done
    decreases |parts|
  {
    if parts != [] {
      PartsDone(plans, p, Receive(plans, t, parts[0]), parts[1..]);
    }
  }

  lemma {:induction false} RunDone(plans: seq<Plan>, p: Params, t: Ideal, packets: seq<seq<Part>>)
    requires TolerableRun(plans, p, t, packets) && DoneOk(plans, t)
    ensures DoneOk(plans, ReceiveRun(plans, p, t, packets))
    ensures t.done <= ReceiveRun(plans, p, t, packets).done
    decreases |packets|
  {
    if packets != [] {
      PartsDone(plans, p, t, packets[0]);
      RunDone(plans, p, ReceivePacket(plans, p, t, packets[0]), packets[1..]);
    }
  }

  lemma ChunksOfTail(plans: seq<Plan>, parts: seq<Part>)
    requires parts != [] && PartsExist(plans, parts)
    ensures PartsExist(plans, parts[1..])
    ensures ChunksOf(plans, parts)[1..] == ChunksOf(plans, parts[1..])
  {
  }

  // The first part of several: the table s1 it leaves and what it delivers.
  lemma FirstPartMirrors(plans: seq<Plan>, t: Ideal, s: State, parts: seq<Part>) returns (s1: State, sent: Option<seq<byte>>)
    requires Mirrors(plans, t, s) && Fits(plans, s.params)
    requires parts != [] && PartsExist(plans, parts) && Tolerable(plans, s.params, t, parts[0])
    ensures Mirrors(plans, Receive(plans, t, parts[0]), s1) && s1.params == s.params
    ensures Receive(plans, t, parts[0]).done == t.done + (if sent.Some? then [parts[0].frame] else [])
    ensures sent.Some? ==> sent.value == plans[parts[0].frame].data
    ensures Inv(s1) && PartsExist(plans, parts[1..])
    ensures ProcessChunks(s, ChunksOf(plans, parts)) ==
      (ProcessChunks(s1, ChunksOf(plans, parts[1..])).0, SentList(sent) + ProcessChunks(s1, ChunksOf(plans, parts[1..])).1)
  {
    s1, sent := ChunkMirrors(plans, t, s, parts[0]);
    var cs := ChunksOf(plans, parts);
    ChunksOfTail(plans, parts);
    ProcessChunksCons(s, cs, s1, sent);
  }

  lemma SentSince(plans: seq<Plan>, t: Ideal, t1: Ideal, t2: Ideal, frame: nat, sent: Option<seq<byte>>)
    requires DoneOk(plans, t2) && t1.done <= t2.done && frame < |plans|
    requires t1.done == t.done + (if sent.Some? then [frame] else [])
    requires sent.Some? ==> sent.value == plans[frame].data
    ensures DoneOk(plans, t1) && t.done <= t2.done
    ensures DataOf(plans, Since(t, t2)) == SentList(sent) + DataOf(plans, Since(t1, t2))
  {
    SinceSplit(t, t1, t2);
    assert DataOf(plans, Since(t, t1)) == SentList(sent);
    DataOfAppend(plans, Since(t, t1), Since(t1, t2));
  }

  // The parts of one packet: the assembler does what the ideal receiver does.
  lemma {:induction false} PartsMirror(plans: seq<Plan>, t: Ideal, s: State, parts: seq<Part>)
    requires Mirrors(plans, t, s) && Fits(plans, s.params) && TolerableParts(plans, s.params, t, parts) && DoneOk(plans, t)
    ensures PartsExist(plans, parts)
    ensures var r, t' := ProcessChunks(s, ChunksOf(plans, parts)), ReceiveParts(plans, s.params, t, parts);
      && Mirrors(plans, t', r.0)
      && t.done <= t'.done && DoneOk(plans, t')
      && r.1 == DataOf(plans, Since(t, t'))
    decreases |parts|
  {
    TolerableExist(plans, s.params, t, parts);
    PartsDone(plans, s.params, t, parts);
    if parts != [] {
      var s1, sent := FirstPartMirrors(plans, t, s, parts);
      var t1 := Receive(plans, t, parts[0]);
      PartsMirror(plans, t1, s1, parts[1..]);
      SentSince(plans, t, t1, ReceiveParts(plans, s.params, t, parts), parts[0].frame, sent);
    }
  }

  lemma PacketMirrors(plans: seq<Plan>, t: Ideal, s: State, parts: seq<Part>)
    requires Mirrors(plans, t, s) && Fits(plans, s.params) && TolerablePacket(plans, s.params, t, parts) && DoneOk(plans, t)
    ensures PartsExist(plans, parts)
    ensures var r, t' := ProcessPacket(s, Wire(plans, parts)), ReceivePacket(plans, s.params, t, parts);
      && Mirrors(plans, t', r.0) && r.0.params == s.params
      && t.done <= t'.done && DoneOk(plans, t')
      && r.1 == DataOf(plans, Since(t, t'))
  {
    PartsMirror(plans, t, s, parts);
    var cs := ChunksOf(plans, parts);
    PacketIsChunks(s, cs);
    TickMirrors(plans, ReceiveParts(plans, s.params, t, parts), ProcessChunks(s, cs).0);
  }

  // Main result: for every tolerable run of packets the assembler, from any table that
  // mirrors the ideal receiver, delivers exactly the frames the ideal receiver completes,
  // in that order, each with its original bytes.
  lemma {:induction false} RunMirrors(plans: seq<Plan>, t: Ideal, s: State, packets: seq<seq<Part>>)
    requires Mirrors(plans, t, s) && Fits(plans, s.params) && TolerableRun(plans, s.params, t, packets) && DoneOk(plans, t)
    ensures PacketsExist(plans, packets)
    ensures var r, t' := ProcessRun(s, WireRun(plans, packets)), ReceiveRun(plans, s.params, t, packets);
      && Mirrors(plans, t', r.0)
      && t.done <= t'.done && DoneOk(plans, t')
      && r.1 == DataOf(plans, Since(t, t'))
    decreases |packets|
  {
    RunDone(plans, s.params, t, packets);
    if packets != [] {
      PacketMirrors(plans, t, s, packets[0]);
      var r1 := ProcessPacket(s, Wire(plans, packets[0]));
      var t1 := ReceivePacket(plans, s.params, t, packets[0]);
      RunMirrors(plans, t1, r1.0, packets[1..]);
      WireRunCons(plans, packets);
      ProcessRunCons(s, Wire(plans, packets[0]), WireRun(plans, packets[1..]));
      var t' := ReceiveRun(plans, s.params, t, packets);
      SinceSplit(t, t1, t');
      DataOfAppend(plans, Since(t, t1), Since(t1, t'));
    }
  }

  lemma WireRunCons(plans: seq<Plan>, packets: seq<seq<Part>>)
    requires packets != [] && PartsExist(plans, packets[0]) && PacketsExist(plans, packets[1..])
    ensures PacketsExist(plans, packets)
    ensures WireRun(plans, packets) == [Wire(plans, packets[0])] + WireRun(plans, packets[1..])
  {
    forall i | 0 <= i < |packets| ensures PartsExist(plans, packets[i]) {
      if i > 0 {
        assert packets[1..][i - 1] == packets[i];
      }
    }
    var w := WireRun(plans, packets);
    assert w[1..] == WireRun(plans, packets[1..]);
  }

  ghost predicate ArrivesIn(packets: seq<seq<Part>>, a: Part) {
    exists i :: 0 <= i < |packets| && a in packets[i]
  }

  // A part that arrived is in a completed frame or held by a live one.
  ghost predicate Accounted(t: Ideal, a: Part) {
    a.frame in t.done || exists i :: 0 <= i < |t.live| && t.live[i].frame == a.frame && a.k in t.live[i].got
  }

  lemma ReceiveAccounts(plans: seq<Plan>, p: Params, t: Ideal, a: Part)
    requires Tolerable(plans, p, t, a)
    ensures Accounted(Receive(plans, t, a), a)
    ensures forall b :: Accounted(t, b) ==> Accounted(Receive(plans, t, a), b)
  {
    var t', i := Receive(plans, t, a), Find(t.live, a.frame);
    if |t'.done| == |t.done| {
      assert t'.live[i].frame == a.frame && a.k in t'.live[i].got;
    }
    forall b | Accounted(t, b) ensures Accounted(t', b) {
      if b.frame !in t.done {
        var j :| 0 <= j < |t.live| && t.live[j].frame == b.frame && b.k in t.live[j].got;
        if |t'.done| > |t.done| {
          if j != i && i < |t.live| {
            assert t'.live[if j < i then j else j - 1] == t.live[j];
          }
        } else if j != i {
          assert t'.live[j] == t.live[j];
        }
      }
    }
  }

  lemma {:induction false} PartsAccounted(plans: seq<Plan>, p: Params, t: Ideal, parts: seq<Part>)
    requires TolerableParts(plans, p, t, parts)
    ensures forall b :: Accounted(t, b) || b in parts ==> Accounted(ReceiveParts(plans, p, t, parts), b)
    decreases |parts|
  {
    if parts != [] {
      ReceiveAccounts(plans, p, t, parts[0]);
      PartsAccounted(plans, p, Receive(plans, t, parts[0]), parts[1..]);
    }
  }

  lemma {:induction false} RunAccounted(plans: seq<Plan>, p: Params, t: Ideal, packets: seq<seq<Part>>)
    requires TolerableRun(plans, p, t, packets)
    ensures forall b :: Accounted(t, b) || ArrivesIn(packets, b) ==> Accounted(ReceiveRun(plans, p, t, packets), b)
    decreases |packets|
  {
    if packets != [] {
      PartsAccounted(plans, p, t, packets[0]);
      var t1 := ReceivePacket(plans, p, t, packets[0]);
      RunAccounted(plans, p, t1, packets[1..]);
      forall b | Accounted(t, b) || ArrivesIn(packets, b)
        ensures Accounted(ReceiveRun(plans, p, t, packets), b)
      {
        if Accounted(t, b) || b in packets[0] {
          assert Accounted(ReceiveParts(plans, p, t, packets[0]), b);
          assert Accounted(t1, b);
        } else {
          var i :| 0 <= i < |packets| && b in packets[i];
          assert packets[1..][i - 1] == packets[i];
        }
      }
    }
  }

  // A frame all of whose parts have arrived is completed.
  lemma FullyArrivedIsDone(plans: seq<Plan>, t: Ideal, s: State, frame: nat)
    requires Mirrors(plans, t, s) && frame < |plans| && plans[frame].Valid() && plans[frame].Whole()
    requires forall k :: 0 <= k < plans[frame].Parts() ==> Accounted(t, Part(frame, k))
    ensures frame in t.done
  {
    if frame !in t.done {
      assert Accounted(t, Part(frame, 0));
      var i :| 0 <= i < |t.live| && t.live[i].frame == frame;
      LiveIsIncomplete(plans, t, s, i);
      var k :| 0 <= k < plans[frame].Total() && k !in t.live[i].got;
      HeldByEntry(plans, t, s, i, k);
    }
  }

  lemma HeldByEntry(plans: seq<Plan>, t: Ideal, s: State, i: nat, k: nat)
    requires Mirrors(plans, t, s) && i < |t.live|
    requires Accounted(t, Part(t.live[i].frame, k))
    ensures k in t.live[i].got
  {
    assert MirrorsEntry(plans, t, s, t.live[i], s.used[i]);
    var j :| 0 <= j < |t.live| && t.live[j].frame == t.live[i].frame && k in t.live[j].got;
    assert j == i;
  }

  lemma LiveIsIncomplete(plans: seq<Plan>, t: Ideal, s: State, i: nat)
    requires Mirrors(plans, t, s) && i < |t.live|
    ensures exists k :: 0 <= k < plans[t.live[i].frame].Total() && k !in t.live[i].got
  {
    var got, f := t.live[i].got, s.used[i];
    assert MirrorsEntry(plans, t, s, t.live[i], f);
    assert f in s.used && Waiting(s.params, f);
    var plan := plans[t.live[i].frame];
    if got == [] {
      assert 0 !in got;
    } else {
      CompleteWhenAllHeld(s.params, plan, got, f);
      AllBelow(got, plan.Total());
    }
  }

  const START: Ideal := Ideal(0, [], [])

  // Reassembly in any order: when every part of every frame arrives, in packets whose order
  // the assembler tolerates, every frame is delivered exactly once with its original bytes.
  lemma Reassembly(plans: seq<Plan>, p: Params, packets: seq<seq<Part>>)
    requires p.Valid() && Fits(plans, p) && TolerableRun(plans, p, START, packets)
    requires forall i :: 0 <= i < |plans| ==> plans[i].Whole()
    requires forall i, k :: 0 <= i < |plans| && 0 <= k < plans[i].Parts() ==> ArrivesIn(packets, Part(i, k))
    ensures PacketsExist(plans, packets)
    ensures var order := ReceiveRun(plans, p, START, packets).done;
      && NoDup(order) && |order| == |plans|
      && (forall i :: 0 <= i < |plans| ==> i in order)
      && Below(order, |plans|)
      && ProcessRun(Init(p), WireRun(plans, packets)).1 == DataOf(plans, order)
  {
    RunMirrors(plans, START, Init(p), packets);
    RunAccounted(plans, p, START, packets);
    var t := ReceiveRun(plans, p, START, packets);
    assert Since(START, t) == t.done;
    forall i, k | 0 <= i < |plans| && 0 <= k < plans[i].Parts() ensures Accounted(t, Part(i, k)) {
      assert ArrivesIn(packets, Part(i, k));
    }
    AllDone(plans, t, ProcessRun(Init(p), WireRun(plans, packets)).0);
  }

  lemma AllDone(plans: seq<Plan>, t: Ideal, s: State)
    requires Mirrors(plans, t, s) && DoneOk(plans, t)
    requires forall i :: 0 <= i < |plans| ==> plans[i].Valid() && plans[i].Whole()
    requires forall i, k :: 0 <= i < |plans| && 0 <= k < plans[i].Parts() ==> Accounted(t, Part(i, k))
    ensures |t.done| == |plans|
    ensures forall i :: 0 <= i < |plans| ==> i in t.done
  {
    forall i: nat | i < |plans| ensures i in t.done {
      FullyArrivedIsDone(plans, t, s, i);
    }
    if |t.done| != |plans| {
      AllBelow(t.done, |plans|);
    }
  }
}
