// However full of leftovers the assembler's table is, the chunks of one frame, in order, make it
// deliver at most one frame, and none once the frame's first chunk was rejected.
module OneDelivery {
  import opened FragmentProto
  import opened FragmentPlan
  import opened PartOrder
  import opened AssemblerSpec
  import opened AssemblerSafety

  // No entry with the id has a chunk from the start of a frame, or an empty frame.
  ghost predicate NoStart(s: State, id: nat) {
    forall f <- s.used :: f.id == id ==> Headless(f)
  }

  ghost predicate Headless(f: Frame) {
    f.length != 0 && forall i :: 0 <= i < |f.chunks| ==> f.chunks[i].start > 0
  }

  lemma HeadlessIncomplete(p: Params, f: Frame)
    requires FrameOk(p, f) && Headless(f)
    ensures !Complete(f)
  {
    if f.length > 0 {
      CompletionExact(f.chunks, f.length);
      assert forall i :: 0 <= i < |f.chunks| ==> !f.chunks[i].Has(0);
      var first: nat := 0;
      assert first !in Covered(f.chunks) && first < f.length;
    }
  }

  lemma ObtainHeadless(s: State, id: nat)
    requires Inv(s) && id < 0x1_0000 && NoStart(s, id)
    ensures NoStart(Obtain(s, id), id)
  {
    var i := IndexOf(s.used, id);
    if i == |s.used| {
      AllocatedHeadless(s, id);
    } else if TimedOut(s, s.used[i]) {
      WithoutKeeps(s, i);
      AllocatedHeadless(s.(used := Without(s.used, i)), id);
    }
  }

  lemma AllocatedHeadless(s: State, id: nat)
    requires s.params.Valid() && NoStart(s, id)
    ensures NoStart(Allocate(s, id), id)
  {
    var u := Allocate(s, id).used;
    forall f | f in u && f.id == id ensures Headless(f) {
      var j :| 0 <= j < |u| && u[j] == f;
      if j < |u| - 1 {
        assert u[j] in s.used;
      }
    }
  }

  // A later chunk of a frame whose start is missing completes nothing.
  lemma LaterChunk(s: State, c: Chunk)
    requires Inv(s) && c.id < 0x1_0000 && c.start > 0 && NoStart(s, c.id)
    ensures ProcessChunk(s, c).1.None? && NoStart(ProcessChunk(s, c).0, c.id)
  {
    if c.End() <= s.params.outputMtu {
      ObtainHeadless(s, c.id);
      ObtainKeeps(s, c.id);
      var t := Obtain(s, c.id);
      var i := IndexOf(t.used, c.id);
      assert t.used[i] in t.used;
      WithoutKeeps(t, i);
      if !Rejects(t.used[i], c) {
        var g := Extend(t.used[i], c, t.time);
        ExtendKeeps(t.params, t.used[i], c, t.time);
        HeadlessIncomplete(t.params, g);
        Replaced(t, i, g);
      }
    }
  }

  lemma Replaced(t: State, i: nat, g: Frame)
    requires i < |t.used| && Headless(g) && NoStart(t, g.id)
    ensures NoStart(t.(used := t.used[i := g]), g.id)
  {
    var u := t.used[i := g];
    forall f | f in u && f.id == g.id ensures Headless(f) {
      var j :| 0 <= j < |u| && u[j] == f;
      if j != i {
        assert t.used[j] in t.used;
      }
    }
  }

  // A delivered frame's id is in no entry any more.
  lemma Delivering(s: State, c: Chunk)
    requires Inv(s) && c.id < 0x1_0000 && ProcessChunk(s, c).1.Some?
    ensures NoStart(ProcessChunk(s, c).0, c.id)
  {
    DeliveredIsUnion(s, c);
  }

  lemma TickHeadless(s: State, id: nat)
    requires Inv(s) && NoStart(s, id)
    ensures Inv(Tick(s)) && NoStart(Tick(s), id)
  {
    TickFaithful(s);
    var t, kept := Tick(s), Survivors(s);
    DropTimedOutIn(s, s.used);
    forall f | f in t.used && f.id == id ensures Headless(f) {
      var j :| 0 <= j < |t.used| && t.used[j] == f;
      assert kept[j] in kept;
    }
  }

  // How many frames start among the parts.
  function Starts(parts: seq<Part>): nat {
    if parts == [] then 0 else (if parts[0].k == 0 then 1 else 0) + Starts(parts[1..])
  }

  lemma {:induction false} StartsAppend(a: seq<Part>, b: seq<Part>)
    ensures Starts(a + b) == Starts(a) + Starts(b)
  {
    if a == [] {
      assert a + b == b;
    } else {
      assert (a + b)[1..] == a[1..] + b;
      StartsAppend(a[1..], b);
    }
  }

  // The parts of a chain start the frames between its ends.
  lemma {:induction false} StartsCount(plans: seq<Plan>, from: Part, parts: seq<Part>)
    requires Chain(plans, from, parts)
    ensures var end := End(plans, from, parts);
      from.frame + (if from.k > 0 then 1 else 0) + Starts(parts) == end.frame + (if end.k > 0 then 1 else 0)
    decreases |parts|
  {
    if parts != [] {
      StartsCount(plans, Succ(plans, from), parts[1..]);
    }
  }

  // Where the assembler is in the frame of `pos`: `left` is how many frames the chunks of that
  // frame may still make it deliver.
  ghost predicate Open(plans: seq<Plan>, s: State, pos: Part, left: nat) {
    && left <= 1
    && (left == 0 && pos.k > 0 && pos.frame < |plans| ==> NoStart(s, plans[pos.frame].id))
  }

  lemma OnePart(plans: seq<Plan>, s: State, pos: Part, left: nat) returns (after: nat)
    requires Inv(s) && PartExists(plans, pos) && Open(plans, s, pos, left)
    ensures var r := ProcessChunk(s, plans[pos.frame].ChunkAt(pos.k));
      && Inv(r.0) && Open(plans, r.0, Succ(plans, pos), after)
      && |SentList(r.1)| + after <= (if pos.k == 0 then 1 else left)
  {
    var plan := plans[pos.frame];
    var c := plan.ChunkAt(pos.k);
    ProcessChunkKeeps(s, c);
    if ProcessChunk(s, c).1.Some? {
      Delivering(s, c);
      after := 0;
      if pos.k > 0 && left == 0 {
        assert plan.cuts[0] < plan.cuts[pos.k];
        LaterChunk(s, c);
      }
    } else if pos.k > 0 && left == 0 {
      assert plan.cuts[0] < plan.cuts[pos.k];
      LaterChunk(s, c);
      after := 0;
    } else {
      after := 1;
    }
  }

  // The parts of one packet: at most one frame for each that starts, and one for the open frame.
  lemma {:induction false} PartsBound(plans: seq<Plan>, s: State, pos: Part, parts: seq<Part>, left: nat) returns (after: nat)
    requires Inv(s) && Chain(plans, pos, parts) && PartsExist(plans, parts) && Open(plans, s, pos, left)
    ensures var r := ProcessChunks(s, ChunksOf(plans, parts));
      && Open(plans, r.0, End(plans, pos, parts), after)
      && |r.1| + after <= left + Starts(parts)
    decreases |parts|
  {
    if parts == [] {
      after := left;
    } else {
      assert PartExists(plans, parts[0]);
      var mid := OnePart(plans, s, pos, left);
      var cs := ChunksOf(plans, parts);
      var (t, sent) := ProcessChunk(s, cs[0]);
      ProcessChunkKeeps(s, cs[0]);
      assert forall j :: 0 <= j < |parts| - 1 ==> parts[1..][j] == parts[j + 1];
      assert cs[1..] == ChunksOf(plans, parts[1..]);
      after := PartsBound(plans, t, Succ(plans, pos), parts[1..], mid);
      ProcessChunksCons(s, cs, t, sent);
    }
  }

  lemma PacketBound(plans: seq<Plan>, s: State, pos: Part, parts: seq<Part>, left: nat) returns (after: nat)
    requires Inv(s) && Chain(plans, pos, parts) && PartsExist(plans, parts) && Open(plans, s, pos, left)
    ensures var r := ProcessPacket(s, Wire(plans, parts));
      && Open(plans, r.0, End(plans, pos, parts), after)
      && |r.1| + after <= left + Starts(parts)
  {
    after := PartsBound(plans, s, pos, parts, left);
    PacketIsChunks(s, ChunksOf(plans, parts));
    TickOpen(plans, ProcessChunks(s, ChunksOf(plans, parts)).0, End(plans, pos, parts), after);
  }

  lemma TickOpen(plans: seq<Plan>, s: State, pos: Part, left: nat)
    requires Inv(s) && Open(plans, s, pos, left)
    ensures Open(plans, Tick(s), pos, left)
  {
    if pos.frame < |plans| && left == 0 && pos.k > 0 {
      TickHeadless(s, plans[pos.frame].id);
    }
  }

  // Over any run of packets in the order they were written, from any table: at most one frame is
  // delivered for each frame that starts, and one for the frame that is open.
  lemma {:induction false} RunBound(plans: seq<Plan>, s: State, pos: Part, packets: seq<seq<Part>>, left: nat)
    requires Inv(s) && Chain(plans, pos, Flat(packets)) && PacketsExist(plans, packets) && Open(plans, s, pos, left)
    ensures |ProcessRun(s, WireRun(plans, packets)).1| <= left + Starts(Flat(packets))
    decreases |packets|
  {
    if packets != [] {
      ChainSplit(plans, pos, packets[0], Flat(packets[1..]));
      StartsAppend(packets[0], Flat(packets[1..]));
      var after := PacketBound(plans, s, pos, packets[0], left);
      var r := ProcessPacket(s, Wire(plans, packets[0]));
      RestExist(plans, packets);
      RunBound(plans, r.0, End(plans, pos, packets[0]), packets[1..], after);
    }
  }

  lemma RestExist(plans: seq<Plan>, packets: seq<seq<Part>>)
    requires PacketsExist(plans, packets) && packets != []
    ensures PacketsExist(plans, packets[1..]) && WireRun(plans, packets)[1..] == WireRun(plans, packets[1..])
  {
    assert forall i :: 0 <= i < |packets| - 1 ==> packets[1..][i] == packets[i + 1];
  }

  // The first chunk of a frame is rejected, and no entry with its id has the start of a frame.
  ghost predicate Rejected(plans: seq<Plan>, s: State, pos: Part) {
    && Inv(s) && PartExists(plans, pos) && pos.k == 0
    && var r := ProcessChunk(s, plans[pos.frame].ChunkAt(0));
      r.1.None? && Inv(r.0) && NoStart(r.0, plans[pos.frame].id)
  }

  lemma RejectedPacket(plans: seq<Plan>, s: State, pos: Part, parts: seq<Part>) returns (after: nat)
    requires Rejected(plans, s, pos) && parts != [] && Chain(plans, pos, parts) && PartsExist(plans, parts)
    ensures var r := ProcessPacket(s, Wire(plans, parts));
      && Open(plans, r.0, End(plans, pos, parts), after)
      && |r.1| + after < Starts(parts)
  {
    var cs := ChunksOf(plans, parts);
    var (t, sent) := ProcessChunk(s, cs[0]);
    assert forall j :: 0 <= j < |parts| - 1 ==> parts[1..][j] == parts[j + 1];
    assert cs[1..] == ChunksOf(plans, parts[1..]);
    assert Open(plans, t, Succ(plans, pos), 0);
    after := PartsBound(plans, t, Succ(plans, pos), parts[1..], 0);
    ProcessChunksCons(s, cs, t, sent);
    PacketIsChunks(s, cs);
    TickOpen(plans, ProcessChunks(s, cs).0, End(plans, pos, parts), after);
  }

  // After such a rejection fewer frames are delivered than start.
  lemma RunLoses(plans: seq<Plan>, s: State, pos: Part, packets: seq<seq<Part>>)
    requires Rejected(plans, s, pos) && packets != [] && packets[0] != []
    requires Chain(plans, pos, Flat(packets)) && PacketsExist(plans, packets)
    ensures |ProcessRun(s, WireRun(plans, packets)).1| < Starts(Flat(packets))
  {
    ChainSplit(plans, pos, packets[0], Flat(packets[1..]));
    StartsAppend(packets[0], Flat(packets[1..]));
    var after := RejectedPacket(plans, s, pos, packets[0]);
    var r := ProcessPacket(s, Wire(plans, packets[0]));
    RestExist(plans, packets);
    RunBound(plans, r.0, End(plans, pos, packets[0]), packets[1..], after);
  }
}
