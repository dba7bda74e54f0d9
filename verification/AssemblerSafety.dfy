// What every reachable assembler table satisfies, whatever bytes arrive: stored chunks are
// disjoint and inside the frame, counting their lengths decides completion exactly, a
// delivered frame is the union of its chunks, and the 32-bit clock keeps every age.
module AssemblerSafety {
  import opened Bytes
  import opened Wrappers
  import opened FragmentProto
  import opened AssemblerSpec

  ghost predicate Disjoint(chunks: seq<Stored>) {
    forall i, j :: 0 <= i < j < |chunks| ==> !Overlap(chunks[i], chunks[j])
  }

  ghost function Positions(lo: nat, hi: nat): (r: set<nat>)
    ensures forall k: nat :: k in r <==> lo <= k < hi
    decreases hi - lo
  {
    if lo >= hi then {} else {lo} + Positions(lo + 1, hi)
  }

  // The positions some chunk covers.
  ghost function Covered(chunks: seq<Stored>): (r: set<nat>)
    ensures forall k: nat :: k in r <==> exists i :: 0 <= i < |chunks| && chunks[i].Has(k)
  {
    if chunks == [] then {}
    else
      var n := |chunks| - 1;
      assert forall i :: 0 <= i < n ==> chunks[..n][i] == chunks[i];
      Covered(chunks[..n]) + Positions(chunks[n].start, chunks[n].End())
  }

  ghost function Sum(chunks: seq<Stored>): nat {
    if chunks == [] then 0 else Sum(chunks[..|chunks| - 1]) + |chunks[|chunks| - 1].data|
  }

  ghost predicate Within(chunks: seq<Stored>, bound: nat) {
    forall i :: 0 <= i < |chunks| ==> chunks[i].End() <= bound
  }

  lemma {:induction false} PositionsSize(lo: nat, hi: nat)
    requires lo <= hi
    ensures |Positions(lo, hi)| == hi - lo
    decreases hi - lo
  {
    if lo < hi {
      PositionsSize(lo + 1, hi);
      assert Positions(lo, hi) == {lo} + Positions(lo + 1, hi);
    }
  }

  // Disjoint chunks cover as many positions as their lengths add up to.
  lemma {:induction false} CoveredSize(chunks: seq<Stored>)
    requires Disjoint(chunks)
    ensures |Covered(chunks)| == Sum(chunks)
  {
    if chunks != [] {
      var n := |chunks| - 1;
      var init, c := chunks[..n], chunks[n];
      CoveredSize(init);
      PositionsSize(c.start, c.End());
      forall k: nat | k in Covered(init) ensures k !in Positions(c.start, c.End()) {
        var i :| 0 <= i < n && init[i].Has(k);
        assert !Overlap(chunks[i], chunks[n]);
      }
      assert Covered(init) !! Positions(c.start, c.End());
    }
  }

  // Completion by counting is exact: disjoint chunks inside [0, length) never add up to
  // more than length, and add up to length exactly when every byte is covered.
  lemma CompletionExact(chunks: seq<Stored>, length: nat)
    requires Disjoint(chunks) && Within(chunks, length)
    ensures Sum(chunks) <= length
    ensures Sum(chunks) == length <==> forall k: nat :: k < length ==> k in Covered(chunks)
  {
    CoveredSize(chunks);
    PositionsSize(0, length);
    var all := Positions(0, length);
    var some := Covered(chunks);
    assert some <= all by {
      forall k: nat | k in some ensures k in all {
        var i :| 0 <= i < |chunks| && chunks[i].Has(k);
      }
    }
    SubsetSize(some, all);
    if forall k: nat :: k < length ==> k in some {
      assert all == some;
    }
  }

  lemma {:induction false} SubsetSize<T>(a: set<T>, b: set<T>)
    requires a <= b
    ensures |a| <= |b|
    ensures |a| == |b| ==> a == b
  {
    if a != {} {
      var x :| x in a;
      SubsetSize(a - {x}, b - {x});
    }
  }

  // Exactly one chunk puts a byte at a covered position, and Union takes that byte.
  lemma {:induction false} ByteAtCovered(chunks: seq<Stored>, i: nat, k: nat)
    requires Disjoint(chunks)
    requires i < |chunks| && chunks[i].Has(k)
    ensures ByteAt(chunks, k) == chunks[i].data[k - chunks[i].start]
  {
    var n := |chunks| - 1;
    if i < n {
      assert !Overlap(chunks[i], chunks[n]);
      ByteAtCovered(chunks[..n], i, k);
    }
  }

  // What process_chunk keeps of a frame entry, and what its ASSERTs rely on.
  ghost predicate FrameOk(p: Params, f: Frame) {
    && f.id < 0x1_0000
    && Disjoint(f.chunks)
    && Within(f.chunks, p.outputMtu)
    && f.sum == Sum(f.chunks)
    && f.length >= -1
    && (f.length >= 0 ==> f.length <= p.outputMtu && Within(f.chunks, f.length))
    && (f.length < 0 ==> Within(f.chunks, f.lengthSoFar))
    && (f.lengthSoFar == 0 || exists i :: 0 <= i < |f.chunks| && f.chunks[i].End() == f.lengthSoFar)
  }

  // A used entry is incomplete and has room for a chunk.
  ghost predicate Waiting(p: Params, f: Frame) {
    FrameOk(p, f) && !Complete(f) && |f.chunks| < p.numChunks
  }

  ghost predicate DistinctIds(used: seq<Frame>) {
    forall i, j :: 0 <= i < j < |used| ==> used[i].id != used[j].id
  }

  // The invariant of every reachable table.
  ghost predicate Inv(s: State) {
    && s.params.Valid()
    && s.time <= MAX_TIME
    && |s.used| <= s.params.numFrames
    && DistinctIds(s.used)
    && (forall f :: f in s.used ==> Waiting(s.params, f) && f.time <= s.time)
  }

  lemma SumAppend(chunks: seq<Stored>, c: Stored)
    ensures Sum(chunks + [c]) == Sum(chunks) + |c.data|
  {
    assert (chunks + [c])[..|chunks|] == chunks;
  }

  // A chunk that is not rejected leaves a frame whose stored chunks are disjoint and inside
  // it; the frame is then incomplete or its sum is exactly its length.
  lemma ExtendKeeps(p: Params, f: Frame, c: Chunk, time: nat)
    requires FrameOk(p, f) && c.End() <= p.outputMtu && !Rejects(f, c)
    ensures FrameOk(p, Extend(f, c, time))
    ensures Complete(Extend(f, c, time)) <==> Extend(f, c, time).length >= 0 && Extend(f, c, time).sum == Extend(f, c, time).length
  {
    var g := Extend(f, c, time);
    SumAppend(f.chunks, Stored(c.start, c.data));
    DisjointAppend(f.chunks, Stored(c.start, c.data));
    HighWaterKeeps(f, c, time);
    if g.length >= 0 {
      CompletionExact(g.chunks, g.length);
    }
  }

  lemma DisjointAppend(chunks: seq<Stored>, x: Stored)
    requires Disjoint(chunks)
    requires forall i :: 0 <= i < |chunks| ==> !Overlap(chunks[i], x)
    ensures Disjoint(chunks + [x])
  {
  }

  lemma HighWaterKeeps(f: Frame, c: Chunk, time: nat)
    requires f.lengthSoFar == 0 || exists i :: 0 <= i < |f.chunks| && f.chunks[i].End() == f.lengthSoFar
    ensures var g := Extend(f, c, time);
      g.lengthSoFar == 0 || exists i :: 0 <= i < |g.chunks| && g.chunks[i].End() == g.lengthSoFar
  {
    var g := Extend(f, c, time);
    if g.lengthSoFar != 0 {
      if g.lengthSoFar == f.lengthSoFar {
        var i :| 0 <= i < |f.chunks| && f.chunks[i].End() == f.lengthSoFar;
        assert g.chunks[i].End() == g.lengthSoFar;
      } else {
        assert g.chunks[|f.chunks|].End() == g.lengthSoFar;
      }
    }
  }

  lemma WithoutKeeps(s: State, i: nat)
    requires Inv(s) && i < |s.used|
    ensures Inv(s.(used := Without(s.used, i)))
    ensures forall f :: f in Without(s.used, i) <==> f in s.used && f.id != s.used[i].id
  {
    var u := Without(s.used, i);
    forall j | 0 <= j < |u| ensures u[j] == s.used[if j < i then j else j + 1] {}
    forall f | f in s.used && f.id != s.used[i].id ensures f in u {
      var j :| 0 <= j < |s.used| && s.used[j] == f;
      assert u[if j < i then j else j - 1] == f;
    }
  }

  lemma IndexOfAbsent(used: seq<Frame>, id: nat)
    ensures IndexOf(used, id) == |used| <==> forall f :: f in used ==> f.id != id
  {
  }

  lemma AllocateKeeps(s: State, id: nat)
    requires Inv(s) && IndexOf(s.used, id) == |s.used| && id < 0x1_0000
    ensures Inv(Allocate(s, id))
    ensures |Allocate(s, id).used| > 0
    ensures IndexOf(Allocate(s, id).used, id) == |Allocate(s, id).used| - 1
    ensures Allocate(s, id).used[|Allocate(s, id).used| - 1] == Frame(id, s.time, [], 0, -1, 0)
  {
    IndexOfAbsent(s.used, id);
    var u := Allocate(s, id).used;
    assert forall j :: 0 <= j < |u| - 1 ==> u[j] in s.used;
    assert u[|u| - 1].id == id;
  }

  lemma ObtainKeeps(s: State, id: nat)
    requires Inv(s) && id < 0x1_0000
    ensures Inv(Obtain(s, id))
    ensures Obtain(s, id).time == s.time && Obtain(s, id).params == s.params
  {
    var i := IndexOf(s.used, id);
    if i == |s.used| {
      AllocateKeeps(s, id);
    } else if TimedOut(s, s.used[i]) {
      WithoutKeeps(s, i);
      IndexOfAbsent(Without(s.used, i), id);
      AllocateKeeps(s.(used := Without(s.used, i)), id);
    }
  }

  // A known id whose frame is not timed out keeps its entry.
  lemma ObtainKnown(s: State, id: nat, i: nat)
    requires Inv(s) && i < |s.used| && s.used[i].id == id && !TimedOut(s, s.used[i])
    ensures IndexOf(s.used, id) == i && Obtain(s, id) == s
  {
  }

  // A new id gets an entry at the end while the table has room.
  lemma ObtainNew(s: State, id: nat)
    requires Inv(s) && id < 0x1_0000 && |s.used| < s.params.numFrames
    requires forall j :: 0 <= j < |s.used| ==> s.used[j].id != id
    ensures Obtain(s, id) == s.(used := s.used + [Frame(id, s.time, [], 0, -1, 0)])
    ensures IndexOf(Obtain(s, id).used, id) == |s.used|
  {
    AllocateKeeps(s, id);
  }

  lemma UpdateKeeps(s: State, i: nat, g: Frame)
    requires Inv(s) && i < |s.used|
    requires g.id == s.used[i].id && Waiting(s.params, g) && g.time <= s.time
    ensures Inv(s.(used := s.used[i := g]))
  {
    var u := s.used[i := g];
    forall f | f in u ensures Waiting(s.params, f) && f.time <= s.time {
      var j :| 0 <= j < |u| && u[j] == f;
      assert j != i ==> u[j] in s.used;
    }
  }

  // Every step keeps the invariant: the pool never overflows, ids stay distinct, no used
  // entry is complete or full.
  lemma ProcessChunkKeeps(s: State, c: Chunk)
    requires Inv(s) && c.id < 0x1_0000
    ensures Inv(ProcessChunk(s, c).0)
    ensures ProcessChunk(s, c).0.time == s.time && ProcessChunk(s, c).0.params == s.params
  {
    if c.End() <= s.params.outputMtu {
      ObtainKeeps(s, c.id);
      var t := Obtain(s, c.id);
      var i := IndexOf(t.used, c.id);
      var f := t.used[i];
      WithoutKeeps(t, i);
      if !Rejects(f, c) {
        var g := Extend(f, c, t.time);
        ExtendKeeps(t.params, f, c, t.time);
        if !Complete(g) && |g.chunks| < t.params.numChunks {
          UpdateKeeps(t, i, g);
        }
      }
    }
  }

  // The union of disjoint chunks holds every chunk's bytes at its place.
  lemma UnionIs(chunks: seq<Stored>, len: nat)
    requires Disjoint(chunks) && Within(chunks, len)
    ensures forall i :: 0 <= i < |chunks| ==> Union(chunks, len)[chunks[i].start..chunks[i].End()] == chunks[i].data
  {
    var d := Union(chunks, len);
    forall j | 0 <= j < |chunks| ensures d[chunks[j].start..chunks[j].End()] == chunks[j].data {
      forall k | chunks[j].start <= k < chunks[j].End()
        ensures d[k] == chunks[j].data[k - chunks[j].start]
      {
        ByteAtCovered(chunks, j, k);
      }
    }
  }

  // The chunks a delivered frame was assembled from.
  ghost function DeliveredFrom(s: State, c: Chunk): seq<Stored>
    requires s.params.Valid()
  {
    var t := Obtain(s, c.id);
    t.used[IndexOf(t.used, c.id)].chunks + [Stored(c.start, c.data)]
  }

  // A delivered frame is the disjoint union of the chunks stored under its id: no byte is
  // missing, none is written twice, and every chunk's bytes are where it said they belong.
  lemma DeliveredIsUnion(s: State, c: Chunk)
    requires Inv(s) && c.id < 0x1_0000 && ProcessChunk(s, c).1.Some?
    ensures var d, from := ProcessChunk(s, c).1.value, DeliveredFrom(s, c);
      && Disjoint(from)
      && Within(from, |d|)
      && |d| <= s.params.outputMtu
      && (forall i :: 0 <= i < |from| ==> from[i].End() <= |d| && d[from[i].start..from[i].End()] == from[i].data)
      && (forall k: nat :: k < |d| ==> k in Covered(from))
      && (forall f :: f in ProcessChunk(s, c).0.used ==> f.id != c.id)
  {
    ObtainKeeps(s, c.id);
    var t := Obtain(s, c.id);
    var i := IndexOf(t.used, c.id);
    var g := Extend(t.used[i], c, t.time);
    ExtendKeeps(t.params, t.used[i], c, t.time);
    CompletionExact(g.chunks, g.length);
    WithoutKeeps(t, i);
    UnionIs(g.chunks, g.length);
  }

  lemma {:induction false} ScanKeeps(s: State, b: seq<byte>)
    requires Inv(s)
    ensures Inv(ScanPacket(s, b).state) && ScanPacket(s, b).state.time == s.time
    decreases |b|
  {
    var c := DecodeChunk(b);
    if c.Some? {
      ProcessChunkKeeps(s, c.value);
      var (t, sent) := ProcessChunk(s, c.value);
      if sent.None? {
        ScanKeeps(t, b[HEADER_SIZE + |c.value.data|..]);
      }
    }
  }

  lemma {:induction false} DropTimedOutDistinct(s: State, used: seq<Frame>)
    requires DistinctIds(used)
    ensures DistinctIds(DropTimedOut(s, used)) && |DropTimedOut(s, used)| <= |used|
  {
    if used != [] {
      assert DistinctIds(used[1..]);
      DropTimedOutDistinct(s, used[1..]);
      DropTimedOutIn(s, used[1..]);
      assert forall f :: f in used[1..] ==> f.id != used[0].id;
    }
  }

  lemma {:induction false} DropTimedOutAppend(s: State, used: seq<Frame>, f: Frame)
    ensures DropTimedOut(s, used + [f]) == DropTimedOut(s, used) + (if TimedOut(s, f) then [] else [f])
  {
    if used == [] {
      assert [f][1..] == [];
    } else {
      DropTimedOutAppend(s, used[1..], f);
      assert (used + [f])[1..] == used[1..] + [f];
    }
  }

  // The first loop of reduce_times, one frame further.
  lemma DropStep(s: State, m: nat)
    requires m < |s.used|
    ensures DropTimedOut(s, s.used[..m + 1]) ==
      DropTimedOut(s, s.used[..m]) + (if TimedOut(s, s.used[m]) then [] else [s.used[m]])
  {
    DropTimedOutAppend(s, s.used[..m], s.used[m]);
    assert s.used[..m + 1] == s.used[..m] + [s.used[m]];
  }

  // The first loop of reduce_times has seen the first m frames and kept `kept` of them.
  ghost predicate Dropping(s: State, m: nat, kept: seq<Frame>, now: State) {
    && m <= |s.used| && kept == DropTimedOut(s, s.used[..m])
    && now == s.(used := kept + s.used[m..])
  }

  lemma DroppingStarts(s: State)
    ensures Dropping(s, 0, [], s)
  {
  }

  lemma DroppingStep(s: State, m: nat, kept: seq<Frame>, now: State)
    requires Dropping(s, m, kept, now) && |kept| < |now.used|
    ensures m < |s.used|
    ensures if TimedOut(now, now.used[|kept|]) then Dropping(s, m + 1, kept, now.(used := Without(now.used, |kept|)))
            else Dropping(s, m + 1, kept + [now.used[|kept|]], now)
  {
    DropStep(s, m);
    TakeOne(kept, s.used, m);
  }

  lemma TakeOne(a: seq<Frame>, u: seq<Frame>, m: nat)
    requires m < |u|
    ensures (a + u[m..])[|a|] == u[m]
    ensures Without(a + u[m..], |a|) == a + u[m + 1..]
    ensures a + u[m..] == (a + [u[m]]) + u[m + 1..]
  {
  }

  lemma DroppingEnds(s: State, m: nat, kept: seq<Frame>, now: State)
    requires Dropping(s, m, kept, now) && |now.used| <= |kept|
    ensures kept == now.used && now == s.(used := DropTimedOut(s, s.used))
  {
    assert s.used[..m] == s.used;
  }

  lemma {:induction false} MinTimeAppend(used: seq<Frame>, f: Frame)
    requires used != []
    ensures MinTime(used + [f]) == if f.time < MinTime(used) then f.time else MinTime(used)
  {
    if |used| > 1 {
      MinTimeAppend(used[1..], f);
      assert (used + [f])[1..] == used[1..] + [f];
    } else {
      assert (used + [f])[1..] == [f];
    }
  }

  // The second loop of reduce_times, one frame at a time.
  lemma ShiftStep(used: seq<Frame>, shift: nat, i: nat, u: seq<Frame>, t: nat)
    requires (forall f :: f in used ==> shift <= f.time) && i < |used|
    requires u == ShiftTimes(used, shift)[..i] + used[i..] && t + shift == used[i].time
    ensures u[i] == used[i]
    ensures u[i := used[i].(time := t)] == ShiftTimes(used, shift)[..i + 1] + used[i + 1..]
  {
  }

  // The frames that survive the end of a packet: all of them, except that the timed out
  // ones go when the clock is saturated.
  function Survivors(s: State): seq<Frame> {
    if s.time == MAX_TIME then DropTimedOut(s, s.used) else s.used
  }

  // reduce_times lowers the clock and every kept frame's time by the same amount, which at
  // the saturated clock is not zero.
  lemma ReduceTimesFaithful(s: State)
    requires Inv(s)
    ensures var t, kept := ReduceTimes(s), DropTimedOut(s, s.used);
      && |t.used| == |kept|
      && (forall i :: 0 <= i < |kept| ==> t.used[i] == kept[i].(time := t.used[i].time) && t.used[i].time <= t.time
                                          && t.time - t.used[i].time == s.time - kept[i].time)
      && (s.time == MAX_TIME ==> t.time < s.time)
  {
    DropTimedOutIn(s, s.used);
    var kept := DropTimedOut(s, s.used);
    if kept != [] {
      var m := MinTime(kept);
      var f :| f in kept && m == f.time;
      assert f in s.used && !TimedOut(s, f);
      forall i | 0 <= i < |kept| ensures m <= kept[i].time <= s.time {
        assert kept[i] in kept;
      }
    }
  }

  // The clock never exceeds 32 bits; at the end of a packet every survivor is one packet
  // older, and only frames that are already timed out can disappear.
  lemma TickFaithful(s: State)
    requires Inv(s)
    ensures Inv(Tick(s))
    ensures var t, kept := Tick(s), Survivors(s);
      && |t.used| == |kept|
      && (forall i :: 0 <= i < |kept| ==> t.used[i] == kept[i].(time := t.used[i].time)
                                          && t.time - t.used[i].time == s.time - kept[i].time + 1)
    ensures forall f :: f in s.used && s.time - f.time <= s.params.numFrames ==> f in Survivors(s)
  {
    if s.time == MAX_TIME {
      ReduceTimesFaithful(s);
      DropTimedOutDistinct(s, s.used);
      DropTimedOutIn(s, s.used);
      var kept, t := DropTimedOut(s, s.used), ReduceTimes(s);
      forall i | 0 <= i < |kept| ensures Waiting(s.params, t.used[i]) && t.used[i].id == kept[i].id {
        assert kept[i] in kept;
        assert Waiting(s.params, kept[i]);
      }
      assert DistinctIds(t.used);
      assert forall f :: f in t.used ==> Waiting(s.params, f) && f.time <= t.time;
    }
  }

  // A whole packet: scan, hand over each completed frame, resume, and tick at the end.
  // Whatever the bytes, the invariant is kept.
  ghost function ProcessPacket(s: State, b: seq<byte>): (r: (State, seq<seq<byte>>))
    requires Inv(s)
    ensures Inv(r.0)
    decreases |b|
  {
    var scan := ScanPacket(s, b);
    ScanKeeps(s, b);
    if scan.sent.Some? then
      var r := ProcessPacket(scan.state, scan.rest);
      (r.0, [scan.sent.value] + r.1)
    else
      TickFaithful(scan.state);
      (Tick(scan.state), [])
  }

  // A run of packets, with the frames delivered.
  ghost function ProcessRun(s: State, packets: seq<seq<byte>>): (r: (State, seq<seq<byte>>))
    requires Inv(s)
    ensures Inv(r.0)
    decreases |packets|
  {
    if packets == [] then (s, [])
    else
      var (t, first) := ProcessPacket(s, packets[0]);
      var (u, others) := ProcessRun(t, packets[1..]);
      (u, first + others)
  }

  lemma ProcessRunCons(s: State, packet: seq<byte>, packets: seq<seq<byte>>)
    requires Inv(s)
    ensures var (t, first) := ProcessPacket(s, packet);
      var (u, others) := ProcessRun(t, packets);
      ProcessRun(s, [packet] + packets) == (u, first + others)
  {
    assert ([packet] + packets)[1..] == packets;
  }

  // A sequence of chunks, with the frames delivered.
  ghost function ProcessChunks(s: State, cs: seq<Chunk>): (r: (State, seq<seq<byte>>))
    requires Inv(s) && AllEncodable(cs)
    ensures Inv(r.0) && r.0.params == s.params
    decreases |cs|
  {
    if cs == [] then (s, [])
    else
      var (t, sent) := ProcessChunk(s, cs[0]);
      ProcessChunkKeeps(s, cs[0]);
      var (u, others) := ProcessChunks(t, cs[1..]);
      (u, SentList(sent) + others)
  }

  function SentList(sent: Option<seq<byte>>): seq<seq<byte>> {
    if sent.Some? then [sent.value] else []
  }

  lemma ProcessChunksCons(s: State, cs: seq<Chunk>, t: State, sent: Option<seq<byte>>)
    requires Inv(s) && AllEncodable(cs) && cs != [] && ProcessChunk(s, cs[0]) == (t, sent)
    ensures Inv(t) && AllEncodable(cs[1..])
    ensures ProcessChunks(s, cs) == (ProcessChunks(t, cs[1..]).0, SentList(sent) + ProcessChunks(t, cs[1..]).1)
  {
    ProcessChunkKeeps(s, cs[0]);
  }

  // Reading the rest `b` of a packet comes to `r`.
  ghost predicate Yields(s: State, b: seq<byte>, r: Scan) {
    s.params.Valid() && r == ScanPacket(s, b)
  }

  lemma YieldsStop(s: State, b: seq<byte>, r: Scan)
    requires Yields(s, b, r) && DecodeChunk(b).None?
    ensures r == Scan(s, None, [])
  {
  }

  lemma YieldsNext(s: State, b: seq<byte>, c: Chunk, r: Scan) returns (rest: seq<byte>)
    requires Yields(s, b, r) && DecodeChunk(b) == Some(c)
    ensures rest == b[HEADER_SIZE + |c.data|..]
    ensures var (t, sent) := ProcessChunk(s, c);
      if sent.Some? then r == Scan(t, sent, rest) else Yields(t, rest, r)
  {
    rest := b[HEADER_SIZE + |c.data|..];
  }

  lemma ScanStep(s: State, c: Chunk, rest: seq<byte>)
    requires s.params.Valid() && c.Encodable()
    ensures ScanPacket(s, EncodeChunk(c) + rest) ==
      var (t, sent) := ProcessChunk(s, c);
      if sent.Some? then Scan(t, sent, rest) else ScanPacket(t, rest)
  {
    DecodeEncodeChunk(c, rest);
  }

  // A packet whose scan is known.
  lemma ProcessPacketOf(s: State, b: seq<byte>, t: State, sent: Option<seq<byte>>, rest: seq<byte>)
    requires Inv(s) && Inv(t)
    requires ScanPacket(s, b) == if sent.Some? then Scan(t, sent, rest) else ScanPacket(t, rest)
    ensures ProcessPacket(s, b) == (ProcessPacket(t, rest).0, SentList(sent) + ProcessPacket(t, rest).1)
  {
    if sent.None? {
      var r := ProcessPacket(t, rest);
      assert ProcessPacket(s, b) == r;
      assert SentList(sent) + r.1 == r.1;
    }
  }

  // A packet of well-formed chunks is its chunks, in order, and one tick.
  lemma {:induction false} PacketIsChunks(s: State, cs: seq<Chunk>)
    requires Inv(s) && AllEncodable(cs)
    ensures forall f :: f in ProcessChunks(s, cs).0.used ==> f.time <= ProcessChunks(s, cs).0.time
    ensures ProcessPacket(s, EncodePacket(cs)) == (Tick(ProcessChunks(s, cs).0), ProcessChunks(s, cs).1)
    decreases |cs|
  {
    if cs != [] {
      var r := ProcessChunk(s, cs[0]);
      ProcessChunkKeeps(s, cs[0]);
      ScanStep(s, cs[0], EncodePacket(cs[1..]));
      ProcessPacketOf(s, EncodePacket(cs), r.0, r.1, EncodePacket(cs[1..]));
      PacketIsChunks(r.0, cs[1..]);
    }
  }

  // Every stored chunk's bytes are at their place in the buffer.
  ghost predicate Placed(buffer: seq<byte>, stored: seq<Stored>) {
    forall i :: 0 <= i < |stored| ==> PlacedOne(buffer, stored[i])
  }

  ghost predicate PlacedOne(buffer: seq<byte>, c: Stored) {
    c.End() <= |buffer| && buffer[c.start..c.End()] == c.data
  }

  // Writing one more chunk leaves the bytes of the chunks it does not overlap.
  lemma PlacedAppend(before: seq<byte>, after: seq<byte>, stored: seq<Stored>, c: Stored)
    requires Placed(before, stored) && |after| == |before| && c.End() <= |after|
    requires forall i :: 0 <= i < |stored| ==> !Overlap(stored[i], c)
    requires after == before[..c.start] + c.data + before[c.End()..]
    ensures Placed(after, stored + [c])
  {
    forall i | 0 <= i < |stored| ensures PlacedOne(after, stored[i]) {
      assert PlacedOne(before, stored[i]);
      SameBytes(before, after, stored[i], c);
    }
    assert PlacedOne(after, c);
  }

  lemma SameBytes(before: seq<byte>, after: seq<byte>, s: Stored, c: Stored)
    requires |after| == |before| && s.End() <= |before| && c.End() <= |before| && !Overlap(s, c)
    requires after == before[..c.start] + c.data + before[c.End()..]
    ensures after[s.start..s.End()] == before[s.start..s.End()]
  {
    forall k | s.start <= k < s.End() ensures after[k] == before[k] {}
  }

  // A buffer that holds disjoint chunks covering its first len bytes holds their union there.
  lemma PlacedUnion(buffer: seq<byte>, stored: seq<Stored>, len: nat)
    requires Placed(buffer, stored) && Disjoint(stored) && Within(stored, len) && len <= |buffer|
    requires forall k: nat :: k < len ==> k in Covered(stored)
    ensures buffer[..len] == Union(stored, len)
  {
    var u := Union(stored, len);
    forall k: nat | k < len ensures buffer[k] == u[k] {
      assert k in Covered(stored);
      var i :| 0 <= i < |stored| && stored[i].Has(k);
      PlacedByte(buffer, stored, i, k);
    }
  }

  lemma PlacedByte(buffer: seq<byte>, stored: seq<Stored>, i: nat, k: nat)
    requires Placed(buffer, stored) && Disjoint(stored) && i < |stored| && stored[i].Has(k)
    ensures k < |buffer| && buffer[k] == ByteAt(stored, k)
  {
    ByteAtCovered(stored, i, k);
    assert PlacedOne(buffer, stored[i]);
    assert buffer[k] == buffer[stored[i].start..stored[i].End()][k - stored[i].start];
  }
}
