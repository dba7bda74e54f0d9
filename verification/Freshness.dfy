// What the assembler delivers, told from the chunks that arrived, whatever bytes the packets hold:
// every delivered frame is the union of all chunks of one id that came in a row, none of them more
// than num_frames packets after the one before it. An entry that waited longer is never added to.
module Freshness {
  import opened Bytes
  import opened FragmentProto
  import opened AssemblerSpec
  import opened AssemblerSafety

  // A chunk, with the number of the packet it came in.
  datatype Arrival = Arrival(packet: nat, chunk: Chunk)

  // The chunks of a packet, as far as it can be read.
  function ChunksIn(b: seq<byte>): seq<Chunk>
    decreases |b|
  {
    var c := DecodeChunk(b);
    if c.None? then [] else [c.value] + ChunksIn(b[HEADER_SIZE + |c.value.data|..])
  }

  function Arrived(n: nat, cs: seq<Chunk>): (r: seq<Arrival>)
    ensures |r| == |cs|
    decreases |cs|
  {
    if cs == [] then [] else [Arrival(n, cs[0])] + Arrived(n, cs[1..])
  }

  // Everything that arrives in a run of packets, numbered from n.
  function Arrivals(n: nat, packets: seq<seq<byte>>): seq<Arrival>
    decreases |packets|
  {
    if packets == [] then [] else Arrived(n, ChunksIn(packets[0])) + Arrivals(n + 1, packets[1..])
  }

  predicate InBounds(p: Params, c: Chunk) {
    c.End() <= p.outputMtu
  }

  // The chunks of an id that are not beyond the largest frame.
  function Of(h: seq<Arrival>, id: nat, p: Params): seq<Arrival> {
    if h == [] then []
    else
      var last := h[|h| - 1];
      Of(h[..|h| - 1], id, p) + if last.chunk.id == id && InBounds(p, last.chunk) then [last] else []
  }

  ghost predicate Gapless(l: seq<Arrival>, tolerance: nat) {
    forall i :: 0 <= i < |l| - 1 ==> l[i + 1].packet - l[i].packet <= tolerance
  }

  ghost predicate OneLast(l: seq<Arrival>) {
    forall i, j :: 0 <= i < j < |l| ==> !(l[i].chunk.last && l[j].chunk.last)
  }

  // Where the frame ends, if its last chunk is there.
  ghost predicate EndsAt(l: seq<Arrival>, length: int) {
    if length < 0 then length == -1 && forall i :: 0 <= i < |l| ==> !l[i].chunk.last
    else exists i :: 0 <= i < |l| && l[i].chunk.last && l[i].chunk.End() == length
  }

  function Pieces(l: seq<Arrival>): (r: seq<Stored>)
    ensures |r| == |l| && forall i :: 0 <= i < |l| ==> r[i] == Stored(l[i].chunk.start, l[i].chunk.data)
  {
    seq(|l|, i requires 0 <= i < |l| => Stored(l[i].chunk.start, l[i].chunk.data))
  }

  // The arrivals that make up an entry of the table: all of its id since one of them, in a row.
  ghost predicate MadeOf(p: Params, n: nat, age: int, f: Frame, l: seq<Arrival>) {
    && l != [] && Gapless(l, p.numFrames) && OneLast(l) && EndsAt(l, f.length)
    && f.chunks == Pieces(l) && n - l[|l| - 1].packet == age
  }

  ghost predicate Sourced(p: Params, n: nat, time: nat, h: seq<Arrival>, f: Frame) {
    exists a :: 0 <= a <= |h| && MadeOf(p, n, time - f.time, f, Of(h[a..], f.id, p))
  }

  // The table at packet n comes from the arrivals h.
  ghost predicate Traced(s: State, n: nat, h: seq<Arrival>) {
    Inv(s) && forall f <- s.used :: Sourced(s.params, n, s.time, h, f)
  }

  // One of the chunks has this byte at this place.
  ghost predicate Gives(l: seq<Arrival>, k: nat, b: byte) {
    exists i :: 0 <= i < |l| && l[i].chunk.start <= k < l[i].chunk.End() && l[i].chunk.data[k - l[i].chunk.start] == b
  }

  // These chunks, and only these, make up the frame: without overlap they cover all of it, exactly
  // one is the last, and none waited for the next longer than the tolerance.
  ghost predicate IsFrame(l: seq<Arrival>, tolerance: nat, data: seq<byte>) {
    && l != [] && Gapless(l, tolerance) && OneLast(l) && EndsAt(l, |data|)
    && (forall i :: 0 <= i < |l| ==> l[i].chunk.End() <= |data| && data[l[i].chunk.start..l[i].chunk.End()] == l[i].chunk.data)
    && (forall i, j :: 0 <= i < j < |l| ==> l[i].chunk.End() <= l[j].chunk.start || l[j].chunk.End() <= l[i].chunk.start)
    && (forall k :: 0 <= k < |data| ==> Gives(l, k, data[k]))
  }

  // The last arrival completes a frame: all chunks of its id since some arrival make it up.
  ghost predicate Completes(p: Params, h: seq<Arrival>, data: seq<byte>) {
    && h != [] && InBounds(p, h[|h| - 1].chunk)
    && exists a :: 0 <= a < |h| && IsFrame(Of(h[a..], h[|h| - 1].chunk.id, p), p.numFrames, data)
  }

  // Reading the arrivals x after h delivers these frames, each completed by an arrival of its own.
  ghost predicate Explains(p: Params, h: seq<Arrival>, x: seq<Arrival>, out: seq<seq<byte>>)
    decreases |x|
  {
    if x == [] then out == []
    else
      || Explains(p, h + [x[0]], x[1..], out)
      || (out != [] && Completes(p, h + [x[0]], out[0]) && Explains(p, h + [x[0]], x[1..], out[1..]))
  }

  lemma OfSnoc(h: seq<Arrival>, a: nat, x: Arrival, id: nat, p: Params)
    requires a <= |h|
    ensures (h + [x])[a..] == h[a..] + [x]
    ensures Of((h + [x])[a..], id, p) == Of(h[a..], id, p) + if x.chunk.id == id && InBounds(p, x.chunk) then [x] else []
  {
    assert (h + [x])[a..] == h[a..] + [x];
    assert (h[a..] + [x])[..|h| - a] == h[a..];
  }

  // An arrival of another id, or out of bounds, leaves where an entry comes from.
  lemma StillSourced(p: Params, n: nat, time: nat, h: seq<Arrival>, x: Arrival, f: Frame)
    requires Sourced(p, n, time, h, f) && (x.chunk.id != f.id || !InBounds(p, x.chunk))
    ensures Sourced(p, n, time, h + [x], f)
  {
    var a :| 0 <= a <= |h| && MadeOf(p, n, time - f.time, f, Of(h[a..], f.id, p));
    OfSnoc(h, a, x, f.id, p);
    assert Of((h + [x])[a..], f.id, p) == Of(h[a..], f.id, p);
  }

  // A chunk added to an entry that did not wait too long.
  lemma ExtendedMadeOf(p: Params, n: nat, f: Frame, l: seq<Arrival>, c: Chunk, age: nat, time: nat)
    requires FrameOk(p, f) && MadeOf(p, n, age, f, l) && age <= p.numFrames && !Rejects(f, c)
    ensures MadeOf(p, n, 0, Extend(f, c, time), l + [Arrival(n, c)])
  {
    var g, m := Extend(f, c, time), l + [Arrival(n, c)];
    assert g.chunks == Pieces(m);
    if g.length >= 0 {
      if c.last {
        assert m[|l|].chunk.last && m[|l|].chunk.End() == g.length;
      } else {
        var i :| 0 <= i < |l| && l[i].chunk.last && l[i].chunk.End() == f.length;
        assert m[i].chunk.last && m[i].chunk.End() == g.length;
      }
    }
  }

  // The first chunk of an entry.
  lemma FirstMadeOf(p: Params, n: nat, f: Frame, c: Chunk, time: nat)
    requires f.chunks == [] && f.length == -1
    ensures MadeOf(p, n, 0, Extend(f, c, time), [Arrival(n, c)])
  {
    var g, m := Extend(f, c, time), [Arrival(n, c)];
    assert g.chunks == Pieces(m);
    if c.last {
      assert m[0].chunk.last && m[0].chunk.End() == g.length;
    }
  }

  // The id has an entry that did not wait too long.
  ghost predicate Live(s: State, id: nat) {
    exists i :: 0 <= i < |s.used| && s.used[i].id == id && s.time - s.used[i].time <= s.params.numFrames
  }

  // The entries of other ids.
  function Others(used: seq<Frame>, id: nat): (r: seq<Frame>)
    ensures |r| <= |used| && forall f :: f in r <==> f in used && f.id != id
  {
    if used == [] then []
    else
      assert used == [used[0]] + used[1..];
      (if used[0].id == id then [] else [used[0]]) + Others(used[1..], id)
  }

  lemma FirstWithout(used: seq<Frame>)
    requires used != []
    ensures Without(used, 0) == used[1..]
  {
  }

  lemma WithoutLater(used: seq<Frame>, i: nat)
    requires used != []
    ensures i < |used| - 1 ==> [used[0]] + Without(used[1..], i) == Without(used, i + 1)
  {
  }

  lemma {:induction false} OthersAre(used: seq<Frame>, id: nat)
    requires DistinctIds(used)
    ensures Others(used, id) == if IndexOf(used, id) < |used| then Without(used, IndexOf(used, id)) else used
  {
    hide Without;
    if used != [] {
      var rest := used[1..];
      assert used == [used[0]] + rest;
      OthersAre(rest, id);
      if used[0].id == id {
        IndexOfAbsent(rest, id);
        FirstWithout(used);
      } else {
        WithoutLater(used, IndexOf(rest, id));
      }
    }
  }

  // The entry a chunk goes to: the live one of its id, or else a new one at the end. Any other
  // entry of the id goes, and if there is still no room, the one begun first of all goes.
  lemma ObtainExactly(s: State, id: nat)
    requires Inv(s) && id < 0x1_0000
    ensures var t, others := Obtain(s, id), Others(s.used, id);
      if Live(s, id) then t == s
      else
        && t == s.(used := (if |others| >= s.params.numFrames then others[1..] else others) + [Frame(id, s.time, [], 0, -1, 0)])
        && IndexOf(t.used, id) == |t.used| - 1
  {
    var i := IndexOf(s.used, id);
    OthersAre(s.used, id);
    if i < |s.used| {
      assert s.used[i] in s.used;
      if Live(s, id) {
        var j :| 0 <= j < |s.used| && s.used[j].id == id && s.time - s.used[j].time <= s.params.numFrames;
        assert i == j;
      } else {
        WithoutKeeps(s, i);
        IndexOfAbsent(Without(s.used, i), id);
        AllocateKeeps(s.(used := Without(s.used, i)), id);
      }
    } else {
      AllocateKeeps(s, id);
    }
  }

  // Where the entry comes from that a chunk was added to: from the arrivals of the entry there was,
  // if the chunk came in time, and else from this arrival alone.
  lemma ChunkSourced(s: State, n: nat, h: seq<Arrival>, c: Chunk, f: Frame)
    requires Traced(s, n, h) && c.id < 0x1_0000 && InBounds(s.params, c)
    requires var t := Obtain(s, c.id); f == t.used[IndexOf(t.used, c.id)] && !Rejects(f, c)
    ensures Sourced(s.params, n, s.time, h + [Arrival(n, c)], Extend(f, c, s.time))
  {
    var g, x, p := Extend(f, c, s.time), Arrival(n, c), s.params;
    ObtainExactly(s, c.id);
    if Live(s, c.id) {
      LiveEntry(s, c.id, f);
      hide Inv, Rejects, Extend, Of, FrameOk, Sourced;
      LiveSourced(p, n, h, c, f, s.time);
    } else {
      hide Inv, Rejects, Extend, Of, Sourced;
      NewSourced(p, n, h, c, f, s.time);
    }
  }

  lemma LiveSourced(p: Params, n: nat, h: seq<Arrival>, c: Chunk, f: Frame, time: nat)
    requires Sourced(p, n, time, h, f) && FrameOk(p, f) && f.id == c.id && 0 <= time - f.time <= p.numFrames
    requires InBounds(p, c) && !Rejects(f, c)
    ensures Sourced(p, n, time, h + [Arrival(n, c)], Extend(f, c, time))
  {
    hide Rejects, Extend, Of, FrameOk, MadeOf;
    var a :| 0 <= a <= |h| && MadeOf(p, n, time - f.time, f, Of(h[a..], f.id, p));
    OfSnoc(h, a, Arrival(n, c), c.id, p);
    ExtendedMadeOf(p, n, f, Of(h[a..], f.id, p), c, time - f.time, time);
    ExtendedId(f, c, time);
    assert MadeOf(p, n, 0, Extend(f, c, time), Of((h + [Arrival(n, c)])[a..], c.id, p));
  }

  lemma ExtendedId(f: Frame, c: Chunk, time: nat)
    ensures Extend(f, c, time).id == f.id && Extend(f, c, time).time == time
  {
  }

  lemma LiveEntry(s: State, id: nat, f: Frame)
    requires Inv(s) && Live(s, id) && IndexOf(s.used, id) < |s.used| && f == s.used[IndexOf(s.used, id)]
    ensures f in s.used && f.id == id && FrameOk(s.params, f) && 0 <= s.time - f.time <= s.params.numFrames
  {
    var i :| 0 <= i < |s.used| && s.used[i].id == id && s.time - s.used[i].time <= s.params.numFrames;
    assert s.used[i] == f && s.used[i] in s.used;
  }

  lemma NewSourced(p: Params, n: nat, h: seq<Arrival>, c: Chunk, f: Frame, time: nat)
    requires f == Frame(c.id, time, [], 0, -1, 0) && InBounds(p, c)
    ensures Sourced(p, n, time, h + [Arrival(n, c)], Extend(f, c, time))
  {
    var x := Arrival(n, c);
    OfSnoc(h, |h|, x, c.id, p);
    assert h[|h|..] == [] && Of([], c.id, p) == [];
    assert Of((h + [x])[|h|..], c.id, p) == [x];
    FirstMadeOf(p, n, f, c, time);
  }

  // One more arrival: the table still comes from the arrivals, and a frame delivered is completed
  // by this one.
  lemma ChunkTraced(s: State, n: nat, h: seq<Arrival>, c: Chunk)
    requires Traced(s, n, h) && c.id < 0x1_0000
    ensures Traced(ProcessChunk(s, c).0, n, h + [Arrival(n, c)])
    ensures var sent := ProcessChunk(s, c).1; sent.Some? ==> Completes(s.params, h + [Arrival(n, c)], sent.value)
  {
    ProcessChunkKeeps(s, c);
    var (t, sent) := ProcessChunk(s, c);
    hide Completes, Sourced;
    forall f <- t.used ensures Sourced(s.params, n, s.time, h + [Arrival(n, c)], f) {
      if !InBounds(s.params, c) || f.id != c.id {
        UntouchedWasThere(s, c, f);
        StillSourced(s.params, n, s.time, h, Arrival(n, c), f);
      } else {
        StoredIsExtended(s, c, f);
        ChunkSourced(s, n, h, c, Touched(s, c.id));
      }
    }
    if sent.Some? {
      SentCompletes(s, n, h, c);
    }
  }

  // The entry a chunk goes to.
  function Touched(s: State, id: nat): Frame
    requires s.params.Valid()
  {
    var t := Obtain(s, id);
    t.used[IndexOf(t.used, id)]
  }

  lemma UntouchedWasThere(s: State, c: Chunk, f: Frame)
    requires Inv(s) && c.id < 0x1_0000 && f in ProcessChunk(s, c).0.used && (!InBounds(s.params, c) || f.id != c.id)
    ensures f in s.used
  {
    if InBounds(s.params, c) {
      ObtainExactly(s, c.id);
      var t := Obtain(s, c.id);
      var i := IndexOf(t.used, c.id);
      AppliedOthers(t, i, c, f);
      hide Apply, Inv;
    }
  }

  lemma AppliedOthers(t: State, i: nat, c: Chunk, f: Frame)
    requires i < |t.used| && t.used[i].id == c.id && f in Apply(t, i, c).0.used && f.id != c.id
    ensures f in t.used
  {
  }

  lemma StoredIsExtended(s: State, c: Chunk, f: Frame)
    requires Inv(s) && c.id < 0x1_0000 && f in ProcessChunk(s, c).0.used && InBounds(s.params, c) && f.id == c.id
    ensures !Rejects(Touched(s, c.id), c) && f == Extend(Touched(s, c.id), c, s.time)
  {
    ObtainKeeps(s, c.id);
    var t := Obtain(s, c.id);
    var i := IndexOf(t.used, c.id);
    WithoutKeeps(t, i);
  }

  lemma SentCompletes(s: State, n: nat, h: seq<Arrival>, c: Chunk)
    requires Traced(s, n, h) && c.id < 0x1_0000 && ProcessChunk(s, c).1.Some?
    ensures Completes(s.params, h + [Arrival(n, c)], ProcessChunk(s, c).1.value)
  {
    var x, f, d := Arrival(n, c), Touched(s, c.id), ProcessChunk(s, c).1.value;
    DeliveredIsUnion(s, c);
    var g := Extend(f, c, s.time);
    assert d == Union(g.chunks, g.length) && g.id == c.id by {
      ObtainKeeps(s, c.id);
    }
    ChunkSourced(s, n, h, c, f);
    var a :| 0 <= a <= |h| + 1 && MadeOf(s.params, n, s.time - g.time, g, Of((h + [x])[a..], c.id, s.params));
    var l := Of((h + [x])[a..], c.id, s.params);
    assert a <= |h|;
    UnionIsFrame(l, g.chunks, d, s.params.numFrames);
  }

  lemma UnionIsFrame(l: seq<Arrival>, from: seq<Stored>, d: seq<byte>, tolerance: nat)
    requires l != [] && Gapless(l, tolerance) && OneLast(l) && EndsAt(l, |d|) && from == Pieces(l)
    requires Disjoint(from) && Within(from, |d|)
    requires forall i :: 0 <= i < |from| ==> from[i].End() <= |d| && d[from[i].start..from[i].End()] == from[i].data
    requires forall k: nat :: k < |d| ==> k in Covered(from)
    ensures IsFrame(l, tolerance, d)
  {
    PiecesApart(l);
    PiecesPlaced(l, d);
    forall k | 0 <= k < |d| ensures Gives(l, k, d[k]) {
      assert k in Covered(from);
      PieceGives(l, d, k);
    }
  }

  lemma PiecesApart(l: seq<Arrival>)
    requires Disjoint(Pieces(l))
    ensures forall i, j :: 0 <= i < j < |l| ==> l[i].chunk.End() <= l[j].chunk.start || l[j].chunk.End() <= l[i].chunk.start
  {
    forall i, j | 0 <= i < j < |l| ensures l[i].chunk.End() <= l[j].chunk.start || l[j].chunk.End() <= l[i].chunk.start {
      assert !Overlap(Pieces(l)[i], Pieces(l)[j]);
    }
  }

  lemma PiecesPlaced(l: seq<Arrival>, d: seq<byte>)
    requires var from := Pieces(l);
      forall i :: 0 <= i < |from| ==> from[i].End() <= |d| && d[from[i].start..from[i].End()] == from[i].data
    ensures forall i :: 0 <= i < |l| ==> l[i].chunk.End() <= |d| && d[l[i].chunk.start..l[i].chunk.End()] == l[i].chunk.data
  {
    forall i | 0 <= i < |l| ensures l[i].chunk.End() <= |d| && d[l[i].chunk.start..l[i].chunk.End()] == l[i].chunk.data {
      assert Pieces(l)[i] == Stored(l[i].chunk.start, l[i].chunk.data);
    }
  }

  lemma PieceGives(l: seq<Arrival>, d: seq<byte>, k: nat)
    requires k < |d| && k in Covered(Pieces(l))
    requires forall i :: 0 <= i < |l| ==> l[i].chunk.End() <= |d| && d[l[i].chunk.start..l[i].chunk.End()] == l[i].chunk.data
    ensures Gives(l, k, d[k])
  {
    var from := Pieces(l);
    var i :| 0 <= i < |from| && from[i].Has(k);
    assert d[k] == d[l[i].chunk.start..l[i].chunk.End()][k - l[i].chunk.start];
  }

  // The end of a packet: what is left is one packet older.
  lemma TickTraced(s: State, n: nat, h: seq<Arrival>)
    requires Traced(s, n, h)
    ensures Inv(s) && Inv(Tick(s)) && Traced(Tick(s), n + 1, h)
  {
    TickFaithful(s);
    var t, kept := Tick(s), Survivors(s);
    DropTimedOutIn(s, s.used);
    forall f <- t.used ensures Sourced(t.params, n + 1, t.time, h, f) {
      var i :| 0 <= i < |t.used| && t.used[i] == f;
      assert kept[i] in s.used && Sourced(s.params, n, s.time, h, kept[i]);
      Older(s.params, n, s.time, t.time, h, kept[i], f);
    }
  }

  lemma Older(p: Params, n: nat, time: nat, later: nat, h: seq<Arrival>, f: Frame, g: Frame)
    requires Sourced(p, n, time, h, f) && g == f.(time := g.time) && later - g.time == time - f.time + 1
    ensures Sourced(p, n + 1, later, h, g)
  {
    var a :| 0 <= a <= |h| && MadeOf(p, n, time - f.time, f, Of(h[a..], f.id, p));
    assert MadeOf(p, n + 1, later - g.time, g, Of(h[a..], g.id, p));
  }

  // A packet, chunk by chunk.
  lemma {:induction false} PacketTraced(s: State, n: nat, h: seq<Arrival>, b: seq<byte>)
    requires Traced(s, n, h)
    ensures Traced(ProcessPacket(s, b).0, n + 1, h + Arrived(n, ChunksIn(b)))
    ensures Explains(s.params, h, Arrived(n, ChunksIn(b)), ProcessPacket(s, b).1)
    ensures ProcessPacket(s, b).0.params == s.params
    decreases |b|
  {
    var c := DecodeChunk(b);
    if c.None? {
      TickTraced(s, n, h);
      assert h + [] == h;
    } else {
      hide Traced, Completes, ProcessChunk, Tick;
      var x, rest := Arrival(n, c.value), b[HEADER_SIZE + |c.value.data|..];
      var (t, sent) := ProcessChunk(s, c.value);
      TracedInv(s, n, h);
      ChunkTraced(s, n, h, c.value);
      ProcessChunkKeeps(s, c.value);
      PacketTraced(t, n, h + [x], rest);
      ProcessPacketOf(s, b, t, sent, rest);
      var all := Arrived(n, ChunksIn(b));
      assert all[0] == x && all[1..] == Arrived(n, ChunksIn(rest));
      assert h + all == h + [x] + all[1..];
    }
  }

  lemma TracedInv(s: State, n: nat, h: seq<Arrival>)
    requires Traced(s, n, h)
    ensures Inv(s)
  {
  }

  lemma {:induction false} ExplainsMore(p: Params, h: seq<Arrival>, x: seq<Arrival>, y: seq<Arrival>, a: seq<seq<byte>>, b: seq<seq<byte>>)
    requires Explains(p, h, x, a) && Explains(p, h + x, y, b)
    ensures Explains(p, h, x + y, a + b)
    decreases |x|
  {
    hide Completes;
    if x == [] {
      assert h + x == h && x + y == y && a + b == b;
    } else {
      assert h + [x[0]] + x[1..] == h + x && (x + y)[1..] == x[1..] + y;
      if Explains(p, h + [x[0]], x[1..], a) {
        ExplainsMore(p, h + [x[0]], x[1..], y, a, b);
      } else {
        ExplainsMore(p, h + [x[0]], x[1..], y, a[1..], b);
        assert (a + b)[1..] == a[1..] + b;
      }
    }
  }

  lemma {:induction false} RunTraced(s: State, n: nat, h: seq<Arrival>, packets: seq<seq<byte>>)
    requires Traced(s, n, h)
    ensures Inv(s) && Explains(s.params, h, Arrivals(n, packets), ProcessRun(s, packets).1)
    decreases |packets|
  {
    if packets != [] {
      hide Traced, Explains, ProcessPacket, Arrived;
      TracedInv(s, n, h);
      var (t, first) := ProcessPacket(s, packets[0]);
      var x := Arrived(n, ChunksIn(packets[0]));
      PacketTraced(s, n, h, packets[0]);
      RunTraced(t, n + 1, h + x, packets[1..]);
      ExplainsMore(s.params, h, x, Arrivals(n + 1, packets[1..]), first, ProcessRun(t, packets[1..]).1);
    }
  }

  // Where in the arrivals each frame is completed.
  lemma {:induction false} ExplainedBy(p: Params, h: seq<Arrival>, x: seq<Arrival>, out: seq<seq<byte>>) returns (ends: seq<nat>)
    requires Explains(p, h, x, out)
    ensures CompletedAt(p, h + x, |h|, ends, out)
    decreases |x|
  {
    hide Completes;
    if x == [] {
      ends := [];
    } else {
      assert h + [x[0]] + x[1..] == h + x;
      if Explains(p, h + [x[0]], x[1..], out) {
        ends := ExplainedBy(p, h + [x[0]], x[1..], out);
      } else {
        var rest := ExplainedBy(p, h + [x[0]], x[1..], out[1..]);
        ends := [|h| + 1] + rest;
        assert (h + x)[..|h| + 1] == h + [x[0]];
      }
    }
  }

  // Each frame is completed by an arrival of its own, after the first `from`, and in this order.
  ghost predicate CompletedAt(p: Params, h: seq<Arrival>, from: nat, ends: seq<nat>, out: seq<seq<byte>>) {
    && |ends| == |out|
    && (forall i :: 0 <= i < |ends| ==> from < ends[i] <= |h| && Completes(p, h[..ends[i]], out[i]))
    && (forall i, j :: 0 <= i < j < |ends| ==> ends[i] < ends[j])
  }

  // In every run of packets, whatever bytes they hold: each frame delivered is completed by a chunk
  // of its own, and is the union of all chunks of its id since one of them, none of which came more
  // than num_frames packets after the one before.
  lemma OnlyFreshChunks(p: Params, packets: seq<seq<byte>>) returns (ends: seq<nat>)
    requires p.Valid()
    ensures CompletedAt(p, Arrivals(0, packets), 0, ends, ProcessRun(Init(p), packets).1)
  {
    RunTraced(Init(p), 0, [], packets);
    ends := ExplainedBy(p, [], Arrivals(0, packets), ProcessRun(Init(p), packets).1);
    assert [] + Arrivals(0, packets) == Arrivals(0, packets);
  }

  // A chunk for an entry that waited too long does what it does without that entry.
  lemma StaleIsIgnored(s: State, i: nat, c: Chunk)
    requires Inv(s) && c.id < 0x1_0000 && InBounds(s.params, c)
    requires i < |s.used| && s.used[i].id == c.id && s.time - s.used[i].time > s.params.numFrames
    ensures ProcessChunk(s, c) == ProcessChunk(s.(used := Without(s.used, i)), c)
  {
    WithoutKeeps(s, i);
    IndexOfAbsent(Without(s.used, i), c.id);
  }
}
