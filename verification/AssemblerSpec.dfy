// The FragmentProto assembler as a function on values: what one chunk, one packet and a
// run of packets do to the table of partially received frames, and what every reachable
// table satisfies.
module AssemblerSpec {
  import opened Bytes
  import opened Wrappers
  import opened FragmentProto

  // FPA_MAX_TIME
  const MAX_TIME: nat := 0xFFFF_FFFF

  datatype Params = Params(outputMtu: nat, numFrames: nat, numChunks: nat) {
    predicate Valid() {
      0 < numFrames < MAX_TIME && 0 < numChunks
    }
  }

  // A received chunk with the bytes it carried.
  datatype Stored = Stored(start: nat, data: seq<byte>) {
    function End(): nat {
      start + |data|
    }

    predicate Has(k: nat) {
      start <= k < End()
    }
  }

  // A used frame entry. `length` is -1 until the last chunk is known.
  datatype Frame = Frame(id: nat, time: nat, chunks: seq<Stored>, sum: nat, length: int, lengthSoFar: nat)

  // `used` is the used list, oldest allocation first; the tree is the index by id.
  datatype State = State(params: Params, time: nat, used: seq<Frame>)

  function Init(params: Params): State {
    State(params, 0, [])
  }

  predicate Overlap(s: Stored, t: Stored) {
    s.start + |s.data| > t.start && t.start + |t.data| > s.start
  }

  function IndexOf(used: seq<Frame>, id: nat): (i: nat)
    ensures i <= |used|
    ensures i < |used| ==> used[i].id == id
    ensures forall j :: 0 <= j < i ==> used[j].id != id
  {
    if used == [] then 0
    else if used[0].id == id then 0
    else 1 + IndexOf(used[1..], id)
  }

  function Without(used: seq<Frame>, i: nat): seq<Frame>
    requires i < |used|
  {
    used[..i] + used[i + 1..]
  }

  predicate TimedOut(s: State, f: Frame) {
    s.time - f.time > s.params.numFrames
  }

  // allocate_new_frame: a full table loses its oldest frame.
  function Allocate(s: State, id: nat): State
    requires s.params.Valid()
  {
    var kept := if |s.used| >= s.params.numFrames then s.used[1..] else s.used;
    s.(used := kept + [Frame(id, s.time, [], 0, -1, 0)])
  }

  // The frame entry a chunk with this id goes to, newly allocated when the id is unknown
  // or its frame has timed out.
  function Obtain(s: State, id: nat): (t: State)
    requires s.params.Valid()
    ensures IndexOf(t.used, id) < |t.used|
  {
    var i := IndexOf(s.used, id);
    if i == |s.used| then AllocateHas(s, id); Allocate(s, id)
    else if TimedOut(s, s.used[i]) then
      AllocateHas(s.(used := Without(s.used, i)), id);
      Allocate(s.(used := Without(s.used, i)), id)
    else s
  }

  lemma AllocateHas(s: State, id: nat)
    requires s.params.Valid()
    ensures IndexOf(Allocate(s, id).used, id) < |Allocate(s, id).used|
  {
    var u := Allocate(s, id).used;
    assert u[|u| - 1].id == id;
  }

  // The chunk contradicts what the frame already holds.
  predicate Rejects(f: Frame, c: Chunk) {
    || (exists i :: 0 <= i < |f.chunks| && Overlap(f.chunks[i], Stored(c.start, c.data)))
    || (c.last && (f.length >= 0 || f.lengthSoFar > c.End()))
    || (!c.last && f.length >= 0 && c.End() > f.length)
  }

  function Extend(f: Frame, c: Chunk, time: nat): Frame {
    f.(time := time,
       chunks := f.chunks + [Stored(c.start, c.data)],
       sum := f.sum + |c.data|,
       length := if c.last then c.End() else f.length,
       lengthSoFar := if !c.last && f.length < 0 && f.lengthSoFar < c.End() then c.End() else f.lengthSoFar)
  }

  predicate Complete(f: Frame) {
    f.length >= 0 && f.sum >= f.length
  }

  // The rest of process_chunk, once the chunk's frame entry is t.used[i].
  function Apply(t: State, i: nat, c: Chunk): (r: (State, Option<seq<byte>>))
    requires i < |t.used|
  {
    if Rejects(t.used[i], c) then (t.(used := Without(t.used, i)), None)
    else
      var f := Extend(t.used[i], c, t.time);
      if Complete(f) then (t.(used := Without(t.used, i)), Some(Union(f.chunks, f.length)))
      else if |f.chunks| >= t.params.numChunks then (t.(used := Without(t.used, i)), None)
      else (t.(used := t.used[i := f]), None)
  }

  // process_chunk: the new table, and the completed frame if this chunk completes one.
  function ProcessChunk(s: State, c: Chunk): (r: (State, Option<seq<byte>>))
    requires s.params.Valid()
  {
    if c.start > s.params.outputMtu || |c.data| > s.params.outputMtu - c.start then (s, None)
    else
      var t := Obtain(s, c.id);
      Apply(t, IndexOf(t.used, c.id), c)
  }

  // The bytes the chunks put at positions 0..len, later chunks first.
  function ByteAt(chunks: seq<Stored>, k: nat): byte {
    if chunks == [] then 0
    else
      var c := chunks[|chunks| - 1];
      if c.Has(k) then c.data[k - c.start] else ByteAt(chunks[..|chunks| - 1], k)
  }

  function Union(chunks: seq<Stored>, len: nat): (b: seq<byte>)
    ensures |b| == len
  {
    seq(len, k requires k >= 0 => ByteAt(chunks, k))
  }

  // The rest of a packet up to and including the first chunk that completes a frame.
  datatype Scan = Scan(state: State, sent: Option<seq<byte>>, rest: seq<byte>)

  // The loop of process_input: stops at a completed frame, or with nothing left to read.
  function ScanPacket(s: State, b: seq<byte>): (r: Scan)
    requires s.params.Valid()
    ensures r.state.params == s.params
    ensures r.sent.Some? ==> |r.rest| < |b|
    decreases |b|
  {
    var c := DecodeChunk(b);
    if c.None? then Scan(s, None, [])
    else
      var (t, sent) := ProcessChunk(s, c.value);
      var rest := b[HEADER_SIZE + |c.value.data|..];
      if sent.Some? then Scan(t, sent, rest) else ScanPacket(t, rest)
  }

  function MinTime(used: seq<Frame>): (m: nat)
    requires used != []
    ensures forall f :: f in used ==> m <= f.time
    ensures exists f :: f in used && m == f.time
  {
    if |used| == 1 then used[0].time
    else
      var m := MinTime(used[1..]);
      if used[0].time <= m then used[0].time else m
  }

  // reduce_times, first loop: drop the timed out frames.
  function DropTimedOut(s: State, used: seq<Frame>): seq<Frame> {
    if used == [] then []
    else if TimedOut(s, used[0]) then DropTimedOut(s, used[1..])
    else [used[0]] + DropTimedOut(s, used[1..])
  }

  function ShiftTimes(used: seq<Frame>, shift: nat): (r: seq<Frame>)
    requires forall f :: f in used ==> shift <= f.time
    ensures |r| == |used|
    ensures forall i :: 0 <= i < |used| ==> r[i] == used[i].(time := used[i].time - shift)
  {
    seq(|used|, i requires 0 <= i < |used| => used[i].(time := used[i].time - shift))
  }

  function ReduceTimes(s: State): State
    requires forall f :: f in s.used ==> f.time <= s.time
  {
    var kept := DropTimedOut(s, s.used);
    DropTimedOutIn(s, s.used);
    if kept == [] then s.(time := 0, used := [])
    else
      var m := MinTime(kept);
      s.(time := s.time - m, used := ShiftTimes(kept, m))
  }

  lemma {:induction false} DropTimedOutIn(s: State, used: seq<Frame>)
    ensures forall f :: f in DropTimedOut(s, used) <==> f in used && !TimedOut(s, f)
  {
    if used != [] {
      DropTimedOutIn(s, used[1..]);
      assert used == [used[0]] + used[1..];
    }
  }

  // The packet clock, advanced once per packet.
  function Tick(s: State): State
    requires forall f :: f in s.used ==> f.time <= s.time
  {
    if s.time == MAX_TIME then
      var t := ReduceTimes(s);
      if t.used == [] then t else t.(time := t.time + 1)
    else s.(time := s.time + 1)
  }
}
