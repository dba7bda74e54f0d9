// The frame entries of the assembler, a chunk table and a byte buffer each, and the lists and
// the index they are kept in.
module AssemblerPool {
  import opened Bytes
  import opened Lists
  import opened Memory
  import opened FragmentProto
  import opened AssemblerSpec
  import opened AssemblerSafety

  datatype ChunkPos = ChunkPos(start: nat, len: nat)

  class FrameEntry {
    const chunks: array<ChunkPos>
    const buffer: array<byte>
    // everything below is only defined when the entry is used
    var id: nat
    var time: nat
    var numChunks: nat
    var sum: nat
    var length: int
    var lengthSoFar: nat
    // the chunks with the bytes they carried
    ghost var stored: seq<Stored>

    constructor (outputMtu: nat, maxChunks: nat)
      ensures fresh(chunks) && fresh(buffer) && chunks.Length == maxChunks && buffer.Length == outputMtu
    {
      chunks := new ChunkPos[maxChunks](_ => ChunkPos(0, 0));
      buffer := new byte[outputMtu](_ => 0);
      id, time, numChunks, sum, length, lengthSoFar := 0, 0, 0, 0, -1, 0;
      stored := [];
    }

    ghost function View(): Frame
      reads this
    {
      Frame(id, time, stored, sum, length, lengthSoFar)
    }

    // The chunk table lists the stored chunks, and the buffer holds their bytes.
    ghost predicate Valid()
      reads this, chunks, buffer
    {
      && numChunks == |stored| <= chunks.Length
      && (forall i :: 0 <= i < |stored| ==> chunks[i] == ChunkPos(stored[i].start, |stored[i].data|))
      && Placed(buffer[..], stored)
    }

    method Reset(id: nat, time: nat)
      modifies this
      ensures Valid() && View() == Frame(id, time, [], 0, -1, 0)
    {
      this.id := id;
      this.time := time;
      numChunks := 0;
      sum := 0;
      length := -1;
      lengthSoFar := 0;
      stored := [];
    }

    // The overlap loop of process_chunk.
    method OverlapsAny(start: nat, len: nat, ghost data: seq<byte>) returns (r: bool)
      requires Valid() && |data| == len
      ensures r <==> exists i :: 0 <= i < |stored| && Overlap(stored[i], Stored(start, data))
    {
      var i := 0;
      while i < numChunks
        invariant 0 <= i <= numChunks
        invariant forall j :: 0 <= j < i ==> !Overlap(stored[j], Stored(start, data))
      {
        var chunk := chunks[i];
        if chunk.start + chunk.len > start && start + len > chunk.start {
          assert Overlap(stored[i], Stored(start, data));
          return true;
        }
        i := i + 1;
      }
      r := false;
    }

    // The checks of process_chunk on a chunk against the entry.
    method Check(c: Chunk) returns (rejected: bool)
      requires Valid()
      ensures rejected <==> Rejects(View(), c)
    {
      var overlaps := OverlapsAny(c.start, |c.data|, c.data);
      if overlaps {
        return true;
      }
      var chunkEnd := c.start + |c.data|;
      if c.last {
        rejected := length >= 0 || lengthSoFar > chunkEnd;
      } else {
        rejected := length >= 0 && chunkEnd > length;
      }
    }

    // Adds an accepted chunk: table entry, sum, length and payload.
    method Add(c: Chunk, now: nat)
      requires Valid() && numChunks < chunks.Length && c.End() <= buffer.Length
      requires !Rejects(View(), c)
      modifies this, chunks, buffer
      ensures Valid() && View() == Extend(old(View()), c, now)
    {
      var chunkEnd := c.start + |c.data|;
      time := now;
      chunks[numChunks] := ChunkPos(c.start, |c.data|);
      numChunks := numChunks + 1;
      sum := sum + |c.data|;
      if c.last {
        length := chunkEnd;
      } else {
        if length < 0 {
          if lengthSoFar < chunkEnd {
            lengthSoFar := chunkEnd;
          }
        }
      }
      CopyPayload(c);
      stored := stored + [Stored(c.start, c.data)];
    }

    // memcpy of the payload: the bytes of the chunks already stored stay.
    method CopyPayload(c: Chunk)
      requires c.End() <= buffer.Length && Placed(buffer[..], stored)
      requires forall i :: 0 <= i < |stored| ==> !Overlap(stored[i], Stored(c.start, c.data))
      modifies buffer
      ensures Placed(buffer[..], stored + [Stored(c.start, c.data)])
    {
      ghost var before := buffer[..];
      CopyInto(buffer, c.start, c.data);
      PlacedAppend(before, buffer[..], stored, Stored(c.start, c.data));
    }
  }

  ghost function Views(list: seq<FrameEntry>): (v: seq<Frame>)
    reads list
    ensures |v| == |list|
    ensures forall i :: 0 <= i < |list| ==> v[i] == list[i].View()
  {
    seq(|list|, i requires 0 <= i < |list| reads list => list[i].View())
  }

  // No two entries share a chunk table or a buffer.
  ghost predicate Separate(list: seq<FrameEntry>) {
    && NoDup(list)
    && forall e, f :: e in list && f in list && e != f ==> e.chunks != f.chunks && e.buffer != f.buffer
  }

  // The tree indexes exactly the used entries, by id.
  ghost predicate Indexes(tree: map<nat, FrameEntry>, used: seq<FrameEntry>)
    reads used
  {
    && (forall i :: 0 <= i < |used| ==> used[i].id in tree && tree[used[i].id] == used[i])
    && (forall id :: id in tree ==> tree[id] in used && tree[id].id == id)
  }

  ghost function Arrays(list: seq<FrameEntry>): set<object> {
    (set e | e in list :: e.chunks as object) + (set e | e in list :: e.buffer as object)
  }

  // The entries are in use: sized for the parameters, and each holds its chunks.
  ghost predicate EntriesValid(p: Params, list: seq<FrameEntry>)
    reads list, Arrays(list)
  {
    forall i :: 0 <= i < |list| ==>
      list[i].chunks.Length == p.numChunks && list[i].buffer.Length == p.outputMtu && list[i].Valid()
  }

  // Free and used entries partition the pool.
  ghost predicate Partition(free: seq<FrameEntry>, used: seq<FrameEntry>, pool: seq<FrameEntry>) {
    && NoDup(free) && NoDup(used)
    && (forall e :: e in free ==> e in pool && e !in used)
    && (forall e :: e in used ==> e in pool)
    && |free| + |used| == |pool|
  }

  lemma InWithout(list: seq<FrameEntry>, i: nat)
    requires NoDup(list) && i < |list|
    ensures NoDup(list[..i] + list[i + 1..])
    ensures forall e :: e in list[..i] + list[i + 1..] <==> e in list && e != list[i]
  {
    var rest := list[..i] + list[i + 1..];
    forall e | e in list && e != list[i] ensures e in rest {
      var j :| 0 <= j < |list| && list[j] == e;
      assert rest[if j < i then j else j - 1] == e;
    }
    forall e | e in rest ensures e in list && e != list[i] {
      var j :| 0 <= j < |rest| && rest[j] == e;
      assert list[if j < i then j else j + 1] == e;
    }
  }

  lemma PartitionFree(free: seq<FrameEntry>, used: seq<FrameEntry>, pool: seq<FrameEntry>, i: nat)
    requires Partition(free, used, pool) && i < |used|
    ensures Partition(free + [used[i]], used[..i] + used[i + 1..], pool)
  {
    InWithout(used, i);
    assert used[i] in used;
  }

  lemma PartitionUse(free: seq<FrameEntry>, used: seq<FrameEntry>, pool: seq<FrameEntry>)
    requires Partition(free, used, pool) && free != []
    ensures Partition(free[1..], used + [free[0]], pool)
    ensures free[0] in pool && free[0] !in used
  {
    assert free[0] in free;
    forall e | e in free[1..] ensures e in free && e != free[0] {
      var j :| 0 <= j < |free[1..]| && free[1..][j] == e;
      assert free[j + 1] == e;
    }
  }

  lemma IndexesRemove(tree: map<nat, FrameEntry>, used: seq<FrameEntry>, i: nat)
    requires Indexes(tree, used) && NoDup(used) && i < |used|
    ensures Indexes(tree - {used[i].id}, used[..i] + used[i + 1..])
  {
    var rest := used[..i] + used[i + 1..];
    forall id | id in tree && id != used[i].id ensures tree[id] in rest {
      var j :| 0 <= j < |used| && used[j] == tree[id];
      assert rest[if j < i then j else j - 1] == tree[id];
    }
  }

  // Looking an id up in the tree finds the entry the used list has for it.
  lemma LookupIsIndex(tree: map<nat, FrameEntry>, used: seq<FrameEntry>, id: nat)
    requires Indexes(tree, used) && NoDup(used)
    ensures id in tree <==> IndexOf(Views(used), id) < |used|
    ensures id in tree ==> used[IndexOf(Views(used), id)] == tree[id]
  {
    var i := IndexOf(Views(used), id);
    if id in tree {
      var j :| 0 <= j < |used| && used[j] == tree[id];
      assert Views(used)[j].id == id;
    }
  }

  // The pool is what was allocated: one entry per frame, no two of them sharing memory, each
  // either free or used.
  ghost predicate PoolOk(p: Params, pool: seq<FrameEntry>, free: seq<FrameEntry>, used: seq<FrameEntry>) {
    && p.Valid() && |pool| == p.numFrames && Separate(pool)
    && (forall i :: 0 <= i < |pool| ==> pool[i].chunks.Length == p.numChunks && pool[i].buffer.Length == p.outputMtu)
    && Partition(free, used, pool)
  }

  // Everything that links the pool, the lists, the index and the entries.
  ghost predicate LinkedOk(p: Params, pool: seq<FrameEntry>, free: seq<FrameEntry>, used: seq<FrameEntry>, tree: map<nat, FrameEntry>)
    reads used, Arrays(used)
  {
    PoolOk(p, pool, free, used) && EntriesValid(p, used) && Indexes(tree, used)
  }

  lemma ViewsWithout(used: seq<FrameEntry>, i: nat)
    requires i < |used|
    ensures Views(used[..i] + used[i + 1..]) == Without(Views(used), i)
  {
    var rest := used[..i] + used[i + 1..];
    var a, b := Views(rest), Without(Views(used), i);
    assert |a| == |b|;
    forall j | 0 <= j < |rest| ensures a[j] == b[j] {
      assert rest[j] == used[if j < i then j else j + 1];
    }
  }

  lemma EntriesWithout(p: Params, used: seq<FrameEntry>, i: nat)
    requires EntriesValid(p, used) && i < |used|
    ensures EntriesValid(p, used[..i] + used[i + 1..])
  {
    var rest := used[..i] + used[i + 1..];
    forall j | 0 <= j < |rest|
      ensures rest[j].chunks.Length == p.numChunks && rest[j].buffer.Length == p.outputMtu && rest[j].Valid()
    {
      assert rest[j] == used[if j < i then j else j + 1];
    }
  }

  lemma FreeKeeps(p: Params, pool: seq<FrameEntry>, free: seq<FrameEntry>, used: seq<FrameEntry>, tree: map<nat, FrameEntry>, i: nat)
    requires LinkedOk(p, pool, free, used, tree) && i < |used|
    ensures Remove(used, used[i]) == used[..i] + used[i + 1..]
    ensures LinkedOk(p, pool, free + [used[i]], used[..i] + used[i + 1..], tree - {used[i].id})
  {
    RemoveAt(used, i);
    PartitionFree(free, used, pool, i);
    IndexesRemove(tree, used, i);
    EntriesWithout(p, used, i);
  }

  // Putting a free entry that was just reset into use.
  lemma UseKeeps(p: Params, pool: seq<FrameEntry>, free: seq<FrameEntry>, used: seq<FrameEntry>, tree: map<nat, FrameEntry>)
    requires LinkedOk(p, pool, free, used, tree) && free != [] && free[0].Valid() && free[0].id !in tree
    ensures LinkedOk(p, pool, free[1..], used + [free[0]], tree[free[0].id := free[0]])
    ensures Views(used + [free[0]]) == Views(used) + [free[0].View()]
  {
    PartitionUse(free, used, pool);
  }

  // The entries of the pool, each with its own chunk table and buffer.
  method AllocateEntries(p: Params) returns (list: seq<FrameEntry>)
    requires p.Valid()
    ensures fresh(list) && fresh(Arrays(list)) && PoolOk(p, list, list, [])
  {
    list := [];
    for i := 0 to p.numFrames
      invariant |list| == i && Separate(list) && fresh(list) && fresh(Arrays(list))
      invariant forall j :: 0 <= j < |list| ==>
        list[j].chunks.Length == p.numChunks && list[j].buffer.Length == p.outputMtu
    {
      var e := new FrameEntry(p.outputMtu, p.numChunks);
      SeparateAppend(list, e);
      list := list + [e];
    }
  }

  lemma SeparateAppend(list: seq<FrameEntry>, e: FrameEntry)
    requires Separate(list) && e !in list && e.chunks !in Arrays(list) && e.buffer !in Arrays(list)
    ensures Separate(list + [e]) && Arrays(list + [e]) == Arrays(list) + {e.chunks, e.buffer}
  {
    forall f | f in list ensures f.chunks != e.chunks && f.buffer != e.buffer {
      assert f.chunks as object in Arrays(list) && f.buffer as object in Arrays(list);
    }
  }
}
