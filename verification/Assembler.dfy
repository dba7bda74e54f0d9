// client/FragmentProtoAssembler.c: the object that rebuilds frames in a pool of entries.
module Assembler {
  import opened Bytes
  import opened Lists
  import opened Wrappers
  import opened FragmentProto
  import opened AssemblerSpec
  import opened AssemblerSafety
  import opened AssemblerPool

  class FragmentProtoAssembler {
    const params: Params
    ghost const pool: seq<FrameEntry>
    var time: nat
    var framesFree: seq<FrameEntry>
    var framesUsed: seq<FrameEntry>
    var usedTree: map<nat, FrameEntry>
    var inLen: int            // -1 when there is no input packet
    var input: seq<byte>
    var inPos: nat
    ghost var lent: array?<byte>   // the buffer the output is reading, null when it has none

    ghost function State(): State
      reads this, framesUsed
    {
      AssemblerSpec.State(params, time, Views(framesUsed))
    }

    ghost predicate Linked()
      reads this, framesUsed, Arrays(framesUsed)
    {
      LinkedOk(params, pool, framesFree, framesUsed, usedTree)
    }

    ghost predicate Valid()
      reads this, framesUsed, Arrays(framesUsed)
    {
      Linked() && Inv(State())
    }

    // Between events: an input packet is kept exactly while the output has a buffer, so that no packet
    // can come, and no buffer be written, before the output is done with it.
    ghost predicate Resting()
      reads this, framesUsed, Arrays(framesUsed)
    {
      && Valid() && -1 <= inLen && (lent != null <==> inLen >= 0)
      && (inLen >= 0 ==> inLen == |input| && inPos <= |input|)
    }

    constructor (params: Params)
      requires params.Valid()
      ensures Resting() && State() == AssemblerSpec.Init(params)
      ensures inLen == -1 && lent == null && |pool| == params.numFrames && fresh(pool) && fresh(Arrays(pool))
    {
      var entries := AllocateEntries(params);
      this.params := params;
      pool := entries;
      time := 0;
      framesFree, framesUsed, usedTree := entries, [], map[];
      inLen, input, inPos, lent := -1, [], 0, null;
    }

    // free_frame
    method FreeFrame(e: FrameEntry, ghost i: nat)
      requires Linked() && i < |framesUsed| && framesUsed[i] == e
      modifies this`framesFree, this`framesUsed, this`usedTree
      ensures Linked() && framesFree == old(framesFree) + [e]
      ensures framesUsed == old(framesUsed[..i] + framesUsed[i + 1..])
      ensures State() == old(State()).(used := Without(old(State()).used, i))
    {
      ghost var free, used, tree := framesFree, framesUsed, usedTree;
      ViewsWithout(used, i);
      framesUsed := Remove(framesUsed, e);
      usedTree := usedTree - {e.id};
      framesFree := framesFree + [e];
      assert LinkedOk(params, pool, free, used, tree);
      FreeKeeps(params, pool, free, used, tree, i);
    }

    // The second half of allocate_new_frame: a free entry becomes the last used one.
    method UseFree(id: nat) returns (e: FrameEntry)
      requires Linked() && id !in usedTree && framesFree != []
      modifies this`framesFree, this`framesUsed, this`usedTree, pool
      ensures Linked() && framesUsed == old(framesUsed) + [e]
      ensures State() == old(State()).(used := old(State()).used + [Frame(id, time, [], 0, -1, 0)])
    {
      ghost var free, used, tree := framesFree, framesUsed, usedTree;
      PartitionUse(free, used, pool);
      e := framesFree[0];
      framesFree := framesFree[1..];
      e.Reset(id, time);
      framesUsed := framesUsed + [e];
      usedTree := usedTree[id := e];
      assert LinkedOk(params, pool, free, used, tree);
      UseKeeps(params, pool, free, used, tree);
      assert Views(used) == old(Views(framesUsed));
    }

    // allocate_new_frame
    method AllocateNewFrame(id: nat) returns (e: FrameEntry)
      requires Linked() && id !in usedTree
      modifies this`framesFree, this`framesUsed, this`usedTree, pool
      ensures Linked() && State() == Allocate(old(State()), id)
      ensures framesUsed != [] && framesUsed[|framesUsed| - 1] == e
    {
      ghost var s := State();
      AllocateSteps(s, id);
      if framesFree == [] {
        FreeFrame(framesUsed[0], 0);
      }
      e := UseFree(id);
    }
  
    // The lookup of process_chunk: the used entry for the id, a new one when there is none or
    // it has timed out.
    method ObtainFrame(id: nat) returns (e: FrameEntry, ghost i: nat)
      requires Valid() && id < 0x1_0000
      modifies this`framesFree, this`framesUsed, this`usedTree, pool
      ensures Linked() && Inv(State()) && State() == Obtain(old(State()), id)
      ensures i == IndexOf(State().used, id) < |framesUsed| && framesUsed[i] == e
    {
      ghost var s := State();
      ObtainKeeps(s, id);
      LookupIsIndex(usedTree, framesUsed, id);
      i := IndexOf(s.used, id);
      if id !in usedTree {
        AllocateKeeps(s, id);
        e := AllocateNewFrame(id);
        i := |framesUsed| - 1;
      } else {
        e := usedTree[id];
        assert s.used[i] in s.used;
        if time - e.time > params.numFrames {
          WithoutKeeps(s, i);
          IndexOfAbsent(Without(s.used, i), id);
          AllocateKeeps(s.(used := Without(s.used, i)), id);
          FreeFrame(e, i);
          LookupIsIndex(usedTree, framesUsed, id);
          e := AllocateNewFrame(id);
          i := |framesUsed| - 1;
        }
      }
    }

    // Adds an accepted chunk to the used entry e.
    method AddChunk(e: FrameEntry, ghost i: nat, c: Chunk)
      requires Linked() && i < |framesUsed| && framesUsed[i] == e
      requires e.numChunks < params.numChunks && c.End() <= params.outputMtu && !Rejects(e.View(), c)
      modifies e, e.chunks, e.buffer
      ensures Linked() && e.Valid()
      ensures State() == old(State()).(used := old(State()).used[i := Extend(old(e.View()), c, time)])
    {
      e.Add(c, time);
    }

    // The rest of process_chunk, with the entry of the chunk's frame.
    method ApplyChunk(e: FrameEntry, ghost i: nat, c: Chunk) returns (out: array?<byte>, len: nat)
      requires Linked() && Inv(State()) && i < |framesUsed| && framesUsed[i] == e && c.End() <= params.outputMtu
      modifies this`framesFree, this`framesUsed, this`usedTree, e, e.chunks, e.buffer
      ensures Linked() && State() == Apply(old(State()), i, c).0
      ensures Sends(Apply(old(State()), i, c).1, out, len)
    {
      ghost var t := State();
      assert t.used[i] in t.used;
      out, len := null, 0;
      var rejected := e.Check(c);
      if rejected {
        FreeFrame(e, i);
        return;
      }
      ExtendKeeps(params, t.used[i], c, time);
      AddChunk(e, i, c);
      assert Without(t.used[i := Extend(t.used[i], c, time)], i) == Without(t.used, i);
      if e.length < 0 || e.sum < e.length {
        if e.numChunks == params.numChunks {
          FreeFrame(e, i);
        }
        return;
      }
      CompleteBuffer(e, params);
      out, len := e.buffer, e.length;
      FreeFrame(e, i);
    }

    // process_chunk. Returns the buffer and length of a completed frame.
    method ProcessChunk(c: Chunk) returns (out: array?<byte>, len: nat)
      requires Valid() && c.Encodable()
      modifies this`framesFree, this`framesUsed, this`usedTree, pool, Arrays(pool)
      ensures Valid() && State() == AssemblerSpec.ProcessChunk(old(State()), c).0
      ensures Sends(AssemblerSpec.ProcessChunk(old(State()), c).1, out, len)
    {
      ProcessChunkKeeps(State(), c);
      if c.start > params.outputMtu {
        return null, 0;
      }
      if |c.data| > params.outputMtu - c.start {
        return null, 0;
      }
      ghost var i: nat;
      var e;
      e, i := ObtainFrame(c.id);
      out, len := ApplyChunk(e, i, c);
    }

    // The first loop of reduce_times, one used entry: frees it or takes its time into account.
    method DropOrKeep(k: nat, minframe: FrameEntry?, ghost kept: seq<Frame>)
      returns (dropped: bool, min: FrameEntry?)
      requires Linked() && k < |framesUsed|
      requires minframe == null <==> kept == []
      requires minframe != null ==> minframe.time == MinTime(kept)
      modifies this`framesFree, this`framesUsed, this`usedTree
      ensures Linked() && (dropped <==> TimedOut(old(State()), old(State()).used[k]))
      ensures dropped ==> State() == old(State()).(used := Without(old(State()).used, k)) && min == minframe
      ensures !dropped ==>
        State() == old(State()) && framesUsed == old(framesUsed) &&
        min != null && min.time == MinTime(kept + [old(State()).used[k]])
    {
      var frame := framesUsed[k];
      assert State().used[k] == frame.View();
      min := minframe;
      dropped := time - frame.time > params.numFrames;
      if dropped {
        FreeFrame(frame, k);
      } else if minframe == null {
        min := frame;
      } else {
        MinTimeAppend(kept, State().used[k]);
        if frame.time < minframe.time {
          min := frame;
        }
      }
    }

    // One turn of the loop: `s` is the state it started from, the first m frames of which it
    // has seen and `kept` of which it has kept.
    method DropTurn(k: nat, minframe: FrameEntry?, ghost s: State, ghost m: nat, ghost kept: seq<Frame>)
      returns (next: nat, min: FrameEntry?, ghost kept': seq<Frame>)
      requires Linked() && k == |kept| < |framesUsed| && Dropping(s, m, kept, State())
      requires minframe == null <==> kept == []
      requires minframe != null ==> minframe.time == MinTime(kept)
      modifies this`framesFree, this`framesUsed, this`usedTree
      ensures Linked() && next == |kept'| && m < |s.used| && Dropping(s, m + 1, kept', State())
      ensures min == null <==> kept' == []
      ensures min != null ==> min.time == MinTime(kept')
    {
      DroppingStep(s, m, kept, State());
      ghost var f := State().used[k];
      var dropped;
      dropped, min := DropOrKeep(k, minframe, kept);
      next := if dropped then k else k + 1;
      kept' := if dropped then kept else kept + [f];
    }

    // The first loop of reduce_times: frees the timed out frames, finds the oldest time left.
    method DropExpired() returns (minframe: FrameEntry?)
      requires Linked()
      modifies this`framesFree, this`framesUsed, this`usedTree
      ensures Linked() && State() == old(State()).(used := DropTimedOut(old(State()), old(State()).used))
      ensures minframe == null <==> framesUsed == []
      ensures minframe != null ==> minframe.time == MinTime(State().used)
    {
      ghost var s := State();
      ghost var m, kept := 0, [];
      var k := 0;
      minframe := null;
      DroppingStarts(s);
      while k < |framesUsed|
        invariant Linked() && Dropping(s, m, kept, State()) && k == |kept|
        invariant minframe == null <==> kept == []
        invariant minframe != null ==> minframe.time == MinTime(kept)
        decreases |s.used| - m
      {
        k, minframe, kept := DropTurn(k, minframe, s, m, kept);
        m := m + 1;
      }
      DroppingEnds(s, m, kept, State());
    }

    method SetTime(e: FrameEntry, ghost i: nat, t: nat)
      requires Linked() && i < |framesUsed| && framesUsed[i] == e
      modifies e`time
      ensures Linked() && State() == old(State()).(used := old(State()).used[i := old(State()).used[i].(time := t)])
    {
      e.time := t;
    }

    // The second loop of reduce_times.
    method ShiftUsed(minTime: nat)
      requires Linked() && forall f :: f in State().used ==> minTime <= f.time
      modifies framesUsed
      ensures Linked() && State() == old(State()).(used := ShiftTimes(old(State()).used, minTime))
    {
      hide Indexes, NoDup;
      ghost var s := State();
      ghost var shifted := ShiftTimes(s.used, minTime);
      var i := 0;
      while i < |framesUsed|
        invariant 0 <= i <= |framesUsed| && Linked()
        invariant State() == s.(used := shifted[..i] + s.used[i..])
      {
        ghost var u := State().used;
        assert s.used[i] in s.used && u[i] == framesUsed[i].View() && u[i] == s.used[i];
        var t := framesUsed[i].time - minTime;
        ShiftStep(s.used, minTime, i, u, t);
        SetTime(framesUsed[i], i, t);
        i := i + 1;
      }
    }

    method SetClock(t: nat)
      requires Linked()
      modifies this`time
      ensures Linked() && State() == old(State()).(time := t)
    {
      ghost var p, all, free, used, tree := params, pool, framesFree, framesUsed, usedTree;
      assert LinkedOk(p, all, free, used, tree);
      time := t;
      assert LinkedOk(p, all, free, used, tree);
    }

    // Moves the origin of the clock to the oldest time, or to now when no frame is left.
    method Rebase(minframe: FrameEntry?)
      requires Linked() && forall f :: f in State().used ==> f.time <= time
      requires minframe == null <==> framesUsed == []
      requires minframe != null ==> minframe.time == MinTime(State().used)
      modifies this`time, framesUsed
      ensures Linked() && State() == Rebased(old(State()))
    {
      if minframe == null {
        SetClock(0);
      } else {
        var minTime := minframe.time;
        ShiftUsed(minTime);
        SetClock(time - minTime);
      }
    }

    // reduce_times
    method ReduceTimes()
      requires Linked() && forall f :: f in State().used ==> f.time <= time
      modifies this`framesFree, this`framesUsed, this`usedTree, this`time, pool
      ensures Linked() && State() == AssemblerSpec.ReduceTimes(old(State()))
    {
      ghost var s := State();
      DropTimedOutIn(s, s.used);
      ReduceIsRebase(s, DropTimedOut(s, s.used));
      var minframe := DropExpired();
      Rebase(minframe);
    }

    // The packet clock advances at the end of a packet.
    method Tick()
      requires Valid()
      modifies this`framesFree, this`framesUsed, this`usedTree, this`time, pool
      ensures Valid() && State() == AssemblerSpec.Tick(old(State()))
    {
      TickFaithful(State());
      if time == MAX_TIME {
        ReduceTimes();
        if framesUsed != [] {
          SetClock(time + 1);
        }
      } else {
        SetClock(time + 1);
      }
    }

    // Moves the position in the input packet: the pool is not affected.
    method Seek(pos: nat)
      requires Valid()
      modifies this`inPos
      ensures Valid() && State() == old(State()) && inPos == pos
    {
      ghost var p, all, free, used, tree := params, pool, framesFree, framesUsed, usedTree;
      assert LinkedOk(p, all, free, used, tree);
      inPos := pos;
      assert LinkedOk(p, all, free, used, tree);
    }

    // Records which buffer the output has, and drops the input packet when it has none.
    method Settle(out: array?<byte>)
      requires Valid()
      modifies this`inLen, this`lent
      ensures Valid() && State() == old(State()) && lent == out
      ensures inLen == if out == null then -1 else old(inLen)
    {
      ghost var p, all, free, used, tree := params, pool, framesFree, framesUsed, usedTree;
      assert LinkedOk(p, all, free, used, tree);
      lent := out;
      if out == null {
        inLen := -1;
      }
      assert LinkedOk(p, all, free, used, tree);
    }

    // The checks of process_input on the next chunk. None stops the packet.
    method ReadChunk() returns (c: Option<Chunk>)
      requires Valid() && inPos < |input|
      modifies this`inPos
      ensures Valid() && State() == old(State())
      ensures c == DecodeChunk(old(input[inPos..]))
      ensures c.Some? ==> inPos == old(inPos) + HEADER_SIZE && inPos + |c.value.data| <= |input|
    {
      if |input| - inPos < HEADER_SIZE {
        return None;
      }
      var header := input[inPos..inPos + HEADER_SIZE];
      Seek(inPos + HEADER_SIZE);
      var id := FromLe16(header[0], header[1]);
      var start := FromLe16(header[2], header[3]);
      var len := FromLe16(header[4], header[5]);
      var last := header[6];
      if !(last == 0 || last == 1) {
        return None;
      }
      if |input| - inPos < len {
        return None;
      }
      c := Some(Chunk(id, start, last == 1, input[inPos..inPos + len]));
      assert input[old(inPos)..][HEADER_SIZE..HEADER_SIZE + len] == input[inPos..inPos + len];
    }

    // One turn of the loop of process_input, where r is what the rest of the packet comes to.
    method ScanChunk(ghost r: Scan) returns (more: bool, out: array?<byte>, len: nat)
      requires Valid() && inPos < |input| && Yields(State(), input[inPos..], r)
      modifies this`inPos, this`framesFree, this`framesUsed, this`usedTree, pool, Arrays(pool)
      ensures Valid() && (more ==> old(inPos) < inPos <= |input|)
      ensures out == null && more ==> Yields(State(), input[inPos..], r)
      ensures out == null && !more ==> r == Scan(State(), None, [])
      ensures out != null ==> more && r.state == State() && Sends(r.sent, out, len) && r.rest == input[inPos..]
    {
      ghost var s, b := State(), input[inPos..];
      var c := ReadChunk();
      if c == None {
        YieldsStop(s, b, r);
        return false, null, 0;
      }
      ghost var rest := YieldsNext(s, b, c.value, r);
      out, len := ProcessChunk(c.value);
      Seek(inPos + |c.value.data|);
      assert input[inPos..] == rest;
      more := true;
    }

    // The loop of process_input: runs to the next completed frame or to the end of the packet.
    method ScanChunks(ghost r: Scan) returns (out: array?<byte>, len: nat)
      requires Valid() && inPos <= |input| && Yields(State(), input[inPos..], r)
      modifies this`inPos, this`framesFree, this`framesUsed, this`usedTree, pool, Arrays(pool)
      ensures Valid()
      ensures r.state == State() && Sends(r.sent, out, len)
      ensures out != null ==> inPos <= |input| && input[inPos..] == r.rest
    {
      var more := inPos < |input|;
      out, len := null, 0;
      while more
        invariant Valid() && (more ==> inPos < |input|) && out == null
        invariant if more then Yields(State(), input[inPos..], r) else r == Scan(State(), None, [])
        decreases more, |input| - inPos
      {
        more, out, len := ScanChunk(r);
        if out != null {
          return;
        }
        more := more && inPos < |input|;
      }
    }

    // process_input: a completed frame is lent to the output; otherwise the packet is over.
    method ProcessInput() returns (out: array?<byte>, len: nat)
      requires Valid() && inLen == |input| && inPos <= |input|
      modifies this, pool, Arrays(pool)
      ensures Valid() && lent == out
      ensures var r := ScanPacket(old(State()), old(input[inPos..]));
        Sends(r.sent, out, len) &&
        if r.sent.Some? then
          State() == r.state && inLen == |input| && inPos <= |input| && input[inPos..] == r.rest
        else
          Inv(r.state) && State() == AssemblerSpec.Tick(r.state) && inLen == -1
    {
      ScanKeeps(State(), input[inPos..]);
      out, len := ScanChunks(ScanPacket(State(), input[inPos..]));
      if out == null {
        Tick();
      }
      Settle(out);
    }

    method InputHandlerSend(data: seq<byte>) returns (out: array?<byte>, len: nat)
      requires Resting() && inLen == -1
      modifies this, pool, Arrays(pool)
      ensures Resting() && lent == out
      ensures var r := ScanPacket(old(State()), data);
        Sends(r.sent, out, len) &&
        if r.sent.Some? then
          State() == r.state && inLen == |input| && inPos <= |input| && input[inPos..] == r.rest
        else
          Inv(r.state) && State() == AssemblerSpec.Tick(r.state) && inLen == -1
    {
      inLen := |data|;
      input := data;
      inPos := 0;
      assert input[inPos..] == data;
      out, len := ProcessInput();
    }

    // The output is done with the buffer it was lent; the rest of the packet follows.
    method OutputHandlerDone() returns (out: array?<byte>, len: nat)
      requires Resting() && lent != null
      modifies this, pool, Arrays(pool)
      ensures Resting() && lent == out
      ensures var r := ScanPacket(old(State()), old(input[inPos..]));
        Sends(r.sent, out, len) &&
        if r.sent.Some? then
          State() == r.state && inLen == |input| && inPos <= |input| && input[inPos..] == r.rest
        else
          Inv(r.state) && State() == AssemblerSpec.Tick(r.state) && inLen == -1
    {
      out, len := ProcessInput();
    }
  }

  // The second half of reduce_times.
  ghost function Rebased(s: AssemblerSpec.State): AssemblerSpec.State
    requires forall f :: f in s.used ==> f.time <= s.time
  {
    if s.used == [] then s.(time := 0)
    else s.(time := s.time - MinTime(s.used), used := ShiftTimes(s.used, MinTime(s.used)))
  }

  lemma ReduceIsRebase(s: AssemblerSpec.State, kept: seq<Frame>)
    requires (forall f :: f in s.used ==> f.time <= s.time) && kept == DropTimedOut(s, s.used)
    ensures forall f :: f in kept ==> f.time <= s.time
    ensures AssemblerSpec.ReduceTimes(s) == Rebased(s.(used := kept))
  {
    DropTimedOutIn(s, s.used);
  }

  // The buffer and length handed to the output carry the frame, or there is no frame.
  ghost predicate Sends(sent: Option<seq<byte>>, out: array?<byte>, len: nat)
    reads out
  {
    if sent.None? then out == null else out != null && len <= out.Length && out[..len] == sent.value
  }

  lemma AllocateSteps(s: AssemblerSpec.State, id: nat)
    requires s.params.Valid()
    ensures Allocate(s, id).used ==
      (if |s.used| >= s.params.numFrames then Without(s.used, 0) else s.used) + [Frame(id, s.time, [], 0, -1, 0)]
    ensures Allocate(s, id) == s.(used := Allocate(s, id).used)
  {
  }

  // The buffer of a complete entry is the union of its chunks.
  lemma CompleteBuffer(e: FrameEntry, p: Params)
    requires e.Valid() && FrameOk(p, e.View()) && e.length >= 0 && e.sum >= e.length && e.buffer.Length == p.outputMtu
    ensures e.length <= e.buffer.Length && e.buffer[..e.length] == Union(e.stored, e.length)
  {
    CompletionExact(e.stored, e.length);
    PlacedUnion(e.buffer[..], e.stored, e.length);
  }
}
