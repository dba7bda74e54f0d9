// How the fields of the disassembler object describe its history, and what one more chunk
// does to them.
module DisassemblerFields {
  import opened Bytes
  import opened FragmentProto
  import opened FragmentPlan
  import opened DisassemblerSpec
  import opened DisassemblerSafety

  // The input side: in_len is -1 exactly when no frame is being cut, in_used is the last cut.
  ghost predicate DescribesInput(h: History, inLen: int, input: seq<byte>, inUsed: nat, frameId: nat) {
    && h.nextId == frameId
    && (if h.busy then
          && h.plans != [] && h.Last().Valid() && inLen == |input| && input == h.Last().data
          && inUsed == h.Last().cuts[h.Last().Parts()] && h.Last().id == frameId
        else inLen == -1)
  }

  // The output side: the bytes written are the held parts.
  ghost predicate DescribesOutput(h: History, written: seq<byte>) {
    h.held.Some? && PartsExist(h.plans, h.held.value) && written == Wire(h.plans, h.held.value)
  }

  // IN_AVAIL and OUT_AVAIL in terms of the history.
  lemma Sizes(h: History, inLen: int, input: seq<byte>, inUsed: nat, frameId: nat, written: seq<byte>)
    requires Cutting(h) && DescribesInput(h, inLen, input, inUsed, frameId) && DescribesOutput(h, written)
    ensures inLen == |input| && inLen - inUsed == Avail(h.Last())
    ensures h.cfg.outputMtu - |written| - HEADER_SIZE == Room(h.cfg, h.plans, h.held.value)
  {
    WireLength(h.plans, h.held.value);
  }

  lemma Sizes'(h: History, inLen: int, input: seq<byte>, inUsed: nat, frameId: nat, written: seq<byte>)
    requires Wrote(h) && DescribesInput(h, inLen, input, inUsed, frameId) && DescribesOutput(h, written)
    ensures inLen - inUsed == Avail(h.Last())
    ensures h.cfg.outputMtu - |written| - HEADER_SIZE == Room(h.cfg, h.plans, h.held.value)
  {
    WireLength(h.plans, h.held.value);
  }

  lemma FinishDescribed(h: History, inLen: int, input: seq<byte>, inUsed: nat, frameId: nat, written: seq<byte>)
    requires Wrote(h) && DescribesInput(h, inLen, input, inUsed, frameId) && DescribesOutput(h, written)
    ensures var f, done := Finish(h), Avail(h.Last()) == 0;
      && DescribesInput(f, if done then -1 else inLen, input, inUsed, if done then (frameId + 1) % 0x1_0000 else frameId)
      && (f.held.Some? ==> DescribesOutput(f, written))
      && f.cfg == h.cfg && f.plans == h.plans && (f.busy <==> !done)
      && (if f.held.Some? then f.held == h.held && f.sent == h.sent else f.sent == h.sent + [h.held.value])
  {
  }

  lemma AcceptDescribed(h: History, data: seq<byte>, written: seq<byte>)
    requires Rest(h) && Enabled(h, Send(data))
    requires h.held.Some? ==> DescribesOutput(h, written)
    ensures DescribesInput(Accept(h, data), |data|, data, 0, h.nextId)
    ensures WithinInput(Accept(h, data)) && SentOk(Accept(h, data))
    ensures h.held.Some? ==> Cutting(Accept(h, data)) && DescribesOutput(Accept(h, data), written)
  {
    var g := Accept(h, data);
    assert Extends(h.plans, g.plans);
    SentStillOk(h, g);
    if h.held.Some? {
      AcceptCutting(h, data);
      PartsStillExist(h.plans, g.plans, h.held.value);
    }
  }

  // An event hands over at most one packet: the bytes of the parts it sent.
  ghost predicate Emitted(h: History, r: History, buffer: array?<byte>, sent: array?<byte>, sentLen: nat)
    reads sent
  {
    if r.sent == h.sent then sent == null
    else
      && |r.sent| == |h.sent| + 1 && r.sent[..|h.sent|] == h.sent
      && sent != null && sent == buffer && sentLen <= sent.Length
      && PartsExist(r.plans, r.sent[|h.sent|])
      && sent[..sentLen] == Wire(r.plans, r.sent[|h.sent|])
  }

  lemma DescribesNext(h: History, inLen: int, input: seq<byte>, inUsed: nat, frameId: nat, written: seq<byte>, c: Chunk)
    requires Cutting(h) && AllValid(h)
    requires DescribesInput(h, inLen, input, inUsed, frameId) && DescribesOutput(h, written)
    requires inUsed + ChunkLen(h) <= |input|
    requires c == Chunk(frameId, inUsed, ChunkLen(h) == Avail(h.Last()), input[inUsed..inUsed + ChunkLen(h)])
    ensures Wrote(WriteOne(h)) && AllValid(WriteOne(h)) && c.Encodable()
    ensures DescribesInput(WriteOne(h), inLen, input, inUsed + ChunkLen(h), frameId)
    ensures DescribesOutput(WriteOne(h), written + EncodeChunk(c))
  {
    hide Wire, WireSize, Wrote, PartsExist, AllValid, EncodeChunk;
    WrittenBytes(h);
    WriteOneLast(h);
  }

  lemma WriteOneLast(h: History)
    requires Cutting(h) && AllValid(h)
    ensures WriteOne(h).plans != []
    ensures WriteOne(h).Last().data == h.Last().data && WriteOne(h).Last().id == h.Last().id
    ensures WriteOne(h).Last().Valid()
    ensures WriteOne(h).Last().cuts[WriteOne(h).Last().Parts()] == h.Last().cuts[h.Last().Parts()] + ChunkLen(h)
  {
    WriteOneExtends(h);
  }

  // What a new chunk adds to the packet.
  lemma WrittenBytes(h: History)
    requires Cutting(h) && AllValid(h)
    ensures Wrote(WriteOne(h)) && AllValid(WriteOne(h))
    ensures WireSize(WriteOne(h).plans, WriteOne(h).held.value) == WireSize(h.plans, h.held.value) + HEADER_SIZE + ChunkLen(h)
    ensures var p, len := h.Last(), ChunkLen(h);
      var used := p.cuts[p.Parts()];
      var c := Chunk(p.id, used, len == Avail(p), p.data[used..used + len]);
      c.Encodable() && Wire(WriteOne(h).plans, WriteOne(h).held.value) == Wire(h.plans, h.held.value) + EncodeChunk(c)
  {
    WriteOneKeeps(h);
    var g := WriteOne(h);
    var a := Part(h.Cur(), h.Last().Parts());
    PartsStillExist(h.plans, g.plans, h.held.value);
    WireAppend(g.plans, h.held.value, a);
    NewChunk(h);
  }

  lemma NewChunk(h: History)
    requires Cutting(h) && AllValid(h)
    ensures var p, q, len := h.Last(), WriteOne(h).Last(), ChunkLen(h);
      var used := p.cuts[p.Parts()];
      && q.Valid() && p.Parts() < q.Parts()
      && q.ChunkAt(p.Parts()) == Chunk(p.id, used, len == Avail(p), p.data[used..used + len])
  {
    WriteOneKeeps(h);
    var p, q := h.Last(), WriteOne(h).Last();
    assert q.cuts[p.Parts()] == p.cuts[p.Parts()];
    assert q.cuts[p.Parts() + 1] == p.cuts[p.Parts()] + ChunkLen(h);
  }
}
