// client/FragmentProtoDisassembler.c: the object that writes chunks into output buffers.
module Disassembler {
  import opened Bytes
  import opened Memory
  import opened Wrappers
  import opened FragmentProto
  import opened DisassemblerSpec
  import opened DisassemblerSafety
  import opened DisassemblerFields

  class FragmentProtoDisassembler {
    const cfg: Config
    var inLen: int          // -1 when there is no input packet
    var input: seq<byte>
    var inUsed: nat
    var out: array?<byte>   // the caller's output buffer, null when there is none
    var outUsed: nat
    var frameId: nat
    var timerRunning: bool
    ghost var h: History

    // The fields describe the history: the frame being cut, the bytes written to the held
    // packet and the next frame id.
    ghost predicate Represents()
      reads this, out
    {
      && h.cfg == cfg
      && DescribesInput(h, inLen, input, inUsed, frameId)
      && (out == null <==> h.held.None?)
      && (out != null ==> out.Length == cfg.outputMtu && outUsed <= out.Length && DescribesOutput(h, out[..outUsed]))
    }

    ghost predicate Valid()
      reads this, out
    {
      && Represents() && Rest(h)
      && (timerRunning <==> cfg.latency >= 0 && h.held.Some? && h.held.value != [])
    }

    constructor (cfg: Config)
      requires cfg.Valid()
      ensures Valid() && h == Start(cfg)
    {
      this.cfg := cfg;
      inLen, input, inUsed := -1, [], 0;
      out, outUsed := null, 0;
      frameId := 0;
      timerRunning := false;
      h := Start(cfg);
    }

    // The length of the next chunk: input left, room in the packet, chunk limit.
    method NextChunkLen() returns (chunkLen: nat)
      requires Represents() && Cutting(h)
      ensures chunkLen == ChunkLen(h) && inUsed + chunkLen <= inLen == |input|
      ensures (chunkLen == inLen - inUsed) == (chunkLen == Avail(h.Last()))
    {
      Sizes(h, inLen, input, inUsed, frameId, out[..outUsed]);
      var avail := inLen - inUsed;
      var room := (cfg.outputMtu - outUsed) - HEADER_SIZE;
      chunkLen := if avail < room then avail else room;
      if cfg.chunkMtu > 0 {
        chunkLen := if chunkLen < cfg.chunkMtu then chunkLen else cfg.chunkMtu;
      }
    }

    // One chunk: header and payload go to the output buffer.
    method WriteChunk()
      requires Represents() && Cutting(h) && AllValid(h)
      modifies this, out
      ensures Represents() && out == old(out) && timerRunning == old(timerRunning)
      ensures h == WriteOne(old(h)) && Wrote(h) && AllValid(h)
    {
      var chunkLen := NextChunkLen();
      var c := Chunk(frameId, inUsed, chunkLen == inLen - inUsed, input[inUsed..inUsed + chunkLen]);
      ghost var written := out[..outUsed];
      Sizes(h, inLen, input, inUsed, frameId, written);
      DescribesNext(h, inLen, input, inUsed, frameId, written, c);
      WriteBytes(c);
      h := WriteOne(h);
    }

    // Appends the chunk to the output buffer and advances both positions.
    method WriteBytes(c: Chunk)
      requires out != null && c.Encodable() && outUsed + HEADER_SIZE + |c.data| <= out.Length
      modifies this`inUsed, this`outUsed, out
      ensures inUsed == old(inUsed) + |c.data| && outUsed == old(outUsed) + HEADER_SIZE + |c.data|
      ensures out[..outUsed] == old(out[..outUsed]) + EncodeChunk(c)
    {
      AppendChunk(out, outUsed, c);
      inUsed := inUsed + |c.data|;
      outUsed := outUsed + HEADER_SIZE + |c.data|;
    }

    // The loop of write_chunks: chunks until the frame or the packet is used up.
    method WriteLoop()
      requires Represents() && Cutting(h) && AllValid(h)
      modifies this, out
      ensures Represents() && out == old(out) && timerRunning == old(timerRunning)
      ensures h == DisassemblerSpec.WriteLoop(old(h)) && Wrote(h)
    {
      ghost var h0 := h;
      var more := true;
      while more
        invariant Represents() && out == old(out) && out != null && AllValid(h) && h.busy
        invariant timerRunning == old(timerRunning)
        invariant if more then Cutting(h) && DisassemblerSpec.WriteLoop(h) == DisassemblerSpec.WriteLoop(h0)
                  else Wrote(h) && h == DisassemblerSpec.WriteLoop(h0)
        decreases more, if more then Avail(h.Last()) else 0
      {
        ghost var g := h;
        WriteOneKeeps(g);
        WriteChunk();
        Sizes'(h, inLen, input, inUsed, frameId, out[..outUsed]);
        more := inLen - inUsed > 0 && (cfg.outputMtu - outUsed) - HEADER_SIZE > 0;
      }
    }

    // The rest of write_chunks: hand back what is finished.
    method Finish() returns (inputDone: bool, sent: array?<byte>, sentLen: nat)
      requires Represents() && Wrote(h)
      requires timerRunning ==> cfg.latency >= 0
      modifies this
      ensures Represents() && h == DisassemblerSpec.Finish(old(h))
      ensures timerRunning <==> cfg.latency >= 0 && h.held.Some? && h.held.value != []
      ensures inputDone <==> !h.busy
      ensures Emitted(old(h), h, old(out), sent, sentLen)
    {
      Sizes'(h, inLen, input, inUsed, frameId, out[..outUsed]);
      FinishDescribed(h, inLen, input, inUsed, frameId, out[..outUsed]);
      inputDone := inLen - inUsed == 0;
      if inputDone {
        inLen := -1;
        frameId := (frameId + 1) % 0x1_0000;
      }
      ghost var f := DisassemblerSpec.Finish(h);
      sent, sentLen := null, 0;
      if (cfg.outputMtu - outUsed) - HEADER_SIZE <= 0 || cfg.latency < 0 {
        sent, sentLen := out, outUsed;
        out := null;
        timerRunning := false;
      } else if !timerRunning {
        timerRunning := true;
      }
      h := f;
    }

    // write_chunks. Returns whether the input was finished and the finished output, if any.
    method WriteChunks() returns (inputDone: bool, sent: array?<byte>, sentLen: nat)
      requires Represents() && Cutting(h) && WithinInput(h) && SentOk(h) && h.nextId < 0x1_0000
      requires timerRunning ==> cfg.latency >= 0
      modifies this, out
      ensures Valid() && h == DisassemblerSpec.WriteChunks(old(h))
      ensures inputDone <==> !h.busy
      ensures Emitted(old(h), h, old(out), sent, sentLen)
    {
      WriteChunksKeeps(h);
      WriteLoopStops(h);
      WriteLoop();
      inputDone, sent, sentLen := Finish();
    }

    method InputHandlerSend(data: seq<byte>) returns (inputDone: bool, sent: array?<byte>, sentLen: nat)
      requires Valid() && Enabled(h, Send(data))
      modifies this, out
      ensures Valid() && h == Step(old(h), Send(data))
      ensures inputDone <==> !h.busy
      ensures Emitted(old(h), h, old(out), sent, sentLen)
    {
      inLen := |data|;
      input := data;
      inUsed := 0;
      inputDone, sent, sentLen := false, null, 0;
      ghost var g := h;
      h := Accept(h, data);
      AcceptDescribed(g, data, if out == null then [] else out[..outUsed]);
      if out == null {
        StepKeeps(g, Send(data));
        return;
      }
      inputDone, sent, sentLen := WriteChunks();
    }

    method OutputHandlerRecv(data: array<byte>) returns (inputDone: bool, sent: array?<byte>, sentLen: nat)
      requires Valid() && Enabled(h, Recv) && data.Length == cfg.outputMtu
      modifies this, data
      ensures Valid() && h == Step(old(h), Recv)
      ensures inputDone <==> old(h.busy) && !h.busy
      ensures Emitted(old(h), h, data, sent, sentLen)
    {
      out := data;
      outUsed := 0;
      inputDone, sent, sentLen := false, null, 0;
      ghost var g := h;
      h := h.(held := Some([]));
      if inLen < 0 {
        StepKeeps(g, Recv);
        return;
      }
      inputDone, sent, sentLen := WriteChunks();
    }

    method TimerHandler() returns (sent: array<byte>, sentLen: nat)
      requires Valid() && timerRunning
      modifies this
      ensures Valid() && Enabled(old(h), Timer) && h == Step(old(h), Timer)
      ensures Emitted(old(h), h, old(out), sent, sentLen)
    {
      StepKeeps(h, Timer);
      sent, sentLen := out, outUsed;
      out := null;
      timerRunning := false;
      h := Step(h, Timer);
    }

    method InputHandlerRequestCancel()
      requires Valid() && Enabled(h, Cancel)
      modifies this
      ensures Valid() && h == Step(old(h), Cancel)
    {
      StepKeeps(h, Cancel);
      inLen := -1;
      h := Abandon(h);
    }
  }

  method AppendChunk(a: array<byte>, pos: nat, c: Chunk)
    requires c.Encodable() && pos + HEADER_SIZE + |c.data| <= a.Length
    modifies a
    ensures a[..pos + HEADER_SIZE + |c.data|] == old(a[..pos]) + EncodeChunk(c)
  {
    var header := Le16(c.id) + Le16(c.start) + Le16(|c.data|) + [if c.last then 1 else 0];
    CopyInto(a, pos, header);
    assert a[..pos + HEADER_SIZE] == old(a[..pos]) + header;
    ghost var before := a[..pos + HEADER_SIZE];
    CopyInto(a, pos + HEADER_SIZE, c.data);
    assert a[..pos + HEADER_SIZE + |c.data|] == before + c.data;
  }
}
