// Without a chunk limit a frame takes at most fragmentproto_max_chunks_for_frame chunks, so
// an assembler sized with it, as DatagramPeerIO does, always has room.
module ChunkBound {
  import opened Bytes
  import opened Wrappers
  import opened FragmentProto
  import opened FragmentPlan
  import opened DisassemblerSpec
  import opened DisassemblerSafety
  import opened PartOrder
  import opened AssemblerSpec
  import opened AssemblerSafety
  import opened RoundTrip

  // A frame that already has parts continues in an empty packet, and one chunk then finishes
  // the frame or fills the packet.
  lemma WriteLoopFull(h: History)
    requires Cutting(h) && AllFull(h) && h.cfg.chunkMtu < 0
    requires h.Last().Parts() > 0 ==> h.held.value == []
    ensures AllFull(WriteLoop(h))
  {
    WriteOneKeeps(h);
    var r := WriteOne(h);
    assert WriteLoop(h) == r;
    var p, q := h.Last(), r.Last();
    forall k | 1 <= k < q.Parts() && q.cuts[k + 1] < |q.data| ensures q.cuts[k + 1] - q.cuts[k] == Full(h.cfg) {
      if k < p.Parts() {
        assert q.cuts[k + 1] == p.cuts[k + 1] && q.cuts[k] == p.cuts[k];
      }
    }
    forall i | 0 <= i < |r.plans| ensures FullMiddle(r.cfg, r.plans[i]) {
      if i < h.Cur() {
        assert r.plans[i] == h.plans[i];
      }
    }
  }

  lemma AcceptFull(h: History, frame: seq<byte>)
    requires Rest(h) && Enabled(h, Send(frame)) && AllFull(h)
    ensures AllFull(Accept(h, frame))
  {
    var g := Accept(h, frame);
    forall i | 0 <= i < |g.plans| ensures g.plans[i].Valid() && FullMiddle(g.cfg, g.plans[i]) {
      if i < |h.plans| {
        assert g.plans[i] == h.plans[i];
      }
    }
  }

  lemma AbandonFull(h: History)
    requires AllFull(h) && h.plans != []
    ensures AllFull(Abandon(h))
  {
    var g := Abandon(h);
    forall i | 0 <= i < |g.plans| ensures g.plans[i] == h.plans[i] {}
  }

  lemma WriteChunksFull(h: History)
    requires Cutting(h) && AllFull(h) && h.cfg.chunkMtu < 0
    requires h.Last().Parts() > 0 ==> h.held.value == []
    ensures AllFull(WriteChunks(h))
  {
    WriteLoopFull(h);
    FinishFull(WriteLoop(h));
  }

  lemma FinishFull(w: History)
    requires Wrote(w) && AllFull(w)
    ensures AllFull(Finish(w))
  {
    assert Finish(w).plans == w.plans && Finish(w).cfg == w.cfg;
  }

  lemma StepFull(h: History, e: Event)
    requires Rest(h) && Enabled(h, e) && AllFull(h) && h.cfg.chunkMtu < 0
    ensures AllFull(Step(h, e))
  {
    match e
    case Send(frame) =>
      AcceptFull(h, frame);
      if h.held.Some? {
        AcceptCutting(h, frame);
        WriteChunksFull(Accept(h, frame));
      }
    case Recv =>
      if h.busy {
        WriteChunksFull(h.(held := Some([])));
      }
    case Timer =>
    case Cancel =>
      AbandonFull(h);
  }

  lemma {:induction false} RunFull(h: History, es: seq<Event>)
    requires Rest(h) && Runs(h, es) && AllFull(h) && h.cfg.chunkMtu < 0
    ensures AllFull(Run(h, es))
    decreases |es|
  {
    if es != [] {
      StepKeeps(h, es[0]);
      StepFull(h, es[0]);
      StepFrames(h, es[0]);
      RunFull(Step(h, es[0]), es[1..]);
    }
  }

  // The first j parts, when they do not finish the frame, take more than j - 1 packets full.
  lemma {:induction false} CutsGrow(cfg: Config, p: Plan, j: nat)
    requires cfg.Valid() && p.Valid() && FullMiddle(cfg, p)
    requires 1 <= j <= p.Parts() && p.cuts[j] < |p.data|
    ensures p.cuts[j] > (j - 1) * Full(cfg)
  {
    if j > 1 {
      CutsGrow(cfg, p, j - 1);
      assert p.cuts[j] == p.cuts[j - 1] + Full(cfg);
    } else {
      assert p.cuts[0] < p.cuts[1];
    }
  }

  // fragmentproto_max_chunks_for_frame bounds the chunks of a frame, those still to come
  // included.
  lemma TotalBound(cfg: Config, p: Plan)
    requires cfg.Valid() && p.Valid() && FullMiddle(cfg, p) && |p.data| <= cfg.inputMtu
    ensures p.Total() <= MaxChunksForFrame(cfg.outputMtu, cfg.inputMtu)
  {
    var m, n := Full(cfg), p.Total();
    var r := DivideUp(cfg.inputMtu, m);
    if n >= 2 && p.data != [] {
      CutsGrow(cfg, p, n - 1);
      if n - 2 >= r {
        Scale(n - 2, r, m);
      }
    }
  }

  // With the sizes DatagramPeerIO uses, the in-order round trip needs no further condition.
  lemma LosslessAsDeployed(cfg: Config, es: seq<Event>, p: Params)
    requires cfg.Valid() && cfg.chunkMtu < 0 && Runs(Start(cfg), es)
    requires p.Valid() && p.outputMtu >= cfg.inputMtu && p.numChunks == MaxChunksForFrame(cfg.outputMtu, cfg.inputMtu)
    ensures var h := Run(Start(cfg), es);
      PacketsExist(h.plans, h.sent) &&
      var delivered := ProcessRun(Init(p), WireRun(h.plans, h.sent)).1;
      && delivered <= Accepted([], es)
      && (Idle(h) ==> delivered == Accepted([], es))
  {
    var h := Run(Start(cfg), es);
    RunFull(Start(cfg), es);
    RunFrames(Start(cfg), es, ORIGIN);
    forall i | 0 <= i < |h.plans| ensures h.plans[i].Total() <= p.numChunks {
      TotalBound(cfg, h.plans[i]);
    }
    LosslessInOrder(cfg, es, p);
  }
}
