// What every run of the disassembler keeps: packets are nonempty and within the output MTU,
// a held packet has room for a nonempty chunk, parts tile their frames in order, and without
// a chunk limit a frame takes no more chunks than fragmentproto_max_chunks_for_frame says.
module DisassemblerSafety {
  import opened Wrappers
  import opened FragmentProto
  import opened FragmentPlan
  import opened DisassemblerSpec

  lemma ExtendsTransitive(a: seq<Plan>, b: seq<Plan>, c: seq<Plan>)
    requires Extends(a, b) && Extends(b, c)
    ensures Extends(a, c)
  {
    forall i | 0 <= i < |a| ensures a[i].cuts <= c[i].cuts {
      assert a[i].cuts <= b[i].cuts <= c[i].cuts;
    }
  }

  // What the loop of write_chunks leaves alone, and where it stops.
  ghost predicate LoopFrom(h: History, r: History) {
    && Wrote(r) && AllValid(r)
    && r.cfg == h.cfg && r.sent == h.sent && r.nextId == h.nextId && r.busy
    && |r.plans| == |h.plans| && h.plans != [] && r.plans[..h.Cur()] == h.plans[..h.Cur()]
    && Extends(h.plans, r.plans)
  }

  lemma WriteOneFrom(h: History)
    requires Cutting(h) && AllValid(h)
    ensures LoopFrom(h, WriteOne(h))
    ensures WireSize(WriteOne(h).plans, WriteOne(h).held.value) <= h.cfg.outputMtu
  {
    WriteOneKeeps(h);
  }

  lemma LoopFromTransitive(h: History, r: History, q: History)
    requires LoopFrom(h, r) && LoopFrom(r, q)
    ensures LoopFrom(h, q)
  {
    ExtendsTransitive(h.plans, r.plans, q.plans);
  }

  lemma {:induction false} WriteLoopStops(h: History)
    requires Cutting(h) && AllValid(h)
    ensures LoopFrom(h, WriteLoop(h))
    ensures var r := WriteLoop(h);
      && WireSize(r.plans, r.held.value) <= h.cfg.outputMtu
      && (Avail(r.Last()) == 0 || Room(r.cfg, r.plans, r.held.value) <= 0)
    decreases Avail(h.Last())
  {
    WriteOneKeeps(h);
    WriteOneFrom(h);
    var r := WriteOne(h);
    if Avail(r.Last()) > 0 && Room(r.cfg, r.plans, r.held.value) > 0 {
      WriteLoopStops(r);
      LoopFromTransitive(h, r, WriteLoop(r));
    }
  }

  ghost predicate SentOk(h: History) {
    forall i :: 0 <= i < |h.sent| ==>
      h.sent[i] != [] && PartsExist(h.plans, h.sent[i]) && WireSize(h.plans, h.sent[i]) <= h.cfg.outputMtu
  }

  lemma SentStillOk(h: History, r: History)
    requires SentOk(h) && Extends(h.plans, r.plans) && r.sent == h.sent && r.cfg == h.cfg
    ensures SentOk(r)
  {
    forall i | 0 <= i < |r.sent|
      ensures PartsExist(r.plans, r.sent[i]) && WireSize(r.plans, r.sent[i]) <= r.cfg.outputMtu
    {
      PartsStillExist(h.plans, r.plans, h.sent[i]);
      WireSizeStable(h.plans, r.plans, h.sent[i]);
    }
  }

  ghost predicate WithinInput(h: History) {
    forall i :: 0 <= i < |h.plans| ==> h.plans[i].Valid() && |h.plans[i].data| <= h.cfg.inputMtu
  }

  // Finishing a packet after the loop stopped leads back to rest.
  lemma FinishKeeps(r: History)
    requires Wrote(r) && WithinInput(r) && SentOk(r) && r.nextId < 0x1_0000
    requires WireSize(r.plans, r.held.value) <= r.cfg.outputMtu
    requires Avail(r.Last()) == 0 || Room(r.cfg, r.plans, r.held.value) <= 0
    requires r.Last().id == r.nextId
    ensures Rest(Finish(r)) && Finish(r).plans == r.plans
  {
    var f := Finish(r);
    forall i | 0 <= i < |f.sent|
      ensures f.sent[i] != [] && PartsExist(f.plans, f.sent[i]) && WireSize(f.plans, f.sent[i]) <= f.cfg.outputMtu
    {
      if i < |r.sent| {
        assert f.sent[i] == r.sent[i];
      }
    }
  }

  lemma WriteChunksKeeps(h: History)
    requires Cutting(h) && WithinInput(h) && SentOk(h) && h.nextId < 0x1_0000 && h.Last().id == h.nextId
    ensures Rest(WriteChunks(h)) && Extends(h.plans, WriteChunks(h).plans)
  {
    WriteLoopStops(h);
    var r := WriteLoop(h);
    SentStillOk(h, r);
    forall i | 0 <= i < |r.plans| ensures r.plans[i].Valid() && |r.plans[i].data| <= r.cfg.inputMtu {
      assert r.plans[i].data == h.plans[i].data;
    }
    FinishKeeps(r);
  }

  // Every event keeps the resting invariant: write_chunks is only entered when its ASSERTs
  // hold, no packet is empty or longer than the output MTU.
  lemma StepKeeps(h: History, e: Event)
    requires Rest(h) && Enabled(h, e)
    ensures Rest(Step(h, e))
  {
    match e
    case Send(frame) =>
      var g := Accept(h, frame);
      if h.held.Some? {
        AcceptCutting(h, frame);
        SentStillOk(h, g);
        WriteChunksKeeps(g);
      } else {
        assert Extends(h.plans, g.plans);
        SentStillOk(h, g);
      }
    case Recv =>
      var g := h.(held := Some([]));
      if h.busy {
        WriteChunksKeeps(g);
      }
    case Timer =>
    case Cancel =>
      AbandonKeeps(h);
  }

  lemma AbandonKeeps(h: History)
    requires Rest(h) && h.busy
    ensures Rest(Abandon(h))
  {
    if h.Last().cuts == [0] {
      var r := Abandon(h);
      forall i | 0 <= i < |r.sent|
        ensures PartsExist(r.plans, r.sent[i]) && WireSize(r.plans, r.sent[i]) == WireSize(h.plans, h.sent[i])
      {
        forall j | 0 <= j < |r.sent[i]| ensures PartExists(r.plans, r.sent[i][j]) {
          assert PartExists(h.plans, h.sent[i][j]);
        }
        assert Extends(r.plans, h.plans);
        WireSizeStable(r.plans, h.plans, r.sent[i]);
      }
    }
  }

  // Payload bytes of a packet that carries a single chunk.
  function Full(cfg: Config): (m: nat)
    requires cfg.Valid()
    ensures m > 0
  {
    cfg.outputMtu - HEADER_SIZE
  }

  // Every part but the first and the final one fills a packet of its own.
  ghost predicate FullMiddle(cfg: Config, p: Plan)
    requires cfg.Valid() && p.Valid()
  {
    forall k :: 1 <= k < p.Parts() && p.cuts[k + 1] < |p.data| ==> p.cuts[k + 1] - p.cuts[k] == Full(cfg)
  }

  ghost predicate AllFull(h: History) {
    h.cfg.Valid() && AllValid(h) && forall i :: 0 <= i < |h.plans| ==> FullMiddle(h.cfg, h.plans[i])
  }
}
