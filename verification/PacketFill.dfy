// How full the disassembler makes its chunks and packets, and when a packet leaves, for any chunk
// limit and latency and with any cancels.
module PacketFill {
  import opened Wrappers
  import opened FragmentProto
  import opened FragmentPlan
  import opened DisassemblerSpec
  import opened DisassemblerSafety

  // A chunk is as long as the rest of its frame, the room in its packet and the chunk limit allow.
  function Longest(cfg: Config, rest: int, room: int): int {
    var n := if rest <= room then rest else room;
    if cfg.chunkMtu > 0 && cfg.chunkMtu < n then cfg.chunkMtu else n
  }

  // Every chunk of the packet is as long as it can be.
  predicate Greedy(cfg: Config, plans: seq<Plan>, packet: seq<Part>)
    requires PartsExist(plans, packet)
  {
    packet == [] ||
    var before, a := packet[..|packet| - 1], packet[|packet| - 1];
    var p := plans[a.frame];
    && Greedy(cfg, plans, before)
    && p.cuts[a.k + 1] - p.cuts[a.k] ==
       Longest(cfg, |p.data| - p.cuts[a.k], cfg.outputMtu - WireSize(plans, before) - HEADER_SIZE)
  }

  ghost predicate AllGreedy(h: History) {
    && (h.held.Some? ==> PartsExist(h.plans, h.held.value) && Greedy(h.cfg, h.plans, h.held.value))
    && (forall i :: 0 <= i < |h.sent| ==> PartsExist(h.plans, h.sent[i]) && Greedy(h.cfg, h.plans, h.sent[i]))
  }

  lemma {:induction false} GreedyStable(cfg: Config, plans: seq<Plan>, more: seq<Plan>, packet: seq<Part>)
    requires Extends(plans, more) && PartsExist(plans, packet) && PartsExist(more, packet)
    ensures Greedy(cfg, plans, packet) <==> Greedy(cfg, more, packet)
  {
    if packet != [] {
      var before := packet[..|packet| - 1];
      GreedyStable(cfg, plans, more, before);
      WireSizeStable(plans, more, before);
      assert PartExists(plans, packet[|packet| - 1]);
    }
  }

  lemma SentStillGreedy(h: History, r: History)
    requires AllGreedy(h) && Extends(h.plans, r.plans) && r.cfg == h.cfg && r.sent == h.sent
    ensures AllGreedy(r.(held := None)) && (h.held.Some? ==> PartsExist(r.plans, h.held.value) && Greedy(r.cfg, r.plans, h.held.value))
  {
    forall i | 0 <= i < |r.sent| ensures PartsExist(r.plans, r.sent[i]) && Greedy(r.cfg, r.plans, r.sent[i]) {
      PartsStillExist(h.plans, r.plans, h.sent[i]);
      GreedyStable(h.cfg, h.plans, r.plans, h.sent[i]);
    }
    if h.held.Some? {
      PartsStillExist(h.plans, r.plans, h.held.value);
      GreedyStable(h.cfg, h.plans, r.plans, h.held.value);
    }
  }

  lemma WriteOneGreedy(h: History)
    requires Cutting(h) && AllValid(h) && AllGreedy(h)
    ensures AllGreedy(WriteOne(h))
  {
    var r := WriteOne(h);
    WriteOneKeeps(h);
    SentStillGreedy(h, r);
    WireSizeStable(h.plans, r.plans, h.held.value);
    assert r.held.value[..|h.held.value|] == h.held.value;
  }

  lemma {:induction false} WriteLoopGreedy(h: History)
    requires Cutting(h) && AllValid(h) && AllGreedy(h)
    ensures AllGreedy(WriteLoop(h))
    decreases Avail(h.Last())
  {
    WriteOneKeeps(h);
    WriteOneGreedy(h);
    var r := WriteOne(h);
    if Avail(r.Last()) > 0 && Room(r.cfg, r.plans, r.held.value) > 0 {
      WriteLoopGreedy(r);
    }
  }

  lemma FinishGreedy(h: History)
    requires Wrote(h) && AllGreedy(h)
    ensures AllGreedy(Finish(h))
  {
    var r := Finish(h);
    forall i | 0 <= i < |r.sent| ensures PartsExist(r.plans, r.sent[i]) && Greedy(r.cfg, r.plans, r.sent[i]) {
      if i < |h.sent| {
        assert r.sent[i] == h.sent[i];
      }
    }
  }

  lemma WriteChunksGreedy(h: History)
    requires Cutting(h) && AllValid(h) && AllGreedy(h)
    ensures AllGreedy(WriteChunks(h))
  {
    WriteLoopGreedy(h);
    FinishGreedy(WriteLoop(h));
  }

  lemma AbandonGreedy(h: History)
    requires Rest(h) && Enabled(h, Cancel) && AllGreedy(h)
    ensures AllGreedy(Abandon(h))
  {
    var r := Abandon(h);
    AbandonKeeps(h);
    forall i | 0 <= i < |r.sent| ensures PartsExist(r.plans, r.sent[i]) && Greedy(r.cfg, r.plans, r.sent[i]) {
      if h.Last().cuts == [0] {
        assert Extends(r.plans, h.plans);
        GreedyStable(h.cfg, r.plans, h.plans, h.sent[i]);
      }
    }
  }

  // In every run every chunk is as long as it can be.
  lemma StepGreedy(h: History, e: Event)
    requires Rest(h) && Enabled(h, e) && AllGreedy(h)
    ensures AllGreedy(Step(h, e))
  {
    hide Greedy;
    match e
    case Send(frame) =>
      var g := Accept(h, frame);
      assert Extends(h.plans, g.plans);
      SentStillGreedy(h, g);
      if h.held.Some? {
        AcceptCutting(h, frame);
        WriteChunksGreedy(g);
      }
    case Recv =>
      NothingGreedy(h);
      if h.busy {
        WriteChunksGreedy(h.(held := Some([])));
      }
    case Timer =>
      TimerGreedy(h);
    case Cancel =>
      AbandonGreedy(h);
  }

  lemma NothingGreedy(h: History)
    requires AllGreedy(h)
    ensures AllGreedy(h.(held := Some([])))
  {
  }

  lemma TimerGreedy(h: History)
    requires Rest(h) && Enabled(h, Timer) && AllGreedy(h)
    ensures AllGreedy(Step(h, Timer))
  {
    var r := Step(h, Timer);
    forall i | 0 <= i < |r.sent| ensures PartsExist(r.plans, r.sent[i]) && Greedy(r.cfg, r.plans, r.sent[i]) {
      if i < |h.sent| {
        assert r.sent[i] == h.sent[i];
      }
    }
  }

  // When there is no room for a further chunk with a byte in it.
  predicate IsFull(cfg: Config, plans: seq<Plan>, packet: seq<Part>)
    requires PartsExist(plans, packet)
  {
    WireSize(plans, packet) + HEADER_SIZE >= cfg.outputMtu
  }

  // An event sends one packet at most. It leaves when it is full, at once if packets must not
  // wait, or at its timer; and no chunk waits in a packet that must not wait, so that only a packet
  // whose timer runs is held back.
  lemma LeavesWhenDue(h: History, e: Event)
    requires Rest(h) && Enabled(h, e)
    ensures var t := Step(h, e);
      && Rest(t)
      && (t.sent == h.sent || (|t.sent| == |h.sent| + 1 && t.sent[..|h.sent|] == h.sent))
      && (t.sent != h.sent ==> e == Timer || h.cfg.latency < 0 || IsFull(t.cfg, t.plans, t.sent[|h.sent|]))
      && (h.cfg.latency < 0 && (h.held.Some? ==> h.held.value == []) && t.held.Some? ==> t.held.value == [])
      && (t.held.Some? && t.held.value != [] && !t.busy && t.cfg.latency >= 0 ==> Enabled(t, Timer))
  {
    StepKeeps(h, e);
    hide Rest, PartsExist;
    match e
    case Send(frame) =>
      if h.held.Some? {
        AcceptCutting(h, frame);
        SentOnce(Accept(h, frame));
      }
    case Recv =>
      if h.busy {
        var g := h.(held := Some([]));
        assert Cutting(g) && AllValid(g) by {
          RecvCutting(h);
        }
        SentOnce(g);
      }
    case Timer =>
    case Cancel =>
  }

  lemma RecvCutting(h: History)
    requires Rest(h) && h.busy
    ensures Cutting(h.(held := Some([]))) && AllValid(h.(held := Some([])))
  {
  }

  lemma SentOnce(h: History)
    requires Cutting(h) && AllValid(h)
    ensures var t := WriteChunks(h);
      && t.cfg == h.cfg
      && (t.sent == h.sent || (|t.sent| == |h.sent| + 1 && t.sent[..|h.sent|] == h.sent))
      && (t.sent != h.sent ==> PartsExist(t.plans, t.sent[|h.sent|]) && (h.cfg.latency < 0 || IsFull(t.cfg, t.plans, t.sent[|h.sent|])))
      && (h.cfg.latency < 0 ==> t.held.None?)
  {
    WriteLoopStops(h);
    hide Cutting, WriteLoop;
  }
}
