// The FragmentProto disassembler as a history: the frames it accepted with the cuts it made,
// the parts waiting in the held output packet and the parts of every packet it sent.
module DisassemblerSpec {
  import opened Bytes
  import opened Wrappers
  import opened FragmentProto
  import opened FragmentPlan

  // chunkMtu is positive, or negative for no limit; a negative latency means that packets
  // are never held back.
  datatype Config = Config(inputMtu: nat, outputMtu: nat, chunkMtu: int, latency: int) {
    predicate Valid() {
      inputMtu < 0x1_0000 && outputMtu > HEADER_SIZE && chunkMtu != 0
    }
  }

  // busy: an input frame, the last plan, is being cut. held: the parts of the output packet
  // being filled, None when there is no output packet.
  datatype History = History(
    cfg: Config, plans: seq<Plan>, busy: bool, held: Option<seq<Part>>, sent: seq<seq<Part>>, nextId: nat)
  {
    function Cur(): nat
      requires plans != []
    {
      |plans| - 1
    }

    function Last(): Plan
      requires plans != []
    {
      plans[|plans| - 1]
    }
  }

  function Start(cfg: Config): History {
    History(cfg, [], false, None, [], 0)
  }

  // IN_AVAIL
  function Avail(p: Plan): (n: nat)
    requires p.Valid()
  {
    |p.data| - p.cuts[|p.cuts| - 1]
  }

  // OUT_AVAIL
  function Room(cfg: Config, plans: seq<Plan>, held: seq<Part>): int
    requires PartsExist(plans, held)
  {
    cfg.outputMtu - WireSize(plans, held) - HEADER_SIZE
  }

  // A frame of which something, be it only an empty chunk, still has to be written.
  predicate Unfinished(p: Plan) {
    p.Valid() && (Avail(p) > 0 || p.cuts == [0])
  }

  // The precondition of write_chunks: input, output, and room for a nonempty chunk.
  predicate Cutting(h: History) {
    && h.cfg.Valid() && h.busy && h.plans != [] && Unfinished(h.Last())
    && h.held.Some? && PartsExist(h.plans, h.held.value)
    && Room(h.cfg, h.plans, h.held.value) > 0
  }

  function Min(a: int, b: int): int {
    if a < b then a else b
  }

  function ChunkLen(h: History): (n: nat)
    requires Cutting(h)
    ensures n <= Avail(h.Last()) && n <= Room(h.cfg, h.plans, h.held.value)
    ensures Avail(h.Last()) > 0 ==> n > 0
  {
    var n := Min(Avail(h.Last()), Room(h.cfg, h.plans, h.held.value));
    if h.cfg.chunkMtu > 0 then Min(n, h.cfg.chunkMtu) else n
  }

  // One chunk: a new cut of the current frame, and the part it ends added to the packet.
  function WriteOne(h: History): (r: History)
    requires Cutting(h)
  {
    var p := h.Last();
    var q := p.(cuts := p.cuts + [p.cuts[|p.cuts| - 1] + ChunkLen(h)]);
    h.(plans := h.plans[h.Cur() := q],
       held := Some(h.held.value + [Part(h.Cur(), p.Parts())]))
  }

  // The state after a chunk was written: the packet holds it and the current frame is cut.
  predicate Wrote(h: History) {
    && h.cfg.Valid() && h.busy && h.plans != [] && h.Last().Valid() && h.Last().Parts() > 0
    && h.held.Some? && h.held.value != [] && PartsExist(h.plans, h.held.value)
  }

  lemma CutValid(p: Plan, len: nat)
    requires Unfinished(p) && len <= Avail(p) && (Avail(p) > 0 ==> len > 0)
    ensures p.(cuts := p.cuts + [p.cuts[|p.cuts| - 1] + len]).Valid()
  {
    var q := p.(cuts := p.cuts + [p.cuts[|p.cuts| - 1] + len]);
    if Avail(p) == 0 {
      assert q.data == [] && q.cuts == [0, 0];
    } else {
      assert forall i, j :: 0 <= i < j < |q.cuts| ==> q.cuts[i] < q.cuts[j];
    }
  }

  lemma WriteOneExtends(h: History)
    requires Cutting(h) && forall i :: 0 <= i < |h.plans| ==> h.plans[i].Valid()
    ensures WriteOne(h).Last().Valid() && Extends(h.plans, WriteOne(h).plans)
    ensures Avail(WriteOne(h).Last()) == Avail(h.Last()) - ChunkLen(h)
  {
    CutValid(h.Last(), ChunkLen(h));
  }

  lemma WriteOneKeeps(h: History)
    requires Cutting(h) && forall i :: 0 <= i < |h.plans| ==> h.plans[i].Valid()
    ensures Wrote(WriteOne(h)) && Extends(h.plans, WriteOne(h).plans)
    ensures WireSize(WriteOne(h).plans, WriteOne(h).held.value) ==
      WireSize(h.plans, h.held.value) + HEADER_SIZE + ChunkLen(h) <= h.cfg.outputMtu
    ensures Avail(WriteOne(h).Last()) == Avail(h.Last()) - ChunkLen(h)
    ensures forall i :: 0 <= i < |h.plans| ==> WriteOne(h).plans[i].Valid()
  {
    WriteOneExtends(h);
    var r := WriteOne(h);
    PartsStillExist(h.plans, r.plans, h.held.value);
    WireSizeStable(h.plans, r.plans, h.held.value);
    WireSizeAppend(r.plans, h.held.value, Part(h.Cur(), h.Last().Parts()));
  }

  predicate AllValid(h: History) {
    forall i :: 0 <= i < |h.plans| ==> h.plans[i].Valid()
  }

  // The loop of write_chunks: at least one chunk, until the frame or the packet is used up.
  function WriteLoop(h: History): (r: History)
    requires Cutting(h) && AllValid(h)
    ensures Wrote(r) && AllValid(r)
    decreases Avail(h.Last())
  {
    WriteOneKeeps(h);
    var r := WriteOne(h);
    if Avail(r.Last()) > 0 && Room(r.cfg, r.plans, r.held.value) > 0 then WriteLoop(r) else r
  }

  // The rest of write_chunks: hand the finished input back, and send the packet when it is
  // full or must not wait.
  function Finish(h: History): History
    requires Wrote(h)
  {
    var r := if Avail(h.Last()) == 0 then h.(busy := false, nextId := (h.nextId + 1) % 0x1_0000) else h;
    if Room(h.cfg, h.plans, h.held.value) <= 0 || h.cfg.latency < 0
    then r.(sent := r.sent + [h.held.value], held := None)
    else r
  }

  function WriteChunks(h: History): History
    requires Cutting(h) && AllValid(h)
  {
    Finish(WriteLoop(h))
  }

  datatype Event = Send(frame: seq<byte>) | Recv | Timer | Cancel

  // When the surrounding interfaces raise each event: a frame only when no frame is being
  // sent, an output buffer only when none is held, the timer when a nonempty packet is held,
  // a cancel request only while the frame waits for an output buffer.
  predicate Enabled(h: History, e: Event) {
    match e
    case Send(frame) => !h.busy && |frame| <= h.cfg.inputMtu
    case Recv => h.held.None?
    case Timer => h.cfg.latency >= 0 && h.held.Some? && h.held.value != [] && !h.busy
    case Cancel => h.busy && h.held.None?
  }

  // What holds between events. A held packet always has room for a nonempty chunk.
  predicate Rest(h: History) {
    && h.cfg.Valid() && h.nextId < 0x1_0000
    && (forall i :: 0 <= i < |h.plans| ==> h.plans[i].Valid() && |h.plans[i].data| <= h.cfg.inputMtu)
    && (h.busy ==> h.plans != [] && Unfinished(h.Last()) && h.Last().id == h.nextId && h.held.None?)
    && (h.held.Some? ==> PartsExist(h.plans, h.held.value) && Room(h.cfg, h.plans, h.held.value) > 0)
    && (forall i :: 0 <= i < |h.sent| ==>
          h.sent[i] != [] && PartsExist(h.plans, h.sent[i]) && WireSize(h.plans, h.sent[i]) <= h.cfg.outputMtu)
  }

  function Accept(h: History, frame: seq<byte>): History {
    h.(plans := h.plans + [Plan(h.nextId, frame, [0])], busy := true)
  }

  // A cancelled frame of which nothing was written leaves no trace.
  function Abandon(h: History): History
    requires h.plans != []
  {
    if h.Last().cuts == [0] then h.(plans := h.plans[..h.Cur()], busy := false) else h.(busy := false)
  }

  function Step(h: History, e: Event): History
    requires Rest(h) && Enabled(h, e)
  {
    match e
    case Send(frame) =>
      var g := Accept(h, frame);
      if h.held.Some? then AcceptCutting(h, frame); WriteChunks(g) else g
    case Recv =>
      var g := h.(held := Some([]));
      if h.busy then WriteChunks(g) else g
    case Timer => h.(sent := h.sent + [h.held.value], held := None)
    case Cancel => Abandon(h)
  }

  lemma AcceptCutting(h: History, frame: seq<byte>)
    requires Rest(h) && Enabled(h, Send(frame)) && h.held.Some?
    ensures Cutting(Accept(h, frame)) && AllValid(Accept(h, frame)) && Extends(h.plans, Accept(h, frame).plans)
  {
    var g := Accept(h, frame);
    assert Extends(h.plans, g.plans);
    PartsStillExist(h.plans, g.plans, h.held.value);
    WireSizeStable(h.plans, g.plans, h.held.value);
  }
}
