// A disassembler writes parts in order, and packets that arrive in the order they were sent
// are always tolerable to the assembler.
module InOrder {
  import opened Bytes
  import opened Wrappers
  import opened FragmentPlan
  import opened DisassemblerSpec
  import opened PartOrder
  import opened AssemblerSpec
  import opened IdealReceiver

  lemma WriteOneNext(h: History)
    requires Cutting(h) && AllValid(h)
    ensures Next(h) == Part(h.Cur(), h.Last().Parts())
    ensures PartExists(WriteOne(h).plans, Next(h))
    ensures Next(WriteOne(h)) == Succ(WriteOne(h).plans, Next(h))
  {
    WriteOneKeeps(h);
    var p, q := h.Last(), WriteOne(h).Last();
    assert !p.Whole();
    assert q.cuts[p.Parts() + 1] == q.cuts[|q.cuts| - 1];
  }

  lemma WriteOneOrdered(h: History, o: Origin)
    requires Cutting(h) && AllValid(h) && Ordered(h, o)
    ensures Ordered(WriteOne(h), o)
  {
    WriteOneKeeps(h);
    WriteOneNext(h);
    var r := WriteOne(h);
    ChainExists(h.plans, o.First(), Stream(h, o));
    Associative(Flat(h.sent[o.packets..]), h.held.value, [Next(h)]);
    assert Stream(r, o) == Stream(h, o) + [Next(h)];
    ChainStable(h.plans, r.plans, o.First(), Stream(h, o));
    ChainAppend(r.plans, o.First(), Stream(h, o));
  }

  lemma {:induction false} WriteLoopOrdered(h: History, o: Origin)
    requires Cutting(h) && AllValid(h) && Ordered(h, o)
    ensures Ordered(WriteLoop(h), o)
    decreases Avail(h.Last())
  {
    WriteOneKeeps(h);
    WriteOneOrdered(h, o);
    var r := WriteOne(h);
    if Avail(r.Last()) > 0 && Room(r.cfg, r.plans, r.held.value) > 0 {
      WriteLoopOrdered(r, o);
    }
  }

  lemma SendOrdered(h: History, o: Origin)
    requires h.held.Some? && Ordered(h, o)
    ensures Ordered(h.(sent := h.sent + [h.held.value], held := None), o)
  {
    FlatAppend(h.sent[o.packets..], h.held.value);
    var r := h.(sent := h.sent + [h.held.value], held := None);
    assert r.sent[o.packets..] == h.sent[o.packets..] + [h.held.value];
    assert Stream(r, o) == Stream(h, o);
  }

  lemma DoneOrdered(h: History, o: Origin)
    requires Ordered(h, o) && Wrote(h) && Avail(h.Last()) == 0
    ensures Ordered(h.(busy := false, nextId := (h.nextId + 1) % 0x1_0000), o)
  {
  }

  lemma WriteChunksOrdered(h: History, o: Origin)
    requires Cutting(h) && AllValid(h) && Ordered(h, o)
    ensures Ordered(WriteChunks(h), o)
  {
    WriteLoopOrdered(h, o);
    var w := WriteLoop(h);
    var r := if Avail(w.Last()) == 0 then w.(busy := false, nextId := (w.nextId + 1) % 0x1_0000) else w;
    if Avail(w.Last()) == 0 {
      DoneOrdered(w, o);
    }
    SendOrdered(r, o);
  }

  // A cancel is harmless when nothing of the frame was written yet.
  predicate Harmless(h: History, e: Event) {
    e.Cancel? ==> h.plans != [] && h.Last().cuts == [0]
  }

  lemma AcceptOrdered(h: History, frame: seq<byte>, o: Origin)
    requires Rest(h) && Enabled(h, Send(frame)) && Ordered(h, o)
    ensures Ordered(Accept(h, frame), o)
  {
    var g := Accept(h, frame);
    assert Extends(h.plans, g.plans);
    assert Stream(g, o) == Stream(h, o);
    ChainExists(h.plans, o.First(), Stream(h, o));
    ChainStable(h.plans, g.plans, o.First(), Stream(h, o));
  }

  lemma AbandonOrdered(h: History, o: Origin)
    requires Rest(h) && h.busy && h.Last().cuts == [0] && Ordered(h, o)
    ensures Ordered(Abandon(h), o)
  {
    hide Flat;
    var r := Abandon(h);
    assert Stream(r, o) == Stream(h, o);
    ChainExists(h.plans, o.First(), Stream(h, o));
    forall j | 0 <= j < |Stream(h, o)| ensures PartExists(r.plans, Stream(h, o)[j]) {
      assert PartExists(h.plans, Stream(h, o)[j]);
    }
    assert Extends(r.plans, h.plans);
    ChainStable(r.plans, h.plans, o.First(), Stream(h, o));
  }

  lemma StepOrdered(h: History, e: Event, o: Origin)
    requires Rest(h) && Enabled(h, e) && Harmless(h, e) && Ordered(h, o)
    ensures Ordered(Step(h, e), o)
  {
    match e
    case Send(frame) =>
      AcceptOrdered(h, frame, o);
      if h.held.Some? {
        AcceptCutting(h, frame);
        WriteChunksOrdered(Accept(h, frame), o);
      }
    case Recv =>
      var g := h.(held := Some([]));
      assert Stream(g, o) == Stream(h, o);
      if h.busy {
        WriteChunksOrdered(g, o);
      }
    case Timer =>
      SendOrdered(h, o);
    case Cancel =>
      AbandonOrdered(h, o);
  }

  // ----- the receiving side -----

  function Upto(n: nat): (s: seq<nat>)
    ensures |s| == n && forall i :: 0 <= i < n ==> s[i] == i
  {
    seq(n, i requires 0 <= i < n => i)
  }

  // The ideal receiver after all parts before `pos`: earlier frames are done, in order, and
  // at most the frame of `pos` is live, last served in this packet or the previous one.
  ghost predicate At(t: Ideal, pos: Part) {
    && t.done == Upto(pos.frame)
    && (if pos.k == 0 then t.live == []
        else |t.live| == 1 && t.live[0].frame == pos.frame && t.live[0].got == Upto(pos.k)
             && t.live[0].at <= t.clock <= t.live[0].at + 1)
  }

  // ... and served in this packet.
  ghost predicate Fresh(t: Ideal) {
    forall l :: l in t.live ==> l.at == t.clock
  }

  lemma UptoNext(n: nat)
    ensures Upto(n) + [n] == Upto(n + 1)
  {
  }

  lemma InOrderPart(plans: seq<Plan>, p: Params, t: Ideal, pos: Part)
    requires p.Valid() && PartExists(plans, pos) && At(t, pos)
    ensures Tolerable(plans, p, t, pos)
    ensures At(Receive(plans, t, pos), Succ(plans, pos)) && Fresh(Receive(plans, t, pos))
  {
    var plan := plans[pos.frame];
    UptoNext(pos.k);
    UptoNext(pos.frame);
    assert plan.cuts[pos.k + 1] == |plan.data| <==> plan.Whole() && pos.k + 1 == plan.Parts();
    if pos.k == 0 {
      assert t.live == [];
      assert [] + [pos.k] == Upto(1);
    } else {
      assert t.live == [t.live[0]];
    }
  }

  lemma {:induction false} InOrderParts(plans: seq<Plan>, p: Params, t: Ideal, pos: Part, parts: seq<Part>)
    requires p.Valid() && At(t, pos) && Chain(plans, pos, parts)
    ensures TolerableParts(plans, p, t, parts)
    ensures At(ReceiveParts(plans, p, t, parts), End(plans, pos, parts))
    ensures parts != [] || Fresh(t) ==> Fresh(ReceiveParts(plans, p, t, parts))
    decreases |parts|
  {
    if parts != [] {
      assert parts[0] == pos && parts == [pos] + parts[1..];
      assert PartExists(plans, parts[0]);
      InOrderPart(plans, p, t, pos);
      ChainSplit(plans, pos, [pos], parts[1..]);
      InOrderParts(plans, p, Receive(plans, t, pos), Succ(plans, pos), parts[1..]);
    }
  }

  ghost predicate Nonempty(packets: seq<seq<Part>>) {
    forall i :: 0 <= i < |packets| ==> packets[i] != []
  }

  lemma InOrderPacket(plans: seq<Plan>, p: Params, t: Ideal, pos: Part, parts: seq<Part>)
    requires p.Valid() && At(t, pos) && Chain(plans, pos, parts) && parts != []
    ensures TolerablePacket(plans, p, t, parts)
    ensures At(ReceivePacket(plans, p, t, parts), End(plans, pos, parts))
  {
    InOrderParts(plans, p, t, pos, parts);
  }

  // Packets received in the order they were sent are tolerable, whatever the table size,
  // and complete exactly the frames that end before the last position.
  lemma {:induction false} InOrderRun(plans: seq<Plan>, p: Params, t: Ideal, pos: Part, packets: seq<seq<Part>>)
    requires p.Valid() && At(t, pos) && Nonempty(packets) && Chain(plans, pos, Flat(packets))
    ensures TolerableRun(plans, p, t, packets)
    ensures At(ReceiveRun(plans, p, t, packets), End(plans, pos, Flat(packets)))
    decreases |packets|
  {
    if packets != [] {
      ChainSplit(plans, pos, packets[0], Flat(packets[1..]));
      InOrderPacket(plans, p, t, pos, packets[0]);
      InOrderRun(plans, p, ReceivePacket(plans, p, t, packets[0]), End(plans, pos, packets[0]), packets[1..]);
    }
  }
}
