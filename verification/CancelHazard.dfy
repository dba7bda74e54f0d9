// The round trip is stated for cancels that come before anything of the frame was written.
// This is why: a frame cancelled later is forgotten by the disassembler, but its id is given
// to the next frame, and the assembler then drops that frame.
module CancelHazard {
  import opened Bytes
  import opened Wrappers
  import opened FragmentProto
  import opened FragmentPlan
  import opened DisassemblerSpec
  import opened DisassemblerSafety
  import opened PartOrder
  import opened InOrder
  import opened AssemblerSpec
  import opened AssemblerSafety
  import opened IdealReceiver
  import opened Reordering
  import opened RoundTrip
  import opened OneDelivery

  // A frame cancelled after part of it was sent leaves its id in use: the first chunk of the
  // next frame has the same id and start, and makes the assembler drop both.
  lemma AbandonedFramePoisonsNext(s: State, i: nat, c: Chunk)
    requires Inv(s) && i < |s.used| && s.used[i].id == c.id && !TimedOut(s, s.used[i])
    requires exists j :: 0 <= j < |s.used[i].chunks| && s.used[i].chunks[j].start == 0 && s.used[i].chunks[j].data != []
    requires s.used[i].length < 0 && c.start == 0 && c.End() <= s.params.outputMtu && (c.data != [] || c.last)
    ensures ProcessChunk(s, c) == (s.(used := Without(s.used, i)), None)
  {
    var j :| 0 <= j < |s.used[i].chunks| && s.used[i].chunks[j].start == 0 && s.used[i].chunks[j].data != [];
    assert s.used[i] in s.used && FrameOk(s.params, s.used[i]);
    if c.data == [] {
      assert s.used[i].chunks[j].End() <= s.used[i].lengthSoFar;
    } else {
      assert Overlap(s.used[i].chunks[j], Stored(c.start, c.data));
    }
  }

  // ----- what the disassembler does after a cancel -----

  ghost function Cancelled(h: History): (g: History)
    requires Rest(h) && Enabled(h, Cancel)
    ensures Rest(g)
  {
    StepKeeps(h, Cancel);
    Step(h, Cancel)
  }

  // x came from g: the frames and packets of g are there, and the first frame accepted since then
  // has the id that was next in g.
  ghost predicate Continues(g: History, x: History) {
    && |g.plans| + (if x.busy then 1 else 0) <= |x.plans| && g.plans <= x.plans && g.sent <= x.sent
    && (if |x.plans| == |g.plans| then x.nextId == g.nextId else x.plans[|g.plans|].id == g.nextId)
  }

  lemma WriteChunksContinues(g: History, h: History)
    requires Cutting(h) && AllValid(h) && Continues(g, h)
    ensures Continues(g, WriteChunks(h))
  {
    hide Wrote, Room;
    WriteLoopStops(h);
    var r, n := WriteLoop(h), |g.plans|;
    assert forall i :: 0 <= i < n ==> r.plans[i] == r.plans[..h.Cur()][i] && h.plans[i] == h.plans[..h.Cur()][i];
    if n < h.Cur() {
      assert r.plans[n] == r.plans[..h.Cur()][n] && h.plans[n] == h.plans[..h.Cur()][n];
    }
  }

  lemma StepContinues(g: History, x: History, e: Event)
    requires Rest(x) && Enabled(x, e) && Harmless(x, e) && Continues(g, x)
    ensures Continues(g, Step(x, e))
  {
    match e
    case Send(frame) =>
      assert Continues(g, Accept(x, frame));
      if x.held.Some? {
        AcceptCutting(x, frame);
        WriteChunksContinues(g, Accept(x, frame));
      }
    case Recv =>
      if x.busy {
        WriteChunksContinues(g, x.(held := Some([])));
      }
    case Timer =>
    case Cancel =>
  }

  lemma {:induction false} RunContinues(g: History, x: History, es: seq<Event>)
    requires Rest(x) && Runs(x, es) && Continues(g, x)
    ensures Continues(g, Run(x, es))
    decreases |es|
  {
    if es != [] {
      StepKeeps(x, es[0]);
      StepContinues(g, x, es[0]);
      RunContinues(g, Step(x, es[0]), es[1..]);
    }
  }

  // ----- the assembler at the time of the cancel -----

  lemma StartsEmpty(p: Params)
    requires p.Valid()
    ensures Inv(Init(p))
  {
  }

  // The packets sent end inside the frame being cut.
  lemma SentEnd(h: History)
    requires Rest(h) && Ordered(h, ORIGIN) && h.busy
    ensures h.sent[0..] == h.sent && Stream(h, ORIGIN) == Flat(h.sent)
    ensures End(h.plans, ORIGIN.First(), Flat(h.sent)) == Next(h) && Next(h).frame == h.Cur()
  {
    assert h.sent[0..] == h.sent && Stream(h, ORIGIN) == Flat(h.sent);
  }

  // The assembler's table when the cancel comes: one frame, the cancelled one.
  lemma PartialFrameLeft(h: History, p: Params, s: State)
    requires Rest(h) && Ordered(h, ORIGIN) && h.busy && h.Last().cuts != [0]
    requires p.Valid() && Fits(h.plans, p) && PacketsExist(h.plans, h.sent)
    requires s == ProcessRun(Init(p), WireRun(h.plans, h.sent)).0
    ensures Inv(s) && s.params == p && |s.used| == 1
    ensures s.used[0].id == h.nextId && !TimedOut(s, s.used[0]) && s.used[0].length < 0
    ensures |s.used[0].chunks| > 0 && s.used[0].chunks[0].start == 0 && s.used[0].chunks[0].data != []
  {
    hide Rest, Fits, Ordered, Stream, Chain, Mirrors;
    SentChain(h);
    SentEnd(h);
    StartsEmpty(p);
    assert At(START, ORIGIN.First());
    InOrderRun(h.plans, p, START, ORIGIN.First(), h.sent);
    RunMirrors(h.plans, START, Init(p), h.sent);
    ProcessRunParams(Init(p), WireRun(h.plans, h.sent));
    LiveFrameHeld(h, p, s, ReceiveRun(h.plans, p, START, h.sent));
  }

  lemma LiveFrameHeld(h: History, p: Params, s: State, t: Ideal)
    requires Rest(h) && h.busy && h.Last().cuts != [0] && p.Valid() && s.params == p
    requires At(t, Next(h)) && Mirrors(h.plans, t, s)
    ensures Inv(s) && |s.used| == 1
    ensures s.used[0].id == h.nextId && !TimedOut(s, s.used[0]) && s.used[0].length < 0
    ensures |s.used[0].chunks| > 0 && s.used[0].chunks[0].start == 0 && s.used[0].chunks[0].data != []
  {
    var plan := h.Last();
    assert !plan.Whole() && plan.Parts() > 0;
    assert MirrorsEntry(h.plans, t, s, t.live[0], s.used[0]);
    assert t.live[0].got[0] == 0;
    assert s.used[0].chunks[0] == StoredAt(plan, 0);
    assert plan.cuts[0] < plan.cuts[1];
  }

  lemma {:induction false} ProcessRunParams(s: State, packets: seq<seq<byte>>)
    requires Inv(s)
    ensures ProcessRun(s, packets).0.params == s.params
    decreases |packets|
  {
    if packets != [] {
      ProcessPacketParams(s, packets[0]);
      ProcessRunParams(ProcessPacket(s, packets[0]).0, packets[1..]);
    }
  }

  lemma {:induction false} ProcessPacketParams(s: State, b: seq<byte>)
    requires Inv(s)
    ensures ProcessPacket(s, b).0.params == s.params
    decreases |b|
  {
    var scan := ScanPacket(s, b);
    ScanKeeps(s, b);
    if scan.sent.Some? {
      ProcessPacketParams(scan.state, scan.rest);
    }
  }

  lemma {:induction false} ProcessRunAppend(s: State, a: seq<seq<byte>>, b: seq<seq<byte>>)
    requires Inv(s)
    ensures ProcessRun(s, a + b).1 == ProcessRun(s, a).1 + ProcessRun(ProcessRun(s, a).0, b).1
    decreases |a|
  {
    if a == [] {
      assert a + b == b;
    } else {
      var r := ProcessPacket(s, a[0]);
      assert (a + b)[1..] == a[1..] + b && (a + b)[0] == a[0];
      ProcessRunAppend(r.0, a[1..], b);
      ConcatFrames(r.1, ProcessRun(r.0, a[1..]).1, ProcessRun(ProcessRun(s, a).0, b).1);
    }
  }

  lemma ConcatFrames(a: seq<seq<byte>>, b: seq<seq<byte>>, c: seq<seq<byte>>)
    ensures a + (b + c) == (a + b) + c
  {
  }

  // The next frame's first chunk meets the abandoned frame.
  lemma NextIsRejected(plans: seq<Plan>, s: State, pos: Part)
    requires Inv(s) && |s.used| == 1 && !TimedOut(s, s.used[0]) && s.used[0].length < 0
    requires |s.used[0].chunks| > 0 && s.used[0].chunks[0].start == 0 && s.used[0].chunks[0].data != []
    requires PartExists(plans, pos) && pos.k == 0 && plans[pos.frame].id == s.used[0].id
    requires |plans[pos.frame].data| <= s.params.outputMtu
    ensures Rejected(plans, s, pos)
  {
    var c := plans[pos.frame].ChunkAt(0);
    AbandonedFramePoisonsNext(s, 0, c);
    ProcessChunkKeeps(s, c);
  }

  lemma WireSplit(plans: seq<Plan>, more: seq<Plan>, a: seq<seq<Part>>, b: seq<seq<Part>>)
    requires Extends(plans, more) && PacketsExist(plans, a) && PacketsExist(more, a + b)
    ensures PacketsExist(more, b) && WireRun(more, a + b) == WireRun(plans, a) + WireRun(more, b)
  {
    forall i | 0 <= i < |b| ensures PartsExist(more, b[i]) {
      assert (a + b)[|a| + i] == b[i];
    }
    forall i | 0 <= i < |a| ensures Wire(more, (a + b)[i]) == Wire(plans, a[i]) {
      PartsStillExist(plans, more, a[i]);
    }
    assert forall i :: 0 <= i < |b| ==> (a + b)[|a| + i] == b[i];
  }

  // The table and the frames delivered when the cancel comes.
  lemma BeforeCancel(h: History, p: Params) returns (s: State)
    requires Rest(h) && Ordered(h, ORIGIN) && h.busy && h.Last().cuts != [0] && p.Valid() && Fits(h.plans, p)
    ensures PacketsExist(h.plans, h.sent)
    ensures ProcessRun(Init(p), WireRun(h.plans, h.sent)) == (s, Frames(h.plans)[..h.Cur()])
    ensures Inv(s) && s.params == p && |s.used| == 1
    ensures s.used[0].id == h.nextId && !TimedOut(s, s.used[0]) && s.used[0].length < 0
    ensures |s.used[0].chunks| > 0 && s.used[0].chunks[0].start == 0 && s.used[0].chunks[0].data != []
  {
    hide Rest, Inv, Fits, ProcessRun, WireRun, Chain, Ordered, Stream, Frames, Next;
    StartsEmpty(p);
    DeliveredInOrder(h, p);
    SentEnd(h);
    s := ProcessRun(Init(p), WireRun(h.plans, h.sent)).0;
    PartialFrameLeft(h, p, s);
  }

  // The packets written after the cancel.
  lemma LaterPackets(h: History, r: History) returns (later: seq<seq<Part>>)
    requires Rest(h) && Rest(r) && Idle(r) && Continues(h.(busy := false), r)
    requires Ordered(r, Origin(|h.sent|, |h.plans|))
    ensures r.sent == h.sent + later && Extends(h.plans, r.plans) && h.plans <= r.plans
    ensures PacketsExist(r.plans, r.sent) && Chain(r.plans, Part(|h.plans|, 0), Flat(later))
    ensures End(r.plans, Part(|h.plans|, 0), Flat(later)) == Part(|r.plans|, 0)
    ensures later == [] ==> |r.plans| == |h.plans|
    ensures later != [] ==>
      && later[0] != [] && PartExists(r.plans, Part(|h.plans|, 0)) && r.plans[|h.plans|].id == h.nextId
  {
    later := r.sent[|h.sent|..];
    assert r.sent == h.sent + later;
    assert Stream(r, Origin(|h.sent|, |h.plans|)) == Flat(later);
    if later != [] {
      assert later[0] == r.sent[|h.sent|];
      assert Flat(later)[0] == later[0][0];
    }
  }

  // What the packets of the whole run make the assembler deliver.
  lemma AfterCancel(h: History, p: Params, r: History)
    requires Rest(h) && Ordered(h, ORIGIN) && h.busy && h.Last().cuts != [0] && p.Valid()
    requires Rest(r) && Idle(r) && Fits(r.plans, p) && Continues(h.(busy := false), r)
    requires Ordered(r, Origin(|h.sent|, |h.plans|))
    ensures PacketsExist(r.plans, r.sent)
    ensures var delivered := ProcessRun(Init(p), WireRun(r.plans, r.sent)).1;
      if |r.plans| == |h.plans| then delivered == Frames(h.plans)[..h.Cur()] else |delivered| < |r.plans| - 1
  {
    var first := Part(|h.plans|, 0);
    var later := LaterPackets(h, r);
    FitsFewer(h.plans, r.plans, p);
    FitsOne(r.plans, p);
    hide Ordered, Rest, Continues, Idle, Chain, Inv, Fits, Extends, PacketsExist, WireRun, ProcessRun, Frames;
    var s := BeforeCancel(h, p);
    WireSplit(h.plans, r.plans, h.sent, later);
    ProcessRunAppend(Init(p), WireRun(h.plans, h.sent), WireRun(r.plans, later));
    if later != [] {
      NextIsRejected(r.plans, s, first);
      RunLoses(r.plans, s, first, later);
      StartsCount(r.plans, first, Flat(later));
    } else {
      NothingMore(r.plans, s);
    }
  }

  lemma FitsOne(plans: seq<Plan>, p: Params)
    requires Fits(plans, p)
    ensures forall i :: 0 <= i < |plans| ==> |plans[i].data| <= p.outputMtu
  {
  }

  lemma NothingMore(plans: seq<Plan>, s: State)
    requires Inv(s)
    ensures PacketsExist(plans, []) && ProcessRun(s, WireRun(plans, [])).1 == []
  {
  }

  lemma FitsFewer(plans: seq<Plan>, more: seq<Plan>, p: Params)
    requires plans <= more && Fits(more, p)
    ensures Fits(plans, p)
  {
    assert forall i :: 0 <= i < |plans| ==> plans[i] == more[i];
  }

  // ----- runs with a cancel in them -----

  lemma {:induction false} RunsAppend(h: History, a: seq<Event>, b: seq<Event>)
    requires Rest(h) && Runs(h, a) && Runs(Run(h, a), b)
    ensures Runs(h, a + b) && Run(h, a + b) == Run(Run(h, a), b)
    decreases |a|
  {
    hide Step, Enabled, WireSize, Room, Rest;
    if a == [] {
      assert a + b == b;
    } else {
      hide Step, Rest;
      StepKeeps(h, a[0]);
      RunsAppend(Step(h, a[0]), a[1..], b);
      assert (a + b)[1..] == a[1..] + b && (a + b)[0] == a[0];
    }
  }

  lemma {:induction false} AcceptedAppend(acc: seq<seq<byte>>, a: seq<Event>, b: seq<Event>)
    ensures Accepted(acc, a + b) == Accepted(Accepted(acc, a), b)
    decreases |a|
  {
    if a == [] {
      assert a + b == b;
    } else {
      assert (a + b)[1..] == a[1..] + b && (a + b)[0] == a[0];
      AcceptedAppend(AcceptedAfter(acc, a[0]), a[1..], b);
    }
  }

  // A run cancels only frames it accepted.
  lemma {:induction false} AcceptedSince(h: History, es: seq<Event>, a: seq<seq<byte>>, b: seq<seq<byte>>)
    requires Rest(h) && Runs(h, es) && (h.busy ==> b != [])
    ensures Accepted(a + b, es) == a + Accepted(b, es)
    decreases |es|
  {
    if es != [] {
      hide Step, Rest;
      StepKeeps(h, es[0]);
      AcceptedSinceOne(h, es[0], a, b);
      AcceptedSince(Step(h, es[0]), es[1..], a, AcceptedAfter(b, es[0]));
    }
  }

  lemma AcceptedSinceOne(h: History, e: Event, a: seq<seq<byte>>, b: seq<seq<byte>>)
    requires Rest(h) && Enabled(h, e) && (h.busy ==> b != [])
    ensures AcceptedAfter(a + b, e) == a + AcceptedAfter(b, e) && (Step(h, e).busy ==> AcceptedAfter(b, e) != [])
  {
  }

  // Exactly when a cancel does no harm. After any run of harmless events, any cancel and any
  // further run of harmless events that leaves nothing to send, the assembler has delivered all
  // frames accepted and not cancelled if and only if nothing of the cancelled frame had been
  // written, or no frame was accepted after it.
  lemma CancelIsHarmlessExactly(cfg: Config, es: seq<Event>, rest: seq<Event>, p: Params)
    requires cfg.Valid() && p.Valid() && Runs(Start(cfg), es) && Enabled(Run(Start(cfg), es), Cancel)
    requires Runs(Cancelled(Run(Start(cfg), es)), rest)
    requires Idle(Run(Cancelled(Run(Start(cfg), es)), rest)) && Fits(Run(Cancelled(Run(Start(cfg), es)), rest).plans, p)
    ensures var h := Run(Start(cfg), es);
      var r := Run(Cancelled(h), rest);
      && PacketsExist(r.plans, r.sent)
      && (ProcessRun(Init(p), WireRun(r.plans, r.sent)).1 == Accepted([], es + [Cancel] + rest)
          <==> Harmless(h, Cancel) || Accepted([], rest) == [])
  {
    hide Room, Finish;
    var s := Start(cfg);
    var h := Run(s, es);
    var g := Cancelled(h);
    var r := Run(g, rest);
    if Harmless(h, Cancel) {
      assert [Cancel][1..] == [];
      assert Runs(g, []) && Run(g, []) == g;
      assert Runs(h, [Cancel]) && Run(h, [Cancel]) == g;
      RunsAppend(s, es, [Cancel]);
      RunsAppend(s, es + [Cancel], rest);
      LosslessInOrder(cfg, es + [Cancel] + rest, p);
    } else {
      RunFrames(s, es, ORIGIN);
      assert Frames(s.plans) == [];
      HarmfulCancel(h, rest, p);
      AcceptedAppend([], es, [Cancel]);
      AcceptedAppend([], es + [Cancel], rest);
      assert [Cancel][1..] == [];
      assert Accepted(Frames(h.plans), [Cancel]) == Frames(h.plans)[..h.Cur()];
      AcceptedSince(g, rest, Frames(h.plans)[..h.Cur()], []);
      assert Frames(h.plans)[..h.Cur()] + [] == Frames(h.plans)[..h.Cur()];
    }
  }

  // A harmful cancel costs at least one of the frames accepted after it.
  lemma HarmfulCancel(h: History, rest: seq<Event>, p: Params)
    requires Rest(h) && Ordered(h, ORIGIN) && Enabled(h, Cancel) && !Harmless(h, Cancel) && p.Valid()
    requires Runs(Cancelled(h), rest) && Idle(Run(Cancelled(h), rest)) && Fits(Run(Cancelled(h), rest).plans, p)
    ensures var r := Run(Cancelled(h), rest);
      && PacketsExist(r.plans, r.sent)
      && var delivered := ProcessRun(Init(p), WireRun(r.plans, r.sent)).1;
        if Accepted([], rest) == [] then delivered == Frames(h.plans)[..h.Cur()]
        else |delivered| < h.Cur() + |Accepted([], rest)|
  {
    hide Accepted, Run, Rest, PacketsExist;
    var g := Cancelled(h);
    var o := Origin(|h.sent|, |h.plans|);
    assert Ordered(g, o);
    RunFrames(g, rest, o);
    assert Continues(g, g);
    RunContinues(g, g, rest);
    var r := Run(g, rest);
    AcceptedSince(g, rest, Frames(g.plans), []);
    assert Frames(g.plans) + [] == Frames(g.plans);
    AfterCancel(h, p, r);
  }
}
