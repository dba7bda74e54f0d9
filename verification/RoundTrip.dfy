// The two ends of a link together: every run of the disassembler, its packets fed to the
// assembler in order or in any tolerable order, delivers the frames that were sent.
module RoundTrip {
  import opened Bytes
  import opened Lists
  import opened Wrappers
  import opened FragmentPlan
  import opened DisassemblerSpec
  import opened DisassemblerSafety
  import opened PartOrder
  import opened InOrder
  import opened AssemblerSpec
  import opened AssemblerSafety
  import opened IdealReceiver
  import opened Reordering

  // A run of events, each enabled when it happens, with only harmless cancels.
  ghost predicate Runs(h: History, es: seq<Event>)
    requires Rest(h)
    decreases |es|
  {
    es == [] || (Enabled(h, es[0]) && Harmless(h, es[0]) && (StepKeeps(h, es[0]); Runs(Step(h, es[0]), es[1..])))
  }

  ghost function Run(h: History, es: seq<Event>): (r: History)
    requires Rest(h) && Runs(h, es)
    ensures Rest(r)
    decreases |es|
  {
    if es == [] then h else StepKeeps(h, es[0]); Run(Step(h, es[0]), es[1..])
  }

  // The frames accepted and not cancelled.
  function Accepted(acc: seq<seq<byte>>, es: seq<Event>): seq<seq<byte>>
    decreases |es|
  {
    if es == [] then acc else Accepted(AcceptedAfter(acc, es[0]), es[1..])
  }

  function AcceptedAfter(acc: seq<seq<byte>>, e: Event): seq<seq<byte>> {
    match e
    case Send(frame) => acc + [frame]
    case Cancel => if acc == [] then [] else acc[..|acc| - 1]
    case Recv => acc
    case Timer => acc
  }

  function Frames(plans: seq<Plan>): (r: seq<seq<byte>>)
    ensures |r| == |plans| && forall i :: 0 <= i < |plans| ==> r[i] == plans[i].data
  {
    seq(|plans|, i requires 0 <= i < |plans| => plans[i].data)
  }

  lemma ExtendsFrames(h: seq<Plan>, r: seq<Plan>)
    requires Extends(h, r) && |h| == |r|
    ensures Frames(h) == Frames(r)
  {
  }

  lemma WriteChunksFrames(h: History)
    requires Cutting(h) && AllValid(h)
    ensures Frames(WriteChunks(h).plans) == Frames(h.plans) && WriteChunks(h).cfg == h.cfg
  {
    WriteLoopStops(h);
    ExtendsFrames(h.plans, WriteLoop(h).plans);
  }

  lemma StepFrames(h: History, e: Event)
    requires Rest(h) && Enabled(h, e) && Harmless(h, e)
    ensures Frames(Step(h, e).plans) == AcceptedAfter(Frames(h.plans), e)
    ensures Step(h, e).cfg == h.cfg
  {
    match e
    case Send(frame) =>
      assert Frames(Accept(h, frame).plans) == Frames(h.plans) + [frame];
      if h.held.Some? {
        AcceptCutting(h, frame);
        WriteChunksFrames(Accept(h, frame));
      }
    case Recv =>
      if h.busy {
        WriteChunksFrames(h.(held := Some([])));
      }
    case Timer =>
    case Cancel =>
      assert Frames(Abandon(h).plans) == Frames(h.plans)[..|h.plans| - 1];
  }

  lemma {:induction false} RunFrames(h: History, es: seq<Event>, o: Origin)
    requires Rest(h) && Runs(h, es) && Ordered(h, o)
    ensures Ordered(Run(h, es), o) && Run(h, es).cfg == h.cfg
    ensures Frames(Run(h, es).plans) == Accepted(Frames(h.plans), es)
    decreases |es|
  {
    if es != [] {
      var e := es[0];
      StepKeeps(h, e);
      StepOrdered(h, e, o);
      StepFrames(h, e);
        RunFrames(Step(h, e), es[1..], o);
    }
  }

  // Nothing is left to send: no frame in progress and no part held.
  predicate Idle(h: History) {
    !h.busy && (h.held.Some? ==> h.held.value == [])
  }

  // The chain of the packets sent so far.
  lemma SentChain(h: History)
    requires Rest(h) && Ordered(h, ORIGIN)
    ensures Nonempty(h.sent) && Chain(h.plans, ORIGIN.First(), Flat(h.sent))
    ensures Idle(h) ==> End(h.plans, ORIGIN.First(), Flat(h.sent)).frame == |h.plans|
  {
    var held := if h.held.Some? then h.held.value else [];
    assert h.sent[0..] == h.sent;
    ChainSplit(h.plans, ORIGIN.First(), Flat(h.sent), held);
    if held == [] {
      assert h.sent[0..] == h.sent && Stream(h, ORIGIN) == Flat(h.sent);
    }
  }

  // What the assembler delivers from the packets sent so far: the first frames accepted.
  lemma DeliveredInOrder(h: History, p: Params)
    requires Rest(h) && Ordered(h, ORIGIN) && p.Valid() && Fits(h.plans, p)
    ensures PacketsExist(h.plans, h.sent)
    ensures var end := End(h.plans, ORIGIN.First(), Flat(h.sent));
      && end.frame <= |h.plans|
      && ProcessRun(Init(p), WireRun(h.plans, h.sent)).1 == Frames(h.plans)[..end.frame]
  {
    SentChain(h);
    assert At(START, ORIGIN.First());
    InOrderRun(h.plans, p, START, ORIGIN.First(), h.sent);
    var end := End(h.plans, ORIGIN.First(), Flat(h.sent));
    var t := ReceiveRun(h.plans, p, START, h.sent);
    InOrderOutput(h.plans, p, h.sent, t, end.frame);
  }

  lemma InOrderOutput(plans: seq<Plan>, p: Params, packets: seq<seq<Part>>, t: Ideal, n: nat)
    requires p.Valid() && Fits(plans, p) && TolerableRun(plans, p, START, packets)
    requires t == ReceiveRun(plans, p, START, packets) && t.done == Upto(n)
    ensures PacketsExist(plans, packets) && n <= |plans|
    ensures ProcessRun(Init(p), WireRun(plans, packets)).1 == Frames(plans)[..n]
  {
    RunMirrors(plans, START, Init(p), packets);
    assert Since(START, t) == t.done;
    FramesUpto(plans, n);
  }

  lemma FramesUpto(plans: seq<Plan>, n: nat)
    requires Below(Upto(n), |plans|)
    ensures n <= |plans| && DataOf(plans, Upto(n)) == Frames(plans)[..n]
  {
    if n > 0 {
      assert Upto(n)[n - 1] == n - 1;
    }
  }

  // Lossless in-order round trip. For every run, every packet size and every interleaving of
  // frames, output buffers and flush timers, the packets sent so far deliver the first frames
  // accepted, unchanged and in order, across frame-id wrap and clock renormalisation, and all
  // of them once nothing is left to send.
  lemma LosslessInOrder(cfg: Config, es: seq<Event>, p: Params)
    requires cfg.Valid() && Runs(Start(cfg), es)
    requires p.Valid() && Fits(Run(Start(cfg), es).plans, p)
    ensures var h := Run(Start(cfg), es);
      PacketsExist(h.plans, h.sent) &&
      var delivered := ProcessRun(Init(p), WireRun(h.plans, h.sent)).1;
      && delivered <= Accepted([], es)
      && (Idle(h) ==> delivered == Accepted([], es))
  {
    var s := Start(cfg);
    var h := Run(s, es);
    RunFrames(s, es, ORIGIN);
    assert Frames(s.plans) == [];
    DeliveredInOrder(h, p);
    SentChain(h);
  }

  // Nothing is held back: a frame not delivered yet has a part no packet carries yet.
  lemma UndeliveredNotSent(h: History, p: Params, i: nat)
    requires Rest(h) && Ordered(h, ORIGIN) && p.Valid() && Fits(h.plans, p)
    requires PacketsExist(h.plans, h.sent)
    requires |ProcessRun(Init(p), WireRun(h.plans, h.sent)).1| <= i < |h.plans|
    ensures exists k :: 0 <= k < h.plans[i].Total() && !ArrivesIn(h.sent, Part(i, k))
  {
    DeliveredInOrder(h, p);
    SentChain(h);
    var k := NotInChain(h.plans, Flat(h.sent), i);
    if ArrivesIn(h.sent, Part(i, k)) {
      var j :| 0 <= j < |h.sent| && Part(i, k) in h.sent[j];
      InFlat(h.sent, j, Part(i, k));
    }
  }

  // A part of frame i that a chain ending no later than frame i does not carry.
  lemma NotInChain(plans: seq<Plan>, parts: seq<Part>, i: nat) returns (k: nat)
    requires Chain(plans, ORIGIN.First(), parts) && End(plans, ORIGIN.First(), parts).frame <= i < |plans|
    ensures k < plans[i].Total() && Part(i, k) !in parts
  {
    var end := End(plans, ORIGIN.First(), parts);
    EndNeeded(plans, ORIGIN.First(), parts);
    k := if i == end.frame then end.k else 0;
    if Part(i, k) in parts {
      ChainBefore(plans, ORIGIN.First(), parts, Part(i, k));
    }
  }

  // Once idle, every part of every accepted frame has been sent.
  lemma EverythingSent(h: History)
    requires Rest(h) && Ordered(h, ORIGIN) && Idle(h)
    ensures forall i, k :: 0 <= i < |h.plans| && 0 <= k < h.plans[i].Parts() ==> ArrivesIn(h.sent, Part(i, k))
    ensures forall i :: 0 <= i < |h.plans| ==> h.plans[i].Whole()
  {
    var held := if h.held.Some? then h.held.value else [];
    assert h.sent[0..] == h.sent && Stream(h, ORIGIN) == Flat(h.sent);
    forall i, k | 0 <= i < |h.plans| && 0 <= k < h.plans[i].Parts() ensures ArrivesIn(h.sent, Part(i, k)) {
      assert PartExists(h.plans, Part(i, k));
      ChainPasses(h.plans, ORIGIN.First(), Stream(h, ORIGIN), Part(i, k));
      var j := FromFlat(h.sent, Part(i, k));
    }
  }

  lemma PermutedArrive(a: seq<seq<Part>>, b: seq<seq<Part>>, x: Part)
    requires multiset(a) == multiset(b) && ArrivesIn(a, x)
    ensures ArrivesIn(b, x)
  {
    var i :| 0 <= i < |a| && x in a[i];
    assert a[i] in multiset(a);
    assert a[i] in b;
  }

  // Lossless round trip under reordering. The packets of a run that left nothing to send may
  // arrive in any order the assembler tolerates; every frame accepted is then delivered
  // exactly once, unchanged.
  lemma LosslessReordered(cfg: Config, es: seq<Event>, p: Params, packets: seq<seq<Part>>)
    requires cfg.Valid() && Runs(Start(cfg), es) && Idle(Run(Start(cfg), es))
    requires p.Valid() && Fits(Run(Start(cfg), es).plans, p)
    requires multiset(packets) == multiset(Run(Start(cfg), es).sent)
    requires TolerableRun(Run(Start(cfg), es).plans, p, START, packets)
    ensures var h := Run(Start(cfg), es);
      && PacketsExist(h.plans, packets)
      && multiset(ProcessRun(Init(p), WireRun(h.plans, packets)).1) == multiset(Accepted([], es))
  {
    var s := Start(cfg);
    var h := Run(s, es);
    RunFrames(s, es, ORIGIN);
    assert Frames(s.plans) == [];
    EverythingSent(h);
    forall i, k | 0 <= i < |h.plans| && 0 <= k < h.plans[i].Parts() ensures ArrivesIn(packets, Part(i, k)) {
      PermutedArrive(h.sent, packets, Part(i, k));
    }
    Reassembly(h.plans, p, packets);
    PermutedData(h.plans, ReceiveRun(h.plans, p, START, packets).done);
  }

  // Data of all frames in any order are the frames.
  lemma PermutedData(plans: seq<Plan>, order: seq<nat>)
    requires NoDup(order) && Below(order, |plans|) && |order| == |plans|
    ensures multiset(DataOf(plans, order)) == multiset(Frames(plans))
  {
    forall i | 0 <= i < |order| ensures order[i] in Upto(|plans|) {
      assert Upto(|plans|)[order[i]] == order[i];
    }
    SameMultiset(plans, order, Upto(|plans|));
    assert DataOf(plans, Upto(|plans|)) == Frames(plans);
  }

  lemma {:induction false} SameMultiset(plans: seq<Plan>, a: seq<nat>, b: seq<nat>)
    requires Below(a, |plans|) && Below(b, |plans|) && NoDup(a) && NoDup(b) && |a| == |b|
    requires forall i :: 0 <= i < |a| ==> a[i] in b
    ensures multiset(DataOf(plans, a)) == multiset(DataOf(plans, b))
    decreases |a|
  {
    if a != [] {
      assert a[0] in b;
      var j :| 0 <= j < |b| && b[j] == a[0];
      var tail, rest := a[1..], b[..j] + b[j + 1..];
      RestHas(a, b, j);
      SameMultiset(plans, tail, rest);
      assert tail == a[..0] + a[1..];
      PickOut(plans, a, 0, tail);
      PickOut(plans, b, j, rest);
    }
  }

  lemma RestHas(a: seq<nat>, b: seq<nat>, j: nat)
    requires NoDup(a) && NoDup(b) && a != [] && j < |b| && b[j] == a[0]
    requires forall i :: 0 <= i < |a| ==> a[i] in b
    ensures NoDup(a[1..]) && NoDup(b[..j] + b[j + 1..]) && |a[1..]| == |a| - 1
    ensures forall i :: 0 <= i < |a| - 1 ==> a[1..][i] in b[..j] + b[j + 1..]
  {
    var rest := b[..j] + b[j + 1..];
    forall m | 0 <= m < |a| - 1 ensures a[1..][m] in rest {
      assert a[m + 1] in b;
      var i :| 0 <= i < |b| && b[i] == a[m + 1];
      assert rest[if i < j then i else i - 1] == a[m + 1];
    }
  }

  lemma PickOut(plans: seq<Plan>, b: seq<nat>, j: nat, rest: seq<nat>)
    requires Below(b, |plans|) && j < |b| && rest == b[..j] + b[j + 1..]
    ensures Below(rest, |plans|)
    ensures multiset(DataOf(plans, b)) == multiset{plans[b[j]].data} + multiset(DataOf(plans, rest))
  {
    assert b == b[..j] + ([b[j]] + b[j + 1..]);
    DataOfAppend(plans, b[..j], [b[j]] + b[j + 1..]);
    DataOfAppend(plans, [b[j]], b[j + 1..]);
    DataOfAppend(plans, b[..j], b[j + 1..]);
    assert DataOf(plans, [b[j]]) == [plans[b[j]].data];
  }
}
