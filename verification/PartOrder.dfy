// The order in which a disassembler writes parts: frame after frame, each from its start.
module PartOrder {
  import opened FragmentPlan
  import opened DisassemblerSpec

  // The part after part a: the next of its frame, or the first of the next frame.
  function Succ(plans: seq<Plan>, a: Part): Part {
    if a.frame < |plans| && a.k + 1 < |plans[a.frame].cuts| && plans[a.frame].cuts[a.k + 1] == |plans[a.frame].data|
    then Part(a.frame + 1, 0)
    else Part(a.frame, a.k + 1)
  }

  // Consecutive existing parts, the first of which is `from`.
  ghost predicate Chain(plans: seq<Plan>, from: Part, parts: seq<Part>)
    decreases |parts|
  {
    parts == [] || (parts[0] == from && PartExists(plans, from) && Chain(plans, Succ(plans, from), parts[1..]))
  }

  // The part that follows a chain.
  function End(plans: seq<Plan>, from: Part, parts: seq<Part>): Part
    decreases |parts|
  {
    if parts == [] then from else End(plans, Succ(plans, from), parts[1..])
  }

  function Flat(packets: seq<seq<Part>>): seq<Part> {
    if packets == [] then [] else packets[0] + Flat(packets[1..])
  }

  // Where to look from: a number of packets sent and of frames accepted.
  datatype Origin = Origin(packets: nat, frames: nat) {
    function First(): Part {
      Part(frames, 0)
    }
  }

  const ORIGIN: Origin := Origin(0, 0)

  // Every part written since the origin, sent or held.
  function Stream(h: History, o: Origin): seq<Part> {
    (if o.packets <= |h.sent| then Flat(h.sent[o.packets..]) else []) + (if h.held.Some? then h.held.value else [])
  }

  // The part to be written next.
  function Next(h: History): Part {
    if h.busy && h.plans != [] && !h.Last().Whole() then Part(h.Cur(), h.Last().Parts()) else Part(|h.plans|, 0)
  }

  // The parts written since the origin form a chain from its first part to the next one to be
  // written, and every frame since then but the current one is cut to its end.
  ghost predicate Ordered(h: History, o: Origin) {
    && o.packets <= |h.sent| && o.frames + (if h.busy then 1 else 0) <= |h.plans|
    && Chain(h.plans, o.First(), Stream(h, o))
    && End(h.plans, o.First(), Stream(h, o)) == Next(h)
    && EarlierWhole(h, o)
  }

  ghost predicate EarlierWhole(h: History, o: Origin) {
    forall i :: o.frames <= i < |h.plans| && (i < |h.plans| - 1 || !h.busy) ==> h.plans[i].Whole()
  }

  lemma SuccStable(plans: seq<Plan>, more: seq<Plan>, a: Part)
    requires Extends(plans, more) && PartExists(plans, a)
    ensures Succ(more, a) == Succ(plans, a)
  {
    var p, q := plans[a.frame], more[a.frame];
    assert p.cuts[a.k + 1] == q.cuts[a.k + 1];
  }

  lemma {:induction false} ChainExists(plans: seq<Plan>, from: Part, parts: seq<Part>)
    requires Chain(plans, from, parts)
    ensures PartsExist(plans, parts)
    decreases |parts|
  {
    if parts != [] {
      ChainExists(plans, Succ(plans, from), parts[1..]);
      assert forall j :: 1 <= j < |parts| ==> parts[j] == parts[1..][j - 1];
    }
  }

  // Cutting further, or forgetting frames no part belongs to, does not disturb a chain.
  lemma {:induction false} ChainStable(plans: seq<Plan>, more: seq<Plan>, from: Part, parts: seq<Part>)
    requires Extends(plans, more) && PartsExist(plans, parts)
    requires Chain(plans, from, parts) || Chain(more, from, parts)
    ensures Chain(plans, from, parts) && Chain(more, from, parts)
    ensures End(plans, from, parts) == End(more, from, parts)
    decreases |parts|
  {
    if parts != [] {
      assert PartExists(plans, parts[0]);
      SuccStable(plans, more, from);
      ChainStable(plans, more, Succ(plans, from), parts[1..]);
    }
  }

  lemma {:induction false} ChainAppend(plans: seq<Plan>, from: Part, parts: seq<Part>)
    requires Chain(plans, from, parts) && PartExists(plans, End(plans, from, parts))
    ensures Chain(plans, from, parts + [End(plans, from, parts)])
    ensures End(plans, from, parts + [End(plans, from, parts)]) == Succ(plans, End(plans, from, parts))
    decreases |parts|
  {
    if parts == [] {
      assert [from][1..] == [];
    } else {
      ChainAppend(plans, Succ(plans, from), parts[1..]);
      var x := End(plans, from, parts);
      assert (parts + [x])[1..] == parts[1..] + [x];
    }
  }

  // A chain splits at any point.
  lemma {:induction false} ChainSplit(plans: seq<Plan>, from: Part, a: seq<Part>, b: seq<Part>)
    requires Chain(plans, from, a + b)
    ensures Chain(plans, from, a) && Chain(plans, End(plans, from, a), b)
    ensures End(plans, from, a + b) == End(plans, End(plans, from, a), b)
    decreases |a|
  {
    if a == [] {
      assert a + b == b;
    } else {
      assert (a + b)[1..] == a[1..] + b;
      ChainSplit(plans, Succ(plans, from), a[1..], b);
    }
  }

  lemma {:induction false} FlatAppend(packets: seq<seq<Part>>, packet: seq<Part>)
    ensures Flat(packets + [packet]) == Flat(packets) + packet
  {
    if packets == [] {
      assert [packet][1..] == [];
    } else {
      FlatAppend(packets[1..], packet);
      assert (packets + [packet])[1..] == packets[1..] + [packet];
      Associative(packets[0], Flat(packets[1..]), packet);
    }
  }

  lemma Associative(a: seq<Part>, b: seq<Part>, c: seq<Part>)
    ensures a + (b + c) == (a + b) + c
  {
  }

  // Parts in frame order.
  predicate Before(a: Part, b: Part) {
    a.frame < b.frame || (a.frame == b.frame && a.k < b.k)
  }

  // A chain passes every part between its start and its end.
  lemma {:induction false} ChainPasses(plans: seq<Plan>, from: Part, parts: seq<Part>, a: Part)
    requires Chain(plans, from, parts) && PartExists(plans, a)
    requires !Before(a, from) && Before(a, End(plans, from, parts))
    ensures a in parts
    decreases |parts|
  {
    if a != from {
      NothingBetween(plans, from, a);
      ChainPasses(plans, Succ(plans, from), parts[1..], a);
    }
  }

  lemma NothingBetween(plans: seq<Plan>, b: Part, a: Part)
    requires PartExists(plans, b) && PartExists(plans, a) && Before(b, a)
    ensures !Before(a, Succ(plans, b))
  {
    if a.frame == b.frame {
      assert plans[a.frame].cuts[b.k + 1] < plans[a.frame].cuts[a.k + 1] <= |plans[a.frame].data|;
    }
  }

  // Every part of a chain comes before its end.
  lemma {:induction false} ChainBefore(plans: seq<Plan>, from: Part, parts: seq<Part>, a: Part)
    requires Chain(plans, from, parts) && a in parts
    ensures Before(a, End(plans, from, parts))
    ensures !Before(End(plans, from, parts), from)
    decreases |parts|
  {
    if a in parts[1..] {
      ChainBefore(plans, Succ(plans, from), parts[1..], a);
    } else {
      EndNotBefore(plans, Succ(plans, from), parts[1..]);
    }
  }

  lemma {:induction false} EndNotBefore(plans: seq<Plan>, from: Part, parts: seq<Part>)
    requires Chain(plans, from, parts)
    ensures !Before(End(plans, from, parts), from)
    decreases |parts|
  {
    if parts != [] {
      EndNotBefore(plans, Succ(plans, from), parts[1..]);
    }
  }

  // The end of a chain is a part its frame still needs, or the start of a frame to come.
  lemma {:induction false} EndNeeded(plans: seq<Plan>, from: Part, parts: seq<Part>)
    requires Chain(plans, from, parts)
    requires from.frame < |plans| ==> from.k < plans[from.frame].Total()
    ensures var end := End(plans, from, parts); end.frame < |plans| ==> end.k < plans[end.frame].Total()
    decreases |parts|
  {
    if parts != [] {
      EndNeeded(plans, Succ(plans, from), parts[1..]);
    }
  }

  lemma {:induction false} InFlat(packets: seq<seq<Part>>, i: nat, a: Part)
    requires i < |packets| && a in packets[i]
    ensures a in Flat(packets)
  {
    if i > 0 {
      InFlat(packets[1..], i - 1, a);
    }
  }

  lemma {:induction false} FromFlat(packets: seq<seq<Part>>, a: Part) returns (i: nat)
    requires a in Flat(packets)
    ensures i < |packets| && a in packets[i]
  {
    if a in packets[0] {
      i := 0;
    } else {
      i := FromFlat(packets[1..], a);
      i := i + 1;
    }
  }
}
