// The ideal receiver: it knows the frames themselves and has an unbounded table, clock and
// identifiers. It says which arrivals are tolerable, which frames they complete and in what
// order, and when an assembler's table mirrors it.
module IdealReceiver {
  import opened Lists
  import opened FragmentPlan
  import opened AssemblerSpec
  import opened AssemblerSafety

  // A partially received frame: the parts received, in order of arrival, and the number of
  // the packet the last one came in.
  datatype Live = Live(frame: nat, got: seq<nat>, at: nat)

  // The ideal receiver: packets received so far, partially received frames, and the frames
  // completed so far, in order of completion.
  datatype Ideal = Ideal(clock: nat, live: seq<Live>, done: seq<nat>)

  function Find(live: seq<Live>, frame: nat): (i: nat)
    ensures i <= |live|
    ensures i < |live| ==> live[i].frame == frame
    ensures forall j :: 0 <= j < i ==> live[j].frame != frame
  {
    if live == [] then 0 else if live[0].frame == frame then 0 else 1 + Find(live[1..], frame)
  }

  function Receive(plans: seq<Plan>, t: Ideal, a: Part): Ideal
    requires a.frame < |plans| && |plans[a.frame].cuts| >= 1
  {
    var i := Find(t.live, a.frame);
    var l := Live(a.frame, (if i < |t.live| then t.live[i].got else []) + [a.k], t.clock);
    if |l.got| == plans[a.frame].Total() then
      t.(live := if i < |t.live| then t.live[..i] + t.live[i + 1..] else t.live, done := t.done + [a.frame])
    else
      t.(live := if i < |t.live| then t.live[i := l] else t.live + [l])
  }

  // The arrival of part a is one the assembler tolerates: it is a new part of a frame not
  // completed yet, no other live frame has its id, and its frame either waited at most the
  // tolerance or still fits the table.
  ghost predicate Tolerable(plans: seq<Plan>, p: Params, t: Ideal, a: Part) {
    && a.frame < |plans| && plans[a.frame].Valid() && a.k < plans[a.frame].Parts()
    && a.frame !in t.done
    && (forall l :: l in t.live && l.frame != a.frame ==>
          l.frame < |plans| && plans[l.frame].id != plans[a.frame].id)
    && var i := Find(t.live, a.frame);
       if i < |t.live| then a.k !in t.live[i].got && t.clock - t.live[i].at <= p.numFrames
       else |t.live| < p.numFrames
  }

  ghost predicate TolerableParts(plans: seq<Plan>, p: Params, t: Ideal, parts: seq<Part>)
    decreases |parts|
  {
    parts == [] || (Tolerable(plans, p, t, parts[0])
                    && TolerableParts(plans, p, Receive(plans, t, parts[0]), parts[1..]))
  }

  ghost function ReceiveParts(plans: seq<Plan>, p: Params, t: Ideal, parts: seq<Part>): (r: Ideal)
    requires TolerableParts(plans, p, t, parts)
    ensures r.clock == t.clock
    decreases |parts|
  {
    if parts == [] then t else ReceiveParts(plans, p, Receive(plans, t, parts[0]), parts[1..])
  }

  // At the end of the packet no live frame has waited longer than the tolerance.
  ghost predicate TolerablePacket(plans: seq<Plan>, p: Params, t: Ideal, parts: seq<Part>) {
    && TolerableParts(plans, p, t, parts)
    && forall l :: l in ReceiveParts(plans, p, t, parts).live ==> t.clock - l.at <= p.numFrames
  }

  ghost function ReceivePacket(plans: seq<Plan>, p: Params, t: Ideal, parts: seq<Part>): Ideal
    requires TolerablePacket(plans, p, t, parts)
  {
    ReceiveParts(plans, p, t, parts).(clock := t.clock + 1)
  }

  ghost predicate TolerableRun(plans: seq<Plan>, p: Params, t: Ideal, packets: seq<seq<Part>>)
    decreases |packets|
  {
    packets == [] || (TolerablePacket(plans, p, t, packets[0])
                      && TolerableRun(plans, p, ReceivePacket(plans, p, t, packets[0]), packets[1..]))
  }

  ghost function ReceiveRun(plans: seq<Plan>, p: Params, t: Ideal, packets: seq<seq<Part>>): Ideal
    requires TolerableRun(plans, p, t, packets)
    decreases |packets|
  {
    if packets == [] then t
    else ReceiveRun(plans, p, ReceivePacket(plans, p, t, packets[0]), packets[1..])
  }

  // Every frame fits the output MTU and comes in at most numChunks parts.
  ghost predicate Fits(plans: seq<Plan>, p: Params) {
    forall i :: 0 <= i < |plans| ==>
      plans[i].Valid() && |plans[i].data| <= p.outputMtu && plans[i].Total() <= p.numChunks
  }

  ghost predicate Below(s: seq<nat>, n: nat) {
    forall i :: 0 <= i < |s| ==> s[i] < n
  }

  // Part k as the assembler stores it.
  ghost function StoredAt(plan: Plan, k: nat): (c: Stored)
    requires plan.Valid() && k < plan.Parts()
    ensures c.start == plan.cuts[k] && c.End() == plan.cuts[k + 1]
  {
    Stored(plan.cuts[k], plan.data[plan.cuts[k]..plan.cuts[k + 1]])
  }

  // Frame entry f holds exactly the parts `got` of the plan.
  ghost predicate Holds(plan: Plan, got: seq<nat>, f: Frame)
    requires plan.Valid()
  {
    && Below(got, plan.Parts())
    && NoDup(got)
    && f.id == plan.id
    && |f.chunks| == |got|
    && (forall j :: 0 <= j < |got| ==> f.chunks[j] == StoredAt(plan, got[j]))
    && f.length == (if plan.Whole() && plan.Parts() - 1 in got then |plan.data| else -1)
    && f.lengthSoFar <= |plan.data|
  }

  // The assembler's table mirrors the ideal receiver's live frames, entry by entry, each
  // with the same age.
  ghost predicate Mirrors(plans: seq<Plan>, t: Ideal, s: State) {
    && Inv(s)
    && |s.used| == |t.live|
    && (forall i, j :: 0 <= i < j < |t.live| ==> t.live[i].frame != t.live[j].frame)
    && (forall i :: 0 <= i < |t.live| ==> MirrorsEntry(plans, t, s, t.live[i], s.used[i]))
  }

  ghost predicate MirrorsEntry(plans: seq<Plan>, t: Ideal, s: State, l: Live, f: Frame) {
    && l.frame < |plans| && plans[l.frame].Valid()
    && Holds(plans[l.frame], l.got, f)
    && l.frame !in t.done
    && l.at <= t.clock
    && s.time - f.time == t.clock - l.at
  }
}
