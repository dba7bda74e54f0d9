// How frames are cut into parts, and the bytes of a packet made of given parts. This is the
// vocabulary in which the two ends of a link are related.
module FragmentPlan {
  import opened Bytes
  import opened FragmentProto

  // A frame and the positions it is cut at: part k is data[cuts[k]..cuts[k + 1]]. The cuts
  // of a frame still being sent need not reach its end yet.
  datatype Plan = Plan(id: nat, data: seq<byte>, cuts: seq<nat>) {
    predicate Valid() {
      && id < 0x1_0000
      && |data| < 0x1_0000
      && |cuts| >= 1 && cuts[0] == 0
      && (forall i :: 0 <= i < |cuts| ==> cuts[i] <= |data|)
      && ((forall i, j :: 0 <= i < j < |cuts| ==> cuts[i] < cuts[j]) || (data == [] && cuts == [0, 0]))
    }

    function Parts(): nat {
      if cuts == [] then 0 else |cuts| - 1
    }

    predicate Whole() {
      |cuts| >= 2 && cuts[|cuts| - 1] == |data|
    }

    // How many parts the frame takes at least; one still unsent counts when it is not whole.
    function Total(): nat {
      if Whole() then Parts() else Parts() + 1
    }

    function ChunkAt(k: nat): (c: Chunk)
      requires Valid() && k < Parts()
      ensures c.Encodable()
      ensures c.start == cuts[k] && c.End() == cuts[k + 1]
    {
      Chunk(id, cuts[k], cuts[k + 1] == |data|, data[cuts[k]..cuts[k + 1]])
    }
  }

  // Part k of frame `frame`.
  datatype Part = Part(frame: nat, k: nat)

  predicate PartExists(plans: seq<Plan>, a: Part) {
    a.frame < |plans| && plans[a.frame].Valid() && a.k < plans[a.frame].Parts()
  }

  predicate PartsExist(plans: seq<Plan>, parts: seq<Part>) {
    forall j :: 0 <= j < |parts| ==> PartExists(plans, parts[j])
  }

  // The chunks of a packet made of the given parts.
  ghost function ChunksOf(plans: seq<Plan>, parts: seq<Part>): (cs: seq<Chunk>)
    requires PartsExist(plans, parts)
    ensures |cs| == |parts| && AllEncodable(cs)
    ensures forall i :: 0 <= i < |parts| ==> cs[i] == plans[parts[i].frame].ChunkAt(parts[i].k)
  {
    seq(|parts|, i requires 0 <= i < |parts| => plans[parts[i].frame].ChunkAt(parts[i].k))
  }

  ghost function Wire(plans: seq<Plan>, parts: seq<Part>): seq<byte>
    requires PartsExist(plans, parts)
  {
    EncodePacket(ChunksOf(plans, parts))
  }

  ghost predicate PacketsExist(plans: seq<Plan>, packets: seq<seq<Part>>) {
    forall i :: 0 <= i < |packets| ==> PartsExist(plans, packets[i])
  }

  ghost function WireRun(plans: seq<Plan>, packets: seq<seq<Part>>): (r: seq<seq<byte>>)
    requires PacketsExist(plans, packets)
    ensures |r| == |packets|
    ensures forall i :: 0 <= i < |packets| ==> r[i] == Wire(plans, packets[i])
  {
    seq(|packets|, i requires 0 <= i < |packets| => Wire(plans, packets[i]))
  }

  // The same frames, possibly cut further, and possibly more of them.
  ghost predicate Extends(plans: seq<Plan>, more: seq<Plan>) {
    && |plans| <= |more|
    && forall i :: 0 <= i < |plans| ==>
         more[i].Valid() && more[i].id == plans[i].id && more[i].data == plans[i].data && plans[i].cuts <= more[i].cuts
  }

  lemma PartsStillExist(plans: seq<Plan>, more: seq<Plan>, parts: seq<Part>)
    requires Extends(plans, more) && PartsExist(plans, parts)
    ensures PartsExist(more, parts)
    ensures ChunksOf(more, parts) == ChunksOf(plans, parts)
  {
    forall j | 0 <= j < |parts|
      ensures PartExists(more, parts[j])
      ensures more[parts[j].frame].ChunkAt(parts[j].k) == plans[parts[j].frame].ChunkAt(parts[j].k)
    {
      assert PartExists(plans, parts[j]);
      var p, q := plans[parts[j].frame], more[parts[j].frame];
      assert p.cuts[parts[j].k] == q.cuts[parts[j].k] && p.cuts[parts[j].k + 1] == q.cuts[parts[j].k + 1];
    }
  }

  // Bytes of a list of parts on the wire.
  function WireSize(plans: seq<Plan>, parts: seq<Part>): nat
    requires PartsExist(plans, parts)
  {
    if parts == [] then 0
    else
      var a := parts[|parts| - 1];
      WireSize(plans, parts[..|parts| - 1]) + HEADER_SIZE + (plans[a.frame].cuts[a.k + 1] - plans[a.frame].cuts[a.k])
  }

  lemma {:induction false} WireSizeStable(plans: seq<Plan>, more: seq<Plan>, parts: seq<Part>)
    requires Extends(plans, more) && PartsExist(plans, parts) && PartsExist(more, parts)
    ensures WireSize(more, parts) == WireSize(plans, parts)
  {
    if parts != [] {
      WireSizeStable(plans, more, parts[..|parts| - 1]);
    }
  }

  lemma WireSizeAppend(plans: seq<Plan>, parts: seq<Part>, a: Part)
    requires PartsExist(plans, parts) && PartExists(plans, a)
    ensures PartsExist(plans, parts + [a])
    ensures WireSize(plans, parts + [a])
      == WireSize(plans, parts) + HEADER_SIZE + (plans[a.frame].cuts[a.k + 1] - plans[a.frame].cuts[a.k])
  {
    assert (parts + [a])[..|parts|] == parts;
  }

  // Appending a part appends its chunk.
  lemma WireAppend(plans: seq<Plan>, parts: seq<Part>, a: Part)
    requires PartsExist(plans, parts) && PartExists(plans, a)
    ensures PartsExist(plans, parts + [a])
    ensures Wire(plans, parts + [a]) == Wire(plans, parts) + EncodeChunk(plans[a.frame].ChunkAt(a.k))
  {
    var c := plans[a.frame].ChunkAt(a.k);
    assert ChunksOf(plans, parts + [a]) == ChunksOf(plans, parts) + [c];
    EncodePacketAppend(ChunksOf(plans, parts), c);
  }

  lemma {:induction false} WireLength(plans: seq<Plan>, parts: seq<Part>)
    requires PartsExist(plans, parts)
    ensures |Wire(plans, parts)| == WireSize(plans, parts)
  {
    if parts == [] {
      assert ChunksOf(plans, parts) == [];
    } else {
      var n := |parts| - 1;
      WireLength(plans, parts[..n]);
      assert parts == parts[..n] + [parts[n]];
      assert PartExists(plans, parts[n]);
      WireAppend(plans, parts[..n], parts[n]);
      WireSizeAppend(plans, parts[..n], parts[n]);
    }
  }
}
