// FragmentProto (protocol/fragmentproto.h): a packet is a sequence of chunks, a chunk is
// a packed 7-byte little-endian header followed by a part of a frame.
module FragmentProto {
  import opened Bytes
  import opened Wrappers

  const HEADER_SIZE: nat := 7

  datatype Chunk = Chunk(id: nat, start: nat, last: bool, data: seq<byte>) {
    // The fields fit their 16-bit header fields.
    predicate Encodable() {
      id < 0x1_0000 && start < 0x1_0000 && |data| < 0x1_0000
    }

    function End(): nat {
      start + |data|
    }
  }

  // htol16 and ltoh16, byte by byte.
  function Le16(n: nat): (b: seq<byte>)
    requires n < 0x1_0000
    ensures b == [(n % 256) as byte, (n / 256) as byte]
  {
    Le(n, 2)
  }

  function FromLe16(lo: byte, hi: byte): (n: nat)
    ensures n == lo as nat + 256 * hi as nat < 0x1_0000
  {
    assert [lo, hi][1..] == [hi] && [hi][1..] == [];
    assert FromLe([hi]) == hi as nat;
    FromLe([lo, hi])
  }

  function EncodeChunk(c: Chunk): (b: seq<byte>)
    requires c.Encodable()
    ensures |b| == HEADER_SIZE + |c.data|
  {
    Le16(c.id) + Le16(c.start) + Le16(|c.data|) + [if c.last then 1 else 0] + c.data
  }

  predicate AllEncodable(cs: seq<Chunk>) {
    forall i :: 0 <= i < |cs| ==> cs[i].Encodable()
  }

  function EncodePacket(cs: seq<Chunk>): seq<byte>
    requires AllEncodable(cs)
  {
    if cs == [] then [] else EncodeChunk(cs[0]) + EncodePacket(cs[1..])
  }

  // Reads one chunk off the front of a packet; None where the receiver stops reading:
  // a short header, an is_last field other than 0 or 1, or fewer bytes than announced.
  function DecodeChunk(b: seq<byte>): (r: Option<Chunk>)
    ensures r.Some? ==> HEADER_SIZE + |r.value.data| <= |b| && r.value.Encodable()
  {
    if |b| < HEADER_SIZE then None
    else
      var len := FromLe16(b[4], b[5]);
      if b[6] != 0 && b[6] != 1 then None
      else if |b| - HEADER_SIZE < len then None
      else Some(Chunk(FromLe16(b[0], b[1]), FromLe16(b[2], b[3]), b[6] == 1, b[HEADER_SIZE..HEADER_SIZE + len]))
  }

  lemma Le16RoundTrip(n: nat)
    requires n < 0x1_0000
    ensures FromLe16(Le16(n)[0], Le16(n)[1]) == n
  {
  }

  lemma DecodeEncodeChunk(c: Chunk, rest: seq<byte>)
    requires c.Encodable()
    ensures DecodeChunk(EncodeChunk(c) + rest) == Some(c)
    ensures (EncodeChunk(c) + rest)[HEADER_SIZE + |c.data|..] == rest
  {
    var b := EncodeChunk(c) + rest;
    Le16RoundTrip(c.id);
    Le16RoundTrip(c.start);
    Le16RoundTrip(|c.data|);
    assert b[0] == Le16(c.id)[0] && b[1] == Le16(c.id)[1];
    assert b[2] == Le16(c.start)[0] && b[3] == Le16(c.start)[1];
    assert b[4] == Le16(|c.data|)[0] && b[5] == Le16(|c.data|)[1];
    assert b[HEADER_SIZE..HEADER_SIZE + |c.data|] == c.data;
  }

  // A chunk is read exactly where it was written.
  lemma DecodesExactly(b: seq<byte>, c: Chunk)
    ensures DecodeChunk(b) == Some(c) <==> c.Encodable() && EncodeChunk(c) <= b
  {
    if DecodeChunk(b) == Some(c) {
      var n := HEADER_SIZE + |c.data|;
      assert Le16(c.id) == b[..2] && Le16(c.start) == b[2..4] && Le16(|c.data|) == b[4..6];
      assert EncodeChunk(c) == b[..n];
    }
    if c.Encodable() && EncodeChunk(c) <= b {
      DecodeEncodeChunk(c, b[HEADER_SIZE + |c.data|..]);
      assert b == EncodeChunk(c) + b[HEADER_SIZE + |c.data|..];
    }
  }

  lemma ConcatAssociative(a: seq<byte>, b: seq<byte>, c: seq<byte>)
    ensures a + (b + c) == (a + b) + c
  {
  }

  lemma {:induction false} EncodePacketAppend(cs: seq<Chunk>, c: Chunk)
    requires AllEncodable(cs) && c.Encodable()
    ensures EncodePacket(cs + [c]) == EncodePacket(cs) + EncodeChunk(c)
  {
    if cs == [] {
      assert [c][1..] == [];
      assert EncodePacket([c]) == EncodeChunk(c) + [];
    } else {
      EncodePacketAppend(cs[1..], c);
      assert (cs + [c])[1..] == cs[1..] + [c];
      ConcatAssociative(EncodeChunk(cs[0]), EncodePacket(cs[1..]), EncodeChunk(c));
    }
  }

  // fragmentproto_max_chunks_for_frame
  function MaxChunksForFrame(carrierMtu: nat, frameMtu: nat): (r: nat)
    requires carrierMtu > HEADER_SIZE
    ensures r > 0
  {
    DivideUp(frameMtu, carrierMtu - HEADER_SIZE) + 1
  }
}
