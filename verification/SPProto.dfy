// SPProto (protocol/spproto.h): a packet carries a one-time password, a hash and the payload,
// padded and encrypted; each of the three is optional. The hash and the cipher are parameters.
module SPProto {
  import opened Bytes
  import opened Wrappers

  datatype Params = Params(otp: bool, hash: bool, hashSize: nat, encryption: bool, blockSize: nat) {
    function OtpLen(): nat {
      if otp then 6 else 0
    }

    function HashLen(): nat {
      if hash then hashSize else 0
    }

    function HeaderLen(): nat {
      OtpLen() + HashLen()
    }

    predicate Valid() {
      encryption ==> blockSize > 0
    }
  }

  // BHash_calculate, BEncryption_Encrypt and BEncryption_Decrypt (initialization vector first)
  datatype Crypto = Crypto(hash: seq<byte> -> seq<byte>, encrypt: (seq<byte>, seq<byte>) -> seq<byte>,
                           decrypt: (seq<byte>, seq<byte>) -> seq<byte>)

  // The hash has its size, and decryption undoes encryption of whole blocks.
  ghost predicate CryptoOk(p: Params, c: Crypto) {
    && (forall b :: |c.hash(b)| == p.hashSize)
    && (forall iv, b :: |c.decrypt(iv, b)| == |b|)
    && (forall iv, b :: |c.encrypt(iv, b)| == |b|)
    && (forall iv, b :: p.Valid() && p.encryption && |iv| == p.blockSize && |b| % p.blockSize == 0 ==> c.decrypt(iv, c.encrypt(iv, b)) == b)
  }

  function Zeros(n: nat): (b: seq<byte>)
    ensures |b| == n && forall i :: 0 <= i < n ==> b[i] == 0
  {
    seq(n, _ => 0)
  }

  // struct spproto_otpdata
  function OtpData(p: Params, seedId: nat, otp: nat): (b: seq<byte>)
    ensures |b| == p.OtpLen()
  {
    if p.otp then Le(seedId, 2) + Le(otp, 4) else []
  }

  // The hash is that of the packet with the hash field zero.
  function HashField(p: Params, c: Crypto, otpData: seq<byte>, payload: seq<byte>): seq<byte> {
    if p.hash then c.hash(otpData + Zeros(p.hashSize) + payload) else []
  }

  function Plaintext(p: Params, c: Crypto, seedId: nat, otp: nat, payload: seq<byte>): seq<byte> {
    var otpData := OtpData(p, seedId, otp);
    otpData + HashField(p, c, otpData, payload) + payload
  }

  function Padded(plain: seq<byte>, blockSize: nat): (b: seq<byte>)
    requires blockSize > 0
    ensures |b| == AlignUp(|plain| + 1, blockSize)
  {
    plain + [1] + Zeros(AlignUp(|plain| + 1, blockSize) - |plain| - 1)
  }

  // The packet the encoder makes.
  function Encode(p: Params, c: Crypto, seedId: nat, otp: nat, iv: seq<byte>, payload: seq<byte>): seq<byte>
    requires p.Valid()
  {
    var plain := Plaintext(p, c, seedId, otp, payload);
    if p.encryption then iv + c.encrypt(iv, Padded(plain, p.blockSize)) else plain
  }

  // Where the padding starts: the last byte that is not zero, if it is 1 and in the last block.
  function PadStart(b: seq<byte>, low: int): (r: Option<nat>)
    ensures r.Some? ==> r.value < |b|
    decreases |b|
  {
    if |b| <= low || b == [] then None
    else if b[|b| - 1] == 1 then Some(|b| - 1)
    else if b[|b| - 1] != 0 then None
    else PadStart(b[..|b| - 1], low)
  }

  // The start of the padding is unique: a 1 followed by zeros only.
  lemma {:induction false} PadStartUnique(b: seq<byte>, low: int, i: nat)
    requires 0 <= low
    ensures PadStart(b, low) == Some(i) <==> low <= i < |b| && b[i] == 1 && forall j :: i < j < |b| ==> b[j] == 0
    decreases |b|
  {
    if b != [] && b[|b| - 1] == 0 && |b| > low {
      PadStartUnique(b[..|b| - 1], low, i);
    }
  }

  datatype Decoded = Decoded(otp: Option<(nat, nat)>, payload: seq<byte>)

  // The part of decoding that follows decryption.
  function DecodePlain(p: Params, c: Crypto, outputMtu: nat, plain: seq<byte>): Option<Decoded> {
    if |plain| < p.HeaderLen() then None
    else if |plain| - p.HeaderLen() > outputMtu then None
    else
      var otpData, hash, payload := plain[..p.OtpLen()], plain[p.OtpLen()..p.HeaderLen()], plain[p.HeaderLen()..];
      if p.hash && hash != c.hash(otpData + Zeros(p.hashSize) + payload) then None
      else Some(Decoded(if p.otp then Some((FromLe(otpData[..2]), FromLe(otpData[2..]))) else None, payload))
  }

  // What the decoder makes of a packet.
  function Decode(p: Params, c: Crypto, haveKey: bool, outputMtu: nat, b: seq<byte>): Option<Decoded>
    requires p.Valid()
  {
    if !p.encryption then DecodePlain(p, c, outputMtu, b)
    else if |b| % p.blockSize != 0 || |b| < p.blockSize || !haveKey then None
    else
      var padded := c.decrypt(b[..p.blockSize], b[p.blockSize..]);
      if |b| - p.blockSize < p.blockSize then None
      else
        var i := PadStart(padded, |padded| - p.blockSize);
        if i.None? then None else DecodePlain(p, c, outputMtu, padded[..i.value])
  }

  // The size of the largest packet.
  function CarrierMtu(p: Params, payloadMtu: nat): nat
    requires p.Valid()
  {
    if p.encryption then p.blockSize + AlignUp(p.HeaderLen() + payloadMtu + 1, p.blockSize) else p.HeaderLen() + payloadMtu
  }

  // spproto_payload_mtu_for_carrier_mtu, negative if nothing fits
  function PayloadMtu(p: Params, carrierMtu: nat): int
    requires p.Valid()
  {
    if p.encryption then AlignDown(carrierMtu, p.blockSize) - p.blockSize - p.HeaderLen() - 1 else carrierMtu - p.HeaderLen()
  }

  lemma {:induction false} LessMultiple(k: int, u: int, n: nat)
    requires n > 0 && k * n < u * n + n
    ensures k <= u && k * n <= u * n
  {
    if k > u {
      Scale(k, u + 1, n);
    } else {
      Scale(u, k, n);
    }
  }

  // Aligning up is the least multiple: it fits wherever the aligned-down bound holds the number.
  lemma {:induction false} AlignUpLeast(x: nat, n: nat, m: int)
    requires n > 0
    ensures AlignUp(x, n) <= m <==> x <= m - m % n
  {
    var k, u := AlignUp(x, n) / n, m / n;
    assert AlignUp(x, n) == k * n;
    assert m == u * n + m % n;
    if AlignUp(x, n) <= m || x <= m - m % n {
      LessMultiple(k, u, n);
    }
  }

  const INT_MAX: int := 0x7FFF_FFFF

  // spproto_carrier_mtu_for_payload_mtu
  function CarrierMtuOrFail(p: Params, payloadMtu: nat): int
    requires p.Valid()
  {
    if !p.encryption then
      if payloadMtu > INT_MAX - p.HeaderLen() then -1 else p.HeaderLen() + payloadMtu
    else if payloadMtu > INT_MAX - (p.blockSize + p.HeaderLen() + p.blockSize) then -1
    else p.blockSize + AlignUp(p.HeaderLen() + payloadMtu + 1, p.blockSize)
  }

  // The carrier MTU is the size of the largest packet, and fits an int; it fails only if that size
  // is within a block of overflow. The two MTU functions are inverse to each other as far as they
  // can be: a payload MTU fits a carrier MTU exactly when it is at most what that leaves for payload.
  lemma MtuInverse(p: Params, payloadMtu: nat, carrierMtu: nat)
    requires p.Valid()
    ensures var c := CarrierMtuOrFail(p, payloadMtu);
      && (c >= 0 ==> c == CarrierMtu(p, payloadMtu) <= INT_MAX)
      && (c < 0 ==> c == -1 && CarrierMtu(p, payloadMtu) > INT_MAX - (if p.encryption then p.blockSize else 0))
      && (c >= 0 ==> (c <= carrierMtu <==> payloadMtu <= PayloadMtu(p, carrierMtu)))
  {
    if p.encryption {
      AlignUpLeast(p.HeaderLen() + payloadMtu + 1, p.blockSize, carrierMtu - p.blockSize);
      OneBlockLess(carrierMtu, p.blockSize);
    }
  }

  lemma {:induction false} OneBlockLess(c: nat, n: nat)
    requires n > 0
    ensures (c - n) % n == c % n
  {
    var q, r := c / n, c % n;
    assert c - n == (q - 1) * n + r;
    var d := (c - n) / n - (q - 1);
    assert d * n == r - (c - n) % n;
    if d >= 1 {
      Scale(d, 1, n);
    } else if d <= -1 {
      Scale(-1, d, n);
    }
  }

  lemma PlainRoundTrip(p: Params, c: Crypto, seedId: nat, otp: nat, payload: seq<byte>, outputMtu: nat)
    requires CryptoOk(p, c) && seedId < 0x1_0000 && otp < 0x1_0000_0000 && |payload| <= outputMtu
    ensures |Plaintext(p, c, seedId, otp, payload)| == p.HeaderLen() + |payload|
    ensures DecodePlain(p, c, outputMtu, Plaintext(p, c, seedId, otp, payload)) ==
      Some(Decoded(if p.otp then Some((seedId, otp)) else None, payload))
  {
    var otpData := OtpData(p, seedId, otp);
    var plain := Plaintext(p, c, seedId, otp, payload);
    assert |HashField(p, c, otpData, payload)| == p.HashLen();
    assert plain[..p.OtpLen()] == otpData && plain[p.OtpLen()..p.HeaderLen()] == HashField(p, c, otpData, payload);
    assert plain[p.HeaderLen()..] == payload;
    if p.otp {
      Range2();
      Range4();
      LeRoundTrip(seedId, 2);
      LeRoundTrip(otp, 4);
      assert otpData[..2] == Le(seedId, 2) && otpData[2..] == Le(otp, 4);
    }
  }

  // The backward scan finds where the encoder's padding starts, whatever the plaintext ends in.
  lemma PadFound(plain: seq<byte>, blockSize: nat)
    requires blockSize > 0
    ensures var b := Padded(plain, blockSize);
      |b| >= blockSize && PadStart(b, |b| - blockSize) == Some(|plain|) && b[..|plain|] == plain
  {
    var b := Padded(plain, blockSize);
    AlignedAtLeast(|plain| + 1, blockSize);
    PadStartUnique(b, |b| - blockSize, |plain|);
  }

  lemma {:induction false} AlignedAtLeast(x: nat, n: nat)
    requires x > 0 && n > 0
    ensures AlignUp(x, n) >= n
  {
    var k := AlignUp(x, n) / n;
    assert AlignUp(x, n) == k * n;
    if k <= 0 {
      Scale(0, k, n);
    } else {
      Scale(k, 1, n);
    }
  }

  lemma Decrypts(p: Params, c: Crypto, iv: seq<byte>, b: seq<byte>)
    requires p.Valid() && p.encryption && CryptoOk(p, c) && |iv| == p.blockSize && |b| % p.blockSize == 0
    ensures c.decrypt(iv, c.encrypt(iv, b)) == b && |c.encrypt(iv, b)| == |b|
  {
  }

  // Decoding what was encoded gives back the payload, the seed id and the password.
  lemma RoundTrip(p: Params, c: Crypto, seedId: nat, otp: nat, iv: seq<byte>, payload: seq<byte>, mtu: nat)
    requires p.Valid() && CryptoOk(p, c) && seedId < 0x1_0000 && otp < 0x1_0000_0000 && |payload| <= mtu
    requires p.encryption ==> |iv| == p.blockSize
    ensures Decode(p, c, true, mtu, Encode(p, c, seedId, otp, iv, payload)) ==
      Some(Decoded(if p.otp then Some((seedId, otp)) else None, payload))
    ensures |Encode(p, c, seedId, otp, iv, payload)| == CarrierMtu(p, |payload|)
  {
    var plain := Plaintext(p, c, seedId, otp, payload);
    PlainRoundTrip(p, c, seedId, otp, payload, mtu);
    if p.encryption {
      var padded := Padded(plain, p.blockSize);
      var b := iv + c.encrypt(iv, padded);
      Decrypts(p, c, iv, padded);
      hide CryptoOk, Plaintext, Padded, DecodePlain, PadStart;
      PadFound(plain, p.blockSize);
      WholeBlocks(|padded|, p.blockSize);
      assert b[..p.blockSize] == iv && b[p.blockSize..] == c.encrypt(iv, padded);
    }
  }

  lemma {:induction false} WholeBlocks(x: nat, n: nat)
    requires n > 0 && x % n == 0
    ensures (n + x) % n == 0
  {
    var k := x / n;
    assert n + x == (k + 1) * n;
    MultipleMod(k + 1, n);
  }

  // The packet carries this plaintext, once decrypted.
  ghost predicate Carries(p: Params, c: Crypto, haveKey: bool, b: seq<byte>, plain: seq<byte>)
    requires p.Valid()
  {
    if p.encryption then
      && haveKey && |b| % p.blockSize == 0 && |b| >= p.blockSize
      && c.decrypt(b[..p.blockSize], b[p.blockSize..]) == Padded(plain, p.blockSize)
    else b == plain
  }

  // The plaintext says this: password and seed id if there are any, the hash of everything with
  // the hash field zero, and the payload.
  ghost predicate Says(p: Params, c: Crypto, plain: seq<byte>, d: Decoded) {
    exists seedId, otp :: OtpIs(p, d, seedId, otp) && plain == Plaintext(p, c, seedId, otp, d.payload)
  }

  predicate OtpIs(p: Params, d: Decoded, seedId: nat, otp: nat) {
    seedId < 0x1_0000 && otp < 0x1_0000_0000 && d.otp == if p.otp then Some((seedId, otp)) else None
  }

  lemma OtpDataIff(b: seq<byte>)
    requires |b| == 6
    ensures FromLe(b[..2]) < 0x1_0000 && FromLe(b[2..]) < 0x1_0000_0000
    ensures Le(FromLe(b[..2]), 2) + Le(FromLe(b[2..]), 4) == b
  {
    Range2();
    Range4();
    FromLeRoundTrip(b[..2]);
    FromLeRoundTrip(b[2..]);
  }

  lemma PlainExactly(p: Params, c: Crypto, mtu: nat, plain: seq<byte>, d: Decoded)
    requires CryptoOk(p, c)
    ensures DecodePlain(p, c, mtu, plain) == Some(d) <==> |d.payload| <= mtu && Says(p, c, plain, d)
  {
    if DecodePlain(p, c, mtu, plain) == Some(d) {
      var otpData := plain[..p.OtpLen()];
      assert plain == otpData + plain[p.OtpLen()..p.HeaderLen()] + d.payload;
      if p.otp {
        OtpDataIff(otpData);
        assert OtpIs(p, d, FromLe(otpData[..2]), FromLe(otpData[2..]));
        assert OtpData(p, FromLe(otpData[..2]), FromLe(otpData[2..])) == otpData;
      } else {
        assert OtpIs(p, d, 0, 0) && OtpData(p, 0, 0) == otpData;
      }
    }
    if |d.payload| <= mtu && Says(p, c, plain, d) {
      var seedId, otp :| OtpIs(p, d, seedId, otp) && plain == Plaintext(p, c, seedId, otp, d.payload);
      PlainRoundTrip(p, c, seedId, otp, d.payload, mtu);
    }
  }

  // What precedes the padding of whole blocks is what was padded.
  lemma PaddedExactly(b: seq<byte>, blockSize: nat, plain: seq<byte>)
    requires blockSize > 0 && |b| % blockSize == 0
    ensures b == Padded(plain, blockSize) <==>
      |b| >= blockSize && PadStart(b, |b| - blockSize) == Some(|plain|) && b[..|plain|] == plain
  {
    if b == Padded(plain, blockSize) {
      PadFound(plain, blockSize);
    }
    if |b| >= blockSize && PadStart(b, |b| - blockSize) == Some(|plain|) && b[..|plain|] == plain {
      PadStartUnique(b, |b| - blockSize, |plain|);
      MultipleBetween(|b|, |plain| + 1, blockSize);
      assert b == plain + [1] + b[|plain| + 1..];
      assert b[|plain| + 1..] == Zeros(|b| - |plain| - 1);
    }
  }

  lemma {:induction false} MultipleBetween(m: nat, x: nat, n: nat)
    requires n > 0 && m % n == 0 && x <= m < x + n
    ensures AlignUp(x, n) == m
  {
    var k, u := AlignUp(x, n) / n, m / n;
    assert AlignUp(x, n) == k * n && m == u * n;
    LessMultiple(k, u, n);
    LessMultiple(u, k, n);
  }

  // Exactly which packets decode, for any hash and cipher: those that carry, in whole blocks, a
  // plaintext with a payload that fits and the hash of what it says; and what they decode to is
  // what the plaintext says.
  lemma DecodesExactly(p: Params, c: Crypto, haveKey: bool, mtu: nat, b: seq<byte>, d: Decoded)
    requires p.Valid() && CryptoOk(p, c)
    ensures Decode(p, c, haveKey, mtu, b) == Some(d) <==>
      |d.payload| <= mtu && exists plain :: Carries(p, c, haveKey, b, plain) && Says(p, c, plain, d)
  {
    hide CryptoOk, DecodePlain, Says, Padded, PadStart;
    if Decode(p, c, haveKey, mtu, b) == Some(d) {
      var plain := CarriedPlain(p, c, haveKey, mtu, b, d);
      PlainExactly(p, c, mtu, plain, d);
    }
    if |d.payload| <= mtu && exists plain :: Carries(p, c, haveKey, b, plain) && Says(p, c, plain, d) {
      var plain :| Carries(p, c, haveKey, b, plain) && Says(p, c, plain, d);
      PlainExactly(p, c, mtu, plain, d);
      CarriedDecodes(p, c, haveKey, mtu, b, plain);
    }
  }

  lemma CarriedPlain(p: Params, c: Crypto, haveKey: bool, mtu: nat, b: seq<byte>, d: Decoded) returns (plain: seq<byte>)
    requires p.Valid() && CryptoOk(p, c) && Decode(p, c, haveKey, mtu, b) == Some(d)
    ensures Carries(p, c, haveKey, b, plain) && DecodePlain(p, c, mtu, plain) == Some(d)
  {
    hide DecodePlain, Padded;
    plain := b;
    if p.encryption {
      var padded := c.decrypt(b[..p.blockSize], b[p.blockSize..]);
      OneBlockLess(|b|, p.blockSize);
      plain := padded[..PadStart(padded, |padded| - p.blockSize).value];
      PaddedExactly(padded, p.blockSize, plain);
    }
  }

  lemma CarriedDecodes(p: Params, c: Crypto, haveKey: bool, mtu: nat, b: seq<byte>, plain: seq<byte>)
    requires p.Valid() && CryptoOk(p, c) && Carries(p, c, haveKey, b, plain)
    ensures Decode(p, c, haveKey, mtu, b) == DecodePlain(p, c, mtu, plain)
  {
    hide DecodePlain, Padded;
    if p.encryption {
      var padded := c.decrypt(b[..p.blockSize], b[p.blockSize..]);
      OneBlockLess(|b|, p.blockSize);
      PaddedExactly(padded, p.blockSize, plain);
    }
  }

  // The hash of a packet that decodes is right: it is that of the plaintext with its hash field zero.
  lemma DecodedHashIsRight(p: Params, c: Crypto, haveKey: bool, mtu: nat, b: seq<byte>, plain: seq<byte>)
    requires p.Valid() && CryptoOk(p, c) && p.hash && Carries(p, c, haveKey, b, plain)
    ensures Decode(p, c, haveKey, mtu, b).Some? ==>
      && p.HeaderLen() <= |plain|
      && plain[p.OtpLen()..p.HeaderLen()] == c.hash(plain[..p.OtpLen()] + Zeros(p.hashSize) + plain[p.HeaderLen()..])
  {
    CarriedDecodes(p, c, haveKey, mtu, b, plain);
  }
}
