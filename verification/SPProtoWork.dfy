// encode_work_func of client/SPProtoEncoder.c and decode_work_func of client/SPProtoDecoder.c, on
// the buffers they work in.
module SPProtoWork {
  import opened Bytes
  import opened Memory
  import opened Wrappers
  import opened SPProto

  // memset of n zero bytes
  method ZeroFill(a: array<byte>, pos: nat, n: nat)
    requires pos + n <= a.Length
    modifies a
    ensures a[..] == old(a[..pos]) + Zeros(n) + old(a[pos + n..])
  {
    CopyInto(a, pos, Zeros(n));
  }

  // Writes the header before a payload that stands in its place already, then the padding.
  method WritePlaintext(p: Params, c: Crypto, plaintext: array<byte>, inLen: nat, seedId: nat, otp: nat)
    requires p.HeaderLen() + inLen <= plaintext.Length && CryptoOk(p, c)
    modifies plaintext
    ensures plaintext[..p.HeaderLen() + inLen] == Plaintext(p, c, seedId, otp, old(plaintext[p.HeaderLen()..p.HeaderLen() + inLen]))
  {
    var len := p.HeaderLen() + inLen;
    ghost var payload := plaintext[p.HeaderLen()..len];
    ghost var otpData := OtpData(p, seedId, otp);
    ghost var before := plaintext[..];
    if p.otp {
      CopyInto(plaintext, 0, Le(seedId, 2) + Le(otp, 4));
    }
    Overwritten(before, plaintext[..], 0, otpData, p.HeaderLen(), len);
    if p.hash {
      WriteHash(p, c, plaintext, len);
    } else {
      assert plaintext[..len] == plaintext[..p.OtpLen()] + plaintext[p.HeaderLen()..len];
    }
  }

  // What b written at pos leaves of the first len bytes, and of those behind `from`.
  lemma Overwritten(before: seq<byte>, after: seq<byte>, pos: nat, b: seq<byte>, from: nat, len: nat)
    requires pos + |b| <= from <= len <= |before| && after == before[..pos] + b + before[pos + |b|..]
    ensures |after| == |before| && after[..pos] == before[..pos] && after[pos..pos + |b|] == b
    ensures after[..pos + |b|] == before[..pos] + b
    ensures after[from..len] == before[from..len]
    ensures after[..len] == before[..pos] + b + before[pos + |b|..len]
  {
  }

  // The hash field, calculated with the field zero.
  method WriteHash(p: Params, c: Crypto, plaintext: array<byte>, len: nat)
    requires p.hash && p.HeaderLen() <= len <= plaintext.Length && CryptoOk(p, c)
    modifies plaintext
    ensures var otpData, payload := old(plaintext[..p.OtpLen()]), old(plaintext[p.HeaderLen()..len]);
      plaintext[..len] == otpData + HashField(p, c, otpData, payload) + payload
  {
    ghost var before := plaintext[..];
    ZeroFill(plaintext, p.OtpLen(), p.hashSize);
    ghost var zeroed := plaintext[..];
    Overwritten(before, zeroed, p.OtpLen(), Zeros(p.hashSize), p.HeaderLen(), len);
    var hash := c.hash(plaintext[..len]);
    CopyInto(plaintext, p.OtpLen(), hash);
    Overwritten(zeroed, plaintext[..], p.OtpLen(), hash, p.HeaderLen(), len);
  }

  // The padding loop of encode_work_func.
  method WritePadding(p: Params, plaintext: array<byte>, plaintextLen: nat, ciphertextLen: nat)
    requires p.Valid() && p.encryption && ciphertextLen == AlignUp(plaintextLen + 1, p.blockSize) <= plaintext.Length
    modifies plaintext
    ensures plaintext[..ciphertextLen] == Padded(old(plaintext[..plaintextLen]), p.blockSize)
  {
    ghost var plain := plaintext[..plaintextLen];
    plaintext[plaintextLen] := 1;
    var i := plaintextLen + 1;
    while i < ciphertextLen
      invariant plaintextLen + 1 <= i <= ciphertextLen
      invariant plaintext[..plaintextLen] == plain && plaintext[plaintextLen] == 1
      invariant forall j :: plaintextLen < j < i ==> plaintext[j] == 0
    {
      plaintext[i] := 0;
      i := i + 1;
    }
    assert plaintext[..ciphertextLen] == plain + [1] + Zeros(ciphertextLen - plaintextLen - 1);
  }

  // encode_work_func. The payload stands behind the header in buf when encrypting, in out when
  // not. The buffers have the sizes SPProtoEncoder_Init allocates: no write leaves them.
  method EncodeWork(p: Params, c: Crypto, out: array<byte>, buf: array<byte>, inputMtu: nat, inLen: nat, seedId: nat, otp: nat, iv: seq<byte>)
    returns (outLen: nat)
    requires p.Valid() && CryptoOk(p, c) && inLen <= inputMtu && out != buf
    requires out.Length == CarrierMtu(p, inputMtu)
    requires p.encryption ==> buf.Length == AlignUp(p.HeaderLen() + inputMtu + 1, p.blockSize) && |iv| == p.blockSize
    modifies out, buf
    ensures outLen <= out.Length
    ensures var plaintext := if p.encryption then buf else out;
      p.HeaderLen() + inLen <= plaintext.Length &&
      out[..outLen] == Encode(p, c, seedId, otp, iv, old(plaintext[p.HeaderLen()..p.HeaderLen() + inLen]))
  {
    hide Plaintext, Padded, CryptoOk;
    FitsBuffers(p, inLen, inputMtu);
    var plaintextLen := p.HeaderLen() + inLen;
    if p.encryption {
      WritePlaintext(p, c, buf, inLen, seedId, otp);
      outLen := EncryptPlaintext(p, c, out, buf, plaintextLen, iv);
    } else {
      WritePlaintext(p, c, out, inLen, seedId, otp);
      outLen := plaintextLen;
    }
  }

  // The part of encode_work_func for encryption.
  method EncryptPlaintext(p: Params, c: Crypto, out: array<byte>, buf: array<byte>, plaintextLen: nat, iv: seq<byte>)
    returns (outLen: nat)
    requires p.Valid() && p.encryption && CryptoOk(p, c) && out != buf && |iv| == p.blockSize
    requires AlignUp(plaintextLen + 1, p.blockSize) <= buf.Length
    requires p.blockSize + AlignUp(plaintextLen + 1, p.blockSize) <= out.Length
    modifies out, buf
    ensures outLen == p.blockSize + AlignUp(plaintextLen + 1, p.blockSize)
    ensures out[..outLen] == iv + c.encrypt(iv, Padded(old(buf[..plaintextLen]), p.blockSize))
  {
    var ciphertextLen := AlignUp(plaintextLen + 1, p.blockSize);
    WritePadding(p, buf, plaintextLen, ciphertextLen);
    var ciphertext := c.encrypt(iv, buf[..ciphertextLen]);
    CopyInto(out, 0, iv);
    assert out[..p.blockSize] == iv;
    CopyInto(out, p.blockSize, ciphertext);
    outLen := p.blockSize + ciphertextLen;
    assert out[..outLen] == iv + ciphertext;
  }

  // A payload within the MTU fits the buffers.
  lemma FitsBuffers(p: Params, inLen: nat, inputMtu: nat)
    requires p.Valid() && inLen <= inputMtu
    ensures p.HeaderLen() + inLen <= p.HeaderLen() + inputMtu <= CarrierMtu(p, inputMtu)
    ensures p.encryption ==> AlignUp(p.HeaderLen() + inLen + 1, p.blockSize) <= AlignUp(p.HeaderLen() + inputMtu + 1, p.blockSize)
    ensures CarrierMtu(p, inLen) <= CarrierMtu(p, inputMtu)
  {
    if p.encryption {
      var m := AlignUp(p.HeaderLen() + inputMtu + 1, p.blockSize);
      AlignUpLeast(p.HeaderLen() + inLen + 1, p.blockSize, m);
    }
  }

  // The padding scan of decode_work_func.
  method ScanPadding(b: array<byte>, len: nat, low: nat) returns (start: Option<nat>)
    requires low <= len <= b.Length
    ensures start == PadStart(b[..len], low)
  {
    var i: int := len - 1;
    while i >= low
      invariant low - 1 <= i < len && PadStart(b[..len], low) == PadStart(b[..i + 1], low)
    {
      assert b[..i + 1][..i] == b[..i];
      if b[i] == 1 {
        return Some(i);
      }
      if b[i] != 0 {
        return None;
      }
      i := i - 1;
    }
    start := None;
  }

  // The hash check of decode_work_func: the field is zeroed for the calculation and restored.
  method HashMatches(p: Params, c: Crypto, plaintext: array<byte>, len: nat) returns (ok: bool)
    requires CryptoOk(p, c) && p.hash && p.HeaderLen() <= len <= plaintext.Length
    modifies plaintext
    ensures plaintext[..] == old(plaintext[..])
    ensures var zeroed := plaintext[..p.OtpLen()] + Zeros(p.hashSize) + plaintext[p.HeaderLen()..len];
      ok <==> plaintext[p.OtpLen()..p.HeaderLen()] == c.hash(zeroed)
  {
    ghost var before := plaintext[..];
    var hash := plaintext[p.OtpLen()..p.HeaderLen()];
    ZeroFill(plaintext, p.OtpLen(), p.hashSize);
    assert plaintext[..len] == before[..p.OtpLen()] + Zeros(p.hashSize) + before[p.HeaderLen()..len];
    var calculated := c.hash(plaintext[..len]);
    CopyInto(plaintext, p.OtpLen(), hash);
    assert plaintext[..] == before;
    ok := hash == calculated;
  }

  function Result(p: Params, seedId: nat, otp: nat, payload: seq<byte>): Decoded {
    Decoded(if p.otp then Some((seedId, otp)) else None, payload)
  }

  // The checks of decode_work_func on a plaintext. Returns where the payload is.
  method CheckPlaintext(p: Params, c: Crypto, outputMtu: nat, plaintext: array<byte>, len: nat)
    returns (ok: bool, seedId: nat, otp: nat, outLen: nat)
    requires CryptoOk(p, c) && len <= plaintext.Length
    modifies plaintext
    ensures plaintext[..] == old(plaintext[..])
    ensures ok <==> DecodePlain(p, c, outputMtu, plaintext[..len]).Some?
    ensures ok ==> p.HeaderLen() + outLen == len
    ensures ok ==> DecodePlain(p, c, outputMtu, plaintext[..len]) == Some(Result(p, seedId, otp, plaintext[p.HeaderLen()..len]))
  {
    ok, seedId, otp, outLen := false, 0, 0, 0;
    if len < p.HeaderLen() {
      return;
    }
    if len - p.HeaderLen() > outputMtu {
      return;
    }
    PlainParts(p, plaintext[..], len);
    if p.otp {
      seedId := FromLe(plaintext[0..2]);
      otp := FromLe(plaintext[2..6]);
    }
    if p.hash {
      var matches := HashMatches(p, c, plaintext, len);
      if !matches {
        return;
      }
    }
    ok, outLen := true, len - p.HeaderLen();
  }

  lemma PlainParts(p: Params, b: seq<byte>, len: nat)
    requires p.HeaderLen() <= len <= |b|
    ensures b[..len][..p.OtpLen()] == b[..p.OtpLen()] && b[..len][p.OtpLen()..p.HeaderLen()] == b[p.OtpLen()..p.HeaderLen()]
    ensures b[..len][p.HeaderLen()..] == b[p.HeaderLen()..len]
    ensures p.otp ==> b[..p.OtpLen()][..2] == b[0..2] && b[..p.OtpLen()][2..] == b[2..6]
  {
  }

  // decode_work_func. The packet is decrypted into buf, which has the size SPProtoDecoder_Init
  // allocates; without encryption it is read where it is. `at` is where the payload is.
  method DecodeWork(p: Params, c: Crypto, haveKey: bool, input: array<byte>, inLen: nat, buf: array<byte>, outputMtu: nat)
    returns (ok: bool, seedId: nat, otp: nat, outLen: nat)
    requires p.Valid() && CryptoOk(p, c) && input != buf
    requires inLen <= CarrierMtu(p, outputMtu) && inLen <= input.Length
    requires p.encryption ==> buf.Length == AlignUp(p.HeaderLen() + outputMtu + 1, p.blockSize)
    modifies input, buf
    ensures input[..] == old(input[..])
    ensures ok <==> Decode(p, c, haveKey, outputMtu, input[..inLen]).Some?
    ensures var plaintext := if p.encryption then buf else input;
      ok ==>
        && p.HeaderLen() + outLen <= plaintext.Length
        && Decode(p, c, haveKey, outputMtu, input[..inLen]) ==
           Some(Result(p, seedId, otp, plaintext[p.HeaderLen()..p.HeaderLen() + outLen]))
  {
    hide DecodePlain, CryptoOk, PadStart;
    ok, seedId, otp, outLen := false, 0, 0, 0;
    if !p.encryption {
      ok, seedId, otp, outLen := CheckPlaintext(p, c, outputMtu, input, inLen);
      return;
    }
    if inLen % p.blockSize != 0 {
      return;
    }
    if inLen < p.blockSize {
      return;
    }
    if !haveKey {
      return;
    }
    var ciphertextLen := inLen - p.blockSize;
    Blocks(input[..], inLen, p.blockSize);
    ghost var padded := DecryptTo(p, c, input, inLen, buf);
    if ciphertextLen < p.blockSize {
      return;
    }
    var start := ScanPadding(buf, ciphertextLen, ciphertextLen - p.blockSize);
    if start.None? {
      return;
    }
    Prefixes(buf[..], padded, ciphertextLen, start.value);
    ok, seedId, otp, outLen := CheckPlaintext(p, c, outputMtu, buf, start.value);
  }

  lemma Blocks(b: seq<byte>, len: nat, blockSize: nat)
    requires blockSize <= len <= |b|
    ensures b[..len][..blockSize] == b[..blockSize] && b[..len][blockSize..] == b[blockSize..len]
  {
  }

  lemma Prefixes(b: seq<byte>, padded: seq<byte>, len: nat, start: nat)
    requires start <= len <= |b| && b[..len] == padded
    ensures b[..start] == padded[..start]
  {
  }

  // BEncryption_Decrypt into the plaintext buffer
  method DecryptTo(p: Params, c: Crypto, input: array<byte>, inLen: nat, buf: array<byte>) returns (ghost padded: seq<byte>)
    requires p.blockSize <= inLen <= input.Length && inLen - p.blockSize <= buf.Length && CryptoOk(p, c) && input != buf
    modifies buf
    ensures padded == c.decrypt(input[..p.blockSize], input[p.blockSize..inLen])
    ensures |padded| == inLen - p.blockSize && buf[..inLen - p.blockSize] == padded
  {
    var plain := c.decrypt(input[..p.blockSize], input[p.blockSize..inLen]);
    CopyInto(buf, 0, plain);
    padded := plain;
  }
}
