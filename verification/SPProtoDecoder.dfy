// client/SPProtoDecoder.c: the object. OTPChecker_CheckOTP is the caller's answer.
module SPProtoDecoder {
  import opened Bytes
  import opened Wrappers
  import opened SPProto
  import Work = SPProtoWork

  // What happens to a packet that was passed to the decoder.
  datatype Fate = Dropped | Delivered(payload: seq<byte>)

  // The specification: a packet is delivered if it decodes and its password is accepted.
  function FateOf(p: Params, c: Crypto, haveKey: bool, mtu: nat, packet: seq<byte>, accepts: (nat, nat) -> bool): Fate
    requires p.Valid()
  {
    match Decode(p, c, haveKey, mtu, packet)
    case None => Dropped
    case Some(d) => if d.otp.Some? && !accepts(d.otp.value.0, d.otp.value.1) then Dropped else Delivered(d.payload)
  }

  // The history lists the packets received, each with its fate once the decoder is done with it.
  class Decoder {
    const p: Params
    const outputMtu: nat
    const buf: array<byte>
    var crypto: Crypto
    var haveEncryptionKey: bool
    var input: array<byte>
    var inLen: int
    var twHave: bool
    ghost var received: seq<seq<byte>>
    ghost var fates: seq<Fate>

    // The packet in work is the last one received, and every earlier one has its fate.
    ghost predicate Valid()
      reads this, input, buf
    {
      && p.Valid() && CryptoOk(p, crypto) && input != buf
      && (p.encryption ==> buf.Length == AlignUp(p.HeaderLen() + outputMtu + 1, p.blockSize))
      && -1 <= inLen
      && (twHave ==> inLen >= 0)
      && (inLen >= 0 ==>
          && inLen <= CarrierMtu(p, outputMtu) && inLen <= input.Length
          && received != [] && received[|received| - 1] == input[..inLen])
      && |received| == |fates| + (if twHave then 1 else 0)
    }

    constructor (p: Params, crypto: Crypto, outputMtu: nat)
      requires p.Valid() && CryptoOk(p, crypto)
      ensures Valid() && inLen == -1 && received == [] && fresh(buf)
      ensures this.p == p && this.outputMtu == outputMtu
    {
      this.p, this.crypto, this.outputMtu := p, crypto, outputMtu;
      inLen, twHave, haveEncryptionKey := -1, false, false;
      received, fates := [], [];
      buf := new byte[if p.encryption then AlignUp(p.HeaderLen() + outputMtu + 1, p.blockSize) else 0];
      input := new byte[0];
    }

    method InputHandlerSend(data: array<byte>, dataLen: nat)
      requires Valid() && inLen == -1
      requires dataLen <= CarrierMtu(p, outputMtu) && dataLen <= data.Length && data != buf
      modifies this
      ensures Valid() && twHave && inLen == dataLen && input == data && crypto == old(crypto)
      ensures haveEncryptionKey == old(haveEncryptionKey)
      ensures received == old(received) + [data[..dataLen]] && fates == old(fates)
    {
      hide CryptoOk, CarrierMtu;
      input, inLen, twHave := data, dataLen, true;
      received := received + [data[..dataLen]];
    }

    // The work and decode_work_handler: the packet is finished, or sent to the output and kept
    // until output_handler_done. `at` and outLen say where the payload is.
    method DecodeWorkHandler(accepts: (nat, nat) -> bool) returns (sent: bool, outLen: nat)
      requires Valid() && twHave
      modifies this, input, buf
      ensures Valid() && !twHave && crypto == old(crypto) && received == old(received)
      ensures input == old(input) && input[..] == old(input[..])
      ensures fates == old(fates) + [FateOf(p, crypto, haveEncryptionKey, outputMtu, old(input[..inLen]), accepts)]
      ensures sent <==> fates[|fates| - 1].Delivered?
      ensures inLen == if sent then old(inLen) else -1
      ensures var plaintext := if p.encryption then buf else input;
        sent ==>
          && p.HeaderLen() + outLen <= plaintext.Length
          && fates[|fates| - 1].payload == plaintext[p.HeaderLen()..p.HeaderLen() + outLen]
    {
      hide CryptoOk, Decode, CarrierMtu;
      var seedId, otp;
      sent, seedId, otp, outLen := Work.DecodeWork(p, crypto, haveEncryptionKey, input, inLen, buf, outputMtu);
      Finish(sent && (p.otp ==> accepts(seedId, otp)), FateOf(p, crypto, haveEncryptionKey, outputMtu, input[..inLen], accepts));
      sent := inLen >= 0;
    }

    method Finish(send: bool, ghost fate: Fate)
      requires Valid() && twHave
      modifies this
      ensures Valid() && !twHave && crypto == old(crypto) && haveEncryptionKey == old(haveEncryptionKey)
      ensures received == old(received) && input == old(input)
      ensures fates == old(fates) + [fate] && inLen == if send then old(inLen) else -1
    {
      hide CryptoOk, CarrierMtu;
      twHave := false;
      if !send {
        inLen := -1;
      }
      fates := fates + [fate];
    }

    method OutputHandlerDone()
      requires Valid() && inLen >= 0 && !twHave
      modifies this
      ensures Valid() && inLen == -1 && received == old(received) && fates == old(fates) && crypto == old(crypto)
    {
      hide CryptoOk, CarrierMtu;
      inLen := -1;
    }

    // maybe_stop_work_and_ignore
    method MaybeStopWorkAndIgnore()
      requires Valid()
      modifies this
      ensures Valid() && !twHave && crypto == old(crypto) && received == old(received)
      ensures fates == if old(twHave) then old(fates) + [Dropped] else old(fates)
      ensures inLen == if old(twHave) then -1 else old(inLen)
    {
      if twHave {
        Finish(false, Dropped);
      }
    }

    method SetEncryptionKey(keyed: Crypto)
      requires Valid() && p.encryption && CryptoOk(p, keyed)
      modifies this
      ensures Valid() && !twHave && crypto == keyed && haveEncryptionKey && received == old(received)
      ensures fates == if old(twHave) then old(fates) + [Dropped] else old(fates)
      ensures inLen == if old(twHave) then -1 else old(inLen)
    {
      hide CryptoOk, CarrierMtu;
      MaybeStopWorkAndIgnore();
      crypto, haveEncryptionKey := keyed, true;
    }

    method RemoveEncryptionKey()
      requires Valid() && p.encryption
      modifies this
      ensures Valid() && !twHave && !haveEncryptionKey && received == old(received)
      ensures fates == if old(twHave) then old(fates) + [Dropped] else old(fates)
      ensures inLen == if old(twHave) then -1 else old(inLen)
    {
      hide CryptoOk, CarrierMtu;
      MaybeStopWorkAndIgnore();
      haveEncryptionKey := false;
    }
  }

  // What the encoder makes is delivered with its payload when the password is accepted.
  lemma EncodedIsDelivered(p: Params, c: Crypto, seedId: nat, otp: nat, iv: seq<byte>, payload: seq<byte>, mtu: nat, accepts: (nat, nat) -> bool)
    requires p.Valid() && CryptoOk(p, c) && seedId < 0x1_0000 && otp < 0x1_0000_0000 && |payload| <= mtu
    requires p.encryption ==> |iv| == p.blockSize
    ensures FateOf(p, c, true, mtu, Encode(p, c, seedId, otp, iv, payload), accepts) ==
      if p.otp && !accepts(seedId, otp) then Dropped else Delivered(payload)
  {
    hide CryptoOk, Encode, Decode;
    RoundTrip(p, c, seedId, otp, iv, payload, mtu);
  }

  // Exactly which packets are delivered, for any hash and cipher: those that carry a plaintext with
  // a right hash, a payload that fits and an accepted password.
  lemma DeliveredExactly(p: Params, c: Crypto, haveKey: bool, mtu: nat, packet: seq<byte>, accepts: (nat, nat) -> bool, payload: seq<byte>)
    requires p.Valid() && CryptoOk(p, c)
    ensures FateOf(p, c, haveKey, mtu, packet, accepts) == Delivered(payload) <==>
      && |payload| <= mtu
      && exists plain, seedId, otp ::
        && Carries(p, c, haveKey, packet, plain) && seedId < 0x1_0000 && otp < 0x1_0000_0000
        && plain == Plaintext(p, c, seedId, otp, payload) && (p.otp ==> accepts(seedId, otp))
  {
    hide CryptoOk, Decode, Carries, Plaintext;
    if FateOf(p, c, haveKey, mtu, packet, accepts) == Delivered(payload) {
      var d := Decode(p, c, haveKey, mtu, packet).value;
      DecodesExactly(p, c, haveKey, mtu, packet, d);
      var plain :| Carries(p, c, haveKey, packet, plain) && Says(p, c, plain, d);
      var seedId, otp :| OtpIs(p, d, seedId, otp) && plain == Plaintext(p, c, seedId, otp, d.payload);
      assert p.otp ==> accepts(seedId, otp);
    }
    if |payload| <= mtu && exists plain, seedId, otp ::
        && Carries(p, c, haveKey, packet, plain) && seedId < 0x1_0000 && otp < 0x1_0000_0000
        && plain == Plaintext(p, c, seedId, otp, payload) && (p.otp ==> accepts(seedId, otp))
    {
      var plain, seedId, otp :|
        && Carries(p, c, haveKey, packet, plain) && seedId < 0x1_0000 && otp < 0x1_0000_0000
        && plain == Plaintext(p, c, seedId, otp, payload) && (p.otp ==> accepts(seedId, otp));
      var d := Decoded(if p.otp then Some((seedId, otp)) else None, payload);
      assert OtpIs(p, d, seedId, otp);
      DecodesExactly(p, c, haveKey, mtu, packet, d);
    }
  }
}
