// client/SPProtoEncoder.c: the object, with its OTP generator.
module SPProtoEncoder {
  import opened Bytes
  import opened Wrappers
  import opened SPProto
  import Work = SPProtoWork
  import Spec = SPProtoEncoderSpec

  class Encoder {
    const c: Spec.Config
    const inputMtu: nat
    const buf: array<byte>
    var crypto: Crypto
    var inLen: int
    var outHave: bool
    var out: array<byte>
    var twHave: bool
    var haveEncryptionKey: bool
    var twSeedId: nat
    var twOtp: nat
    var otpgenSeedId: nat
    var otpgenPendingSeedId: nat
    // OTPGenerator: the passwords in use, how many are used up, and those being generated
    var position: nat
    var otps: seq<nat>
    var generating: Option<seq<nat>>
    ghost var seeds: seq<Spec.Seed>
    ghost var drawn: seq<Spec.Draw>
    ghost var emitted: seq<nat>
    ghost var warned: seq<nat>

    ghost function State(): Spec.State
      reads this
    {
      Spec.State(if inLen >= 0 then Some(inLen) else None, outHave, twHave, haveEncryptionKey, twSeedId, twOtp,
                 otpgenSeedId, otpgenPendingSeedId, position, otps, generating, seeds, drawn, emitted, warned)
    }

    // The buffers have the sizes SPProtoEncoder_Init and the output's MTU give them.
    ghost predicate Buffers()
      reads this
    {
      && c.params.Valid() && CryptoOk(c.params, crypto)
      && (c.params.encryption ==> buf.Length == AlignUp(c.params.HeaderLen() + inputMtu + 1, c.params.blockSize))
      && (outHave ==> out.Length == CarrierMtu(c.params, inputMtu) && out != buf)
      && -1 <= inLen <= inputMtu
    }

    ghost predicate Valid()
      reads this
    {
      Buffers() && Spec.Valid(c, State())
    }

    constructor (c: Spec.Config, crypto: Crypto, inputMtu: nat)
      requires c.params.Valid() && CryptoOk(c.params, crypto)
      ensures Valid() && State() == Spec.Init(c) && this.c == c && this.inputMtu == inputMtu && fresh(buf)
    {
      this.c, this.crypto, this.inputMtu := c, crypto, inputMtu;
      inLen, outHave, twHave, haveEncryptionKey := -1, false, false, false;
      twSeedId, twOtp, otpgenSeedId, otpgenPendingSeedId := 0, 0, 0, 0;
      position, otps, generating := c.otpNum, [], None;
      seeds, drawn, emitted, warned := [], [], [], [];
      var size := if c.params.encryption then AlignUp(c.params.HeaderLen() + inputMtu + 1, c.params.blockSize) else 0;
      buf := new byte[size];
      out := new byte[0];
      new;
      Spec.InitValid(c);
    }

    predicate CanEncode()
      reads this
    {
      (c.params.otp ==> position < c.otpNum) && (c.params.encryption ==> haveEncryptionKey)
    }

    // OTPGenerator_GetOTP
    method GetOtp() returns (otp: nat)
      requires position < |otps|
      modifies this`position
      ensures position == old(position) + 1 && otp == otps[old(position)]
    {
      otp := otps[position];
      position := position + 1;
    }

    method EncodePacket() returns (warn: bool)
      requires Buffers() && Spec.HasOtps(c, State())
      requires inLen >= 0 && outHave && !twHave && CanEncode()
      modifies this`twSeedId, this`twOtp, this`position, this`drawn, this`warned, this`twHave
      ensures Buffers() && State() == Spec.EncodePacket(c, old(State()))
      ensures warn <==> c.params.otp && position == c.warningCount
    {
      hide CryptoOk;
      warn := false;
      if c.params.otp {
        ghost var d := Spec.Draw(|seeds| - 1, position, otpgenSeedId, otps[position]);
        twSeedId := otpgenSeedId;
        twOtp := GetOtp();
        drawn := drawn + [d];
      }
      twHave := true;
      if c.params.otp && position == c.warningCount {
        warn := true;
        warned := warned + [|seeds| - 1];
      }
    }

    method MaybeEncode() returns (warn: bool)
      requires Buffers() && Spec.AlmostValid(c, State())
      modifies this`twSeedId, this`twOtp, this`position, this`drawn, this`warned, this`twHave
      ensures Valid() && State() == Spec.MaybeEncode(c, old(State()))
    {
      hide Spec.DrawsOk, Spec.EmittedOk, Spec.WarnedOk, Spec.Valid;
      Spec.MaybeEncodeKeeps(c, State());
      warn := false;
      if inLen >= 0 && outHave && !twHave && CanEncode() {
        warn := EncodePacket();
      }
    }

    // Where the input's packet is to be received.
    function Plaintext(): array<byte>
      reads this
    {
      if c.params.encryption then buf else out
    }

    method OutputHandlerRecv(data: array<byte>)
      requires Valid() && !outHave && data.Length == CarrierMtu(c.params, inputMtu) && data != buf
      modifies this
      ensures Valid() && State() == Spec.Step(c, old(State()), Spec.OutputRecv) && out == data
    {
      Spec.StepKeepsValid(c, State(), Spec.OutputRecv);
      assert inLen == -1 && !twHave;
      hide Spec.Valid;
      outHave, out := true, data;
    }

    method InputHandlerDone(dataLen: nat) returns (warn: bool)
      requires Valid() && outHave && inLen == -1 && dataLen <= inputMtu
      modifies this
      ensures Valid() && State() == Spec.Step(c, old(State()), Spec.InputDone(dataLen)) && out == old(out)
    {
      hide Spec.DrawsOk, Spec.EmittedOk, Spec.WarnedOk;
      ghost var before := State();
      Spec.StepKeepsValid(c, before, Spec.InputDone(dataLen));
      assert !twHave;
      inLen := dataLen;
      warn := false;
      if CanEncode() {
        warn := EncodePacket();
      }
    }

    // The work and encode_work_handler. What the work reads stays as it is from its start to its
    // end, since a change of key stops it.
    method EncodeWorkHandler(iv: seq<byte>) returns (outLen: nat)
      requires Valid() && twHave && (c.params.encryption ==> |iv| == c.params.blockSize)
      modifies this, buf, out
      ensures Valid() && State() == Spec.Step(c, old(State()), Spec.WorkDone)
      ensures out == old(out) && outLen <= out.Length
      ensures var h := c.params.HeaderLen();
        h + old(inLen) <= old(Plaintext()).Length &&
        out[..outLen] == Encode(c.params, crypto, old(twSeedId), old(twOtp), iv, old(Plaintext()[h..h + inLen]))
    {
      hide Spec.DrawsOk, Spec.EmittedOk, Spec.WarnedOk, CryptoOk, Encode;
      Spec.StepKeepsValid(c, State(), Spec.WorkDone);
      outLen := Work.EncodeWork(c.params, crypto, out, buf, inputMtu, inLen, twSeedId, twOtp, iv);
      Finish();
    }

    method Finish()
      requires Valid() && twHave && Spec.Valid(c, Spec.Step(c, State(), Spec.WorkDone))
      modifies this
      ensures Valid() && State() == Spec.Step(c, old(State()), Spec.WorkDone) && out == old(out) && crypto == old(crypto)
    {
      hide Spec.Valid;
      twHave, inLen, outHave := false, -1, false;
      emitted := if c.params.otp && drawn != [] then emitted + [|drawn| - 1] else emitted;
    }

    method OtpGeneratorHandler() returns (warn: bool)
      requires Valid() && c.params.otp && generating.Some?
      modifies this
      ensures Valid() && State() == Spec.Step(c, old(State()), Spec.OtpsGenerated)
    {
      ghost var before := State();
      Spec.SeedAlmostValid(c, before);
      hide Spec.DrawsOk, Spec.WarnedOk, Spec.EmittedOk, Spec.HasOtps, Spec.FlowOk, CryptoOk;
      otps, position, generating := generating.value, 0, None;
      otpgenSeedId := otpgenPendingSeedId;
      seeds := seeds + [Spec.Seed(otpgenSeedId, otps)];
      assert State() == Spec.NewSeed(before);
      warn := MaybeEncode();
    }

    method MaybeStopWork()
      modifies this`twHave
      ensures !twHave
    {
      if twHave {
        twHave := false;
      }
    }

    method SetEncryptionKey(keyed: Crypto) returns (warn: bool)
      requires Valid() && c.params.encryption && CryptoOk(c.params, keyed)
      modifies this
      ensures Valid() && State() == Spec.Step(c, old(State()), Spec.SetEncryptionKey) && crypto == keyed
    {
      ghost var before := State();
      Spec.KeyAlmostValid(c, before);
      hide Spec.DrawsOk, Spec.WarnedOk, Spec.EmittedOk, Spec.HasOtps, Spec.FlowOk, CryptoOk;
      MaybeStopWork();
      crypto, haveEncryptionKey := keyed, true;
      assert State() == before.(twHave := false, haveKey := true);
      warn := MaybeEncode();
    }

    method RemoveEncryptionKey()
      requires Valid() && c.params.encryption
      modifies this
      ensures Valid() && State() == Spec.Step(c, old(State()), Spec.RemoveEncryptionKey)
    {
      Spec.StepKeepsValid(c, State(), Spec.RemoveEncryptionKey);
      hide Spec.Valid;
      MaybeStopWork();
      if haveEncryptionKey {
        haveEncryptionKey := false;
      }
    }

    // generated: what OTPCalculator_Generate makes of the seed
    method SetOtpSeed(seedId: nat, generated: seq<nat>)
      requires Valid() && c.params.otp && |generated| == c.otpNum
      modifies this
      ensures Valid() && State() == Spec.Step(c, old(State()), Spec.SetOtpSeed(seedId, generated))
    {
      Spec.StepKeepsValid(c, State(), Spec.SetOtpSeed(seedId, generated));
      hide Spec.Valid;
      generating := Some(generated);
      otpgenPendingSeedId := seedId;
    }

    method RemoveOtpSeed()
      requires Valid() && c.params.otp
      modifies this
      ensures Valid() && State() == Spec.Step(c, old(State()), Spec.RemoveOtpSeed)
    {
      Spec.StepKeepsValid(c, State(), Spec.RemoveOtpSeed);
      hide Spec.Valid;
      generating := None;
      position := c.otpNum;
    }
  }
}
