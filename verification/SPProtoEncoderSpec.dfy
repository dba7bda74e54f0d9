// The states of client/SPProtoEncoder.c together with its OTP generator (security/OTPGenerator.c).
module SPProtoEncoderSpec {
  import opened Wrappers
  import opened SPProto

  // One password taken from a seed: the seed's number in the order seeds came into use, the
  // position in it, and what the packet says.
  datatype Draw = Draw(seed: nat, position: nat, seedId: nat, otp: nat)

  datatype Seed = Seed(id: nat, otps: seq<nat>)

  datatype Config = Config(params: Params, otpNum: nat, warningCount: nat)

  // The last four fields are history: every seed that came into use, every password drawn, which
  // draws went out in a packet (by number), and for which seeds the warning was raised.
  datatype State = State(
    inLen: Option<nat>, outHave: bool, twHave: bool, haveKey: bool, twSeedId: nat, twOtp: nat,
    seedId: nat, pendingSeedId: nat, position: nat, otps: seq<nat>, generating: Option<seq<nat>>,
    seeds: seq<Seed>, drawn: seq<Draw>, emitted: seq<nat>, warned: seq<nat>)

  datatype Event =
    | OutputRecv
    | InputDone(len: nat)
    | WorkDone
    | SetEncryptionKey
    | RemoveEncryptionKey
    | SetOtpSeed(id: nat, otps: seq<nat>)
    | RemoveOtpSeed
    | OtpsGenerated

  function Init(c: Config): State {
    State(None, false, false, false, 0, 0, 0, 0, c.otpNum, [], None, [], [], [], [])
  }

  predicate CanEncode(c: Config, s: State) {
    (c.params.otp ==> s.position < c.otpNum) && (c.params.encryption ==> s.haveKey)
  }

  // OTPGenerator_GetOTP, and what encode_packet remembers of it
  function DrawOtp(c: Config, s: State): State
    requires s.position < |s.otps| && s.seeds != []
  {
    var current := |s.seeds| - 1;
    s.(twSeedId := s.seedId, twOtp := s.otps[s.position], position := s.position + 1,
       drawn := s.drawn + [Draw(current, s.position, s.seedId, s.otps[s.position])],
       warned := if s.position + 1 == c.warningCount then s.warned + [current] else s.warned)
  }

  function EncodePacket(c: Config, s: State): State
    requires c.params.otp ==> s.position < |s.otps| && s.seeds != []
  {
    (if c.params.otp then DrawOtp(c, s) else s).(twHave := true)
  }

  function MaybeEncode(c: Config, s: State): State
    requires CanEncode(c, s) && c.params.otp ==> s.position < |s.otps| && s.seeds != []
  {
    if s.inLen.Some? && s.outHave && !s.twHave && CanEncode(c, s) then EncodePacket(c, s) else s
  }

  // What the flow interfaces promise about their calls, and what the API asks of the caller.
  predicate Enabled(c: Config, s: State, e: Event) {
    match e
    case OutputRecv => !s.outHave
    case InputDone(_) => s.outHave && s.inLen.None?
    case WorkDone => s.twHave
    case SetEncryptionKey => c.params.encryption
    case RemoveEncryptionKey => c.params.encryption
    case SetOtpSeed(_, otps) => c.params.otp && |otps| == c.otpNum
    case RemoveOtpSeed => c.params.otp
    case OtpsGenerated => c.params.otp && s.generating.Some?
  }

  function Step(c: Config, s: State, e: Event): State
    requires Enabled(c, s, e) && HasOtps(c, s)
  {
    match e
    case OutputRecv => s.(outHave := true)
    case InputDone(len) => MaybeEncode(c, s.(inLen := Some(len)))
    case WorkDone =>
      s.(twHave := false, inLen := None, outHave := false,
         emitted := if c.params.otp && s.drawn != [] then s.emitted + [|s.drawn| - 1] else s.emitted)
    case SetEncryptionKey => MaybeEncode(c, s.(twHave := false, haveKey := true))
    case RemoveEncryptionKey => s.(twHave := false, haveKey := false)
    case SetOtpSeed(id, otps) => s.(pendingSeedId := id, generating := Some(otps))
    case RemoveOtpSeed => s.(generating := None, position := c.otpNum)
    case OtpsGenerated => MaybeEncode(c, NewSeed(s))
  }

  function NewSeed(s: State): State
    requires s.generating.Some?
  {
    s.(otps := s.generating.value, position := 0, generating := None, seedId := s.pendingSeedId,
       seeds := s.seeds + [Seed(s.pendingSeedId, s.generating.value)])
  }

  predicate HasOtps(c: Config, s: State) {
    && s.position <= c.otpNum
    && (s.generating.Some? ==> |s.generating.value| == c.otpNum)
    && (s.position < c.otpNum ==>
        |s.otps| == c.otpNum && s.seeds != [] && s.seeds[|s.seeds| - 1] == Seed(s.seedId, s.otps))
  }

  // The states of the flow: no work without a packet, no packet without a place for it, and no
  // packet waits while it could be encoded.
  predicate FlowOk(c: Config, s: State) {
    && (s.inLen.Some? ==> s.outHave)
    && (s.twHave ==> s.inLen.Some? && (c.params.encryption ==> s.haveKey))
    && (s.inLen.Some? && !s.twHave ==> !CanEncode(c, s))
  }

  // A draw is the password its seed has at that position, under that seed's id.
  ghost predicate DrawOk(s: State, d: Draw) {
    && d.seed < |s.seeds| && d.position < |s.seeds[d.seed].otps|
    && d.seedId == s.seeds[d.seed].id && d.otp == s.seeds[d.seed].otps[d.position]
    && (d.seed == |s.seeds| - 1 ==> d.position < s.position)
  }

  ghost predicate DrawsOk(s: State) {
    && (forall i | 0 <= i < |s.drawn| :: DrawOk(s, s.drawn[i]))
    && (forall i, j | 0 <= i < j < |s.drawn| :: (s.drawn[i].seed, s.drawn[i].position) != (s.drawn[j].seed, s.drawn[j].position))
  }

  ghost predicate EmittedOk(c: Config, s: State) {
    && (forall i | 0 <= i < |s.emitted| :: s.emitted[i] < |s.drawn|)
    && (forall i, j | 0 <= i < j < |s.emitted| :: s.emitted[i] < s.emitted[j])
    && (c.params.otp && s.twHave ==>
        && s.drawn != []
        && (s.twSeedId, s.twOtp) == (s.drawn[|s.drawn| - 1].seedId, s.drawn[|s.drawn| - 1].otp)
        && (s.emitted != [] ==> s.emitted[|s.emitted| - 1] < |s.drawn| - 1))
  }

  // The warning is raised for a seed exactly when its warningCount-th password is drawn.
  ghost predicate WarnedOk(c: Config, s: State) {
    && (forall i, j | 0 <= i < j < |s.warned| :: s.warned[i] != s.warned[j])
    && (forall k: nat :: k in s.warned <==> Reached(c, s, k))
  }

  ghost predicate Reached(c: Config, s: State, seed: nat) {
    exists i | 0 <= i < |s.drawn| :: s.drawn[i].seed == seed && s.drawn[i].position + 1 == c.warningCount
  }

  ghost predicate Valid(c: Config, s: State) {
    HasOtps(c, s) && FlowOk(c, s) && DrawsOk(s) && EmittedOk(c, s) && WarnedOk(c, s)
  }

  lemma DrawOtpKeeps(c: Config, s: State)
    requires HasOtps(c, s) && s.position < c.otpNum && DrawsOk(s) && WarnedOk(c, s)
    ensures DrawsOk(DrawOtp(c, s)) && WarnedOk(c, DrawOtp(c, s))
  {
    var t := DrawOtp(c, s);
    var n := |s.drawn|;
    assert forall i | 0 <= i < n :: DrawOk(s, t.drawn[i]);
    forall k: nat
      ensures k in t.warned <==> Reached(c, t, k)
    {
      assert Reached(c, s, k) ==> Reached(c, t, k) by {
        if Reached(c, s, k) {
          var i :| 0 <= i < n && s.drawn[i].seed == k && s.drawn[i].position + 1 == c.warningCount;
          assert t.drawn[i] == s.drawn[i];
        }
      }
      if k in t.warned && k !in s.warned {
        assert t.drawn[n].seed == k;
      }
      if Reached(c, t, k) && !Reached(c, s, k) {
        var i :| 0 <= i < |t.drawn| && t.drawn[i].seed == k && t.drawn[i].position + 1 == c.warningCount;
        assert i == n;
      }
    }
    if s.position + 1 == c.warningCount {
      NotYetReached(c, s);
    }
  }

  lemma NotYetReached(c: Config, s: State)
    requires HasOtps(c, s) && s.position < c.otpNum && DrawsOk(s) && s.position + 1 == c.warningCount
    ensures !Reached(c, s, |s.seeds| - 1)
  {
    forall i | 0 <= i < |s.drawn|
      ensures s.drawn[i].seed == |s.seeds| - 1 ==> s.drawn[i].position + 1 != c.warningCount
    {
      assert DrawOk(s, s.drawn[i]);
    }
  }

  // A new seed does not disturb the draws from earlier ones.
  lemma SeedKeeps(c: Config, s: State)
    requires DrawsOk(s) && WarnedOk(c, s) && s.generating.Some?
    ensures DrawsOk(NewSeed(s)) && WarnedOk(c, NewSeed(s))
  {
    var t := NewSeed(s);
    forall i | 0 <= i < |t.drawn|
      ensures DrawOk(t, t.drawn[i])
    {
      assert DrawOk(s, s.drawn[i]);
    }
    assert forall k: nat :: Reached(c, t, k) == Reached(c, s, k);
  }

  // Only the history and the generator matter to the draws.
  lemma SameHistory(c: Config, s: State, t: State)
    requires DrawsOk(s) && WarnedOk(c, s)
    requires t.drawn == s.drawn && t.seeds == s.seeds && t.warned == s.warned && t.position >= s.position
    ensures DrawsOk(t) && WarnedOk(c, t)
  {
    forall i | 0 <= i < |t.drawn|
      ensures DrawOk(t, t.drawn[i])
    {
      assert DrawOk(s, s.drawn[i]);
    }
    assert forall k: nat :: Reached(c, t, k) == Reached(c, s, k);
  }

  ghost predicate AlmostValid(c: Config, s: State) {
    && HasOtps(c, s) && DrawsOk(s) && EmittedOk(c, s) && WarnedOk(c, s)
    && (s.inLen.Some? ==> s.outHave)
    && (s.twHave ==> s.inLen.Some? && (c.params.encryption ==> s.haveKey))
  }

  lemma KeyAlmostValid(c: Config, s: State)
    requires Valid(c, s)
    ensures AlmostValid(c, s.(twHave := false, haveKey := true))
  {
    hide DrawsOk, WarnedOk;
    SameHistory(c, s, s.(twHave := false, haveKey := true));
  }

  lemma SeedAlmostValid(c: Config, s: State)
    requires Valid(c, s) && s.generating.Some?
    ensures AlmostValid(c, NewSeed(s))
  {
    hide DrawsOk, WarnedOk;
    SeedKeeps(c, s);
  }

  lemma MaybeEncodeKeeps(c: Config, s: State)
    requires AlmostValid(c, s)
    ensures Valid(c, MaybeEncode(c, s))
  {
    if c.params.otp && s.position < c.otpNum {
      hide DrawsOk, WarnedOk;
      DrawOtpKeeps(c, s);
      SameHistory(c, DrawOtp(c, s), EncodePacket(c, s));
    } else {
      SameHistory(c, s, s.(twHave := true));
    }
  }

  lemma StepKeepsValid(c: Config, s: State, e: Event)
    requires Valid(c, s) && Enabled(c, s, e)
    ensures Valid(c, Step(c, s, e))
  {
    hide DrawsOk, WarnedOk;
    match e {
      case InputDone(len) =>
        SameHistory(c, s, s.(inLen := Some(len)));
        MaybeEncodeKeeps(c, s.(inLen := Some(len)));
      case SetEncryptionKey =>
        KeyAlmostValid(c, s);
        MaybeEncodeKeeps(c, s.(twHave := false, haveKey := true));
      case OtpsGenerated =>
        SeedAlmostValid(c, s);
        MaybeEncodeKeeps(c, NewSeed(s));
      case _ =>
        SameHistory(c, s, Step(c, s, e));
    }
  }

  ghost predicate Reaches(c: Config, s: State, events: seq<Event>, t: State)
    decreases |events|
  {
    if events == [] then s == t
    else HasOtps(c, s) && Enabled(c, s, events[0]) && Reaches(c, Step(c, s, events[0]), events[1..], t)
  }

  lemma {:induction false} RunsStayValid(c: Config, s: State, events: seq<Event>, t: State)
    requires Valid(c, s) && Reaches(c, s, events, t)
    ensures Valid(c, t)
    decreases |events|
  {
    hide Valid, Step, HasOtps, Enabled;
    if events != [] {
      StepKeepsValid(c, s, events[0]);
      RunsStayValid(c, Step(c, s, events[0]), events[1..], t);
    }
  }

  lemma InitValid(c: Config)
    ensures Valid(c, Init(c))
  {
    var s := Init(c);
    assert forall k: nat :: !Reached(c, s, k);
  }

  // In every run: a packet that could be encoded is being encoded, no two packets carry the same
  // password of the same seed, every packet carries a password of the seed it names, and a seed
  // is warned about once, when its warningCount-th password is drawn.
  lemma EveryRun(c: Config, events: seq<Event>, s: State)
    requires Reaches(c, Init(c), events, s)
    ensures s.inLen.Some? && s.outHave && CanEncode(c, s) ==> s.twHave
    ensures forall i, j | 0 <= i < j < |s.emitted| ::
      var a, b := s.emitted[i], s.emitted[j];
      a < |s.drawn| && b < |s.drawn| && (s.drawn[a].seed, s.drawn[a].position) != (s.drawn[b].seed, s.drawn[b].position)
    ensures forall d <- s.drawn ::
      && d.seed < |s.seeds| && d.position < |s.seeds[d.seed].otps|
      && d.seedId == s.seeds[d.seed].id && d.otp == s.seeds[d.seed].otps[d.position]
    ensures forall i, j | 0 <= i < j < |s.warned| :: s.warned[i] != s.warned[j]
    ensures forall k: nat :: k in s.warned <==> exists d <- s.drawn :: d.seed == k && d.position + 1 == c.warningCount
  {
    InitValid(c);
    RunsStayValid(c, Init(c), events, s);
    forall d <- s.drawn
      ensures DrawOk(s, d)
    {
      var i :| 0 <= i < |s.drawn| && s.drawn[i] == d;
      assert DrawOk(s, s.drawn[i]);
    }
    forall k: nat
      ensures k in s.warned <==> exists d <- s.drawn :: d.seed == k && d.position + 1 == c.warningCount
    {
      assert k in s.warned <==> Reached(c, s, k);
      if d :| d in s.drawn && d.seed == k && d.position + 1 == c.warningCount {
        var i :| 0 <= i < |s.drawn| && s.drawn[i] == d;
        assert Reached(c, s, k);
      }
    }
  }

  // What the user of the encoder asked for: the seeds that came into use, whether the last of them
  // is still in use, the seed to come, and whether there is a key.
  datatype Asked = Asked(seeds: seq<Seed>, inUse: bool, pending: Option<Seed>, key: bool)

  function Ask(a: Asked, e: Event): Asked {
    match e
    case SetOtpSeed(id, otps) => a.(pending := Some(Seed(id, otps)))
    case RemoveOtpSeed => a.(pending := None, inUse := false)
    case OtpsGenerated => if a.pending.Some? then Asked(a.seeds + [a.pending.value], true, None, a.key) else a
    case SetEncryptionKey => a.(key := true)
    case RemoveEncryptionKey => a.(key := false)
    case _ => a
  }

  function AskedFor(a: Asked, events: seq<Event>): Asked
    decreases |events|
  {
    if events == [] then a else AskedFor(Ask(a, events[0]), events[1..])
  }

  // How many passwords of a seed were drawn.
  function DrawnOf(drawn: seq<Draw>, seed: nat): nat {
    if drawn == [] then 0 else DrawnOf(drawn[..|drawn| - 1], seed) + if drawn[|drawn| - 1].seed == seed then 1 else 0
  }

  // The passwords of a seed are drawn in its order, none left out.
  ghost predicate InTurn(drawn: seq<Draw>) {
    forall i :: 0 <= i < |drawn| ==> drawn[i].position == DrawnOf(drawn[..i], drawn[i].seed)
  }

  ghost predicate Follows(c: Config, a: Asked, s: State) {
    && s.seeds == a.seeds && s.haveKey == a.key && InTurn(s.drawn)
    && (a.pending.Some? <==> s.generating.Some?)
    && (a.pending.Some? ==> a.pending.value == Seed(s.pendingSeedId, s.generating.value))
    && (a.inUse ==> a.seeds != [] && s.position == DrawnOf(s.drawn, |a.seeds| - 1))
    && (!a.inUse ==> s.position == c.otpNum)
  }

  lemma DrawFollows(c: Config, a: Asked, s: State)
    requires HasOtps(c, s) && s.position < c.otpNum && Follows(c, a, s)
    ensures Follows(c, a, DrawOtp(c, s))
  {
    DrawnMore(s.drawn, Draw(|s.seeds| - 1, s.position, s.seedId, s.otps[s.position]));
    hide DrawnOf, InTurn;
  }

  lemma DrawnMore(drawn: seq<Draw>, d: Draw)
    requires InTurn(drawn) && d.position == DrawnOf(drawn, d.seed)
    ensures InTurn(drawn + [d]) && DrawnOf(drawn + [d], d.seed) == d.position + 1
  {
    var t, n := drawn + [d], |drawn|;
    assert t[..n] == drawn;
    forall i | 0 <= i < |t| ensures t[i].position == DrawnOf(t[..i], t[i].seed) {
      if i < n {
        assert t[i] == drawn[i] && t[..i] == drawn[..i];
      }
    }
  }

  lemma EncodeFollows(c: Config, a: Asked, s: State)
    requires AlmostValid(c, s) && Follows(c, a, s)
    ensures Follows(c, a, MaybeEncode(c, s))
  {
    hide DrawsOk, WarnedOk, EmittedOk, InTurn;
    if c.params.otp && s.position < c.otpNum {
      DrawFollows(c, a, s);
    }
  }

  lemma {:induction false} NoneDrawn(drawn: seq<Draw>, seed: nat)
    requires forall i :: 0 <= i < |drawn| ==> drawn[i].seed < seed
    ensures DrawnOf(drawn, seed) == 0
  {
    if drawn != [] {
      NoneDrawn(drawn[..|drawn| - 1], seed);
    }
  }

  lemma SeedFollows(c: Config, a: Asked, s: State)
    requires Valid(c, s) && Follows(c, a, s) && s.generating.Some?
    ensures Follows(c, Ask(a, OtpsGenerated), NewSeed(s))
  {
    forall i | 0 <= i < |s.drawn| ensures s.drawn[i].seed < |s.seeds| {
      assert DrawOk(s, s.drawn[i]);
    }
    NoneDrawn(s.drawn, |s.seeds|);
  }

  lemma StepFollows(c: Config, a: Asked, s: State, e: Event)
    requires Valid(c, s) && Enabled(c, s, e) && Follows(c, a, s)
    ensures Follows(c, Ask(a, e), Step(c, s, e))
  {
    hide DrawsOk, WarnedOk, InTurn, DrawnOf;
    match e {
      case InputDone(len) =>
        SameHistory(c, s, s.(inLen := Some(len)));
        EncodeFollows(c, a, s.(inLen := Some(len)));
      case SetEncryptionKey =>
        KeyAlmostValid(c, s);
        EncodeFollows(c, Ask(a, e), s.(twHave := false, haveKey := true));
      case OtpsGenerated =>
        SeedAlmostValid(c, s);
        SeedFollows(c, a, s);
        EncodeFollows(c, Ask(a, e), NewSeed(s));
      case _ =>
    }
  }

  lemma {:induction false} RunFollows(c: Config, a: Asked, s: State, events: seq<Event>, t: State)
    requires Valid(c, s) && Reaches(c, s, events, t) && Follows(c, a, s)
    ensures Follows(c, AskedFor(a, events), t)
    decreases |events|
  {
    hide Valid, Step, HasOtps, Enabled, Follows, Ask;
    if events != [] {
      StepFollows(c, a, s, events[0]);
      StepKeepsValid(c, s, events[0]);
      RunFollows(c, Ask(a, events[0]), Step(c, s, events[0]), events[1..], t);
    }
  }

  // In every run the encoder uses the seeds and the key its user asked for: each seed under the id
  // it was set with, its passwords in turn, and none of them once it is removed; and a packet can be
  // encoded exactly when the last seed in use has passwords left and the key is there.
  lemma UsesWhatWasAskedFor(c: Config, events: seq<Event>, s: State)
    requires Reaches(c, Init(c), events, s)
    ensures var a := AskedFor(Asked([], false, None, false), events);
      && s.seeds == a.seeds && s.haveKey == a.key && InTurn(s.drawn)
      && (CanEncode(c, s) <==>
            && (c.params.otp ==> a.inUse && a.seeds != [] && DrawnOf(s.drawn, |a.seeds| - 1) < c.otpNum)
            && (c.params.encryption ==> a.key))
  {
    InitValid(c);
    RunFollows(c, Asked([], false, None, false), Init(c), events, s);
    RunsStayValid(c, Init(c), events, s);
  }

  // Work starts on a packet: on one that waited, or again because the key was changed.
  predicate Starts(s: State, e: Event, t: State) {
    t.twHave && (!s.twHave || e.SetEncryptionKey?)
  }

  // Each start draws one password, and nothing else does; work ends when it is done or the key is
  // changed; and only then is the packet it made sent, with the password drawn last.
  lemma StartsDraw(c: Config, s: State, e: Event)
    requires Valid(c, s) && Enabled(c, s, e)
    ensures var t := Step(c, s, e);
      && s.drawn <= t.drawn && |t.drawn| == |s.drawn| + (if c.params.otp && Starts(s, e, t) then 1 else 0)
      && (c.params.otp && t.twHave ==>
            t.drawn != [] && t.twSeedId == t.drawn[|t.drawn| - 1].seedId && t.twOtp == t.drawn[|t.drawn| - 1].otp)
      && (s.twHave && !t.twHave ==> e.WorkDone? || e.SetEncryptionKey? || e.RemoveEncryptionKey?)
      && (e.WorkDone? || e.RemoveEncryptionKey? ==> !t.twHave)
      && t.emitted == s.emitted + (if c.params.otp && e.WorkDone? then [|s.drawn| - 1] else [])
      && (t.twHave ==> t.inLen.Some? && (c.params.encryption ==> t.haveKey))
  {
    StepKeepsValid(c, s, e);
    hide DrawsOk, WarnedOk, HasOtps;
  }

  // The packet received and not sent yet, and whether there is a place for one.
  datatype Flow = Flow(place: bool, packet: Option<nat>)

  function FlowAfter(f: Flow, e: Event): Flow {
    match e
    case OutputRecv => f.(place := true)
    case InputDone(len) => f.(packet := Some(len))
    case WorkDone => Flow(false, None)
    case _ => f
  }

  function FlowOf(f: Flow, events: seq<Event>): Flow
    decreases |events|
  {
    if events == [] then f else FlowOf(FlowAfter(f, events[0]), events[1..])
  }

  lemma {:induction false} RunFlows(c: Config, s: State, events: seq<Event>, t: State)
    requires Reaches(c, s, events, t)
    ensures Flow(t.outHave, t.inLen) == FlowOf(Flow(s.outHave, s.inLen), events)
    decreases |events|
  {
    if events != [] {
      var u := Step(c, s, events[0]);
      assert Flow(u.outHave, u.inLen) == FlowAfter(Flow(s.outHave, s.inLen), events[0]);
      hide Step, Enabled, HasOtps, FlowAfter;
      RunFlows(c, u, events[1..], t);
    }
  }

  // In every run no packet is lost or made up: the one received last is there until it is sent.
  lemma PacketWaitsUntilSent(c: Config, events: seq<Event>, s: State)
    requires Reaches(c, Init(c), events, s)
    ensures Flow(s.outHave, s.inLen) == FlowOf(Flow(false, None), events)
  {
    RunFlows(c, Init(c), events, s);
  }
}
