/** Where select_devices puts a use case: the devices the platform answers for its streams, or those of the
  call it shares, unless it is on them already or A2DP is not ready. */
module RoutingAnswers {
  import opened DeviceCounts
  import opened RoutingConflicts
  import opened RoutingCourse
  import opened RoutingRules
  import opened Wrappers

  // ---------------------------------------------------------------- the voice communication input

  predicate OfVoiceCommunication(ins: map<int, StreamIn>, u: Usecase) {
    u.kind.PcmCapture? && u.stream.Some? && SourceOf(ins, u) == VoiceCommunication
  }

  /** The first capture for voice communication; in communication mode, if there is none, the last capture. */
  ghost predicate IsVoiceInput(env: Env, ins: map<int, StreamIn>, list: seq<Usecase>, j: nat) {
    && j < |list| && list[j].kind.PcmCapture? && list[j].stream.Some?
    && if OfVoiceCommunication(ins, list[j]) then forall i | 0 <= i < j :: !OfVoiceCommunication(ins, list[i])
       else
         && env.inCommunication && (forall i | 0 <= i < |list| :: !OfVoiceCommunication(ins, list[i]))
         && (forall i | j < i < |list| :: !(list[i].kind.PcmCapture? && list[i].stream.Some?))
  }

  /** The last capture on the list. */
  lemma {:induction false} ActiveInputIsLast(list: seq<Usecase>) returns (j: nat)
    ensures ActiveInput(list).Some? ==>
              && j < |list| && list[j].kind.PcmCapture? && list[j].stream == ActiveInput(list)
              && forall i | j < i < |list| :: !(list[i].kind.PcmCapture? && list[i].stream.Some?)
    ensures ActiveInput(list).None? ==>
              forall i | 0 <= i < |list| :: !(list[i].kind.PcmCapture? && list[i].stream.Some?)
  {
    j := 0;
    if list != [] {
      var n := |list| - 1;
      if list[n].kind.PcmCapture? && list[n].stream.Some? {
        j := n;
      } else {
        j := ActiveInputIsLast(list[..n]);
        assert forall i | 0 <= i < n :: list[..n][i] == list[i];
      }
    }
  }

  /** The first capture for voice communication of `list`, which ends `all`, or the answer for `all`. */
  lemma {:induction false} VoiceInputWithin(env: Env, ins: map<int, StreamIn>, list: seq<Usecase>, all: seq<Usecase>)
    returns (j: nat)
    ensures (exists i :: 0 <= i < |list| && OfVoiceCommunication(ins, list[i])) ==>
              && j < |list| && OfVoiceCommunication(ins, list[j])
              && VoiceCommunicationInput(env, ins, list, all) == list[j].stream
              && forall i | 0 <= i < j :: !OfVoiceCommunication(ins, list[i])
    ensures (forall i | 0 <= i < |list| :: !OfVoiceCommunication(ins, list[i])) ==>
              VoiceCommunicationInput(env, ins, list, all) == if env.inCommunication then ActiveInput(all) else None
  {
    j := 0;
    if list != [] && !OfVoiceCommunication(ins, list[0]) {
      j := VoiceInputWithin(env, ins, list[1..], all);
      j := j + 1;
      assert forall i | 0 < i < |list| :: list[i] == list[1..][i - 1];
    }
  }

  /** Exactly which input counts as the voice communication input. */
  lemma VoiceInputIff(env: Env, ins: map<int, StreamIn>, list: seq<Usecase>) returns (j: nat)
    ensures VoiceCommunicationInput(env, ins, list, list).Some? <==> exists i: nat :: IsVoiceInput(env, ins, list, i)
    ensures VoiceCommunicationInput(env, ins, list, list).Some? ==>
              IsVoiceInput(env, ins, list, j) && list[j].stream == VoiceCommunicationInput(env, ins, list, list)
  {
    j := VoiceInputWithin(env, ins, list, list);
    if forall i | 0 <= i < |list| :: !OfVoiceCommunication(ins, list[i]) {
      j := ActiveInputIsLast(list);
      assert env.inCommunication && ActiveInput(list).Some? ==> IsVoiceInput(env, ins, list, j);
    } else {
      assert IsVoiceInput(env, ins, list, j);
    }
  }

  /** The sources from the highest rank down; any other has none. */
  const Ranking: seq<AudioSource> :=
    [VoiceCommunication, Camcorder, VoicePerformance, Unprocessed, Mic, EchoReference, FmTuner, VoiceRecognition,
     Hotword]

  /** A source earlier in the ranking has priority over a later one, and every one over those without rank. */
  lemma RanksAreOrdered(i: nat, j: nat, source: AudioSource)
    requires i < j < |Ranking|
    ensures SourcePriority(Ranking[i]) > SourcePriority(Ranking[j]) > 0
    ensures SourcePriority(source) == 0 <==> source !in Ranking
    ensures source !in Ranking <==> source == OtherSource
  {
    var r := Ranking;
    assert r[0] == VoiceCommunication && r[1] == Camcorder && r[2] == VoicePerformance && r[3] == Unprocessed;
    assert r[4] == Mic && r[5] == EchoReference && r[6] == FmTuner && r[7] == VoiceRecognition && r[8] == Hotword;
  }

  // ---------------------------------------------------------------- the call whose devices are shared

  /** Use case `j` is the call whose devices `u` shares: in a call the first voice call on the list, if it is on
    codec devices or a hearing aid or `u` records it; else the hands-free call, if on codec devices. */
  ghost predicate SharesCall(p: Platform, env: Env, list: seq<Usecase>, u: Usecase, j: int) {
    && 0 <= j < |list|
    && if env.inCall then
         && list[j].kind.VoiceCall? && (forall i | 0 <= i < j :: !list[i].kind.VoiceCall?)
         && (Overlap(list[j].devices, p.codecBackend) || list[j].devices == p.hearingAid || u.devices == p.inVoiceCall)
       else
         && list[j].id == env.hfpUsecase && (forall i | 0 <= i < j :: list[i].id != env.hfpUsecase)
         && Overlap(list[j].devices, p.codecBackend)
  }

  lemma {:induction false} FirstVoiceCallIsFirst(list: seq<Usecase>) returns (j: nat)
    ensures FirstVoiceCall(list).Some? ==>
              && j < |list| && list[j].kind.VoiceCall? && FirstVoiceCall(list) == Some(list[j])
              && forall i | 0 <= i < j :: !list[i].kind.VoiceCall?
    ensures FirstVoiceCall(list).None? ==> forall i | 0 <= i < |list| :: !list[i].kind.VoiceCall?
  {
    j := 0;
    if list != [] && !list[0].kind.VoiceCall? {
      j := FirstVoiceCallIsFirst(list[1..]);
      j := j + 1;
      assert forall i | 0 < i < |list| :: list[i] == list[1..][i - 1];
    }
  }

  lemma {:induction false} FoundIsFirst(list: seq<Usecase>, id: int)
    ensures FindUsecase(list, id).Some? ==> forall i | 0 <= i < FindUsecase(list, id).value :: list[i].id != id
  {
    if list != [] && list[0].id != id {
      FoundIsFirst(list[1..], id);
      assert forall i | 0 < i < |list| :: list[i] == list[1..][i - 1];
    }
  }

  /** What is inherited is what the call shared, if any, is on. */
  lemma InheritedIff(p: Platform, env: Env, list: seq<Usecase>, u: Usecase)
    ensures forall j | SharesCall(p, env, list, u, j) :: Inherited(p, env, list, u) == (list[j].outSnd, list[j].inSnd)
    ensures (forall j :: !SharesCall(p, env, list, u, j)) ==>
              Inherited(p, env, list, u) == (SND_DEVICE_NONE, SND_DEVICE_NONE)
  {
    var j := FirstVoiceCallIsFirst(list);
    FoundIsFirst(list, env.hfpUsecase);
    var f := FindUsecase(list, env.hfpUsecase);
    if env.inCall {
      assert forall i | SharesCall(p, env, list, u, i) :: i == j;
      assert FirstVoiceCall(list).Some? && Inherited(p, env, list, u) != (SND_DEVICE_NONE, SND_DEVICE_NONE) ==>
          SharesCall(p, env, list, u, j);
    } else {
      assert forall i | SharesCall(p, env, list, u, i) :: f.Some? && f.value == i;
      assert f.Some? && Inherited(p, env, list, u) != (SND_DEVICE_NONE, SND_DEVICE_NONE) ==>
          SharesCall(p, env, list, u, f.value);
    }
  }

  // ---------------------------------------------------------------- the devices a use case wants

  /** The output a playback wants: that of the call it shares, else the platform's answer for its stream. */
  ghost predicate WantsOutput(p: Platform, env: Env, outs: map<int, StreamOut>, list: seq<Usecase>, u: Usecase,
                              o: SndDevice) {
    if exists j :: SharesCall(p, env, list, u, j) && list[j].outSnd != SND_DEVICE_NONE then
      exists j :: SharesCall(p, env, list, u, j) && list[j].outSnd == o
    else o == env.outputFor(OutDevices(outs, u))
  }

  /** The output mask that goes with a voice communication input. */
  ghost predicate WantsMask(p: Platform, env: Env, outs: map<int, StreamOut>, list: seq<Usecase>, u: Usecase,
                            mask: DeviceMask) {
    if u.id == USECASE_AUDIO_RECORD_AFE_PROXY then mask == p.telephonyTx
    else if exists j :: 0 <= j < |list| && list[j].id == USECASE_AUDIO_PLAYBACK_VOIP then
      exists j :: && 0 <= j < |list| && list[j].id == USECASE_AUDIO_PLAYBACK_VOIP
                  && mask == OutDevices(outs, list[j])
    else if env.primaryOutput.Some? && env.primaryOutput.value in outs && !env.primaryStandby then
      mask == outs[env.primaryOutput.value].devices
    else mask == p.speaker
  }

  /** The input a capture wants: that of the call it shares, else the platform's answer for the voice
    communication input, the input of the highest rank, or its own. */
  ghost predicate WantsInput(p: Platform, env: Env, outs: map<int, StreamOut>, ins: map<int, StreamIn>,
                             list: seq<Usecase>, u: Usecase, i: SndDevice) {
    if exists j :: SharesCall(p, env, list, u, j) && list[j].inSnd != SND_DEVICE_NONE then
      exists j :: SharesCall(p, env, list, u, j) && list[j].inSnd == i
    else if exists j: nat :: IsVoiceInput(env, ins, list, j) then
      exists j: nat, mask ::
        IsVoiceInput(env, ins, list, j) && WantsMask(p, env, outs, list, u, mask)
        && i == env.inputFor(list[j].stream, mask)
    else if exists j: nat, s :: IsBestInput(ins, list, s, j) then
      exists j: nat, s :: IsBestInput(ins, list, s, j) && i == env.inputFor(s, {})
    else i == env.inputFor(u.stream, {})
  }

  lemma PlaybackChoice(p: Platform, env: Env, outs: map<int, StreamOut>, ins: map<int, StreamIn>, list: seq<Usecase>,
                       u: Usecase)
    requires u.kind.PcmPlayback?
    ensures var c := ChooseDevices(p, env, outs, ins, list, u);
            && WantsOutput(p, env, outs, list, u, c.outSnd)
            && c.inSnd == SND_DEVICE_NONE && c.devices == OutDevices(outs, u)
  {
    InheritedIff(p, env, list, u);
  }

  lemma MaskChoice(p: Platform, env: Env, outs: map<int, StreamOut>, ins: map<int, StreamIn>, list: seq<Usecase>,
                   u: Usecase) returns (mask: DeviceMask)
    requires u.kind.PcmCapture? && Inherited(p, env, list, u).1 == SND_DEVICE_NONE
    requires VoiceCommunicationInput(env, ins, list, list).Some?
    ensures WantsMask(p, env, outs, list, u, mask)
    ensures ChooseDevices(p, env, outs, ins, list, u).inSnd
            == env.inputFor(VoiceCommunicationInput(env, ins, list, list), mask)
  {
    var voip := FindUsecase(list, USECASE_AUDIO_PLAYBACK_VOIP);
    mask := if u.id == USECASE_AUDIO_RECORD_AFE_PROXY then p.telephonyTx
      else if voip.Some? then OutDevices(outs, list[voip.value])
      else if env.primaryOutput.Some? && env.primaryOutput.value in outs && !env.primaryStandby then
        outs[env.primaryOutput.value].devices
      else p.speaker;
  }

  lemma CaptureChoice(p: Platform, env: Env, outs: map<int, StreamOut>, ins: map<int, StreamIn>, list: seq<Usecase>,
                      u: Usecase)
    requires u.kind.PcmCapture?
    ensures var c := ChooseDevices(p, env, outs, ins, list, u);
            && WantsInput(p, env, outs, ins, list, u, c.inSnd)
            && c.outSnd == SND_DEVICE_NONE && c.devices == InDevice(ins, u)
  {
    InheritedIff(p, env, list, u);
    if Inherited(p, env, list, u).1 == SND_DEVICE_NONE {
      var j := VoiceInputIff(env, ins, list);
      if VoiceCommunicationInput(env, ins, list, list).Some? {
        var mask := MaskChoice(p, env, outs, ins, list, u);
        assert IsVoiceInput(env, ins, list, j) && WantsMask(p, env, outs, list, u, mask);
      } else {
        BestInputChoice(ins, list);
      }
    }
  }

  lemma BestInputChoice(ins: map<int, StreamIn>, list: seq<Usecase>)
    ensures PriorityInput(ins, list).Some? ==> exists j: nat :: IsBestInput(ins, list, PriorityInput(ins, list), j)
    ensures PriorityInput(ins, list).None? ==> forall j: nat, s :: !IsBestInput(ins, list, s, j)
  {
    var k := PriorityInputIsBest(ins, list);
  }

  // ---------------------------------------------------------------- where select_devices puts it

  /** Routing is done over even if the devices stay the same. */
  predicate Forced(p: Platform, env: Env, outs: map<int, StreamOut>, u: Usecase, force: bool) {
    force || (!u.kind.PcmCapture? && Overlap(OutDevices(outs, u), p.a2dp) && env.a2dpForceSwitch)
  }

  /** `u`, which wants output `o` and input `i`, became `v`. */
  predicate Placed(p: Platform, env: Env, outs: map<int, StreamOut>, u: Usecase, o: SndDevice, i: SndDevice,
                   force: bool, v: Usecase) {
    if o == p.sndA2dp && !env.a2dpReady then v.outSnd == u.outSnd && v.inSnd == u.inSnd
    else if u.outSnd == o && u.inSnd == i && !Forced(p, env, outs, u, force) then v.outSnd == o && v.inSnd == i
    else
      && v.inSnd == i
      && v.outSnd ==
           if InCallMusic(u.id) then p.sndVoiceMusicTx
           else if !env.a2dpReady && o == p.sndSpeakerSafeAndA2dp then p.sndSpeakerSafe
           else if !env.a2dpReady && o == p.sndSpeakerAndA2dp then p.sndSpeaker
           else o
  }

  lemma SelectedIsPlaced(p: Platform, env: Env, outs: map<int, StreamOut>, ins: map<int, StreamIn>,
                         list: seq<Usecase>, id: int, force: bool)
    requires p.WellFormed() && WellFormedList(list, outs, ins) && FindUsecase(list, id).Some?
    ensures var k := FindUsecase(list, id).value;
            var c := ChooseDevices(p, env, outs, ins, list, list[k]);
            var v := Selected(p, env, outs, ins, list, id, force)[k];
            v.devices == c.devices && Placed(p, env, outs, list[k], c.outSnd, c.inSnd, force, v)
  {
    var k := FindUsecase(list, id).value;
    BeforeMoveKeeps(p, env, outs, ins, list, k);
  }

  /** A voice or hands-free call is put on the output and the input the platform answers for its stream; while A2DP
    is not ready it stays where it is if it wants A2DP alone, and is on the speaker instead of both. */
  lemma CallIsPlaced(p: Platform, env: Env, outs: map<int, StreamOut>, ins: map<int, StreamIn>, list: seq<Usecase>,
                     id: int, force: bool)
    requires p.WellFormed() && WellFormedList(list, outs, ins) && FindUsecase(list, id).Some?
    requires var u := list[FindUsecase(list, id).value]; u.kind.VoiceCall? || u.kind.PcmHfpCall?
    ensures var k := FindUsecase(list, id).value;
            var v, mask := Selected(p, env, outs, ins, list, id, force)[k], OutDevices(outs, list[k]);
            && v.devices == mask
            && Placed(p, env, outs, list[k], env.outputFor(mask), env.inputFor(None, mask), force, v)
            && (env.a2dpReady ==> v.outSnd == env.outputFor(mask) && v.inSnd == env.inputFor(None, mask))
  {
    SelectedIsPlaced(p, env, outs, ins, list, id, force);
    assert WellLinked(list[FindUsecase(list, id).value], outs, ins);
  }

  /** A playback is put on the output of the call it shares, or on the platform's answer for its stream. */
  lemma PlaybackIsPlaced(p: Platform, env: Env, outs: map<int, StreamOut>, ins: map<int, StreamIn>,
                         list: seq<Usecase>, id: int, force: bool) returns (o: SndDevice)
    requires p.WellFormed() && WellFormedList(list, outs, ins) && FindUsecase(list, id).Some?
    requires list[FindUsecase(list, id).value].kind.PcmPlayback?
    ensures var k := FindUsecase(list, id).value;
            var u, v := list[k], Selected(p, env, outs, ins, list, id, force)[k];
            && WantsOutput(p, env, outs, list, u, o)
            && v.devices == OutDevices(outs, u) && v.inSnd == SND_DEVICE_NONE
            && Placed(p, env, outs, u, o, SND_DEVICE_NONE, force, v)
            && (env.a2dpReady && !InCallMusic(id) ==> v.outSnd == o)
  {
    var u := list[FindUsecase(list, id).value];
    assert WellLinked(u, outs, ins);
    SelectedIsPlaced(p, env, outs, ins, list, id, force);
    PlaybackChoice(p, env, outs, ins, list, u);
    o := ChooseDevices(p, env, outs, ins, list, u).outSnd;
  }

  /** A capture is put on the input of the call it shares, or on the platform's answer, A2DP ready or not. */
  lemma CaptureIsPlaced(p: Platform, env: Env, outs: map<int, StreamOut>, ins: map<int, StreamIn>,
                        list: seq<Usecase>, id: int, force: bool)
    requires p.WellFormed() && WellFormedList(list, outs, ins) && FindUsecase(list, id).Some?
    requires list[FindUsecase(list, id).value].kind.PcmCapture?
    ensures var k := FindUsecase(list, id).value;
            var u, v := list[k], Selected(p, env, outs, ins, list, id, force)[k];
            && WantsInput(p, env, outs, ins, list, u, v.inSnd)
            && v.devices == InDevice(ins, u) && v.outSnd == SND_DEVICE_NONE
  {
    var u := list[FindUsecase(list, id).value];
    assert WellLinked(u, outs, ins);
    SelectedIsPlaced(p, env, outs, ins, list, id, force);
    CaptureChoice(p, env, outs, ins, list, u);
  }

  /** `u` became `v` and is where it wants to be: on the answers of the platform or the devices of a call. */
  ghost predicate Answered(p: Platform, env: Env, outs: map<int, StreamOut>, ins: map<int, StreamIn>,
                           list: seq<Usecase>, u: Usecase, force: bool, v: Usecase) {
    match u.kind
    case PcmCapture =>
      WantsInput(p, env, outs, ins, list, u, v.inSnd) && v.outSnd == SND_DEVICE_NONE && v.devices == InDevice(ins, u)
    case PcmPlayback =>
      && v.devices == OutDevices(outs, u)
      && exists o :: WantsOutput(p, env, outs, list, u, o) && Placed(p, env, outs, u, o, SND_DEVICE_NONE, force, v)
    case _ =>
      && v.devices == OutDevices(outs, u)
      && Placed(p, env, outs, u, env.outputFor(v.devices), env.inputFor(None, v.devices), force, v)
  }

  /** So select_devices leaves every use case it is called for. */
  lemma SelectedIsAnswered(p: Platform, env: Env, outs: map<int, StreamOut>, ins: map<int, StreamIn>,
                           list: seq<Usecase>, id: int, force: bool)
    requires p.WellFormed() && WellFormedList(list, outs, ins) && FindUsecase(list, id).Some?
    ensures var k := FindUsecase(list, id).value;
            Answered(p, env, outs, ins, list, list[k], force, Selected(p, env, outs, ins, list, id, force)[k])
  {
    match list[FindUsecase(list, id).value].kind
    case PcmCapture => CaptureIsPlaced(p, env, outs, ins, list, id, force);
    case PcmPlayback => var o := PlaybackIsPlaced(p, env, outs, ins, list, id, force);
    case _ => CallIsPlaced(p, env, outs, ins, list, id, force);
  }

  // ---------------------------------------------------------------- who else moves

  /** Where a playback on `d1` with the mask `a1` goes when `d2` is routed for the mask `a2`: with the same mask, or
    masks without a common device, to `d2` if the backends match, else nowhere; with masks that overlap it
    stays if the combo, the one it is on if it asks for several devices, splits onto different backends, and
    goes to `d2` otherwise. */
  lemma DerivedIff(p: Platform, a1: DeviceMask, a2: DeviceMask, d1: SndDevice, d2: SndDevice)
    ensures var r, mixed := DerivePlaybackSndDevice(p, a1, a2, d1, d2), p.splitting.split(if |a1| > 1 then d1 else d2);
            var overlap := exists x :: x in a1 && x in a2;
            && (a1 == a2 || !overlap ==> r == if p.backendsMatch(d1, d2) then d2 else d1)
            && (a1 != a2 && overlap ==>
                  r == if mixed.Split? && !p.backendsMatch(mixed.first, mixed.second) then d1 else d2)
  {
    assert Overlap(a1, a2) <==> exists x :: x in a1 && x in a2 by {
      if x :| x in a1 && x in a2 {
        assert x in a1 * a2;
      }
    }
  }

  /** Who is asked to make way for `info` on `d`: of the playbacks and calls every other one when the backend was
    reconfigured for it or it is an A2DP device that must be switched; else those on a codec or USB device
    that are on another device of a backend of `d`. They go where they are derived to; nobody else moves. */
  lemma RoutedPlaybackIff(p: Platform, env: Env, outs: map<int, StreamOut>, list: seq<Usecase>, info: Usecase,
                          d: SndDevice, j: nat)
    requires j < |list|
    ensures var u, v := list[j], RoutedPlayback(p, ForceRouting(p, env, info, d), outs, list, info, d)[j];
            var forced := env.backendReconfigured(info.id, d)
              || (env.a2dpForceSwitch
                  && (d == p.sndA2dp || d == p.sndSpeakerAndA2dp || d == p.sndSpeakerSafeAndA2dp));
            var asked := !u.kind.PcmCapture? && u.id != info.id
              && (forced || (u.outSnd != d && OnCodecOrUsb(p, u) && p.backendsMatch(d, u.outSnd)));
            v == if asked then
                   u.(outSnd := DerivePlaybackSndDevice(p, OutDevices(outs, u), OutDevices(outs, info), u.outSnd, d))
                 else u
  {
  }

  /** Who follows `info` to the input `d`: every other recording and call that is on another input of a backend
    of `d`, or records the voice call that moves, but for speaker calibration. */
  lemma RoutedCaptureIff(p: Platform, list: seq<Usecase>, info: Usecase, d: SndDevice, j: nat)
    requires j < |list|
    ensures var u, v := list[j], RoutedCapture(p, list, info, d)[j];
            var follows := u.kind != PcmPlayback && u.id != info.id && u.inSnd != d
              && (p.backendsMatch(d, u.inSnd) || (info.kind == VoiceCall && u.devices == p.inVoiceCall))
              && u.id != USECASE_AUDIO_SPKR_CALIB_TX;
            v == if follows then u.(inSnd := d) else u
  {
  }

  // ---------------------------------------------------------------- the capture routed ahead

  /** A playback routes the voice communication input first if and only if it takes no device from a call and is
    the VOIP playback, or on the primary output while there is no VOIP playback. */
  lemma RoutedAheadIff(p: Platform, env: Env, outs: map<int, StreamOut>, ins: map<int, StreamIn>,
                       list: seq<Usecase>, u: Usecase)
    requires WellFormedList(list, outs, ins) && u.kind.PcmPlayback?
    ensures ChooseDevices(p, env, outs, ins, list, u).voipIn.Some? <==>
              && (forall j | SharesCall(p, env, list, u, j) :: list[j].outSnd == SND_DEVICE_NONE)
              && (exists j: nat :: IsVoiceInput(env, ins, list, j))
              && (if exists j :: 0 <= j < |list| && list[j].id == USECASE_AUDIO_PLAYBACK_VOIP then
                    exists j :: && 0 <= j < |list| && list[j].id == USECASE_AUDIO_PLAYBACK_VOIP
                                && list[j].stream == u.stream
                  else u.stream == env.primaryOutput)
    ensures var v := ChooseDevices(p, env, outs, ins, list, u).voipIn;
            v.Some? ==> exists j: nat :: IsVoiceInput(env, ins, list, j) && list[j].id == v.value
  {
    InheritedIff(p, env, list, u);
    var j := VoiceInputIff(env, ins, list);
    if VoiceCommunicationInput(env, ins, list, list).Some? {
      assert WellLinked(list[j], outs, ins);
    }
    var f := FindUsecase(list, USECASE_AUDIO_PLAYBACK_VOIP);
    if f.Some? {
      assert forall i | 0 <= i < |list| && list[i].id == USECASE_AUDIO_PLAYBACK_VOIP :: i == f.value;
    }
  }

  /** It is put where it wants to be before the playback moves, and stays there. */
  lemma AheadIsPlaced(p: Platform, env: Env, outs: map<int, StreamOut>, ins: map<int, StreamIn>, list: seq<Usecase>,
                      id: int, force: bool) returns (f: nat)
    requires p.WellFormed() && WellFormedList(list, outs, ins) && FindUsecase(list, id).Some?
    requires ChooseDevices(p, env, outs, ins, list, list[FindUsecase(list, id).value]).voipIn.Some?
    ensures var k := FindUsecase(list, id).value;
            var l1 := list[k := list[k].(devices := OutDevices(outs, list[k]))];
            var r := Selected(p, env, outs, ins, list, id, force);
            && f < |list| && f != k && IsVoiceInput(env, ins, list, f)
            && WantsInput(p, env, outs, ins, l1, list[f], r[f].inSnd) && r[f].devices == InDevice(ins, list[f])
  {
    var k := FindUsecase(list, id).value;
    var c := ChooseDevices(p, env, outs, ins, list, list[k]);
    var l1 := list[k := list[k].(devices := c.devices)];
    ChoiceFits(p, env, outs, ins, list, list[k]);
    PlaybackChoice(p, env, outs, ins, list, list[k]);
    RoutedAheadIff(p, env, outs, ins, list, list[k]);
    var j: nat :| IsVoiceInput(env, ins, list, j) && list[j].id == c.voipIn.value;
    f := j;
    assert WellLinked(list[k], outs, ins);
    ReplaceWellFormed(outs, ins, list, k, l1[k]);
    assert forall i | 0 <= i < |list| && list[i].id == list[f].id :: i == f;
    SameFind(list, l1, list[f].id);
    SelectedCapture(p, env, outs, ins, l1, list[f].id, false);
    CaptureIsPlaced(p, env, outs, ins, l1, list[f].id, false);
    var l2 := SelectedOne(p, env, outs, ins, l1, list[f].id, false);
    MoveKeepsInputs(p, env, outs, l2, k, c, force, f);
  }

  /** Moving a playback changes neither the input nor the request of another use case. */
  lemma MoveKeepsInputs(p: Platform, env: Env, outs: map<int, StreamOut>, list: seq<Usecase>, k: nat, c: Choice,
                        force: bool, f: nat)
    requires k < |list| && f < |list| && f != k && c.inSnd == SND_DEVICE_NONE
    ensures var v := Switched(p, env, outs, list, k, c, force)[f];
            v.inSnd == list[f].inSnd && SameRequest(list[f], v)
  {
  }
}
