/** What starting, stopping and re-routing mean for the use cases on the list. */
module RoutingRequests {
  import opened DeviceCounts
  import opened RoutingAnswers
  import opened RoutingConflicts
  import opened RoutingCourse
  import opened RoutingRules
  import opened Wrappers

  // ---------------------------------------------------------------- started use cases

  lemma JoinedLast(list: seq<Usecase>, u: Usecase)
    requires FindUsecase(list, u.id).None?
    ensures FindUsecase(list + [u], u.id) == Some(|list|)
  {
    LastIndex(list + [u], u.id);
  }

  /** The call `id` is last on the list, on the devices the platform answers for output stream `s`. */
  predicate CallRuns(p: Platform, env: Env, st: Scene, id: int, s: int, list: seq<Usecase>)
    requires s in st.outs
  {
    var mask := st.outs[s].devices;
    && |list| == |st.list| + 1
    && var v := list[|st.list|];
       && v.id == id && v.stream == Some(s) && v.devices == mask
       && Placed(p, env, st.outs, Usecase(id, v.kind, mask, SND_DEVICE_NONE, SND_DEVICE_NONE, Some(s)),
                 env.outputFor(mask), env.inputFor(None, mask), false, v)
       && (env.a2dpReady ==> v.outSnd == env.outputFor(mask) && v.inSnd == env.inputFor(None, mask))
  }

  /** So is every call that starts. */
  lemma StartedCallIsPlaced(p: Platform, env: Env, st: Scene, id: int, kind: UsecaseType, s: int)
    requires p.WellFormed() && st.account.Fits(p) && WellFormedList(st.list, st.outs, st.ins) && s in st.outs
    requires CanJoin(st.list, id) && !InCallMusic(id) && (kind.VoiceCall? || kind.PcmHfpCall?)
    ensures var r := CallStarted(p, env, st, id, kind, s, true).list;
            CallRuns(p, env, st, id, s, r) && r[|st.list|].kind == kind
  {
    var u := CallUsecase(id, kind, s, st.outs[s]);
    var joined := st.list + [u];
    JoinedLast(st.list, u);
    JoinedWellFormed(st.outs, st.ins, st.list, u);
    CallIsPlaced(p, env, st.outs, st.ins, joined, id, false);
    SelectedKeepsRequest(p, env, st.outs, st.ins, joined, id, false);
  }

  /** select_devices changes of the use case itself only its devices and the mask it asks for. */
  lemma SelectedKeepsRequest(p: Platform, env: Env, outs: map<int, StreamOut>, ins: map<int, StreamIn>,
                             list: seq<Usecase>, id: int, force: bool)
    requires p.WellFormed() && WellFormedList(list, outs, ins) && FindUsecase(list, id).Some?
    ensures var k := FindUsecase(list, id).value;
            var v := Selected(p, env, outs, ins, list, id, force)[k];
            v.id == list[k].id && v.kind == list[k].kind && v.stream == list[k].stream
  {
    var k := FindUsecase(list, id).value;
    BeforeMoveKeeps(p, env, outs, ins, list, k);
    SwitchedKeepsRequests(p, env, outs, BeforeMove(p, env, outs, ins, list, k), k,
      ChooseDevices(p, env, outs, ins, list, list[k]), force);
  }

  /** The capture `id` is last on the list, on the input it wants for input stream `s`. */
  ghost predicate CaptureRuns(p: Platform, env: Env, st: Scene, s: int, id: int, list: seq<Usecase>)
    requires s in st.ins
  {
    var ins := st.ins[s := st.ins[s].(usecase := id)];
    var u := Usecase(id, PcmCapture, st.ins[s].device, SND_DEVICE_NONE, SND_DEVICE_NONE, Some(s));
    && |list| == |st.list| + 1
    && var v := list[|st.list|];
       && v.id == id && v.kind == PcmCapture && v.stream == Some(s) && v.devices == st.ins[s].device
       && v.outSnd == SND_DEVICE_NONE && WantsInput(p, env, st.outs, ins, st.list + [u], u, v.inSnd)
  }

  /** So is every capture that starts. */
  lemma StartedCaptureIsPlaced(p: Platform, env: Env, st: Scene, s: int, id: int)
    requires p.WellFormed() && st.account.Fits(p) && WellFormedList(st.list, st.outs, st.ins) && s in st.ins
    requires CanJoin(st.list, id) && !InCallMusic(id) && NotRecording(st.list, s)
    ensures var after := InputStarted(p, env, st, s, id, true, true);
            after.ins == st.ins[s := st.ins[s].(usecase := id)] && CaptureRuns(p, env, st, s, id, after.list)
  {
    var ins := st.ins[s := st.ins[s].(usecase := id)];
    var u := CaptureUsecase(s, ins[s]);
    RenamedWellFormed(st.list, st.outs, st.ins, s, id);
    JoinedLast(st.list, u);
    JoinedWellFormed(st.outs, ins, st.list, u);
    CaptureIsPlaced(p, env, st.outs, ins, st.list + [u], id, false);
    SelectedKeepsRequest(p, env, st.outs, ins, st.list + [u], id, false);
  }

  /** The devices a started playback asks for: its own unless it waits for A2DP; then those on the speaker it is
    also on, speaker-safe first, and for offload alone the speaker. */
  predicate AsksFor(p: Platform, env: Env, out: StreamOut, mask: DeviceMask) {
    mask ==
      if !Overlap(out.devices, p.a2dp) || env.a2dpReady then out.devices
      else if Overlap(out.devices, p.speakerSafe) then p.speakerSafe
      else p.speaker
  }

  /** A playback that starts is on the output it wants for the devices it asks for; one that was muted before
    and has A2DP alone joins without a device. */
  lemma StartedPlaybackIsPlaced(p: Platform, env: Env, st: Scene, s: int, usbReset: bool)
    returns (mask: DeviceMask, o: SndDevice)
    requires p.WellFormed() && st.account.Fits(p) && WellFormedList(st.list, st.outs, st.ins) && s in st.outs
    requires CanJoin(st.list, st.outs[s].usecase)
    requires var out := st.outs[s];
             !(Overlap(out.devices, p.a2dp) && !env.a2dpReady && !Overlap(out.devices, p.speaker + p.speakerSafe)
               && !out.offload)
    ensures var out, after := st.outs[s], OutputStarted(p, env, st, s, true, true, usbReset);
            var u, mute := PlaybackUsecase(s, out), Overlap(out.devices, p.a2dp) && !env.a2dpReady
                                                    && !Overlap(out.devices, p.speaker + p.speakerSafe);
            && |after.list| == |st.list| + 1
            && after.outs == (if mute then st.outs[s := out.(a2dpMute := true)] else st.outs)
            && var v := after.list[|st.list|];
               if mute && out.a2dpMute then v == u
               else
                 && AsksFor(p, env, out, mask) && v.devices == mask && v.inSnd == SND_DEVICE_NONE
                 && WantsOutput(p, env, st.outs[s := out.(devices := mask)], st.list + [u], u, o)
                 && Placed(p, env, st.outs[s := out.(devices := mask)], u, o, SND_DEVICE_NONE, false, v)
  {
    var out := st.outs[s];
    var u := PlaybackUsecase(s, out);
    var joined := st.list + [u];
    JoinedLast(st.list, u);
    JoinedWellFormed(st.outs, st.ins, st.list, u);
    SpeakersOverlap(out.devices, p.speaker, p.speakerSafe);
    var devices := DevicesWhileStarting(p, env, out);
    mask, o := {}, SND_DEVICE_NONE;
    if devices.Some? {
      var outs := st.outs[s := out.(devices := devices.value)];
      LinkedAfterUpdate(joined, st.outs, outs, st.ins);
      mask := devices.value;
      o := PlaybackIsPlaced(p, env, outs, st.ins, joined, u.id, false);
    }
  }

  /** A playback on A2DP alone that is not offloaded does not start before A2DP is ready. */
  lemma RefusedStaysOut(p: Platform, env: Env, st: Scene, s: int, ready: bool, opens: bool, usbReset: bool)
    requires p.WellFormed() && st.account.Fits(p) && s in st.outs
    ensures var out := st.outs[s];
            !ready || (Overlap(out.devices, p.a2dp) && !env.a2dpReady && !Overlap(out.devices, p.speaker)
                       && !Overlap(out.devices, p.speakerSafe) && !out.offload) ==>
              OutputStarted(p, env, st, s, ready, opens, usbReset) == st
  {
    SpeakersOverlap(st.outs[s].devices, p.speaker, p.speakerSafe);
  }

  lemma SpeakersOverlap(a: DeviceMask, b: DeviceMask, c: DeviceMask)
    ensures Overlap(a, b + c) <==> Overlap(a, b) || Overlap(a, c)
  {
    assert a * (b + c) == a * b + a * c;
  }

  // ---------------------------------------------------------------- who is routed again

  /** A use case keeps its request, or asks for the mask its stream has now. */
  predicate AsksAgain(outs: map<int, StreamOut>, ins: map<int, StreamIn>, u: Usecase, v: Usecase) {
    && u.id == v.id && u.kind == v.kind && u.stream == v.stream
    && v.devices == if u.kind.PcmCapture? then InDevice(ins, u) else OutDevices(outs, u)
  }

  lemma SelectedOneMasks(p: Platform, env: Env, outs: map<int, StreamOut>, ins: map<int, StreamIn>,
                         list: seq<Usecase>, id: int, force: bool)
    requires p.WellFormed() && WellFormedList(list, outs, ins)
    requires var f := FindUsecase(list, id); f.Some? && list[f.value].kind.PcmCapture?
    ensures var r := SelectedOne(p, env, outs, ins, list, id, force);
            forall j | 0 <= j < |list| ::
              if list[j].id == id then AsksAgain(outs, ins, list[j], r[j]) else SameRequest(list[j], r[j])
  {
    var k := FindUsecase(list, id).value;
    var c := ChooseDevices(p, env, outs, ins, list, list[k]);
    CaptureChoice(p, env, outs, ins, list, list[k]);
    SwitchedKeepsRequests(p, env, outs, list[k := list[k].(devices := c.devices)], k, c, force);
  }

  /** select_devices makes the use case ask for what its stream has; of others at most a capture, routed ahead. */
  lemma SelectedMasks(p: Platform, env: Env, outs: map<int, StreamOut>, ins: map<int, StreamIn>, list: seq<Usecase>,
                      id: int, force: bool)
    requires p.WellFormed() && WellFormedList(list, outs, ins)
    ensures var r := Selected(p, env, outs, ins, list, id, force);
            forall j | 0 <= j < |list| ::
              if list[j].id == id then AsksAgain(outs, ins, list[j], r[j])
              else SameRequest(list[j], r[j]) || (list[j].kind.PcmCapture? && AsksAgain(outs, ins, list[j], r[j]))
  {
    var f := FindUsecase(list, id);
    if f.Some? {
      var k := f.value;
      var c := ChooseDevices(p, env, outs, ins, list, list[k]);
      var l1 := list[k := list[k].(devices := c.devices)];
      SelectedIsPlaced(p, env, outs, ins, list, id, force);
      BeforeMoveKeeps(p, env, outs, ins, list, k);
      SwitchedKeepsRequests(p, env, outs, BeforeMove(p, env, outs, ins, list, k), k, c, force);
      assert WellLinked(list[k], outs, ins);
      if c.voipIn.Some? {
        VoipInputIsCapture(p, env, outs, ins, list, list[k]);
        ReplaceWellFormed(outs, ins, list, k, l1[k]);
        SameFind(list, l1, c.voipIn.value);
        SelectedOneMasks(p, env, outs, ins, l1, c.voipIn.value, false);
      }
    }
  }

  /** `u` became `v`: it asks for what its stream has now if it was asked `again`; otherwise at most a capture
    does. */
  predicate Reasked(outs: map<int, StreamOut>, ins: map<int, StreamIn>, again: bool, u: Usecase, v: Usecase) {
    AsksAgain(outs, ins, u, v) || (!again && SameRequest(u, v))
  }

  predicate OnlyCapturesAsk(again: bool, u: Usecase, v: Usecase) {
    u.kind.PcmCapture? || again || SameRequest(u, v)
  }

  /** Every use case from index `i` on but captures other than VOIP. */
  predicate IsRerouted(u: Usecase, i: nat, j: int) {
    j >= i && (!u.kind.PcmCapture? || u.id == USECASE_AUDIO_RECORD_VOIP)
  }

  lemma ReroutedOneMasks(p: Platform, env: Env, outs: map<int, StreamOut>, ins: map<int, StreamIn>,
                         list: seq<Usecase>, i: nat)
    requires p.WellFormed() && WellFormedList(list, outs, ins) && i < |list|
    ensures var r := ReroutedOne(p, env, outs, ins, list, i);
            && WellFormedList(r, outs, ins)
            && forall j | 0 <= j < |list| ::
                 && Reasked(outs, ins, j == i && IsRerouted(list[i], i, i), list[j], r[j])
                 && OnlyCapturesAsk(j == i && IsRerouted(list[i], i, i), list[j], r[j])
  {
    SelectedMasks(p, env, outs, ins, list, list[i].id, false);
    SelectedWellFormed(p, env, outs, ins, list, list[i].id, false);
  }

  /** Routing the use cases from index `i` on again makes every playback and call among them, and the VOIP
    capture, ask for what its stream has; no other playback or call asks for anything else than before. */
  lemma {:induction false} ReroutedMasks(p: Platform, env: Env, outs: map<int, StreamOut>, ins: map<int, StreamIn>,
                                         list: seq<Usecase>, i: nat)
    requires p.WellFormed() && WellFormedList(list, outs, ins)
    ensures var r := ReroutedFrom(p, env, outs, ins, list, i);
            forall j | 0 <= j < |list| ::
              && Reasked(outs, ins, IsRerouted(list[j], i, j), list[j], r[j])
              && OnlyCapturesAsk(IsRerouted(list[j], i, j), list[j], r[j])
    decreases |list| - i
  {
    if i < |list| {
      var next := ReroutedOne(p, env, outs, ins, list, i);
      ReroutedOneMasks(p, env, outs, ins, list, i);
      ReroutedMasks(p, env, outs, ins, next, i + 1);
      var r := ReroutedFrom(p, env, outs, ins, next, i + 1);
      forall j | 0 <= j < |list|
        ensures Reasked(outs, ins, IsRerouted(list[j], i, j), list[j], r[j])
        ensures OnlyCapturesAsk(IsRerouted(list[j], i, j), list[j], r[j])
      {
        assert Reasked(outs, ins, j == i && IsRerouted(list[i], i, i), list[j], next[j]);
        assert Reasked(outs, ins, IsRerouted(next[j], i + 1, j), next[j], r[j]);
      }
    }
  }

  lemma RoutedKeepsRequests(p: Platform, force: bool, outs: map<int, StreamOut>, list: seq<Usecase>, info: Usecase,
                            d: SndDevice)
    ensures var r := RoutedPlayback(p, force, outs, list, info, d);
            forall j | 0 <= j < |list| :: SameRequest(list[j], r[j])
  {
  }

  /** What stopping a playback does to the others: after the VOIP playback or one on the safe speaker every
    playback and call, and the VOIP capture, is routed again; after one on USB whose service interval was
    reset they make way for its device; otherwise nothing happens to them. */
  lemma StoppedOutputReroutes(p: Platform, env: Env, outs: map<int, StreamOut>, ins: map<int, StreamIn>,
                              list: seq<Usecase>, out: StreamOut, usbReset: bool)
    requires p.WellFormed() && WellFormedList(list, outs, ins) && FindUsecase(list, out.usecase).Some?
    ensures var k := FindUsecase(list, out.usecase).value;
            var u, rest, r := list[k], Without(list, k), StoppedOutput(p, env, outs, ins, list, out, usbReset);
            var all := out.usecase == USECASE_AUDIO_PLAYBACK_VOIP || Overlap(out.devices, p.speakerSafe);
            var reset := usbReset && Overlap(out.devices, p.usb) && !Overlap(out.devices, p.auxDigital);
            && |r| == |rest|
            && (all ==> forall j | 0 <= j < |rest| ::
                  Reasked(outs, ins, IsRerouted(rest[j], 0, j), rest[j], r[j])
                  && OnlyCapturesAsk(IsRerouted(rest[j], 0, j), rest[j], r[j]))
            && (!all && !reset ==> r == rest)
            && (!all && reset ==> forall j | 0 <= j < |rest| ::
                  SameRequest(rest[j], r[j])
                  && (OnOutput(p, rest[j]) ==> MadeWay(p, outs, u, u.outSnd, rest[j], r[j])))
  {
    var k := FindUsecase(list, out.usecase).value;
    var u, rest := list[k], Without(list, k);
    var force := ForceRouting(p, env, u, u.outSnd);
    NotOnList(list, k);
    WithoutWellFormed(outs, ins, list, k);
    RoutedKeepsRequests(p, force, outs, rest, u, u.outSnd);
    RoutedPlaybackMakesWay(p, force, outs, rest, u, u.outSnd);
    RoutedPlaybackWellFormed(p, force, outs, ins, rest, u, u.outSnd);
    var l2 := if ResetsUsb(p, out, usbReset) then RoutedPlayback(p, force, outs, rest, u, u.outSnd) else rest;
    if out.usecase == USECASE_AUDIO_PLAYBACK_VOIP || Overlap(out.devices, p.speakerSafe) {
      ReroutedMasks(p, env, outs, ins, l2, 0);
      var r := ReroutedFrom(p, env, outs, ins, l2, 0);
      forall j | 0 <= j < |rest|
        ensures Reasked(outs, ins, IsRerouted(rest[j], 0, j), rest[j], r[j])
        ensures OnlyCapturesAsk(IsRerouted(rest[j], 0, j), rest[j], r[j])
      {
        assert SameRequest(rest[j], l2[j]) && Reasked(outs, ins, IsRerouted(l2[j], 0, j), l2[j], r[j]);
      }
    }
  }

  /** What stopping a capture does: if it was the input of the highest rank the one that is now is put on the
    input it wants; otherwise nothing happens to the others. */
  lemma StoppedInputHandsOver(p: Platform, env: Env, outs: map<int, StreamOut>, ins: map<int, StreamIn>,
                              list: seq<Usecase>, s: int) returns (j: nat)
    requires p.WellFormed() && WellFormedList(list, outs, ins) && s in ins
    requires FindUsecase(list, ins[s].usecase).Some?
    ensures var rest := Without(list, FindUsecase(list, ins[s].usecase).value);
            var r := StoppedInput(p, env, outs, ins, list, s);
            && |r| == |rest|
            && (!(exists i: nat :: IsBestInput(ins, list, Some(s), i)) ==> r == rest)
            && (!(exists i: nat, t :: IsBestInput(ins, rest, t, i)) ==> r == rest)
            && ((exists i: nat :: IsBestInput(ins, list, Some(s), i))
                && (exists i: nat, t :: IsBestInput(ins, rest, t, i)) ==>
                  && j < |rest| && IsBestInput(ins, rest, rest[j].stream, j)
                  && WantsInput(p, env, outs, ins, rest, rest[j], r[j].inSnd) && AsksAgain(outs, ins, rest[j], r[j]))
  {
    var k := FindUsecase(list, ins[s].usecase).value;
    var rest := Without(list, k);
    WithoutWellFormed(outs, ins, list, k);
    BestInputChoice(ins, list);
    BestInputChoice(ins, rest);
    BestInputIsUnique(ins, list);
    j := PriorityInputIsBest(ins, rest);
    var next := PriorityInput(ins, rest);
    if next.Some? {
      assert WellLinked(rest[j], outs, ins) && rest[j].stream == next && next.value in ins;
      var id := ins[next.value].usecase;
      assert rest[j].id == id;
      assert forall i | 0 <= i < |rest| && rest[i].id == id :: i == j;
      CaptureIsPlaced(p, env, outs, ins, rest, id, false);
      SelectedMasks(p, env, outs, ins, rest, id, false);
    }
  }

  lemma BestInputIsUnique(ins: map<int, StreamIn>, list: seq<Usecase>)
    ensures forall i: nat, s | IsBestInput(ins, list, s, i) :: s == PriorityInput(ins, list)
  {
    var k := PriorityInputIsBest(ins, list);
    forall i: nat, s | IsBestInput(ins, list, s, i)
      ensures s == PriorityInput(ins, list)
    {
      assert PriorityOf(ins, list[k]) == PriorityOf(ins, list[i]) || PriorityInput(ins, list).None?;
    }
  }

  /** Every voice call from index `i` on is moved to stream `s` and asks for what it has; no other use case
    changes its stream, and no other playback or call what it asks for. */
  lemma {:induction false} VoiceMovedMasks(p: Platform, env: Env, outs: map<int, StreamOut>, ins: map<int, StreamIn>,
                                           list: seq<Usecase>, s: int, i: nat)
    requires p.WellFormed() && WellFormedList(list, outs, ins) && s in outs
    ensures var r := VoiceMovedFrom(p, env, outs, ins, list, s, i);
            forall j | 0 <= j < |list| ::
              MovedVoice(outs, ins, list[j].kind.VoiceCall? && j >= i, s, list[j], r[j])
    decreases |list| - i
  {
    if i < |list| {
      var next := VoiceMovedOne(p, env, outs, ins, list, s, i);
      VoiceMovedOneMasks(p, env, outs, ins, list, s, i);
      VoiceMovedMasks(p, env, outs, ins, next, s, i + 1);
      var r := VoiceMovedFrom(p, env, outs, ins, next, s, i + 1);
      forall j | 0 <= j < |list|
        ensures MovedVoice(outs, ins, list[j].kind.VoiceCall? && j >= i, s, list[j], r[j])
      {
        assert MovedVoice(outs, ins, list[j].kind.VoiceCall? && j == i, s, list[j], next[j]);
        assert MovedVoice(outs, ins, next[j].kind.VoiceCall? && j >= i + 1, s, next[j], r[j]);
      }
    }
  }

  predicate MovedVoice(outs: map<int, StreamOut>, ins: map<int, StreamIn>, moved: bool, s: int, u: Usecase, v: Usecase)
    requires s in outs
  {
    if moved then v.id == u.id && v.kind == u.kind && v.stream == Some(s) && v.devices == outs[s].devices
    else SameRequest(u, v) || (u.kind.PcmCapture? && AsksAgain(outs, ins, u, v))
  }

  lemma VoiceMovedOneMasks(p: Platform, env: Env, outs: map<int, StreamOut>, ins: map<int, StreamIn>,
                           list: seq<Usecase>, s: int, i: nat)
    requires p.WellFormed() && WellFormedList(list, outs, ins) && s in outs && i < |list|
    ensures var r := VoiceMovedOne(p, env, outs, ins, list, s, i);
            && WellFormedList(r, outs, ins)
            && forall j | 0 <= j < |list| ::
                 MovedVoice(outs, ins, list[j].kind.VoiceCall? && j == i, s, list[j], r[j])
  {
    if list[i].kind.VoiceCall? {
      var u := list[i].(stream := Some(s));
      assert WellLinked(list[i], outs, ins);
      ReplaceWellFormed(outs, ins, list, i, u);
      SelectedMasks(p, env, outs, ins, list[i := u], u.id, false);
      SelectedWellFormed(p, env, outs, ins, list[i := u], u.id, false);
    }
  }
}
