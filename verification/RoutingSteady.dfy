/** A condition on the board and the requests under which no two use cases ever compete for a backend. */
module RoutingSteady {
  import opened DeviceCounts
  import opened RoutingConflicts
  import opened RoutingCourse
  import opened RoutingRules
  import opened Wrappers

  /** What the requests keep to: the output streams that are always on codec or USB devices, the others
    never being so, and the device masks in use. */
  datatype Discipline = Discipline(lanes: set<int>, masks: set<DeviceMask>)

  predicate OnMask(p: Platform, mask: DeviceMask) {
    Overlap(mask, p.codecBackend) || Overlap(mask, p.usb)
  }

  predicate Allowed(p: Platform, d: Discipline, s: int, mask: DeviceMask) {
    mask in d.masks && (OnMask(p, mask) <==> s in d.lanes)
  }

  /** No combo splits across backends. */
  ghost predicate NoMixedCombo(p: Platform) {
    forall c :: p.splitting.split(c).Split? ==> p.backendsMatch(p.splitting.split(c).first, p.splitting.split(c).second)
  }

  /** Any two masks are the same or have no device in common. */
  predicate NoPartialOverlap(masks: set<DeviceMask>) {
    forall m, n | m in masks && n in masks && m != n :: !Overlap(m, n)
  }

  /** The speakers, which stand in for A2DP, are codec devices; the documented exception cannot arise. */
  ghost predicate FitBoard(p: Platform, d: Discipline) {
    && p.WellFormed()
    && OnMask(p, p.speaker) && OnMask(p, p.speakerSafe) && p.speaker in d.masks && p.speakerSafe in d.masks
    && (NoMixedCombo(p) || NoPartialOverlap(d.masks))
  }

  /** Streams stay in their lane, and calls are on codec or USB streams. */
  predicate FitRequest(p: Platform, d: Discipline, r: Request) {
    match r
    case OpenOutput(_, s, out) => Allowed(p, d, s, out.devices)
    case SetOutDevices(_, s, devices) => Allowed(p, d, s, devices)
    case BeginCall(_, _, _, s, _) => s in d.lanes
    case UpdateVoice(_, s) => s in d.lanes
    case _ => true
  }

  predicate FitStreams(p: Platform, d: Discipline, outs: map<int, StreamOut>) {
    forall s | s in outs :: Allowed(p, d, s, outs[s].devices)
  }

  /** Streams while one of them pretends to be on a speaker. */
  predicate AlmostFit(p: Platform, d: Discipline, outs: map<int, StreamOut>) {
    forall s | s in outs :: outs[s].devices in d.masks && (s in d.lanes ==> OnMask(p, outs[s].devices))
  }

  /** A use case of a codec or USB stream asks for codec or USB devices; calls have such streams. */
  predicate InLane(p: Platform, d: Discipline, u: Usecase) {
    u.kind.PcmCapture? || (
      && u.stream.Some?
      && (u.stream.value in d.lanes ==> OnCodecOrUsb(p, u))
      && (u.kind.VoiceCall? ==> u.stream.value in d.lanes))
  }

  predicate FitList(p: Platform, d: Discipline, list: seq<Usecase>) {
    forall k | 0 <= k < |list| :: InLane(p, d, list[k])
  }

  /** Well formed, in its lanes and without two use cases that compete. */
  ghost predicate Steady(p: Platform, d: Discipline, outs: map<int, StreamOut>, ins: map<int, StreamIn>,
                         list: seq<Usecase>) {
    WellFormedList(list, outs, ins) && FitList(p, d, list) && Settled(p, list)
  }

  ghost predicate SteadyScene(p: Platform, d: Discipline, st: Scene) {
    st.account.Fits(p) && FitStreams(p, d, st.outs) && Steady(p, d, st.outs, st.ins, st.list)
  }

  /** `after` is steady and as calm as `st`. */
  ghost predicate StaysCalm(p: Platform, d: Discipline, st: Scene, after: Scene) {
    SteadyScene(p, d, after) && after.account.course.calm == st.account.course.calm
  }

  // ---------------------------------------------------------------- the documented exception cannot arise

  lemma OutDevicesFit(p: Platform, d: Discipline, outs: map<int, StreamOut>, u: Usecase)
    requires AlmostFit(p, d, outs)
    ensures OutDevices(outs, u) == {} || OutDevices(outs, u) in d.masks
    ensures u.stream.Some? && u.stream.value in outs && u.stream.value in d.lanes ==> OnMask(p, OutDevices(outs, u))
  {
    if u.stream.Some? && u.stream.value in outs {
      var s := u.stream.value;
      assert outs[s].devices in d.masks;
    }
  }

  lemma NobodyStaysInTheWay(p: Platform, d: Discipline, outs: map<int, StreamOut>, list: seq<Usecase>, info: Usecase,
                            snd: SndDevice)
    requires FitBoard(p, d) && AlmostFit(p, d, outs)
    ensures !SomeStaysInTheWay(p, outs, list, info, snd)
  {
    forall j | 0 <= j < |list|
      ensures !StaysInTheWay(p, outs, info, snd, list[j])
    {
      OutDevicesFit(p, d, outs, info);
      OutDevicesFit(p, d, outs, list[j]);
    }
  }

  // ---------------------------------------------------------------- select_devices

  /** Use case `u` does not come onto the codec or USB while it is on a device. */
  predicate KeepsLane(p: Platform, outs: map<int, StreamOut>, u: Usecase) {
    u.kind.PcmCapture? || u.outSnd == SND_DEVICE_NONE || (OnMask(p, OutDevices(outs, u)) ==> OnCodecOrUsb(p, u))
  }

  lemma BeforeMoveKeepsLane(p: Platform, env: Env, outs: map<int, StreamOut>, ins: map<int, StreamIn>,
                          list: seq<Usecase>, k: nat)
    requires p.WellFormed() && WellFormedList(list, outs, ins) && k < |list|
    requires Settled(p, list) && KeepsLane(p, outs, list[k])
    ensures var l2 := BeforeMove(p, env, outs, ins, list, k);
            InPlay(p, l2[k]) ==>
              forall j | 0 <= j < |list| && j != k && InPlay(p, l2[j]) :: !Competes(p, l2[k].outSnd, l2[j].outSnd)
  {
    var l1 := list[k := list[k].(devices := ChooseDevices(p, env, outs, ins, list, list[k]).devices)];
    var l2 := BeforeMove(p, env, outs, ins, list, k);
    BeforeMoveKeeps(p, env, outs, ins, list, k);
    forall j | 0 <= j < |list| && j != k && InPlay(p, l2[k]) && InPlay(p, l2[j])
      ensures !Competes(p, l2[k].outSnd, l2[j].outSnd)
    {
      assert SameOutput(l2[j], l1[j]) && InPlay(p, list[j]) && InPlay(p, list[k]);
    }
  }

  /** select_devices leaves no two use cases competing. */
  lemma SelectDisturbsNobody(p: Platform, d: Discipline, env: Env, outs: map<int, StreamOut>, ins: map<int, StreamIn>,
                             list: seq<Usecase>, id: int, force: bool)
    requires FitBoard(p, d) && AlmostFit(p, d, outs) && WellFormedList(list, outs, ins) && Settled(p, list)
    requires FindUsecase(list, id).Some? ==> KeepsLane(p, outs, list[FindUsecase(list, id).value])
    ensures !SelectedDisturbs(p, env, outs, ins, list, id, force)
    ensures Settled(p, Selected(p, env, outs, ins, list, id, force))
  {
    var f := FindUsecase(list, id);
    if f.Some? {
      var k := f.value;
      var c := ChooseDevices(p, env, outs, ins, list, list[k]);
      var l2 := BeforeMove(p, env, outs, ins, list, k);
      BeforeMoveKeeps(p, env, outs, ins, list, k);
      BeforeMoveKeepsLane(p, env, outs, ins, list, k);
      BeforeMoveSettled(p, env, outs, ins, list, k);
      NobodyStaysInTheWay(p, d, outs, l2, l2[k], FinalOutput(p, env, l2[k].id, c.outSnd));
      SwitchedSettledIff(p, env, outs, l2, k, c, force);
    }
  }

  lemma SelectKeepsLanes(p: Platform, d: Discipline, env: Env, outs: map<int, StreamOut>, ins: map<int, StreamIn>,
                         list: seq<Usecase>, id: int, force: bool)
    requires p.WellFormed() && AlmostFit(p, d, outs) && WellFormedList(list, outs, ins) && FitList(p, d, list)
    ensures var r := Selected(p, env, outs, ins, list, id, force);
            WellFormedList(r, outs, ins) && FitList(p, d, r)
  {
    var f := FindUsecase(list, id);
    if f.Some? {
      var k := f.value;
      var c := ChooseDevices(p, env, outs, ins, list, list[k]);
      var l1 := list[k := list[k].(devices := c.devices)];
      var l2 := BeforeMove(p, env, outs, ins, list, k);
      BeforeMoveKeeps(p, env, outs, ins, list, k);
      ChoiceFits(p, env, outs, ins, list, list[k]);
      SwitchedWellFormed(p, env, outs, ins, l2, k, c, force);
      SwitchedKeepsRequests(p, env, outs, l2, k, c, force);
      var r := Selected(p, env, outs, ins, list, id, force);
      forall j | 0 <= j < |r|
        ensures InLane(p, d, r[j])
      {
        assert SameRequest(l2[j], r[j]) && SameOutput(l2[j], l1[j]) && InLane(p, d, list[j]);
        assert WellLinked(list[j], outs, ins);
        OutDevicesFit(p, d, outs, list[j]);
      }
    }
  }

  /** select_devices keeps a steady list steady. */
  lemma SelectStaysSteady(p: Platform, d: Discipline, env: Env, outs: map<int, StreamOut>, ins: map<int, StreamIn>,
                          list: seq<Usecase>, id: int, force: bool)
    requires FitBoard(p, d) && AlmostFit(p, d, outs) && Steady(p, d, outs, ins, list)
    requires FindUsecase(list, id).Some? ==> KeepsLane(p, outs, list[FindUsecase(list, id).value])
    ensures !SelectedDisturbs(p, env, outs, ins, list, id, force)
    ensures Steady(p, d, outs, ins, Selected(p, env, outs, ins, list, id, force))
  {
    SelectDisturbsNobody(p, d, env, outs, ins, list, id, force);
    SelectKeepsLanes(p, d, env, outs, ins, list, id, force);
  }

  /** Every use case keeps its lane while no stream pretends. */
  lemma AllKeepLanes(p: Platform, d: Discipline, outs: map<int, StreamOut>, ins: map<int, StreamIn>,
                     list: seq<Usecase>, k: nat)
    requires FitStreams(p, d, outs) && WellFormedList(list, outs, ins) && FitList(p, d, list) && k < |list|
    ensures KeepsLane(p, outs, list[k])
  {
    assert WellLinked(list[k], outs, ins) && InLane(p, d, list[k]);
    if !list[k].kind.PcmCapture? {
      var s := list[k].stream.value;
      assert Allowed(p, d, s, outs[s].devices);
    }
  }

  // ---------------------------------------------------------------- the other procedures

  /** A use case is routed again. */
  lemma SelectStaysCalm(p: Platform, d: Discipline, env: Env, outs: map<int, StreamOut>, ins: map<int, StreamIn>,
                        list: seq<Usecase>, id: int, force: bool, a: Account)
    requires FitBoard(p, d) && FitStreams(p, d, outs) && Steady(p, d, outs, ins, list) && a.Fits(p)
    ensures Steady(p, d, outs, ins, Selected(p, env, outs, ins, list, id, force))
    ensures AfterSelect(p, env, outs, ins, list, id, force, a).course.calm == a.course.calm
  {
    var f := FindUsecase(list, id);
    if f.Some? {
      AllKeepLanes(p, d, outs, ins, list, f.value);
    }
    FitIsAlmostFit(p, d, outs);
    SelectStaysSteady(p, d, env, outs, ins, list, id, force);
    SelectCalmIff(p, env, outs, ins, list, id, force, a);
  }

  lemma FitIsAlmostFit(p: Platform, d: Discipline, outs: map<int, StreamOut>)
    requires FitStreams(p, d, outs)
    ensures AlmostFit(p, d, outs)
  {
    forall s | s in outs
      ensures outs[s].devices in d.masks && (s in d.lanes ==> OnMask(p, outs[s].devices))
    {
      assert Allowed(p, d, s, outs[s].devices);
    }
  }

  lemma {:induction false} RerouteStaysCalm(p: Platform, d: Discipline, env: Env, st: Scene, i: nat)
    requires FitBoard(p, d) && SteadyScene(p, d, st)
    ensures StaysCalm(p, d, st, ReroutedRest(p, env, st, i))
    ensures ReroutedRest(p, env, st, i).list == ReroutedFrom(p, env, st.outs, st.ins, st.list, i)
    ensures ReroutedRest(p, env, st, i).outs == st.outs && ReroutedRest(p, env, st, i).ins == st.ins
    decreases |st.list| - i
  {
    if i < |st.list| {
      SelectStaysCalm(p, d, env, st.outs, st.ins, st.list, st.list[i].id, false, st.account);
      RerouteStaysCalm(p, d, env, ReroutedAt(p, env, st, i), i + 1);
    }
  }

  /** A voice call moves to another codec or USB stream. */
  lemma MoveVoiceStaysCalm(p: Platform, d: Discipline, env: Env, st: Scene, s: int, i: nat)
    requires FitBoard(p, d) && SteadyScene(p, d, st) && i < |st.list| && s in st.outs && s in d.lanes
    ensures StaysCalm(p, d, st, VoiceMovedAt(p, env, st, s, i)) && VoiceMovedAt(p, env, st, s, i).outs == st.outs
  {
    var u := st.list[i];
    if u.kind.VoiceCall? {
      var v := u.(stream := Some(s));
      assert WellLinked(u, st.outs, st.ins) && InLane(p, d, u);
      ReplaceWellFormed(st.outs, st.ins, st.list, i, v);
      ReplacedSettled(p, st.list, i, v);
      SelectStaysCalm(p, d, env, st.outs, st.ins, st.list[i := v], u.id, false, st.account);
    }
  }

  lemma {:induction false} MoveVoicesStaysCalm(p: Platform, d: Discipline, env: Env, st: Scene, s: int, i: nat)
    requires FitBoard(p, d) && SteadyScene(p, d, st) && s in st.outs && s in d.lanes
    ensures StaysCalm(p, d, st, VoiceMovedRest(p, env, st, s, i))
    decreases |st.list| - i
  {
    if i < |st.list| {
      MoveVoiceStaysCalm(p, d, env, st, s, i);
      MoveVoicesStaysCalm(p, d, env, VoiceMovedAt(p, env, st, s, i), s, i + 1);
    }
  }

  lemma WithoutSteady(p: Platform, d: Discipline, outs: map<int, StreamOut>, ins: map<int, StreamIn>,
                      list: seq<Usecase>, k: nat)
    requires Steady(p, d, outs, ins, list) && k < |list|
    ensures Steady(p, d, outs, ins, Without(list, k))
  {
    WithoutWellFormed(outs, ins, list, k);
    WithoutSettled(p, list, k);
    forall j | 0 <= j < |list| - 1
      ensures InLane(p, d, Without(list, k)[j])
    {
      assert Without(list, k)[j] == list[if j < k then j else j + 1];
    }
  }

  lemma HandOverStaysCalm(p: Platform, d: Discipline, env: Env, outs: map<int, StreamOut>, ins: map<int, StreamIn>,
                          list: seq<Usecase>, a: Account)
    requires FitBoard(p, d) && FitStreams(p, d, outs) && Steady(p, d, outs, ins, list) && a.Fits(p)
    ensures Steady(p, d, outs, ins, HandedOver(p, env, outs, ins, list))
    ensures AfterHandOver(p, env, outs, ins, list, a).course.calm == a.course.calm
  {
    var next := PriorityInput(ins, list);
    if next.Some? && next.value in ins {
      SelectStaysCalm(p, d, env, outs, ins, list, ins[next.value].usecase, false, a);
    }
  }

  lemma StopInputStaysCalm(p: Platform, d: Discipline, env: Env, outs: map<int, StreamOut>, ins: map<int, StreamIn>,
                           list: seq<Usecase>, s: int, a: Account)
    requires FitBoard(p, d) && FitStreams(p, d, outs) && Steady(p, d, outs, ins, list) && a.Fits(p) && s in ins
    ensures Steady(p, d, outs, ins, StoppedInput(p, env, outs, ins, list, s))
    ensures AfterStopInput(p, env, outs, ins, list, s, a).course.calm == a.course.calm
  {
    var f := FindUsecase(list, ins[s].usecase);
    if f.Some? {
      WithoutSteady(p, d, outs, ins, list, f.value);
      HandOverStaysCalm(p, d, env, outs, ins, Without(list, f.value), AfterRelease(p, list[f.value], a));
    }
  }

  /** Others are re-routed for a use case that left. */
  lemma DepartedStaysCalm(p: Platform, d: Discipline, env: Env, outs: map<int, StreamOut>, ins: map<int, StreamIn>,
                          list: seq<Usecase>, u: Usecase, a: Account)
    requires FitBoard(p, d) && FitStreams(p, d, outs) && Steady(p, d, outs, ins, list) && a.Fits(p)
    requires forall j | 0 <= j < |list| :: list[j].id != u.id
    ensures Steady(p, d, outs, ins, RoutedPlayback(p, ForceRouting(p, env, u, u.outSnd), outs, list, u, u.outSnd))
    ensures AfterDeparted(p, env, outs, list, u, a).course.calm == a.course.calm
  {
    var force := ForceRouting(p, env, u, u.outSnd);
    FitIsAlmostFit(p, d, outs);
    NobodyStaysInTheWay(p, d, outs, list, u, u.outSnd);
    DepartedSettledIff(p, force, outs, list, u);
    RoutedPlaybackWellFormed(p, force, outs, ins, list, u, u.outSnd);
    PlaybackFollows(p, env, force, outs, list, u, u.outSnd, a);
    var r := RoutedPlayback(p, force, outs, list, u, u.outSnd);
    forall j | 0 <= j < |r|
      ensures InLane(p, d, r[j])
    {
      assert InLane(p, d, list[j]) && SameRequest(list[j], r[j]);
    }
  }

  lemma StopOutputStaysCalm(p: Platform, d: Discipline, env: Env, outs: map<int, StreamOut>, ins: map<int, StreamIn>,
                            list: seq<Usecase>, out: StreamOut, usbReset: bool, a: Account)
    requires FitBoard(p, d) && FitStreams(p, d, outs) && Steady(p, d, outs, ins, list) && a.Fits(p)
    ensures Steady(p, d, outs, ins, StoppedOutput(p, env, outs, ins, list, out, usbReset))
    ensures AfterStopOutput(p, env, outs, ins, list, out, usbReset, a).course.calm == a.course.calm
  {
    var f := FindUsecase(list, out.usecase);
    if f.Some? {
      var u, l1 := list[f.value], Without(list, f.value);
      var released := AfterRelease(p, u, a);
      WithoutSteady(p, d, outs, ins, list, f.value);
      NotOnList(list, f.value);
      if ResetsUsb(p, out, usbReset) {
        DepartedStaysCalm(p, d, env, outs, ins, l1, u, released);
        RerouteStaysCalm(p, d, env,
          Scene(outs, ins, RoutedPlayback(p, ForceRouting(p, env, u, u.outSnd), outs, l1, u, u.outSnd),
                AfterDeparted(p, env, outs, l1, u, released)), 0);
      } else {
        RerouteStaysCalm(p, d, env, Scene(outs, ins, l1, released), 0);
      }
    }
  }

  // ---------------------------------------------------------------- joining

  /** A use case without a device joins a steady list, and is found last. */
  lemma JoinedSteady(p: Platform, d: Discipline, outs: map<int, StreamOut>, ins: map<int, StreamIn>,
                     list: seq<Usecase>, u: Usecase)
    requires Steady(p, d, outs, ins, list) && WellLinked(u, outs, ins) && InLane(p, d, u)
    requires u.outSnd == SND_DEVICE_NONE && FindUsecase(list, u.id).None?
    ensures Steady(p, d, outs, ins, list + [u]) && FindUsecase(list + [u], u.id) == Some(|list|)
  {
    JoinedWellFormed(outs, ins, list, u);
    JoinedSettled(p, list, u);
    LastIndex(list + [u], u.id);
  }

  /** Routing a playback that joined last, on its own devices or pretending to be on a speaker. */
  lemma StartedStaysCalm(p: Platform, d: Discipline, env: Env, outs: map<int, StreamOut>, ins: map<int, StreamIn>,
                         list: seq<Usecase>, s: int, a: Account)
    requires FitBoard(p, d) && FitStreams(p, d, outs) && Steady(p, d, outs, ins, list) && a.Fits(p) && s in outs
    requires FindUsecase(list, outs[s].usecase) == Some(|list| - 1) && list[|list| - 1].outSnd == SND_DEVICE_NONE
    ensures Steady(p, d, outs, ins, StartedOutput(p, env, outs, ins, list, s))
    ensures AfterStarted(p, env, outs, ins, list, s, a).course.calm == a.course.calm
  {
    var devices := DevicesWhileStarting(p, env, outs[s]);
    if devices.Some? {
      var pretended := outs[s := outs[s].(devices := devices.value)];
      FitIsAlmostFit(p, d, outs);
      assert AlmostFit(p, d, pretended);
      LinkedAfterUpdate(list, outs, pretended, ins);
      SelectStaysSteady(p, d, env, pretended, ins, list, outs[s].usecase, false);
      SelectCalmIff(p, env, pretended, ins, list, outs[s].usecase, false, a);
      LinkedAfterUpdate(Selected(p, env, pretended, ins, list, outs[s].usecase, false), pretended, outs, ins);
    }
  }

  lemma MutedFit(p: Platform, d: Discipline, env: Env, outs: map<int, StreamOut>, s: int)
    requires FitStreams(p, d, outs) && s in outs
    ensures FitStreams(p, d, MutedWhileStarting(p, env, outs, s))
  {
    forall t | t in outs
      ensures Allowed(p, d, t, MutedWhileStarting(p, env, outs, s)[t].devices)
    {
      assert Allowed(p, d, t, outs[t].devices);
    }
  }

  // ---------------------------------------------------------------- whole requests

  lemma OutputStartedStaysCalm(p: Platform, d: Discipline, env: Env, st: Scene, s: int, ready: bool, opens: bool,
                               usbReset: bool)
    requires FitBoard(p, d) && SteadyScene(p, d, st) && s in st.outs && CanJoin(st.list, st.outs[s].usecase)
    ensures StaysCalm(p, d, st, OutputStarted(p, env, st, s, ready, opens, usbReset))
  {
    if ready && !RefusedForA2dp(p, env, st.outs[s]) {
      var u := PlaybackUsecase(s, st.outs[s]);
      assert Allowed(p, d, s, st.outs[s].devices);
      JoinedSteady(p, d, st.outs, st.ins, st.list, u);
      StartedStaysCalm(p, d, env, st.outs, st.ins, st.list + [u], s, st.account);
      var outs := MutedWhileStarting(p, env, st.outs, s);
      var started := StartedOutput(p, env, st.outs, st.ins, st.list + [u], s);
      MutedFit(p, d, env, st.outs, s);
      LinkedAfterUpdate(started, st.outs, outs, st.ins);
      StopOutputStaysCalm(p, d, env, outs, st.ins, started, outs[s], usbReset,
        AfterStarted(p, env, st.outs, st.ins, st.list + [u], s, st.account));
    }
  }

  lemma InputStartedStaysCalm(p: Platform, d: Discipline, env: Env, st: Scene, s: int, id: int, ready: bool,
                              opens: bool)
    requires FitBoard(p, d) && SteadyScene(p, d, st) && s in st.ins
    requires CanJoin(st.list, id) && !InCallMusic(id) && NotRecording(st.list, s)
    ensures StaysCalm(p, d, st, InputStarted(p, env, st, s, id, ready, opens))
  {
    var ins := st.ins[s := st.ins[s].(usecase := id)];
    var joined := st.list + [CaptureUsecase(s, ins[s])];
    RenamedWellFormed(st.list, st.outs, st.ins, s, id);
    JoinedSteady(p, d, st.outs, ins, st.list, CaptureUsecase(s, ins[s]));
    SelectStaysCalm(p, d, env, st.outs, ins, joined, id, false, st.account);
    StopInputStaysCalm(p, d, env, st.outs, ins, Selected(p, env, st.outs, ins, joined, id, false), s,
      AfterSelect(p, env, st.outs, ins, joined, id, false, st.account));
  }

  lemma CallStartedStaysCalm(p: Platform, d: Discipline, env: Env, st: Scene, id: int, kind: UsecaseType, s: int,
                             opens: bool)
    requires FitBoard(p, d) && SteadyScene(p, d, st) && s in st.outs && s in d.lanes
    requires CanJoin(st.list, id) && !InCallMusic(id) && (kind.VoiceCall? || kind.PcmHfpCall?)
    ensures StaysCalm(p, d, st, CallStarted(p, env, st, id, kind, s, opens))
  {
    var u := CallUsecase(id, kind, s, st.outs[s]);
    assert Allowed(p, d, s, st.outs[s].devices);
    JoinedSteady(p, d, st.outs, st.ins, st.list, u);
    SelectStaysCalm(p, d, env, st.outs, st.ins, st.list + [u], id, false, st.account);
    var started := Selected(p, env, st.outs, st.ins, st.list + [u], id, false);
    StopCallStaysSteady(p, d, st.outs, st.ins, started, id);
  }

  lemma StopCallStaysSteady(p: Platform, d: Discipline, outs: map<int, StreamOut>, ins: map<int, StreamIn>,
                            list: seq<Usecase>, id: int)
    requires Steady(p, d, outs, ins, list)
    ensures Steady(p, d, outs, ins, StoppedCall(list, id))
  {
    var f := FindUsecase(list, id);
    if f.Some? {
      WithoutSteady(p, d, outs, ins, list, f.value);
    }
  }

  /** Opening a stream, or redirecting one within its lane. */
  lemma ConfigureStaysCalm(p: Platform, d: Discipline, st: Scene, r: Request)
    requires FitBoard(p, d) && SteadyScene(p, d, st) && FitRequest(p, d, r)
    requires r.OpenOutput? || r.OpenInput? || r.SetOutDevices? || r.SetInDevice?
    ensures StaysCalm(p, d, st, Performed(p, st, r))
  {
    match r
    case OpenOutput(_, s, out) => LinkedAfterUpdate(st.list, st.outs, st.outs[s := out], st.ins);
    case OpenInput(_, s, in_) => if s !in st.ins { OpenedWellFormed(st.list, st.outs, st.ins, s, in_); }
    case SetOutDevices(_, s, devices) =>
      if s in st.outs {
        LinkedAfterUpdate(st.list, st.outs, st.outs[s := st.outs[s].(devices := devices)], st.ins);
      }
    case SetInDevice(_, s, device) =>
      if s in st.ins { RedirectedWellFormed(st.list, st.outs, st.ins, s, device); }
  }

  lemma PerformStaysCalm(p: Platform, d: Discipline, st: Scene, r: Request)
    requires FitBoard(p, d) && SteadyScene(p, d, st) && FitRequest(p, d, r)
    ensures StaysCalm(p, d, st, Performed(p, st, r))
  {
    match r
    case StartOutput(env, s, ready, opens, usbReset) =>
      if s in st.outs && CanJoin(st.list, st.outs[s].usecase) {
        OutputStartedStaysCalm(p, d, env, st, s, ready, opens, usbReset);
      }
    case StopOutput(env, s, usbReset) =>
      if s in st.outs {
        StopOutputStaysCalm(p, d, env, st.outs, st.ins, st.list, st.outs[s], usbReset, st.account);
      }
    case StartInput(env, s, id, ready, opens) =>
      if s in st.ins && CanJoin(st.list, id) && !InCallMusic(id) && NotRecording(st.list, s) {
        InputStartedStaysCalm(p, d, env, st, s, id, ready, opens);
      }
    case StopInput(env, s) =>
      if s in st.ins {
        StopInputStaysCalm(p, d, env, st.outs, st.ins, st.list, s, st.account);
      }
    case BeginCall(env, id, hfp, s, opens) =>
      if s in st.outs && CanJoin(st.list, id) && !InCallMusic(id) {
        CallStartedStaysCalm(p, d, env, st, id, if hfp then PcmHfpCall else VoiceCall, s, opens);
      }
    case EndCall(_, id) => StopCallStaysSteady(p, d, st.outs, st.ins, st.list, id);
    case RouteAgain(env, id, force) =>
      SelectStaysCalm(p, d, env, st.outs, st.ins, st.list, id, force, st.account);
    case UpdateVoice(env, s) =>
      if s in st.outs {
        MoveVoicesStaysCalm(p, d, env, st, s, 0);
      }
    case _ => ConfigureStaysCalm(p, d, st, r);
  }

  /** On a fit board, from a steady state, requests that keep their lanes never leave two use cases
    competing: the state stays steady and no routing costs the calm. */
  lemma {:induction false} FitRunStaysCalm(p: Platform, d: Discipline, st: Scene, requests: seq<Request>)
    requires FitBoard(p, d) && SteadyScene(p, d, st) && forall k | 0 <= k < |requests| :: FitRequest(p, d, requests[k])
    ensures StaysCalm(p, d, st, Ran(p, st, requests))
  {
    if requests != [] {
      var n := |requests| - 1;
      FitRunStaysCalm(p, d, st, requests[..n]);
      PerformStaysCalm(p, d, Ran(p, st, requests[..n]), requests[n]);
    }
  }
}
