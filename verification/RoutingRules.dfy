/** The decisions of the audio router as functions of the use case list. */
module RoutingRules {
  import opened DeviceCounts
  import opened Wrappers

  /** An audio_devices_t bit mask, as the set of its one bits. */
  type DeviceMask = set<nat>

  const AUDIO_USECASE_MAX := 34
  const USECASE_AUDIO_SPKR_CALIB_TX := 25
  const USECASE_AUDIO_RECORD_AFE_PROXY := 27
  const USECASE_AUDIO_PLAYBACK_VOIP := 29
  const USECASE_AUDIO_RECORD_VOIP := 30
  const USECASE_INCALL_MUSIC_UPLINK := 31
  const USECASE_INCALL_MUSIC_UPLINK2 := 32

  datatype UsecaseType = PcmPlayback | PcmCapture | VoiceCall | PcmHfpCall

  datatype AudioSource =
    | VoiceCommunication | Camcorder | VoicePerformance | Unprocessed | Mic
    | EchoReference | FmTuner | VoiceRecognition | Hotword | OtherSource

  datatype StreamOut = StreamOut(devices: DeviceMask, usecase: int, offload: bool, a2dpMute: bool)

  datatype StreamIn = StreamIn(device: DeviceMask, usecase: int, source: AudioSource)

  /** `stream` names an entry of the input streams for captures and of the output streams otherwise. */
  datatype Usecase = Usecase(id: int, kind: UsecaseType, devices: DeviceMask,
                             outSnd: SndDevice, inSnd: SndDevice, stream: Option<int>)

  /** What happened so far: `clean` while every device that had to start did, `calm` while no routing left
    two use cases competing for a backend. */
  datatype Course = Course(clean: bool, calm: bool)

  /** How a call affects the course: only a device that fails to start makes it unclean. */
  ghost predicate Followed(env: Env, before: Course, after: Course) {
    && (after.clean ==> before.clean) && (after.calm ==> before.calm)
    && (env.NothingFailsToStart() ==> after.clean == before.clean)
  }

  /** Facts fixed by the board: splitting, which devices stop without an error, backends and the masks and devices with
    a special role. */
  datatype Platform = Platform(
    splitting: Splitting, stops: SndDevice -> bool,
    backendsMatch: (SndDevice, SndDevice) -> bool,
    codecBackend: DeviceMask, usb: DeviceMask, a2dp: DeviceMask, auxDigital: DeviceMask,
    speaker: DeviceMask, speakerSafe: DeviceMask,
    hearingAid: DeviceMask, inVoiceCall: DeviceMask, telephonyTx: DeviceMask,
    sndA2dp: SndDevice, sndSpeakerAndA2dp: SndDevice, sndSpeakerSafeAndA2dp: SndDevice,
    sndSpeaker: SndDevice, sndSpeakerSafe: SndDevice, sndVoiceMusicTx: SndDevice)
  {
    ghost predicate WellFormed() {
      && splitting.Acyclic()
      && (forall d, e :: backendsMatch(d, e) == backendsMatch(e, d))
      && sndA2dp != SND_DEVICE_NONE && sndSpeakerAndA2dp != SND_DEVICE_NONE && sndSpeakerSafeAndA2dp != SND_DEVICE_NONE
    }
  }

  /** What the platform and the rest of the HAL answer during one call; every answer is arbitrary. */
  datatype Env = Env(
    starts: SndDevice -> bool,
    outputFor: DeviceMask -> SndDevice,
    inputFor: (Option<int>, DeviceMask) -> SndDevice,
    backendReconfigured: (int, SndDevice) -> bool,
    a2dpForceSwitch: bool, a2dpReady: bool,
    inCall: bool, inCommunication: bool,
    primaryOutput: Option<int>, primaryStandby: bool,
    hfpUsecase: int)
  {
    ghost predicate NothingFailsToStart() {
      forall d :: starts(d)
    }
  }

  // ---------------------------------------------------------------- the use case list

  ghost predicate DistinctIds(list: seq<Usecase>) {
    forall i, j | 0 <= i < j < |list| :: list[i].id != list[j].id
  }

  /** The stream a use case names exists; captures render nothing and playbacks record nothing. */
  ghost predicate WellLinked(u: Usecase, outs: map<int, StreamOut>, ins: map<int, StreamIn>) {
    && 0 <= u.id < AUDIO_USECASE_MAX
    && u.stream.Some?
    && (if u.kind.PcmCapture? then
          u.stream.value in ins && ins[u.stream.value].usecase == u.id && u.outSnd == SND_DEVICE_NONE
        else
          u.stream.value in outs)
    && (u.kind.PcmPlayback? ==> u.inSnd == SND_DEVICE_NONE)
    && (u.id == USECASE_INCALL_MUSIC_UPLINK || u.id == USECASE_INCALL_MUSIC_UPLINK2 ==> u.kind.PcmPlayback?)
  }

  ghost predicate WellFormedList(list: seq<Usecase>, outs: map<int, StreamOut>, ins: map<int, StreamIn>) {
    && DistinctIds(list)
    && forall k | 0 <= k < |list| :: WellLinked(list[k], outs, ins)
  }

  /** The index of the first use case with this id. */
  function FindUsecase(list: seq<Usecase>, id: int): (k: Option<nat>)
    ensures k.Some? ==> k.value < |list| && list[k.value].id == id
    ensures k.None? ==> forall j | 0 <= j < |list| :: list[j].id != id
  {
    if list == [] then None
    else if list[0].id == id then Some(0)
    else
      match FindUsecase(list[1..], id)
      case None => None
      case Some(j) => Some(j + 1)
  }

  // ---------------------------------------------------------------- who holds which device

  function SndOf(u: Usecase, output: bool): SndDevice {
    if output then u.outSnd else u.inSnd
  }

  ghost function Union(held: seq<multiset<SndDevice>>): multiset<SndDevice> {
    if held == [] then multiset{} else Union(held[..|held| - 1]) + held[|held| - 1]
  }

  /** The devices each use case on the list refers to. */
  ghost function Holding(list: seq<Usecase>): (held: seq<multiset<SndDevice>>)
    ensures |held| == |list|
  {
    seq(|list|, k requires 0 <= k < |list| => multiset{list[k].outSnd, list[k].inSnd})
  }

  /** As `Holding`, but the use case `id` holds `own` while it is being moved. */
  ghost function HoldingExcept(list: seq<Usecase>, id: int, own: multiset<SndDevice>): (held: seq<multiset<SndDevice>>)
    ensures |held| == |list|
  {
    seq(|list|, k requires 0 <= k < |list| =>
      if list[k].id == id then own else multiset{list[k].outSnd, list[k].inSnd})
  }

  lemma {:induction false} UnionUpdate(held: seq<multiset<SndDevice>>, k: nat, m: multiset<SndDevice>)
    requires k < |held|
    ensures Union(held[k := m]) + held[k] == Union(held) + m
    ensures held[k] <= Union(held)
  {
    var n := |held| - 1;
    if k < n {
      UnionUpdate(held[..n], k, m);
      var moved := held[..n][k := m];
      assert held[k := m][..n] == moved && held[k := m][n] == held[n];
      assert Union(moved) + held[n] + held[k] == Union(moved) + held[k] + held[n];
    } else {
      assert held[k := m][..n] == held[..n];
    }
  }

  /** Use case `k` gives up one reference on `d`. */
  lemma UnionDrop(held: seq<multiset<SndDevice>>, k: nat, d: SndDevice)
    requires k < |held| && d in held[k]
    ensures d in Union(held)
    ensures Union(held[k := held[k] - multiset{d}]) == Union(held) - multiset{d}
  {
    UnionUpdate(held, k, held[k] - multiset{d});
    var less := Union(held[k := held[k] - multiset{d}]);
    forall x
      ensures less[x] == (Union(held) - multiset{d})[x]
    {
      assert (less + held[k])[x] == (Union(held) + (held[k] - multiset{d}))[x];
    }
  }

  /** Use case `k` takes one reference on `d`. */
  lemma UnionAdd(held: seq<multiset<SndDevice>>, k: nat, d: SndDevice)
    requires k < |held|
    ensures Union(held[k := held[k] + multiset{d}]) == Union(held) + multiset{d}
  {
    UnionUpdate(held, k, held[k] + multiset{d});
    var more := Union(held[k := held[k] + multiset{d}]);
    forall x
      ensures more[x] == (Union(held) + multiset{d})[x]
    {
      assert (more + held[k])[x] == (Union(held) + (held[k] + multiset{d}))[x];
    }
  }

  // ---------------------------------------------------------------- re-routing other use cases

  function OutDevices(outs: map<int, StreamOut>, u: Usecase): DeviceMask {
    if u.stream.Some? && u.stream.value in outs then outs[u.stream.value].devices else {}
  }

  function InDevice(ins: map<int, StreamIn>, u: Usecase): DeviceMask {
    if u.stream.Some? && u.stream.value in ins then ins[u.stream.value].device else {}
  }

  predicate Overlap(a: DeviceMask, b: DeviceMask) {
    a * b != {}
  }

  /** The device an active use case on `d1` moves to when `d2` is being routed. */
  function DerivePlaybackSndDevice(p: Platform, a1: DeviceMask, a2: DeviceMask, d1: SndDevice,
                                   d2: SndDevice): SndDevice {
    if a1 != a2 && Overlap(a1, a2) then
      match p.splitting.split(if |a1| > 1 then d1 else d2)
      case NoSplit => d2
      case Split(x, y) => if p.backendsMatch(x, y) then d2 else d1
    else if p.backendsMatch(d1, d2) then d2
    else d1
  }

  predicate IsA2dpGroup(p: Platform, d: SndDevice) {
    d == p.sndA2dp || d == p.sndSpeakerAndA2dp || d == p.sndSpeakerSafeAndA2dp
  }

  predicate ForceRouting(p: Platform, env: Env, info: Usecase, d: SndDevice) {
    env.backendReconfigured(info.id, d) || (IsA2dpGroup(p, d) && env.a2dpForceSwitch)
  }

  /** Uses a codec or USB output according to its device mask. */
  predicate OnCodecOrUsb(p: Platform, u: Usecase) {
    Overlap(u.devices, p.codecBackend) || Overlap(u.devices, p.usb)
  }

  predicate SwitchesPlayback(p: Platform, force: bool, info: Usecase, d: SndDevice, u: Usecase) {
    && !u.kind.PcmCapture? && u.id != info.id
    && (force || (u.outSnd != d && OnCodecOrUsb(p, u) && p.backendsMatch(d, u.outSnd)))
  }

  function RoutedPlaybackUsecase(p: Platform, force: bool, outs: map<int, StreamOut>, info: Usecase, d: SndDevice,
                                 u: Usecase): Usecase {
    if SwitchesPlayback(p, force, info, d, u) then
      u.(outSnd := DerivePlaybackSndDevice(p, OutDevices(outs, u), OutDevices(outs, info), u.outSnd, d))
    else u
  }

  /** The list after the other playback use cases made way for `info` on `d`. */
  function RoutedPlayback(p: Platform, force: bool, outs: map<int, StreamOut>, list: seq<Usecase>, info: Usecase,
                          d: SndDevice): (r: seq<Usecase>)
    ensures |r| == |list|
  {
    seq(|list|, k requires 0 <= k < |list| => RoutedPlaybackUsecase(p, force, outs, info, d, list[k]))
  }

  predicate SwitchesCapture(p: Platform, info: Usecase, d: SndDevice, u: Usecase) {
    && !u.kind.PcmPlayback? && u.id != info.id && u.inSnd != d
    && ((info.kind.VoiceCall? && u.devices == p.inVoiceCall) || p.backendsMatch(d, u.inSnd))
    && u.id != USECASE_AUDIO_SPKR_CALIB_TX
  }

  /** The list after the other capture use cases followed `info` to `d`. */
  function RoutedCapture(p: Platform, list: seq<Usecase>, info: Usecase, d: SndDevice): (r: seq<Usecase>)
    ensures |r| == |list|
  {
    seq(|list|, k requires 0 <= k < |list| =>
      if SwitchesCapture(p, info, d, list[k]) then list[k].(inSnd := d) else list[k])
  }

  /** The documented exception: overlapping Android devices whose combo splits onto different backends. */
  predicate SplitsAcrossBackends(p: Platform, a1: DeviceMask, a2: DeviceMask, d1: SndDevice, d2: SndDevice) {
    && a1 != a2 && Overlap(a1, a2)
    && match p.splitting.split(if |a1| > 1 then d1 else d2)
       case NoSplit => false
       case Split(x, y) => !p.backendsMatch(x, y)
  }

  /** A use case on `e` competes with one on `d`: different devices on a shared backend. */
  predicate Competes(p: Platform, d: SndDevice, e: SndDevice) {
    e != d && p.backendsMatch(d, e)
  }

  /** `u` became `v` while `d` was routed for `info`: it still competes exactly if it did before and is
    in the documented exception. */
  predicate MadeWay(p: Platform, outs: map<int, StreamOut>, info: Usecase, d: SndDevice, u: Usecase, v: Usecase) {
    && (v.outSnd == d || v.outSnd == u.outSnd)
    && (Competes(p, d, v.outSnd) <==>
          Competes(p, d, u.outSnd) && SplitsAcrossBackends(p, OutDevices(outs, u), OutDevices(outs, info), u.outSnd, d))
  }

  /** After `d` is routed another codec or USB playback competes with it exactly in the documented
    exception; it is on `d` or kept its own device. */
  lemma RoutedPlaybackMakesWay(p: Platform, force: bool, outs: map<int, StreamOut>, list: seq<Usecase>, info: Usecase,
                               d: SndDevice)
    requires p.WellFormed()
    ensures var r := RoutedPlayback(p, force, outs, list, info, d);
            forall k | 0 <= k < |list| && !list[k].kind.PcmCapture? && list[k].id != info.id
              && OnCodecOrUsb(p, list[k]) ::
              MadeWay(p, outs, info, d, list[k], r[k])
  {
  }

  // ---------------------------------------------------------------- choosing the devices of a use case

  /** `marks`, indexed by use case id, marks the playback use cases below `n` that must move. */
  ghost predicate MarksPlayback(p: Platform, force: bool, info: Usecase, d: SndDevice, list: seq<Usecase>,
                                marks: seq<bool>, n: nat) {
    && |marks| == AUDIO_USECASE_MAX
    && forall j {:trigger list[j]} | 0 <= j < |list| ::
         0 <= list[j].id < AUDIO_USECASE_MAX
           && marks[list[j].id] == (j < n && SwitchesPlayback(p, force, info, d, list[j]))
  }

  ghost predicate MarksCapture(p: Platform, info: Usecase, d: SndDevice, list: seq<Usecase>, marks: seq<bool>, n: nat) {
    && |marks| == AUDIO_USECASE_MAX
    && forall j {:trigger list[j]} | 0 <= j < |list| ::
         0 <= list[j].id < AUDIO_USECASE_MAX && marks[list[j].id] == (j < n && SwitchesCapture(p, info, d, list[j]))
  }

  function Derived(p: Platform, outs: map<int, StreamOut>, info: Usecase, d: SndDevice, u: Usecase): SndDevice {
    DerivePlaybackSndDevice(p, OutDevices(outs, u), OutDevices(outs, info), u.outSnd, d)
  }

  /** Use cases `from` with holdings `rest` became `to` with holdings `held`: the marked ones took
    the device `device` names for them. */
  ghost predicate Took(from: seq<Usecase>, to: seq<Usecase>, rest: seq<multiset<SndDevice>>,
                       held: seq<multiset<SndDevice>>,
                       marks: seq<bool>, output: bool, device: seq<SndDevice>, n: nat)
  {
    && |from| == |to| == |rest| == |held| == |device| && |marks| == AUDIO_USECASE_MAX
    && (forall j {:trigger to[j]} | 0 <= j < |from| :: 0 <= from[j].id < AUDIO_USECASE_MAX &&
          to[j] == if j < n && marks[from[j].id] then WithSnd(from[j], output, device[j]) else from[j])
    && (forall j {:trigger held[j]} | 0 <= j < |from| :: 0 <= from[j].id < AUDIO_USECASE_MAX &&
          held[j] == if j < n && marks[from[j].id] then rest[j] + multiset{device[j]} else rest[j])
  }

  function WithSnd(u: Usecase, output: bool, d: SndDevice): Usecase {
    if output then u.(outSnd := d) else u.(inSnd := d)
  }

  /** The marked use cases no longer hold the device they are about to leave. */
  ghost predicate Left(list: seq<Usecase>, start: seq<multiset<SndDevice>>, rest: seq<multiset<SndDevice>>,
                       marks: seq<bool>, output: bool, n: nat)
  {
    && |list| == |start| == |rest| && |marks| == AUDIO_USECASE_MAX
    && forall j {:trigger rest[j]} | 0 <= j < |list| :: 0 <= list[j].id < AUDIO_USECASE_MAX &&
         rest[j] == if j < n && marks[list[j].id] then start[j] - multiset{SndOf(list[j], output)} else start[j]
  }

  ghost function DerivedDevices(p: Platform, outs: map<int, StreamOut>, info: Usecase, d: SndDevice,
                                list: seq<Usecase>): (r: seq<SndDevice>)
    ensures |r| == |list|
  {
    seq(|list|, k requires 0 <= k < |list| => Derived(p, outs, info, d, list[k]))
  }

  ghost function SameDevice(d: SndDevice, n: nat): (r: seq<SndDevice>)
    ensures |r| == n
  {
    seq(n, _ => d)
  }

  /** Giving up both devices of use case `k` leaves it holding nothing. */
  lemma ReleasedHolding(list: seq<Usecase>, k: nat)
    requires DistinctIds(list) && k < |list|
    ensures var less := Holding(list)[k := Holding(list)[k] - multiset{list[k].outSnd}];
            && list[k].outSnd in Holding(list)[k] && list[k].inSnd in less[k]
            && less[k := less[k] - multiset{list[k].inSnd}] == HoldingExcept(list, list[k].id, multiset{})
  {
    var less := Holding(list)[k := Holding(list)[k] - multiset{list[k].outSnd}];
    assert less[k] == multiset{list[k].inSnd} && less[k] - multiset{list[k].inSnd} == multiset{};
    assert less[k := multiset{}] == Holding(list)[k := multiset{}];
    HoldingOwn(list, k, multiset{});
  }

  /** What one use case holds after it left its device and took another, if it is marked. */
  lemma MovedHolding(u: Usecase, v: Usecase, output: bool, device: SndDevice, marked: bool, moving: bool,
                     own: multiset<SndDevice>,
                     start: multiset<SndDevice>, rest: multiset<SndDevice>, held: multiset<SndDevice>)
    requires start == if moving then own else multiset{u.outSnd, u.inSnd}
    requires marked ==> !moving
    requires v == if marked then WithSnd(u, output, device) else u
    requires rest == if marked then start - multiset{SndOf(u, output)} else start
    requires held == if marked then rest + multiset{device} else rest
    ensures held == if moving then own else multiset{v.outSnd, v.inSnd}
  {
  }

  /** Leaving and taking over all use cases is the playback re-routing, holdings included. */
  lemma PlaybackMoved(p: Platform, force: bool, outs: map<int, StreamOut>, info: Usecase, d: SndDevice,
                      from: seq<Usecase>, to: seq<Usecase>, rest: seq<multiset<SndDevice>>,
                        held: seq<multiset<SndDevice>>,
                      marks: seq<bool>, own: multiset<SndDevice>)
    requires MarksPlayback(p, force, info, d, from, marks, |from|)
    requires Left(from, HoldingExcept(from, info.id, own), rest, marks, true, |from|)
    requires Took(from, to, rest, held, marks, true, DerivedDevices(p, outs, info, d, from), |from|)
    ensures to == RoutedPlayback(p, force, outs, from, info, d)
    ensures held == HoldingExcept(to, info.id, own)
  {
    var target := RoutedPlayback(p, force, outs, from, info, d);
    var start, devices := HoldingExcept(from, info.id, own), DerivedDevices(p, outs, info, d, from);
    forall j | 0 <= j < |from|
      ensures to[j] == target[j] && held[j] == HoldingExcept(to, info.id, own)[j]
    {
      assert 0 <= from[j].id < AUDIO_USECASE_MAX && to[j].id == from[j].id;
      MovedHolding(from[j], to[j], true, devices[j], marks[from[j].id], from[j].id == info.id, own, start[j], rest[j],
        held[j]);
    }
  }

  /** Every marked use case holds `d` in addition. */
  ghost predicate TookDevice(list: seq<Usecase>, rest: seq<multiset<SndDevice>>, held: seq<multiset<SndDevice>>,
                             marks: seq<bool>, d: SndDevice, n: nat)
  {
    && |list| == |rest| == |held| && |marks| == AUDIO_USECASE_MAX
    && forall j {:trigger held[j]} | 0 <= j < |list| :: 0 <= list[j].id < AUDIO_USECASE_MAX &&
         held[j] == if j < n && marks[list[j].id] then rest[j] + multiset{d} else rest[j]
  }

  /** Every marked use case records `d` as its input. */
  ghost predicate TookInput(from: seq<Usecase>, to: seq<Usecase>, marks: seq<bool>, d: SndDevice, n: nat) {
    && |from| == |to| && |marks| == AUDIO_USECASE_MAX
    && forall j {:trigger to[j]} | 0 <= j < |from| :: 0 <= from[j].id < AUDIO_USECASE_MAX &&
         to[j] == if j < n && marks[from[j].id] then from[j].(inSnd := d) else from[j]
  }

  lemma TookDeviceAndInput(from: seq<Usecase>, to: seq<Usecase>, rest: seq<multiset<SndDevice>>,
                           held: seq<multiset<SndDevice>>,
                           marks: seq<bool>, d: SndDevice)
    requires TookDevice(from, rest, held, marks, d, |from|) && TookInput(from, to, marks, d, |from|)
    ensures Took(from, to, rest, held, marks, false, SameDevice(d, |from|), |from|)
  {
    var devices := SameDevice(d, |from|);
    forall j | 0 <= j < |from|
      ensures 0 <= from[j].id < AUDIO_USECASE_MAX && devices[j] == d
      ensures to[j] == if marks[from[j].id] then WithSnd(from[j], false, devices[j]) else from[j]
      ensures held[j] == if marks[from[j].id] then rest[j] + multiset{devices[j]} else rest[j]
    {
      assert to[j] == to[j] && held[j] == held[j];
    }
  }

  lemma CaptureMoved(p: Platform, info: Usecase, d: SndDevice,
                     from: seq<Usecase>, to: seq<Usecase>, rest: seq<multiset<SndDevice>>,
                       held: seq<multiset<SndDevice>>,
                     marks: seq<bool>, own: multiset<SndDevice>)
    requires MarksCapture(p, info, d, from, marks, |from|)
    requires Left(from, HoldingExcept(from, info.id, own), rest, marks, false, |from|)
    requires Took(from, to, rest, held, marks, false, SameDevice(d, |from|), |from|)
    ensures to == RoutedCapture(p, from, info, d)
    ensures held == HoldingExcept(to, info.id, own)
  {
    var target := RoutedCapture(p, from, info, d);
    var start, devices := HoldingExcept(from, info.id, own), SameDevice(d, |from|);
    forall j | 0 <= j < |from|
      ensures to[j] == target[j] && held[j] == HoldingExcept(to, info.id, own)[j]
    {
      assert 0 <= from[j].id < AUDIO_USECASE_MAX && to[j].id == from[j].id;
      MovedHolding(from[j], to[j], false, devices[j], marks[from[j].id], from[j].id == info.id, own, start[j], rest[j],
        held[j]);
    }
  }

  /** The last capture on the list that has a stream. */
  function ActiveInput(list: seq<Usecase>): (s: Option<int>) {
    if list == [] then None
    else
      var u := list[|list| - 1];
      if u.kind.PcmCapture? && u.stream.Some? then u.stream else ActiveInput(list[..|list| - 1])
  }

  function SourceOf(ins: map<int, StreamIn>, u: Usecase): AudioSource {
    if u.stream.Some? && u.stream.value in ins then ins[u.stream.value].source else OtherSource
  }

  function VoiceCommunicationInput(env: Env, ins: map<int, StreamIn>, list: seq<Usecase>,
                                   all: seq<Usecase>): (s: Option<int>) {
    if list == [] then (if env.inCommunication then ActiveInput(all) else None)
    else if list[0].kind.PcmCapture? && list[0].stream.Some?
      && SourceOf(ins, list[0]).VoiceCommunication? then list[0].stream
    else VoiceCommunicationInput(env, ins, list[1..], all)
  }

  function SourcePriority(source: AudioSource): nat {
    match source
    case VoiceCommunication => 9
    case Camcorder => 8
    case VoicePerformance => 7
    case Unprocessed => 6
    case Mic => 5
    case EchoReference => 4
    case FmTuner => 3
    case VoiceRecognition => 2
    case Hotword => 1
    case OtherSource => 0
  }

  function PriorityOf(ins: map<int, StreamIn>, u: Usecase): nat {
    if u.kind.PcmCapture? && u.stream.Some? then SourcePriority(SourceOf(ins, u)) else 0
  }

  function MaxPriority(ins: map<int, StreamIn>, list: seq<Usecase>): nat {
    if list == [] then 0
    else
      var m := MaxPriority(ins, list[..|list| - 1]);
      var q := PriorityOf(ins, list[|list| - 1]);
      if q > m then q else m
  }

  /** The capture stream whose source has the highest priority, the first one among equals. */
  function PriorityInput(ins: map<int, StreamIn>, list: seq<Usecase>): Option<int> {
    if list == [] then None
    else
      var front, u := list[..|list| - 1], list[|list| - 1];
      if PriorityOf(ins, u) > MaxPriority(ins, front) then u.stream else PriorityInput(ins, front)
  }

  /** The first of the captures with the highest priority, unless no source on the list has a rank. */
  ghost predicate IsBestInput(ins: map<int, StreamIn>, list: seq<Usecase>, s: Option<int>, k: nat) {
    && k < |list| && list[k].kind.PcmCapture? && list[k].stream == s && PriorityOf(ins, list[k]) > 0
    && (forall j {:trigger list[j]} | 0 <= j < |list| :: PriorityOf(ins, list[j]) <= PriorityOf(ins, list[k]))
    && (forall j {:trigger list[j]} | 0 <= j < k :: PriorityOf(ins, list[j]) < PriorityOf(ins, list[k]))
  }

  lemma {:induction false} MaxPriorityIsMax(ins: map<int, StreamIn>, list: seq<Usecase>)
    ensures forall j {:trigger list[j]} | 0 <= j < |list| :: PriorityOf(ins, list[j]) <= MaxPriority(ins, list)
    ensures MaxPriority(ins, list) > 0 ==> PriorityInput(ins, list).Some?
    ensures MaxPriority(ins, list) == 0 ==> PriorityInput(ins, list).None?
  {
    if list != [] {
      var front := list[..|list| - 1];
      MaxPriorityIsMax(ins, front);
      forall j | 0 <= j < |list|
        ensures PriorityOf(ins, list[j]) <= MaxPriority(ins, list)
      {
        assert j < |front| ==> list[j] == front[j];
      }
    }
  }

  /** The input that sets the device is the first of the highest rank; there is none exactly when no
    capture has a rank. */
  lemma {:induction false} PriorityInputIsBest(ins: map<int, StreamIn>, list: seq<Usecase>) returns (k: nat)
    ensures PriorityInput(ins, list).Some? ==>
            IsBestInput(ins, list, PriorityInput(ins, list), k) && PriorityOf(ins, list[k]) == MaxPriority(ins, list)
    ensures PriorityInput(ins, list).None? <==>
            forall j {:trigger list[j]} | 0 <= j < |list| :: PriorityOf(ins, list[j]) == 0
  {
    k := 0;
    MaxPriorityIsMax(ins, list);
    if list != [] {
      var n := |list| - 1;
      var front := list[..n];
      k := PriorityInputIsBest(ins, front);
      MaxPriorityIsMax(ins, front);
      if PriorityOf(ins, list[n]) > MaxPriority(ins, front) {
        k := n;
      }
      forall j | 0 <= j < n
        ensures list[j] == front[j]
      {
      }
    }
  }

  function FirstVoiceCall(list: seq<Usecase>): (u: Option<Usecase>) {
    if list == [] then None
    else if list[0].kind.VoiceCall? then Some(list[0])
    else FirstVoiceCall(list[1..])
  }

  function UsecaseWithId(list: seq<Usecase>, id: int): Option<Usecase> {
    match FindUsecase(list, id)
    case None => None
    case Some(k) => Some(list[k])
  }

  /** The devices a playback or capture inherits from an active voice or hands-free call. */
  function Inherited(p: Platform, env: Env, list: seq<Usecase>, u: Usecase): (r: (SndDevice, SndDevice)) {
    if env.inCall then
      match FirstVoiceCall(list)
      case None => (SND_DEVICE_NONE, SND_DEVICE_NONE)
      case Some(vc) =>
        if Overlap(vc.devices, p.codecBackend) || vc.devices == p.hearingAid || u.devices == p.inVoiceCall
        then (vc.outSnd, vc.inSnd)
        else (SND_DEVICE_NONE, SND_DEVICE_NONE)
    else
      match UsecaseWithId(list, env.hfpUsecase)
      case None => (SND_DEVICE_NONE, SND_DEVICE_NONE)
      case Some(hfp) =>
        if Overlap(hfp.devices, p.codecBackend) then (hfp.outSnd, hfp.inSnd) else (SND_DEVICE_NONE, SND_DEVICE_NONE)
  }

  /** What select_devices decides before it touches a device; `voipIn` is a capture to route first. */
  datatype Choice = Choice(outSnd: SndDevice, inSnd: SndDevice, devices: DeviceMask, voipIn: Option<int>)

  function ChooseDevices(p: Platform, env: Env, outs: map<int, StreamOut>, ins: map<int, StreamIn>,
                         list: seq<Usecase>, u: Usecase): Choice
  {
    var inherited := Inherited(p, env, list, u);
    var voip := UsecaseWithId(list, USECASE_AUDIO_PLAYBACK_VOIP);
    var voipIn := VoiceCommunicationInput(env, ins, list, list);
    match u.kind
    case VoiceCall => ChooseForCall(env, OutDevices(outs, u))
    case PcmHfpCall => ChooseForCall(env, OutDevices(outs, u))
    case PcmPlayback =>
      var mask := OutDevices(outs, u);
      if inherited.0 != SND_DEVICE_NONE then Choice(inherited.0, SND_DEVICE_NONE, mask, None)
      else
        var voipOut := if voip.Some? then voip.value.stream else env.primaryOutput;
        Choice(env.outputFor(mask), SND_DEVICE_NONE, mask,
               if u.stream == voipOut && voipIn.Some? && voipIn.value in ins then Some(ins[voipIn.value].usecase)
                 else None)
    case PcmCapture =>
      var mask := InDevice(ins, u);
      if inherited.1 != SND_DEVICE_NONE then Choice(SND_DEVICE_NONE, inherited.1, mask, None)
      else if voipIn.Some? then
        var outDevice :=
          if u.id == USECASE_AUDIO_RECORD_AFE_PROXY then p.telephonyTx
          else if voip.Some? then OutDevices(outs, voip.value)
          else if env.primaryOutput.Some? && env.primaryOutput.value in outs
            && !env.primaryStandby then outs[env.primaryOutput.value].devices
          else p.speaker;
        Choice(SND_DEVICE_NONE, env.inputFor(voipIn, outDevice), mask, None)
      else
        var best := PriorityInput(ins, list);
        Choice(SND_DEVICE_NONE, env.inputFor(if best.Some? then best else u.stream, {}), mask, None)
  }

  function ChooseForCall(env: Env, mask: DeviceMask): Choice {
    Choice(env.outputFor(mask), env.inputFor(None, mask), mask, None)
  }

  predicate ForceDeviceSwitch(p: Platform, env: Env, outs: map<int, StreamOut>, u: Usecase) {
    !u.kind.PcmCapture? && Overlap(OutDevices(outs, u), p.a2dp) && env.a2dpForceSwitch
  }

  /** The output finally used: speaker only while A2DP is not ready, the TX device for in-call music. */
  function FinalOutput(p: Platform, env: Env, id: int, d: SndDevice): SndDevice {
    if id == USECASE_INCALL_MUSIC_UPLINK || id == USECASE_INCALL_MUSIC_UPLINK2 then p.sndVoiceMusicTx
    else if d == p.sndSpeakerSafeAndA2dp && !env.a2dpReady then p.sndSpeakerSafe
    else if d == p.sndSpeakerAndA2dp && !env.a2dpReady then p.sndSpeaker
    else d
  }

  predicate RoutesPlayback(p: Platform, u: Usecase, d: SndDevice) {
    d != SND_DEVICE_NONE && (OnCodecOrUsb(p, u) || Overlap(u.devices, p.a2dp))
  }

  predicate KeepsDevices(p: Platform, env: Env, outs: map<int, StreamOut>, u: Usecase, c: Choice, force: bool) {
    || (c.outSnd == u.outSnd && c.inSnd == u.inSnd && !ForceDeviceSwitch(p, env, outs, u) && !force)
    || (c.outSnd == p.sndA2dp && !env.a2dpReady)
  }

  /** The list after use case `k` was moved to the devices of `c`. */
  function Switched(p: Platform, env: Env, outs: map<int, StreamOut>, list: seq<Usecase>, k: nat, c: Choice,
                    force: bool): (r: seq<Usecase>)
    requires k < |list|
    ensures |r| == |list|
  {
    var u := list[k];
    if KeepsDevices(p, env, outs, u, c, force) then list
    else
      var out := FinalOutput(p, env, u.id, c.outSnd);
      var l1 := if RoutesPlayback(p, u, out) then RoutedPlayback(p, ForceRouting(p, env, u, out), outs, list, u, out)
        else list;
      var l2 := if c.inSnd != SND_DEVICE_NONE then RoutedCapture(p, l1, u, c.inSnd) else l1;
      l2[k := l2[k].(outSnd := out, inSnd := c.inSnd)]
  }

  /** The list after select_devices for a capture, which routes no other use case first. */
  function SelectedOne(p: Platform, env: Env, outs: map<int, StreamOut>, ins: map<int, StreamIn>,
                       list: seq<Usecase>, id: int, force: bool): (r: seq<Usecase>)
    ensures |r| == |list|
  {
    match FindUsecase(list, id)
    case None => list
    case Some(k) =>
      var c := ChooseDevices(p, env, outs, ins, list, list[k]);
      Switched(p, env, outs, list[k := list[k].(devices := c.devices)], k, c, force)
  }

  /** The list after select_devices. */
  function Selected(p: Platform, env: Env, outs: map<int, StreamOut>, ins: map<int, StreamIn>,
                    list: seq<Usecase>, id: int, force: bool): (r: seq<Usecase>)
    ensures |r| == |list|
  {
    match FindUsecase(list, id)
    case None => list
    case Some(k) =>
      var c := ChooseDevices(p, env, outs, ins, list, list[k]);
      var l1 := list[k := list[k].(devices := c.devices)];
      var l2 := if c.voipIn.Some? then SelectedOne(p, env, outs, ins, l1, c.voipIn.value, false) else l1;
      Switched(p, env, outs, l2, k, c, force)
  }

  // ---------------------------------------------------------------- what routing keeps

  lemma {:induction false} SameFind(a: seq<Usecase>, b: seq<Usecase>, id: int)
    requires |a| == |b| && forall j | 0 <= j < |a| :: a[j].id == b[j].id
    ensures FindUsecase(a, id) == FindUsecase(b, id)
  {
    if a != [] && a[0].id != id {
      SameFind(a[1..], b[1..], id);
    }
  }

  lemma RoutedPlaybackWellFormed(p: Platform, force: bool, outs: map<int, StreamOut>, ins: map<int, StreamIn>,
                                 list: seq<Usecase>, info: Usecase, d: SndDevice)
    requires WellFormedList(list, outs, ins)
    ensures WellFormedList(RoutedPlayback(p, force, outs, list, info, d), outs, ins)
  {
    var r := RoutedPlayback(p, force, outs, list, info, d);
    forall k | 0 <= k < |list|
      ensures WellLinked(r[k], outs, ins) && r[k].id == list[k].id
    {
      assert WellLinked(list[k], outs, ins);
    }
  }

  lemma RoutedCaptureWellFormed(p: Platform, outs: map<int, StreamOut>, ins: map<int, StreamIn>,
                                list: seq<Usecase>, info: Usecase, d: SndDevice)
    requires WellFormedList(list, outs, ins)
    ensures WellFormedList(RoutedCapture(p, list, info, d), outs, ins)
  {
    var r := RoutedCapture(p, list, info, d);
    forall k | 0 <= k < |list|
      ensures WellLinked(r[k], outs, ins) && r[k].id == list[k].id
    {
      assert WellLinked(list[k], outs, ins);
    }
  }

  /** Changing a use case in place keeps the list well formed. */
  lemma ReplaceWellFormed(outs: map<int, StreamOut>, ins: map<int, StreamIn>, list: seq<Usecase>, k: nat, u: Usecase)
    requires WellFormedList(list, outs, ins) && k < |list| && u.id == list[k].id && WellLinked(u, outs, ins)
    ensures WellFormedList(list[k := u], outs, ins)
  {
  }

  lemma HoldingOwn(list: seq<Usecase>, k: nat, own: multiset<SndDevice>)
    requires DistinctIds(list) && k < |list|
    ensures Holding(list)[k := own] == HoldingExcept(list, list[k].id, own)
    ensures own == multiset{list[k].outSnd, list[k].inSnd} ==> Holding(list) == HoldingExcept(list, list[k].id, own)
  {
    forall j | 0 <= j < |list|
      ensures Holding(list)[k := own][j] == HoldingExcept(list, list[k].id, own)[j]
    {
      assert j != k ==> list[j].id != list[k].id;
    }
  }

  lemma {:induction false} VoiceCommunicationInputIsCapture(env: Env, ins: map<int, StreamIn>, list: seq<Usecase>,
                                                            all: seq<Usecase>)
    requires VoiceCommunicationInput(env, ins, list, all).Some?
    ensures var s := VoiceCommunicationInput(env, ins, list, all);
            exists u :: (u in list || u in all) && u.kind.PcmCapture? && u.stream == s
  {
    if list == [] {
      ActiveInputIsCapture(all);
    } else if !(list[0].kind.PcmCapture? && list[0].stream.Some? && SourceOf(ins, list[0]).VoiceCommunication?) {
      VoiceCommunicationInputIsCapture(env, ins, list[1..], all);
    } else {
      assert list[0] in list;
    }
  }

  lemma {:induction false} ActiveInputIsCapture(list: seq<Usecase>)
    requires ActiveInput(list).Some?
    ensures exists u :: u in list && u.kind.PcmCapture? && u.stream == ActiveInput(list)
  {
    var u := list[|list| - 1];
    if u.kind.PcmCapture? && u.stream.Some? {
      assert u in list;
    } else {
      ActiveInputIsCapture(list[..|list| - 1]);
    }
  }

  /** The use case routed ahead of a playback is a capture on the list, so routing it ends. */
  lemma VoipInputIsCapture(p: Platform, env: Env, outs: map<int, StreamOut>, ins: map<int, StreamIn>,
                           list: seq<Usecase>, u: Usecase)
    requires WellFormedList(list, outs, ins)
    requires ChooseDevices(p, env, outs, ins, list, u).voipIn.Some?
    ensures u.kind.PcmPlayback?
    ensures var k := FindUsecase(list, ChooseDevices(p, env, outs, ins, list, u).voipIn.value);
            k.Some? && list[k.value].kind.PcmCapture?
  {
    VoiceCommunicationInputIsCapture(env, ins, list, list);
    var s := VoiceCommunicationInput(env, ins, list, list);
    var v :| v in list && v.kind.PcmCapture? && v.stream == s;
    var j :| 0 <= j < |list| && list[j] == v;
    assert WellLinked(list[j], outs, ins);
  }

  /** Captures get no output and playbacks no input. */
  lemma ChoiceFits(p: Platform, env: Env, outs: map<int, StreamOut>, ins: map<int, StreamIn>, list: seq<Usecase>,
                   u: Usecase)
    ensures var c := ChooseDevices(p, env, outs, ins, list, u);
            && (u.kind.PcmCapture? ==> c.outSnd == SND_DEVICE_NONE)
            && (u.kind.PcmPlayback? ==> c.inSnd == SND_DEVICE_NONE)
            && (c.voipIn.Some? ==> u.kind.PcmPlayback?)
  {
  }

  /** A capture is selected without routing another use case first. */
  lemma SelectedCapture(p: Platform, env: Env, outs: map<int, StreamOut>, ins: map<int, StreamIn>, list: seq<Usecase>,
                        id: int, force: bool)
    requires FindUsecase(list, id).Some? ==> list[FindUsecase(list, id).value].kind.PcmCapture?
    ensures Selected(p, env, outs, ins, list, id, force) == SelectedOne(p, env, outs, ins, list, id, force)
  {
  }

  lemma SelectedOneKeepsOthers(p: Platform, env: Env, outs: map<int, StreamOut>, ins: map<int, StreamIn>,
                               list: seq<Usecase>, id: int, force: bool, k: nat)
    requires p.WellFormed() && WellFormedList(list, outs, ins) && k < |list| && list[k].kind.PcmPlayback?
    requires var f := FindUsecase(list, id); f.Some? && list[f.value].kind.PcmCapture?
    ensures SelectedOne(p, env, outs, ins, list, id, force)[k] == list[k]
  {
    var j := FindUsecase(list, id).value;
    assert WellLinked(list[j], outs, ins);
  }

  /** Once use case `k` moved to an output that is checked against the others, another codec or USB
    playback competes for its backend exactly in the documented exception. */
  lemma SwitchedMakesWay(p: Platform, env: Env, outs: map<int, StreamOut>, list: seq<Usecase>, k: nat, c: Choice,
                         force: bool)
    requires p.WellFormed() && DistinctIds(list) && k < |list|
    requires !KeepsDevices(p, env, outs, list[k], c, force)
    requires RoutesPlayback(p, list[k], FinalOutput(p, env, list[k].id, c.outSnd))
    ensures var r := Switched(p, env, outs, list, k, c, force);
            && r[k].outSnd == FinalOutput(p, env, list[k].id, c.outSnd)
            && forall j | 0 <= j < |list| && j != k && !list[j].kind.PcmCapture? && OnCodecOrUsb(p, list[j]) ::
                 MadeWay(p, outs, list[k], r[k].outSnd, list[j], r[j])
  {
    var u, out := list[k], FinalOutput(p, env, list[k].id, c.outSnd);
    var l1 := RoutedPlayback(p, ForceRouting(p, env, u, out), outs, list, u, out);
    RoutedPlaybackMakesWay(p, ForceRouting(p, env, u, out), outs, list, u, out);
    var r := Switched(p, env, outs, list, k, c, force);
    forall j | 0 <= j < |list| && j != k && !list[j].kind.PcmCapture? && OnCodecOrUsb(p, list[j])
      ensures MadeWay(p, outs, u, r[k].outSnd, list[j], r[j])
    {
      assert list[j].id != u.id;
      assert r[j].outSnd == l1[j].outSnd && r[j].stream == l1[j].stream;
    }
  }

  /** Agreement of two use cases in all but the input and, for captures, the requested devices. */
  predicate SameOutput(u: Usecase, v: Usecase) {
    u.id == v.id && u.kind == v.kind && u.stream == v.stream && u.outSnd == v.outSnd
      && (u.kind.PcmCapture? || u.devices == v.devices)
  }

  /** Selecting devices for a capture moves no output. */
  lemma SelectedOneKeepsOutputs(p: Platform, env: Env, outs: map<int, StreamOut>, ins: map<int, StreamIn>,
                                list: seq<Usecase>, id: int, force: bool)
    requires p.WellFormed() && WellFormedList(list, outs, ins)
    requires var f := FindUsecase(list, id); f.Some? && list[f.value].kind.PcmCapture?
    ensures var r := SelectedOne(p, env, outs, ins, list, id, force); forall j | 0 <= j < |list| ::
            SameOutput(r[j], list[j])
  {
    var k := FindUsecase(list, id).value;
    assert WellLinked(list[k], outs, ins);
    var c := ChooseDevices(p, env, outs, ins, list, list[k]);
    var l1 := list[k := list[k].(devices := c.devices)];
    SwitchedCaptureKeepsOutputs(p, env, outs, l1, k, c, force);
    var r := Switched(p, env, outs, l1, k, c, force);
    forall j | 0 <= j < |list|
      ensures SameOutput(r[j], list[j])
    {
      assert SameOutput(r[j], l1[j]) && SameOutput(l1[j], list[j]);
    }
  }

  lemma SwitchedCaptureKeepsOutputs(p: Platform, env: Env, outs: map<int, StreamOut>, list: seq<Usecase>, k: nat,
                                    c: Choice, force: bool)
    requires k < |list| && list[k].outSnd == SND_DEVICE_NONE
             && FinalOutput(p, env, list[k].id, c.outSnd) == SND_DEVICE_NONE
    ensures var r := Switched(p, env, outs, list, k, c, force); forall j | 0 <= j < |list| :: SameOutput(r[j], list[j])
  {
  }

  /** After select_devices moved a use case to an output that is checked against the others, the
    voice communication input routed ahead of it included, another codec or USB playback on the list
    competes with it exactly in the documented exception, whatever the list and the platform's answers. */
  lemma SelectedMakesWay(p: Platform, env: Env, outs: map<int, StreamOut>, ins: map<int, StreamIn>, list: seq<Usecase>,
                         id: int, force: bool)
    requires p.WellFormed() && WellFormedList(list, outs, ins) && FindUsecase(list, id).Some?
    requires var u := list[FindUsecase(list, id).value];
             var c := ChooseDevices(p, env, outs, ins, list, u);
             && !KeepsDevices(p, env, outs, u, c, force)
             && RoutesPlayback(p, u.(devices := c.devices), FinalOutput(p, env, id, c.outSnd))
    ensures var r, k := Selected(p, env, outs, ins, list, id, force), FindUsecase(list, id).value;
            && r[k].outSnd == FinalOutput(p, env, id, ChooseDevices(p, env, outs, ins, list, list[k]).outSnd)
            && forall j | 0 <= j < |list| && j != k && !list[j].kind.PcmCapture? && OnCodecOrUsb(p, list[j]) ::
                 MadeWay(p, outs, list[k], r[k].outSnd, list[j], r[j])
  {
    var k := FindUsecase(list, id).value;
    var c := ChooseDevices(p, env, outs, ins, list, list[k]);
    var l1 := list[k := list[k].(devices := c.devices)];
    assert WellLinked(list[k], outs, ins);
    ReplaceWellFormed(outs, ins, list, k, l1[k]);
    if c.voipIn.Some? {
      VoipInputIsCapture(p, env, outs, ins, list, list[k]);
      SameFind(list, l1, c.voipIn.value);
      MakesWayAfterVoip(p, env, outs, ins, l1, k, c, force);
    } else {
      SwitchedMakesWay(p, env, outs, l1, k, c, force);
    }
  }

  lemma MakesWayAfterVoip(p: Platform, env: Env, outs: map<int, StreamOut>, ins: map<int, StreamIn>,
                          list: seq<Usecase>, k: nat, c: Choice, force: bool)
    requires p.WellFormed() && WellFormedList(list, outs, ins) && k < |list| && list[k].kind.PcmPlayback?
             && c.voipIn.Some?
    requires var f := FindUsecase(list, c.voipIn.value); f.Some? && list[f.value].kind.PcmCapture?
    requires !KeepsDevices(p, env, outs, list[k], c, force)
    requires RoutesPlayback(p, list[k], FinalOutput(p, env, list[k].id, c.outSnd))
    ensures var r := Switched(p, env, outs, SelectedOne(p, env, outs, ins, list, c.voipIn.value, false), k, c, force);
            && r[k].outSnd == FinalOutput(p, env, list[k].id, c.outSnd)
            && forall j | 0 <= j < |list| && j != k && !list[j].kind.PcmCapture? && OnCodecOrUsb(p, list[j]) ::
                 MadeWay(p, outs, list[k], r[k].outSnd, list[j], r[j])
  {
    SelectedOneKeepsOthers(p, env, outs, ins, list, c.voipIn.value, false, k);
    SelectedOneKeepsOutputs(p, env, outs, ins, list, c.voipIn.value, false);
    var l2 := SelectedOne(p, env, outs, ins, list, c.voipIn.value, false);
    assert forall j | 0 <= j < |list| :: l2[j].id == list[j].id;
    SwitchedMakesWay(p, env, outs, l2, k, c, force);
    forall j | 0 <= j < |list| && j != k && !list[j].kind.PcmCapture? && OnCodecOrUsb(p, list[j])
      ensures !l2[j].kind.PcmCapture? && OnCodecOrUsb(p, l2[j]) && l2[j].outSnd == list[j].outSnd
              && l2[j].stream == list[j].stream
    {
      assert SameOutput(l2[j], list[j]);
    }
  }

  /** After select_devices gave use case `k` an input, every other recording or call is on that input or
    off its backend; only speaker calibration keeps its own. */
  lemma SwitchedInputsFollow(p: Platform, env: Env, outs: map<int, StreamOut>, ins: map<int, StreamIn>,
                             list: seq<Usecase>, k: nat, c: Choice, force: bool)
    requires p.WellFormed() && WellFormedList(list, outs, ins) && k < |list|
    requires !KeepsDevices(p, env, outs, list[k], c, force) && c.inSnd != SND_DEVICE_NONE
    ensures var r := Switched(p, env, outs, list, k, c, force);
            && r[k].inSnd == c.inSnd
            && forall j | 0 <= j < |list| && j != k && !list[j].kind.PcmPlayback?
              && list[j].id != USECASE_AUDIO_SPKR_CALIB_TX ::
                 r[j].inSnd == c.inSnd || (!p.backendsMatch(c.inSnd, r[j].inSnd) && r[j].inSnd == list[j].inSnd)
  {
    var u, out := list[k], FinalOutput(p, env, list[k].id, c.outSnd);
    var l1 := if RoutesPlayback(p, u, out) then RoutedPlayback(p, ForceRouting(p, env, u, out), outs, list, u, out)
      else list;
    var r := Switched(p, env, outs, list, k, c, force);
    forall j | 0 <= j < |list| && j != k && !list[j].kind.PcmPlayback? && list[j].id != USECASE_AUDIO_SPKR_CALIB_TX
      ensures r[j].inSnd == c.inSnd || (!p.backendsMatch(c.inSnd, r[j].inSnd) && r[j].inSnd == list[j].inSnd)
    {
      assert list[j].id != u.id;
      assert l1[j].inSnd == list[j].inSnd && l1[j].kind == list[j].kind && l1[j].id == list[j].id;
      assert r[j] == RoutedCapture(p, l1, u, c.inSnd)[j];
    }
  }

  // ---------------------------------------------------------------- joining and leaving the list

  function Ids(list: seq<Usecase>): (ids: seq<int>)
    ensures |ids| == |list|
  {
    seq(|list|, k requires 0 <= k < |list| => list[k].id)
  }

  function Without(list: seq<Usecase>, k: nat): seq<Usecase>
    requires k < |list|
  {
    list[..k] + list[k + 1..]
  }

  lemma SwitchedKeepsIds(p: Platform, env: Env, outs: map<int, StreamOut>, list: seq<Usecase>, k: nat, c: Choice,
                         force: bool)
    requires k < |list|
    ensures Ids(Switched(p, env, outs, list, k, c, force)) == Ids(list)
  {
    var r := Switched(p, env, outs, list, k, c, force);
    forall j | 0 <= j < |list|
      ensures r[j].id == list[j].id
    {
    }
  }

  lemma SelectedOneKeepsIds(p: Platform, env: Env, outs: map<int, StreamOut>, ins: map<int, StreamIn>,
                            list: seq<Usecase>, id: int, force: bool)
    ensures Ids(SelectedOne(p, env, outs, ins, list, id, force)) == Ids(list)
  {
    var f := FindUsecase(list, id);
    if f.Some? {
      var k := f.value;
      var c := ChooseDevices(p, env, outs, ins, list, list[k]);
      var l1 := list[k := list[k].(devices := c.devices)];
      SwitchedKeepsIds(p, env, outs, l1, k, c, force);
      assert Ids(l1) == Ids(list);
    }
  }

  /** Routing changes devices, never the membership or the order of use cases. */
  lemma SelectedKeepsIds(p: Platform, env: Env, outs: map<int, StreamOut>, ins: map<int, StreamIn>, list: seq<Usecase>,
                         id: int, force: bool)
    ensures Ids(Selected(p, env, outs, ins, list, id, force)) == Ids(list)
  {
    var f := FindUsecase(list, id);
    if f.Some? {
      var k := f.value;
      var c := ChooseDevices(p, env, outs, ins, list, list[k]);
      var l1 := list[k := list[k].(devices := c.devices)];
      assert Ids(l1) == Ids(list);
      if c.voipIn.Some? {
        SelectedOneKeepsIds(p, env, outs, ins, l1, c.voipIn.value, false);
        SwitchedKeepsIds(p, env, outs, SelectedOne(p, env, outs, ins, l1, c.voipIn.value, false), k, c, force);
      } else {
        SwitchedKeepsIds(p, env, outs, l1, k, c, force);
      }
    }
  }

  lemma {:induction false} UnionRemove(held: seq<multiset<SndDevice>>, k: nat)
    requires k < |held|
    ensures Union(held[..k] + held[k + 1..]) + held[k] == Union(held)
  {
    var n := |held| - 1;
    var rest := held[..k] + held[k + 1..];
    if k < n {
      var front := held[..n];
      UnionRemove(front, k);
      var less := front[..k] + front[k + 1..];
      assert rest[..n - 1] == less && rest[n - 1] == held[n];
      assert Union(less) + held[n] + held[k] == Union(less) + held[k] + held[n];
    } else {
      assert rest == held[..n];
    }
  }

  lemma HoldingOfWithout(list: seq<Usecase>, k: nat, own: multiset<SndDevice>)
    requires k < |list|
    ensures var held := Holding(list)[k := own]; Holding(Without(list, k)) == held[..k] + held[k + 1..]
  {
    var held := Holding(list)[k := own];
    var rest := held[..k] + held[k + 1..];
    forall j | 0 <= j < |rest|
      ensures Holding(Without(list, k))[j] == rest[j]
    {
      assert Without(list, k)[j] == list[if j < k then j else j + 1];
    }
  }

  /** Once use case `k` holds nothing it can leave the list without touching the holdings. */
  lemma HoldingWithout(list: seq<Usecase>, k: nat)
    requires DistinctIds(list) && k < |list|
    ensures Union(Holding(Without(list, k))) == Union(HoldingExcept(list, list[k].id, multiset{}))
  {
    HoldingOwn(list, k, multiset{});
    HoldingOfWithout(list, k, multiset{});
    UnionRemove(Holding(list)[k := multiset{}], k);
  }

  /** A use case joins the list holding only the placeholder device. */
  lemma HoldingJoined(s: Splitting, counts: seq<int>, list: seq<Usecase>, u: Usecase)
    requires u.outSnd == u.inSnd == SND_DEVICE_NONE
    ensures s.Conserved(counts, Union(Holding(list))) ==> s.Conserved(counts, Union(Holding(list + [u])))
  {
    var h := Holding(list + [u]);
    assert h[..|list|] == Holding(list);
    assert Union(h) == Union(Holding(list)) + multiset{u.outSnd, u.inSnd};
  }

  lemma WithoutWellFormed(outs: map<int, StreamOut>, ins: map<int, StreamIn>, list: seq<Usecase>, k: nat)
    requires WellFormedList(list, outs, ins) && k < |list|
    ensures WellFormedList(Without(list, k), outs, ins)
  {
  }

  lemma JoinedWellFormed(outs: map<int, StreamOut>, ins: map<int, StreamIn>, list: seq<Usecase>, u: Usecase)
    requires WellFormedList(list, outs, ins) && WellLinked(u, outs, ins) && FindUsecase(list, u.id).None?
    ensures WellFormedList(list + [u], outs, ins)
  {
  }

  function PlaybackUsecase(s: int, out: StreamOut): Usecase {
    Usecase(out.usecase, PcmPlayback, out.devices, SND_DEVICE_NONE, SND_DEVICE_NONE, Some(s))
  }

  lemma LinkedAfterUpdate(list: seq<Usecase>, before: map<int, StreamOut>, after: map<int, StreamOut>,
                          ins: map<int, StreamIn>)
    requires WellFormedList(list, before, ins) && before.Keys <= after.Keys
    ensures WellFormedList(list, after, ins)
  {
    forall k | 0 <= k < |list|
      ensures WellLinked(list[k], after, ins)
    {
      assert WellLinked(list[k], before, ins);
    }
  }

  /** A use case that joined last is the one found by its id, and leaving undoes the joining. */
  lemma LastFound(before: seq<Usecase>, list: seq<Usecase>, id: int)
    requires Ids(list) == Ids(before) + [id] && FindUsecase(before, id).None?
    ensures FindUsecase(list, id) == Some(|before|)
    ensures Ids(Without(list, |before|)) == Ids(before)
  {
    var n := |before|;
    assert |list| == n + 1 && Ids(list)[n] == id;
    forall j | 0 <= j < n
      ensures list[j].id == before[j].id
    {
      assert list[j].id == Ids(list)[j] == Ids(before)[j];
    }
    LastIndex(list, id);
    assert Without(list, n) == list[..n];
  }

  lemma {:induction false} LastIndex(list: seq<Usecase>, id: int)
    requires list != [] && list[|list| - 1].id == id && forall j | 0 <= j < |list| - 1 :: list[j].id != id
    ensures FindUsecase(list, id) == Some(|list| - 1)
  {
    if |list| > 1 {
      LastIndex(list[1..], id);
    }
  }

  lemma ReplacedIds(list: seq<Usecase>, k: nat, u: Usecase)
    requires k < |list| && u.id == list[k].id
    ensures Ids(list[k := u]) == Ids(list)
  {
  }

  lemma JoinedIds(list: seq<Usecase>, u: Usecase)
    ensures Ids(list + [u]) == Ids(list) + [u.id]
  {
  }

  lemma RoutedPlaybackKeepsIds(p: Platform, force: bool, outs: map<int, StreamOut>, list: seq<Usecase>, info: Usecase,
                               d: SndDevice)
    ensures Ids(RoutedPlayback(p, force, outs, list, info, d)) == Ids(list)
  {
  }

  lemma HoldingOffList(list: seq<Usecase>, id: int)
    requires forall j | 0 <= j < |list| :: list[j].id != id
    ensures Holding(list) == HoldingExcept(list, id, multiset{})
  {
  }

  lemma RoutedOffList(p: Platform, force: bool, outs: map<int, StreamOut>, list: seq<Usecase>, info: Usecase,
                      d: SndDevice)
    requires forall j | 0 <= j < |list| :: list[j].id != info.id
    ensures var r := RoutedPlayback(p, force, outs, list, info, d); Holding(r) == HoldingExcept(r, info.id, multiset{})
  {
    var r := RoutedPlayback(p, force, outs, list, info, d);
    HoldingOffList(r, info.id);
  }

  lemma NotOnList(list: seq<Usecase>, k: nat)
    requires DistinctIds(list) && k < |list|
    ensures forall j | 0 <= j < |list| - 1 :: Without(list, k)[j].id != list[k].id
  {
    forall j | 0 <= j < |list| - 1
      ensures Without(list, k)[j].id != list[k].id
    {
      assert Without(list, k)[j] == list[if j < k then j else j + 1];
    }
  }

  function CaptureUsecase(s: int, in_: StreamIn): Usecase {
    Usecase(in_.usecase, PcmCapture, in_.device, SND_DEVICE_NONE, SND_DEVICE_NONE, Some(s))
  }

  function CallUsecase(id: int, kind: UsecaseType, s: int, out: StreamOut): Usecase {
    Usecase(id, kind, out.devices, SND_DEVICE_NONE, SND_DEVICE_NONE, Some(s))
  }

  lemma RenamedWellFormed(list: seq<Usecase>, outs: map<int, StreamOut>, ins: map<int, StreamIn>, s: int, id: int)
    requires WellFormedList(list, outs, ins) && s in ins
    requires forall k | 0 <= k < |list| && list[k].kind.PcmCapture? :: list[k].stream != Some(s)
    ensures WellFormedList(list, outs, ins[s := ins[s].(usecase := id)])
  {
    forall k | 0 <= k < |list|
      ensures WellLinked(list[k], outs, ins[s := ins[s].(usecase := id)])
    {
      assert WellLinked(list[k], outs, ins);
    }
  }

  lemma RedirectedWellFormed(list: seq<Usecase>, outs: map<int, StreamOut>, ins: map<int, StreamIn>, s: int,
                             device: DeviceMask)
    requires WellFormedList(list, outs, ins) && s in ins
    ensures WellFormedList(list, outs, ins[s := ins[s].(device := device)])
  {
    forall k | 0 <= k < |list|
      ensures WellLinked(list[k], outs, ins[s := ins[s].(device := device)])
    {
      assert WellLinked(list[k], outs, ins);
    }
  }

  lemma OpenedWellFormed(list: seq<Usecase>, outs: map<int, StreamOut>, ins: map<int, StreamIn>, s: int, in_: StreamIn)
    requires WellFormedList(list, outs, ins) && s !in ins
    ensures WellFormedList(list, outs, ins[s := in_])
  {
    forall k | 0 <= k < |list|
      ensures WellLinked(list[k], outs, ins[s := in_])
    {
      assert WellLinked(list[k], outs, ins);
    }
  }

  /** A request of the framework, with the answers the platform gives while it is served. */
  datatype Request =
    | OpenOutput(env: Env, s: int, out: StreamOut)
    | OpenInput(env: Env, s: int, in_: StreamIn)
    | SetOutDevices(env: Env, s: int, devices: DeviceMask)
    | SetInDevice(env: Env, s: int, device: DeviceMask)
    | StartOutput(env: Env, s: int, ready: bool, opens: bool, usbReset: bool)
    | StopOutput(env: Env, s: int, usbReset: bool)
    | StartInput(env: Env, s: int, id: int, ready: bool, opens: bool)
    | StopInput(env: Env, s: int)
    | BeginCall(env: Env, id: int, hfp: bool, s: int, opens: bool)
    | EndCall(env: Env, id: int)
    | RouteAgain(env: Env, id: int, force: bool)
    | UpdateVoice(env: Env, s: int)

  // ---------------------------------------------------------------- what starting and stopping do to the list

  /** The list after routing the use case at index `i` again, unless it is a capture other than VOIP. */
  function ReroutedOne(p: Platform, env: Env, outs: map<int, StreamOut>, ins: map<int, StreamIn>, list: seq<Usecase>,
                       i: nat): (r: seq<Usecase>)
    requires i < |list|
    ensures |r| == |list|
  {
    var u := list[i];
    if u.kind.PcmCapture? && u.id != USECASE_AUDIO_RECORD_VOIP then list
      else Selected(p, env, outs, ins, list, u.id, false)
  }

  /** The list after the input with the highest priority took over the input device. */
  function HandedOver(p: Platform, env: Env, outs: map<int, StreamOut>, ins: map<int, StreamIn>,
                      list: seq<Usecase>): (r: seq<Usecase>)
    ensures |r| == |list|
  {
    var next := PriorityInput(ins, list);
    if next.Some? && next.value in ins then Selected(p, env, outs, ins, list, ins[next.value].usecase, false) else list
  }

  /** The list after the use case of an input stream was stopped: if the stream set the input device,
    the one with the highest priority among the rest does now. */
  function StoppedInput(p: Platform, env: Env, outs: map<int, StreamOut>, ins: map<int, StreamIn>, list: seq<Usecase>,
                        s: int): seq<Usecase>
    requires s in ins
  {
    match FindUsecase(list, ins[s].usecase)
    case None => list
    case Some(k) => if PriorityInput(ins, list) == Some(s) then HandedOver(p, env, outs, ins, Without(list, k))
      else Without(list, k)
  }

  lemma StoppedInputIds(p: Platform, env: Env, outs: map<int, StreamOut>, ins: map<int, StreamIn>, list: seq<Usecase>,
                        s: int)
    requires s in ins
    ensures Ids(StoppedInput(p, env, outs, ins, list, s)) == match FindUsecase(list, ins[s].usecase)
                                                             case None => Ids(list)
                                                             case Some(k) => Ids(Without(list, k))
  {
    var f := FindUsecase(list, ins[s].usecase);
    if f.Some? {
      var rest := Without(list, f.value);
      var next := PriorityInput(ins, rest);
      if next.Some? && next.value in ins {
        SelectedKeepsIds(p, env, outs, ins, rest, ins[next.value].usecase, false);
      }
    }
  }

  /** The list after a call was stopped. */
  function StoppedCall(list: seq<Usecase>, id: int): seq<Usecase> {
    match FindUsecase(list, id)
    case None => list
    case Some(k) => Without(list, k)
  }

  /** The list after routing the use cases from index `i` on again, but captures other than VOIP. */
  function ReroutedFrom(p: Platform, env: Env, outs: map<int, StreamOut>, ins: map<int, StreamIn>, list: seq<Usecase>,
                        i: nat): (r: seq<Usecase>)
    ensures |r| == |list|
    decreases |list| - i
  {
    if i >= |list| then list
    else
      ReroutedFrom(p, env, outs, ins, ReroutedOne(p, env, outs, ins, list, i), i + 1)
  }

  /** The list after moving the use case at index `i`, if it is a voice call, to output stream `s`. */
  function VoiceMovedOne(p: Platform, env: Env, outs: map<int, StreamOut>, ins: map<int, StreamIn>, list: seq<Usecase>,
                         s: int, i: nat): (r: seq<Usecase>)
    requires i < |list|
    ensures |r| == |list|
  {
    if list[i].kind.VoiceCall? then
      Selected(p, env, outs, ins, list[i := list[i].(stream := Some(s))], list[i].id, false)
    else list
  }

  /** The list after moving the voice calls from index `i` on to output stream `s`. */
  function VoiceMovedFrom(p: Platform, env: Env, outs: map<int, StreamOut>, ins: map<int, StreamIn>,
                          list: seq<Usecase>, s: int, i: nat): (r: seq<Usecase>)
    ensures |r| == |list|
    decreases |list| - i
  {
    if i >= |list| then list
    else
      VoiceMovedFrom(p, env, outs, ins, VoiceMovedOne(p, env, outs, ins, list, s, i), s, i + 1)
  }

  predicate ResetsUsb(p: Platform, out: StreamOut, usbReset: bool) {
    !Overlap(out.devices, p.auxDigital) && Overlap(out.devices, p.usb) && usbReset
  }

  /** The list after the use case of an output stream was stopped. */
  function StoppedOutput(p: Platform, env: Env, outs: map<int, StreamOut>, ins: map<int, StreamIn>,
                         list: seq<Usecase>, out: StreamOut, usbReset: bool): seq<Usecase>
  {
    match FindUsecase(list, out.usecase)
    case None => list
    case Some(k) =>
      var u, l1 := list[k], Without(list, k);
      var l2 := if ResetsUsb(p, out, usbReset) then
        RoutedPlayback(p, ForceRouting(p, env, u, u.outSnd), outs, l1, u, u.outSnd) else l1;
      if out.usecase == USECASE_AUDIO_PLAYBACK_VOIP || Overlap(out.devices, p.speakerSafe) then
        ReroutedFrom(p, env, outs, ins, l2, 0) else l2
  }

  /** A playback on A2DP alone is not started before A2DP is ready, unless it is offloaded. */
  predicate RefusedForA2dp(p: Platform, env: Env, out: StreamOut) {
    Overlap(out.devices, p.a2dp) && !env.a2dpReady && !Overlap(out.devices, p.speaker + p.speakerSafe) && !out.offload
  }

  /** The devices a stream pretends to be on while it waits for A2DP, None if it is not routed at all. */
  function DevicesWhileStarting(p: Platform, env: Env, out: StreamOut): Option<DeviceMask> {
    if !Overlap(out.devices, p.a2dp) || env.a2dpReady then Some(out.devices)
    else if Overlap(out.devices, p.speaker + p.speakerSafe) then
      Some(if Overlap(out.devices, p.speakerSafe) then p.speakerSafe else p.speaker)
    else if out.offload && !out.a2dpMute then Some(p.speaker)
    else None
  }

  /** The streams after starting: an offloaded playback waiting for A2DP is muted. */
  function MutedWhileStarting(p: Platform, env: Env, outs: map<int, StreamOut>, s: int): (r: map<int, StreamOut>)
    requires s in outs
    ensures r.Keys == outs.Keys && r[s].(a2dpMute := outs[s].a2dpMute) == outs[s]
  {
    if Overlap(outs[s].devices, p.a2dp) && !env.a2dpReady && !Overlap(outs[s].devices, p.speaker + p.speakerSafe)
      && outs[s].offload
    then outs[s := outs[s].(a2dpMute := true)]
    else outs
  }

  lemma PretenceUndone(outs: map<int, StreamOut>, s: int, devices: DeviceMask)
    requires s in outs
    ensures var pretended := outs[s := outs[s].(devices := devices)];
            pretended[s := pretended[s].(devices := outs[s].devices)] == outs
  {
  }

  /** The list after stream `s` was routed as if it were on `devices`, if on any. */
  function RoutedAsOn(p: Platform, env: Env, outs: map<int, StreamOut>, ins: map<int, StreamIn>, list: seq<Usecase>,
                      s: int,
                      devices: Option<DeviceMask>): seq<Usecase>
    requires s in outs
  {
    match devices
    case None => list
    case Some(mask) => Selected(p, env, outs[s := outs[s].(devices := mask)], ins, list, outs[s].usecase, false)
  }

  /** The list after the playback of output stream `s`, last on the list, was routed. */
  function StartedOutput(p: Platform, env: Env, outs: map<int, StreamOut>, ins: map<int, StreamIn>, list: seq<Usecase>,
                         s: int): seq<Usecase>
    requires s in outs
  {
    RoutedAsOn(p, env, outs, ins, list, s, DevicesWhileStarting(p, env, outs[s]))
  }
}
