/** Routing of use cases to sound devices: the use case list, the device reference counts and
  the procedures that move use cases between devices. */
module AudioRouting {
  import opened DeviceCounts
  import opened RoutingAnswers
  import opened RoutingConflicts
  import opened RoutingCourse
  import opened RoutingRequests
  import opened RoutingRules
  import opened RoutingSteady
  import opened Wrappers

  class AudioDevice {
    const platform: Platform
    const sndDevRefCnt: array<int>
    var usecaseList: seq<Usecase>
    var outStreams: map<int, StreamOut>
    var inStreams: map<int, StreamIn>
    ghost var course: Course

    /** While every device that had to start did, the counts obey the law. */
    ghost predicate Counts(held: multiset<SndDevice>)
      reads this, sndDevRefCnt
    {
      && sndDevRefCnt.Length == platform.splitting.sndDeviceMax
      && (course.clean ==> platform.splitting.Conserved(sndDevRefCnt[..], held))
    }

    /** While no routing left two use cases competing, none do. */
    ghost predicate Calm()
      reads this
    {
      course.calm ==> Settled(platform, usecaseList)
    }

    /** The state every procedure keeps: linked streams, distinct ids and the conservation law. */
    ghost predicate Valid()
      reads this, sndDevRefCnt
    {
      && platform.WellFormed()
      && WellFormedList(usecaseList, outStreams, inStreams)
      && Counts(Union(Holding(usecaseList)))
    }

    /** The reference counts and the course so far. */
    ghost function Now(): (a: Account)
      reads this, sndDevRefCnt
    {
      Account(sndDevRefCnt[..], course)
    }

    /** The whole state. */
    ghost function Here(): (st: Scene)
      reads this, sndDevRefCnt
    {
      Scene(outStreams, inStreams, usecaseList, Now())
    }

    constructor (p: Platform)
      requires p.WellFormed()
      ensures platform == p && usecaseList == [] && outStreams == map[] && inStreams == map[]
      ensures fresh(sndDevRefCnt) && Valid() && Calm() && course == Course(true, true)
    {
      platform := p;
      sndDevRefCnt := new int[p.splitting.sndDeviceMax](_ => 0);
      usecaseList, outStreams, inStreams, course := [], map[], map[], Course(true, true);
      new;
      ZeroCountsConserved(p.splitting, sndDevRefCnt[..]);
    }

    /** Takes a reference on `d`; the first reference starts it or enables its parts. */
    method EnableSndDevice(starts: SndDevice -> bool, d: SndDevice) returns (ok: bool)
      requires platform.WellFormed() && sndDevRefCnt.Length == platform.splitting.sndDeviceMax
      modifies sndDevRefCnt
      ensures sndDevRefCnt[..] == Enabled(platform.splitting, starts, old(sndDevRefCnt[..]), d)
      ensures ok <==> platform.splitting.Device(d) && sndDevRefCnt[d] == old(sndDevRefCnt[d]) + 1
      decreases platform.splitting.splitRank(d)
    {
      if d < SND_DEVICE_MIN || d >= platform.splitting.sndDeviceMax {
        return false;
      }
      ok := true;
      if sndDevRefCnt[d] < 1 {
        match platform.splitting.split(d)
        case NoSplit =>
          if !starts(d) {
            return false;
          }
        case Split(a, b) =>
          assert a in platform.splitting.split(d).Parts() && b in platform.splitting.split(d).Parts();
          var _ := EnableSndDevice(starts, a);
          var _ := EnableSndDevice(starts, b);
      }
      sndDevRefCnt[d] := sndDevRefCnt[d] + 1;
    }

    /** Gives back a reference on `d`; the last one disables its parts. */
    method DisableSndDevice(d: SndDevice) returns (ok: bool)
      requires platform.WellFormed() && sndDevRefCnt.Length == platform.splitting.sndDeviceMax
      modifies sndDevRefCnt
      ensures sndDevRefCnt[..] == Disabled(platform.splitting, old(sndDevRefCnt[..]), d)
      ensures ok <==> platform.splitting.Device(d) && old(sndDevRefCnt[d]) > 0
                      && (old(sndDevRefCnt[d]) > 1 || platform.splitting.split(d).Split? || platform.stops(d))
      decreases platform.splitting.splitRank(d)
    {
      if d < SND_DEVICE_MIN || d >= platform.splitting.sndDeviceMax {
        return false;
      }
      if sndDevRefCnt[d] <= 0 {
        return false;
      }
      sndDevRefCnt[d] := sndDevRefCnt[d] - 1;
      if sndDevRefCnt[d] == 0 {
        match platform.splitting.split(d)
        case NoSplit =>
          if !platform.stops(d) {
            return false;
          }
        case Split(a, b) =>
          assert a in platform.splitting.split(d).Parts() && b in platform.splitting.split(d).Parts();
          var _ := DisableSndDevice(a);
          var _ := DisableSndDevice(b);
      }
      ok := true;
    }

    /** Enables `d`, noting whether a device that has to start fails. */
    method EnableOne(env: Env, d: SndDevice)
      requires platform.WellFormed() && Now().Fits(platform)
      modifies this`course, sndDevRefCnt
      ensures Now() == AfterEnable(platform, env, d, old(Now()))
    {
      course := course.(clean := course.clean && platform.splitting.StartsCleanly(sndDevRefCnt[..], env.starts, d));
      var _ := EnableSndDevice(env.starts, d);
    }

    /** Enables `d` on behalf of use case `k`: the law is kept exactly when nothing it starts fails. */
    method EnableFor(env: Env, d: SndDevice, k: nat, ghost held: seq<multiset<SndDevice>>)
      requires platform.WellFormed()
      requires k < |held| && Counts(Union(held))
      modifies this`course, sndDevRefCnt
      ensures Counts(Union(held[k := held[k] + multiset{d}]))
      ensures sndDevRefCnt[..] == Enabled(platform.splitting, env.starts, old(sndDevRefCnt[..]), d)
      ensures course
              == old(course).(clean := old(course).clean
                && platform.splitting.StartsCleanly(old(sndDevRefCnt[..]), env.starts, d))
      ensures Now() == AfterEnable(platform, env, d, old(Now()))
      ensures Followed(env, old(course), course)
    {
      EnableKeeps(platform, env, d, Now(), held, k);
      EnableFollows(platform, env, d, Now());
      EnableOne(env, d);
    }

    method DisableFor(d: SndDevice, k: nat, ghost held: seq<multiset<SndDevice>>)
      requires platform.WellFormed()
      requires k < |held| && d in held[k] && Counts(Union(held))
      modifies sndDevRefCnt
      ensures Counts(Union(held[k := held[k] - multiset{d}]))
      ensures Now() == AfterDisable(platform, d, old(Now()))
    {
      UnionDrop(held, k, d);
      if course.clean {
        DisableConserves(platform.splitting, sndDevRefCnt[..], Union(held), d);
      }
      var _ := DisableSndDevice(d);
    }

    /** Disables the output (or input) device of every marked use case. */
    method DisableSwitched(switchDevice: seq<bool>, output: bool, ghost start: seq<multiset<SndDevice>>)
      returns (ghost rest: seq<multiset<SndDevice>>)
      requires platform.WellFormed() && |switchDevice| == AUDIO_USECASE_MAX
      requires forall j | 0 <= j < |usecaseList| :: 0 <= usecaseList[j].id < AUDIO_USECASE_MAX
      requires |start| == |usecaseList| && Counts(Union(start))
      requires forall j | 0 <= j < |start| && switchDevice[usecaseList[j].id] ::
               SndOf(usecaseList[j], output) in start[j]
      modifies sndDevRefCnt
      ensures Left(usecaseList, start, rest, switchDevice, output, |usecaseList|) && Counts(Union(rest))
      ensures Now() == AfterDisables(platform, Marked(usecaseList, switchDevice, SndsOf(usecaseList, output)), 0,
                                     old(Now()))
    {
      DisableMarked(switchDevice, output);
      ghost var leaves := Marked(usecaseList, switchDevice, SndsOf(usecaseList, output));
      rest := Dropped(start, leaves, 0);
      DisablesKeep(platform, leaves, 0, old(Now()), start);
      MarkedLeft(usecaseList, start, switchDevice, output);
    }

    method DisableMarked(switchDevice: seq<bool>, output: bool)
      requires platform.WellFormed() && Now().Fits(platform) && |switchDevice| == AUDIO_USECASE_MAX
      requires forall j | 0 <= j < |usecaseList| :: 0 <= usecaseList[j].id < AUDIO_USECASE_MAX
      modifies sndDevRefCnt
      ensures Now() == AfterDisables(platform, Marked(usecaseList, switchDevice, SndsOf(usecaseList, output)), 0,
                                     old(Now()))
    {
      ghost var leaves := Marked(usecaseList, switchDevice, SndsOf(usecaseList, output));
      ghost var target := AfterDisables(platform, leaves, 0, Now());
      for i := 0 to |usecaseList|
        invariant AfterDisables(platform, leaves, i, Now()) == target
      {
        if switchDevice[usecaseList[i].id] {
          var _ := DisableSndDevice(SndOf(usecaseList[i], output));
        }
      }
    }

    /** Moves every marked use case to the output device derived for it. */
    method EnableDerived(env: Env, info: Usecase, d: SndDevice, switchDevice: seq<bool>,
                         ghost rest: seq<multiset<SndDevice>>)
      returns (ghost held: seq<multiset<SndDevice>>)
      requires platform.WellFormed() && |switchDevice| == AUDIO_USECASE_MAX
      requires forall j | 0 <= j < |usecaseList| :: 0 <= usecaseList[j].id < AUDIO_USECASE_MAX
      requires |rest| == |usecaseList| && Counts(Union(rest))
      modifies this`course, this`usecaseList, sndDevRefCnt
      ensures Counts(Union(held))
      ensures Took(old(usecaseList), usecaseList, rest, held, switchDevice, true,
                   DerivedDevices(platform, outStreams, info, d, old(usecaseList)), |rest|)
      ensures Followed(env, old(course), course) && course.calm == old(course).calm
      ensures Now() == AfterEnables(platform, env, Marked(old(usecaseList), switchDevice,
                         DerivedDevices(platform, outStreams, info, d, old(usecaseList))), 0, old(Now()))
    {
      ghost var list := usecaseList;
      ghost var devices := DerivedDevices(platform, outStreams, info, d, list);
      ghost var takes := Marked(list, switchDevice, devices);
      TakeDerived(env, info, d, switchDevice);
      held := Added(rest, takes, 0);
      EnablesKeep(platform, env, takes, 0, old(Now()), rest);
      EnablesFollow(platform, env, takes, 0, old(Now()));
      MarkedTook(list, usecaseList, rest, switchDevice, devices);
    }

    method TakeDerived(env: Env, info: Usecase, d: SndDevice, switchDevice: seq<bool>)
      requires platform.WellFormed() && Now().Fits(platform) && |switchDevice| == AUDIO_USECASE_MAX
      requires forall j | 0 <= j < |usecaseList| :: 0 <= usecaseList[j].id < AUDIO_USECASE_MAX
      modifies this`course, this`usecaseList, sndDevRefCnt
      ensures var takes := Marked(old(usecaseList), switchDevice,
                                  DerivedDevices(platform, outStreams, info, d, old(usecaseList)));
              && TookOutputs(old(usecaseList), usecaseList, takes, |takes|)
              && Now() == AfterEnables(platform, env, takes, 0, old(Now()))
    {
      ghost var list := usecaseList;
      ghost var takes := Marked(list, switchDevice, DerivedDevices(platform, outStreams, info, d, list));
      ghost var target := AfterEnables(platform, env, takes, 0, Now());
      for i := 0 to |usecaseList|
        invariant TookOutputs(list, usecaseList, takes, i) && Now().Fits(platform)
        invariant AfterEnables(platform, env, takes, i, Now()) == target
      {
        var u := usecaseList[i];
        assert u == list[i];
        if switchDevice[u.id] {
          var device := Derived(platform, outStreams, info, d, u);
          EnableOne(env, device);
          usecaseList := usecaseList[i := u.(outSnd := device)];
        }
      }
    }

    /** Moves every other playback use case that stands in the way of `info` on `d`. */
    method CheckAndRoutePlaybackUsecases(env: Env, info: Usecase, d: SndDevice, ghost own: multiset<SndDevice>)
      requires platform.WellFormed()
      requires WellFormedList(usecaseList, outStreams, inStreams)
      requires Counts(Union(HoldingExcept(usecaseList, info.id, own)))
      modifies this`course, this`usecaseList, sndDevRefCnt
      ensures usecaseList
              == RoutedPlayback(platform, ForceRouting(platform, env, info, d), outStreams, old(usecaseList), info, d)
      ensures Counts(Union(HoldingExcept(usecaseList, info.id, own)))
      ensures Followed(env, old(course), course) && course.calm == old(course).calm
      ensures Now() == AfterPlayback(platform, env, ForceRouting(platform, env, info, d), outStreams,
                                     old(usecaseList), info, d, old(Now()))
    {
      var force := ForceRouting(platform, env, info, d);
      var switchDevice, toSwitch := MarkPlayback(force, info, d);
      if toSwitch == 0 {
        NobodyMoves(platform, env, force, outStreams, usecaseList, info, d, Now());
        return;
      }
      MovePlaybacks(env, force, info, d, switchDevice, own);
    }

    /** Marked use cases leave their outputs and take those derived for them. */
    method MovePlaybacks(env: Env, ghost force: bool, info: Usecase, d: SndDevice, switchDevice: seq<bool>,
                         ghost own: multiset<SndDevice>)
      requires platform.WellFormed()
      requires MarksPlayback(platform, force, info, d, usecaseList, switchDevice, |usecaseList|)
      requires Counts(Union(HoldingExcept(usecaseList, info.id, own)))
      modifies this`course, this`usecaseList, sndDevRefCnt
      ensures usecaseList == RoutedPlayback(platform, force, outStreams, old(usecaseList), info, d)
      ensures Counts(Union(HoldingExcept(usecaseList, info.id, own)))
      ensures Followed(env, old(course), course) && course.calm == old(course).calm
      ensures Now() == AfterPlayback(platform, env, force, outStreams, old(usecaseList), info, d, old(Now()))
    {
      ghost var list := usecaseList;
      MarkedHold(list, info, d, force, switchDevice, own);
      ghost var rest := DisableSwitched(switchDevice, true, HoldingExcept(list, info.id, own));
      ghost var held := EnableDerived(env, info, d, switchDevice, rest);
      MarkedPlayback(platform, force, outStreams, list, info, d, switchDevice);
      PlaybackMoved(platform, force, outStreams, info, d, list, usecaseList, rest, held, switchDevice, own);
    }

    /** Marked use cases hold the output they are about to leave. */
    lemma MarkedHold(list: seq<Usecase>, info: Usecase, d: SndDevice, force: bool, marks: seq<bool>,
                     own: multiset<SndDevice>)
      requires MarksPlayback(platform, force, info, d, list, marks, |list|)
      ensures forall j | 0 <= j < |list| :: 0 <= list[j].id < AUDIO_USECASE_MAX
      ensures forall j | 0 <= j < |list| && marks[list[j].id] ::
                SndOf(list[j], true) in HoldingExcept(list, info.id, own)[j]
    {
      forall j | 0 <= j < |list|
        ensures 0 <= list[j].id < AUDIO_USECASE_MAX
        ensures marks[list[j].id] ==> SndOf(list[j], true) in HoldingExcept(list, info.id, own)[j]
      {
        assert list[j] == list[j];
      }
    }

    method MarkPlayback(force: bool, info: Usecase, d: SndDevice) returns (switchDevice: seq<bool>, toSwitch: nat)
      requires WellFormedList(usecaseList, outStreams, inStreams)
      ensures MarksPlayback(platform, force, info, d, usecaseList, switchDevice, |usecaseList|)
      ensures toSwitch == 0 ==>
              forall j | 0 <= j < |usecaseList| :: !SwitchesPlayback(platform, force, info, d, usecaseList[j])
    {
      switchDevice := seq(AUDIO_USECASE_MAX, _ => false);
      toSwitch := 0;
      for i := 0 to |usecaseList|
        invariant MarksPlayback(platform, force, info, d, usecaseList, switchDevice, i)
        invariant toSwitch == 0 ==> forall j | 0 <= j < i :: !SwitchesPlayback(platform, force, info, d, usecaseList[j])
      {
        if SwitchesPlayback(platform, force, info, d, usecaseList[i]) {
          switchDevice := switchDevice[usecaseList[i].id := true];
          toSwitch := toSwitch + 1;
        }
      }
    }

    method MarkCapture(info: Usecase, d: SndDevice) returns (switchDevice: seq<bool>, toSwitch: nat)
      requires WellFormedList(usecaseList, outStreams, inStreams)
      ensures MarksCapture(platform, info, d, usecaseList, switchDevice, |usecaseList|)
      ensures toSwitch == 0 ==> forall j | 0 <= j < |usecaseList| :: !SwitchesCapture(platform, info, d, usecaseList[j])
    {
      switchDevice := seq(AUDIO_USECASE_MAX, _ => false);
      toSwitch := 0;
      for i := 0 to |usecaseList|
        invariant MarksCapture(platform, info, d, usecaseList, switchDevice, i)
        invariant toSwitch == 0 ==> forall j | 0 <= j < i :: !SwitchesCapture(platform, info, d, usecaseList[j])
      {
        if SwitchesCapture(platform, info, d, usecaseList[i]) {
          switchDevice := switchDevice[usecaseList[i].id := true];
          toSwitch := toSwitch + 1;
        }
      }
    }

    /** Enables `d` once for every marked use case. */
    method EnableSwitched(env: Env, d: SndDevice, switchDevice: seq<bool>, ghost rest: seq<multiset<SndDevice>>)
      returns (ghost held: seq<multiset<SndDevice>>)
      requires platform.WellFormed() && |switchDevice| == AUDIO_USECASE_MAX
      requires forall j | 0 <= j < |usecaseList| :: 0 <= usecaseList[j].id < AUDIO_USECASE_MAX
      requires |rest| == |usecaseList| && Counts(Union(rest))
      modifies this`course, sndDevRefCnt
      ensures Counts(Union(held)) && TookDevice(usecaseList, rest, held, switchDevice, d, |usecaseList|)
      ensures Followed(env, old(course), course) && course.calm == old(course).calm
      ensures Now() == AfterEnables(platform, env, Marked(usecaseList, switchDevice, SameDevice(d, |rest|)), 0,
                                    old(Now()))
    {
      EnableMarked(env, d, switchDevice);
      ghost var takes := Marked(usecaseList, switchDevice, SameDevice(d, |rest|));
      held := Added(rest, takes, 0);
      EnablesKeep(platform, env, takes, 0, old(Now()), rest);
      EnablesFollow(platform, env, takes, 0, old(Now()));
      MarkedTookDevice(usecaseList, rest, switchDevice, d);
    }

    method EnableMarked(env: Env, d: SndDevice, switchDevice: seq<bool>)
      requires platform.WellFormed() && Now().Fits(platform) && |switchDevice| == AUDIO_USECASE_MAX
      requires forall j | 0 <= j < |usecaseList| :: 0 <= usecaseList[j].id < AUDIO_USECASE_MAX
      modifies this`course, sndDevRefCnt
      ensures Now() == AfterEnables(platform, env, Marked(usecaseList, switchDevice, SameDevice(d, |usecaseList|)), 0,
                                    old(Now()))
    {
      ghost var takes := Marked(usecaseList, switchDevice, SameDevice(d, |usecaseList|));
      ghost var target := AfterEnables(platform, env, takes, 0, Now());
      for i := 0 to |usecaseList|
        invariant Now().Fits(platform) && AfterEnables(platform, env, takes, i, Now()) == target
      {
        if switchDevice[usecaseList[i].id] {
          EnableOne(env, d);
        }
      }
    }

    /** Records `d` as the input of every marked use case. */
    method UpdateInputs(d: SndDevice, switchDevice: seq<bool>)
      requires |switchDevice| == AUDIO_USECASE_MAX
      requires forall j | 0 <= j < |usecaseList| :: 0 <= usecaseList[j].id < AUDIO_USECASE_MAX
      modifies this`usecaseList
      ensures TookInput(old(usecaseList), usecaseList, switchDevice, d, |old(usecaseList)|)
    {
      ghost var list := usecaseList;
      for i := 0 to |usecaseList|
        invariant TookInput(list, usecaseList, switchDevice, d, i)
      {
        assert usecaseList[i] == list[i];
        if switchDevice[usecaseList[i].id] {
          usecaseList := usecaseList[i := usecaseList[i].(inSnd := d)];
        }
      }
    }

    /** Marked captures leave their input and take `d`. */
    method MoveCaptures(env: Env, d: SndDevice, switchDevice: seq<bool>, ghost start: seq<multiset<SndDevice>>)
      returns (ghost rest: seq<multiset<SndDevice>>, ghost held: seq<multiset<SndDevice>>)
      requires platform.WellFormed() && |switchDevice| == AUDIO_USECASE_MAX
      requires forall j | 0 <= j < |usecaseList| :: 0 <= usecaseList[j].id < AUDIO_USECASE_MAX
      requires |start| == |usecaseList| && Counts(Union(start))
      requires forall j | 0 <= j < |start| && switchDevice[usecaseList[j].id] ::
               SndOf(usecaseList[j], false) in start[j]
      modifies this`course, this`usecaseList, sndDevRefCnt
      ensures Counts(Union(held)) && Left(old(usecaseList), start, rest, switchDevice, false, |old(usecaseList)|)
      ensures Took(old(usecaseList), usecaseList, rest, held, switchDevice, false, SameDevice(d, |rest|), |rest|)
      ensures Followed(env, old(course), course) && course.calm == old(course).calm
      ensures Now() == AfterEnables(platform, env, Marked(old(usecaseList), switchDevice, SameDevice(d, |rest|)), 0,
                         AfterDisables(platform, Marked(old(usecaseList), switchDevice,
                                                        SndsOf(old(usecaseList), false)), 0, old(Now())))
    {
      ghost var list := usecaseList;
      rest := DisableSwitched(switchDevice, false, start);
      held := EnableSwitched(env, d, switchDevice, rest);
      UpdateInputs(d, switchDevice);
      TookDeviceAndInput(list, usecaseList, rest, held, switchDevice, d);
    }

    /** Moves every other capture use case that must share the input device `d` with `info`. */
    method CheckAndRouteCaptureUsecases(env: Env, info: Usecase, d: SndDevice, ghost own: multiset<SndDevice>)
      requires platform.WellFormed()
      requires WellFormedList(usecaseList, outStreams, inStreams)
      requires Counts(Union(HoldingExcept(usecaseList, info.id, own)))
      modifies this`course, this`usecaseList, sndDevRefCnt
      ensures usecaseList == RoutedCapture(platform, old(usecaseList), info, d)
      ensures Counts(Union(HoldingExcept(usecaseList, info.id, own)))
      ensures Followed(env, old(course), course) && course.calm == old(course).calm
      ensures Now() == AfterCapture(platform, env, old(usecaseList), info, d, old(Now()))
    {
      var switchDevice, toSwitch := MarkCapture(info, d);
      if toSwitch == 0 {
        NobodyFollows(platform, env, usecaseList, info, d, Now());
        return;
      }
      ghost var list := usecaseList;
      ghost var rest, held := MoveCaptures(env, d, switchDevice, HoldingExcept(list, info.id, own));
      MarkedCapture(platform, list, info, d, switchDevice);
      CaptureMoved(platform, info, d, list, usecaseList, rest, held, switchDevice, own);
    }

    method DisableIfSet(d: SndDevice, k: nat, ghost held: seq<multiset<SndDevice>>)
      requires platform.WellFormed()
      requires k < |held| && d in held[k] && Counts(Union(held))
      modifies sndDevRefCnt
      ensures Counts(Union(held[k := held[k] - multiset{d}]))
      ensures Now() == AfterDisable(platform, d, old(Now()))
    {
      if d != SND_DEVICE_NONE {
        DisableFor(d, k, held);
      } else {
        UnionDrop(held, k, d);
        if course.clean {
          DisableConserves(platform.splitting, sndDevRefCnt[..], Union(held), d);
        }
      }
    }

    method EnableIfSet(env: Env, d: SndDevice, k: nat, ghost held: seq<multiset<SndDevice>>)
      requires platform.WellFormed()
      requires k < |held| && Counts(Union(held))
      modifies this`course, sndDevRefCnt
      ensures Counts(Union(held[k := held[k] + multiset{d}]))
      ensures Followed(env, old(course), course) && course.calm == old(course).calm
      ensures Now() == AfterEnable(platform, env, d, old(Now()))
    {
      if d != SND_DEVICE_NONE {
        EnableFor(env, d, k, held);
      } else {
        UnionAdd(held, k, d);
        if course.clean {
          EnableConserves(platform.splitting, env.starts, sndDevRefCnt[..], Union(held), d);
        }
      }
    }

    /** Use case `k` gives up its current devices. */
    method ReleaseDevices(k: nat)
      requires Valid() && k < |usecaseList|
      modifies sndDevRefCnt
      ensures Counts(Union(HoldingExcept(usecaseList, usecaseList[k].id, multiset{})))
      ensures Now() == AfterRelease(platform, usecaseList[k], old(Now()))
    {
      var u := usecaseList[k];
      ghost var held := Holding(usecaseList);
      ReleasedHolding(usecaseList, k);
      DisableIfSet(u.outSnd, k, held);
      DisableIfSet(u.inSnd, k, held[k := held[k] - multiset{u.outSnd}]);
    }

    /** Takes `d` for use case `k`, which holds `own` so far. */
    method AcquireDevice(env: Env, k: nat, d: SndDevice, ghost own: multiset<SndDevice>)
      requires platform.WellFormed()
      requires k < |usecaseList| && DistinctIds(usecaseList)
      requires Counts(Union(HoldingExcept(usecaseList, usecaseList[k].id, own)))
      modifies this`course, sndDevRefCnt
      ensures Counts(Union(HoldingExcept(usecaseList, usecaseList[k].id, own + multiset{d})))
      ensures Followed(env, old(course), course) && course.calm == old(course).calm
      ensures Now() == AfterEnable(platform, env, d, old(Now()))
    {
      EnableIfSet(env, d, k, HoldingExcept(usecaseList, usecaseList[k].id, own));
      HoldingOwn(usecaseList, k, own);
      HoldingOwn(usecaseList, k, own + multiset{d});
      assert HoldingExcept(usecaseList, usecaseList[k].id, own)[k := own + multiset{d}]
          == HoldingExcept(usecaseList, usecaseList[k].id, own + multiset{d});
    }

    /** Moves use case `k` to the chosen devices, unless it already has them. If the others were settled all
      are, exactly unless the move disturbs them. */
    method SwitchDevices(env: Env, k: nat, c: Choice, force: bool)
      requires Valid() && k < |usecaseList|
      requires usecaseList[k].kind.PcmCapture? ==> c.outSnd == SND_DEVICE_NONE
      requires usecaseList[k].kind.PcmPlayback? ==> c.inSnd == SND_DEVICE_NONE
      modifies this`course, this`usecaseList, sndDevRefCnt
      ensures Valid() && Followed(env, old(course), course)
      ensures usecaseList == Switched(platform, env, outStreams, old(usecaseList), k, c, force)
      ensures course.calm == (old(course).calm && !Disturbs(platform, env, outStreams, old(usecaseList), k, c, force))
      ensures Now() == AfterSwitch(platform, env, outStreams, old(usecaseList), k, c, force, old(Now()))
      ensures old(course.calm ==> SettledBut(platform, usecaseList, usecaseList[k].id)) ==> Calm()
    {
      ghost var list := usecaseList;
      MoveDevices(env, k, c, force);
      course := course.(calm := course.calm && !Disturbs(platform, env, outStreams, list, k, c, force));
      if SettledBut(platform, list, list[k].id) {
        SwitchedSettledIff(platform, env, outStreams, list, k, c, force);
      }
    }

    method MoveDevices(env: Env, k: nat, c: Choice, force: bool)
      requires Valid() && k < |usecaseList|
      requires usecaseList[k].kind.PcmCapture? ==> c.outSnd == SND_DEVICE_NONE
      requires usecaseList[k].kind.PcmPlayback? ==> c.inSnd == SND_DEVICE_NONE
      modifies this`course, this`usecaseList, sndDevRefCnt
      ensures Valid() && Followed(env, old(course), course) && course.calm == old(course).calm
      ensures usecaseList == Switched(platform, env, outStreams, old(usecaseList), k, c, force)
      ensures Now() == AfterMove(platform, env, outStreams, old(usecaseList), k, c, force, old(Now()))
    {
      var u := usecaseList[k];
      if KeepsDevices(platform, env, outStreams, u, c, force) {
        return;
      }
      assert WellLinked(u, outStreams, inStreams);
      var out := FinalOutput(platform, env, u.id, c.outSnd);
      TakeOutput(env, k, out);
      TakeInput(env, k, u, out, c.inSnd);
    }

    /** The first half of the move: use case `k` gives up its devices, others make way and it takes `out`. */
    method TakeOutput(env: Env, k: nat, out: SndDevice)
      requires Valid() && k < |usecaseList|
      modifies this`course, this`usecaseList, sndDevRefCnt
      ensures platform.WellFormed() && WellFormedList(usecaseList, outStreams, inStreams)
      ensures var list, u := old(usecaseList), old(usecaseList)[k];
              usecaseList ==
                if RoutesPlayback(platform, u, out) then
                  RoutedPlayback(platform, ForceRouting(platform, env, u, out), outStreams, list, u, out)
                             else list
      ensures usecaseList[k] == old(usecaseList)[k]
      ensures Counts(Union(HoldingExcept(usecaseList, usecaseList[k].id, multiset{out})))
      ensures Followed(env, old(course), course) && course.calm == old(course).calm
      ensures Now() == AfterOutput(platform, env, outStreams, old(usecaseList), old(usecaseList)[k], out, old(Now()))
    {
      var u := usecaseList[k];
      ReleaseDevices(k);
      MakeWay(env, k, u, out);
      AcquireDevice(env, k, out, multiset{});
      assert multiset{} + multiset{out} == multiset{out};
    }

    /** Others make way for use case `k` on `out`, if that is called for. */
    method MakeWay(env: Env, k: nat, u: Usecase, out: SndDevice)
      requires platform.WellFormed() && WellFormedList(usecaseList, outStreams, inStreams)
      requires k < |usecaseList| && usecaseList[k] == u
      requires Counts(Union(HoldingExcept(usecaseList, u.id, multiset{})))
      modifies this`course, this`usecaseList, sndDevRefCnt
      ensures WellFormedList(usecaseList, outStreams, inStreams) && k < |usecaseList| && usecaseList[k] == u
      ensures usecaseList ==
              if RoutesPlayback(platform, u, out) then
                RoutedPlayback(platform, ForceRouting(platform, env, u, out), outStreams, old(usecaseList), u, out)
                             else old(usecaseList)
      ensures Counts(Union(HoldingExcept(usecaseList, u.id, multiset{})))
      ensures Followed(env, old(course), course) && course.calm == old(course).calm
      ensures Now() == if RoutesPlayback(platform, u, out) then
                         AfterPlayback(platform, env, ForceRouting(platform, env, u, out), outStreams,
                                       old(usecaseList), u, out, old(Now()))
                       else old(Now())
    {
      if RoutesPlayback(platform, u, out) {
        RoutedPlaybackWellFormed(platform, ForceRouting(platform, env, u, out), outStreams, inStreams, usecaseList, u,
          out);
        CheckAndRoutePlaybackUsecases(env, u, out, multiset{});
      }
    }

    /** The second half of the move: other captures follow, and both devices are recorded. */
    method TakeInput(env: Env, k: nat, u: Usecase, out: SndDevice, in_: SndDevice)
      requires platform.WellFormed()
      requires k < |usecaseList| && WellFormedList(usecaseList, outStreams, inStreams) && usecaseList[k].id == u.id
      requires WellLinked(usecaseList[k].(outSnd := out, inSnd := in_), outStreams, inStreams)
      requires Counts(Union(HoldingExcept(usecaseList, u.id, multiset{out})))
      modifies this`course, this`usecaseList, sndDevRefCnt
      ensures Valid()
      ensures var list := if in_ != SND_DEVICE_NONE then RoutedCapture(platform, old(usecaseList), u, in_)
              else old(usecaseList);
              usecaseList == list[k := list[k].(outSnd := out, inSnd := in_)]
      ensures Followed(env, old(course), course) && course.calm == old(course).calm
      ensures Now() == AfterInput(platform, env, old(usecaseList), u, in_, old(Now()))
    {
      LetFollow(env, k, u, out, in_);
      TakeAndRecord(env, k, out, in_);
    }

    /** Other captures follow use case `k`, which is on `out`, to `in_`, if it is set. */
    method LetFollow(env: Env, k: nat, u: Usecase, out: SndDevice, in_: SndDevice)
      requires platform.WellFormed()
      requires k < |usecaseList| && WellFormedList(usecaseList, outStreams, inStreams) && usecaseList[k].id == u.id
      requires Counts(Union(HoldingExcept(usecaseList, u.id, multiset{out})))
      modifies this`course, this`usecaseList, sndDevRefCnt
      ensures usecaseList == if in_ != SND_DEVICE_NONE then RoutedCapture(platform, old(usecaseList), u, in_)
                             else old(usecaseList)
      ensures WellFormedList(usecaseList, outStreams, inStreams)
      ensures usecaseList[k] == old(usecaseList)[k]
      ensures Counts(Union(HoldingExcept(usecaseList, u.id, multiset{out})))
      ensures Followed(env, old(course), course) && course.calm == old(course).calm
      ensures Now() == if in_ != SND_DEVICE_NONE then AfterCapture(platform, env, old(usecaseList), u, in_, old(Now()))
                       else old(Now())
    {
      if in_ != SND_DEVICE_NONE {
        RoutedCaptureWellFormed(platform, outStreams, inStreams, usecaseList, u, in_);
        CheckAndRouteCaptureUsecases(env, u, in_, multiset{out});
      }
    }

    /** Use case `k`, which holds `out`, takes `in_`; both are recorded. */
    method TakeAndRecord(env: Env, k: nat, out: SndDevice, in_: SndDevice)
      requires platform.WellFormed() && k < |usecaseList| && WellFormedList(usecaseList, outStreams, inStreams)
      requires WellLinked(usecaseList[k].(outSnd := out, inSnd := in_), outStreams, inStreams)
      requires Counts(Union(HoldingExcept(usecaseList, usecaseList[k].id, multiset{out})))
      modifies this`course, this`usecaseList, sndDevRefCnt
      ensures Valid() && usecaseList == old(usecaseList)[k := old(usecaseList)[k].(outSnd := out, inSnd := in_)]
      ensures Followed(env, old(course), course) && course.calm == old(course).calm
      ensures Now() == AfterEnable(platform, env, in_, old(Now()))
    {
      AcquireDevice(env, k, in_, multiset{out});
      assert multiset{out} + multiset{in_} == multiset{out, in_};
      RecordDevices(k, out, in_);
    }

    method RecordDevices(k: nat, out: SndDevice, in_: SndDevice)
      requires platform.WellFormed() && k < |usecaseList| && WellFormedList(usecaseList, outStreams, inStreams)
      requires WellLinked(usecaseList[k].(outSnd := out, inSnd := in_), outStreams, inStreams)
      requires Counts(Union(HoldingExcept(usecaseList, usecaseList[k].id, multiset{out, in_})))
      modifies this`usecaseList
      ensures Valid() && usecaseList == old(usecaseList)[k := old(usecaseList)[k].(outSnd := out, inSnd := in_)]
    {
      var u := usecaseList[k].(outSnd := out, inSnd := in_);
      ghost var list := usecaseList;
      ReplaceWellFormed(outStreams, inStreams, usecaseList, k, u);
      usecaseList := usecaseList[k := u];
      HoldingOwn(usecaseList, k, multiset{out, in_});
      assert Holding(usecaseList) == HoldingExcept(list, u.id, multiset{out, in_}) by {
        HoldingOwn(list, k, multiset{out, in_});
        assert Holding(usecaseList) == Holding(list)[k := multiset{out, in_}];
      }
    }

    /** Changes a use case in anything but its id and devices. */
    method ReplaceUsecase(k: nat, u: Usecase)
      requires Valid() && k < |usecaseList| && WellLinked(u, outStreams, inStreams)
      requires u.id == usecaseList[k].id && u.outSnd == usecaseList[k].outSnd && u.inSnd == usecaseList[k].inSnd
      modifies this`usecaseList
      ensures Valid() && usecaseList == old(usecaseList)[k := u] && Ids(usecaseList) == Ids(old(usecaseList))
      ensures old(Settled(platform, usecaseList)) ==> SettledBut(platform, usecaseList, u.id)
      ensures u.kind == old(usecaseList)[k].kind && u.devices == old(usecaseList)[k].devices && old(Calm()) ==> Calm()
    {
      ghost var list := usecaseList;
      ReplacedSettled(platform, list, k, u);
      ReplaceWellFormed(outStreams, inStreams, list, k, u);
      ReplacedIds(list, k, u);
      usecaseList := usecaseList[k := u];
      assert Holding(usecaseList) == Holding(list);
    }

    /** Records the device mask a use case asks for. */
    method SetMask(k: nat, devices: DeviceMask)
      requires Valid() && k < |usecaseList|
      modifies this`usecaseList
      ensures Valid() && usecaseList == old(usecaseList)[k := old(usecaseList)[k].(devices := devices)]
      ensures old(Settled(platform, usecaseList)) ==> SettledBut(platform, usecaseList, usecaseList[k].id)
    {
      assert WellLinked(usecaseList[k], outStreams, inStreams);
      ReplaceUsecase(k, usecaseList[k].(devices := devices));
    }

    /** Routes the voice communication input ahead of use case `k`, if that is called for. */
    method RouteAhead(env: Env, k: nat, voipIn: Option<int>)
      requires Valid() && k < |usecaseList|
      requires voipIn.Some? ==> usecaseList[k].kind.PcmPlayback?
      requires voipIn.Some? ==>
               var f := FindUsecase(usecaseList, voipIn.value); f.Some? && usecaseList[f.value].kind.PcmCapture?
      modifies this`course, this`usecaseList, sndDevRefCnt
      ensures Valid() && Followed(env, old(course), course) && course.calm == old(course).calm
      ensures usecaseList == if voipIn.Some? then
                               SelectedOne(platform, env, outStreams, inStreams, old(usecaseList), voipIn.value, false)
                             else old(usecaseList)
      ensures k < |usecaseList| && usecaseList[k] == old(usecaseList)[k]
      ensures Now() == if voipIn.Some? then
                         AfterSelectOne(platform, env, outStreams, inStreams, old(usecaseList), voipIn.value, false,
                                        old(Now()))
                       else old(Now())
      ensures SettledBut(platform, old(usecaseList), old(usecaseList)[k].id) ==>
                SettledBut(platform, usecaseList, usecaseList[k].id)
      decreases if voipIn.Some? then 1 else 0, 0
    {
      if voipIn.Some? {
        RouteVoipInput(env, voipIn.value, k);
      }
    }

    /** Routes the voice communication input `id` before the playback use case `k`. */
    method RouteVoipInput(env: Env, id: int, k: nat)
      requires Valid() && k < |usecaseList| && usecaseList[k].kind.PcmPlayback?
      requires var f := FindUsecase(usecaseList, id); f.Some? && usecaseList[f.value].kind.PcmCapture?
      modifies this`course, this`usecaseList, sndDevRefCnt
      ensures Valid()
      ensures usecaseList == SelectedOne(platform, env, outStreams, inStreams, old(usecaseList), id, false)
      ensures k < |usecaseList| && usecaseList[k] == old(usecaseList)[k]
      ensures Followed(env, old(course), course) && course.calm == old(course).calm
      ensures Now() == AfterSelectOne(platform, env, outStreams, inStreams, old(usecaseList), id, false, old(Now()))
      ensures SettledBut(platform, old(usecaseList), old(usecaseList)[k].id) ==>
                SettledBut(platform, usecaseList, usecaseList[k].id)
      decreases 0, 3
    {
      SelectedCapture(platform, env, outStreams, inStreams, usecaseList, id, false);
      SelectedOneKeepsOthers(platform, env, outStreams, inStreams, usecaseList, id, false, k);
      SelectedOneKeepsOutputs(platform, env, outStreams, inStreams, usecaseList, id, false);
      SameOutputsSettled(platform, SelectedOne(platform, env, outStreams, inStreams, usecaseList, id, false),
        usecaseList, usecaseList[k].id);
      CaptureDisturbsNobody(platform, env, outStreams, inStreams, usecaseList, id, false);
      CaptureSelectedAlone(platform, env, outStreams, inStreams, usecaseList, id, false, Now());
      var _ := SelectDevices(env, id, false);
    }

    /** Chooses the devices of a use case, re-routes whatever stands in their way and moves it there. */
    method SelectDevices(env: Env, id: int, force: bool) returns (found: bool)
      requires Valid()
      modifies this`course, this`usecaseList, sndDevRefCnt
      ensures Valid()
      ensures found <==> FindUsecase(old(usecaseList), id).Some?
      ensures usecaseList == Selected(platform, env, outStreams, inStreams, old(usecaseList), id, force)
      ensures found ==>
                var k := FindUsecase(old(usecaseList), id).value;
                Answered(platform, env, outStreams, inStreams, old(usecaseList), old(usecaseList)[k], force,
                         usecaseList[k])
      ensures Followed(env, old(course), course)
      ensures course.calm == (old(course).calm
                              && !SelectedDisturbs(platform, env, outStreams, inStreams, old(usecaseList), id, force))
      ensures Now() == AfterSelect(platform, env, outStreams, inStreams, old(usecaseList), id, force, old(Now()))
      ensures old(Calm()) ==> Calm()
      decreases var f := FindUsecase(usecaseList, id); if f.Some?
        && usecaseList[f.value].kind.PcmCapture? then 0 else 2, 2
    {
      var f := FindUsecase(usecaseList, id);
      if f.None? {
        return false;
      }
      var c := Choose(env, f.value);
      CarryOut(env, f.value, c, force);
      SelectedIsAnswered(platform, env, outStreams, inStreams, old(usecaseList), id, force);
      found := true;
    }

    /** Chooses the devices of use case `k` and records the mask it asks for. */
    method Choose(env: Env, k: nat) returns (c: Choice)
      requires Valid() && k < |usecaseList|
      modifies this`usecaseList
      ensures Valid() && c == ChooseDevices(platform, env, outStreams, inStreams, old(usecaseList), old(usecaseList)[k])
      ensures usecaseList == old(usecaseList)[k := old(usecaseList)[k].(devices := c.devices)] && Executable(k, c)
      ensures old(Settled(platform, usecaseList)) ==> SettledBut(platform, usecaseList, usecaseList[k].id)
    {
      c := ChooseDevices(platform, env, outStreams, inStreams, usecaseList, usecaseList[k]);
      ghost var list := usecaseList;
      ChoiceFits(platform, env, outStreams, inStreams, list, list[k]);
      SetMask(k, c.devices);
      if c.voipIn.Some? {
        VoipInputIsCapture(platform, env, outStreams, inStreams, list, list[k]);
        SameFind(list, usecaseList, c.voipIn.value);
      }
    }

    /** Captures get no output and playbacks no input; only a playback routes a capture first. */
    ghost predicate Executable(k: nat, c: Choice)
      reads this
    {
      && k < |usecaseList|
      && (usecaseList[k].kind.PcmCapture? ==> c.outSnd == SND_DEVICE_NONE)
      && (usecaseList[k].kind.PcmPlayback? ==> c.inSnd == SND_DEVICE_NONE)
      && (c.voipIn.Some? ==>
            && usecaseList[k].kind.PcmPlayback?
            && var f := FindUsecase(usecaseList, c.voipIn.value); f.Some? && usecaseList[f.value].kind.PcmCapture?)
    }

    /** Routes the voice communication input ahead, if the choice says so, and moves use case `k`. */
    method CarryOut(env: Env, k: nat, c: Choice, force: bool)
      requires Valid() && Executable(k, c)
      modifies this`course, this`usecaseList, sndDevRefCnt
      ensures Valid() && Followed(env, old(course), course)
      ensures var l2 := if c.voipIn.Some? then
              SelectedOne(platform, env, outStreams, inStreams, old(usecaseList), c.voipIn.value, false)
                        else old(usecaseList);
              && usecaseList == Switched(platform, env, outStreams, l2, k, c, force)
              && course.calm == (old(course).calm && !Disturbs(platform, env, outStreams, l2, k, c, force))
              && Now() == AfterSwitch(platform, env, outStreams, l2, k, c, force,
                   if c.voipIn.Some? then
                     AfterSelectOne(platform, env, outStreams, inStreams, old(usecaseList), c.voipIn.value, false,
                                    old(Now()))
                   else old(Now()))
      ensures old(course.calm ==> SettledBut(platform, usecaseList, usecaseList[k].id)) ==> Calm()
      decreases if usecaseList[k].kind.PcmCapture? then 0 else 2, 1
    {
      RouteAhead(env, k, c.voipIn);
      SwitchDevices(env, k, c, force);
    }

    // -------------------------------------------------------------- starting and stopping use cases

    method Join(u: Usecase)
      requires Valid() && WellLinked(u, outStreams, inStreams) && FindUsecase(usecaseList, u.id).None?
      requires u.outSnd == u.inSnd == SND_DEVICE_NONE
      modifies this`usecaseList
      ensures Valid() && usecaseList == old(usecaseList) + [u]
      ensures old(Calm()) ==> Calm()
    {
      HoldingJoined(platform.splitting, sndDevRefCnt[..], usecaseList, u);
      JoinedWellFormed(outStreams, inStreams, usecaseList, u);
      JoinedSettled(platform, usecaseList, u);
      usecaseList := usecaseList + [u];
    }

    /** Use case `k` gives up its devices and leaves the list. */
    method Leave(k: nat)
      requires Valid() && k < |usecaseList|
      modifies this`usecaseList, sndDevRefCnt
      ensures Valid() && usecaseList == Without(old(usecaseList), k)
      ensures Now() == AfterRelease(platform, old(usecaseList)[k], old(Now()))
      ensures old(Calm()) ==> Calm()
    {
      ReleaseDevices(k);
      HoldingWithout(usecaseList, k);
      WithoutWellFormed(outStreams, inStreams, usecaseList, k);
      WithoutSettled(platform, usecaseList, k);
      usecaseList := usecaseList[..k] + usecaseList[k + 1..];
    }

    /** `SelectDevices` seen from a caller that cares for the membership of the list. */
    method Reroute(env: Env, id: int, force: bool)
      requires Valid()
      modifies this`course, this`usecaseList, sndDevRefCnt
      ensures Valid() && Ids(usecaseList) == Ids(old(usecaseList))
      ensures usecaseList == Selected(platform, env, outStreams, inStreams, old(usecaseList), id, force)
      ensures Followed(env, old(course), course)
      ensures Here() == Rerouted(platform, env, old(Here()), id, force)
      ensures old(Calm()) ==> Calm()
    {
      SelectedKeepsIds(platform, env, outStreams, inStreams, usecaseList, id, force);
      var _ := SelectDevices(env, id, force);
    }

    method SetOutDevices(s: int, devices: DeviceMask)
      requires Valid() && s in outStreams
      modifies this`outStreams
      ensures Valid() && outStreams == old(outStreams)[s := old(outStreams)[s].(devices := devices)]
    {
      LinkedAfterUpdate(usecaseList, outStreams, outStreams[s := outStreams[s].(devices := devices)], inStreams);
      outStreams := outStreams[s := outStreams[s].(devices := devices)];
    }

    /** A use case joins the list and is routed. */
    method JoinAndRoute(env: Env, u: Usecase)
      requires Valid() && WellLinked(u, outStreams, inStreams) && FindUsecase(usecaseList, u.id).None?
      requires u.outSnd == u.inSnd == SND_DEVICE_NONE
      modifies this`course, this`usecaseList, sndDevRefCnt
      ensures Valid() && Ids(usecaseList) == Ids(old(usecaseList)) + [u.id]
      ensures FindUsecase(usecaseList, u.id) == Some(|old(usecaseList)|)
      ensures Ids(Without(usecaseList, |old(usecaseList)|)) == Ids(old(usecaseList))
      ensures usecaseList == Selected(platform, env, outStreams, inStreams, old(usecaseList) + [u], u.id, false)
      ensures Followed(env, old(course), course)
      ensures Now() == AfterSelect(platform, env, outStreams, inStreams, old(usecaseList) + [u], u.id, false,
                                   old(Now()))
      ensures old(Calm()) ==> Calm()
    {
      ghost var list := usecaseList;
      Join(u);
      JoinedIds(list, u);
      Reroute(env, u.id, false);
      LastFound(list, usecaseList, u.id);
    }

    /** Selects devices while the stream pretends to be on `devices`. */
    method SelectWithDevices(env: Env, s: int, devices: DeviceMask)
      requires Valid() && s in outStreams
      modifies this`course, this`usecaseList, this`outStreams, sndDevRefCnt
      ensures Valid() && outStreams == old(outStreams) && Ids(usecaseList) == Ids(old(usecaseList))
      ensures usecaseList == RoutedAsOn(platform, env, old(outStreams), inStreams, old(usecaseList), s, Some(devices))
      ensures Followed(env, old(course), course)
      ensures Now() == AfterRouteAsOn(platform, env, old(outStreams), inStreams, old(usecaseList), s, Some(devices),
                                      old(Now()))
      ensures old(Calm()) ==> Calm()
    {
      var out := outStreams[s];
      SetOutDevices(s, devices);
      Reroute(env, out.usecase, false);
      SetOutDevices(s, out.devices);
      PretenceUndone(old(outStreams), s, devices);
    }

    /** Selects devices for the stream as it is. */
    method SelectAsIs(env: Env, s: int)
      requires Valid() && s in outStreams
      modifies this`course, this`usecaseList, sndDevRefCnt
      ensures Valid() && Ids(usecaseList) == Ids(old(usecaseList))
      ensures usecaseList
              == RoutedAsOn(platform, env, outStreams, inStreams, old(usecaseList), s, Some(outStreams[s].devices))
      ensures Followed(env, old(course), course)
      ensures Now() == AfterRouteAsOn(platform, env, outStreams, inStreams, old(usecaseList), s,
                                      Some(outStreams[s].devices), old(Now()))
      ensures old(Calm()) ==> Calm()
    {
      assert outStreams[s := outStreams[s].(devices := outStreams[s].devices)] == outStreams;
      Reroute(env, outStreams[s].usecase, false);
    }

    /** Plays on the speaker, muted, until A2DP is ready. */
    method RouteMuted(env: Env, s: int)
      requires Valid() && s in outStreams
      modifies this`course, this`usecaseList, this`outStreams, sndDevRefCnt
      ensures Valid() && Ids(usecaseList) == Ids(old(usecaseList))
      ensures outStreams == old(outStreams)[s := old(outStreams)[s].(a2dpMute := true)]
      ensures usecaseList
              == RoutedAsOn(platform, env, old(outStreams), inStreams, old(usecaseList), s, Some(platform.speaker))
      ensures Followed(env, old(course), course)
      ensures Now() == AfterRouteAsOn(platform, env, old(outStreams), inStreams, old(usecaseList), s,
                                      Some(platform.speaker), old(Now()))
      ensures old(Calm()) ==> Calm()
    {
      SelectWithDevices(env, s, platform.speaker);
      outStreams := outStreams[s := outStreams[s].(a2dpMute := true)];
      LinkedAfterUpdate(usecaseList, old(outStreams), outStreams, inStreams);
    }

    /** The routing done for a playback that has just joined the list; an offloaded one that must wait
      for A2DP plays muted on the speaker. */
    method RouteStarted(env: Env, s: int)
      requires Valid() && s in outStreams
      modifies this`course, this`usecaseList, this`outStreams, sndDevRefCnt
      ensures Valid() && Ids(usecaseList) == Ids(old(usecaseList))
      ensures outStreams == MutedWhileStarting(platform, env, old(outStreams), s)
      ensures usecaseList == StartedOutput(platform, env, old(outStreams), inStreams, old(usecaseList), s)
      ensures Followed(env, old(course), course)
      ensures Now() == AfterStarted(platform, env, old(outStreams), inStreams, old(usecaseList), s, old(Now()))
      ensures old(Calm()) ==> Calm()
    {
      var out := outStreams[s];
      ghost var pretended := DevicesWhileStarting(platform, env, out);
      if !Overlap(out.devices, platform.a2dp) || env.a2dpReady {
        assert pretended == Some(out.devices);
        SelectAsIs(env, s);
      } else if Overlap(out.devices, platform.speaker + platform.speakerSafe) {
        var devices := if Overlap(out.devices, platform.speakerSafe) then platform.speakerSafe else platform.speaker;
        assert pretended == Some(devices);
        SelectWithDevices(env, s, devices);
      } else if out.offload && !out.a2dpMute {
        assert pretended == Some(platform.speaker);
        RouteMuted(env, s);
      } else {
        assert pretended == None;
      }
    }

    /** Starts the use case of output stream `s`. `ready` tells whether the checks made before it joins
      the list pass and `opens` whether its PCM or compress device then opens. */
    method StartOutputStream(env: Env, s: int, ready: bool, opens: bool, usbReset: bool) returns (ok: bool)
      requires Valid() && s in outStreams
      requires 0 <= outStreams[s].usecase < AUDIO_USECASE_MAX && FindUsecase(usecaseList, outStreams[s].usecase).None?
      modifies this`course, this`usecaseList, this`outStreams, sndDevRefCnt
      ensures Valid() && ok == (ready && opens && !RefusedForA2dp(platform, env, old(outStreams[s])))
      ensures Ids(usecaseList) ==
              if ok then Ids(old(usecaseList)) + [old(outStreams[s]).usecase] else Ids(old(usecaseList))
      ensures Followed(env, old(course), course)
      ensures Here() == OutputStarted(platform, env, old(Here()), s, ready, opens, usbReset)
      ensures old(Calm()) ==> Calm()
    {
      var out := outStreams[s];
      if RefusedForA2dp(platform, env, out) {
        return false;
      }
      if !ready {
        return false;
      }
      JoinAndStart(env, s);
      ok := opens;
      if !opens {
        var _ := StopOutputStream(env, s, usbReset);
      }
    }

    /** The playback of output stream `s` joins the list and is routed. */
    method JoinAndStart(env: Env, s: int)
      requires Valid() && s in outStreams
      requires 0 <= outStreams[s].usecase < AUDIO_USECASE_MAX && FindUsecase(usecaseList, outStreams[s].usecase).None?
      modifies this`course, this`usecaseList, this`outStreams, sndDevRefCnt
      ensures Valid() && outStreams == MutedWhileStarting(platform, env, old(outStreams), s)
      ensures Ids(usecaseList) == Ids(old(usecaseList)) + [old(outStreams[s]).usecase]
      ensures FindUsecase(usecaseList, old(outStreams[s]).usecase) == Some(|old(usecaseList)|)
      ensures Ids(Without(usecaseList, |old(usecaseList)|)) == Ids(old(usecaseList))
      ensures usecaseList == StartedOutput(platform, env, old(outStreams), inStreams,
                                           old(usecaseList) + [PlaybackUsecase(s, old(outStreams[s]))], s)
      ensures Followed(env, old(course), course)
      ensures Now() == AfterStarted(platform, env, old(outStreams), inStreams,
                                    old(usecaseList) + [PlaybackUsecase(s, old(outStreams[s]))], s, old(Now()))
      ensures old(Calm()) ==> Calm()
    {
      ghost var list := usecaseList;
      var u := PlaybackUsecase(s, outStreams[s]);
      Join(u);
      JoinedIds(list, u);
      RouteStarted(env, s);
      LastFound(list, usecaseList, u.id);
    }

    /** The USB backend was reset: every use case on it must be re-routed for the departed `u`. */
    method RerouteForDeparted(env: Env, u: Usecase)
      requires Valid() && FindUsecase(usecaseList, u.id).None?
      modifies this`course, this`usecaseList, sndDevRefCnt
      ensures Valid()
      ensures usecaseList
              == RoutedPlayback(platform, ForceRouting(platform, env, u, u.outSnd), outStreams, old(usecaseList), u,
                u.outSnd)
      ensures Followed(env, old(course), course)
      ensures Now() == AfterDeparted(platform, env, outStreams, old(usecaseList), u, old(Now()))
      ensures old(Calm()) ==> Calm()
    {
      ghost var list := usecaseList;
      RouteForDeparted(env, u);
      course := course.(calm := course.calm && !DepartedDisturbs(platform, env, outStreams, list, u));
      if Settled(platform, list) {
        DepartedSettledIff(platform, ForceRouting(platform, env, u, u.outSnd), outStreams, list, u);
      }
    }

    method RouteForDeparted(env: Env, u: Usecase)
      requires Valid() && FindUsecase(usecaseList, u.id).None?
      modifies this`course, this`usecaseList, sndDevRefCnt
      ensures Valid()
      ensures usecaseList
              == RoutedPlayback(platform, ForceRouting(platform, env, u, u.outSnd), outStreams, old(usecaseList), u,
                u.outSnd)
      ensures Followed(env, old(course), course) && course.calm == old(course).calm
      ensures Now() == AfterPlayback(platform, env, ForceRouting(platform, env, u, u.outSnd), outStreams,
                                     old(usecaseList), u, u.outSnd, old(Now()))
    {
      ghost var force := ForceRouting(platform, env, u, u.outSnd);
      HoldingOffList(usecaseList, u.id);
      RoutedOffList(platform, force, outStreams, usecaseList, u, u.outSnd);
      RoutedPlaybackWellFormed(platform, force, outStreams, inStreams, usecaseList, u, u.outSnd);
      CheckAndRoutePlaybackUsecases(env, u, u.outSnd, multiset{});
    }

    /** Routes every use case but captures other than the VOIP one again. */
    method RerouteAll(env: Env)
      requires Valid()
      modifies this`course, this`usecaseList, sndDevRefCnt
      ensures Valid() && Ids(usecaseList) == Ids(old(usecaseList))
      ensures usecaseList == ReroutedFrom(platform, env, outStreams, inStreams, old(usecaseList), 0)
      ensures Here() == ReroutedRest(platform, env, old(Here()), 0)
      ensures Followed(env, old(course), course)
      ensures old(Calm()) ==> Calm()
    {
      RerouteEach(env);
      ReroutedRestIs(platform, env, old(Here()), 0);
      ReroutedRestRoutes(platform, env, old(Here()), 0);
    }

    method RerouteEach(env: Env)
      requires Valid()
      modifies this`course, this`usecaseList, sndDevRefCnt
      ensures Valid() && Here() == ReroutedRest(platform, env, old(Here()), 0)
    {
      ghost var target := ReroutedRest(platform, env, Here(), 0);
      for i := 0 to |usecaseList|
        invariant Valid() && |usecaseList| == |target.list| && ReroutedRest(platform, env, Here(), i) == target
      {
        RerouteAt(env, i);
      }
    }

    method RerouteAt(env: Env, i: nat)
      requires Valid() && i < |usecaseList|
      modifies this`course, this`usecaseList, sndDevRefCnt
      ensures Valid()
      ensures Here() == ReroutedAt(platform, env, old(Here()), i)
    {
      var v := usecaseList[i];
      if !(v.kind.PcmCapture? && v.id != USECASE_AUDIO_RECORD_VOIP) {
        Reroute(env, v.id, false);
      }
    }

    /** Stops the use case of output stream `s` and re-routes those it held back. */
    method StopOutputStream(env: Env, s: int, usbReset: bool) returns (ok: bool)
      requires Valid() && s in outStreams
      modifies this`course, this`usecaseList, sndDevRefCnt
      ensures Valid()
      ensures ok <==> FindUsecase(old(usecaseList), outStreams[s].usecase).Some?
      ensures Ids(usecaseList) == match FindUsecase(old(usecaseList), outStreams[s].usecase)
                                  case None => Ids(old(usecaseList))
                                  case Some(k) => Ids(Without(old(usecaseList), k))
      ensures usecaseList
              == StoppedOutput(platform, env, outStreams, inStreams, old(usecaseList), outStreams[s], usbReset)
      ensures Followed(env, old(course), course)
      ensures Now() == AfterStopOutput(platform, env, outStreams, inStreams, old(usecaseList), outStreams[s], usbReset,
                                       old(Now()))
      ensures old(Calm()) ==> Calm()
    {
      var out := outStreams[s];
      var f := FindUsecase(usecaseList, out.usecase);
      if f.None? {
        return false;
      }
      var u := usecaseList[f.value];
      NotOnList(usecaseList, f.value);
      Leave(f.value);
      if ResetsUsb(platform, out, usbReset) {
        RoutedPlaybackKeepsIds(platform, ForceRouting(platform, env, u, u.outSnd), outStreams, usecaseList, u,
          u.outSnd);
        RerouteForDeparted(env, u);
      }
      if out.usecase == USECASE_AUDIO_PLAYBACK_VOIP || Overlap(out.devices, platform.speakerSafe) {
        RerouteAll(env);
      }
      ok := true;
    }

    /** Starts the use case `id` of input stream `s`, which an in-call recording may just have renamed. */
    method StartInputStream(env: Env, s: int, id: int, ready: bool, opens: bool) returns (ok: bool)
      requires Valid() && s in inStreams && 0 <= id < AUDIO_USECASE_MAX
      requires id != USECASE_INCALL_MUSIC_UPLINK && id != USECASE_INCALL_MUSIC_UPLINK2
      requires FindUsecase(usecaseList, id).None?
      requires forall k | 0 <= k < |usecaseList| && usecaseList[k].kind.PcmCapture? :: usecaseList[k].stream != Some(s)
      modifies this`course, this`usecaseList, this`inStreams, sndDevRefCnt
      ensures Valid() && ok == (ready && opens)
      ensures Ids(usecaseList) == if ok then Ids(old(usecaseList)) + [id] else Ids(old(usecaseList))
      ensures ok ==> CaptureRuns(platform, env, old(Here()), s, id, usecaseList)
      ensures Followed(env, old(course), course)
      ensures Here() == InputStarted(platform, env, old(Here()), s, id, ready, opens)
      ensures old(Calm()) ==> Calm()
    {
      if ready {
        StartedCaptureIsPlaced(platform, env, Here(), s, id);
      }
      RenameInput(s, id);
      if !ready {
        return false;
      }
      JoinAndRoute(env, CaptureUsecase(s, inStreams[s]));
      ok := opens;
      if !opens {
        var _ := StopInputStream(env, s);
      }
    }

    method RenameInput(s: int, id: int)
      requires Valid() && s in inStreams
      requires forall k | 0 <= k < |usecaseList| && usecaseList[k].kind.PcmCapture? :: usecaseList[k].stream != Some(s)
      modifies this`inStreams
      ensures Valid() && inStreams == old(inStreams)[s := old(inStreams)[s].(usecase := id)]
    {
      RenamedWellFormed(usecaseList, outStreams, inStreams, s, id);
      inStreams := inStreams[s := inStreams[s].(usecase := id)];
    }

    /** Stops the use case of input stream `s`; if it set the input device, the next in rank does now. */
    method StopInputStream(env: Env, s: int) returns (ok: bool)
      requires Valid() && s in inStreams
      modifies this`course, this`usecaseList, sndDevRefCnt
      ensures Valid()
      ensures ok <==> FindUsecase(old(usecaseList), inStreams[s].usecase).Some?
      ensures Ids(usecaseList) == match FindUsecase(old(usecaseList), inStreams[s].usecase)
                                  case None => Ids(old(usecaseList))
                                  case Some(k) => Ids(Without(old(usecaseList), k))
      ensures usecaseList == StoppedInput(platform, env, outStreams, inStreams, old(usecaseList), s)
      ensures Followed(env, old(course), course)
      ensures Now() == AfterStopInput(platform, env, outStreams, inStreams, old(usecaseList), s, old(Now()))
      ensures old(Calm()) ==> Calm()
    {
      var f := FindUsecase(usecaseList, inStreams[s].usecase);
      if f.None? {
        return false;
      }
      StoppedInputIds(platform, env, outStreams, inStreams, usecaseList, s);
      var priorityIn := GetPriorityInput();
      LeaveInput(env, f.value, priorityIn == Some(s));
      ok := true;
    }

    /** A capture leaves; if it set the input device another one does now. */
    method LeaveInput(env: Env, k: nat, handOver: bool)
      requires Valid() && k < |usecaseList|
      modifies this`course, this`usecaseList, sndDevRefCnt
      ensures Valid() && Followed(env, old(course), course)
      ensures usecaseList ==
              if handOver then HandedOver(platform, env, outStreams, inStreams, Without(old(usecaseList), k))
                             else Without(old(usecaseList), k)
      ensures Now() == if handOver then
                         AfterHandOver(platform, env, outStreams, inStreams, Without(old(usecaseList), k),
                                       AfterRelease(platform, old(usecaseList)[k], old(Now())))
                       else AfterRelease(platform, old(usecaseList)[k], old(Now()))
      ensures old(Calm()) ==> Calm()
    {
      Leave(k);
      if handOver {
        HandOver(env);
      }
    }

    /** Lets the active input with the highest priority set the input device. */
    method HandOver(env: Env)
      requires Valid()
      modifies this`course, this`usecaseList, sndDevRefCnt
      ensures Valid() && Ids(usecaseList) == Ids(old(usecaseList))
      ensures usecaseList == HandedOver(platform, env, outStreams, inStreams, old(usecaseList))
      ensures Followed(env, old(course), course)
      ensures Now() == AfterHandOver(platform, env, outStreams, inStreams, old(usecaseList), old(Now()))
      ensures old(Calm()) ==> Calm()
    {
      var priorityIn := GetPriorityInput();
      if priorityIn.Some? && priorityIn.value in inStreams {
        Reroute(env, inStreams[priorityIn.value].usecase, false);
      }
    }

    method GetPriorityInput() returns (best: Option<int>)
      ensures best == PriorityInput(inStreams, usecaseList)
    {
      best := None;
      var last := 0;
      for i := 0 to |usecaseList|
        invariant last == MaxPriority(inStreams, usecaseList[..i]) && best == PriorityInput(inStreams, usecaseList[..i])
      {
        assert usecaseList[..i + 1][..i] == usecaseList[..i];
        var u := usecaseList[i];
        if u.kind.PcmCapture? && u.stream.Some? {
          var priority := SourcePriority(SourceOf(inStreams, u));
          if priority > last {
            last := priority;
            best := u.stream;
          }
        }
      }
      assert usecaseList[..|usecaseList|] == usecaseList;
    }

    /** Starts a voice or hands-free call on the output stream `s`. */
    method StartCall(env: Env, id: int, kind: UsecaseType, s: int, opens: bool) returns (ok: bool)
      requires Valid() && s in outStreams && 0 <= id < AUDIO_USECASE_MAX
      requires (kind.VoiceCall? || kind.PcmHfpCall?) && FindUsecase(usecaseList, id).None?
      requires id != USECASE_INCALL_MUSIC_UPLINK && id != USECASE_INCALL_MUSIC_UPLINK2
      modifies this`course, this`usecaseList, sndDevRefCnt
      ensures Valid() && ok == opens
      ensures Ids(usecaseList) == if ok then Ids(old(usecaseList)) + [id] else Ids(old(usecaseList))
      ensures ok ==> CallRuns(platform, env, old(Here()), id, s, usecaseList)
      ensures Followed(env, old(course), course)
      ensures Here() == CallStarted(platform, env, old(Here()), id, kind, s, opens)
      ensures old(Calm()) ==> Calm()
    {
      StartedCallIsPlaced(platform, env, Here(), id, kind, s);
      JoinAndRoute(env, CallUsecase(id, kind, s, outStreams[s]));
      ok := opens;
      if !opens {
        var _ := StopCall(id);
      }
    }

    /** Stops a call: both of its devices are given back. */
    method StopCall(id: int) returns (ok: bool)
      requires Valid()
      modifies this`usecaseList, sndDevRefCnt
      ensures Valid()
      ensures ok <==> FindUsecase(old(usecaseList), id).Some?
      ensures usecaseList == StoppedCall(old(usecaseList), id)
      ensures Now() == AfterStopCall(platform, old(usecaseList), id, old(Now()))
      ensures old(Calm()) ==> Calm()
    {
      var f := FindUsecase(usecaseList, id);
      if f.None? {
        return false;
      }
      Leave(f.value);
      ok := true;
    }

    /** Moves every voice call to the devices of output stream `s`. */
    method UpdateVoiceUsecases(env: Env, s: int)
      requires Valid() && s in outStreams
      modifies this`course, this`usecaseList, sndDevRefCnt
      ensures Valid() && Ids(usecaseList) == Ids(old(usecaseList))
      ensures usecaseList == VoiceMovedFrom(platform, env, outStreams, inStreams, old(usecaseList), s, 0)
      ensures Here() == VoiceMovedRest(platform, env, old(Here()), s, 0)
      ensures Followed(env, old(course), course)
      ensures old(Calm()) ==> Calm()
    {
      MoveEachVoice(env, s);
      VoiceMovedRestIs(platform, env, old(Here()), s, 0);
      VoiceMovedRestRoutes(platform, env, old(Here()), s, 0);
    }

    method MoveEachVoice(env: Env, s: int)
      requires Valid() && s in outStreams
      modifies this`course, this`usecaseList, sndDevRefCnt
      ensures Valid() && Here() == VoiceMovedRest(platform, env, old(Here()), s, 0)
    {
      ghost var target := VoiceMovedRest(platform, env, Here(), s, 0);
      for i := 0 to |usecaseList|
        invariant Valid() && |usecaseList| == |target.list|
        invariant VoiceMovedRest(platform, env, Here(), s, i) == target
      {
        MoveVoiceAt(env, s, i);
      }
    }

    method MoveVoiceAt(env: Env, s: int, i: nat)
      requires Valid() && s in outStreams && i < |usecaseList|
      modifies this`course, this`usecaseList, sndDevRefCnt
      ensures Valid() && Here() == VoiceMovedAt(platform, env, old(Here()), s, i)
    {
      var u := usecaseList[i];
      if u.kind.VoiceCall? {
        MoveCall(i, s);
        Reroute(env, u.id, false);
      }
    }

    method MoveCall(k: nat, s: int)
      requires Valid() && k < |usecaseList| && usecaseList[k].kind.VoiceCall? && s in outStreams
      modifies this`usecaseList
      ensures Valid() && usecaseList == old(usecaseList)[k := old(usecaseList)[k].(stream := Some(s))]
      ensures Ids(usecaseList) == Ids(old(usecaseList))
      ensures old(Calm()) ==> Calm()
    {
      assert WellLinked(usecaseList[k], outStreams, inStreams);
      ReplaceUsecase(k, usecaseList[k].(stream := Some(s)));
    }

    /** While every device that had to start did, the devices of each use case are counted. */
    lemma InUseIsCounted(k: nat)
      requires Valid() && course.clean && k < |usecaseList|
      ensures var u := usecaseList[k];
              && (platform.splitting.Device(u.outSnd) ==> sndDevRefCnt[u.outSnd] > 0)
              && (platform.splitting.Device(u.inSnd) ==> sndDevRefCnt[u.inSnd] > 0)
    {
      var u, held := usecaseList[k], Holding(usecaseList);
      UnionUpdate(held, k, held[k]);
      assert u.outSnd in held[k] && u.inSnd in held[k];
      assert forall d | platform.splitting.Device(d) :: sndDevRefCnt[..][d] == sndDevRefCnt[d];
    }

    /** With no use case left no device is counted. */
    lemma IdleMeansZero()
      requires Valid() && usecaseList == [] && course.clean
      ensures forall d | platform.splitting.Device(d) :: sndDevRefCnt[d] == 0
    {
      NothingHeldAllZero(platform.splitting, sndDevRefCnt[..], Union(Holding(usecaseList)));
      forall d | platform.splitting.Device(d)
        ensures sndDevRefCnt[d] == 0
      {
        assert sndDevRefCnt[..][d] == 0;
      }
    }

    /** Opens a stream, or redirects one. */
    method Configure(r: Request)
      requires Valid()
      requires r.OpenOutput? || r.OpenInput? || r.SetOutDevices? || r.SetInDevice?
      modifies this`outStreams, this`inStreams
      ensures Valid() && Here() == Performed(platform, old(Here()), r)
    {
      match r
      case OpenOutput(_, s, out) =>
        if s !in outStreams {
          LinkedAfterUpdate(usecaseList, outStreams, outStreams[s := out], inStreams);
          outStreams := outStreams[s := out];
        }
      case OpenInput(_, s, in_) =>
        if s !in inStreams {
          OpenedWellFormed(usecaseList, outStreams, inStreams, s, in_);
          inStreams := inStreams[s := in_];
        }
      case SetOutDevices(_, s, devices) =>
        if s in outStreams {
          SetOutDevices(s, devices);
        }
      case SetInDevice(_, s, device) =>
        if s in inStreams {
          RedirectedWellFormed(usecaseList, outStreams, inStreams, s, device);
          inStreams := inStreams[s := inStreams[s].(device := device)];
        }
    }

    /** Starts a playback, a capture or a call, if its caller may. */
    method Start(r: Request)
      requires Valid()
      requires r.StartOutput? || r.StartInput? || r.BeginCall?
      modifies this, sndDevRefCnt
      ensures Valid() && Followed(r.env, old(course), course)
      ensures Here() == Performed(platform, old(Here()), r)
      ensures old(Calm()) ==> Calm()
    {
      match r
      case StartOutput(env, s, ready, opens, usbReset) =>
        if s in outStreams && CanJoin(usecaseList, outStreams[s].usecase) {
          var _ := StartOutputStream(env, s, ready, opens, usbReset);
        }
      case StartInput(env, s, id, ready, opens) =>
        if s in inStreams && CanJoin(usecaseList, id) && !InCallMusic(id) && NotRecording(usecaseList, s) {
          var _ := StartInputStream(env, s, id, ready, opens);
        }
      case BeginCall(env, id, hfp, s, opens) =>
        if s in outStreams && CanJoin(usecaseList, id) && !InCallMusic(id) {
          var _ := StartCall(env, id, if hfp then PcmHfpCall else VoiceCall, s, opens);
        }
    }

    /** Stops a playback, a capture or a call. */
    method Stop(r: Request)
      requires Valid()
      requires r.StopOutput? || r.StopInput? || r.EndCall?
      modifies this`course, this`usecaseList, sndDevRefCnt
      ensures Valid() && Followed(r.env, old(course), course)
      ensures Here() == Performed(platform, old(Here()), r)
      ensures old(Calm()) ==> Calm()
    {
      match r
      case StopOutput(env, s, usbReset) =>
        if s in outStreams {
          var _ := StopOutputStream(env, s, usbReset);
        }
      case StopInput(env, s) =>
        if s in inStreams {
          var _ := StopInputStream(env, s);
        }
      case EndCall(env, id) =>
        var _ := StopCall(id);
    }

    /** Routes an active use case again, or moves the voice calls. */
    method Route(r: Request)
      requires Valid()
      requires r.RouteAgain? || r.UpdateVoice?
      modifies this`course, this`usecaseList, sndDevRefCnt
      ensures Valid() && Followed(r.env, old(course), course)
      ensures Here() == Performed(platform, old(Here()), r)
      ensures old(Calm()) ==> Calm()
    {
      match r
      case RouteAgain(env, id, force) =>
        Reroute(env, id, force);
      case UpdateVoice(env, s) =>
        if s in outStreams {
          UpdateVoiceUsecases(env, s);
        }
    }

    /** Performs one request, or skips it when its caller's obligations are not met. */
    method Perform(r: Request)
      requires Valid()
      modifies this, sndDevRefCnt
      ensures Valid() && Followed(r.env, old(course), course)
      ensures Here() == Performed(platform, old(Here()), r)
      ensures old(Calm()) ==> Calm()
    {
      if r.OpenOutput? || r.OpenInput? || r.SetOutDevices? || r.SetInDevice? {
        Configure(r);
      } else if r.StartOutput? || r.StartInput? || r.BeginCall? {
        Start(r);
      } else if r.RouteAgain? || r.UpdateVoice? {
        Route(r);
      } else {
        Stop(r);
      }
    }

    /** Performs any sequence of requests, skipping those whose caller obligations are not met. The state
      afterwards is `Ran`: it says exactly when a device that had to start failed and when a routing left two
      use cases competing. While neither happened the counts obey the conservation law and no two use
      cases compete for a backend; if then no use case is left all counts are zero. On a board that fits
      a discipline, requests that keep to it never let use cases compete. */
    method Run(requests: seq<Request>)
      requires Valid() && Calm()
      modifies this, sndDevRefCnt
      ensures Valid() && Calm()
      ensures Here() == Ran(platform, old(Here()), requests)
      ensures (forall r | r in requests :: r.env.NothingFailsToStart()) ==> course.clean == old(course.clean)
      ensures usecaseList == [] && course.clean ==> forall d | platform.splitting.Device(d) :: sndDevRefCnt[d] == 0
      ensures forall d: Discipline {:trigger FitBoard(platform, d)} ::
                FitBoard(platform, d) && old(SteadyScene(platform, d, Here()))
                && (forall r | r in requests :: FitRequest(platform, d, r)) ==>
                  Settled(platform, usecaseList) && course.calm == old(course.calm)
    {
      for i := 0 to |requests|
        invariant Valid() && Calm() && Here() == Ran(platform, old(Here()), requests[..i])
        invariant (forall r | r in requests :: r.env.NothingFailsToStart()) ==> course.clean == old(course.clean)
      {
        assert requests[i] in requests && requests[..i + 1][..i] == requests[..i];
        Perform(requests[i]);
      }
      assert requests[..|requests|] == requests;
      if usecaseList == [] && course.clean {
        IdleMeansZero();
      }
      forall d: Discipline | FitBoard(platform, d) && old(SteadyScene(platform, d, Here()))
                             && forall r | r in requests :: FitRequest(platform, d, r)
        ensures Settled(platform, usecaseList) && course.calm == old(course.calm)
      {
        FitRunStaysCalm(platform, d, old(Here()), requests);
      }
    }
  }
}
