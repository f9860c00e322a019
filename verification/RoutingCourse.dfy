/** What a request makes of the routing state, its reference counts included, and exactly when a
  device that had to start failed or use cases are left competing. */
module RoutingCourse {
  import opened DeviceCounts
  import opened RoutingConflicts
  import opened RoutingRules
  import opened Wrappers

  // ---------------------------------------------------------------- devices given up and taken

  /** The reference counts, and the course so far. */
  datatype Account = Account(counts: seq<int>, course: Course) {
    predicate Fits(p: Platform) {
      |counts| == p.splitting.sndDeviceMax
    }
  }

  /** `d` is enabled once more; it is unclean if a device that has to start fails. */
  ghost function AfterEnable(p: Platform, env: Env, d: SndDevice, a: Account): (r: Account)
    requires p.WellFormed() && a.Fits(p)
    ensures r.Fits(p)
  {
    Account(Enabled(p.splitting, env.starts, a.counts, d),
            a.course.(clean := a.course.clean && p.splitting.StartsCleanly(a.counts, env.starts, d)))
  }

  ghost function AfterDisable(p: Platform, d: SndDevice, a: Account): (r: Account)
    requires p.WellFormed() && a.Fits(p)
    ensures r.Fits(p)
  {
    a.(counts := Disabled(p.splitting, a.counts, d))
  }

  /** The devices from index `i` on are enabled in order. */
  ghost function AfterEnables(p: Platform, env: Env, devices: seq<Option<SndDevice>>, i: nat, a: Account): (r: Account)
    requires p.WellFormed() && a.Fits(p) && i <= |devices|
    ensures r.Fits(p)
    decreases |devices| - i
  {
    if i == |devices| then a
    else
      AfterEnables(p, env, devices, i + 1, if devices[i].Some? then AfterEnable(p, env, devices[i].value, a) else a)
  }

  /** The devices from index `i` on are disabled in order. */
  ghost function AfterDisables(p: Platform, devices: seq<Option<SndDevice>>, i: nat, a: Account): (r: Account)
    requires p.WellFormed() && a.Fits(p) && i <= |devices|
    ensures r.Fits(p)
    decreases |devices| - i
  {
    if i == |devices| then a
    else AfterDisables(p, devices, i + 1, if devices[i].Some? then AfterDisable(p, devices[i].value, a) else a)
  }

  /** The devices of marked use cases. */
  ghost function Marked(list: seq<Usecase>, marks: seq<bool>, devices: seq<SndDevice>): (r: seq<Option<SndDevice>>)
    requires |devices| == |list| && |marks| == AUDIO_USECASE_MAX
    requires forall j | 0 <= j < |list| :: 0 <= list[j].id < AUDIO_USECASE_MAX
    ensures |r| == |list|
  {
    seq(|list|, k requires 0 <= k < |list| => if marks[list[k].id] then Some(devices[k]) else None)
  }

  /** The devices the use cases are on. */
  ghost function SndsOf(list: seq<Usecase>, output: bool): (r: seq<SndDevice>)
    ensures |r| == |list|
  {
    seq(|list|, k requires 0 <= k < |list| => SndOf(list[k], output))
  }

  /** What each use case that makes way for `info` on `d` leaves, and what it takes. */
  ghost function PlaybackLeaves(p: Platform, force: bool, list: seq<Usecase>, info: Usecase, d: SndDevice)
    : (r: seq<Option<SndDevice>>)
    ensures |r| == |list|
  {
    seq(|list|, k requires 0 <= k < |list| =>
      if SwitchesPlayback(p, force, info, d, list[k]) then Some(list[k].outSnd) else None)
  }

  ghost function PlaybackTakes(p: Platform, force: bool, outs: map<int, StreamOut>, list: seq<Usecase>, info: Usecase,
                               d: SndDevice): (r: seq<Option<SndDevice>>)
    ensures |r| == |list|
  {
    seq(|list|, k requires 0 <= k < |list| =>
      if SwitchesPlayback(p, force, info, d, list[k]) then Some(Derived(p, outs, info, d, list[k])) else None)
  }

  /** Other use cases made way for `info` on `d`. */
  ghost function AfterPlayback(p: Platform, env: Env, force: bool, outs: map<int, StreamOut>, list: seq<Usecase>,
                               info: Usecase, d: SndDevice, a: Account): (r: Account)
    requires p.WellFormed() && a.Fits(p)
    ensures r.Fits(p)
  {
    AfterEnables(p, env, PlaybackTakes(p, force, outs, list, info, d), 0,
      AfterDisables(p, PlaybackLeaves(p, force, list, info, d), 0, a))
  }

  /** What each capture that follows `info` to `d` leaves, and what it takes. */
  ghost function CaptureLeaves(p: Platform, list: seq<Usecase>, info: Usecase, d: SndDevice)
    : (r: seq<Option<SndDevice>>)
    ensures |r| == |list|
  {
    seq(|list|, k requires 0 <= k < |list| =>
      if SwitchesCapture(p, info, d, list[k]) then Some(list[k].inSnd) else None)
  }

  ghost function CaptureTakes(p: Platform, list: seq<Usecase>, info: Usecase, d: SndDevice)
    : (r: seq<Option<SndDevice>>)
    ensures |r| == |list|
  {
    seq(|list|, k requires 0 <= k < |list| => if SwitchesCapture(p, info, d, list[k]) then Some(d) else None)
  }

  /** Captures followed `info` to `d`. */
  ghost function AfterCapture(p: Platform, env: Env, list: seq<Usecase>, info: Usecase, d: SndDevice, a: Account)
    : (r: Account)
    requires p.WellFormed() && a.Fits(p)
    ensures r.Fits(p)
  {
    AfterEnables(p, env, CaptureTakes(p, list, info, d), 0, AfterDisables(p, CaptureLeaves(p, list, info, d), 0, a))
  }

  /** The marks of the loops name what is left and taken. */
  lemma MarkedPlayback(p: Platform, force: bool, outs: map<int, StreamOut>, list: seq<Usecase>, info: Usecase,
                       d: SndDevice, marks: seq<bool>)
    requires MarksPlayback(p, force, info, d, list, marks, |list|)
    ensures forall j | 0 <= j < |list| :: 0 <= list[j].id < AUDIO_USECASE_MAX
    ensures Marked(list, marks, SndsOf(list, true)) == PlaybackLeaves(p, force, list, info, d)
    ensures Marked(list, marks, DerivedDevices(p, outs, info, d, list)) == PlaybackTakes(p, force, outs, list, info, d)
  {
    assert forall j | 0 <= j < |list| :: 0 <= list[j].id < AUDIO_USECASE_MAX;
  }

  lemma MarkedCapture(p: Platform, list: seq<Usecase>, info: Usecase, d: SndDevice, marks: seq<bool>)
    requires MarksCapture(p, info, d, list, marks, |list|)
    ensures forall j | 0 <= j < |list| :: 0 <= list[j].id < AUDIO_USECASE_MAX
    ensures Marked(list, marks, SndsOf(list, false)) == CaptureLeaves(p, list, info, d)
    ensures Marked(list, marks, SameDevice(d, |list|)) == CaptureTakes(p, list, info, d)
  {
    assert forall j | 0 <= j < |list| :: 0 <= list[j].id < AUDIO_USECASE_MAX;
  }

  /** While the course is clean the counts obey the conservation law. */
  ghost predicate Conserves(p: Platform, a: Account, held: multiset<SndDevice>)
    requires a.Fits(p)
  {
    a.course.clean ==> p.splitting.Conserved(a.counts, held)
  }

  /** What use cases hold when those from index `i` on gave up the devices named. */
  ghost function Dropped(held: seq<multiset<SndDevice>>, devices: seq<Option<SndDevice>>, i: nat)
    : (rest: seq<multiset<SndDevice>>)
    requires |held| == |devices|
    ensures |rest| == |held|
  {
    seq(|held|, k requires 0 <= k < |held| =>
      if i <= k && devices[k].Some? then held[k] - multiset{devices[k].value} else held[k])
  }

  /** What use cases hold when those from index `i` on took the devices named. */
  ghost function Added(rest: seq<multiset<SndDevice>>, devices: seq<Option<SndDevice>>, i: nat)
    : (held: seq<multiset<SndDevice>>)
    requires |rest| == |devices|
    ensures |held| == |rest|
  {
    seq(|rest|, k requires 0 <= k < |rest| =>
      if i <= k && devices[k].Some? then rest[k] + multiset{devices[k].value} else rest[k])
  }

  lemma DisableKeeps(p: Platform, d: SndDevice, a: Account, held: seq<multiset<SndDevice>>, k: nat)
    requires p.WellFormed() && a.Fits(p) && Conserves(p, a, Union(held)) && k < |held| && d in held[k]
    ensures Conserves(p, AfterDisable(p, d, a), Union(held[k := held[k] - multiset{d}]))
  {
    UnionDrop(held, k, d);
    if a.course.clean {
      DisableConserves(p.splitting, a.counts, Union(held), d);
    }
  }

  lemma EnableKeeps(p: Platform, env: Env, d: SndDevice, a: Account, held: seq<multiset<SndDevice>>, k: nat)
    requires p.WellFormed() && a.Fits(p) && Conserves(p, a, Union(held)) && k < |held|
    ensures Conserves(p, AfterEnable(p, env, d, a), Union(held[k := held[k] + multiset{d}]))
  {
    UnionAdd(held, k, d);
    if a.course.clean && p.splitting.StartsCleanly(a.counts, env.starts, d) {
      EnableConserves(p.splitting, env.starts, a.counts, Union(held), d);
    }
  }

  /** Every use case gives up a device it holds: the law holds for the rest. */
  lemma {:induction false} DisablesKeep(p: Platform, devices: seq<Option<SndDevice>>, i: nat, a: Account,
                                        held: seq<multiset<SndDevice>>)
    requires p.WellFormed() && a.Fits(p) && i <= |devices| == |held| && Conserves(p, a, Union(held))
    requires forall k | i <= k < |held| && devices[k].Some? :: devices[k].value in held[k]
    ensures Conserves(p, AfterDisables(p, devices, i, a), Union(Dropped(held, devices, i)))
    decreases |devices| - i
  {
    DroppedStep(held, devices, i);
    if i < |devices| {
      if devices[i].Some? {
        var d := devices[i].value;
        var rest := held[i := held[i] - multiset{d}];
        DisableKeeps(p, d, a, held, i);
        DisablesKeep(p, devices, i + 1, AfterDisable(p, d, a), rest);
      } else {
        DisablesKeep(p, devices, i + 1, a, held);
      }
    }
  }

  lemma DroppedStep(held: seq<multiset<SndDevice>>, devices: seq<Option<SndDevice>>, i: nat)
    requires i <= |held| == |devices|
    ensures i == |held| ==> Dropped(held, devices, i) == held
    ensures i < |held| ==>
              var rest := if devices[i].Some? then held[i := held[i] - multiset{devices[i].value}] else held;
              Dropped(held, devices, i) == Dropped(rest, devices, i + 1)
  {
  }

  /** Every use case takes its device: the law holds for all of them, while every device starts. */
  lemma {:induction false} EnablesKeep(p: Platform, env: Env, devices: seq<Option<SndDevice>>, i: nat, a: Account,
                                       rest: seq<multiset<SndDevice>>)
    requires p.WellFormed() && a.Fits(p) && i <= |devices| == |rest| && Conserves(p, a, Union(rest))
    ensures Conserves(p, AfterEnables(p, env, devices, i, a), Union(Added(rest, devices, i)))
    decreases |devices| - i
  {
    if i == |devices| {
      assert Added(rest, devices, i) == rest;
    } else {
      match devices[i]
      case None =>
        EnablesKeep(p, env, devices, i + 1, a, rest);
        assert Added(rest, devices, i + 1) == Added(rest, devices, i);
      case Some(d) =>
        var held := rest[i := rest[i] + multiset{d}];
        EnableKeeps(p, env, d, a, rest, i);
        EnablesKeep(p, env, devices, i + 1, AfterEnable(p, env, d, a), held);
        assert Added(held, devices, i + 1) == Added(rest, devices, i);
    }
  }

  lemma EnableFollows(p: Platform, env: Env, d: SndDevice, a: Account)
    requires p.WellFormed() && a.Fits(p)
    ensures Followed(env, a.course, AfterEnable(p, env, d, a).course)
  {
    if env.NothingFailsToStart() {
      AllStartsAreClean(p.splitting, a.counts, env.starts, d);
    }
  }

  lemma {:induction false} EnablesFollow(p: Platform, env: Env, devices: seq<Option<SndDevice>>, i: nat, a: Account)
    requires p.WellFormed() && a.Fits(p) && i <= |devices|
    ensures var r := AfterEnables(p, env, devices, i, a);
            Followed(env, a.course, r.course) && r.course.calm == a.course.calm
    decreases |devices| - i
  {
    if i < |devices| {
      if devices[i].Some? {
        EnableFollows(p, env, devices[i].value, a);
      }
      EnablesFollow(p, env, devices, i + 1, if devices[i].Some? then AfterEnable(p, env, devices[i].value, a) else a);
    }
  }

  /** Marked use cases left their devices. */
  lemma MarkedLeft(list: seq<Usecase>, start: seq<multiset<SndDevice>>, marks: seq<bool>, output: bool)
    requires |list| == |start| && |marks| == AUDIO_USECASE_MAX
    requires forall j | 0 <= j < |list| :: 0 <= list[j].id < AUDIO_USECASE_MAX
    ensures Left(list, start, Dropped(start, Marked(list, marks, SndsOf(list, output)), 0), marks, output, |list|)
  {
    var rest := Dropped(start, Marked(list, marks, SndsOf(list, output)), 0);
    forall j | 0 <= j < |list|
      ensures rest[j] == if marks[list[j].id] then start[j] - multiset{SndOf(list[j], output)} else start[j]
    {
      assert list[j] == list[j];
    }
  }

  /** The first `n` use cases took the outputs named. */
  ghost predicate TookOutputs(from: seq<Usecase>, to: seq<Usecase>, devices: seq<Option<SndDevice>>, n: nat) {
    && |from| == |to| == |devices|
    && forall j {:trigger to[j]} | 0 <= j < |to| ::
         to[j] == if j < n && devices[j].Some? then from[j].(outSnd := devices[j].value) else from[j]
  }

  /** Marked use cases took their outputs. */
  lemma MarkedTook(from: seq<Usecase>, to: seq<Usecase>, rest: seq<multiset<SndDevice>>, marks: seq<bool>,
                   devices: seq<SndDevice>)
    requires |from| == |rest| == |devices| && |marks| == AUDIO_USECASE_MAX
    requires forall j | 0 <= j < |from| :: 0 <= from[j].id < AUDIO_USECASE_MAX
    requires TookOutputs(from, to, Marked(from, marks, devices), |from|)
    ensures Took(from, to, rest, Added(rest, Marked(from, marks, devices), 0), marks, true, devices, |from|)
  {
    var held := Added(rest, Marked(from, marks, devices), 0);
    forall j | 0 <= j < |from|
      ensures to[j] == if marks[from[j].id] then WithSnd(from[j], true, devices[j]) else from[j]
      ensures held[j] == if marks[from[j].id] then rest[j] + multiset{devices[j]} else rest[j]
    {
      assert to[j] == to[j];
    }
  }

  /** Marked use cases took `d`. */
  lemma MarkedTookDevice(list: seq<Usecase>, rest: seq<multiset<SndDevice>>, marks: seq<bool>, d: SndDevice)
    requires |list| == |rest| && |marks| == AUDIO_USECASE_MAX
    requires forall j | 0 <= j < |list| :: 0 <= list[j].id < AUDIO_USECASE_MAX
    ensures TookDevice(list, rest, Added(rest, Marked(list, marks, SameDevice(d, |rest|)), 0), marks, d, |list|)
  {
    var held := Added(rest, Marked(list, marks, SameDevice(d, |rest|)), 0);
    forall j | 0 <= j < |list|
      ensures held[j] == if marks[list[j].id] then rest[j] + multiset{d} else rest[j]
    {
      assert list[j] == list[j];
    }
  }

  lemma {:induction false} NothingChanges(p: Platform, env: Env, devices: seq<Option<SndDevice>>, i: nat, a: Account)
    requires p.WellFormed() && a.Fits(p) && i <= |devices| && forall k | 0 <= k < |devices| :: devices[k].None?
    ensures AfterEnables(p, env, devices, i, a) == a && AfterDisables(p, devices, i, a) == a
    decreases |devices| - i
  {
    if i < |devices| {
      NothingChanges(p, env, devices, i + 1, a);
    }
  }

  /** Where nobody is in the way nothing changes. */
  lemma NobodyMoves(p: Platform, env: Env, force: bool, outs: map<int, StreamOut>, list: seq<Usecase>, info: Usecase,
                    d: SndDevice, a: Account)
    requires p.WellFormed() && a.Fits(p)
    requires forall j | 0 <= j < |list| :: !SwitchesPlayback(p, force, info, d, list[j])
    ensures AfterPlayback(p, env, force, outs, list, info, d, a) == a
    ensures RoutedPlayback(p, force, outs, list, info, d) == list
  {
    NothingChanges(p, env, PlaybackLeaves(p, force, list, info, d), 0, a);
    NothingChanges(p, env, PlaybackTakes(p, force, outs, list, info, d), 0, a);
  }

  lemma NobodyFollows(p: Platform, env: Env, list: seq<Usecase>, info: Usecase, d: SndDevice, a: Account)
    requires p.WellFormed() && a.Fits(p) && forall j | 0 <= j < |list| :: !SwitchesCapture(p, info, d, list[j])
    ensures AfterCapture(p, env, list, info, d, a) == a && RoutedCapture(p, list, info, d) == list
  {
    NothingChanges(p, env, CaptureLeaves(p, list, info, d), 0, a);
    NothingChanges(p, env, CaptureTakes(p, list, info, d), 0, a);
  }

  // ---------------------------------------------------------------- select_devices

  /** `u` gave up its devices. */
  ghost function AfterRelease(p: Platform, u: Usecase, a: Account): (r: Account)
    requires p.WellFormed() && a.Fits(p)
    ensures r.Fits(p)
  {
    AfterDisable(p, u.inSnd, AfterDisable(p, u.outSnd, a))
  }

  /** `u` gave up its devices, others made way and it took `out`. */
  ghost function AfterOutput(p: Platform, env: Env, outs: map<int, StreamOut>, list: seq<Usecase>, u: Usecase,
                             out: SndDevice, a: Account): (r: Account)
    requires p.WellFormed() && a.Fits(p)
    ensures r.Fits(p)
  {
    var released := AfterRelease(p, u, a);
    AfterEnable(p, env, out,
      if RoutesPlayback(p, u, out) then
        AfterPlayback(p, env, ForceRouting(p, env, u, out), outs, list, u, out, released)
      else released)
  }

  /** Captures followed `u` to `in_`, if it is set, and it took it. */
  ghost function AfterInput(p: Platform, env: Env, list: seq<Usecase>, u: Usecase, in_: SndDevice, a: Account)
    : (r: Account)
    requires p.WellFormed() && a.Fits(p)
    ensures r.Fits(p)
  {
    AfterEnable(p, env, in_, if in_ != SND_DEVICE_NONE then AfterCapture(p, env, list, u, in_, a) else a)
  }

  /** Use case `k` moved to the devices of `c`. */
  ghost function AfterMove(p: Platform, env: Env, outs: map<int, StreamOut>, list: seq<Usecase>, k: nat, c: Choice,
                           force: bool, a: Account): (r: Account)
    requires p.WellFormed() && a.Fits(p) && k < |list|
    ensures r.Fits(p)
  {
    var u, out := list[k], FinalOutput(p, env, list[k].id, c.outSnd);
    var l1 := if RoutesPlayback(p, u, out) then RoutedPlayback(p, ForceRouting(p, env, u, out), outs, list, u, out)
      else list;
    if KeepsDevices(p, env, outs, u, c, force) then a
    else AfterInput(p, env, l1, u, c.inSnd, AfterOutput(p, env, outs, list, u, out, a))
  }

  /** The same, with an eye on the others: it is not calm if the move leaves two use cases competing. */
  ghost function AfterSwitch(p: Platform, env: Env, outs: map<int, StreamOut>, list: seq<Usecase>, k: nat, c: Choice,
                             force: bool, a: Account): (r: Account)
    requires p.WellFormed() && a.Fits(p) && k < |list|
    ensures r.Fits(p)
  {
    var moved := AfterMove(p, env, outs, list, k, c, force, a);
    moved.(course := moved.course.(calm := moved.course.calm && !Disturbs(p, env, outs, list, k, c, force)))
  }

  /** select_devices for a capture. */
  ghost function AfterSelectOne(p: Platform, env: Env, outs: map<int, StreamOut>, ins: map<int, StreamIn>,
                                list: seq<Usecase>, id: int, force: bool, a: Account): (r: Account)
    requires p.WellFormed() && a.Fits(p)
    ensures r.Fits(p)
  {
    match FindUsecase(list, id)
    case None => a
    case Some(k) =>
      var c := ChooseDevices(p, env, outs, ins, list, list[k]);
      AfterMove(p, env, outs, list[k := list[k].(devices := c.devices)], k, c, force, a)
  }

  /** select_devices. */
  ghost function AfterSelect(p: Platform, env: Env, outs: map<int, StreamOut>, ins: map<int, StreamIn>,
                             list: seq<Usecase>, id: int, force: bool, a: Account): (r: Account)
    requires p.WellFormed() && a.Fits(p)
    ensures r.Fits(p)
  {
    match FindUsecase(list, id)
    case None => a
    case Some(k) =>
      var c := ChooseDevices(p, env, outs, ins, list, list[k]);
      var l1 := list[k := list[k].(devices := c.devices)];
      if c.voipIn.Some? then
        AfterSwitch(p, env, outs, SelectedOne(p, env, outs, ins, l1, c.voipIn.value, false), k, c, force,
          AfterSelectOne(p, env, outs, ins, l1, c.voipIn.value, false, a))
      else AfterSwitch(p, env, outs, l1, k, c, force, a)
  }

  /** Selecting devices for a capture selects for no other use case, and disturbs nobody. */
  lemma CaptureSelectedAlone(p: Platform, env: Env, outs: map<int, StreamOut>, ins: map<int, StreamIn>,
                             list: seq<Usecase>, id: int, force: bool, a: Account)
    requires p.WellFormed() && a.Fits(p) && WellFormedList(list, outs, ins)
    requires var f := FindUsecase(list, id); f.Some? && list[f.value].kind.PcmCapture?
    ensures AfterSelect(p, env, outs, ins, list, id, force, a) == AfterSelectOne(p, env, outs, ins, list, id, force, a)
  {
    CaptureDisturbsNobody(p, env, outs, ins, list, id, force);
  }

  lemma {:induction false} DisablesKeepCourse(p: Platform, devices: seq<Option<SndDevice>>, i: nat, a: Account)
    requires p.WellFormed() && a.Fits(p) && i <= |devices|
    ensures AfterDisables(p, devices, i, a).course == a.course
    decreases |devices| - i
  {
    if i < |devices| {
      DisablesKeepCourse(p, devices, i + 1, if devices[i].Some? then AfterDisable(p, devices[i].value, a) else a);
    }
  }

  lemma MoveKeepsCalm(p: Platform, env: Env, outs: map<int, StreamOut>, list: seq<Usecase>, k: nat, c: Choice,
                      force: bool, a: Account)
    requires p.WellFormed() && a.Fits(p) && k < |list|
    ensures AfterMove(p, env, outs, list, k, c, force, a).course.calm == a.course.calm
  {
    var u, out := list[k], FinalOutput(p, env, list[k].id, c.outSnd);
    var l1 := if RoutesPlayback(p, u, out) then RoutedPlayback(p, ForceRouting(p, env, u, out), outs, list, u, out)
      else list;
    OutputFollows(p, env, outs, list, u, out, a);
    InputFollows(p, env, l1, u, c.inSnd, AfterOutput(p, env, outs, list, u, out, a));
  }

  /** select_devices leaves the course calm exactly when it disturbs nobody. */
  lemma SelectCalmIff(p: Platform, env: Env, outs: map<int, StreamOut>, ins: map<int, StreamIn>, list: seq<Usecase>,
                      id: int, force: bool, a: Account)
    requires p.WellFormed() && a.Fits(p)
    ensures AfterSelect(p, env, outs, ins, list, id, force, a).course.calm <==>
            a.course.calm && !SelectedDisturbs(p, env, outs, ins, list, id, force)
  {
    var f := FindUsecase(list, id);
    if f.Some? {
      var k := f.value;
      var c := ChooseDevices(p, env, outs, ins, list, list[k]);
      var l1 := list[k := list[k].(devices := c.devices)];
      if c.voipIn.Some? {
        SelectOneKeepsCalm(p, env, outs, ins, l1, c.voipIn.value, false, a);
        MoveKeepsCalm(p, env, outs, SelectedOne(p, env, outs, ins, l1, c.voipIn.value, false), k, c, force,
          AfterSelectOne(p, env, outs, ins, l1, c.voipIn.value, false, a));
      } else {
        MoveKeepsCalm(p, env, outs, l1, k, c, force, a);
      }
    }
  }

  lemma SelectOneKeepsCalm(p: Platform, env: Env, outs: map<int, StreamOut>, ins: map<int, StreamIn>,
                           list: seq<Usecase>, id: int, force: bool, a: Account)
    requires p.WellFormed() && a.Fits(p)
    ensures AfterSelectOne(p, env, outs, ins, list, id, force, a).course.calm == a.course.calm
  {
    var f := FindUsecase(list, id);
    if f.Some? {
      var k := f.value;
      var c := ChooseDevices(p, env, outs, ins, list, list[k]);
      MoveKeepsCalm(p, env, outs, list[k := list[k].(devices := c.devices)], k, c, force, a);
    }
  }

  // ---------------------------------------------------------------- what select_devices keeps

  /** Agreement of two use cases in all but the devices they are on. */
  predicate SameRequest(u: Usecase, v: Usecase) {
    u.id == v.id && u.kind == v.kind && u.stream == v.stream && u.devices == v.devices
  }

  lemma SwitchedKeepsRequests(p: Platform, env: Env, outs: map<int, StreamOut>, list: seq<Usecase>, k: nat, c: Choice,
                              force: bool)
    requires k < |list|
    ensures var r := Switched(p, env, outs, list, k, c, force);
            forall j | 0 <= j < |list| :: SameRequest(list[j], r[j])
  {
  }

  lemma SwitchedWellFormed(p: Platform, env: Env, outs: map<int, StreamOut>, ins: map<int, StreamIn>,
                           list: seq<Usecase>, k: nat, c: Choice, force: bool)
    requires p.WellFormed() && WellFormedList(list, outs, ins) && k < |list|
    requires list[k].kind.PcmCapture? ==> c.outSnd == SND_DEVICE_NONE
    requires list[k].kind.PcmPlayback? ==> c.inSnd == SND_DEVICE_NONE
    ensures WellFormedList(Switched(p, env, outs, list, k, c, force), outs, ins)
  {
    var u, out := list[k], FinalOutput(p, env, list[k].id, c.outSnd);
    assert WellLinked(u, outs, ins);
    if !KeepsDevices(p, env, outs, u, c, force) {
      var l1 := if RoutesPlayback(p, u, out) then RoutedPlayback(p, ForceRouting(p, env, u, out), outs, list, u, out)
        else list;
      RoutedPlaybackWellFormed(p, ForceRouting(p, env, u, out), outs, ins, list, u, out);
      var l2 := if c.inSnd != SND_DEVICE_NONE then RoutedCapture(p, l1, u, c.inSnd) else l1;
      RoutedCaptureWellFormed(p, outs, ins, l1, u, c.inSnd);
      assert WellLinked(l2[k], outs, ins) && SameRequest(u, l2[k]);
      ReplaceWellFormed(outs, ins, l2, k, l2[k].(outSnd := out, inSnd := c.inSnd));
    }
  }

  /** The list on which select_devices moves use case `k`. */
  ghost function BeforeMove(p: Platform, env: Env, outs: map<int, StreamOut>, ins: map<int, StreamIn>,
                            list: seq<Usecase>, k: nat): (r: seq<Usecase>)
    requires k < |list|
    ensures |r| == |list|
  {
    var c := ChooseDevices(p, env, outs, ins, list, list[k]);
    var l1 := list[k := list[k].(devices := c.devices)];
    if c.voipIn.Some? then SelectedOne(p, env, outs, ins, l1, c.voipIn.value, false) else l1
  }

  /** It is well formed and, but for the input of a capture routed ahead, differs from the list only in
    what `k` asks for. */
  lemma BeforeMoveKeeps(p: Platform, env: Env, outs: map<int, StreamOut>, ins: map<int, StreamIn>, list: seq<Usecase>,
                        k: nat)
    requires p.WellFormed() && WellFormedList(list, outs, ins) && k < |list|
    ensures var l1 := list[k := list[k].(devices := ChooseDevices(p, env, outs, ins, list, list[k]).devices)];
            var l2 := BeforeMove(p, env, outs, ins, list, k);
            && WellFormedList(l2, outs, ins) && l2[k] == l1[k]
            && forall j | 0 <= j < |list| :: SameOutput(l2[j], l1[j])
  {
    var c := ChooseDevices(p, env, outs, ins, list, list[k]);
    var l1 := list[k := list[k].(devices := c.devices)];
    assert WellLinked(list[k], outs, ins);
    ReplaceWellFormed(outs, ins, list, k, l1[k]);
    ChoiceFits(p, env, outs, ins, list, list[k]);
    if c.voipIn.Some? {
      VoipInputIsCapture(p, env, outs, ins, list, list[k]);
      SameFind(list, l1, c.voipIn.value);
      SelectedOneKeepsOthers(p, env, outs, ins, l1, c.voipIn.value, false, k);
      SelectedOneKeepsOutputs(p, env, outs, ins, l1, c.voipIn.value, false);
      SelectedOneWellFormed(p, env, outs, ins, l1, c.voipIn.value, false);
    }
  }

  lemma SelectedOneWellFormed(p: Platform, env: Env, outs: map<int, StreamOut>, ins: map<int, StreamIn>,
                              list: seq<Usecase>, id: int, force: bool)
    requires p.WellFormed() && WellFormedList(list, outs, ins) && FindUsecase(list, id).Some?
    ensures WellFormedList(SelectedOne(p, env, outs, ins, list, id, force), outs, ins)
  {
    var k := FindUsecase(list, id).value;
    var c := ChooseDevices(p, env, outs, ins, list, list[k]);
    assert WellLinked(list[k], outs, ins);
    var l1 := list[k := list[k].(devices := c.devices)];
    ReplaceWellFormed(outs, ins, list, k, l1[k]);
    ChoiceFits(p, env, outs, ins, list, list[k]);
    SwitchedWellFormed(p, env, outs, ins, l1, k, c, force);
  }

  /** But for the use case to be moved, the others are as settled as before. */
  lemma BeforeMoveSettled(p: Platform, env: Env, outs: map<int, StreamOut>, ins: map<int, StreamIn>,
                          list: seq<Usecase>, k: nat)
    requires p.WellFormed() && WellFormedList(list, outs, ins) && k < |list| && Settled(p, list)
    ensures var l2 := BeforeMove(p, env, outs, ins, list, k); SettledBut(p, l2, l2[k].id)
  {
    var l1 := list[k := list[k].(devices := ChooseDevices(p, env, outs, ins, list, list[k]).devices)];
    BeforeMoveKeeps(p, env, outs, ins, list, k);
    ReplacedSettled(p, list, k, l1[k]);
    SameOutputsSettled(p, BeforeMove(p, env, outs, ins, list, k), l1, l1[k].id);
  }

  lemma SelectedWellFormed(p: Platform, env: Env, outs: map<int, StreamOut>, ins: map<int, StreamIn>,
                           list: seq<Usecase>, id: int, force: bool)
    requires p.WellFormed() && WellFormedList(list, outs, ins)
    ensures WellFormedList(Selected(p, env, outs, ins, list, id, force), outs, ins)
  {
    var f := FindUsecase(list, id);
    if f.Some? {
      var k := f.value;
      BeforeMoveKeeps(p, env, outs, ins, list, k);
      ChoiceFits(p, env, outs, ins, list, list[k]);
      SwitchedWellFormed(p, env, outs, ins, BeforeMove(p, env, outs, ins, list, k), k,
        ChooseDevices(p, env, outs, ins, list, list[k]), force);
    }
  }

  /** Exact condition: select_devices keeps a settled list settled if and only if it disturbs nobody. */
  lemma SelectedSettledIff(p: Platform, env: Env, outs: map<int, StreamOut>, ins: map<int, StreamIn>,
                           list: seq<Usecase>, id: int, force: bool)
    requires p.WellFormed() && WellFormedList(list, outs, ins) && Settled(p, list)
    ensures Settled(p, Selected(p, env, outs, ins, list, id, force)) <==>
            !SelectedDisturbs(p, env, outs, ins, list, id, force)
  {
    var f := FindUsecase(list, id);
    if f.Some? {
      var k := f.value;
      var c := ChooseDevices(p, env, outs, ins, list, list[k]);
      BeforeMoveKeeps(p, env, outs, ins, list, k);
      BeforeMoveSettled(p, env, outs, ins, list, k);
      SwitchedSettledIff(p, env, outs, BeforeMove(p, env, outs, ins, list, k), k, c, force);
    }
  }

  lemma MoveFollows(p: Platform, env: Env, outs: map<int, StreamOut>, list: seq<Usecase>, k: nat, c: Choice,
                    force: bool, a: Account)
    requires p.WellFormed() && a.Fits(p) && k < |list|
    ensures Followed(env, a.course, AfterMove(p, env, outs, list, k, c, force, a).course)
  {
    var u, out := list[k], FinalOutput(p, env, list[k].id, c.outSnd);
    if !KeepsDevices(p, env, outs, u, c, force) {
      OutputFollows(p, env, outs, list, u, out, a);
      var l1 := if RoutesPlayback(p, u, out) then RoutedPlayback(p, ForceRouting(p, env, u, out), outs, list, u, out)
        else list;
      InputFollows(p, env, l1, u, c.inSnd, AfterOutput(p, env, outs, list, u, out, a));
    }
  }

  lemma PlaybackFollows(p: Platform, env: Env, force: bool, outs: map<int, StreamOut>, list: seq<Usecase>,
                        info: Usecase, d: SndDevice, a: Account)
    requires p.WellFormed() && a.Fits(p)
    ensures var r := AfterPlayback(p, env, force, outs, list, info, d, a);
            Followed(env, a.course, r.course) && r.course.calm == a.course.calm
  {
    var leaves := PlaybackLeaves(p, force, list, info, d);
    DisablesKeepCourse(p, leaves, 0, a);
    EnablesFollow(p, env, PlaybackTakes(p, force, outs, list, info, d), 0, AfterDisables(p, leaves, 0, a));
  }

  lemma OutputFollows(p: Platform, env: Env, outs: map<int, StreamOut>, list: seq<Usecase>, u: Usecase,
                      out: SndDevice, a: Account)
    requires p.WellFormed() && a.Fits(p)
    ensures var r := AfterOutput(p, env, outs, list, u, out, a);
            Followed(env, a.course, r.course) && r.course.calm == a.course.calm
  {
    var released := AfterRelease(p, u, a);
    var force := ForceRouting(p, env, u, out);
    PlaybackFollows(p, env, force, outs, list, u, out, released);
    EnableFollows(p, env, out,
      if RoutesPlayback(p, u, out) then AfterPlayback(p, env, force, outs, list, u, out, released) else released);
  }

  lemma InputFollows(p: Platform, env: Env, list: seq<Usecase>, u: Usecase, in_: SndDevice, a: Account)
    requires p.WellFormed() && a.Fits(p)
    ensures var r := AfterInput(p, env, list, u, in_, a);
            Followed(env, a.course, r.course) && r.course.calm == a.course.calm
  {
    var leaves := CaptureLeaves(p, list, u, in_);
    DisablesKeepCourse(p, leaves, 0, a);
    EnablesFollow(p, env, CaptureTakes(p, list, u, in_), 0, AfterDisables(p, leaves, 0, a));
    EnableFollows(p, env, in_, if in_ != SND_DEVICE_NONE then AfterCapture(p, env, list, u, in_, a) else a);
  }

  lemma SelectOneFollows(p: Platform, env: Env, outs: map<int, StreamOut>, ins: map<int, StreamIn>,
                         list: seq<Usecase>, id: int, force: bool, a: Account)
    requires p.WellFormed() && a.Fits(p)
    ensures Followed(env, a.course, AfterSelectOne(p, env, outs, ins, list, id, force, a).course)
  {
    var f := FindUsecase(list, id);
    if f.Some? {
      var k := f.value;
      var c := ChooseDevices(p, env, outs, ins, list, list[k]);
      MoveFollows(p, env, outs, list[k := list[k].(devices := c.devices)], k, c, force, a);
    }
  }

  lemma SelectFollows(p: Platform, env: Env, outs: map<int, StreamOut>, ins: map<int, StreamIn>, list: seq<Usecase>,
                      id: int, force: bool, a: Account)
    requires p.WellFormed() && a.Fits(p)
    ensures Followed(env, a.course, AfterSelect(p, env, outs, ins, list, id, force, a).course)
  {
    var f := FindUsecase(list, id);
    if f.Some? {
      var k := f.value;
      var c := ChooseDevices(p, env, outs, ins, list, list[k]);
      var l1 := list[k := list[k].(devices := c.devices)];
      if c.voipIn.Some? {
        SelectOneFollows(p, env, outs, ins, l1, c.voipIn.value, false, a);
        MoveFollows(p, env, outs, SelectedOne(p, env, outs, ins, l1, c.voipIn.value, false), k, c, force,
          AfterSelectOne(p, env, outs, ins, l1, c.voipIn.value, false, a));
      } else {
        MoveFollows(p, env, outs, l1, k, c, force, a);
      }
    }
  }

  /** The fields of the audio device. */
  datatype Scene = Scene(outs: map<int, StreamOut>, ins: map<int, StreamIn>, list: seq<Usecase>, account: Account)

  /** While no routing left two use cases competing, none do. */
  ghost predicate CalmScene(p: Platform, st: Scene) {
    st.account.course.calm ==> Settled(p, st.list)
  }

  /** What a sequence of routings keeps: no use case joins or leaves, and the course follows. */
  ghost predicate Routes(p: Platform, env: Env, st: Scene, after: Scene) {
    && WellFormedList(after.list, st.outs, st.ins) && Ids(after.list) == Ids(st.list)
    && Followed(env, st.account.course, after.account.course)
    && (CalmScene(p, st) ==> CalmScene(p, after))
  }

  lemma RoutesOn(p: Platform, env: Env, a: Scene, b: Scene, c: Scene)
    requires Routes(p, env, a, b) && Routes(p, env, b, c) && b.outs == a.outs && b.ins == a.ins
    ensures Routes(p, env, a, c)
  {
  }

  /** Use case `id` is routed again by select_devices. */
  ghost function Rerouted(p: Platform, env: Env, st: Scene, id: int, force: bool): (r: Scene)
    requires p.WellFormed() && st.account.Fits(p)
    ensures r.account.Fits(p) && |r.list| == |st.list|
  {
    st.(list := Selected(p, env, st.outs, st.ins, st.list, id, force),
        account := AfterSelect(p, env, st.outs, st.ins, st.list, id, force, st.account))
  }

  lemma ReroutedRoutes(p: Platform, env: Env, st: Scene, id: int, force: bool)
    requires p.WellFormed() && st.account.Fits(p) && WellFormedList(st.list, st.outs, st.ins)
    ensures Routes(p, env, st, Rerouted(p, env, st, id, force))
  {
    SelectedWellFormed(p, env, st.outs, st.ins, st.list, id, force);
    SelectedKeepsIds(p, env, st.outs, st.ins, st.list, id, force);
    SelectFollows(p, env, st.outs, st.ins, st.list, id, force, st.account);
    SelectCalmIff(p, env, st.outs, st.ins, st.list, id, force, st.account);
    if Settled(p, st.list) {
      SelectedSettledIff(p, env, st.outs, st.ins, st.list, id, force);
    }
  }

  // ---------------------------------------------------------------- the other procedures

  /** Re-routing for the departed `u` leaves two use cases competing. */
  ghost predicate DepartedDisturbs(p: Platform, env: Env, outs: map<int, StreamOut>, list: seq<Usecase>, u: Usecase) {
    && SomeStaysInTheWay(p, outs, list, u, u.outSnd)
    && PlaysOn(p, RoutedPlayback(p, ForceRouting(p, env, u, u.outSnd), outs, list, u, u.outSnd), u.outSnd)
  }

  /** Others were re-routed for the departed `u`. */
  ghost function AfterDeparted(p: Platform, env: Env, outs: map<int, StreamOut>, list: seq<Usecase>, u: Usecase,
                               before: Account): (r: Account)
    requires p.WellFormed() && before.Fits(p)
    ensures r.Fits(p)
  {
    var moved := AfterPlayback(p, env, ForceRouting(p, env, u, u.outSnd), outs, list, u, u.outSnd, before);
    moved.(course := moved.course.(calm := moved.course.calm && !DepartedDisturbs(p, env, outs, list, u)))
  }

  /** Use case `i` is routed again, unless it is a capture other than VOIP. */
  ghost function ReroutedAt(p: Platform, env: Env, st: Scene, i: nat): (r: Scene)
    requires p.WellFormed() && st.account.Fits(p) && i < |st.list|
    ensures r.account.Fits(p) && |r.list| == |st.list|
  {
    var u := st.list[i];
    if u.kind.PcmCapture? && u.id != USECASE_AUDIO_RECORD_VOIP then st else Rerouted(p, env, st, u.id, false)
  }

  /** The use cases from index `i` on are routed again. */
  ghost function ReroutedRest(p: Platform, env: Env, st: Scene, i: nat): (r: Scene)
    requires p.WellFormed() && st.account.Fits(p)
    ensures r.account.Fits(p) && |r.list| == |st.list|
    decreases |st.list| - i
  {
    if i >= |st.list| then st else ReroutedRest(p, env, ReroutedAt(p, env, st, i), i + 1)
  }

  lemma {:induction false} ReroutedRestIs(p: Platform, env: Env, st: Scene, i: nat)
    requires p.WellFormed() && st.account.Fits(p)
    ensures var r := ReroutedRest(p, env, st, i);
            r.list == ReroutedFrom(p, env, st.outs, st.ins, st.list, i) && r.outs == st.outs && r.ins == st.ins
    decreases |st.list| - i
  {
    if i < |st.list| {
      ReroutedRestIs(p, env, ReroutedAt(p, env, st, i), i + 1);
    }
  }

  lemma {:induction false} ReroutedRestRoutes(p: Platform, env: Env, st: Scene, i: nat)
    requires p.WellFormed() && st.account.Fits(p) && WellFormedList(st.list, st.outs, st.ins)
    ensures Routes(p, env, st, ReroutedRest(p, env, st, i))
    decreases |st.list| - i
  {
    if i < |st.list| {
      var next := ReroutedAt(p, env, st, i);
      ReroutedRoutes(p, env, st, st.list[i].id, false);
      assert Routes(p, env, st, next);
      ReroutedRestRoutes(p, env, next, i + 1);
      RoutesOn(p, env, st, next, ReroutedRest(p, env, next, i + 1));
    }
  }

  ghost function AfterHandOver(p: Platform, env: Env, outs: map<int, StreamOut>, ins: map<int, StreamIn>,
                               list: seq<Usecase>, before: Account): (r: Account)
    requires p.WellFormed() && before.Fits(p)
    ensures r.Fits(p)
  {
    var next := PriorityInput(ins, list);
    if next.Some? && next.value in ins then
      AfterSelect(p, env, outs, ins, list, ins[next.value].usecase, false, before)
    else before
  }

  /** The account after stopping the use case of an input stream. */
  ghost function AfterStopInput(p: Platform, env: Env, outs: map<int, StreamOut>, ins: map<int, StreamIn>,
                                list: seq<Usecase>, s: int, before: Account): (r: Account)
    requires p.WellFormed() && before.Fits(p) && s in ins
    ensures r.Fits(p)
  {
    match FindUsecase(list, ins[s].usecase)
    case None => before
    case Some(k) =>
      var released := AfterRelease(p, list[k], before);
      if PriorityInput(ins, list) == Some(s) then AfterHandOver(p, env, outs, ins, Without(list, k), released)
      else released
  }

  ghost function AfterRouteAsOn(p: Platform, env: Env, outs: map<int, StreamOut>, ins: map<int, StreamIn>,
                                list: seq<Usecase>, s: int, devices: Option<DeviceMask>, before: Account): (r: Account)
    requires p.WellFormed() && before.Fits(p) && s in outs
    ensures r.Fits(p)
  {
    match devices
    case None => before
    case Some(mask) =>
      AfterSelect(p, env, outs[s := outs[s].(devices := mask)], ins, list, outs[s].usecase, false, before)
  }

  /** The account after routing a playback that joined the list last. */
  ghost function AfterStarted(p: Platform, env: Env, outs: map<int, StreamOut>, ins: map<int, StreamIn>,
                              list: seq<Usecase>, s: int, before: Account): (r: Account)
    requires p.WellFormed() && before.Fits(p) && s in outs
    ensures r.Fits(p)
  {
    AfterRouteAsOn(p, env, outs, ins, list, s, DevicesWhileStarting(p, env, outs[s]), before)
  }

  /** The account after stopping the use case of an output stream. */
  ghost function AfterStopOutput(p: Platform, env: Env, outs: map<int, StreamOut>, ins: map<int, StreamIn>,
                                 list: seq<Usecase>, out: StreamOut, usbReset: bool, before: Account): (r: Account)
    requires p.WellFormed() && before.Fits(p)
    ensures r.Fits(p)
  {
    match FindUsecase(list, out.usecase)
    case None => before
    case Some(k) =>
      var u, l1 := list[k], Without(list, k);
      var reset := ResetsUsb(p, out, usbReset);
      var l2 := if reset then RoutedPlayback(p, ForceRouting(p, env, u, u.outSnd), outs, l1, u, u.outSnd) else l1;
      var released := AfterRelease(p, u, before);
      var departed := if reset then AfterDeparted(p, env, outs, l1, u, released) else released;
      if out.usecase == USECASE_AUDIO_PLAYBACK_VOIP || Overlap(out.devices, p.speakerSafe) then
        ReroutedRest(p, env, Scene(outs, ins, l2, departed), 0).account
      else departed
  }

  /** The account after stopping a call. */
  ghost function AfterStopCall(p: Platform, list: seq<Usecase>, id: int, before: Account): (r: Account)
    requires p.WellFormed() && before.Fits(p)
    ensures r.Fits(p)
  {
    match FindUsecase(list, id)
    case None => before
    case Some(k) => AfterRelease(p, list[k], before)
  }

  /** The use case at index `i`, if it is a voice call, is moved to output stream `s`. */
  ghost function VoiceMovedAt(p: Platform, env: Env, st: Scene, s: int, i: nat): (r: Scene)
    requires p.WellFormed() && st.account.Fits(p) && i < |st.list|
    ensures r.account.Fits(p) && |r.list| == |st.list|
  {
    var u := st.list[i];
    if u.kind.VoiceCall? then Rerouted(p, env, st.(list := st.list[i := u.(stream := Some(s))]), u.id, false) else st
  }

  /** The voice calls from index `i` on are moved to output stream `s`. */
  ghost function VoiceMovedRest(p: Platform, env: Env, st: Scene, s: int, i: nat): (r: Scene)
    requires p.WellFormed() && st.account.Fits(p)
    ensures r.account.Fits(p) && |r.list| == |st.list|
    decreases |st.list| - i
  {
    if i >= |st.list| then st else VoiceMovedRest(p, env, VoiceMovedAt(p, env, st, s, i), s, i + 1)
  }

  lemma VoiceMovedRoutes(p: Platform, env: Env, st: Scene, s: int, i: nat)
    requires p.WellFormed() && st.account.Fits(p) && WellFormedList(st.list, st.outs, st.ins) && s in st.outs
    requires i < |st.list|
    ensures Routes(p, env, st, VoiceMovedAt(p, env, st, s, i))
  {
    var u := st.list[i];
    if u.kind.VoiceCall? {
      var v := u.(stream := Some(s));
      assert WellLinked(u, st.outs, st.ins);
      ReplaceWellFormed(st.outs, st.ins, st.list, i, v);
      ReplacedIds(st.list, i, v);
      ReplacedSettled(p, st.list, i, v);
      ReroutedRoutes(p, env, st.(list := st.list[i := v]), u.id, false);
    }
  }

  lemma {:induction false} VoiceMovedRestIs(p: Platform, env: Env, st: Scene, s: int, i: nat)
    requires p.WellFormed() && st.account.Fits(p)
    ensures var r := VoiceMovedRest(p, env, st, s, i);
            r.list == VoiceMovedFrom(p, env, st.outs, st.ins, st.list, s, i) && r.outs == st.outs && r.ins == st.ins
    decreases |st.list| - i
  {
    if i < |st.list| {
      VoiceMovedRestIs(p, env, VoiceMovedAt(p, env, st, s, i), s, i + 1);
    }
  }

  lemma {:induction false} VoiceMovedRestRoutes(p: Platform, env: Env, st: Scene, s: int, i: nat)
    requires p.WellFormed() && st.account.Fits(p) && WellFormedList(st.list, st.outs, st.ins) && s in st.outs
    ensures Routes(p, env, st, VoiceMovedRest(p, env, st, s, i))
    decreases |st.list| - i
  {
    if i < |st.list| {
      var next := VoiceMovedAt(p, env, st, s, i);
      VoiceMovedRoutes(p, env, st, s, i);
      VoiceMovedRestRoutes(p, env, next, s, i + 1);
      RoutesOn(p, env, st, next, VoiceMovedRest(p, env, next, s, i + 1));
    }
  }

  // ---------------------------------------------------------------- whole requests

  /** start_output_stream. */
  ghost function OutputStarted(p: Platform, env: Env, st: Scene, s: int, ready: bool, opens: bool, usbReset: bool)
    : (r: Scene)
    requires p.WellFormed() && st.account.Fits(p) && s in st.outs
    ensures r.account.Fits(p)
  {
    if !ready || RefusedForA2dp(p, env, st.outs[s]) then st
    else
      var joined := st.list + [PlaybackUsecase(s, st.outs[s])];
      var outs := MutedWhileStarting(p, env, st.outs, s);
      var started := StartedOutput(p, env, st.outs, st.ins, joined, s);
      var after := AfterStarted(p, env, st.outs, st.ins, joined, s, st.account);
      if opens then Scene(outs, st.ins, started, after)
      else
        Scene(outs, st.ins, StoppedOutput(p, env, outs, st.ins, started, outs[s], usbReset),
              AfterStopOutput(p, env, outs, st.ins, started, outs[s], usbReset, after))
  }

  /** start_input_stream, for the use case `id`. */
  ghost function InputStarted(p: Platform, env: Env, st: Scene, s: int, id: int, ready: bool, opens: bool): (r: Scene)
    requires p.WellFormed() && st.account.Fits(p) && s in st.ins
    ensures r.account.Fits(p)
  {
    var ins := st.ins[s := st.ins[s].(usecase := id)];
    var joined := st.list + [CaptureUsecase(s, ins[s])];
    var started := Selected(p, env, st.outs, ins, joined, id, false);
    var after := AfterSelect(p, env, st.outs, ins, joined, id, false, st.account);
    if !ready then st.(ins := ins)
    else if opens then st.(ins := ins, list := started, account := after)
    else
      st.(ins := ins, list := StoppedInput(p, env, st.outs, ins, started, s),
          account := AfterStopInput(p, env, st.outs, ins, started, s, after))
  }

  /** Starting a call on output stream `s`. */
  ghost function CallStarted(p: Platform, env: Env, st: Scene, id: int, kind: UsecaseType, s: int, opens: bool)
    : (r: Scene)
    requires p.WellFormed() && st.account.Fits(p) && s in st.outs
    ensures r.account.Fits(p)
  {
    var joined := st.list + [CallUsecase(id, kind, s, st.outs[s])];
    var started := Selected(p, env, st.outs, st.ins, joined, id, false);
    var after := AfterSelect(p, env, st.outs, st.ins, joined, id, false, st.account);
    if opens then st.(list := started, account := after)
    else st.(list := StoppedCall(started, id), account := AfterStopCall(p, started, id, after))
  }

  /** What callers owe: an id that can be active and is not. */
  predicate CanJoin(list: seq<Usecase>, id: int) {
    0 <= id < AUDIO_USECASE_MAX && FindUsecase(list, id).None?
  }

  /** No active capture records on input stream `s`. */
  predicate NotRecording(list: seq<Usecase>, s: int) {
    forall k | 0 <= k < |list| && list[k].kind.PcmCapture? :: list[k].stream != Some(s)
  }

  predicate InCallMusic(id: int) {
    id == USECASE_INCALL_MUSIC_UPLINK || id == USECASE_INCALL_MUSIC_UPLINK2
  }

  /** The state after a request; one whose caller obligations are not met is skipped. */
  ghost function Performed(p: Platform, st: Scene, r: Request): (after: Scene)
    requires p.WellFormed() && st.account.Fits(p)
    ensures after.account.Fits(p)
  {
    match r
    case OpenOutput(_, s, out) => if s !in st.outs then st.(outs := st.outs[s := out]) else st
    case OpenInput(_, s, in_) => if s !in st.ins then st.(ins := st.ins[s := in_]) else st
    case SetOutDevices(_, s, devices) =>
      if s in st.outs then st.(outs := st.outs[s := st.outs[s].(devices := devices)]) else st
    case SetInDevice(_, s, device) =>
      if s in st.ins then st.(ins := st.ins[s := st.ins[s].(device := device)]) else st
    case StartOutput(env, s, ready, opens, usbReset) =>
      if s in st.outs && CanJoin(st.list, st.outs[s].usecase) then
        OutputStarted(p, env, st, s, ready, opens, usbReset)
      else st
    case StopOutput(env, s, usbReset) =>
      if s in st.outs then
        st.(list := StoppedOutput(p, env, st.outs, st.ins, st.list, st.outs[s], usbReset),
            account := AfterStopOutput(p, env, st.outs, st.ins, st.list, st.outs[s], usbReset, st.account))
      else st
    case StartInput(env, s, id, ready, opens) =>
      if s in st.ins && CanJoin(st.list, id) && !InCallMusic(id) && NotRecording(st.list, s) then
        InputStarted(p, env, st, s, id, ready, opens)
      else st
    case StopInput(env, s) =>
      if s in st.ins then
        st.(list := StoppedInput(p, env, st.outs, st.ins, st.list, s),
            account := AfterStopInput(p, env, st.outs, st.ins, st.list, s, st.account))
      else st
    case BeginCall(env, id, hfp, s, opens) =>
      if s in st.outs && CanJoin(st.list, id) && !InCallMusic(id) then
        CallStarted(p, env, st, id, if hfp then PcmHfpCall else VoiceCall, s, opens)
      else st
    case EndCall(_, id) =>
      st.(list := StoppedCall(st.list, id), account := AfterStopCall(p, st.list, id, st.account))
    case RouteAgain(env, id, force) => Rerouted(p, env, st, id, force)
    case UpdateVoice(env, s) =>
      if s in st.outs then VoiceMovedRest(p, env, st, s, 0) else st
  }

  /** The state after a sequence of requests. */
  ghost function Ran(p: Platform, st: Scene, requests: seq<Request>): (r: Scene)
    requires p.WellFormed() && st.account.Fits(p)
    ensures r.account.Fits(p)
  {
    if requests == [] then st
    else Performed(p, Ran(p, st, requests[..|requests| - 1]), requests[|requests| - 1])
  }
}
