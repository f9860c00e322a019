/** When routing leaves two use cases competing for a backend. */
module RoutingConflicts {
  import opened DeviceCounts
  import opened RoutingRules
  import opened Wrappers

  predicate OnOutput(p: Platform, u: Usecase) {
    !u.kind.PcmCapture? && OnCodecOrUsb(p, u)
  }

  /** Renders through a codec or USB backend. */
  predicate InPlay(p: Platform, u: Usecase) {
    OnOutput(p, u) && u.outSnd != SND_DEVICE_NONE
  }

  /** No two use cases but `id` compete for a backend. */
  ghost predicate SettledBut(p: Platform, list: seq<Usecase>, id: int) {
    forall i, j | 0 <= i < |list| && 0 <= j < |list| && i != j && list[i].id != id && list[j].id != id
                  && InPlay(p, list[i]) && InPlay(p, list[j]) ::
      !Competes(p, list[i].outSnd, list[j].outSnd)
  }

  ghost predicate Settled(p: Platform, list: seq<Usecase>) {
    forall i, j | 0 <= i < |list| && 0 <= j < |list| && i != j && InPlay(p, list[i]) && InPlay(p, list[j]) ::
      !Competes(p, list[i].outSnd, list[j].outSnd)
  }

  /** `u`, another use case than `info`, keeps a device that competes with `d`. */
  predicate StaysInTheWay(p: Platform, outs: map<int, StreamOut>, info: Usecase, d: SndDevice, u: Usecase) {
    && u.id != info.id && InPlay(p, u) && Competes(p, d, u.outSnd)
    && SplitsAcrossBackends(p, OutDevices(outs, u), OutDevices(outs, info), u.outSnd, d)
  }

  /** Some use case plays on `d`. */
  ghost predicate PlaysOn(p: Platform, list: seq<Usecase>, d: SndDevice) {
    exists i :: 0 <= i < |list| && InPlay(p, list[i]) && list[i].outSnd == d
  }

  ghost predicate SomeStaysInTheWay(p: Platform, outs: map<int, StreamOut>, list: seq<Usecase>, info: Usecase,
                                    d: SndDevice) {
    exists j :: 0 <= j < |list| && StaysInTheWay(p, outs, info, d, list[j])
  }

  /** Use cases but `info` made way for it on `d`; `info`, if it is on the list, moved there. */
  ghost predicate AllMadeWay(p: Platform, outs: map<int, StreamOut>, info: Usecase, d: SndDevice, from: seq<Usecase>,
                             to: seq<Usecase>) {
    && |from| == |to|
    && forall x {:trigger to[x]} {:trigger from[x]} | 0 <= x < |from| ::
         && to[x].id == from[x].id && to[x].kind == from[x].kind && to[x].devices == from[x].devices
         && (if to[x].id == info.id then to[x].outSnd == d else OnOutput(p, from[x]) ==>
           MadeWay(p, outs, info, d, from[x], to[x]))
  }

  /** Exact condition: routing `d` leaves two use cases competing if and only if one stays in the way by the
    documented exception and some use case plays on `d`. */
  lemma MadeWaySettledIff(p: Platform, outs: map<int, StreamOut>, info: Usecase, d: SndDevice, from: seq<Usecase>,
                          to: seq<Usecase>)
    requires p.WellFormed() && DistinctIds(from) && SettledBut(p, from, info.id)
             && AllMadeWay(p, outs, info, d, from, to)
    ensures Settled(p, to) <==> !(SomeStaysInTheWay(p, outs, from, info, d) && PlaysOn(p, to, d))
  {
    if SomeStaysInTheWay(p, outs, from, info, d) && PlaysOn(p, to, d) {
      var j :| 0 <= j < |from| && StaysInTheWay(p, outs, info, d, from[j]);
      var i :| 0 <= i < |to| && InPlay(p, to[i]) && to[i].outSnd == d;
      assert to[j].id == from[j].id && Competes(p, to[i].outSnd, to[j].outSnd);
    } else {
      forall i, j | 0 <= i < |to| && 0 <= j < |to| && i != j && InPlay(p, to[i]) && InPlay(p, to[j])
        ensures !Competes(p, to[i].outSnd, to[j].outSnd)
      {
        PairMadeWay(p, outs, info, d, from, to, i, j);
      }
    }
  }

  lemma PairMadeWay(p: Platform, outs: map<int, StreamOut>, info: Usecase, d: SndDevice, from: seq<Usecase>,
                    to: seq<Usecase>, i: nat, j: nat)
    requires p.WellFormed() && DistinctIds(from) && SettledBut(p, from, info.id)
             && AllMadeWay(p, outs, info, d, from, to)
    requires i < |to| && j < |to| && i != j && InPlay(p, to[i]) && InPlay(p, to[j])
    requires !(SomeStaysInTheWay(p, outs, from, info, d) && PlaysOn(p, to, d))
    ensures !Competes(p, to[i].outSnd, to[j].outSnd)
  {
    assert from[i].id != from[j].id && to[i].id == from[i].id && to[j].id == from[j].id;
    if to[i].outSnd == d || to[j].outSnd == d {
      assert PlaysOn(p, to, d);
      assert !StaysInTheWay(p, outs, info, d, from[i]) && !StaysInTheWay(p, outs, info, d, from[j]);
    }
  }

  /** Moving use case `k` to the devices of `c`, when the others are settled, leaves two competing. */
  ghost predicate Disturbs(p: Platform, env: Env, outs: map<int, StreamOut>, list: seq<Usecase>, k: nat, c: Choice,
                           force: bool)
    requires k < |list|
  {
    var u, out := list[k], FinalOutput(p, env, list[k].id, c.outSnd);
    if KeepsDevices(p, env, outs, u, c, force) then
      InPlay(p, u) && exists j ::
        0 <= j < |list| && j != k && InPlay(p, list[j]) && Competes(p, u.outSnd, list[j].outSnd)
    else
      && RoutesPlayback(p, u, out) && SomeStaysInTheWay(p, outs, list, u, out)
      && PlaysOn(p, Switched(p, env, outs, list, k, c, force), out)
  }

  /** Exact condition: after the move the use cases are settled if and only if it does not disturb them:
    it neither keeps its devices in the way of others, as after a change of its mask, nor meets the
    documented exception. */
  lemma SwitchedSettledIff(p: Platform, env: Env, outs: map<int, StreamOut>, list: seq<Usecase>, k: nat, c: Choice,
                           force: bool)
    requires p.WellFormed() && DistinctIds(list) && k < |list| && SettledBut(p, list, list[k].id)
    ensures Settled(p, Switched(p, env, outs, list, k, c, force)) <==> !Disturbs(p, env, outs, list, k, c, force)
  {
    var u, out := list[k], FinalOutput(p, env, list[k].id, c.outSnd);
    if KeepsDevices(p, env, outs, u, c, force) {
      KeptSettledIff(p, list, k);
    } else {
      MovedSettledIff(p, env, outs, list, k, c, force);
    }
  }

  lemma KeptSettledIff(p: Platform, list: seq<Usecase>, k: nat)
    requires p.WellFormed() && DistinctIds(list) && k < |list| && SettledBut(p, list, list[k].id)
    ensures Settled(p, list) <==>
            !(InPlay(p, list[k]) && exists j ::
              0 <= j < |list| && j != k && InPlay(p, list[j]) && Competes(p, list[k].outSnd, list[j].outSnd))
  {
    forall i, j | 0 <= i < |list| && 0 <= j < |list| && i != j && i != k && j != k && InPlay(p, list[i])
      && InPlay(p, list[j])
      ensures !Competes(p, list[i].outSnd, list[j].outSnd)
    {
      assert list[i].id != list[k].id && list[j].id != list[k].id;
    }
  }

  lemma MovedSettledIff(p: Platform, env: Env, outs: map<int, StreamOut>, list: seq<Usecase>, k: nat, c: Choice,
                        force: bool)
    requires p.WellFormed() && DistinctIds(list) && k < |list| && SettledBut(p, list, list[k].id)
    requires !KeepsDevices(p, env, outs, list[k], c, force)
    ensures Settled(p, Switched(p, env, outs, list, k, c, force)) <==> !Disturbs(p, env, outs, list, k, c, force)
  {
    var u, out := list[k], FinalOutput(p, env, list[k].id, c.outSnd);
    var r := Switched(p, env, outs, list, k, c, force);
    if RoutesPlayback(p, u, out) {
      SwitchedAllMadeWay(p, env, outs, list, k, c, force);
      MadeWaySettledIff(p, outs, u, out, list, r);
    } else {
      forall i, j | 0 <= i < |r| && 0 <= j < |r| && i != j && InPlay(p, r[i]) && InPlay(p, r[j])
        ensures !Competes(p, r[i].outSnd, r[j].outSnd)
      {
        assert i != k && j != k && list[i].id != u.id && list[j].id != u.id;
        assert r[i].outSnd == list[i].outSnd && r[j].outSnd == list[j].outSnd;
      }
    }
  }

  lemma SwitchedAllMadeWay(p: Platform, env: Env, outs: map<int, StreamOut>, list: seq<Usecase>, k: nat, c: Choice,
                           force: bool)
    requires p.WellFormed() && DistinctIds(list) && k < |list|
    requires !KeepsDevices(p, env, outs, list[k], c, force)
    requires RoutesPlayback(p, list[k], FinalOutput(p, env, list[k].id, c.outSnd))
    ensures var out := FinalOutput(p, env, list[k].id, c.outSnd);
            AllMadeWay(p, outs, list[k], out, list, Switched(p, env, outs, list, k, c, force))
  {
    SwitchedMakesWay(p, env, outs, list, k, c, force);
  }

  /** Re-routing for a use case that left the list. */
  lemma DepartedSettledIff(p: Platform, force: bool, outs: map<int, StreamOut>, list: seq<Usecase>, u: Usecase)
    requires p.WellFormed() && DistinctIds(list) && Settled(p, list) && forall j | 0 <= j < |list| :: list[j].id != u.id
    ensures var r := RoutedPlayback(p, force, outs, list, u, u.outSnd);
            Settled(p, r) <==> !(SomeStaysInTheWay(p, outs, list, u, u.outSnd) && PlaysOn(p, r, u.outSnd))
  {
    var r := RoutedPlayback(p, force, outs, list, u, u.outSnd);
    RoutedPlaybackMakesWay(p, force, outs, list, u, u.outSnd);
    assert AllMadeWay(p, outs, u, u.outSnd, list, r);
    MadeWaySettledIff(p, outs, u, u.outSnd, list, r);
  }

  /** Lists that agree on everything but inputs, and what captures ask for, are settled together. */
  lemma SameOutputsSettled(p: Platform, a: seq<Usecase>, b: seq<Usecase>, id: int)
    requires |a| == |b| && forall j | 0 <= j < |a| :: SameOutput(a[j], b[j])
    ensures Settled(p, a) <==> Settled(p, b)
    ensures SettledBut(p, a, id) <==> SettledBut(p, b, id)
  {
    assert forall j | 0 <= j < |a| :: InPlay(p, a[j]) <==> InPlay(p, b[j]);
  }

  /** Use cases that leave, or join with no device yet, leave the others settled. */
  lemma WithoutSettled(p: Platform, list: seq<Usecase>, k: nat)
    requires k < |list|
    ensures Settled(p, list) ==> Settled(p, Without(list, k))
  {
    forall i, j | Settled(p, list) && 0 <= i < |list| - 1 && 0 <= j < |list| - 1 && i != j
                  && InPlay(p, Without(list, k)[i]) && InPlay(p, Without(list, k)[j])
      ensures !Competes(p, Without(list, k)[i].outSnd, Without(list, k)[j].outSnd)
    {
      assert Without(list, k)[i] == list[if i < k then i else i + 1];
      assert Without(list, k)[j] == list[if j < k then j else j + 1];
    }
  }

  lemma JoinedSettled(p: Platform, list: seq<Usecase>, u: Usecase)
    requires u.outSnd == SND_DEVICE_NONE
    ensures Settled(p, list) ==> Settled(p, list + [u])
  {
  }

  /** Whether select_devices leaves two use cases competing, when none did before. */
  ghost predicate SelectedDisturbs(p: Platform, env: Env, outs: map<int, StreamOut>, ins: map<int, StreamIn>,
                                   list: seq<Usecase>, id: int, force: bool)
  {
    match FindUsecase(list, id)
    case None => false
    case Some(k) =>
      var c := ChooseDevices(p, env, outs, ins, list, list[k]);
      var l1 := list[k := list[k].(devices := c.devices)];
      var l2 := if c.voipIn.Some? then SelectedOne(p, env, outs, ins, l1, c.voipIn.value, false) else l1;
      Disturbs(p, env, outs, l2, k, c, force)
  }

  /** Selecting devices for a capture disturbs nobody. */
  lemma CaptureDisturbsNobody(p: Platform, env: Env, outs: map<int, StreamOut>, ins: map<int, StreamIn>,
                              list: seq<Usecase>, id: int, force: bool)
    requires p.WellFormed() && WellFormedList(list, outs, ins)
    requires var f := FindUsecase(list, id); f.Some? && list[f.value].kind.PcmCapture?
    ensures !SelectedDisturbs(p, env, outs, ins, list, id, force)
  {
    var k := FindUsecase(list, id).value;
    assert WellLinked(list[k], outs, ins);
    var c := ChooseDevices(p, env, outs, ins, list, list[k]);
    assert FinalOutput(p, env, id, c.outSnd) == SND_DEVICE_NONE;
  }

  /** Changing one use case leaves the others as settled as they were. */
  lemma ReplacedSettled(p: Platform, list: seq<Usecase>, k: nat, u: Usecase)
    requires k < |list| && DistinctIds(list) && u.id == list[k].id
    ensures Settled(p, list) ==> SettledBut(p, list[k := u], u.id)
    ensures Settled(p, list) && u.kind == list[k].kind && u.devices == list[k].devices && u.outSnd == list[k].outSnd ==>
              Settled(p, list[k := u])
  {
  }

  /** A board on which device 3 is a combo of 1 and 2, and shares a backend with both; they share none. */
  const ComboBoard: Platform :=
    Platform(Splitting(4, d => if d == 3 then Split(1, 2) else NoSplit, d => if d == 3 then 1 else 0),
             _ => true, (d, e) => d == e || d == 3 || e == 3,
             {0, 1}, {}, {}, {}, {0}, {}, {}, {}, {}, 9, 10, 11, 1, 1, 9)

  /** The exception occurs: a playback on the speaker stays there when select_devices puts another one on a
    combo of the speaker and a device on another backend. */
  lemma ExceptionOccurs() returns (p: Platform, env: Env, outs: map<int, StreamOut>, list: seq<Usecase>)
    ensures p.WellFormed() && WellFormedList(list, outs, map[]) && |list| == 2 && Settled(p, list)
    ensures SelectedDisturbs(p, env, outs, map[], list, list[1].id, false)
    ensures !KeepsDevices(p, env, outs, list[1], ChooseDevices(p, env, outs, map[], list, list[1]), false)
  {
    p := ComboBoard;
    env := Env(_ => true, _ => 3, (_, _) => 0, (_, _) => false, false, true, false, false, None, false, -1);
    outs := map[0 := StreamOut({0}, 0, false, false), 1 := StreamOut({0, 1}, 1, false, false)];
    var u, v := PlaybackUsecase(0, outs[0]).(outSnd := 1), PlaybackUsecase(1, outs[1]);
    list := [u, v];
    assert 0 in u.devices * p.codecBackend && 0 in v.devices * p.codecBackend && 0 in outs[0].devices * outs[1].devices;
    assert 1 in outs[1].devices && 1 !in outs[0].devices && |outs[0].devices| == 1;
    var c := ChooseDevices(p, env, outs, map[], list, v);
    assert FindUsecase(list[1..], 1) == Some(0) && FindUsecase(list, 1) == Some(1);
    assert c == Choice(3, SND_DEVICE_NONE, {0, 1}, None);
    assert list[1 := v.(devices := c.devices)] == list;
    assert StaysInTheWay(p, outs, v, 3, list[0]);
    var r := Switched(p, env, outs, list, 1, c, false);
    assert r[1].outSnd == 3 && InPlay(p, r[1]);
  }

  /** So does the other one: a playback off the codec whose stream was redirected to it keeps its device in
    the way of one on the speaker, because select_devices chooses the same device again. */
  lemma KeptDeviceOccurs() returns (p: Platform, env: Env, outs: map<int, StreamOut>, list: seq<Usecase>)
    ensures p.WellFormed() && WellFormedList(list, outs, map[]) && |list| == 2 && Settled(p, list)
    ensures SelectedDisturbs(p, env, outs, map[], list, list[1].id, false)
    ensures KeepsDevices(p, env, outs, list[1], ChooseDevices(p, env, outs, map[], list, list[1]), false)
  {
    p := ComboBoard;
    env := Env(_ => true, _ => 3, (_, _) => 0, (_, _) => false, false, true, false, false, None, false, -1);
    outs := map[0 := StreamOut({0}, 0, false, false), 1 := StreamOut({1}, 1, false, false)];
    var u, v := PlaybackUsecase(0, outs[0]).(outSnd := 1), PlaybackUsecase(1, outs[1]).(devices := {7}, outSnd := 3);
    list := [u, v];
    assert 0 in u.devices * p.codecBackend && v.devices * p.codecBackend == {} && v.devices * p.usb == {};
    var c := ChooseDevices(p, env, outs, map[], list, v);
    assert FindUsecase(list[1..], 1) == Some(0) && FindUsecase(list, 1) == Some(1);
    assert c == Choice(3, SND_DEVICE_NONE, {1}, None);
    var l1 := list[1 := v.(devices := c.devices)];
    assert 1 in l1[1].devices * p.codecBackend && InPlay(p, l1[0]) && InPlay(p, l1[1]);
    assert Competes(p, l1[1].outSnd, l1[0].outSnd);
  }
}
