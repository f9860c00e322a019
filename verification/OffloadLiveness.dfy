/** Where liveness of the offload worker is lost, and exactly when it is not.

  Standby takes the device lock and then waits, with the stream lock released, until the worker is
  off the handle. A write that leaves standby, and a routing change, take the stream lock and then
  the device lock. Neither can go on, nor can the worker, when one of them gets the stream lock in
  between, or when it is in front of the worker: it holds the lock in front of the stream lock, which
  the worker needs to come back, and can go on only to a stream lock under which it waits for the
  device lock. */
module OffloadLiveness {
  import opened OffloadThread
  import opened Wrappers

  /** Calls that may lock the device after the stream. */
  predicate Locking(call: Call) {
    call == WriteCall || call.RouteCall?
  }

  /** Holds the stream lock in a call that goes on to lock the device. */
  predicate WantsAdev(pc: Pc) {
    (pc.Body? || pc.AtAdevLock?) && Locking(pc.call)
  }

  /** A call `w` that wants the device lock holds the stream lock, while a standby `c` holds the device
    lock and waits for the stream lock. */
  ghost predicate Overtaken(s: State, w: Tid, c: Tid) {
    && s.out.outLock == Client(w) && WantsAdev(s.At(w))
    && s.out.adevLock == Some(c) && s.At(c).StopWait? && StandsBy(s.At(c).call)
  }

  /** In a standby that waits for the worker, or that holds the stream lock and is bound to wait. */
  predicate StandingBy(standby: bool, pc: Pc) {
    && (pc.StopWait? || pc.StopCheck? || pc.AtAdevLock? || (pc.Body? && !standby))
    && StandsBy(pc.call)
  }

  /** While the worker is marked blocked, a call `w` that wants the device lock holds the lock the worker
    needs first, and `c` is in a standby. */
  ghost predicate InFront(s: State, w: Tid, c: Tid) {
    && s.out.blocked && s.out.preLock == Client(w) && s.At(w).AtLock? && Locking(s.At(w).call)
    && StandingBy(s.out.standby, s.At(c))
  }

  ghost predicate Stuck(s: State, w: Tid, c: Tid) {
    Overtaken(s, w, c) || InFront(s, w, c)
  }

  ghost predicate Free(s: State) {
    forall w: Tid, c: Tid :: !Stuck(s, w, c)
  }

  // ---------------------------------------------------------------- once stuck, always stuck

  lemma OvertakenStays(s: State, step: Step, w: Tid, c: Tid)
    requires Overtaken(s, w, c) && Inv(s) && Next(s, step).Some?
    ensures Overtaken(Next(s, step).value, w, c)
    ensures Next(s, step).value.out.history.callbacks == s.out.history.callbacks
  {
    assert ThreadOk(s.out, w, s.At(w)) && ThreadOk(s.out, c, s.At(c));
    if step.OfClient? {
      assert ThreadOk(s.out, step.t, s.At(step.t));
      var _ := ClientStepAppends(s.out, step.t, s.At(step.t), step.step);
    }
  }

  /** A standby that is bound to wait stays one while the worker is marked blocked. */
  lemma StandbyStays(s: Stream, worker: Worker, t: Tid, pc: Pc, step: ClientStep)
    requires StreamOk(s) && WorkerOk(s, worker) && ThreadOk(s, t, pc) && ClientNext(s, t, pc, step).Some?
    requires s.blocked && StandingBy(s.standby, pc)
    ensures var m := ClientNext(s, t, pc, step).value; StandingBy(m.out.standby, m.pc)
  {
  }

  /** While one thread holds the stream lock in a standby not yet begun, no other puts the stream in standby. */
  lemma OthersKeepStandby(s: Stream, t: Tid, pc: Pc, step: ClientStep, u: Tid)
    requires ThreadOk(s, t, pc) && ClientNext(s, t, pc, step).Some?
    requires u != t && s.outLock == Client(u)
    ensures ClientNext(s, t, pc, step).value.out.standby == s.standby
  {
  }

  lemma InFrontStays(s: State, step: Step, w: Tid, c: Tid)
    requires InFront(s, w, c) && Inv(s) && Next(s, step).Some?
    ensures Stuck(Next(s, step).value, w, c)
    ensures Next(s, step).value.out.history.callbacks == s.out.history.callbacks
  {
    assert ThreadOk(s.out, w, s.At(w)) && ThreadOk(s.out, c, s.At(c));
    if step.OfClient? {
      var t, pc := step.t, s.At(step.t);
      assert ThreadOk(s.out, t, pc);
      var _ := ClientStepAppends(s.out, t, pc, step.step);
      if t == c {
        StandbyStays(s.out, s.worker, t, pc, step.step);
      } else if HoldsOut(s.At(c)) {
        OthersKeepStandby(s.out, t, pc, step.step, c);
      }
    }
  }

  /** Once stuck, no continuation of the run frees the two calls, lets the worker go on or delivers
    another callback. */
  lemma {:induction false} StuckForever(steps: seq<Step>, more: seq<Step>, w: Tid, c: Tid)
    requires After(steps).Some? && Stuck(After(steps).value, w, c) && After(steps + more).Some?
    ensures Stuck(After(steps + more).value, w, c)
    ensures After(steps + more).value.worker != WLoop
    ensures After(steps + more).value.out.history.callbacks == After(steps).value.out.history.callbacks
  {
    RunKeepsInv(steps + more);
    if more == [] {
      assert steps + more == steps;
    } else {
      var n := |more| - 1;
      assert (steps + more)[..|steps| + n] == steps + more[..n];
      StuckForever(steps, more[..n], w, c);
      RunKeepsInv(steps + more[..n]);
      var s := After(steps + more[..n]).value;
      if Overtaken(s, w, c) {
        OvertakenStays(s, more[n], w, c);
      } else {
        InFrontStays(s, more[n], w, c);
      }
    }
  }

  // ---------------------------------------------------------------- otherwise the worker can go on

  lemma Extend(steps: seq<Step>, step: Step)
    requires After(steps).Some?
    ensures After(steps + [step]) == Next(After(steps).value, step)
  {
    assert (steps + [step])[..|steps|] == steps;
  }

  lemma Take(steps: seq<Step>, step: Step) returns (r: seq<Step>)
    requires After(steps).Some? && Next(After(steps).value, step).Some?
    ensures r == steps + [step] && steps <= r && After(r) == Next(After(steps).value, step)
  {
    Extend(steps, step);
    r := steps + [step];
  }

  /** How far the holder of the stream lock is from releasing it. */
  function Rank(pc: Pc): nat {
    match pc
    case Body(_) => 5
    case AtAdevLock(call) => if StandsBy(call) then 4 else 1
    case StopCheck(_) => 3
    case Stopped(_) => 2
    case _ => 0
  }

  /** `s'` is `s` but for client threads, which did not touch the worker's progress or the lock in front. */
  predicate SameWorker(s: State, s': State) {
    && s'.worker == s.worker && s'.out.blocked == s.out.blocked && s'.out.history.callbacks == s.out.history.callbacks
    && s'.out.preLock == s.out.preLock && (s.out.preLock.Client? ==> s'.At(s.out.preLock.t) == s.At(s.out.preLock.t))
  }

  /** Thread `t` released the stream lock or is closer to releasing it, and nothing got stuck. */
  ghost predicate Closer(s: State, s': State, t: Tid) {
    && SameWorker(s, s') && Free(s')
    && (s'.out.outLock == Nobody || (s'.out.outLock == Client(t) && Rank(s'.At(t)) < Rank(s.At(t))))
  }

  /** Who keeps a thread from locking the device while nothing is stuck. */
  lemma HolderOfAdev(s: State, t: Tid)
    requires Inv(s) && Free(s) && s.out.outLock == Client(t) && s.At(t).AtAdevLock? && s.out.adevLock.Some?
    ensures s.At(s.out.adevLock.value) == DeviceOnly
  {
    var c := s.out.adevLock.value;
    assert ThreadOk(s.out, c, s.At(c)) && ThreadOk(s.out, t, s.At(t));
    assert !Stuck(s, t, c);
  }

  /** A step of the holder `t` of the stream lock that releases it or goes on closer to it, touches neither
    the lock in front nor the worker, begins no standby, and wants the device lock from nobody else anew. */
  predicate Onward(s: Stream, t: Tid, pc: Pc, m: Moved) {
    && m.out.preLock == s.preLock && m.out.blocked == s.blocked && m.out.history.callbacks == s.history.callbacks
    && (s.blocked && StandingBy(m.out.standby, m.pc) ==> StandingBy(s.standby, pc))
    && (m.out.outLock == Nobody
        || (m.out.outLock == s.outLock && Rank(m.pc) < Rank(pc)
            && (m.out.adevLock.None? || m.out.adevLock == Some(t)
                || (m.out.adevLock == s.adevLock && (WantsAdev(m.pc) ==> WantsAdev(pc))))))
  }

  lemma BeginGoesOn(s: Stream, t: Tid, call: Call)
    ensures Onward(s, t, Body(call), Begin(s, call))
  {
  }

  lemma AfterStopGoesOn(s: Stream, t: Tid, call: Call)
    requires ThreadOk(s, t, Stopped(call))
    ensures Onward(s, t, Stopped(call), AfterStop(s, call))
  {
  }

  /** The step that brings the holder of the stream lock closer to releasing it. */
  function StepOf(pc: Pc): ClientStep {
    match pc
    case Starting => Start(Refused)
    case Routing => Reroute
    case Writing => Write(false, false)
    case AtAdevLock(_) => LockAdev
    case _ => RunBody
  }

  lemma HolderGoesOn(s: Stream, t: Tid, pc: Pc)
    requires ThreadOk(s, t, pc) && HoldsOut(pc) && (pc.AtAdevLock? ==> s.adevLock.None?)
    ensures ClientNext(s, t, pc, StepOf(pc)).Some? && Onward(s, t, pc, ClientNext(s, t, pc, StepOf(pc)).value)
  {
    match pc
    case Body(call) => BeginGoesOn(s, t, call);
    case Stopped(call) => AfterStopGoesOn(s, t, call);
    case _ =>
  }

  /** While the holder of the stream lock goes on, nothing gets stuck. */
  lemma OnwardStaysFree(s: State, t: Tid, m: Moved)
    requires Inv(s) && Free(s) && s.out.outLock == Client(t) && Onward(s.out, t, s.At(t), m)
    requires Inv(State(m.out, s.worker, s.clients[t := m.pc]))
    ensures Free(State(m.out, s.worker, s.clients[t := m.pc]))
  {
    var s' := State(m.out, s.worker, s.clients[t := m.pc]);
    forall w: Tid, c: Tid
      ensures !Stuck(s', w, c)
    {
      assert !Stuck(s, w, c);
      assert ThreadOk(s.out, t, s.At(t)) && ThreadOk(s.out, c, s.At(c)) && ThreadOk(s.out, w, s.At(w));
      assert ThreadOk(s'.out, t, s'.At(t)) && ThreadOk(s'.out, c, s'.At(c));
    }
  }

  /** With the device lock free if it is what the holder of the stream lock waits for. */
  lemma HolderSteps(steps: seq<Step>, t: Tid) returns (r: seq<Step>)
    requires After(steps).Some?
    requires var s := After(steps).value;
             && Inv(s) && Free(s) && s.out.outLock == Client(t)
             && (s.At(t).AtAdevLock? ==> s.out.adevLock.None?)
    ensures steps <= r && After(r).Some? && Closer(After(steps).value, After(r).value, t)
  {
    var s := After(steps).value;
    assert ThreadOk(s.out, t, s.At(t));
    HolderGoesOn(s.out, t, s.At(t));
    r := Take(steps, OfClient(t, StepOf(s.At(t))));
    RunKeepsInv(r);
    OnwardStaysFree(s, t, ClientNext(s.out, t, s.At(t), StepOf(s.At(t))).value);
    if s.out.preLock.Client? {
      assert ThreadOk(s.out, s.out.preLock.t, s.At(s.out.preLock.t));
    }
  }

  /** Other code gives the device lock back. */
  lemma AdevIsReleased(steps: seq<Step>, t: Tid) returns (r: seq<Step>)
    requires After(steps).Some?
    requires var s := After(steps).value;
             && Inv(s) && Free(s) && s.out.outLock == Client(t) && s.At(t).AtAdevLock? && s.out.adevLock.Some?
    ensures steps <= r && After(r).Some? && SameWorker(After(steps).value, After(r).value) && Free(After(r).value)
    ensures After(r).value.At(t) == After(steps).value.At(t)
    ensures After(r).value.out == After(steps).value.out.(adevLock := None)
  {
    var s := After(steps).value;
    HolderOfAdev(s, t);
    r := Take(steps, OfClient(s.out.adevLock.value, ReleaseAdev));
    var s' := After(r).value;
    forall w: Tid, c: Tid
      ensures !Stuck(s', w, c)
    {
      assert !Stuck(s, w, c);
    }
    if s.out.preLock.Client? {
      assert ThreadOk(s.out, s.out.preLock.t, s.At(s.out.preLock.t));
    }
  }

  /** The holder of the stream lock can take a step towards releasing it. */
  lemma StepsCloser(steps: seq<Step>, t: Tid) returns (r: seq<Step>)
    requires After(steps).Some?
    requires var s := After(steps).value; Inv(s) && Free(s) && s.out.outLock == Client(t)
    ensures steps <= r && After(r).Some? && Closer(After(steps).value, After(r).value, t)
  {
    var s := After(steps).value;
    r := steps;
    if s.At(t).AtAdevLock? && s.out.adevLock.Some? {
      r := AdevIsReleased(steps, t);
      RunKeepsInv(r);
    }
    r := HolderSteps(r, t);
  }

  /** Unless something is stuck, the stream lock can be released without the worker, and nothing gets
    stuck on the way. */
  lemma {:induction false} LockIsReleased(steps: seq<Step>) returns (r: seq<Step>)
    requires After(steps).Some? && Free(After(steps).value) && After(steps).value.out.outLock != WorkerOwner
    ensures steps <= r && After(r).Some? && After(r).value.out.outLock == Nobody && Free(After(r).value)
    ensures SameWorker(After(steps).value, After(r).value)
    decreases var s := After(steps).value; if s.out.outLock.Client? then 1 + Rank(s.At(s.out.outLock.t)) else 0
  {
    r := steps;
    if After(steps).value.out.outLock.Client? {
      RunKeepsInv(steps);
      r := StepsCloser(steps, After(steps).value.out.outLock.t);
      r := LockIsReleased(r);
    }
  }

  /** The worker has the lock in front of the stream lock, or takes the stream lock directly. */
  predicate Ready(worker: Worker) {
    worker.WStarting? || worker.WRelock? || worker.WSleep?
  }

  /** A client in front of the worker can lock the stream, after which the lock in front is free. */
  lemma FrontMovesUp(steps: seq<Step>) returns (r: seq<Step>)
    requires After(steps).Some?
    requires var s := After(steps).value;
             Free(s) && s.out.preLock.Client? && s.out.outLock != WorkerOwner && (s.worker.WStart? || s.worker.WReturn?)
    ensures steps <= r && After(r).Some? && Free(After(r).value)
    ensures var s, s' := After(steps).value, After(r).value;
            s'.worker == s.worker && s'.out.history.callbacks == s.out.history.callbacks
            && s'.out.preLock == Nobody && s'.out.outLock.Client?
  {
    var w := After(steps).value.out.preLock.t;
    r := LockIsReleased(steps);
    RunKeepsInv(steps);
    RunKeepsInv(r);
    var s := After(r).value;
    assert ThreadOk(s.out, w, s.At(w));
    r := Take(r, OfClient(w, LockOut));
    forall u: Tid, c: Tid
      ensures !Stuck(After(r).value, u, c)
    {
      assert !Stuck(s, w, c);
      assert ThreadOk(s.out, c, s.At(c));
    }
  }

  /** Unless something is stuck, the worker can get the lock in front of the stream lock. */
  lemma WorkerGetsInFront(steps: seq<Step>) returns (r: seq<Step>)
    requires After(steps).Some? && Free(After(steps).value)
    requires var s := After(steps).value; s.worker.WStart? || s.worker.WReturn?
    ensures steps <= r && After(r).Some? && Free(After(r).value) && Ready(After(r).value.worker)
    ensures var s, s' := After(steps).value, After(r).value;
            s'.out.history.callbacks == s.out.history.callbacks && (s.worker.WReturn? ==> s'.worker.WRelock?)
  {
    RunKeepsInv(steps);
    r := steps;
    if After(r).value.out.preLock.Client? {
      r := FrontMovesUp(r);
    }
    var s := After(r).value;
    r := Take(r, OfWorker);
    forall w: Tid, c: Tid
      ensures !Stuck(After(r).value, w, c)
    {
      assert !Stuck(s, w, c);
    }
  }

  /** The worker leaves the compress library; nothing gets stuck by that. */
  lemma WorkerReturns(steps: seq<Step>) returns (r: seq<Step>)
    requires After(steps).Some? && Free(After(steps).value) && After(steps).value.worker.WUsing?
    ensures steps <= r && After(r).Some? && Free(After(r).value) && After(r).value.worker.WReturn?
    ensures After(r).value.out.history.callbacks == After(steps).value.out.history.callbacks
  {
    var s := After(steps).value;
    r := Take(steps, OfWorker);
    forall w: Tid, c: Tid
      ensures !Stuck(After(r).value, w, c)
    {
      assert !Stuck(s, w, c);
    }
  }

  /** With the stream lock free the worker takes it; after a compress call it delivers the callback. */
  lemma WorkerLocks(steps: seq<Step>) returns (r: seq<Step>)
    requires After(steps).Some? && Free(After(steps).value) && Ready(After(steps).value.worker)
    ensures steps <= r && After(r).Some? && After(r).value.worker == WLoop
    ensures After(steps).value.worker.WRelock? ==>
              |After(r).value.out.history.callbacks| > |After(steps).value.out.history.callbacks|
  {
    RunKeepsInv(steps);
    r := LockIsReleased(steps);
    RunKeepsInv(r);
    r := Take(r, OfWorker);
  }

  lemma WorkerGoesOn(steps: seq<Step>) returns (more: seq<Step>)
    requires After(steps).Some? && Free(After(steps).value) && !After(steps).value.worker.WDone?
    ensures After(steps + more).Some? && After(steps + more).value.worker == WLoop
    ensures After(steps).value.out.blocked ==>
              |After(steps + more).value.out.history.callbacks| > |After(steps).value.out.history.callbacks|
  {
    RunKeepsInv(steps);
    var r := steps;
    if After(r).value.worker.WUsing? {
      r := WorkerReturns(r);
    }
    if After(r).value.worker.WStart? || After(r).value.worker.WReturn? {
      r := WorkerGetsInFront(r);
    }
    if Ready(After(r).value.worker) {
      r := WorkerLocks(r);
    }
    more := r[|steps|..];
    assert steps + more == r;
  }

  /** Exact condition, for every run: a worker that has not exited can get the stream lock again in some
    continuation if and only if no call that wants the device lock has overtaken a standby, or is in front
    of the worker while a standby waits for it. */
  lemma WorkerGoesOnIff(steps: seq<Step>)
    requires After(steps).Some? && !After(steps).value.worker.WDone?
    ensures (exists more :: After(steps + more).Some? && After(steps + more).value.worker == WLoop)
            <==> Free(After(steps).value)
  {
    var s := After(steps).value;
    if Free(s) {
      var more := WorkerGoesOn(steps);
    } else {
      var w: Tid, c: Tid :| Stuck(s, w, c);
      forall more | After(steps + more).Some?
        ensures After(steps + more).value.worker != WLoop
      {
        StuckForever(steps, more, w, c);
      }
    }
  }

  /** Exact condition, for every run: while the worker is marked blocked, the callback of its command can
    still be delivered if and only if no call that wants the device lock has overtaken a standby, or is in
    front of the worker while a standby waits for it. */
  lemma CallbackComesIff(steps: seq<Step>)
    requires After(steps).Some? && After(steps).value.out.blocked
    ensures (exists more :: After(steps + more).Some? &&
               |After(steps + more).value.out.history.callbacks| > |After(steps).value.out.history.callbacks|)
            <==> Free(After(steps).value)
  {
    RunKeepsInv(steps);
    var s := After(steps).value;
    if Free(s) {
      var more := WorkerGoesOn(steps);
    } else {
      var w: Tid, c: Tid :| Stuck(s, w, c);
      forall more | After(steps + more).Some?
        ensures |After(steps + more).value.out.history.callbacks| == |s.out.history.callbacks|
      {
        StuckForever(steps, more, w, c);
      }
    }
  }

  // ---------------------------------------------------------------- runs that lose liveness

  const PlayingStream: State :=
    State(Stream(Nobody, Nobody, None, false, Some(0), false, true, false, Playing, [WaitForBuffer],
                 History(false, 1, {0}, [WaitForBuffer], [], [])), WStart, map[0 := Out])

  const WaitingWorker: State :=
    State(Stream(Nobody, Nobody, None, false, Some(0), true, false, false, Idle, [],
                 History(false, 1, {0}, [WaitForBuffer], [(WaitForBuffer, InProgress)], [])),
          WUsing(WaitForBuffer, 0), map[0 := Out])

  /** With both locks free, a thread outside calls can enter one and get the stream lock. */
  lemma LocksStream(steps: seq<Step>, t: Tid, call: Call) returns (r: seq<Step>)
    requires After(steps).Some?
    requires var s := After(steps).value; s.At(t) == Out && s.out.preLock == Nobody && s.out.outLock == Nobody
    ensures var s := After(steps).value;
            After(r) == Some(State(s.out.(outLock := Client(t)), s.worker, s.clients[t := Body(call)]))
  {
    r := Take(steps, OfClient(t, Enter(call)));
    r := Take(r, OfClient(t, LockPre));
    r := Take(r, OfClient(t, LockOut));
    var s := After(steps).value;
    assert After(r).value.clients == s.clients[t := Body(call)];
  }

  const LeavingStandby: State :=
    Initial().(out := Initial().out.(outLock := Client(0), standby := false),
      clients := map[0 := AtAdevLock(WriteCall)])

  lemma WriteLeavesStandby() returns (steps: seq<Step>)
    ensures After(steps) == Some(LeavingStandby)
  {
    steps := [];
    steps := LocksStream(steps, 0, WriteCall);
    steps := Take(steps, OfClient(0, RunBody));
    assert After(steps).value.clients == map[0 := AtAdevLock(WriteCall)];
  }

  lemma WriteStartsPlaying() returns (steps: seq<Step>)
    ensures After(steps) == Some(PlayingStream)
  {
    steps := WriteLeavesStandby();
    steps := Take(steps, OfClient(0, LockAdev));
    steps := Take(steps, OfClient(0, Start(Opened)));
    steps := Take(steps, OfClient(0, Write(true, true)));
    var s := After(steps).value;
    assert s.clients == map[0 := Out] && s.out.queue == [WaitForBuffer] && s.out.history.open == {0};
    assert s.out.history.sent == [WaitForBuffer] && s.out == PlayingStream.out;
  }

  lemma WorkerWaits(steps: seq<Step>) returns (more: seq<Step>)
    requires After(steps) == Some(PlayingStream)
    ensures After(more) == Some(WaitingWorker)
  {
    more := Take(steps, OfWorker);
    more := Take(more, OfWorker);
    more := Take(more, OfWorker);
    var s := After(more).value;
    assert s.out.queue == [] && s.out.history.taken == [(WaitForBuffer, InProgress)];
    assert s.out == WaitingWorker.out;
  }

  const ClosingStream: State :=
    WaitingWorker.(out := WaitingWorker.out.(adevLock := Some(1), standby := true, sendNewMetadata := true,
                                             history := WaitingWorker.out.history.(closing := true)),
                   clients := map[0 := Out, 1 := StopWait(StandbyCall)])

  const EnteringStandby: State :=
    WaitingWorker.(out := WaitingWorker.out.(outLock := Client(1)),
      clients := map[0 := Out, 1 := AtAdevLock(StandbyCall)])

  lemma StandbyEnters(steps: seq<Step>) returns (more: seq<Step>)
    requires After(steps) == Some(WaitingWorker)
    ensures After(more) == Some(EnteringStandby)
  {
    more := LocksStream(steps, 1, StandbyCall);
    more := Take(more, OfClient(1, RunBody));
    assert After(more).value.clients == map[0 := Out, 1 := AtAdevLock(StandbyCall)];
  }

  lemma StandbyWaits(steps: seq<Step>) returns (more: seq<Step>)
    requires After(steps) == Some(EnteringStandby)
    ensures After(more) == Some(ClosingStream)
  {
    more := Take(steps, OfClient(1, LockAdev));
    more := Take(more, OfClient(1, RunBody));
    assert After(more).value.clients == map[0 := Out, 1 := StopWait(StandbyCall)];
  }

  /** A playing stream with a pending wait, put in standby. */
  lemma StandbyIsWaiting() returns (steps: seq<Step>)
    ensures After(steps) == Some(ClosingStream)
  {
    steps := WriteStartsPlaying();
    steps := WorkerWaits(steps);
    steps := StandbyEnters(steps);
    steps := StandbyWaits(steps);
  }

  /** A write that arrives while such a standby waits gets it stuck. */
  lemma StandbyAndWriteCanGetStuck() returns (steps: seq<Step>)
    ensures After(steps).Some? && After(steps).value.out.blocked && Overtaken(After(steps).value, 0, 1)
    ensures After(steps).value.At(0) == AtAdevLock(WriteCall)
  {
    steps := StandbyIsWaiting();
    steps := LocksStream(steps, 0, WriteCall);
    steps := Take(steps, OfClient(0, RunBody));
  }

  /** So does a routing change. */
  lemma StandbyAndRoutingCanGetStuck() returns (steps: seq<Step>)
    ensures After(steps).Some? && After(steps).value.out.blocked && Overtaken(After(steps).value, 0, 1)
    ensures After(steps).value.At(0) == AtAdevLock(RouteCall(false))
  {
    steps := StandbyIsWaiting();
    steps := LocksStream(steps, 0, RouteCall(false));
    steps := Take(steps, OfClient(0, RunBody));
  }

  /** A call that takes the lock in front of the stream lock while a standby is about to take the device
    lock gets both stuck, and the worker, without ever having the stream lock. */
  lemma StandbyCanGetStuckBehind(call: Call) returns (steps: seq<Step>)
    requires Locking(call)
    ensures After(steps).Some?
    ensures var s := After(steps).value;
            && s.out.blocked && s.out.outLock == Nobody && InFront(s, 0, 1)
            && s.At(0) == AtLock(call) && s.At(1) == StopWait(StandbyCall)
  {
    steps := WriteStartsPlaying();
    steps := WorkerWaits(steps);
    steps := StandbyEnters(steps);
    steps := Take(steps, OfClient(0, Enter(call)));
    steps := Take(steps, OfClient(0, LockPre));
    steps := Take(steps, OfClient(1, LockAdev));
    steps := Take(steps, OfClient(1, RunBody));
  }
}
