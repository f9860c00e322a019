/** What the callers of an offloaded stream get: the callbacks they asked for, playback on an open handle, and
  the gapless metadata when it is due. */
module OffloadCallbacks {
  import opened OffloadThread
  import opened Wrappers

  // ---------------------------------------------------------------- what callers ask for is what is called back

  /** The command a client's step sends, if any: a drain one, a write that did not write all WaitForBuffer, an
    error Error and the destruction Exit, the last two once the worker is off the handle. */
  function Asked(pc: Pc, step: ClientStep): seq<Cmd> {
    if step == RunBody && pc == Body(DrainCall(true)) then [PartialDrain]
    else if step == RunBody && pc == Body(DrainCall(false)) then [Drain]
    else if step == RunBody && pc == Stopped(ErrorCall) then [Error]
    else if step == RunBody && pc == Stopped(DestroyCall) then [Exit]
    else if step.Write? && step.partial then [WaitForBuffer]
    else []
  }

  /** What the clients of a run asked for, in order. */
  function AllAsked(steps: seq<Step>): seq<Cmd>
    requires After(steps).Some?
  {
    if steps == [] then []
    else
      var front := steps[..|steps| - 1];
      match steps[|steps| - 1]
      case OfClient(t, c) => AllAsked(front) + Asked(After(front).value.At(t), c)
      case OfWorker => AllAsked(front)
  }

  lemma ClientSendsAsked(s: Stream, t: Tid, pc: Pc, step: ClientStep)
    requires ClientNext(s, t, pc, step).Some?
    ensures ClientNext(s, t, pc, step).value.out.history.sent == s.history.sent + Asked(pc, step)
  {
    if step.RunBody? {
      if pc.Body? { BeginSendsAsked(s, pc.call); }
      if pc.Stopped? { AfterStopSendsAsked(s, pc.call); }
    }
  }

  lemma AfterStopSendsAsked(s: Stream, call: Call)
    ensures AfterStop(s, call).out.history.sent == s.history.sent + Asked(Stopped(call), RunBody)
  {
  }

  lemma BeginSendsAsked(s: Stream, call: Call)
    ensures Begin(s, call).out.history.sent == s.history.sent + Asked(Body(call), RunBody)
  {
  }

  /** In every run the commands sent are exactly those the clients' calls ask for, in order. */
  lemma {:induction false} SentIsAsked(steps: seq<Step>)
    requires After(steps).Some?
    ensures After(steps).value.out.history.sent == AllAsked(steps)
  {
    if steps != [] {
      var front := steps[..|steps| - 1];
      SentIsAsked(front);
      var s := After(front).value;
      match steps[|steps| - 1]
      case OfClient(t, c) => ClientSendsAsked(s.out, t, s.At(t), c);
      case OfWorker => WorkerSendsNothing(s.out, s.worker);
    }
  }

  lemma WorkerSendsNothing(s: Stream, worker: Worker)
    requires WorkerNext(s, worker).Some?
    ensures WorkerNext(s, worker).value.out.history.sent == s.history.sent
  {
  }

  /** In every run a callback reports write-ready for a wait, drain-ready for a drain of either kind and an
    error for an error, and for nothing else. */
  lemma EventsFit(steps: seq<Step>, k: nat)
    requires After(steps).Some? && k < |After(steps).value.out.history.taken|
    ensures var (cmd, fate) := After(steps).value.out.history.taken[k];
            fate.Delivered? ==>
              && (fate.event == WriteReady <==> cmd == WaitForBuffer)
              && (fate.event == DrainReady <==> cmd == Drain || cmd == PartialDrain)
              && (fate.event == ErrorEvent <==> cmd == Error)
  {
    CommandsAreAccountedFor(steps);
  }

  /** There are no more events than commands of their kind. */
  predicate Bounded(events: multiset<Event>, cmds: multiset<Cmd>) {
    && events[WriteReady] <= cmds[WaitForBuffer] && events[ErrorEvent] <= cmds[Error]
    && events[DrainReady] <= cmds[Drain] + cmds[PartialDrain]
  }

  lemma OneMore(events: multiset<Event>, cmds: multiset<Cmd>, entry: (Cmd, Fate))
    requires Bounded(events, cmds) && FateFits(entry)
    ensures Bounded(events, cmds + multiset{entry.0})
    ensures entry.1.Delivered? ==> Bounded(events + multiset{entry.1.event}, cmds + multiset{entry.0})
  {
  }

  lemma {:induction false} EventsBounded(taken: seq<(Cmd, Fate)>)
    requires forall k | 0 <= k < |taken| :: FateFits(taken[k])
    ensures Bounded(multiset(Events(taken)), multiset(Cmds(taken)))
  {
    if taken != [] {
      var n := |taken| - 1;
      EventsBounded(taken[..n]);
      OneMore(multiset(Events(taken[..n])), multiset(Cmds(taken[..n])), taken[n]);
      assert Cmds(taken) == Cmds(taken[..n]) + [taken[n].0];
    }
  }

  /** In every run write-ready is called back at most as often as writes left data over, drain-ready at most as
    often as drains were asked for, and an error at most as often as errors were. */
  lemma CallbacksAreAskedFor(steps: seq<Step>)
    requires After(steps).Some?
    ensures var events, asked := multiset(After(steps).value.out.history.callbacks), multiset(AllAsked(steps));
            && events[WriteReady] <= asked[WaitForBuffer] && events[ErrorEvent] <= asked[Error]
            && events[DrainReady] <= asked[Drain] + asked[PartialDrain]
  {
    var h, queue := After(steps).value.out.history, After(steps).value.out.queue;
    CommandsAreAccountedFor(steps);
    SentIsAsked(steps);
    EventsBounded(h.taken);
    assert multiset(h.sent) == multiset(Cmds(h.taken)) + multiset(queue);
  }

  // ---------------------------------------------------------------- playing and pausing

  /** The step stops the stream: a flush or destruction, an error out of standby, or a standby that gets the
    device lock. */
  predicate Stops(s: Stream, pc: Pc, step: ClientStep) {
    || (step.RunBody? && (pc == Body(FlushCall) || pc == Body(DestroyCall) || (pc == Body(ErrorCall) && !s.standby)))
    || (step.LockAdev? && pc.AtAdevLock? && StandsBy(pc.call))
  }

  /** Playback is started exactly while the stream plays or is paused, and then on an open handle. */
  predicate PlaybackOk(s: Stream) {
    (s.playbackStarted <==> s.offloadState != Idle) && (s.playbackStarted ==> s.compr.Some?)
  }

  /** Exactly which client steps start, pause, resume and stop playback. */
  lemma PlaybackMovesIff(s: Stream, t: Tid, pc: Pc, step: ClientStep)
    requires PlaybackOk(s) && ClientNext(s, t, pc, step).Some?
    ensures var before, after := s.offloadState, ClientNext(s, t, pc, step).value.out.offloadState;
            && (before == Idle && after == Playing <==> before == Idle && step.Write? && step.wroteSome)
            && (before == Playing && after == Paused <==> before == Playing && step.RunBody? && pc == Body(PauseCall))
            && (before == Paused && after == Playing <==> before == Paused && step.RunBody? && pc == Body(ResumeCall))
            && (before != Idle && after == Idle <==> before != Idle && Stops(s, pc, step))
            && !(before == Idle && after == Paused)
  {
    if step.RunBody? {
      BodyMoves(s, t, pc);
    }
  }

  lemma BodyMoves(s: Stream, t: Tid, pc: Pc)
    requires PlaybackOk(s) && ClientNext(s, t, pc, RunBody).Some?
    ensures var before, after := s.offloadState, ClientNext(s, t, pc, RunBody).value.out.offloadState;
            after == if Stops(s, pc, RunBody) then Idle
                     else if pc == Body(PauseCall) && before == Playing then Paused
                     else if pc == Body(ResumeCall) && before == Paused then Playing
                     else before
  {
    if pc.Stopped? {
      assert AfterStop(s, pc.call).out.offloadState == s.offloadState;
    }
  }

  lemma ClientKeepsPlayback(s: Stream, worker: Worker, t: Tid, pc: Pc, step: ClientStep)
    requires StreamOk(s) && WorkerOk(s, worker) && ThreadOk(s, t, pc) && PlaybackOk(s)
    requires s.history.closing ==> s.offloadState == Idle
    requires ClientNext(s, t, pc, step).Some?
    ensures var out := ClientNext(s, t, pc, step).value.out;
            PlaybackOk(out) && (out.history.closing ==> out.offloadState == Idle)
  {
    match step
    case Start(result) => StartStreamKeeps(s, worker, t, result);
    case RunBody => RunBodyKeepsPlayback(s, worker, t, pc);
    case _ =>
  }

  lemma RunBodyKeepsPlayback(s: Stream, worker: Worker, t: Tid, pc: Pc)
    requires StreamOk(s) && WorkerOk(s, worker) && ThreadOk(s, t, pc) && PlaybackOk(s)
    requires s.history.closing ==> s.offloadState == Idle
    requires ClientNext(s, t, pc, RunBody).Some?
    ensures var out := ClientNext(s, t, pc, RunBody).value.out;
            PlaybackOk(out) && (out.history.closing ==> out.offloadState == Idle)
  {
  }

  /** In every run playback is started exactly while the stream plays or is paused, on an open handle. */
  lemma {:induction false} PlaysOnOpenHandle(steps: seq<Step>)
    requires After(steps).Some?
    ensures var s := After(steps).value.out; PlaybackOk(s) && (s.history.closing ==> s.offloadState == Idle)
  {
    if steps != [] {
      var front := steps[..|steps| - 1];
      PlaysOnOpenHandle(front);
      RunKeepsInv(front);
      var s := After(front).value;
      match steps[|steps| - 1]
      case OfClient(t, c) => ClientKeepsPlayback(s.out, s.worker, t, s.At(t), c);
      case OfWorker =>
    }
  }

  /** Since the stream was opened or stopped, or a partial drain ended, no write took the metadata along. */
  predicate MetadataDue(steps: seq<Step>)
    requires After(steps).Some?
  {
    if steps == [] then true
    else
      var front := steps[..|steps| - 1];
      var s := After(front).value;
      match steps[|steps| - 1]
      case OfClient(t, c) => !c.Write? && (MetadataDue(front) || Stops(s.out, s.At(t), c))
      case OfWorker => MetadataDue(front) || (s.worker.WUsing? && s.worker.cmd == PartialDrain)
  }

  lemma ClientMetadata(s: Stream, t: Tid, pc: Pc, step: ClientStep)
    requires ClientNext(s, t, pc, step).Some?
    ensures ClientNext(s, t, pc, step).value.out.sendNewMetadata <==>
            !step.Write? && (s.sendNewMetadata || Stops(s, pc, step))
  {
    if step.RunBody? {
      BodyMetadata(s, t, pc);
    }
  }

  lemma BodyMetadata(s: Stream, t: Tid, pc: Pc)
    requires ClientNext(s, t, pc, RunBody).Some?
    ensures ClientNext(s, t, pc, RunBody).value.out.sendNewMetadata <==> s.sendNewMetadata || Stops(s, pc, RunBody)
  {
    if pc.Body? {
      BeginMetadata(s, pc.call);
    }
  }

  lemma BeginMetadata(s: Stream, call: Call)
    ensures Begin(s, call).out.sendNewMetadata <==> s.sendNewMetadata || Stops(s, Body(call), RunBody)
  {
  }

  /** In every run the gapless metadata goes with the next write exactly when it is due. */
  lemma {:induction false} MetadataIsDue(steps: seq<Step>)
    requires After(steps).Some?
    ensures After(steps).value.out.sendNewMetadata <==> MetadataDue(steps)
  {
    if steps != [] {
      var front := steps[..|steps| - 1];
      MetadataIsDue(front);
      var s := After(front).value;
      match steps[|steps| - 1]
      case OfClient(t, c) => ClientMetadata(s.out, t, s.At(t), c);
      case OfWorker =>
    }
  }

  // ---------------------------------------------------------------- standby and the handle

  /** Exactly which client steps leave standby and enter it: a write leaves it, and returns to it if starting the
    stream failed; a standby enters it with the device lock. */
  lemma StandbyMovesIff(s: Stream, t: Tid, pc: Pc, step: ClientStep)
    requires ClientNext(s, t, pc, step).Some?
    ensures ClientNext(s, t, pc, step).value.out.standby <==>
              || (step.LockAdev? && StandsBy(pc.call))
              || (step == Start(Refused) || step == Start(NotReady))
              || (s.standby && !(step.RunBody? && pc == Body(WriteCall)))
  {
    if step.RunBody? && pc.Stopped? {
      assert AfterStop(s, pc.call).out.standby == s.standby;
    }
  }

  /** A standby, on its own or ahead of a routing change, with the worker off the handle. */
  predicate Closes(pc: Pc) {
    pc.Stopped? && (pc.call == StandbyCall || pc.call.RouteCall?)
  }

  /** Exactly which client steps change the handle: starting gives a new one, or none if it fails or there is
    none; a standby that got the worker off it closes it. */
  lemma HandleMovesIff(s: Stream, t: Tid, pc: Pc, step: ClientStep)
    requires ClientNext(s, t, pc, step).Some?
    ensures var after := ClientNext(s, t, pc, step).value.out;
            && after.compr == (if step == Start(Opened) then Option.Some(s.history.nextHandle)
                               else if step == Start(NotReady) || step == Start(NoHandle) then Option.None
                               else if step.RunBody? && Closes(pc) then Option.None
                               else s.compr)
            && after.history.nextHandle
               == s.history.nextHandle + if step == Start(Opened) || step == Start(NotReady) then 1 else 0
  {
    if step.RunBody? {
      BodyHandle(s, t, pc);
    }
  }

  lemma BodyHandle(s: Stream, t: Tid, pc: Pc)
    requires ClientNext(s, t, pc, RunBody).Some?
    ensures var after := ClientNext(s, t, pc, RunBody).value.out;
            && after.compr == (if Closes(pc) then Option.None else s.compr)
            && after.history.nextHandle == s.history.nextHandle
  {
    if pc.Body? {
      BeginKeepsHandle(s, pc.call);
    }
  }

  lemma BeginKeepsHandle(s: Stream, call: Call)
    ensures var after := Begin(s, call).out;
            after.compr == s.compr && after.history.nextHandle == s.history.nextHandle
  {
  }

  /** How a call goes on after starting the stream and after stopping it: a write that could not start is over,
    another writes; a stopped call is over, but for a routing change, which goes on to route. */
  lemma CallGoesOn(s: Stream, t: Tid, pc: Pc, step: ClientStep)
    requires ClientNext(s, t, pc, step).Some?
    requires step.Start? || (step.RunBody? && pc.Stopped?)
    ensures var m := ClientNext(s, t, pc, step).value;
            && (step == Start(Refused) || step == Start(NotReady) ==> m.pc == Out && m.out.adevLock.None?)
            && (step == Start(NoHandle) || step == Start(Opened) ==> m.pc == Writing && m.out.adevLock.None?)
            && (step.RunBody? ==>
                  m.pc == if pc.call.RouteCall? then AtAdevLock(RouteCall(false)) else Out)
  {
  }
}
