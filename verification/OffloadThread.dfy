/** The compress offload worker of an output stream and the threads that call into the stream,
  as interleaved steps over the locks they share: the stream lock, the lock in front of it that
  lock_output_stream holds until it has the stream lock, and the device lock.

  A body executed under the stream lock is one step, cut where the code can block: when it
  takes a lock, and when it waits on `out->cond` for the worker. Waiting threads may wake at
  any time, so every behaviour of the real condition variables is included. A thread that wakes
  takes the stream lock directly. */
module OffloadThread {
  import opened Wrappers

  type Tid = nat
  type Handle = nat

  datatype Cmd = Exit | Drain | PartialDrain | WaitForBuffer | Error

  datatype Event = WriteReady | DrainReady | ErrorEvent

  datatype OffloadState = Idle | Playing | Paused

  /** What became of a command taken from the queue. */
  datatype Fate = Delivered(event: Event) | InProgress | DiscardedNoHandle | ExitTaken | DrainedAtExit

  datatype Call =
    | WriteCall | PauseCall | ResumeCall | DrainCall(early: bool) | FlushCall | StandbyCall | ErrorCall | DestroyCall
    | RouteCall(unplugged: bool)    // out_set_parameters; an unplugged stream goes to standby first

  /** Where a client thread is. */
  datatype Pc =
    | Out                      // not in a stream call
    | AtPreLock(call: Call)    // about to take the lock in front of the stream lock
    | AtLock(call: Call)       // holds the lock in front, about to lock the stream
    | Body(call: Call)         // holds the stream lock
    | AtAdevLock(call: Call)   // holds the stream lock, about to lock the device
    | Starting                 // write leaving standby, holds both locks
    | StopCheck(call: Call)    // stop_compressed_output_l, about to test offload_thread_blocked
    | StopWait(call: Call)     // waiting on out->cond, stream lock released
    | Stopped(call: Call)      // the worker is off the handle
    | Routing                  // re-routing the stream, holds both locks
    | Writing                  // write after the handle is known, holds the stream lock
    | DeviceOnly               // some other code holding the device lock

  datatype Worker =
    | WStart     // about to take the lock in front of the stream lock for the first time
    | WStarting  // holds the lock in front, about to lock the stream
    | WLoop | WSleep
    | WUsing(cmd: Cmd, handle: Handle)    // stream lock released, inside the compress library
    | WReturn(cmd: Cmd, handle: Handle)   // wants the stream lock back, about to take the one in front
    | WRelock(cmd: Cmd, handle: Handle)   // holds the lock in front, about to lock the stream
    | WDone

  datatype Owner = Nobody | Client(t: Tid) | WorkerOwner

  /** `closing` marks a standby call between taking the device lock and closing the handle. */
  datatype History = History(closing: bool, nextHandle: Handle, open: set<Handle>,
                             sent: seq<Cmd>, taken: seq<(Cmd, Fate)>, callbacks: seq<Event>)

  /** The fields of the stream, the locks and the history. */
  datatype Stream = Stream(
    preLock: Owner, outLock: Owner, adevLock: Option<Tid>,
    standby: bool, compr: Option<Handle>, blocked: bool,
    playbackStarted: bool, sendNewMetadata: bool, offloadState: OffloadState,
    queue: seq<Cmd>, history: History)
  {
    function Send(cmd: Cmd): Stream {
      this.(queue := queue + [cmd], history := history.(sent := history.sent + [cmd]))
    }
  }

  datatype State = State(out: Stream, worker: Worker, clients: map<Tid, Pc>) {
    function At(t: Tid): Pc {
      if t in clients then clients[t] else Out
    }
  }

  function Initial(): State {
    State(Stream(Nobody, Nobody, Option.None, true, Option.None, false, false, true, Idle, [],
      History(false, 0, {}, [], [], [])),
          WStart, map[])
  }

  // ---------------------------------------------------------------- steps of the clients

  datatype StartResult = Refused | NotReady | NoHandle | Opened

  datatype ClientStep =
    | Enter(call: Call)
    | LockPre
    | LockOut
    | RunBody
    | LockAdev
    | Start(result: StartResult)
    | Write(partial: bool, wroteSome: bool)
    | Reroute
    | TakeAdev
    | ReleaseAdev

  datatype Moved = Moved(out: Stream, pc: Pc)

  function Leave(s: Stream): Moved {
    Moved(s.(outLock := Nobody), Out)
  }

  /** stop_compressed_output_l up to its first test of offload_thread_blocked. */
  function BeginStop(s: Stream, call: Call): Moved {
    Moved(s.(offloadState := Idle, playbackStarted := false, sendNewMetadata := true),
          if s.compr.None? then Stopped(call) else StopCheck(call))
  }

  /** The body of a call once the stream is locked. */
  function Begin(s: Stream, call: Call): Moved {
    match call
    case WriteCall => if s.standby then Moved(s.(standby := false), AtAdevLock(call)) else Moved(s, Writing)
    case PauseCall => Leave(if s.compr.Some? && s.offloadState.Playing? then s.(offloadState := Paused) else s)
    case ResumeCall => Leave(if s.compr.Some? && s.offloadState.Paused? then s.(offloadState := Playing) else s)
    case DrainCall(early) => Leave(s.Send(if early then PartialDrain else Drain))
    case FlushCall => BeginStop(s, call)
    case StandbyCall => if s.standby then Leave(s) else Moved(s, AtAdevLock(call))
    case ErrorCall => if s.standby then Leave(s) else BeginStop(s, call)
    case DestroyCall => BeginStop(s, call)
    case RouteCall(unplugged) => Moved(s, AtAdevLock(RouteCall(unplugged && !s.standby)))
  }

  /** Calls that put the stream in standby once they have the device lock. */
  predicate StandsBy(call: Call) {
    call == StandbyCall || call == RouteCall(true)
  }

  /** out_standby_l closing the handle, and releasing the device lock. */
  function CloseHandle(s: Stream): Stream {
    var h := s.history.(closing := false);
    s.(adevLock := Option.None, compr := Option.None,
       history := if s.compr.Some? then h.(open := h.open - {s.compr.value}) else h)
  }

  /** The rest of a call after stop_compressed_output_l. */
  function AfterStop(s: Stream, call: Call): Moved {
    match call
    case ErrorCall => Leave(s.Send(Error))
    case DestroyCall => Leave(s.Send(Exit))
    case StandbyCall => Leave(CloseHandle(s))
    case RouteCall(_) => Moved(CloseHandle(s), AtAdevLock(RouteCall(false)))
    case _ => Leave(s)
  }

  /** start_output_stream for the offload use case; the device lock is released afterwards. */
  function StartStream(s: Stream, result: StartResult): Moved {
    var r := s.(adevLock := Option.None);
    var h := s.history;
    match result
    case Refused => Leave(r.(standby := true))
    case NotReady => Leave(r.(standby := true, compr := Option.None, history := h.(nextHandle := h.nextHandle + 1)))
    case NoHandle => Moved(r.(compr := Option.None), Writing)
    case Opened =>
      Moved(r.(compr := Option.Some(h.nextHandle),
        history := h.(open := h.open + {h.nextHandle}, nextHandle := h.nextHandle + 1)), Writing)
  }

  /** Writing to the handle, after the metadata if it is due; only an open handle takes data. */
  function WriteData(s: Stream, partial: bool, wroteSome: bool): Moved {
    var a := (if partial then s.Send(WaitForBuffer) else s).(sendNewMetadata := false);
    Leave(if wroteSome && !s.playbackStarted then a.(playbackStarted := true, offloadState := Playing) else a)
  }

  /** What a client thread `t` at `pc` does in one step, if it can take that step. */
  function ClientNext(s: Stream, t: Tid, pc: Pc, step: ClientStep): Option<Moved> {
    match step
    case Enter(call) => if pc.Out? then Option.Some(Moved(s, AtPreLock(call))) else Option.None
    case LockPre =>
      if s.preLock != Nobody || !pc.AtPreLock? then Option.None
      else Option.Some(Moved(s.(preLock := Client(t)), AtLock(pc.call)))
    case LockOut =>
      if s.outLock != Nobody then Option.None
      else if pc.AtLock? then Option.Some(Moved(s.(preLock := Nobody, outLock := Client(t)), Body(pc.call)))
      else if pc.StopWait? then Option.Some(Moved(s.(outLock := Client(t)), StopCheck(pc.call)))
      else Option.None
    case RunBody =>
      if pc.Body? then Option.Some(Begin(s, pc.call))
      else if pc.StopCheck? then
        Option.Some(if s.blocked then Moved(s.(outLock := Nobody), StopWait(pc.call)) else Moved(s, Stopped(pc.call)))
      else if pc.Stopped? then Option.Some(AfterStop(s, pc.call))
      else Option.None
    case LockAdev =>
      if s.adevLock.Some? || !pc.AtAdevLock? then Option.None
      else if pc.call == WriteCall then Option.Some(Moved(s.(adevLock := Option.Some(t)), Starting))
      else if !StandsBy(pc.call) then Option.Some(Moved(s.(adevLock := Option.Some(t)), Routing))
      else Option.Some(BeginStop(s.(adevLock := Option.Some(t), standby := true,
        history := s.history.(closing := true)), pc.call))
    case Start(result) => if pc.Starting? then Option.Some(StartStream(s, result)) else Option.None
    case Write(partial, wroteSome) =>
      if pc.Writing? && (wroteSome ==> s.compr.Some?) then Option.Some(WriteData(s, partial, wroteSome))
      else Option.None
    case Reroute => if pc.Routing? then Option.Some(Leave(s.(adevLock := Option.None))) else Option.None
    case TakeAdev => if pc.Out?
      && s.adevLock.None? then Option.Some(Moved(s.(adevLock := Option.Some(t)), DeviceOnly)) else Option.None
    case ReleaseAdev => if pc.DeviceOnly? then Option.Some(Moved(s.(adevLock := Option.None), Out)) else Option.None
  }

  // ---------------------------------------------------------------- steps of the worker

  /** The callback event the worker sends for a command; Exit never gets that far. */
  function EventOf(cmd: Cmd): Event {
    match cmd
    case WaitForBuffer => WriteReady
    case PartialDrain => DrainReady
    case Drain => DrainReady
    case Error => ErrorEvent
    case Exit => ErrorEvent
  }

  function DrainedFates(queue: seq<Cmd>): (r: seq<(Cmd, Fate)>)
    ensures |r| == |queue|
  {
    seq(|queue|, k requires 0 <= k < |queue| => (queue[k], DrainedAtExit))
  }

  datatype WorkerMoved = WorkerMoved(out: Stream, worker: Worker)

  /** One pass of the worker loop, under the stream lock. */
  function LoopPass(s: Stream): WorkerMoved {
    if s.queue == [] then WorkerMoved(s.(outLock := Nobody), WSleep)
    else
      var cmd, rest, h := s.queue[0], s.queue[1..], s.history;
      if cmd == Exit then
        WorkerMoved(s.(queue := [], outLock := Nobody,
          history := h.(taken := h.taken + [(Exit, ExitTaken)] + DrainedFates(rest))), WDone)
      else
        match s.compr
        case None => WorkerMoved(s.(queue := rest, history := h.(taken := h.taken + [(cmd, DiscardedNoHandle)])), WLoop)
        case Some(handle) =>
          WorkerMoved(s.(queue := rest, blocked := true, outLock := Nobody,
            history := h.(taken := h.taken + [(cmd, InProgress)])),
                      WUsing(cmd, handle))
  }

  /** Relocking after the compress call: unblock and deliver the callback. */
  function Deliver(s: Stream, cmd: Cmd): Stream
    requires s.history.taken != []
  {
    var h := s.history;
    s.(preLock := Nobody, outLock := WorkerOwner, blocked := false,
       history := h.(callbacks := h.callbacks + [EventOf(cmd)],
                     taken := h.taken[..|h.taken| - 1] + [(cmd, Delivered(EventOf(cmd)))]))
  }

  function WorkerNext(s: Stream, worker: Worker): Option<WorkerMoved> {
    match worker
    case WStart => if s.preLock != Nobody then Option.None
      else Option.Some(WorkerMoved(s.(preLock := WorkerOwner), WStarting))
    case WStarting => if s.outLock != Nobody then Option.None
      else Option.Some(WorkerMoved(s.(preLock := Nobody, outLock := WorkerOwner, offloadState := Idle,
                                      playbackStarted := false), WLoop))
    case WSleep => if s.outLock != Nobody then Option.None
      else Option.Some(WorkerMoved(s.(outLock := WorkerOwner), WLoop))
    case WLoop => Option.Some(LoopPass(s))
    case WUsing(cmd, h) =>
      Option.Some(WorkerMoved(if cmd == PartialDrain then s.(sendNewMetadata := true) else s, WReturn(cmd, h)))
    case WReturn(cmd, h) => if s.preLock != Nobody then Option.None
      else Option.Some(WorkerMoved(s.(preLock := WorkerOwner), WRelock(cmd, h)))
    case WRelock(cmd, _) =>
      if s.outLock != Nobody || s.history.taken == [] then Option.None
        else Option.Some(WorkerMoved(Deliver(s, cmd), WLoop))
    case WDone => Option.None
  }

  // ---------------------------------------------------------------- runs

  datatype Step = OfClient(t: Tid, step: ClientStep) | OfWorker

  /** The state after a step, or None when the step cannot be taken. */
  function Next(s: State, step: Step): Option<State> {
    match step
    case OfClient(t, c) =>
      (match ClientNext(s.out, t, s.At(t), c)
       case None => Option.None
       case Some(m) => Option.Some(State(m.out, s.worker, s.clients[t := m.pc])))
    case OfWorker =>
      match WorkerNext(s.out, s.worker)
      case None => Option.None
      case Some(m) => Option.Some(State(m.out, m.worker, s.clients))
  }

  /** The state a run leads to, if every step of it can be taken. */
  function After(steps: seq<Step>): Option<State> {
    if steps == [] then Option.Some(Initial())
    else
      match After(steps[..|steps| - 1])
      case None => Option.None
      case Some(s) => Next(s, steps[|steps| - 1])
  }

  // ---------------------------------------------------------------- the invariant

  predicate HoldsOut(pc: Pc) {
    pc.Body? || pc.AtAdevLock? || pc.Starting? || pc.StopCheck? || pc.Stopped? || pc.Routing? || pc.Writing?
  }

  predicate Stopping(pc: Pc) {
    pc.StopCheck? || pc.StopWait? || pc.Stopped?
  }

  predicate InStandby(pc: Pc) {
    Stopping(pc) && StandsBy(pc.call)
  }

  predicate HoldsAdev(pc: Pc) {
    pc.Starting? || pc.Routing? || pc.DeviceOnly? || InStandby(pc)
  }

  /** Coming out of standby: standby is cleared but no handle is opened yet. */
  predicate Waking(pc: Pc) {
    pc.Starting? || (pc.AtAdevLock? && pc.call == WriteCall)
  }

  /** What holds of one client thread. */
  predicate ThreadOk(s: Stream, t: Tid, pc: Pc) {
    && (pc.AtLock? <==> s.preLock == Client(t))
    && (HoldsOut(pc) <==> s.outLock == Client(t))
    && (HoldsAdev(pc) <==> s.adevLock == Option.Some(t))
    && (InStandby(pc) <==> s.history.closing && s.adevLock == Option.Some(t))
    && (Waking(pc) ==> !s.standby && (s.compr.None? || s.history.closing))
    && (pc.Stopped? ==> !s.blocked)
    && (pc.StopWait? ==> s.history.taken != [])
    && (pc.Writing? ==> !s.standby)
    && (pc.AtAdevLock? ==> pc.call == WriteCall || pc.call == RouteCall(false) || StandsBy(pc.call))
    && (pc.AtAdevLock? && StandsBy(pc.call) ==> !s.standby && !s.history.closing)
    && (HoldsOut(pc) && s.history.closing && !s.standby ==> pc == AtAdevLock(WriteCall))
    && (Stopping(pc) ==> StandsBy(pc.call) || pc.call == FlushCall || pc.call == ErrorCall || pc.call == DestroyCall)
  }

  /** While the worker uses a handle that handle stays in place and open. */
  predicate WorkerOk(s: Stream, worker: Worker) {
    && (worker.WStarting? || worker.WRelock? <==> s.preLock == WorkerOwner)
    && (worker == WLoop <==> s.outLock == WorkerOwner)
    && (worker.WStart? || worker.WStarting? ==> s.history.taken == [])
    && (s.blocked <==> worker.WUsing? || worker.WReturn? || worker.WRelock?)
    && (s.blocked ==> s.compr == Option.Some(worker.handle) && worker.handle in s.history.open && worker.cmd != Exit &&
                      s.history.taken != [] && s.history.taken[|s.history.taken| - 1] == (worker.cmd, InProgress))
  }

  /** The open handles are exactly the stream's; in standby there is none, unless a standby call is
    still closing it under the device lock; a stream being closed leaves standby only for a write
    that waits for the device lock. */
  predicate StreamOk(s: Stream) {
    && s.history.open == (if s.compr.Some? then {s.compr.value} else {})
    && (s.compr.Some? ==> s.compr.value < s.history.nextHandle)
    && (s.standby ==> s.compr.None? || s.history.closing)
    && (s.history.closing ==> s.adevLock.Some?)
    && (s.history.closing && !s.standby ==> s.outLock.Client?)
  }

  ghost predicate Inv(s: State) {
    StreamOk(s.out) && WorkerOk(s.out, s.worker) && forall t: Tid {:trigger s.At(t)} :: ThreadOk(s.out, t, s.At(t))
  }

  /** A client step keeps the stream, worker and own conditions, and those of another thread. */
  ghost predicate Keeps(s: Stream, worker: Worker, t: Tid, m: Moved) {
    && StreamOk(m.out) && WorkerOk(m.out, worker) && ThreadOk(m.out, t, m.pc)
    && forall u: Tid, other: Pc | u != t && ThreadOk(s, u, other) :: ThreadOk(m.out, u, other)
  }

  /** Leaving after changing nothing but the playback state or the queue. */
  lemma LeaveKeeps(s: Stream, worker: Worker, t: Tid, pc: Pc, r: Stream)
    requires StreamOk(s) && WorkerOk(s, worker) && ThreadOk(s, t, pc)
    requires HoldsOut(pc) && !HoldsAdev(pc) && !pc.AtAdevLock?
    requires r == s.(playbackStarted := r.playbackStarted, sendNewMetadata := r.sendNewMetadata,
                     offloadState := r.offloadState, queue := r.queue,
                     history := s.history.(sent := r.history.sent))
    ensures Keeps(s, worker, t, Leave(r))
  {
  }

  lemma BeginStopKeeps(s: Stream, worker: Worker, t: Tid, call: Call)
    requires StreamOk(s) && WorkerOk(s, worker) && ThreadOk(s, t, Body(call))
    requires call == FlushCall || call == ErrorCall || call == DestroyCall
    ensures Keeps(s, worker, t, BeginStop(s, call))
  {
  }

  /** Pausing and resuming change the playback state only. */
  lemma PauseKeeps(s: Stream, worker: Worker, t: Tid, call: Call)
    requires StreamOk(s) && WorkerOk(s, worker) && ThreadOk(s, t, Body(call))
    requires call == PauseCall || call == ResumeCall
    ensures Keeps(s, worker, t, Begin(s, call))
  {
    LeaveKeeps(s, worker, t, Body(call), s.(offloadState := Paused));
    LeaveKeeps(s, worker, t, Body(call), s.(offloadState := Playing));
    LeaveKeeps(s, worker, t, Body(call), s);
  }

  /** Write, standby and re-routing go on to lock the device. */
  lemma BeginLockingKeeps(s: Stream, worker: Worker, t: Tid, call: Call)
    requires StreamOk(s) && WorkerOk(s, worker) && ThreadOk(s, t, Body(call))
    requires call == WriteCall || call == StandbyCall || call.RouteCall?
    ensures Keeps(s, worker, t, Begin(s, call))
  {
  }

  lemma BeginKeeps(s: Stream, worker: Worker, t: Tid, call: Call)
    requires StreamOk(s) && WorkerOk(s, worker) && ThreadOk(s, t, Body(call))
    ensures Keeps(s, worker, t, Begin(s, call))
  {
    match call
    case PauseCall => PauseKeeps(s, worker, t, call);
    case ResumeCall => PauseKeeps(s, worker, t, call);
    case DrainCall(early) => LeaveKeeps(s, worker, t, Body(call), s.Send(if early then PartialDrain else Drain));
    case ErrorCall =>
      if s.standby { LeaveKeeps(s, worker, t, Body(call), s); } else { BeginStopKeeps(s, worker, t, call); }
    case FlushCall => BeginStopKeeps(s, worker, t, call);
    case DestroyCall => BeginStopKeeps(s, worker, t, call);
    case _ => BeginLockingKeeps(s, worker, t, call);
  }

  /** Closing the handle, which standby does once the worker is off it. */
  lemma ClosingKeeps(s: Stream, worker: Worker, t: Tid, call: Call)
    requires StreamOk(s) && WorkerOk(s, worker) && ThreadOk(s, t, Stopped(call)) && StandsBy(call)
    ensures Keeps(s, worker, t, AfterStop(s, call))
  {
  }

  lemma AfterStopKeeps(s: Stream, worker: Worker, t: Tid, call: Call)
    requires StreamOk(s) && WorkerOk(s, worker) && ThreadOk(s, t, Stopped(call))
    ensures Keeps(s, worker, t, AfterStop(s, call))
  {
    if StandsBy(call) {
      ClosingKeeps(s, worker, t, call);
    } else {
      LeaveKeeps(s, worker, t, Stopped(call), AfterStop(s, call).out.(outLock := s.outLock));
    }
  }

  lemma StartStreamKeeps(s: Stream, worker: Worker, t: Tid, result: StartResult)
    requires StreamOk(s) && WorkerOk(s, worker) && ThreadOk(s, t, Starting)
    ensures s.compr.None? && Keeps(s, worker, t, StartStream(s, result))
  {
  }

  lemma ClientStepKeeps(s: Stream, worker: Worker, t: Tid, pc: Pc, step: ClientStep)
    requires StreamOk(s) && WorkerOk(s, worker) && ThreadOk(s, t, pc) && ClientNext(s, t, pc, step).Some?
    ensures Keeps(s, worker, t, ClientNext(s, t, pc, step).value)
  {
    match step
    case RunBody => RunBodyKeeps(s, worker, t, pc);
    case Start(result) => StartStreamKeeps(s, worker, t, result);
    case Write(partial, wroteSome) => WriteKeeps(s, worker, t, partial, wroteSome);
    case LockPre => LockPreKeeps(s, worker, t, pc);
    case LockOut => LockOutKeeps(s, worker, t, pc);
    case LockAdev => LockAdevKeeps(s, worker, t, pc);
    case Reroute => RerouteKeeps(s, worker, t, pc);
    case _ => DeviceStepKeeps(s, worker, t, pc, step);
  }

  lemma RunBodyKeeps(s: Stream, worker: Worker, t: Tid, pc: Pc)
    requires StreamOk(s) && WorkerOk(s, worker) && ThreadOk(s, t, pc) && ClientNext(s, t, pc, RunBody).Some?
    ensures Keeps(s, worker, t, ClientNext(s, t, pc, RunBody).value)
  {
    if pc.Body? { BeginKeeps(s, worker, t, pc.call); }
    if pc.Stopped? { AfterStopKeeps(s, worker, t, pc.call); }
  }

  lemma LockPreKeeps(s: Stream, worker: Worker, t: Tid, pc: Pc)
    requires StreamOk(s) && WorkerOk(s, worker) && ThreadOk(s, t, pc) && ClientNext(s, t, pc, LockPre).Some?
    ensures Keeps(s, worker, t, ClientNext(s, t, pc, LockPre).value)
  {
  }

  lemma LockOutKeeps(s: Stream, worker: Worker, t: Tid, pc: Pc)
    requires StreamOk(s) && WorkerOk(s, worker) && ThreadOk(s, t, pc) && ClientNext(s, t, pc, LockOut).Some?
    ensures Keeps(s, worker, t, ClientNext(s, t, pc, LockOut).value)
  {
  }

  lemma RerouteKeeps(s: Stream, worker: Worker, t: Tid, pc: Pc)
    requires StreamOk(s) && WorkerOk(s, worker) && ThreadOk(s, t, pc) && ClientNext(s, t, pc, Reroute).Some?
    ensures Keeps(s, worker, t, ClientNext(s, t, pc, Reroute).value)
  {
  }

  /** Entering a call, and other code under the device lock. */
  lemma DeviceStepKeeps(s: Stream, worker: Worker, t: Tid, pc: Pc, step: ClientStep)
    requires StreamOk(s) && WorkerOk(s, worker) && ThreadOk(s, t, pc) && ClientNext(s, t, pc, step).Some?
    requires step.Enter? || step.TakeAdev? || step.ReleaseAdev?
    ensures Keeps(s, worker, t, ClientNext(s, t, pc, step).value)
  {
  }

  lemma WriteKeeps(s: Stream, worker: Worker, t: Tid, partial: bool, wroteSome: bool)
    requires StreamOk(s) && WorkerOk(s, worker) && ThreadOk(s, t, Writing)
    ensures Keeps(s, worker, t, WriteData(s, partial, wroteSome))
  {
  }

  lemma LockAdevKeeps(s: Stream, worker: Worker, t: Tid, pc: Pc)
    requires StreamOk(s) && WorkerOk(s, worker) && ThreadOk(s, t, pc) && ClientNext(s, t, pc, LockAdev).Some?
    ensures Keeps(s, worker, t, ClientNext(s, t, pc, LockAdev).value)
  {
    if StandsBy(pc.call) {
      StandbyLocksKeeps(s, worker, t, pc.call);
    }
  }

  /** A standby that gets the device lock begins to stop the stream. */
  lemma StandbyLocksKeeps(s: Stream, worker: Worker, t: Tid, call: Call)
    requires StreamOk(s) && WorkerOk(s, worker) && ThreadOk(s, t, AtAdevLock(call))
    requires StandsBy(call) && s.adevLock.None?
    ensures Keeps(s, worker, t, ClientNext(s, t, AtAdevLock(call), LockAdev).value)
  {
  }

  lemma WorkerStepKeeps(s: Stream, worker: Worker)
    requires StreamOk(s) && WorkerOk(s, worker) && WorkerNext(s, worker).Some?
    ensures var m := WorkerNext(s, worker).value; StreamOk(m.out) && WorkerOk(m.out, m.worker)
  {
  }

  lemma WorkerStepKeepsThreads(s: Stream, worker: Worker, u: Tid, pc: Pc)
    requires WorkerOk(s, worker) && ThreadOk(s, u, pc) && WorkerNext(s, worker).Some?
    ensures ThreadOk(WorkerNext(s, worker).value.out, u, pc)
  {
  }

  lemma StepKeepsInv(s: State, step: Step)
    requires Inv(s) && Next(s, step).Some?
    ensures Inv(Next(s, step).value)
  {
    var s' := Next(s, step).value;
    match step
    case OfClient(t, c) =>
      ClientStepKeeps(s.out, s.worker, t, s.At(t), c);
      forall u: Tid
        ensures ThreadOk(s'.out, u, s'.At(u))
      {
        assert ThreadOk(s.out, u, s.At(u));
        if u != t {
          assert s'.At(u) == s.At(u);
        }
      }
    case OfWorker =>
      WorkerStepKeeps(s.out, s.worker);
      forall u: Tid
        ensures ThreadOk(s'.out, u, s'.At(u))
      {
        assert ThreadOk(s.out, u, s.At(u));
        WorkerStepKeepsThreads(s.out, s.worker, u, s.At(u));
      }
  }

  lemma {:induction false} RunKeepsInv(steps: seq<Step>)
    requires After(steps).Some?
    ensures Inv(After(steps).value)
  {
    if steps != [] {
      var front := steps[..|steps| - 1];
      RunKeepsInv(front);
      StepKeepsInv(After(front).value, steps[|steps| - 1]);
    }
  }

  /** Safety over every run: whenever the worker is marked blocked, the handle it was given is
    still the stream's and is open, and at most this one handle is open. */
  lemma BlockedMeansOpen(steps: seq<Step>)
    requires After(steps).Some?
    ensures var s := After(steps).value;
            && (s.out.blocked <==> s.worker.WUsing? || s.worker.WReturn? || s.worker.WRelock?)
            && (s.out.blocked ==>
              s.out.compr == Option.Some(s.worker.handle) && s.out.history.open == {s.worker.handle})
  {
    RunKeepsInv(steps);
  }

  /** A client step leaves the handle in place unless the worker is off it, and opens one only when
    none is open. */
  lemma ClientStepRespectsHandle(s: Stream, worker: Worker, t: Tid, pc: Pc, step: ClientStep)
    requires StreamOk(s) && WorkerOk(s, worker) && ThreadOk(s, t, pc) && ClientNext(s, t, pc, step).Some?
    ensures var m := ClientNext(s, t, pc, step).value;
            && (s.blocked ==> m.out.compr == s.compr && m.out.history.open == s.history.open)
            && (m.out.history.nextHandle > s.history.nextHandle ==> s.history.open == {})
  {
    match step
    case Start(result) => StartStreamKeeps(s, worker, t, result);
    case RunBody => RunBodyRespectsHandle(s, worker, t, pc);
    case _ =>
  }

  lemma RunBodyRespectsHandle(s: Stream, worker: Worker, t: Tid, pc: Pc)
    requires StreamOk(s) && WorkerOk(s, worker) && ThreadOk(s, t, pc) && ClientNext(s, t, pc, RunBody).Some?
    ensures var m := ClientNext(s, t, pc, RunBody).value;
            && (s.blocked ==> m.out.compr == s.compr && m.out.history.open == s.history.open)
            && m.out.history.nextHandle == s.history.nextHandle
  {
    if pc.Stopped? {
      AfterStopRespectsHandle(s, t, pc.call);
    }
  }

  lemma AfterStopRespectsHandle(s: Stream, t: Tid, call: Call)
    requires ThreadOk(s, t, Stopped(call))
    ensures var m := AfterStop(s, call); !s.blocked && m.out.history.nextHandle == s.history.nextHandle
  {
  }

  /** No step of any run closes or replaces a handle the worker is using, and none opens a handle
    over an open one. */
  lemma NoStepDisturbsTheWorker(steps: seq<Step>, step: Step)
    requires After(steps).Some? && Next(After(steps).value, step).Some?
    ensures var s, s' := After(steps).value, Next(After(steps).value, step).value;
            && (s.out.blocked ==> s'.out.compr == s.out.compr && s'.out.history.open == s.out.history.open)
            && (s'.out.history.nextHandle > s.out.history.nextHandle ==> s.out.history.open == {})
  {
    RunKeepsInv(steps);
    var s := After(steps).value;
    match step
    case OfClient(t, c) => ClientStepRespectsHandle(s.out, s.worker, t, s.At(t), c);
    case OfWorker =>
  }

  // ---------------------------------------------------------------- commands and callbacks

  function Cmds(taken: seq<(Cmd, Fate)>): (r: seq<Cmd>)
    ensures |r| == |taken|
  {
    seq(|taken|, k requires 0 <= k < |taken| => taken[k].0)
  }

  /** The events of the delivered commands, in the order the commands were taken. */
  function Events(taken: seq<(Cmd, Fate)>): seq<Event> {
    if taken == [] then []
    else
      var last := taken[|taken| - 1];
      Events(taken[..|taken| - 1]) + if last.1.Delivered? then [last.1.event] else []
  }

  /** A fate fits its command: callbacks carry the command's event, exit ends the service. */
  predicate FateFits(entry: (Cmd, Fate)) {
    match entry.1
    case Delivered(event) => entry.0 != Exit && event == EventOf(entry.0)
    case InProgress => entry.0 != Exit
    case DiscardedNoHandle => entry.0 != Exit
    case ExitTaken => entry.0 == Exit
    case DrainedAtExit => true
  }

  /** Every command sent is in exactly one place, in order, and the callbacks are those of the
    delivered ones. */
  ghost predicate Accounted(s: Stream, worker: Worker) {
    && s.history.sent == Cmds(s.history.taken) + s.queue
    && s.history.callbacks == Events(s.history.taken)
    && (forall k {:trigger s.history.taken[k]} | 0 <= k < |s.history.taken| ::
          && FateFits(s.history.taken[k])
          && (s.history.taken[k].1.InProgress? <==> s.blocked && k == |s.history.taken| - 1)
          && (s.history.taken[k].1.ExitTaken? || s.history.taken[k].1.DrainedAtExit? ==> worker.WDone?))
  }

  lemma CmdsAppend(a: seq<(Cmd, Fate)>, b: seq<(Cmd, Fate)>)
    ensures Cmds(a + b) == Cmds(a) + Cmds(b)
  {
  }

  lemma {:induction false} NothingDelivered(a: seq<(Cmd, Fate)>, b: seq<(Cmd, Fate)>)
    requires forall k | 0 <= k < |b| :: !b[k].1.Delivered?
    ensures Events(a + b) == Events(a)
  {
    if b != [] {
      var n := |b| - 1;
      assert (a + b)[..|a| + n] == a + b[..n];
      NothingDelivered(a, b[..n]);
    } else {
      assert a + b == a;
    }
  }

  /** `r` is `s` after sending `added`: nothing else of the bookkeeping changed. */
  predicate Appends(s: Stream, r: Stream, added: seq<Cmd>) {
    && r.history.taken == s.history.taken && r.history.callbacks == s.history.callbacks && r.blocked == s.blocked
    && r.queue == s.queue + added && r.history.sent == s.history.sent + added
  }

  /** A client only appends to the queue, and what it appends it has sent. */
  lemma ClientStepAppends(s: Stream, t: Tid, pc: Pc, step: ClientStep) returns (added: seq<Cmd>)
    requires ClientNext(s, t, pc, step).Some?
    ensures Appends(s, ClientNext(s, t, pc, step).value.out, added)
  {
    added := [];
    match step
    case RunBody =>
      if pc.Body? { added := BeginAppends(s, pc.call); }
      if pc.Stopped? { added := AfterStopAppends(s, pc.call); }
    case Write(partial, _) => added := if partial then [WaitForBuffer] else [];
    case _ => OtherStepAppendsNothing(s, t, pc, step);
  }

  lemma OtherStepAppendsNothing(s: Stream, t: Tid, pc: Pc, step: ClientStep)
    requires ClientNext(s, t, pc, step).Some? && !step.RunBody? && !step.Write?
    ensures Appends(s, ClientNext(s, t, pc, step).value.out, [])
  {
  }

  lemma BeginAppends(s: Stream, call: Call) returns (added: seq<Cmd>)
    ensures Appends(s, Begin(s, call).out, added)
  {
    added := if call.DrainCall? then [if call.early then PartialDrain else Drain] else [];
  }

  lemma AfterStopAppends(s: Stream, call: Call) returns (added: seq<Cmd>)
    ensures Appends(s, AfterStop(s, call).out, added)
  {
    added := if call == ErrorCall then [Error] else if call == DestroyCall then [Exit] else [];
  }

  lemma AppendsAccounts(s: Stream, r: Stream, worker: Worker, added: seq<Cmd>)
    requires Accounted(s, worker) && Appends(s, r, added)
    ensures Accounted(r, worker)
  {
    assert Cmds(s.history.taken) + (s.queue + added) == Cmds(s.history.taken) + s.queue + added;
  }

  lemma ClientStepAccounts(s: Stream, worker: Worker, t: Tid, pc: Pc, step: ClientStep)
    requires Accounted(s, worker) && ClientNext(s, t, pc, step).Some?
    ensures Accounted(ClientNext(s, t, pc, step).value.out, worker)
  {
    var added := ClientStepAppends(s, t, pc, step);
    AppendsAccounts(s, ClientNext(s, t, pc, step).value.out, worker, added);
  }

  /** Taking one command from the head of the queue, or all of it at exit. */
  lemma TakeAccounts(s: Stream, r: Stream, worker: Worker, worker': Worker, more: seq<(Cmd, Fate)>)
    requires Accounted(s, worker) && !s.blocked && !worker.WDone?
    requires r.history.taken == s.history.taken + more && r.history.callbacks == s.history.callbacks
    requires r.history.sent == s.history.sent && Cmds(more) + r.queue == s.queue
    requires forall k {:trigger more[k]} | 0 <= k < |more| ::
               && FateFits(more[k]) && !more[k].1.Delivered?
               && (more[k].1.InProgress? <==> r.blocked && k == |more| - 1)
               && (more[k].1.ExitTaken? || more[k].1.DrainedAtExit? ==> worker'.WDone?)
    requires r.blocked ==> more != []
    ensures Accounted(r, worker')
  {
    var taken, taken' := s.history.taken, r.history.taken;
    CmdsAppend(taken, more);
    NothingDelivered(taken, more);
    assert Cmds(taken) + Cmds(more) + r.queue == Cmds(taken) + (Cmds(more) + r.queue);
    forall k | 0 <= k < |taken'|
      ensures FateFits(taken'[k])
      ensures taken'[k].1.InProgress? <==> r.blocked && k == |taken'| - 1
      ensures taken'[k].1.ExitTaken? || taken'[k].1.DrainedAtExit? ==> worker'.WDone?
    {
      assert taken'[k] == if k < |taken| then taken[k] else more[k - |taken|];
    }
  }

  lemma LoopPassAccounts(s: Stream)
    requires WorkerOk(s, WLoop) && Accounted(s, WLoop)
    ensures Accounted(LoopPass(s).out, LoopPass(s).worker)
  {
    if s.queue != [] {
      var m, cmd, rest := LoopPass(s), s.queue[0], s.queue[1..];
      if cmd == Exit {
        var more := [(Exit, ExitTaken)] + DrainedFates(rest);
        assert s.history.taken + [(Exit, ExitTaken)] + DrainedFates(rest) == s.history.taken + more;
        assert Cmds(more) == s.queue;
        TakeAccounts(s, m.out, WLoop, m.worker, more);
      } else {
        var more := [(cmd, if s.compr.Some? then InProgress else DiscardedNoHandle)];
        assert Cmds(more) + rest == s.queue;
        TakeAccounts(s, m.out, WLoop, m.worker, more);
      }
    }
  }

  lemma DeliverAccounts(s: Stream, cmd: Cmd, h: Handle)
    requires WorkerOk(s, WRelock(cmd, h)) && Accounted(s, WRelock(cmd, h))
    ensures Accounted(Deliver(s, cmd), WLoop)
  {
    var taken, r := s.history.taken, Deliver(s, cmd);
    var n := |taken| - 1;
    var taken' := r.history.taken;
    assert taken'[..n] == taken[..n] && taken'[n] == (cmd, Delivered(EventOf(cmd)));
    assert Cmds(taken') == Cmds(taken);
    forall k | 0 <= k < |taken'|
      ensures FateFits(taken'[k]) && !taken'[k].1.InProgress?
      ensures !(taken'[k].1.ExitTaken? || taken'[k].1.DrainedAtExit?)
    {
      if k < n {
        assert taken'[k] == taken[k];
      }
    }
  }

  lemma StepAccounts(s: State, step: Step)
    requires Inv(s) && Accounted(s.out, s.worker) && Next(s, step).Some?
    ensures Accounted(Next(s, step).value.out, Next(s, step).value.worker)
  {
    match step
    case OfClient(t, c) => ClientStepAccounts(s.out, s.worker, t, s.At(t), c);
    case OfWorker =>
      match s.worker
      case WLoop => LoopPassAccounts(s.out);
      case WRelock(cmd, h) => DeliverAccounts(s.out, cmd, h);
      case _ =>
  }

  /** Over every run the commands sent are those taken by the worker, in order, followed by those
    still queued; the callbacks delivered are exactly the events of the taken commands that were
    neither discarded for want of a handle nor drained at exit nor still in progress, in order. */
  lemma {:induction false} CommandsAreAccountedFor(steps: seq<Step>)
    requires After(steps).Some?
    ensures Accounted(After(steps).value.out, After(steps).value.worker)
  {
    if steps != [] {
      var front := steps[..|steps| - 1];
      CommandsAreAccountedFor(front);
      RunKeepsInv(front);
      StepAccounts(After(front).value, steps[|steps| - 1]);
    }
  }
}
