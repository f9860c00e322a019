/** The reader thread, the command writers and at_close of the AT channel as interleaved steps
  over the command mutex and, where callers are serialised, the write mutex. */
module AtProtocol {
  import opened AtDispatch
  import opened Wrappers

  type Tid = nat
  type Id = nat

  datatype Error = Ok | Generic | CommandPending | ChannelClosed | Timeout

  /** The arguments of a send: `tries` is 1, or the retry count of a handshake. */
  datatype Command = Command(kind: CommandType, prefix: Option<string>, smsPdu: Option<string>,
                             timed: bool, wantsResponse: bool, tries: nat)

  /** Where a writer is. */
  datatype Pc =
    | Out
    | AtWriteMutex(cmd: Command)
    | AtMutex(cmd: Command)
    | Sending(cmd: Command)                  // holds the mutex, entering the send
    | Checking(cmd: Command)                 // holds the mutex, testing for the final response
    | Waiting(cmd: Command)                  // waiting on the condition, mutex released
    | Finishing(cmd: Command, error: Error)  // holds the mutex, the send is over
    | AtCloseMutex                           // at_close, descriptor already closed
    | Crashed                                // read the final response of no response

  datatype ReaderPc = Reading | Got(line: string) | GotSms(first: string) | ReaderDone

  /** A response handed to the caller of `cmd`: `lines` in list order, `arrivals` in the order of arrival. */
  datatype Answer = Answer(id: Id, error: Error, cmd: Command, final: Option<string>, success: bool,
                           lines: seq<string>, arrivals: seq<string>)

  datatype Shared = Shared(
    serialised: bool,
    writeMutex: Option<Tid>, mutex: Option<Tid>,
    fdOpen: bool, readerClosed: bool,
    pending: Option<Id>, channel: Channel,
    // history
    owner: Option<Tid>, arrivals: seq<string>, prompted: bool, nextId: Id,
    freed: multiset<Id>, handed: multiset<Id>, answers: seq<Answer>)

  datatype Log = Log(read: seq<string>, delivered: seq<Delivery>, lost: seq<string>)

  datatype State = State(sh: Shared, reader: ReaderPc, log: Log, writers: map<Tid, Pc>) {
    function At(t: Tid): Pc {
      if t in writers then writers[t] else Out
    }
  }

  function Initial(serialised: bool): State {
    State(Shared(serialised, None, None, true, false, None, Channel(None, NoResult, None, None),
                 None, [], false, 0, multiset{}, multiset{}, []),
          Reading, Log([], [], []), map[])
  }

  // ---------------------------------------------------------------- the writers

  datatype WriteResult = Written | WriteFailed

  datatype WriterStep =
    | Enter(cmd: Command)
    | LockWriteMutex
    | LockMutex
    | Send(result: WriteResult)
    | Check
    | Wake(timedOut: bool)
    | Return
    | CloseDescriptor

  datatype Moved = Moved(sh: Shared, pc: Pc)

  /** clearPendingCommand: frees a response that is still pending. */
  function ClearPending(sh: Shared): Shared {
    sh.(pending := None,
        channel := sh.channel.(response := None, prefix := None, smsPdu := None),
        owner := None,
        freed := if sh.pending.Some? then sh.freed + multiset{sh.pending.value} else sh.freed)
  }

  function Fail(sh: Shared, cmd: Command, error: Error): Moved {
    Moved(ClearPending(sh), Finishing(cmd, error))
  }

  /** The beginning of a send, up to the first test of the loop. */
  function BeginSend(sh: Shared, t: Tid, cmd: Command, result: WriteResult): Moved {
    if sh.pending.Some? then Fail(sh, cmd, CommandPending)
    else if !sh.fdOpen || sh.readerClosed then Fail(sh, cmd, ChannelClosed)
    else if result.WriteFailed? then Fail(sh, cmd, Generic)
    else
      Moved(sh.(channel := Channel(Some(EmptyResponse), cmd.kind, cmd.prefix, cmd.smsPdu),
                pending := Some(sh.nextId), nextId := sh.nextId + 1, owner := Some(t), arrivals := [],
                prompted := false),
            Checking(cmd))
  }

  /** The end of a send once the loop is left: free the response or hand it out. */
  function EndSend(sh: Shared, cmd: Command): Moved
    requires sh.pending.Some? && sh.channel.response.Some?
  {
    var error := if sh.readerClosed then ChannelClosed else Ok;
    var id, r := sh.pending.value, sh.channel.response.value;
    var done := sh.(pending := None, channel := sh.channel.(response := None));
    var settled :=
      if cmd.wantsResponse then
        done.(handed := sh.handed + multiset{id},
              answers := sh.answers + [Answer(id, error, cmd, r.final, r.success,
                                              Reverse(r.intermediates), sh.arrivals)])
      else done.(freed := sh.freed + multiset{id});
    Fail(settled, cmd, error)
  }

  function CheckLoop(sh: Shared, cmd: Command): Moved {
    if sh.pending.None? || sh.channel.response.None? then Moved(sh, Crashed)
    else if sh.channel.response.value.final.None? && !sh.readerClosed then Moved(sh.(mutex := None), Waiting(cmd))
    else EndSend(sh, cmd)
  }

  /** Unlocking, or the next attempt of a handshake that failed. */
  function EndCall(sh: Shared, cmd: Command, error: Error): Moved {
    if error != Ok && cmd.tries > 1 then Moved(sh, Sending(cmd.(tries := cmd.tries - 1)))
    else Moved(sh.(mutex := None, writeMutex := if sh.serialised then None else sh.writeMutex), Out)
  }

  function WriterNext(sh: Shared, t: Tid, pc: Pc, step: WriterStep): Option<Moved> {
    match step
    case Enter(cmd) => if pc.Out? then Some(Moved(sh, if sh.serialised then AtWriteMutex(cmd) else AtMutex(cmd)))
      else None
    case LockWriteMutex =>
      if pc.AtWriteMutex? && sh.writeMutex.None? then Some(Moved(sh.(writeMutex := Some(t)), AtMutex(pc.cmd))) else None
    case LockMutex =>
      if sh.mutex.Some? then None
      else if pc.AtMutex? then Some(Moved(sh.(mutex := Some(t)), Sending(pc.cmd)))
      else if pc.AtCloseMutex? then Some(Moved(sh.(readerClosed := true), Out))
      else None
    case Send(result) => if pc.Sending? then Some(BeginSend(sh, t, pc.cmd, result)) else None
    case Check => if pc.Checking? then Some(CheckLoop(sh, pc.cmd)) else None
    case Wake(timedOut) =>
      if !pc.Waiting? || sh.mutex.Some? || (timedOut && !pc.cmd.timed) then None
      else
        var r := sh.(mutex := Some(t));
        Some(if timedOut then Fail(r, pc.cmd, Timeout) else Moved(r, Checking(pc.cmd)))
    case Return => if pc.Finishing? then Some(EndCall(sh, pc.cmd, pc.error)) else None
    case CloseDescriptor => if pc.Out? then Some(Moved(sh.(fdOpen := false), AtCloseMutex)) else None
  }

  // ---------------------------------------------------------------- the reader

  datatype ReaderStep = ReadLine(line: string) | Process | ReadEof(callback: bool)

  datatype ReaderMoved = ReaderMoved(sh: Shared, reader: ReaderPc, log: Log)

  function ReaderNext(sh: Shared, reader: ReaderPc, log: Log, step: ReaderStep): Option<ReaderMoved> {
    match step
    case ReadLine(line) =>
      var more := log.(read := log.read + [line]);
      (match reader
       case Reading => Some(ReaderMoved(sh, if IsSmsUnsolicited(line) then GotSms(line) else Got(line), more))
       case GotSms(first) => Some(ReaderMoved(sh, Reading, more.(delivered := log.delivered + [ToSms(first, line)])))
       case _ => None)
    case Process =>
      if !reader.Got? || sh.mutex.Some? then None
      else
        var (channel, d) := ProcessLine(sh.channel, reader.line);
        Some(ReaderMoved(sh.(channel := channel, prompted := sh.prompted || d.ToPrompt?,
                             arrivals := if d.ToIntermediate? then sh.arrivals + [reader.line] else sh.arrivals),
                         Reading, log.(delivered := log.delivered + [d])))
    case ReadEof(callback) =>
      var r := sh.(readerClosed := sh.readerClosed || callback);
      if (!reader.Reading? && !reader.GotSms?) || (callback && sh.mutex.Some?) then None
      else Some(ReaderMoved(r, ReaderDone, if reader.GotSms? then log.(lost := log.lost + [reader.first]) else log))
  }

  // ---------------------------------------------------------------- runs

  datatype Step = OfWriter(t: Tid, step: WriterStep) | OfReader(step_: ReaderStep)

  function Next(s: State, step: Step): Option<State> {
    match step
    case OfWriter(t, w) =>
      (match WriterNext(s.sh, t, s.At(t), w)
       case None => None
       case Some(m) => Some(s.(sh := m.sh, writers := s.writers[t := m.pc])))
    case OfReader(r) =>
      match ReaderNext(s.sh, s.reader, s.log, r)
      case None => None
      case Some(m) => Some(State(m.sh, m.reader, m.log, s.writers))
  }

  /** The state a run leads to, if every step of it can be taken. */
  function After(serialised: bool, steps: seq<Step>): Option<State> {
    if steps == [] then Some(Initial(serialised))
    else
      match After(serialised, steps[..|steps| - 1])
      case None => None
      case Some(s) => Next(s, steps[|steps| - 1])
  }

  // ---------------------------------------------------------------- the pending response

  predicate HoldsMutex(pc: Pc) {
    pc.Sending? || pc.Checking? || pc.Finishing?
  }

  predicate HoldsWriteMutex(pc: Pc) {
    HoldsMutex(pc) || pc.AtMutex? || pc.Waiting?
  }

  /** Between creating its response and giving it up. */
  predicate InSend(pc: Pc) {
    pc.Checking? || pc.Waiting?
  }

  /** What holds of one writer when all callers are serialised. */
  predicate WriterOk(sh: Shared, t: Tid, pc: Pc) {
    && (HoldsMutex(pc) <==> sh.mutex == Some(t))
    && (HoldsWriteMutex(pc) <==> sh.writeMutex == Some(t))
    && (InSend(pc) <==> sh.owner == Some(t))
    && (InSend(pc) ==> sh.channel.kind == pc.cmd.kind && sh.channel.prefix == pc.cmd.prefix
                       && sh.channel.smsPdu == if sh.prompted then None else pc.cmd.smsPdu)
    && !pc.Crashed?
  }

  /** An answer was asked for and reports what arrived, in order; its success flag agrees with its final line,
    and its lines are those its command expects. */
  predicate AnswerOk(a: Answer) {
    && a.lines == a.arrivals && a.cmd.wantsResponse
    && Consistent(Response(a.success, a.final, a.lines), a.cmd.kind, a.cmd.prefix)
    && (a.error == Ok || a.error == ChannelClosed) && (a.error == Ok ==> a.final.Some?)
  }

  function IdsOf(answers: seq<Answer>): multiset<Id> {
    if answers == [] then multiset{} else IdsOf(answers[..|answers| - 1]) + multiset{answers[|answers| - 1].id}
  }

  /** Every response ever created is pending, freed once or handed out once. */
  ghost predicate ResponsesAccounted(sh: Shared) {
    && (sh.pending.Some? ==> sh.pending.value < sh.nextId)
    && forall id: Id {:trigger sh.freed[id]} {:trigger sh.handed[id]} ::
         sh.freed[id] + sh.handed[id] == if id < sh.nextId && sh.pending != Some(id) then 1 else 0
  }

  /** What holds of the shared fields when all callers are serialised. */
  ghost predicate SharedOk(sh: Shared) {
    && sh.serialised
    && (sh.pending.Some? <==> sh.owner.Some?) && (sh.pending.Some? <==> sh.channel.response.Some?)
    && (sh.owner.Some? ==> sh.writeMutex == sh.owner)
    && (sh.pending.None? ==> sh.channel.prefix.None? && sh.channel.smsPdu.None?)
    && (sh.channel.response.Some? ==>
          Consistent(sh.channel.response.value, sh.channel.kind, sh.channel.prefix)
          && sh.arrivals == Arrivals(sh.channel.response.value))
    && ResponsesAccounted(sh) && sh.handed == IdsOf(sh.answers)
    && forall k {:trigger sh.answers[k]} | 0 <= k < |sh.answers| :: AnswerOk(sh.answers[k])
  }

  ghost predicate Inv(s: State) {
    SharedOk(s.sh) && forall t: Tid {:trigger s.At(t)} :: WriterOk(s.sh, t, s.At(t))
  }

  ghost predicate Keeps(sh: Shared, t: Tid, m: Moved) {
    && SharedOk(m.sh) && WriterOk(m.sh, t, m.pc)
    && forall u: Tid, other: Pc | u != t && WriterOk(sh, u, other) :: WriterOk(m.sh, u, other)
  }

  lemma FailKeeps(sh: Shared, t: Tid, pc: Pc, cmd: Command, error: Error)
    requires SharedOk(sh) && WriterOk(sh, t, pc) && HoldsMutex(pc) && (sh.owner.Some? ==> sh.owner == Some(t))
    ensures Keeps(sh, t, Fail(sh, cmd, error))
  {
  }

  lemma BeginSendKeeps(sh: Shared, t: Tid, cmd: Command, result: WriteResult)
    requires SharedOk(sh) && WriterOk(sh, t, Sending(cmd))
    ensures sh.pending.None? && Keeps(sh, t, BeginSend(sh, t, cmd, result))
  {
    assert sh.owner.Some? ==> sh.owner == sh.writeMutex == Some(t);
    FailKeeps(sh, t, Sending(cmd), cmd, CommandPending);
    FailKeeps(sh, t, Sending(cmd), cmd, ChannelClosed);
    FailKeeps(sh, t, Sending(cmd), cmd, Generic);
    var m := BeginSend(sh, t, cmd, result);
    if m.pc.Checking? {
      assert ResponsesAccounted(m.sh);
    }
  }

  lemma EndSendKeeps(sh: Shared, t: Tid, cmd: Command)
    requires SharedOk(sh) && WriterOk(sh, t, Checking(cmd))
    requires sh.pending.Some? && (sh.channel.response.value.final.Some? || sh.readerClosed)
    ensures Keeps(sh, t, EndSend(sh, cmd))
  {
    var m := EndSend(sh, cmd);
    if cmd.wantsResponse {
      HandOutKeeps(sh, t, cmd);
    } else {
      assert ResponsesAccounted(m.sh);
    }
  }

  /** Handing a response out adds one answer that is in order. */
  lemma HandOutKeeps(sh: Shared, t: Tid, cmd: Command)
    requires SharedOk(sh) && WriterOk(sh, t, Checking(cmd)) && cmd.wantsResponse
    requires sh.pending.Some? && (sh.channel.response.value.final.Some? || sh.readerClosed)
    ensures SharedOk(EndSend(sh, cmd).sh)
  {
    var m, n := EndSend(sh, cmd), |sh.answers|;
    assert ResponsesAccounted(m.sh);
    assert m.sh.answers[..n] == sh.answers;
    ReverseKeepsLines(sh.channel.response.value.intermediates);
    assert AnswerOk(m.sh.answers[n]);
    assert forall k | 0 <= k < n :: m.sh.answers[k] == sh.answers[k];
  }

  lemma {:induction false} ReverseKeepsLines(lines: seq<string>)
    ensures forall l :: l in Reverse(lines) <==> l in lines
  {
    if lines != [] {
      ReverseKeepsLines(lines[1..]);
      assert lines == [lines[0]] + lines[1..];
    }
  }

  lemma CheckLoopKeeps(sh: Shared, t: Tid, cmd: Command)
    requires SharedOk(sh) && WriterOk(sh, t, Checking(cmd))
    ensures Keeps(sh, t, CheckLoop(sh, cmd))
  {
    if sh.channel.response.value.final.Some? || sh.readerClosed {
      EndSendKeeps(sh, t, cmd);
    }
  }

  lemma WakeKeeps(sh: Shared, t: Tid, pc: Pc, timedOut: bool)
    requires SharedOk(sh) && WriterOk(sh, t, pc) && WriterNext(sh, t, pc, Wake(timedOut)).Some?
    ensures Keeps(sh, t, WriterNext(sh, t, pc, Wake(timedOut)).value)
  {
    var r := sh.(mutex := Some(t));
    FailKeeps(r, t, Checking(pc.cmd), pc.cmd, Timeout);
  }

  lemma WriterStepKeeps(sh: Shared, t: Tid, pc: Pc, step: WriterStep)
    requires SharedOk(sh) && WriterOk(sh, t, pc) && WriterNext(sh, t, pc, step).Some?
    ensures Keeps(sh, t, WriterNext(sh, t, pc, step).value)
  {
    match step
    case Send(result) => BeginSendKeeps(sh, t, pc.cmd, result);
    case Check => CheckLoopKeeps(sh, t, pc.cmd);
    case Wake(timedOut) => WakeKeeps(sh, t, pc, timedOut);
    case Return => ReturnKeeps(sh, t, pc);
    case _ => LockingKeeps(sh, t, pc, step);
  }

  lemma ReturnKeeps(sh: Shared, t: Tid, pc: Pc)
    requires SharedOk(sh) && WriterOk(sh, t, pc) && WriterNext(sh, t, pc, Return).Some?
    ensures Keeps(sh, t, WriterNext(sh, t, pc, Return).value)
  {
    var m := EndCall(sh, pc.cmd, pc.error);
    UnlockedOk(sh, t, m.sh);
  }

  /** Unlocking both mutexes outside of a send. */
  lemma UnlockedOk(sh: Shared, t: Tid, after: Shared)
    requires SharedOk(sh) && sh.writeMutex == Some(t) && sh.owner != Some(t)
    requires after == sh || after == sh.(mutex := None, writeMutex := None)
    ensures SharedOk(after)
  {
  }

  lemma LockingKeeps(sh: Shared, t: Tid, pc: Pc, step: WriterStep)
    requires SharedOk(sh) && WriterOk(sh, t, pc) && WriterNext(sh, t, pc, step).Some?
    requires step.Enter? || step.LockWriteMutex? || step.LockMutex? || step.CloseDescriptor?
    ensures Keeps(sh, t, WriterNext(sh, t, pc, step).value)
  {
    if step.LockMutex? {
      LockMutexKeeps(sh, t, pc);
    }
  }

  lemma LockMutexKeeps(sh: Shared, t: Tid, pc: Pc)
    requires SharedOk(sh) && WriterOk(sh, t, pc) && WriterNext(sh, t, pc, LockMutex).Some?
    ensures Keeps(sh, t, WriterNext(sh, t, pc, LockMutex).value)
  {
  }

  lemma ReaderStepKeeps(sh: Shared, reader: ReaderPc, log: Log, step: ReaderStep)
    requires SharedOk(sh) && ReaderNext(sh, reader, log, step).Some?
    ensures var after := ReaderNext(sh, reader, log, step).value.sh;
            SharedOk(after) && forall u: Tid, other: Pc | WriterOk(sh, u, other) :: WriterOk(after, u, other)
  {
    if step.Process? && sh.channel.response.Some? {
      ProcessLineKeeps(sh.channel, reader.line);
    }
  }

  lemma StepKeepsInv(s: State, step: Step)
    requires Inv(s) && Next(s, step).Some?
    ensures Inv(Next(s, step).value)
  {
    var s' := Next(s, step).value;
    match step
    case OfWriter(t, w) =>
      WriterStepKeeps(s.sh, t, s.At(t), w);
      forall u: Tid
        ensures WriterOk(s'.sh, u, s'.At(u))
      {
        assert WriterOk(s.sh, u, s.At(u));
        assert u != t ==> s'.At(u) == s.At(u);
      }
    case OfReader(r) =>
      ReaderStepKeeps(s.sh, s.reader, s.log, r);
      forall u: Tid
        ensures WriterOk(s'.sh, u, s'.At(u))
      {
        assert WriterOk(s.sh, u, s.At(u)) && s'.At(u) == s.At(u);
      }
  }

  lemma {:induction false} RunKeepsInv(steps: seq<Step>)
    requires After(true, steps).Some?
    ensures Inv(After(true, steps).value)
  {
    if steps == [] {
      assert forall id: Id :: multiset{}[id] == 0;
    } else {
      var front := steps[..|steps| - 1];
      RunKeepsInv(front);
      StepKeepsInv(After(true, front).value, steps[|steps| - 1]);
    }
  }

  /** Over every run of serialised callers: a response is pending exactly while one writer is inside
    its send, nothing of a command is left behind outside of it, every response created is
    pending, freed once or handed out once, and no writer reads a missing response. */
  lemma PendingOnlyInsideASend(steps: seq<Step>)
    requires After(true, steps).Some?
    ensures var s := After(true, steps).value;
            && (s.sh.pending.Some? <==> exists t: Tid :: InSend(s.At(t)))
            && (forall t: Tid, u: Tid | InSend(s.At(t)) && InSend(s.At(u)) :: t == u)
            && (s.sh.pending.None? ==>
              s.sh.channel.response.None? && s.sh.channel.prefix.None? && s.sh.channel.smsPdu.None?)
            && ResponsesAccounted(s.sh)
            && (forall t: Tid :: !s.At(t).Crashed?)
  {
    RunKeepsInv(steps);
    var s := After(true, steps).value;
    if s.sh.pending.Some? {
      assert WriterOk(s.sh, s.sh.owner.value, s.At(s.sh.owner.value));
    }
  }

  /** Over every run of serialised callers every answer lists exactly what arrived, in order: nothing for a
    command without result, at most one line, which starts with a digit, for a numeric one, lines that
    start with the prefix for the others, at most one if single-line. Its success flag agrees with its
    final line, and a send that reports no error has one. Each response handed out is in one answer, to a
    caller that wants it. */
  lemma AnswersAreFaithful(steps: seq<Step>)
    requires After(true, steps).Some?
    ensures forall a | a in After(true, steps).value.sh.answers ::
              && a.lines == a.arrivals && a.cmd.wantsResponse
              && (a.cmd.kind.Numeric? || a.cmd.kind.SingleLine? ==> |a.lines| <= 1)
              && (a.cmd.kind.Numeric? ==> forall l | l in a.lines :: l != "" && '0' <= l[0] <= '9')
              && (a.cmd.kind.SingleLine? || a.cmd.kind.MultiLine? ==>
                    forall l | l in a.lines :: a.cmd.prefix.Some? && a.cmd.prefix.value <= l)
              && (a.cmd.kind.NoResult? ==> a.lines == [])
              && (a.final.Some? ==> (a.success <==> IsFinalResponseSuccess(a.final.value))
                                    && (a.success || IsFinalResponseError(a.final.value)))
              && (a.final.None? ==> !a.success)
              && (a.error == Ok ==> a.final.Some?)
    ensures IdsOf(After(true, steps).value.sh.answers) == After(true, steps).value.sh.handed
  {
    RunKeepsInv(steps);
    var answers := After(true, steps).value.sh.answers;
    forall a | a in answers
      ensures AnswerOk(a)
    {
      var k :| 0 <= k < |answers| && answers[k] == a;
    }
  }

  // ---------------------------------------------------------------- how a send ends

  /** Thread `t` ends an attempt to send with the error `e`. */
  ghost predicate Ends(s: State, t: Tid, w: WriterStep, e: Error) {
    && WriterNext(s.sh, t, s.At(t), w).Some? && !s.At(t).Finishing?
    && var pc := WriterNext(s.sh, t, s.At(t), w).value.pc; pc.Finishing? && pc.error == e
  }

  /** Exactly why an attempt of a serialised caller ends as it does: with Ok if the final line is there and
    the reader not closed, with Timeout if the wait timed out, with ChannelClosed if the channel was
    closed, with Generic if writing to an open channel failed, and never because another is pending. */
  ghost predicate OutcomeExact(s: State, t: Tid, w: WriterStep) {
    var sh, pc := s.sh, s.At(t);
    && (Ends(s, t, w, Ok) <==>
          pc.Checking? && w == Check && sh.channel.response.Some? && sh.channel.response.value.final.Some?
          && !sh.readerClosed)
    && (Ends(s, t, w, Timeout) <==> pc.Waiting? && sh.mutex.None? && pc.cmd.timed && w == Wake(true))
    && (Ends(s, t, w, ChannelClosed) <==>
          || (pc.Checking? && w == Check && sh.readerClosed)
          || (pc.Sending? && w.Send? && (!sh.fdOpen || sh.readerClosed)))
    && (Ends(s, t, w, Generic) <==> pc.Sending? && w == Send(WriteFailed) && sh.fdOpen && !sh.readerClosed)
    && !Ends(s, t, w, CommandPending)
  }

  lemma SendEnds(s: State, t: Tid, w: WriterStep)
    requires Inv(s)
    ensures OutcomeExact(s, t, w)
  {
    assert WriterOk(s.sh, t, s.At(t));
    if s.At(t).Sending? && w.Send? {
      BeginSendKeeps(s.sh, t, s.At(t).cmd, w.result);
    }
  }

  /** So it is in every run. */
  lemma SendOutcome(steps: seq<Step>, t: Tid, w: WriterStep)
    requires After(true, steps).Some?
    ensures OutcomeExact(After(true, steps).value, t, w)
  {
    RunKeepsInv(steps);
    SendEnds(After(true, steps).value, t, w);
  }

  /** Exactly what a caller is handed: an attempt that waited for its final line, or was cut off by the end of
    the channel, is answered if the caller wants it, with that error, its command and what arrived; any
    other attempt, and any other step, hands out nothing. */
  ghost predicate AnswerExact(before: Shared, w: WriterStep, m: Moved) {
    if w == Check && m.pc.Finishing? && m.pc.cmd.wantsResponse then
      && |m.sh.answers| == |before.answers| + 1 && m.sh.answers[..|before.answers|] == before.answers
      && var a := m.sh.answers[|before.answers|];
         a.error == m.pc.error && a.cmd == m.pc.cmd && Some(a.id) == before.pending
         && before.channel.response.Some? && a.final == before.channel.response.value.final
         && a.arrivals == before.arrivals
    else m.sh.answers == before.answers
  }

  lemma SendAnswers(s: State, t: Tid, w: WriterStep)
    requires Inv(s) && WriterNext(s.sh, t, s.At(t), w).Some?
    ensures AnswerExact(s.sh, w, WriterNext(s.sh, t, s.At(t), w).value)
  {
    assert WriterOk(s.sh, t, s.At(t));
  }

  /** So it is in every run. */
  lemma AnsweredIff(steps: seq<Step>, t: Tid, w: WriterStep)
    requires After(true, steps).Some?
    requires var s := After(true, steps).value; WriterNext(s.sh, t, s.At(t), w).Some?
    ensures var s := After(true, steps).value; AnswerExact(s.sh, w, WriterNext(s.sh, t, s.At(t), w).value)
  {
    RunKeepsInv(steps);
    SendAnswers(After(true, steps).value, t, w);
  }

  /** Some step of the run closed the channel, or was the reader's finding it at its end. */
  predicate ClosedIn(steps: seq<Step>) {
    exists k :: 0 <= k < |steps| && Closes(steps[k])
  }

  predicate Closes(step: Step) {
    step == OfReader(ReadEof(true)) || (step.OfWriter? && step.step.CloseDescriptor?)
  }

  predicate OpenPc(pc: Pc) {
    !pc.AtCloseMutex? && (pc.Finishing? ==> pc.error == Ok || pc.error == Timeout || pc.error == Generic)
  }

  /** Nothing is closed, no one is about to close and every attempt that is over ended with `Ok`, a timeout
    or a failed write. */
  ghost predicate NeverClosed(s: State) {
    && s.sh.fdOpen && !s.sh.readerClosed
    && (forall t: Tid {:trigger s.At(t)} :: OpenPc(s.At(t)))
    && (forall a | a in s.sh.answers :: a.error == Ok)
  }

  /** In every run without at_close and end of file each answer has error Ok. */
  lemma {:induction false} OpenMeansOk(steps: seq<Step>)
    requires After(true, steps).Some? && !ClosedIn(steps)
    ensures NeverClosed(After(true, steps).value)
  {
    if steps != [] {
      var front, last := steps[..|steps| - 1], steps[|steps| - 1];
      assert forall k | 0 <= k < |front| :: front[k] == steps[k];
      assert !Closes(last);
      OpenMeansOk(front);
      RunKeepsInv(front);
      StaysOpen(After(true, front).value, last);
    }
  }

  lemma StaysOpen(s: State, step: Step)
    requires Inv(s) && NeverClosed(s) && Next(s, step).Some? && !Closes(step)
    ensures NeverClosed(Next(s, step).value)
  {
    var s' := Next(s, step).value;
    match step
    case OfReader(_) =>
      forall u: Tid
        ensures OpenPc(s'.At(u))
      {
        assert OpenPc(s.At(u));
      }
    case OfWriter(t, w) =>
      WriterStaysOpen(s, t, w);
      AnswersStayOk(s, t, w);
      OthersStayOpen(s, s', t);
  }

  lemma OthersStayOpen(s: State, s': State, t: Tid)
    requires NeverClosed(s) && OpenPc(s'.At(t)) && t in s'.writers && s'.writers == s.writers[t := s'.writers[t]]
    ensures forall u: Tid {:trigger s'.At(u)} :: OpenPc(s'.At(u))
  {
    forall u: Tid
      ensures OpenPc(s'.At(u))
    {
      assert OpenPc(s.At(u));
    }
  }

  lemma WriterStaysOpen(s: State, t: Tid, w: WriterStep)
    requires Inv(s) && NeverClosed(s) && !w.CloseDescriptor? && WriterNext(s.sh, t, s.At(t), w).Some?
    ensures var m := WriterNext(s.sh, t, s.At(t), w).value; m.sh.fdOpen && !m.sh.readerClosed && OpenPc(m.pc)
  {
    SendEnds(s, t, w);
    assert OpenPc(s.At(t));
  }

  lemma AnswersStayOk(s: State, t: Tid, w: WriterStep)
    requires Inv(s) && NeverClosed(s) && WriterNext(s.sh, t, s.At(t), w).Some?
    ensures forall a | a in WriterNext(s.sh, t, s.At(t), w).value.sh.answers :: a.error == Ok
  {
    var answers := WriterNext(s.sh, t, s.At(t), w).value.sh.answers;
    SendEnds(s, t, w);
    SendAnswers(s, t, w);
    forall a | a in answers
      ensures a.error == Ok
    {
      var k :| 0 <= k < |answers| && answers[k] == a;
      assert k < |s.sh.answers| ==> s.sh.answers[k] == a;
    }
  }

  /** The run has a step of at_close that closes the descriptor. */
  predicate DescriptorClosedIn(steps: seq<Step>) {
    exists k :: 0 <= k < |steps| && steps[k].OfWriter? && steps[k].step.CloseDescriptor?
  }

  /** The run has a step that ends the reader: of at_close under the mutex, or of the reader at end of file,
    unless at_close already made it return. */
  predicate ReaderClosedIn(serialised: bool, steps: seq<Step>)
    requires After(serialised, steps).Some?
  {
    steps != [] &&
    (var front := steps[..|steps| - 1];
     || ReaderClosedIn(serialised, front)
     || match steps[|steps| - 1]
        case OfReader(r) => r == ReadEof(true)
        case OfWriter(t, w) => w.LockMutex? && After(serialised, front).value.At(t).AtCloseMutex?)
  }

  /** In every run the channel is open to writing until at_close closes the descriptor, and the reader counts as
    closed exactly from at_close or the end of file on. */
  lemma {:induction false} ClosedIff(serialised: bool, steps: seq<Step>)
    requires After(serialised, steps).Some?
    ensures After(serialised, steps).value.sh.fdOpen <==> !DescriptorClosedIn(steps)
    ensures After(serialised, steps).value.sh.readerClosed <==> ReaderClosedIn(serialised, steps)
  {
    if steps != [] {
      var front, last := steps[..|steps| - 1], steps[|steps| - 1];
      ClosedIff(serialised, front);
      assert forall k | 0 <= k < |front| :: front[k] == steps[k];
      var s := After(serialised, front).value;
      if last.OfWriter? {
        WriterCloses(s.sh, last.t, s.At(last.t), last.step);
      }
    }
  }

  lemma WriterCloses(sh: Shared, t: Tid, pc: Pc, w: WriterStep)
    requires WriterNext(sh, t, pc, w).Some?
    ensures var after := WriterNext(sh, t, pc, w).value.sh;
            && (after.fdOpen <==> sh.fdOpen && !w.CloseDescriptor?)
            && (after.readerClosed <==> sh.readerClosed || (w.LockMutex? && pc.AtCloseMutex?))
  {
    match w
    case Send(result) => SendCloses(sh, t, pc.cmd, result);
    case Check => CheckCloses(sh, pc.cmd);
    case _ =>
  }

  lemma SendCloses(sh: Shared, t: Tid, cmd: Command, result: WriteResult)
    ensures var after := BeginSend(sh, t, cmd, result).sh;
            after.fdOpen == sh.fdOpen && after.readerClosed == sh.readerClosed
  {
  }

  lemma CheckCloses(sh: Shared, cmd: Command)
    ensures var after := CheckLoop(sh, cmd).sh; after.fdOpen == sh.fdOpen && after.readerClosed == sh.readerClosed
  {
  }

  /** The reader can find the end of the channel whenever it waits for a line, with the mutex free if it has to
    report it; only the first line of a pair is then lost. */
  lemma ReaderEnds(sh: Shared, reader: ReaderPc, log: Log, callback: bool)
    ensures var m := ReaderNext(sh, reader, log, ReadEof(callback));
            && (m.Some? <==> (reader.Reading? || reader.GotSms?) && (callback ==> sh.mutex.None?))
            && (m.Some? ==> m.value.reader == ReaderDone
                            && m.value.log == log.(lost := log.lost + if reader.GotSms? then [reader.first] else []))
  {
    assert log.lost + [] == log.lost;
  }

  // ---------------------------------------------------------------- the attempts of a handshake

  /** How often `t` began to send since it entered its call, and the tries it was given. */
  function Attempts(steps: seq<Step>, t: Tid): nat {
    if steps == [] then 0
    else
      match steps[|steps| - 1]
      case OfWriter(u, Enter(_)) => if u == t then 0 else Attempts(steps[..|steps| - 1], t)
      case OfWriter(u, Send(_)) => Attempts(steps[..|steps| - 1], t) + if u == t then 1 else 0
      case _ => Attempts(steps[..|steps| - 1], t)
  }

  function TriesGiven(steps: seq<Step>, t: Tid): nat {
    if steps == [] then 0
    else
      match steps[|steps| - 1]
      case OfWriter(u, Enter(cmd)) => if u == t then cmd.tries else TriesGiven(steps[..|steps| - 1], t)
      case _ => TriesGiven(steps[..|steps| - 1], t)
  }

  /** The attempts a command has left: there is always one. */
  function Left(tries: nat): nat {
    if tries == 0 then 1 else tries
  }

  /** After `n` attempts of at most `max`. */
  predicate AttemptsOk(pc: Pc, n: nat, max: nat) {
    && n <= max
    && (pc.AtWriteMutex? || pc.AtMutex? ==> n == 0 && Left(pc.cmd.tries) == max)
    && (pc.Sending? ==> n + Left(pc.cmd.tries) == max)
    && (pc.Checking? || pc.Waiting? || pc.Finishing? ==> 0 < n && n + Left(pc.cmd.tries) == max + 1)
  }

  lemma AttemptMade(sh: Shared, t: Tid, pc: Pc, step: WriterStep, n: nat, max: nat)
    requires AttemptsOk(pc, n, max) && WriterNext(sh, t, pc, step).Some? && !step.Enter?
    ensures AttemptsOk(WriterNext(sh, t, pc, step).value.pc, n + if step.Send? then 1 else 0, max)
  {
  }

  /** A call attempts to send at most as often as it was given tries, and at least once before it returns. */
  lemma {:induction false} AttemptsAreBounded(serialised: bool, steps: seq<Step>, t: Tid)
    requires After(serialised, steps).Some?
    ensures AttemptsOk(After(serialised, steps).value.At(t), Attempts(steps, t), Left(TriesGiven(steps, t)))
  {
    if steps != [] {
      var front := steps[..|steps| - 1];
      AttemptsAreBounded(serialised, front, t);
      var s := After(serialised, front).value;
      match steps[|steps| - 1]
      case OfWriter(u, w) =>
        if u == t && !w.Enter? {
          AttemptMade(s.sh, t, s.At(t), w, Attempts(front, t), Left(TriesGiven(front, t)));
        }
      case _ =>
    }
  }

  /** It returns when an attempt succeeded or the tries are used up, and tries again otherwise. */
  lemma ReturnsIff(serialised: bool, steps: seq<Step>, t: Tid)
    requires After(serialised, steps).Some? && After(serialised, steps).value.At(t).Finishing?
    ensures var s := After(serialised, steps).value;
            var pc := WriterNext(s.sh, t, s.At(t), Return).value.pc;
            && (pc == Out <==> s.At(t).error == Ok || Attempts(steps, t) == Left(TriesGiven(steps, t)))
            && (pc != Out ==> pc.Sending?)
  {
    AttemptsAreBounded(serialised, steps, t);
  }

  // ---------------------------------------------------------------- the prompt of an SMS

  /** In every run of serialised callers the first prompt that arrives while an SMS is being sent is answered with
    the message of its command, and no other line is. */
  lemma PromptIffFirst(steps: seq<Step>, t: Tid, line: string)
    requires After(true, steps).Some? && InSend(After(true, steps).value.At(t))
    ensures var s := After(true, steps).value;
            var d, pdu := ProcessLine(s.sh.channel, line).1, s.At(t).cmd.smsPdu;
            && (d.ToPrompt? <==> line == "> " && pdu.Some? && !s.sh.prompted)
            && (d.ToPrompt? ==> Some(d.pdu) == pdu)
  {
    RunKeepsInv(steps);
    var s := After(true, steps).value;
    assert WriterOk(s.sh, t, s.At(t));
    FinalLines(line);
  }

  // ---------------------------------------------------------------- every line goes to one place

  function LinesOf(d: Delivery): seq<string> {
    if d.ToSms? then [d.first, d.second] else [d.line]
  }

  function AllLines(ds: seq<Delivery>): seq<string> {
    if ds == [] then [] else AllLines(ds[..|ds| - 1]) + LinesOf(ds[|ds| - 1])
  }

  function Held(reader: ReaderPc): seq<string> {
    match reader
    case Got(line) => [line]
    case GotSms(first) => [first]
    case _ => []
  }

  predicate LinesAccounted(reader: ReaderPc, log: Log) {
    && log.read == AllLines(log.delivered) + Held(reader) + log.lost
    && (log.lost != [] ==> reader.ReaderDone? && |log.lost| == 1 && IsSmsUnsolicited(log.lost[0]))
    && (reader.GotSms? ==> IsSmsUnsolicited(reader.first))
    && (reader.Got? ==> !IsSmsUnsolicited(reader.line))
  }

  /** Lines come in pairs exactly when the first announces an SMS. */
  predicate SmsPaired(d: Delivery) {
    IsSmsUnsolicited(if d.ToSms? then d.first else d.line) <==> d.ToSms?
  }

  lemma DeliveryAccounts(ds: seq<Delivery>, d: Delivery)
    ensures AllLines(ds + [d]) == AllLines(ds) + LinesOf(d)
  {
    assert (ds + [d])[..|ds|] == ds;
  }

  /** While the reader runs nothing is lost. */
  lemma NothingLost(reader: ReaderPc, log: Log)
    requires LinesAccounted(reader, log) && !reader.ReaderDone?
    ensures log.lost == [] && log.read == AllLines(log.delivered) + Held(reader)
  {
    assert log.read + [] == log.read;
  }

  lemma Regroup(all: seq<string>, a: string, b: string)
    ensures all + [] == all && all + [a] + [b] == all + [a, b]
  {
  }

  lemma ReadLineAccounts(sh: Shared, reader: ReaderPc, log: Log, line: string)
    requires LinesAccounted(reader, log) && ReaderNext(sh, reader, log, ReadLine(line)).Some?
    ensures var m := ReaderNext(sh, reader, log, ReadLine(line)).value; LinesAccounted(m.reader, m.log)
  {
    NothingLost(reader, log);
    var m := ReaderNext(sh, reader, log, ReadLine(line)).value;
    var all := AllLines(m.log.delivered);
    assert m.log.lost == [] && m.log.read == log.read + [line];
    if reader.GotSms? {
      DeliveryAccounts(log.delivered, ToSms(reader.first, line));
      Regroup(AllLines(log.delivered), reader.first, line);
      Regroup(all, reader.first, line);
    } else {
      Regroup(all, line, line);
      Regroup(all + [line], line, line);
    }
  }

  lemma ProcessAccounts(sh: Shared, reader: ReaderPc, log: Log)
    requires LinesAccounted(reader, log) && ReaderNext(sh, reader, log, Process).Some?
    ensures var m := ReaderNext(sh, reader, log, Process).value; LinesAccounted(m.reader, m.log)
  {
    NothingLost(reader, log);
    var d := ProcessLine(sh.channel, reader.line).1;
    DeliveryAccounts(log.delivered, d);
    assert LinesOf(d) == [reader.line];
    var after := AllLines(log.delivered + [d]);
    assert after + [] + [] == after;
  }

  lemma ReaderStepAccounts(sh: Shared, reader: ReaderPc, log: Log, step: ReaderStep)
    requires LinesAccounted(reader, log) && ReaderNext(sh, reader, log, step).Some?
    ensures var m := ReaderNext(sh, reader, log, step).value; LinesAccounted(m.reader, m.log)
  {
    match step
    case ReadLine(line) => ReadLineAccounts(sh, reader, log, line);
    case Process => ProcessAccounts(sh, reader, log);
    case ReadEof(_) =>
      NothingLost(reader, log);
      var all := AllLines(log.delivered);
      assert all + [] + Held(reader) == all + Held(reader) + [] == all + Held(reader);
  }

  /** Over every run, serialised or not, each line read was delivered to exactly one place, in the
    order of reading, or is in the reader's hands; only the first half of an SMS pair cut off by
    the end of the channel is lost. */
  lemma {:induction false} EveryLineGoesToOnePlace(serialised: bool, steps: seq<Step>)
    requires After(serialised, steps).Some?
    ensures LinesAccounted(After(serialised, steps).value.reader, After(serialised, steps).value.log)
  {
    if steps != [] {
      var front := steps[..|steps| - 1];
      EveryLineGoesToOnePlace(serialised, front);
      var s := After(serialised, front).value;
      match steps[|steps| - 1]
      case OfWriter(_, _) =>
      case OfReader(r) => ReaderStepAccounts(s.sh, s.reader, s.log, r);
    }
  }

  /** In every run lines come in pairs exactly when the first announces an SMS. */
  lemma {:induction false} SmsLinesArePaired(serialised: bool, steps: seq<Step>)
    requires After(serialised, steps).Some?
    ensures forall k | 0 <= k < |After(serialised, steps).value.log.delivered| ::
              SmsPaired(After(serialised, steps).value.log.delivered[k])
  {
    if steps != [] {
      var front := steps[..|steps| - 1];
      SmsLinesArePaired(serialised, front);
      EveryLineGoesToOnePlace(serialised, front);
      var s := After(serialised, front).value;
      match steps[|steps| - 1]
      case OfWriter(_, _) =>
      case OfReader(r) => ReaderKeepsPairs(s.sh, s.reader, s.log, r);
    }
  }

  lemma ReaderKeepsPairs(sh: Shared, reader: ReaderPc, log: Log, step: ReaderStep)
    requires LinesAccounted(reader, log) && ReaderNext(sh, reader, log, step).Some?
    requires forall k | 0 <= k < |log.delivered| :: SmsPaired(log.delivered[k])
    ensures var ds := ReaderNext(sh, reader, log, step).value.log.delivered;
            forall k | 0 <= k < |ds| :: SmsPaired(ds[k])
  {
  }

  // ---------------------------------------------------------------- without the write mutex

  const Plain := Command(NoResult, None, None, false, true, 1)

  lemma Take(serialised: bool, steps: seq<Step>, step: Step) returns (r: seq<Step>)
    requires After(serialised, steps).Some? && Next(After(serialised, steps).value, step).Some?
    ensures r == steps + [step] && After(serialised, r) == Next(After(serialised, steps).value, step)
  {
    r := steps + [step];
    assert r[..|steps|] == steps;
  }

  lemma FirstWriterWaits() returns (steps: seq<Step>)
    ensures After(false, steps).Some?
    ensures var s := After(false, steps).value;
            s.At(0) == Waiting(Plain) && s.At(1) == Out && s.sh.pending == Some(0) && s.sh.mutex.None?
              && !s.sh.serialised
  {
    steps := [];
    steps := Take(false, steps, OfWriter(0, Enter(Plain)));
    steps := Take(false, steps, OfWriter(0, LockMutex));
    steps := Take(false, steps, OfWriter(0, Send(Written)));
    steps := Take(false, steps, OfWriter(0, Check));
  }

  lemma SecondWriterDropsIt() returns (steps: seq<Step>)
    ensures After(false, steps).Some?
    ensures var s := After(false, steps).value;
            s.At(0) == Waiting(Plain) && s.sh.pending.None? && s.sh.channel.response.None? && s.sh.mutex.None?
  {
    steps := FirstWriterWaits();
    steps := Take(false, steps, OfWriter(1, Enter(Plain)));
    steps := Take(false, steps, OfWriter(1, LockMutex));
    steps := Take(false, steps, OfWriter(1, Send(Written)));
    steps := Take(false, steps, OfWriter(1, Return));
  }

  /** Two callers that are not serialised: the second drops the first one's pending response, and the
    first, woken, reads the final response of no response. */
  lemma UnserialisedCallersCanCrash() returns (steps: seq<Step>)
    ensures After(false, steps).Some? && After(false, steps).value.At(0).Crashed?
  {
    steps := SecondWriterDropsIt();
    steps := Take(false, steps, OfWriter(0, Wake(false)));
    steps := Take(false, steps, OfWriter(0, Check));
  }

  /** Serialising the callers is exactly what keeps every run free of such a read. */
  lemma SafeIffSerialised(serialised: bool)
    ensures (forall steps: seq<Step>, t: Tid | After(serialised, steps).Some? ::
            !After(serialised, steps).value.At(t).Crashed?)
            <==> serialised
  {
    if serialised {
      forall steps: seq<Step>, t: Tid | After(true, steps).Some?
        ensures !After(true, steps).value.At(t).Crashed?
      {
        PendingOnlyInsideASend(steps);
      }
    } else {
      var steps := UnserialisedCallersCanCrash();
      assert After(false, steps).value.At(0).Crashed?;
    }
  }

  // ---------------------------------------------------------------- callers that do not overlap

  /** No thread is inside a send. */
  ghost predicate Idle(s: State) {
    forall t: Tid :: !HoldsWriteMutex(s.At(t))
  }

  /** No send is entered while another is in progress. */
  ghost predicate NeverOverlaps(steps: seq<Step>)
    requires After(false, steps).Some?
  {
    steps == [] ||
    (var front, last := steps[..|steps| - 1], steps[|steps| - 1];
     NeverOverlaps(front) && (last.OfWriter? && last.step.Enter? ==> Idle(After(false, front).value)))
  }

  /** The state as if its callers had been serialised. */
  predicate AsSerialised(u: State, s: State) {
    SharedAsSerialised(u.sh, s.sh) && s == u.(sh := s.sh)
  }

  predicate SharedAsSerialised(u: Shared, s: Shared) {
    !u.serialised && u.writeMutex.None? && s == u.(serialised := true, writeMutex := s.writeMutex)
  }

  ghost predicate NoneAtWriteMutex(s: State) {
    forall t: Tid :: !s.At(t).AtWriteMutex?
  }

  lemma LockedMeansBusy(s: State, u: State)
    requires Inv(s) && u.writers == s.writers
    ensures s.sh.writeMutex.Some? ==> !Idle(u)
  {
    if s.sh.writeMutex.Some? {
      var t := s.sh.writeMutex.value;
      assert WriterOk(s.sh, t, s.At(t)) && HoldsWriteMutex(u.At(t));
    }
  }

  lemma EnterSerialised(steps: seq<Step>, u: State, t: Tid, cmd: Command) returns (r: seq<Step>)
    requires After(true, steps).Some? && AsSerialised(u, After(true, steps).value)
    requires Idle(u) && NoneAtWriteMutex(u) && Next(u, OfWriter(t, Enter(cmd))).Some?
    ensures After(true, r).Some? && AsSerialised(Next(u, OfWriter(t, Enter(cmd))).value, After(true, r).value)
    ensures NoneAtWriteMutex(Next(u, OfWriter(t, Enter(cmd))).value)
  {
    RunKeepsInv(steps);
    var s, u' := After(true, steps).value, Next(u, OfWriter(t, Enter(cmd))).value;
    LockedMeansBusy(s, u);
    r := Take(true, steps, OfWriter(t, Enter(cmd)));
    r := Take(true, r, OfWriter(t, LockWriteMutex));
    assert After(true, r).value.writers == u'.writers;
    assert forall v: Tid :: u'.At(v) == if v == t then AtMutex(cmd) else u.At(v);
  }

  lemma CheckSerialised(u: Shared, s: Shared, cmd: Command)
    requires SharedAsSerialised(u, s)
    ensures SharedAsSerialised(CheckLoop(u, cmd).sh, CheckLoop(s, cmd).sh)
            && CheckLoop(u, cmd).pc == CheckLoop(s, cmd).pc
    ensures !CheckLoop(u, cmd).pc.AtWriteMutex?
  {
  }

  lemma SendSerialised(u: Shared, s: Shared, t: Tid, cmd: Command, result: WriteResult)
    requires SharedAsSerialised(u, s)
    ensures var m, n := BeginSend(u, t, cmd, result), BeginSend(s, t, cmd, result);
            SharedAsSerialised(m.sh, n.sh) && m.pc == n.pc && !m.pc.AtWriteMutex?
  {
  }

  /** Every step of a writer but entering a send is the same for serialised callers. */
  lemma WriterStepSerialised(u: Shared, s: Shared, t: Tid, pc: Pc, step: WriterStep)
    requires SharedAsSerialised(u, s) && WriterNext(u, t, pc, step).Some? && !step.Enter? && !pc.AtWriteMutex?
    ensures WriterNext(s, t, pc, step).Some?
    ensures var m, n := WriterNext(u, t, pc, step).value, WriterNext(s, t, pc, step).value;
            SharedAsSerialised(m.sh, n.sh) && m.pc == n.pc && !m.pc.AtWriteMutex?
  {
    match step
    case Send(result) => SendSerialised(u, s, t, pc.cmd, result);
    case Check => CheckSerialised(u, s, pc.cmd);
    case _ =>
  }

  lemma ReaderStepSerialised(u: Shared, s: Shared, reader: ReaderPc, log: Log, step: ReaderStep)
    requires SharedAsSerialised(u, s) && ReaderNext(u, reader, log, step).Some?
    ensures ReaderNext(s, reader, log, step).Some?
    ensures var m, n := ReaderNext(u, reader, log, step).value, ReaderNext(s, reader, log, step).value;
            SharedAsSerialised(m.sh, n.sh) && m.reader == n.reader && m.log == n.log
  {
  }

  lemma StepSerialised(u: State, s: State, step: Step)
    requires AsSerialised(u, s) && NoneAtWriteMutex(u) && Next(u, step).Some? && !(step.OfWriter? && step.step.Enter?)
    ensures Next(s, step).Some? && AsSerialised(Next(u, step).value, Next(s, step).value)
    ensures NoneAtWriteMutex(Next(u, step).value)
  {
    match step
    case OfWriter(t, w) =>
      assert s.At(t) == u.At(t);
      WriterStepSerialised(u.sh, s.sh, t, u.At(t), w);
      assert forall v: Tid ::
          Next(u, step).value.At(v) == if v == t then WriterNext(u.sh, t, u.At(t), w).value.pc else u.At(v);
    case OfReader(r) =>
      ReaderStepSerialised(u.sh, s.sh, u.reader, u.log, r);
      assert forall v: Tid :: Next(u, step).value.At(v) == u.At(v);
  }

  /** An unserialised run in which no send is entered while another is in progress is a serialised run. */
  lemma {:induction false} NeverOverlappingIsSerialised(steps: seq<Step>) returns (serial: seq<Step>)
    requires After(false, steps).Some? && NeverOverlaps(steps)
    ensures After(true, serial).Some? && AsSerialised(After(false, steps).value, After(true, serial).value)
    ensures NoneAtWriteMutex(After(false, steps).value)
  {
    if steps == [] {
      serial := [];
    } else {
      var front, step := steps[..|steps| - 1], steps[|steps| - 1];
      serial := NeverOverlappingIsSerialised(front);
      var u, s := After(false, front).value, After(true, serial).value;
      if step.OfWriter? && step.step.Enter? {
        serial := EnterSerialised(serial, u, step.t, step.step.cmd);
      } else {
        StepSerialised(u, s, step);
        serial := Take(true, serial, step);
      }
    }
  }

  /** So it has all the guarantees of serialised callers: no writer reads a missing response, a response is
    pending exactly while one writer is inside its send, and the answers are faithful. */
  lemma NeverOverlappingIsSafe(steps: seq<Step>)
    requires After(false, steps).Some? && NeverOverlaps(steps)
    ensures var s := After(false, steps).value;
            && (forall t: Tid :: !s.At(t).Crashed?)
            && (s.sh.pending.Some? <==> exists t: Tid :: InSend(s.At(t)))
            && ResponsesAccounted(s.sh)
            && (forall k | 0 <= k < |s.sh.answers| :: AnswerOk(s.sh.answers[k]))
  {
    var serial := NeverOverlappingIsSerialised(steps);
    RunKeepsInv(serial);
    PendingOnlyInsideASend(serial);
    var u, s := After(false, steps).value, After(true, serial).value;
    assert forall t: Tid :: u.At(t) == s.At(t);
  }
}
