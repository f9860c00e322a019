/** The receive loop against resets that fall inside an iteration: in_read clears the buffer sizes under
  a mutex the receive loop does not hold. Each read and each write of audio_recv_buf_size is a step; what
  `+=` and `-=` read and write are two. */
module WcamRaces {
  import opened WcamPipeline
  import opened Wrappers

  /** Where the receive loop is. A `reset` tells whether one fell in since the offset was read, or since the
    test for a full block, or, in AtStore, since the load. */
  datatype Pc =
    | AtRecv                                           // the head of the loop
    | AtRecvSecond(first: int, offsetFirst: bool, reset: bool)  // read the size for one argument of recv()
    | AtFullTest(offset: int, n: nat, reset: bool)     // recv() stored n bytes at offset
    | AtClear(offset: int, n: nat, reset: bool)        // about to drop a full buffer
    | AtAppend(offset: int, n: nat, reset: bool)       // about to load the size, to count the bytes
    | AtAppendStore(value: int, n: nat, reset: bool)   // loaded it, about to store the sum
    | AtBlockTest                                      // about to test for a full block
    | AtSubtract(reset: bool)                          // copied a block, about to load the size
    | AtSubtractStore(value: int, late: bool, reset: bool)  // loaded it, after a reset if `late`
    | AtMove                                           // about to move the rest up
    | Broken                                           // memmove was asked for a negative size

  /** `droppedFull`: the branch for a full buffer was taken; `misplaced`: bytes were counted elsewhere than they
    were stored; `overrun`: bytes were stored behind the end of the buffer; `lost`: a reset was overwritten. */
  datatype State = State(pc: Pc, size: int, droppedFull: bool, misplaced: bool, overrun: bool, lost: bool)

  /** A step of the receive loop, or a reset by in_read. C leaves open which argument of recv() is
    evaluated first; recv() then yields `n` bytes. */
  datatype Step = ReadOffset | ReadLength | Recv(n: nat) | Go | Reset

  const Start := State(AtRecv, 0, false, false, false, false)

  function Next(s: State, step: Step): Option<State> {
    match step
    case Reset => Some(s.(size := 0, pc := AfterReset(s.pc)))
    case ReadOffset => if s.pc.AtRecv? then Some(s.(pc := AtRecvSecond(s.size, true, false))) else None
    case ReadLength => if s.pc.AtRecv? then Some(s.(pc := AtRecvSecond(s.size, false, false))) else None
    case Recv(n) => if s.pc.AtRecvSecond? then Received(s, s.pc.first, s.pc.offsetFirst, s.pc.reset, n) else None
    case Go =>
      match s.pc
      case AtFullTest(offset, n, reset) =>
        Some(s.(pc := if s.size >= MAX_AUDIO_BUFFER then AtClear(offset, n, reset) else Counting(offset, n, reset)))
      case AtClear(offset, n, reset) =>
        Some(s.(pc := Counting(offset, n, reset), size := 0, droppedFull := true))
      case AtAppend(offset, n, _) =>
        Some(s.(pc := AtAppendStore(s.size, n, false), misplaced := s.misplaced || offset != s.size))
      case AtAppendStore(value, n, reset) =>
        Some(s.(pc := AtBlockTest, size := value + n, lost := s.lost || reset))
      case AtBlockTest => Some(s.(pc := if s.size > BLOCK then AtSubtract(false) else AtRecv))
      case AtSubtract(reset) => Some(s.(pc := AtSubtractStore(s.size, reset, false)))
      case AtSubtractStore(value, _, reset) =>
        Some(s.(pc := AtMove, size := value - BLOCK, lost := s.lost || reset))
      case AtMove => Some(s.(pc := if s.size < 0 then Broken else AtRecv))
      case _ => None
  }

  /** The second argument is evaluated and recv() stores `n` bytes, as many as it was allowed at most. */
  function Received(s: State, first: int, offsetFirst: bool, reset: bool, n: nat): Option<State> {
    var offset, room := if offsetFirst then first else s.size, MAX_AUDIO_BUFFER - if offsetFirst then s.size else first;
    if offset < 0 || n > room then None
    else
      Some(s.(pc := AtFullTest(offset, n, offsetFirst && reset),
              overrun := s.overrun || (n > 0 && offset + n > MAX_AUDIO_BUFFER)))
  }

  /** Bytes are counted only if there are any. */
  function Counting(offset: int, n: nat, reset: bool): Pc {
    if n > 0 then AtAppend(offset, n, reset) else AtBlockTest
  }

  function AfterReset(pc: Pc): Pc {
    match pc
    case AtRecvSecond(first, offsetFirst, _) => AtRecvSecond(first, offsetFirst, true)
    case AtFullTest(offset, n, _) => AtFullTest(offset, n, true)
    case AtClear(offset, n, _) => AtClear(offset, n, true)
    case AtAppend(offset, n, _) => AtAppend(offset, n, true)
    case AtAppendStore(value, n, _) => AtAppendStore(value, n, true)
    case AtSubtract(_) => AtSubtract(true)
    case AtSubtractStore(value, late, _) => AtSubtractStore(value, late, true)
    case _ => pc
  }

  /** The state a run leads to, if every step of it can be taken. */
  function After(steps: seq<Step>): Option<State> {
    if steps == [] then Some(Start)
    else
      match After(steps[..|steps| - 1])
      case None => None
      case Some(s) => Next(s, steps[|steps| - 1])
  }

  predicate Inv(s: State) {
    && !s.droppedFull
    && match s.pc
       case AtRecv => AtHead(s.size)
       case AtRecvSecond(first, _, reset) => AtHead(first) && s.size == if reset then 0 else first
       case AtFullTest(offset, n, reset) => InRecv(s.size, offset, n, reset)
       case AtClear(_, _, _) => false
       case AtAppend(offset, n, reset) => n > 0 && InRecv(s.size, offset, n, reset)
       case AtAppendStore(value, n, reset) =>
         && 0 <= value && n <= MAX_AUDIO_BUFFER - value && AtHead(value) && s.size == if reset then 0 else value
       case AtBlockTest => 0 <= s.size <= MAX_AUDIO_BUFFER
       case AtSubtract(reset) => if reset then s.size == 0 else BLOCK < s.size <= MAX_AUDIO_BUFFER
       case AtSubtractStore(value, late, reset) =>
         && (if late then value == 0 else BLOCK < value <= MAX_AUDIO_BUFFER) && s.size == if reset then 0 else value
       case AtMove => s.size == -BLOCK || AtHead(s.size)
       case Broken => true
  }

  /** The size leaves room for a block. */
  predicate AtHead(size: int) {
    0 <= size <= MAX_AUDIO_BUFFER - BLOCK
  }

  /** Bytes fit behind those that are counted, which are those in front of them unless a reset fell in. */
  predicate InRecv(size: int, offset: int, n: nat, reset: bool) {
    AtHead(offset) && AtHead(size) && n <= MAX_AUDIO_BUFFER - size && size == if reset then 0 else offset
  }

  lemma {:induction false} RunKeepsInv(steps: seq<Step>)
    requires After(steps).Some?
    ensures Inv(After(steps).value)
  {
    if steps != [] {
      var front := steps[..|steps| - 1];
      RunKeepsInv(front);
      StepKeepsInv(After(front).value, steps[|steps| - 1]);
    }
  }

  lemma StepKeepsInv(s: State, step: Step)
    requires Inv(s) && Next(s, step).Some?
    ensures Inv(Next(s, step).value)
  {
    match step
    case Reset => ResetKeepsInv(s);
    case Recv(n) => RecvKeepsInv(s, n);
    case Go => GoKeepsInv(s);
    case _ =>
  }

  lemma ResetKeepsInv(s: State)
    requires Inv(s)
    ensures Inv(Next(s, Reset).value)
  {
  }

  lemma RecvKeepsInv(s: State, n: nat)
    requires Inv(s) && Next(s, Recv(n)).Some?
    ensures Inv(Next(s, Recv(n)).value)
  {
  }

  lemma GoKeepsInv(s: State)
    requires Inv(s) && Next(s, Go).Some?
    ensures Inv(Next(s, Go).value)
  {
    if s.pc.AtFullTest? || s.pc.AtAppend? || s.pc.AtAppendStore? {
      CountingKeepsInv(s);
    } else {
      BlockKeepsInv(s);
    }
  }

  lemma CountingKeepsInv(s: State)
    requires Inv(s) && (s.pc.AtFullTest? || s.pc.AtAppend? || s.pc.AtAppendStore?)
    ensures Inv(Next(s, Go).value)
  {
  }

  lemma BlockKeepsInv(s: State)
    requires Inv(s) && (s.pc.AtBlockTest? || s.pc.AtSubtract? || s.pc.AtSubtractStore? || s.pc.AtMove?)
    ensures Inv(Next(s, Go).value)
  {
  }

  /** In every run, however resets fall, the buffered size at the head of the loop leaves room for a block
    and the branch for a full buffer is never taken. */
  lemma HeadIsBounded(steps: seq<Step>)
    requires After(steps).Some?
    ensures var s := After(steps).value;
            !s.droppedFull && (s.pc == AtRecv ==> 0 <= s.size <= MAX_AUDIO_BUFFER - BLOCK)
  {
    RunKeepsInv(steps);
  }

  /** At some moment of the run the buffered size is negative. */
  ghost predicate GoesNegative(steps: seq<Step>)
    requires After(steps).Some?
  {
    After(steps).value.size < 0 || (steps != [] && GoesNegative(steps[..|steps| - 1]))
  }

  /** A block is subtracted from a size that was loaded although a reset fell in since the test for it. */
  ghost predicate SubtractsAfterReset(steps: seq<Step>)
    requires After(steps).Some?
  {
    steps != [] &&
    (var front := steps[..|steps| - 1];
     var pc := After(front).value.pc;
     SubtractsAfterReset(front) || (steps[|steps| - 1].Go? && pc.AtSubtractStore? && pc.late))
  }

  /** The size is loaded to count bytes although a reset fell in since the offset behind others was read. */
  ghost predicate CountsAfterReset(steps: seq<Step>)
    requires After(steps).Some?
  {
    steps != [] &&
    (var front := steps[..|steps| - 1];
     var pc := After(front).value.pc;
     CountsAfterReset(front) || (steps[|steps| - 1].Go? && pc.AtAppend? && pc.reset && pc.offset > 0))
  }

  /** A reset falls in between the reads of the offset and the length, in this order, and recv() yields more
    bytes than there is room for behind the offset. */
  ghost predicate RecvAcrossReset(steps: seq<Step>)
    requires After(steps).Some?
  {
    steps != [] &&
    (var front, step := steps[..|steps| - 1], steps[|steps| - 1];
     var pc := After(front).value.pc;
     RecvAcrossReset(front)
     || (step.Recv? && pc.AtRecvSecond? && pc.offsetFirst && pc.reset && step.n > MAX_AUDIO_BUFFER - pc.first))
  }

  /** Exact condition, for every run: the size becomes negative if and only if some block is subtracted
    from a size that was loaded although a reset fell in since the test. */
  lemma {:induction false} NegativeIff(steps: seq<Step>)
    requires After(steps).Some?
    ensures GoesNegative(steps) <==> SubtractsAfterReset(steps)
  {
    if steps != [] {
      var front := steps[..|steps| - 1];
      RunKeepsInv(front);
      NegativeIff(front);
      NegativeStays(front, steps[|steps| - 1]);
    }
  }

  /** A step makes the size negative only by a subtraction after a reset; other steps keep a negative size
    or clear it. */
  lemma NegativeStays(front: seq<Step>, step: Step)
    requires After(front).Some? && Next(After(front).value, step).Some?
    ensures var s, s' := After(front).value, Next(After(front).value, step).value;
            s'.size < 0 <==> step.Go? && ((s.pc.AtSubtractStore? && s.pc.late) || s.size < 0)
  {
    RunKeepsInv(front);
  }

  /** Exact condition, for every run: bytes are stored elsewhere than they are counted if and only if they
    are counted although a reset fell in since the offset behind others was read. */
  lemma {:induction false} MisplacedIff(steps: seq<Step>)
    requires After(steps).Some?
    ensures After(steps).value.misplaced <==> CountsAfterReset(steps)
  {
    if steps != [] {
      var front := steps[..|steps| - 1];
      RunKeepsInv(front);
      MisplacedIff(front);
    }
  }

  /** Exact condition, for every run: bytes are stored behind the end of the buffer if and only if a reset
    fell in between the reads of the offset and of the length and recv() used the room this made up. */
  lemma {:induction false} OverrunIff(steps: seq<Step>)
    requires After(steps).Some?
    ensures After(steps).value.overrun <==> RecvAcrossReset(steps)
  {
    if steps != [] {
      var front := steps[..|steps| - 1];
      RunKeepsInv(front);
      OverrunIff(front);
    }
  }

  /** A reset falls in between a load of the size and the store that goes with it. */
  ghost predicate StoresOverReset(steps: seq<Step>)
    requires After(steps).Some?
  {
    steps != [] &&
    (var front := steps[..|steps| - 1];
     var pc := After(front).value.pc;
     || StoresOverReset(front)
     || (steps[|steps| - 1].Go? && front != [] && (pc.AtAppendStore? || pc.AtSubtractStore?)
         && ResetSinceGo(front)))
  }

  /** Some reset was among the last steps, with no other step behind it. */
  predicate ResetSinceGo(steps: seq<Step>) {
    steps != [] && steps[|steps| - 1].Reset?
  }

  lemma ResetNoted(s: State, step: Step)
    requires Next(s, step).Some?
    ensures var pc := Next(s, step).value.pc;
            && (pc.AtAppendStore? ==> (pc.reset <==> step.Reset?))
            && (pc.AtSubtractStore? ==> (pc.reset <==> step.Reset?))
  {
  }

  lemma FrontNoted(steps: seq<Step>)
    requires After(steps).Some?
    ensures var pc := After(steps).value.pc;
            && (pc.AtAppendStore? ==> (pc.reset <==> ResetSinceGo(steps)))
            && (pc.AtSubtractStore? ==> (pc.reset <==> ResetSinceGo(steps)))
  {
    if steps != [] {
      ResetNoted(After(steps[..|steps| - 1]).value, steps[|steps| - 1]);
    }
  }

  lemma LostStep(s: State, step: Step)
    requires Next(s, step).Some?
    ensures Next(s, step).value.lost <==>
            s.lost || (step.Go? && (s.pc.AtAppendStore? || s.pc.AtSubtractStore?) && s.pc.reset)
  {
  }

  /** Exact condition, for every run: a reset is overwritten if and only if it fell in between a load of the size
    and the store of the sum or difference. */
  lemma {:induction false} LostIff(steps: seq<Step>)
    requires After(steps).Some?
    ensures After(steps).value.lost <==> StoresOverReset(steps)
  {
    if steps != [] {
      var front := steps[..|steps| - 1];
      LostIff(front);
      FrontNoted(front);
      LostStep(After(front).value, steps[|steps| - 1]);
    }
  }

  /** recv() can yield any number of bytes up to the length it was given, and memmove is asked for a negative
    size exactly when the size is negative. */
  lemma RecvAndMoveIff(steps: seq<Step>, n: nat)
    requires After(steps).Some?
    ensures var s := After(steps).value;
            && (Next(s, Recv(n)).Some? <==>
                  s.pc.AtRecvSecond? && n <= MAX_AUDIO_BUFFER - if s.pc.offsetFirst then s.size else s.pc.first)
            && (s.pc.AtMove? ==> Next(s, Go).Some? && (Next(s, Go).value.pc.Broken? <==> s.size < 0))
  {
    RunKeepsInv(steps);
  }

  /** Where the length is read before the offset bytes are never stored behind the end of the buffer. */
  lemma {:induction false} LengthFirstIsSafe(steps: seq<Step>)
    requires After(steps).Some? && ReadOffset !in steps
    ensures !After(steps).value.overrun
    ensures After(steps).value.pc.AtRecvSecond? ==> !After(steps).value.pc.offsetFirst
  {
    if steps != [] {
      var front := steps[..|steps| - 1];
      assert forall x | x in front :: x in steps;
      assert steps[|steps| - 1] in steps;
      LengthFirstIsSafe(front);
      RunKeepsInv(front);
    }
  }

  lemma Extend(steps: seq<Step>, step: Step)
    requires After(steps).Some?
    ensures After(steps + [step]) == Next(After(steps).value, step)
  {
    assert (steps + [step])[..|steps|] == steps;
  }

  lemma Take(steps: seq<Step>, step: Step) returns (r: seq<Step>)
    requires After(steps).Some? && Next(After(steps).value, step).Some?
    ensures After(r) == Next(After(steps).value, step) && r == steps + [step]
  {
    Extend(steps, step);
    r := steps + [step];
  }

  lemma Stores(n: nat) returns (steps: seq<Step>)
    requires 0 < n <= MAX_AUDIO_BUFFER
    ensures After(steps) == Some(Start.(pc := AtFullTest(0, n, false)))
  {
    steps := Take([], ReadOffset);
    assert After(steps) == Some(Start.(pc := AtRecvSecond(0, true, false)));
    steps := Take(steps, Recv(n));
  }

  /** One iteration up to the test for a block, with `n` bytes. */
  lemma Receives(n: nat) returns (steps: seq<Step>)
    requires 0 < n <= MAX_AUDIO_BUFFER
    ensures After(steps) == Some(Start.(pc := AtBlockTest, size := n))
  {
    steps := Stores(n);
    steps := Take(steps, Go);
    assert After(steps) == Some(Start.(pc := AtAppend(0, n, false)));
    steps := Take(steps, Go);
    assert After(steps) == Some(Start.(pc := AtAppendStore(0, n, false)));
    steps := Take(steps, Go);
  }

  /** A failing run: a reset between the test and the subtraction makes the size -4096, and memmove is
    asked to move that many bytes. */
  lemma ResetCanBreakTheLoop() returns (steps: seq<Step>)
    ensures After(steps).Some? && After(steps).value.pc == Broken && After(steps).value.size == -BLOCK
  {
    steps := Receives(BLOCK + 1);
    steps := Take(steps, Go);
    steps := Take(steps, Reset);
    steps := Take(steps, Go);
    steps := Take(steps, Go);
    steps := Take(steps, Go);
  }

  /** Another: a reset between the two reads lets recv() store the whole buffer's length behind one byte. */
  lemma ResetCanOverrunTheBuffer() returns (steps: seq<Step>)
    ensures After(steps).Some? && After(steps).value.overrun
  {
    steps := Receives(1);
    steps := Take(steps, Go);
    steps := Take(steps, ReadOffset);
    steps := Take(steps, Reset);
    steps := Take(steps, Recv(MAX_AUDIO_BUFFER));
  }

  /** A third: a reset between the load and the store of the subtraction is overwritten; what was received
    before it is still counted. */
  lemma ResetCanBeLost() returns (front: seq<Step>)
    ensures After(front + [Reset, Go]).Some?
    ensures var s := After(front + [Reset, Go]).value; s.lost && s.size == 1
  {
    front := Receives(BLOCK + 1);
    front := Take(front, Go);
    front := Take(front, Go);
    var r := Take(front, Reset);
    r := Take(r, Go);
    assert r == front + [Reset, Go];
  }
}
