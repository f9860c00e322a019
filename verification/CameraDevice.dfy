/** The camera device: accepting, completing and flushing capture requests.

  Device threads may complete any request ever accepted, any number of times, at any moment;
  every operation below runs under the in-flight lock and is one step. */
module CameraDevice {
  import opened RequestTracking
  import opened Wrappers

  datatype Status = Ok | Invalid | NoDevice | OtherError

  datatype Callback =
    | Shutter(frameNumber: nat, timestamp: int)
    | RequestError(frameNumber: nat)
    | Result(request: CaptureRequest)

  /** How a request was answered: with its shutter time, or with an error. */
  datatype Answer = Answer(request: CaptureRequest, shutter: Option<int>)

  datatype Event = Configured | ConfigurationLost | Accepted(request: CaptureRequest)

  /** The callbacks an answer consists of: one notification, then one result. */
  function CallbacksOf(a: Answer): seq<Callback> {
    [if a.shutter.Some? then Shutter(a.request.frameNumber, a.shutter.value) else RequestError(a.request.frameNumber),
     Result(a.request)]
  }

  function AllCallbacks(answers: seq<Answer>): seq<Callback> {
    if answers == [] then []
    else AllCallbacks(answers[..|answers| - 1]) + CallbacksOf(answers[|answers| - 1])
  }

  ghost function Requests(answers: seq<Answer>): set<CaptureRequest> {
    set a | a in answers :: a.request
  }

  ghost predicate Distinct<T>(s: seq<T>) {
    forall i, j | 0 <= i < j < |s| :: s[i] != s[j]
  }

  ghost predicate DistinctRequests(answers: seq<Answer>) {
    forall i, j | 0 <= i < j < |answers| :: answers[i].request != answers[j].request
  }

  /** The accepted requests are exactly the disjoint union of those in flight and those answered, and
    no request is answered twice. */
  ghost predicate AllAccounted(accepted: seq<CaptureRequest>, frames: Frames, answers: seq<Answer>) {
    && (set r | r in accepted) == frames.Values + Requests(answers)
    && frames.Values !! Requests(answers)
    && Distinct(accepted) && DistinctRequests(answers)
  }

  datatype Setup = Unconfigured | Fresh | InUse

  function SetupAfter(events: seq<Event>): Setup {
    if events == [] then Unconfigured
    else
      match events[|events| - 1]
      case Configured => Fresh
      case ConfigurationLost => Unconfigured
      case Accepted(_) => InUse
  }

  /** Requests are accepted only under a configuration, and the first one under each configuration
    brings settings. */
  ghost predicate WellOrdered(events: seq<Event>) {
    forall i {:trigger events[i]} | 0 <= i < |events| && events[i].Accepted? ::
      && SetupAfter(events[..i]) != Unconfigured
      && (SetupAfter(events[..i]) == Fresh ==> !events[i].request.settingsEmpty)
  }

  /** The accepted requests of a history, in order. */
  function AcceptedIn(events: seq<Event>): seq<CaptureRequest> {
    if events == [] then []
    else
      var front, e := events[..|events| - 1], events[|events| - 1];
      AcceptedIn(front) + if e.Accepted? then [e.request] else []
  }

  lemma OrderExtends(events: seq<Event>, e: Event)
    requires WellOrdered(events)
    requires e.Accepted? ==>
             SetupAfter(events) != Unconfigured && (SetupAfter(events) == Fresh ==> !e.request.settingsEmpty)
    ensures WellOrdered(events + [e]) && SetupAfter(events + [e]) == SetupAfter([e])
    ensures AcceptedIn(events + [e]) == AcceptedIn(events) + if e.Accepted? then [e.request] else []
  {
    var all := events + [e];
    assert all[..|events|] == events;
    forall i | 0 <= i < |all| && all[i].Accepted?
      ensures SetupAfter(all[..i]) != Unconfigured
      ensures SetupAfter(all[..i]) == Fresh ==> !all[i].request.settingsEmpty
    {
      if i < |events| {
        assert all[i] == events[i] && all[..i] == events[..i];
      } else {
        assert all[..i] == events;
      }
    }
  }

  lemma CallbacksExtend(answers: seq<Answer>, a: Answer)
    ensures AllCallbacks(answers + [a]) == AllCallbacks(answers) + CallbacksOf(a)
    ensures Requests(answers + [a]) == Requests(answers) + {a.request}
  {
    assert (answers + [a])[..|answers|] == answers;
    assert a in answers + [a];
    forall b | b in answers
      ensures b in answers + [a]
    {
    }
    assert forall b | b in answers + [a] :: b in answers || b == a;
  }

  /** What the framework is told, two callbacks for each answer: first the shutter with its time or the error, with
    the request's frame number, then the result for the request. */
  lemma {:induction false} CallbacksAt(answers: seq<Answer>, k: nat)
    requires k < |answers|
    ensures |AllCallbacks(answers)| == 2 * |answers|
    ensures var a, callbacks := answers[k], AllCallbacks(answers);
            && callbacks[2 * k + 1] == Result(a.request)
            && (a.shutter.Some? ==> callbacks[2 * k] == Shutter(a.request.frameNumber, a.shutter.value))
            && (a.shutter.None? ==> callbacks[2 * k] == RequestError(a.request.frameNumber))
  {
    var n := |answers| - 1;
    CallbacksCount(answers[..n]);
    if k < n {
      CallbacksAt(answers[..n], k);
    }
  }

  lemma {:induction false} CallbacksCount(answers: seq<Answer>)
    ensures |AllCallbacks(answers)| == 2 * |answers|
  {
    if answers != [] {
      CallbacksCount(answers[..|answers| - 1]);
    }
  }

  /** `after` adds error answers to `before`, for exactly these requests. */
  ghost predicate FlushedFrom(before: seq<Answer>, after: seq<Answer>, requests: set<CaptureRequest>) {
    && before <= after
    && Requests(after) == Requests(before) + requests
    && forall k | |before| <= k < |after| :: after[k].shutter == None
  }

  lemma FlushedOne(before: seq<Answer>, after: seq<Answer>, all: set<CaptureRequest>, todo: set<CaptureRequest>,
                   r: CaptureRequest)
    requires FlushedFrom(before, after, all - todo) && r in todo && todo <= all
    ensures FlushedFrom(before, after + [Answer(r, None)], all - (todo - {r}))
  {
    CallbacksExtend(after, Answer(r, None));
    assert all - (todo - {r}) == all - todo + {r};
  }

  /** Answering a request that is in flight, once it left the tracking. */
  lemma AnsweredAccounted(accepted: seq<CaptureRequest>, frames: Frames, answers: seq<Answer>, a: Answer, rest: Frames)
    requires AllAccounted(accepted, frames, answers)
    requires a.request in frames.Values && rest.Values == frames.Values - {a.request}
    ensures AllAccounted(accepted, rest, answers + [a])
  {
    CallbacksExtend(answers, a);
    var all := answers + [a];
    forall i, j | 0 <= i < j < |all|
      ensures all[i].request != all[j].request
    {
      if j == |answers| {
        assert all[i] == answers[i] && answers[i] in answers;
        assert all[i].request in Requests(answers);
      }
    }
  }

  lemma AcceptedAccounted(accepted: seq<CaptureRequest>, frames: Frames, answers: seq<Answer>, r: CaptureRequest)
    requires AllAccounted(accepted, frames, answers) && r !in accepted && r.frameNumber !in frames
    ensures AllAccounted(accepted + [r], frames[r.frameNumber := r], answers)
  {
    var after := frames[r.frameNumber := r];
    forall v
      ensures v in after.Values <==> v in frames.Values || v == r
    {
      if v in frames.Values {
        var f :| f in frames && frames[f] == v;
        assert after[f] == v;
      }
      assert after[r.frameNumber] == r;
    }
    assert after.Values == frames.Values + {r};
    assert (set x | x in accepted + [r]) == (set x | x in accepted) + {r};
    assert r !in Requests(answers);
  }

  datatype PixelFormat = ImplementationDefined | Rgba8888 | OtherFormat(code: int)

  /** The formats of the framework's streams, which configuring writes to. */
  class FormatTable {
    var formats: map<StreamId, PixelFormat>

    constructor (formats: map<StreamId, PixelFormat>)
      ensures this.formats == formats
    {
      this.formats := formats;
    }

    /** Every listed stream whose format is left to the device gets one; all others keep theirs. */
    method FixFormats(streams: seq<StreamId>)
      requires forall s | s in streams :: s in formats
      modifies this
      ensures FormatsFixed(old(formats), formats, streams)
    {
      ghost var before := formats;
      for i := 0 to |streams|
        invariant FormatsFixed(before, formats, streams[..i])
      {
        assert streams[..i + 1] == streams[..i] + [streams[i]];
        if formats[streams[i]] == ImplementationDefined {
          formats := formats[streams[i] := Rgba8888];
        }
      }
      assert streams[..|streams|] == streams;
    }
  }

  /** `after` is `before` with a definite format for every listed stream that had none. */
  ghost predicate FormatsFixed(before: map<StreamId, PixelFormat>, after: map<StreamId, PixelFormat>,
                               streams: seq<StreamId>) {
    && after.Keys == before.Keys
    && forall s | s in before ::
         after[s] == if s in streams && before[s] == ImplementationDefined then Rgba8888 else before[s]
  }

  class Camera {
    const tracker: RequestTracker
    var settingsSet: bool
    var busy: bool
    var callbacks: seq<Callback>          // what the framework has been told
    var accepted: seq<CaptureRequest>     // history: every request accepted
    ghost var answers: seq<Answer>
    ghost var events: seq<Event>

    ghost predicate Valid()
      reads this, tracker
    {
      && tracker.Valid()
      && AllAccounted(accepted, tracker.framesInFlight, answers)
      && callbacks == AllCallbacks(answers)
      && WellOrdered(events) && AcceptedIn(events) == accepted
      && (SetupAfter(events) == Unconfigured ==> tracker.buffersInFlight == map[])
      && (SetupAfter(events) == Fresh ==> !settingsSet)
      && (SetupAfter(events) == InUse ==> settingsSet)
    }

    constructor ()
      ensures Valid() && fresh(tracker) && accepted == [] && callbacks == [] && answers == [] && events == [] && !busy
    {
      tracker := new RequestTracker();
      settingsSet, busy, callbacks, accepted, answers, events := false, false, [], [], [], [];
    }

    method OpenDevice(connects: bool) returns (res: Status)
      requires Valid()
      modifies this`busy
      ensures Valid() && (res == Ok <==> !old(busy) && connects) && busy == (old(busy) || connects)
    {
      if busy {
        return OtherError;
      }
      if !connects {
        return NoDevice;
      }
      busy := true;
      res := Ok;
    }

    /** Installs a stream configuration. `outcome` is the result of validating it and setting the streams
      up; `limits` are the max_buffers the streams then have. The formats of the streams are fixed even
      if the configuration is refused. */
    method ConfigureStreams(streams: seq<StreamId>, table: FormatTable, outcome: Status, limits: map<StreamId, nat>)
      returns (res: Status)
      requires Valid() && (forall s | s in streams :: s in limits) && tracker.buffersInFlight.Keys <= limits.Keys
      requires forall s | s in streams :: s in table.formats
      modifies this`settingsSet, this`events, tracker`buffersInFlight, tracker`maxBuffers, table
      ensures Valid() && FormatsFixed(old(table.formats), table.formats, streams)
      ensures !old(tracker.Empty()) ==> res == Invalid && unchanged(this) && unchanged(tracker)
      ensures old(tracker.Empty()) ==> res == outcome
      ensures old(tracker.Empty()) && outcome == Ok ==>
                !settingsSet && tracker.buffersInFlight.Keys == (set s | s in streams)
                  && events == old(events) + [Configured]
      ensures old(tracker.Empty()) && outcome == Invalid ==>
                settingsSet == old(settingsSet) && tracker.buffersInFlight == old(tracker.buffersInFlight)
                  && events == old(events)
      ensures old(tracker.Empty()) && outcome != Ok && outcome != Invalid ==>
                settingsSet == old(settingsSet) && tracker.buffersInFlight == map[]
                  && events == old(events) + [ConfigurationLost]
    {
      table.FixFormats(streams);
      if !tracker.Empty() {
        return Invalid;
      }
      forall s | s in tracker.buffersInFlight
        ensures tracker.buffersInFlight[s] == 0
      {
        assert Users(tracker.framesInFlight, s) == {};
      }
      tracker.maxBuffers := limits;
      res := outcome;
      if outcome == Ok {
        tracker.SetStreamConfiguration(streams);
        settingsSet := false;
        OrderExtends(events, Configured);
        events := events + [Configured];
      } else if outcome != Invalid {
        tracker.ClearStreamConfiguration();
        OrderExtends(events, ConfigurationLost);
        events := events + [ConfigurationLost];
      }
    }

    /** The framework respects the limits, names an output and has given settings for the configuration. */
    ghost predicate MayCapture(frameNumber: nat, settingsEmpty: bool, inputStream: Option<StreamId>,
                               outputStreams: seq<StreamId>)
      reads this, tracker
    {
      && MayAdd(tracker.buffersInFlight.Keys, tracker.framesInFlight, tracker.maxBuffers, frameNumber, inputStream,
                outputStreams)
      && (settingsEmpty ==> settingsSet) && outputStreams != []
    }

    /** Accepts a capture request: a new object is tracked from now on, or nothing changes. */
    method ProcessCaptureRequest(frameNumber: nat, settingsEmpty: bool, inputStream: Option<StreamId>,
                                 outputStreams: seq<StreamId>,
                                 settingsValid: bool, buffersReady: bool) returns (res: Status, request: CaptureRequest)
      requires Valid()
      modifies this`settingsSet, this`accepted, this`events, tracker`buffersInFlight, tracker`framesInFlight
      ensures Valid() && fresh(request)
      ensures request.frameNumber == frameNumber && request.settingsEmpty == settingsEmpty
              && request.inputStream == inputStream && request.outputStreams == outputStreams
      ensures res == Ok <==> old(MayCapture(frameNumber, settingsEmpty, inputStream, outputStreams)) && settingsValid
                             && buffersReady
      ensures res == NoDevice <==> old(MayCapture(frameNumber, settingsEmpty, inputStream, outputStreams))
                                   && settingsValid && !buffersReady
      ensures res != Ok && res != NoDevice ==> res == Invalid
      ensures res == Ok ==>
              settingsSet && accepted == old(accepted) + [request] && events == old(events) + [Accepted(request)]
                            && tracker.framesInFlight == old(tracker.framesInFlight)[frameNumber := request]
      ensures res != Ok ==> unchanged(this) && unchanged(tracker)
    {
      request := new CaptureRequest(frameNumber, settingsEmpty, inputStream, outputStreams);
      tracker.HasRoomIff(frameNumber, inputStream, outputStreams);
      if !tracker.CanAddRequest(request) {
        return Invalid, request;
      }
      if request.settingsEmpty && !settingsSet {
        return Invalid, request;
      }
      if !settingsValid {
        return Invalid, request;
      }
      if |request.outputStreams| <= 0 {
        return Invalid, request;
      }
      if !buffersReady {
        return NoDevice, request;
      }
      Accept(request);
      res := Ok;
    }

    /** The tracker takes a request that passed every check. */
    method Accept(request: CaptureRequest)
      requires Valid() && request !in accepted && tracker.CanAddRequest(request) && request.outputStreams != []
      requires settingsSet || !request.settingsEmpty
      modifies this`settingsSet, this`accepted, this`events, tracker`buffersInFlight, tracker`framesInFlight
      ensures Valid() && settingsSet && accepted == old(accepted) + [request]
              && events == old(events) + [Accepted(request)]
      ensures tracker.framesInFlight == old(tracker.framesInFlight)[request.frameNumber := request]
    {
      assert request.outputStreams[0] in request.Streams();
      AcceptedAccounted(accepted, tracker.framesInFlight, answers, request);
      Track(request);
      Record(request);
    }

    /** The history of a request that is tracked now. */
    method Record(request: CaptureRequest)
      requires tracker.Valid() && AllAccounted(accepted + [request], tracker.framesInFlight, answers)
      requires callbacks == AllCallbacks(answers) && WellOrdered(events) && AcceptedIn(events) == accepted
      requires SetupAfter(events) != Unconfigured && (SetupAfter(events) == Fresh ==> !request.settingsEmpty)
      modifies this`settingsSet, this`accepted, this`events
      ensures Valid() && settingsSet && accepted == old(accepted) + [request]
              && events == old(events) + [Accepted(request)]
    {
      OrderExtends(events, Accepted(request));
      settingsSet := true;
      accepted := accepted + [request];
      events := events + [Accepted(request)];
    }

    method Track(request: CaptureRequest)
      requires tracker.Valid() && tracker.CanAddRequest(request)
      modifies tracker`buffersInFlight, tracker`framesInFlight
      ensures tracker.Valid() && tracker.buffersInFlight.Keys == old(tracker.buffersInFlight).Keys
      ensures tracker.framesInFlight == old(tracker.framesInFlight)[request.frameNumber := request]
    {
      var added := tracker.Add(request);
      if !added {
        assert false;
      }
    }

    method NotifyShutter(frameNumber: nat, timestamp: int)
      modifies this`callbacks
      ensures callbacks == old(callbacks) + [Shutter(frameNumber, timestamp)]
    {
      callbacks := callbacks + [Shutter(frameNumber, timestamp)];
    }

    method SendResult(request: CaptureRequest)
      modifies this`callbacks
      ensures callbacks == old(callbacks) + [Result(request)]
    {
      callbacks := callbacks + [Result(request)];
    }

    method CompleteRequestWithError(request: CaptureRequest)
      modifies this`callbacks
      ensures callbacks == old(callbacks) + CallbacksOf(Answer(request, None))
    {
      callbacks := callbacks + [RequestError(request.frameNumber)];
      SendResult(request);
    }

    method SendAnswer(request: CaptureRequest, failed: bool, timestamp: Option<int>)
      modifies this`callbacks
      ensures callbacks == old(callbacks) + CallbacksOf(Answer(request, if failed then None else timestamp))
    {
      if failed {
        CompleteRequestWithError(request);
      } else if timestamp.None? {
        CompleteRequestWithError(request);
      } else {
        NotifyShutter(request.frameNumber, timestamp.value);
        SendResult(request);
      }
    }

    /** The device is done with a request. Only a request that is in flight, the very same object, is
      answered; a late or repeated completion changes nothing, whatever its frame number. */
    method CompleteRequest(request: CaptureRequest, failed: bool, timestamp: Option<int>)
      requires Valid()
      modifies this`callbacks, this`answers, tracker`buffersInFlight, tracker`framesInFlight
      ensures Valid() && tracker.framesInFlight.Values == old(tracker.framesInFlight).Values - {request}
      ensures request !in old(tracker.framesInFlight).Values ==> unchanged(this) && unchanged(tracker)
      ensures request in old(tracker.framesInFlight).Values ==>
                var answer := Answer(request, if failed then None else timestamp);
                answers == old(answers) + [answer] && callbacks == old(callbacks) + CallbacksOf(answer)
    {
      var removed := tracker.Remove(request);
      if !removed {
        return;
      }
      ghost var answer := Answer(request, if failed then None else timestamp);
      SendAnswer(request, failed, timestamp);
      AnsweredAccounted(accepted, old(tracker.framesInFlight), answers, answer, tracker.framesInFlight);
      CallbacksExtend(answers, answer);
      answers := answers + [answer];
    }

    /** Answers everything in flight with an error, in some order. */
    method Flush()
      requires Valid()
      modifies this`callbacks, this`answers, tracker`buffersInFlight, tracker`framesInFlight
      ensures Valid() && tracker.Empty() && tracker.buffersInFlight.Keys == old(tracker.buffersInFlight.Keys)
      ensures FlushedFrom(old(answers), answers, old(tracker.framesInFlight).Values)
    {
      ghost var left, all, before := tracker.framesInFlight, tracker.framesInFlight.Values, answers;
      var todo := tracker.Clear();
      while todo != {}
        modifies this`callbacks, this`answers
        invariant todo == left.Values && todo <= all && Tracks(left)
        invariant AllAccounted(accepted, left, answers) && callbacks == AllCallbacks(answers)
        invariant FlushedFrom(before, answers, all - todo)
        decreases todo
      {
        var request :| request in todo;
        FlushedOne(before, answers, all, todo, request);
        left := FlushOne(request, left);
        todo := todo - {request};
      }
      assert all - todo == all;
    }

    /** Answers one of the requests that were in flight with an error. */
    method FlushOne(request: CaptureRequest, ghost left: Frames) returns (ghost rest: Frames)
      requires request in left.Values && Tracks(left)
      requires AllAccounted(accepted, left, answers) && callbacks == AllCallbacks(answers)
      modifies this`callbacks, this`answers
      ensures answers == old(answers) + [Answer(request, None)]
      ensures rest.Values == left.Values - {request} && Tracks(rest)
      ensures AllAccounted(accepted, rest, answers) && callbacks == AllCallbacks(answers)
    {
      RemovedValues(left, request);
      CompleteRequestWithError(request);
      rest := left - {request.frameNumber};
      AnsweredAccounted(accepted, left, answers, Answer(request, None), rest);
      CallbacksExtend(answers, Answer(request, None));
      answers := answers + [Answer(request, None)];
    }

    ghost predicate Tracks(frames: Frames) {
      forall f | f in frames :: frames[f].frameNumber == f
    }

    method Close() returns (res: Status)
      requires Valid()
      modifies this`callbacks, this`answers, this`busy, tracker`buffersInFlight, tracker`framesInFlight
      ensures Valid() && (res == Ok <==> old(busy))
      ensures res == Ok ==> !busy && tracker.Empty() && Requests(answers) == (set r | r in accepted)
      ensures res != Ok ==> unchanged(this) && unchanged(tracker)
    {
      if !busy {
        return Invalid;
      }
      Flush();
      busy := false;
      res := Ok;
    }

    /** Performs any interleaving of framework calls and device completions. However they interleave,
      every accepted request is in flight or answered exactly once, counters match the requests in
      flight, and configurations are respected. */
    method Run(steps: seq<CameraStep>)
      requires Valid()
      modifies this, tracker
      ensures Valid()
      ensures tracker.Empty() ==> Requests(answers) == (set r | r in accepted)
    {
      for i := 0 to |steps|
        invariant Valid()
      {
        Perform(steps[i]);
      }
    }

    method Perform(step: CameraStep)
      requires Valid()
      modifies this, tracker
      ensures Valid()
    {
      match step
      case Open(connects) => var _ := OpenDevice(connects);
      case Configure(streams, formats, outcome, limits) =>
        if (forall s | s in streams :: s in limits && s in formats) && tracker.buffersInFlight.Keys <= limits.Keys {
          var table := new FormatTable(formats);
          var _ := ConfigureStreams(streams, table, outcome, limits);
        }
      case Capture(frameNumber, settingsEmpty, inputStream, outputStreams, settingsValid, buffersReady) =>
        var _, _ :=
          ProcessCaptureRequest(frameNumber, settingsEmpty, inputStream, outputStreams, settingsValid, buffersReady);
      case Complete(n, failed, timestamp) =>
        if n < |accepted| {
          CompleteRequest(accepted[n], failed, timestamp);
        }
      case FlushAll => Flush();
      case CloseDevice => var _ := Close();
    }
  }

  /** A call of the framework, or a device thread completing the n-th request ever accepted. */
  datatype CameraStep =
    | Open(connects: bool)
    | Configure(streams: seq<StreamId>, formats: map<StreamId, PixelFormat>, outcome: Status,
                limits: map<StreamId, nat>)
    | Capture(frameNumber: nat, settingsEmpty: bool, inputStream: Option<StreamId>, outputStreams: seq<StreamId>,
              settingsValid: bool, buffersReady: bool)
    | Complete(n: nat, failed: bool, timestamp: Option<int>)
    | FlushAll
    | CloseDevice
}
