/** Bookkeeping of the capture requests in flight and of the buffers they use per stream. */
module RequestTracking {
  import opened Wrappers

  type StreamId = nat

  class CaptureRequest {
    const frameNumber: nat
    const settingsEmpty: bool
    const inputStream: Option<StreamId>
    const outputStreams: seq<StreamId>

    constructor (frameNumber: nat, settingsEmpty: bool, inputStream: Option<StreamId>, outputStreams: seq<StreamId>)
      ensures this.frameNumber == frameNumber && this.settingsEmpty == settingsEmpty
      ensures this.inputStream == inputStream && this.outputStreams == outputStreams
    {
      this.frameNumber, this.settingsEmpty := frameNumber, settingsEmpty;
      this.inputStream, this.outputStreams := inputStream, outputStreams;
    }

    /** The streams a request uses, each once. */
    function Streams(): set<StreamId> {
      StreamsOf(inputStream, outputStreams)
    }
  }

  function StreamsOf(inputStream: Option<StreamId>, outputStreams: seq<StreamId>): set<StreamId> {
    (if inputStream.Some? then {inputStream.value} else {}) + (set s | s in outputStreams)
  }

  type Frames = map<nat, CaptureRequest>

  /** The frame numbers in flight that use a stream. */
  ghost function Users(frames: Frames, s: StreamId): set<nat> {
    set f | f in frames && s in frames[f].Streams()
  }

  lemma UsersOfAdded(frames: Frames, f: nat, r: CaptureRequest, s: StreamId)
    requires f !in frames
    ensures |Users(frames[f := r], s)| == |Users(frames, s)| + if s in r.Streams() then 1 else 0
  {
    var after, uses := frames[f := r], s in r.Streams();
    forall g
      ensures g in Users(after, s) <==> g in Users(frames, s) || (uses && g == f)
    {
      assert g != f && g in frames ==> after[g] == frames[g];
    }
    assert Users(after, s) == if uses then Users(frames, s) + {f} else Users(frames, s);
  }

  lemma UsersOfRemoved(frames: Frames, f: nat, s: StreamId)
    requires f in frames
    ensures |Users(frames, s)| == |Users(frames - {f}, s)| + if s in frames[f].Streams() then 1 else 0
  {
    if s in frames[f].Streams() {
      assert Users(frames, s) == Users(frames - {f}, s) + {f};
    } else {
      assert Users(frames, s) == Users(frames - {f}, s);
    }
  }

  /** Each configured stream's counter is the number of requests in flight that use it and within the
    stream's limit; requests in flight use configured streams only. */
  ghost predicate Tracked(buffers: map<StreamId, nat>, frames: Frames, maxBuffers: map<StreamId, nat>) {
    && (forall s | s in buffers :: s in maxBuffers && buffers[s] == |Users(frames, s)| <= maxBuffers[s])
    && (forall f | f in frames :: frames[f].frameNumber == f)
    && (forall f | f in frames :: frames[f].Streams() <= buffers.Keys)
  }

  /** What the framework may ask for: a frame number that is not in flight, and on each stream named, as input
    or output, fewer requests in flight than it has buffers; only configured streams have any. */
  ghost predicate MayAdd(configured: set<StreamId>, frames: Frames, maxBuffers: map<StreamId, nat>, frameNumber: nat,
                         inputStream: Option<StreamId>, outputStreams: seq<StreamId>) {
    && frameNumber !in frames
    && forall s: StreamId | inputStream == Some(s) || s in outputStreams ::
         s in configured && s in maxBuffers && |Users(frames, s)| < maxBuffers[s]
  }

  /** A request uses its input and its outputs, and nothing else. */
  lemma StreamsAreNamed(inputStream: Option<StreamId>, outputStreams: seq<StreamId>, s: StreamId)
    ensures s in StreamsOf(inputStream, outputStreams) <==> inputStream == Some(s) || s in outputStreams
  {
  }

  lemma AddedTracked(buffers: map<StreamId, nat>, frames: Frames, maxBuffers: map<StreamId, nat>, r: CaptureRequest,
                     after: map<StreamId, nat>)
    requires Tracked(buffers, frames, maxBuffers) && r.frameNumber !in frames
    requires forall s | s in r.Streams() :: s in buffers && buffers[s] < maxBuffers[s]
    requires after.Keys == buffers.Keys
    requires forall s | s in buffers :: after[s] == buffers[s] + if s in r.Streams() then 1 else 0
    ensures Tracked(after, frames[r.frameNumber := r], maxBuffers)
  {
    forall s | s in after
      ensures s in maxBuffers && after[s] == |Users(frames[r.frameNumber := r], s)| <= maxBuffers[s]
    {
      UsersOfAdded(frames, r.frameNumber, r, s);
    }
    assert r.Streams() <= after.Keys;
  }

  lemma TrackedIsCounted(buffers: map<StreamId, nat>, frames: Frames, maxBuffers: map<StreamId, nat>, r: CaptureRequest)
    requires Tracked(buffers, frames, maxBuffers) && r.frameNumber in frames && frames[r.frameNumber] == r
    ensures forall s | s in r.Streams() :: s in buffers && buffers[s] > 0
  {
    assert r.Streams() <= buffers.Keys;
    forall s | s in r.Streams()
      ensures buffers[s] > 0
    {
      UsersOfRemoved(frames, r.frameNumber, s);
    }
  }

  lemma RemovedTracked(buffers: map<StreamId, nat>, frames: Frames, maxBuffers: map<StreamId, nat>, r: CaptureRequest,
                       after: map<StreamId, nat>)
    requires Tracked(buffers, frames, maxBuffers) && r.frameNumber in frames && frames[r.frameNumber] == r
    requires after.Keys == buffers.Keys
    requires forall s | s in buffers :: after[s] + (if s in r.Streams() then 1 else 0) == buffers[s]
    ensures Tracked(after, frames - {r.frameNumber}, maxBuffers)
  {
    var rest := frames - {r.frameNumber};
    forall s | s in after
      ensures s in maxBuffers && after[s] == |Users(rest, s)| <= maxBuffers[s]
    {
      UsersOfRemoved(frames, r.frameNumber, s);
    }
    forall f | f in rest
      ensures rest[f].frameNumber == f && rest[f].Streams() <= after.Keys
    {
      assert rest[f] == frames[f];
    }
  }

  /** Removing a request's own entry removes just that request. */
  lemma RemovedValues(frames: Frames, r: CaptureRequest)
    requires forall f | f in frames :: frames[f].frameNumber == f
    ensures r in frames.Values <==> r.frameNumber in frames && frames[r.frameNumber] == r
    ensures r in frames.Values ==> (frames - {r.frameNumber}).Values == frames.Values - {r}
    ensures r !in frames.Values ==> frames.Values == frames.Values - {r}
  {
    if r in frames.Values {
      var rest := frames - {r.frameNumber};
      forall v
        ensures v in rest.Values <==> v in frames.Values && v != r
      {
        if v in frames.Values && v != r {
          assert v.frameNumber in rest && rest[v.frameNumber] == v;
        }
      }
    }
  }

  class RequestTracker {
    var buffersInFlight: map<StreamId, nat>
    var framesInFlight: Frames
    var maxBuffers: map<StreamId, nat>     // the max_buffers of the streams

    ghost predicate Valid()
      reads this
    {
      Tracked(buffersInFlight, framesInFlight, maxBuffers)
    }

    constructor ()
      ensures Valid() && buffersInFlight == map[] && framesInFlight == map[]
    {
      buffersInFlight, framesInFlight, maxBuffers := map[], map[], map[];
    }

    predicate Empty()
      reads this
    {
      framesInFlight == map[]
    }

    /** Unconfigured streams count as full. */
    predicate StreamFull(s: StreamId)
      reads this
    {
      s !in buffersInFlight || (s in maxBuffers && buffersInFlight[s] >= maxBuffers[s])
    }

    predicate CanAddRequest(r: CaptureRequest)
      reads this
    {
      HasRoom(r.frameNumber, r.Streams())
    }

    /** As CanAddRequest, for a request described by its number and streams. */
    predicate HasRoom(frameNumber: nat, streams: set<StreamId>)
      reads this
    {
      frameNumber !in framesInFlight && forall s | s in streams :: !StreamFull(s)
    }

    /** Requests are refused exactly when a limit is reached: the check accepts the last free buffer. */
    lemma HasRoomIff(frameNumber: nat, inputStream: Option<StreamId>, outputStreams: seq<StreamId>)
      requires Valid()
      ensures HasRoom(frameNumber, StreamsOf(inputStream, outputStreams)) <==>
              MayAdd(buffersInFlight.Keys, framesInFlight, maxBuffers, frameNumber, inputStream, outputStreams)
    {
      forall s: StreamId
        ensures s in StreamsOf(inputStream, outputStreams) <==> inputStream == Some(s) || s in outputStreams
      {
        StreamsAreNamed(inputStream, outputStreams, s);
      }
    }

    method SetStreamConfiguration(streams: seq<StreamId>)
      requires Empty() && forall s | s in streams :: s in maxBuffers
      modifies this`buffersInFlight
      ensures Valid() && buffersInFlight.Keys == (set s | s in streams)
    {
      ClearStreamConfiguration();
      for i := 0 to |streams|
        invariant buffersInFlight.Keys == set s | s in streams[..i]
        invariant forall s | s in buffersInFlight :: buffersInFlight[s] == 0
        invariant buffersInFlight.Keys <= maxBuffers.Keys && maxBuffers == old(maxBuffers)
                  && framesInFlight == old(framesInFlight)
      {
        assert streams[i] in streams;
        if streams[i] !in buffersInFlight {
          buffersInFlight := buffersInFlight[streams[i] := 0];
        }
        assert streams[..i + 1] == streams[..i] + [streams[i]];
      }
      assert streams[..|streams|] == streams;
      forall s | s in buffersInFlight
        ensures s in maxBuffers && Users(framesInFlight, s) == {}
      {
      }
    }

    method ClearStreamConfiguration()
      modifies this`buffersInFlight
      ensures buffersInFlight == map[]
      ensures Empty() ==> Valid()
    {
      buffersInFlight := map[];
    }

    /** Tracks a request unless its frame number is in use or one of its streams is full. */
    method Add(r: CaptureRequest) returns (ok: bool)
      requires Valid()
      modifies this`buffersInFlight, this`framesInFlight
      ensures Valid() && buffersInFlight.Keys == old(buffersInFlight.Keys)
      ensures ok == old(CanAddRequest(r))
                 == old(MayAdd(buffersInFlight.Keys, framesInFlight, maxBuffers, r.frameNumber, r.inputStream,
                               r.outputStreams))
      ensures framesInFlight == if ok then old(framesInFlight)[r.frameNumber := r] else old(framesInFlight)
      ensures !ok ==> buffersInFlight == old(buffersInFlight)
    {
      HasRoomIff(r.frameNumber, r.inputStream, r.outputStreams);
      if !CanAddRequest(r) {
        return false;
      }
      TakeStreams(r);
      AddedTracked(old(buffersInFlight), framesInFlight, maxBuffers, r, buffersInFlight);
      framesInFlight := framesInFlight[r.frameNumber := r];
      ok := true;
    }

    /** Takes one buffer on every stream of the request. */
    method TakeStreams(r: CaptureRequest)
      requires forall s | s in r.Streams() :: s in buffersInFlight
      modifies this`buffersInFlight
      ensures buffersInFlight.Keys == old(buffersInFlight.Keys)
      ensures forall s | s in buffersInFlight ::
                buffersInFlight[s] == old(buffersInFlight)[s] + if s in r.Streams() then 1 else 0
    {
      var todo := r.Streams();
      while todo != {}
        invariant todo <= r.Streams() && buffersInFlight.Keys == old(buffersInFlight.Keys)
        invariant forall s | s in buffersInFlight ::
                    buffersInFlight[s] == old(buffersInFlight)[s] + if s in r.Streams() && s !in todo then 1 else 0
        decreases todo
      {
        var s :| s in todo;
        buffersInFlight := buffersInFlight[s := buffersInFlight[s] + 1];
        todo := todo - {s};
      }
    }

    /** Gives back one buffer on every stream of the request. */
    method ReleaseStreams(r: CaptureRequest)
      requires forall s | s in r.Streams() :: s in buffersInFlight && buffersInFlight[s] > 0
      modifies this`buffersInFlight
      ensures buffersInFlight.Keys == old(buffersInFlight.Keys)
      ensures forall s | s in buffersInFlight ::
                buffersInFlight[s] + (if s in r.Streams() then 1 else 0) == old(buffersInFlight)[s]
    {
      var todo := r.Streams();
      while todo != {}
        invariant todo <= r.Streams() && buffersInFlight.Keys == old(buffersInFlight.Keys)
        invariant forall s | s in buffersInFlight ::
                    buffersInFlight[s] + (if s in r.Streams() && s !in todo then 1 else 0) == old(buffersInFlight)[s]
        decreases todo
      {
        var s :| s in todo;
        buffersInFlight := buffersInFlight[s := buffersInFlight[s] - 1];
        todo := todo - {s};
      }
    }

    /** Stops tracking exactly this request; another request with its frame number stays. */
    method Remove(r: CaptureRequest?) returns (ok: bool)
      requires Valid()
      modifies this`buffersInFlight, this`framesInFlight
      ensures Valid() && buffersInFlight.Keys == old(buffersInFlight.Keys)
      ensures ok <==> r != null && r in old(framesInFlight).Values
      ensures ok ==> framesInFlight == old(framesInFlight) - {r.frameNumber}
      ensures r != null ==> framesInFlight.Values == old(framesInFlight).Values - {r}
      ensures !ok ==> framesInFlight == old(framesInFlight) && buffersInFlight == old(buffersInFlight)
    {
      if r == null {
        return false;
      }
      RemovedValues(framesInFlight, r);
      if r.frameNumber !in framesInFlight || framesInFlight[r.frameNumber] != r {
        return false;
      }
      TrackedIsCounted(buffersInFlight, framesInFlight, maxBuffers, r);
      framesInFlight := framesInFlight - {r.frameNumber};
      ReleaseStreams(r);
      RemovedTracked(old(buffersInFlight), old(framesInFlight), maxBuffers, r, buffersInFlight);
      ok := true;
    }

    /** Empties the tracking, keeping the configuration, and reports what was tracked. */
    method Clear() returns (requests: set<CaptureRequest>)
      requires Valid()
      modifies this`buffersInFlight, this`framesInFlight
      ensures Valid() && Empty() && requests == old(framesInFlight).Values
      ensures buffersInFlight.Keys == old(buffersInFlight.Keys)
    {
      requests := framesInFlight.Values;
      framesInFlight := map[];
      buffersInFlight := map s | s in buffersInFlight :: 0;
      forall s | s in buffersInFlight
        ensures Users(framesInFlight, s) == {}
      {
      }
    }
  }
}
