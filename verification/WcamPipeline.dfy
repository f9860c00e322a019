/** The byte pipeline of the webcam microphone: received bytes are cut into blocks, resampled and
  queued for in_read. */
module WcamPipeline {
  import opened Wrappers

  const MAX_AUDIO_BUFFER := 1920000
  const BLOCK := 4096

  function Concat(blocks: seq<seq<byte>>): seq<byte> {
    if blocks == [] then [] else Concat(blocks[..|blocks| - 1]) + blocks[|blocks| - 1]
  }

  /** What one recv() yields: an error, an orderly end, or bytes, at most as many as asked for. */
  datatype Received = Failed | Ended | Bytes(data: seq<byte>)

  /** A block moves from the front of the buffered bytes to the end of the blocks. */
  lemma BlockTaken(blocks: seq<seq<byte>>, block: seq<byte>, rest: seq<byte>)
    ensures Concat(blocks + [block]) + rest == Concat(blocks) + (block + rest)
  {
    assert (blocks + [block])[..|blocks|] == blocks;
  }

  class Pipeline {
    const recvBuf: array<byte>   // audio_recv_buf
    var recvSize: nat            // audio_recv_buf_size
    const sendBuf: array<byte>   // audio_send_buf
    var sendSize: nat            // audio_send_buf_size
    // history since the last reset
    ghost var received: seq<byte>
    ghost var blocks: seq<seq<byte>>
    ghost var accepted: seq<seq<byte>>
    ghost var delivered: seq<byte>

    /** Between iterations of the receive loop. The blocks given to the resampler followed by the
      buffered bytes are the bytes received, in order; what was delivered followed by the queue is
      the accepted converted blocks, in order. */
    ghost predicate Valid()
      reads this, recvBuf, sendBuf
    {
      && recvBuf != sendBuf && recvBuf.Length == sendBuf.Length == MAX_AUDIO_BUFFER
      && recvSize <= MAX_AUDIO_BUFFER - BLOCK && sendSize <= MAX_AUDIO_BUFFER
      && (forall k | 0 <= k < |blocks| :: |blocks[k]| == BLOCK)
      && received == Concat(blocks) + recvBuf[..recvSize]
      && Concat(accepted) == delivered + sendBuf[..sendSize]
    }

    constructor ()
      ensures Valid() && recvSize == 0 && sendSize == 0 && fresh(recvBuf) && fresh(sendBuf)
      ensures received == [] && blocks == [] && accepted == [] && delivered == []
    {
      recvBuf := new byte[MAX_AUDIO_BUFFER](_ => 0);
      sendBuf := new byte[MAX_AUDIO_BUFFER](_ => 0);
      recvSize, sendSize := 0, 0;
      received, blocks, accepted, delivered := [], [], [], [];
    }

    /** in_read opening the microphone: both buffers are emptied. */
    method Reset()
      requires Valid()
      modifies this
      ensures Valid() && recvSize == 0 && sendSize == 0 && received == [] && accepted == [] && blocks == []
              && delivered == []
    {
      recvSize, sendSize := 0, 0;
      received, blocks, accepted, delivered := [], [], [], [];
    }

    /** One iteration of the receive loop. A full block, if there is one, goes to the resampler; its
      conversion is queued unless the queue is too full for it. */
    method Receive(input: Received, resample: seq<byte> -> seq<byte>) returns (ended: bool)
      requires Valid()
      requires input.Bytes? ==> 0 < |input.data| <= MAX_AUDIO_BUFFER - recvSize
      modifies this, recvBuf, sendBuf
      ensures Valid() && ended == input.Ended? && delivered == old(delivered)
      ensures received == old(received) + (if input.Bytes? then input.data else [])
      ensures |Concat(old(blocks))| + old(recvSize) + (if input.Bytes? then |input.data| else 0)
              == |Concat(blocks)| + recvSize
      ensures recvSize
              == old(recvSize)
                + (if input.Bytes? then |input.data| else 0) - (if blocks == old(blocks) then 0 else BLOCK)
      ensures blocks == old(blocks) || (|blocks| == |old(blocks)| + 1 && old(blocks) < blocks)
      ensures blocks == old(blocks) ==> accepted == old(accepted) && recvSize <= BLOCK
      ensures blocks != old(blocks) ==>
                var converted := resample(blocks[|blocks| - 1]);
                accepted ==
                  if converted != [] && old(sendSize) + |converted| <= MAX_AUDIO_BUFFER then
                    old(accepted) + [converted] else old(accepted)
    {
      ended := input.Ended?;
      if recvSize >= MAX_AUDIO_BUFFER {
        assert false;  // wcamSocketThread drops a full buffer here; it never is full
      }
      if input.Bytes? {
        StoreReceived(input.data);
      }
      if recvSize > BLOCK {
        var block := TakeBlock();
        var converted := resample(block);
        if |converted| > 0 {
          Queue(converted);
        }
      }
    }

    /** The bytes of one recv() land behind those already buffered. */
    method StoreReceived(data: seq<byte>)
      requires Valid() && |data| <= MAX_AUDIO_BUFFER - recvSize
      modifies this`recvSize, this`received, recvBuf
      ensures recvSize == old(recvSize) + |data| <= MAX_AUDIO_BUFFER && received == old(received) + data
      ensures received == Concat(blocks) + recvBuf[..recvSize]
    {
      ghost var before := recvBuf[..recvSize];
      forall i | 0 <= i < |data| {
        recvBuf[recvSize + i] := data[i];
      }
      recvSize := recvSize + |data|;
      received := received + data;
      assert recvBuf[..recvSize] == before + data;
    }

    /** Cuts the oldest block off the buffered bytes. */
    method TakeBlock() returns (block: seq<byte>)
      requires BLOCK < recvSize <= MAX_AUDIO_BUFFER == recvBuf.Length
               && received == Concat(blocks) + recvBuf[..recvSize]
      modifies this`recvSize, this`blocks, recvBuf
      ensures recvSize == old(recvSize) - BLOCK && |block| == BLOCK && blocks == old(blocks) + [block]
      ensures received == Concat(blocks) + recvBuf[..recvSize]
    {
      ghost var all := recvBuf[..recvSize];
      block := recvBuf[..BLOCK];
      recvSize := recvSize - BLOCK;
      forall i | 0 <= i < recvSize {
        recvBuf[i] := recvBuf[BLOCK + i];
      }
      blocks := blocks + [block];
      assert all == block + recvBuf[..recvSize];
      BlockTaken(old(blocks), block, recvBuf[..recvSize]);
    }

    /** Queues a converted block, or drops it when it does not fit. */
    method Queue(converted: seq<byte>)
      requires sendBuf.Length == MAX_AUDIO_BUFFER && sendSize <= MAX_AUDIO_BUFFER
      requires Concat(accepted) == delivered + sendBuf[..sendSize]
      modifies this`sendSize, this`accepted, sendBuf
      ensures sendSize <= MAX_AUDIO_BUFFER && Concat(accepted) == delivered + sendBuf[..sendSize]
      ensures accepted ==
              if old(sendSize) + |converted| <= MAX_AUDIO_BUFFER then old(accepted) + [converted] else old(accepted)
    {
      if sendSize + |converted| > MAX_AUDIO_BUFFER {
        return;
      }
      ghost var before := sendBuf[..sendSize];
      forall i | 0 <= i < |converted| {
        sendBuf[sendSize + i] := converted[i];
      }
      sendSize := sendSize + |converted|;
      accepted := accepted + [converted];
      assert accepted[..|accepted| - 1] == old(accepted);
      assert sendBuf[..sendSize] == before + converted;
    }

    /** in_read: the full request from the head of the queue, or nothing. */
    method InRead(bytes: nat) returns (data: seq<byte>)
      requires Valid()
      modifies this`sendSize, this`delivered, sendBuf
      ensures Valid() && received == old(received) && accepted == old(accepted)
      ensures data != [] ==> |data| == bytes
      ensures |data| == bytes <==> bytes <= old(sendSize)
      ensures delivered == old(delivered) + data && delivered <= Concat(accepted)
    {
      if sendSize >= bytes {
        ghost var all := sendBuf[..sendSize];
        data := sendBuf[..bytes];
        sendSize := sendSize - bytes;
        forall i | 0 <= i < sendSize {
          sendBuf[i] := sendBuf[bytes + i];
        }
        delivered := delivered + data;
        assert all == data + sendBuf[..sendSize];
      } else {
        data := [];
      }
      assert delivered + [] == delivered;
    }

    /** Any interleaving of receiving, reading and resetting keeps both orders. */
    method Run(steps: seq<PipelineStep>)
      requires Valid()
      modifies this, recvBuf, sendBuf
      ensures Valid() && delivered <= Concat(accepted) && Concat(blocks) <= received
    {
      for i := 0 to |steps|
        invariant Valid()
      {
        match steps[i]
        case ReceiveStep(input, resample) =>
          if input.Bytes? ==> 0 < |input.data| <= MAX_AUDIO_BUFFER - recvSize {
            var _ := Receive(input, resample);
          }
        case ReadStep(bytes) => var _ := InRead(bytes);
        case ResetStep => Reset();
      }
    }
  }

  datatype PipelineStep = ReceiveStep(input: Received,
    resample: seq<byte> -> seq<byte>) | ReadStep(bytes: nat) | ResetStep

  /** Blocks of equal length are told apart by position: the k-th block is the k-th stretch. */
  lemma {:induction false} BlocksInOrder(blocks: seq<seq<byte>>, k: nat)
    requires k < |blocks| && forall j | 0 <= j < |blocks| :: |blocks[j]| == BLOCK
    ensures |Concat(blocks)| == |blocks| * BLOCK
    ensures Concat(blocks)[k * BLOCK..k * BLOCK + BLOCK] == blocks[k]
  {
    var n := |blocks| - 1;
    if n == 0 {
      assert blocks[..0] == [];
    } else if k < n {
      BlocksInOrder(blocks[..n], k);
    } else {
      BlocksInOrder(blocks[..n], 0);
    }
  }
}
