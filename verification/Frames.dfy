/** Frames, the L1 transactions that carry them, and the channel configuration. */
module Frames {

  /** A channel ID; 0 stands for the all-zero ID. */
  type ChId = nat

  datatype FrameId = FrameId(chId: ChId, number: nat)

  /** An encoded frame. Only the length of its data matters here. */
  datatype Frame = Frame(id: FrameId, size: nat)

  /** The ID of a transaction is the list of the IDs of its frames. */
  type TxId = seq<FrameId>

  datatype TxData = TxData(frames: seq<Frame>, asBlob: bool)
  {
    function Id(): (r: TxId)
      ensures |r| == |frames|
      ensures forall i | 0 <= i < |r| :: r[i] == frames[i].id
    {
      seq(|frames|, i requires 0 <= i < |frames| => frames[i].id)
    }
  }

  /** The fixed part of an encoded frame: 16 + 2 + 4 + 1 bytes. */
  const FRAME_OVERHEAD := 23

  const SPAN_BATCH_TYPE := 1

  datatype Config = Config(
    seqWindowSize: nat,
    channelTimeout: nat,
    maxChannelDuration: nat,
    subSafetyMargin: nat,
    maxFrameSize: nat,
    targetNumFrames: int,
    batchType: nat,
    useBlobs: bool)
  {
    predicate Check() {
      && channelTimeout >= subSafetyMargin
      && maxFrameSize >= FRAME_OVERHEAD
      && batchType <= SPAN_BATCH_TYPE
      && targetNumFrames >= 1
    }

    /** A checked configuration whose frames have room for data. */
    predicate Usable() {
      Check() && maxFrameSize > FRAME_OVERHEAD
    }

    function MaxFramesPerTx(): int {
      if !useBlobs then 1 else targetNumFrames
    }
  }
}
