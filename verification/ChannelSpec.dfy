/** The value of a channel (builder, compressor output and transaction records together)
    and what each operation does to it. */
module ChannelSpec {
  import opened Chain
  import opened Frames
  import opened Options

  /** Why a channel is full, and why its timeout is what it is. */
  datatype Reason =
    | NoReason
    | CompressorFull
    | TooManyRLPBytes
    | MaxDurationReached
    | ChannelTimeoutClose
    | SeqWindowClose
    | Terminated

  /** What a channel out says to one more block. */
  datatype AddResult =
    | Accepted(produced: nat, full: bool)
    | Refused(reason: Reason)
    | Failed

  /** A compression pipeline, by what it is going to do: its answers to the blocks it will be
      offered, in turn, and the bytes that closing it flushes. Without an answer left it fails. */
  datatype Compressor = Compressor(answers: seq<AddResult>, flush: nat)
  {
    function Answer(): AddResult { if answers == [] then Failed else answers[0] }

    function Next(): Compressor { if answers == [] then this else Compressor(answers[1..], flush) }
  }

  datatype AddOutcome = Added | ChannelFull | AddFailed

  /** The deadlines are uint64 sums and differences. */
  function DurationDeadline(cfg: Config, l1: nat): nat {
    (l1 + cfg.maxChannelDuration) % TWO64
  }

  function SeqWindowDeadline(cfg: Config, l1: nat): nat {
    (l1 + cfg.seqWindowSize - cfg.subSafetyMargin) % TWO64
  }

  function InclusionDeadline(cfg: Config, l1: nat): nat {
    (l1 + cfg.channelTimeout - cfg.subSafetyMargin) % TWO64
  }

  /** The L1 block number timeout of a channel, 0 if unset, and its reason. `openedAt` and
      `deadlines` are history: the L1 block the channel was opened with and every deadline it
      was ever offered. */
  datatype Clock = Clock(timeout: nat, reason: Reason, openedAt: nat, deadlines: seq<nat>)
  {
    function Offer(deadline: nat, r: Reason): Clock {
      if timeout == 0 || timeout > deadline
      then Clock(deadline, r, openedAt, deadlines + [deadline])
      else Clock(timeout, reason, openedAt, deadlines + [deadline])
    }
  }

  /** `nextFrame`, `ready` and `closed` are the state of the channel out. `inclusions` is history:
      the L1 block of every confirmation, which `confirmed` does not keep if a transaction that was
      sent again is confirmed again. */
  datatype Chan = Chan(
    id: ChId,
    cfg: Config,
    comp: Compressor,
    clock: Clock,
    fullErr: Option<Reason>,
    blocks: seq<Block>,
    latestL1Origin: nat,
    latestL2: nat,
    nextFrame: nat,
    ready: nat,
    closed: bool,
    frames: seq<Frame>,
    frameCursor: nat,
    pending: map<TxId, TxData>,
    confirmed: map<TxId, nat>,
    minInclusion: nat,
    maxInclusion: nat,
    inclusions: seq<nat>)
  {
    predicate IsFull() { fullErr.Some? }

    predicate HasPendingFrame() { frameCursor < |frames| }

    predicate HasTxData() {
      if IsFull() || !cfg.useBlobs then HasPendingFrame()
      else |frames| - frameCursor >= cfg.MaxFramesPerTx()
    }

    predicate NoneSubmitted() { |confirmed| == 0 && |pending| == 0 }

    predicate IsFullySubmitted() { IsFull() && |pending| + (|frames| - frameCursor) == 0 }

    predicate IsTimedOut() { |confirmed| > 0 && maxInclusion - minInclusion >= cfg.channelTimeout }

    function SetFull(reason: Reason): Chan { this.(fullErr := Some(reason)) }

    function CheckTimeout(head: nat): Chan {
      if clock.timeout != 0 && !IsFull() && head >= clock.timeout then SetFull(clock.reason) else this
    }

    function Close(): Chan { if IsFull() then this else SetFull(Terminated) }

    /** The channel after the channel out took `b`. */
    function Take(b: Block, produced: nat, full: bool): Chan {
      this.(comp := comp.Next(),
            blocks := blocks + [b],
            ready := ready + produced,
            clock := clock.Offer(SeqWindowDeadline(cfg, b.l1Origin), SeqWindowClose),
            latestL1Origin := if b.l1Origin > latestL1Origin then b.l1Origin else latestL1Origin,
            latestL2 := if b.number > latestL2 then b.number else latestL2,
            fullErr := if full then Some(CompressorFull) else fullErr)
    }

    function AddBlock(b: Block): (Chan, AddOutcome) {
      if IsFull() then (this, ChannelFull)
      else if closed then (this, AddFailed)
      else match comp.Answer()
        case Refused(reason) => (SetFull(reason).(comp := comp.Next()), ChannelFull)
        case Failed => (this.(comp := comp.Next()), AddFailed)
        case Accepted(produced, full) => (Take(b, produced, full), Added)
    }

    /** Emits one frame; the flag is set for the last frame of a closed channel. */
    function OutputFrame(): (Chan, bool)
      requires cfg.Check()
    {
      var room := cfg.maxFrameSize - FRAME_OVERHEAD;
      var n := if room >= ready then ready else room;
      (this.(frames := frames + [Frame(FrameId(id, nextFrame), n + FRAME_OVERHEAD)],
             nextFrame := nextFrame + 1,
             ready := ready - n),
       room >= ready && closed)
    }

    function OutputReadyFrames(): Chan
      requires cfg.Usable()
      decreases ready
    {
      if ready + FRAME_OVERHEAD >= cfg.maxFrameSize then
        var (c, last) := OutputFrame();
        if last then c else c.OutputReadyFrames()
      else
        this
    }

    function Drain(): Chan
      requires cfg.Usable() && closed
      decreases ready
    {
      var (c, last) := OutputFrame();
      if last then c else c.Drain()
    }

    /** The flag says that no error occurred. */
    function OutputFrames(): (Chan, bool)
      requires cfg.Usable()
    {
      if !IsFull() then (OutputReadyFrames(), true)
      else if closed then (this, false)
      else (this.(closed := true, ready := ready + comp.flush).Drain(), true)
    }

    /** The number of frames the next transaction takes. */
    function NextTxLength(): nat
      requires frameCursor <= |frames|
      requires cfg.Check()
    {
      var avail := |frames| - frameCursor;
      if cfg.MaxFramesPerTx() <= avail then cfg.MaxFramesPerTx() else avail
    }

    function NextTxData(): (Chan, TxData)
      requires frameCursor <= |frames|
      requires cfg.Check()
    {
      var n := NextTxLength();
      var tx := TxData(frames[frameCursor..frameCursor + n], cfg.useBlobs);
      (this.(frameCursor := frameCursor + n, pending := pending[tx.Id() := tx]), tx)
    }

    /** Moves the cursor back to `f`; None is a panic. */
    function RewindFrameCursor(f: Frame): Option<Chan> {
      var k := f.id.number;
      if |frames| <= k || frames[k].size != f.size || frames[k].id.chId != f.id.chId then None
      else if frameCursor > k then Some(this.(frameCursor := k))
      else Some(this)
    }

    /** None is a panic. */
    function TxFailed(txId: TxId): Option<Chan> {
      if txId !in pending then Some(this)
      else if pending[txId].frames == [] then None
      else match RewindFrameCursor(pending[txId].frames[0])
        case None => None
        case Some(c) => Some(c.(pending := pending - {txId}))
    }

    /** Moves a transaction to the confirmed ones. */
    function Record(txId: TxId, inclusion: nat): Chan {
      this.(pending := pending - {txId},
            confirmed := confirmed[txId := inclusion],
            clock := clock.Offer(InclusionDeadline(cfg, inclusion), ChannelTimeoutClose),
            minInclusion := if inclusion < minInclusion then inclusion else minInclusion,
            maxInclusion := if inclusion > maxInclusion then inclusion else maxInclusion,
            inclusions := inclusions + [inclusion])
    }

    /** The flag says that the channel timed out on chain. */
    function TxConfirmed(txId: TxId, inclusion: nat): (Chan, bool) {
      if txId !in pending then (this, false)
      else
        var c := Record(txId, inclusion);
        (c, c.IsTimedOut())
    }
  }

  function NewChan(id: ChId, comp: Compressor, cfg: Config, l1: nat): Chan {
    var clock := Clock(0, NoReason, l1, []);
    Chan(id, cfg, comp,
         if cfg.maxChannelDuration == 0 then clock
         else clock.Offer(DurationDeadline(cfg, l1), MaxDurationReached),
         None, [], 0, 0, 0, 0, false, [], 0, map[], map[], TWO64 - 1, 0, [])
  }

  /** Adds blocks until one is not taken or the channel is full. Returns the number of
      blocks added and whether the loop ended without an error. */
  function AddBlocks(c: Chan, bs: seq<Block>): (r: (Chan, nat, bool))
    ensures r.1 <= |bs|
    decreases |bs|
  {
    if bs == [] then (c, 0, true)
    else
      var (c', o) := c.AddBlock(bs[0]);
      match o
      case ChannelFull => (c', 0, true)
      case AddFailed => (c', 0, false)
      case Added =>
        if c'.IsFull() then (c', 1, true)
        else
          var (c'', n, ok) := AddBlocks(c', bs[1..]);
          (c'', n + 1, ok)
  }
}
