/** The channel as the batcher holds it: an object whose methods update its fields. Each
    method is proved against the value-level operation. */
module ChannelObject {
  import opened Chain
  import opened Frames
  import opened Options
  import opened ChannelSpec

  lemma RecordIs(c: Chan, c': Chan, txId: TxId, inclusion: nat)
    requires c' == c.(pending := c'.pending, confirmed := c'.confirmed, clock := c'.clock,
                      minInclusion := c'.minInclusion, maxInclusion := c'.maxInclusion, inclusions := c'.inclusions)
    requires c'.pending == c.pending - {txId} && c'.confirmed == c.confirmed[txId := inclusion]
    requires c'.clock == c.clock.Offer(InclusionDeadline(c.cfg, inclusion), ChannelTimeoutClose)
    requires c'.minInclusion == if inclusion < c.minInclusion then inclusion else c.minInclusion
    requires c'.maxInclusion == if inclusion > c.maxInclusion then inclusion else c.maxInclusion
    requires c'.inclusions == c.inclusions + [inclusion]
    ensures c' == c.Record(txId, inclusion)
  {
    hide InclusionDeadline, Clock.Offer;
  }

  lemma TakeIs(c: Chan, c': Chan, b: Block, produced: nat, full: bool)
    requires c' == c.(ready := c'.ready, blocks := c'.blocks, clock := c'.clock, latestL1Origin := c'.latestL1Origin,
                      latestL2 := c'.latestL2, fullErr := c'.fullErr)
    requires c'.ready == c.ready + produced && c'.blocks == c.blocks + [b]
    requires c'.clock == c.clock.Offer(SeqWindowDeadline(c.cfg, b.l1Origin), SeqWindowClose)
    requires c'.latestL1Origin == if b.l1Origin > c.latestL1Origin then b.l1Origin else c.latestL1Origin
    requires c'.latestL2 == if b.number > c.latestL2 then b.number else c.latestL2
    requires c'.fullErr == if full then Some(CompressorFull) else c.fullErr
    ensures c' == c.Take(b, produced, full).(comp := c.comp)
  {
    hide SeqWindowDeadline, Clock.Offer;
  }

  /** A channel together with its builder and the state of its channel out. */
  class Channel {
    const id: ChId
    const cfg: Config
    var comp: Compressor
    var clock: Clock
    var fullErr: Option<Reason>
    var blocks: seq<Block>
    var latestL1Origin: nat
    var latestL2: nat
    var nextFrame: nat
    var ready: nat
    var closed: bool
    var frames: seq<Frame>
    var frameCursor: nat
    var pending: map<TxId, TxData>
    var confirmed: map<TxId, nat>
    var minInclusion: nat
    var maxInclusion: nat
    var inclusions: seq<nat>

    ghost function View(): Chan
      reads this
    {
      Chan(id, cfg, comp, clock, fullErr,
           blocks, latestL1Origin, latestL2, nextFrame, ready, closed, frames, frameCursor,
           pending, confirmed, minInclusion, maxInclusion, inclusions)
    }

    constructor (id: ChId, comp: Compressor, cfg: Config, l1: nat)
      ensures View() == NewChan(id, comp, cfg, l1)
      ensures this.id == id
    {
      this.id, this.cfg, this.comp := id, cfg, comp;
      fullErr, blocks, latestL1Origin, latestL2 := None, [], 0, 0;
      nextFrame, ready, closed := 0, 0, false;
      frames, frameCursor, pending, confirmed := [], 0, map[], map[];
      minInclusion, maxInclusion, inclusions := TWO64 - 1, 0, [];
      clock := Clock(0, NoReason, l1, []);
      new;
      if cfg.maxChannelDuration != 0 {
        UpdateTimeout(DurationDeadline(cfg, l1), MaxDurationReached);
      }
    }

    method UpdateTimeout(deadline: nat, reason: Reason)
      modifies `clock
      ensures clock == old(clock).Offer(deadline, reason)
    {
      if clock.timeout == 0 || clock.timeout > deadline {
        clock := clock.(timeout := deadline, reason := reason);
      }
      clock := clock.(deadlines := clock.deadlines + [deadline]);
    }

    predicate IsFull()
      reads this
      ensures IsFull() == View().IsFull()
    {
      fullErr != None
    }

    method CheckTimeout(head: nat)
      modifies this
      ensures View() == old(View()).CheckTimeout(head)
    {
      if clock.timeout != 0 && !IsFull() && head >= clock.timeout {
        fullErr := Some(clock.reason);
      }
    }

    method Close()
      modifies this
      ensures View() == old(View()).Close()
    {
      if !IsFull() {
        fullErr := Some(Terminated);
      }
    }

    method AddBlock(b: Block) returns (o: AddOutcome)
      modifies this
      ensures (View(), o) == old(View()).AddBlock(b)
    {
      if IsFull() {
        return ChannelFull;
      }
      if closed {
        return AddFailed;
      }
      var answer := comp.Answer();
      comp := comp.Next();
      match answer {
        case Refused(reason) =>
          fullErr := Some(reason);
          return ChannelFull;
        case Failed =>
          return AddFailed;
        case Accepted(produced, full) =>
          Took(b, produced, full);
          return Added;
      }
    }

    /** The bookkeeping for a block that the channel out took. */
    method Took(b: Block, produced: nat, full: bool)
      modifies `ready, `blocks, `clock, `latestL1Origin, `latestL2, `fullErr
      ensures View() == old(View()).Take(b, produced, full).(comp := old(comp))
    {
      hide SeqWindowDeadline, Clock.Offer, Chan.Take;
      ghost var c := View();
      NoteBlock(b);
      ready, blocks, fullErr := ready + produced, blocks + [b], if full then Some(CompressorFull) else fullErr;
      TakeIs(c, View(), b, produced, full);
    }

    /** The deadline of a block, and the latest L1 origin and block number. */
    method NoteBlock(b: Block)
      modifies `clock, `latestL1Origin, `latestL2
      ensures clock == old(clock).Offer(SeqWindowDeadline(cfg, b.l1Origin), SeqWindowClose)
      ensures latestL1Origin == if b.l1Origin > old(latestL1Origin) then b.l1Origin else old(latestL1Origin)
      ensures latestL2 == if b.number > old(latestL2) then b.number else old(latestL2)
    {
      hide SeqWindowDeadline, Clock.Offer;
      UpdateTimeout(SeqWindowDeadline(cfg, b.l1Origin), SeqWindowClose);
      if b.l1Origin > latestL1Origin {
        latestL1Origin := b.l1Origin;
      }
      if b.number > latestL2 {
        latestL2 := b.number;
      }
    }

    /** One frame; `last` is the end of file of the channel out. */
    method OutputFrame() returns (last: bool)
      requires cfg.Check()
      modifies this
      ensures (View(), last) == old(View()).OutputFrame()
    {
      var maxDataSize := cfg.maxFrameSize - FRAME_OVERHEAD;
      last := false;
      if maxDataSize >= ready {
        maxDataSize := ready;
        last := closed;
      }
      ready := ready - maxDataSize;
      frames := frames + [Frame(FrameId(id, nextFrame), maxDataSize + FRAME_OVERHEAD)];
      nextFrame := nextFrame + 1;
    }

    method OutputReadyFrames()
      requires cfg.Usable()
      modifies this
      ensures View() == old(View()).OutputReadyFrames()
    {
      while ready + FRAME_OVERHEAD >= cfg.maxFrameSize
        invariant View().OutputReadyFrames() == old(View()).OutputReadyFrames()
        decreases ready
      {
        var last := OutputFrame();
        if last {
          return;
        }
      }
    }

    /** The flag is false if the channel out was closed already. */
    method CloseAndOutputAllFrames() returns (ok: bool)
      requires cfg.Usable() && IsFull()
      modifies this
      ensures (View(), ok) == old(View()).OutputFrames()
    {
      if closed {
        return false;
      }
      closed := true;
      ready := ready + comp.flush;
      ghost var c := View();
      var last := false;
      while !last
        invariant !last ==> closed && View().Drain() == c.Drain()
        invariant last ==> View() == c.Drain()
        decreases !last, ready
      {
        last := OutputFrame();
      }
      return true;
    }

    method OutputFrames() returns (ok: bool)
      requires cfg.Usable()
      modifies this
      ensures (View(), ok) == old(View()).OutputFrames()
    {
      if IsFull() {
        ok := CloseAndOutputAllFrames();
      } else {
        OutputReadyFrames();
        ok := true;
      }
    }

    predicate HasPendingFrame()
      reads this
      ensures HasPendingFrame() == View().HasPendingFrame()
    {
      frameCursor < |frames|
    }

    predicate HasTxData()
      reads this
      ensures HasTxData() == View().HasTxData()
    {
      if IsFull() || !cfg.useBlobs then HasPendingFrame()
      else |frames| - frameCursor >= cfg.MaxFramesPerTx()
    }

    predicate NoneSubmitted()
      reads this
      ensures NoneSubmitted() == View().NoneSubmitted()
    {
      |confirmed| == 0 && |pending| == 0
    }

    predicate IsFullySubmitted()
      reads this
      ensures IsFullySubmitted() == View().IsFullySubmitted()
    {
      IsFull() && |pending| + (|frames| - frameCursor) == 0
    }

    predicate IsTimedOut()
      reads this
      ensures IsTimedOut() == View().IsTimedOut()
    {
      |confirmed| > 0 && maxInclusion - minInclusion >= cfg.channelTimeout
    }

    method NextTxData() returns (tx: TxData)
      requires cfg.Check() && frameCursor <= |frames|
      modifies `frameCursor, `pending
      ensures (View(), tx) == old(View()).NextTxData()
    {
      var nf := cfg.MaxFramesPerTx();
      var fs: seq<Frame> := [];
      var i := 0;
      while i < nf && HasPendingFrame()
        modifies `frameCursor
        invariant 0 <= i <= nf && frameCursor == old(frameCursor) + i <= |frames|
        invariant fs == frames[old(frameCursor)..frameCursor]
      {
        fs := fs + [frames[frameCursor]];
        frameCursor := frameCursor + 1;
        i := i + 1;
      }
      tx := TxData(fs, cfg.useBlobs);
      pending := pending[tx.Id() := tx];
    }

    /** The flag is false if it panics. */
    method RewindFrameCursor(f: Frame) returns (ok: bool)
      modifies this
      ensures ok <==> old(View()).RewindFrameCursor(f).Some?
      ensures ok ==> View() == old(View()).RewindFrameCursor(f).value
    {
      var k := f.id.number;
      if |frames| <= k || frames[k].size != f.size || frames[k].id.chId != f.id.chId {
        return false;
      }
      if frameCursor > k {
        frameCursor := k;
      }
      return true;
    }

    /** The flag is false if it panics. */
    method TxFailed(txId: TxId) returns (ok: bool)
      modifies this
      ensures ok <==> old(View()).TxFailed(txId).Some?
      ensures ok ==> View() == old(View()).TxFailed(txId).value
    {
      if txId !in pending {
        return true;
      }
      var tx := pending[txId];
      if |tx.frames| == 0 {
        return false;
      }
      ok := RewindFrameCursor(tx.frames[0]);
      if ok {
        pending := pending - {txId};
      }
    }

    method TxConfirmed(txId: TxId, inclusion: nat) returns (timedOut: bool)
      modifies this
      ensures (View(), timedOut) == old(View()).TxConfirmed(txId, inclusion)
    {
      hide Chan.Record;
      if txId !in pending {
        return false;
      }
      Record(txId, inclusion);
      timedOut := IsTimedOut();
    }

    /** Moves a transaction to the confirmed ones. */
    method Record(txId: TxId, inclusion: nat)
      modifies `pending, `confirmed, `clock, `minInclusion, `maxInclusion, `inclusions
      ensures View() == old(View()).Record(txId, inclusion)
    {
      hide InclusionDeadline, Clock.Offer, Chan.Record;
      ghost var c := View();
      pending, confirmed := pending - {txId}, confirmed[txId := inclusion];
      NoteInclusion(inclusion);
      RecordIs(c, View(), txId, inclusion);
    }

    /** The deadline of an inclusion, and the range of blocks that transactions were included in. */
    method NoteInclusion(inclusion: nat)
      modifies `clock, `minInclusion, `maxInclusion, `inclusions
      ensures clock == old(clock).Offer(InclusionDeadline(cfg, inclusion), ChannelTimeoutClose)
      ensures minInclusion == if inclusion < old(minInclusion) then inclusion else old(minInclusion)
      ensures maxInclusion == if inclusion > old(maxInclusion) then inclusion else old(maxInclusion)
      ensures inclusions == old(inclusions) + [inclusion]
    {
      hide InclusionDeadline, Clock.Offer;
      UpdateTimeout(InclusionDeadline(cfg, inclusion), ChannelTimeoutClose);
      minInclusion := if inclusion < minInclusion then inclusion else minInclusion;
      maxInclusion := if inclusion > maxInclusion then inclusion else maxInclusion;
      inclusions := inclusions + [inclusion];
    }
  }
}
