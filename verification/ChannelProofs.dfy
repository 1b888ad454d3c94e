/** What holds of every channel, whatever is sent, fails, is confirmed or is sent again. */
module ChannelProofs {
  import opened Chain
  import opened Frames
  import opened Options
  import opened ChannelSpec

  // ---- The invariant ----

  ghost predicate FramesOk(c: Chan) {
    && c.nextFrame == |c.frames|
    && c.frameCursor <= |c.frames|
    && forall i | 0 <= i < |c.frames| ::
         c.frames[i].id == FrameId(c.id, i) && FRAME_OVERHEAD <= c.frames[i].size <= c.cfg.maxFrameSize
  }

  /** `tx` is a non-empty stretch of the frames of `c`, filed under its own ID. */
  ghost predicate IsTxOf(c: Chan, txId: TxId, tx: TxData) {
    && |tx.frames| > 0
    && txId == tx.Id()
    && var a := tx.frames[0].id.number;
       a + |tx.frames| <= |c.frames| && tx.frames == c.frames[a..a + |tx.frames|]
  }

  ghost predicate PendingOk(c: Chan) {
    forall k | k in c.pending :: IsTxOf(c, k, c.pending[k])
  }

  /** Frame `i` is in a transaction that is pending or confirmed. */
  ghost predicate Covered(c: Chan, i: nat) {
    exists k :: (k in c.pending || k in c.confirmed) && FrameId(c.id, i) in k
  }

  ghost predicate Confirmed(c: Chan, i: nat) {
    exists k :: k in c.confirmed && FrameId(c.id, i) in k
  }

  /** No frame is lost: every frame before the cursor is under way or has arrived. */
  ghost predicate NoFrameLost(c: Chan) {
    forall i | 0 <= i < c.frameCursor :: Covered(c, i)
  }

  ghost predicate BlocksOk(c: Chan) {
    && Linked(c.blocks)
    && (forall b | b in c.blocks :: b.WellFormed())
    && c.latestL2 == (if c.blocks == [] then 0 else c.blocks[|c.blocks| - 1].number)
  }

  /** The latest L1 origin is that of a block, and no block has a later one. */
  ghost predicate OriginOk(c: Chan) {
    && (forall b | b in c.blocks :: b.l1Origin <= c.latestL1Origin)
    && (c.latestL1Origin == 0 || exists b :: b in c.blocks && b.l1Origin == c.latestL1Origin)
  }

  /** The deadline is that of the opening, of a block or of a confirmation. */
  ghost predicate Offered(c: Chan, d: nat) {
    || (c.cfg.maxChannelDuration != 0 && d == DurationDeadline(c.cfg, c.clock.openedAt))
    || (exists b :: b in c.blocks && d == SeqWindowDeadline(c.cfg, b.l1Origin))
    || (exists x :: x in c.inclusions && d == InclusionDeadline(c.cfg, x))
  }

  /** The deadlines on record are those of the opening, of every block and of every confirmation. */
  ghost predicate DeadlinesOk(c: Chan) {
    && c.clock.timeout == FoldDeadlines(c.clock.deadlines)
    && (c.cfg.maxChannelDuration != 0 ==> DurationDeadline(c.cfg, c.clock.openedAt) in c.clock.deadlines)
    && (forall b | b in c.blocks :: SeqWindowDeadline(c.cfg, b.l1Origin) in c.clock.deadlines)
    && (forall x | x in c.inclusions :: InclusionDeadline(c.cfg, x) in c.clock.deadlines)
    && (forall d | d in c.clock.deadlines :: Offered(c, d))
  }

  /** The range of inclusion blocks is that of all confirmations. */
  ghost predicate InclusionOk(c: Chan) {
    && (forall k | k in c.confirmed :: c.confirmed[k] in c.inclusions)
    && (c.confirmed == map[] <==> c.inclusions == [])
    && (c.inclusions == [] ==> c.minInclusion == TWO64 - 1 && c.maxInclusion == 0)
    && (c.inclusions != [] ==> c.minInclusion in c.inclusions && c.maxInclusion in c.inclusions)
    && (forall x | x in c.inclusions :: c.minInclusion <= x <= c.maxInclusion)
  }

  ghost predicate ChanInv(c: Chan) {
    && c.cfg.Usable()
    && c.id != 0
    && FramesOk(c)
    && PendingOk(c)
    && NoFrameLost(c)
    && BlocksOk(c)
    && OriginOk(c)
    && DeadlinesOk(c)
    && InclusionOk(c)
  }

  /** Between two steps of the manager: a full channel is closed and all its frames are out. */
  ghost predicate Settled(c: Chan) {
    && (c.IsFull() <==> c.closed)
    && (c.closed ==> c.ready == 0 && |c.frames| > 0)
  }

  // ---- Deadlines ----

  function FoldDeadlines(ds: seq<nat>): nat {
    if ds == [] then 0
    else
      var t := FoldDeadlines(ds[..|ds| - 1]);
      var d := ds[|ds| - 1];
      if t == 0 || t > d then d else t
  }

  ghost predicate IsMinimum(t: nat, ds: seq<nat>) {
    t in ds && forall d | d in ds :: t <= d
  }

  lemma {:induction false} FoldSnoc(ds: seq<nat>, d: nat)
    ensures FoldDeadlines(ds + [d])
         == (var t := FoldDeadlines(ds); if t == 0 || t > d then d else t)
  {
    assert (ds + [d])[..|ds|] == ds;
  }

  /** A timeout of 0 means unset. So the running timeout is the minimum of all the deadlines
      offered exactly when none of them is 0, or the last one is. */
  lemma {:induction false} TimeoutIsMinimum(ds: seq<nat>)
    requires ds != []
    ensures IsMinimum(FoldDeadlines(ds), ds) <==> (0 !in ds || ds[|ds| - 1] == 0)
    ensures FoldDeadlines(ds) in ds
    ensures FoldDeadlines(ds) == 0 <==> ds[|ds| - 1] == 0
  {
    var n := |ds| - 1;
    var rest := ds[..n];
    assert ds == rest + [ds[n]];
    if rest != [] {
      TimeoutIsMinimum(rest);
      if rest[n - 1] != 0 && 0 in rest {
        assert 0 in ds;
      }
    }
  }

  /** For instance, the deadline 5 is forgotten after 5, 0 and 7 were offered. */
  lemma TimeoutNotMinimum()
    ensures FoldDeadlines([5, 0, 7]) == 7 && !IsMinimum(7, [5, 0, 7])
  {
    assert [5, 0, 7][..2] == [5, 0] && [5, 0][..1] == [5] && [5][..0] == [];
    assert FoldDeadlines([5]) == 5 && FoldDeadlines([5, 0]) == 0;
    assert 5 in [5, 0, 7];
  }

  predicate Fits64(n: int) { 0 <= n < TWO64 }

  /** The L1 head is before the end of the longest duration, and more than the safety margin before
      the end of each block's sequencing window and of the channel timeout after each confirmation,
      where these sums fit into 64 bits. */
  ghost predicate InGoodTime(c: Chan, head: nat) {
    && (c.cfg.maxChannelDuration != 0 && Fits64(c.clock.openedAt + c.cfg.maxChannelDuration) ==>
          head < c.clock.openedAt + c.cfg.maxChannelDuration)
    && (forall b | b in c.blocks && Fits64(b.l1Origin + c.cfg.seqWindowSize - c.cfg.subSafetyMargin) ::
          head + c.cfg.subSafetyMargin < b.l1Origin + c.cfg.seqWindowSize)
    && (forall x | x in c.inclusions && Fits64(x + c.cfg.channelTimeout - c.cfg.subSafetyMargin) ::
          head + c.cfg.subSafetyMargin < x + c.cfg.channelTimeout)
  }

  /** An open channel that has just registered the L1 head is before every deadline it was
      ever offered: of its opening, of each of its blocks and of each confirmation. */
  lemma OpenMeansBeforeEveryDeadline(c: Chan, head: nat)
    requires ChanInv(c)
    requires 0 !in c.clock.deadlines
    requires !c.CheckTimeout(head).IsFull()
    ensures forall d | d in c.clock.deadlines :: head < d
    ensures InGoodTime(c, head)
  {
    hide FramesOk, PendingOk, NoFrameLost, BlocksOk, OriginOk, InclusionOk;
    if c.clock.deadlines != [] {
      TimeoutIsMinimum(c.clock.deadlines);
    }
    hide FoldDeadlines, Offered, InGoodTime;
    BeforeMeansInTime(c, head);
  }

  lemma BeforeMeansInTime(c: Chan, head: nat)
    requires DeadlinesOk(c) && forall d | d in c.clock.deadlines :: head < d
    ensures InGoodTime(c, head)
  {
    hide FoldDeadlines, Offered;
    var cfg := c.cfg;
    forall b | b in c.blocks && Fits64(b.l1Origin + cfg.seqWindowSize - cfg.subSafetyMargin)
      ensures head + cfg.subSafetyMargin < b.l1Origin + cfg.seqWindowSize
    {
      assert SeqWindowDeadline(cfg, b.l1Origin) in c.clock.deadlines;
    }
    forall x | x in c.inclusions && Fits64(x + cfg.channelTimeout - cfg.subSafetyMargin)
      ensures head + cfg.subSafetyMargin < x + cfg.channelTimeout
    {
      assert InclusionDeadline(cfg, x) in c.clock.deadlines;
    }
  }

  /** Every sum fits into 64 bits, and no deadline is the first block, which would unset the timeout. */
  ghost predicate NoWrap(c: Chan) {
    && (c.cfg.maxChannelDuration != 0 ==> Fits64(c.clock.openedAt + c.cfg.maxChannelDuration))
    && (forall b | b in c.blocks ::
          Fits64(b.l1Origin + c.cfg.seqWindowSize - c.cfg.subSafetyMargin - 1)
          && Fits64(b.l1Origin + c.cfg.seqWindowSize - c.cfg.subSafetyMargin))
    && (forall x | x in c.inclusions ::
          Fits64(x + c.cfg.channelTimeout - c.cfg.subSafetyMargin - 1)
          && Fits64(x + c.cfg.channelTimeout - c.cfg.subSafetyMargin))
  }

  /** Then registering the L1 head closes an open channel exactly when one of them has come. */
  lemma ClosesExactly(c: Chan, head: nat)
    requires ChanInv(c) && !c.IsFull() && NoWrap(c)
    ensures c.CheckTimeout(head).IsFull() <==> !InGoodTime(c, head)
  {
    hide FramesOk, PendingOk, NoFrameLost, BlocksOk, OriginOk, InclusionOk;
    NoZeroDeadline(c);
    if c.clock.deadlines != [] {
      TimeoutIsMinimum(c.clock.deadlines);
    }
    if c.CheckTimeout(head).IsFull() {
      assert Offered(c, c.clock.timeout);
    } else {
      OpenMeansBeforeEveryDeadline(c, head);
    }
  }

  lemma NoZeroDeadline(c: Chan)
    requires DeadlinesOk(c) && NoWrap(c)
    ensures 0 !in c.clock.deadlines
  {
    forall d | d in c.clock.deadlines ensures d != 0 {
      assert Offered(c, d);
    }
  }

  // ---- Timeouts on chain ----

  /** Two of the numbers are `d` or more apart. */
  ghost predicate Apart(xs: seq<nat>, d: nat) {
    exists x, y :: x in xs && y in xs && x >= y + d
  }

  lemma TimedOutIs(c: Chan)
    requires InclusionOk(c)
    ensures c.IsTimedOut() <==> Apart(c.inclusions, c.cfg.channelTimeout)
  {
    if c.inclusions != [] {
      assert c.confirmed.Keys != {};
    }
  }

  /** A confirmation reports a timeout if and only if two confirmations of the channel, this one
      included, are the channel timeout or more apart. */
  lemma TimesOutExactly(c: Chan, txId: TxId, inclusion: BlockNum)
    requires ChanInv(c)
    ensures c.TxConfirmed(txId, inclusion).1 <==>
            txId in c.pending && Apart(c.inclusions + [inclusion], c.cfg.channelTimeout)
  {
    hide Apart;
    if txId in c.pending {
      RecordInv(c, txId, inclusion);
      hide FramesOk, PendingOk, NoFrameLost, BlocksOk, OriginOk, DeadlinesOk, InclusionOk;
      TimedOutIs(c.Record(txId, inclusion));
    }
  }

  /** Every confirmation is still on record. */
  ghost predicate AllOnRecord(c: Chan) {
    forall x | x in c.inclusions :: exists k :: k in c.confirmed && c.confirmed[k] == x
  }

  ghost predicate ApartInMap(confirmed: map<TxId, nat>, d: nat) {
    exists k, l :: k in confirmed && l in confirmed && confirmed[k] >= confirmed[l] + d
  }

  /** It is as if only the confirmed transactions were looked at, as long as none of them is
      confirmed twice. */
  lemma TimesOutByRecord(c: Chan, txId: TxId, inclusion: BlockNum)
    requires ChanInv(c) && AllOnRecord(c) && txId !in c.confirmed
    ensures c.TxConfirmed(txId, inclusion).1 <==>
            txId in c.pending && ApartInMap(c.confirmed[txId := inclusion], c.cfg.channelTimeout)
    ensures AllOnRecord(c.TxConfirmed(txId, inclusion).0)
  {
    TimesOutExactly(c, txId, inclusion);
    if txId in c.pending {
      RecordInv(c, txId, inclusion);
      hide FramesOk, PendingOk, NoFrameLost, BlocksOk, OriginOk, DeadlinesOk;
      var c' := c.Record(txId, inclusion);
      RecordKept(c, c', txId, inclusion);
      ApartIs(c');
    }
  }

  lemma RecordKept(c: Chan, c': Chan, txId: TxId, inclusion: nat)
    requires AllOnRecord(c) && txId !in c.confirmed
    requires c'.confirmed == c.confirmed[txId := inclusion] && c'.inclusions == c.inclusions + [inclusion]
    ensures AllOnRecord(c')
  {
    forall x | x in c'.inclusions ensures exists k :: k in c'.confirmed && c'.confirmed[k] == x {
      if x in c.inclusions {
        var k :| k in c.confirmed && c.confirmed[k] == x;
        assert c'.confirmed[k] == x;
      } else {
        assert c'.confirmed[txId] == x;
      }
    }
  }

  lemma ApartIs(c: Chan)
    requires InclusionOk(c) && AllOnRecord(c)
    ensures Apart(c.inclusions, c.cfg.channelTimeout) <==> ApartInMap(c.confirmed, c.cfg.channelTimeout)
  {
    hide Fits64;
    var d := c.cfg.channelTimeout;
    if Apart(c.inclusions, d) {
      var x, y :| x in c.inclusions && y in c.inclusions && x >= y + d;
      var k :| k in c.confirmed && c.confirmed[k] == x;
      var l :| l in c.confirmed && c.confirmed[l] == y;
      assert c.confirmed[k] >= c.confirmed[l] + d;
    }
    if ApartInMap(c.confirmed, d) {
      var k, l :| k in c.confirmed && l in c.confirmed && c.confirmed[k] >= c.confirmed[l] + d;
      assert c.confirmed[k] in c.inclusions && c.confirmed[l] in c.inclusions;
    }
  }

  // ---- Each operation keeps the invariant ----

  /** Deadlines stay on record when one more is added for one more block or confirmation. */
  lemma MoreDeadlines(c: Chan, c': Chan, d: nat, reason: Reason)
    requires DeadlinesOk(c)
    requires c'.cfg == c.cfg && c'.clock == c.clock.Offer(d, reason) && Offered(c', d)
    requires forall b | b in c.blocks :: b in c'.blocks
    requires forall b | b in c'.blocks :: b in c.blocks || SeqWindowDeadline(c.cfg, b.l1Origin) == d
    requires forall x | x in c.inclusions :: x in c'.inclusions
    requires forall x | x in c'.inclusions :: x in c.inclusions || InclusionDeadline(c.cfg, x) == d
    ensures DeadlinesOk(c')
  {
    hide SeqWindowDeadline, InclusionDeadline, DurationDeadline;
    var ds, ds' := c.clock.deadlines, c'.clock.deadlines;
    FoldSnoc(ds, d);
    assert forall x | x in ds :: x in ds';
    assert d == ds'[|ds|];
    assert d in ds';
    forall x | x in ds' ensures Offered(c', x) {
      if x in ds {
        StillOffered(c, c', x);
      }
    }
  }

  lemma StillOffered(c: Chan, c': Chan, d: nat)
    requires c'.cfg == c.cfg && c'.clock.openedAt == c.clock.openedAt && Offered(c, d)
    requires forall b | b in c.blocks :: b in c'.blocks
    requires forall x | x in c.inclusions :: x in c'.inclusions
    ensures Offered(c', d)
  {
  }

  lemma NewChanInv(id: ChId, comp: Compressor, cfg: Config, l1: nat)
    requires id != 0 && cfg.Usable()
    ensures var c := NewChan(id, comp, cfg, l1);
            && ChanInv(c) && Settled(c) && !c.IsFull() && c.id == id && c.cfg == cfg && c.comp == comp
            && c.blocks == [] && c.clock.openedAt == l1 && NothingToSend(c)
  {
    FoldSnoc([], DurationDeadline(cfg, l1));
  }

  /** Adding blocks touches neither the frames nor the transactions. */
  ghost predicate SameTxs(c: Chan, c': Chan) {
    && c'.id == c.id && c'.cfg == c.cfg && c'.closed == c.closed
    && c'.frames == c.frames && c'.frameCursor == c.frameCursor
    && c'.pending == c.pending && c'.confirmed == c.confirmed
  }

  lemma AddBlockInv(c: Chan, b: Block)
    requires ChanInv(c)
    requires b.WellFormed()
    requires c.blocks != [] ==> Extends(b, c.blocks[|c.blocks| - 1])
    ensures var (c', o) := c.AddBlock(b);
            && ChanInv(c')
            && SameTxs(c, c')
            && c'.blocks == (if o == Added then c.blocks + [b] else c.blocks)
            && (o == AddFailed ==> c'.fullErr == c.fullErr)
            && (o == ChannelFull ==> c'.IsFull())
            && (o == Added ==>
                  !c.IsFull() && c.comp.Answer().Accepted? && (c'.IsFull() <==> c.comp.Answer().full))
  {
    hide ChanInv, Compressor.Next, Compressor.Answer;
    if !c.IsFull() && !c.closed {
      match c.comp.Answer()
      case Refused(reason) => SetFullInv(c, reason);
      case Failed => MarkedInv(c, c.(comp := c.comp.Next()));
      case Accepted(produced, full) => TakeInv(c, b, produced, full);
    }
  }

  /** Marking a channel full or closed and the state of its compressor touch nothing else. */
  lemma MarkedInv(c: Chan, c': Chan)
    requires ChanInv(c) && c' == c.(fullErr := c'.fullErr, comp := c'.comp, closed := c'.closed, ready := c'.ready)
    ensures ChanInv(c')
  {
    hide FramesOk, PendingOk, NoFrameLost, BlocksOk, OriginOk, DeadlinesOk, InclusionOk;
    KeepsTxs(c, c');
    SameShape(c, c');
    DeadlinesSame(c, c');
    RangeSame(c, c');
  }

  lemma DeadlinesSame(c: Chan, c': Chan)
    requires DeadlinesOk(c)
    requires c'.cfg == c.cfg && c'.clock == c.clock && c'.blocks == c.blocks && c'.inclusions == c.inclusions
    ensures DeadlinesOk(c')
  {
    hide FoldDeadlines, Offered;
    forall d | d in c'.clock.deadlines ensures Offered(c', d) {
      StillOffered(c, c', d);
    }
  }

  lemma RangeSame(c: Chan, c': Chan)
    requires InclusionOk(c) && c'.confirmed == c.confirmed && c'.inclusions == c.inclusions
    requires c'.minInclusion == c.minInclusion && c'.maxInclusion == c.maxInclusion
    ensures InclusionOk(c')
  {
  }

  lemma SetFullInv(c: Chan, reason: Reason)
    requires ChanInv(c)
    ensures ChanInv(c.SetFull(reason))
    ensures ChanInv(c.SetFull(reason).(comp := c.comp.Next()))
  {
    hide ChanInv;
    MarkedInv(c, c.SetFull(reason));
    MarkedInv(c, c.SetFull(reason).(comp := c.comp.Next()));
  }

  lemma TakeInv(c: Chan, b: Block, produced: nat, full: bool)
    requires ChanInv(c)
    requires b.WellFormed()
    requires c.blocks != [] ==> Extends(b, c.blocks[|c.blocks| - 1])
    ensures var c' := c.Take(b, produced, full);
            ChanInv(c') && c'.blocks == c.blocks + [b] && SameTxs(c, c')
  {
    hide FramesOk, PendingOk, NoFrameLost, BlocksOk, OriginOk, DeadlinesOk, InclusionOk, SeqWindowDeadline, Clock.Offer;
    var c' := c.Take(b, produced, full);
    TakenBlock(c, c', b);
    MoreDeadlines(c, c', SeqWindowDeadline(c.cfg, b.l1Origin), SeqWindowClose);
    FramesSame(c, c');
    RangeSame(c, c');
    KeepsTxs(c, c');
  }

  lemma TakenBlock(c: Chan, c': Chan, b: Block)
    requires BlocksOk(c) && OriginOk(c) && b.WellFormed()
    requires c.blocks != [] ==> Extends(b, c.blocks[|c.blocks| - 1])
    requires c'.latestL1Origin == if b.l1Origin > c.latestL1Origin then b.l1Origin else c.latestL1Origin
    requires c'.blocks == c.blocks + [b] && c'.latestL2 == if b.number > c.latestL2 then b.number else c.latestL2
    ensures BlocksOk(c') && OriginOk(c') && b in c'.blocks && forall x | x in c'.blocks :: x in c.blocks || x == b
    ensures forall x | x in c.blocks :: x in c'.blocks
  {
    LinkedSnoc(c.blocks, b);
    assert c'.blocks[|c.blocks|] == b;
    assert forall x | x in c.blocks :: x in c'.blocks;
  }

  lemma FramesSame(c: Chan, c': Chan)
    requires FramesOk(c) && c'.id == c.id && c'.cfg == c.cfg && c'.frames == c.frames && c'.nextFrame == c.nextFrame
    requires c'.frameCursor == c.frameCursor
    ensures FramesOk(c')
  {
  }

  /** Frames and transactions carry over to a channel that only has more of the same frames. */
  lemma KeepsTxs(c: Chan, c': Chan)
    requires PendingOk(c) && NoFrameLost(c)
    requires c'.id == c.id && c'.pending == c.pending && c'.confirmed == c.confirmed
    requires c'.frameCursor <= c.frameCursor
    requires c.frames <= c'.frames
    ensures PendingOk(c') && NoFrameLost(c')
  {
    forall k | k in c'.pending
      ensures IsTxOf(c', k, c'.pending[k])
    {
      assert IsTxOf(c, k, c.pending[k]);
    }
    forall i | 0 <= i < c'.frameCursor
      ensures Covered(c', i)
    {
      assert Covered(c, i);
    }
  }

  /** `c'` is `c` after the channel out emitted some more frames. */
  ghost predicate OnlyMoreFrames(c: Chan, c': Chan) {
    && c' == c.(frames := c'.frames, nextFrame := c'.nextFrame, ready := c'.ready)
    && c.frames <= c'.frames
  }

  /** The data bytes in some frames. */
  function Payload(fs: seq<Frame>): int {
    if fs == [] then 0 else Payload(fs[..|fs| - 1]) + fs[|fs| - 1].size - FRAME_OVERHEAD
  }

  lemma OutputFrameInv(c: Chan)
    requires ChanInv(c)
    ensures var c' := c.OutputFrame().0;
            ChanInv(c') && OnlyMoreFrames(c, c') && |c'.frames| == |c.frames| + 1
            && Payload(c'.frames) + c'.ready == Payload(c.frames) + c.ready
  {
    hide PendingOk, NoFrameLost, BlocksOk, OriginOk, DeadlinesOk, InclusionOk;
    var c' := c.OutputFrame().0;
    assert c'.frames[..|c.frames|] == c.frames;
    KeepsTxs(c, c');
    DeadlinesSame(c, c');
    RangeSame(c, c');
    SameBlocks(c, c');
  }

  /** Frames emitted early lose no byte, and less than a frame's worth stays behind. */
  lemma {:induction false} OutputReadyFramesInv(c: Chan)
    requires ChanInv(c)
    ensures var c' := c.OutputReadyFrames();
            ChanInv(c') && OnlyMoreFrames(c, c')
            && Payload(c'.frames) + c'.ready == Payload(c.frames) + c.ready
            && (!c.closed ==> c'.ready + FRAME_OVERHEAD < c'.cfg.maxFrameSize)
    decreases c.ready
  {
    if c.ready + FRAME_OVERHEAD >= c.cfg.maxFrameSize {
      OutputFrameInv(c);
      var (c1, last) := c.OutputFrame();
      if !last {
        OutputReadyFramesInv(c1);
      }
    }
  }

  /** Draining a closed channel emits every byte that is left, in at least one frame. */
  lemma {:induction false} DrainInv(c: Chan)
    requires ChanInv(c) && c.closed
    ensures var c' := c.Drain();
            ChanInv(c') && OnlyMoreFrames(c, c')
            && c'.ready == 0 && |c'.frames| > |c.frames|
            && Payload(c'.frames) == Payload(c.frames) + c.ready
    decreases c.ready
  {
    OutputFrameInv(c);
    var (c1, last) := c.OutputFrame();
    if !last {
      DrainInv(c1);
    }
  }

  /** A frame size of exactly the overhead passes the configuration check, but then a frame
      takes no data: a closed channel with bytes left never sees its last frame. */
  lemma DrainMakesProgress(c: Chan)
    requires c.cfg.Check() && c.closed && c.ready > 0
    ensures var (c', last) := c.OutputFrame();
            (last || c'.ready < c.ready) <==> c.cfg.maxFrameSize > FRAME_OVERHEAD
  {
  }

  /** The channel after n frames of the drain loop. */
  function AfterFrames(c: Chan, n: nat): (r: Chan)
    requires c.cfg.Check()
    ensures r.cfg == c.cfg && r.closed == c.closed
  {
    if n == 0 then c else AfterFrames(c, n - 1).OutputFrame().0
  }

  /** The drain loop ends if and only if there is nothing to drain or frames have room for data. */
  lemma DrainEndsExactly(c: Chan)
    requires c.cfg.Check() && c.closed
    ensures (exists n: nat :: AfterFrames(c, n).OutputFrame().1)
       <==> c.ready == 0 || c.cfg.maxFrameSize > FRAME_OVERHEAD
  {
    if c.ready == 0 || c.cfg.maxFrameSize > FRAME_OVERHEAD {
      var n := LastFrame(c, 0);
      assert AfterFrames(c, n).OutputFrame().1;
    } else {
      forall n: nat ensures !AfterFrames(c, n).OutputFrame().1 {
        DrainStalls(c, n);
      }
    }
  }

  lemma LastFrame(c: Chan, k: nat) returns (n: nat)
    requires c.cfg.Check() && c.closed
    requires AfterFrames(c, k).ready == 0 || c.cfg.maxFrameSize > FRAME_OVERHEAD
    ensures AfterFrames(c, n).OutputFrame().1
    decreases AfterFrames(c, k).ready
  {
    if AfterFrames(c, k).OutputFrame().1 {
      n := k;
    } else {
      DrainMakesProgress(AfterFrames(c, k));
      n := LastFrame(c, k + 1);
    }
  }

  /** Otherwise it puts out empty frames without end. */
  lemma {:induction false} DrainStalls(c: Chan, n: nat)
    requires c.cfg.Check() && c.closed && c.ready > 0 && c.cfg.maxFrameSize == FRAME_OVERHEAD
    ensures var c' := AfterFrames(c, n);
            c'.ready == c.ready && |c'.frames| == |c.frames| + n && !c'.OutputFrame().1
  {
    if n > 0 {
      DrainStalls(c, n - 1);
    }
  }

  /** For instance, closing a new channel with frames of 23 bytes. */
  lemma DrainCanStall(id: ChId, comp: Compressor, n: nat)
    requires comp.flush > 0
    ensures var c := NewChan(id, comp, Config(100, 10, 0, 1, FRAME_OVERHEAD, 1, 0, false), 0);
            && c.cfg.Check()
            && var c' := AfterFrames(c.(closed := true, ready := c.ready + comp.flush), n);
               c'.ready == comp.flush && |c'.frames| == n && !c'.OutputFrame().1
  {
    var c := NewChan(id, comp, Config(100, 10, 0, 1, FRAME_OVERHEAD, 1, 0, false), 0);
    DrainStalls(c.(closed := true, ready := c.ready + comp.flush), n);
  }

  lemma OutputFramesInv(c: Chan)
    requires ChanInv(c)
    requires !c.closed
    ensures var (c', ok) := c.OutputFrames();
            && ok && ChanInv(c') && Settled(c') && OnlyMoreFrames(c.(closed := c'.closed), c')
            && (c.IsFull() ==> c'.frameCursor < |c'.frames|)
  {
    hide ChanInv, Payload;
    if c.IsFull() {
      var c1 := c.(closed := true, ready := c.ready + c.comp.flush);
      MarkedInv(c, c1);
      CursorIn(c);
      DrainInv(c1);
    } else {
      OutputReadyFramesInv(c);
    }
  }

  /** A calldata transaction has one frame. A blob transaction has at most the target number, fewer
      only if it takes the last frame of a full channel. */
  ghost predicate RightSize(c: Chan, tx: TxData) {
    var most := if c.cfg.useBlobs then c.cfg.targetNumFrames else 1;
    && 1 <= |tx.frames| <= most
    && (|tx.frames| < most ==> c.IsFull() && c.frameCursor == |c.frames|)
  }

  /** Nothing is to be sent: every frame is out, or the channel takes more blocks and does not have
      the frames of a whole blob transaction yet. */
  ghost predicate NothingToSend(c: Chan) {
    || c.frameCursor == |c.frames|
    || (!c.IsFull() && c.cfg.useBlobs && |c.frames| < c.frameCursor + c.cfg.targetNumFrames)
  }

  lemma NoDataExactly(c: Chan)
    requires ChanInv(c)
    ensures !c.HasTxData() <==> NothingToSend(c)
  {
  }

  lemma NextTxDataInv(c: Chan)
    requires ChanInv(c)
    requires c.HasTxData()
    ensures var (c', tx) := c.NextTxData();
            && ChanInv(c')
            && IsTxOf(c', tx.Id(), tx)
            && tx.asBlob == c.cfg.useBlobs
            && tx.frames == c.frames[c.frameCursor..c'.frameCursor]
            && c.frameCursor < c'.frameCursor
            && c' == c.(frameCursor := c'.frameCursor, pending := c.pending[tx.Id() := tx])
            && RightSize(c', tx)
  {
    hide FramesOk, PendingOk, NoFrameLost, BlocksOk, OriginOk, DeadlinesOk, InclusionOk, IsTxOf;
    var (c', tx) := c.NextTxData();
    NextTxIs(c);
    SendKeepsTxs(c, c', tx);
    CursorMoved(c, c');
    DeadlinesSame(c, c');
    RangeSame(c, c');
    SameBlocks(c, c');
  }

  lemma NextTxIs(c: Chan)
    requires FramesOk(c) && c.cfg.Usable() && c.HasTxData()
    ensures var (c', tx) := c.NextTxData();
            && IsTxOf(c', tx.Id(), tx) && RightSize(c', tx) && c.frameCursor < c'.frameCursor <= |c.frames|
            && tx.frames == c.frames[c.frameCursor..c'.frameCursor]
  {
  }

  lemma SameBlocks(c: Chan, c': Chan)
    requires BlocksOk(c) && OriginOk(c) && c'.blocks == c.blocks
    requires c'.latestL2 == c.latestL2 && c'.latestL1Origin == c.latestL1Origin
    ensures BlocksOk(c') && OriginOk(c')
  {
  }

  lemma SendKeepsTxs(c: Chan, c': Chan, tx: TxData)
    requires FramesOk(c) && PendingOk(c) && NoFrameLost(c)
    requires c'.id == c.id && c'.frames == c.frames && c'.confirmed == c.confirmed
    requires c'.pending == c.pending[tx.Id() := tx] && IsTxOf(c', tx.Id(), tx)
    requires c.frameCursor <= c'.frameCursor <= |c.frames|
    requires tx.frames == c.frames[c.frameCursor..c'.frameCursor]
    ensures PendingOk(c') && NoFrameLost(c')
  {
    forall k | k in c'.pending
      ensures IsTxOf(c', k, c'.pending[k])
    {
      if k != tx.Id() {
        assert IsTxOf(c, k, c.pending[k]);
      }
    }
    forall i | 0 <= i < c'.frameCursor
      ensures Covered(c', i)
    {
      if i < c.frameCursor {
        assert Covered(c, i);
        var k :| (k in c.pending || k in c.confirmed) && FrameId(c.id, i) in k;
        assert k in c'.pending || k in c'.confirmed;
      } else {
        assert tx.Id()[i - c.frameCursor] == FrameId(c.id, i);
        assert tx.Id() in c'.pending;
      }
    }
  }

  /** A failed transaction never meets the rewind panic; the cursor goes back to its first
      frame if it was past it, so all its frames are sent again. */
  lemma TxFailedInv(c: Chan, txId: TxId)
    requires ChanInv(c)
    ensures c.TxFailed(txId).Some?
    ensures var c' := c.TxFailed(txId).value;
            && ChanInv(c')
            && c' == c.(frameCursor := c'.frameCursor, pending := c.pending - {txId})
            && (txId in c.pending ==> forall f | f in txId :: c'.frameCursor <= f.number)
            && (txId in c.pending ==>
                  txId != [] && c'.frameCursor == Min(c.frameCursor, txId[0].number))
            && (txId !in c.pending ==> c' == c)
  {
    hide FramesOk, PendingOk, NoFrameLost, BlocksOk, OriginOk, DeadlinesOk, InclusionOk;
    if txId in c.pending {
      FramesOfTx(c, txId);
      FailedIs(c, txId);
      FailedInv(c, c.TxFailed(txId).value, txId);
    } else {
      assert c.pending - {txId} == c.pending;
    }
  }

  lemma FailedIs(c: Chan, txId: TxId)
    requires txId in c.pending && c.pending[txId].frames != []
    requires var f := c.pending[txId].frames[0]; f.id.number < |c.frames| && c.frames[f.id.number] == f
    requires c.pending[txId].frames[0].id.chId == c.id
    ensures var a := c.pending[txId].frames[0].id.number;
            c.TxFailed(txId) == Some(c.(frameCursor := if a < c.frameCursor then a else c.frameCursor,
                                        pending := c.pending - {txId}))
  {
  }

  lemma FailedInv(c: Chan, c': Chan, txId: TxId)
    requires ChanInv(c) && c'.frameCursor <= c.frameCursor
    requires c' == c.(frameCursor := c'.frameCursor, pending := c.pending - {txId})
    requires forall f | f in txId :: c'.frameCursor <= f.number
    ensures ChanInv(c')
  {
    hide FramesOk, PendingOk, NoFrameLost, BlocksOk, OriginOk, DeadlinesOk, InclusionOk;
    FailKeepsTxs(c, c', txId);
    CursorIn(c);
    CursorMoved(c, c');
    DeadlinesSame(c, c');
    RangeSame(c, c');
    SameBlocks(c, c');
  }

  lemma CursorIn(c: Chan)
    requires ChanInv(c)
    ensures c.frameCursor <= |c.frames|
  {
  }

  lemma CursorMoved(c: Chan, c': Chan)
    requires FramesOk(c) && c' == c.(frameCursor := c'.frameCursor, pending := c'.pending)
    requires c'.frameCursor <= |c.frames|
    ensures FramesOk(c')
  {
  }

  /** A pending transaction has its first frame in the channel; the others come after it. */
  lemma FramesOfTx(c: Chan, txId: TxId)
    requires FramesOk(c) && PendingOk(c) && txId in c.pending
    ensures var tx := c.pending[txId];
            && |tx.frames| > 0
            && var a := tx.frames[0].id.number;
               && a < |c.frames| && c.frames[a] == tx.frames[0] && tx.frames[0].id.chId == c.id
               && txId != [] && txId[0].number == a
               && forall f | f in txId :: a <= f.number
  {
    var tx := c.pending[txId];
    assert IsTxOf(c, txId, tx);
    var a := tx.frames[0].id.number;
    forall f | f in txId
      ensures a <= f.number
    {
      var j :| 0 <= j < |txId| && txId[j] == f;
      assert tx.frames[j] == c.frames[a + j];
    }
  }

  /** Without a transaction whose frames are all at or after the cursor nothing is uncovered. */
  lemma FailKeepsTxs(c: Chan, c': Chan, txId: TxId)
    requires PendingOk(c) && NoFrameLost(c)
    requires c'.id == c.id && c'.frames == c.frames && c'.confirmed == c.confirmed
    requires c'.pending == c.pending - {txId}
    requires c'.frameCursor <= c.frameCursor && forall f | f in txId :: c'.frameCursor <= f.number
    ensures PendingOk(c') && NoFrameLost(c')
  {
    forall i | 0 <= i < c'.frameCursor
      ensures Covered(c', i)
    {
      assert Covered(c, i);
      assert FrameId(c.id, i) !in txId;
    }
    forall k | k in c'.pending
      ensures IsTxOf(c', k, c'.pending[k])
    {
      assert IsTxOf(c, k, c.pending[k]);
    }
  }

  /** Confirming moves a transaction from the pending to the confirmed ones. */
  lemma ConfirmKeepsTxs(c: Chan, c': Chan, txId: TxId, inclusion: nat)
    requires PendingOk(c) && NoFrameLost(c)
    requires c'.id == c.id && c'.frames == c.frames && c'.frameCursor == c.frameCursor
    requires c'.pending == c.pending - {txId} && c'.confirmed == c.confirmed[txId := inclusion]
    ensures PendingOk(c') && NoFrameLost(c')
  {
    forall i | 0 <= i < c'.frameCursor
      ensures Covered(c', i)
    {
      assert Covered(c, i);
      var k :| (k in c.pending || k in c.confirmed) && FrameId(c.id, i) in k;
      assert k in c'.pending || k in c'.confirmed;
    }
    forall k | k in c'.pending
      ensures IsTxOf(c', k, c'.pending[k])
    {
      assert IsTxOf(c, k, c.pending[k]);
    }
  }

  lemma TxConfirmedInv(c: Chan, txId: TxId, inclusion: BlockNum)
    requires ChanInv(c)
    ensures var c' := c.TxConfirmed(txId, inclusion).0;
            && ChanInv(c')
            && c'.frames == c.frames && c'.frameCursor == c.frameCursor
            && c'.blocks == c.blocks && c'.pending == c.pending - {txId}
            && c'.id == c.id && c'.cfg == c.cfg && c'.fullErr == c.fullErr
            && c'.confirmed == (if txId in c.pending then c.confirmed[txId := inclusion] else c.confirmed)
            && (Settled(c) ==> Settled(c'))
  {
    if txId in c.pending {
      RecordInv(c, txId, inclusion);
    } else {
      assert c.pending - {txId} == c.pending;
    }
  }

  lemma RecordInv(c: Chan, txId: TxId, inclusion: BlockNum)
    requires ChanInv(c)
    ensures ChanInv(c.Record(txId, inclusion))
  {
    hide PendingOk, NoFrameLost, DeadlinesOk, BlocksOk, OriginOk, FramesOk, InclusionDeadline, InclusionOk, Clock.Offer;
    var c' := c.Record(txId, inclusion);
    SameShape(c, c');
    RecordRange(c, c', txId, inclusion);
    MoreDeadlines(c, c', InclusionDeadline(c.cfg, inclusion), ChannelTimeoutClose);
    ConfirmKeepsTxs(c, c', txId, inclusion);
  }

  lemma RecordRange(c: Chan, c': Chan, txId: TxId, inclusion: BlockNum)
    requires InclusionOk(c) && c'.confirmed == c.confirmed[txId := inclusion]
    requires c'.inclusions == c.inclusions + [inclusion]
    requires c'.minInclusion == if inclusion < c.minInclusion then inclusion else c.minInclusion
    requires c'.maxInclusion == if inclusion > c.maxInclusion then inclusion else c.maxInclusion
    ensures InclusionOk(c')
    ensures inclusion in c'.inclusions && forall x | x in c'.inclusions :: x in c.inclusions || x == inclusion
    ensures forall x | x in c.inclusions :: x in c'.inclusions
  {
    assert txId in c'.confirmed;
    assert inclusion == c'.inclusions[|c.inclusions|];
  }

  lemma SameShape(c: Chan, c': Chan)
    requires FramesOk(c) && BlocksOk(c) && OriginOk(c)
    requires c'.id == c.id && c'.cfg == c.cfg && c'.frames == c.frames && c'.nextFrame == c.nextFrame
    requires c'.frameCursor == c.frameCursor && c'.blocks == c.blocks && c'.latestL2 == c.latestL2
    requires c'.latestL1Origin == c.latestL1Origin
    ensures FramesOk(c') && BlocksOk(c') && OriginOk(c')
  {
  }

  /** A channel that counts as fully submitted has every one of its frames in a confirmed
      transaction, the last frame of the closed channel out included. */
  lemma FullySubmittedMeansAllConfirmed(c: Chan)
    requires ChanInv(c) && Settled(c)
    requires c.IsFullySubmitted()
    ensures c.closed && c.ready == 0 && |c.frames| > 0
    ensures forall i | 0 <= i < |c.frames| :: Confirmed(c, i)
  {
    forall i | 0 <= i < |c.frames|
      ensures Confirmed(c, i)
    {
      assert Covered(c, i);
      var k :| (k in c.pending || k in c.confirmed) && FrameId(c.id, i) in k;
      assert k in c.confirmed;
    }
  }

  /** Blocks taken from a run go into the channel in the order of the run. */
  lemma {:induction false} AddBlocksInv(c: Chan, bs: seq<Block>)
    requires ChanInv(c)
    requires Linked(c.blocks + bs)
    requires forall b | b in bs :: b.WellFormed()
    ensures var (c', n, ok) := AddBlocks(c, bs);
            && ChanInv(c')
            && c'.blocks == c.blocks + bs[..n]
            && SameTxs(c, c')
            && (!ok ==> c'.fullErr == c.fullErr)
            && (ok && !c'.IsFull() ==> n == |bs|)
    decreases |bs|
  {
    hide ChanInv, Chan.AddBlock, Linked;
    if bs != [] {
      var b, rest := bs[0], bs[1..];
      SplitAfterFirst(c.blocks, bs);
      AddBlockInv(c, b);
      var (c1, o) := c.AddBlock(b);
      if o == Added && !c1.IsFull() {
        AddBlocksInv(c1, rest);
        ConcatPrefix(c.blocks, bs, AddBlocks(c1, rest).1);
      } else if o == Added {
        assert [b] == bs[..1];
      }
    }
  }

  lemma SplitAfterFirst(s: seq<Block>, t: seq<Block>)
    requires Linked(s + t)
    requires t != []
    ensures Linked(s + [t[0]] + t[1..])
    ensures s != [] ==> Extends(t[0], s[|s| - 1])
  {
    assert s + [t[0]] + t[1..] == s + t;
    assert s != [] ==> Extends((s + t)[|s|], (s + t)[|s| - 1]);
  }

  lemma ConcatPrefix(s: seq<Block>, t: seq<Block>, n: nat)
    requires n < |t|
    ensures s + [t[0]] + t[1..][..n] == s + t[..n + 1]
  {
  }
}
