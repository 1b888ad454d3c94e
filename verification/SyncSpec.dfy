/** How the batcher's state follows the sequencer: what to prune, clear and load. */
module SyncSpec {
  import opened Chain
  import opened Options
  import opened ChannelSpec
  import opened ManagerSpec

  /** The parts of the sync status that are looked at. An empty reference is None, and
      `hasHeadL1` says whether the L1 head is there. */
  datatype SyncStatus = SyncStatus(
    hasHeadL1: bool,
    currentL1: nat,
    localSafe: Option<Block>,
    unsafeNum: Option<BlockNum>)

  /** An inclusive range of block numbers. */
  datatype Range = Range(start: nat, end: nat)

  datatype SyncActions = SyncActions(
    clearState: Option<nat>,
    blocksToPrune: nat,
    channelsToPrune: nat,
    blocksToLoad: Option<Range>)

  const NO_ACTIONS := SyncActions(None, 0, 0, None)

  function RangeAbove(low: nat, high: nat): Option<Range> {
    if high > low then Some(Range(low + 1, high)) else None
  }

  predicate OutOfSync(s: SyncStatus, prevCurrentL1: nat) {
    s.localSafe.None? || s.unsafeNum.None? || !s.hasHeadL1 || s.currentL1 < prevCurrentL1
  }

  /** The safe head did not follow a channel that was submitted in full and in time. */
  predicate Stalled(c: Chan, currentL1: nat, safe: nat) {
    c.IsFullySubmitted() && !c.IsTimedOut() && currentL1 > c.maxInclusion && safe < c.latestL2
  }

  /** The length of the longest prefix of channels without a block above `safe`. */
  function SafePrefix(channels: seq<Chan>, safe: nat): (n: nat)
    ensures n <= |channels|
  {
    if channels == [] || channels[0].latestL2 > safe then 0 else SafePrefix(channels[1..], safe) + 1
  }

  /** What is kept of the state: everything from the block after the safe head on, if the
      safe head is the last of the older blocks and no channel is stalled. */
  predicate KeepState(s: SyncStatus, safe: Block, blocks: seq<Block>, channels: seq<Chan>)
    requires blocks != []
  {
    && blocks[0].number <= safe.number + 1
    && safe.number + 1 - blocks[0].number <= |blocks|
    && (safe.number + 1 > blocks[0].number ==> blocks[safe.number - blocks[0].number] == safe)
    && !exists i | 0 <= i < |channels| :: Stalled(channels[i], s.currentL1, safe.number)
  }

  /** The flag says that the sequencer is out of sync. */
  function ComputeSyncActions(s: SyncStatus, prevCurrentL1: nat, blocks: seq<Block>, channels: seq<Chan>)
    : (SyncActions, bool)
  {
    if OutOfSync(s, prevCurrentL1) then (NO_ACTIONS, true)
    else
      var safe, unsafeNum := s.localSafe.value, s.unsafeNum.value;
      if blocks == [] then (NO_ACTIONS.(blocksToLoad := RangeAbove(safe.number, unsafeNum)), false)
      else if KeepState(s, safe, blocks, channels) then
        (SyncActions(None, safe.number + 1 - blocks[0].number, SafePrefix(channels, safe.number),
                     RangeAbove(blocks[|blocks| - 1].number, unsafeNum)), false)
      else (SyncActions(Some(safe.l1Origin), 0, 0, RangeAbove(safe.number, unsafeNum)), false)
  }

  function QueuedChans(m: Manager): (r: seq<Chan>)
    requires m.WF()
    ensures |r| == |m.queue|
    ensures forall i | 0 <= i < |r| :: r[i] == m.chans[m.queue[i]]
  {
    seq(|m.queue|, i requires 0 <= i < |m.queue| => m.chans[m.queue[i]])
  }

  /** The batcher's state: the channel manager and the last L1 block it saw the node at. */
  datatype Batcher = Batcher(mgr: Manager, prevCurrentL1: nat)
  {
    /** Returns the blocks to load; None is a panic. */
    function SyncAndPrune(s: SyncStatus): Option<(Batcher, Option<Range>)>
      requires mgr.WF()
    {
      var (a, outOfSync) := ComputeSyncActions(s, prevCurrentL1, mgr.blocks, QueuedChans(mgr));
      if outOfSync then Some((this, a.blocksToLoad))
      else if a.clearState.Some? then
        Some((Batcher(mgr.Clear(a.clearState.value), s.currentL1), a.blocksToLoad))
      else match mgr.PruneSafeBlocks(a.blocksToPrune)
        case None => None
        case Some(m) => match m.PruneChannels(a.channelsToPrune)
          case None => None
          case Some(m') => Some((Batcher(m', s.currentL1), a.blocksToLoad))
    }
  }
}
