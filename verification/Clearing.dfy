/** When a sync starts afresh, told from the blocks in state and from the blocks, frames and
    confirmations of the queued channels. */
module Clearing {
  import opened Chain
  import opened ChannelSpec
  import opened ChannelProofs
  import opened ManagerSpec
  import opened ManagerInv
  import opened SyncSpec
  import opened SyncProofs

  /** The sync status is complete, and the node has not gone back to an earlier L1 block. */
  predicate InSync(s: SyncStatus, prevCurrentL1: nat) {
    s.localSafe.Some? && s.unsafeNum.Some? && s.hasHeadL1 && prevCurrentL1 <= s.currentL1
  }

  ghost predicate HasAbove(bs: seq<Block>, safe: nat) { exists b :: b in bs && b.number > safe }

  /** The channel is closed, every frame of it was confirmed and none is under way again, its
      confirmations are in time for each other and the node has seen them all, but the safe head is
      below a block of it. */
  ghost predicate NotFollowed(c: Chan, currentL1: nat, safe: nat) {
    && c.closed && c.frameCursor == |c.frames| && c.pending == map[]
    && (forall i | 0 <= i < |c.frames| :: Confirmed(c, i))
    && !Apart(c.inclusions, c.cfg.channelTimeout)
    && (forall x | x in c.inclusions :: x < currentL1)
    && HasAbove(c.blocks, safe)
  }

  lemma LatestIs(c: Chan, safe: nat)
    requires BlocksOk(c)
    ensures c.latestL2 > safe <==> HasAbove(c.blocks, safe)
  {
    if HasAbove(c.blocks, safe) {
      var b :| b in c.blocks && b.number > safe;
      var i :| 0 <= i < |c.blocks| && c.blocks[i] == b;
      LinkedNumbers(c.blocks, i, |c.blocks| - 1);
    }
  }

  lemma SeenAll(c: Chan, currentL1: nat)
    requires InclusionOk(c) && c.inclusions != []
    ensures currentL1 > c.maxInclusion <==> forall x | x in c.inclusions :: x < currentL1
  {
  }

  lemma SubmittedIs(c: Chan)
    requires ChanInv(c) && Settled(c)
    ensures c.IsFullySubmitted() <==> c.closed && c.frameCursor == |c.frames| && c.pending == map[]
    ensures c.IsFullySubmitted() ==> c.inclusions != [] && forall i | 0 <= i < |c.frames| :: Confirmed(c, i)
  {
    CursorIn(c);
    if c.IsFullySubmitted() {
      FullySubmittedMeansAllConfirmed(c);
      assert Confirmed(c, 0);
    }
  }

  lemma StalledExactly(c: Chan, currentL1: nat, safe: nat)
    requires ChanInv(c) && Settled(c)
    ensures Stalled(c, currentL1, safe) <==> NotFollowed(c, currentL1, safe)
  {
    hide FramesOk, PendingOk, NoFrameLost, BlocksOk, OriginOk, DeadlinesOk, InclusionOk, Settled, Apart, HasAbove,
      Confirmed, Chan.IsFullySubmitted, Chan.IsTimedOut;
    SubmittedIs(c);
    TimedOutIs(c);
    LatestIs(c, safe);
    if c.IsFullySubmitted() {
      SeenAll(c, currentL1);
    }
  }

  /** The same told from the confirmed transactions, as long as none of them was confirmed twice. */
  lemma NotFollowedByRecord(c: Chan, currentL1: nat, safe: nat)
    requires ChanInv(c) && AllOnRecord(c)
    ensures NotFollowed(c, currentL1, safe) <==>
            && c.closed && c.frameCursor == |c.frames| && c.pending == map[]
            && (forall i | 0 <= i < |c.frames| :: Confirmed(c, i))
            && !ApartInMap(c.confirmed, c.cfg.channelTimeout)
            && (forall k | k in c.confirmed :: c.confirmed[k] < currentL1)
            && HasAbove(c.blocks, safe)
  {
    hide FramesOk, PendingOk, NoFrameLost, BlocksOk, OriginOk, DeadlinesOk, Confirmed, HasAbove, Apart, ApartInMap;
    ApartIs(c);
  }

  /** The state does not go together with the safe head: that is too far below the blocks in state,
      above them, or another block than the one with its number; or it did not follow a channel. */
  ghost predicate MustClear(m: Manager, safe: Block, currentL1: nat)
    requires m.WF()
  {
    && m.blocks != []
    && (|| safe.number + 1 < m.blocks[0].number
        || safe.number > m.blocks[|m.blocks| - 1].number
        || (exists b :: b in m.blocks && b.number == safe.number && b != safe)
        || (exists id :: id in m.queue && NotFollowed(m.chans[id], currentL1, safe.number)))
  }

  /** The block with the number of the safe head. */
  lemma BlockAt(blocks: seq<Block>, safe: Block)
    requires Linked(blocks) && blocks != []
    requires blocks[0].number <= safe.number <= blocks[|blocks| - 1].number
    ensures safe.number - blocks[0].number < |blocks|
    ensures blocks[safe.number - blocks[0].number] != safe <==>
            exists b :: b in blocks && b.number == safe.number && b != safe
  {
    LinkedNumbers(blocks, 0, |blocks| - 1);
    var j := safe.number - blocks[0].number;
    LinkedNumbers(blocks, 0, j);
    if b :| b in blocks && b.number == safe.number && b != safe {
      var i :| 0 <= i < |blocks| && blocks[i] == b;
      LinkedNumbers(blocks, 0, i);
    }
  }

  /** The blocks in state go together with the safe head. */
  ghost predicate Fitting(blocks: seq<Block>, safe: Block)
    requires blocks != []
  {
    && blocks[0].number <= safe.number + 1 && safe.number <= blocks[|blocks| - 1].number
    && !exists b :: b in blocks && b.number == safe.number && b != safe
  }

  lemma FittingIs(blocks: seq<Block>, safe: Block)
    requires Linked(blocks) && blocks != []
    ensures Fitting(blocks, safe) <==>
            && blocks[0].number <= safe.number + 1
            && safe.number + 1 - blocks[0].number <= |blocks|
            && (safe.number + 1 > blocks[0].number ==> blocks[safe.number - blocks[0].number] == safe)
  {
    LinkedNumbers(blocks, 0, |blocks| - 1);
    if blocks[0].number <= safe.number <= blocks[|blocks| - 1].number {
      BlockAt(blocks, safe);
    } else if safe.number + 1 == blocks[0].number {
      forall b | b in blocks ensures b.number != safe.number {
        var i :| 0 <= i < |blocks| && blocks[i] == b;
        LinkedNumbers(blocks, 0, i);
      }
    }
  }

  lemma KeepExactly(m: Manager, s: SyncStatus, safe: Block)
    requires Inv(m) && m.blocks != []
    ensures KeepState(s, safe, m.blocks, QueuedChans(m)) <==> !MustClear(m, safe, s.currentL1)
  {
    hide ChanInv, RunOk, Run, OrderOk, IndexOk, StaleOk, Settled, Stalled, NotFollowed, QueuedChans, Linked;
    BlocksLinked(m);
    FittingIs(m.blocks, safe);
    StalledQueued(m, s.currentL1, safe.number);
  }

  lemma BlocksLinked(m: Manager)
    requires m.WF() && RunOk(m)
    ensures Linked(m.blocks)
  {
    hide Run, InChannels, Flat, Linked;
    var p := |InChannels(m)| - m.cursor;
    LinkedSlice(Run(m), p, |Run(m)|);
    assert Run(m)[p..|Run(m)|] == Run(m)[p..];
  }

  lemma StalledQueued(m: Manager, currentL1: nat, safe: nat)
    requires Inv(m)
    ensures (exists i | 0 <= i < |m.queue| :: Stalled(QueuedChans(m)[i], currentL1, safe)) <==>
            exists id :: id in m.queue && NotFollowed(m.chans[id], currentL1, safe)
  {
    hide ChanInv, RunOk, Run, OrderOk, IndexOk, StaleOk, Settled, Stalled, NotFollowed;
    forall i | 0 <= i < |m.queue|
      ensures Stalled(QueuedChans(m)[i], currentL1, safe) <==> NotFollowed(m.chans[m.queue[i]], currentL1, safe)
    {
      assert ChanInv(m.chans[m.queue[i]]) && Settled(m.chans[m.queue[i]]);
      StalledExactly(m.chans[m.queue[i]], currentL1, safe);
    }
    if id :| id in m.queue && NotFollowed(m.chans[id], currentL1, safe) {
      var i :| 0 <= i < |m.queue| && m.queue[i] == id;
      assert Stalled(QueuedChans(m)[i], currentL1, safe);
    }
  }

  /** The first k channels leave the queue, the longest prefix without a block above the safe head. */
  ghost predicate LeavesQueue(m: Manager, m': Manager, safe: nat, k: nat)
    requires m.WF()
  {
    && k <= |m.queue| && m'.queue == m.queue[k..]
    && (forall i | 0 <= i < k :: !HasAbove(m.chans[m.queue[i]].blocks, safe))
    && (k < |m.queue| ==> HasAbove(m.chans[m.queue[k]].blocks, safe))
  }

  lemma PrefixLeaves(m: Manager, m': Manager, safe: nat)
    requires m.WF() && ChansOk(m) && m'.queue == m.queue[SafePrefix(QueuedChans(m), safe)..]
    ensures LeavesQueue(m, m', safe, SafePrefix(QueuedChans(m), safe))
  {
    hide ChanInv, ChansOk, HasAbove, BlocksOk, SafePrefix;
    var k := SafePrefix(QueuedChans(m), safe);
    SafePrefixIs(QueuedChans(m), safe);
    forall i | 0 <= i < |m.queue|
      ensures QueuedChans(m)[i].latestL2 > safe <==> HasAbove(m.chans[m.queue[i]].blocks, safe)
    {
      BlocksOkAt(m, m.queue[i]);
      LatestIs(m.chans[m.queue[i]], safe);
    }
  }
}
