/** The batcher's driver where it follows the sequencer. */
module BatchSubmitterObject {
  import opened Chain
  import opened Frames
  import opened Options
  import opened ChannelSpec
  import opened ManagerSpec
  import opened ChannelObject
  import opened ChannelManagerObject
  import opened SyncSpec

  /** The values of some channel objects, in order. */
  ghost function Values(channels: seq<Channel>): (r: seq<Chan>)
    reads channels
    ensures |r| == |channels|
    ensures forall i | 0 <= i < |r| :: r[i] == channels[i].View()
  {
    seq(|channels|, i requires 0 <= i < |channels| reads channels => channels[i].View())
  }

  method ComputeActions(s: SyncStatus, prevCurrentL1: nat, blocks: seq<Block>, channels: seq<Channel>)
    returns (a: SyncActions, outOfSync: bool)
    ensures (a, outOfSync) == ComputeSyncActions(s, prevCurrentL1, blocks, Values(channels))
  {
    if s.localSafe == None || s.unsafeNum == None || !s.hasHeadL1 {
      return NO_ACTIONS, true;
    }
    if s.currentL1 < prevCurrentL1 {
      return NO_ACTIONS, true;
    }
    var safe, unsafeNum := s.localSafe.value, s.unsafeNum.value;
    var allUnsafeBlocks: Option<Range> := None;
    if unsafeNum > safe.number {
      allUnsafeBlocks := Some(Range(safe.number + 1, unsafeNum));
    }

    // checks involving only the oldest block
    if |blocks| == 0 {
      return SyncActions(None, 0, 0, allUnsafeBlocks), false;
    }
    var startAfresh := SyncActions(Some(safe.l1Origin), 0, 0, allUnsafeBlocks);
    var oldest := blocks[0].number;
    var nextSafe := safe.number + 1;
    if nextSafe < oldest {
      return startAfresh, false;
    }

    // checks involving all blocks
    var newest := blocks[|blocks| - 1].number;
    var numBlocksToDequeue := nextSafe - oldest;
    if numBlocksToDequeue > |blocks| {
      return startAfresh, false;
    }
    if numBlocksToDequeue > 0 && blocks[numBlocksToDequeue - 1] != safe {
      return startAfresh, false;
    }

    // checks involving channels
    var i := 0;
    while i < |channels|
      invariant 0 <= i <= |channels|
      invariant forall j | 0 <= j < i :: !Stalled(Values(channels)[j], s.currentL1, safe.number)
    {
      var ch := channels[i];
      assert Values(channels)[i] == ch.View();
      if ch.IsFullySubmitted() && !ch.IsTimedOut() && s.currentL1 > ch.maxInclusion && safe.number < ch.latestL2 {
        assert Stalled(Values(channels)[i], s.currentL1, safe.number);
        return startAfresh, false;
      }
      i := i + 1;
    }

    var numChannelsToPrune := CountSafe(channels, safe.number);
    var allUnsafeBlocksAboveState: Option<Range> := None;
    if unsafeNum > newest {
      allUnsafeBlocksAboveState := Some(Range(newest + 1, unsafeNum));
    }
    return SyncActions(None, numBlocksToDequeue, numChannelsToPrune, allUnsafeBlocksAboveState), false;
  }

  /** Counts the channels at the front that have no block above `safe`. */
  method CountSafe(channels: seq<Channel>, safe: nat) returns (n: nat)
    ensures n == SafePrefix(Values(channels), safe)
  {
    n := 0;
    ghost var all := Values(channels);
    assert all[0..] == all;
    while n < |channels|
      invariant n <= |channels| && SafePrefix(all, safe) == n + SafePrefix(all[n..], safe)
    {
      assert all[n..][0] == channels[n].View() && all[n..][1..] == all[n + 1..];
      if channels[n].latestL2 > safe {
        return;
      }
      n := n + 1;
    }
  }

  class BatchSubmitter {
    const channelMgr: ChannelManager
    var prevCurrentL1: nat

    constructor (cfg: Config)
      ensures channelMgr.Valid() && fresh(channelMgr) && channelMgr.repr == {} && prevCurrentL1 == 0
      ensures channelMgr.View() == Manager([], 0, 0, cfg, NoHash, None, [], map[], map[], 0)
    {
      channelMgr := new ChannelManager(cfg);
      prevCurrentL1 := 0;
    }

    /** The blocks to load; the flag is false if it panics. */
    method SyncAndPrune(s: SyncStatus) returns (load: Option<Range>, ok: bool)
      requires channelMgr.Valid() && channelMgr.View().WF()
      modifies `prevCurrentL1, channelMgr
      ensures ok <==> Batcher(old(channelMgr.View()), old(prevCurrentL1)).SyncAndPrune(s).Some?
      ensures ok ==>
                && channelMgr.Valid() && channelMgr.repr == old(channelMgr.repr)
                && Batcher(old(channelMgr.View()), old(prevCurrentL1)).SyncAndPrune(s)
                   == Some((Batcher(channelMgr.View(), prevCurrentL1), load))
    {
      hide Views, ComputeSyncActions;
      var m := channelMgr;
      ghost var value := m.View();
      var channels := QueuedChannels();
      hide Manager.WF, QueuedChans;
      var actions, outOfSync := ComputeActions(s, prevCurrentL1, m.blocks, channels);
      load := actions.blocksToLoad;
      if outOfSync {
        return load, true;
      }
      prevCurrentL1 := s.currentL1;
      if actions.clearState != None {
        m.Clear(actions.clearState.value);
        return load, true;
      }
      WFCursor(value);
      ok := m.PruneSafeBlocks(actions.blocksToPrune);
      if ok {
        ok := m.PruneChannels(actions.channelsToPrune);
      }
    }

    method QueuedChannels() returns (channels: seq<Channel>)
      requires channelMgr.Valid() && channelMgr.View().WF()
      ensures Values(channels) == QueuedChans(channelMgr.View())
    {
      var m := channelMgr;
      channels := [];
      var i := 0;
      while i < |m.channelQueue|
        invariant 0 <= i == |channels| <= |m.channelQueue|
        invariant forall j | 0 <= j < i :: m.channelQueue[j] in m.store && channels[j] == m.store[m.channelQueue[j]]
      {
        assert m.channelQueue[i] in m.View().queue;
        channels := channels + [m.store[m.channelQueue[i]]];
        i := i + 1;
      }
    }
  }
}
