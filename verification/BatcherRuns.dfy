/** The batcher over whole runs: any order of loads, publishing, receipts, syncs and clears. */
module BatcherRuns {
  import opened Chain
  import opened Frames
  import opened Options
  import opened ChannelSpec
  import opened ChannelProofs
  import opened ManagerSpec
  import opened ManagerInv
  import opened ManagerSteps
  import opened SyncSpec
  import opened SyncProofs
  import opened Clearing

  // ---- Loading ----

  lemma AddRun(m: Manager, b: Block, m': Manager)
    requires m.WF() && m'.WF() && RunOk(m) && b.WellFormed()
    requires m.tip == NoHash || m.tip == b.parent
    requires m'.chans == m.chans && m'.queue == m.queue && m'.cursor == m.cursor
    requires m'.blocks == m.blocks + [b] && m'.tip == Digest(b)
    ensures RunOk(m') && Run(m') == Run(m) + [b]
  {
    assert InChannels(m') == InChannels(m);
    hide InChannels, Flat, Fits;
    RestSnoc(m.blocks, m.cursor, b);
    Regroup(InChannels(m), m.blocks[m.cursor..], [b]);
    FitsSnoc(Run(m), |InChannels(m)|, m.blocks, m.cursor, m.tip, b);
  }

  lemma RestSnoc(s: seq<Block>, i: nat, b: Block)
    requires i <= |s|
    ensures (s + [b])[i..] == s[i..] + [b]
  {
  }

  lemma FitsSnoc(run: seq<Block>, n: nat, blocks: seq<Block>, cursor: nat, tip: Hash, b: Block)
    requires Fits(run, n, blocks, cursor, tip) && b.WellFormed() && (tip == NoHash || tip == b.parent)
    ensures Fits(run + [b], n, blocks + [b], cursor, Digest(b))
  {
    assert run != [] ==> Extends(b, run[|run| - 1]);
    LinkedSnoc(run, b);
    RestSnoc(run, n - cursor, b);
  }

  lemma AddStale(m: Manager, b: Block, m': Manager)
    requires m.WF() && m'.WF() && StaleOk(m) && b.WellFormed()
    requires m.tip == NoHash || m.tip == b.parent
    requires m'.chans == m.chans && m'.queue == m.queue && m'.txChannels == m.txChannels
    requires m'.blocks == m.blocks + [b] && m'.tip == Digest(b)
    ensures StaleOk(m')
  {
  }

  /** A block that is accepted goes to the end of the run; one that is not changes nothing. */
  lemma AddStep(m: Manager, b: Block)
    requires Inv(m) && Live(m) && b.WellFormed()
    ensures var (m', ok) := m.AddL2Block(b);
            && Inv(m') && Live(m') && Run(m') == (if ok then Run(m) + [b] else Run(m)) && (!ok ==> m' == m)
            && (Run(m) != [] ==> (ok <==> b.parent == Digest(Run(m)[|Run(m)| - 1])))
  {
    hide ChanInv, Settled, RunOk, Run, StaleOk, OrderOk, IndexOk, Live;
    TipIsLast(m);
    var (m', ok) := m.AddL2Block(b);
    if ok {
      AddRun(m, b, m');
      AddStale(m, b, m');
      SameLookups(m, m');
      AddLive(m, m', b);
    }
  }

  lemma TipIsLast(m: Manager)
    requires m.WF() && RunOk(m)
    ensures Run(m) != [] ==> m.tip == Digest(Run(m)[|Run(m)| - 1])
  {
  }

  lemma SameLookups(m: Manager, m': Manager)
    requires m.WF() && m'.WF() && OrderOk(m) && IndexOk(m)
    requires m'.chans == m.chans && m'.queue == m.queue && m'.current == m.current && m'.txChannels == m.txChannels
    ensures OrderOk(m') && IndexOk(m')
  {
  }

  lemma AddLive(m: Manager, m': Manager, b: Block)
    requires m.WF() && m'.WF() && Live(m)
    requires m'.chans == m.chans && m'.queue == m.queue && m'.blocks == m.blocks + [b]
    ensures Live(m')
  {
  }

  // ---- Receipts ----

  lemma SameQueueLive(m: Manager, m': Manager)
    requires m.WF() && m'.WF() && Live(m) && m'.blocks == m.blocks
    requires forall id | id in m'.queue :: id in m.queue && m'.chans[id].blocks == m.chans[id].blocks
    ensures Live(m')
  {
  }

  lemma FailKeeps(m: Manager, k: TxId)
    requires Inv(m) && Live(m)
    ensures m.TxFailed(k).Some?
    ensures var m' := m.TxFailed(k).value; Inv(m') && Live(m') && Run(m') == Run(m)
  {
    hide ChanInv, RunOk, Run, OrderOk, IndexOk, StaleOk, SettledExcept, Live, Chan.TxFailed;
    TxFailedStep(m, k);
    if k in m.txChannels {
      assert ChanInv(m.chans[m.txChannels[k]]);
      TxFailedInv(m.chans[m.txChannels[k]], k);
      SameQueueLive(m, m.TxFailed(k).value);
    }
  }

  /** With the confirmation of `k`, two confirmations of its channel are the channel timeout or
      more apart. */
  ghost predicate TimesOut(m: Manager, k: TxId, inclusion: nat)
    requires m.WF()
  {
    k in m.txChannels &&
    var c := m.chans[m.txChannels[k]]; k in c.pending && Apart(c.inclusions + [inclusion], c.cfg.channelTimeout)
  }

  /** The channel says so. */
  lemma TimesOutIs(m: Manager, k: TxId, inclusion: BlockNum)
    requires Inv(m) && k in m.txChannels
    ensures m.chans[m.txChannels[k]].TxConfirmed(k, inclusion).1 <==> TimesOut(m, k, inclusion)
  {
    hide ChanInv, RunOk, Run, OrderOk, IndexOk, StaleOk, SettledExcept, Apart, Chan.TxConfirmed;
    assert ChanInv(m.chans[m.txChannels[k]]);
    hide ChansOk;
    TimesOutExactly(m.chans[m.txChannels[k]], k, inclusion);
  }

  /** The manager after a confirmation, before a timed-out channel is invalidated. */
  function Noted(m: Manager, k: TxId, inclusion: nat): Manager
    requires m.WF() && k in m.txChannels
  {
    m.With(m.chans[m.txChannels[k]].TxConfirmed(k, inclusion).0).(txChannels := m.txChannels - {k})
  }

  lemma NotedKeeps(m: Manager, k: TxId, inclusion: BlockNum)
    requires Inv(m) && Live(m) && k in m.txChannels
    ensures var m1 := Noted(m, k, inclusion); var id := m.txChannels[k];
            && Inv(m1) && Live(m1) && Run(m1) == Run(m)
            && m1.blocks == m.blocks && m1.queue == m.queue && m1.tip == m.tip && m1.chans.Keys == m.chans.Keys
            && (forall x | x in m.chans :: m1.chans[x].blocks == m.chans[x].blocks)
            && m.chans[id].TxConfirmed(k, inclusion).0.id == id
  {
    hide ChanInv, RunOk, Run, OrderOk, IndexOk, StaleOk, SettledExcept, Live, Chan.TxConfirmed;
    ConfirmStep(m, k, inclusion);
    assert ChanInv(m.chans[m.txChannels[k]]);
    hide ChansOk;
    TxConfirmedInv(m.chans[m.txChannels[k]], k, inclusion);
    SameQueueLive(m, Noted(m, k, inclusion));
  }

  /** A channel that is behind the state cannot be rewound to. */
  lemma BehindPanics(m: Manager, m1: Manager, c: Chan)
    requires m1.WF() && RunOk(m1) && BlocksOk(c) && Behind(m, c) && m1.blocks == m.blocks
    ensures m1.RewindToBlock(c.blocks[0]).None? && FirstBlockPruned(m1, c)
  {
    hide RunOk, Run, InChannels, Flat, Fits, Manager.RewindToBlock, Linked;
    LinkedNumbers(c.blocks, 0, |c.blocks| - 1);
    BlocksLinked(m1);
    RewindBelow(m1, c.blocks[0]);
  }

  /** No block below the blocks in state is found there. */
  lemma RewindBelow(m: Manager, b: Block)
    requires Linked(m.blocks) && m.cursor <= |m.blocks|
    requires m.blocks != [] ==> b.number < m.blocks[0].number
    ensures m.RewindToBlock(b).None?
  {
    if m.blocks != [] {
      var idx := Sub64(b.number, m.blocks[0].number);
      if idx < |m.blocks| {
        LinkedNumbers(m.blocks, 0, idx);
      }
    }
  }

  /** If the confirmation shows a timeout, the invalidation drops no block. */
  ghost predicate ConfirmKeepsBlocks(m: Manager, k: TxId, inclusion: nat)
    requires m.WF()
  {
    TimesOut(m, k, inclusion) ==> KeepsBlocks(m, m.txChannels[k])
  }

  /** A confirmation panics exactly when it shows that the channel timed out and the first
      block of the channel has been pruned. Otherwise it keeps the run exactly when no block is
      dropped with the channel, and then it keeps the invariant, too. */
  lemma ConfirmKeeps(m: Manager, k: TxId, inclusion: BlockNum)
    requires Inv(m) && Live(m)
    ensures m.TxConfirmed(k, inclusion).None?
            <==> TimesOut(m, k, inclusion) && FirstBlockPruned(m, m.chans[m.txChannels[k]])
    ensures m.TxConfirmed(k, inclusion).Some? ==>
              var m' := m.TxConfirmed(k, inclusion).value;
              && m'.WF()
              && (Run(m') == Run(m) <==> ConfirmKeepsBlocks(m, k, inclusion))
              && (!ConfirmKeepsBlocks(m, k, inclusion) ==> |Run(m')| < |Run(m)|)
              && (ConfirmKeepsBlocks(m, k, inclusion) ==> Inv(m') && Live(m'))
  {
    hide ChanInv, ChansOk, RunOk, Run, OrderOk, IndexOk, StaleOk, SettledExcept, Live, KeepsBlocks, FirstBlockPruned,
      Chan.TxConfirmed, Manager.Invalidate, TimesOut;
    ConfirmIs(m, k, inclusion);
    if k in m.txChannels {
      TimesOutIs(m, k, inclusion);
      NotedKeeps(m, k, inclusion);
      var m1, id := Noted(m, k, inclusion), m.txChannels[k];
      if TimesOut(m, k, inclusion) {
        SameKeepsBlocks(m, m1, id);
        InvalidateNoted(m, m1, k, id);
      }
    }
  }

  lemma ConfirmIs(m: Manager, k: TxId, inclusion: nat)
    requires m.WF()
    ensures if k !in m.txChannels then !TimesOut(m, k, inclusion) && m.TxConfirmed(k, inclusion) == Some(m)
            else
              var (c, timedOut) := m.chans[m.txChannels[k]].TxConfirmed(k, inclusion);
              m.TxConfirmed(k, inclusion)
              == if timedOut then Noted(m, k, inclusion).Invalidate(c.id) else Some(Noted(m, k, inclusion))
  {
    hide Chan.TxConfirmed, Manager.Invalidate;
  }

  lemma SameKeepsBlocks(m: Manager, m1: Manager, id: ChId)
    requires m.WF() && m1.WF() && m1.queue == m.queue && m1.chans.Keys == m.chans.Keys && id in m.chans
    requires forall x | x in m.chans :: m1.chans[x].blocks == m.chans[x].blocks
    ensures KeepsBlocks(m1, id) == KeepsBlocks(m, id)
  {
    FlatSame(m.chans, m1.chans, m.queue[IndexOrZero(m.queue, id)..]);
  }

  lemma InvalidateNoted(m: Manager, m1: Manager, k: TxId, id: ChId)
    requires m.WF() && StaleOk(m) && k in m.txChannels && id == m.txChannels[k]
    requires Inv(m1) && Live(m1) && m1.blocks == m.blocks && m1.queue == m.queue
    requires id in m1.chans && m1.chans[id].blocks == m.chans[id].blocks
    ensures m1.Invalidate(id).None? <==> FirstBlockPruned(m, m.chans[id])
    ensures m1.Invalidate(id).Some? ==>
              var m' := m1.Invalidate(id).value;
              && m'.WF()
              && (Run(m') == Run(m1) <==> KeepsBlocks(m1, id))
              && (!KeepsBlocks(m1, id) ==> |Run(m')| < |Run(m1)|)
              && (KeepsBlocks(m1, id) ==> Inv(m') && Live(m'))
  {
    hide ChanInv, ChansOk, RunOk, Run, OrderOk, IndexOk, SettledExcept, Flat, KeepsBlocks, Live;
    if id in m1.queue {
      var i :| 0 <= i < |m1.queue| && m1.queue[i] == id;
      InvalidatePanics(m1, i);
    } else if m1.chans[id].blocks != [] {
      assert Behind(m, m1.chans[id]) by { assert Behind(m, m.chans[id]); }
      BlocksOkAt(m1, id);
      BehindPanics(m, m1, m1.chans[id]);
    }
    hide StaleOk;
    if m1.Invalidate(id).Some? {
      InvalidateStep(m1, id);
      InvalidatedLive(m1, id);
    }
  }

  lemma InvalidatedLive(m: Manager, id: ChId)
    requires m.WF() && id in m.chans && Live(m) && m.Invalidate(id).Some? && m.Invalidate(id).value.WF()
    ensures Live(m.Invalidate(id).value)
  {
    SameQueueLive(m, m.Invalidate(id).value);
  }

  // ---- Syncing ----

  /** After a sync with a sequencer that is in sync, the blocks in state are numbered from the
      one after the safe head on, and the range to load goes from there to the unsafe head. */
  ghost predicate Synced(m: Manager, load: Option<Range>, safe: nat, unsafeNum: nat) {
    NumberedFrom(m.blocks, safe + 1) && load == RangeAbove(safe + |m.blocks|, unsafeNum)
  }

  /** The batcher drops the first `d` blocks of its run, all of them the safe head or its ancestors. */
  ghost predicate Released(m: Manager, m': Manager, safe: Block, d: nat)
    requires m.WF() && m'.WF()
  {
    d <= |Run(m)| && Run(m') == Run(m)[d..] && forall i | 0 <= i < d :: AncestorOrSelf(Run(m)[i], safe)
  }

  ghost predicate SyncClears(b: Batcher, s: SyncStatus)
    requires b.mgr.WF()
  {
    ComputeSyncActions(s, b.prevCurrentL1, b.mgr.blocks, QueuedChans(b.mgr)).0.clearState.Some?
  }

  ghost predicate SyncDone(b: Batcher, s: SyncStatus, b': Batcher, load: Option<Range>)
    requires b.mgr.WF()
  {
    && Inv(b'.mgr) && Live(b'.mgr)
    && if !InSync(s, b.prevCurrentL1) then b' == b && load == None
       else
         var safe := s.localSafe.value;
         && b'.prevCurrentL1 == s.currentL1
         && Synced(b'.mgr, load, safe.number, s.unsafeNum.value)
         && (b.mgr.blocks != [] ==> (b'.mgr.tip == NoHash <==> MustClear(b.mgr, safe, s.currentL1)))
         && if MustClear(b.mgr, safe, s.currentL1) then b'.mgr == b.mgr.Clear(safe.l1Origin)
            else
              && (exists d :: Released(b.mgr, b'.mgr, safe, d))
              && (b.mgr.blocks != [] ==> exists k :: LeavesQueue(b.mgr, b'.mgr, safe.number, k))
  }

  /** A sync starts afresh exactly when the state does not go together with the safe head. */
  lemma SyncClearsExactly(b: Batcher, s: SyncStatus)
    requires Inv(b.mgr)
    ensures SyncClears(b, s) <==>
            InSync(s, b.prevCurrentL1) && MustClear(b.mgr, s.localSafe.value, s.currentL1)
  {
    hide ChansOk, RunOk, OrderOk, IndexOk, StaleOk, SettledExcept, KeepState, MustClear, SafePrefix, QueuedChans;
    if InSync(s, b.prevCurrentL1) && b.mgr.blocks != [] {
      KeepExactly(b.mgr, s, s.localSafe.value);
    } else {
      NoBlocksNoClear(b.mgr);
    }
  }

  lemma NoBlocksNoClear(m: Manager)
    requires m.WF()
    ensures forall safe, currentL1 | MustClear(m, safe, currentL1) :: m.blocks != []
  {
  }

  lemma ClearKeeps(m: Manager, l1Origin: nat)
    requires Inv(m)
    ensures var m' := m.Clear(l1Origin);
            && Inv(m') && Live(m') && Run(m') == []
            && m'.l1OriginLast == l1Origin && m'.tip == NoHash && m'.cfg == m.cfg && m'.pendingBytes == 0
  {
    hide ChanInv, Settled;
  }

  /** A sync never panics; it clears everything, exactly when it must, or gives up only blocks that
      are safe. */
  lemma SyncKeeps(b: Batcher, s: SyncStatus)
    requires Inv(b.mgr) && Live(b.mgr)
    ensures b.SyncAndPrune(s).Some?
    ensures var (b', load) := b.SyncAndPrune(s).value; SyncDone(b, s, b', load)
  {
    hide ChanInv, ChansOk, RunOk, Run, OrderOk, IndexOk, StaleOk, SettledExcept, Live, QueuedChans, SafePrefix,
      KeepState, MustClear, LeavesQueue, Pruned, Batcher.SyncAndPrune, SyncDone;
    SyncCases(b, s);
    if !InSync(s, b.prevCurrentL1) {
      NotInSyncDone(b, s);
    } else if b.mgr.blocks == [] {
      NoBlocksDone(b, s);
    } else if KeepState(s, s.localSafe.value, b.mgr.blocks, QueuedChans(b.mgr)) {
      SyncPrunes(b, s);
      KeptDone(b, s);
    } else {
      ClearedDone(b, s);
    }
  }

  lemma SyncCases(b: Batcher, s: SyncStatus)
    requires b.mgr.WF()
    ensures var r := b.SyncAndPrune(s);
            if !InSync(s, b.prevCurrentL1) then r == Some((b, None))
            else
              var safe, unsafeNum := s.localSafe.value, s.unsafeNum.value;
              if b.mgr.blocks == [] then
                r == Some((Batcher(b.mgr, s.currentL1), RangeAbove(safe.number, unsafeNum)))
              else if !KeepState(s, safe, b.mgr.blocks, QueuedChans(b.mgr)) then
                r == Some((Batcher(b.mgr.Clear(safe.l1Origin), s.currentL1), RangeAbove(safe.number, unsafeNum)))
              else true
  {
    hide KeepState, QueuedChans, SafePrefix, Manager.WF;
    assert b.mgr.blocks == [] ==> b.mgr.blocks[0..] == b.mgr.blocks;
    assert b.mgr.queue[0..] == b.mgr.queue;
  }

  lemma NotInSyncDone(b: Batcher, s: SyncStatus)
    requires Inv(b.mgr) && Live(b.mgr) && !InSync(s, b.prevCurrentL1)
    ensures SyncDone(b, s, b, None)
  {
    hide Core, SettledExcept, Live, Run, MustClear, LeavesQueue;
  }

  lemma NoBlocksDone(b: Batcher, s: SyncStatus)
    requires Inv(b.mgr) && Live(b.mgr) && InSync(s, b.prevCurrentL1) && b.mgr.blocks == []
    ensures SyncDone(b, s, Batcher(b.mgr, s.currentL1), RangeAbove(s.localSafe.value.number, s.unsafeNum.value))
  {
    hide ChansOk, RunOk, Run, OrderOk, IndexOk, StaleOk, SettledExcept, Live, MustClear, LeavesQueue;
    NoBlocksNoClear(b.mgr);
    assert Run(b.mgr) == Run(b.mgr)[0..];
    assert Released(b.mgr, b.mgr, s.localSafe.value, 0);
  }

  lemma KeptDone(b: Batcher, s: SyncStatus)
    requires Inv(b.mgr) && Live(b.mgr) && InSync(s, b.prevCurrentL1) && b.mgr.blocks != []
    requires KeepState(s, s.localSafe.value, b.mgr.blocks, QueuedChans(b.mgr))
    ensures var m, safe := b.mgr, s.localSafe.value;
            && m.blocks[0].number <= safe.number + 1 && safe.number + 1 - m.blocks[0].number <= |m.blocks|
            && SyncDone(b, s, Batcher(Pruned(m, safe), s.currentL1),
                        RangeAbove(m.blocks[|m.blocks| - 1].number, s.unsafeNum.value))
  {
    hide ChanInv, ChansOk, RunOk, Run, OrderOk, IndexOk, StaleOk, SettledExcept, Live, QueuedChans, SafePrefix,
      KeepState, MustClear, LeavesQueue, Pruned, AncestorOrSelf;
    var m, safe := b.mgr, s.localSafe.value;
    KeepExactly(m, s, safe);
    TipIsThere(m);
    KeepStateMeans(s, safe, m.blocks, QueuedChans(m));
    var d := PruneStep(m, safe, s);
    assert Released(m, Pruned(m, safe), safe, d);
    PrunedIs(m, safe);
    PrefixLeaves(m, Pruned(m, safe), safe.number);
  }

  lemma ClearedDone(b: Batcher, s: SyncStatus)
    requires Inv(b.mgr) && Live(b.mgr) && InSync(s, b.prevCurrentL1) && b.mgr.blocks != []
    requires !KeepState(s, s.localSafe.value, b.mgr.blocks, QueuedChans(b.mgr))
    ensures SyncDone(b, s, Batcher(b.mgr.Clear(s.localSafe.value.l1Origin), s.currentL1),
                     RangeAbove(s.localSafe.value.number, s.unsafeNum.value))
  {
    hide ChansOk, RunOk, Run, OrderOk, IndexOk, StaleOk, SettledExcept, Live, QueuedChans, SafePrefix, KeepState,
      MustClear, LeavesQueue;
    KeepExactly(b.mgr, s, s.localSafe.value);
    ClearKeeps(b.mgr, s.localSafe.value.l1Origin);
  }

  lemma TipIsThere(m: Manager)
    requires m.WF() && RunOk(m) && m.blocks != []
    ensures m.tip != NoHash
  {
    TipIsLast(m);
    BlocksInRun(m);
  }

  lemma BlocksInRun(m: Manager)
    requires m.WF() && RunOk(m)
    ensures |m.blocks| <= |Run(m)|
  {
    hide Run, InChannels, Linked;
  }

  lemma SyncPrunes(b: Batcher, s: SyncStatus)
    requires b.mgr.WF() && InSync(s, b.prevCurrentL1) && b.mgr.blocks != []
    requires KeepState(s, s.localSafe.value, b.mgr.blocks, QueuedChans(b.mgr))
    ensures b.SyncAndPrune(s).Some?
    ensures var m, safe := b.mgr, s.localSafe.value;
            && m.blocks[0].number <= safe.number + 1 && safe.number + 1 - m.blocks[0].number <= |m.blocks|
            && b.SyncAndPrune(s).value == (Batcher(Pruned(m, safe), s.currentL1),
                                           RangeAbove(m.blocks[|m.blocks| - 1].number, s.unsafeNum.value))
  {
    KeepStateMeans(s, s.localSafe.value, b.mgr.blocks, QueuedChans(b.mgr));
    hide KeepState, QueuedChans, SafePrefix;
  }

  lemma KeepStateMeans(s: SyncStatus, safe: Block, blocks: seq<Block>, channels: seq<Chan>)
    requires blocks != [] && KeepState(s, safe, blocks, channels)
    ensures blocks[0].number <= safe.number + 1 && safe.number + 1 - blocks[0].number <= |blocks|
  {
  }

  /** Loads blocks in order; stops at the first one that does not extend the chain. */
  function LoadAll(m: Manager, bs: seq<Block>): (Manager, bool)
    decreases |bs|
  {
    if bs == [] then (m, true)
    else
      var (m', ok) := m.AddL2Block(bs[0]);
      if ok then LoadAll(m', bs[1..]) else (m', false)
  }

  lemma {:induction false} LoadAllBlocks(m: Manager, bs: seq<Block>)
    requires LoadAll(m, bs).1
    ensures LoadAll(m, bs).0.blocks == m.blocks + bs
    decreases |bs|
  {
    if bs != [] {
      LoadAllBlocks(m.AddL2Block(bs[0]).0, bs[1..]);
      assert m.blocks + [bs[0]] + bs[1..] == m.blocks + bs;
    }
  }

  /** Sync is exact: syncing and then loading the returned range leaves exactly the blocks
      after the safe head in state, up to the unsafe head, or to the newest block that was
      kept if that is higher. */
  lemma SyncIsExact(b: Batcher, s: SyncStatus, b': Batcher, load: Option<Range>, bs: seq<Block>)
    requires Inv(b.mgr) && Live(b.mgr) && InSync(s, b.prevCurrentL1)
    requires b.SyncAndPrune(s) == Some((b', load))
    requires load.None? ==> bs == []
    requires load.Some? ==> NumberedFrom(bs, load.value.start) && |bs| == load.value.end + 1 - load.value.start
    requires LoadAll(b'.mgr, bs).1
    ensures var safe, unsafeNum, kept := s.localSafe.value.number, s.unsafeNum.value, |b'.mgr.blocks|;
            var blocks := LoadAll(b'.mgr, bs).0.blocks;
            && NumberedFrom(blocks, safe + 1)
            && safe + |blocks| == if unsafeNum > safe + kept then unsafeNum else safe + kept
  {
    hide Core, SettledExcept, Live, Batcher.SyncAndPrune, LoadAll, MustClear, LeavesQueue;
    SyncKeeps(b, s);
    LoadAllBlocks(b'.mgr, bs);
  }
}
