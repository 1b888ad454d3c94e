/** What becomes of a block that is no longer in the run: it stays out of it until the state is
    cleared or the block cursor is rewound to or before it. None of this needs the invariant,
    which is gone once blocks were lost. */
module LostRuns {
  import opened Chain
  import opened Frames
  import opened Options
  import opened ChannelSpec
  import opened ManagerSpec
  import opened ManagerInv
  import opened PublishSteps
  import opened Publishing
  import opened DroppedBlocks
  import opened TxDataStep
  import opened SyncSpec
  import opened SyncProofs
  import opened BatcherRuns
  import opened BatcherLedger

  // ---- Blocks that are not in the run ----

  /** The block does not wait, and no queued channel has it. */
  ghost predicate Absent(m: Manager, b: Block)
    requires m.WF()
  {
    b !in m.blocks[m.cursor..] && forall id | id in m.queue :: b !in m.chans[id].blocks
  }

  lemma {:induction false} FlatLacks(chans: map<ChId, Chan>, q: seq<ChId>, b: Block)
    requires forall id | id in q :: id in chans
    ensures b !in Flat(chans, q) <==> forall id | id in q :: b !in chans[id].blocks
  {
    if q != [] {
      var n := |q| - 1;
      FlatLacks(chans, q[..n], b);
      assert q == q[..n] + [q[n]];
    }
  }

  lemma AbsentIs(m: Manager, b: Block)
    requires m.WF()
    ensures Absent(m, b) <==> b !in Run(m)
  {
    FlatLacks(m.chans, m.queue, b);
  }

  /** The blocks in state are linked and end at the tip. */
  ghost predicate Chained(m: Manager) {
    Linked(m.blocks) && (m.blocks != [] ==> m.tip == Digest(m.blocks[|m.blocks| - 1]))
  }

  /** The block is no newer than the tip, and not in the run. */
  ghost predicate Out(m: Manager, b: Block)
    requires m.WF()
  {
    m.tip.Digest? && b.number <= m.tip.block.number && Absent(m, b)
  }

  // ---- Steps that bring nothing into the run ----

  ghost function IdOf(out: Option<NewOut>): set<ChId> { if out.Some? then {out.value.id} else {} }

  /** The blocks in state are the same, at most the given channel is new, and the run has no block
      that it did not have. */
  ghost predicate NoNews(m: Manager, m': Manager, ids: set<ChId>) {
    && m.WF() && m'.WF() && m'.blocks == m.blocks && m'.tip == m.tip && m'.chans.Keys <= m.chans.Keys + ids
    && forall b | Absent(m, b) :: Absent(m', b)
  }

  lemma SameNoNews(m: Manager, m': Manager)
    requires m.WF() && m'.WF() && m'.blocks == m.blocks && m'.tip == m.tip && m'.cursor == m.cursor
    requires m'.queue == m.queue && m'.chans.Keys == m.chans.Keys
    requires forall id | id in m.queue :: m'.chans[id].blocks == m.chans[id].blocks
    ensures NoNews(m, m', {})
  {
  }

  lemma NoNewsThen(m: Manager, m1: Manager, m2: Manager, ids: set<ChId>)
    requires (NoNews(m, m1, ids) && NoNews(m1, m2, {})) || (NoNews(m, m1, {}) && NoNews(m1, m2, ids))
    ensures NoNews(m, m2, ids)
  {
    hide Absent, Manager.WF;
  }

  lemma NextNoNews(m: Manager, id: ChId)
    requires m.WF() && id in m.chans
    ensures NoNews(m, m.NextTxData(id).0, {})
  {
    NextSameRun(m, id);
    var m' := m.NextTxData(id).0;
    hide Run, NoNews;
    SameNoNews(m, m');
  }

  lemma ForceCloseNoNews(m: Manager, pi: PubInfo)
    requires m.WF()
    ensures NoNews(m, m.ForceClose(pi).0, {})
  {
    var m' := m.ForceClose(pi).0;
    if m.current.Some? {
      OutputFramesBlocks(m.chans[m.current.value].Close());
      OutputFramesShape(m.chans[m.current.value].Close());
    }
    hide Chan.OutputFrames, NoNews;
    SameNoNews(m, m');
  }

  lemma RegisterNoNews(m: Manager, head: nat, pi: PubInfo)
    requires m.WF() && m.current.Some?
    ensures NoNews(m, m.RegisterAndOutput(head, pi).0, {})
  {
    var c0 := m.chans[m.current.value];
    var c := if pi.ignoreMaxChannelDuration then c0 else c0.CheckTimeout(head);
    OutputFramesBlocks(c);
    OutputFramesShape(c);
    hide Chan.OutputFrames, NoNews;
    SameNoNews(m, m.RegisterAndOutput(head, pi).0);
  }

  lemma EnsureNoNews(m: Manager, out: Option<NewOut>)
    requires m.WF() && FreshOut(m, out) && m.EnsureChannelWithSpace(out).Some?
    ensures NoNews(m, m.EnsureChannelWithSpace(out).value, IdOf(out))
  {
    if out.Some? {
      NewChanEmpty(out.value.id, out.value.comp, m.cfg, m.l1OriginLast);
    }
    hide NewChan;
  }

  lemma ProcessNoNews(m: Manager)
    requires m.WF() && m.current.Some?
    ensures NoNews(m, m.ProcessBlocks().0, {})
  {
    hide AddBlocks, Manager.ProcessBlocks;
    ProcessedIs(m);
    AddBlocksTakes(m.chans[m.current.value], m.blocks[m.cursor..]);
    var (c, n, _) := AddBlocks(m.chans[m.current.value], m.blocks[m.cursor..]);
    TakeNoNews(m, m.ProcessBlocks().0, c, n);
  }

  /** A channel took waiting blocks. */
  lemma TakeNoNews(m: Manager, m': Manager, c: Chan, n: nat)
    requires m.WF() && m'.WF() && c.id in m.chans && n <= |m.blocks| - m.cursor
    requires m' == m.With(c).(cursor := m.cursor + n, pendingBytes := m'.pendingBytes)
    requires c.blocks == m.chans[c.id].blocks + m.blocks[m.cursor..][..n]
    ensures NoNews(m, m', {})
  {
    hide Absent;
    forall b | Absent(m, b) ensures Absent(m', b) {
      TakeAbsent(m, m', c, n, b);
    }
  }

  lemma TakeAbsent(m: Manager, m': Manager, c: Chan, n: nat, b: Block)
    requires m.WF() && m'.WF() && c.id in m.chans && n <= |m.blocks| - m.cursor && Absent(m, b)
    requires m'.blocks == m.blocks && m'.cursor == m.cursor + n && m'.queue == m.queue && m'.chans == m.chans[c.id := c]
    requires c.blocks == m.chans[c.id].blocks + m.blocks[m.cursor..][..n]
    ensures Absent(m', b)
  {
    SplitPending(m.blocks, m.cursor, n);
    InHalf(m.blocks[m.cursor..], n, b);
    hide Manager.WF;
    if c.id in m.queue {
      assert b !in m.chans[c.id].blocks;
    }
  }

  lemma InHalf(s: seq<Block>, n: nat, b: Block)
    requires n <= |s| && b !in s
    ensures b !in s[..n] && b !in s[n..]
  {
  }

  lemma BuildNoNews(m: Manager, head: nat, pi: PubInfo, out: Option<NewOut>)
    requires m.WF() && FreshOut(m, out)
    ensures NoNews(m, m.BuildChannel(head, pi, out).0, IdOf(out))
  {
    BuildCases(m, head, pi, out);
    NoNewsSelf(m, IdOf(out));
    hide NoNews, Manager.WF, Manager.BuildChannel, Manager.EnsureChannelWithSpace, Manager.ProcessBlocks,
      Manager.RegisterAndOutput, FreshOut, IdOf;
    match m.EnsureChannelWithSpace(out)
    case None =>
    case Some(m1) =>
      EnsureNoNews(m, out);
      ProcessNoNews(m1);
      var m2 := m1.ProcessBlocks().0;
      NoNewsThen(m, m1, m2, IdOf(out));
      RegisterNoNews(m2, head, pi);
      NoNewsThen(m, m2, m2.RegisterAndOutput(head, pi).0, IdOf(out));
  }

  lemma NoNewsSelf(m: Manager, ids: set<ChId>)
    requires m.WF()
    ensures NoNews(m, m, ids)
  {
  }

  lemma ReadyNoNews(m: Manager, head: nat, pi: PubInfo, out: Option<NewOut>)
    requires m.WF() && FreshOut(m, out)
    ensures NoNews(m, m.GetReadyChannel(head, pi, out).0, IdOf(out))
  {
    hide NoNews, Manager.WF, Manager.BuildChannel, Manager.ForceClose, FirstWithTxData, IdOf;
    ForceCloseNoNews(m, pi);
    var m0 := m.ForceClose(pi).0;
    NoNewsSelf(m0, IdOf(out));
    BuildNoNews(m0, head, pi, out);
    NoNewsThen(m, m0, m.GetReadyChannel(head, pi, out).0, IdOf(out));
  }

  // ---- Rewinding ----

  /** Rewinding to the first block of the channel brings the block back. */
  predicate BringsBack(m: Manager, c: Chan, b: Block) {
    c.blocks != [] && b in m.blocks && c.blocks[0].number <= b.number
  }

  lemma AfterIndex(blocks: seq<Block>, i: nat, b: Block)
    requires Linked(blocks) && i < |blocks|
    ensures b in blocks[i..] <==> b in blocks && blocks[i].number <= b.number
  {
    hide Linked;
    if b in blocks {
      var j :| 0 <= j < |blocks| && blocks[j] == b;
      if i <= j {
        LinkedNumbers(blocks, i, j);
        assert blocks[i..][j - i] == b;
      } else {
        LinkedNumbers(blocks, j, i);
        forall k | 0 <= k < |blocks[i..]| ensures blocks[i..][k] != b {
          LinkedNumbers(blocks, j, i + k);
        }
      }
    }
  }

  lemma RewindBrings(m: Manager, first: Block, b: Block)
    requires Chained(m) && m.cursor <= |m.blocks| && m.RewindToBlock(first).Some?
    ensures var m' := m.RewindToBlock(first).value;
            && m' == m.(cursor := m'.cursor, pendingBytes := m'.pendingBytes) && m'.cursor <= |m.blocks|
            && (b in m'.blocks[m'.cursor..] <==> b in m.blocks && first.number <= b.number)
  {
    hide Linked;
    AfterIndex(m.blocks, m.RewindToBlock(first).value.cursor, b);
  }

  lemma InvalidateBrings(m: Manager, id: ChId, b: Block)
    requires m.WF() && Chained(m) && id in m.chans && m.Invalidate(id).Some? && Absent(m, b)
    ensures var m' := m.Invalidate(id).value;
            && m'.WF() && m'.blocks == m.blocks && m'.tip == m.tip && m'.chans == m.chans && m'.current.None?
            && (Absent(m', b) <==> !BringsBack(m, m.chans[id], b))
  {
    hide Chained, Manager.RewindToBlock;
    var c := m.chans[id];
    if c.blocks != [] {
      RewindBrings(m, c.blocks[0], b);
    }
    var i := IndexOrZero(m.queue, id);
    assert forall x | x in m.queue[..i] :: x in m.queue;
  }

  // ---- One step ----

  /** The channel of the transaction reports a timeout. */
  predicate Flagged(m: Manager, k: TxId, inclusion: nat)
    requires m.WF()
  {
    k in m.txChannels && m.chans[m.txChannels[k]].TxConfirmed(k, inclusion).1
  }

  /** The step rewinds to or before the block. */
  ghost predicate Rewinds(m: Manager, e: Event, b: Block)
    requires m.WF()
  {
    match e
    case Confirm(k, inclusion) => Flagged(m, k, inclusion) && BringsBack(m, m.chans[m.txChannels[k]], b)
    case Publish(head, newCfg, pi, out1, _) =>
      var (m0, r0) := m.GetReadyChannel(head, pi, out1);
      Switches(m0, r0, newCfg) && BringsBack(m0, m0.chans[r0.id], b)
    case _ => false
  }

  ghost predicate Clears(b: Batcher, e: Event)
    requires b.mgr.WF()
  {
    match e
    case Sync(s) => SyncClears(b, s)
    case ClearState(_) => true
    case _ => false
  }

  /** The block is in the run exactly if it came back; otherwise it is still out. */
  ghost predicate Then(m: Manager, b: Block, back: bool) {
    && m.WF() && Chained(m) && m.tip.Digest? && b.number <= m.tip.block.number && (Absent(m, b) <==> !back)
  }

  lemma LoadOut(m: Manager, b': Block, b: Block)
    requires m.WF() && Chained(m) && Out(m, b) && b'.WellFormed()
    ensures Then(m.AddL2Block(b').0, b, false)
  {
    var m' := m.AddL2Block(b').0;
    if m' != m {
      assert m'.blocks[m'.cursor..] == m.blocks[m.cursor..] + [b'];
      ChainedSnoc(m, b');
    }
  }

  lemma ChainedSnoc(m: Manager, b: Block)
    requires Chained(m) && b.WellFormed() && m.tip == b.parent
    ensures Chained(m.AddL2Block(b).0)
  {
    LinkedSnoc(m.blocks, b);
  }

  lemma FailOut(m: Manager, k: TxId, b: Block)
    requires m.WF() && Chained(m) && Out(m, b) && m.TxFailed(k).Some?
    ensures Then(m.TxFailed(k).value, b, false)
  {
    hide Chained, Absent, Manager.TxFailed, NoNews, Manager.WF;
    FailNoNews(m, k);
    NoNewsOut(m, m.TxFailed(k).value, b, {});
  }

  lemma FailNoNews(m: Manager, k: TxId)
    requires m.WF() && m.TxFailed(k).Some?
    ensures NoNews(m, m.TxFailed(k).value, {})
  {
    hide NoNews;
    SameNoNews(m, m.TxFailed(k).value);
  }

  lemma NoNewsOut(m: Manager, m': Manager, b: Block, ids: set<ChId>)
    requires NoNews(m, m', ids) && Chained(m) && Out(m, b)
    ensures Then(m', b, false)
  {
    hide Chained, Absent, Manager.WF;
    ChainedSame(m, m');
  }

  lemma ChainedSame(m: Manager, m': Manager)
    requires Chained(m) && m'.blocks == m.blocks && m'.tip == m.tip
    ensures Chained(m')
  {
  }

  lemma ConfirmOut(m: Manager, k: TxId, inclusion: BlockNum, b: Block)
    requires m.WF() && Chained(m) && Out(m, b) && m.TxConfirmed(k, inclusion).Some?
    ensures Then(m.TxConfirmed(k, inclusion).value, b, Rewinds(m, Confirm(k, inclusion), b))
  {
    hide Chained, Manager.Invalidate, BringsBack, Absent;
    var m' := m.TxConfirmed(k, inclusion).value;
    if k in m.txChannels {
      var m1 := Noted(m, k, inclusion);
      NotedSame(m, k, inclusion, b);
      ChainedSame(m, m1);
      if Flagged(m, k, inclusion) {
        InvalidateBrings(m1, m.txChannels[k], b);
        ChainedSame(m, m');
        BringsSame(m, m1, m.chans[m.txChannels[k]], m1.chans[m.txChannels[k]], b);
      }
    }
  }

  lemma NotedSame(m: Manager, k: TxId, inclusion: nat, b: Block)
    requires m.WF() && k in m.txChannels && Absent(m, b)
    ensures var m1 := Noted(m, k, inclusion); var id := m.txChannels[k];
            && m1.WF() && m1.blocks == m.blocks && m1.tip == m.tip && Absent(m1, b)
            && id in m1.chans && m1.chans[id].blocks == m.chans[id].blocks
  {
  }

  lemma BringsSame(m: Manager, m': Manager, c: Chan, c': Chan, b: Block)
    requires m'.blocks == m.blocks && c'.blocks == c.blocks
    ensures BringsBack(m', c', b) <==> BringsBack(m, c, b)
  {
  }

  lemma SwitchOut(m: Manager, id: ChId, head: nat, newCfg: Config, pi: PubInfo, out: Option<NewOut>, b: Block)
    requires m.WF() && Chained(m) && Out(m, b) && newCfg.Usable() && FreshOut(m, out) && id in m.chans
    requires m.SwitchType(id, head, newCfg, pi, out).Some?
    ensures Then(m.SwitchType(id, head, newCfg, pi, out).value.0, b, BringsBack(m, m.chans[id], b))
  {
    hide Chained, Run, Absent, BringsBack, Manager.GetReadyChannel, Manager.Invalidate, Manager.NextTxData;
    InvalidateBrings(m, id, b);
    var m1 := m.Invalidate(id).value;
    var m2 := m1.(cfg := newCfg);
    SameRun(m1, m2);
    ReadySameRun(m2, head, pi, out);
    ReadyNoNews(m2, head, pi, out);
    var (m3, r3) := m2.GetReadyChannel(head, pi, out);
    if r3.Ready? {
      NextSameRun(m3, r3.id);
      NextNoNews(m3, r3.id);
    }
    var m' := m.SwitchType(id, head, newCfg, pi, out).value.0;
    AbsentIs(m1, b);
    AbsentIs(m', b);
    ChainedSame(m, m');
  }

  lemma PublishOut(m: Manager, e: Event, b: Block)
    requires m.WF() && Chained(m) && Out(m, b) && e.Publish? && e.newCfg.Usable() && OutsOk(m, e.out1, e.out2)
    requires m.TxData(e.head, e.newCfg, e.pi, e.out1, e.out2).Some?
    ensures Then(m.TxData(e.head, e.newCfg, e.pi, e.out1, e.out2).value.0, b, Rewinds(m, e, b))
  {
    hide Chained, Absent, BringsBack, Manager.GetReadyChannel, Manager.SwitchType, Manager.NextTxData, Manager.TxData,
      Chan.NoneSubmitted;
    ReadyNoNews(m, e.head, e.pi, e.out1);
    TxDataIs(m, e.head, e.newCfg, e.pi, e.out1, e.out2);
    var (m0, r0) := m.GetReadyChannel(e.head, e.pi, e.out1);
    ChainedSame(m, m0);
    assert Absent(m0, b);
    if Switches(m0, r0, e.newCfg) {
      SwitchOut(m0, r0.id, e.head, e.newCfg, e.pi, e.out2, b);
    } else if r0.Ready? {
      NextNoNews(m0, r0.id);
      ChainedSame(m, m0.NextTxData(r0.id).0);
    }
  }

  lemma SyncOut(batcher: Batcher, s: SyncStatus, b: Block)
    requires batcher.mgr.WF() && Chained(batcher.mgr) && Out(batcher.mgr, b) && batcher.SyncAndPrune(s).Some?
    requires !SyncClears(batcher, s)
    ensures Then(batcher.SyncAndPrune(s).value.0.mgr, b, false)
  {
    hide Chained, ComputeSyncActions, QueuedChans;
    var m := batcher.mgr;
    var a := ComputeSyncActions(s, batcher.prevCurrentL1, m.blocks, QueuedChans(m)).0;
    if batcher.SyncAndPrune(s).value.0.mgr != m {
      PruneOut(m, batcher.SyncAndPrune(s).value.0.mgr, a.blocksToPrune, a.channelsToPrune, b);
    }
  }

  lemma PruneOut(m: Manager, m': Manager, n: nat, k: nat, b: Block)
    requires m.WF() && Chained(m) && Out(m, b) && m.PruneSafeBlocks(n).Some?
    requires m.PruneSafeBlocks(n).value.PruneChannels(k) == Some(m')
    ensures Then(m', b, false)
  {
    hide Chained, Absent, Manager.PruneSafeBlocks, Manager.PruneChannels;
    PruneBlocksOut(m, n, b);
    PruneChannelsOut(m.PruneSafeBlocks(n).value, k, b);
  }

  lemma PruneBlocksOut(m: Manager, n: nat, b: Block)
    requires m.WF() && Chained(m) && Out(m, b) && m.PruneSafeBlocks(n).Some?
    ensures Then(m.PruneSafeBlocks(n).value, b, false)
  {
    hide Chained, Absent, Manager.PruneSafeBlocks;
    var m' := m.PruneSafeBlocks(n).value;
    BlocksPruned(m, n);
    ChainedRest(m, m', n);
    PrunedAbsent(m, m', n, b);
  }

  lemma BlocksPruned(m: Manager, n: nat)
    requires m.WF() && m.PruneSafeBlocks(n).Some?
    ensures var m' := m.PruneSafeBlocks(n).value;
            && m'.WF() && n <= |m.blocks| && m'.blocks == m.blocks[n..] && m'.tip == m.tip
            && m'.cursor == (if n <= m.cursor then m.cursor - n else 0) && m'.queue == m.queue && m'.chans == m.chans
  {
  }

  lemma PrunedAbsent(m: Manager, m': Manager, n: nat, b: Block)
    requires m.WF() && m'.WF() && n <= |m.blocks| && m'.blocks == m.blocks[n..] && Absent(m, b)
    requires m'.cursor == (if n <= m.cursor then m.cursor - n else 0) && m'.queue == m.queue && m'.chans == m.chans
    ensures Absent(m', b)
  {
    var i := if n <= m.cursor then m.cursor else n;
    RestOfRest(m.blocks, n, i);
    InRest(m.blocks, m.cursor, i, b);
  }

  lemma ChainedRest(m: Manager, m': Manager, n: nat)
    requires Chained(m) && n <= |m.blocks| && m'.blocks == m.blocks[n..] && m'.tip == m.tip
    ensures Chained(m')
  {
    hide Linked;
    LinkedSlice(m.blocks, n, |m.blocks|);
    assert m.blocks[n..|m.blocks|] == m.blocks[n..];
  }

  lemma InRest(s: seq<Block>, i: nat, j: nat, b: Block)
    requires i <= j <= |s| && b !in s[i..]
    ensures b !in s[j..]
  {
    assert s[j..] == s[i..][j - i..];
  }

  lemma PruneChannelsOut(m: Manager, k: nat, b: Block)
    requires Then(m, b, false) && m.PruneChannels(k).Some?
    ensures Then(m.PruneChannels(k).value, b, false)
  {
    hide Linked;
    assert forall x | x in m.queue[k..] :: x in m.queue;
  }

  /** After any step but a clear, a block that was out of the run is in it if and only if the step
      rewinds to or before it, and otherwise is still out. */
  lemma BackExactly(l: Ledger, e: Event, b: Block)
    requires l.batcher.mgr.WF() && Chained(l.batcher.mgr) && Out(l.batcher.mgr, b)
    requires EnvOk(l, e) && Step(l, e).Some? && !Clears(l.batcher, e)
    ensures var m' := Step(l, e).value.batcher.mgr;
            && m'.WF() && Chained(m')
            && (b in Run(m') <==> Rewinds(l.batcher.mgr, e, b)) && (b !in Run(m') ==> Out(m', b))
  {
    hide Chained, Absent, Rewinds, Run, Manager.TxData, Manager.TxFailed, Manager.TxConfirmed, Batcher.SyncAndPrune,
      SyncClears, Manager.AddL2Block, OutsOk;
    var m := l.batcher.mgr;
    match e {
      case Load(b') => LoadOut(m, b', b);
      case Publish(_, _, _, _, _) => PublishOut(m, e, b);
      case Fail(k) => FailOut(m, k, b);
      case Confirm(k, inclusion) => ConfirmOut(m, k, inclusion, b);
      case Sync(s) => SyncOut(l.batcher, s, b);
    }
    OnlyTwoRewind(m, e, b);
    AbsentIs(Step(l, e).value.batcher.mgr, b);
  }

  lemma OnlyTwoRewind(m: Manager, e: Event, b: Block)
    requires m.WF()
    ensures Rewinds(m, e, b) ==> e.Confirm? || e.Publish?
  {
  }

  // ---- Whole runs ----

  /** A run of any steps, blocks lost or not, without a clear and without rewinding to or before
      the block. */
  ghost predicate Past(l: Ledger, es: seq<Event>, l': Ledger, b: Block)
    decreases |es|
  {
    if es == [] then l' == l
    else
      && l.batcher.mgr.WF() && EnvOk(l, es[0]) && Step(l, es[0]).Some?
      && !Clears(l.batcher, es[0]) && !Rewinds(l.batcher.mgr, es[0], b)
      && Past(Step(l, es[0]).value, es[1..], l', b)
  }

  lemma {:induction false} StaysOut(l: Ledger, es: seq<Event>, l': Ledger, b: Block)
    requires l.batcher.mgr.WF() && Chained(l.batcher.mgr) && Out(l.batcher.mgr, b) && Past(l, es, l', b)
    ensures l'.batcher.mgr.WF() && Chained(l'.batcher.mgr) && Out(l'.batcher.mgr, b)
    decreases |es|
  {
    hide Manager.WF, Chained, Out, EnvOk, Step, Clears, Rewinds, Run;
    if es != [] {
      BackExactly(l, es[0], b);
      StaysOut(Step(l, es[0]).value, es[1..], l', b);
    }
  }

  /** A block with the number of `b` that no sequencer hands out. */
  function Orphan(b: Block): Block { Block(NoHash, b.number, 0, 0, 0) }

  lemma InvMeans(m: Manager, b: Block)
    requires Inv(m) && b in Run(m)
    ensures m.WF() && Chained(m) && m.tip.Digest? && b.number <= m.tip.block.number
    ensures Orphan(b) !in Run(m) && Orphan(b) !in m.blocks
  {
    hide ChansOk, OrderOk, IndexOk, StaleOk, SettledExcept, Run, InChannels, Linked;
    var run := Run(m);
    var i :| 0 <= i < |run| && run[i] == b;
    LinkedNumbers(run, i, |run| - 1);
    LinkedSlice(run, |InChannels(m)| - m.cursor, |run|);
    assert run[|InChannels(m)| - m.cursor..|run|] == m.blocks;
    assert forall x | x in m.blocks :: x in run;
  }

  lemma NotRewound(m: Manager, e: Event, b: Block)
    requires m.WF() && b !in m.blocks && (e.Publish? ==> FreshOut(m, e.out1))
    ensures !Rewinds(m, e, b)
  {
    hide Manager.GetReadyChannel, Absent;
    if e.Publish? {
      ReadyNoNews(m, e.head, e.pi, e.out1);
    }
  }

  lemma TakenOut(l: Ledger, e: Event, b: Block)
    requires LedgerInv(l) && EnvOk(l, e) && Step(l, e).Some? && !Clears(l.batcher, e)
    requires b in Run(l.batcher.mgr) && Step(l, e).value.batcher.mgr.WF() && b !in Run(Step(l, e).value.batcher.mgr)
    ensures Chained(Step(l, e).value.batcher.mgr) && Out(Step(l, e).value.batcher.mgr, b)
  {
    hide Core, SettledExcept, Live, Balanced, Run, Chained, Step, Absent, Rewinds, Clears;
    var m := l.batcher.mgr;
    InvMeans(m, b);
    AbsentIs(m, Orphan(b));
    NotRewound(m, e, Orphan(b));
    BackExactly(l, e, Orphan(b));
    AbsentIs(Step(l, e).value.batcher.mgr, b);
  }

  /** From the invariant on: a block that a step takes out of the run, be it lost or released, stays
      out until the state is cleared or a channel that starts at or before it is invalidated. */
  lemma LostStaysLost(l: Ledger, e: Event, es: seq<Event>, l': Ledger, b: Block)
    requires LedgerInv(l) && EnvOk(l, e) && Step(l, e).Some? && !Clears(l.batcher, e)
    requires b in Run(l.batcher.mgr) && Step(l, e).value.batcher.mgr.WF() && b !in Run(Step(l, e).value.batcher.mgr)
    requires Past(Step(l, e).value, es, l', b)
    ensures l'.batcher.mgr.WF() && b !in Run(l'.batcher.mgr)
  {
    hide Run, Chained, Past, Step, Absent;
    TakenOut(l, e, b);
    StaysOut(Step(l, e).value, es, l', b);
    AbsentIs(l'.batcher.mgr, b);
  }
}
