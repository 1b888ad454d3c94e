/** Building channels and handing out their frames keeps the invariant, the run of blocks
    and the order of submission. */
module PublishSteps {
  import opened Chain
  import opened Frames
  import opened Options
  import opened ChannelSpec
  import opened ChannelProofs
  import opened ManagerSpec
  import opened ManagerInv

  /** A channel out comes with an ID that was never seen before. */
  ghost predicate FreshOut(m: Manager, out: Option<NewOut>) {
    out.Some? ==> out.value.id != 0 && out.value.id !in m.chans
  }

  /** The channels before index `i` have no frame left to send. */
  ghost predicate NothingBefore(m: Manager, i: nat)
    requires m.WF() && i <= |m.queue|
  {
    forall j | 0 <= j < i :: !m.chans[m.queue[j]].HasPendingFrame()
  }

  // ---- The next transaction ----

  /** The ID of a pending transaction names the channel it belongs to. */
  lemma TxOwner(c: Chan, k: TxId)
    requires ChanInv(c) && k in c.pending
    ensures |k| > 0 && k[0].chId == c.id
  {
    assert IsTxOf(c, k, c.pending[k]);
  }

  lemma SendIndex(m: Manager, m': Manager, c': Chan, k: TxId, tx: TxData)
    requires m.WF() && m'.WF() && ChansOk(m) && IndexOk(m) && Swapped(m, m', c')
    requires c'.id in m.queue && m'.queue == m.queue
    requires ChanInv(c') && c'.pending == m.chans[c'.id].pending[k := tx]
    requires m'.txChannels == m.txChannels[k := c'.id]
    ensures IndexOk(m')
  {
    hide ChanInv, ChansOk;
    TxOwner(c', k);
    forall x | x in m'.txChannels
      ensures x in m'.chans[m'.txChannels[x]].pending
    {
      assert x != k ==> x in m.txChannels && m'.txChannels[x] == m.txChannels[x];
    }
    forall id, x | id in m'.queue && x in m'.chans[id].pending
      ensures x in m'.txChannels && m'.txChannels[x] == id
    {
      if id != c'.id {
        InvOf(m, id);
        TxOwner(m.chans[id], x);
      }
    }
  }

  /** The latest L1 origin so far, and of these blocks. */
  ghost predicate LatestOrigin(was: nat, bs: seq<Block>, l1: nat) {
    && was <= l1 && (forall b | b in bs :: b.l1Origin <= l1)
    && (l1 == was || exists b :: b in bs && b.l1Origin == l1)
  }

  lemma OriginIs(m: Manager, id: ChId)
    requires m.WF() && id in m.chans && ChanInv(m.chans[id]) && m.chans[id].HasTxData()
    ensures LatestOrigin(m.l1OriginLast, m.chans[id].blocks, m.NextTxData(id).0.l1OriginLast)
  {
    hide FramesOk, PendingOk, NoFrameLost, BlocksOk, DeadlinesOk, InclusionOk, TxData.Id, Chan.HasTxData;
  }

  lemma NextTxStep(m: Manager, id: ChId)
    requires Inv(m) && id in m.queue && m.chans[id].HasTxData()
    ensures var (m', r) := m.NextTxData(id);
            && Inv(m') && Run(m') == Run(m) && m'.queue == m.queue
            && r.Data? && r.from == id
            && r.tx.asBlob == m.chans[id].cfg.useBlobs
            && r.tx.frames == m.chans[id].frames[m.chans[id].frameCursor..m'.chans[id].frameCursor]
            && |r.tx.frames| > 0 && RightSize(m'.chans[id], r.tx)
            && (forall x | x in m.chans && x != id :: m'.chans[x] == m.chans[x])
            && LatestOrigin(m.l1OriginLast, m.chans[id].blocks, m'.l1OriginLast)
  {
    hide ChanInv, RunOk, Run, OrderOk, IndexOk, StaleOk, Chan.NextTxData, LatestOrigin;
    var c := m.chans[id];
    assert ChanInv(c) && Settled(c);
    OriginIs(m, id);
    NextTxDataInv(c);
    var (c', tx) := c.NextTxData();
    var m' := m.NextTxData(id).0;
    hide ChansOk, SettledExcept;
    NextTxKeeps(m, m', c', tx);
  }

  lemma NextTxKeeps(m: Manager, m': Manager, c': Chan, tx: TxData)
    requires Inv(m) && c'.id in m.queue && ChanInv(c') && Settled(c')
    requires c'.IsFull() == m.chans[c'.id].IsFull() && c'.blocks == m.chans[c'.id].blocks
    requires c'.pending == m.chans[c'.id].pending[tx.Id() := tx]
    requires m' == m.With(c').(txChannels := m.txChannels[tx.Id() := c'.id], l1OriginLast := m'.l1OriginLast)
    ensures Inv(m') && Run(m') == Run(m)
  {
    hide ChanInv, Settled, ChansOk, SettledExcept, OrderOk, RunOk, Run, IndexOk, StaleOk;
    SwapWF(m, m', c');
    SwapChans(m, m', c');
    SwapSettled(m, m', c', None);
    SwapOrder(m, m', c');
    SwapRun(m, m', c');
    SendIndex(m, m', c', tx.Id(), tx);
    SwapStale(m, m', c');
  }

  // ---- Closing by force ----

  lemma CloseInv(c: Chan)
    requires ChanInv(c)
    ensures ChanInv(c.Close())
  {
    if !c.IsFull() {
      SetFullInv(c, Terminated);
    }
  }

  /** The current channel has no frame yet, and is to be published at once. */
  predicate Forced(m: Manager, pi: PubInfo)
    requires m.WF()
  {
    pi.forcePublish && m.current.Some? && m.chans[m.current.value].frames == []
  }

  lemma ForceCloseStep(m: Manager, pi: PubInfo)
    requires Inv(m)
    ensures var (m', ok) := m.ForceClose(pi);
            && ok && Inv(m') && Run(m') == Run(m) && (m.current.None? ==> m' == m)
            && (forall id | id in m.chans ::
                  m'.chans[id].blocks == m.chans[id].blocks && m'.chans[id].cfg == m.chans[id].cfg)
            && (if Forced(m, pi) then m'.chans[m.current.value].closed && m'.chans[m.current.value].HasTxData()
                else m' == m)
  {
    hide ChanInv, RunOk, Run, OrderOk, IndexOk, StaleOk, Chan.OutputFrames;
    if pi.forcePublish && m.current.Some? && |m.chans[m.current.value].frames| == 0 {
      var c := m.chans[m.current.value];
      assert ChanInv(c) && Settled(c);
      CloseInv(c);
      OutputFramesInv(c.Close());
      var c' := c.Close().OutputFrames().0;
      var m' := m.With(c');
      assert m' == m.ForceClose(pi).0;
      hide ChansOk, SettledExcept, Settled;
      SwapCore(m, c');
      SwapSettled(m, m', c', None);
    }
  }

  // ---- A channel with space ----

  lemma AppendRun(m: Manager, m': Manager, c: Chan)
    requires m.WF() && m'.WF() && RunOk(m) && Swapped(m, m', c)
    requires c.id !in m.chans && c.blocks == []
    requires m'.queue == m.queue + [c.id] && m'.blocks == m.blocks && m'.cursor == m.cursor && m'.tip == m.tip
    ensures RunOk(m') && Run(m') == Run(m)
  {
    hide Fits;
    assert m'.queue[..|m.queue|] == m.queue;
    FlatSame(m.chans, m'.chans, m.queue);
    assert InChannels(m') == InChannels(m) + [] == InChannels(m);
  }

  lemma AppendRest(m: Manager, m': Manager, c: Chan)
    requires Inv(m) && Swapped(m, m', c) && ChanInv(c) && Settled(c)
    requires c.id !in m.chans && c.pending == map[]
    requires m.current.Some? ==> m.chans[m.current.value].IsFull()
    requires m'.queue == m.queue + [c.id] && m'.current == Some(c.id)
    requires m'.blocks == m.blocks && m'.cursor == m.cursor && m'.tip == m.tip
    requires m'.cfg == m.cfg && m'.txChannels == m.txChannels
    ensures m'.WF() && ChansOk(m') && SettledExcept(m', None) && OrderOk(m') && IndexOk(m') && StaleOk(m')
  {
    hide ChanInv, Settled, RunOk, Run, ChansOk, SettledExcept, OrderOk, IndexOk, StaleOk;
    ChanInvWF(c);
    assert m'.WF();
    SwapChans(m, m', c);
    SwapSettled(m, m', c, None);
    AppendOrder(m, m', c);
    AppendIndex(m, m', c);
    AppendStale(m, m', c);
  }

  lemma AppendIndex(m: Manager, m': Manager, c: Chan)
    requires m.WF() && m'.WF() && IndexOk(m) && Swapped(m, m', c) && c.id !in m.chans && c.pending == map[]
    requires m'.queue == m.queue + [c.id] && m'.txChannels == m.txChannels
    ensures IndexOk(m')
  {
    forall id, k | id in m'.queue && k in m'.chans[id].pending
      ensures k in m'.txChannels && m'.txChannels[k] == id
    {
      assert id in m.queue;
    }
  }

  lemma AppendStale(m: Manager, m': Manager, c: Chan)
    requires m.WF() && m'.WF() && StaleOk(m) && Swapped(m, m', c) && c.id !in m.chans
    requires m'.queue == m.queue + [c.id] && m'.txChannels == m.txChannels
    requires m'.blocks == m.blocks && m'.tip == m.tip
    ensures StaleOk(m')
  {
    forall k | k in m'.txChannels && m'.txChannels[k] !in m'.queue
      ensures Stale(m', m'.chans[m'.txChannels[k]])
    {
      assert m.txChannels[k] !in m.queue;
    }
  }

  lemma ChanInvWF(c: Chan)
    requires ChanInv(c)
    ensures c.cfg.Usable() && c.frameCursor <= |c.frames|
  {
  }

  lemma AppendOrder(m: Manager, m': Manager, c: Chan)
    requires m.WF() && m'.WF() && OrderOk(m) && Swapped(m, m', c)
    requires c.id !in m.chans
    requires m.current.Some? ==> m.chans[m.current.value].IsFull()
    requires m'.queue == m.queue + [c.id] && m'.current == Some(c.id)
    ensures OrderOk(m')
  {
    assert m.queue == m'.queue[..|m.queue|];
  }

  /** There is now a current channel that is not full; a new one has the default
      configuration and no blocks. */
  lemma EnsureStep(m: Manager, out: Option<NewOut>)
    requires Inv(m) && FreshOut(m, out)
    requires m.EnsureChannelWithSpace(out).Some?
    ensures var m' := m.EnsureChannelWithSpace(out).value;
            && Inv(m') && Run(m') == Run(m)
            && m'.current.Some? && !m'.chans[m'.current.value].IsFull()
            && m'.blocks == m.blocks && m'.cursor == m.cursor
            && (m' == m || (m.queue == m'.queue[..|m'.queue| - 1]
                            && out.Some? && m'.current == Some(out.value.id)
                            && m'.chans == m.chans[out.value.id :=
                                 NewChan(out.value.id, out.value.comp, m.cfg, m.l1OriginLast)]))
  {
    if m.current.None? || m.chans[m.current.value].IsFull() {
      var c := NewChan(out.value.id, out.value.comp, m.cfg, m.l1OriginLast);
      NewChanInv(out.value.id, out.value.comp, m.cfg, m.l1OriginLast);
      var m' := m.EnsureChannelWithSpace(out).value;
      assert Swapped(m, m', c);
      AppendRest(m, m', c);
      AppendRun(m, m', c);
    }
  }

  // ---- Moving blocks into it ----

  /** A cursor that moves on with the blocks still fits. */
  lemma FitsMove(run: seq<Block>, n: nat, blocks: seq<Block>, cursor: nat, tip: Hash, d: nat)
    requires Fits(run, n, blocks, cursor, tip) && n + d <= |run|
    ensures Fits(run, n + d, blocks, cursor + d, tip)
  {
  }

  /** The run is the blocks of the earlier channels, of the current one, and the waiting ones. */
  lemma CurrentInRun(m: Manager)
    requires m.WF() && OrderOk(m) && m.current.Some?
    ensures Run(m) == Flat(m.chans, m.queue[..|m.queue| - 1]) + m.chans[m.current.value].blocks + m.blocks[m.cursor..]
  {
  }

  lemma ProcessRun(m: Manager, m': Manager, c': Chan, n: nat)
    requires m.WF() && m'.WF() && OrderOk(m) && RunOk(m) && Swapped(m, m', c')
    requires m.current == Some(c'.id) && m'.current == m.current && m'.queue == m.queue
    requires m'.blocks == m.blocks && m'.tip == m.tip
    requires n <= |m.blocks| - m.cursor && m'.cursor == m.cursor + n
    requires c'.blocks == m.chans[c'.id].blocks + m.blocks[m.cursor..m.cursor + n]
    ensures RunOk(m') && Run(m') == Run(m)
  {
    hide *;
    CurrentGrows(m, m', c', m.blocks[m.cursor..m.cursor + n]);
    RunIs(m);
    RunIs(m');
    RunOkIs(m);
    RunOkIs(m');
    MoveOn(InChannels(m), m.blocks, m.cursor, m.tip, n);
  }

  /** Waiting blocks move into the channels. */
  lemma MoveOn(taken: seq<Block>, blocks: seq<Block>, cursor: nat, tip: Hash, n: nat)
    requires cursor + n <= |blocks| && Fits(taken + blocks[cursor..], |taken|, blocks, cursor, tip)
    ensures var more := taken + blocks[cursor..cursor + n];
            && more + blocks[cursor + n..] == taken + blocks[cursor..]
            && Fits(more + blocks[cursor + n..], |more|, blocks, cursor + n, tip)
  {
    hide Fits;
    SplitPending(blocks, cursor, n);
    Regroup(taken, blocks[cursor..][..n], blocks[cursor..][n..]);
    FitsMove(taken + blocks[cursor..], |taken|, blocks, cursor, tip, n);
  }

  lemma CurrentGrows(m: Manager, m': Manager, c': Chan, more: seq<Block>)
    requires m.WF() && m'.WF() && OrderOk(m) && Swapped(m, m', c')
    requires m.current == Some(c'.id) && m'.queue == m.queue
    requires c'.blocks == m.chans[c'.id].blocks + more
    ensures InChannels(m') == InChannels(m) + more
  {
    var q := m.queue[..|m.queue| - 1];
    assert forall id | id in q :: id != c'.id;
    FlatSame(m.chans, m'.chans, q);
  }

  lemma SplitPending(s: seq<Block>, i: nat, n: nat)
    requires i + n <= |s|
    ensures s[i..i + n] == s[i..][..n] && s[i + n..] == s[i..][n..] && s[i..] == s[i..][..n] + s[i..][n..]
  {
  }

  /** The waiting blocks extend the blocks of the current channel. */
  lemma PendingExtendsCurrent(m: Manager)
    requires m.WF() && OrderOk(m) && RunOk(m) && m.current.Some?
    ensures Linked(m.chans[m.current.value].blocks + m.blocks[m.cursor..])
    ensures forall b | b in m.blocks[m.cursor..] :: b.WellFormed()
  {
    CurrentInRun(m);
    var i := |Flat(m.chans, m.queue[..|m.queue| - 1])|;
    assert Run(m)[i..] == m.chans[m.current.value].blocks + m.blocks[m.cursor..];
    LinkedSlice(Run(m), i, |Run(m)|);
    assert Run(m)[i..|Run(m)|] == Run(m)[i..];
    forall b | b in m.blocks[m.cursor..]
      ensures b.WellFormed()
    {
      assert b in Run(m);
    }
  }

  lemma ProcessStep(m: Manager)
    requires Inv(m) && m.current.Some? && !m.chans[m.current.value].IsFull()
    ensures var (m', ok) := m.ProcessBlocks();
            var (c, n, _) := AddBlocks(m.chans[m.current.value], m.blocks[m.cursor..]);
            && Building(m') && (!ok ==> Inv(m'))
            && Run(m') == Run(m) && m'.queue == m.queue
            && m'.chans == m.chans[m.current.value := c]
            && c.blocks == m.chans[m.current.value].blocks + m.blocks[m.cursor..m.cursor + n]
            && SameTxs(m.chans[m.current.value], c)
            && (ok && !c.IsFull() ==> m'.cursor == |m'.blocks|)
  {
    hide ChanInv, RunOk, Run, IndexOk, StaleOk;
    var c0 := m.chans[m.current.value];
    assert ChanInv(c0) && Settled(c0);
    PendingExtendsCurrent(m);
    AddBlocksInv(c0, m.blocks[m.cursor..]);
    var (c, n, ok) := AddBlocks(c0, m.blocks[m.cursor..]);
    assert m.blocks[m.cursor..][..n] == m.blocks[m.cursor..m.cursor + n];
    var m' := m.ProcessBlocks().0;
    ProcessKeeps(m, m', c, n, ok);
  }

  lemma ProcessKeeps(m: Manager, m': Manager, c: Chan, n: nat, ok: bool)
    requires Inv(m) && m.current == Some(c.id) && !m.chans[c.id].IsFull()
    requires ChanInv(c) && SameTxs(m.chans[c.id], c) && (!ok ==> !c.IsFull())
    requires n <= |m.blocks| - m.cursor
    requires c.blocks == m.chans[c.id].blocks + m.blocks[m.cursor..m.cursor + n]
    requires m' == m.With(c).(cursor := m.cursor + n, pendingBytes := m'.pendingBytes)
    ensures Building(m') && Run(m') == Run(m) && (!ok ==> Inv(m'))
  {
    hide ChanInv, ChansOk, OrderOk, RunOk, Run, IndexOk, StaleOk, SettledExcept;
    SwapWF(m, m', c);
    SwapChans(m, m', c);
    SwapOrder(m, m', c);
    ProcessRun(m, m', c, n);
    SwapIndex(m, m', c);
    ProcessStale(m, m', c);
    ProcessSettled(m, m', c, ok);
  }

  lemma ProcessSettled(m: Manager, m': Manager, c: Chan, ok: bool)
    requires SettledExcept(m, None) && c.id in m.chans && m.current == Some(c.id) && m'.current == m.current
    requires !m.chans[c.id].IsFull() && SameTxs(m.chans[c.id], c) && (!ok ==> !c.IsFull())
    requires Swapped(m, m', c)
    ensures !c.closed && SettledExcept(m', m'.current) && (!ok ==> SettledExcept(m', None))
  {
    assert Settled(m.chans[c.id]);
    assert !ok ==> Settled(c);
    hide Settled;
  }

  lemma ProcessStale(m: Manager, m': Manager, c: Chan)
    requires m.WF() && m'.WF() && OrderOk(m) && StaleOk(m) && Swapped(m, m', c)
    requires m.current == Some(c.id) && m'.queue == m.queue && m'.tip == m.tip && m'.blocks == m.blocks
    requires m'.txChannels == m.txChannels
    ensures StaleOk(m')
  {
  }

  // ---- Frames for it ----

  lemma CheckTimeoutInv(c: Chan, head: nat)
    requires ChanInv(c)
    ensures ChanInv(c.CheckTimeout(head))
  {
    SetFullInv(c, c.clock.reason);
  }

  lemma RegisterStep(m: Manager, head: nat, pi: PubInfo)
    requires Building(m)
    ensures var (m', ok) := m.RegisterAndOutput(head, pi);
            && ok && Inv(m') && Run(m') == Run(m)
            && m' == m.(chans := m'.chans) && m'.chans.Keys == m.chans.Keys
            && (forall id | id in m.chans ::
                  m'.chans[id].blocks == m.chans[id].blocks && m'.chans[id].cfg == m.chans[id].cfg
                  && (Some(id) != m.current ==> m'.chans[id] == m.chans[id]))
            && var c, c' := m.chans[m.current.value], m'.chans[m.current.value];
               && (c'.IsFull() <==> c.IsFull() || (!pi.ignoreMaxChannelDuration && c.CheckTimeout(head).IsFull()))
               && (c'.IsFull() ==> c'.HasTxData())
               && (!pi.ignoreMaxChannelDuration && !c'.IsFull() ==> !c'.CheckTimeout(head).IsFull())
  {
    hide ChanInv, ChansOk, OrderOk, RunOk, Run, IndexOk, StaleOk, SettledExcept, Settled, Registered,
      Manager.RegisterAndOutput, Chan.CheckTimeout;
    var c0 := m.chans[m.current.value];
    InvOf(m, m.current.value);
    var (c', ok) := Registered(c0, head, pi);
    RegisteredIs(m, head, pi);
    RegisteredInv(c0, head, pi);
    SwapCore(m, c');
    SwapSettled(m, m.With(c'), c', m.current);
  }

  lemma InvOf(m: Manager, id: ChId)
    requires ChansOk(m) && id in m.chans
    ensures ChanInv(m.chans[id])
  {
  }

  /** The current channel after it has registered the head and created its frames. */
  ghost function Registered(c: Chan, head: nat, pi: PubInfo): (Chan, bool)
    requires c.cfg.Usable()
  {
    (if pi.ignoreMaxChannelDuration then c else c.CheckTimeout(head)).OutputFrames()
  }

  lemma RegisteredIs(m: Manager, head: nat, pi: PubInfo)
    requires m.WF() && m.current.Some?
    ensures var (c', ok) := Registered(m.chans[m.current.value], head, pi);
            m.RegisterAndOutput(head, pi) == (m.With(c'), ok)
  {
    hide Chan.CheckTimeout, Chan.OutputFrames;
  }

  lemma RegisteredInv(c0: Chan, head: nat, pi: PubInfo)
    requires ChanInv(c0) && !c0.closed
    ensures var (c', ok) := Registered(c0, head, pi);
            && ok && ChanInv(c') && Settled(c') && c'.id == c0.id && c'.cfg == c0.cfg
            && c'.blocks == c0.blocks && c'.pending == c0.pending
            && (c'.IsFull() <==> c0.IsFull() || (!pi.ignoreMaxChannelDuration && c0.CheckTimeout(head).IsFull()))
            && (c'.IsFull() ==> c'.HasTxData())
            && (!pi.ignoreMaxChannelDuration && !c'.IsFull() ==> !c'.CheckTimeout(head).IsFull())
  {
    CheckTimeoutInv(c0, head);
    OutputFramesInv(if pi.ignoreMaxChannelDuration then c0 else c0.CheckTimeout(head));
    hide ChanInv, Settled, Chan.OutputFrames;
  }
}
