/** What the steps of a concrete run of the batcher come to, put together from what its channels
    do. */
module Scenarios {
  import opened Chain
  import opened Frames
  import opened Options
  import opened ChannelSpec
  import opened ManagerSpec
  import opened ManagerInv
  import opened ManagerSteps
  import opened SyncSpec
  import opened BatcherRuns
  import opened TxDataStep
  import opened BatcherLedger

  const PLAIN := PubInfo(false, false)

  /** Calldata with singular batches, and blobs with span batches. */
  const CALLDATA := Config(100, 10, 0, 1, 100, 1, 0, false)
  const BLOBS := CALLDATA.(batchType := SPAN_BATCH_TYPE, useBlobs := true)

  lemma Configs()
    ensures CALLDATA.Usable() && BLOBS.Usable() && CALLDATA.useBlobs != BLOBS.useBlobs
  {
  }

  // ---- The first states ----

  function Start(): Manager { Manager([], 0, 0, CALLDATA, NoHash, None, [], map[], map[], 0) }

  lemma StartIs()
    ensures Initial(At(Start(), [])) && Start().WF()
  {
  }

  /** A new manager that loaded some blocks. */
  function Holding(bs: seq<Block>, bytes: nat): Manager
    requires bs != []
  {
    Start().(blocks := bs, tip := Digest(bs[|bs| - 1]), pendingBytes := bytes)
  }

  lemma HoldingIs(bs: seq<Block>, bytes: nat)
    requires bs != []
    ensures var m := Holding(bs, bytes);
            && m.WF() && m.blocks == bs && m.cursor == 0 && m.l1OriginLast == 0 && m.cfg == CALLDATA
            && m.queue == [] && m.chans == map[] && m.txChannels == map[] && m.pendingBytes == bytes
            && NeedsNew(m, 1)
  {
  }

  // ---- New channels ----

  /** The manager after it opened a channel, which took `n` blocks and became `c`. */
  function WithNew(m: Manager, c: Chan, n: nat): Manager
    requires m.cursor + n <= |m.blocks|
  {
    m.(cursor := m.cursor + n, pendingBytes := m.pendingBytes - SumBytes(m.blocks[m.cursor..][..n]),
       current := Some(c.id), queue := m.queue + [c.id], chans := m.chans[c.id := c])
  }

  lemma WithNewIs(m: Manager, c: Chan, n: nat)
    requires m.cursor + n <= |m.blocks|
    ensures var m' := WithNew(m, c, n);
            && m'.blocks == m.blocks && m'.cursor == m.cursor + n
            && m'.l1OriginLast == m.l1OriginLast && m'.cfg == m.cfg
            && m'.tip == m.tip && m'.current == Some(c.id) && m'.queue == m.queue + [c.id]
            && m'.chans == m.chans[c.id := c] && m'.txChannels == m.txChannels
            && (n == 0 ==> m'.pendingBytes == m.pendingBytes)
  {
    assert m.blocks[m.cursor..][..0] == [];
  }

  /** The channel `c` comes of a new channel out: it takes `n` of the blocks and emits its frames. */
  ghost predicate Makes(m: Manager, out: NewOut, head: nat, took: Chan, n: nat, c: Chan) {
    && m.WF() && m.cursor + n <= |m.blocks|
    && AddBlocks(NewChan(out.id, out.comp, m.cfg, m.l1OriginLast), m.blocks[m.cursor..]) == (took, n, true)
    && took.id == out.id && took.cfg.Usable() && took.CheckTimeout(head) == took
    && took.OutputFrames() == (c, true) && c.id == out.id && c.HasTxData()
    && c.cfg.Usable() && c.frameCursor <= |c.frames|
  }

  function Opened(m: Manager, out: NewOut): Manager {
    m.(current := Some(out.id), queue := m.queue + [out.id],
       chans := m.chans[out.id := NewChan(out.id, out.comp, m.cfg, m.l1OriginLast)])
  }

  lemma Opens(m: Manager, out: NewOut)
    requires m.WF() && (m.current.Some? ==> m.chans[m.current.value].IsFull())
    ensures m.EnsureChannelWithSpace(Some(out)) == Some(Opened(m, out)) && Opened(m, out).WF()
  {
  }

  lemma Processes(m: Manager, out: NewOut, took: Chan, n: nat)
    requires m.WF() && Opened(m, out).WF() && m.cursor + n <= |m.blocks| && took.id == out.id
    requires AddBlocks(NewChan(out.id, out.comp, m.cfg, m.l1OriginLast), m.blocks[m.cursor..]) == (took, n, true)
    ensures Opened(m, out).ProcessBlocks() == (WithNew(m, took, n), true)
  {
    hide AddBlocks, NewChan;
    assert Opened(m, out).With(took).chans == m.chans[out.id := took];
  }

  lemma Outputs(m: Manager, head: nat, took: Chan, n: nat, c: Chan)
    requires m.cursor + n <= |m.blocks| && WithNew(m, took, n).WF() && took.cfg.Usable() && c.id == took.id
    requires took.CheckTimeout(head) == took && took.OutputFrames() == (c, true)
    ensures WithNew(m, took, n).RegisterAndOutput(head, PLAIN) == (WithNew(m, c, n), true)
  {
    hide Chan.OutputFrames, Chan.CheckTimeout;
    assert WithNew(m, took, n).With(c).chans == m.chans[c.id := c];
  }

  lemma Builds1(m: Manager, out: NewOut, head: nat, took: Chan, n: nat, c: Chan)
    requires Makes(m, out, head, took, n, c)
    requires m.current.Some? ==> m.chans[m.current.value].IsFull()
    ensures m.BuildChannel(head, PLAIN, Some(out)) == (WithNew(m, c, n), Ready(out.id))
  {
    hide AddBlocks, NewChan, Chan.OutputFrames, Chan.CheckTimeout, Chan.HasTxData, Manager.EnsureChannelWithSpace,
      Manager.ProcessBlocks, Manager.RegisterAndOutput;
    Opens(m, out);
    Processes(m, out, took, n);
    Outputs(m, head, took, n, c);
    hide Manager.WF, Opened;
  }

  /** No channel has data, and a new one is built. */
  lemma ReadyNew(m: Manager, out: NewOut, head: nat, took: Chan, n: nat, c: Chan)
    requires Makes(m, out, head, took, n, c) && NeedsNew(m, out.id)
    ensures m.GetReadyChannel(head, PLAIN, Some(out)) == (WithNew(m, c, n), Ready(out.id)) && WithNew(m, c, n).WF()
  {
    Builds1(m, out, head, took, n, c);
    hide Makes, Manager.BuildChannel, FirstWithTxData, WithNew;
    MakesWF(m, out, head, took, n, c);
  }

  lemma MakesWF(m: Manager, out: NewOut, head: nat, took: Chan, n: nat, c: Chan)
    requires Makes(m, out, head, took, n, c)
    ensures m.WF()
  {
  }

  /** The manager after channel `c` handed out `tx` and became `c'`. */
  function WithSent(m: Manager, c': Chan, tx: TxData): Manager {
    m.(l1OriginLast := if c'.latestL1Origin > m.l1OriginLast then c'.latestL1Origin else m.l1OriginLast,
       txChannels := m.txChannels[tx.Id() := c'.id], chans := m.chans[c'.id := c'])
  }

  lemma WithSentIs(m: Manager, c': Chan, tx: TxData)
    ensures var m' := WithSent(m, c', tx);
            && m'.blocks == m.blocks && m'.cursor == m.cursor && m'.cfg == m.cfg && m'.tip == m.tip
            && m'.current == m.current && m'.queue == m.queue && m'.pendingBytes == m.pendingBytes
            && m'.chans == m.chans[c'.id := c'] && m'.txChannels == m.txChannels[tx.Id() := c'.id]
            && (m'.l1OriginLast == if c'.latestL1Origin > m.l1OriginLast then c'.latestL1Origin else m.l1OriginLast)
  {
  }

  lemma Sends(m: Manager, id: ChId, c': Chan, tx: TxData)
    requires m.WF() && id in m.chans && m.chans[id].HasTxData() && m.chans[id].NextTxData() == (c', tx) && c'.id == id
    ensures m.NextTxData(id) == (WithSent(m, c', tx), Data(tx, id)) && WithSent(m, c', tx).WF()
  {
    SentWF(m, id);
    hide Chan.NextTxData, Chan.HasTxData, Manager.WF;
  }

  lemma {:induction false} LastIndex(q: seq<ChId>, id: ChId)
    requires id !in q
    ensures IndexOrZero(q + [id], id) == |q|
  {
    if q != [] {
      assert (q + [id])[0] == q[0] && (q + [id])[1..] == q[1..] + [id];
      LastIndex(q[1..], id);
      assert id in q + [id];
    }
  }

  /** Invalidating the last channel, which has no blocks and nothing sent, drops just that. */
  lemma InvalidateLast(m: Manager, q: seq<ChId>, id: ChId)
    requires m.WF() && m.queue == q + [id] && id !in q && id in m.chans && m.chans[id].blocks == []
    requires forall k | k in m.txChannels :: m.txChannels[k] != id
    ensures m.Invalidate(id) == Some(m.(queue := q, current := None)) && KeepsBlocks(m, id)
  {
    LastIndex(q, id);
    var i := |q|;
    assert m.queue[..i] == q && m.queue[i..] == [id] && [id][..0] == [];
    assert m.DropFrom(i).txChannels == m.txChannels;
    assert Flat(m.chans, [id]) == [];
  }

  /** Invalidating the first channel, which has no blocks, drops the whole queue. */
  lemma InvalidateFirst(m: Manager, id: ChId)
    requires m.WF() && m.queue != [] && m.queue[0] == id && id in m.chans && m.chans[id].blocks == []
    requires forall k | k in m.txChannels :: m.txChannels[k] in m.queue
    ensures m.Invalidate(id) == Some(m.(queue := [], current := None, txChannels := map[]))
    ensures KeepsBlocks(m, id) <==> Flat(m.chans, m.queue) == []
  {
    assert IndexOrZero(m.queue, id) == 0;
    assert m.queue[..0] == [] && m.queue[0..] == m.queue;
    assert m.DropFrom(0).txChannels == map[];
  }

  // ---- Whole calls ----

  /** A call would build a new channel: no channel has data or space, but blocks wait. */
  ghost predicate NeedsNew(m: Manager, id: ChId) {
    && m.WF() && m.cursor < |m.blocks| && id != 0 && id !in m.chans
    && (m.current.Some? ==> m.chans[m.current.value].IsFull())
    && FirstWithTxData(m.chans, m.queue) == None
  }

  /** A call that builds a new channel and sends its first transaction. */
  lemma PublishNew(m: Manager, loaded: seq<Block>, head: nat, out: NewOut, took: Chan, n: nat, c: Chan, c': Chan,
                   tx: TxData)
    requires Makes(m, out, head, took, n, c) && NeedsNew(m, out.id)
    requires c.NextTxData() == (c', tx) && c'.id == out.id
    ensures var m' := WithSent(WithNew(m, c, n), c', tx);
            m'.WF() && Goes(At(m, loaded), Publish(head, m.cfg, PLAIN, Some(out), None), At(m', loaded))
  {
    hide AddBlocks, FirstWithTxData, Chan.NextTxData, Chan.HasTxData, Chan.CheckTimeout, Chan.OutputFrames,
      Manager.GetReadyChannel, Manager.NextTxData, Manager.TxData, Goes;
    ReadyNew(m, out, head, took, n, c);
    var m0 := WithNew(m, c, n);
    Sends(m0, out.id, c', tx);
    PublishNoSwitch(m, head, m.cfg, Some(out), None, m0, out.id, WithSent(m0, c', tx), Data(tx, out.id));
    PublishGoes(m, loaded, head, m.cfg, Some(out), None, m0, Ready(out.id), WithSent(m0, c', tx), Data(tx, out.id));
  }

  lemma PublishNoSwitch(m: Manager, head: nat, newCfg: Config, out1: Option<NewOut>, out2: Option<NewOut>,
                        m0: Manager, id: ChId, m': Manager, r: TxResult)
    requires m.WF() && newCfg.Usable() && m.GetReadyChannel(head, PLAIN, out1) == (m0, Ready(id))
    requires newCfg.useBlobs == m0.cfg.useBlobs && m0.NextTxData(id) == (m', r)
    ensures m.TxData(head, newCfg, PLAIN, out1, out2) == Some((m', r)) && SwitchKeeps(m0, Ready(id), newCfg)
  {
    hide Manager.GetReadyChannel, Manager.TxData, Manager.NextTxData, Manager.SwitchType, KeepsBlocks, Manager.WF;
    TxDataIs(m, head, newCfg, PLAIN, out1, out2);
  }

  lemma PublishSwitch(m: Manager, head: nat, newCfg: Config, out1: Option<NewOut>, out2: Option<NewOut>,
                      m0: Manager, id: ChId, res: Option<(Manager, TxResult)>)
    requires m.WF() && newCfg.Usable() && m.GetReadyChannel(head, PLAIN, out1) == (m0, Ready(id))
    requires m0.WF() && id in m0.chans && m0.chans[id].NoneSubmitted() && newCfg.useBlobs != m0.cfg.useBlobs
    requires m0.SwitchType(id, head, newCfg, PLAIN, out2) == res
    ensures m.TxData(head, newCfg, PLAIN, out1, out2) == res && Switches(m0, Ready(id), newCfg)
  {
    hide Manager.GetReadyChannel, Manager.TxData, Manager.SwitchType, Chan.NoneSubmitted, Manager.WF;
    NoneSubmittedIs(m0.chans[id]);
    TxDataIs(m, head, newCfg, PLAIN, out1, out2);
  }

  /** A call that finds a new channel ready, drops it for a switch of the DA type, and sends the
      first transaction of a newer one. */
  lemma PublishSwitchNew(m: Manager, head: nat, newCfg: Config, out1: NewOut, out2: NewOut, m0: Manager, m1: Manager,
                         took: Chan, n: nat, c: Chan, c': Chan, tx: TxData)
    requires m.WF() && newCfg.Usable() && m.GetReadyChannel(head, PLAIN, Some(out1)) == (m0, Ready(out1.id))
    requires m0.WF() && out1.id in m0.chans && m0.chans[out1.id].NoneSubmitted() && newCfg.useBlobs != m0.cfg.useBlobs
    requires m0.Invalidate(out1.id) == Some(m1)
    requires Makes(m1.(cfg := newCfg), out2, head, took, n, c) && NeedsNew(m1.(cfg := newCfg), out2.id)
    requires c.NextTxData() == (c', tx) && c'.id == out2.id
    ensures var m' := WithSent(WithNew(m1.(cfg := newCfg), c, n), c', tx);
            && m'.WF() && m.TxData(head, newCfg, PLAIN, Some(out1), Some(out2)) == Some((m', Data(tx, out2.id)))
            && Switches(m0, Ready(out1.id), newCfg)
  {
    hide AddBlocks, FirstWithTxData, Chan.NextTxData, Chan.HasTxData, Chan.CheckTimeout, Chan.OutputFrames, NeedsNew,
      Manager.GetReadyChannel, Manager.NextTxData, Manager.TxData, Manager.Invalidate, Chan.NoneSubmitted, Switches;
    var m2 := m1.(cfg := newCfg);
    ReadyNew(m2, out2, head, took, n, c);
    var m3 := WithNew(m2, c, n);
    Sends(m3, out2.id, c', tx);
    var res := Some((WithSent(m3, c', tx), Data(tx, out2.id)));
    PublishSwitch(m, head, newCfg, Some(out1), Some(out2), m0, out1.id, res);
  }

  /** The first channel has data. */
  lemma ReadyFirst(m: Manager, id: ChId, head: nat, out: Option<NewOut>)
    requires m.WF() && m.queue != [] && m.queue[0] == id && m.chans[id].HasTxData()
    ensures m.GetReadyChannel(head, PLAIN, out) == (m, Ready(id))
  {
    hide Chan.HasTxData, Manager.BuildChannel;
  }

  /** A call that drops a channel for a switch of the DA type and has nothing to send then. */
  lemma PublishSwitchNone(m: Manager, head: nat, newCfg: Config, id: ChId, m1: Manager)
    requires m.WF() && newCfg.Usable() && m.queue != [] && m.queue[0] == id && m.chans[id].HasTxData()
    requires m.chans[id].NoneSubmitted() && newCfg.useBlobs != m.cfg.useBlobs && m.Invalidate(id) == Some(m1)
    requires m1.queue == [] && m1.current == None && m1.cursor == |m1.blocks|
    ensures m.TxData(head, newCfg, PLAIN, None, None) == Some((m1.(cfg := newCfg), NoData))
    ensures Switches(m, Ready(id), newCfg) && m1.(cfg := newCfg).WF()
  {
    var m2 := m1.(cfg := newCfg);
    assert m2.WF();
    ReadyFirst(m, id, head, None);
    assert m2.GetReadyChannel(head, PLAIN, None) == (m2, NotReady);
    hide Manager.GetReadyChannel, Manager.TxData, Manager.Invalidate, Chan.NoneSubmitted, Chan.HasTxData, Switches;
    PublishSwitch(m, head, newCfg, None, None, m, id, Some((m2, NoData)));
  }

  lemma FailsIs(m: Manager, k: TxId, c': Chan)
    requires m.WF() && k in m.txChannels && m.chans[m.txChannels[k]].TxFailed(k) == Some(c')
    requires c'.id == m.txChannels[k] && c'.cfg.Usable() && c'.frameCursor <= |c'.frames|
    ensures var m' := m.(chans := m.chans[c'.id := c'], txChannels := m.txChannels - {k});
            m.TxFailed(k) == Some(m') && m'.WF()
  {
    hide Chan.TxFailed;
  }

  // ---- Runs ----

  /** A ledger in which nothing was released and no safe head reported. */
  function At(m: Manager, loaded: seq<Block>): Ledger { Ledger(Batcher(m, 0), loaded, 0, [], false) }

  lemma AtIs(m: Manager, loaded: seq<Block>)
    ensures At(m, loaded) == Ledger(Batcher(m, 0), loaded, 0, [], false)
  {
  }

  /** The step is possible, drops no block, and leads to `l'`. */
  ghost predicate Goes(l: Ledger, e: Event, l': Ledger) {
    l.batcher.mgr.WF() && EnvOk(l, e) && KeepsRun(l.batcher.mgr, e) && Step(l, e) == Some(l')
  }

  lemma ReachesFirst(l: Ledger, e: Event, l1: Ledger, es: seq<Event>, l': Ledger)
    requires Goes(l, e, l1) && Reaches(l1, es, l')
    ensures Reaches(l, [e] + es, l')
  {
    hide Step, EnvOk, KeepsRun, Manager.WF;
    assert ([e] + es)[1..] == es;
  }

  lemma ReachesNone(l: Ledger)
    ensures Reaches(l, [], l)
  {
  }

  /** A run of four steps. */
  lemma ReachesFour(l0: Ledger, e0: Event, l1: Ledger, e1: Event, l2: Ledger, e2: Event, l3: Ledger, e3: Event,
                    l4: Ledger)
    requires Goes(l0, e0, l1) && Goes(l1, e1, l2) && Goes(l2, e2, l3) && Goes(l3, e3, l4)
    ensures Reaches(l0, [e0, e1, e2, e3], l4)
  {
    hide Goes, Reaches;
    ReachesNone(l4);
    ReachesFirst(l3, e3, l4, [], l4);
    assert [e3] + [] == [e3];
    ReachesFirst(l2, e2, l3, [e3], l4);
    assert [e2] + [e3] == [e2, e3];
    ReachesFirst(l1, e1, l2, [e2, e3], l4);
    assert [e1] + [e2, e3] == [e1, e2, e3];
    ReachesFirst(l0, e0, l1, [e1, e2, e3], l4);
    assert [e0] + [e1, e2, e3] == [e0, e1, e2, e3];
  }

  lemma ReachesFive(l0: Ledger, e0: Event, l1: Ledger, e1: Event, l2: Ledger, e2: Event, l3: Ledger, e3: Event,
                    l4: Ledger, e4: Event, l5: Ledger)
    requires Goes(l0, e0, l1) && Goes(l1, e1, l2) && Goes(l2, e2, l3) && Goes(l3, e3, l4) && Goes(l4, e4, l5)
    ensures Reaches(l0, [e0, e1, e2, e3, e4], l5)
  {
    hide Goes, Reaches;
    ReachesFour(l1, e1, l2, e2, l3, e3, l4, e4, l5);
    ReachesFirst(l0, e0, l1, [e1, e2, e3, e4], l5);
    assert [e0] + [e1, e2, e3, e4] == [e0, e1, e2, e3, e4];
  }

  lemma LoadGoes(m: Manager, loaded: seq<Block>, b: Block, m': Manager)
    requires m.WF() && b.WellFormed() && m.AddL2Block(b) == (m', true)
    ensures Goes(At(m, loaded), Load(b), At(m', loaded + [b]))
  {
    hide Manager.AddL2Block, Manager.WF;
  }

  lemma FirstLoadGoes(b: Block)
    requires b.WellFormed()
    ensures Initial(At(Start(), [])) && Goes(At(Start(), []), Load(b), At(Holding([b], b.daBytes), [b]))
  {
    StartIs();
    assert [] + [b] == [b];
    LoadGoes(Start(), [], b, Holding([b], b.daBytes));
  }

  lemma NextLoadGoes(bs: seq<Block>, bytes: nat, b: Block)
    requires bs != [] && b.WellFormed() && b.parent == Digest(bs[|bs| - 1])
    ensures Goes(At(Holding(bs, bytes), bs), Load(b), At(Holding(bs + [b], bytes + b.daBytes), bs + [b]))
  {
    HoldingIs(bs, bytes);
    LoadGoes(Holding(bs, bytes), bs, b, Holding(bs + [b], bytes + b.daBytes));
  }

  lemma FailGoes(m: Manager, loaded: seq<Block>, k: TxId, m': Manager)
    requires m.WF() && m.TxFailed(k) == Some(m')
    ensures Goes(At(m, loaded), Fail(k), At(m', loaded))
  {
    hide Manager.TxFailed, Manager.WF;
  }

  /** A sync that keeps state prunes `n` blocks and `k` channels. */
  lemma SyncIs(b: Batcher, s: SyncStatus, n: nat, k: nat)
    requires b.mgr.WF() && !OutOfSync(s, b.prevCurrentL1) && b.mgr.blocks != []
    requires KeepState(s, s.localSafe.value, b.mgr.blocks, QueuedChans(b.mgr))
    requires n == s.localSafe.value.number + 1 - b.mgr.blocks[0].number
    requires k == SafePrefix(QueuedChans(b.mgr), s.localSafe.value.number)
    ensures var r := b.SyncAndPrune(s); var m, m' := b.mgr, r.value.0.mgr;
            && r.Some? && r.value.0.prevCurrentL1 == s.currentL1
            && m'.blocks == m.blocks[n..] && m'.cursor == (if n <= m.cursor then m.cursor - n else 0)
            && m'.queue == m.queue[k..] && m'.chans == m.chans && m'.cfg == m.cfg && m'.txChannels == m.txChannels
            && m'.current == (if m.current.Some? && m.current.value in m.queue[..k] then None else m.current)
            && m'.pendingBytes == (if n <= m.cursor then m.pendingBytes
                                   else m.pendingBytes - SumBytes(m.blocks[..n - m.cursor]))
            && m'.WF() && !SyncClears(b, s) && (Straddles(b, s) <==> n > m.cursor > 0)
  {
    ActionsAre(b, s, n, k);
    hide KeepState, QueuedChans, SafePrefix, ComputeSyncActions;
    assert n <= |b.mgr.blocks| && k <= |b.mgr.queue|;
    PrunesAre(b.mgr, n, k);
    hide Manager.PruneSafeBlocks, Manager.PruneChannels, Manager.WF;
  }

  lemma ActionsAre(b: Batcher, s: SyncStatus, n: nat, k: nat)
    requires b.mgr.WF() && !OutOfSync(s, b.prevCurrentL1) && b.mgr.blocks != []
    requires KeepState(s, s.localSafe.value, b.mgr.blocks, QueuedChans(b.mgr))
    requires n == s.localSafe.value.number + 1 - b.mgr.blocks[0].number
    requires k == SafePrefix(QueuedChans(b.mgr), s.localSafe.value.number)
    ensures n <= |b.mgr.blocks| && k <= |b.mgr.queue|
    ensures var last := b.mgr.blocks[|b.mgr.blocks| - 1].number;
            ComputeSyncActions(s, b.prevCurrentL1, b.mgr.blocks, QueuedChans(b.mgr)) ==
            (SyncActions(None, n, k, RangeAbove(last, s.unsafeNum.value)), false)
  {
    KeepStateMeans(s, s.localSafe.value, b.mgr.blocks, QueuedChans(b.mgr));
    hide KeepState, SafePrefix, Manager.WF;
  }

  lemma PrunesAre(m: Manager, n: nat, k: nat)
    requires m.WF() && n <= |m.blocks| && k <= |m.queue|
    ensures m.PruneSafeBlocks(n).Some? && m.PruneSafeBlocks(n).value.PruneChannels(k).Some?
    ensures var m' := m.PruneSafeBlocks(n).value.PruneChannels(k).value;
            && m'.blocks == m.blocks[n..] && m'.cursor == (if n <= m.cursor then m.cursor - n else 0)
            && m'.queue == m.queue[k..] && m'.chans == m.chans && m'.cfg == m.cfg && m'.txChannels == m.txChannels
            && m'.current == (if m.current.Some? && m.current.value in m.queue[..k] then None else m.current)
            && m'.pendingBytes == (if n <= m.cursor then m.pendingBytes
                                   else m.pendingBytes - SumBytes(m.blocks[..n - m.cursor]))
            && m'.WF()
  {
  }

  /** What a sync that keeps state makes of the ledger. */
  ghost function SyncedLedger(l: Ledger, s: SyncStatus, b': Batcher): Ledger
    requires l.batcher.mgr.WF() && s.localSafe.Some?
  {
    Ledger(b', l.loaded, l.released + GivenUp(l.batcher.mgr, b'.mgr), l.safeHeads + [s.localSafe.value],
           l.straddled || Straddles(l.batcher, s))
  }

  lemma SyncGoes(l: Ledger, s: SyncStatus)
    requires l.batcher.mgr.WF() && s.localSafe.Some? && l.batcher.SyncAndPrune(s).Some? && !SyncClears(l.batcher, s)
    ensures Goes(l, Sync(s), SyncedLedger(l, s, l.batcher.SyncAndPrune(s).value.0))
  {
    hide Batcher.SyncAndPrune, SyncClears, GivenUp, Straddles, Manager.WF;
  }

  lemma PublishGoes(m: Manager, loaded: seq<Block>, head: nat, newCfg: Config, out1: Option<NewOut>,
                    out2: Option<NewOut>, m0: Manager, r0: ReadyResult, m': Manager, r: TxResult)
    requires m.WF() && newCfg.Usable() && OutsOk(m, out1, out2)
    requires m.GetReadyChannel(head, PLAIN, out1) == (m0, r0) && SwitchKeeps(m0, r0, newCfg)
    requires m.TxData(head, newCfg, PLAIN, out1, out2) == Some((m', r))
    ensures Goes(At(m, loaded), Publish(head, newCfg, PLAIN, out1, out2), At(m', loaded))
  {
    hide Manager.TxData, Manager.GetReadyChannel, Manager.WF, SwitchKeeps, OutsOk;
  }
}
