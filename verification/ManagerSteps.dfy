/** Each operation of the channel manager keeps the invariant and the run of blocks. */
module ManagerSteps {
  import opened Chain
  import opened Frames
  import opened Options
  import opened ChannelSpec
  import opened ChannelProofs
  import opened ManagerSpec
  import opened ManagerInv

  // ---- Receipts ----

  /** `c'` is the channel of transaction `k` with that transaction no longer pending. */
  ghost predicate Dropped(m: Manager, k: TxId, c': Chan)
    requires m.WF() && k in m.txChannels
  {
    && c'.id == m.txChannels[k]
    && var c := m.chans[c'.id];
       && c'.blocks == c.blocks && c'.pending == c.pending - {k} && c'.IsFull() == c.IsFull()
       && ChanInv(c') && Settled(c')
  }

  lemma DropIndex(m: Manager, k: TxId, c': Chan, m': Manager)
    requires m.WF() && m'.WF() && IndexOk(m) && Swapped(m, m', c')
    requires k in m.txChannels && c'.id == m.txChannels[k]
    requires c'.pending == m.chans[c'.id].pending - {k}
    requires m'.txChannels == m.txChannels - {k} && m'.queue == m.queue
    ensures IndexOk(m')
  {
  }

  lemma DropTx(m: Manager, k: TxId, c': Chan)
    requires Inv(m) && k in m.txChannels && Dropped(m, k, c')
    ensures var m' := m.With(c').(txChannels := m.txChannels - {k});
            Inv(m') && Run(m') == Run(m)
  {
    hide ChanInv, Settled, ChansOk, SettledExcept, OrderOk, RunOk, Run, IndexOk, StaleOk;
    var m' := m.With(c').(txChannels := m.txChannels - {k});
    SwapWF(m, m', c');
    SwapChans(m, m', c');
    SwapSettled(m, m', c', None);
    SwapOrder(m, m', c');
    SwapRun(m, m', c');
    DropIndex(m, k, c', m');
    SwapStale(m, m', c');
  }

  /** A failed transaction never panics and leaves every block where it is. */
  lemma TxFailedStep(m: Manager, k: TxId)
    requires Inv(m)
    ensures m.TxFailed(k).Some?
    ensures Inv(m.TxFailed(k).value) && Run(m.TxFailed(k).value) == Run(m)
  {
    hide ChanInv, RunOk, Run, OrderOk, IndexOk, StaleOk, Chan.TxFailed;
    if k in m.txChannels {
      var c := m.chans[m.txChannels[k]];
      assert ChanInv(c) && Settled(c);
      TxFailedInv(c, k);
      var c' := c.TxFailed(k).value;
      assert Dropped(m, k, c');
      hide ChansOk, SettledExcept;
      DropTx(m, k, c');
    }
  }

  /** The manager after a confirmation, before a timed-out channel is invalidated. */
  lemma ConfirmStep(m: Manager, k: TxId, inclusion: BlockNum)
    requires Inv(m) && k in m.txChannels
    ensures var c' := m.chans[m.txChannels[k]].TxConfirmed(k, inclusion).0;
            var m' := m.With(c').(txChannels := m.txChannels - {k});
            Inv(m') && Run(m') == Run(m)
  {
    hide ChanInv, RunOk, Run, OrderOk, IndexOk, StaleOk, Chan.TxConfirmed;
    var c := m.chans[m.txChannels[k]];
    assert ChanInv(c) && Settled(c);
    TxConfirmedInv(c, k, inclusion);
    var c' := c.TxConfirmed(k, inclusion).0;
    assert Dropped(m, k, c');
    hide ChansOk, SettledExcept;
    DropTx(m, k, c');
  }

  // ---- Invalidation ----

  lemma QueueSplit(m: Manager, i: nat)
    requires m.WF() && i <= |m.queue|
    ensures InChannels(m) == Flat(m.chans, m.queue[..i]) + Flat(m.chans, m.queue[i..])
  {
    assert m.queue[..i] + m.queue[i..] == m.queue;
    FlatConcat(m.chans, m.queue[..i], m.queue[i..]);
  }

  /** Rewinding to the first block of a queued channel panics exactly when that block has
      been pruned. Otherwise the cursor ends up where the channels before it end. */
  lemma RewindExact(m: Manager, i: nat)
    requires m.WF() && RunOk(m)
    requires i < |m.queue| && m.chans[m.queue[i]].blocks != []
    ensures var first := m.chans[m.queue[i]].blocks[0];
            m.RewindToBlock(first).Some? <==> m.blocks != [] && m.blocks[0].number <= first.number
    ensures var r := m.RewindToBlock(m.chans[m.queue[i]].blocks[0]);
            var p := |InChannels(m)| - m.cursor;
            r.Some? ==> p <= |Flat(m.chans, m.queue[..i])|
                        && r.value.cursor == |Flat(m.chans, m.queue[..i])| - p
  {
    hide Flat, InChannels, Run, RunOk, Fits, Linked, Manager.RewindToBlock;
    RunOkIs(m);
    FitsIs(Run(m), |InChannels(m)|, m.blocks, m.cursor, m.tip);
    FirstInRun(m, i);
    RewindAt(m, Run(m), |InChannels(m)| - m.cursor, |Flat(m.chans, m.queue[..i])|);
  }

  lemma FirstInRun(m: Manager, i: nat)
    requires m.WF() && i < |m.queue| && m.chans[m.queue[i]].blocks != []
    ensures var j := |Flat(m.chans, m.queue[..i])|;
            j < |InChannels(m)| <= |Run(m)| && Run(m)[j] == m.chans[m.queue[i]].blocks[0]
  {
    hide Flat;
    var j := |Flat(m.chans, m.queue[..i])|;
    var bs := m.chans[m.queue[i]].blocks;
    FlatAt(m.chans, m.queue, i);
    assert Run(m)[j] == InChannels(m)[j..j + |bs|][0];
  }

  /** Rewinding by numbers, when state holds the end of a linked run. */
  lemma RewindAt(m: Manager, run: seq<Block>, p: nat, j: nat)
    requires Linked(run) && p <= |run| && m.blocks == run[p..]
    requires m.cursor <= |m.blocks| && j < p + m.cursor
    ensures m.RewindToBlock(run[j]).Some? <==> m.blocks != [] && m.blocks[0].number <= run[j].number
    ensures m.RewindToBlock(run[j]).Some? ==> p <= j && m.RewindToBlock(run[j]).value.cursor == j - p
  {
    if m.blocks != [] {
      LinkedNumbers(run, p, |run| - 1);
      if p <= j {
        LinkedNumbers(run, p, j);
      } else {
        LinkedNumbers(run, j, p);
      }
    }
  }

  /** Dropping the channels from `i` on together with a cursor that goes back to where the
      earlier channels end leaves the run as it was. */
  lemma DropRun(m: Manager, i: nat, cursor: nat, m': Manager)
    requires m.WF() && m'.WF() && RunOk(m)
    requires i <= |m.queue| && m'.queue == m.queue[..i] && m'.chans == m.chans
    requires m'.blocks == m.blocks && m'.tip == m.tip && m'.cursor == cursor
    requires |InChannels(m)| - m.cursor + cursor == |Flat(m.chans, m.queue[..i])|
    ensures RunOk(m') && Run(m') == Run(m)
  {
    QueueSplit(m, i);
    var front, back := Flat(m.chans, m.queue[..i]), Flat(m.chans, m.queue[i..]);
    hide Flat;
    assert InChannels(m') == front;
    RunSplits(front, back, m.blocks, m.cursor, m.tip, cursor);
  }

  lemma RunSplits(front: seq<Block>, back: seq<Block>, blocks: seq<Block>, was: nat, tip: Hash, cursor: nat)
    requires was <= |blocks| && cursor <= |blocks|
    requires Fits(front + back + blocks[was..], |front + back|, blocks, was, tip)
    requires |front + back| - was + cursor == |front|
    ensures front + blocks[cursor..] == front + back + blocks[was..]
    ensures Fits(front + back + blocks[was..], |front|, blocks, cursor, tip)
  {
    hide Linked, Block.WellFormed;
    var run := front + back + blocks[was..];
    RestOfRun(run, |front + back| - was, blocks, cursor);
    AfterFront(front, back, blocks[was..]);
  }

  lemma AfterFront(front: seq<Block>, back: seq<Block>, rest: seq<Block>)
    ensures (front + back + rest)[|front|..] == back + rest
    ensures front + (back + rest) == front + back + rest
  {
  }

  lemma RestOfRun(run: seq<Block>, p: nat, blocks: seq<Block>, i: nat)
    requires p <= |run| && blocks == run[p..] && i <= |blocks|
    ensures blocks[i..] == run[p + i..]
  {
  }

  lemma DropFromRest(m: Manager, m1: Manager, i: nat)
    requires Inv(m) && m1 == m.(cursor := m1.cursor, pendingBytes := m1.pendingBytes)
    requires m1.cursor <= |m.blocks| && (i < |m.queue| || i == |m.queue| == 0)
    ensures var m' := m1.DropFrom(i);
            m'.WF() && ChansOk(m') && OrderOk(m') && IndexOk(m') && StaleOk(m') && SettledExcept(m', None)
  {
    hide ChanInv, Settled, RunOk, Run, OrderOk, IndexOk, StaleOk;
    var m' := m1.DropFrom(i);
    assert m'.WF();
    DropOrder(m, m', i);
    DropLookup(m, m', i);
  }

  lemma DropOrder(m: Manager, m': Manager, i: nat)
    requires m.WF() && m'.WF() && OrderOk(m) && (i < |m.queue| || i == |m.queue| == 0)
    requires m'.chans == m.chans && m'.queue == m.queue[..i] && m'.current.None?
    ensures OrderOk(m')
  {
  }

  lemma DropLookup(m: Manager, m': Manager, i: nat)
    requires m.WF() && m'.WF() && OrderOk(m) && IndexOk(m) && StaleOk(m) && (i < |m.queue| || i == |m.queue| == 0)
    requires m'.chans == m.chans && m'.queue == m.queue[..i] && m'.blocks == m.blocks && m'.tip == m.tip
    requires m'.txChannels == map k | k in m.txChannels && m.txChannels[k] !in m.queue[i..] :: m.txChannels[k]
    ensures IndexOk(m') && StaleOk(m')
  {
    hide OrderOk, StaleOk, Stale;
    InOneHalf(m, i);
    forall id, k | id in m'.queue && k in m'.chans[id].pending
      ensures k in m'.txChannels && m'.txChannels[k] == id
    {
      assert id in m.queue && k in m.chans[id].pending;
    }
    DropStale(m, m', i);
  }

  lemma DropStale(m: Manager, m': Manager, i: nat)
    requires m.WF() && m'.WF() && StaleOk(m) && i <= |m.queue|
    requires m'.chans == m.chans && m'.queue == m.queue[..i] && m'.blocks == m.blocks && m'.tip == m.tip
    requires m'.txChannels == map k | k in m.txChannels && m.txChannels[k] !in m.queue[i..] :: m.txChannels[k]
    requires forall id | id in m.queue :: id in m.queue[..i] || id in m.queue[i..]
    ensures StaleOk(m')
  {
    hide Manager.WF;
  }

  lemma InOneHalf(m: Manager, i: nat)
    requires m.WF() && OrderOk(m) && i <= |m.queue|
    ensures forall id | id in m.queue :: id in m.queue[..i] || id in m.queue[i..]
    ensures forall id | id in m.queue[..i] :: id in m.queue && id !in m.queue[i..]
  {
    hide Manager.WF;
    assert m.queue == m.queue[..i] + m.queue[i..];
  }

  /** The first block of the channel is no longer in state. */
  predicate FirstBlockPruned(m: Manager, c: Chan) {
    c.blocks != [] && (m.blocks == [] || c.blocks[0].number < m.blocks[0].number)
  }

  lemma InvalidatePanics(m: Manager, i: nat)
    requires Inv(m) && i < |m.queue|
    ensures m.Invalidate(m.queue[i]).None? <==> FirstBlockPruned(m, m.chans[m.queue[i]])
  {
    if m.chans[m.queue[i]].blocks != [] {
      RewindExact(m, i);
    }
  }

  /** Invalidating the channel drops no block: it has blocks, so that the cursor is rewound to
      the first of them, or no channel that is dropped has any. A channel that is not queued
      drops the whole queue. */
  ghost predicate KeepsBlocks(m: Manager, id: ChId)
    requires m.WF() && id in m.chans
  {
    m.chans[id].blocks != [] || Flat(m.chans, m.queue[IndexOrZero(m.queue, id)..]) == []
  }

  /** Invalidating a channel that is queued or has no blocks keeps the run if and only if it
      drops no block; then the invariant is kept, too. Otherwise blocks are dropped without
      rewinding over them. */
  lemma InvalidateStep(m: Manager, id: ChId)
    requires Inv(m) && id in m.chans && (id in m.queue || m.chans[id].blocks == [])
    requires m.Invalidate(id).Some?
    ensures var m' := m.Invalidate(id).value; var i := IndexOrZero(m.queue, id);
            && m'.WF() && OrderOk(m') && m'.current.None? && m'.queue == m.queue[..i] && m'.chans == m.chans
            && (Run(m') == Run(m) <==> KeepsBlocks(m, id))
            && (!KeepsBlocks(m, id) ==> |Run(m')| < |Run(m)|)
            && (KeepsBlocks(m, id) ==> Inv(m'))
  {
    hide ChanInv, ChansOk, SettledExcept, IndexOk, StaleOk, Fits;
    var i := IndexOrZero(m.queue, id);
    var m' := m.Invalidate(id).value;
    var m1 := m'.(queue := m.queue, current := m.current, txChannels := m.txChannels);
    assert m' == m1.DropFrom(i);
    DropFromRest(m, m1, i);
    hide OrderOk;
    QueueSplit(m, i);
    if m.chans[id].blocks != [] {
      RewindExact(m, i);
      DropRun(m, i, m'.cursor, m');
    } else if KeepsBlocks(m, id) {
      DropRun(m, i, m'.cursor, m');
    }
  }
}
