/** The running count of estimated DA bytes that wait for a channel. */
module PendingBytes {
  import opened Chain
  import opened Frames
  import opened Options
  import opened ChannelSpec
  import opened ManagerSpec
  import opened ManagerInv
  import opened Publishing

  lemma AddDrift(m: Manager, b: Block)
    requires m.cursor <= |m.blocks|
    ensures var m' := m.AddL2Block(b).0; m'.cursor <= |m'.blocks| && Drift(m') == Drift(m)
  {
    var m' := m.AddL2Block(b).0;
    if m' != m {
      assert m'.blocks[m'.cursor..] == m.blocks[m.cursor..] + [b];
      SumBytesConcat(m.blocks[m.cursor..], [b]);
      assert SumBytes([b]) == b.daBytes + SumBytes([b][1..]);
    }
  }

  /** The size of what waits, split at a later cursor. */
  lemma DriftSplit(blocks: seq<Block>, i: nat, j: nat)
    requires i <= j <= |blocks|
    ensures SumBytes(blocks[i..]) == SumBytes(blocks[i..j]) + SumBytes(blocks[j..])
  {
    SumBytesSplit(blocks, i, j, |blocks|);
    assert blocks[i..|blocks|] == blocks[i..] && blocks[j..|blocks|] == blocks[j..];
  }

  lemma InvalidateDrift(m: Manager, id: ChId)
    requires m.cursor <= |m.blocks| && id in m.chans && m.Invalidate(id).Some?
    ensures var m' := m.Invalidate(id).value; m'.cursor <= |m'.blocks| && Drift(m') == Drift(m)
  {
    var m' := m.Invalidate(id).value;
    DriftSplit(m.blocks, m'.cursor, m.cursor);
  }

  lemma ProcessDrift(m: Manager)
    requires m.WF() && m.current.Some?
    ensures Drift(m.ProcessBlocks().0) == Drift(m)
  {
    hide AddBlocks;
    var pend := m.blocks[m.cursor..];
    var n := AddBlocks(m.chans[m.current.value], pend).1;
    DriftSplit(m.blocks, m.cursor, m.cursor + n);
    assert pend[..n] == m.blocks[m.cursor..m.cursor + n];
  }

  ghost predicate SameWaiting(m: Manager, m': Manager) {
    m'.blocks == m.blocks && m'.cursor == m.cursor && m'.pendingBytes == m.pendingBytes
  }

  lemma EnsureWaiting(m: Manager, out: Option<NewOut>)
    requires m.WF() && m.EnsureChannelWithSpace(out).Some?
    ensures SameWaiting(m, m.EnsureChannelWithSpace(out).value)
  {
  }

  lemma RegisterWaiting(m: Manager, head: nat, pi: PubInfo)
    requires m.WF() && m.current.Some?
    ensures SameWaiting(m, m.RegisterAndOutput(head, pi).0)
  {
    hide Chan.OutputFrames, Chan.CheckTimeout;
  }

  lemma BuildDrift(m: Manager, head: nat, pi: PubInfo, out: Option<NewOut>)
    requires m.WF()
    ensures Drift(m.BuildChannel(head, pi, out).0) == Drift(m)
  {
    hide Manager.BuildChannel, Manager.EnsureChannelWithSpace, Manager.ProcessBlocks, Manager.RegisterAndOutput;
    BuildCases(m, head, pi, out);
    match m.EnsureChannelWithSpace(out)
    case None =>
    case Some(m1) =>
      EnsureWaiting(m, out);
      ProcessDrift(m1);
      RegisterWaiting(m1.ProcessBlocks().0, head, pi);
  }

  lemma ReadyDrift(m: Manager, head: nat, pi: PubInfo, out: Option<NewOut>)
    requires m.WF()
    ensures Drift(m.GetReadyChannel(head, pi, out).0) == Drift(m)
  {
    hide Manager.ForceClose, Manager.BuildChannel;
    BuildDrift(m.ForceClose(pi).0, head, pi, out);
  }

  lemma NextWaiting(m: Manager, id: ChId)
    requires m.WF() && id in m.chans
    ensures SameWaiting(m, m.NextTxData(id).0)
  {
    hide Chan.NextTxData;
  }

  /** Handing out transactions keeps the count right, switches of the DA type included. */
  lemma TxDataDrift(m: Manager, head: nat, newCfg: Config, pi: PubInfo, out1: Option<NewOut>, out2: Option<NewOut>)
    requires m.WF() && newCfg.Usable() && m.TxData(head, newCfg, pi, out1, out2).Some?
    ensures var m' := m.TxData(head, newCfg, pi, out1, out2).value.0;
            m'.cursor <= |m'.blocks| && Drift(m') == Drift(m)
  {
    hide Manager.GetReadyChannel, Manager.Invalidate, Manager.NextTxData;
    ReadyDrift(m, head, pi, out1);
    var (m0, r) := m.GetReadyChannel(head, pi, out1);
    if r.Ready? {
      NextWaiting(m0, r.id);
      if m0.Invalidate(r.id).Some? {
        SwitchDrift(m0, r.id, head, newCfg, pi, out2);
      }
    }
  }

  lemma SwitchDrift(m: Manager, id: ChId, head: nat, newCfg: Config, pi: PubInfo, out: Option<NewOut>)
    requires m.WF() && id in m.chans && newCfg.Usable() && m.Invalidate(id).Some?
    ensures var m1 := m.Invalidate(id).value.(cfg := newCfg);
            && m1.WF()
            && var (m2, r) := m1.GetReadyChannel(head, pi, out);
               Drift(m2) == Drift(m) && (r.Ready? ==> SameWaiting(m2, m2.NextTxData(r.id).0))
  {
    InvalidateDrift(m, id);
    var m1 := m.Invalidate(id).value.(cfg := newCfg);
    assert m1.WF();
    hide Manager.Invalidate, Manager.GetReadyChannel;
    ReadyDrift(m1, head, pi, out);
    var (m2, r) := m1.GetReadyChannel(head, pi, out);
    if r.Ready? {
      NextWaiting(m2, r.id);
    }
  }

  /** Of the pruned blocks that were still waiting, the first ones of the queue are counted
      instead: the count is off by the difference, and stays right exactly when there is none. */
  lemma PruneDrift(m: Manager, n: nat)
    requires m.cursor <= |m.blocks| && n <= |m.blocks|
    ensures var m' := m.PruneSafeBlocks(n).value;
            && m'.cursor <= |m'.blocks|
            && (n <= m.cursor ==> Drift(m') == Drift(m))
            && (n > m.cursor ==>
                  Drift(m') == Drift(m) + SumBytes(m.blocks[m.cursor..n]) - SumBytes(m.blocks[..n - m.cursor]))
            && (n > m.cursor == 0 ==> Drift(m') == Drift(m))
  {
    var m' := m.PruneSafeBlocks(n).value;
    if n <= m.cursor {
      assert m'.blocks[m'.cursor..] == m.blocks[m.cursor..];
    } else {
      DriftSplit(m.blocks, m.cursor, n);
      assert m'.blocks[0..] == m.blocks[n..];
    }
  }

  /** The count does go wrong: one block in a channel, one of another size waiting, both pruned. */
  lemma PruneDriftHappens(m: Manager, b0: Block, b1: Block)
    requires m.blocks == [b0, b1] && m.cursor == 1 && b0.daBytes != b1.daBytes
    ensures var m' := m.PruneSafeBlocks(2).value; m'.cursor <= |m'.blocks| && Drift(m') != Drift(m)
  {
    PruneDrift(m, 2);
    assert m.blocks[1..2] == [b1] && m.blocks[..1] == [b0];
    assert SumBytes([b1]) == b1.daBytes + SumBytes([b1][1..]);
    assert SumBytes([b0]) == b0.daBytes + SumBytes([b0][1..]);
  }
}
