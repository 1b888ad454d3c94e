/** Building and sending leave the run of blocks as it is even after blocks were dropped from
    it, when the rest of the invariant is gone. */
module DroppedBlocks {
  import opened Chain
  import opened Frames
  import opened Options
  import opened ChannelSpec
  import opened ManagerSpec
  import opened ManagerInv
  import opened PublishSteps
  import opened Publishing

  /** A channel takes a prefix of the blocks it is offered. */
  lemma {:induction false} AddBlocksTakes(c: Chan, bs: seq<Block>)
    ensures var (c', n, _) := AddBlocks(c, bs); c'.blocks == c.blocks + bs[..n]
    decreases |bs|
  {
    hide Chan.AddBlock, Chan.IsFull;
    if bs != [] {
      AddBlockTakes(c, bs[0]);
      var (c1, o) := c.AddBlock(bs[0]);
      if o == Added && !c1.IsFull() {
        AddBlocksTakes(c1, bs[1..]);
        var n := AddBlocks(c1, bs[1..]).1;
        assert c.blocks + [bs[0]] + bs[1..][..n] == c.blocks + bs[..n + 1];
      } else if o == Added {
        assert bs[..1] == [bs[0]];
      }
    }
  }

  lemma AddBlockTakes(c: Chan, b: Block)
    ensures var (c', o) := c.AddBlock(b); c'.blocks == if o == Added then c.blocks + [b] else c.blocks
  {
  }

  lemma {:induction false} DrainBlocks(c: Chan)
    requires c.cfg.Usable() && c.closed
    ensures c.Drain().blocks == c.blocks
    decreases c.ready
  {
    var (c1, last) := c.OutputFrame();
    if !last {
      DrainBlocks(c1);
    }
  }

  lemma {:induction false} ReadyFramesBlocks(c: Chan)
    requires c.cfg.Usable()
    ensures c.OutputReadyFrames().blocks == c.blocks
    decreases c.ready
  {
    if c.ready + FRAME_OVERHEAD >= c.cfg.maxFrameSize {
      var (c1, last) := c.OutputFrame();
      if !last {
        ReadyFramesBlocks(c1);
      }
    }
  }

  lemma OutputFramesBlocks(c: Chan)
    requires c.cfg.Usable()
    ensures c.OutputFrames().0.blocks == c.blocks
  {
    if !c.IsFull() {
      ReadyFramesBlocks(c);
    } else if !c.closed {
      DrainBlocks(c.(closed := true, ready := c.ready + c.comp.flush));
    }
  }

  /** The run depends on the queue, on the blocks of the queued channels and on what waits. */
  lemma SameRun(m: Manager, m': Manager)
    requires m.WF() && m'.WF() && m'.queue == m.queue && m'.blocks == m.blocks && m'.cursor == m.cursor
    requires forall id | id in m.queue :: m'.chans[id].blocks == m.chans[id].blocks
    ensures Run(m') == Run(m)
  {
    FlatSame(m.chans, m'.chans, m.queue);
  }

  lemma NextSameRun(m: Manager, id: ChId)
    requires m.WF() && id in m.chans
    ensures m.NextTxData(id).0.WF() && Run(m.NextTxData(id).0) == Run(m)
  {
    var m' := m.NextTxData(id).0;
    assert m'.WF();
    hide Run;
    SameRun(m, m');
  }

  lemma RegisterSameRun(m: Manager, head: nat, pi: PubInfo)
    requires m.WF() && m.current.Some?
    ensures Run(m.RegisterAndOutput(head, pi).0) == Run(m)
  {
    var c0 := m.chans[m.current.value];
    var c := if pi.ignoreMaxChannelDuration then c0 else c0.CheckTimeout(head);
    OutputFramesBlocks(c);
    OutputFramesShape(c);
    hide Chan.OutputFrames, Run;
    SameRun(m, m.RegisterAndOutput(head, pi).0);
  }

  /** A channel at the end of the queue adds its blocks. */
  lemma FlatSnoc(chans: map<ChId, Chan>, q: seq<ChId>, c: Chan)
    requires c.id !in chans && forall id | id in q :: id in chans
    ensures Flat(chans[c.id := c], q + [c.id]) == Flat(chans, q) + c.blocks
  {
    assert (q + [c.id])[..|q|] == q;
    FlatSame(chans, chans[c.id := c], q);
  }

  /** A new channel takes its blocks from the waiting ones. */
  lemma NewChannelSameRun(m: Manager, m': Manager, c: Chan, n: nat)
    requires m.WF() && m'.WF() && c.id !in m.chans && n <= |m.blocks| - m.cursor
    requires m'.chans == m.chans[c.id := c] && m'.queue == m.queue + [c.id]
    requires m'.blocks == m.blocks && m'.cursor == m.cursor + n && c.blocks == m.blocks[m.cursor..][..n]
    ensures Run(m') == Run(m)
  {
    hide Flat;
    FlatSnoc(m.chans, m.queue, c);
    SplitPending(m.blocks, m.cursor, n);
    Regroup(InChannels(m), c.blocks, m.blocks[m.cursor..][n..]);
  }

  /** The new channel after building, and how many blocks it took. */
  function NewlyBuilt(m: Manager, out: NewOut): (Chan, nat)
    requires m.WF()
  {
    var (c, n, _) := AddBlocks(NewChan(out.id, out.comp, m.cfg, m.l1OriginLast), m.blocks[m.cursor..]);
    (c, n)
  }

  lemma EnsureProcessIs(m: Manager, out: NewOut)
    requires m.WF() && m.current.None? && out.id !in m.chans
    ensures var m2 := m.EnsureChannelWithSpace(Some(out)).value.ProcessBlocks().0; var (c, n) := NewlyBuilt(m, out);
            && c.id == out.id && n <= |m.blocks| - m.cursor && c.blocks == m.blocks[m.cursor..][..n]
            && m2.WF() && m2.chans == m.chans[c.id := c] && m2.queue == m.queue + [c.id]
            && m2.blocks == m.blocks && m2.cursor == m.cursor + n
  {
    hide AddBlocks, NewChan, Manager.EnsureChannelWithSpace, Manager.ProcessBlocks;
    var c := NewChan(out.id, out.comp, m.cfg, m.l1OriginLast);
    var pend := m.blocks[m.cursor..];
    AddBlocksShape(c, pend);
    AddBlocksTakes(c, pend);
    NewChanEmpty(out.id, out.comp, m.cfg, m.l1OriginLast);
    EnsureOpens(m, out);
    ProcessedIs(m.EnsureChannelWithSpace(Some(out)).value);
  }

  lemma EnsureOpens(m: Manager, out: NewOut)
    requires m.WF() && m.current.None?
    ensures var c := NewChan(out.id, out.comp, m.cfg, m.l1OriginLast); var r := m.EnsureChannelWithSpace(Some(out));
            r.Some? && r.value == m.With(c).(current := Some(c.id), queue := m.queue + [c.id])
  {
    hide NewChan;
  }

  lemma EnsureProcessSameRun(m: Manager, out: Option<NewOut>)
    requires m.WF() && m.current.None? && FreshOut(m, out) && m.EnsureChannelWithSpace(out).Some?
    ensures Run(m.EnsureChannelWithSpace(out).value.ProcessBlocks().0) == Run(m)
  {
    OutGiven(m, out);
    hide Run, NewlyBuilt, Manager.ProcessBlocks, Manager.EnsureChannelWithSpace;
    EnsureProcessIs(m, out.value);
    var (c, n) := NewlyBuilt(m, out.value);
    NewChannelSameRun(m, m.EnsureChannelWithSpace(out).value.ProcessBlocks().0, c, n);
  }

  lemma OutGiven(m: Manager, out: Option<NewOut>)
    requires m.WF() && m.current.None? && m.EnsureChannelWithSpace(out).Some?
    ensures out.Some?
  {
  }

  lemma BuildSameRun(m: Manager, head: nat, pi: PubInfo, out: Option<NewOut>)
    requires m.WF() && m.current.None? && FreshOut(m, out)
    ensures Run(m.BuildChannel(head, pi, out).0) == Run(m)
  {
    hide Run, Manager.WF, Manager.BuildChannel, Manager.EnsureChannelWithSpace, Manager.ProcessBlocks,
      Manager.RegisterAndOutput;
    BuildCases(m, head, pi, out);
    match m.EnsureChannelWithSpace(out)
    case None =>
    case Some(m1) =>
      EnsureProcessSameRun(m, out);
      RegisterSameRun(m1.ProcessBlocks().0, head, pi);
  }

  lemma ReadySameRun(m: Manager, head: nat, pi: PubInfo, out: Option<NewOut>)
    requires m.WF() && m.current.None? && FreshOut(m, out)
    ensures Run(m.GetReadyChannel(head, pi, out).0) == Run(m)
  {
    hide Run, Manager.BuildChannel;
    BuildSameRun(m, head, pi, out);
  }
}
