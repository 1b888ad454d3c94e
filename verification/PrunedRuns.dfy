/** Two runs in which a safe head prunes blocks of the state: one that then panics, and one that
    leaves the counter of pending bytes wrong. */
module PrunedRuns {
  import opened Chain
  import opened Frames
  import opened Options
  import opened ChannelSpec
  import opened ManagerSpec
  import opened ManagerInv
  import opened SyncSpec
  import opened BatcherRuns
  import opened BatcherLedger
  import opened Scenarios

  /** Two blocks of different estimated sizes. */
  const B1 := Block(Digest(Block(NoHash, 0, 0, 70, 0)), 1, 1, 70, 0)
  const B2 := Block(Digest(B1), 2, 1, 50, 0)

  function Loaded1(): Manager { Holding([B1], 70) }

  function Loaded(): Manager { Holding([B1, B2], 120) }

  lemma LoadedIs()
    ensures Loaded() == Holding([B1, B2], 120)
  {
    hide Holding;
  }

  lemma Loads()
    ensures Initial(At(Start(), [])) && Goes(At(Start(), []), Load(B1), At(Loaded1(), [B1]))
    ensures Goes(At(Loaded1(), [B1]), Load(B2), At(Loaded(), [B1, B2]))
  {
    hide Goes, Initial, Holding, Start, At;
    FirstLoadGoes(B1);
    NextLoadGoes([B1], 70, B2);
    assert [B1] + [B2] == [B1, B2];
  }

  function Tx(): TxData { TxData([Frame(FrameId(1, 0), 33)], false) }

  /** A channel that took its blocks, and was closed with one frame. */
  function Closed(c: Chan): Chan {
    c.(ready := 0, closed := true, nextFrame := 1, frames := [Frame(FrameId(1, 0), 33)])
  }

  function Sent(c: Chan): Chan { c.(frameCursor := 1, pending := map[Tx().Id() := Tx()]) }

  lemma ClosedIsSent(c: Chan)
    requires c.cfg == CALLDATA && c.frameCursor == 0 && c.pending == map[] && c.IsFull()
    ensures Closed(c).HasTxData() && Closed(c).NextTxData() == (Sent(Closed(c)), Tx())
  {
    assert Closed(c).frames[0..1] == Tx().frames;
  }

  lemma SentIsResent(c: Chan)
    requires c.id == 1 && c.frameCursor == 0 && c.pending == map[]
    ensures Sent(Closed(c)).TxFailed(Tx().Id()) == Some(Closed(c))
  {
    var s := Sent(Closed(c));
    assert s.RewindFrameCursor(Tx().frames[0]) == Some(s.(frameCursor := 0));
    assert s.pending - {Tx().Id()} == map[];
  }

  // ---- A panic ----

  const BOTH := Compressor([Accepted(0, false), Accepted(10, true)], 0)

  /** The channel that took both blocks. */
  function TookBoth(): Chan { NewChan(1, BOTH, CALLDATA, 0).Take(B1, 0, false).Take(B2, 10, true) }

  lemma TookBothIs()
    ensures var c := TookBoth();
            && c.id == 1 && c.cfg == CALLDATA && c.frameCursor == 0 && c.pending == map[] && c.confirmed == map[]
            && c.IsFull() && c.blocks == [B1, B2] && c.latestL2 == 2 && c.latestL1Origin == 1
  {
    assert [] + [B1] + [B2] == [B1, B2];
  }

  lemma BothTaken(m: Manager)
    requires m.WF() && m.cfg == CALLDATA && m.blocks == [B1, B2] && m.cursor == 0 && m.l1OriginLast == 0
    ensures Makes(m, NewOut(1, BOTH), 1, TookBoth(), 2, Closed(TookBoth()))
  {
    hide Manager.WF;
    var c0 := NewChan(1, BOTH, CALLDATA, 0);
    var c1 := c0.Take(B1, 0, false);
    assert c0.AddBlock(B1) == (c1, Added) && !c1.IsFull();
    assert c1.AddBlock(B2) == (TookBoth(), Added) && TookBoth().IsFull();
    assert [B1, B2][1..] == [B2];
    assert AddBlocks(c1, [B2]) == (TookBoth(), 1, true);
    assert AddBlocks(c0, [B1, B2]) == (TookBoth(), 2, true);
    hide AddBlocks;
    assert m.blocks[0..] == [B1, B2];
    BothOutput();
  }

  lemma BothOutput()
    ensures var c := TookBoth();
            c.CheckTimeout(1) == c && c.OutputFrames() == (Closed(c), true) && Closed(c).HasTxData()
  {
    var c := TookBoth();
    assert c.frames + [Frame(FrameId(1, 0), 33)] == Closed(c).frames;
    assert c.(closed := true).OutputFrame() == (Closed(c), true);
  }

  /** Both blocks are in the channel, whose transaction is sent, and fails. */
  function SentBoth(): Manager {
    WithSent(Loaded().(cursor := 2, pendingBytes := 0, current := Some(1), queue := [1],
                       chans := map[1 := Closed(TookBoth())]), Sent(Closed(TookBoth())), Tx())
  }

  function Unsent(): Manager { SentBoth().(chans := map[1 := Closed(TookBoth())], txChannels := map[]) }

  /** The first block is pruned. */
  function Pruned1(): Manager { Unsent().(blocks := [B2], cursor := 1) }

  lemma Together()
    ensures SumBytes([B1, B2]) == 120 && SumBytes([B1]) == 70 && SumBytes([B2]) == 50
  {
    assert [B1, B2][1..] == [B2] && [B1][1..] == [] && [B2][1..] == [];
    assert SumBytes([B2]) == B2.daBytes + SumBytes([]) && SumBytes([B1]) == B1.daBytes + SumBytes([]);
    assert SumBytes([B1, B2]) == B1.daBytes + SumBytes([B2]);
  }

  lemma BuiltBoth(m: Manager, c: Chan)
    requires m.cursor == 0 && m.blocks == [B1, B2] && m.queue == [] && m.chans == map[] && m.pendingBytes == 120
    requires c.id == 1
    ensures WithNew(m, c, 2) ==
            m.(cursor := 2, pendingBytes := 0, current := Some(1), queue := [1], chans := map[1 := c])
  {
    Together();
    assert m.blocks[0..][..2] == [B1, B2] && m.queue + [1] == [1];
  }

  lemma SentBothIs()
    ensures SentBoth()
         == WithSent(Loaded().(cursor := 2, pendingBytes := 0, current := Some(1), queue := [1],
                                             chans := map[1 := Closed(TookBoth())]), Sent(Closed(TookBoth())), Tx())
    ensures Unsent() == SentBoth().(chans := map[1 := Closed(TookBoth())], txChannels := map[])
    ensures Pruned1() == Unsent().(blocks := [B2], cursor := 1)
  {
    hide Loaded, TookBoth, Closed, Sent, Tx;
  }

  lemma ClosedIs(c: Chan)
    ensures Closed(c).id == c.id && Closed(c).blocks == c.blocks && Closed(c).cfg == c.cfg && Sent(c).id == c.id
    ensures Closed(c).latestL2 == c.latestL2 && Closed(c).frameCursor == c.frameCursor && |Closed(c).frames| == 1
    ensures Closed(c).pending == c.pending && Closed(c).confirmed == c.confirmed && Closed(c).fullErr == c.fullErr
    ensures Sent(c).latestL2 == c.latestL2 && Sent(c).blocks == c.blocks && |Sent(c).pending| == 1
  {
  }

  lemma BothSent()
    ensures SentBoth().WF()
    ensures Goes(At(Loaded(), [B1, B2]), Publish(1, CALLDATA, PLAIN, Some(NewOut(1, BOTH)), None),
                 At(SentBoth(), [B1, B2]))
  {
    hide *;
    LoadedIs();
    HoldingIs([B1, B2], 120);
    BothTaken(Loaded());
    TookBothIs();
    ClosedIs(TookBoth());
    ClosedIs(Closed(TookBoth()));
    ClosedIsSent(TookBoth());
    BuiltBoth(Loaded(), Closed(TookBoth()));
    SentBothIs();
    PublishNew(Loaded(), [B1, B2], 1, NewOut(1, BOTH), TookBoth(), 2, Closed(TookBoth()),
               Sent(Closed(TookBoth())), Tx());
  }

  lemma SentBothFacts()
    ensures var m := SentBoth();
            && m.blocks == [B1, B2] && m.cursor == 2 && m.cfg == CALLDATA && m.queue == [1] && m.pendingBytes == 0
            && m.chans == map[1 := Sent(Closed(TookBoth()))] && m.txChannels == map[Tx().Id() := 1]
            && m.current == Some(1)
  {
    hide *;
    LoadedIs();
    HoldingIs([B1, B2], 120);
    SentBothIs();
    TookBothIs();
    ClosedIs(TookBoth());
    ClosedIs(Closed(TookBoth()));
    var m := Loaded().(cursor := 2, pendingBytes := 0, current := Some(1), queue := [1],
                       chans := map[1 := Closed(TookBoth())]);
    WithSentIs(m, Sent(Closed(TookBoth())), Tx());
    assert map[1 := Closed(TookBoth())][1 := Sent(Closed(TookBoth()))] == map[1 := Sent(Closed(TookBoth()))];
    assert map[][Tx().Id() := 1] == map[Tx().Id() := 1];
  }

  lemma BothFail()
    requires SentBoth().WF()
    ensures Unsent().WF() && Goes(At(SentBoth(), [B1, B2]), Fail(Tx().Id()), At(Unsent(), [B1, B2]))
  {
    hide *;
    SentBothFacts();
    SentBothIs();
    TookBothIs();
    ClosedIs(TookBoth());
    SentIsResent(TookBoth());
    Configs();
    FailsIs(SentBoth(), Tx().Id(), Closed(TookBoth()));
    assert map[1 := Sent(Closed(TookBoth()))][1 := Closed(TookBoth())] == map[1 := Closed(TookBoth())];
    assert map[Tx().Id() := 1] - {Tx().Id()} == map[];
    FailGoes(SentBoth(), [B1, B2], Tx().Id(), Unsent());
  }

  /** The node has reached the first block, and knows the second. */
  const SAFE1 := SyncStatus(true, 0, Some(B1), Some(2))

  lemma Keeps1(channels: seq<Chan>, c: Chan)
    requires channels == [c] && c.latestL2 == 2 && |c.frames| == 1 && c.frameCursor == 0
    ensures KeepState(SAFE1, B1, [B1, B2], channels) && SafePrefix(channels, 1) == 0
  {
    assert !Stalled(c, 0, 1);
  }

  lemma UnsentFacts()
    ensures var m := Unsent();
            && m.blocks == [B1, B2] && m.cursor == 2 && m.cfg == CALLDATA && m.queue == [1] && m.pendingBytes == 0
            && m.chans == map[1 := Closed(TookBoth())] && m.txChannels == map[] && m.current == Some(1)
  {
    hide *;
    SentBothFacts();
    SentBothIs();
  }

  lemma OneQueued(m: Manager, c: Chan)
    requires m.WF() && m.queue == [1] && m.chans == map[1 := c]
    ensures QueuedChans(m) == [c]
  {
  }

  lemma RunOfOne(m: Manager, bs: seq<Block>)
    requires m.WF() && m.queue == [1] && m.chans[1].blocks == bs && m.cursor == |m.blocks|
    ensures Run(m) == bs
  {
    assert m.queue[..0] == [];
    assert Flat(m.chans, m.queue) == [] + bs;
  }

  /** What the sync leaves: nothing of the run is given up, as the channel still has both blocks. */
  lemma Synced1(m: Manager, m1: Manager)
    requires m.WF() && m.blocks == [B1, B2] && m.cursor == 2 && m.queue == [1]
             && m.chans == map[1 := Closed(TookBoth())]
    requires m1 == m.(blocks := [B2], cursor := 1)
    requires Closed(TookBoth()).blocks == [B1, B2] && Closed(TookBoth()).latestL2 == 2
    requires |Closed(TookBoth()).frames| == 1 && Closed(TookBoth()).frameCursor == 0
    ensures m1.WF() && Goes(At(m, [B1, B2]), Sync(SAFE1), Ledger(Batcher(m1, 0), [B1, B2], 0, [B1], false))
  {
    hide *;
    var b := Batcher(m, 0);
    AtIs(m, [B1, B2]);
    OneQueued(m, Closed(TookBoth()));
    Keeps1(QueuedChans(m), Closed(TookBoth()));
    Status1();
    SyncIs(b, SAFE1, 1, 0);
    SyncGoes(At(m, [B1, B2]), SAFE1);
    SyncAlso(b, SAFE1, m1);
    RunOfOne(m, [B1, B2]);
    RunOfOne(m1, [B1, B2]);
    SyncedLedgerIs(At(m, [B1, B2]), SAFE1, Batcher(m1, 0));
  }

  lemma Status1()
    ensures !OutOfSync(SAFE1, 0) && SAFE1.localSafe == Some(B1) && B1.number == 1 && SAFE1.currentL1 == 0
  {
  }

  /** The fields that the sync leaves alone. */
  lemma SyncAlso(b: Batcher, s: SyncStatus, m1: Manager)
    requires b.mgr.WF() && b.SyncAndPrune(s).Some? && !OutOfSync(s, b.prevCurrentL1) && !SyncClears(b, s)
    requires m1 == b.mgr.(blocks := m1.blocks, cursor := m1.cursor)
    requires var m' := b.SyncAndPrune(s).value.0.mgr;
             && m'.blocks == m1.blocks && m'.cursor == m1.cursor && m'.queue == m1.queue && m'.current == m1.current
             && m'.pendingBytes == m1.pendingBytes
    ensures b.SyncAndPrune(s).value.0.mgr == m1
  {
    hide ComputeSyncActions, QueuedChans;
  }

  lemma SyncedLedgerIs(l: Ledger, s: SyncStatus, b': Batcher)
    requires l.batcher.mgr.WF() && b'.mgr.WF() && s.localSafe.Some? && |Run(l.batcher.mgr)| == |Run(b'.mgr)|
    requires !Straddles(l.batcher, s) && l.safeHeads == []
    ensures SyncedLedger(l, s, b') == Ledger(b', l.loaded, l.released, [s.localSafe.value], l.straddled)
  {
    hide Run, Straddles;
    assert [] + [s.localSafe.value] == [s.localSafe.value];
  }

  const LAST := Publish(1, BLOBS, PLAIN, None, None)

  /** A switch of the DA type then rewinds to a block that is gone. */
  lemma Panics(m: Manager, c: Chan)
    requires m.WF() && m.blocks == [B2] && m.cursor == 1 && m.cfg == CALLDATA && m.queue == [1]
             && m.chans == map[1 := c]
    requires c.blocks == [B1, B2] && c.HasTxData() && c.NoneSubmitted()
    ensures m.TxData(1, BLOBS, PLAIN, None, None) == None
  {
    Configs();
    ReadyFirst(m, 1, 1, None);
    assert m.Invalidate(1) == None;
    hide Manager.TxData, Manager.GetReadyChannel, Manager.Invalidate, Chan.HasTxData, Chan.NoneSubmitted;
    PublishSwitch(m, 1, BLOBS, None, None, m, 1, None);
  }

  function Events1(): seq<Event> {
    [Load(B1), Load(B2), Publish(1, CALLDATA, PLAIN, Some(NewOut(1, BOTH)), None), Fail(Tx().Id()), Sync(SAFE1)]
  }

  lemma Events1Are()
    ensures var es := Events1();
            && |es| == 5 && es[0] == Load(B1) && es[1] == Load(B2)
            && es[2] == Publish(1, CALLDATA, PLAIN, Some(NewOut(1, BOTH)), None) && es[3] == Fail(Tx().Id())
            && es[4] == Sync(SAFE1) && es == [es[0], es[1], es[2], es[3], es[4]]
  {
    hide Tx;
  }

  lemma LastPanics(m: Manager, b: nat, loaded: seq<Block>, heads: seq<Block>)
    requires m.WF() && BLOBS.Usable() && m.TxData(1, BLOBS, PLAIN, None, None) == None
    ensures var l := Ledger(Batcher(m, b), loaded, 0, heads, false); EnvOk(l, LAST) && Step(l, LAST) == None
  {
    hide Manager.TxData, Manager.WF;
  }

  lemma NothingSubmitted()
    ensures Closed(TookBoth()).NoneSubmitted()
  {
  }

  /** From a new batcher: two blocks go into one channel, its transaction fails, the first block is
      reported safe and pruned while the channel stays; a switch of the DA type then panics. */
  lemma APanicCanHappen()
    ensures var l := Ledger(Batcher(Pruned1(), 0), [B1, B2], 0, [B1], false);
            && Initial(At(Start(), [])) && Reaches(At(Start(), []), Events1(), l)
            && Pruned1().WF() && EnvOk(l, LAST) && Step(l, LAST) == None
  {
    hide *;
    Loads();
    BothSent();
    BothFail();
    UnsentFacts();
    SentBothIs();
    TookBothIs();
    ClosedIs(TookBoth());
    ClosedIsSent(TookBoth());
    Synced1(Unsent(), Pruned1());
    NothingSubmitted();
    Configs();
    Panics(Pruned1(), Closed(TookBoth()));
    LastPanics(Pruned1(), 0, [B1, B2], [B1]);
    Events1Are();
    var es := Events1();
    ReachesFive(At(Start(), []), es[0], At(Loaded1(), [B1]), es[1], At(Loaded(), [B1, B2]), es[2],
                At(SentBoth(), [B1, B2]), es[3], At(Unsent(), [B1, B2]), es[4],
                Ledger(Batcher(Pruned1(), 0), [B1, B2], 0, [B1], false));
  }

  // ---- A wrong counter ----

  const ONE := Compressor([Accepted(10, true)], 0)

  /** The channel that took the first block only. */
  function TookOne(): Chan { NewChan(1, ONE, CALLDATA, 0).Take(B1, 10, true) }

  lemma TookOneIs()
    ensures var c := TookOne();
            && c.id == 1 && c.cfg == CALLDATA && c.frameCursor == 0 && c.pending == map[] && c.confirmed == map[]
            && c.IsFull() && c.blocks == [B1] && c.latestL2 == 1 && c.latestL1Origin == 1
  {
    assert [] + [B1] == [B1];
  }

  lemma OneTaken(m: Manager)
    requires m.WF() && m.cfg == CALLDATA && m.blocks == [B1, B2] && m.cursor == 0 && m.l1OriginLast == 0
    ensures Makes(m, NewOut(1, ONE), 1, TookOne(), 1, Closed(TookOne()))
  {
    hide Manager.WF;
    var c0 := NewChan(1, ONE, CALLDATA, 0);
    assert c0.AddBlock(B1) == (TookOne(), Added) && TookOne().IsFull();
    assert AddBlocks(c0, [B1, B2]) == (TookOne(), 1, true);
    hide AddBlocks;
    assert m.blocks[0..] == [B1, B2];
    OneOutput();
  }

  lemma OneOutput()
    ensures var c := TookOne(); c.CheckTimeout(1) == c && c.OutputFrames() == (Closed(c), true) && Closed(c).HasTxData()
  {
    var c := TookOne();
    assert c.frames + [Frame(FrameId(1, 0), 33)] == Closed(c).frames;
    assert c.(closed := true).OutputFrame() == (Closed(c), true);
  }

  /** The first block is in a channel, which is sent; the second one waits. */
  function SentOne(): Manager {
    WithSent(Loaded().(cursor := 1, pendingBytes := 50, current := Some(1), queue := [1],
                       chans := map[1 := Closed(TookOne())]), Sent(Closed(TookOne())), Tx())
  }

  lemma SentOneIs()
    ensures SentOne()
         == WithSent(Loaded().(cursor := 1, pendingBytes := 50, current := Some(1), queue := [1],
                                            chans := map[1 := Closed(TookOne())]), Sent(Closed(TookOne())), Tx())
  {
    hide Loaded, TookOne, Closed, Sent, Tx;
  }

  lemma BuiltOne(m: Manager, c: Chan)
    requires m.cursor == 0 && m.blocks == [B1, B2] && m.queue == [] && m.chans == map[] && m.pendingBytes == 120
    requires c.id == 1
    ensures WithNew(m, c, 1) ==
            m.(cursor := 1, pendingBytes := 50, current := Some(1), queue := [1], chans := map[1 := c])
  {
    Together();
    assert m.blocks[0..][..1] == [B1] && m.queue + [1] == [1];
  }

  lemma OneSent()
    ensures SentOne().WF()
    ensures Goes(At(Loaded(), [B1, B2]), Publish(1, CALLDATA, PLAIN, Some(NewOut(1, ONE)), None),
                 At(SentOne(), [B1, B2]))
  {
    hide *;
    LoadedIs();
    HoldingIs([B1, B2], 120);
    OneTaken(Loaded());
    TookOneIs();
    ClosedIs(TookOne());
    ClosedIs(Closed(TookOne()));
    ClosedIsSent(TookOne());
    BuiltOne(Loaded(), Closed(TookOne()));
    SentOneIs();
    PublishNew(Loaded(), [B1, B2], 1, NewOut(1, ONE), TookOne(), 1, Closed(TookOne()),
               Sent(Closed(TookOne())), Tx());
  }

  lemma SentOneFacts()
    ensures var m := SentOne();
            && m.blocks == [B1, B2] && m.cursor == 1 && m.queue == [1] && m.pendingBytes == 50
            && m.chans == map[1 := Sent(Closed(TookOne()))] && m.current == Some(1)
  {
    hide *;
    LoadedIs();
    HoldingIs([B1, B2], 120);
    SentOneIs();
    TookOneIs();
    ClosedIs(TookOne());
    ClosedIs(Closed(TookOne()));
    var m := Loaded().(cursor := 1, pendingBytes := 50, current := Some(1), queue := [1],
                       chans := map[1 := Closed(TookOne())]);
    WithSentIs(m, Sent(Closed(TookOne())), Tx());
    assert map[1 := Closed(TookOne())][1 := Sent(Closed(TookOne()))] == map[1 := Sent(Closed(TookOne()))];
  }

  const SAFE2 := SyncStatus(true, 0, Some(B2), Some(2))

  lemma Keeps2(channels: seq<Chan>, c: Chan)
    requires channels == [c] && c.latestL2 == 1 && |c.pending| == 1
    ensures KeepState(SAFE2, B2, [B1, B2], channels) && SafePrefix(channels, 2) == 1
  {
    assert !Stalled(c, 0, 2);
    assert channels[1..] == [];
  }

  lemma Status2()
    ensures !OutOfSync(SAFE2, 0) && SAFE2.localSafe == Some(B2) && B2.number == 2 && B1.number == 1
            && SAFE2.currentL1 == 0
  {
  }

  lemma Synced2(m: Manager, c: Chan)
    requires m.WF() && m.blocks == [B1, B2] && m.cursor == 1 && m.queue == [1] && m.chans == map[1 := c]
    requires m.pendingBytes == 50 && m.current == Some(1) && c.latestL2 == 1 && |c.pending| == 1
    ensures var r := Batcher(m, 0).SyncAndPrune(SAFE2);
            && r.Some? && !SyncClears(Batcher(m, 0), SAFE2) && Straddles(Batcher(m, 0), SAFE2)
            && var m' := r.value.0.mgr; m'.WF() && m'.blocks == [] && m'.cursor == 0 && m'.pendingBytes == -20
  {
    hide *;
    OneQueued(m, c);
    Keeps2(QueuedChans(m), c);
    Status2();
    Together();
    SyncIs(Batcher(m, 0), SAFE2, 2, 1);
    assert [B1, B2][2..] == [] && [B1, B2][..1] == [B1];
  }

  lemma NothingWaits(m: Manager)
    requires m.blocks == [] && m.cursor == 0
    ensures Drift(m) == m.pendingBytes
  {
  }

  function Events2(): seq<Event> {
    [Load(B1), Load(B2), Publish(1, CALLDATA, PLAIN, Some(NewOut(1, ONE)), None), Sync(SAFE2)]
  }

  lemma Events2Are()
    ensures var es := Events2();
            && |es| == 4 && es[0] == Load(B1) && es[1] == Load(B2)
            && es[2] == Publish(1, CALLDATA, PLAIN, Some(NewOut(1, ONE)), None)
            && es[3] == Sync(SAFE2) && es == [es[0], es[1], es[2], es[3]]
  {
  }

  /** From a new batcher: one of two blocks of different sizes goes into a channel, then both are
      pruned, and the counter is off. */
  lemma TheCounterCanGoWrong() returns (l: Ledger)
    ensures Initial(At(Start(), [])) && Reaches(At(Start(), []), Events2(), l)
    ensures l.straddled && l.batcher.mgr.WF() && l.batcher.mgr.blocks == [] && l.batcher.mgr.pendingBytes == -20
    ensures Drift(l.batcher.mgr) == -20
  {
    hide *;
    Loads();
    OneSent();
    SentOneFacts();
    TookOneIs();
    ClosedIs(TookOne());
    ClosedIs(Closed(TookOne()));
    Synced2(SentOne(), Sent(Closed(TookOne())));
    Status2();
    AtIs(SentOne(), [B1, B2]);
    SyncGoes(At(SentOne(), [B1, B2]), SAFE2);
    var b' := Batcher(SentOne(), 0).SyncAndPrune(SAFE2).value.0;
    l := SyncedLedger(At(SentOne(), [B1, B2]), SAFE2, b');
    StraddledLedger(At(SentOne(), [B1, B2]), SAFE2, b');
    NothingWaits(b'.mgr);
    Events2Are();
    var es := Events2();
    ReachesFour(At(Start(), []), es[0], At(Loaded1(), [B1]), es[1], At(Loaded(), [B1, B2]), es[2],
                At(SentOne(), [B1, B2]), es[3], l);
  }

  lemma StraddledLedger(l: Ledger, s: SyncStatus, b': Batcher)
    requires l.batcher.mgr.WF() && s.localSafe.Some? && Straddles(l.batcher, s)
    ensures var l' := SyncedLedger(l, s, b'); l'.batcher == b' && l'.straddled
  {
    hide Straddles, GivenUp;
  }
}
