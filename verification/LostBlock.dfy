/** A run in which a block is lost: a channel without blocks is invalidated after a newer channel
    took the block. The block is too large for a channel of singular batches, which the calldata
    configuration makes, but not for one of span batches, which the blob configuration makes. */
module LostBlock {
  import opened Chain
  import opened Frames
  import opened Options
  import opened ChannelSpec
  import opened ManagerSpec
  import opened ManagerInv
  import opened ManagerSteps
  import opened TxDataStep
  import opened BatcherLedger
  import opened Scenarios

  const BLOCK := Block(Digest(Block(NoHash, 0, 0, 70, 0)), 1, 1, 70, 0)

  const REFUSES := Compressor([Refused(TooManyRLPBytes)], 0)
  const TAKES := Compressor([Accepted(10, true)], 0)

  // ---- The channels ----

  /** A channel that refused the block: full, closed, without blocks, with one frame to send. */
  function Empty(id: ChId): Chan {
    NewChan(id, REFUSES.Next(), CALLDATA, 0).(
      fullErr := Some(TooManyRLPBytes), closed := true, nextFrame := 1, frames := [Frame(FrameId(id, 0), 23)])
  }

  function EmptyTx(): TxData { TxData([Frame(FrameId(1, 0), 23)], false) }

  function EmptySent(): Chan { Empty(1).(frameCursor := 1, pending := map[EmptyTx().Id() := EmptyTx()]) }

  /** The newer channel, with the block. */
  function Newer(): Chan {
    NewChan(3, TAKES, BLOBS, 0).Take(BLOCK, 10, true).(
      ready := 0, closed := true, nextFrame := 1, frames := [Frame(FrameId(3, 0), 33)])
  }

  function NewerTx(): TxData { TxData([Frame(FrameId(3, 0), 33)], true) }

  function NewerSent(): Chan { Newer().(frameCursor := 1, pending := map[NewerTx().Id() := NewerTx()]) }

  lemma EmptyIsMade(m: Manager, id: ChId)
    requires m.WF() && m.cfg == CALLDATA && m.blocks == [BLOCK] && m.cursor == 0 && m.l1OriginLast == 0
    ensures Makes(m, NewOut(id, REFUSES), 1, Empty(id).(closed := false, nextFrame := 0, frames := []), 0, Empty(id))
  {
    var c := NewChan(id, REFUSES, CALLDATA, 0);
    var full := c.SetFull(TooManyRLPBytes).(comp := REFUSES.Next());
    assert AddBlocks(c, [BLOCK]) == (full, 0, true);
    hide AddBlocks, Manager.WF;
    assert m.blocks[0..] == [BLOCK];
    assert full.frames + [Frame(FrameId(id, 0), 23)] == Empty(id).frames;
    assert full.(closed := true, ready := 0).OutputFrame() == (Empty(id), true);
    assert full.OutputFrames() == (Empty(id), true);
  }

  lemma NewerIsMade(m: Manager)
    requires m.WF() && m.cfg == BLOBS && m.blocks == [BLOCK] && m.cursor == 0 && m.l1OriginLast == 0
    ensures Makes(m, NewOut(3, TAKES), 1, NewChan(3, TAKES, BLOBS, 0).Take(BLOCK, 10, true), 1, Newer())
  {
    var c := NewChan(3, TAKES, BLOBS, 0);
    var full := c.Take(BLOCK, 10, true);
    assert c.AddBlock(BLOCK) == (full, Added);
    assert AddBlocks(c, [BLOCK]) == (full, 1, true);
    hide AddBlocks, Manager.WF;
    assert m.blocks[0..] == [BLOCK];
    assert full.frames + [Frame(FrameId(3, 0), 33)] == Newer().frames;
    assert full.(closed := true).OutputFrame() == (Newer(), true);
    assert full.OutputFrames() == (Newer(), true);
  }

  lemma EmptyIsSent()
    ensures Empty(1).HasTxData() && Empty(1).NextTxData() == (EmptySent(), EmptyTx())
    ensures EmptySent().id == 1 && EmptySent().IsFull() && !EmptySent().HasTxData() && EmptySent().blocks == []
    ensures EmptySent().latestL1Origin == 0
  {
    assert Empty(1).frames[0..1] == EmptyTx().frames;
  }

  lemma NewerIsSent()
    ensures Newer().HasTxData() && Newer().NextTxData() == (NewerSent(), NewerTx()) && NewerSent().id == 3
  {
    assert Newer().frames[0..1] == NewerTx().frames;
  }

  lemma EmptyIsResent()
    ensures EmptySent().TxFailed(EmptyTx().Id()) == Some(Empty(1))
  {
    assert EmptySent().RewindFrameCursor(EmptyTx().frames[0]) == Some(EmptySent().(frameCursor := 0));
    assert EmptySent().pending - {EmptyTx().Id()} == map[];
  }

  // ---- The states ----

  /** The channel without blocks is sent. */
  function Sent1(): Manager { WithSent(WithNew(Holding([BLOCK], 70), Empty(1), 0), EmptySent(), EmptyTx()) }

  /** Another channel refuses the block, and the DA type is switched. */
  function Refused2(): Manager { WithNew(Sent1(), Empty(2), 0) }

  function SwitchedTo(): Manager { Refused2().(cfg := BLOBS, current := None, queue := [1]) }

  /** A channel of the new type takes the block, and is sent. */
  function Sent2(): Manager { WithSent(WithNew(SwitchedTo(), Newer(), 1), NewerSent(), NewerTx()) }

  /** The first transaction fails. */
  function FailedFirst(): Manager {
    Sent2().(chans := Sent2().chans[1 := Empty(1)], txChannels := map[NewerTx().Id() := 3])
  }

  /** The DA type is switched back. */
  function Lost(): Manager { FailedFirst().(cfg := CALLDATA, current := None, queue := [], txChannels := map[]) }

  lemma NothingToSend(m: Manager)
    requires m.WF() && m.queue == [1] && m.chans[1] == EmptySent()
    ensures FirstWithTxData(m.chans, m.queue) == None
  {
    EmptyIsSent();
    hide EmptySent;
    assert m.queue[1..] == [];
  }

  lemma Sent1Is()
    ensures Holding([BLOCK], 70).cursor + 0 <= |Holding([BLOCK], 70).blocks|
    ensures Sent1() == WithSent(WithNew(Holding([BLOCK], 70), Empty(1), 0), EmptySent(), EmptyTx())
  {
  }

  lemma FirstSend()
    ensures Sent1().WF()
    ensures Goes(At(Holding([BLOCK], 70), [BLOCK]), Publish(1, CALLDATA, PLAIN, Some(NewOut(1, REFUSES)), None),
                 At(Sent1(), [BLOCK]))
  {
    hide *;
    Sent1Is();
    HoldingIs([BLOCK], 70);
    EmptyIsMade(Holding([BLOCK], 70), 1);
    EmptyIsSent();
    PublishNew(Holding([BLOCK], 70), [BLOCK], 1, NewOut(1, REFUSES),
               Empty(1).(closed := false, nextFrame := 0, frames := []), 0, Empty(1), EmptySent(), EmptyTx());
  }

  lemma Sent1Facts()
    ensures var m := Sent1();
            && m.blocks == [BLOCK] && m.cursor == 0 && m.l1OriginLast == 0 && m.cfg == CALLDATA
            && m.current == Some(1) && m.queue == [1] && m.chans == map[1 := EmptySent()]
            && m.txChannels == map[EmptyTx().Id() := 1] && m.pendingBytes == 70
  {
    hide *;
    Sent1Is();
    EmptyIsSent();
    HoldingIs([BLOCK], 70);
    EmptyIs(1);
    WithNewIs(Holding([BLOCK], 70), Empty(1), 0);
    WithSentIs(WithNew(Holding([BLOCK], 70), Empty(1), 0), EmptySent(), EmptyTx());
    assert map[][1 := Empty(1)][1 := EmptySent()] == map[1 := EmptySent()];
  }

  lemma Needs2()
    requires Sent1().WF()
    ensures NeedsNew(Sent1(), 2)
  {
    Sent1Facts();
    EmptyIsSent();
    hide Sent1, Empty, EmptySent, Manager.WF;
    NothingToSend(Sent1());
  }

  lemma RefusedAgain()
    requires Sent1().WF()
    ensures Sent1().GetReadyChannel(1, PLAIN, Some(NewOut(2, REFUSES))) == (Refused2(), Ready(2)) && Refused2().WF()
  {
    hide *;
    Refused2Is();
    Sent1Facts();
    Needs2();
    EmptyIsMade(Sent1(), 2);
    ReadyNew(Sent1(), NewOut(2, REFUSES), 1, Empty(2).(closed := false, nextFrame := 0, frames := []), 0, Empty(2));
  }

  lemma Refused2Is()
    ensures Sent1().cursor + 0 <= |Sent1().blocks| && Refused2() == WithNew(Sent1(), Empty(2), 0)
  {
  }

  lemma Refused2Facts()
    ensures var m := Refused2();
            && m.blocks == [BLOCK] && m.cursor == 0 && m.l1OriginLast == 0 && m.cfg == CALLDATA && m.pendingBytes == 70
            && m.queue == [1, 2] && m.chans == map[1 := EmptySent(), 2 := Empty(2)]
            && m.txChannels == map[EmptyTx().Id() := 1]
  {
    hide *;
    Sent1Facts();
    Refused2Is();
    EmptyIs(2);
    WithNewIs(Sent1(), Empty(2), 0);
    assert map[1 := EmptySent()][2 := Empty(2)] == map[1 := EmptySent(), 2 := Empty(2)];
  }

  lemma EmptyIs(id: ChId)
    ensures Empty(id).id == id && Empty(id).blocks == [] && Empty(id).NoneSubmitted() && Empty(id).HasTxData()
    ensures Empty(id).IsFull() && Empty(id).cfg.Usable() && Empty(id).frameCursor <= |Empty(id).frames|
  {
  }

  lemma SwitchedToIs()
    ensures SwitchedTo() == Refused2().(cfg := BLOBS, current := None, queue := [1])
  {
  }

  lemma SwitchedFacts(m0: Manager)
    requires m0.WF() && m0.blocks == [BLOCK] && m0.cursor == 0 && m0.queue == [1, 2]
    requires m0.chans == map[1 := EmptySent(), 2 := Empty(2)]
    ensures var m := m0.(cfg := BLOBS, current := None, queue := [1]); m.WF() && NeedsNew(m, 3)
  {
    hide EmptySent, Empty;
    var m := m0.(cfg := BLOBS, current := None, queue := [1]);
    assert m.WF();
    NothingToSend(m);
  }

  lemma SwitchedToFacts()
    ensures var m := SwitchedTo();
            && m.blocks == [BLOCK] && m.cursor == 0 && m.l1OriginLast == 0 && m.cfg == BLOBS && m.pendingBytes == 70
            && m.current == None && m.queue == [1] && m.chans == map[1 := EmptySent(), 2 := Empty(2)]
            && m.txChannels == map[EmptyTx().Id() := 1] && m.(cfg := CALLDATA).(cfg := BLOBS) == m
  {
    hide *;
    Refused2Facts();
    SwitchedToIs();
  }

  lemma SecondSend()
    requires Sent1().WF()
    ensures Sent2().WF()
    ensures Goes(At(Sent1(), [BLOCK]), Publish(1, BLOBS, PLAIN, Some(NewOut(2, REFUSES)), Some(NewOut(3, TAKES))),
                 At(Sent2(), [BLOCK]))
  {
    hide *;
    RefusedAgain();
    Refused2Facts();
    EmptyIs(2);
    InvalidateLast(Refused2(), [1], 2);
    SwitchedToIs();
    SwitchedToFacts();
    SwitchedFacts(Refused2());
    NewerIsMade(SwitchedTo());
    NewerIsSent();
    Configs();
    PublishSwitchNew(Sent1(), 1, BLOBS, NewOut(2, REFUSES), NewOut(3, TAKES), Refused2(),
                     SwitchedTo().(cfg := CALLDATA),
                     NewChan(3, TAKES, BLOBS, 0).Take(BLOCK, 10, true), 1, Newer(), NewerSent(), NewerTx());
    Sent2Is();
    Kept(Refused2(), 2, BLOBS);
    Outs2();
    PublishGoes(Sent1(), [BLOCK], 1, BLOBS, Some(NewOut(2, REFUSES)), Some(NewOut(3, TAKES)), Refused2(), Ready(2),
                Sent2(), Data(NewerTx(), 3));
  }

  lemma Kept(m: Manager, id: ChId, newCfg: Config)
    requires m.WF() && id in m.chans && KeepsBlocks(m, id)
    ensures SwitchKeeps(m, Ready(id), newCfg)
  {
    hide KeepsBlocks, Manager.WF;
  }

  lemma Outs2()
    ensures OutsOk(Sent1(), Some(NewOut(2, REFUSES)), Some(NewOut(3, TAKES)))
  {
    Sent1Facts();
    hide Sent1, EmptySent;
  }

  lemma Sent2Is()
    ensures SwitchedTo().cursor + 1 <= |SwitchedTo().blocks|
    ensures Sent2() == WithSent(WithNew(SwitchedTo(), Newer(), 1), NewerSent(), NewerTx())
  {
    Refused2Facts();
    hide Refused2, EmptySent, Empty, EmptyTx;
  }

  lemma NewerIs()
    ensures Newer().id == 3 && Newer().blocks == [BLOCK] && NewerSent().blocks == [BLOCK]
  {
  }

  lemma Sent2Facts()
    ensures var m := Sent2();
            && m.blocks == [BLOCK] && m.cursor == 1 && m.cfg == BLOBS && m.queue == [1, 3]
            && m.chans == map[1 := EmptySent(), 2 := Empty(2), 3 := NewerSent()]
            && m.txChannels == map[EmptyTx().Id() := 1, NewerTx().Id() := 3]
  {
    hide *;
    SwitchedToFacts();
    Sent2Is();
    NewerIs();
    NewerIsSent();
    WithNewIs(SwitchedTo(), Newer(), 1);
    WithSentIs(WithNew(SwitchedTo(), Newer(), 1), NewerSent(), NewerTx());
    assert map[1 := EmptySent(), 2 := Empty(2)][3 := Newer()][3 := NewerSent()] ==
           map[1 := EmptySent(), 2 := Empty(2), 3 := NewerSent()];
    assert map[EmptyTx().Id() := 1][NewerTx().Id() := 3] == map[EmptyTx().Id() := 1, NewerTx().Id() := 3];
  }

  lemma DifferentTxs()
    ensures EmptyTx().Id() != NewerTx().Id()
  {
    assert EmptyTx().Id()[0] != NewerTx().Id()[0];
  }

  lemma FailedFirstIs()
    ensures FailedFirst() == Sent2().(chans := Sent2().chans[1 := Empty(1)], txChannels := map[NewerTx().Id() := 3])
    ensures Lost() == FailedFirst().(cfg := CALLDATA, current := None, queue := [], txChannels := map[])
  {
    hide Sent2, Empty, NewerTx;
  }

  lemma FirstFails()
    requires Sent2().WF()
    ensures FailedFirst().WF() && Goes(At(Sent2(), [BLOCK]), Fail(EmptyTx().Id()), At(FailedFirst(), [BLOCK]))
  {
    hide *;
    Sent2Facts();
    DifferentTxs();
    EmptyIsResent();
    EmptyIs(1);
    FailsIs(Sent2(), EmptyTx().Id(), Empty(1));
    FailedFirstIs();
    assert map[EmptyTx().Id() := 1, NewerTx().Id() := 3] - {EmptyTx().Id()} == map[NewerTx().Id() := 3];
    FailGoes(Sent2(), [BLOCK], EmptyTx().Id(), FailedFirst());
  }

  lemma FailedFirstFacts()
    ensures var m := FailedFirst();
            && m.blocks == [BLOCK] && m.cursor == 1 && m.cfg == BLOBS && m.queue == [1, 3]
            && m.chans == map[1 := Empty(1), 2 := Empty(2), 3 := NewerSent()]
            && m.txChannels == map[NewerTx().Id() := 3]
  {
    hide *;
    Sent2Facts();
    FailedFirstIs();
    assert map[1 := EmptySent(), 2 := Empty(2), 3 := NewerSent()][1 := Empty(1)] ==
           map[1 := Empty(1), 2 := Empty(2), 3 := NewerSent()];
  }

  lemma RunOfTwo(m: Manager)
    requires m.WF() && m.queue == [1, 3] && m.blocks == [BLOCK] && m.cursor == 1
    requires m.chans[1].blocks == [] && m.chans[3].blocks == [BLOCK]
    ensures Flat(m.chans, m.queue) == [BLOCK] && Run(m) == [BLOCK]
  {
    assert m.queue[..1] == [1] && [1][..0] == [];
    assert Flat(m.chans, [1]) == [];
    assert Flat(m.chans, m.queue) == [] + [BLOCK];
    assert m.blocks[1..] == [];
  }

  lemma RunOfNone(m: Manager)
    requires m.WF() && m.queue == [] && m.cursor == |m.blocks|
    ensures Run(m) == []
  {
  }

  const LAST := Publish(1, CALLDATA, PLAIN, None, None)

  /** Switching back drops both channels. */
  lemma SwitchesBack(m: Manager)
    requires m.WF() && m.blocks == [BLOCK] && m.cursor == 1 && m.cfg == BLOBS && m.queue == [1, 3]
    requires m.chans == map[1 := Empty(1), 2 := Empty(2), 3 := NewerSent()] && m.txChannels == map[NewerTx().Id() := 3]
    ensures var m' := m.(cfg := CALLDATA, current := None, queue := [], txChannels := map[]);
            && m'.WF() && Run(m) == [BLOCK] && Run(m') == []
            && EnvOk(At(m, [BLOCK]), LAST) && !KeepsRun(m, LAST) && Step(At(m, [BLOCK]), LAST) == Some(At(m', [BLOCK]))
  {
    hide *;
    EmptyIs(1);
    NewerIs();
    Configs();
    RunOfTwo(m);
    InvalidateFirst(m, 1);
    var m1 := m.(queue := [], current := None, txChannels := map[]);
    PublishSwitchNone(m, 1, CALLDATA, 1, m1);
    ReadyFirst(m, 1, 1, None);
    RunOfNone(m1.(cfg := CALLDATA));
    LastStep(m, m1.(cfg := CALLDATA));
  }

  lemma LastStep(m: Manager, m': Manager)
    requires m.WF() && CALLDATA.Usable() && m.GetReadyChannel(1, PLAIN, None) == (m, Ready(1)) && 1 in m.chans
    requires Switches(m, Ready(1), CALLDATA) && !KeepsBlocks(m, 1)
    requires m.TxData(1, CALLDATA, PLAIN, None, None) == Some((m', NoData))
    ensures EnvOk(At(m, [BLOCK]), LAST) && !KeepsRun(m, LAST) && Step(At(m, [BLOCK]), LAST) == Some(At(m', [BLOCK]))
  {
    hide Manager.GetReadyChannel, Manager.TxData, KeepsBlocks, Manager.WF, Switches;
  }

  lemma FirstLoad()
    ensures Initial(At(Start(), [])) && Goes(At(Start(), []), Load(BLOCK), At(Holding([BLOCK], 70), [BLOCK]))
  {
    FirstLoadGoes(BLOCK);
  }

  function Events(): seq<Event> {
    [Load(BLOCK), Publish(1, CALLDATA, PLAIN, Some(NewOut(1, REFUSES)), None),
     Publish(1, BLOBS, PLAIN, Some(NewOut(2, REFUSES)), Some(NewOut(3, TAKES))), Fail(EmptyTx().Id())]
  }

  lemma EventsAre()
    ensures var es := Events();
            && |es| == 4 && es[0] == Load(BLOCK)
            && es[1] == Publish(1, CALLDATA, PLAIN, Some(NewOut(1, REFUSES)), None)
            && es[2] == Publish(1, BLOBS, PLAIN, Some(NewOut(2, REFUSES)), Some(NewOut(3, TAKES)))
            && es[3] == Fail(EmptyTx().Id()) && es == [es[0], es[1], es[2], es[3]]
  {
    hide EmptyTx;
  }

  /** From a new batcher, four steps that lose nothing, and a fifth that drops a channel without
      blocks and a newer one: the block that was loaded is in no channel and behind the cursor,
      and no safe head was ever reported. */
  lemma ABlockCanBeLost()
    ensures Initial(At(Start(), [])) && Reaches(At(Start(), []), Events(), At(FailedFirst(), [BLOCK]))
    ensures var m, m' := FailedFirst(), Lost();
            && m.WF() && EnvOk(At(m, [BLOCK]), LAST) && !KeepsRun(m, LAST)
            && Step(At(m, [BLOCK]), LAST) == Some(At(m', [BLOCK]))
            && m'.WF() && Run(m) == [BLOCK] && Run(m') == [] && m'.blocks == [BLOCK] && m'.cursor == 1
  {
    hide *;
    FirstLoad();
    FirstSend();
    SecondSend();
    FirstFails();
    FailedFirstFacts();
    FailedFirstIs();
    SwitchesBack(FailedFirst());
    EventsAre();
    ReachesFour(At(Start(), []), Events()[0], At(Holding([BLOCK], 70), [BLOCK]), Events()[1], At(Sent1(), [BLOCK]),
                Events()[2],
                At(Sent2(), [BLOCK]), Events()[3], At(FailedFirst(), [BLOCK]));
  }
}
