/** TxData as one step: what it hands out, what it keeps, when it panics. */
module TxDataStep {
  import opened Frames
  import opened Options
  import opened ChannelSpec
  import opened ChannelProofs
  import opened ManagerSpec
  import opened ManagerInv
  import opened ManagerSteps
  import opened PublishSteps
  import opened Publishing
  import opened DroppedBlocks

  /** What the environment owes a call: channel outs with new and distinct IDs. */
  ghost predicate OutsOk(m: Manager, out1: Option<NewOut>, out2: Option<NewOut>) {
    && FreshOut(m, out1) && FreshOut(m, out2)
    && (out1.Some? && out2.Some? ==> out1.value.id != out2.value.id)
  }

  ghost predicate ReadyAt(m: Manager, id: ChId, i: nat)
    requires m.WF()
  {
    i < |m.queue| && m.queue[i] == id && m.chans[id].HasTxData() && NothingBefore(m, i)
  }

  /** The call gets as far as building a channel and registering the L1 head with it. */
  ghost predicate Builds(m: Manager, pi: PubInfo)
    requires m.WF()
  {
    var m0 := m.ForceClose(pi).0;
    FirstWithTxData(m0.chans, m0.queue).None? && m0.cursor < |m0.blocks|
  }

  ghost predicate GotReady(m: Manager, m': Manager, r: ReadyResult, head: nat, pi: PubInfo, out: Option<NewOut>)
    requires m.WF()
  {
    && Inv(m') && Run(m') == Run(m) && m'.cfg == m.cfg
    && m'.chans.Keys <= m.chans.Keys + (if out.Some? then {out.value.id} else {})
    && (Live(m) ==> Live(m'))
    && (r.Ready? ==> exists i :: ReadyAt(m', r.id, i))
    && (r == NotReady ==> AllSent(m'))
    && (Forced(m, pi) ==> r.Ready?)
    && (Builds(m, pi) && r != ReadyError && !pi.ignoreMaxChannelDuration ==> InTime(m', head))
  }

  lemma SameBlocksLive(m: Manager, m': Manager)
    requires m.WF() && m'.WF() && m'.queue == m.queue && m'.blocks == m.blocks
    requires m'.chans.Keys == m.chans.Keys
    requires forall id | id in m.chans :: m'.chans[id].blocks == m.chans[id].blocks
    ensures Live(m) <==> Live(m')
  {
    forall id | id in m.queue
      ensures m'.chans[id].blocks == m.chans[id].blocks
    {
      assert id in m.chans;
    }
  }

  lemma BuildGotReady(m: Manager, m': Manager, r: ReadyResult, head: nat, pi: PubInfo, out: Option<NewOut>)
    requires m.WF() && BuildDone(m, m', r, head, pi, out)
    ensures && Inv(m') && Run(m') == Run(m) && m'.cfg == m.cfg
            && m'.chans.Keys <= m.chans.Keys + (if out.Some? then {out.value.id} else {})
            && (Live(m) ==> Live(m'))
            && (r.Ready? ==> exists i :: ReadyAt(m', r.id, i))
            && (r == NotReady ==> AllSent(m'))
            && (r != ReadyError && !pi.ignoreMaxChannelDuration ==> InTime(m', head))
  {
    hide ChanInv, ChansOk, RunOk, Run, IndexOk, StaleOk, SettledExcept, NothingBefore, Live, InTime;
    if r.Ready? {
      assert ReadyAt(m', r.id, |m'.queue| - 1);
    }
  }

  lemma GetReadyStep(m: Manager, head: nat, pi: PubInfo, out: Option<NewOut>)
    requires Inv(m) && FreshOut(m, out)
    ensures var (m', r) := m.GetReadyChannel(head, pi, out); GotReady(m, m', r, head, pi, out)
  {
    hide ChanInv, ChansOk, RunOk, Run, OrderOk, IndexOk, StaleOk, SettledExcept, Live, NothingBefore, InTime, GotReady,
      BuildDone, FirstWithTxData, Manager.ForceClose, Manager.BuildChannel, Manager.GetReadyChannel;
    ForceCloseStep(m, pi);
    var m0 := m.ForceClose(pi).0;
    SameBlocksLive(m, m0);
    var i := FirstWithTxDataIs(m0.chans, m0.queue);
    if i == |m0.queue| {
      AllWithoutData(m0);
      if m0.cursor < |m0.blocks| {
        BuildStep(m0, head, pi, out);
      } else {
        IdleAllSent(m0);
      }
      if Forced(m, pi) {
        CurrentQueued(m0);
      }
    } else if i < |m0.queue| {
      FirstIsReady(m0, i);
    }
    ForcedGotReady(m, m0, i, head, pi, out);
  }

  /** From what is known of the state after closing by force to the whole call. */
  lemma ForcedGotReady(m: Manager, m0: Manager, i: nat, head: nat, pi: PubInfo, out: Option<NewOut>)
    requires m.WF() && m.ForceClose(pi) == (m0, true) && Inv(m0) && Run(m0) == Run(m)
    requires m0.cfg == m.cfg && m0.chans.Keys == m.chans.Keys && (Live(m) <==> Live(m0))
    requires i <= |m0.queue|
    requires i == |m0.queue| ==> FirstWithTxData(m0.chans, m0.queue).None?
    requires i < |m0.queue| ==> FirstWithTxData(m0.chans, m0.queue) == Some(m0.queue[i]) && ReadyAt(m0, m0.queue[i], i)
    requires i == |m0.queue| && m0.cursor == |m0.blocks| ==> AllSent(m0)
    requires Forced(m, pi) ==> i < |m0.queue|
    requires i == |m0.queue| && m0.cursor < |m0.blocks| ==>
               var (m', r) := m0.BuildChannel(head, pi, out); BuildDone(m0, m', r, head, pi, out)
    ensures var (m', r) := m.GetReadyChannel(head, pi, out); GotReady(m, m', r, head, pi, out)
  {
    hide ChanInv, ChansOk, RunOk, Run, OrderOk, IndexOk, StaleOk, SettledExcept, Live, NothingBefore, InTime,
      BuildDone, FirstWithTxData, Manager.ForceClose, Manager.BuildChannel, Manager.GetReadyChannel;
    ReadyIs(m, head, pi, out);
    var (m', r) := m.GetReadyChannel(head, pi, out);
    if i == |m0.queue| && m0.cursor < |m0.blocks| {
      BuildGotReady(m0, m', r, head, pi, out);
    }
  }

  lemma CurrentQueued(m: Manager)
    requires m.WF() && OrderOk(m) && m.current.Some?
    ensures m.current.value in m.queue
  {
  }

  lemma FirstIsReady(m: Manager, i: nat)
    requires Inv(m) && i < |m.queue| && m.chans[m.queue[i]].HasTxData()
    requires forall j | 0 <= j < i :: !m.chans[m.queue[j]].HasTxData()
    ensures ReadyAt(m, m.queue[i], i)
  {
    hide Chan.HasTxData, NothingBefore;
    NoDataNothingBefore(m, i);
  }

  /** The ways looking for a ready channel can end, when closing by force does not fail. */
  lemma ReadyIs(m: Manager, head: nat, pi: PubInfo, out: Option<NewOut>)
    requires m.WF() && m.ForceClose(pi).1
    ensures var m0 := m.ForceClose(pi).0; var first := FirstWithTxData(m0.chans, m0.queue);
            m.GetReadyChannel(head, pi, out) ==
            if first.Some? then (m0, Ready(first.value))
            else if m0.cursor == |m0.blocks| then (m0, NotReady) else m0.BuildChannel(head, pi, out)
  {
    hide Manager.ForceClose, FirstWithTxData, Manager.BuildChannel;
  }

  lemma AllWithoutData(m: Manager)
    requires m.WF() && forall j | 0 <= j < |m.queue| :: !m.chans[m.queue[j]].HasTxData()
    ensures forall id | id in m.queue :: !m.chans[id].HasTxData()
  {
    hide Chan.HasTxData;
    forall id | id in m.queue
      ensures !m.chans[id].HasTxData()
    {
      var j :| 0 <= j < |m.queue| && m.queue[j] == id;
    }
  }

  // ---- What is handed out ----

  /** `tx` is the latest stretch of frames sent from channel `from`, it is on record as
      pending there, and no channel before `from` has a frame left to send. */
  ghost predicate EmittedAt(m: Manager, tx: TxData, from: ChId, i: nat)
    requires m.WF()
  {
    && i < |m.queue| && m.queue[i] == from && NothingBefore(m, i)
    && var c := m.chans[from];
       && 0 < |tx.frames| <= c.frameCursor
       && tx.frames == c.frames[c.frameCursor - |tx.frames|..c.frameCursor]
       && tx.asBlob == c.cfg.useBlobs
       && tx.Id() in c.pending
       && RightSize(c, tx)
  }

  ghost predicate TxDataDone(m: Manager, m': Manager, r: TxResult)
    requires m.WF()
  {
    && Inv(m') && Run(m') == Run(m) && Live(m')
    && (r.Data? ==> exists i :: EmittedAt(m', r.tx, r.from, i))
    && (r == NoData ==> AllSent(m'))
  }

  lemma NextTxEmits(m: Manager, id: ChId, i: nat)
    requires Inv(m) && Live(m) && ReadyAt(m, id, i)
    ensures var (m', r) := m.NextTxData(id);
            TxDataDone(m, m', r) && r.Data? && r.from == id && m'.chans[id].cfg == m.chans[id].cfg
            && m'.chans[id].blocks == m.chans[id].blocks && m'.cfg == m.cfg
  {
    hide ChanInv, ChansOk, RunOk, Run, OrderOk, IndexOk, StaleOk, SettledExcept, Live, NothingBefore, Chan.HasTxData,
      EmittedAt, Manager.NextTxData;
    NextTxStep(m, id);
    var c', tx := SentChannel(m, id);
    var (m', r) := m.NextTxData(id);
    SentLive(m, m', c');
    SentEmits(m, m', i, c', tx);
  }

  /** The channel after it handed out its next frames. */
  lemma SentChannel(m: Manager, id: ChId) returns (c': Chan, tx: TxData)
    requires Inv(m) && id in m.chans && m.chans[id].HasTxData()
    ensures var (m', r) := m.NextTxData(id);
            && r == Data(tx, id) && m'.chans == m.chans[id := c'] && m'.cfg == m.cfg
            && m'.queue == m.queue && m'.blocks == m.blocks
    ensures c'.id == id && c'.cfg == m.chans[id].cfg && c'.blocks == m.chans[id].blocks
    ensures 0 < |tx.frames| <= c'.frameCursor <= |c'.frames|
    ensures tx.frames == c'.frames[c'.frameCursor - |tx.frames|..c'.frameCursor]
    ensures tx.asBlob == c'.cfg.useBlobs && tx.Id() in c'.pending && RightSize(c', tx)
  {
    hide ChanInv, ChansOk, RunOk, Run, OrderOk, IndexOk, StaleOk, SettledExcept, Chan.HasTxData, Chan.NextTxData,
      Manager.NextTxData, IsTxOf;
    var c := m.chans[id];
    InvOf(m, id);
    NextTxDataInv(c);
    c', tx := c.NextTxData().0, c.NextTxData().1;
    CursorIn(c');
    SentIs(m, id, c', tx);
  }

  lemma SentLive(m: Manager, m': Manager, c': Chan)
    requires m.WF() && m'.WF() && Live(m) && c'.id in m.chans && c'.blocks == m.chans[c'.id].blocks
    requires m'.queue == m.queue && m'.blocks == m.blocks && m'.chans == m.chans[c'.id := c']
    ensures Live(m')
  {
    SameBlocksLive(m, m');
  }

  lemma SentIs(m: Manager, id: ChId, c': Chan, tx: TxData)
    requires m.WF() && id in m.chans && m.chans[id].HasTxData() && m.chans[id].NextTxData() == (c', tx) && c'.id == id
    ensures var (m', r) := m.NextTxData(id);
            && r == Data(tx, id) && m'.chans == m.chans[id := c'] && m'.cfg == m.cfg
            && m'.queue == m.queue && m'.blocks == m.blocks
  {
    hide Chan.NextTxData, Chan.HasTxData;
  }

  lemma SentEmits(m: Manager, m': Manager, i: nat, c': Chan, tx: TxData)
    requires m.WF() && m'.WF() && OrderOk(m) && i < |m.queue| && m.queue[i] == c'.id && NothingBefore(m, i)
    requires m'.queue == m.queue && m'.chans == m.chans[c'.id := c']
    requires 0 < |tx.frames| <= c'.frameCursor <= |c'.frames|
    requires tx.frames == c'.frames[c'.frameCursor - |tx.frames|..c'.frameCursor]
    requires tx.asBlob == c'.cfg.useBlobs && tx.Id() in c'.pending && RightSize(c', tx)
    ensures EmittedAt(m', tx, c'.id, i)
  {
    forall j | 0 <= j < i
      ensures !m'.chans[m'.queue[j]].HasPendingFrame()
    {
      assert m.queue[j] != m.queue[i];
    }
  }

  // ---- Switching the DA type ----

  /** The manager after the ready channel `id` was invalidated for a new configuration. */
  lemma SwitchInvalidate(m: Manager, id: ChId, i: nat, newCfg: Config)
    requires Inv(m) && Live(m) && ReadyAt(m, id, i) && newCfg.Usable()
    requires m.Invalidate(id).Some? && KeepsBlocks(m, id)
    ensures var m1 := m.Invalidate(id).value.(cfg := newCfg);
            && Inv(m1) && Run(m1) == Run(m) && Live(m1)
            && m1.chans == m.chans && m1.current.None? && m1.cfg == newCfg
            && (forall x | x in m1.queue :: !m1.chans[x].HasTxData())
            && (m.chans[id].blocks != [] ==>
                  m1.cursor < |m1.blocks| && m1.blocks[m1.cursor] == m.chans[id].blocks[0])
  {
    hide ChanInv, ChansOk, RunOk, Run, IndexOk, StaleOk, SettledExcept, Flat, KeepsBlocks, NothingBefore, EndsIn;
    InvalidateStep(m, id);
    var m0 := m.Invalidate(id).value;
    InvalidateIs(m, id);
    ConfigChange(m0, newCfg);
    assert IndexOrZero(m.queue, id) == i by { SameIndex(m.queue, id, i); }
    BeforeWithoutData(m, i);
  }

  lemma SameIndex(q: seq<ChId>, id: ChId, i: nat)
    requires Distinct(q) && i < |q| && q[i] == id
    ensures IndexOrZero(q, id) == i
  {
  }

  lemma InvalidateIs(m: Manager, id: ChId)
    requires m.WF() && id in m.chans && m.Invalidate(id).Some?
    ensures var m' := m.Invalidate(id).value;
            && m'.blocks == m.blocks && m'.cfg == m.cfg
            && (m.chans[id].blocks != [] ==>
                  m'.cursor < |m'.blocks| && m'.blocks[m'.cursor] == m.chans[id].blocks[0])
  {
  }

  lemma BeforeWithoutData(m: Manager, i: nat)
    requires Inv(m) && i < |m.queue| && NothingBefore(m, i)
    ensures forall x | x in m.queue[..i] :: !m.chans[x].HasTxData()
  {
    hide ChanInv, ChansOk, RunOk, Run, IndexOk, StaleOk, SettledExcept;
    forall x | x in m.queue[..i]
      ensures !m.chans[x].HasTxData()
    {
      var j :| 0 <= j < i && m.queue[j] == x;
      assert m.current != Some(x) by { assert m.queue[j] != m.queue[|m.queue| - 1]; }
      assert !m.chans[m.queue[j]].HasPendingFrame();
    }
  }

  lemma ConfigChange(m: Manager, newCfg: Config)
    requires Inv(m) && newCfg.Usable()
    ensures Inv(m.(cfg := newCfg)) && Run(m.(cfg := newCfg)) == Run(m)
  {
    hide ChanInv, Settled, Fits, Flat;
    var m' := m.(cfg := newCfg);
    assert m'.WF();
    assert RunOk(m') by { hide OrderOk, IndexOk, StaleOk, ChansOk, SettledExcept; }
    assert OrderOk(m') by { hide RunOk, Run, IndexOk, StaleOk, ChansOk, SettledExcept; }
    assert IndexOk(m') by { hide RunOk, Run, OrderOk, StaleOk, ChansOk, SettledExcept; }
    assert StaleOk(m') by { hide RunOk, Run, OrderOk, IndexOk, ChansOk, SettledExcept; }
  }

  /** With no current channel and no data anywhere, a ready channel is a new one, built with
      the default configuration from the block at the cursor on. */
  lemma SwitchReady(m: Manager, head: nat, pi: PubInfo, out: Option<NewOut>)
    requires Inv(m) && FreshOut(m, out) && m.current.None?
    requires forall x | x in m.queue :: !m.chans[x].HasTxData()
    ensures var (m', r) := m.GetReadyChannel(head, pi, out);
            r.Ready? ==> && out.Some? && r.id == out.value.id && r.id in m'.chans && m'.chans[r.id].cfg == m.cfg
                         && m.cursor < |m.blocks| && m'.chans[r.id].blocks <= m.blocks[m.cursor..]
  {
    hide ChanInv, ChansOk, RunOk, Run, OrderOk, IndexOk, StaleOk, SettledExcept, NothingBefore, Live,
      Manager.BuildChannel;
    var i := FirstWithTxDataIs(m.chans, m.queue);
    assert i == |m.queue|;
    if m.cursor < |m.blocks| {
      BuildStep(m, head, pi, out);
      var (m', r) := m.BuildChannel(head, pi, out);
      assert m.GetReadyChannel(head, pi, out) == (m', r);
      if r.Ready? {
        assert Built(m, m', out);
        assert r.id in m'.queue by { assert m'.queue == m.queue + [r.id]; }
      }
    }
  }

  // ---- The step ----

  /** The call decides to change the DA type of the channel that is ready. */
  ghost predicate Switches(m0: Manager, r: ReadyResult, newCfg: Config)
    requires r.Ready? ==> r.id in m0.chans
  {
    && r.Ready? && newCfg.useBlobs != m0.cfg.useBlobs
    && m0.chans[r.id].pending == map[] && m0.chans[r.id].confirmed == map[]
  }

  /** What was handed out after a switch has the new type and comes from a new channel, built
      with the new configuration. If the two channels have blocks they start with the same one. */
  ghost predicate SwitchDone(m0: Manager, id: ChId, m': Manager, tx: TxData, from: ChId, newCfg: Config) {
    && tx.asBlob == newCfg.useBlobs && m'.cfg == newCfg
    && from in m'.chans && from !in m0.chans && m'.chans[from].cfg == newCfg
    && id in m0.chans
    && (m0.chans[id].blocks != [] && m'.chans[from].blocks != [] ==>
          m'.chans[from].blocks[0] == m0.chans[id].blocks[0])
  }

  /** The switch drops no block. */
  ghost predicate SwitchKeeps(m0: Manager, r: ReadyResult, newCfg: Config)
    requires m0.WF() && (r.Ready? ==> r.id in m0.chans)
  {
    Switches(m0, r, newCfg) ==> KeepsBlocks(m0, r.id)
  }

  /** TxData panics (None) exactly when it switches the DA type of a channel whose first block
      has been pruned. Otherwise it keeps the run exactly when the switch drops no block, and
      then it keeps the invariant, too. */
  ghost predicate TxDataOutcome(m: Manager, m0: Manager, r0: ReadyResult, newCfg: Config,
                                res: Option<(Manager, TxResult)>)
    requires m.WF() && m0.WF() && (r0.Ready? ==> r0.id in m0.chans)
  {
    var switches := Switches(m0, r0, newCfg);
    match res
    case None => switches && FirstBlockPruned(m0, m0.chans[r0.id])
    case Some((m', r)) =>
      && m'.WF()
      && (switches ==> !FirstBlockPruned(m0, m0.chans[r0.id]))
      && (Run(m') == Run(m) <==> SwitchKeeps(m0, r0, newCfg))
      && (!SwitchKeeps(m0, r0, newCfg) ==> |Run(m')| < |Run(m)|)
      && (SwitchKeeps(m0, r0, newCfg) ==>
            && TxDataDone(m, m', r)
            && (switches && r.Data? ==> SwitchDone(m0, r0.id, m', r.tx, r.from, newCfg)))
  }

  lemma TxDataKeeps(m: Manager, head: nat, newCfg: Config, pi: PubInfo, out1: Option<NewOut>, out2: Option<NewOut>)
    requires Inv(m) && Live(m) && OutsOk(m, out1, out2) && newCfg.Usable()
    ensures var (m0, r0) := m.GetReadyChannel(head, pi, out1);
            TxDataOutcome(m, m0, r0, newCfg, m.TxData(head, newCfg, pi, out1, out2))
  {
    hide ChanInv, ChansOk, RunOk, Run, OrderOk, IndexOk, StaleOk, SettledExcept, Live, NothingBefore, InTime, Builds,
      KeepsBlocks, Manager.GetReadyChannel, Manager.Invalidate, Manager.NextTxData, FirstBlockPruned;
    hide Manager.TxData, Manager.SwitchType, TxDataDone, SwitchDone;
    GetReadyStep(m, head, pi, out1);
    TxDataIs(m, head, newCfg, pi, out1, out2);
    var (m0, r0) := m.GetReadyChannel(head, pi, out1);
    if r0.Ready? {
      var i :| ReadyAt(m0, r0.id, i);
      if Switches(m0, r0, newCfg) {
        SwitchOutcome(m0, r0, i, head, newCfg, pi, out2);
        SameRunDone(m, m0);
      } else {
        NextTxEmits(m0, r0.id, i);
        SameRunDone(m, m0);
        SentWF(m0, r0.id);
      }
    } else {
      NothingDone(m, m0);
    }
  }

  lemma NothingDone(m: Manager, m': Manager)
    requires m.WF() && Inv(m') && Run(m') == Run(m) && Live(m')
    ensures TxDataDone(m, m', TxError) && (AllSent(m') ==> TxDataDone(m, m', NoData))
  {
    hide Run, Core, SettledExcept, Live, EmittedAt;
  }

  lemma SameRunDone(m: Manager, m0: Manager)
    requires m.WF() && m0.WF() && Run(m0) == Run(m)
    ensures forall m', r :: TxDataDone(m0, m', r) ==> TxDataDone(m, m', r)
    ensures forall m', r :: TxDataDone(m, m', r) ==> m'.WF() && Run(m') == Run(m)
  {
    hide Run, SettledExcept, Live, EmittedAt, ChansOk, OrderOk, RunOk, IndexOk, StaleOk;
  }

  lemma SentWF(m: Manager, id: ChId)
    requires m.WF() && id in m.chans
    ensures m.NextTxData(id).0.WF()
  {
  }

  lemma NoneSubmittedIs(c: Chan)
    ensures c.NoneSubmitted() <==> c.pending == map[] && c.confirmed == map[]
  {
  }

  lemma TxDataIs(m: Manager, head: nat, newCfg: Config, pi: PubInfo, out1: Option<NewOut>, out2: Option<NewOut>)
    requires m.WF() && newCfg.Usable()
    ensures var (m0, r0) := m.GetReadyChannel(head, pi, out1); var res := m.TxData(head, newCfg, pi, out1, out2);
            match r0
            case NotReady => res == Some((m0, NoData))
            case ReadyError => res == Some((m0, TxError))
            case Ready(id) =>
              res == if Switches(m0, r0, newCfg) then m0.SwitchType(id, head, newCfg, pi, out2)
                     else Some(m0.NextTxData(id))
  {
    hide Manager.GetReadyChannel, Manager.Invalidate, Manager.NextTxData;
    var (m0, r0) := m.GetReadyChannel(head, pi, out1);
    if r0.Ready? {
      NoneSubmittedIs(m0.chans[r0.id]);
    }
  }

  lemma SwitchOutcome(m: Manager, r: ReadyResult, i: nat, head: nat, newCfg: Config, pi: PubInfo, out: Option<NewOut>)
    requires Inv(m) && Live(m) && newCfg.Usable() && FreshOut(m, out)
    requires r.Ready? && ReadyAt(m, r.id, i) && Switches(m, r, newCfg)
    ensures TxDataOutcome(m, m, r, newCfg, m.SwitchType(r.id, head, newCfg, pi, out))
  {
    hide ChanInv, ChansOk, RunOk, Run, OrderOk, IndexOk, StaleOk, SettledExcept, Live, NothingBefore, InTime, Builds,
      KeepsBlocks, Manager.GetReadyChannel, Manager.Invalidate, Manager.NextTxData, FirstBlockPruned;
    InvalidatePanics(m, i);
    if m.Invalidate(r.id).Some? {
      InvalidateStep(m, r.id);
      var m1 := m.Invalidate(r.id).value.(cfg := newCfg);
      if KeepsBlocks(m, r.id) {
        SwitchInvalidate(m, r.id, i, newCfg);
        SwitchSend(m1, head, pi, out);
      } else {
        SwitchDrops(m, r.id, head, newCfg, pi, out);
      }
    }
  }

  /** Blocks that are dropped from the run do not come back in the same call. */
  lemma SwitchDrops(m: Manager, id: ChId, head: nat, newCfg: Config, pi: PubInfo, out: Option<NewOut>)
    requires Inv(m) && id in m.queue && newCfg.Usable() && FreshOut(m, out)
    requires m.Invalidate(id).Some? && !KeepsBlocks(m, id)
    ensures var res := m.SwitchType(id, head, newCfg, pi, out);
            res.Some? && res.value.0.WF() && |Run(res.value.0)| < |Run(m)|
  {
    hide ChanInv, ChansOk, RunOk, OrderOk, IndexOk, StaleOk, SettledExcept, Flat, KeepsBlocks,
      Manager.GetReadyChannel, Manager.Invalidate, Manager.NextTxData;
    InvalidateStep(m, id);
    var m1 := m.Invalidate(id).value;
    var m1' := m1.(cfg := newCfg);
    assert m1'.WF() && Run(m1') == Run(m1);
    hide Run;
    ReadySameRun(m1', head, pi, out);
    var (m2, r2) := m1'.GetReadyChannel(head, pi, out);
    if r2.Ready? {
      NextSameRun(m2, r2.id);
    }
  }

  lemma SwitchSend(m: Manager, head: nat, pi: PubInfo, out: Option<NewOut>)
    requires Inv(m) && Live(m) && FreshOut(m, out) && m.current.None?
    requires forall x | x in m.queue :: !m.chans[x].HasTxData()
    ensures var (m2, r2) := m.GetReadyChannel(head, pi, out);
            && Inv(m2) && Run(m2) == Run(m) && Live(m2) && (r2 == NotReady ==> AllSent(m2))
            && (r2.Ready? ==>
                  var (m', r) := m2.NextTxData(r2.id);
                  && TxDataDone(m, m', r) && r.Data? && r.tx.asBlob == m.cfg.useBlobs && m'.cfg == m.cfg
                  && r.from in m'.chans && r.from !in m.chans && m'.chans[r.from].cfg == m.cfg
                  && m.cursor < |m.blocks| && m'.chans[r.from].blocks <= m.blocks[m.cursor..])
  {
    hide ChanInv, ChansOk, RunOk, Run, OrderOk, IndexOk, StaleOk, SettledExcept, Live, NothingBefore, InTime, Builds,
      Manager.GetReadyChannel, Manager.NextTxData;
    GetReadyStep(m, head, pi, out);
    SwitchReady(m, head, pi, out);
    var (m2, r2) := m.GetReadyChannel(head, pi, out);
    if r2.Ready? {
      var i :| ReadyAt(m2, r2.id, i);
      NextTxEmits(m2, r2.id, i);
    }
  }
}
