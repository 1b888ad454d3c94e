/** Publishing in time: a channel that a call leaves open is before all of its deadlines. */
module Deadlines {
  import opened Frames
  import opened Options
  import opened ChannelSpec
  import opened ChannelProofs
  import opened ManagerSpec
  import opened ManagerInv
  import opened ManagerSteps
  import opened PublishSteps
  import opened Publishing
  import opened TxDataStep

  /** The current channel, if open, is before the deadlines it was ever offered, unless one of them
      was 0, for which a sum must be 0 or not fit into 64 bits. */
  ghost predicate BeforeDeadlines(m: Manager, head: nat)
    requires m.WF()
  {
    m.current.Some? && !m.chans[m.current.value].IsFull() ==>
      var c := m.chans[m.current.value];
      NoWrap(c) || 0 !in c.clock.deadlines ==> (forall d | d in c.clock.deadlines :: head < d) && InGoodTime(c, head)
  }

  lemma InTimeMeans(m: Manager, head: nat)
    requires Inv(m) && InTime(m, head)
    ensures BeforeDeadlines(m, head)
  {
    hide OrderOk, RunOk, Run, IndexOk, StaleOk, SettledExcept;
    if m.current.Some? {
      var c := m.chans[m.current.value];
      assert ChanInv(c);
      hide ChanInv, ChansOk;
      if NoWrap(c) {
        NoZero(c);
      }
      if !c.IsFull() && 0 !in c.clock.deadlines {
        OpenMeansBeforeEveryDeadline(c, head);
      }
    }
  }

  lemma NoZero(c: Chan)
    requires ChanInv(c) && NoWrap(c)
    ensures 0 !in c.clock.deadlines
  {
    hide DeadlinesOk, NoWrap;
    NoZeroDeadline(c);
  }

  /** Sending frames changes no deadline. */
  lemma SentInTime(m: Manager, id: ChId, head: nat)
    requires m.WF() && id in m.chans && InTime(m, head)
    ensures m.NextTxData(id).0.WF() && InTime(m.NextTxData(id).0, head)
  {
  }

  lemma NoCurrentInTime(m: Manager, head: nat)
    requires m.WF() && m.current.None?
    ensures InTime(m, head)
  {
  }

  /** Without data anywhere, looking for a ready channel builds one, unless no block waits. */
  lemma ReadyInTime(m: Manager, head: nat, pi: PubInfo, out: Option<NewOut>)
    requires Inv(m) && FreshOut(m, out) && m.current.None? && !pi.ignoreMaxChannelDuration
    requires forall x | x in m.queue :: !m.chans[x].HasTxData()
    ensures var (m', r) := m.GetReadyChannel(head, pi, out); r != ReadyError ==> InTime(m', head)
  {
    hide ChanInv, ChansOk, RunOk, Run, OrderOk, IndexOk, StaleOk, SettledExcept, Live, InTime, Manager.BuildChannel,
      ReadyAt;
    GetReadyStep(m, head, pi, out);
    ReadyIs(m, head, pi, out);
    var i := FirstWithTxDataIs(m.chans, m.queue);
    hide Manager.GetReadyChannel, FirstWithTxData;
    assert m.ForceClose(pi) == (m, true);
    if m.cursor == |m.blocks| {
      NoCurrentInTime(m, head);
    } else {
      assert Builds(m, pi);
    }
  }

  /** The call registered the L1 head and drops no block with a switch. */
  ghost predicate Registers(m: Manager, head: nat, newCfg: Config, pi: PubInfo, out1: Option<NewOut>)
    requires m.WF()
  {
    && Builds(m, pi) && !pi.ignoreMaxChannelDuration
    && var (m0, r0) := m.GetReadyChannel(head, pi, out1);
       r0 != ReadyError && SwitchKeeps(m0, r0, newCfg)
  }

  lemma SwitchedInTime(m: Manager, id: ChId, i: nat, head: nat, newCfg: Config, pi: PubInfo, out: Option<NewOut>)
    requires Inv(m) && Live(m) && ReadyAt(m, id, i) && newCfg.Usable() && FreshOut(m, out)
    requires KeepsBlocks(m, id) && !pi.ignoreMaxChannelDuration
    ensures var res := m.SwitchType(id, head, newCfg, pi, out);
            res.Some? && res.value.1 != TxError ==> res.value.0.WF() && InTime(res.value.0, head)
  {
    hide ChanInv, ChansOk, RunOk, Run, OrderOk, IndexOk, StaleOk, SettledExcept, Live, InTime, KeepsBlocks,
      NothingBefore,
      Manager.GetReadyChannel, Manager.Invalidate, Manager.NextTxData;
    if m.Invalidate(id).Some? {
      SwitchInvalidate(m, id, i, newCfg);
      var m1 := m.Invalidate(id).value.(cfg := newCfg);
      ReadyInTime(m1, head, pi, out);
      var (m2, r2) := m1.GetReadyChannel(head, pi, out);
      if r2.Ready? {
        SentInTime(m2, r2.id, head);
      }
    }
  }

  /** A call that builds and registers the L1 head, and ends without an error, leaves the current
      channel full or before every deadline of its opening, its blocks and its confirmations. */
  lemma PublishedInTime(m: Manager, head: nat, newCfg: Config, pi: PubInfo, out1: Option<NewOut>, out2: Option<NewOut>)
    requires Inv(m) && Live(m) && OutsOk(m, out1, out2) && newCfg.Usable()
    requires Registers(m, head, newCfg, pi, out1)
    ensures var res := m.TxData(head, newCfg, pi, out1, out2);
            res.Some? && res.value.1 != TxError ==> res.value.0.WF() && BeforeDeadlines(res.value.0, head)
  {
    hide ChanInv, ChansOk, RunOk, Run, OrderOk, IndexOk, StaleOk, SettledExcept, Live, InTime, KeepsBlocks,
      NothingBefore,
      Builds, Manager.SwitchType, BeforeDeadlines, Manager.TxData, Manager.GetReadyChannel, Manager.NextTxData,
      FirstBlockPruned,
      SwitchDone, EmittedAt;
    GetReadyStep(m, head, pi, out1);
    TxDataIs(m, head, newCfg, pi, out1, out2);
    TxDataKeeps(m, head, newCfg, pi, out1, out2);
    var (m0, r0) := m.GetReadyChannel(head, pi, out1);
    if r0.Ready? {
      var i :| ReadyAt(m0, r0.id, i);
      if Switches(m0, r0, newCfg) {
        SwitchedInTime(m0, r0.id, i, head, newCfg, pi, out2);
      } else {
        SentInTime(m0, r0.id, head);
      }
    }
    var res := m.TxData(head, newCfg, pi, out1, out2);
    if res.Some? && res.value.1 != TxError {
      InTimeMeans(res.value.0, head);
    }
  }
}
