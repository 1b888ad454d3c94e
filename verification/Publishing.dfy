/** Asking the channel manager for transaction data, as one step. */
module Publishing {
  import opened Chain
  import opened Frames
  import opened Options
  import opened ChannelSpec
  import opened ChannelProofs
  import opened ManagerSpec
  import opened ManagerInv
  import opened PublishSteps

  // ---- The first channel with data ----

  lemma {:induction false} FirstWithTxDataIs(chans: map<ChId, Chan>, queue: seq<ChId>) returns (i: nat)
    requires forall id | id in queue :: id in chans
    ensures i <= |queue|
    ensures forall j | 0 <= j < i :: !chans[queue[j]].HasTxData()
    ensures i < |queue| ==> chans[queue[i]].HasTxData()
    ensures FirstWithTxData(chans, queue) == if i < |queue| then Some(queue[i]) else None
  {
    if queue == [] || chans[queue[0]].HasTxData() {
      i := 0;
    } else {
      var k := FirstWithTxDataIs(chans, queue[1..]);
      i := k + 1;
      forall j | 0 <= j < i
        ensures !chans[queue[j]].HasTxData()
      {
        assert j > 0 ==> queue[1..][j - 1] == queue[j];
      }
    }
  }

  /** A full channel has data exactly when it has a frame to send, and every channel but the
      last one is full. */
  lemma NoDataNothingBefore(m: Manager, i: nat)
    requires Inv(m) && i <= |m.queue|
    requires forall j | 0 <= j < i :: !m.chans[m.queue[j]].HasTxData()
    requires i < |m.queue| || m.current.None?
    ensures NothingBefore(m, i)
  {
    forall j | 0 <= j < i
      ensures !m.chans[m.queue[j]].HasPendingFrame()
    {
      assert m.current == Some(m.queue[j]) ==> j == |m.queue| - 1;
      assert m.chans[m.queue[j]].IsFull();
    }
  }

  // ---- Building ----

  /** What building does for the channel it works on. */
  ghost predicate Built(m: Manager, m': Manager, out: Option<NewOut>)
    requires m.WF() && m'.WF() && m.cursor <= |m.blocks|
  {
    && m'.current.Some?
    && var id := m'.current.value;
       // a new channel has the default configuration and starts at the cursor
       && (m.current.None? ==>
             && out.Some? && id == out.value.id && m'.chans[id].cfg == m.cfg
             && m'.chans[id].blocks <= m.blocks[m.cursor..]
             && m'.queue == m.queue + [id])
       && (Live(m) ==> Live(m'))
  }

  /** An open channel that registered the head is before all its deadlines. */
  ghost predicate InTime(m: Manager, head: nat)
    requires m.WF()
  {
    m.current.Some? && !m.chans[m.current.value].IsFull()
    ==> !m.chans[m.current.value].CheckTimeout(head).IsFull()
  }

  lemma EnsureProcess(m: Manager, out: Option<NewOut>)
    requires Inv(m) && FreshOut(m, out) && m.EnsureChannelWithSpace(out).Some?
    ensures var m1 := m.EnsureChannelWithSpace(out).value; var (m2, ok) := m1.ProcessBlocks();
            && Building(m2) && (!ok ==> Inv(m2)) && Run(m2) == Run(m)
            && m2.queue == m1.queue && m2.current == m1.current && m2.cfg == m.cfg
            && m2.chans.Keys <= m.chans.Keys + (if out.Some? then {out.value.id} else {})
            && Built(m, m2, out)
            && (forall j | 0 <= j < |m2.queue| - 1 ::
                  m2.current != Some(m2.queue[j]) && m2.chans[m2.queue[j]] == m1.chans[m2.queue[j]])
            && (ok ==> AllTaken(m2))
  {
    hide ChanInv, ChansOk, RunOk, Run, OrderOk, IndexOk, StaleOk, SettledExcept, Live, Built, SameTxs,
      AddBlocks, NewChan, Manager.EnsureChannelWithSpace, Manager.ProcessBlocks;
    EnsureStep(m, out);
    EnsureKeepsCfg(m, out);
    var m1 := m.EnsureChannelWithSpace(out).value;
    ProcessStep(m1);
    ProcessedIs(m1);
    var m2 := m1.ProcessBlocks().0;
    var (c, n, _) := AddBlocks(m1.chans[m1.current.value], m1.blocks[m1.cursor..]);
    OthersSame(m1, m2, c);
    BuiltBy(m, m1, m2, out, c, n);
  }

  /** A current channel that is not full took every block. */
  ghost predicate AllTaken(m: Manager)
    requires m.WF()
  {
    m.current.Some? && !m.chans[m.current.value].IsFull() ==> m.cursor == |m.blocks|
  }

  lemma EnsureKeepsCfg(m: Manager, out: Option<NewOut>)
    requires m.WF() && FreshOut(m, out) && m.EnsureChannelWithSpace(out).Some?
    ensures m.EnsureChannelWithSpace(out).value.cfg == m.cfg
  {
  }

  /** What moving blocks into the current channel changes. */
  lemma ProcessedIs(m: Manager)
    requires m.WF() && m.current.Some?
    ensures var (c, n, _) := AddBlocks(m.chans[m.current.value], m.blocks[m.cursor..]);
            var m' := m.ProcessBlocks().0;
            && c.id == m.current.value && c.cfg == m.chans[c.id].cfg && n <= |m.blocks| - m.cursor
            && m' == m.With(c).(cursor := m.cursor + n, pendingBytes := m'.pendingBytes)
  {
    AddBlocksShape(m.chans[m.current.value], m.blocks[m.cursor..]);
    hide AddBlocks;
  }

  lemma OthersSame(m: Manager, m': Manager, c: Chan)
    requires m.WF() && OrderOk(m) && m.current == Some(c.id)
    requires m'.queue == m.queue && m'.current == m.current && m'.chans == m.chans[c.id := c]
    ensures forall j | 0 <= j < |m'.queue| - 1 ::
              m'.current != Some(m'.queue[j]) && m'.chans[m'.queue[j]] == m.chans[m'.queue[j]]
  {
    hide Manager.WF;
  }

  /** `m1` is `m` with space in the current channel, `m2` is `m1` after the current channel has
      become `c`, which took `n` blocks. */
  ghost predicate BuildSteps(m: Manager, m1: Manager, m2: Manager, out: Option<NewOut>, c: Chan, n: nat) {
    && m.WF() && m1.WF() && m2.WF() && OrderOk(m) && OrderOk(m1) && FreshOut(m, out)
    && m1.current == Some(c.id) && !m1.chans[c.id].IsFull()
    && m.cursor == m1.cursor && m.blocks == m1.blocks && n <= |m.blocks| - m.cursor
    && (m1 == m || (m.queue == m1.queue[..|m1.queue| - 1]
                    && out.Some? && c.id == out.value.id
                    && m1.chans == m.chans[c.id := NewChan(c.id, out.value.comp, m.cfg, m.l1OriginLast)]))
    && m2.queue == m1.queue && m2.current == m1.current && m2.blocks == m1.blocks
    && m2.chans == m1.chans[c.id := c]
    && c.cfg == m1.chans[c.id].cfg
    && c.blocks == m1.chans[c.id].blocks + m1.blocks[m1.cursor..m1.cursor + n]
  }

  lemma BuiltBy(m: Manager, m1: Manager, m2: Manager, out: Option<NewOut>, c: Chan, n: nat)
    requires BuildSteps(m, m1, m2, out, c, n)
    ensures Built(m, m2, out)
  {
    if m1 != m {
      NewChanEmpty(c.id, out.value.comp, m.cfg, m.l1OriginLast);
      LastAppended(m.queue, m1.queue, c.id);
      FirstOfRest(m.blocks, m.cursor, n, c.blocks);
    }
    hide Live, NewChan, OrderOk;
    if Live(m) {
      BuiltLive(m, m1, m2, out, c, n);
    }
  }

  lemma LastAppended(q: seq<ChId>, q': seq<ChId>, id: ChId)
    requires q' != [] && q'[|q'| - 1] == id && q == q'[..|q'| - 1]
    ensures q' == q + [id]
  {
  }

  lemma FirstOfRest(blocks: seq<Block>, i: nat, n: nat, bs: seq<Block>)
    requires i + n <= |blocks| && bs == [] + blocks[i..i + n]
    ensures bs <= blocks[i..]
  {
    assert blocks[i..i + n] == blocks[i..][..n];
  }

  lemma NewChanEmpty(id: ChId, comp: Compressor, cfg: Config, l1: nat)
    ensures var c := NewChan(id, comp, cfg, l1); c.id == id && c.cfg == cfg && c.blocks == []
  {
  }

  lemma BuiltLive(m: Manager, m1: Manager, m2: Manager, out: Option<NewOut>, c: Chan, n: nat)
    requires BuildSteps(m, m1, m2, out, c, n) && Live(m)
    ensures Live(m2)
  {
    hide NewChan, EndsIn;
    if m1 == m {
      CurrentQueued(m);
    } else {
      NewChanEmpty(c.id, out.value.comp, m.cfg, m.l1OriginLast);
      NothingEndsIn(m.blocks);
    }
    EndsInGrows(m1.chans[c.id].blocks, m.blocks, m.cursor, n);
    forall x | x in m2.queue
      ensures EndsIn(m2.chans[x].blocks, m2.blocks)
    {
      if x != c.id {
        OthersQueued(m, m1, c.id, x);
      }
    }
  }

  lemma OthersQueued(m: Manager, m1: Manager, id: ChId, x: ChId)
    requires m1.WF() && OrderOk(m1) && m1.current == Some(id) && x in m1.queue && x != id
    requires m1 == m || m.queue == m1.queue[..|m1.queue| - 1]
    ensures x in m.queue
  {
  }

  lemma CurrentQueued(m: Manager)
    requires m.WF() && OrderOk(m) && m.current.Some?
    ensures m.current.value in m.queue
  {
  }

  lemma EndsInGrows(bs: seq<Block>, blocks: seq<Block>, i: nat, n: nat)
    requires i + n <= |blocks| && EndsIn(bs, blocks)
    ensures EndsIn(bs + blocks[i..i + n], blocks)
  {
    var all := bs + blocks[i..i + n];
    assert n > 0 ==> all[|all| - 1] == blocks[i + n - 1];
    assert n == 0 ==> all == bs;
  }

  /** Every block in state is in a channel, and no channel has anything to send. */
  ghost predicate AllSent(m: Manager)
    requires m.WF()
  {
    m.cursor == |m.blocks| && forall id | id in m.queue :: NothingToSend(m.chans[id])
  }

  lemma IdleAllSent(m: Manager)
    requires m.WF() && ChansOk(m) && m.cursor == |m.blocks|
    requires forall id | id in m.queue :: !m.chans[id].HasTxData()
    ensures AllSent(m)
  {
    hide ChanInv, ChansOk, Chan.HasTxData, NothingToSend;
    forall id | id in m.queue ensures NothingToSend(m.chans[id]) {
      InvOf(m, id);
      NoDataExactly(m.chans[id]);
    }
  }

  /** What is known when building is over. */
  ghost predicate BuildDone(m: Manager, m': Manager, r: ReadyResult, head: nat, pi: PubInfo, out: Option<NewOut>)
    requires m.WF()
  {
    && Inv(m') && Run(m') == Run(m) && m'.cfg == m.cfg
    && m'.chans.Keys <= m.chans.Keys + (if out.Some? then {out.value.id} else {})
    && (m' == m || Built(m, m', out))
    && (r.Ready? ==>
          && m'.current == Some(r.id) && m'.queue != [] && m'.chans[r.id].HasTxData()
          && NothingBefore(m', |m'.queue| - 1))
    && (r == NotReady ==> AllSent(m'))
    && (r != ReadyError && !pi.ignoreMaxChannelDuration ==> InTime(m', head))
  }

  lemma BuildStep(m: Manager, head: nat, pi: PubInfo, out: Option<NewOut>)
    requires Inv(m) && FreshOut(m, out)
    requires forall id | id in m.queue :: !m.chans[id].HasTxData()
    ensures var (m', r) := m.BuildChannel(head, pi, out); BuildDone(m, m', r, head, pi, out)
  {
    hide ChanInv, ChansOk, RunOk, Run, OrderOk, IndexOk, StaleOk, SettledExcept, Built, NothingBefore,
      Chan.CheckTimeout, Chan.HasTxData, Manager.EnsureChannelWithSpace, Manager.ProcessBlocks,
      Manager.RegisterAndOutput, Manager.BuildChannel;
    BuildCases(m, head, pi, out);
    var (m', r) := m.BuildChannel(head, pi, out);
    if m.EnsureChannelWithSpace(out).Some? {
      var m1 := m.EnsureChannelWithSpace(out).value;
      EnsureProcess(m, out);
      var (m2, ok) := m1.ProcessBlocks();
      if ok {
        FrontIsIdle(m, m1, m2, out);
        RegisteredDone(m, m2, head, pi, out, m', r);
      }
    }
  }

  lemma RegisteredDone(m: Manager, m2: Manager, head: nat, pi: PubInfo, out: Option<NewOut>,
                       m': Manager, r: ReadyResult)
    requires Inv(m) && Building(m2) && Run(m2) == Run(m) && m2.cfg == m.cfg
    requires Built(m, m2, out) && FrontIdle(m2) && AllTaken(m2)
    requires m2.chans.Keys <= m.chans.Keys + (if out.Some? then {out.value.id} else {})
    requires (m', r != ReadyError) == m2.RegisterAndOutput(head, pi)
    requires r.Ready? ==> m'.current == Some(r.id) && r.id in m'.chans && m'.chans[r.id].HasTxData()
    requires r == NotReady ==> m'.current.Some? && m'.WF() && !m'.chans[m'.current.value].HasTxData()
    ensures BuildDone(m, m', r, head, pi, out)
  {
    hide ChanInv, ChansOk, RunOk, Run, OrderOk, IndexOk, StaleOk, SettledExcept, Built, NothingBefore, FrontIdle,
      Chan.CheckTimeout, Chan.HasTxData, Chan.IsFull, AllSent, AllTaken, Manager.RegisterAndOutput;
    RegisterStep(m2, head, pi);
    BuiltStays(m, m2, m', out);
    FrontIdleStays(m2, m');
    if r == NotReady {
      RestAllSent(m2, m');
    }
  }

  /** If the current channel has nothing to send either, it is not full, so it took every block. */
  lemma RestAllSent(m: Manager, m': Manager)
    requires m.WF() && OrderOk(m) && m.current.Some? && FrontIdle(m) && AllTaken(m)
    requires Inv(m') && m' == m.(chans := m'.chans) && m'.chans.Keys == m.chans.Keys
    requires forall id | id in m.chans :: Some(id) != m.current ==> m'.chans[id] == m.chans[id]
    requires var id := m.current.value;
             && !m'.chans[id].HasTxData() && (m.chans[id].IsFull() ==> m'.chans[id].IsFull())
             && (m'.chans[id].IsFull() ==> m'.chans[id].HasTxData())
    ensures AllSent(m')
  {
    hide ChanInv, ChansOk, RunOk, Run, IndexOk, StaleOk, SettledExcept, Chan.HasTxData, Chan.IsFull, NothingToSend;
    forall id | id in m'.queue ensures !m'.chans[id].HasTxData() {
      var j :| 0 <= j < |m'.queue| && m'.queue[j] == id;
      if j < |m'.queue| - 1 {
        assert m.current != Some(m.queue[j]);
      }
    }
    IdleAllSent(m');
  }

  /** The channels before the current one have nothing to send. */
  ghost predicate FrontIdle(m: Manager)
    requires m.WF()
  {
    && m.queue != []
    && forall j | 0 <= j < |m.queue| - 1 :: m.current != Some(m.queue[j]) && !m.chans[m.queue[j]].HasTxData()
  }

  lemma FrontIdleStays(m: Manager, m': Manager)
    requires m.WF() && Inv(m') && FrontIdle(m) && m'.queue == m.queue && m'.chans.Keys == m.chans.Keys
    requires forall id | id in m.chans :: Some(id) != m.current ==> m'.chans[id] == m.chans[id]
    ensures m'.queue != [] && NothingBefore(m', |m'.queue| - 1)
  {
    hide ChanInv, ChansOk, RunOk, Run, OrderOk, IndexOk, StaleOk, SettledExcept, NothingBefore, Chan.HasTxData;
    NoDataNothingBefore(m', |m'.queue| - 1);
  }

  /** The ways building can end. */
  lemma BuildCases(m: Manager, head: nat, pi: PubInfo, out: Option<NewOut>)
    requires m.WF()
    ensures var (m', r) := m.BuildChannel(head, pi, out);
            match m.EnsureChannelWithSpace(out)
            case None => m' == m && r == ReadyError
            case Some(m1) =>
              var (m2, ok2) := m1.ProcessBlocks();
              if !ok2 then m' == m2 && r == ReadyError
              else
                && (m', r != ReadyError) == m2.RegisterAndOutput(head, pi)
                && (r.Ready? ==> m'.current == Some(r.id) && m'.chans[r.id].HasTxData())
                && (r == NotReady ==> m'.WF() && m'.current.Some? && !m'.chans[m'.current.value].HasTxData())
  {
    hide Manager.WF, Manager.EnsureChannelWithSpace, Manager.ProcessBlocks, Manager.RegisterAndOutput;
  }

  lemma BuiltStays(m: Manager, m2: Manager, m3: Manager, out: Option<NewOut>)
    requires m.WF() && m2.WF() && m3.WF() && OrderOk(m) && OrderOk(m2) && Built(m, m2, out)
    requires m3.queue == m2.queue && m3.current == m2.current && m3.blocks == m2.blocks
    requires m3.chans.Keys == m2.chans.Keys
    requires forall id | id in m2.chans ::
               m3.chans[id].blocks == m2.chans[id].blocks && m3.chans[id].cfg == m2.chans[id].cfg
    ensures Built(m, m3, out)
  {
  }

  /** The channels before the current one are the ones that had nothing to send. */
  lemma FrontIsIdle(m: Manager, m1: Manager, m2: Manager, out: Option<NewOut>)
    requires Inv(m) && FreshOut(m, out) && m.EnsureChannelWithSpace(out) == Some(m1)
    requires forall id | id in m.queue :: !m.chans[id].HasTxData()
    requires m2.WF() && m2.queue == m1.queue && m2.current == m1.current
    requires forall j | 0 <= j < |m2.queue| - 1 ::
               m2.current != Some(m2.queue[j]) && m2.chans[m2.queue[j]] == m1.chans[m2.queue[j]]
    ensures FrontIdle(m2)
  {
    hide ChanInv, ChansOk, RunOk, Run, IndexOk, StaleOk, SettledExcept, Chan.HasTxData,
      Manager.EnsureChannelWithSpace;
    EnsureStep(m, out);
    forall j | 0 <= j < |m2.queue| - 1
      ensures !m2.chans[m2.queue[j]].HasTxData()
    {
      assert m2.queue[j] in m.queue;
    }
  }
}
