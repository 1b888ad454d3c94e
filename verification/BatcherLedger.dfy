/** Runs of the batcher with a ledger of what was loaded: nothing is lost over any run. */
module BatcherLedger {
  import opened Chain
  import opened Frames
  import opened Options
  import opened ChannelSpec
  import opened ChannelProofs
  import opened ManagerSpec
  import opened ManagerInv
  import opened ManagerSteps
  import opened TxDataStep
  import opened SyncSpec
  import opened Clearing
  import opened BatcherRuns
  import opened PendingBytes

  /** The steps of the batcher. Each of them runs under one mutex. */
  datatype Event =
    | Load(block: Block)
    | Publish(head: nat, newCfg: Config, pi: PubInfo, out1: Option<NewOut>, out2: Option<NewOut>)
    | Fail(txId: TxId)
    | Confirm(txId: TxId, inclusion: BlockNum)
    | Sync(status: SyncStatus)
    | ClearState(l1Origin: nat)

  /** The batcher with its ledger: the blocks loaded since the state was last cleared, how many
      of them were given up in syncs, the safe heads it was told about, and whether a prune has
      straddled a positive cursor. */
  datatype Ledger = Ledger(
    batcher: Batcher,
    loaded: seq<Block>,
    released: nat,
    safeHeads: seq<Block>,
    straddled: bool)

  /** What the environment owes a step. */
  ghost predicate EnvOk(l: Ledger, e: Event) {
    match e
    case Load(b) => b.WellFormed()
    case Publish(_, newCfg, _, out1, out2) => newCfg.Usable() && OutsOk(l.batcher.mgr, out1, out2)
    case _ => true
  }

  /** The step drops no block that is not safe: if it invalidates a channel, that has blocks or
      no channel that is dropped with it does. */
  ghost predicate KeepsRun(m: Manager, e: Event)
    requires m.WF()
  {
    match e
    case Confirm(k, inclusion) => ConfirmKeepsBlocks(m, k, inclusion)
    case Publish(head, newCfg, pi, out1, _) =>
      var (m0, r0) := m.GetReadyChannel(head, pi, out1);
      SwitchKeeps(m0, r0, newCfg)
    case _ => true
  }

  /** How many blocks the run has become shorter by. */
  ghost function GivenUp(m: Manager, m': Manager): nat
    requires m.WF()
  {
    if m'.WF() && |Run(m')| <= |Run(m)| then |Run(m)| - |Run(m')| else 0
  }

  /** More blocks than the positive cursor are pruned. */
  ghost predicate Straddles(b: Batcher, s: SyncStatus)
    requires b.mgr.WF()
  {
    ComputeSyncActions(s, b.prevCurrentL1, b.mgr.blocks, QueuedChans(b.mgr)).0.blocksToPrune > b.mgr.cursor > 0
  }

  /** One step; None is a panic. */
  ghost function Step(l: Ledger, e: Event): Option<Ledger>
    requires l.batcher.mgr.WF() && EnvOk(l, e)
  {
    var m := l.batcher.mgr;
    match e
    case Load(b) =>
      var (m', ok) := m.AddL2Block(b);
      Some(l.(batcher := l.batcher.(mgr := m'), loaded := if ok then l.loaded + [b] else l.loaded))
    case Publish(head, newCfg, pi, out1, out2) =>
      (match m.TxData(head, newCfg, pi, out1, out2)
       case None => None
       case Some((m', _)) => Some(l.(batcher := l.batcher.(mgr := m'))))
    case Fail(k) =>
      (match m.TxFailed(k)
       case None => None
       case Some(m') => Some(l.(batcher := l.batcher.(mgr := m'))))
    case Confirm(k, inclusion) =>
      (match m.TxConfirmed(k, inclusion)
       case None => None
       case Some(m') => Some(l.(batcher := l.batcher.(mgr := m'))))
    case Sync(s) =>
      (match l.batcher.SyncAndPrune(s)
       case None => None
       case Some((b', _)) =>
         Some(Ledger(b',
                     if SyncClears(l.batcher, s) then [] else l.loaded,
                     if SyncClears(l.batcher, s) then 0 else l.released + GivenUp(m, b'.mgr),
                     if s.localSafe.Some? then l.safeHeads + [s.localSafe.value] else l.safeHeads,
                     l.straddled || Straddles(l.batcher, s))))
    case ClearState(l1Origin) =>
      Some(l.(batcher := l.batcher.(mgr := m.Clear(l1Origin)), loaded := [], released := 0))
  }

  /** `b` was released: some safe head that was reported is `b` or has it as an ancestor. */
  ghost predicate IsSafe(b: Block, safeHeads: seq<Block>) {
    exists h :: h in safeHeads && AncestorOrSelf(b, h)
  }

  /** The blocks loaded are the released ones, which are all safe, followed by the run. */
  ghost predicate Balanced(loaded: seq<Block>, released: nat, run: seq<Block>, safeHeads: seq<Block>) {
    && released <= |loaded| && run == loaded[released..]
    && forall i | 0 <= i < released :: IsSafe(loaded[i], safeHeads)
  }

  ghost predicate LedgerInv(l: Ledger) {
    var m := l.batcher.mgr;
    && Inv(m) && Live(m)
    && Balanced(l.loaded, l.released, Run(m), l.safeHeads)
    && (!l.straddled ==> Drift(m) == 0)
  }

  lemma BalancedMore(loaded: seq<Block>, released: nat, run: seq<Block>, safeHeads: seq<Block>, b: Block)
    requires Balanced(loaded, released, run, safeHeads)
    ensures Balanced(loaded + [b], released, run + [b], safeHeads)
  {
    hide IsSafe;
  }

  lemma BalancedLess(loaded: seq<Block>, released: nat, run: seq<Block>, safeHeads: seq<Block>, d: nat, safe: Block)
    requires Balanced(loaded, released, run, safeHeads) && d <= |run|
    requires forall i | 0 <= i < d :: AncestorOrSelf(run[i], safe)
    ensures Balanced(loaded, released + d, run[d..], safeHeads + [safe])
  {
    hide AncestorOrSelf;
    forall i | 0 <= i < released + d
      ensures IsSafe(loaded[i], safeHeads + [safe])
    {
      if i < released {
        StillSafe(loaded[i], safeHeads, [safe]);
      } else {
        assert loaded[i] == run[i - released];
        assert safe in safeHeads + [safe];
      }
    }
  }

  lemma StillSafe(b: Block, safeHeads: seq<Block>, more: seq<Block>)
    requires IsSafe(b, safeHeads)
    ensures IsSafe(b, safeHeads + more)
  {
    hide AncestorOrSelf;
    var h :| h in safeHeads && AncestorOrSelf(b, h);
    assert h in safeHeads + more;
  }

  lemma BalancedHeads(loaded: seq<Block>, released: nat, run: seq<Block>, safeHeads: seq<Block>, more: seq<Block>)
    requires Balanced(loaded, released, run, safeHeads)
    ensures Balanced(loaded, released, run, safeHeads + more)
  {
    hide IsSafe;
    forall i | 0 <= i < released
      ensures IsSafe(loaded[i], safeHeads + more)
    {
      StillSafe(loaded[i], safeHeads, more);
    }
  }

  /** A run that has become shorter for no reason in the ledger is not balanced. */
  lemma Unbalanced(loaded: seq<Block>, released: nat, run: seq<Block>, run': seq<Block>, safeHeads: seq<Block>)
    requires Balanced(loaded, released, run, safeHeads) && |run'| < |run|
    ensures !Balanced(loaded, released, run', safeHeads)
  {
  }

  // ---- One step ----

  lemma LoadStep(l: Ledger, b: Block)
    requires LedgerInv(l) && b.WellFormed()
    ensures LedgerInv(Step(l, Load(b)).value)
  {
    hide ChansOk, OrderOk, RunOk, IndexOk, StaleOk, SettledExcept, Live, Run, Balanced;
    AddStep(l.batcher.mgr, b);
    AddDrift(l.batcher.mgr, b);
    BalancedMore(l.loaded, l.released, Run(l.batcher.mgr), l.safeHeads, b);
  }

  /** A publishing step or a receipt, which leaves the ledger alone. */
  lemma SameLedger(l: Ledger, m': Manager, keeps: bool)
    requires LedgerInv(l) && m'.WF() && Drift(m') == Drift(l.batcher.mgr)
    requires keeps ==> Inv(m') && Live(m') && Run(m') == Run(l.batcher.mgr)
    requires !keeps ==> |Run(m')| < |Run(l.batcher.mgr)|
    ensures LedgerInv(l.(batcher := l.batcher.(mgr := m'))) <==> keeps
    ensures Balanced(l.loaded, l.released, Run(m'), l.safeHeads) <==> keeps
  {
    hide ChansOk, OrderOk, RunOk, IndexOk, StaleOk, SettledExcept, Live, Run, Balanced, Drift;
    if !keeps {
      Unbalanced(l.loaded, l.released, Run(l.batcher.mgr), Run(m'), l.safeHeads);
    }
  }

  /** After the step the ledger is balanced, and the invariant holds, exactly if `keeps`. */
  ghost predicate BalancedIff(l': Ledger, keeps: bool) {
    && l'.batcher.mgr.WF()
    && (Balanced(l'.loaded, l'.released, Run(l'.batcher.mgr), l'.safeHeads) <==> keeps)
    && (LedgerInv(l') <==> keeps)
  }

  lemma PublishStep(l: Ledger, e: Event)
    requires LedgerInv(l) && e.Publish? && EnvOk(l, e) && Step(l, e).Some?
    ensures BalancedIff(Step(l, e).value, KeepsRun(l.batcher.mgr, e))
  {
    hide ChansOk, OrderOk, RunOk, IndexOk, StaleOk, SettledExcept, Live, Run, Manager.TxData, Manager.GetReadyChannel,
      OutsOk, KeepsBlocks, SwitchKeeps, Switches, SwitchDone, EmittedAt, FirstBlockPruned, Drift, Balanced, LedgerInv;
    LedgerInvMeans(l);
    TxDataKeeps(l.batcher.mgr, e.head, e.newCfg, e.pi, e.out1, e.out2);
    TxDataDrift(l.batcher.mgr, e.head, e.newCfg, e.pi, e.out1, e.out2);
    SameLedger(l, Step(l, e).value.batcher.mgr, KeepsRun(l.batcher.mgr, e));
  }

  lemma LedgerInvMeans(l: Ledger)
    requires LedgerInv(l)
    ensures Inv(l.batcher.mgr) && Live(l.batcher.mgr)
    ensures Balanced(l.loaded, l.released, Run(l.batcher.mgr), l.safeHeads)
    ensures !l.straddled ==> Drift(l.batcher.mgr) == 0
  {
  }

  lemma FailDrift(m: Manager, k: TxId)
    requires m.WF() && m.TxFailed(k).Some?
    ensures SameWaiting(m, m.TxFailed(k).value)
  {
    hide Chan.TxFailed;
  }

  lemma ConfirmDrift(m: Manager, k: TxId, inclusion: nat)
    requires m.WF() && m.TxConfirmed(k, inclusion).Some?
    ensures var m' := m.TxConfirmed(k, inclusion).value; m'.cursor <= |m'.blocks| && Drift(m') == Drift(m)
  {
    hide Chan.TxConfirmed;
    if k in m.txChannels {
      var (c, timedOut) := m.chans[m.txChannels[k]].TxConfirmed(k, inclusion);
      var m1 := m.With(c).(txChannels := m.txChannels - {k});
      if timedOut {
        InvalidateDrift(m1, c.id);
      }
      hide Manager.Invalidate;
    }
  }

  lemma FailStep(l: Ledger, k: TxId)
    requires LedgerInv(l) && Step(l, Fail(k)).Some?
    ensures LedgerInv(Step(l, Fail(k)).value)
  {
    hide ChansOk, OrderOk, RunOk, IndexOk, StaleOk, SettledExcept, Live, Run, Manager.TxFailed, Balanced;
    FailKeeps(l.batcher.mgr, k);
    FailDrift(l.batcher.mgr, k);
    SameLedger(l, l.batcher.mgr.TxFailed(k).value, true);
  }

  lemma ConfirmedStep(l: Ledger, k: TxId, inclusion: BlockNum)
    requires LedgerInv(l) && Step(l, Confirm(k, inclusion)).Some?
    ensures BalancedIff(Step(l, Confirm(k, inclusion)).value, KeepsRun(l.batcher.mgr, Confirm(k, inclusion)))
  {
    hide ChansOk, OrderOk, RunOk, IndexOk, StaleOk, SettledExcept, Live, Run, Manager.TxConfirmed, Balanced, LedgerInv,
      ConfirmKeepsBlocks, TimesOut, FirstBlockPruned, Drift;
    LedgerInvMeans(l);
    ConfirmKeeps(l.batcher.mgr, k, inclusion);
    ConfirmDrift(l.batcher.mgr, k, inclusion);
    SameLedger(l, l.batcher.mgr.TxConfirmed(k, inclusion).value, KeepsRun(l.batcher.mgr, Confirm(k, inclusion)));
  }

  lemma SyncDrift(b: Batcher, s: SyncStatus)
    requires b.mgr.WF() && b.SyncAndPrune(s).Some?
    ensures var m' := b.SyncAndPrune(s).value.0.mgr;
            && m'.cursor <= |m'.blocks|
            && (SyncClears(b, s) ==> Drift(m') == 0)
            && (!SyncClears(b, s) && !Straddles(b, s) ==> Drift(m') == Drift(b.mgr))
  {
    hide KeepState, QueuedChans, SafePrefix;
    var (a, outOfSync) := ComputeSyncActions(s, b.prevCurrentL1, b.mgr.blocks, QueuedChans(b.mgr));
    hide ComputeSyncActions;
    if !outOfSync && a.clearState.None? {
      PruneDrift(b.mgr, a.blocksToPrune);
    }
  }

  lemma SyncStep(l: Ledger, s: SyncStatus)
    requires LedgerInv(l)
    ensures Step(l, Sync(s)).Some? && LedgerInv(Step(l, Sync(s)).value)
  {
    hide ChansOk, OrderOk, RunOk, IndexOk, StaleOk, SettledExcept, Live, Run, Batcher.SyncAndPrune, SyncClears,
      Straddles, Balanced, MustClear, LeavesQueue;
    var b := l.batcher;
    SyncKeeps(b, s);
    SyncClearsExactly(b, s);
    SyncDrift(b, s);
    var (b', load) := b.SyncAndPrune(s).value;
    var run := Run(b.mgr);
    if !InSync(s, b.prevCurrentL1) {
      OutOfSyncKeeps(b, s);
      if s.localSafe.Some? {
        BalancedHeads(l.loaded, l.released, run, l.safeHeads, [s.localSafe.value]);
      }
    } else if SyncClears(b, s) {
      ClearKeeps(b.mgr, s.localSafe.value.l1Origin);
      BalancedEmpty(l.safeHeads + [s.localSafe.value]);
    } else {
      var d :| Released(b.mgr, b'.mgr, s.localSafe.value, d);
      BalancedLess(l.loaded, l.released, run, l.safeHeads, d, s.localSafe.value);
    }
  }

  lemma BalancedEmpty(safeHeads: seq<Block>)
    ensures Balanced([], 0, [], safeHeads)
  {
  }

  lemma OutOfSyncKeeps(b: Batcher, s: SyncStatus)
    requires b.mgr.WF() && !InSync(s, b.prevCurrentL1)
    ensures !SyncClears(b, s) && !Straddles(b, s)
  {
  }

  lemma ClearStep(l: Ledger, l1Origin: nat)
    requires LedgerInv(l)
    ensures LedgerInv(l.(batcher := l.batcher.(mgr := l.batcher.mgr.Clear(l1Origin)), loaded := [], released := 0))
  {
    hide ChansOk, OrderOk, RunOk, IndexOk, StaleOk, SettledExcept, Live, Run, Balanced;
    ClearKeeps(l.batcher.mgr, l1Origin);
    BalancedEmpty(l.safeHeads);
  }

  // ---- Whole runs ----

  /** A step that does not panic keeps the ledger balanced, and the invariant, if and only if it
      drops no block with the channels that it invalidates. */
  lemma StepKeeps(l: Ledger, e: Event)
    requires l.batcher.mgr.WF() && LedgerInv(l) && EnvOk(l, e) && Step(l, e).Some?
    ensures BalancedIff(Step(l, e).value, KeepsRun(l.batcher.mgr, e))
  {
    hide LedgerInv, EnvOk, Step, Balanced, Run;
    match e {
      case Load(b) => LoadEnv(l, b); LoadStep(l, b); LedgerInvMeans(Step(l, e).value);
      case Publish(_, _, _, _, _) => PublishStep(l, e);
      case Fail(k) => FailStep(l, k); LedgerInvMeans(Step(l, e).value);
      case Confirm(k, inclusion) => ConfirmedStep(l, k, inclusion);
      case Sync(s) => SyncStep(l, s); LedgerInvMeans(Step(l, e).value);
      case ClearState(o) => ClearStep(l, o); ClearedIs(l, o); LedgerInvMeans(Step(l, e).value);
    }
  }

  lemma ClearedIs(l: Ledger, l1Origin: nat)
    requires l.batcher.mgr.WF() && EnvOk(l, ClearState(l1Origin))
    ensures Step(l, ClearState(l1Origin)) ==
            Some(l.(batcher := l.batcher.(mgr := l.batcher.mgr.Clear(l1Origin)), loaded := [], released := 0))
  {
  }

  lemma LoadEnv(l: Ledger, b: Block)
    requires EnvOk(l, Load(b))
    ensures b.WellFormed()
  {
  }

  /** `l'` is reached from `l` by the steps `es`, none of which panics or drops blocks with an
      invalidated channel. */
  ghost predicate Reaches(l: Ledger, es: seq<Event>, l': Ledger)
    decreases |es|
  {
    if es == [] then l' == l
    else
      && l.batcher.mgr.WF() && EnvOk(l, es[0]) && KeepsRun(l.batcher.mgr, es[0])
      && Step(l, es[0]).Some?
      && Reaches(Step(l, es[0]).value, es[1..], l')
  }

  /** Over any run: every block that was loaded and is not in the run any more is safe, the
      others are in the run, in the order they were loaded; and the invariant holds. */
  lemma {:induction false} NoBlockIsLost(l: Ledger, es: seq<Event>, l': Ledger)
    requires LedgerInv(l) && Reaches(l, es, l')
    ensures LedgerInv(l')
    decreases |es|
  {
    hide LedgerInv, Step, KeepsRun, EnvOk;
    if es != [] {
      StepKeeps(l, es[0]);
      NoBlockIsLost(Step(l, es[0]).value, es[1..], l');
    }
  }

  /** A batcher that was just created. */
  ghost predicate Initial(l: Ledger) {
    && l.loaded == [] && l.released == 0 && l.safeHeads == []
    && var m := l.batcher.mgr;
       && m.cfg.Usable() && m.blocks == [] && m.cursor == 0 && m.tip == NoHash && m.current == None
       && m.queue == [] && m.chans == map[] && m.txChannels == map[] && m.pendingBytes == 0
  }

  lemma InitialInv(l: Ledger)
    requires Initial(l)
    ensures LedgerInv(l)
  {
  }

  /** Receipts of cancellation transactions, which carry no frames, change nothing. */
  lemma CancelReceiptsIgnored(m: Manager, inclusion: nat)
    requires Inv(m)
    ensures m.TxFailed([]) == Some(m) && m.TxConfirmed([], inclusion) == Some(m)
  {
    assert [] !in m.txChannels by { NoEmptyTx(m); }
    hide Inv;
  }

  lemma NoEmptyTx(m: Manager)
    requires Inv(m)
    ensures [] !in m.txChannels
  {
    hide RunOk, OrderOk, StaleOk, SettledExcept;
    forall k | k in m.txChannels ensures k != [] {
      var c := m.chans[m.txChannels[k]];
      assert IsTxOf(c, k, c.pending[k]);
    }
  }

  /** From a new batcher, over any run of steps in any order, none of which panics: the blocks
      loaded since the last clear are the ones released, all of them ancestors of a safe head
      that was reported, followed by the run of queued channels and waiting blocks; and the
      counter of pending bytes is exact if no prune straddled the cursor. */
  lemma EveryRun(l: Ledger, es: seq<Event>, l': Ledger, inclusion: nat)
    requires Initial(l) && Reaches(l, es, l')
    ensures var m := l'.batcher.mgr;
            && Inv(m) && Live(m)
            && Balanced(l'.loaded, l'.released, Run(m), l'.safeHeads)
            && (!l'.straddled ==> m.pendingBytes == SumBytes(m.blocks[m.cursor..]))
            && m.TxFailed([]) == Some(m) && m.TxConfirmed([], inclusion) == Some(m)
  {
    InitialInv(l);
    hide Reaches, Initial, Inv, Live, Balanced, Run;
    NoBlockIsLost(l, es, l');
    CancelReceiptsIgnored(l'.batcher.mgr, inclusion);
  }

  /** The steps that panic, exactly: the confirmation that shows a timeout, and the switch of
      the DA type, for a channel whose first block has been pruned. */
  ghost predicate PanicCase(m: Manager, e: Event)
    requires m.WF() && (e.Publish? ==> e.newCfg.Usable())
  {
    match e
    case Confirm(k, inclusion) => TimesOut(m, k, inclusion) && FirstBlockPruned(m, m.chans[m.txChannels[k]])
    case Publish(head, newCfg, pi, out1, _) =>
      var (m0, r0) := m.GetReadyChannel(head, pi, out1);
      Switches(m0, r0, newCfg) && FirstBlockPruned(m0, m0.chans[r0.id])
    case _ => false
  }

  lemma PanicsExactly(l: Ledger, e: Event)
    requires LedgerInv(l) && EnvOk(l, e)
    ensures Step(l, e).None? <==> PanicCase(l.batcher.mgr, e)
  {
    var m := l.batcher.mgr;
    hide ChansOk, OrderOk, RunOk, IndexOk, StaleOk, SettledExcept, Live, Run, Manager.TxData, Manager.GetReadyChannel,
      Manager.TxFailed, Manager.TxConfirmed, Batcher.SyncAndPrune, TimesOut, FirstBlockPruned, OutsOk, Switches,
      KeepsBlocks, SwitchKeeps, ConfirmKeepsBlocks, TxDataDone;
    match e
    case Load(_) =>
    case Publish(head, newCfg, pi, out1, out2) => TxDataKeeps(m, head, newCfg, pi, out1, out2);
    case Fail(k) => FailKeeps(m, k);
    case Confirm(k, inclusion) => ConfirmKeeps(m, k, inclusion);
    case Sync(s) => SyncKeeps(l.batcher, s);
    case ClearState(_) =>
  }
}
