/** Following the sequencer: only safe blocks are given up, and what is then loaded makes the
    state exactly the unsafe blocks. */
module SyncProofs {
  import opened Chain
  import opened Frames
  import opened Options
  import opened ChannelSpec
  import opened ChannelProofs
  import opened ManagerSpec
  import opened ManagerInv
  import opened ManagerSteps
  import opened SyncSpec

  // ---- The prefix of safe channels ----

  lemma {:induction false} SafePrefixIs(channels: seq<Chan>, safe: nat)
    ensures var k := SafePrefix(channels, safe);
            && (forall i | 0 <= i < k :: channels[i].latestL2 <= safe)
            && (k < |channels| ==> channels[k].latestL2 > safe)
  {
    if channels != [] && channels[0].latestL2 <= safe {
      SafePrefixIs(channels[1..], safe);
      forall i | 0 <= i < SafePrefix(channels, safe)
        ensures channels[i].latestL2 <= safe
      {
        assert i > 0 ==> channels[1..][i - 1] == channels[i];
      }
    }
  }

  /** The blocks of channels without a block above `safe` are not above `safe`. */
  lemma {:induction false} FlatBelow(chans: map<ChId, Chan>, q: seq<ChId>, safe: nat)
    requires forall id | id in q :: id in chans && BlocksOk(chans[id]) && chans[id].latestL2 <= safe
    ensures forall b | b in Flat(chans, q) :: b.number <= safe
  {
    if q != [] {
      var c := chans[q[|q| - 1]];
      FlatBelow(chans, q[..|q| - 1], safe);
      forall b | b in c.blocks
        ensures b.number <= safe
      {
        var i :| 0 <= i < |c.blocks| && c.blocks[i] == b;
        LinkedNumbers(c.blocks, i, |c.blocks| - 1);
      }
    }
  }

  // ---- Giving up the safe part ----

  /** The first blocks of a run that fits may be dropped as long as they are in channels and
      are not in the part of the state that stays. */
  lemma FitsDrop(run: seq<Block>, n: nat, blocks: seq<Block>, cursor: nat, tip: Hash, d: nat, k: nat)
    requires Fits(run, n, blocks, cursor, tip)
    requires k <= cursor && d <= n - cursor + k
    ensures Fits(run[d..], n - d, blocks[k..], cursor - k, tip)
  {
    LinkedSlice(run, d, |run|);
    assert run[d..|run|] == run[d..];
    assert blocks[k..] == run[n - cursor..][k..] == run[n - cursor + k..];
  }

  lemma FitsDropAll(run: seq<Block>, n: nat, blocks: seq<Block>, cursor: nat, tip: Hash, k: nat)
    requires Fits(run, n, blocks, cursor, tip)
    requires cursor <= k <= |blocks|
    ensures n - cursor + k <= |run|
    ensures Fits(run[n - cursor + k..], 0, blocks[k..], 0, tip)
    ensures blocks[k..] == run[n - cursor + k..]
  {
    var d := n - cursor + k;
    LinkedSlice(run, d, |run|);
    assert run[d..|run|] == run[d..];
    assert blocks[k..] == run[n - cursor..][k..] == run[d..];
  }

  /** Block `i` of the run is above the safe head exactly from index `t` on, where the
      state after pruning starts. */
  lemma SafeIndex(m: Manager, safe: nat, i: nat)
    requires m.WF() && RunOk(m) && m.blocks != [] && i < |Run(m)|
    requires m.blocks[0].number <= safe + 1
    ensures var t := |InChannels(m)| - m.cursor + (safe + 1 - m.blocks[0].number);
            Run(m)[i].number <= safe <==> i < t
  {
    var run, p := Run(m), |InChannels(m)| - m.cursor;
    assert m.blocks[0] == run[p];
    if i <= p {
      LinkedNumbers(run, i, p);
    } else {
      LinkedNumbers(run, p, i);
    }
  }

  /** The blocks of channels whose latest block is safe are safe. */
  lemma KeptBelow(m: Manager, k: nat, safe: nat)
    requires m.WF() && ChansOk(m) && k <= |m.queue|
    requires forall i | 0 <= i < k :: QueuedChans(m)[i].latestL2 <= safe
    ensures forall b | b in Flat(m.chans, m.queue[..k]) :: b.number <= safe
  {
    hide ChanInv, ChansOk, Flat, BlocksOk;
    forall id | id in m.queue[..k]
      ensures BlocksOk(m.chans[id]) && m.chans[id].latestL2 <= safe
    {
      BlocksOkAt(m, id);
      var i :| 0 <= i < k && m.queue[i] == id;
      assert QueuedChans(m)[i] == m.chans[id];
    }
    FlatBelow(m.chans, m.queue[..k], safe);
  }

  /** Where the kept channels start in the run: not after the kept blocks; and the first of
      the kept channels reaches into the kept blocks. */
  lemma KeptChannels(m: Manager, safe: nat)
    requires m.WF() && RunOk(m) && ChansOk(m) && m.blocks != []
    requires m.blocks[0].number <= safe + 1
    ensures var k := SafePrefix(QueuedChans(m), safe);
            var t := |InChannels(m)| - m.cursor + (safe + 1 - m.blocks[0].number);
            && |Flat(m.chans, m.queue[..k])| <= t
            && (k < |m.queue| ==> t < |InChannels(m)|)
  {
    hide ChanInv, ChansOk, Fits, Run, InChannels, Flat, RunOk, BlocksOk;
    CursorInChannels(m);
    var k := SafePrefix(QueuedChans(m), safe);
    var t := |InChannels(m)| - m.cursor + (safe + 1 - m.blocks[0].number);
    SafePrefixIs(QueuedChans(m), safe);
    KeptBelow(m, k, safe);
    QueueSplit(m, k);
    var j := |Flat(m.chans, m.queue[..k])|;
    if j > 0 {
      FrontInRun(m, k, j - 1);
      SafeIndex(m, safe, j - 1);
    }
    if k < |m.queue| {
      assert QueuedChans(m)[k] == m.chans[m.queue[k]];
      BlocksOkAt(m, m.queue[k]);
      LatestNonEmpty(m.chans[m.queue[k]], safe);
      LastInRun(m, k);
      SafeIndex(m, safe, |Flat(m.chans, m.queue[..k + 1])| - 1);
    }
  }

  /** A block of the first channels is at the same place in the run. */
  lemma FrontInRun(m: Manager, k: nat, i: nat)
    requires m.WF() && k <= |m.queue| && i < |Flat(m.chans, m.queue[..k])|
    ensures i < |Run(m)| && Run(m)[i] == Flat(m.chans, m.queue[..k])[i]
    ensures Run(m)[i] in Flat(m.chans, m.queue[..k])
  {
    hide *;
    QueueSplit(m, k);
    RunIs(m);
  }

  lemma LatestNonEmpty(c: Chan, safe: nat)
    requires BlocksOk(c) && c.latestL2 > safe
    ensures c.blocks != [] && c.latestL2 == c.blocks[|c.blocks| - 1].number
  {
  }

  lemma CursorInChannels(m: Manager)
    requires m.WF() && RunOk(m)
    ensures m.cursor <= |InChannels(m)|
  {
  }

  lemma ChanBlocksOk(c: Chan)
    requires ChanInv(c)
    ensures BlocksOk(c)
  {
  }

  /** The two prunes, as one step. */
  function Pruned(m: Manager, safe: Block): Manager
    requires m.WF() && m.blocks != []
    requires m.blocks[0].number <= safe.number + 1 && safe.number + 1 - m.blocks[0].number <= |m.blocks|
  {
    m.PruneSafeBlocks(safe.number + 1 - m.blocks[0].number).value
     .PruneChannels(SafePrefix(QueuedChans(m), safe.number)).value
  }

  lemma PrunedIs(m: Manager, safe: Block)
    requires m.WF() && m.blocks != []
    requires m.blocks[0].number <= safe.number + 1 && safe.number + 1 - m.blocks[0].number <= |m.blocks|
    ensures var m' := Pruned(m, safe);
            var n := safe.number + 1 - m.blocks[0].number;
            var k := SafePrefix(QueuedChans(m), safe.number);
            && m'.chans == m.chans && m'.tip == m.tip && m'.txChannels == m.txChannels && m'.cfg == m.cfg
            && m'.blocks == m.blocks[n..] && m'.cursor == (if n <= m.cursor then m.cursor - n else 0)
            && m'.queue == m.queue[k..]
            && m'.current == (if m.current.Some? && m.current.value in m.queue[..k] then None else m.current)
  {
    hide SafePrefix, QueuedChans;
  }

  /** Pruning drops the front of the run: at most the blocks up to the safe head. */
  lemma PruneRun(m: Manager, safe: Block, m': Manager) returns (d: nat)
    requires m.WF() && m'.WF() && RunOk(m) && ChansOk(m) && m.blocks != []
    requires m.blocks[0].number <= safe.number + 1 && safe.number + 1 - m.blocks[0].number <= |m.blocks|
    requires m' == Pruned(m, safe)
    ensures RunOk(m') && d <= |Run(m)| && Run(m') == Run(m)[d..]
    ensures d <= |InChannels(m)| - m.cursor + (safe.number + 1 - m.blocks[0].number)
  {
    hide Fits, ChanInv, ChansOk, Pruned, SafePrefix, Run, Flat, InChannels, QueuedChans, RunOk;
    PrunedIs(m, safe);
    var n := safe.number + 1 - m.blocks[0].number;
    var k := SafePrefix(QueuedChans(m), safe.number);
    KeptChannels(m, safe.number);
    CursorInChannels(m);
    if n <= m.cursor {
      d := |Flat(m.chans, m.queue[..k])|;
      PruneFront(m, m', n, k, d);
    } else {
      d := |InChannels(m)| - m.cursor + n;
      assert k == |m.queue|;
      PruneAll(m, m', n);
    }
  }

  lemma PruneFront(m: Manager, m': Manager, n: nat, k: nat, j: nat)
    requires m.WF() && m'.WF() && RunOk(m) && n <= m.cursor
    requires k <= |m.queue| && j == |Flat(m.chans, m.queue[..k])| <= |InChannels(m)| - m.cursor + n
    requires m'.chans == m.chans && m'.queue == m.queue[k..] && m'.tip == m.tip
    requires m'.blocks == m.blocks[n..] && m'.cursor == m.cursor - n
    ensures RunOk(m') && j <= |Run(m)| && Run(m') == Run(m)[j..]
  {
    hide *;
    RunFront(m, m', n, k, j);
    RunOkIs(m);
    RunOkIs(m');
    FitsDrop(Run(m), |InChannels(m)|, m.blocks, m.cursor, m.tip, j, n);
  }

  lemma RunFront(m: Manager, m': Manager, n: nat, k: nat, j: nat)
    requires m.WF() && m'.WF() && n <= m.cursor && k <= |m.queue| && j == |Flat(m.chans, m.queue[..k])|
    requires m'.chans == m.chans && m'.queue == m.queue[k..]
    requires m'.blocks == m.blocks[n..] && m'.cursor == m.cursor - n
    ensures j <= |Run(m)| && Run(m') == Run(m)[j..] && |InChannels(m')| == |InChannels(m)| - j
  {
    hide Flat, Run;
    QueueSplit(m, k);
    RestOfRest(m.blocks, n, m.cursor);
    RunIs(m);
    RunIs(m');
    AfterFront(Flat(m.chans, m.queue[..k]), Flat(m.chans, m.queue[k..]), m.blocks[m.cursor..]);
  }

  lemma RestOfRest(s: seq<Block>, n: nat, i: nat)
    requires n <= i <= |s|
    ensures s[n..][i - n..] == s[i..]
  {
  }

  lemma PruneAll(m: Manager, m': Manager, n: nat)
    requires m.WF() && m'.WF() && RunOk(m) && m.cursor < n <= |m.blocks|
    requires m'.queue == [] && m'.tip == m.tip && m'.blocks == m.blocks[n..] && m'.cursor == 0
    ensures RunOk(m')
    ensures var d := |InChannels(m)| - m.cursor + n; 0 <= d <= |Run(m)| && Run(m') == Run(m)[d..]
  {
    hide *;
    RunOkIs(m);
    RunOkIs(m');
    EmptyQueueRun(m');
    FitsBounds(Run(m), |InChannels(m)|, m.blocks, m.cursor, m.tip);
    FitsDropAll(Run(m), |InChannels(m)|, m.blocks, m.cursor, m.tip, n);
  }

  lemma EmptyQueueRun(m: Manager)
    requires m.WF() && m.queue == [] && m.cursor == 0
    ensures InChannels(m) == [] && Run(m) == m.blocks
  {
  }

  // ---- The rest of the invariant ----

  lemma PruneOrder(m: Manager, m': Manager, k: nat)
    requires m.WF() && m'.WF() && OrderOk(m) && k <= |m.queue|
    requires m'.chans == m.chans && m'.queue == m.queue[k..]
    requires m'.current == (if m.current.Some? && m.current.value in m.queue[..k] then None else m.current)
    ensures OrderOk(m')
  {
    if m.current.Some? && m.current.value in m.queue[..k] {
      assert k == |m.queue|;
    }
  }

  lemma PruneIndex(m: Manager, m': Manager, k: nat)
    requires m.WF() && m'.WF() && IndexOk(m) && k <= |m.queue|
    requires m'.chans == m.chans && m'.queue == m.queue[k..] && m'.txChannels == m.txChannels
    ensures IndexOk(m')
  {
  }

  /** The last block of the channel at index `i` in the run. */
  lemma LastInRun(m: Manager, i: nat)
    requires m.WF() && i < |m.queue| && m.chans[m.queue[i]].blocks != []
    ensures var e := |Flat(m.chans, m.queue[..i + 1])| - 1; var bs := m.chans[m.queue[i]].blocks;
            0 <= e < |Run(m)| && e < |InChannels(m)| && Run(m)[e] == bs[|bs| - 1]
  {
    QueueSplit(m, i + 1);
    var q := m.queue[..i + 1];
    assert Flat(m.chans, q) == Flat(m.chans, q[..i]) + m.chans[q[i]].blocks;
  }

  lemma PruneStale(m: Manager, m': Manager, safe: Block, k: nat)
    requires m.WF() && m'.WF() && RunOk(m) && ChansOk(m) && StaleOk(m) && Live(m) && m.blocks != []
    requires m.blocks[0].number <= safe.number + 1 && safe.number + 1 - m.blocks[0].number <= |m.blocks|
    requires k <= |m.queue| && forall i | 0 <= i < k :: m.chans[m.queue[i]].latestL2 <= safe.number
    requires m'.chans == m.chans && m'.queue == m.queue[k..] && m'.txChannels == m.txChannels
    requires m'.tip == m.tip && m'.blocks == m.blocks[safe.number + 1 - m.blocks[0].number..]
    ensures StaleOk(m')
  {
    hide ChanInv, ChansOk, RunOk, Run, BlocksOk, Live;
    PrunedNumbers(m, m', safe);
    forall x | x in m'.txChannels && m'.txChannels[x] !in m'.queue
      ensures Stale(m', m'.chans[m'.txChannels[x]])
    {
      var id := m.txChannels[x];
      if id in m.queue {
        var i := InFront(m.queue, k, id);
        if m.chans[id].blocks != [] {
          assert BlocksOk(m.chans[id]) by { BlocksOkAt(m, id); }
          PrunedIsBehind(m, i, safe);
        }
      }
    }
  }

  lemma InFront(q: seq<ChId>, k: nat, id: ChId) returns (i: nat)
    requires k <= |q| && id in q && id !in q[k..]
    ensures i < k && q[i] == id
  {
    assert q == q[..k] + q[k..];
    i :| 0 <= i < k && q[..k][i] == id;
  }

  lemma BlocksOkAt(m: Manager, id: ChId)
    requires ChansOk(m) && id in m.chans
    ensures BlocksOk(m.chans[id])
  {
    hide ChanInv, BlocksOk;
    ChanBlocksOk(m.chans[id]);
  }

  lemma PrunedIsBehind(m: Manager, i: nat, safe: Block)
    requires m.WF() && RunOk(m) && i < |m.queue|
    requires m.chans[m.queue[i]].blocks != [] && BlocksOk(m.chans[m.queue[i]])
    requires m.chans[m.queue[i]].latestL2 <= safe.number
    ensures var bs := m.chans[m.queue[i]].blocks; var last := bs[|bs| - 1].number;
            m.tip.Digest? && last <= m.tip.block.number && last <= safe.number
  {
    LastInRun(m, i);
    var e := |Flat(m.chans, m.queue[..i + 1])| - 1;
    hide Flat, InChannels;
    LinkedNumbers(Run(m), e, |Run(m)| - 1);
  }

  /** Channels that stay reach into the blocks that stay. */
  lemma PruneLive(m: Manager, m': Manager, safe: Block, k: nat)
    requires m.WF() && m'.WF() && RunOk(m) && ChansOk(m) && Live(m) && m.blocks != []
    requires m.blocks[0].number <= safe.number + 1 && safe.number + 1 - m.blocks[0].number <= |m.blocks|
    requires k <= |m.queue| && (k < |m.queue| ==> m.chans[m.queue[k]].latestL2 > safe.number)
    requires m'.chans == m.chans && m'.queue == m.queue[k..]
    requires m'.blocks == m.blocks[safe.number + 1 - m.blocks[0].number..]
    ensures Live(m')
  {
    hide ChanInv, ChansOk, RunOk, Run, BlocksOk, EndsIn;
    forall id | id in m'.queue
      ensures EndsIn(m'.chans[id].blocks, m'.blocks)
    {
      if m.chans[id].blocks == [] {
        NothingEndsIn(m'.blocks);
      } else {
        var i :| 0 <= i < |m'.queue| && m'.queue[i] == id;
        assert m.queue[k + i] == id;
        BlocksOkAt(m, m.queue[k]);
        KeptEnds(m, safe, k, k + i);
      }
    }
  }

  lemma KeptEnds(m: Manager, safe: Block, k: nat, i: nat)
    requires m.WF() && RunOk(m) && m.blocks != []
    requires m.blocks[0].number <= safe.number + 1 && safe.number + 1 - m.blocks[0].number <= |m.blocks|
    requires k <= i < |m.queue| && BlocksOk(m.chans[m.queue[k]]) && m.chans[m.queue[k]].latestL2 > safe.number
    requires m.chans[m.queue[i]].blocks != []
    ensures EndsIn(m.chans[m.queue[i]].blocks, m.blocks[safe.number + 1 - m.blocks[0].number..])
  {
    hide Flat, InChannels, Run;
    var n := safe.number + 1 - m.blocks[0].number;
    LastInRun(m, i);
    LastInRun(m, k);
    FlatGrows(m, k + 1, i + 1);
    var e, e' := |Flat(m.chans, m.queue[..k + 1])| - 1, |Flat(m.chans, m.queue[..i + 1])| - 1;
    SafeIndex(m, safe.number, e);
    RestOfRun(Run(m), |InChannels(m)| - m.cursor, m.blocks, n);
    var t := |InChannels(m)| - m.cursor + n;
    assert m.blocks[n..][e' - t] == Run(m)[e'];
  }

  lemma FlatGrows(m: Manager, i: nat, j: nat)
    requires m.WF() && i <= j <= |m.queue|
    ensures |Flat(m.chans, m.queue[..i])| <= |Flat(m.chans, m.queue[..j])|
  {
    assert m.queue[..j] == m.queue[..i] + m.queue[i..j];
    FlatConcat(m.chans, m.queue[..i], m.queue[i..j]);
  }

  lemma PrunedWF(m: Manager, safe: Block)
    requires m.WF() && m.blocks != []
    requires m.blocks[0].number <= safe.number + 1 && safe.number + 1 - m.blocks[0].number <= |m.blocks|
    ensures Pruned(m, safe).WF()
  {
  }

  /** If no block of the state is pruned, the channels that are pruned have no blocks. */
  lemma FrontChannels(m: Manager, safe: Block)
    requires m.WF() && RunOk(m) && ChansOk(m) && Live(m) && m.blocks != []
    requires m.blocks[0].number == safe.number + 1
    ensures var k := SafePrefix(QueuedChans(m), safe.number);
            Flat(m.chans, m.queue[..k]) == [] && InChannels(m) == Flat(m.chans, m.queue[k..])
  {
    hide ChanInv, ChansOk, RunOk, Run, Live;
    var k := SafePrefix(QueuedChans(m), safe.number);
    SafePrefixIs(QueuedChans(m), safe.number);
    forall id | id in m.queue[..k]
      ensures m.chans[id].blocks == []
    {
      var i :| 0 <= i < k && m.queue[i] == id;
      assert QueuedChans(m)[i] == m.chans[id];
      BlocksOkAt(m, id);
      FrontIsEmpty(m, safe, id);
    }
    FlatOfNothing(m.chans, m.queue[..k]);
    QueueSplit(m, k);
  }

  lemma FrontIsEmpty(m: Manager, safe: Block, id: ChId)
    requires m.WF() && RunOk(m) && Live(m) && m.blocks != [] && m.blocks[0].number == safe.number + 1
    requires id in m.queue && BlocksOk(m.chans[id]) && m.chans[id].latestL2 <= safe.number
    ensures m.chans[id].blocks == []
  {
    hide Flat, InChannels;
    var c := m.chans[id];
    if c.blocks != [] {
      var i :| 0 <= i < |m.blocks| && m.blocks[i] == c.blocks[|c.blocks| - 1];
      var p := |InChannels(m)| - m.cursor;
      LinkedNumbers(Run(m), p, p + i);
    }
  }

  lemma {:induction false} FlatOfNothing(chans: map<ChId, Chan>, q: seq<ChId>)
    requires forall id | id in q :: id in chans && chans[id].blocks == []
    ensures Flat(chans, q) == []
  {
    if q != [] {
      FlatOfNothing(chans, q[..|q| - 1]);
    }
  }

  /** The two prunes keep the invariant, drop only the front of the run, and of it only the
      safe head and its ancestors; the state then starts right after the safe head. */
  lemma PruneStep(m: Manager, safe: Block, s: SyncStatus) returns (d: nat)
    requires Inv(m) && Live(m) && m.blocks != [] && KeepState(s, safe, m.blocks, QueuedChans(m))
    ensures var m' := Pruned(m, safe);
            && Inv(m') && Live(m') && d <= |Run(m)| && Run(m') == Run(m)[d..]
            && (forall i | 0 <= i < d :: AncestorOrSelf(Run(m)[i], safe))
            && NumberedFrom(m'.blocks, safe.number + 1)
            && safe.number + |m'.blocks| == m.blocks[|m.blocks| - 1].number
  {
    hide ChanInv, ChansOk, RunOk, Run, InChannels, Flat, OrderOk, IndexOk, StaleOk, SettledExcept, Live,
      Pruned, SafePrefix, QueuedChans, AncestorOrSelf;
    var m' := Pruned(m, safe);
    var k := SafePrefix(QueuedChans(m), safe.number);
    PrunedWF(m, safe);
    PrunedIs(m, safe);
    PruneRest(m, m', safe, k);
    d := PruneRun(m, safe, m');
    DroppedAreAncestors(m, m', safe, d);
    PrunedNumbers(m, m', safe);
  }

  lemma PruneRest(m: Manager, m': Manager, safe: Block, k: nat)
    requires Inv(m) && Live(m) && m.blocks != [] && m'.WF()
    requires m.blocks[0].number <= safe.number + 1 && safe.number + 1 - m.blocks[0].number <= |m.blocks|
    requires k == SafePrefix(QueuedChans(m), safe.number)
    requires m'.chans == m.chans && m'.tip == m.tip && m'.txChannels == m.txChannels
    requires m'.blocks == m.blocks[safe.number + 1 - m.blocks[0].number..] && m'.queue == m.queue[k..]
    requires m'.current == (if m.current.Some? && m.current.value in m.queue[..k] then None else m.current)
    ensures ChansOk(m') && SettledExcept(m', None) && OrderOk(m') && IndexOk(m') && StaleOk(m') && Live(m')
  {
    hide ChanInv, Settled, RunOk, Run, OrderOk, IndexOk, StaleOk, Live;
    SafePrefixIs(QueuedChans(m), safe.number);
    forall i | 0 <= i < k
      ensures m.chans[m.queue[i]].latestL2 <= safe.number
    {
      assert QueuedChans(m)[i] == m.chans[m.queue[i]];
    }
    hide QueuedChans, SafePrefix;
    PruneOrder(m, m', k);
    PruneIndex(m, m', k);
    PruneStale(m, m', safe, k);
    PruneLive(m, m', safe, k);
  }

  lemma DroppedAreAncestors(m: Manager, m': Manager, safe: Block, d: nat)
    requires Inv(m) && Live(m) && m.blocks != [] && m'.WF()
    requires m.blocks[0].number <= safe.number + 1 && safe.number + 1 - m.blocks[0].number <= |m.blocks|
    requires safe.number + 1 > m.blocks[0].number ==> m.blocks[safe.number - m.blocks[0].number] == safe
    requires m'.chans == m.chans && m'.queue == m.queue[SafePrefix(QueuedChans(m), safe.number)..]
    requires m'.cursor <= m.cursor && m'.blocks == m.blocks[safe.number + 1 - m.blocks[0].number..]
    requires d <= |Run(m)| && Run(m') == Run(m)[d..]
    requires d <= |InChannels(m)| - m.cursor + (safe.number + 1 - m.blocks[0].number)
    ensures forall i | 0 <= i < d :: AncestorOrSelf(Run(m)[i], safe)
  {
    hide ChanInv, ChansOk, OrderOk, IndexOk, StaleOk, SettledExcept, Live, Flat, SafePrefix, AncestorOrSelf, Fits, Run,
      InChannels, QueuedChans;
    if safe.number + 1 > m.blocks[0].number {
      var n := safe.number + 1 - m.blocks[0].number;
      var e := |InChannels(m)| - m.cursor + n - 1;
      BlockInRun(m, n - 1);
      forall i | 0 <= i < d
        ensures AncestorOrSelf(Run(m)[i], safe)
      {
        LinkedAncestors(Run(m), i, e);
      }
    } else {
      FrontChannels(m, safe);
      NothingDropped(m, m', SafePrefix(QueuedChans(m), safe.number), d);
    }
  }

  /** A block of the state in the run. */
  lemma BlockInRun(m: Manager, i: nat)
    requires m.WF() && RunOk(m) && i < |m.blocks|
    ensures Linked(Run(m)) && m.cursor <= |InChannels(m)|
    ensures |InChannels(m)| - m.cursor + i < |Run(m)| && Run(m)[|InChannels(m)| - m.cursor + i] == m.blocks[i]
  {
    hide *;
    RunOkIs(m);
    FitsIs(Run(m), |InChannels(m)|, m.blocks, m.cursor, m.tip);
  }

  lemma NothingDropped(m: Manager, m': Manager, k: nat, d: nat)
    requires m.WF() && m'.WF() && k <= |m.queue| && m'.chans == m.chans && m'.queue == m.queue[k..]
    requires InChannels(m) == Flat(m.chans, m.queue[k..]) && m'.blocks == m.blocks && m'.cursor <= m.cursor
    requires d <= |Run(m)| && Run(m') == Run(m)[d..]
    ensures d == 0
  {
    RunIs(m);
    RunIs(m');
    FlatOf(m');
    hide Flat, Run, InChannels;
  }

  lemma FlatOf(m: Manager)
    requires m.WF()
    ensures InChannels(m) == Flat(m.chans, m.queue)
  {
  }

  // ---- Exactness ----

  ghost predicate NumberedFrom(bs: seq<Block>, start: nat) {
    forall i | 0 <= i < |bs| :: bs[i].number == start + i
  }

  lemma PrunedNumbers(m: Manager, m': Manager, safe: Block)
    requires m.WF() && RunOk(m) && m.blocks != []
    requires m.blocks[0].number <= safe.number + 1 && safe.number + 1 - m.blocks[0].number <= |m.blocks|
    requires m'.blocks == m.blocks[safe.number + 1 - m.blocks[0].number..]
    ensures NumberedFrom(m'.blocks, safe.number + 1)
    ensures safe.number + |m'.blocks| == m.blocks[|m.blocks| - 1].number
  {
    hide Flat, InChannels;
    var n := safe.number + 1 - m.blocks[0].number;
    var p := |InChannels(m)| - m.cursor;
    LinkedNumbers(Run(m), p, |Run(m)| - 1);
    forall i | 0 <= i < |m'.blocks|
      ensures m'.blocks[i].number == safe.number + 1 + i
    {
      assert m'.blocks[i] == m.blocks[n + i] == Run(m)[p + n + i];
      LinkedNumbers(Run(m), p, p + n + i);
    }
  }
}
