/** The invariant of the channel manager. */
module ManagerInv {
  import opened Chain
  import opened Frames
  import opened Options
  import opened ChannelSpec
  import opened ChannelProofs
  import opened ManagerSpec

  // ---- The run of blocks a manager is responsible for ----

  /** The blocks of the queued channels, in order. */
  function Flat(chans: map<ChId, Chan>, queue: seq<ChId>): seq<Block>
    requires forall id | id in queue :: id in chans
  {
    if queue == [] then [] else Flat(chans, queue[..|queue| - 1]) + chans[queue[|queue| - 1]].blocks
  }

  function InChannels(m: Manager): seq<Block>
    requires m.WF()
  {
    Flat(m.chans, m.queue)
  }

  /** Every block the manager is responsible for: first those in channels, then those that
      wait for one. */
  function Run(m: Manager): seq<Block>
    requires m.WF()
  {
    InChannels(m) + m.blocks[m.cursor..]
  }

  lemma {:induction false} FlatConcat(chans: map<ChId, Chan>, p: seq<ChId>, q: seq<ChId>)
    requires forall id | id in p + q :: id in chans
    ensures (forall id | id in p :: id in chans) && (forall id | id in q :: id in chans)
    ensures Flat(chans, p + q) == Flat(chans, p) + Flat(chans, q)
  {
    InEither(chans, p, q);
    if q == [] {
      assert p + q == p;
    } else {
      FlatConcatLast(chans, p, q);
    }
  }

  lemma {:induction false} FlatConcatLast(chans: map<ChId, Chan>, p: seq<ChId>, q: seq<ChId>)
    requires q != [] && (forall id | id in p :: id in chans) && (forall id | id in q :: id in chans)
    ensures forall id | id in p + q :: id in chans
    ensures Flat(chans, p + q) == Flat(chans, p) + Flat(chans, q)
    decreases |q|
  {
    var n := |q| - 1;
    var last := chans[q[n]].blocks;
    assert (p + q)[..|p + q| - 1] == p + q[..n];
    if n == 0 {
      assert p + q[..n] == p && q[..n] == [];
      assert Flat(chans, q) == last;
    } else {
      FlatConcatLast(chans, p, q[..n]);
      Regroup(Flat(chans, p), Flat(chans, q[..n]), last);
    }
  }

  lemma InEither(chans: map<ChId, Chan>, p: seq<ChId>, q: seq<ChId>)
    requires forall id | id in p + q :: id in chans
    ensures (forall id | id in p :: id in chans) && (forall id | id in q :: id in chans)
  {
    forall id | id in p || id in q
      ensures id in chans
    {
      assert id in p + q;
    }
  }

  lemma Regroup(a: seq<Block>, b: seq<Block>, c: seq<Block>)
    ensures (a + b) + c == a + (b + c)
  {
  }

  lemma {:induction false} FlatSame(chans: map<ChId, Chan>, chans': map<ChId, Chan>, q: seq<ChId>)
    requires forall id | id in q :: id in chans && id in chans' && chans'[id].blocks == chans[id].blocks
    ensures Flat(chans, q) == Flat(chans', q)
  {
    if q != [] {
      FlatSame(chans, chans', q[..|q| - 1]);
    }
  }

  /** The blocks of the channel at index `i` are a stretch of the run. */
  lemma FlatAt(chans: map<ChId, Chan>, q: seq<ChId>, i: nat)
    requires forall id | id in q :: id in chans
    requires i < |q|
    ensures var j := |Flat(chans, q[..i])|; var bs := chans[q[i]].blocks;
            && Flat(chans, q) == Flat(chans, q[..i]) + bs + Flat(chans, q[i + 1..])
            && j + |bs| <= |Flat(chans, q)| && Flat(chans, q)[j..j + |bs|] == bs
  {
    assert q[..i] + [q[i]] == q[..i + 1];
    assert q[..i + 1] + q[i + 1..] == q;
    FlatConcat(chans, q[..i + 1], q[i + 1..]);
    FlatConcat(chans, q[..i], [q[i]]);
    assert Flat(chans, [q[i]]) == chans[q[i]].blocks by {
      assert [q[i]][..0] == [];
    }
  }

  /** The run is hash-linked, its last block is the tip, and the block queue is its end; its
      first `n` blocks are in channels and the cursor is where they end. */
  ghost predicate Fits(run: seq<Block>, n: nat, blocks: seq<Block>, cursor: nat, tip: Hash) {
    && Linked(run)
    && (forall b | b in run :: b.WellFormed())
    && cursor <= n <= |run|
    && blocks == run[n - cursor..]
    && (run != [] ==> tip == Digest(run[|run| - 1]))
  }

  /** No block is lost, duplicated or reordered. */
  ghost predicate RunOk(m: Manager)
    requires m.WF()
  {
    Fits(Run(m), |InChannels(m)|, m.blocks, m.cursor, m.tip)
  }

  lemma RunOkIs(m: Manager)
    requires m.WF()
    ensures RunOk(m) <==> Fits(Run(m), |InChannels(m)|, m.blocks, m.cursor, m.tip)
  {
  }

  lemma RunIs(m: Manager)
    requires m.WF()
    ensures Run(m) == InChannels(m) + m.blocks[m.cursor..]
  {
  }

  lemma FitsBounds(run: seq<Block>, n: nat, blocks: seq<Block>, cursor: nat, tip: Hash)
    requires Fits(run, n, blocks, cursor, tip)
    ensures cursor <= n <= |run| && |blocks| == |run| - n + cursor
  {
  }

  lemma FitsIs(run: seq<Block>, n: nat, blocks: seq<Block>, cursor: nat, tip: Hash)
    requires Fits(run, n, blocks, cursor, tip)
    ensures Linked(run) && cursor <= n <= |run| && blocks == run[n - cursor..]
  {
  }

  // ---- Order, lookup, channels ----

  ghost predicate Distinct(q: seq<ChId>) {
    forall i, j | 0 <= i < j < |q| :: q[i] != q[j]
  }

  /** The current channel is the last one; every other channel is full. */
  ghost predicate OrderOk(m: Manager)
    requires m.WF()
  {
    && Distinct(m.queue)
    && (m.current.Some? ==> m.queue != [] && m.queue[|m.queue| - 1] == m.current.value)
    && (forall i | 0 <= i < |m.queue| :: m.chans[m.queue[i]].IsFull() || m.current == Some(m.queue[i]))
  }

  /** The transaction lookup agrees with the channels. */
  ghost predicate IndexOk(m: Manager)
    requires m.WF()
  {
    && (forall k | k in m.txChannels :: k in m.chans[m.txChannels[k]].pending)
    && (forall id, k | id in m.queue && k in m.chans[id].pending ::
          k in m.txChannels && m.txChannels[k] == id)
  }

  ghost predicate Behind(m: Manager, c: Chan) {
    && c.blocks != []
    && var last := c.blocks[|c.blocks| - 1].number;
       && m.tip.Digest? && last <= m.tip.block.number
       && (m.blocks != [] ==> last < m.blocks[0].number)
  }

  /** A channel that left the queue but still has a transaction under way has no blocks or is
      behind all the blocks in state. */
  ghost predicate StaleOk(m: Manager)
    requires m.WF()
  {
    forall k | k in m.txChannels :: m.txChannels[k] in m.queue || Stale(m, m.chans[m.txChannels[k]])
  }

  ghost predicate Stale(m: Manager, c: Chan) { c.blocks == [] || Behind(m, c) }

  ghost predicate ChansOk(m: Manager) {
    forall id | id in m.chans :: ChanInv(m.chans[id])
  }

  ghost predicate SettledExcept(m: Manager, o: Option<ChId>) {
    forall id | id in m.chans && o != Some(id) :: Settled(m.chans[id])
  }

  /** What holds all the time, also while the current channel is being built. */
  ghost predicate Core(m: Manager) {
    m.WF() && ChansOk(m) && OrderOk(m) && RunOk(m) && IndexOk(m) && StaleOk(m)
  }

  ghost predicate Inv(m: Manager) {
    Core(m) && SettledExcept(m, None)
  }

  /** The current channel takes blocks; its channel out is not closed. */
  ghost predicate Building(m: Manager) {
    Core(m) && SettledExcept(m, m.current) && m.current.Some? && !m.chans[m.current.value].closed
  }

  /** Every queued channel that has blocks has its last one still in state. */
  ghost predicate Live(m: Manager)
    requires m.WF()
  {
    forall id | id in m.queue :: EndsIn(m.chans[id].blocks, m.blocks)
  }

  ghost predicate EndsIn(bs: seq<Block>, blocks: seq<Block>) {
    bs != [] ==> bs[|bs| - 1] in blocks
  }

  lemma NothingEndsIn(blocks: seq<Block>)
    ensures EndsIn([], blocks)
  {
  }

  /** How far the running counter is off the estimated size of the waiting blocks. */
  function Drift(m: Manager): int
    requires m.cursor <= |m.blocks|
  {
    m.pendingBytes - SumBytes(m.blocks[m.cursor..])
  }

  // ---- A change of one channel ----
  // Each part of the invariant on its own, for a manager `m'` that differs from `m` in the
  // channel `c'` and in what the lemma does not mention.

  ghost predicate Swapped(m: Manager, m': Manager, c': Chan) {
    m'.chans == m.chans[c'.id := c']
  }

  lemma SwapWF(m: Manager, m': Manager, c': Chan)
    requires m.WF() && Swapped(m, m', c') && ChanInv(c')
    requires m'.cursor <= |m'.blocks| && m'.cfg == m.cfg
    requires m'.queue == m.queue && m'.current == m.current
    requires forall k | k in m'.txChannels :: m'.txChannels[k] in m.chans
    ensures m'.WF()
  {
  }

  lemma SwapChans(m: Manager, m': Manager, c': Chan)
    requires ChansOk(m) && Swapped(m, m', c') && ChanInv(c')
    ensures ChansOk(m')
  {
    hide ChanInv;
  }

  lemma SwapSettled(m: Manager, m': Manager, c': Chan, o: Option<ChId>)
    requires SettledExcept(m, o) && Swapped(m, m', c') && Settled(c')
    requires o.Some? ==> c'.id == o.value
    ensures SettledExcept(m', None)
  {
    hide Settled;
  }

  lemma SwapOrder(m: Manager, m': Manager, c': Chan)
    requires m.WF() && m'.WF() && OrderOk(m) && Swapped(m, m', c')
    requires m'.queue == m.queue && m'.current == m.current
    requires c'.id in m.chans && (m.chans[c'.id].IsFull() ==> c'.IsFull())
    ensures OrderOk(m')
  {
  }

  lemma SwapRun(m: Manager, m': Manager, c': Chan)
    requires m.WF() && m'.WF() && RunOk(m) && Swapped(m, m', c')
    requires m'.blocks == m.blocks && m'.cursor == m.cursor && m'.queue == m.queue && m'.tip == m.tip
    requires c'.id in m.queue ==> c'.blocks == m.chans[c'.id].blocks
    ensures RunOk(m') && Run(m') == Run(m) && InChannels(m') == InChannels(m)
  {
    hide Fits;
    FlatSame(m.chans, m'.chans, m.queue);
  }

  lemma SwapIndex(m: Manager, m': Manager, c': Chan)
    requires m.WF() && m'.WF() && IndexOk(m) && Swapped(m, m', c')
    requires m'.queue == m.queue && m'.txChannels == m.txChannels
    requires c'.id in m.chans && c'.pending == m.chans[c'.id].pending
    ensures IndexOk(m')
  {
  }

  lemma SwapStale(m: Manager, m': Manager, c': Chan)
    requires m.WF() && m'.WF() && StaleOk(m) && Swapped(m, m', c')
    requires m'.queue == m.queue && m'.tip == m.tip && m'.blocks == m.blocks
    requires c'.id in m.chans && c'.blocks == m.chans[c'.id].blocks
    requires forall k | k in m'.txChannels ::
               m'.txChannels[k] in m.queue || (k in m.txChannels && m'.txChannels[k] == m.txChannels[k])
    ensures StaleOk(m')
  {
  }

  /** A channel may be replaced by one with the same blocks and pending transactions. */
  lemma SwapCore(m: Manager, c': Chan)
    requires Core(m) && ChanInv(c') && c'.id in m.chans
    requires c'.blocks == m.chans[c'.id].blocks && c'.pending == m.chans[c'.id].pending
    requires m.chans[c'.id].IsFull() ==> c'.IsFull()
    ensures Core(m.With(c')) && Run(m.With(c')) == Run(m)
  {
    hide ChanInv, ChansOk, OrderOk, RunOk, Run, IndexOk, StaleOk;
    var m' := m.With(c');
    SwapWF(m, m', c');
    SwapChans(m, m', c');
    SwapOrder(m, m', c');
    SwapRun(m, m', c');
    SwapIndex(m, m', c');
    SwapStale(m, m', c');
  }
}
