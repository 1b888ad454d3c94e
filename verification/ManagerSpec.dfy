/** The value of the channel manager and what each of its operations does to it. Channels
    are referred to by their IDs; `chans` holds every channel that was ever opened. */
module ManagerSpec {
  import opened Chain
  import opened Frames
  import opened Options
  import opened ChannelSpec

  /** A channel out as the factory hands it over. */
  datatype NewOut = NewOut(id: ChId, comp: Compressor)

  datatype PubInfo = PubInfo(forcePublish: bool, ignoreMaxChannelDuration: bool)

  datatype ReadyResult = Ready(id: ChId) | NotReady | ReadyError

  datatype TxResult = Data(tx: TxData, from: ChId) | NoData | TxError

  datatype Manager = Manager(
    blocks: seq<Block>,
    cursor: nat,
    l1OriginLast: nat,
    cfg: Config,
    tip: Hash,
    current: Option<ChId>,
    queue: seq<ChId>,
    chans: map<ChId, Chan>,
    txChannels: map<TxId, ChId>,
    pendingBytes: int)
  {
    /** References lead to channels and cursors stay in their queues. */
    predicate WF() {
      && cursor <= |blocks|
      && cfg.Usable()
      && (forall id | id in queue :: id in chans)
      && (current.Some? ==> current.value in chans)
      && (forall k | k in txChannels :: txChannels[k] in chans)
      && (forall id | id in chans ::
            chans[id].id == id && chans[id].cfg.Usable() && chans[id].frameCursor <= |chans[id].frames|)
    }

    function With(c: Chan): Manager { this.(chans := chans[c.id := c]) }

    function Clear(l1Origin: nat): Manager {
      this.(blocks := [], cursor := 0, l1OriginLast := l1Origin, tip := NoHash, current := None,
            queue := [], txChannels := map[], pendingBytes := 0)
    }

    /** The flag is false for a reorg error. */
    function AddL2Block(b: Block): (Manager, bool) {
      if tip != NoHash && tip != b.parent then (this, false)
      else (this.(blocks := blocks + [b], tip := Digest(b), pendingBytes := pendingBytes + b.daBytes), true)
    }

    /** None is a panic, here and below. */
    function TxFailed(txId: TxId): Option<Manager>
      requires WF()
    {
      if txId !in txChannels then Some(this)
      else match chans[txChannels[txId]].TxFailed(txId)
        case None => None
        case Some(c) => Some(With(c).(txChannels := txChannels - {txId}))
    }

    function TxConfirmed(txId: TxId, inclusion: nat): Option<Manager>
      requires WF()
    {
      if txId !in txChannels then Some(this)
      else
        var (c, timedOut) := chans[txChannels[txId]].TxConfirmed(txId, inclusion);
        var m := With(c).(txChannels := txChannels - {txId});
        if timedOut then m.Invalidate(c.id) else Some(m)
    }

    function RewindToBlock(b: Block): Option<Manager>
      requires cursor <= |blocks|
    {
      if blocks == [] then None
      else
        var idx := Sub64(b.number, blocks[0].number);
        if idx < |blocks| && blocks[idx] == b && idx < cursor
        then Some(this.(cursor := idx, pendingBytes := pendingBytes + SumBytes(blocks[idx..cursor])))
        else None
    }

    function Invalidate(id: ChId): Option<Manager>
      requires cursor <= |blocks|
      requires id in chans
    {
      var c := chans[id];
      match (if c.blocks != [] then RewindToBlock(c.blocks[0]) else Some(this))
      case None => None
      case Some(m) => Some(m.DropFrom(IndexOrZero(queue, id)))
    }

    /** Drops the channels from index `i` on, with their transactions. */
    function DropFrom(i: nat): Manager
      requires i <= |queue|
    {
      this.(queue := queue[..i], current := None,
            txChannels := map k | k in txChannels && txChannels[k] !in queue[i..] :: txChannels[k])
    }

    function NextTxData(id: ChId): (Manager, TxResult)
      requires WF() && id in chans
    {
      if !chans[id].HasTxData() then (this, NoData)
      else
        var (c, tx) := chans[id].NextTxData();
        (With(c).(l1OriginLast := if c.latestL1Origin > l1OriginLast then c.latestL1Origin else l1OriginLast,
                  txChannels := txChannels[tx.Id() := id]),
         Data(tx, id))
    }

    function TxData(head: nat, newCfg: Config, pi: PubInfo, out1: Option<NewOut>, out2: Option<NewOut>)
      : Option<(Manager, TxResult)>
      requires WF() && newCfg.Usable()
    {
      var (m, r) := GetReadyChannel(head, pi, out1);
      match r
      case NotReady => Some((m, NoData))
      case ReadyError => Some((m, TxError))
      case Ready(id) =>
        if !m.chans[id].NoneSubmitted() || newCfg.useBlobs == m.cfg.useBlobs then Some(m.NextTxData(id))
        else m.SwitchType(id, head, newCfg, pi, out2)
    }

    /** Invalidates the channel and tries again with a new configuration. */
    function SwitchType(id: ChId, head: nat, newCfg: Config, pi: PubInfo, out: Option<NewOut>)
      : Option<(Manager, TxResult)>
      requires WF() && newCfg.Usable() && id in chans
    {
      match Invalidate(id)
      case None => None
      case Some(m1) =>
        var (m2, r2) := m1.(cfg := newCfg).GetReadyChannel(head, pi, out);
        match r2
        case NotReady => Some((m2, NoData))
        case ReadyError => Some((m2, TxError))
        case Ready(id2) => Some(m2.NextTxData(id2))
    }

    /** Force-closes the current channel if it has no frames yet. */
    function ForceClose(pi: PubInfo): (r: (Manager, bool))
      requires WF()
      ensures r.0.WF()
      ensures r.0 == this.(chans := r.0.chans) && r.0.chans.Keys == chans.Keys
    {
      if pi.forcePublish && current.Some? && |chans[current.value].frames| == 0 then
        var c := chans[current.value].Close();
        OutputFramesShape(c);
        var (c', ok) := c.OutputFrames();
        (With(c'), ok)
      else
        (this, true)
    }

    /** A current channel that is not full: the one there is or a new one. None if the
        factory fails. */
    function EnsureChannelWithSpace(out: Option<NewOut>): (r: Option<Manager>)
      requires WF()
      ensures r.Some? ==> r.value.WF() && r.value.current.Some?
    {
      if current.Some? && !chans[current.value].IsFull() then Some(this)
      else if out.None? then None
      else
        var c := NewChan(out.value.id, out.value.comp, cfg, l1OriginLast);
        Some(With(c).(current := Some(c.id), queue := queue + [c.id]))
    }

    /** Moves blocks into the current channel. */
    function ProcessBlocks(): (r: (Manager, bool))
      requires WF() && current.Some?
      ensures r.0.WF() && r.0.current == current
    {
      var pend := blocks[cursor..];
      AddBlocksShape(chans[current.value], pend);
      var (c, n, ok) := AddBlocks(chans[current.value], pend);
      (With(c).(cursor := cursor + n, pendingBytes := pendingBytes - SumBytes(pend[..n])), ok)
    }

    /** Registers the L1 head unless told not to, and creates frames. */
    function RegisterAndOutput(head: nat, pi: PubInfo): (r: (Manager, bool))
      requires WF() && current.Some?
      ensures r.0.WF() && r.0.current == current
    {
      var c0 := chans[current.value];
      var c := if pi.ignoreMaxChannelDuration then c0 else c0.CheckTimeout(head);
      OutputFramesShape(c);
      var (c', ok) := c.OutputFrames();
      (With(c'), ok)
    }

    function GetReadyChannel(head: nat, pi: PubInfo, out: Option<NewOut>): (r: (Manager, ReadyResult))
      requires WF()
      ensures r.0.WF()
      ensures r.1.Ready? ==> r.1.id in r.0.chans
    {
      var (m, ok) := ForceClose(pi);
      if !ok then (m, ReadyError)
      else match FirstWithTxData(m.chans, m.queue)
        case Some(id) => (m, Ready(id))
        case None =>
          if m.cursor == |m.blocks| then (m, NotReady) else m.BuildChannel(head, pi, out)
    }

    function BuildChannel(head: nat, pi: PubInfo, out: Option<NewOut>): (r: (Manager, ReadyResult))
      requires WF()
      ensures r.0.WF()
      ensures r.1.Ready? ==> r.1.id in r.0.chans
    {
      match EnsureChannelWithSpace(out)
      case None => (this, ReadyError)
      case Some(m1) =>
        var (m2, ok2) := m1.ProcessBlocks();
        if !ok2 then (m2, ReadyError)
        else
          var (m3, ok3) := m2.RegisterAndOutput(head, pi);
          if !ok3 then (m3, ReadyError)
          else if m3.chans[m3.current.value].HasTxData() then (m3, Ready(m3.current.value))
          else (m3, NotReady)
    }

    function PruneSafeBlocks(n: nat): Option<Manager>
      requires cursor <= |blocks|
    {
      if |blocks| < n then None
      else if n <= cursor then Some(this.(blocks := blocks[n..], cursor := cursor - n))
      else Some(this.(blocks := blocks[n..], cursor := 0,
                      pendingBytes := pendingBytes - SumBytes(blocks[..n - cursor])))
    }

    function PruneChannels(k: nat): Option<Manager> {
      if |queue| < k then None
      else Some(this.(queue := queue[k..],
                      current := if current.Some? && current.value in queue[..k] then None else current))
    }
  }

  /** The first channel of the queue that has transaction data. */
  function FirstWithTxData(chans: map<ChId, Chan>, queue: seq<ChId>): (r: Option<ChId>)
    requires forall id | id in queue :: id in chans
    ensures r.Some? ==> r.value in queue
  {
    if queue == [] then None
    else if chans[queue[0]].HasTxData() then Some(queue[0])
    else FirstWithTxData(chans, queue[1..])
  }

  /** The index of `id`, or 0 if it is not there. */
  function IndexOrZero(queue: seq<ChId>, id: ChId): (r: nat)
    ensures r <= |queue|
    ensures id in queue ==> r < |queue| && queue[r] == id && id !in queue[..r]
    ensures id !in queue ==> r == 0
  {
    if id !in queue then 0
    else if queue[0] == id then 0
    else IndexOrZero(queue[1..], id) + 1
  }

  lemma {:induction false} AddBlocksShape(c: Chan, bs: seq<Block>)
    ensures var c' := AddBlocks(c, bs).0;
            c'.id == c.id && c'.cfg == c.cfg && c'.frames == c.frames && c'.frameCursor == c.frameCursor
    decreases |bs|
  {
    if bs != [] {
      var (c1, o) := c.AddBlock(bs[0]);
      if o == Added && !c1.IsFull() {
        AddBlocksShape(c1, bs[1..]);
      }
    }
  }

  lemma {:induction false} DrainShape(c: Chan)
    requires c.cfg.Usable() && c.closed
    ensures var c' := c.Drain();
            c'.id == c.id && c'.cfg == c.cfg && c'.frameCursor == c.frameCursor && |c'.frames| >= |c.frames|
    decreases c.ready
  {
    var (c1, last) := c.OutputFrame();
    if !last {
      DrainShape(c1);
    }
  }

  lemma {:induction false} OutputReadyFramesShape(c: Chan)
    requires c.cfg.Usable()
    ensures var c' := c.OutputReadyFrames();
            c'.id == c.id && c'.cfg == c.cfg && c'.frameCursor == c.frameCursor && |c'.frames| >= |c.frames|
    decreases c.ready
  {
    if c.ready + FRAME_OVERHEAD >= c.cfg.maxFrameSize {
      var (c1, last) := c.OutputFrame();
      if !last {
        OutputReadyFramesShape(c1);
      }
    }
  }

  lemma OutputFramesShape(c: Chan)
    requires c.cfg.Usable()
    ensures var c' := c.OutputFrames().0;
            c'.id == c.id && c'.cfg == c.cfg && c'.frameCursor == c.frameCursor && |c'.frames| >= |c.frames|
  {
    if !c.IsFull() {
      OutputReadyFramesShape(c);
    } else if !c.closed {
      DrainShape(c.(closed := true, ready := c.ready + c.comp.flush));
    }
  }
}
