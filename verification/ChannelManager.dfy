/** The channel manager as the batcher holds it: queues, a cursor and lookups, over channel
    objects that its methods change in place. A reference to a channel is its ID. Each method
    is proved against the value-level operation. */
module ChannelManagerObject {
  import opened Chain
  import opened Frames
  import opened Options
  import opened ChannelSpec
  import opened ManagerSpec
  import opened ChannelObject

  /** Channels are stored under their IDs; `repr` are all the objects. */
  ghost predicate IsStore(store: map<ChId, Channel>, repr: set<Channel>) {
    forall id | id in store :: store[id].id == id && store[id] in repr
  }

  /** The values of the channels in a store. */
  ghost function Views(store: map<ChId, Channel>, repr: set<Channel>): (r: map<ChId, Chan>)
    requires IsStore(store, repr)
    reads repr
    ensures r.Keys == store.Keys
  {
    map id | id in store :: store[id].View()
  }

  lemma ViewAt(store: map<ChId, Channel>, repr: set<Channel>, id: ChId)
    requires IsStore(store, repr) && id in store
    ensures id in Views(store, repr) && Views(store, repr)[id] == store[id].View()
    ensures store[id].id == id && store[id] in repr
  {
  }

  lemma WFLookup(m: Manager, k: TxId)
    requires m.WF() && k in m.txChannels
    ensures m.txChannels[k] in m.chans
  {
  }

  lemma WFCursor(m: Manager)
    requires m.WF()
    ensures m.cursor <= |m.blocks|
  {
  }

  lemma WFChan(m: Manager, id: ChId)
    requires m.WF() && id in m.chans
    ensures m.chans[id].cfg.Usable() && m.chans[id].frameCursor <= |m.chans[id].frames|
  {
  }

  lemma WFCurrent(m: Manager)
    requires m.WF() && m.current.Some?
    ensures m.current.value in m.chans && m.chans[m.current.value].cfg.Usable()
  {
  }

  lemma OnlyAdded(store: map<ChId, Channel>, repr: set<Channel>, id: ChId, before: map<ChId, Chan>)
    requires IsStore(store, repr) && id in store && store.Keys == before.Keys + {id}
    requires forall x | x in store && x != id :: store[x].View() == before[x]
    ensures Views(store, repr) == before[id := store[id].View()]
  {
  }

  // What some of the operations come to, field by field.

  lemma ClearIs(m: Manager, m': Manager, l1Origin: nat)
    requires m'.blocks == [] && m'.cursor == 0 && m'.l1OriginLast == l1Origin && m'.tip == NoHash
    requires m'.current == None && m'.queue == [] && m'.txChannels == map[] && m'.pendingBytes == 0
    requires m'.chans == m.chans && m'.cfg == m.cfg
    ensures m' == m.Clear(l1Origin)
  {
  }

  lemma TxDataCases(m: Manager, head: nat, newCfg: Config, pi: PubInfo, out1: Option<NewOut>, out2: Option<NewOut>)
    requires m.WF() && newCfg.Usable()
    ensures var (m0, r) := m.GetReadyChannel(head, pi, out1);
            var res := m.TxData(head, newCfg, pi, out1, out2);
            && (r == NotReady ==> res == Some((m0, NoData)))
            && (r == ReadyError ==> res == Some((m0, TxError)))
            && (r.Ready? && (!m0.chans[r.id].NoneSubmitted() || newCfg.useBlobs == m0.cfg.useBlobs) ==>
                  res == Some(m0.NextTxData(r.id)))
            && (r.Ready? && m0.chans[r.id].NoneSubmitted() && newCfg.useBlobs != m0.cfg.useBlobs ==>
                  res == m0.SwitchType(r.id, head, newCfg, pi, out2))
  {
    hide Manager.WF, Manager.GetReadyChannel, Manager.NextTxData, Manager.SwitchType;
  }

  lemma ProcessIs(m: Manager, m': Manager, c: Chan, n: nat, ok: bool)
    requires m.WF() && m.current.Some? && m.cursor + n <= |m.blocks|
    requires AddBlocks(m.chans[m.current.value], m.blocks[m.cursor..]) == (c, n, ok)
    requires m' == m.(cursor := m.cursor + n, chans := m.chans[c.id := c],
                      pendingBytes := m.pendingBytes - SumBytes(m.blocks[m.cursor..][..n]))
    ensures m.ProcessBlocks() == (m', ok)
  {
    hide AddBlocks, Manager.WF;
  }

  lemma NoNextIs(m: Manager, id: ChId)
    requires m.WF() && id in m.chans && !m.chans[id].HasTxData()
    ensures m.NextTxData(id) == (m, NoData)
  {
  }

  lemma NextIs(m: Manager, m': Manager, id: ChId, c: Chan, tx: TxData)
    requires m.WF() && id in m.chans && m.chans[id].HasTxData() && (c, tx) == m.chans[id].NextTxData() && c.id == id
    requires m'.blocks == m.blocks && m'.cursor == m.cursor && m'.cfg == m.cfg && m'.tip == m.tip
    requires m'.current == m.current && m'.queue == m.queue && m'.pendingBytes == m.pendingBytes
    requires m'.l1OriginLast == if c.latestL1Origin > m.l1OriginLast then c.latestL1Origin else m.l1OriginLast
    requires m'.chans == m.chans[id := c] && m'.txChannels == m.txChannels[tx.Id() := id]
    ensures m.NextTxData(id) == (m', Data(tx, id))
  {
    hide Manager.WF, Chan.NextTxData, Chan.HasTxData;
  }

  lemma EnsureCases(m: Manager, out: Option<NewOut>)
    requires m.WF()
    ensures m.current.Some? && !m.chans[m.current.value].IsFull() ==> m.EnsureChannelWithSpace(out) == Some(m)
    ensures (m.current.None? || m.chans[m.current.value].IsFull()) && out.None? ==>
              m.EnsureChannelWithSpace(out) == None
  {
  }

  lemma NewIs(m: Manager, m': Manager, out: NewOut)
    requires m.WF() && (m.current.Some? ==> m.chans[m.current.value].IsFull())
    requires m'.blocks == m.blocks && m'.cursor == m.cursor && m'.cfg == m.cfg && m'.tip == m.tip
    requires m'.txChannels == m.txChannels && m'.pendingBytes == m.pendingBytes && m'.l1OriginLast == m.l1OriginLast
    requires m'.current == Some(out.id) && m'.queue == m.queue + [out.id]
    requires m'.chans == m.chans[out.id := NewChan(out.id, out.comp, m.cfg, m.l1OriginLast)]
    ensures m.EnsureChannelWithSpace(Some(out)) == Some(m')
  {
  }

  lemma InvalidateWF(m: Manager, id: ChId, newCfg: Config)
    requires m.WF() && id in m.chans && newCfg.Usable()
    ensures m.Invalidate(id).Some? ==> m.Invalidate(id).value.(cfg := newCfg).WF()
  {
  }

  /** The values of the channels after only the channel `id` changed. */
  lemma OnlyChanged(store: map<ChId, Channel>, repr: set<Channel>, id: ChId, before: map<ChId, Chan>)
    requires IsStore(store, repr) && id in store && before.Keys == store.Keys
    requires forall x | x in store && x != id :: store[x].View() == before[x]
    ensures Views(store, repr) == before[id := store[id].View()]
  {
  }

  class ChannelManager {
    var blocks: seq<Block>
    var blockCursor: nat
    var l1OriginLastSubmittedChannel: nat
    var defaultCfg: Config
    var tip: Hash
    var currentChannel: Option<ChId>
    var channelQueue: seq<ChId>
    var txChannels: map<TxId, ChId>
    var pendingDABytes: int
    /** Every channel that was ever opened. */
    var store: map<ChId, Channel>
    ghost var repr: set<Channel>

    ghost predicate Valid()
      reads this
    {
      IsStore(store, repr)
    }

    ghost function View(): Manager
      requires Valid()
      reads this, repr
    {
      Manager(blocks, blockCursor, l1OriginLastSubmittedChannel, defaultCfg, tip,
              currentChannel, channelQueue, Views(store, repr), txChannels, pendingDABytes)
    }

    constructor (cfg: Config)
      ensures Valid() && repr == {}
      ensures View() == Manager([], 0, 0, cfg, NoHash, None, [], map[], map[], 0)
    {
      blocks, blockCursor, l1OriginLastSubmittedChannel, defaultCfg, tip := [], 0, 0, cfg, NoHash;
      currentChannel, channelQueue, txChannels, pendingDABytes, store, repr := None, [], map[], 0, map[], {};
    }

    method Clear(l1Origin: nat)
      requires Valid()
      modifies this
      ensures Valid() && repr == old(repr) && View() == old(View()).Clear(l1Origin)
    {
      hide Views, Manager.Clear;
      ghost var m := View();
      blocks, blockCursor, l1OriginLastSubmittedChannel, tip := [], 0, l1Origin, NoHash;
      currentChannel, channelQueue, txChannels, pendingDABytes := None, [], map[], 0;
      ClearIs(m, View(), l1Origin);
    }

    /** The flag is false for a reorg error. */
    method AddL2Block(b: Block) returns (ok: bool)
      requires Valid()
      modifies this
      ensures Valid() && repr == old(repr) && (View(), ok) == old(View()).AddL2Block(b)
    {
      hide Views;
      if tip != NoHash && tip != b.parent {
        return false;
      }
      pendingDABytes := pendingDABytes + b.daBytes;
      blocks := blocks + [b];
      tip := Digest(b);
      return true;
    }

    /** The flag is false if it panics. */
    method TxFailed(txId: TxId) returns (ok: bool)
      requires Valid() && View().WF()
      modifies this, repr
      ensures ok <==> old(View()).TxFailed(txId).Some?
      ensures ok ==> Valid() && repr == old(repr) && View() == old(View()).TxFailed(txId).value
    {
      hide Manager.WF, Chan.TxFailed;
      ghost var before := Views(store, repr);
      if txId in txChannels {
        var id := txChannels[txId];
        WFLookup(View(), txId);
        txChannels := txChannels - {txId};
        ok := store[id].TxFailed(txId);
        if ok {
          OnlyChanged(store, repr, id, before);
        }
      } else {
        ok := true;
      }
    }

    /** The flag is false if it panics. */
    method RewindToBlock(b: Block) returns (ok: bool)
      requires Valid() && blockCursor <= |blocks|
      modifies `blockCursor, `pendingDABytes
      ensures ok <==> old(View()).RewindToBlock(b).Some?
      ensures ok ==> View() == old(View()).RewindToBlock(b).value
    {
      hide Views;
      if |blocks| == 0 {
        return false;
      }
      var initialCursor := blockCursor;
      var idx := Sub64(b.number, blocks[0].number);
      if idx < |blocks| && blocks[idx] == b && idx < blockCursor {
        blockCursor := idx;
      } else {
        return false;
      }
      var i := initialCursor;
      while i > blockCursor
        invariant idx <= i <= initialCursor && blockCursor == idx
        invariant pendingDABytes == old(pendingDABytes) + SumBytes(blocks[i..initialCursor])
      {
        i := i - 1;
        assert blocks[i..initialCursor][1..] == blocks[i + 1..initialCursor];
        pendingDABytes := pendingDABytes + blocks[i].daBytes;
      }
      return true;
    }

    /** The index of the channel in the queue, or 0. */
    method FindChannel(id: ChId) returns (idx: nat)
      ensures idx == IndexOrZero(channelQueue, id)
    {
      idx := 0;
      var j := 0;
      while j < |channelQueue|
        invariant 0 <= j <= |channelQueue| && idx == 0
        invariant forall k | 0 <= k < j :: channelQueue[k] != id
      {
        if channelQueue[j] == id {
          idx := j;
          break;
        }
        j := j + 1;
      }
      IndexFound(channelQueue, id, idx);
    }

    /** Drops the channels from index `lo` on, with their transactions. */
    method TrimChannels(lo: nat)
      requires Valid() && lo <= |channelQueue|
      modifies `channelQueue, `currentChannel, `txChannels
      ensures View() == old(View()).DropFrom(lo)
    {
      hide Views;
      var i := lo;
      while i < |channelQueue|
        modifies `txChannels
        invariant lo <= i <= |channelQueue|
        invariant txChannels == WithoutTxsOf(old(txChannels), channelQueue[lo..i])
      {
        WithoutOneMore(old(txChannels), channelQueue, lo, i);
        txChannels := map k | k in txChannels && txChannels[k] != channelQueue[i] :: txChannels[k];
        i := i + 1;
      }
      assert channelQueue[lo..i] == channelQueue[lo..];
      channelQueue := channelQueue[..lo];
      currentChannel := None;
    }

    /** The flag is false if it panics. */
    method HandleChannelInvalidated(id: ChId) returns (ok: bool)
      requires Valid() && blockCursor <= |blocks| && id in store
      modifies `blockCursor, `pendingDABytes, `channelQueue, `currentChannel, `txChannels
      ensures ok <==> old(View()).Invalidate(id).Some?
      ensures ok ==> View() == old(View()).Invalidate(id).value
    {
      hide Views, Manager.RewindToBlock, Manager.DropFrom;
      ViewAt(store, repr, id);
      var c := store[id];
      if |c.blocks| > 0 {
        ok := RewindToBlock(c.blocks[0]);
        if !ok {
          return false;
        }
      }
      var invalidatedChannelIdx := FindChannel(id);
      TrimChannels(invalidatedChannelIdx);
      return true;
    }

    method TxConfirmed(txId: TxId, inclusion: nat) returns (ok: bool)
      requires Valid() && View().WF()
      modifies this, repr
      ensures ok <==> old(View()).TxConfirmed(txId, inclusion).Some?
      ensures ok ==> Valid() && repr == old(repr) && View() == old(View()).TxConfirmed(txId, inclusion).value
    {
      hide Manager.WF, Chan.TxConfirmed, Manager.Invalidate;
      ghost var before := Views(store, repr);
      if txId in txChannels {
        var id := txChannels[txId];
        WFLookup(View(), txId);
        WFCursor(View());
        txChannels := txChannels - {txId};
        var timedOut := store[id].TxConfirmed(txId, inclusion);
        OnlyChanged(store, repr, id, before);
        hide Views;
        if timedOut {
          ok := HandleChannelInvalidated(id);
        } else {
          ok := true;
        }
      } else {
        ok := true;
      }
    }

    method NextTxData(id: ChId) returns (r: TxResult)
      requires Valid() && View().WF() && id in store
      modifies `l1OriginLastSubmittedChannel, `txChannels, repr
      ensures (View(), r) == old(View()).NextTxData(id)
    {
      hide Manager.WF, Chan.NextTxData, Chan.HasTxData, Manager.NextTxData, Views, Channel.View;
      ghost var m := View();
      WFChan(m, id);
      ViewAt(store, repr, id);
      if !store[id].HasTxData() {
        NoNextIs(m, id);
        return NoData;
      }
      var tx, l1Origin := TakeFrames(id);
      if l1Origin > l1OriginLastSubmittedChannel {
        l1OriginLastSubmittedChannel := l1Origin;
      }
      txChannels := txChannels[tx.Id() := id];
      NextIs(m, View(), id, m.chans[id].NextTxData().0, tx);
      return Data(tx, id);
    }

    /** The next frames of a channel, and its latest L1 origin. */
    method TakeFrames(id: ChId) returns (tx: TxData, l1Origin: nat)
      requires Valid() && id in store
      requires Views(store, repr)[id].cfg.Check()
      requires Views(store, repr)[id].frameCursor <= |Views(store, repr)[id].frames|
      modifies repr
      ensures var (c, t) := old(Views(store, repr))[id].NextTxData();
              Views(store, repr) == old(Views(store, repr))[id := c] && tx == t
              && l1Origin == c.latestL1Origin && c.id == id
    {
      hide Chan.NextTxData;
      ghost var before := Views(store, repr);
      ViewAt(store, repr, id);
      var c := store[id];
      tx := c.NextTxData();
      l1Origin := c.latestL1Origin;
      OnlyChanged(store, repr, id, before);
    }

    method ForceClose(pi: PubInfo) returns (ok: bool)
      requires Valid() && View().WF()
      modifies repr
      ensures (View(), ok) == old(View()).ForceClose(pi)
    {
      hide Manager.WF, Chan.OutputFrames, Chan.Close;
      ghost var before := Views(store, repr);
      if currentChannel != None {
        WFCurrent(View());
        ViewAt(store, repr, currentChannel.value);
        var c := store[currentChannel.value];
        if pi.forcePublish && |c.frames| == 0 {
          c.Close();
          ok := c.OutputFrames();
          OnlyChanged(store, repr, currentChannel.value, before);
          hide Views;
          return;
        }
      }
      return true;
    }

    /** The flag is false if the factory fails. */
    method EnsureChannelWithSpace(out: Option<NewOut>) returns (ok: bool)
      requires Valid() && View().WF()
      modifies `store, `repr, `currentChannel, `channelQueue
      ensures Valid() && fresh(repr - old(repr)) && old(repr) <= repr
      ensures ok <==> old(View()).EnsureChannelWithSpace(out).Some?
      ensures View() == if ok then old(View()).EnsureChannelWithSpace(out).value else old(View())
    {
      hide Manager.WF, Manager.EnsureChannelWithSpace, NewChan, Views;
      EnsureCases(View(), out);
      if currentChannel != None {
        WFCurrent(View());
        ViewAt(store, repr, currentChannel.value);
        if !store[currentChannel.value].IsFull() {
          return true;
        }
      }
      if out == None {
        return false;
      }
      ghost var m := View();
      OpenChannel(out.value);
      NewIs(m, View(), out.value);
      return true;
    }

    method OpenChannel(out: NewOut)
      requires Valid()
      modifies `store, `repr, `currentChannel, `channelQueue
      ensures Valid() && fresh(repr - old(repr)) && old(repr) <= repr
      ensures channelQueue == old(channelQueue) + [out.id] && currentChannel == Some(out.id)
      ensures Views(store, repr)
           == old(Views(store, repr))[out.id := NewChan(out.id, out.comp, defaultCfg, l1OriginLastSubmittedChannel)]
    {
      hide NewChan;
      ghost var before := Views(store, repr);
      var pc := new Channel(out.id, out.comp, defaultCfg, l1OriginLastSubmittedChannel);
      store, repr, currentChannel, channelQueue :=
        store[pc.id := pc], repr + {pc}, Some(pc.id), channelQueue + [pc.id];
      OnlyAdded(store, repr, pc.id, before);
    }

    /** Adds waiting blocks to channel `c` until it is full, or fails. */
    method AddPending(c: Channel) returns (blocksAdded: nat, ok: bool)
      requires blockCursor <= |blocks|
      modifies `pendingDABytes, c
      ensures (c.View(), blocksAdded, ok) == AddBlocks(old(c.View()), blocks[blockCursor..])
      ensures blockCursor + blocksAdded <= |blocks|
      ensures pendingDABytes == old(pendingDABytes) - SumBytes(blocks[blockCursor..][..blocksAdded])
    {
      hide Chan.AddBlock, AddBlocks;
      ghost var start := c.View();
      ghost var pend := blocks[blockCursor..];
      blocksAdded := 0;
      ok := true;
      var i := blockCursor;
      var more := true;
      ProgressStart(start, pend);
      while more && i < |blocks|
        invariant blockCursor <= i <= |blocks| && blocksAdded == i - blockCursor
        invariant pendingDABytes == old(pendingDABytes) - SumBytes(pend[..blocksAdded])
        invariant Progress(start, pend, blocksAdded, c.View(), more, ok) && (more ==> ok)
        decreases more, |blocks| - i
      {
        hide Progress;
        var b := blocks[i];
        assert b == pend[blocksAdded];
        ghost var was := c.View();
        var o := c.AddBlock(b);
        ProgressStep(start, pend, blocksAdded, was, c.View(), o);
        if o == Added {
          SumOneMore(pend, blocksAdded);
          blocksAdded := blocksAdded + 1;
          i := i + 1;
          pendingDABytes := pendingDABytes - b.daBytes;
          more := !c.IsFull();
        } else {
          more := false;
          ok := o != AddFailed;
        }
      }
      ProgressEnd(start, pend, blocksAdded, c.View(), more, ok);
    }

    /** Moves blocks into the current channel; the flag is false for an error. */
    method ProcessBlocks() returns (ok: bool)
      requires Valid() && View().WF() && currentChannel != None
      modifies `blockCursor, `pendingDABytes, repr
      ensures (View(), ok) == old(View()).ProcessBlocks()
    {
      hide Manager.WF, AddBlocks, Manager.ProcessBlocks, Views, Channel.View;
      ghost var m := View();
      WFCurrent(m);
      WFCursor(m);
      var blocksAdded: nat;
      ghost var c: Chan;
      blocksAdded, ok, c := AddToCurrent();
      blockCursor := blockCursor + blocksAdded;
      ProcessIs(m, View(), c, blocksAdded, ok);
    }

    /** The current channel becomes `c`. */
    method AddToCurrent() returns (blocksAdded: nat, ok: bool, ghost c: Chan)
      requires Valid() && View().WF() && currentChannel != None && currentChannel.value in store
      modifies `pendingDABytes, repr
      ensures (c, blocksAdded, ok) == AddBlocks(old(View()).chans[currentChannel.value], blocks[blockCursor..])
      ensures c.id == currentChannel.value && Views(store, repr) == old(Views(store, repr))[c.id := c]
      ensures blockCursor + blocksAdded <= |blocks|
      ensures pendingDABytes == old(pendingDABytes) - SumBytes(blocks[blockCursor..][..blocksAdded])
    {
      hide Manager.WF, AddBlocks;
      ghost var before := Views(store, repr);
      WFCursor(View());
      var id := currentChannel.value;
      ViewAt(store, repr, id);
      blocksAdded, ok := AddPending(store[id]);
      c := store[id].View();
      OnlyChanged(store, repr, id, before);
      hide Views;
    }

    /** Registers the L1 head with the current channel unless told not to, and creates frames. */
    method RegisterAndOutput(head: nat, pi: PubInfo) returns (ok: bool)
      requires Valid() && View().WF() && currentChannel != None
      modifies repr
      ensures (View(), ok) == old(View()).RegisterAndOutput(head, pi)
    {
      hide Manager.WF, Chan.OutputFrames, Chan.CheckTimeout;
      ghost var before := Views(store, repr);
      WFCurrent(View());
      ViewAt(store, repr, currentChannel.value);
      var c := store[currentChannel.value];
      if !pi.ignoreMaxChannelDuration {
        c.CheckTimeout(head);
      }
      ok := c.OutputFrames();
      OnlyChanged(store, repr, currentChannel.value, before);
      hide Views;
    }

    method FirstReady() returns (r: Option<ChId>)
      requires Valid() && (forall id | id in channelQueue :: id in store)
      ensures r == FirstWithTxData(Views(store, repr), channelQueue)
    {
      var i := 0;
      assert channelQueue[0..] == channelQueue;
      while i < |channelQueue|
        invariant 0 <= i <= |channelQueue|
        invariant FirstWithTxData(Views(store, repr), channelQueue[i..]) ==
                  FirstWithTxData(Views(store, repr), channelQueue)
      {
        ViewAt(store, repr, channelQueue[i]);
        if store[channelQueue[i]].HasTxData() {
          return Some(channelQueue[i]);
        }
        assert channelQueue[i..][1..] == channelQueue[i + 1..];
        i := i + 1;
      }
      return None;
    }

    method BuildChannel(head: nat, pi: PubInfo, out: Option<NewOut>) returns (r: ReadyResult)
      requires Valid() && View().WF()
      modifies `store, `repr, `currentChannel, `channelQueue, `blockCursor, `pendingDABytes, repr
      ensures Valid() && fresh(repr - old(repr)) && old(repr) <= repr
      ensures (View(), r) == old(View()).BuildChannel(head, pi, out)
    {
      hide Manager.WF, Manager.EnsureChannelWithSpace, Manager.ProcessBlocks, Manager.RegisterAndOutput, Views,
        Chan.HasTxData;
      var ok := EnsureChannelWithSpace(out);
      if !ok {
        return ReadyError;
      }
      ok := ProcessBlocks();
      if !ok {
        return ReadyError;
      }
      ok := RegisterAndOutput(head, pi);
      if !ok {
        return ReadyError;
      }
      WFCurrent(View());
      ViewAt(store, repr, currentChannel.value);
      if store[currentChannel.value].HasTxData() {
        return Ready(currentChannel.value);
      }
      return NotReady;
    }

    method GetReadyChannel(head: nat, pi: PubInfo, out: Option<NewOut>) returns (r: ReadyResult)
      requires Valid() && View().WF()
      modifies `store, `repr, `currentChannel, `channelQueue, `blockCursor, `pendingDABytes, repr
      ensures Valid() && fresh(repr - old(repr)) && old(repr) <= repr
      ensures (View(), r) == old(View()).GetReadyChannel(head, pi, out)
    {
      hide Manager.ForceClose, Manager.BuildChannel, Views, FirstWithTxData;
      var ok := ForceClose(pi);
      if !ok {
        return ReadyError;
      }
      var first := FirstReady();
      if first != None {
        return Ready(first.value);
      }
      if |blocks| - blockCursor == 0 {
        return NotReady;
      }
      r := BuildChannel(head, pi, out);
    }

    /** `panicked` is a panic; the rest is then void. */
    method TxData(head: nat, newCfg: Config, pi: PubInfo, out1: Option<NewOut>, out2: Option<NewOut>)
      returns (r: TxResult, panicked: bool)
      requires Valid() && View().WF() && newCfg.Usable()
      modifies this, repr
      ensures panicked <==> old(View()).TxData(head, newCfg, pi, out1, out2).None?
      ensures !panicked ==>
                && Valid() && fresh(repr - old(repr))
                && old(View()).TxData(head, newCfg, pi, out1, out2) == Some((View(), r))
    {
      hide Manager.WF, Manager.GetReadyChannel, Manager.NextTxData, Manager.SwitchType, Manager.TxData, Views;
      TxDataCases(View(), head, newCfg, pi, out1, out2);
      panicked := false;
      var ready := GetReadyChannel(head, pi, out1);
      if ready == NotReady {
        return NoData, false;
      }
      if ready == ReadyError {
        return TxError, false;
      }
      var id := ready.id;
      ViewAt(store, repr, id);
      if !store[id].NoneSubmitted() || newCfg.useBlobs == defaultCfg.useBlobs {
        r := NextTxData(id);
        return;
      }
      r, panicked := SwitchType(id, head, newCfg, pi, out2);
    }

    /** Rebuilds the channel with a new configuration. */
    method SwitchType(id: ChId, head: nat, newCfg: Config, pi: PubInfo, out: Option<NewOut>)
      returns (r: TxResult, panicked: bool)
      requires Valid() && View().WF() && newCfg.Usable() && id in store
      modifies this, repr
      ensures panicked <==> old(View()).SwitchType(id, head, newCfg, pi, out).None?
      ensures !panicked ==>
                && Valid() && fresh(repr - old(repr))
                && old(View()).SwitchType(id, head, newCfg, pi, out) == Some((View(), r))
    {
      hide Manager.WF, Manager.GetReadyChannel, Manager.NextTxData, Manager.Invalidate, Views;
      ViewAt(store, repr, id);
      WFCursor(View());
      InvalidateWF(View(), id, newCfg);
      var ok := HandleChannelInvalidated(id);
      if !ok {
        return NoData, true;
      }
      defaultCfg := newCfg;
      r := TryAgain(head, pi, out);
      panicked := false;
    }

    /** The data to send after the switch to a new configuration. */
    method TryAgain(head: nat, pi: PubInfo, out: Option<NewOut>) returns (r: TxResult)
      requires Valid() && View().WF()
      modifies this, repr
      ensures Valid() && fresh(repr - old(repr)) && old(repr) <= repr
      ensures var (m, ready) := old(View()).GetReadyChannel(head, pi, out);
              match ready
              case NotReady => View() == m && r == NoData
              case ReadyError => View() == m && r == TxError
              case Ready(id) => (View(), r) == m.NextTxData(id)
    {
      hide Manager.WF, Manager.GetReadyChannel, Manager.NextTxData, Views;
      var ready := GetReadyChannel(head, pi, out);
      if ready == NotReady {
        return NoData;
      }
      if ready == ReadyError {
        return TxError;
      }
      r := NextTxData(ready.id);
    }

    /** The flag is false if it panics. */
    method PruneSafeBlocks(n: nat) returns (ok: bool)
      requires Valid() && blockCursor <= |blocks|
      modifies `blocks, `blockCursor, `pendingDABytes
      ensures ok <==> old(View()).PruneSafeBlocks(n).Some?
      ensures ok ==> View() == old(View()).PruneSafeBlocks(n).value
    {
      hide Views;
      if |blocks| < n {
        return false;
      }
      var discarded := blocks[..n];
      blocks := blocks[n..];
      var cursor: int := blockCursor - n;
      if cursor < 0 {
        var i := 0;
        while i < -cursor
          invariant 0 <= i <= -cursor
          invariant pendingDABytes == old(pendingDABytes) - SumBytes(discarded[..i])
          invariant blocks == old(blocks)[n..]
        {
          SumOneMore(discarded, i);
          pendingDABytes := pendingDABytes - discarded[i].daBytes;
          i := i + 1;
        }
        assert discarded[..i] == old(blocks)[..n - old(blockCursor)];
        cursor := 0;
      }
      blockCursor := cursor;
      return true;
    }

    /** The flag is false if it panics. */
    method PruneChannels(n: nat) returns (ok: bool)
      requires Valid()
      modifies `channelQueue, `currentChannel
      ensures ok <==> old(View()).PruneChannels(n).Some?
      ensures ok ==> View() == old(View()).PruneChannels(n).value
    {
      hide Views;
      if |channelQueue| < n {
        return false;
      }
      var clearCurrentChannel := false;
      var i := 0;
      while i < n
        invariant 0 <= i <= n
        invariant clearCurrentChannel <==> currentChannel != None && currentChannel.value in channelQueue[..i]
      {
        assert channelQueue[..i + 1] == channelQueue[..i] + [channelQueue[i]];
        if currentChannel == Some(channelQueue[i]) {
          clearCurrentChannel := true;
        }
        i := i + 1;
      }
      channelQueue := channelQueue[n..];
      if clearCurrentChannel {
        currentChannel := None;
      }
      return true;
    }
  }

  /** The lookup without the transactions of some channels. */
  function WithoutTxsOf(txs: map<TxId, ChId>, ids: seq<ChId>): map<TxId, ChId> {
    map k | k in txs && txs[k] !in ids :: txs[k]
  }

  lemma WithoutOneMore(txs: map<TxId, ChId>, queue: seq<ChId>, lo: nat, i: nat)
    requires lo <= i < |queue|
    ensures var t := WithoutTxsOf(txs, queue[lo..i]);
            WithoutTxsOf(txs, queue[lo..i + 1]) == map k | k in t && t[k] != queue[i] :: t[k]
  {
    assert queue[lo..i + 1] == queue[lo..i] + [queue[i]];
  }

  lemma {:induction false} IndexFound(queue: seq<ChId>, id: ChId, i: nat)
    requires if id in queue then i < |queue| && queue[i] == id && forall k | 0 <= k < i :: queue[k] != id else i == 0
    ensures IndexOrZero(queue, id) == i
  {
    var r := IndexOrZero(queue, id);
    assert forall k | 0 <= k < r :: queue[..r][k] == queue[k];
  }

  /** After `n` of the blocks were added the channel is `c`; what is still to do from there
      leads to the same result as the whole. */
  ghost predicate Progress(start: Chan, bs: seq<Block>, n: nat, c: Chan, more: bool, ok: bool) {
    && n <= |bs|
    && if more
       then ok && (var (c', k, ok') := AddBlocks(c, bs[n..]); AddBlocks(start, bs) == (c', n + k, ok'))
       else AddBlocks(start, bs) == (c, n, ok)
  }

  lemma ProgressStart(start: Chan, bs: seq<Block>)
    ensures Progress(start, bs, 0, start, true, true) && SumBytes(bs[..0]) == 0
  {
    assert bs[0..] == bs;
  }

  lemma ProgressStep(start: Chan, bs: seq<Block>, n: nat, c: Chan, c': Chan, o: AddOutcome)
    requires n < |bs| && Progress(start, bs, n, c, true, true) && c.AddBlock(bs[n]) == (c', o)
    ensures if o == Added then Progress(start, bs, n + 1, c', !c'.IsFull(), true)
            else Progress(start, bs, n, c', false, o != AddFailed)
  {
    assert bs[n..][1..] == bs[n + 1..];
  }

  lemma ProgressEnd(start: Chan, bs: seq<Block>, n: nat, c: Chan, more: bool, ok: bool)
    requires Progress(start, bs, n, c, more, ok) && (more ==> n == |bs|)
    ensures AddBlocks(start, bs) == (c, n, ok)
  {
  }

  lemma SumOneMore(bs: seq<Block>, n: nat)
    requires n < |bs|
    ensures SumBytes(bs[..n + 1]) == SumBytes(bs[..n]) + bs[n].daBytes
  {
    assert bs[..n + 1] == bs[..n] + [bs[n]];
    SumBytesConcat(bs[..n], [bs[n]]);
    assert SumBytes([bs[n]]) == bs[n].daBytes + SumBytes([bs[n]][1..]);
  }
}
