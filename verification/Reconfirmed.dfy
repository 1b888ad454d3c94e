/** A transaction that was confirmed can be sent and confirmed again: when an earlier one fails, all
    frames from its first one on are sent again. The record of confirmed transactions then forgets
    the first inclusion block, but the timeout test does not. */
module Reconfirmed {
  import opened Chain
  import opened Frames
  import opened Options
  import opened ChannelSpec
  import opened ChannelProofs

  const CFG := Config(3600, 50, 0, 10, 24, 1, 0, false)
  const BLOCK := Block(Digest(Block(NoHash, 0, 0, 70, 0)), 1, 1, 70, 0)

  function Piece(i: nat): Frame { Frame(FrameId(1, i), 24) }

  function Tx(i: nat): TxData { TxData([Piece(i)], false) }

  function Key(i: nat): TxId { [FrameId(1, i)] }

  /** A channel that took a block, which gave it two frames of one byte each. */
  function Two(): Chan {
    NewChan(1, Compressor([Accepted(2, true)], 0), CFG, 0).AddBlock(BLOCK).0.OutputFrames().0
  }

  lemma TwoIs()
    ensures var c := Two();
            && c.id == 1 && c.cfg == CFG && c.frames == [Piece(0), Piece(1)] && c.frameCursor == 0 && c.IsFull()
            && c.closed && c.pending == map[] && c.confirmed == map[] && c.inclusions == []
            && c.minInclusion == TWO64 - 1 && c.maxInclusion == 0
  {
    var c0 := NewChan(1, Compressor([Accepted(2, true)], 0), CFG, 0).AddBlock(BLOCK).0;
    var c1 := c0.(closed := true);
    var c2 := c1.OutputFrame().0;
    assert c1.OutputFrame() == (c2, false) && c2.ready == 1 && c2.frames == [Piece(0)];
    var c3 := c2.OutputFrame().0;
    assert c2.OutputFrame() == (c3, true) && c3.frames == [Piece(0), Piece(1)];
    assert c2.Drain() == c3;
    assert c1.Drain() == c3;
  }

  /** What matters of a channel with these two frames. */
  ghost predicate Looks(c: Chan, cursor: nat, pending: map<TxId, TxData>, confirmed: map<TxId, nat>,
                        inclusions: seq<nat>) {
    && c.id == 1 && c.cfg == CFG && c.frames == [Piece(0), Piece(1)] && c.IsFull() && c.frameCursor == cursor
    && c.pending == pending && c.confirmed == confirmed && c.inclusions == inclusions
  }

  lemma Sends(c: Chan, i: nat, pending: map<TxId, TxData>, confirmed: map<TxId, nat>, inclusions: seq<nat>)
    requires i < 2 && Looks(c, i, pending, confirmed, inclusions)
    ensures Looks(c.NextTxData().0, i + 1, pending[Key(i) := Tx(i)], confirmed, inclusions)
  {
    assert c.frames[i..i + 1] == [Piece(i)];
    assert Tx(i).Id() == Key(i);
  }

  lemma Confirms(c: Chan, cursor: nat, i: nat, n: nat, pending: map<TxId, TxData>, confirmed: map<TxId, nat>,
                 inclusions: seq<nat>)
    requires Looks(c, cursor, pending, confirmed, inclusions) && Key(i) in pending
    ensures Looks(c.TxConfirmed(Key(i), n).0, cursor, pending - {Key(i)}, confirmed[Key(i) := n], inclusions + [n])
  {
  }

  lemma FirstFails(c: Chan, pending: map<TxId, TxData>, confirmed: map<TxId, nat>, inclusions: seq<nat>)
    requires Looks(c, 2, pending, confirmed, inclusions) && Key(0) in pending && pending[Key(0)] == Tx(0)
    ensures c.TxFailed(Key(0)).Some?
    ensures Looks(c.TxFailed(Key(0)).value, 0, pending - {Key(0)}, confirmed, inclusions)
  {
  }

  // ---- The run ----

  datatype Op = Send | Fail(k: TxId) | Confirm(k: TxId, n: BlockNum)

  function Do(c: Chan, op: Op): Option<Chan> {
    match op
    case Send => if c.cfg.Check() && c.frameCursor <= |c.frames| && c.HasTxData() then Some(c.NextTxData().0) else None
    case Fail(k) => c.TxFailed(k)
    case Confirm(k, n) => Some(c.TxConfirmed(k, n).0)
  }

  ghost predicate Leads(c: Chan, ops: seq<Op>, c': Chan)
    decreases |ops|
  {
    if ops == [] then c' == c else Do(c, ops[0]).Some? && Leads(Do(c, ops[0]).value, ops[1..], c')
  }

  /** Both frames are sent; the second is confirmed in block 100, the first fails; both are sent
      again; the first is confirmed in block 140. */
  function Ops(): seq<Op> {
    [Send, Send, Confirm(Key(1), 100), Fail(Key(0)), Send, Send, Confirm(Key(0), 140)]
  }

  lemma Again() returns (c: Chan)
    ensures Leads(Two(), Ops(), c)
    ensures Looks(c, 2, map[Key(1) := Tx(1)], map[Key(1) := 100, Key(0) := 140], [100, 140])
  {
    hide Leads, Two, Tx, Looks, Do;
    TwoIs();
    LooksIs(Two());
    var c4 := FirstRound(Two());
    c := SecondRound(c4);
    LeadsThen(Two(), Ops()[..4], c4, Ops()[4..], c);
    assert Ops() == Ops()[..4] + Ops()[4..];
  }

  lemma LooksIs(c: Chan)
    requires c.id == 1 && c.cfg == CFG && c.frames == [Piece(0), Piece(1)] && c.IsFull() && c.frameCursor == 0
    requires c.pending == map[] && c.confirmed == map[] && c.inclusions == []
    ensures Looks(c, 0, map[], map[], [])
  {
  }

  lemma BothSent(c: Chan, confirmed: map<TxId, nat>, inclusions: seq<nat>) returns (c': Chan)
    requires Looks(c, 0, map[], confirmed, inclusions)
    ensures Leads(c, [Send, Send], c')
    ensures Looks(c', 2, map[Key(0) := Tx(0), Key(1) := Tx(1)], confirmed, inclusions)
  {
    hide Chan.NextTxData, Tx, Leads;
    Sends(c, 0, map[], confirmed, inclusions);
    var c1 := c.NextTxData().0;
    Sends(c1, 1, map[Key(0) := Tx(0)], confirmed, inclusions);
    c' := c1.NextTxData().0;
    assert map[][Key(0) := Tx(0)][Key(1) := Tx(1)] == map[Key(0) := Tx(0), Key(1) := Tx(1)];
    LeadsNone(c');
    LeadsOne(c1, [Send], c');
    assert [Send, Send][1..] == [Send];
    LeadsOne(c, [Send, Send], c');
  }

  lemma FirstRound(c: Chan) returns (c': Chan)
    requires Looks(c, 0, map[], map[], [])
    ensures Leads(c, Ops()[..4], c') && Looks(c', 0, map[], map[Key(1) := 100], [100])
  {
    hide Chan.NextTxData, Chan.TxConfirmed, Chan.TxFailed, Tx, Leads, Looks;
    var both := map[Key(0) := Tx(0), Key(1) := Tx(1)];
    var c2 := BothSent(c, map[], []);
    Confirms(c2, 2, 1, 100, both, map[], []);
    var c3 := c2.TxConfirmed(Key(1), 100).0;
    assert both - {Key(1)} == map[Key(0) := Tx(0)] && [] + [100] == [100];
    FirstFails(c3, map[Key(0) := Tx(0)], map[Key(1) := 100], [100]);
    c' := c3.TxFailed(Key(0)).value;
    assert map[Key(0) := Tx(0)] - {Key(0)} == map[];
    LeadsNone(c');
    LeadsOne(c3, [Fail(Key(0))], c');
    assert [Confirm(Key(1), 100), Fail(Key(0))][1..] == [Fail(Key(0))];
    LeadsOne(c2, [Confirm(Key(1), 100), Fail(Key(0))], c');
    LeadsThen(c, [Send, Send], c2, [Confirm(Key(1), 100), Fail(Key(0))], c');
    assert Ops()[..4] == [Send, Send] + [Confirm(Key(1), 100), Fail(Key(0))];
  }

  lemma SecondRound(c: Chan) returns (c': Chan)
    requires Looks(c, 0, map[], map[Key(1) := 100], [100])
    ensures Leads(c, Ops()[4..], c')
    ensures Looks(c', 2, map[Key(1) := Tx(1)], map[Key(1) := 100, Key(0) := 140], [100, 140])
  {
    hide Chan.NextTxData, Chan.TxConfirmed, Chan.TxFailed, Tx, Leads, Looks;
    var both := map[Key(0) := Tx(0), Key(1) := Tx(1)];
    var c2 := BothSent(c, map[Key(1) := 100], [100]);
    Confirms(c2, 2, 0, 140, both, map[Key(1) := 100], [100]);
    c' := c2.TxConfirmed(Key(0), 140).0;
    assert both - {Key(0)} == map[Key(1) := Tx(1)] && [100] + [140] == [100, 140];
    assert map[Key(1) := 100][Key(0) := 140] == map[Key(1) := 100, Key(0) := 140];
    LeadsNone(c');
    LeadsOne(c2, [Confirm(Key(0), 140)], c');
    LeadsThen(c, [Send, Send], c2, [Confirm(Key(0), 140)], c');
    assert Ops()[4..] == [Send, Send] + [Confirm(Key(0), 140)];
  }

  lemma {:induction false} LeadsThen(c: Chan, ops: seq<Op>, c1: Chan, more: seq<Op>, c': Chan)
    requires Leads(c, ops, c1) && Leads(c1, more, c')
    ensures Leads(c, ops + more, c')
    decreases |ops|
  {
    hide Do;
    if ops == [] {
      assert ops + more == more;
    } else {
      LeadsThen(Do(c, ops[0]).value, ops[1..], c1, more, c');
      assert (ops + more)[1..] == ops[1..] + more;
    }
  }

  lemma LeadsNone(c: Chan)
    ensures Leads(c, [], c)
  {
  }

  lemma LeadsOne(c: Chan, ops: seq<Op>, c': Chan)
    requires ops != [] && Do(c, ops[0]).Some? && Leads(Do(c, ops[0]).value, ops[1..], c')
    ensures Leads(c, ops, c')
  {
  }

  /** Every frame is confirmed, but one of them is under way again, so the channel does not count as
      submitted. */
  lemma ConfirmedButPending() returns (c: Chan)
    ensures Leads(Two(), Ops(), c)
    ensures (forall i | 0 <= i < |c.frames| :: Confirmed(c, i)) && !c.IsFullySubmitted()
  {
    hide Leads, Two, Tx;
    c := Again();
    assert Key(0) in c.confirmed && FrameId(c.id, 0) in Key(0);
    assert Key(1) in c.confirmed && FrameId(c.id, 1) in Key(1);
    assert Key(1) in c.pending;
  }

  /** When that is confirmed, too, in block 151, the channel has timed out, by 51 blocks, although
      the transactions on record as confirmed are 11 blocks apart and the timeout is 50. */
  lemma TimesOutOffRecord() returns (c: Chan)
    ensures Leads(Two(), Ops(), c) && Key(1) in c.pending && Key(1) in c.confirmed
    ensures c.TxConfirmed(Key(1), 151).1
    ensures !ApartInMap(c.confirmed[Key(1) := 151], c.cfg.channelTimeout)
  {
    hide Leads, Two, Tx, ChanInv, Chan.TxConfirmed, Apart, ApartInMap;
    c := Again();
    InvAlong(c);
    TimesOutExactly(c, Key(1), 151);
    Numbers();
    assert c.confirmed[Key(1) := 151] == map[Key(1) := 151, Key(0) := 140];
  }

  lemma Numbers()
    ensures Apart([100, 140] + [151], 50)
    ensures !ApartInMap(map[Key(1) := 151, Key(0) := 140], 50)
  {
    var xs: seq<nat> := [100, 140] + [151];
    assert xs[0] == 100 && xs[2] == 151;
    assert 100 in xs && 151 in xs;
  }

  lemma InvAlong(c: Chan)
    requires Leads(Two(), Ops(), c)
    ensures ChanInv(c)
  {
    hide ChanInv, Leads, Two;
    TwoInv();
    LeadsKeeps(Two(), Ops(), c);
  }

  lemma TwoInv()
    ensures ChanInv(Two())
  {
    hide ChanInv, Chan.OutputFrames, Chan.AddBlock, NewChan, Compressor.Answer, Compressor.Next;
    NewChanInv(1, Compressor([Accepted(2, true)], 0), CFG, 0);
    NewIs();
    TakenInv(NewChan(1, Compressor([Accepted(2, true)], 0), CFG, 0), BLOCK);
  }

  lemma NewIs()
    ensures var c := NewChan(1, Compressor([Accepted(2, true)], 0), CFG, 0); c.blocks == [] && !c.closed && c.cfg == CFG
  {
  }

  lemma TakenInv(c: Chan, b: Block)
    requires ChanInv(c) && b.WellFormed() && c.blocks == [] && !c.closed
    ensures c.AddBlock(b).0.cfg.Usable() && ChanInv(c.AddBlock(b).0.OutputFrames().0)
  {
    hide FramesOk, PendingOk, NoFrameLost, BlocksOk, OriginOk, DeadlinesOk, InclusionOk, Chan.OutputFrames,
      Chan.AddBlock;
    AddBlockInv(c, b);
    OutputFramesInv(c.AddBlock(b).0);
  }

  lemma {:induction false} LeadsKeeps(c: Chan, ops: seq<Op>, c': Chan)
    requires ChanInv(c) && Leads(c, ops, c')
    ensures ChanInv(c')
    decreases |ops|
  {
    hide ChanInv, Chan.NextTxData, Chan.TxConfirmed, Chan.TxFailed, Chan.HasTxData;
    if ops != [] {
      match ops[0] {
        case Send => NextTxDataInv(c);
        case Fail(k) => TxFailedInv(c, k);
        case Confirm(k, n) => TxConfirmedInv(c, k, n);
      }
      LeadsKeeps(Do(c, ops[0]).value, ops[1..], c');
    }
  }
}
