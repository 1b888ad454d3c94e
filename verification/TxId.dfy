/** The text of a transaction ID, which the batcher uses as a map key. */
module TxIdText {
  import opened Format
  import opened Frames

  /** How a channel ID is written: injective, and free of the separators. */
  ghost predicate Rendering(render: ChId -> string) {
    && (forall a, b :: render(a) == render(b) ==> a == b)
    && (forall a, i | 0 <= i < |render(a)| :: render(a)[i] != ':' && render(a)[i] != '+' && render(a)[i] != '|')
  }

  /** What is written for a frame that follows a frame of channel `cur`. The first frame of a
      channel is written with its channel, later ones with their number only. */
  function Piece(f: FrameId, cur: ChId, render: ChId -> string): string {
    if f.chId == cur then "+" + Decimal(f.number)
    else (if cur != 0 then "|" else "") + (render(f.chId) + (":" + Decimal(f.number)))
  }

  function Text(id: TxId, cur: ChId, render: ChId -> string): string {
    if id == [] then "" else Piece(id[0], cur, render) + Text(id[1..], id[0].chId, render)
  }

  method ToString(id: TxId, render: ChId -> string) returns (s: string)
    ensures s == Text(id, 0, render)
  {
    hide Decimal, Text, Piece;
    s := "";
    var cur: ChId := 0;
    assert id[0..] == id;
    for i := 0 to |id|
      invariant s + Text(id[i..], cur, render) == Text(id, 0, render)
    {
      var f := id[i];
      TextStep(id, i, cur, render);
      PieceAppended(s, f, cur, render);
      ghost var piece := Piece(f, cur, render);
      Regroup(s, piece, Text(id[i + 1..], f.chId, render));
      if f.chId == cur {
        s := s + "+" + Decimal(f.number);
      } else {
        if cur != 0 {
          s := s + "|";
        }
        cur := f.chId;
        s := s + render(f.chId) + ":" + Decimal(f.number);
      }
    }
    NoText(id[|id|..], cur, render);
  }

  lemma NoText(id: TxId, cur: ChId, render: ChId -> string)
    requires id == []
    ensures Text(id, cur, render) == ""
  {
  }

  lemma TextStep(id: TxId, i: nat, cur: ChId, render: ChId -> string)
    requires i < |id|
    ensures Text(id[i..], cur, render) == Piece(id[i], cur, render) + Text(id[i + 1..], id[i].chId, render)
  {
    assert id[i..][1..] == id[i + 1..];
  }

  lemma PieceAppended(s: string, f: FrameId, cur: ChId, render: ChId -> string)
    ensures s + Piece(f, cur, render) ==
            if f.chId == cur then s + "+" + Decimal(f.number)
            else (if cur != 0 then s + "|" else s) + render(f.chId) + ":" + Decimal(f.number)
  {
    hide Decimal;
    var d := Decimal(f.number);
    Regroup(s, "+", d);
    Regroup(s, "|", render(f.chId) + (":" + d));
    Regroup(s + "|", render(f.chId), ":" + d);
    Regroup(s + "|" + render(f.chId), ":", d);
    Regroup(s, render(f.chId), ":" + d);
    Regroup(s + render(f.chId), ":", d);
    assert "" + (render(f.chId) + (":" + d)) == render(f.chId) + (":" + d);
  }

  ghost predicate NonZero(id: TxId) { forall i | 0 <= i < |id| :: id[i].chId != 0 }

  /** All characters of a satisfy p, and x does not start with one that does. */
  ghost predicate Splits(a: string, x: string, p: char -> bool) {
    (forall i | 0 <= i < |a| :: p(a[i])) && (x == [] || !p(x[0]))
  }

  lemma UniqueSplit(a: string, x: string, b: string, y: string, p: char -> bool)
    requires Splits(a, x, p) && Splits(b, y, p) && a + x == b + y
    ensures a == b && x == y
  {
    NotLonger(a, x, b, y, p);
    NotLonger(b, y, a, x, p);
    var s := a + x;
    assert a == s[..|a|] && b == s[..|a|];
    assert x == s[|a|..] && y == s[|a|..];
  }

  lemma NotLonger(a: string, x: string, b: string, y: string, p: char -> bool)
    requires Splits(a, x, p) && Splits(b, y, p) && a + x == b + y
    ensures |b| <= |a|
  {
    assert forall i | 0 <= i < |a + x| :: (a + x)[i] == (b + y)[i];
    assert |a| < |a + x| ==> (a + x)[|a|] == x[0];
  }

  /** What follows a frame is nothing or starts with a separator. */
  lemma TextStart(id: TxId, cur: ChId, render: ChId -> string)
    requires cur != 0
    ensures var t := Text(id, cur, render);
            (id == [] <==> t == "") && (id != [] ==> t[0] == if id[0].chId == cur then '+' else '|')
  {
  }

  lemma NumberSplits(n: nat, rest: TxId, n': nat, rest': TxId, cur: ChId, render: ChId -> string)
    requires cur != 0
    requires Decimal(n) + Text(rest, cur, render) == Decimal(n') + Text(rest', cur, render)
    ensures n == n' && Text(rest, cur, render) == Text(rest', cur, render)
  {
    TextStart(rest, cur, render);
    TextStart(rest', cur, render);
    UniqueSplit(Decimal(n), Text(rest, cur, render), Decimal(n'), Text(rest', cur, render), IsDigit);
    DecimalInjective(n, n');
  }

  lemma ChannelSplits(ch: ChId, x: string, ch': ChId, x': string, render: ChId -> string)
    requires Rendering(render) && render(ch) + (":" + x) == render(ch') + (":" + x')
    ensures ch == ch' && x == x'
  {
    UniqueSplit(render(ch), ":" + x, render(ch'), ":" + x', c => c != ':');
    DropCommon(":", x, x');
  }

  lemma DropCommon(a: string, x: string, x': string)
    requires a + x == a + x'
    ensures x == x'
  {
    assert x == (a + x)[|a|..] && x' == (a + x')[|a|..];
  }

  /** The first frame of a channel is told from the text. */
  lemma NewChannel(id: TxId, id': TxId, cur: ChId, render: ChId -> string)
    requires Rendering(render) && NonZero(id) && NonZero(id') && id != [] && id' != []
    requires id[0].chId != cur && id'[0].chId != cur
    requires Text(id, cur, render) == Text(id', cur, render)
    ensures id[0] == id'[0] && Text(id[1..], id[0].chId, render) == Text(id'[1..], id[0].chId, render)
  {
    var bar := if cur != 0 then "|" else "";
    var x, x' := AfterColon(id, cur, render), AfterColon(id', cur, render);
    DropCommon(bar, render(id[0].chId) + (":" + x), render(id'[0].chId) + (":" + x'));
    ChannelSplits(id[0].chId, x, id'[0].chId, x', render);
    NumberSplits(id[0].number, id[1..], id'[0].number, id'[1..], id[0].chId, render);
  }

  function AfterColon(id: TxId, cur: ChId, render: ChId -> string): (x: string)
    requires id != [] && id[0].chId != cur
    ensures Text(id, cur, render) == (if cur != 0 then "|" else "") + (render(id[0].chId) + (":" + x))
  {
    var bar, ch, num, rest := if cur != 0 then "|" else "", render(id[0].chId), Decimal(id[0].number),
                              Text(id[1..], id[0].chId, render);
    assert (bar + (ch + (":" + num))) + rest == bar + (ch + (":" + (num + rest)));
    num + rest
  }

  lemma SameChannel(id: TxId, id': TxId, cur: ChId, render: ChId -> string)
    requires cur != 0 && id != [] && id' != []
    requires id[0].chId == cur == id'[0].chId
    requires Text(id, cur, render) == Text(id', cur, render)
    ensures id[0] == id'[0] && Text(id[1..], cur, render) == Text(id'[1..], cur, render)
  {
    hide Decimal, Text, Piece;
    AfterPlus(id, cur, render);
    AfterPlus(id', cur, render);
    DropCommon("+", Decimal(id[0].number) + Text(id[1..], cur, render),
               Decimal(id'[0].number) + Text(id'[1..], cur, render));
    NumberSplits(id[0].number, id[1..], id'[0].number, id'[1..], cur, render);
  }

  lemma AfterPlus(id: TxId, cur: ChId, render: ChId -> string)
    requires id != [] && id[0].chId == cur
    ensures Text(id, cur, render) == "+" + (Decimal(id[0].number) + Text(id[1..], cur, render))
  {
    Regroup("+", Decimal(id[0].number), Text(id[1..], cur, render));
  }

  lemma {:induction false} TextInjective(id: TxId, id': TxId, cur: ChId, render: ChId -> string)
    requires Rendering(render) && NonZero(id) && NonZero(id')
    requires Text(id, cur, render) == Text(id', cur, render)
    ensures id == id'
    decreases |id|
  {
    if id != [] && id' != [] {
      if cur != 0 {
        TextStart(id, cur, render);
        TextStart(id', cur, render);
      }
      if id[0].chId == cur {
        SameChannel(id, id', cur, render);
      } else {
        NewChannel(id, id', cur, render);
      }
      TextInjective(id[1..], id'[1..], id[0].chId, render);
      assert id == [id[0]] + id[1..] && id' == [id'[0]] + id'[1..];
    }
  }

  /** Transactions with the same text have the same frames, in the same order. */
  lemma EqualKeysMeanEqualFrames(id: TxId, id': TxId, render: ChId -> string)
    requires Rendering(render) && NonZero(id) && NonZero(id')
    ensures Text(id, 0, render) == Text(id', 0, render) <==> id == id'
  {
    if Text(id, 0, render) == Text(id', 0, render) {
      TextInjective(id, id', 0, render);
    }
  }
}
