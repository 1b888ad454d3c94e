/** L2 blocks, their hashes, and hash-linked runs of blocks. */
module Chain {

  /** The range of a Go uint64. */
  const TWO64 := 0x1_0000_0000_0000_0000

  /** A block number; its successor is still a uint64. */
  type BlockNum = n: nat | n < TWO64 - 1

  /** A block hash. A hash is the digest of one block, so equal hashes mean equal
      blocks: Keccak is taken to be free of collisions. */
  datatype Hash = NoHash | Digest(block: Block)

  /** An L2 block. `body` stands for everything that is not looked at. */
  datatype Block = Block(parent: Hash, number: BlockNum, l1Origin: nat, daBytes: nat, body: nat)
  {
    /** Blocks handed out by the sequencer: never the genesis block, numbered after the parent. */
    predicate WellFormed() {
      parent.Digest? && number == parent.block.number + 1
    }
  }

  /** uint64 subtraction, which wraps around. */
  function Sub64(a: BlockNum, b: BlockNum): (r: nat)
    ensures a >= b ==> r == a - b
    ensures a < b ==> r == TWO64 - (b - a)
  {
    (a - b) % TWO64
  }

  predicate Extends(child: Block, parent: Block) {
    child.parent == Digest(parent) && child.number == parent.number + 1
  }

  /** Every block of `s` is the parent of the next one. */
  ghost predicate Linked(s: seq<Block>) {
    forall i, j | 0 <= i && j == i + 1 && j < |s| :: Extends(s[j], s[i])
  }

  /** `b` is `head` or one of its ancestors. */
  ghost predicate AncestorOrSelf(b: Block, head: Block)
    decreases head
  {
    b == head || (head.parent.Digest? && AncestorOrSelf(b, head.parent.block))
  }

  /** The blocks of a linked run are numbered consecutively. */
  lemma {:induction false} LinkedNumbers(s: seq<Block>, i: nat, j: nat)
    requires Linked(s)
    requires i <= j < |s|
    ensures s[j].number == s[i].number + (j - i)
    decreases j - i
  {
    if i < j {
      LinkedNumbers(s, i, j - 1);
      assert Extends(s[j], s[j - 1]);
    }
  }

  /** Earlier blocks of a linked run are ancestors of later ones. */
  lemma {:induction false} LinkedAncestors(s: seq<Block>, i: nat, j: nat)
    requires Linked(s)
    requires i <= j < |s|
    ensures AncestorOrSelf(s[i], s[j])
    decreases j - i
  {
    if i < j {
      LinkedAncestors(s, i, j - 1);
      assert Extends(s[j], s[j - 1]);
    }
  }

  lemma LinkedSlice(s: seq<Block>, i: nat, j: nat)
    requires Linked(s)
    requires i <= j <= |s|
    ensures Linked(s[i..j])
  {
    forall a, b | 0 <= a && b == a + 1 && b < |s[i..j]|
      ensures Extends(s[i..j][b], s[i..j][a])
    {
      assert Extends(s[i + b], s[i + a]);
    }
  }

  lemma LinkedSnoc(s: seq<Block>, b: Block)
    requires Linked(s)
    requires s != [] ==> Extends(b, s[|s| - 1])
    ensures Linked(s + [b])
  {
  }

  /** The sum of the estimated DA sizes of some blocks. */
  function SumBytes(s: seq<Block>): nat {
    if s == [] then 0 else s[0].daBytes + SumBytes(s[1..])
  }

  lemma {:induction false} SumBytesConcat(s: seq<Block>, t: seq<Block>)
    ensures SumBytes(s + t) == SumBytes(s) + SumBytes(t)
  {
    if s == [] {
      assert s + t == t;
    } else {
      assert (s + t)[1..] == s[1..] + t;
      SumBytesConcat(s[1..], t);
    }
  }

  /** The sum over `s[i..k]` splits at any point in between. */
  lemma SumBytesSplit(s: seq<Block>, i: nat, j: nat, k: nat)
    requires i <= j <= k <= |s|
    ensures SumBytes(s[i..k]) == SumBytes(s[i..j]) + SumBytes(s[j..k])
  {
    assert s[i..k] == s[i..j] + s[j..k];
    SumBytesConcat(s[i..j], s[j..k]);
  }
}
