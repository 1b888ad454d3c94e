/** Alt-DA input commitments: their encoding and the keys challenges are looked up by. */
module Commitments {
  import opened Format
  import opened Options

  datatype CommitmentType = Keccak256Type | GenericType

  /** A commitment to some input. */
  datatype Comm = Keccak256(data: seq<Byte>) | Generic(data: seq<Byte>)
  {
    function Type(): CommitmentType { if Keccak256? then Keccak256Type else GenericType }

    /** Commitments that can be decoded: 32 bytes for Keccak, at least one byte otherwise. */
    predicate Decodable() { if Keccak256? then |data| == 32 else |data| > 0 }
  }

  const KECCAK_PREFIX: Byte := 0
  const GENERIC_PREFIX: Byte := 1

  function Encode(c: Comm): seq<Byte> {
    match c
    case Keccak256(data) => [KECCAK_PREFIX] + data
    case Generic(data) => [GENERIC_PREFIX] + data
  }

  function Decode(input: seq<Byte>): Option<Comm> {
    if |input| == 0 then None
    else
      var data := input[1..];
      if input[0] == KECCAK_PREFIX then (if |data| == 32 then Some(Keccak256(data)) else None)
      else if input[0] == GENERIC_PREFIX then (if |data| > 0 then Some(Generic(data)) else None)
      else None
  }

  /** Decoding undoes encoding on exactly the decodable commitments. */
  lemma DecodeEncode(c: Comm)
    ensures Decode(Encode(c)) == Some(c) <==> c.Decodable()
  {
    assert Encode(c)[1..] == c.data;
  }

  /** What decodes is the encoding of what it decodes to. */
  lemma EncodeDecode(input: seq<Byte>)
    ensures Decode(input).Some? ==> Encode(Decode(input).value) == input && Decode(input).value.Decodable()
    ensures Decode(input).Some? <==> input != [] && ((input[0] == 0 && |input| == 33) || (input[0] == 1 && |input| > 1))
  {
    if Decode(input).Some? {
      assert input == [input[0]] + input[1..];
    }
  }

  /** The lookup key: the block number in decimal directly followed by the encoding in hex. */
  function ChallengeKey(c: Comm, block: nat): string {
    Decimal(block) + Hex(Encode(c))
  }

  /** Equal keys of commitments of equal length come from the same commitment and block; so
      keys of 32-byte Keccak commitments do. */
  lemma KeyInjective(c: Comm, block: nat, c': Comm, block': nat)
    requires ChallengeKey(c, block) == ChallengeKey(c', block')
    requires |c.data| == |c'.data|
    ensures c == c' && block == block'
  {
    var d, d' := Decimal(block), Decimal(block');
    var h, h' := Hex(Encode(c)), Hex(Encode(c'));
    assert |d| == |d'|;
    assert d == (d + h)[..|d|] && d' == (d' + h')[..|d'|];
    assert h == (d + h)[|d|..] && h' == (d' + h')[|d'|..];
    DecimalInjective(block, block');
    HexInjective(Encode(c), Encode(c'));
    assert c.data == Encode(c)[1..] && c'.data == Encode(c')[1..];
    assert Encode(c)[0] == Encode(c')[0];
  }

  // ---- When generic commitments share keys ----

  /** 1, 101, 10101 and so on. */
  function OneZeros(d: nat): (n: nat)
    ensures n >= 1
  {
    if d == 0 then 1 else 100 * OneZeros(d - 1) + 1
  }

  function Ones(d: nat): seq<Byte> { seq(d, _ => 1) }

  /** The digits "01", d times. */
  function Pairs(d: nat): string { if d == 0 then "" else Pairs(d - 1) + "01" }

  lemma DecimalShift(x: nat)
    requires x >= 1
    ensures Decimal(100 * x + 1) == Decimal(x) + "01"
  {
    var n := 100 * x + 1;
    assert n / 10 == 10 * x && n % 10 == 1;
    assert 10 * x >= 10 && (10 * x) / 10 == x && (10 * x) % 10 == 0;
    assert Decimal(n) == Decimal(10 * x) + [Digit(1)] && Decimal(10 * x) == Decimal(x) + [Digit(0)];
    assert [Digit(0)] + [Digit(1)] == "01";
    assert Decimal(x) + [Digit(0)] + [Digit(1)] == Decimal(x) + ([Digit(0)] + [Digit(1)]);
  }

  lemma {:induction false} OneZerosText(d: nat)
    ensures Decimal(OneZeros(d)) == "1" + Pairs(d)
  {
    if d > 0 {
      OneZerosText(d - 1);
      DecimalShift(OneZeros(d - 1));
    }
  }

  lemma {:induction false} PairsFront(d: nat)
    ensures "01" + Pairs(d) == Pairs(d) + "01"
  {
    if d > 0 {
      PairsFront(d - 1);
      assert "01" + (Pairs(d - 1) + "01") == ("01" + Pairs(d - 1)) + "01";
    }
  }

  lemma HexFirst(b: Byte, rest: seq<Byte>)
    ensures Hex([b] + rest) == [HexDigit(b / 16), HexDigit(b % 16)] + Hex(rest)
  {
    assert ([b] + rest)[1..] == rest;
  }

  lemma HexOfOne(rest: seq<Byte>)
    ensures Hex([1] + rest) == "01" + Hex(rest)
  {
    HexFirst(1, rest);
    assert [HexDigit(0), HexDigit(1)] == "01";
  }

  lemma OnesFirst(d: nat, x: seq<Byte>)
    requires d > 0
    ensures Ones(d) + x == [1] + (Ones(d - 1) + x)
  {
  }

  lemma {:induction false} OnesText(d: nat, x: seq<Byte>)
    ensures Hex(Ones(d) + x) == Pairs(d) + Hex(x)
  {
    if d == 0 {
      assert Ones(0) + x == x;
    } else {
      hide Hex, Ones;
      OnesText(d - 1, x);
      OnesFirst(d, x);
      HexOfOne(Ones(d - 1) + x);
      PairsFront(d - 1);
      Regroup("01", Pairs(d - 1), Hex(x));
    }
  }

  /** Nothing separates the block number from the encoding: a generic commitment in block 1 that
      starts with d bytes 1 has the key of the one without them in block 101...01. */
  lemma KeyCollision(x: seq<Byte>, d: nat)
    ensures ChallengeKey(Generic(Ones(d) + x), 1) == ChallengeKey(Generic(x), OneZeros(d))
  {
    hide *;
    KeyOfGeneric(Ones(d) + x, 1);
    KeyOfGeneric(x, OneZeros(d));
    OnesText(d, x);
    OneZerosText(d);
    PairsFront(d);
    OneIs();
    Regroup("01", Pairs(d), Hex(x));
    Regroup("1", Pairs(d) + "01", Hex(x));
    Regroup("1", Pairs(d), "01");
    Regroup("1" + Pairs(d), "01", Hex(x));
  }

  lemma KeyOfGeneric(x: seq<Byte>, block: nat)
    ensures ChallengeKey(Generic(x), block) == Decimal(block) + ("01" + Hex(x))
  {
    hide Hex, Decimal;
    HexOfOne(x);
  }

  lemma OneIs()
    ensures Decimal(1) == "1"
  {
  }

  /** Generic commitments of l and of l' bytes in blocks below `limit` have equal keys only if they
      are the same commitment in the same block. */
  ghost predicate UniqueKeys(l: nat, l': nat, limit: nat) {
    forall x: seq<Byte>, x': seq<Byte>, block: nat, block': nat ::
      |x| == l && |x'| == l' && block < limit && block' < limit
      && ChallengeKey(Generic(x), block) == ChallengeKey(Generic(x'), block')
      ==> x == x' && block == block'
  }

  lemma EqualLengthsUnique(l: nat, limit: nat)
    ensures UniqueKeys(l, l, limit)
  {
    forall x: seq<Byte>, x': seq<Byte>, block: nat, block': nat
      | |x| == l && |x'| == l && block < limit && block' < limit
        && ChallengeKey(Generic(x), block) == ChallengeKey(Generic(x'), block')
      ensures x == x' && block == block'
    {
      KeyInjective(Generic(x), block, Generic(x'), block');
    }
  }

  lemma ShareAKey(l: nat, d: nat, limit: nat)
    requires d > 0 && OneZeros(d) < limit
    ensures !UniqueKeys(l, l + d, limit) && !UniqueKeys(l + d, l, limit)
  {
    var x := Ones(l);
    var x' := Ones(d) + x;
    KeyCollision(x, d);
    OneZerosGrow(0, d);
    assert |x| == l && |x'| == l + d && x != x';
    assert ChallengeKey(Generic(x'), 1) == ChallengeKey(Generic(x), OneZeros(d));
  }

  lemma {:induction false} OneZerosGrow(d: nat, e: nat)
    requires d <= e
    ensures OneZeros(d) <= OneZeros(e)
  {
    if d < e {
      OneZerosGrow(d, e - 1);
    }
  }

  /** If block numbers have no limit, the keys of generic commitments of two lengths are unique if
      and only if the lengths are equal. */
  lemma UniqueIffEqualLengths(l: nat, l': nat)
    ensures (forall limit: nat :: UniqueKeys(l, l', limit)) <==> l == l'
  {
    hide UniqueKeys, OneZeros;
    if l == l' {
      forall limit: nat ensures UniqueKeys(l, l', limit) {
        EqualLengthsUnique(l, limit);
      }
    } else if l < l' {
      ShareAKey(l, l' - l, OneZeros(l' - l) + 1);
    } else {
      ShareAKey(l', l - l', OneZeros(l - l') + 1);
    }
  }

  const MAX_BLOCKS := 0x1_0000_0000_0000_0000

  function Pow10(k: nat): nat { if k == 0 then 1 else 10 * Pow10(k - 1) }

  lemma {:induction false} DecimalLength(n: nat, k: nat)
    requires k >= 1 && n < Pow10(k)
    ensures 1 <= |Decimal(n)| <= k
    decreases k
  {
    if n >= 10 {
      DecimalLength(n / 10, k - 1);
    }
  }

  lemma TwentyDigits(n: nat)
    requires n < MAX_BLOCKS
    ensures 1 <= |Decimal(n)| <= 20
  {
    FivePlaces(0);
    FivePlaces(5);
    FivePlaces(10);
    FivePlaces(15);
    DecimalLength(n, 20);
  }

  lemma FivePlaces(k: nat)
    ensures Pow10(k + 5) == 100000 * Pow10(k)
  {
    assert Pow10(k + 5) == 10 * Pow10(k + 4) && Pow10(k + 4) == 10 * Pow10(k + 3);
    assert Pow10(k + 3) == 10 * Pow10(k + 2) && Pow10(k + 2) == 10 * Pow10(k + 1);
  }

  lemma NineFit()
    ensures OneZeros(9) < MAX_BLOCKS
  {
    assert OneZeros(3) == 1010101;
    assert OneZeros(6) == 100 * OneZeros(5) + 1 && OneZeros(5) == 100 * OneZeros(4) + 1 && OneZeros(4) == 101010101;
    assert OneZeros(9) == 100 * OneZeros(8) + 1 && OneZeros(8) == 100 * OneZeros(7) + 1
      && OneZeros(7) == 100 * OneZeros(6) + 1;
  }

  /** Lengths that differ by ten or more cannot share a key of a 64-bit block number: the number
      would need more than twenty digits. */
  lemma FarApartUnique(l: nat, l': nat)
    requires l + 10 <= l'
    ensures UniqueKeys(l, l', MAX_BLOCKS) && UniqueKeys(l', l, MAX_BLOCKS)
  {
    forall x: seq<Byte>, x': seq<Byte>, block: nat, block': nat
      | |x| == l && |x'| == l' && block < MAX_BLOCKS && block' < MAX_BLOCKS
      ensures ChallengeKey(Generic(x), block) != ChallengeKey(Generic(x'), block')
    {
      TwentyDigits(block);
      TwentyDigits(block');
      assert |ChallengeKey(Generic(x), block)| == |Decimal(block)| + 2 * (1 + l);
      assert |ChallengeKey(Generic(x'), block')| == |Decimal(block')| + 2 * (1 + l');
    }
  }

  /** With 64-bit block numbers, the keys of generic commitments of two lengths are unique if and
      only if the lengths are equal or differ by ten or more. */
  lemma UniqueIffFarApart(l: nat, l': nat)
    ensures UniqueKeys(l, l', MAX_BLOCKS) <==> l == l' || l + 10 <= l' || l' + 10 <= l
  {
    hide UniqueKeys, OneZeros;
    NineFit();
    if l == l' {
      EqualLengthsUnique(l, MAX_BLOCKS);
    } else if l + 10 <= l' {
      FarApartUnique(l, l');
    } else if l' + 10 <= l {
      FarApartUnique(l', l);
    } else if l < l' {
      OneZerosGrow(l' - l, 9);
      ShareAKey(l, l' - l, MAX_BLOCKS);
    } else {
      OneZerosGrow(l - l', 9);
      ShareAKey(l', l - l', MAX_BLOCKS);
    }
  }
}
