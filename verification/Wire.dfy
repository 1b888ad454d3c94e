/** The framing of the pre-image oracle: big-endian lengths and self-delimiting messages. */
module Wire {
  import opened Format

  type Bytes = seq<Byte>

  /** 256 to the power of w. */
  function Pow256(w: nat): (r: nat)
    ensures r >= 1
  {
    if w == 0 then 1 else 256 * Pow256(w - 1)
  }

  /** The last w bytes of a number, most significant first. */
  function BigEndian(n: nat, w: nat): (bs: Bytes)
    ensures |bs| == w
  {
    if w == 0 then [] else BigEndian(n / 256, w - 1) + [n % 256]
  }

  function FromBigEndian(bs: Bytes): nat {
    if bs == [] then 0 else 256 * FromBigEndian(bs[..|bs| - 1]) + bs[|bs| - 1]
  }

  /** The low part of a product. */
  lemma ModStep(n: nat, m: nat)
    requires m >= 1
    ensures 256 * ((n / 256) % m) + n % 256 == n % (256 * m)
  {
    var q, r := n / 256, n % 256;
    var a, b := q / m, q % m;
    assert n == 256 * q + r && q == m * a + b;
    assert n == (256 * m) * a + (256 * b + r) by {
      assert 256 * (m * a) == (256 * m) * a;
    }
    assert 256 * b + r < 256 * m;
    ModUnique(n, 256 * m, a, 256 * b + r);
  }

  lemma ModUnique(n: nat, m: nat, a: nat, r: nat)
    requires m >= 1 && n == m * a + r && r < m
    ensures n % m == r
  {
    var d := n / m - a;
    assert n == m * (n / m) + n % m;
    assert m * d == r - n % m by {
      assert m * d == m * (n / m) - m * a;
    }
    assert d >= 1 ==> m * d >= m;
    assert d <= -1 ==> m * d <= 0 - m;
  }

  /** Reading back a big-endian number gives it modulo what fits. */
  lemma {:induction false} BigEndianRoundTrip(n: nat, w: nat)
    ensures FromBigEndian(BigEndian(n, w)) == n % Pow256(w)
  {
    if w > 0 {
      BigEndianRoundTrip(n / 256, w - 1);
      var bs := BigEndian(n, w);
      assert bs[..w - 1] == BigEndian(n / 256, w - 1);
      ModStep(n, Pow256(w - 1));
    }
  }

  /** Byte i has the weight of the bytes after it. */
  lemma {:induction false} BigEndianDigit(n: nat, w: nat, i: nat)
    requires i < w
    ensures BigEndian(n, w)[i] == n / Pow256(w - 1 - i) % 256
  {
    if i < w - 1 {
      BigEndianDigit(n / 256, w - 1, i);
      DivTwice(n, Pow256(w - 2 - i));
    }
  }

  lemma DivTwice(n: nat, m: nat)
    requires m >= 1
    ensures n / 256 / m == n / (256 * m)
  {
    var q := n / 256;
    var a, b := q / m, q % m;
    assert n == 256 * q + n % 256 && q == m * a + b;
    assert n == (256 * m) * a + (256 * b + n % 256) by {
      assert 256 * (m * a) == (256 * m) * a;
    }
    DivUnique(n, 256 * m, a, 256 * b + n % 256);
  }

  lemma DivUnique(n: nat, m: nat, a: nat, r: nat)
    requires m >= 1 && n == m * a + r && r < m
    ensures n / m == a
  {
    ModUnique(n, m, a, r);
    var d := n / m - a;
    assert m * d == 0 by {
      assert m * d == m * (n / m) - m * a;
    }
    assert d >= 1 ==> m * d >= m;
    assert d <= -1 ==> m * d <= 0 - m;
  }

  const TWO32 := 0x1_0000_0000
  const TWO64 := 0x1_0000_0000_0000_0000

  lemma Widths()
    ensures Pow256(4) == TWO32 && Pow256(8) == TWO64
  {
    assert Pow256(4) == 256 * (256 * (256 * (256 * Pow256(0))));
    assert Pow256(8) == 256 * (256 * (256 * (256 * Pow256(4))));
  }

  /** A message after its length in w bytes; a longer length is cut off. */
  function Framed(msg: Bytes, w: nat): Bytes { BigEndian(|msg|, w) + msg }

  /** How a reader knows what it still needs: a fixed number of bytes, or a length of w bytes
      and as many bytes as that says. */
  datatype Framing = Fixed(size: nat) | Prefixed(w: nat)
  {
    /** The bytes that the reader's current read still waits for; 0 if the message is complete. */
    function Need(got: Bytes): nat {
      match this
      case Fixed(size) => if |got| < size then size - |got| else 0
      case Prefixed(w) =>
        if |got| < w then w - |got|
        else
          var total := w + FromBigEndian(got[..w]);
          if |got| < total then total - |got| else 0
    }

    /** What the reader returns for a complete message. */
    function Payload(msg: Bytes): Bytes {
      match this
      case Fixed(_) => msg
      case Prefixed(w) => if |msg| < w then [] else msg[w..]
    }
  }

  /** A reader that is given a stream starting with msg takes exactly msg: it never waits for
      more than is left of it, and is done at its end but not before. */
  ghost predicate Delimits(f: Framing, msg: Bytes) {
    && f.Need(msg) == 0
    && forall i | 0 <= i < |msg| :: 0 < f.Need(msg[..i]) <= |msg| - i
  }

  lemma FixedDelimits(msg: Bytes)
    requires msg != []
    ensures Delimits(Fixed(|msg|), msg)
  {
  }

  /** What a reader needs after the first i bytes of a framed message. */
  lemma NeedAt(msg: Bytes, w: nat, i: nat)
    requires i <= w + |msg|
    ensures var end := w + |msg| % Pow256(w);
            Prefixed(w).Need(Framed(msg, w)[..i]) == if i < w then w - i else if i < end then end - i else 0
  {
    BigEndianRoundTrip(|msg|, w);
    if w <= i {
      assert Framed(msg, w)[..i][..w] == BigEndian(|msg|, w);
    }
  }

  /** A framed message is delimited by its length if and only if the length fits; then it reads
      back as it was. */
  lemma FramedDelimits(msg: Bytes, w: nat)
    requires w > 0
    ensures Delimits(Prefixed(w), Framed(msg, w)) <==> |msg| < Pow256(w)
    ensures Prefixed(w).Payload(Framed(msg, w)) == msg
  {
    hide BigEndian, FromBigEndian, Pow256, Framing.Need;
    var m, r := Framed(msg, w), |msg| % Pow256(w);
    assert m[..|m|] == m;
    NeedAt(msg, w, |m|);
    if |msg| < Pow256(w) {
      ModUnique(|msg|, Pow256(w), 0, |msg|);
      forall i | 0 <= i < |m| ensures 0 < Prefixed(w).Need(m[..i]) <= |m| - i {
        NeedAt(msg, w, i);
      }
    } else {
      NeedAt(msg, w, w + r);
    }
  }

  /** A longer message is read short: what is left of it stays on the stream. */
  lemma CutOff(msg: Bytes, w: nat)
    requires w > 0 && |msg| >= Pow256(w)
    ensures var r := |msg| % Pow256(w);
            r < |msg| && Delimits(Prefixed(w), Framed(msg, w)[..w + r])
            && Prefixed(w).Payload(Framed(msg, w)[..w + r]) == msg[..r]
  {
    hide BigEndian, FromBigEndian, Pow256, Framing.Need;
    var r := |msg| % Pow256(w);
    var m := Framed(msg, w)[..w + r];
    NeedAt(msg, w, w + r);
    forall i | 0 <= i < |m| ensures 0 < Prefixed(w).Need(m[..i]) <= |m| - i {
      NeedAt(msg, w, i);
      assert m[..i] == Framed(msg, w)[..i];
    }
  }
}
