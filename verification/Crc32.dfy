/** The checksum of a block: boost::crc_32_type (reflected, generator 0x04C11DB7, all ones before
    and after), fed piece by piece. The shift register is a list of 32 bits, least significant
    first; in the reflected form that bit is the coefficient of x^31. */
module Crc32 {
  import opened Bytes

  type Bits = seq<bool>

  function Xor(a: Bits, b: Bits): (r: Bits)
    requires |a| == |b|
    ensures |r| == |a|
  {
    seq(|a|, i requires 0 <= i < |a| => a[i] != b[i])
  }

  function Zeros(n: nat): (r: Bits)
    ensures |r| == n
  {
    seq(n, _ => false)
  }

  function Ones(n: nat): (r: Bits)
    ensures |r| == n
  {
    seq(n, _ => true)
  }

  /** Whether x^k is a term of the generator polynomial, the leading x^32 left out
      (section 8.1.1.6.2 of ITU-T V.42). */
  predicate GeneratorTerm(k: int) {
    k in {26, 23, 22, 16, 12, 11, 10, 8, 7, 5, 4, 2, 1, 0}
  }

  function Generator(): (r: Bits)
    ensures |r| == 32
  {
    seq(32, i => GeneratorTerm(31 - i))
  }

  /** The bits of a byte in transmission order, least significant first. */
  function BitsOf(b: nat, n: nat): (r: Bits)
    ensures |r| == n
  {
    if n == 0 then [] else [b % 2 == 1] + BitsOf(b / 2, n - 1)
  }

  function Message(bs: seq<Byte>): (r: Bits)
    ensures |r| == 8 * |bs|
  {
    if bs == [] then [] else BitsOf(bs[0], 8) + Message(bs[1..])
  }

  /** Shifts one message bit into the register. */
  function Feed(c: Bits, bit: bool): (r: Bits)
    requires |c| == 32
    ensures |r| == 32
  {
    var shifted := c[1..] + [false];
    if c[0] != bit then Xor(shifted, Generator()) else shifted
  }

  function Run(c: Bits, m: Bits): (r: Bits)
    requires |c| == 32
    ensures |r| == 32
    decreases |m|
  {
    if m == [] then c else Run(Feed(c, m[0]), m[1..])
  }

  function Process(c: Bits, bs: seq<Byte>): (r: Bits)
    requires |c| == 32
    ensures |r| == 32
  {
    Run(c, Message(bs))
  }

  function Value(c: Bits): (r: nat)
    ensures r < Pow2(|c|)
  {
    if c == [] then 0 else (if c[0] then 1 else 0) + 2 * Value(c[1..])
  }

  function Pow2(n: nat): nat {
    if n == 0 then 1 else 2 * Pow2(n - 1)
  }

  /** The checksum of a flat byte string. */
  function Checksum(bs: seq<Byte>): nat {
    Value(Xor(Process(Ones(32), bs), Ones(32)))
  }

  lemma ChecksumFits(bs: seq<Byte>)
    ensures Checksum(bs) < 0x1_0000_0000
  {
    assert Pow2(8) == 256;
    assert Pow2(16) == 65536;
    assert Pow2(24) == 16777216;
    assert Pow2(32) == 0x1_0000_0000;
  }

  lemma {:induction false} RunConcat(c: Bits, a: Bits, b: Bits)
    requires |c| == 32
    ensures Run(c, a + b) == Run(Run(c, a), b)
    decreases |a|
  {
    if a == [] {
      assert a + b == b;
    } else {
      assert (a + b)[1..] == a[1..] + b;
      RunConcat(Feed(c, a[0]), a[1..], b);
    }
  }

  lemma {:induction false} MessageConcat(a: seq<Byte>, b: seq<Byte>)
    ensures Message(a + b) == Message(a) + Message(b)
  {
    if a == [] {
      assert a + b == b;
    } else {
      assert (a + b)[1..] == a[1..] + b;
      MessageConcat(a[1..], b);
    }
  }

  lemma {:induction false} ProcessConcat(c: Bits, a: seq<Byte>, b: seq<Byte>)
    requires |c| == 32
    ensures Process(c, a + b) == Process(Process(c, a), b)
  {
    MessageConcat(a, b);
    RunConcat(c, Message(a), Message(b));
  }

  /** boost::crc_32_type: the register is updated in place by process_bytes(). */
  class Crc32Type {
    var register: Bits

    constructor ()
      ensures register == Ones(32)
    {
      register := Ones(32);
    }

    method ProcessBytes(data: seq<Byte>)
      requires |register| == 32
      modifies this
      ensures |register| == 32 && register == Process(old(register), data)
    {
      var i := 0;
      assert data[0..] == data;
      while i < |data|
        invariant 0 <= i <= |data| && |register| == 32
        invariant Process(register, data[i..]) == Process(old(register), data)
      {
        ProcessConcat(register, [data[i]], data[i + 1..]);
        assert [data[i]] + data[i + 1..] == data[i..];
        register := Process(register, [data[i]]);
        i := i + 1;
      }
    }

    method Get() returns (r: nat)
      requires |register| == 32
      ensures r == Value(Xor(register, Ones(32)))
    {
      r := Value(Xor(register, Ones(32)));
    }
  }

  // ----- Bits and numbers -----

  lemma {:induction false} BitsRoundTrip(b: nat, n: nat)
    requires b < Pow2(n)
    ensures Value(BitsOf(b, n)) == b
  {
    if n > 0 {
      BitsRoundTrip(b / 2, n - 1);
      assert BitsOf(b, n)[1..] == BitsOf(b / 2, n - 1);
    }
  }

  /** The message is the bits of its bytes in order, each byte standing for its own number. */
  lemma {:induction false} MessageBits(bs: seq<Byte>, i: nat)
    requires i < |bs|
    ensures Value(Message(bs)[8 * i..8 * i + 8]) == bs[i]
  {
    if i == 0 {
      assert Pow2(8) == 256;
      BitsRoundTrip(bs[0], 8);
      assert Message(bs)[0..8] == BitsOf(bs[0], 8);
    } else {
      MessageBits(bs[1..], i - 1);
      assert Message(bs)[8 * i..8 * i + 8] == Message(bs[1..])[8 * (i - 1)..8 * (i - 1) + 8];
    }
  }

  function Weight(bit: bool, weight: nat): nat {
    if bit then weight else 0
  }

  lemma OneBit(c: Bits, k: nat)
    requires k < |c|
    ensures Value(c[k..]) == Weight(c[k], 1) + 2 * Value(c[k + 1..])
  {
    assert c[k..][1..] == c[k + 1..];
  }

  lemma FourBits(c: Bits, k: nat)
    requires k + 4 <= |c|
    ensures Value(c[k..])
         == Weight(c[k], 1) + Weight(c[k + 1], 2) + Weight(c[k + 2], 4) + Weight(c[k + 3], 8) + 16 * Value(c[k + 4..])
  {
    hide Value;
    OneBit(c, k);
    OneBit(c, k + 1);
    OneBit(c, k + 2);
    OneBit(c, k + 3);
  }

  /** Four terms of the generator as a number, from x^(31 - k) downwards. */
  function Nibble(k: int): nat {
    Weight(GeneratorTerm(31 - k), 1) + Weight(GeneratorTerm(30 - k), 2) + Weight(GeneratorTerm(29 - k), 4)
    + Weight(GeneratorTerm(28 - k), 8)
  }

  lemma GeneratorNibble(k: nat)
    requires k <= 28
    ensures Value(Generator()[k..]) == Nibble(k) + 16 * Value(Generator()[k + 4..])
  {
    hide Value, GeneratorTerm;
    FourBits(Generator(), k);
  }

  lemma Terms()
    ensures GeneratorTerm(26) && GeneratorTerm(23) && GeneratorTerm(22) && GeneratorTerm(16) && GeneratorTerm(12)
    ensures GeneratorTerm(11) && GeneratorTerm(10) && GeneratorTerm(8) && GeneratorTerm(7) && GeneratorTerm(5)
    ensures GeneratorTerm(4) && GeneratorTerm(2) && GeneratorTerm(1) && GeneratorTerm(0)
    ensures !GeneratorTerm(31) && !GeneratorTerm(30) && !GeneratorTerm(29) && !GeneratorTerm(28)
    ensures !GeneratorTerm(27) && !GeneratorTerm(25) && !GeneratorTerm(24) && !GeneratorTerm(21)
    ensures !GeneratorTerm(20) && !GeneratorTerm(19) && !GeneratorTerm(18) && !GeneratorTerm(17)
    ensures !GeneratorTerm(15) && !GeneratorTerm(14) && !GeneratorTerm(13) && !GeneratorTerm(9)
    ensures !GeneratorTerm(6) && !GeneratorTerm(3)
  {
  }

  lemma Nibbles()
    ensures Nibble(0) == 0 && Nibble(4) == 2 && Nibble(8) == 3 && Nibble(12) == 8
    ensures Nibble(16) == 8 && Nibble(20) == 11 && Nibble(24) == 13 && Nibble(28) == 14
  {
    hide GeneratorTerm;
    Terms();
  }

  /** The register form of the generator is the number the standards give. */
  lemma {:induction false} GeneratorIsKnown()
    ensures Value(Generator()) == 0xEDB8_8320
  {
    hide Generator, Nibble, Value;
    var g := Generator();
    Nibbles();
    GeneratorNibble(0);
    GeneratorNibble(4);
    GeneratorNibble(8);
    GeneratorNibble(12);
    GeneratorNibble(16);
    GeneratorNibble(20);
    GeneratorNibble(24);
    GeneratorNibble(28);
    assert g[0..] == g && g[32..] == [];
    NothingIsZero();
  }

  lemma NothingIsZero()
    ensures Value([]) == 0
  {
  }

  // ----- What the number is: the remainder of a polynomial division -----

  /** The remainder of a polynomial over GF(2), highest coefficient first, by schoolbook long
      division. */
  function Remainder(p: Bits): (r: Bits)
    requires |p| >= 32
    ensures |r| == 32
    decreases |p|
  {
    if |p| == 32 then p
    else if p[0] then Remainder(Xor(p[1..33], Generator()) + p[33..])
    else Remainder(p[1..])
  }

  /** The frame check sequence of section 8.1.1.6.2 of ITU-T V.42: the complement of the remainder
      of the message times x^32 with its first 32 bits inverted. */
  function FrameCheck(m: Bits): (r: Bits)
    ensures |r| == 32
  {
    Xor(Remainder(Mix(Ones(32), m + Zeros(32))), Ones(32))
  }

  function Mix(c: Bits, p: Bits): (r: Bits)
    requires |c| <= |p|
    ensures |r| == |p|
  {
    Xor(c, p[..|c|]) + p[|c|..]
  }

  /** One step of the long division is feeding one bit. */
  lemma DivisionStep(c: Bits, m: Bits)
    requires |c| == 32 && m != []
    ensures var mixed := Mix(c, m + Zeros(32));
            && mixed[0] == (c[0] != m[0])
            && (if mixed[0] then Xor(mixed[1..33], Generator()) + mixed[33..] else mixed[1..])
               == Mix(Feed(c, m[0]), m[1..] + Zeros(32))
  {
    hide Generator;
    var p, q := m + Zeros(32), m[1..] + Zeros(32);
    var mixed := Mix(c, p);
    assert p[1..] == q;
    var next := if mixed[0] then Xor(mixed[1..33], Generator()) + mixed[33..] else mixed[1..];
    forall i | 0 <= i < |q| ensures next[i] == Mix(Feed(c, m[0]), q)[i] {
      assert mixed[i + 1] == if i + 1 < 32 then c[i + 1] != p[i + 1] else p[i + 1];
      assert p[i + 1] == q[i];
    }
  }

  lemma {:induction false} RunIsRemainder(c: Bits, m: Bits)
    requires |c| == 32
    ensures Remainder(Mix(c, m + Zeros(32))) == Run(c, m)
    decreases |m|
  {
    if m == [] {
      assert m + Zeros(32) == Zeros(32);
      assert Mix(c, Zeros(32)) == c;
    } else {
      hide Mix, Feed, Generator;
      DivisionStep(c, m);
      RunIsRemainder(Feed(c, m[0]), m[1..]);
    }
  }

  /** The checksum the register computes is the frame check sequence of the whole message. */
  lemma {:induction false} ChecksumIsFrameCheck(bs: seq<Byte>)
    ensures Checksum(bs) == Value(FrameCheck(Message(bs)))
  {
    RunIsRemainder(Ones(32), Message(bs));
  }

  // ----- Error detection -----

  lemma FeedAt(c: Bits, bit: bool, i: nat)
    requires |c| == 32 && i < 32
    ensures Feed(c, bit)[i] == ((i < 31 && c[i + 1]) != (c[0] != bit && GeneratorTerm(31 - i)))
  {
  }

  lemma FeedDifference(c1: Bits, c2: Bits, a: bool, b: bool)
    requires |c1| == |c2| == 32
    requires Feed(c1, a)[31] == Feed(c2, b)[31]
    ensures (c1[0] != c2[0]) == (a != b)
    ensures forall i :: 0 <= i < 31 ==> (c1[i + 1] != c2[i + 1]) == (Feed(c1, a)[i] != Feed(c2, b)[i])
  {
    FeedAt(c1, a, 31);
    FeedAt(c2, b, 31);
    forall i | 0 <= i < 31
      ensures (c1[i + 1] != c2[i + 1]) == (Feed(c1, a)[i] != Feed(c2, b)[i])
    {
      FeedAt(c1, a, i);
      FeedAt(c2, b, i);
    }
  }

  /** Running the register backwards: equal results reveal how the starting registers differed. */
  lemma {:induction false} Rewind(c1: Bits, c2: Bits, w1: Bits, w2: Bits)
    requires |c1| == |c2| == 32 && |w1| == |w2| <= 32
    requires Run(c1, w1) == Run(c2, w2)
    ensures forall i :: 0 <= i < 32 ==> (c1[i] != c2[i]) == (i < |w1| && w1[i] != w2[i])
    decreases |w1|
  {
    if w1 != [] {
      var d1, d2 := Feed(c1, w1[0]), Feed(c2, w2[0]);
      Rewind(d1, d2, w1[1..], w2[1..]);
      FeedDifference(c1, c2, w1[0], w2[0]);
      forall i | 0 <= i < 32 ensures (c1[i] != c2[i]) == (i < |w1| && w1[i] != w2[i]) {
        if i > 0 {
          assert (d1[i - 1] != d2[i - 1]) == (i - 1 < |w1[1..]| && w1[1..][i - 1] != w2[1..][i - 1]);
        }
      }
    }
  }

  lemma FeedInjective(c1: Bits, c2: Bits, bit: bool)
    requires |c1| == |c2| == 32 && Feed(c1, bit) == Feed(c2, bit)
    ensures c1 == c2
  {
    var d1, d2 := Feed(c1, bit), Feed(c2, bit);
    FeedDifference(c1, c2, bit, bit);
    forall i | 0 <= i < 32 ensures c1[i] == c2[i] {
      if i > 0 {
        assert (c1[i - 1 + 1] != c2[i - 1 + 1]) == (d1[i - 1] != d2[i - 1]);
      }
    }
  }

  lemma {:induction false} RunInjective(c1: Bits, c2: Bits, m: Bits)
    requires |c1| == |c2| == 32
    requires Run(c1, m) == Run(c2, m)
    ensures c1 == c2
    decreases |m|
  {
    if m != [] {
      RunInjective(Feed(c1, m[0]), Feed(c2, m[0]), m[1..]);
      FeedInjective(c1, c2, m[0]);
    }
  }

  lemma SameParity(m: nat, n: nat, a: bool, b: bool)
    requires 2 * m + (if a then 1 else 0) == 2 * n + (if b then 1 else 0)
    ensures a == b && m == n
  {
  }

  lemma {:induction false} ValueInjective(a: Bits, b: Bits)
    requires |a| == |b| && Value(a) == Value(b)
    ensures a == b
  {
    if a != [] {
      SameParity(Value(a[1..]), Value(b[1..]), a[0], b[0]);
      ValueInjective(a[1..], b[1..]);
      assert a == [a[0]] + a[1..] && b == [b[0]] + b[1..];
    }
  }

  lemma {:induction false} BitsOfInjective(a: nat, b: nat, n: nat)
    requires a < Pow2(n) && b < Pow2(n) && BitsOf(a, n) == BitsOf(b, n)
    ensures a == b
  {
    if n > 0 {
      assert BitsOf(a, n)[0] == BitsOf(b, n)[0];
      assert BitsOf(a, n)[1..] == BitsOf(b, n)[1..];
      BitsOfInjective(a / 2, b / 2, n - 1);
    }
  }

  lemma {:induction false} MessageInjective(a: seq<Byte>, b: seq<Byte>)
    requires |a| == |b| && Message(a) == Message(b)
    ensures a == b
  {
    if a != [] {
      assert Message(a)[..8] == BitsOf(a[0], 8) && Message(b)[..8] == BitsOf(b[0], 8);
      assert Message(a)[8..] == Message(a[1..]) && Message(b)[8..] == Message(b[1..]);
      assert Pow2(8) == 256;
      BitsOfInjective(a[0], b[0], 8);
      MessageInjective(a[1..], b[1..]);
    }
  }

  /** Changing any run of at most 32 consecutive message bits changes the register. */
  lemma BurstChangesRegister(before: Bits, w1: Bits, w2: Bits, after: Bits)
    requires |w1| == |w2| <= 32 && w1 != w2
    ensures Run(Ones(32), before + w1 + after) != Run(Ones(32), before + w2 + after)
  {
    var c := Run(Ones(32), before);
    RunConcat(Ones(32), before, w1);
    RunConcat(Ones(32), before, w2);
    RunConcat(Ones(32), before + w1, after);
    RunConcat(Ones(32), before + w2, after);
    if Run(Ones(32), before + w1 + after) == Run(Ones(32), before + w2 + after) {
      RunInjective(Run(c, w1), Run(c, w2), after);
      Rewind(c, c, w1, w2);
    }
  }

  /** Changing any run of at most four consecutive bytes changes the checksum. */
  lemma {:induction false} BurstDetected(before: seq<Byte>, w1: seq<Byte>, w2: seq<Byte>, after: seq<Byte>)
    requires |w1| == |w2| <= 4 && w1 != w2
    ensures Checksum(before + w1 + after) != Checksum(before + w2 + after)
  {
    MessageConcat(before, w1);
    MessageConcat(before, w2);
    MessageConcat(before + w1, after);
    MessageConcat(before + w2, after);
    if Message(w1) == Message(w2) {
      MessageInjective(w1, w2);
    }
    BurstChangesRegister(Message(before), Message(w1), Message(w2), Message(after));
    var r1 := Process(Ones(32), before + w1 + after);
    var r2 := Process(Ones(32), before + w2 + after);
    if Checksum(before + w1 + after) == Checksum(before + w2 + after) {
      ValueInjective(Xor(r1, Ones(32)), Xor(r2, Ones(32)));
      forall i | 0 <= i < 32 ensures r1[i] == r2[i] {
        assert Xor(r1, Ones(32))[i] == Xor(r2, Ones(32))[i];
      }
    }
  }
}
