/** Bytes, byte sequences and the fixed-width integers the file format is made of. */
module Bytes {
  type Byte = x: int | 0 <= x < 256

  datatype Option<+T> = None | Some(value: T)

  /** The concatenation of a list of data segments. */
  function Flat(parts: seq<seq<Byte>>): seq<Byte> {
    if parts == [] then [] else parts[0] + Flat(parts[1..])
  }

  lemma {:induction false} FlatConcat(a: seq<seq<Byte>>, b: seq<seq<Byte>>)
    ensures Flat(a + b) == Flat(a) + Flat(b)
  {
    if a == [] {
      assert a + b == b;
    } else {
      assert (a + b)[1..] == a[1..] + b;
      FlatConcat(a[1..], b);
    }
  }

  lemma FlatOne(a: seq<Byte>)
    ensures Flat([a]) == a
  {
    assert [a][1..] == [];
  }

  lemma FlatTwo(a: seq<Byte>, b: seq<Byte>)
    ensures Flat([a, b]) == a + b
  {
    assert [a, b][1..] == [b];
    FlatOne(b);
  }

  lemma FlatThree(a: seq<Byte>, b: seq<Byte>, c: seq<Byte>)
    ensures Flat([a, b, c]) == a + b + c
  {
    assert [a, b, c][1..] == [b, c];
    FlatTwo(b, c);
  }

  /** A C++ std::string seen as its bytes. */
  function OfText(s: string): (bs: seq<Byte>)
    ensures |bs| == |s|
  {
    seq(|s|, i requires 0 <= i < |s| => (s[i] as int) % 256)
  }

  function ToText(bs: seq<Byte>): (s: string)
    ensures |s| == |bs|
  {
    seq(|bs|, i requires 0 <= i < |bs| => bs[i] as char)
  }

  /** A string whose every element fits in one C++ char. */
  predicate OneByte(s: string) {
    forall i :: 0 <= i < |s| ==> s[i] as int < 256
  }

  lemma TextRoundTrip(s: string)
    requires OneByte(s)
    ensures ToText(OfText(s)) == s
  {
  }

  lemma ToTextConcat(a: seq<Byte>, b: seq<Byte>)
    ensures ToText(a + b) == ToText(a) + ToText(b)
  {
  }

  datatype Endian = Big | Little

  function Pow256(k: nat): nat {
    if k == 0 then 1 else 256 * Pow256(k - 1)
  }

  lemma Powers()
    ensures Pow256(1) == 0x100 && Pow256(2) == 0x1_0000
    ensures Pow256(4) == 0x1_0000_0000 && Pow256(8) == 0x1_0000_0000_0000_0000
  {
    assert Pow256(1) == 0x100;
    assert Pow256(2) == 0x1_0000;
    assert Pow256(3) == 0x100_0000;
    assert Pow256(4) == 0x1_0000_0000;
    assert Pow256(5) == 0x100_0000_0000;
    assert Pow256(6) == 0x1_0000_0000_0000;
    assert Pow256(7) == 0x100_0000_0000_0000;
  }

  function Be(n: nat, k: nat): (r: seq<Byte>)
    ensures |r| == k
  {
    if k == 0 then [] else Be(n / 256, k - 1) + [n % 256]
  }

  function BeValue(bs: seq<Byte>): nat {
    if bs == [] then 0 else 256 * BeValue(bs[..|bs| - 1]) + bs[|bs| - 1]
  }

  lemma {:induction false} BeRoundTrip(n: nat, k: nat)
    requires n < Pow256(k)
    ensures BeValue(Be(n, k)) == n
  {
    if k > 0 {
      BeRoundTrip(n / 256, k - 1);
      assert Be(n, k)[..k - 1] == Be(n / 256, k - 1);
    }
  }

  function Le(n: nat, k: nat): (r: seq<Byte>)
    ensures |r| == k
  {
    if k == 0 then [] else [n % 256] + Le(n / 256, k - 1)
  }

  function LeValue(bs: seq<Byte>): nat {
    if bs == [] then 0 else bs[0] + 256 * LeValue(bs[1..])
  }

  lemma {:induction false} LeRoundTrip(n: nat, k: nat)
    requires n < Pow256(k)
    ensures LeValue(Le(n, k)) == n
  {
    if k > 0 {
      LeRoundTrip(n / 256, k - 1);
      assert Le(n, k)[1..] == Le(n / 256, k - 1);
    }
  }

  function Encode(e: Endian, n: nat, k: nat): (r: seq<Byte>)
    ensures |r| == k
  {
    if e.Big? then Be(n, k) else Le(n, k)
  }

  function Decode(e: Endian, bs: seq<Byte>): nat {
    if e.Big? then BeValue(bs) else LeValue(bs)
  }

  lemma RoundTrip(e: Endian, n: nat, k: nat)
    requires n < Pow256(k)
    ensures Decode(e, Encode(e, n, k)) == n
  {
    BeRoundTrip(n, k);
    LeRoundTrip(n, k);
  }

  predicate IsInt64(x: int) {
    -0x8000_0000_0000_0000 <= x < 0x8000_0000_0000_0000
  }

  type Int64 = x: int | IsInt64(x)

  /** The two's complement image of a signed 64-bit integer in memory. */
  function Int64Bytes(e: Endian, x: int): (r: seq<Byte>)
    requires IsInt64(x)
    ensures |r| == 8
  {
    Encode(e, if x >= 0 then x else x + 0x1_0000_0000_0000_0000, 8)
  }

  /** The value of a k-byte pattern read as two's complement. */
  function Signed(n: nat, k: nat): int {
    if k == 0 then 0
    else if n < 128 * Pow256(k - 1) then n else n - 256 * Pow256(k - 1)
  }

  lemma Int64RoundTrip(e: Endian, x: int)
    requires IsInt64(x)
    ensures Signed(Decode(e, Int64Bytes(e, x)), 8) == x
  {
    Powers();
    RoundTrip(e, if x >= 0 then x else x + 0x1_0000_0000_0000_0000, 8);
    assert Pow256(8) == 256 * Pow256(7);
  }
}
