/** Fixed-width unsigned integers in either byte order, and slices of a buffer. */
module Endian {
  import opened Common
  import opened Struct

  function Reversed(s: seq<byte>): (r: seq<byte>)
    ensures |r| == |s|
  {
    if s == [] then [] else Reversed(s[1..]) + [s[0]]
  }

  lemma {:induction false} ReversedAppend(s: seq<byte>, x: byte)
    ensures Reversed(s + [x]) == [x] + Reversed(s)
  {
    if s != [] {
      ReversedAppend(s[1..], x);
      assert (s + [x])[1..] == s[1..] + [x];
    }
  }

  lemma {:induction false} ReversedTwice(s: seq<byte>)
    ensures Reversed(Reversed(s)) == s
  {
    if s != [] {
      ReversedAppend(Reversed(s[1..]), s[0]);
      ReversedTwice(s[1..]);
    }
  }

  function Write(v: nat, n: nat, big: bool): (r: seq<byte>)
    ensures |r| == n
  {
    if big then Reversed(PackLE(v, n)) else PackLE(v, n)
  }

  function Read(s: seq<byte>, big: bool): nat
  {
    UnpackLE(if big then Reversed(s) else s)
  }

  lemma ReadWrite(v: nat, n: nat, big: bool)
    requires v < Pow256(n)
    ensures Read(Write(v, n, big), big) == v
  {
    UnpackPackLE(v, n);
    ReversedTwice(PackLE(v, n));
  }

  lemma WriteRead(s: seq<byte>, big: bool)
    ensures Read(s, big) < Pow256(|s|)
    ensures Write(Read(s, big), |s|, big) == s
  {
    PackUnpackLE(if big then Reversed(s) else s);
    ReversedTwice(s);
  }

  lemma Widths()
    ensures Pow256(2) == 0x1_0000 && Pow256(4) == 0x1_0000_0000 && Pow256(8) == 0x1_0000_0000_0000_0000
  {
    assert Pow256(1) == 256 && Pow256(2) == 0x1_0000;
    assert Pow256(3) == 0x100_0000 && Pow256(4) == 0x1_0000_0000;
    assert Pow256(5) == 0x100_0000_0000 && Pow256(6) == 0x1_0000_0000_0000;
    assert Pow256(7) == 0x100_0000_0000_0000;
  }

  /** The unsigned field of n bytes at an offset. */
  function Field(raw: seq<byte>, at: nat, n: nat, big: bool): (r: nat)
    requires at + n <= |raw|
  {
    Read(raw[at..at + n], big)
  }
}
