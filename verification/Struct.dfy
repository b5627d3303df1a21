/** Little-endian integer fields packed without padding, as in a "<..." struct format. */
module Struct {
  import opened Common

  function Pow256(n: nat): (r: nat)
    ensures r > 0
  {
    if n == 0 then 1 else 256 * Pow256(n - 1)
  }

  function PackLE(v: nat, n: nat): (r: seq<byte>)
    ensures |r| == n
  {
    if n == 0 then [] else [v % 256] + PackLE(v / 256, n - 1)
  }

  function UnpackLE(s: seq<byte>): nat
  {
    if s == [] then 0 else s[0] + 256 * UnpackLE(s[1..])
  }

  /** Total size of a format given as field widths. */
  function Size(widths: seq<nat>): nat
  {
    if widths == [] then 0 else widths[0] + Size(widths[1..])
  }

  predicate Fits(values: seq<nat>, widths: seq<nat>)
  {
    && |values| == |widths|
    && forall i :: 0 <= i < |values| ==> values[i] < Pow256(widths[i])
  }

  function Pack(values: seq<nat>, widths: seq<nat>): (r: seq<byte>)
    requires |values| == |widths|
    ensures |r| == Size(widths)
  {
    if values == [] then [] else PackLE(values[0], widths[0]) + Pack(values[1..], widths[1..])
  }

  function Unpack(raw: seq<byte>, widths: seq<nat>): (r: seq<nat>)
    requires Size(widths) <= |raw|
    ensures |r| == |widths|
  {
    if widths == [] then [] else [UnpackLE(raw[..widths[0]])] + Unpack(raw[widths[0]..], widths[1..])
  }

  lemma {:induction false} UnpackPackLE(v: nat, n: nat)
    requires v < Pow256(n)
    ensures UnpackLE(PackLE(v, n)) == v
  {
    if n > 0 {
      UnpackPackLE(v / 256, n - 1);
      assert PackLE(v, n)[1..] == PackLE(v / 256, n - 1);
    }
  }

  lemma {:induction false} PackUnpackLE(s: seq<byte>)
    ensures UnpackLE(s) < Pow256(|s|)
    ensures PackLE(UnpackLE(s), |s|) == s
  {
    if s != [] {
      PackUnpackLE(s[1..]);
      assert UnpackLE(s) % 256 == s[0] && UnpackLE(s) / 256 == UnpackLE(s[1..]);
    }
  }

  /** Reading a packed record back gives the values written, whatever follows it. */
  lemma {:induction false} UnpackPack(values: seq<nat>, widths: seq<nat>, tail: seq<byte>)
    requires Fits(values, widths)
    ensures Unpack(Pack(values, widths) + tail, widths) == values
  {
    if values != [] {
      var head := PackLE(values[0], widths[0]);
      var rest := Pack(values[1..], widths[1..]);
      UnpackPackLE(values[0], widths[0]);
      assert Fits(values[1..], widths[1..]);
      UnpackPack(values[1..], widths[1..], tail);
      hide PackLE, UnpackLE, Pow256;
      HeadTail(head, rest, tail);
    }
  }

  lemma HeadTail(head: seq<byte>, rest: seq<byte>, tail: seq<byte>)
    ensures (head + rest + tail)[..|head|] == head && (head + rest + tail)[|head|..] == rest + tail
  {
  }

  /** Every record is the packing of what is read from it: the format has one encoding per value. */
  lemma {:induction false} PackUnpack(raw: seq<byte>, widths: seq<nat>)
    requires Size(widths) <= |raw|
    ensures Fits(Unpack(raw, widths), widths)
    ensures Pack(Unpack(raw, widths), widths) == raw[..Size(widths)]
  {
    if widths != [] {
      PackUnpackLE(raw[..widths[0]]);
      PackUnpack(raw[widths[0]..], widths[1..]);
      var values := Unpack(raw, widths);
      assert values[1..] == Unpack(raw[widths[0]..], widths[1..]);
      assert raw[..Size(widths)] == raw[..widths[0]] + raw[widths[0]..][..Size(widths[1..])];
    }
  }

  lemma PackFront(values: seq<nat>, widths: seq<nat>)
    requires 0 < |values| == |widths|
    ensures Pack(values, widths) == PackLE(values[0], widths[0]) + Pack(values[1..], widths[1..])
    ensures Size(widths) == widths[0] + Size(widths[1..])
  {
  }

  lemma {:induction false} PackSplit(a: seq<nat>, wa: seq<nat>, b: seq<nat>, wb: seq<nat>)
    requires |a| == |wa| && |b| == |wb|
    ensures Size(wa + wb) == Size(wa) + Size(wb)
    ensures Pack(a + b, wa + wb) == Pack(a, wa) + Pack(b, wb)
  {
    if a == [] {
      assert a + b == b && wa + wb == wb;
    } else {
      PackSplit(a[1..], wa[1..], b, wb);
      assert (a + b)[1..] == a[1..] + b && (wa + wb)[1..] == wa[1..] + wb;
      hide Pack, PackLE, Size;
      PackFront(a, wa);
      PackFront(a + b, wa + wb);
    }
  }

  function Replaced(s: seq<byte>, offset: nat, bytes: seq<byte>): seq<byte>
    requires offset + |bytes| <= |s|
  {
    s[..offset] + bytes + s[offset + |bytes|..]
  }

  /** Overwrites part of a buffer in place, as struct.pack_into does. */
  method PackInto(a: array<byte>, offset: nat, bytes: seq<byte>)
    requires offset + |bytes| <= a.Length
    modifies a
    ensures a[..] == Replaced(old(a[..]), offset, bytes)
  {
    for i := 0 to |bytes|
      invariant a[..] == Replaced(old(a[..]), offset, bytes[..i])
    {
      a[offset + i] := bytes[i];
      assert bytes[..i + 1] == bytes[..i] + [bytes[i]];
    }
    assert bytes[..|bytes|] == bytes;
  }
}
