/** Conservative rate accounting for background resource traffic. */
module Budget {
  import opened Common

  const NS_PER_SECOND: nat := 1_000_000_000

  /** Whole Ethernet, IPv4 and UDP cost of one datagram, in bits. */
  function PacketBits(packet: seq<byte>): nat
  {
    (Max(|packet| + 46, 64) + 20) * 8
  }

  function TotalBits(packets: seq<seq<byte>>): nat
  {
    if packets == [] then 0 else PacketBits(packets[0]) + TotalBits(packets[1..])
  }

  function WireBits(packets: seq<seq<byte>>): Result<nat>
  {
    if |packets| == 0 then Err(Schema)
    else if exists i :: 0 <= i < |packets| && !(40 <= |packets[i]| <= 1200) then Err(Capacity)
    else Ok(TotalBits(packets))
  }

  lemma WireBitsPositive(packets: seq<seq<byte>>)
    requires WireBits(packets).Ok?
    ensures WireBits(packets).value > 0
  {
    assert PacketBits(packets[0]) > 0;
  }

  /** One accepted reservation. */
  datatype Grant = Grant(bits: nat, start: nat, due: nat)

  function Later(nextNs: nat, now: nat): nat { if now >= nextNs then now else nextNs }

  class ResourceBudget {
    const bitsPerSecond: pos
    var nextNs: nat
    var lastNs: int
    ghost var grants: seq<Grant>

    /** Grants follow one another at the configured rate. */
    ghost predicate Valid()
      reads this
    {
      && Paced(grants, bitsPerSecond)
      && nextNs == (if grants == [] then 0 else grants[|grants| - 1].due)
    }

    constructor (bitsPerSecond: pos)
      ensures Valid() && grants == [] && nextNs == 0 && lastNs == -1
      ensures this.bitsPerSecond == bitsPerSecond
    {
      this.bitsPerSecond := bitsPerSecond;
      nextNs, lastNs, grants := 0, -1, [];
    }

    function Preview(packets: seq<seq<byte>>, now: nat): Result<nat>
      reads this
    {
      if now < lastNs then Err(Schema)
      else
        var bits :- WireBits(packets);
        Ok(Later(nextNs, now) + CeilDiv(bits * NS_PER_SECOND, bitsPerSecond))
    }

    method Reserve(packets: seq<seq<byte>>, now: nat) returns (r: Result<nat>)
      requires Valid()
      modifies this
      ensures Valid()
      ensures r == old(Preview(packets, now))
      ensures r.Err? ==> grants == old(grants) && nextNs == old(nextNs) && lastNs == old(lastNs)
      ensures r.Ok? ==>
        && nextNs == r.value && lastNs == now
        && grants == old(grants) + [Grant(WireBits(packets).value, Later(old(nextNs), now), r.value)]
    {
      r := Preview(packets, now);
      if r.Ok? {
        var bits := WireBits(packets).value;
        WireBitsPositive(packets);
        PacedAppend(grants, bitsPerSecond, bits, Later(nextNs, now));
        grants := grants + [Grant(bits, Later(nextNs, now), r.value)];
        lastNs := now;
        nextNs := r.value;
      }
    }
  }

  /** Each grant starts no earlier than its predecessor ends and lasts the ceiling of its cost at the rate. */
  ghost predicate Paced(grants: seq<Grant>, rate: pos)
  {
    && (forall i :: 0 <= i < |grants| ==>
          grants[i].bits > 0 && grants[i].due == grants[i].start + CeilDiv(grants[i].bits * NS_PER_SECOND, rate))
    && forall i :: 0 < i < |grants| ==> grants[i - 1].due <= grants[i].start
  }

  lemma PacedAppend(grants: seq<Grant>, rate: pos, bits: nat, start: nat)
    requires bits > 0 && Paced(grants, rate)
    requires grants != [] ==> grants[|grants| - 1].due <= start
    ensures Paced(grants + [Grant(bits, start, start + CeilDiv(bits * NS_PER_SECOND, rate))], rate)
  {
  }

  lemma CeilCovers(total: nat, rate: pos)
    ensures total <= rate * CeilDiv(total, rate)
    ensures total > 0 ==> CeilDiv(total, rate) > 0
  {
    var q := CeilDiv(total, rate);
    var r := (total + rate - 1) % rate;
    assert total + rate - 1 == rate * q + r;
  }

  function BitsOf(grants: seq<Grant>): nat
  {
    if grants == [] then 0 else BitsOf(grants[..|grants| - 1]) + grants[|grants| - 1].bits
  }

  /** Due times strictly increase along a run. */
  lemma {:induction false} DueIncreases(grants: seq<Grant>, rate: pos, i: nat, j: nat)
    requires Paced(grants, rate) && i < j < |grants|
    ensures grants[i].due < grants[j].due
    decreases j - i
  {
    CeilCovers(grants[j].bits * NS_PER_SECOND, rate);
    assert grants[j - 1].due <= grants[j].start;
    if i < j - 1 {
      DueIncreases(grants, rate, i, j - 1);
    }
  }

  /** Over any stretch of a run, bits sent never exceed the rate times the time from first start to last due. */
  lemma {:induction false} RateBound(grants: seq<Grant>, rate: pos, i: nat, j: nat)
    requires Paced(grants, rate) && i <= j < |grants|
    ensures grants[i].start <= grants[j].due
    ensures BitsOf(grants[i..j + 1]) * NS_PER_SECOND <= rate * (grants[j].due - grants[i].start)
    decreases j - i
  {
    var g := grants[j];
    var cost := CeilDiv(g.bits * NS_PER_SECOND, rate);
    CeilCovers(g.bits * NS_PER_SECOND, rate);
    var run := grants[i..j + 1];
    assert run[..|run| - 1] == grants[i..j];
    if i < j {
      RateBound(grants, rate, i, j - 1);
      assert grants[i..j - 1 + 1] == grants[i..j];
      StretchCost(rate, BitsOf(grants[i..j]), g.bits, grants[j - 1].due - grants[i].start,
                  g.start - grants[j - 1].due, cost);
    } else {
      assert grants[i..j] == [];
    }
  }

  lemma StretchCost(rate: nat, before: nat, bits: nat, elapsed: nat, gap: nat, cost: nat)
    requires before * NS_PER_SECOND <= rate * elapsed && bits * NS_PER_SECOND <= rate * cost
    ensures (before + bits) * NS_PER_SECOND <= rate * (elapsed + gap + cost)
  {
    assert rate * (elapsed + gap + cost) == rate * elapsed + rate * gap + rate * cost;
  }
}
