/** The PCAP container: the reference writer and the bounded parser. */
module Pcap {
  import opened Common
  import opened Struct
  import opened Endian

  const NS_PER_SECOND: nat := 1_000_000_000
  const MAX_PACKET_BYTES: nat := 65535
  const HEADER_BYTES: nat := 24
  const RECORD_BYTES: nat := 16

  /** What the global header says: byte order, time units per second, snap length and link type. */
  datatype Format = Format(big: bool, nanos: bool, snaplen: nat, linktype: nat)
  {
    function Rate(): nat { if nanos then NS_PER_SECOND else 1_000_000 }

    predicate Valid() { 1 <= snaplen <= MAX_PACKET_BYTES && LinkType(linktype) }
  }

  datatype Packet = Packet(data: seq<byte>, seconds: nat, sub: nat, wirelen: nat)
  {
    predicate Valid(f: Format)
    {
      && Lengths(|data|, wirelen, f.snaplen) && sub < f.Rate() && seconds <= U32_MAX
    }
  }

  predicate LinkType(value: nat) { value == 1 || value == 227 }

  predicate Lengths(caplen: nat, wirelen: nat, snaplen: nat)
  {
    caplen <= Min(snaplen, MAX_PACKET_BYTES) && caplen <= wirelen <= MAX_PACKET_BYTES && wirelen > 0
  }

  // ---------------------------------------------------------------- the format

  function Magic(big: bool, nanos: bool): (r: seq<byte>)
    ensures |r| == 4
  {
    if big then (if nanos then [0xa1, 0xb2, 0x3c, 0x4d] else [0xa1, 0xb2, 0xc3, 0xd4])
    else if nanos then [0x4d, 0x3c, 0xb2, 0xa1] else [0xd4, 0xc3, 0xb2, 0xa1]
  }

  function Header(f: Format): (r: seq<byte>)
    ensures |r| == HEADER_BYTES
  {
    Magic(f.big, f.nanos) + Write(2, 2, f.big) + Write(4, 2, f.big) + Write(0, 4, f.big) + Write(0, 4, f.big)
    + Write(f.snaplen, 4, f.big) + Write(f.linktype, 4, f.big)
  }

  function Record(f: Format, p: Packet): (r: seq<byte>)
    ensures |r| == RECORD_BYTES + |p.data|
  {
    Write(p.seconds, 4, f.big) + Write(p.sub, 4, f.big) + Write(|p.data|, 4, f.big) + Write(p.wirelen, 4, f.big) + p.data
  }

  function Body(f: Format, packets: seq<Packet>): seq<byte>
  {
    if packets == [] then [] else Record(f, packets[0]) + Body(f, packets[1..])
  }

  function Container(f: Format, packets: seq<Packet>): seq<byte>
  {
    Header(f) + Body(f, packets)
  }

  ghost predicate AllValid(f: Format, packets: seq<Packet>)
  {
    forall i :: 0 <= i < |packets| ==> packets[i].Valid(f)
  }

  // ---------------------------------------------------------------- what the parser computes

  /** Byte order and resolution named by the first four bytes. */
  function Order(raw: seq<byte>): Option<(bool, bool)>
    requires |raw| >= 4
  {
    if raw[..4] == Magic(false, false) then Some((false, false))
    else if raw[..4] == Magic(true, false) then Some((true, false))
    else if raw[..4] == Magic(false, true) then Some((false, true))
    else if raw[..4] == Magic(true, true) then Some((true, true))
    else None
  }

  function ParseHeader(raw: seq<byte>): Result<Format>
  {
    if |raw| < HEADER_BYTES || Order(raw).None? then Err(Resource)
    else
      var big := Order(raw).value.0;
      if Field(raw, 4, 2, big) != 2 || Field(raw, 6, 2, big) != 4 || Field(raw, 8, 4, big) != 0 || Field(raw, 12, 4, big) != 0
         || !(1 <= Field(raw, 16, 4, big) <= MAX_PACKET_BYTES) then Err(Resource)
      else if !LinkType(Field(raw, 20, 4, big)) then Err(Unsupported)
      else Ok(Format(big, Order(raw).value.1, Field(raw, 16, 4, big), Field(raw, 20, 4, big)))
  }

  /** The packet that begins a non-empty rest of a capture. */
  function ParsePacket(f: Format, rest: seq<byte>): (r: Result<Packet>)
    ensures r.Ok? ==> RECORD_BYTES + |r.value.data| <= |rest|
  {
    if |rest| < RECORD_BYTES then Err(Resource)
    else
      var seconds, sub := Field(rest, 0, 4, f.big), Field(rest, 4, 4, f.big);
      var caplen, wirelen := Field(rest, 8, 4, f.big), Field(rest, 12, 4, f.big);
      if !Lengths(caplen, wirelen, f.snaplen) || sub >= f.Rate() || RECORD_BYTES + caplen > |rest| then Err(Resource)
      else Ok(Packet(rest[RECORD_BYTES..RECORD_BYTES + caplen], seconds, sub, wirelen))
  }

  function ParseBody(f: Format, rest: seq<byte>, room: nat): Result<seq<Packet>>
    decreases |rest|
  {
    if rest == [] then Ok([])
    else
      var first := ParsePacket(f, rest);
      if first.Err? then Err(first.code)
      else if room == 0 then Err(Capacity)
      else
        var others := ParseBody(f, rest[RECORD_BYTES + |first.value.data|..], room - 1);
        if others.Err? then others else Ok([first.value] + others.value)
  }

  function After(done: seq<Packet>, others: Result<seq<Packet>>): Result<seq<Packet>>
  {
    if others.Err? then others else Ok(done + others.value)
  }

  method PcapEnvelopes(raw: seq<byte>, maxPackets: nat) returns (r: Result<(Format, seq<Packet>)>)
    ensures r == (var f := ParseHeader(raw);
                  if f.Err? then Err(f.code)
                  else
                    var packets := ParseBody(f.value, raw[HEADER_BYTES..], maxPackets);
                    if packets.Err? then Err(packets.code) else Ok((f.value, packets.value)))
  {
    hide ParseHeader, ParsePacket;
    var header := ParseHeader(raw);
    if header.Err? {
      return Err(header.code);
    }
    HeaderLong(raw);
    var f := header.value;
    var offset, packets := HEADER_BYTES, [];
    ghost var whole := ParseBody(f, raw[HEADER_BYTES..], maxPackets);
    assert whole.Ok? ==> [] + whole.value == whole.value;
    while offset < |raw|
      invariant HEADER_BYTES <= offset <= |raw| && |packets| <= maxPackets
      invariant ParseBody(f, raw[HEADER_BYTES..], maxPackets) == After(packets, ParseBody(f, raw[offset..], maxPackets - |packets|))
    {
      var packet := ParsePacket(f, raw[offset..]);
      if packet.Err? {
        return Err(packet.code);
      }
      if |packets| >= maxPackets {
        return Err(Capacity);
      }
      var next := offset + RECORD_BYTES + |packet.value.data|;
      assert raw[offset..][RECORD_BYTES + |packet.value.data|..] == raw[next..];
      ghost var others := ParseBody(f, raw[next..], maxPackets - |packets| - 1);
      assert others.Ok? ==> packets + ([packet.value] + others.value) == packets + [packet.value] + others.value;
      packets := packets + [packet.value];
      offset := next;
    }
    assert raw[offset..] == [] && packets + [] == packets;
    return Ok((f, packets));
  }

  lemma HeaderLong(raw: seq<byte>)
    requires ParseHeader(raw).Ok?
    ensures |raw| >= HEADER_BYTES
  {
  }

  // ---------------------------------------------------------------- the parser inverts the format

  lemma MagicOrder(big: bool, nanos: bool, rest: seq<byte>)
    ensures Order(Magic(big, nanos) + rest) == Some((big, nanos))
  {
    var raw := Magic(big, nanos) + rest;
    assert raw[..4] == Magic(big, nanos);
    assert raw[..4][0] == Magic(big, nanos)[0] && raw[..4][2] == Magic(big, nanos)[2];
  }

  lemma HeaderSlices(a: seq<byte>, b: seq<byte>, c: seq<byte>, d: seq<byte>, e: seq<byte>, g: seq<byte>, h: seq<byte>, rest: seq<byte>)
    requires |a| == |d| == |e| == |g| == |h| == 4 && |b| == |c| == 2
    ensures var raw := a + b + c + d + e + g + h + rest;
      && raw[..4] == a && raw[4..6] == b && raw[6..8] == c && raw[8..12] == d && raw[12..16] == e && raw[16..20] == g && raw[20..24] == h
  {
  }

  lemma HeaderCut(raw: seq<byte>)
    requires |raw| >= 24
    ensures raw[..24] == raw[..4] + raw[4..6] + raw[6..8] + raw[8..12] + raw[12..16] + raw[16..20] + raw[20..24]
  {
  }

  lemma RecordSlices(a: seq<byte>, b: seq<byte>, c: seq<byte>, d: seq<byte>, data: seq<byte>, rest: seq<byte>)
    requires |a| == |b| == |c| == |d| == 4
    ensures var raw := a + b + c + d + data + rest;
      raw[0..4] == a && raw[4..8] == b && raw[8..12] == c && raw[12..16] == d && raw[16..16 + |data|] == data
  {
  }

  lemma RecordCut(raw: seq<byte>, n: nat)
    requires 16 + n <= |raw|
    ensures raw == raw[0..4] + raw[4..8] + raw[8..12] + raw[12..16] + raw[16..16 + n] + raw[16 + n..]
  {
  }

  lemma HeaderParsed(f: Format, rest: seq<byte>)
    requires f.Valid()
    ensures ParseHeader(Header(f) + rest) == Ok(f)
  {
    hide Write, Read, Order, Magic;
    Widths();
    var raw := Header(f) + rest;
    var big := f.big;
    HeaderSlices(Magic(big, f.nanos), Write(2, 2, big), Write(4, 2, big), Write(0, 4, big), Write(0, 4, big),
                 Write(f.snaplen, 4, big), Write(f.linktype, 4, big), rest);
    MagicOrder(big, f.nanos, raw[4..]);
    assert raw[..4] + raw[4..] == raw;
    ReadWrite(2, 2, big);
    ReadWrite(4, 2, big);
    ReadWrite(0, 4, big);
    ReadWrite(f.snaplen, 4, big);
    ReadWrite(f.linktype, 4, big);
  }

  lemma PacketParsed(f: Format, p: Packet, rest: seq<byte>)
    requires p.Valid(f)
    ensures ParsePacket(f, Record(f, p) + rest) == Ok(p)
  {
    hide Write, Read;
    Widths();
    var raw := Record(f, p) + rest;
    RecordSlices(Write(p.seconds, 4, f.big), Write(p.sub, 4, f.big), Write(|p.data|, 4, f.big), Write(p.wirelen, 4, f.big), p.data, rest);
    ReadWrite(p.seconds, 4, f.big);
    ReadWrite(p.sub, 4, f.big);
    ReadWrite(|p.data|, 4, f.big);
    ReadWrite(p.wirelen, 4, f.big);
  }

  /** Parsing what the format lays out gives the packets back, as many as the limit allows. */
  lemma {:induction false} BodyParsed(f: Format, packets: seq<Packet>, room: nat)
    requires AllValid(f, packets)
    ensures ParseBody(f, Body(f, packets), room) == if |packets| <= room then Ok(packets) else Err(Capacity)
    decreases |packets|
  {
    hide ParsePacket, Record;
    if packets != [] {
      var rest := Body(f, packets[1..]);
      PacketParsed(f, packets[0], rest);
      assert (Record(f, packets[0]) + rest)[RECORD_BYTES + |packets[0].data|..] == rest;
      if room > 0 {
        BodyParsed(f, packets[1..], room - 1);
        assert [packets[0]] + packets[1..] == packets;
      }
    }
  }

  lemma PacketLaidOut(f: Format, rest: seq<byte>)
    requires ParsePacket(f, rest).Ok?
    ensures var p := ParsePacket(f, rest).value;
      p.Valid(f) && rest == Record(f, p) + rest[RECORD_BYTES + |p.data|..]
  {
    hide Write, Read;
    Widths();
    var p := ParsePacket(f, rest).value;
    WriteRead(rest[0..4], f.big);
    WriteRead(rest[4..8], f.big);
    WriteRead(rest[8..12], f.big);
    WriteRead(rest[12..16], f.big);
    RecordCut(rest, |p.data|);
  }

  /** Whatever the parser accepts is exactly the layout of the packets it returns. */
  lemma {:induction false} BodyLaidOut(f: Format, rest: seq<byte>, room: nat)
    requires ParseBody(f, rest, room).Ok?
    ensures var packets := ParseBody(f, rest, room).value;
      AllValid(f, packets) && |packets| <= room && rest == Body(f, packets)
    decreases |rest|
  {
    hide ParsePacket, Record, Packet.Valid;
    if rest != [] {
      PacketLaidOut(f, rest);
      var n := RECORD_BYTES + |ParsePacket(f, rest).value.data|;
      BodyLaidOut(f, rest[n..], room - 1);
      assert ParseBody(f, rest, room).value[1..] == ParseBody(f, rest[n..], room - 1).value;
    }
  }

  lemma HeaderLaidOut(raw: seq<byte>)
    requires ParseHeader(raw).Ok?
    ensures ParseHeader(raw).value.Valid() && raw[..HEADER_BYTES] == Header(ParseHeader(raw).value)
  {
    hide Write, Read, Magic;
    var f := ParseHeader(raw).value;
    WriteRead(raw[4..6], f.big);
    WriteRead(raw[6..8], f.big);
    WriteRead(raw[8..12], f.big);
    WriteRead(raw[12..16], f.big);
    WriteRead(raw[16..20], f.big);
    WriteRead(raw[20..24], f.big);
    HeaderCut(raw);
  }

  /** The parser accepts a byte string exactly when it is the container of the packets returned, within the limit. */
  lemma ParseExactly(raw: seq<byte>, f: Format, packets: seq<Packet>, room: nat)
    ensures ParseHeader(raw) == Ok(f) && ParseBody(f, raw[HEADER_BYTES..], room) == Ok(packets)
      <==> f.Valid() && AllValid(f, packets) && |packets| <= room && raw == Container(f, packets)
  {
    hide ParseHeader, ParseBody, Header, Body, Format.Valid, AllValid;
    if ParseHeader(raw) == Ok(f) {
      HeaderLong(raw);
      if ParseBody(f, raw[HEADER_BYTES..], room) == Ok(packets) {
        HeaderLaidOut(raw);
        BodyLaidOut(f, raw[HEADER_BYTES..], room);
        assert raw == raw[..HEADER_BYTES] + raw[HEADER_BYTES..];
      }
    }
    if f.Valid() && AllValid(f, packets) && |packets| <= room && raw == Container(f, packets) {
      HeaderParsed(f, Body(f, packets));
      BodyParsed(f, packets, room);
      assert raw[HEADER_BYTES..] == Body(f, packets);
    }
  }

  // ---------------------------------------------------------------- time

  /** Exact nanoseconds, or nothing when the capture's unit does not divide them or they leave 64 bits. */
  function Timestamp(ticks: nat, rate: pos, offsetSeconds: int): Result<nat>
  {
    var value := ticks * NS_PER_SECOND / rate + offsetSeconds * NS_PER_SECOND;
    if ticks * NS_PER_SECOND % rate != 0 || !(0 <= value <= U64_MAX) then Err(Resource) else Ok(value)
  }

  function TimestampOf(f: Format, p: Packet): Result<nat>
  {
    Timestamp(p.seconds * f.Rate() + p.sub, f.Rate(), 0)
  }

  /** Every PCAP packet has an exact time: its seconds and its fraction. */
  lemma ExactTime(f: Format, p: Packet)
    requires p.Valid(f)
    ensures TimestampOf(f, p) == Ok(p.seconds * NS_PER_SECOND + p.sub * (if f.nanos then 1 else 1000))
  {
    hide Lengths;
    var ticks := p.seconds * f.Rate() + p.sub;
    if f.nanos {
      assert ticks * NS_PER_SECOND / NS_PER_SECOND == ticks && ticks * NS_PER_SECOND % NS_PER_SECOND == 0;
    } else {
      assert ticks * NS_PER_SECOND == (ticks * 1000) * 1_000_000;
      assert (ticks * 1000) * 1_000_000 / 1_000_000 == ticks * 1000 && (ticks * 1000) * 1_000_000 % 1_000_000 == 0;
    }
  }

  // ---------------------------------------------------------------- the writer

  /** The writer's own format: little-endian nanoseconds, Ethernet. */
  const WRITTEN: Format := Format(false, true, MAX_PACKET_BYTES, 1)

  function Framed(frame: seq<byte>, stamp: nat): Packet
  {
    Packet(frame, stamp / NS_PER_SECOND, stamp % NS_PER_SECOND, |frame|)
  }

  predicate Writable(frame: seq<byte>, stamp: int)
  {
    1 <= |frame| <= MAX_PACKET_BYTES && 0 <= stamp && stamp / NS_PER_SECOND <= U32_MAX
  }

  method PcapBytes(frames: seq<seq<byte>>, stamps: seq<int>) returns (r: Result<seq<byte>>)
    ensures r.Ok? <==> 0 < |frames| == |stamps| && forall i :: 0 <= i < |frames| ==> Writable(frames[i], stamps[i])
    ensures r.Ok? ==>
      r.value == Container(WRITTEN, seq(|frames|, i requires 0 <= i < |frames| && stamps[i] >= 0 => Framed(frames[i], stamps[i])))
  {
    hide Header, Record;
    if |frames| == 0 || |frames| != |stamps| {
      return Err(Resource);
    }
    var output := Header(WRITTEN);
    ghost var packets: seq<Packet> := [];
    for i := 0 to |frames|
      invariant forall j :: 0 <= j < i ==> Writable(frames[j], stamps[j])
      invariant |packets| == i && output == Container(WRITTEN, packets)
      invariant forall j :: 0 <= j < i ==> packets[j] == Framed(frames[j], stamps[j])
    {
      if !(1 <= |frames[i]| <= MAX_PACKET_BYTES) {
        return Err(Resource);
      }
      if stamps[i] < 0 || stamps[i] / NS_PER_SECOND > U32_MAX {
        return Err(Schema);
      }
      BodyAppend(WRITTEN, packets, Framed(frames[i], stamps[i]));
      packets := packets + [Framed(frames[i], stamps[i])];
      output := output + Record(WRITTEN, Framed(frames[i], stamps[i]));
    }
    assert packets == seq(|frames|, i requires 0 <= i < |frames| && stamps[i] >= 0 => Framed(frames[i], stamps[i]));
    return Ok(output);
  }

  lemma {:induction false} BodyAppend(f: Format, packets: seq<Packet>, p: Packet)
    ensures Body(f, packets + [p]) == Body(f, packets) + Record(f, p)
  {
    if packets != [] {
      BodyAppend(f, packets[1..], p);
      assert (packets + [p])[1..] == packets[1..] + [p];
    }
  }

  /** Writing then parsing gives back the frames, and their times to the nanosecond. */
  lemma RoundTrip(frames: seq<seq<byte>>, stamps: seq<nat>, room: nat)
    requires |frames| == |stamps| <= room && forall i :: 0 <= i < |frames| ==> Writable(frames[i], stamps[i])
    ensures var packets := seq(|frames|, i requires 0 <= i < |frames| => Framed(frames[i], stamps[i]));
      var raw := Container(WRITTEN, packets);
      && ParseHeader(raw) == Ok(WRITTEN)
      && ParseBody(WRITTEN, raw[HEADER_BYTES..], room) == Ok(packets)
      && forall i :: 0 <= i < |frames| ==> packets[i].data == frames[i] && TimestampOf(WRITTEN, packets[i]) == Ok(stamps[i])
  {
    hide ParseHeader, ParseBody, Container, Timestamp;
    var packets := seq(|frames|, i requires 0 <= i < |frames| => Framed(frames[i], stamps[i]));
    forall i | 0 <= i < |frames|
      ensures packets[i].Valid(WRITTEN) && TimestampOf(WRITTEN, packets[i]) == Ok(stamps[i])
    {
      assert Writable(frames[i], stamps[i]);
      ExactTime(WRITTEN, packets[i]);
    }
    ParseExactly(Container(WRITTEN, packets), WRITTEN, packets, room);
  }
}
