/** Business framing of one logical payload into CAN FD frames or UDP datagrams. */
module Wire {
  import opened Common
  import opened Catalogue
  import opened Struct

  datatype Frame =
    | CanFrame(id: nat, data: seq<byte>, isFd: bool, bitrateSwitch: bool, extendedId: bool, remote: bool)
    | Datagram(bytes: seq<byte>)

  datatype Fragment = Fragment(
    transport: Transport,
    direction: Direction,
    messageId: nat,
    header: Header,
    index: nat,
    count: nat,
    payload: seq<byte>,
    reservation: nat)

  const UDP_MAGIC: nat := 0x314c4948 // "HIL1"

  /** Field widths of the UDP header up to its checksum. */
  function UdpWidths(): (r: seq<nat>)
    ensures |r| == 14
  {
    [4, 1, 1, 2, 4, 4, 4, 4, 2, 2, 2, 2, 2, 2]
  }

  /** Field widths of the CAN FD application header. */
  function CanWidths(): (r: seq<nat>)
    ensures |r| == 11
  {
    [1, 1, 1, 1, 4, 4, 4, 4, 1, 1, 2]
  }

  function ChunkBytes(t: Transport): nat { if t.CanFd? then 38 else 1160 }

  function MaxFragments(t: Transport): nat { if t.CanFd? then 7 else 57 }

  // ---------------------------------------------------------------- framing

  function Chunks(raw: seq<byte>, size: nat): seq<seq<byte>>
    requires size > 0
    decreases |raw|
  {
    if |raw| == 0 then []
    else if |raw| <= size then [raw]
    else [raw[..size]] + Chunks(raw[size..], size)
  }

  function UdpValues(id: nat, h: Header, index: nat, count: nat, length: nat): (r: seq<nat>)
    ensures |r| == 14
  {
    [UDP_MAGIC, 1, 0, 0, h.sessionId, h.sequence, h.targetStep, h.transactionId,
     index, count, length, h.validForMs, id, 0]
  }

  function CanValues(h: Header, index: nat, count: nat, length: nat): (r: seq<nat>)
    ensures |r| == 11
  {
    [1, 0, 0, length, h.sessionId, h.sequence, h.targetStep, h.transactionId, index, count, h.validForMs]
  }

  function CanChecksum(c: Contract, id: nat, body: seq<byte>): (r: seq<byte>)
    ensures |r| == 2
  {
    PackLE(c.crc16(PackLE(id, 2) + body), 2)
  }

  /** The 24 bytes in front of a CAN FD chunk. */
  function CanPrefix(h: Header, index: nat, count: nat, length: nat): (r: seq<byte>)
    ensures |r| == 24
  {
    CanSize();
    Pack(CanValues(h, index, count, length), CanWidths())
  }

  /** The 36 bytes in front of a datagram's checksum. */
  function UdpPrefix(id: nat, h: Header, index: nat, count: nat, length: nat): (r: seq<byte>)
    ensures |r| == 36
  {
    UdpSize();
    Pack(UdpValues(id, h, index, count, length), UdpWidths())
  }

  function CanBytes(c: Contract, id: nat, h: Header, index: nat, count: nat, chunk: seq<byte>): (r: seq<byte>)
    requires |chunk| <= 38
    ensures |r| == 64
  {
    CanFramed(c, id, CanPrefix(h, index, count, |chunk|) + chunk + Zeros(38 - |chunk|))
  }

  /** A CAN FD frame: padded body, then the checksum of its identifier and body. */
  function CanFramed(c: Contract, id: nat, body: seq<byte>): (r: seq<byte>)
    ensures |r| == |body| + 2
  {
    body + CanChecksum(c, id, body)
  }

  function UdpBytes(c: Contract, id: nat, h: Header, index: nat, count: nat, chunk: seq<byte>): (r: seq<byte>)
    ensures |r| == 40 + |chunk|
  {
    UdpFramed(c, UdpPrefix(id, h, index, count, |chunk|), chunk)
  }

  /** A datagram: header, checksum of header and chunk, chunk. */
  function UdpFramed(c: Contract, prefix: seq<byte>, chunk: seq<byte>): (r: seq<byte>)
    ensures |r| == |prefix| + 4 + |chunk|
  {
    prefix + PackLE(c.crc32(prefix + chunk), 4) + chunk
  }

  function FrameOf(c: Contract, e: Entry, t: Transport, h: Header, index: nat, count: nat, chunk: seq<byte>): Frame
    requires |chunk| <= ChunkBytes(t)
    requires t.CanFd? ==> e.canId.Some?
  {
    if t.CanFd? then
      CanFrame(e.canId.value, CanBytes(c, e.canId.value, h, index, count, chunk), true, true, false, false)
    else
      Datagram(UdpBytes(c, e.id, h, index, count, chunk))
  }

  /** What message validation and payload encoding promise about the bytes handed to framing. */
  predicate Encodable(c: Contract, id: nat, h: Header, raw: seq<byte>, t: Transport)
  {
    && c.Valid()
    && c.CheckHeader(id, h).Ok?
    && t in c.entries[id].transports
    && 1 <= |raw| <= c.entries[id].maxPayload
    && (c.entries[id].encoding.PackedLE? ==> |raw| == c.entries[id].encoding.bytes)
    && |Chunks(raw, ChunkBytes(t))| <= MaxFragments(t)
  }

  /** The frames of a message, one per chunk, in index order. */
  function FramesOf(c: Contract, e: Entry, t: Transport, h: Header, chunks: seq<seq<byte>>): (r: seq<Frame>)
    requires forall k :: 0 <= k < |chunks| ==> |chunks[k]| <= ChunkBytes(t)
    requires t.CanFd? ==> e.canId.Some?
    ensures |r| == |chunks|
  {
    seq(|chunks|, i requires 0 <= i < |chunks| => FrameOf(c, e, t, h, i, |chunks|, chunks[i]))
  }

  function Encoded(c: Contract, id: nat, h: Header, raw: seq<byte>, t: Transport): Result<seq<Frame>>
    requires c.Valid()
  {
    var checked := c.CheckHeader(id, h);
    if checked.Err? then Err(checked.code)
    else if t !in c.entries[id].transports then Err(Unsupported)
    else
      var chunks := Chunks(raw, ChunkBytes(t));
      ChunksShape(raw, ChunkBytes(t));
      if |chunks| > MaxFragments(t) then Err(Capacity)
      else Ok(FramesOf(c, c.entries[id], t, h, chunks))
  }

  method Split(raw: seq<byte>, size: nat) returns (chunks: seq<seq<byte>>)
    requires size > 0
    ensures chunks == Chunks(raw, size)
    ensures |chunks| == CeilDiv(|raw|, size)
    ensures forall i :: 0 <= i < |chunks| ==> |chunks[i]| <= size
  {
    chunks := [];
    var offset := 0;
    while offset < |raw|
      invariant 0 <= offset <= |raw|
      invariant Chunks(raw, size) == chunks + Chunks(raw[offset..], size)
    {
      var stop := if offset + size <= |raw| then offset + size else |raw|;
      ghost var rest := raw[offset..];
      assert rest[..stop - offset] == raw[offset..stop];
      assert rest[stop - offset..] == raw[stop..];
      if stop == |raw| {
        assert Chunks(raw[stop..], size) == [] && rest == raw[offset..stop];
      }
      assert Chunks(rest, size) == [raw[offset..stop]] + Chunks(raw[stop..], size);
      chunks := chunks + [raw[offset..stop]];
      offset := stop;
    }
    ChunksShape(raw, size);
  }

  method BuildFrames(c: Contract, e: Entry, t: Transport, h: Header, chunks: seq<seq<byte>>)
      returns (frames: seq<Frame>)
    requires forall k :: 0 <= k < |chunks| ==> |chunks[k]| <= ChunkBytes(t)
    requires t.CanFd? ==> e.canId.Some?
    ensures frames == FramesOf(c, e, t, h, chunks)
  {
    hide FrameOf;
    frames := [];
    for index := 0 to |chunks|
      invariant frames == FramesOf(c, e, t, h, chunks)[..index]
    {
      frames := frames + [FrameOf(c, e, t, h, index, |chunks|, chunks[index])];
    }
  }

  method Encode(c: Contract, id: nat, h: Header, raw: seq<byte>, t: Transport) returns (r: Result<seq<Frame>>)
    requires c.Valid()
    ensures r == Encoded(c, id, h, raw, t)
  {
    var checked := c.CheckHeader(id, h);
    if checked.Err? {
      return Err(checked.code);
    }
    var e := c.entries[id];
    if t !in e.transports {
      return Err(Unsupported);
    }
    var chunks := Split(raw, ChunkBytes(t));
    if |chunks| > MaxFragments(t) {
      return Err(Capacity);
    }
    var frames := BuildFrames(c, e, t, h, chunks);
    return Ok(frames);
  }

  lemma {:induction false} ChunksShape(raw: seq<byte>, size: nat)
    requires size > 0
    ensures var chunks := Chunks(raw, size);
      && |chunks| == CeilDiv(|raw|, size)
      && (forall i :: 0 <= i < |chunks| ==> 1 <= |chunks[i]| <= size)
      && (forall i :: 0 <= i < |chunks| - 1 ==> |chunks[i]| == size)
      && (raw != [] ==> chunks != [] && |raw| == (|chunks| - 1) * size + |chunks[|chunks| - 1]|)
    decreases |raw|
  {
    if |raw| == 0 {
      CeilDivSmall(0, size);
    } else if |raw| <= size {
      CeilDivSmall(|raw|, size);
    } else {
      ChunksShape(raw[size..], size);
      CeilDivStep(|raw|, size);
      var rest := Chunks(raw[size..], size);
      assert Chunks(raw, size) == [raw[..size]] + rest;
      assert (|rest| + 1 - 1) * size == (|rest| - 1) * size + size;
    }
  }

  lemma CeilDivSmall(total: nat, size: nat)
    requires size > 0 && total <= size
    ensures CeilDiv(total, size) == if total == 0 then 0 else 1
  {
    if total == 0 {
      assert (size - 1) / size == 0;
    } else {
      var q := (total + size - 1) / size;
      assert q == 1 by {
        assert (total + size - 1) == size * 1 + (total - 1);
        DivUnique(total + size - 1, size, 1, total - 1);
      }
    }
  }

  lemma CeilDivStep(total: nat, size: nat)
    requires size > 0 && total >= size
    ensures CeilDiv(total, size) == CeilDiv(total - size, size) + 1
  {
    var q := CeilDiv(total - size, size);
    var r := (total - 1) % size;
    assert total - size + size - 1 == total - 1;
    assert total - 1 == size * q + r;
    DivUnique(total + size - 1, size, q + 1, r);
  }

  lemma DivUnique(a: nat, d: nat, q: nat, r: nat)
    requires d > 0 && a == d * q + r && r < d
    ensures a / d == q
  {
    var p := a / d;
    var k: int := p - q;
    assert d * k == r - a % d;
    assert k >= 1 ==> d * k >= d;
    assert k <= -1 ==> d * k <= 0 - d;
  }

  lemma {:induction false} ChunksJoin(raw: seq<byte>, size: nat)
    requires size > 0
    ensures Join(Chunks(raw, size)) == raw
    decreases |raw|
  {
    if |raw| != 0 && |raw| <= size {
      assert Join([raw]) == raw + Join([]);
    } else if |raw| > size {
      ChunksJoin(raw[size..], size);
      assert Chunks(raw, size)[1..] == Chunks(raw[size..], size);
    }
  }

  // ---------------------------------------------------------------- decoding

  /** The checks every fragment passes before it may reserve reassembly space. */
  function CheckedFragment(c: Contract, t: Transport, e: Entry, h: Header, index: nat, count: nat,
                           payload: seq<byte>): Result<Fragment>
  {
    var size := ChunkBytes(t);
    if !(1 <= count <= MaxFragments(t) && index < count && 1 <= |payload| <= size) then Err(Fragmentation)
    else if (count - 1) * size + 1 > e.maxPayload then Err(Fragmentation)
    else if index < count - 1 && |payload| != size then Err(Fragmentation)
    else if index == count - 1 && (count - 1) * size + |payload| > e.maxPayload then Err(Fragmentation)
    else if e.encoding.PackedLE?
            && (count != CeilDiv(e.encoding.bytes, size)
                || |payload| != Min(size, e.encoding.bytes - index * size)) then Err(Fragmentation)
    else
      var checked := c.CheckHeader(e.id, h);
      if checked.Err? then Err(checked.code)
      else Ok(Fragment(t, e.direction, e.id, h, index, count, payload, Min(count * size, e.maxPayload)))
  }

  function EntryFor(c: Contract, id: nat, t: Transport, direction: Option<Direction>): Result<Entry>
  {
    if id !in c.entries then Err(Unsupported)
    else if t !in c.entries[id].transports then Err(Unsupported)
    else if direction.Some? && direction.value != c.entries[id].direction then Err(Authorization)
    else Ok(c.entries[id])
  }

  /** The checks on a datagram once its header values are read. */
  function UdpFragment(c: Contract, raw: seq<byte>, v: seq<nat>, direction: Option<Direction>): Result<Fragment>
    requires |raw| >= 40 && |v| == 14
  {
    if v[0] != UDP_MAGIC || v[1] != 1 || v[2] != 0 || v[3] != 0 || v[13] != 0 then Err(Version)
    else if |raw| != 40 + v[10] then Err(Fragmentation)
    else if c.crc32(raw[..36] + raw[40..]) != UnpackLE(raw[36..40]) then Err(Crc)
    else
      var e :- EntryFor(c, v[12], Udp, direction);
      CheckedFragment(c, Udp, e, Header(v[4], v[5], v[6], v[7], v[11]), v[8], v[9], raw[40..])
  }

  function DecodeUdp(c: Contract, raw: seq<byte>, direction: Option<Direction>): Result<Fragment>
  {
    if !(41 <= |raw| <= 1200) then Err(Fragmentation)
    else
      UdpSize();
      UdpFragment(c, raw, Unpack(raw, UdpWidths()), direction)
  }

  /** The checks on the 64 bytes of a frame once its header values are read. */
  function CanFragment(c: Contract, e: Entry, data: seq<byte>, v: seq<nat>): Result<Fragment>
    requires |data| == 64 && |v| == 11
  {
    if v[0] != 1 || v[1] != 0 || v[2] != 0 then Err(Version)
    else if !(1 <= v[3] <= 38) || data[24 + v[3]..62] != Zeros(38 - v[3]) then Err(Fragmentation)
    else
      CheckedFragment(c, CanFd, e, Header(v[4], v[5], v[6], v[7], v[10]), v[8], v[9], data[24..24 + v[3]])
  }

  function DecodeCan(c: Contract, f: Frame, direction: Option<Direction>): Result<Fragment>
    requires f.CanFrame?
  {
    if !f.isFd || !f.bitrateSwitch || f.extendedId || f.remote || f.id > 0x7ff then Err(Schema)
    else if f.id !in c.canIds then Err(Unsupported)
    else
      var e :- EntryFor(c, c.canIds[f.id], CanFd, direction);
      if |f.data| != 64 then Err(Fragmentation)
      else if c.crc16(PackLE(f.id, 2) + f.data[..62]) != UnpackLE(f.data[62..]) then Err(Crc)
      else
        CanSize();
        CanFragment(c, e, f.data, Unpack(f.data, CanWidths()))
  }

  function Decode(c: Contract, f: Frame, t: Transport, direction: Option<Direction>): Result<Fragment>
  {
    match t
    case CanFd => if f.CanFrame? then DecodeCan(c, f, direction) else Err(Schema)
    case Udp => if f.Datagram? then DecodeUdp(c, f.bytes, direction) else Err(Fragmentation)
  }

  lemma UdpSize()
    ensures Size(UdpWidths()) == 36
  {
  }

  lemma CanSize()
    ensures Size(CanWidths()) == 24
  {
  }

  // ---------------------------------------------------------------- round trip

  lemma UdpFits(id: nat, h: Header, index: nat, count: nat, length: nat)
    requires h.InRange() && id < 0x1_0000 && index < 0x1_0000 && count < 0x1_0000 && length < 0x1_0000
    ensures Fits(UdpValues(id, h, index, count, length), UdpWidths())
  {
    assert Pow256(1) == 0x100 && Pow256(2) == 0x1_0000 && Pow256(4) == 0x1_0000_0000;
  }

  lemma CanFits(h: Header, index: nat, count: nat, length: nat)
    requires h.InRange() && index < 0x100 && count < 0x100 && length < 0x100
    ensures Fits(CanValues(h, index, count, length), CanWidths())
  {
    assert Pow256(1) == 0x100 && Pow256(2) == 0x1_0000 && Pow256(4) == 0x1_0000_0000;
  }

  /** Where the fields of an encoded datagram are found. */
  lemma UdpLayout(c: Contract, id: nat, h: Header, index: nat, count: nat, chunk: seq<byte>)
    requires Fits(UdpValues(id, h, index, count, |chunk|), UdpWidths())
    ensures var raw := UdpBytes(c, id, h, index, count, chunk);
      && |raw| == 40 + |chunk|
      && Size(UdpWidths()) == 36
      && Unpack(raw, UdpWidths()) == UdpValues(id, h, index, count, |chunk|)
      && raw[..36] == UdpPrefix(id, h, index, count, |chunk|)
      && raw[40..] == chunk
      && UnpackLE(raw[36..40]) == c.crc32(raw[..36] + raw[40..])
  {
    UdpSize();
    hide Pack, Unpack, UdpValues, UdpWidths, Size, UnpackLE, PackLE;
    var prefix := UdpPrefix(id, h, index, count, |chunk|);
    var sum := c.crc32(prefix + chunk);
    assert Pow256(4) == 0x1_0000_0000;
    UnpackPackLE(sum, 4);
    UnpackPack(UdpValues(id, h, index, count, |chunk|), UdpWidths(), PackLE(sum, 4) + chunk);
    var raw := UdpBytes(c, id, h, index, count, chunk);
    assert raw == prefix + (PackLE(sum, 4) + chunk);
    assert raw[36..40] == PackLE(sum, 4);
  }

  /** Where the fields of an encoded CAN FD frame are found. */
  lemma CanLayout(c: Contract, id: nat, h: Header, index: nat, count: nat, chunk: seq<byte>)
    requires id < 0x1_0000 && |chunk| <= 38
    requires Fits(CanValues(h, index, count, |chunk|), CanWidths())
    ensures var raw := CanBytes(c, id, h, index, count, chunk);
      && |raw| == 64
      && Size(CanWidths()) == 24
      && Unpack(raw, CanWidths()) == CanValues(h, index, count, |chunk|)
      && raw[24..24 + |chunk|] == chunk
      && raw[24 + |chunk|..62] == Zeros(38 - |chunk|)
      && UnpackLE(raw[62..]) == c.crc16(PackLE(id, 2) + raw[..62])
  {
    CanSize();
    hide Pack, Unpack, CanValues, CanWidths, Size, UnpackLE, PackLE;
    var prefix := CanPrefix(h, index, count, |chunk|);
    var body := prefix + chunk + Zeros(38 - |chunk|);
    var sum := c.crc16(PackLE(id, 2) + body);
    assert Pow256(2) == 0x1_0000;
    UnpackPackLE(sum, 2);
    var raw := CanBytes(c, id, h, index, count, chunk);
    UnpackPack(CanValues(h, index, count, |chunk|), CanWidths(), chunk + Zeros(38 - |chunk|) + PackLE(sum, 2));
    assert raw == prefix + (chunk + Zeros(38 - |chunk|) + PackLE(sum, 2));
    assert raw[..62] == body && raw[62..] == PackLE(sum, 2);
  }

  /** A fragment the receiver derives from the frame at position i of an encoded message. */
  function ExpectedFragment(e: Entry, t: Transport, h: Header, chunks: seq<seq<byte>>, i: nat): Fragment
    requires i < |chunks|
  {
    Fragment(t, e.direction, e.id, h, i, |chunks|, chunks[i], Min(|chunks| * ChunkBytes(t), e.maxPayload))
  }

  /** Chunking a payload that fits the entry meets every layout check of the receiver. */
  lemma ChunkAccepted(c: Contract, id: nat, h: Header, raw: seq<byte>, t: Transport, i: nat)
    requires Encodable(c, id, h, raw, t)
    requires i < |Chunks(raw, ChunkBytes(t))|
    ensures var chunks := Chunks(raw, ChunkBytes(t));
      CheckedFragment(c, t, c.entries[id], h, i, |chunks|, chunks[i])
        == Ok(ExpectedFragment(c.entries[id], t, h, chunks, i))
  {
    ChunksShape(raw, ChunkBytes(t));
  }

  lemma UdpFrameDecodes(c: Contract, id: nat, h: Header, index: nat, count: nat, chunk: seq<byte>,
                        direction: Option<Direction>)
    requires h.InRange() && id < 0x1_0000
    requires index < 0x1_0000 && count < 0x1_0000 && 1 <= |chunk| <= 1160
    ensures DecodeUdp(c, UdpBytes(c, id, h, index, count, chunk), direction)
      == (var e := EntryFor(c, id, Udp, direction);
          if e.Err? then Err(e.code) else CheckedFragment(c, Udp, e.value, h, index, count, chunk))
  {
    hide UdpBytes, Pack, Unpack, PackLE, UnpackLE, Size, UdpWidths, CheckedFragment, EntryFor, Contract.CheckHeader, UdpFragment,
      UdpValues, Fits;
    UdpFits(id, h, index, count, |chunk|);
    UdpLayout(c, id, h, index, count, chunk);
    UdpChecksPass(c, id, h, index, count, chunk, UdpBytes(c, id, h, index, count, chunk), direction);
  }

  lemma UdpChecksPass(c: Contract, id: nat, h: Header, index: nat, count: nat, chunk: seq<byte>,
                      raw: seq<byte>, direction: Option<Direction>)
    requires |raw| == 40 + |chunk| && raw[40..] == chunk
    requires UnpackLE(raw[36..40]) == c.crc32(raw[..36] + raw[40..])
    ensures UdpFragment(c, raw, UdpValues(id, h, index, count, |chunk|), direction)
      == (var e := EntryFor(c, id, Udp, direction);
          if e.Err? then Err(e.code) else CheckedFragment(c, Udp, e.value, h, index, count, chunk))
  {
    hide PackLE, UnpackLE, CheckedFragment, EntryFor, Contract.CheckHeader;
  }

  lemma CanFrameDecodes(c: Contract, id: nat, h: Header, index: nat, count: nat, chunk: seq<byte>,
                        direction: Option<Direction>)
    requires c.Valid() && id in c.entries && h.InRange() && c.entries[id].canId.Some?
    requires index < 0x100 && count < 0x100 && 1 <= |chunk| <= 38
    ensures DecodeCan(c, FrameOf(c, c.entries[id], CanFd, h, index, count, chunk), direction)
      == (var e := EntryFor(c, id, CanFd, direction);
          if e.Err? then Err(e.code) else CheckedFragment(c, CanFd, e.value, h, index, count, chunk))
  {
    hide CanBytes, Pack, Unpack, PackLE, UnpackLE, Size, CanWidths, CheckedFragment, CanFragment, CanValues, Fits;
    var canId := c.entries[id].canId.value;
    CanFits(h, index, count, |chunk|);
    CanLayout(c, canId, h, index, count, chunk);
    forall e: Entry {
      CanChecksPass(c, e, h, index, count, chunk, CanBytes(c, canId, h, index, count, chunk));
    }
  }

  lemma CanChecksPass(c: Contract, e: Entry, h: Header, index: nat, count: nat, chunk: seq<byte>, data: seq<byte>)
    requires |data| == 64 && 1 <= |chunk| <= 38
    requires data[24..24 + |chunk|] == chunk && data[24 + |chunk|..62] == Zeros(38 - |chunk|)
    ensures CanFragment(c, e, data, CanValues(h, index, count, |chunk|))
      == CheckedFragment(c, CanFd, e, h, index, count, chunk)
  {
    hide CheckedFragment, Contract.CheckHeader;
  }

  /**
   * Every frame of an encoded message decodes, in either direction check the receiver applies, to the
   * fragment carrying its own header, index, count and chunk; the chunks rejoin to the payload.
   */
  lemma EncodeDecode(c: Contract, id: nat, h: Header, raw: seq<byte>, t: Transport, i: nat, direction: Option<Direction>)
    requires Encodable(c, id, h, raw, t)
    requires direction.None? || direction.value == c.entries[id].direction
    requires i < |Chunks(raw, ChunkBytes(t))|
    ensures Encoded(c, id, h, raw, t).Ok?
    ensures |Encoded(c, id, h, raw, t).value| == |Chunks(raw, ChunkBytes(t))| > 0
    ensures Decode(c, Encoded(c, id, h, raw, t).value[i], t, direction)
      == Ok(ExpectedFragment(c.entries[id], t, h, Chunks(raw, ChunkBytes(t)), i))
    ensures Join(Chunks(raw, ChunkBytes(t))) == raw
  {
    hide UdpBytes, CanBytes, DecodeUdp, DecodeCan, Chunks, CheckedFragment;
    var e := c.entries[id];
    var chunks := Chunks(raw, ChunkBytes(t));
    ChunksShape(raw, ChunkBytes(t));
    ChunksJoin(raw, ChunkBytes(t));
    ChunkAccepted(c, id, h, raw, t, i);
    var frame := FramesOf(c, e, t, h, chunks)[i];
    assert frame == FrameOf(c, e, t, h, i, |chunks|, chunks[i]);
    if t.CanFd? {
      CanFrameDecodes(c, id, h, i, |chunks|, chunks[i], direction);
    } else {
      UdpFrameDecodes(c, id, h, i, |chunks|, chunks[i], direction);
    }
  }

  // ---------------------------------------------------------------- canonical frames

  /** The frame that a decoded fragment stands for. */
  function Rebuilt(c: Contract, f: Fragment): Frame
    requires c.Valid() && f.messageId in c.entries && f.transport in c.entries[f.messageId].transports
    requires |f.payload| <= ChunkBytes(f.transport)
  {
    FrameOf(c, c.entries[f.messageId], f.transport, f.header, f.index, f.count, f.payload)
  }

  lemma UdpAccepted(c: Contract, raw: seq<byte>, v: seq<nat>, direction: Option<Direction>)
    requires c.Valid() && |raw| >= 40 && |v| == 14 && UdpFragment(c, raw, v, direction).Ok?
    ensures var f := UdpFragment(c, raw, v, direction).value;
      && f.transport == Udp && f.payload == raw[40..] && |f.payload| <= 1160
      && f.messageId in c.entries && Udp in c.entries[f.messageId].transports
      && UdpValues(f.messageId, f.header, f.index, f.count, |f.payload|) == v
      && UnpackLE(raw[36..40]) == c.crc32(raw[..36] + raw[40..])
  {
    hide UnpackLE, Contract.CheckHeader;
  }

  lemma UdpCanonical(c: Contract, raw: seq<byte>, direction: Option<Direction>)
    requires c.Valid() && DecodeUdp(c, raw, direction).Ok?
    ensures var f := DecodeUdp(c, raw, direction).value;
      && f.transport == Udp && |f.payload| <= 1160
      && f.messageId in c.entries && Udp in c.entries[f.messageId].transports
      && UdpBytes(c, f.messageId, f.header, f.index, f.count, f.payload) == raw
  {
    hide Pack, Unpack, PackLE, UnpackLE, Size, UdpWidths, UdpFragment, UdpValues, Contract.Valid;
    UdpSize();
    PackUnpack(raw, UdpWidths());
    PackUnpackLE(raw[36..40]);
    UdpAccepted(c, raw, Unpack(raw, UdpWidths()), direction);
    assert raw == raw[..36] + raw[36..40] + raw[40..];
  }

  lemma CanAccepted(c: Contract, e: Entry, data: seq<byte>, v: seq<nat>)
    requires |data| == 64 && |v| == 11 && CanFragment(c, e, data, v).Ok?
    ensures var f := CanFragment(c, e, data, v).value;
      && f.transport == CanFd && f.messageId == e.id && |f.payload| <= 38
      && data[24..24 + |f.payload|] == f.payload && data[24 + |f.payload|..62] == Zeros(38 - |f.payload|)
      && CanValues(f.header, f.index, f.count, |f.payload|) == v
  {
    hide Contract.CheckHeader;
  }

  lemma CanCanonical(c: Contract, f: Frame, direction: Option<Direction>)
    requires c.Valid() && f.CanFrame? && DecodeCan(c, f, direction).Ok?
    ensures f.id in c.canIds && c.canIds[f.id] in c.entries
    ensures var g := DecodeCan(c, f, direction).value;
      && g.transport == CanFd && |g.payload| <= 38 && g.messageId == c.canIds[f.id]
      && CanFd in c.entries[g.messageId].transports && c.entries[g.messageId].canId == Some(f.id)
      && CanBytes(c, f.id, g.header, g.index, g.count, g.payload) == f.data
  {
    hide Pack, Unpack, PackLE, UnpackLE, Size, CanWidths, CanFragment, CanValues;
    CanSize();
    var g := DecodeCan(c, f, direction).value;
    PackUnpack(f.data, CanWidths());
    PackUnpackLE(f.data[62..]);
    CanAccepted(c, c.entries[c.canIds[f.id]], f.data, Unpack(f.data, CanWidths()));
    assert f.data[..62] == f.data[..24] + f.data[24..24 + |g.payload|] + f.data[24 + |g.payload|..62];
    assert f.data == f.data[..62] + f.data[62..];
  }

  /** The receiver accepts only canonical frames: the decoded fragment determines every byte of its frame. */
  lemma DecodeCanonical(c: Contract, f: Frame, t: Transport, direction: Option<Direction>)
    requires c.Valid() && Decode(c, f, t, direction).Ok?
    ensures var g := Decode(c, f, t, direction).value;
      && g.transport == t
      && g.messageId in c.entries && t in c.entries[g.messageId].transports
      && |g.payload| <= ChunkBytes(t)
      && Rebuilt(c, g) == f
  {
    hide CanBytes, UdpBytes, Pack, Unpack;
    if t.CanFd? {
      CanCanonical(c, f, direction);
    } else {
      UdpCanonical(c, f.bytes, direction);
    }
  }

  // ---------------------------------------------------------------- rewriting a captured frame

  /** The four header words that a replay may replace, as they stand on the wire. */
  function Identity(h: Header): (r: seq<byte>)
    ensures |r| == 16
  {
    Pack([h.sessionId, h.sequence, h.targetStep, h.transactionId], [4, 4, 4, 4])
  }

  function UdpLead(): (r: seq<byte>)
    ensures |r| == 8
  {
    Pack([UDP_MAGIC, 1, 0, 0], [4, 1, 1, 2])
  }

  function UdpTail(validForMs: nat, id: nat, index: nat, count: nat, length: nat): (r: seq<byte>)
    ensures |r| == 12
  {
    Pack([index, count, length, validForMs, id, 0], [2, 2, 2, 2, 2, 2])
  }

  function CanLead(length: nat): (r: seq<byte>)
    ensures |r| == 4
  {
    Pack([1, 0, 0, length], [1, 1, 1, 1])
  }

  function CanTail(validForMs: nat, index: nat, count: nat): (r: seq<byte>)
    ensures |r| == 4
  {
    Pack([index, count, validForMs], [1, 1, 2])
  }

  lemma Pack3(a: seq<nat>, wa: seq<nat>, b: seq<nat>, wb: seq<nat>, d: seq<nat>, wd: seq<nat>)
    requires |a| == |wa| && |b| == |wb| && |d| == |wd|
    ensures Pack(a + b + d, wa + wb + wd) == Pack(a, wa) + Pack(b, wb) + Pack(d, wd)
  {
    PackSplit(a, wa, b, wb);
    PackSplit(a + b, wa + wb, d, wd);
  }

  lemma UdpPrefixParts(id: nat, h: Header, index: nat, count: nat, length: nat)
    ensures UdpPrefix(id, h, index, count, length) == UdpLead() + Identity(h) + UdpTail(h.validForMs, id, index, count, length)
  {
    var lead, leadW := [UDP_MAGIC, 1, 0, 0], [4, 1, 1, 2];
    var own, ownW := [h.sessionId, h.sequence, h.targetStep, h.transactionId], [4, 4, 4, 4];
    var tail, tailW := [index, count, length, h.validForMs, id, 0], [2, 2, 2, 2, 2, 2];
    assert UdpValues(id, h, index, count, length) == lead + own + tail;
    assert UdpWidths() == leadW + ownW + tailW;
    hide *;
    Pack3(lead, leadW, own, ownW, tail, tailW);
    assert Pack(UdpValues(id, h, index, count, length), UdpWidths()) == Pack(lead + own + tail, leadW + ownW + tailW);
  }

  lemma CanPrefixParts(h: Header, index: nat, count: nat, length: nat)
    ensures CanPrefix(h, index, count, length) == CanLead(length) + Identity(h) + CanTail(h.validForMs, index, count)
  {
    var lead, leadW := [1, 0, 0, length], [1, 1, 1, 1];
    var own, ownW := [h.sessionId, h.sequence, h.targetStep, h.transactionId], [4, 4, 4, 4];
    var tail, tailW := [index, count, h.validForMs], [1, 1, 2];
    assert CanValues(h, index, count, length) == lead + own + tail;
    assert CanWidths() == leadW + ownW + tailW;
    hide *;
    Pack3(lead, leadW, own, ownW, tail, tailW);
    assert Pack(CanValues(h, index, count, length), CanWidths()) == Pack(lead + own + tail, leadW + ownW + tailW);
  }

  lemma ReplacedMiddle(x: seq<byte>, y: seq<byte>, y': seq<byte>, z: seq<byte>)
    requires |y| == |y'|
    ensures Replaced(x + y + z, |x|, y') == x + y' + z
  {
  }

  function UdpPatch(c: Contract, raw: seq<byte>, words: seq<byte>): seq<byte>
    requires |raw| >= 40 && |words| == 16
  {
    var moved := Replaced(raw, 8, words);
    Replaced(moved, 36, PackLE(c.crc32(moved[..36] + moved[40..]), 4))
  }

  function CanPatch(c: Contract, id: nat, raw: seq<byte>, words: seq<byte>): seq<byte>
    requires |raw| == 64 && |words| == 16
  {
    var moved := Replaced(raw, 4, words);
    Replaced(moved, 62, CanChecksum(c, id, moved[..62]))
  }

  lemma UdpPatchParts(c: Contract, lead: seq<byte>, own: seq<byte>, words: seq<byte>, tail: seq<byte>,
                      sum: seq<byte>, chunk: seq<byte>)
    requires |lead| == 8 && |own| == |words| == 16 && |tail| == 12 && |sum| == 4
    ensures var prefix := lead + words + tail;
      UdpPatch(c, lead + own + tail + sum + chunk, words) == UdpFramed(c, prefix, chunk)
  {
    hide PackLE;
    var raw := lead + own + tail + sum + chunk;
    ReplacedMiddle(lead, own, words, tail + sum + chunk);
    assert raw == lead + own + (tail + sum + chunk);
    var prefix := lead + words + tail;
    var moved := Replaced(raw, 8, words);
    assert moved == prefix + sum + chunk;
    assert moved[..36] == prefix && moved[40..] == chunk;
    ReplacedMiddle(prefix, sum, PackLE(c.crc32(prefix + chunk), 4), chunk);
  }

  lemma CanPatchParts(c: Contract, id: nat, lead: seq<byte>, own: seq<byte>, words: seq<byte>, tail: seq<byte>,
                      sum: seq<byte>)
    requires |lead| == 4 && |own| == |words| == 16 && |tail| == 42 && |sum| == 2
    ensures var body := lead + words + tail;
      CanPatch(c, id, lead + own + tail + sum, words) == CanFramed(c, id, body)
  {
    hide CanChecksum, PackLE;
    var raw := lead + own + tail + sum;
    ReplacedMiddle(lead, own, words, tail + sum);
    assert raw == lead + own + (tail + sum);
    var body := lead + words + tail;
    var moved := Replaced(raw, 4, words);
    assert moved == body + sum;
    assert moved[..62] == body;
    ReplacedMiddle(body, sum, CanChecksum(c, id, body), []);
    assert moved == body + sum + [];
  }

  /** Patching the identity words and the checksum of a datagram yields the datagram of the new header. */
  lemma UdpPatched(c: Contract, id: nat, h: Header, h': Header, index: nat, count: nat, chunk: seq<byte>,
                   raw: seq<byte>)
    requires h.validForMs == h'.validForMs
    requires raw == UdpBytes(c, id, h, index, count, chunk)
    ensures UdpPatch(c, raw, Identity(h')) == UdpBytes(c, id, h', index, count, chunk)
  {
    hide PackLE, UdpLead, UdpTail, Identity, UdpPatch, UdpPrefix;
    UdpPrefixParts(id, h, index, count, |chunk|);
    UdpPrefixParts(id, h', index, count, |chunk|);
    var sum := PackLE(c.crc32(UdpPrefix(id, h, index, count, |chunk|) + chunk), 4);
    UdpPatchParts(c, UdpLead(), Identity(h), Identity(h'), UdpTail(h.validForMs, id, index, count, |chunk|), sum, chunk);
  }

  lemma CanPatched(c: Contract, id: nat, h: Header, h': Header, index: nat, count: nat, chunk: seq<byte>,
                   raw: seq<byte>)
    requires h.validForMs == h'.validForMs && |chunk| <= 38
    requires raw == CanBytes(c, id, h, index, count, chunk)
    ensures CanPatch(c, id, raw, Identity(h')) == CanBytes(c, id, h', index, count, chunk)
  {
    hide CanChecksum, PackLE, CanLead, CanTail, Identity, CanPatch, CanPrefix;
    CanPrefixParts(h, index, count, |chunk|);
    CanPrefixParts(h', index, count, |chunk|);
    var rest := chunk + Zeros(38 - |chunk|);
    var lead, tail := CanLead(|chunk|), CanTail(h.validForMs, index, count);
    var body := CanPrefix(h, index, count, |chunk|) + chunk + Zeros(38 - |chunk|);
    assert body == lead + Identity(h) + (tail + rest);
    CanPatchParts(c, id, lead, Identity(h), Identity(h'), tail + rest, CanChecksum(c, id, body));
    assert CanPrefix(h', index, count, |chunk|) + chunk + Zeros(38 - |chunk|) == lead + Identity(h') + (tail + rest);
  }

  /**
   * Replays a captured frame under another header, patching its bytes in place. The result is the frame
   * that framing the same fragment under the new header would have produced.
   */
  method Rewrite(c: Contract, f: Frame, t: Transport, h: Header, direction: Option<Direction>)
      returns (r: Result<Frame>)
    requires c.Valid()
    ensures Decode(c, f, t, direction).Err? ==> r == Err(Decode(c, f, t, direction).code)
    ensures Decode(c, f, t, direction).Ok? ==>
      var g := Decode(c, f, t, direction).value;
      && g.messageId in c.entries && t in c.entries[g.messageId].transports && |g.payload| <= ChunkBytes(t)
      && g.transport == t
      && (c.CheckHeader(g.messageId, h).Err? ==> r == Err(c.CheckHeader(g.messageId, h).code))
      && (c.CheckHeader(g.messageId, h).Ok? ==> r == Ok(Rebuilt(c, g.(header := h))))
  {
    hide Decode, CanBytes, UdpBytes, Identity, PackLE;
    var decoded := Decode(c, f, t, direction);
    if decoded.Err? {
      return Err(decoded.code);
    }
    var g := decoded.value;
    DecodeCanonical(c, f, t, direction);
    DecodedHeader(c, f, t, direction);
    var checked := c.CheckHeader(g.messageId, h);
    if checked.Err? {
      return Err(checked.code);
    }
    if t.CanFd? {
      CanPatched(c, f.id, g.header, h, g.index, g.count, g.payload, f.data);
      var data := new byte[|f.data|](i requires 0 <= i < |f.data| => f.data[i]);
      assert data[..] == f.data;
      PackInto(data, 4, Identity(h));
      PackInto(data, 62, CanChecksum(c, f.id, data[..62]));
      return Ok(CanFrame(f.id, data[..], true, true, false, false));
    } else {
      UdpPatched(c, g.messageId, g.header, h, g.index, g.count, g.payload, f.bytes);
      var data := new byte[|f.bytes|](i requires 0 <= i < |f.bytes| => f.bytes[i]);
      assert data[..] == f.bytes;
      PackInto(data, 8, Identity(h));
      PackInto(data, 36, PackLE(c.crc32(data[..36] + data[40..]), 4));
      return Ok(Datagram(data[..]));
    }
  }

  lemma DecodedHeader(c: Contract, f: Frame, t: Transport, direction: Option<Direction>)
    requires c.Valid() && Decode(c, f, t, direction).Ok?
    ensures var g := Decode(c, f, t, direction).value;
      c.CheckHeader(g.messageId, g.header).Ok?
  {
    hide Unpack, UnpackLE, PackLE;
  }

  /** Re-heading a fragment of one message gives the same fragment of the message under the new header. */
  lemma RewriteEncoded(c: Contract, id: nat, h: Header, h': Header, raw: seq<byte>, t: Transport, i: nat)
    requires Encodable(c, id, h, raw, t) && Encodable(c, id, h', raw, t)
    requires i < |Chunks(raw, ChunkBytes(t))|
    ensures Encoded(c, id, h, raw, t).Ok? && i < |Encoded(c, id, h, raw, t).value|
    ensures Encoded(c, id, h', raw, t).Ok? && i < |Encoded(c, id, h', raw, t).value|
    ensures var g := Decode(c, Encoded(c, id, h, raw, t).value[i], t, None);
      && g.Ok? && g.value.messageId == id && g.value.transport == t && |g.value.payload| <= ChunkBytes(t)
      && Rebuilt(c, g.value.(header := h')) == Encoded(c, id, h', raw, t).value[i]
  {
    hide Decode, CanBytes, UdpBytes, Chunks;
    EncodeDecode(c, id, h, raw, t, i, None);
    EncodeDecode(c, id, h', raw, t, i, None);
    ChunksShape(raw, ChunkBytes(t));
  }
}
