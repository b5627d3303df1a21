/** Framing of one video frame into HIV1 datagrams. */
module Video {
  import opened Common
  import opened Catalogue
  import opened Struct
  import opened Wire

  datatype VideoCodec = H264 | H265 | Raw

  datatype VideoHeader = VideoHeader(
    sessionId: nat,
    stream: nat,
    frameIndex: nat,
    captureStep: nat,
    ptsUs: nat,
    codec: VideoCodec)
  {
    predicate Valid()
    {
      && 1 <= sessionId <= U32_MAX
      && 1 <= stream <= U32_MAX
      && frameIndex <= U32_MAX
      && captureStep <= U32_MAX
      && ptsUs <= U64_MAX
    }
  }

  datatype VideoFragment = VideoFragment(
    header: VideoHeader,
    index: nat,
    count: nat,
    frameBytes: nat,
    payload: seq<byte>)

  const VIDEO_MAGIC: nat := 0x31564948 // "HIV1"
  const VIDEO_CHUNK: nat := 1152
  const MAX_FRAME_BYTES: nat := 2097152
  const MAX_VIDEO_FRAGMENTS: nat := 1821
  const RAW_FRAME_BYTES: nat := 921600

  function VideoWidths(): (r: seq<nat>)
    ensures |r| == 14
  {
    [4, 1, 1, 2, 4, 4, 4, 4, 8, 2, 2, 4, 2, 2]
  }

  function CodecCode(c: VideoCodec): nat
  {
    match c case H264 => 0 case H265 => 1 case Raw => 2
  }

  function CodecName(code: nat): Option<VideoCodec>
  {
    if code == 0 then Some(H264) else if code == 1 then Some(H265) else if code == 2 then Some(Raw) else None
  }

  function VideoValues(h: VideoHeader, index: nat, count: nat, frameBytes: nat, length: nat): (r: seq<nat>)
    ensures |r| == 14
  {
    [VIDEO_MAGIC, 1, CodecCode(h.codec), 0, h.sessionId, h.stream, h.frameIndex, h.captureStep,
     h.ptsUs, index, count, frameBytes, length, 0]
  }

  lemma VideoSize()
    ensures Size(VideoWidths()) == 44
  {
  }

  function VideoPrefix(h: VideoHeader, index: nat, count: nat, frameBytes: nat, length: nat): (r: seq<byte>)
    ensures |r| == 44
  {
    VideoSize();
    Pack(VideoValues(h, index, count, frameBytes, length), VideoWidths())
  }

  function Packet(c: Contract, h: VideoHeader, index: nat, count: nat, frameBytes: nat, chunk: seq<byte>): (r: seq<byte>)
    ensures |r| == 48 + |chunk|
  {
    UdpFramed(c, VideoPrefix(h, index, count, frameBytes, |chunk|), chunk)
  }

  predicate AnnexB(frame: seq<byte>)
  {
    [0, 0, 1] <= frame || [0, 0, 0, 1] <= frame
  }

  /** A frame that may be sent under a header. */
  function CheckFrame(frame: seq<byte>, h: VideoHeader): Result<()>
  {
    if !h.Valid() || frame == [] then Err(Schema)
    else if |frame| > MAX_FRAME_BYTES then Err(Capacity)
    else if h.codec.Raw? && |frame| != RAW_FRAME_BYTES then Err(Schema)
    else if !h.codec.Raw? && !AnnexB(frame) then Err(Schema)
    else Ok(())
  }

  method Encode(c: Contract, frame: seq<byte>, h: VideoHeader) returns (r: Result<seq<seq<byte>>>)
    ensures r.Err? <==> CheckFrame(frame, h).Err?
    ensures r.Err? ==> r.code == CheckFrame(frame, h).code
    ensures r.Ok? ==>
      var chunks := Chunks(frame, VIDEO_CHUNK);
      && |r.value| == |chunks| == CeilDiv(|frame|, VIDEO_CHUNK)
      && forall i :: 0 <= i < |chunks| ==> r.value[i] == Packet(c, h, i, |chunks|, |frame|, chunks[i])
  {
    hide Packet, Chunks;
    var checked := CheckFrame(frame, h);
    if checked.Err? {
      return Err(checked.code);
    }
    var chunks := Split(frame, VIDEO_CHUNK);
    var packets := [];
    for index := 0 to |chunks|
      invariant |packets| == index
      invariant forall i :: 0 <= i < index ==> packets[i] == Packet(c, h, i, |chunks|, |frame|, chunks[i])
    {
      packets := packets + [Packet(c, h, index, |chunks|, |frame|, chunks[index])];
    }
    return Ok(packets);
  }

  /** Checks on a fragment's layout inside its frame. */
  predicate LayoutOk(index: nat, count: nat, frameBytes: nat, length: nat)
  {
    && count == CeilDiv(frameBytes, VIDEO_CHUNK) <= MAX_VIDEO_FRAGMENTS
    && index < count
    && length == Min(VIDEO_CHUNK, frameBytes - index * VIDEO_CHUNK)
  }

  function PacketFragment(c: Contract, raw: seq<byte>, v: seq<nat>): Result<VideoFragment>
    requires |raw| >= 48 && |v| == 14
  {
    if v[0] != VIDEO_MAGIC || v[1] != 1 || v[3] != 0 || v[13] != 0 then Err(Version)
    else if |raw| != 48 + v[12] then Err(Fragmentation)
    else if c.crc32(raw[..44] + raw[48..]) != UnpackLE(raw[44..48]) then Err(Crc)
    else if CodecName(v[2]).None? then Err(Schema)
    else
      var h := VideoHeader(v[4], v[5], v[6], v[7], v[8], CodecName(v[2]).value);
      if !h.Valid() then Err(Schema)
      else if !(1 <= v[11] <= MAX_FRAME_BYTES) then Err(Capacity)
      else if h.codec.Raw? && v[11] != RAW_FRAME_BYTES then Err(Schema)
      else if !LayoutOk(v[9], v[10], v[11], v[12]) then Err(Fragmentation)
      else Ok(VideoFragment(h, v[9], v[10], v[11], raw[48..]))
  }

  function Decode(c: Contract, raw: seq<byte>): Result<VideoFragment>
  {
    if !(49 <= |raw| <= 1200) then Err(Fragmentation)
    else
      VideoSize();
      PacketFragment(c, raw, Unpack(raw, VideoWidths()))
  }

  lemma VideoFits(h: VideoHeader, index: nat, count: nat, frameBytes: nat, length: nat)
    requires h.Valid() && index < 0x1_0000 && count < 0x1_0000 && frameBytes <= U32_MAX && length < 0x1_0000
    ensures Fits(VideoValues(h, index, count, frameBytes, length), VideoWidths())
  {
    assert Pow256(1) == 0x100 && Pow256(2) == 0x1_0000 && Pow256(4) == 0x1_0000_0000;
    assert Pow256(8) == 0x1_0000_0000_0000_0000 by {
      assert Pow256(6) == 0x1_0000_0000_0000;
    }
  }

  /** A checksummed prefix and chunk are read back where they were put. */
  lemma FramedLayout(c: Contract, prefix: seq<byte>, chunk: seq<byte>)
    ensures var raw := UdpFramed(c, prefix, chunk);
      && raw[..|prefix|] == prefix && raw[|prefix| + 4..] == chunk
      && raw == prefix + (PackLE(c.crc32(prefix + chunk), 4) + chunk)
      && UnpackLE(raw[|prefix|..|prefix| + 4]) == c.crc32(prefix + chunk)
  {
    assert Pow256(4) == 0x1_0000_0000;
    hide PackLE, UnpackLE;
    var sum := c.crc32(prefix + chunk);
    UnpackPackLE(sum, 4);
    var raw := UdpFramed(c, prefix, chunk);
    assert raw[|prefix|..|prefix| + 4] == PackLE(sum, 4);
  }

  lemma PacketChecksPass(c: Contract, h: VideoHeader, index: nat, count: nat, frameBytes: nat, chunk: seq<byte>,
                         raw: seq<byte>)
    requires |raw| == 48 + |chunk| && raw[48..] == chunk
    requires UnpackLE(raw[44..48]) == c.crc32(raw[..44] + raw[48..])
    requires h.Valid() && 1 <= frameBytes <= MAX_FRAME_BYTES && LayoutOk(index, count, frameBytes, |chunk|)
    requires h.codec.Raw? ==> frameBytes == RAW_FRAME_BYTES
    ensures PacketFragment(c, raw, VideoValues(h, index, count, frameBytes, |chunk|))
      == Ok(VideoFragment(h, index, count, frameBytes, chunk))
  {
    hide UnpackLE, LayoutOk, VideoHeader.Valid;
  }

  /** Every packet of an accepted frame decodes to its own chunk, and the chunks rejoin to the frame. */
  lemma EncodeDecode(c: Contract, frame: seq<byte>, h: VideoHeader, i: nat)
    requires CheckFrame(frame, h).Ok?
    requires i < |Chunks(frame, VIDEO_CHUNK)|
    ensures var chunks := Chunks(frame, VIDEO_CHUNK);
      && Decode(c, Packet(c, h, i, |chunks|, |frame|, chunks[i]))
           == Ok(VideoFragment(h, i, |chunks|, |frame|, chunks[i]))
      && Join(chunks) == frame
  {
    assert h.Valid();
    hide Chunks, Packet, Decode, AnnexB, VideoHeader.Valid;
    ChunksJoin(frame, VIDEO_CHUNK);
    ChunkLayout(frame, i);
    var chunks := Chunks(frame, VIDEO_CHUNK);
    PacketDecodes(c, h, i, |chunks|, |frame|, chunks[i]);
  }

  lemma ChunkLayout(frame: seq<byte>, i: nat)
    requires 1 <= |frame| <= MAX_FRAME_BYTES && i < |Chunks(frame, VIDEO_CHUNK)|
    ensures var chunks := Chunks(frame, VIDEO_CHUNK);
      |chunks[i]| >= 1 && LayoutOk(i, |chunks|, |frame|, |chunks[i]|)
  {
    hide Chunks;
    ChunksShape(frame, VIDEO_CHUNK);
  }

  lemma PacketDecodes(c: Contract, h: VideoHeader, index: nat, count: nat, frameBytes: nat, chunk: seq<byte>)
    requires h.Valid() && 1 <= frameBytes <= MAX_FRAME_BYTES && |chunk| >= 1
    requires h.codec.Raw? ==> frameBytes == RAW_FRAME_BYTES
    requires LayoutOk(index, count, frameBytes, |chunk|)
    ensures Decode(c, Packet(c, h, index, count, frameBytes, chunk))
      == Ok(VideoFragment(h, index, count, frameBytes, chunk))
  {
    VideoFits(h, index, count, frameBytes, |chunk|);
    assert 49 <= 48 + |chunk| <= 1200;
    hide Pack, PackLE, Unpack, UnpackLE, Size, VideoWidths, VideoValues, VideoPrefix, UdpFramed, PacketFragment, Fits,
      VideoHeader.Valid, LayoutOk;
    var prefix := VideoPrefix(h, index, count, frameBytes, |chunk|);
    FramedLayout(c, prefix, chunk);
    PacketReads(c, h, index, count, frameBytes, chunk);
    PacketChecksPass(c, h, index, count, frameBytes, chunk, UdpFramed(c, prefix, chunk));
  }

  lemma PacketReads(c: Contract, h: VideoHeader, index: nat, count: nat, frameBytes: nat, chunk: seq<byte>)
    requires Fits(VideoValues(h, index, count, frameBytes, |chunk|), VideoWidths())
    ensures |Packet(c, h, index, count, frameBytes, chunk)| >= Size(VideoWidths())
    ensures Unpack(Packet(c, h, index, count, frameBytes, chunk), VideoWidths())
      == VideoValues(h, index, count, frameBytes, |chunk|)
  {
    hide Pack, PackLE, Unpack, UnpackLE, Size, VideoWidths, VideoValues, Fits, UdpFramed;
    VideoSize();
    FramedLayout(c, VideoPrefix(h, index, count, frameBytes, |chunk|), chunk);
    UnpackPack(VideoValues(h, index, count, frameBytes, |chunk|), VideoWidths(),
               PackLE(c.crc32(VideoPrefix(h, index, count, frameBytes, |chunk|) + chunk), 4) + chunk);
  }

  lemma PacketAccepted(c: Contract, raw: seq<byte>, v: seq<nat>)
    requires |raw| >= 48 && |v| == 14 && PacketFragment(c, raw, v).Ok?
    ensures var f := PacketFragment(c, raw, v).value;
      && f.payload == raw[48..]
      && VideoValues(f.header, f.index, f.count, f.frameBytes, |f.payload|) == v
      && UnpackLE(raw[44..48]) == c.crc32(raw[..44] + raw[48..])
  {
    hide UnpackLE, LayoutOk, VideoHeader.Valid;
  }

  /** Accepted datagrams are canonical: the fragment determines every byte. */
  lemma DecodeCanonical(c: Contract, raw: seq<byte>)
    requires Decode(c, raw).Ok?
    ensures var f := Decode(c, raw).value;
      Packet(c, f.header, f.index, f.count, f.frameBytes, f.payload) == raw
  {
    hide Pack, Unpack, PackLE, UnpackLE, Size, VideoWidths, PacketFragment, VideoValues;
    VideoSize();
    PackUnpack(raw, VideoWidths());
    PackUnpackLE(raw[44..48]);
    PacketAccepted(c, raw, Unpack(raw, VideoWidths()));
    assert raw == raw[..44] + raw[44..48] + raw[48..];
  }
}
