/** What the senders emit is what the reassembler reassembles. */
module Transfers {
  import opened Common
  import opened Catalogue
  import opened Wire
  import V = Video
  import opened Reassembly
  import opened Delivery

  /** The receiver's view of every frame of an encoded message. */
  function SentPieces(c: Contract, id: nat, h: Header, raw: seq<byte>, t: Transport): seq<Piece>
    requires Encodable(c, id, h, raw, t)
  {
    var e := c.entries[id];
    var chunks := Chunks(raw, ChunkBytes(t));
    seq(|chunks|, i requires 0 <= i < |chunks| =>
      EncodeDecode(c, id, h, raw, t, i, Some(e.direction));
      Business(Decode(c, Encoded(c, id, h, raw, t).value[i], t, Some(e.direction)).value))
  }

  function MessageKey(c: Contract, id: nat, h: Header, t: Transport, channel: string, grant: Option<nat>): Key
    requires id in c.entries
  {
    Key(channel, c.entries[id].direction, h.sessionId, MessageIdentity(t, id, h.sequence, h.transactionId), grant)
  }

  /** Only an opening, which has no session yet, is filed under the grant it arrives by. */
  predicate Filed(id: nat, grant: Option<nat>)
  {
    grant.Some? ==> id == 1 && grant.value < 64
  }

  lemma SentPiece(c: Contract, id: nat, h: Header, raw: seq<byte>, t: Transport, i: nat)
    requires Encodable(c, id, h, raw, t)
    requires i < |Chunks(raw, ChunkBytes(t))|
    ensures |SentPieces(c, id, h, raw, t)| == |Chunks(raw, ChunkBytes(t))|
    ensures SentPieces(c, id, h, raw, t)[i]
      == Business(ExpectedFragment(c.entries[id], t, h, Chunks(raw, ChunkBytes(t)), i))
  {
    EncodeDecode(c, id, h, raw, t, i, Some(c.entries[id].direction));
    hide Encodable, Chunks, ExpectedFragment, Decode, Encoded;
  }

  lemma SentPieceAdmitted(pol: Policy, id: nat, h: Header, raw: seq<byte>, t: Transport, channel: string, grant: Option<nat>, i: nat)
    requires Encodable(pol.contract, id, h, raw, t) && Filed(id, grant)
    requires 1 <= |channel| <= 128 && channel in pol.channels
    requires pol.channels[channel] == if t.CanFd? then CanFdBus else Ethernet
    requires i < |Chunks(raw, ChunkBytes(t))|
    ensures var c := pol.contract;
      var chunks := Chunks(raw, ChunkBytes(t));
      var p := Business(ExpectedFragment(c.entries[id], t, h, chunks, i));
      Admitted(pol, p, channel, c.entries[id].direction, true, grant)
        == Ok((MessageKey(c, id, h, t, channel, grant), Min(|chunks| * ChunkBytes(t), c.entries[id].maxPayload)))
  {
    ChunkAccepted(pol.contract, id, h, raw, t, i);
    hide Chunks, CheckedFragment, Contract.CheckHeader;
  }

  lemma SentPieceFits(pol: Policy, id: nat, h: Header, raw: seq<byte>, t: Transport, channel: string, grant: Option<nat>, i: nat)
    requires Encodable(pol.contract, id, h, raw, t) && Filed(id, grant)
    requires 1 <= |channel| <= 128 && channel in pol.channels
    requires pol.channels[channel] == if t.CanFd? then CanFdBus else Ethernet
    requires i < |Chunks(raw, ChunkBytes(t))|
    ensures var c := pol.contract;
      var e := c.entries[id];
      var chunks := Chunks(raw, ChunkBytes(t));
      var msg := SentPieces(c, id, h, raw, t);
      var reservation := Min(|chunks| * ChunkBytes(t), e.maxPayload);
      && |msg| == |chunks| && 0 <= reservation
      && msg[i] == Business(ExpectedFragment(e, t, h, chunks, i))
      && Admitted(pol, msg[i], channel, e.direction, true, grant) == Ok((MessageKey(c, id, h, t, channel, grant), reservation))
      && KeyOf(MessageKey(c, id, h, t, channel, grant), msg[i]) && PieceOk(msg[i], reservation)
  {
    var e := pol.contract.entries[id];
    hide Encodable, Chunks, Admitted, SentPieces, Filed, ExpectedFragment, MessageKey, KeyOf, PieceOk;
    SentPiece(pol.contract, id, h, raw, t, i);
    SentPieceAdmitted(pol, id, h, raw, t, channel, grant, i);
    AdmittedPiece(pol, SentPieces(pol.contract, id, h, raw, t)[i], channel, e.direction, true, grant);
  }

  /**
   * The frames of an encoded message decode to admitted pieces of one transfer whose contents rejoin to the
   * encoded bytes.
   */
  lemma MessageTransfer(pol: Policy, id: nat, h: Header, raw: seq<byte>, t: Transport, channel: string, grant: Option<nat>)
    requires Encodable(pol.contract, id, h, raw, t) && Filed(id, grant)
    requires 1 <= |channel| <= 128 && channel in pol.channels
    requires pol.channels[channel] == if t.CanFd? then CanFdBus else Ethernet
    ensures var c := pol.contract;
      var key := MessageKey(c, id, h, t, channel, grant);
      var reservation := Reserved(c, id, raw, t);
      var msg := SentPieces(c, id, h, raw, t);
      && Transfer(key, msg, reservation)
      && Join(Contents(msg)) == raw
      && forall p :: p in msg ==>
           Admitted(pol, p, channel, c.entries[id].direction, true, grant) == Ok((key, reservation))
  {
    hide *;
    EncodableEntry(pol.contract, id, h, raw, t);
    var e := pol.contract.entries[id];
    var chunks := Chunks(raw, ChunkBytes(t));
    var msg := SentPieces(pol.contract, id, h, raw, t);
    var key := MessageKey(pol.contract, id, h, t, channel, grant);
    EncodeDecode(pol.contract, id, h, raw, t, 0, None);
    SentPieceFits(pol, id, h, raw, t, channel, grant, 0);
    var reservation := Reserved(pol.contract, id, raw, t);
    ReservedParts(pol.contract, id, raw, t);
    forall i | 0 <= i < |chunks|
      ensures msg[i] == Business(ExpectedFragment(e, t, h, chunks, i))
      ensures Admitted(pol, msg[i], channel, e.direction, true, grant) == Ok((key, reservation))
      ensures KeyOf(key, msg[i]) && PieceOk(msg[i], reservation)
    {
      SentPieceFits(pol, id, h, raw, t, channel, grant, i);
    }
    ExpectedTransfer(e, t, h, chunks, msg);
    TransferFrom(key, msg, reservation, chunks);
  }

  /**
   * What an encoded message meets on its way through any mixed traffic: the arrival that completes it delivers the
   * sender's bytes, everything before is pending, and everything of it that comes later is refused as a duplicate.
   */
  lemma MessageDelivered(pol: Policy, s: Assembly, before: seq<Event>, last: Event, later: seq<Event>,
                         id: nat, h: Header, raw: seq<byte>, t: Transport, channel: string, grant: Option<nat>, deadline: nat,
                         j: nat)
    requires Inv(pol, s) && pol.Valid() && pol.retainCompleted
    requires Encodable(pol.contract, id, h, raw, t) && Filed(id, grant)
    requires 1 <= |channel| <= 128 && channel in pol.channels
    requires pol.channels[channel] == if t.CanFd? then CanFdBus else Ethernet
    requires last.Own(MessageKey(pol.contract, id, h, t, channel, grant))
    requires Completes(pol, s, before, last, MessageKey(pol.contract, id, h, t, channel, grant),
                       SentPieces(pol.contract, id, h, raw, t), Reserved(pol.contract, id, raw, t), deadline)
    requires Timely(last.now, later, last.now + pol.retentionNs)
    requires forall e :: e in later ==> e.Ok() && (e.Discard? ==> e.session != h.sessionId)
    requires Rivals(pol, s, before + [last]) + Arrivals(later) < pol.cacheMessages
    requires j < |before| + 1 + |later|
    requires (before + [last] + later)[j].Own(MessageKey(pol.contract, id, h, t, channel, grant))
    ensures forall e :: e in before + [last] + later ==> e.Ok()
    ensures OutcomeAt(pol, s, before + [last] + later, j) ==
      if j < |before| then Pending else if j == |before| then Delivered(raw) else Rejected(Duplicate)
  {
    hide *;
    EncodableEntry(pol.contract, id, h, raw, t);
    KeySession(pol.contract, id, h, t, channel, grant);
    MessageTransfer(pol, id, h, raw, t, channel, grant);
    DeliveredOnce(pol, s, before, last, later, MessageKey(pol.contract, id, h, t, channel, grant),
                  SentPieces(pol.contract, id, h, raw, t), Reserved(pol.contract, id, raw, t), deadline, j);
  }

  /** What the receiver sets aside for the message. */
  function Reserved(c: Contract, id: nat, raw: seq<byte>, t: Transport): nat
    requires id in c.entries && ChunkBytes(t) > 0
  {
    Min(|Chunks(raw, ChunkBytes(t))| * ChunkBytes(t), c.entries[id].maxPayload)
  }

  lemma ReservedParts(c: Contract, id: nat, raw: seq<byte>, t: Transport)
    requires id in c.entries && ChunkBytes(t) > 0
    ensures Reserved(c, id, raw, t) == Min(|Chunks(raw, ChunkBytes(t))| * ChunkBytes(t), c.entries[id].maxPayload)
  {
  }

  lemma KeySession(c: Contract, id: nat, h: Header, t: Transport, channel: string, grant: Option<nat>)
    requires id in c.entries
    ensures MessageKey(c, id, h, t, channel, grant).session == h.sessionId
  {
  }

  lemma EncodableEntry(c: Contract, id: nat, h: Header, raw: seq<byte>, t: Transport)
    requires Encodable(c, id, h, raw, t)
    ensures id in c.entries && ChunkBytes(t) > 0 && |Chunks(raw, ChunkBytes(t))| > 0
  {
    EncodeDecode(c, id, h, raw, t, 0, None);
  }

  lemma TransferFrom(key: Key, msg: seq<Piece>, reservation: nat, chunks: seq<seq<byte>>)
    requires |msg| == |chunks| > 0
    requires forall i :: 0 <= i < |msg| ==>
      msg[i].Index() == i && msg[i].Count() == |msg| && msg[i].Bytes() == chunks[i]
    requires forall i, k :: 0 <= i < |msg| && 0 <= k < |msg| ==> msg[i].SameHeader(msg[k])
    requires forall i :: 0 <= i < |msg| ==> KeyOf(key, msg[i]) && PieceOk(msg[i], reservation)
    ensures Transfer(key, msg, reservation) && Contents(msg) == chunks
  {
    hide KeyOf, PieceOk, Piece.Index, Piece.Count, Piece.Bytes, Piece.SameHeader;
  }

  lemma ExpectedTransfer(e: Entry, t: Transport, h: Header, chunks: seq<seq<byte>>, msg: seq<Piece>)
    requires |msg| == |chunks|
    requires forall i :: 0 <= i < |msg| ==> msg[i] == Business(ExpectedFragment(e, t, h, chunks, i))
    ensures forall i :: 0 <= i < |msg| ==>
      msg[i].Index() == i && msg[i].Count() == |msg| && msg[i].Bytes() == chunks[i]
    ensures forall i, k :: 0 <= i < |msg| && 0 <= k < |msg| ==> msg[i].SameHeader(msg[k])
  {
  }

  /** The receiver's view of every packet of a video frame. */
  function SentPackets(c: Contract, frame: seq<byte>, h: V.VideoHeader): (r: seq<Piece>)
    requires V.CheckFrame(frame, h).Ok?
    ensures |r| == |Chunks(frame, V.VIDEO_CHUNK)|
  {
    var chunks := Chunks(frame, V.VIDEO_CHUNK);
    seq(|chunks|, i requires 0 <= i < |chunks| =>
      V.ChunkLayout(frame, i);
      V.EncodeDecode(c, frame, h, i);
      Streamed(V.Decode(c, V.Packet(c, h, i, |chunks|, |frame|, chunks[i])).value))
  }

  lemma SentPacket(c: Contract, frame: seq<byte>, h: V.VideoHeader, i: nat)
    requires V.CheckFrame(frame, h).Ok? && i < |Chunks(frame, V.VIDEO_CHUNK)|
    ensures var chunks := Chunks(frame, V.VIDEO_CHUNK);
      && SentPackets(c, frame, h)[i] == Streamed(V.VideoFragment(h, i, |chunks|, |frame|, chunks[i]))
      && Join(chunks) == frame
  {
    V.EncodeDecode(c, frame, h, i);
    hide Chunks, V.Packet, V.Decode, V.CheckFrame;
  }

  lemma PacketAdmitted(pol: Policy, frame: seq<byte>, h: V.VideoHeader, channel: string, i: nat, count: nat, chunk: seq<byte>)
    requires V.CheckFrame(frame, h).Ok?
    requires 1 <= |channel| <= 128 && channel in pol.channels && pol.channels[channel] == Ethernet
    requires V.LayoutOk(i, count, |frame|, |chunk|)
    ensures var p := Streamed(V.VideoFragment(h, i, count, |frame|, chunk));
      && Admitted(pol, p, channel, To36, true, None)
           == Ok((Key(channel, To36, h.sessionId, FrameIdentity(h.stream, h.frameIndex), None), |frame|))
      && pol.Verdict(p, frame).Ok?
  {
    hide V.AnnexB, V.LayoutOk;
  }

  lemma SentPacketFits(pol: Policy, frame: seq<byte>, h: V.VideoHeader, channel: string, i: nat)
    requires V.CheckFrame(frame, h).Ok?
    requires 1 <= |channel| <= 128 && channel in pol.channels && pol.channels[channel] == Ethernet
    requires i < |Chunks(frame, V.VIDEO_CHUNK)|
    ensures var chunks := Chunks(frame, V.VIDEO_CHUNK);
      var p := SentPackets(pol.contract, frame, h)[i];
      var key := Key(channel, To36, h.sessionId, FrameIdentity(h.stream, h.frameIndex), None);
      && p == Streamed(V.VideoFragment(h, i, |chunks|, |frame|, chunks[i]))
      && Admitted(pol, p, channel, To36, true, None) == Ok((key, |frame|))
      && KeyOf(key, p) && PieceOk(p, |frame|) && pol.Verdict(p, frame).Ok?
  {
    hide *;
    FrameBounds(frame, h);
    SentPacket(pol.contract, frame, h, i);
    V.ChunkLayout(frame, i);
    var chunks := Chunks(frame, V.VIDEO_CHUNK);
    PacketAdmitted(pol, frame, h, channel, i, |chunks|, chunks[i]);
    AdmittedPiece(pol, SentPackets(pol.contract, frame, h)[i], channel, To36, true, None);
  }

  lemma FrameBounds(frame: seq<byte>, h: V.VideoHeader)
    requires V.CheckFrame(frame, h).Ok?
    ensures 1 <= |frame| <= V.MAX_FRAME_BYTES && V.VIDEO_CHUNK > 0 && |Chunks(frame, V.VIDEO_CHUNK)| > 0
  {
    hide V.AnnexB;
    ChunksShape(frame, V.VIDEO_CHUNK);
  }

  /** The packets of an encoded video frame decode to admitted pieces of one transfer that rejoin to the frame. */
  lemma FrameTransfer(pol: Policy, frame: seq<byte>, h: V.VideoHeader, channel: string)
    requires V.CheckFrame(frame, h).Ok?
    requires 1 <= |channel| <= 128 && channel in pol.channels && pol.channels[channel] == Ethernet
    ensures var key := Key(channel, To36, h.sessionId, FrameIdentity(h.stream, h.frameIndex), None);
      var msg := SentPackets(pol.contract, frame, h);
      && Transfer(key, msg, |frame|)
      && Join(Contents(msg)) == frame
      && forall p :: p in msg ==>
           Admitted(pol, p, channel, To36, true, None) == Ok((key, |frame|)) && pol.Verdict(p, frame).Ok?
  {
    hide *;
    FrameBounds(frame, h);
    var chunks := Chunks(frame, V.VIDEO_CHUNK);
    var key := Key(channel, To36, h.sessionId, FrameIdentity(h.stream, h.frameIndex), None);
    var msg := SentPackets(pol.contract, frame, h);
    SentPacket(pol.contract, frame, h, 0);
    forall i | 0 <= i < |chunks|
      ensures msg[i] == Streamed(V.VideoFragment(h, i, |chunks|, |frame|, chunks[i]))
      ensures Admitted(pol, msg[i], channel, To36, true, None) == Ok((key, |frame|))
      ensures KeyOf(key, msg[i]) && PieceOk(msg[i], |frame|)
      ensures pol.Verdict(msg[i], frame).Ok?
    {
      SentPacketFits(pol, frame, h, channel, i);
    }
    StreamedTransfer(h, |frame|, chunks, msg);
    TransferFrom(key, msg, |frame|, chunks);
  }

  lemma StreamedTransfer(h: V.VideoHeader, frameBytes: nat, chunks: seq<seq<byte>>, msg: seq<Piece>)
    requires |msg| == |chunks|
    requires forall i :: 0 <= i < |msg| ==> msg[i] == Streamed(V.VideoFragment(h, i, |chunks|, frameBytes, chunks[i]))
    ensures forall i :: 0 <= i < |msg| ==>
      msg[i].Index() == i && msg[i].Count() == |msg| && msg[i].Bytes() == chunks[i]
    ensures forall i, k :: 0 <= i < |msg| && 0 <= k < |msg| ==> msg[i].SameHeader(msg[k])
  {
  }

  /** The same for a video frame: delivered once, whole, and never again while it is remembered. */
  lemma FrameDelivered(pol: Policy, s: Assembly, before: seq<Event>, last: Event, later: seq<Event>,
                       frame: seq<byte>, h: V.VideoHeader, channel: string, deadline: nat, j: nat)
    requires Inv(pol, s) && pol.Valid() && pol.retainCompleted && V.CheckFrame(frame, h).Ok?
    requires 1 <= |channel| <= 128 && channel in pol.channels && pol.channels[channel] == Ethernet
    requires last.Own(FrameKey(h, channel))
    requires Completes(pol, s, before, last, FrameKey(h, channel), SentPackets(pol.contract, frame, h), |frame|, deadline)
    requires Timely(last.now, later, last.now + pol.retentionNs)
    requires forall e :: e in later ==> e.Ok() && (e.Discard? ==> e.session != FrameKey(h, channel).session)
    requires Rivals(pol, s, before + [last]) + Arrivals(later) < pol.cacheMessages
    requires j < |before| + 1 + |later| && (before + [last] + later)[j].Own(FrameKey(h, channel))
    ensures forall e :: e in before + [last] + later ==> e.Ok()
    ensures OutcomeAt(pol, s, before + [last] + later, j) ==
      if j < |before| then Pending else if j == |before| then Delivered(frame) else Rejected(Duplicate)
  {
    hide *;
    FrameKeyParts(h, channel);
    FrameTransfer(pol, frame, h, channel);
    DeliveredOnce(pol, s, before, last, later, FrameKey(h, channel), SentPackets(pol.contract, frame, h), |frame|, deadline, j);
  }

  function FrameKey(h: V.VideoHeader, channel: string): Key
  {
    Key(channel, To36, h.sessionId, FrameIdentity(h.stream, h.frameIndex), None)
  }

  lemma FrameKeyParts(h: V.VideoHeader, channel: string)
    ensures FrameKey(h, channel) == Key(channel, To36, h.sessionId, FrameIdentity(h.stream, h.frameIndex), None)
  {
  }
}
