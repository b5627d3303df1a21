/** Logical messages, replies and the validation rules the gateway components share. */
module Messages {
  import opened Common
  import opened Catalogue

  datatype PeerBinding = PeerBinding(channel: string, transport: Transport, peer: string)

  datatype Role = Stimulus | Controller | Observer

  datatype EntryRole = AnySessionRole | Needs(role: Role)

  datatype Kind = ModelFile | VideoFile | TerrainFile | ObstaclesFile | MissionFile

  /** One ResourceChunk payload; `data` is absent when its base64 text is not canonical. Digests are opaque numbers. */
  datatype Chunk = Chunk(
    sha: nat,
    kind: Kind,
    size: nat,
    offset: nat,
    length: nat,
    data: Option<seq<byte>>,
    chunkSha: nat,
    final: bool)

  datatype Action = Start | Pause | Resume | Step | Stop | Reset

  datatype ModelState = IsConfigured | IsRunning | IsPaused | IsStopped | IsFailed

  datatype Body =
    | OpenBody(identity: nat, roles: seq<Role>, nonce: nat)
    | LifecycleBody(action: Action, expected: ModelState, stepCount: nat)
    | ChunkBody(chunk: Chunk)
    | InputBody(content: nat)

  /** A message in canonical form: equal messages are those with equal canonical bytes and equal digest. */
  datatype Message = Message(id: nat, header: Header, body: Body)
  {
    function Key(): (nat, nat) { (header.sessionId, header.sequence) }
  }

  datatype Stage = Received | Validated | Applied | Consumed | Failed

  datatype ReplyBody =
    | Ack(
        requestSequence: nat,
        requestId: nat,
        stage: Stage,
        error: Option<Code>,
        appliedStep: nat,
        modelRevision: nat,
        probeId: nat)
    | Progress(sha: nat, nextOffset: nat, complete: bool, storedBytes: nat, error: Option<Code>)
    | OtherReply(content: nat)

  datatype Reply = Reply(id: nat, header: Header, body: ReplyBody)

  const OPEN: nat := 1
  const RENEW: nat := 2
  const CONFIGURE: nat := 3
  const LIFECYCLE: nat := 4
  const CHUNK: nat := 34
  const ACK: nat := 130
  const PROGRESS: nat := 141

  /** Message validation is an arbitrary decision that implies the structural facts below. */
  datatype Rules = Rules(
    contract: Contract,
    accepts: Message -> Result<()>,
    acceptsReply: Reply -> Result<()>,
    messageBytes: Message -> nat,
    replyBytes: Reply -> nat,
    roles: map<nat, EntryRole>,
    models: map<nat, set<nat>>,
    leaseNs: nat,
    retentionNs: nat,
    cacheMessages: nat,
    commitTimeoutMs: nat)
  {
    ghost predicate Valid()
    {
      && contract.Valid()
      && (forall m :: accepts(m).Ok? ==> Sound(m))
      && (forall r :: acceptsReply(r).Ok? ==> SoundReply(r))
      && (forall r: Reply :: r.id == ACK && r.body.Ack? ==> replyBytes(r) == AckLength(r.header, r.body))
      && (forall id :: id in contract.entries ==> 1 <= contract.entries[id].validForMs <= 1000)
      && (forall id :: id in contract.entries ==> id in roles && id in models)
      && cacheMessages > 0
    }

    /** What every accepted inbound message satisfies. */
    predicate Sound(m: Message)
    {
      && contract.CheckHeader(m.id, m.header).Ok?
      && contract.entries[m.id].direction == To36
      && (m.id == OPEN <==> m.body.OpenBody?)
      && (m.id == LIFECYCLE <==> m.body.LifecycleBody?)
      && (m.id == CHUNK <==> m.body.ChunkBody?)
      && (m.id == OPEN ==> m.header.sessionId == 0 && m.header.sequence == 1)
      && (m.id != OPEN ==> m.header.sessionId != 0)
      && (m.body.ChunkBody? ==> 1 <= m.body.chunk.length <= 32768 && m.body.chunk.size <= U32_MAX)
    }

    predicate SoundReply(r: Reply)
    {
      && (r.id == ACK <==> r.body.Ack?)
      && (r.id == PROGRESS <==> r.body.Progress?)
      && r.header.InRange()
      && (r.id == ACK ==> AckInRange(r.body))
    }

    function TotalReplyBytes(replies: seq<Reply>): nat
    {
      if replies == [] then 0 else replyBytes(replies[0]) + TotalReplyBytes(replies[1..])
    }
  }

  /** The field ranges of an acknowledgement's payload. */
  predicate AckInRange(body: ReplyBody)
    requires body.Ack?
  {
    && 1 <= body.requestSequence <= U32_MAX && body.requestId < 0x1_0000
    && body.appliedStep <= U32_MAX && body.modelRevision <= U32_MAX && body.probeId <= U32_MAX
  }

  function StageName(stage: Stage): string
  {
    match stage
    case Received => "RECEIVED"
    case Validated => "VALIDATED"
    case Applied => "APPLIED"
    case Consumed => "CONSUMED"
    case Failed => "FAILED"
  }

  function ErrorName(error: Option<Code>): string
  {
    match error
    case None => "OK"
    case Some(Schema) => "SCHEMA"
    case Some(Version) => "VERSION"
    case Some(Hash) => "HASH"
    case Some(Authorization) => "AUTHORIZATION"
    case Some(Model) => "MODEL"
    case Some(ControlOwner) => "CONTROL_OWNER"
    case Some(Range) => "RANGE"
    case Some(State) => "STATE"
    case Some(StaleSession) => "STALE_SESSION"
    case Some(Duplicate) => "DUPLICATE"
    case Some(OutOfOrder) => "OUT_OF_ORDER"
    case Some(Late) => "LATE"
    case Some(Expired) => "EXPIRED"
    case Some(BufferFull) => "BUFFER_FULL"
    case Some(Fragmentation) => "FRAGMENT"
    case Some(Crc) => "CRC"
    case Some(Unsupported) => "UNSUPPORTED"
    case Some(TargetMissing) => "TARGET_MISSING"
    case Some(Timeout) => "TIMEOUT"
    case Some(BusinessFailed) => "BUSINESS_FAILED"
    case Some(Safety) => "SAFETY"
    case Some(Resource) => "RESOURCE"
    case Some(ClockUnsync) => "CLOCK_UNSYNC"
    case Some(Capacity) => "CAPACITY"
  }

  /** Canonical length of an acknowledgement: 226 characters of names and punctuation, its numbers and its two names. */
  function AckLength(h: Header, body: ReplyBody): nat
    requires body.Ack?
  {
    226 + DecimalLength(h.sequence) + DecimalLength(h.sessionId) + DecimalLength(h.targetStep)
    + DecimalLength(h.transactionId) + DecimalLength(h.validForMs)
    + DecimalLength(body.appliedStep) + DecimalLength(body.modelRevision) + DecimalLength(body.probeId)
    + DecimalLength(body.requestId) + DecimalLength(body.requestSequence)
    + |StageName(body.stage)| + |ErrorName(body.error)|
  }

  /** An acknowledgement is short: three of them fit where one reply may be stored. */
  lemma AckShort(rules: Rules, r: Reply)
    requires rules.Valid() && r.id == ACK && r.body.Ack? && r.header.Short() && AckInRange(r.body)
    ensures rules.replyBytes(r) <= 350
  {
    DecimalShort(r.header.sequence);
    DecimalShort(r.header.sessionId);
    DecimalShort(r.header.targetStep);
    DecimalShort(r.header.transactionId);
    DecimalShort(r.header.validForMs);
    DecimalShort(r.body.appliedStep);
    DecimalShort(r.body.modelRevision);
    DecimalShort(r.body.probeId);
    DecimalShort(r.body.requestId);
    DecimalShort(r.body.requestSequence);
    NamesShort(r.body);
    hide DecimalLength, StageName, ErrorName;
  }

  lemma NamesShort(body: ReplyBody)
    requires body.Ack?
    ensures |StageName(body.stage)| <= 9 && |ErrorName(body.error)| <= 15
  {
  }

  /** Storage progress is consistent with the chunk it answers. */
  predicate FeedbackConsistent(request: Message, reply: Reply)
  {
    && request.body.ChunkBody? && reply.body.Progress?
    && var sent := request.body.chunk;
    var progress := reply.body;
    && reply.header.sessionId == request.header.sessionId
    && reply.header.transactionId == request.header.transactionId
    && ProgressConsistent(sent, progress)
  }

  predicate ProgressConsistent(sent: Chunk, progress: ReplyBody)
    requires progress.Progress?
  {
    && progress.sha == sent.sha
    && progress.storedBytes == progress.nextOffset
    && progress.nextOffset <= sent.size
    && (progress.error.Some? ==> !progress.complete)
    && (progress.error.None? ==>
          && progress.nextOffset >= sent.offset + sent.length
          && progress.complete == (progress.nextOffset == sent.size))
  }
}
