/** Uploaded resource files: what the store holds and what one chunk does to it. */
module Storage {
  import opened Common
  import opened Messages
  import opened Ordered

  datatype Part = Part(offset: nat, length: nat, sha: nat, final: bool)

  datatype Status = OpaqueBytes | DefinedJson

  /** An unfinished upload; `data` is its staging file. */
  datatype Upload = Upload(
    session: nat,
    kind: Kind,
    size: nat,
    offset: nat,
    chunks: seq<Part>,
    requests: seq<Message>,
    data: seq<byte>)

  datatype Manifest = Manifest(sha: nat, kind: Kind, size: nat, status: Status, chunks: seq<Part>)

  datatype Aborted = Aborted(session: nat, sha: nat, storedBytes: nat, error: Code, requests: seq<Message>)

  datatype Receipt = Receipt(sha: nat, nextOffset: nat, complete: bool, storedBytes: nat)

  /** What the file system answers during one call: free bytes twice, and which operations work. */
  datatype Disk = Disk(
    freeBefore: nat,
    freeAfter: nat,
    rootsOk: bool,
    createOk: bool,
    stageOk: bool,
    writeOk: bool,
    publishOk: bool)

  datatype Limits = Limits(
    rules: Rules,
    hash: seq<byte> -> nat,
    content: (Kind, seq<byte>) -> Result<Status>,
    maxResource: nat,
    maxTotal: nat,
    maxUploads: nat,
    maxObjects: nat,
    maxChunks: nat,
    minFree: nat,
    maxAborted: nat,
    maxEvidence: nat)
  {
    ghost predicate Valid()
    {
      rules.Valid() && 1 <= maxChunks <= 8192 && maxResource <= U32_MAX
    }
  }

  /** The store's tables, and `objects`: the bytes of every published file. */
  datatype Shelf = Shelf(
    active: OrderedDict<nat, Upload>,
    completed: OrderedDict<nat, Manifest>,
    aborted: seq<Aborted>,
    evidence: nat,
    objects: map<nat, seq<byte>>)

  const MAX_MANIFEST: nat := 2 * 1024 * 1024

  // ---------------------------------------------------------------- totals

  function RequestBytes(cfg: Limits, requests: seq<Message>): nat
  {
    if requests == [] then 0
    else RequestBytes(cfg, requests[..|requests| - 1]) + cfg.rules.messageBytes(requests[|requests| - 1])
  }

  function AbortedBytes(cfg: Limits, aborted: seq<Aborted>): nat
  {
    if aborted == [] then 0
    else AbortedBytes(cfg, aborted[..|aborted| - 1]) + RequestBytes(cfg, aborted[|aborted| - 1].requests)
  }

  function UploadBytes(cfg: Limits, active: OrderedDict<nat, Upload>): nat -> nat
  {
    sha => if sha in active.vals then RequestBytes(cfg, active.vals[sha].requests) else 0
  }

  function UploadSize(active: OrderedDict<nat, Upload>): nat -> nat
  {
    sha => if sha in active.vals then active.vals[sha].size else 0
  }

  function ObjectSize(completed: OrderedDict<nat, Manifest>): nat -> nat
  {
    sha => if sha in completed.vals then completed.vals[sha].size else 0
  }

  function ReservedBytes(s: Shelf): nat
  {
    Total(s.active.keys, UploadSize(s.active)) + Total(s.completed.keys, ObjectSize(s.completed))
  }

  // ---------------------------------------------------------------- inspection of a published object

  /** Canonical length of a part: four values, their quotes, commas and brackets. */
  function PartBytes(p: Part): nat
  {
    DecimalLength(p.offset) + DecimalLength(p.length) + 66 + (if p.final then 4 else 5) + 5
  }

  function PartsBytes(parts: seq<Part>): nat
  {
    if parts == [] then 0 else PartsBytes(parts[..|parts| - 1]) + PartBytes(parts[|parts| - 1]) + 1
  }

  function KindLength(k: Kind): nat
  {
    match k
    case ModelFile => 5
    case VideoFile => 5
    case TerrainFile => 7
    case ObstaclesFile => 9
    case MissionFile => 7
  }

  /** Canonical length of a manifest: its six keys with punctuation, and its values. */
  function ManifestBytes(m: Manifest): nat
  {
    67 + PartsBytes(m.chunks) + 14 + KindLength(m.kind) + 66
    + DecimalLength(m.size)
  }

  /** The parts cover `data` from `from` on, in order, each with its own digest, only the last one final. */
  function PartsCheck(cfg: Limits, parts: seq<Part>, data: seq<byte>, from: nat): Result<nat>
    decreases |parts|
  {
    if parts == [] then Ok(from)
    else
      var p := parts[0];
      if p.offset != from || !(1 <= p.length <= 32768) || p.final != (|parts| == 1) then Err(Resource)
      else if from + p.length > |data| || cfg.hash(data[from..from + p.length]) != p.sha then Err(Hash)
      else PartsCheck(cfg, parts[1..], data, from + p.length)
  }

  /** Everything re-checked about a published object before it is trusted again. */
  function Inspect(cfg: Limits, sha: nat, data: seq<byte>, m: Manifest): Result<()>
  {
    if ManifestBytes(m) > MAX_MANIFEST then Err(Capacity)
    else if m.sha != sha || !(1 <= m.size <= cfg.maxResource) || !(1 <= |m.chunks| <= cfg.maxChunks) then Err(Resource)
    else if |data| != m.size || cfg.hash(data) != sha then Err(Hash)
    else
      var covered :- PartsCheck(cfg, m.chunks, data, 0);
      if covered != m.size || cfg.content(m.kind, data) != Ok(m.status) then Err(Resource)
      else Ok(())
  }

  // ---------------------------------------------------------------- one chunk

  datatype Verdict = Refuse(code: Code) | Retry(receipt: Receipt) | Take

  /** The checks on the chunk alone. */
  function ChunkCheck(cfg: Limits, c: Chunk): Option<Code>
  {
    if c.data.None? || |c.data.value| != c.length then Some(Schema)
    else if c.offset + c.length > c.size || c.final != (c.offset + c.length == c.size) then Some(Fragmentation)
    else if cfg.hash(c.data.value) != c.chunkSha then Some(Hash)
    else None
  }

  function PartOf(c: Chunk): Part { Part(c.offset, c.length, c.chunkSha, c.final) }

  function NextOffset(s: Shelf, sha: nat): nat
  {
    if sha in s.active.vals then s.active.vals[sha].offset else 0
  }

  /** What to do with a checked chunk, decided before anything is written. */
  function Judge(cfg: Limits, s: Shelf, m: Message, disk: Disk): Verdict
    requires m.body.ChunkBody? && ChunkCheck(cfg, m.body.chunk).None?
  {
    var c := m.body.chunk;
    var sid := m.header.sessionId;
    if !disk.rootsOk then Refuse(Resource)
    else if c.sha in s.completed.vals then
      var done := s.completed.vals[c.sha];
      if done.kind != c.kind then Refuse(Resource)
      else if done.size != c.size || PartOf(c) !in done.chunks then Refuse(Duplicate)
      else Retry(Receipt(c.sha, c.size, true, c.size))
    else if c.sha in s.active.vals && s.active.vals[c.sha].session != sid then Refuse(Authorization)
    else if c.sha in s.active.vals && (s.active.vals[c.sha].kind, s.active.vals[c.sha].size) != (c.kind, c.size) then
      Refuse(Duplicate)
    else if c.sha in s.active.vals && c.offset < s.active.vals[c.sha].offset then
      var u := s.active.vals[c.sha];
      if PartOf(c) !in u.chunks then
        Refuse(if exists p :: p in u.chunks && p.offset == c.offset then Duplicate else OutOfOrder)
      else if !disk.stageOk then Refuse(Resource)
      else if c.offset + c.length > |u.data| || u.data[c.offset..c.offset + c.length] != c.data.value then Refuse(Hash)
      else Retry(Receipt(c.sha, u.offset, false, u.offset))
    else if c.offset != NextOffset(s, c.sha) then Refuse(OutOfOrder)
    else if c.sha !in s.active.vals && (c.size > cfg.maxResource || ReservedBytes(s) + c.size > cfg.maxTotal) then
      Refuse(Capacity)
    else if c.sha !in s.active.vals
            && (s.active.Size() >= cfg.maxUploads
                || s.active.Size() + s.completed.Size() >= cfg.maxObjects
                || s.active.Size() + |s.aborted| >= cfg.maxAborted) then Refuse(BufferFull)
    else if c.sha in s.active.vals && |s.active.vals[c.sha].chunks| >= cfg.maxChunks then Refuse(Capacity)
    else if s.evidence + cfg.rules.messageBytes(m) > cfg.maxEvidence then Refuse(BufferFull)
    else if disk.freeBefore < cfg.minFree + (if c.sha in s.active.vals then c.length else c.size) then Refuse(Capacity)
    else if c.sha !in s.active.vals && !disk.createOk then Refuse(Resource)
    else if c.sha in s.active.vals && !disk.stageOk then Refuse(Resource)
    else Take
  }

  /** The upload a taken chunk joins. */
  function Joined(s: Shelf, m: Message): Upload
    requires m.body.ChunkBody?
  {
    var c := m.body.chunk;
    var u := if c.sha in s.active.vals then s.active.vals[c.sha]
             else Upload(m.header.sessionId, c.kind, c.size, 0, [], [], []);
    u.(requests := u.requests + [m])
  }

  /** The chunk's request is on record; its bytes are not written yet. */
  function Acquired(cfg: Limits, s: Shelf, m: Message): Shelf
    requires m.body.ChunkBody?
  {
    s.(active := s.active.Put(m.body.chunk.sha, Joined(s, m)), evidence := s.evidence + cfg.rules.messageBytes(m))
  }

  function Extended(u: Upload, c: Chunk): Upload
    requires c.data.Some?
  {
    u.(offset := c.offset + c.length, chunks := u.chunks + [PartOf(c)], data := u.data + c.data.value)
  }

  /** An upload ends without being published; its requests stay as evidence. */
  function Dropped(s: Shelf, sha: nat, error: Code): Shelf
    requires sha in s.active.vals
  {
    var u := s.active.vals[sha];
    s.(active := s.active.Delete(sha), aborted := s.aborted + [Aborted(u.session, sha, u.offset, error, u.requests)])
  }

  function ManifestOf(sha: nat, u: Upload, status: Status): Manifest
  {
    Manifest(sha, u.kind, u.size, status, u.chunks)
  }

  /** A complete upload becomes an object; its requests are no longer evidence. */
  function Published(cfg: Limits, s: Shelf, sha: nat, status: Status): Shelf
    requires sha in s.active.vals && RequestBytes(cfg, s.active.vals[sha].requests) <= s.evidence
  {
    var u := s.active.vals[sha];
    s.(active := s.active.Delete(sha),
       completed := s.completed.Put(sha, ManifestOf(sha, u, status)),
       evidence := s.evidence - RequestBytes(cfg, u.requests),
       objects := s.objects[sha := u.data])
  }

  /** Why a complete upload cannot be published, if it cannot. */
  function PublishRefusal(cfg: Limits, sha: nat, u: Upload, disk: Disk): Option<Code>
  {
    if cfg.hash(u.data) != sha then Some(Hash)
    else if cfg.content(u.kind, u.data).Err? then Some(cfg.content(u.kind, u.data).code)
    else if disk.freeAfter < cfg.minFree + ManifestBytes(ManifestOf(sha, u, cfg.content(u.kind, u.data).value)) then
      Some(Capacity)
    else if !disk.publishOk then Some(Resource)
    else None
  }

  /** A taken chunk: recorded, written, and published if it is the last. */
  function Taken(cfg: Limits, s: Shelf, m: Message, disk: Disk): (Shelf, Result<Receipt>)
    requires m.body.ChunkBody? && ChunkCheck(cfg, m.body.chunk).None?
    requires Accounted(cfg, s)
  {
    var c := m.body.chunk;
    var acquired := Acquired(cfg, s, m);
    if !disk.stageOk || !disk.writeOk then (Dropped(acquired, c.sha, Resource), Err(Resource))
    else
      var u := Extended(Joined(s, m), c);
      var written := acquired.(active := acquired.active.Put(c.sha, u));
      if !c.final then (written, Ok(Receipt(c.sha, u.offset, false, u.offset)))
      else
        var refusal := PublishRefusal(cfg, c.sha, u, disk);
        if refusal.Some? then (Dropped(written, c.sha, refusal.value), Err(refusal.value))
        else
          AcquiredAccounted(cfg, s, m);
          RewrittenAccounted(cfg, acquired, c.sha, u);
          (Published(cfg, written, c.sha, cfg.content(u.kind, u.data).value), Ok(Receipt(c.sha, c.size, true, c.size)))
  }

  /** The effect of one checked chunk on the store. */
  function Accepted(cfg: Limits, s: Shelf, m: Message, disk: Disk): (Shelf, Result<Receipt>)
    requires m.body.ChunkBody? && ChunkCheck(cfg, m.body.chunk).None?
    requires Accounted(cfg, s)
  {
    match Judge(cfg, s, m, disk)
    case Refuse(code) => (s, Err(code))
    case Retry(receipt) => (s, Ok(receipt))
    case Take => Taken(cfg, s, m, disk)
  }

  /** Evidence is exactly the requests of active and aborted uploads. */
  ghost predicate Accounted(cfg: Limits, s: Shelf)
  {
    && s.active.Valid()
    && s.evidence == Total(s.active.keys, UploadBytes(cfg, s.active)) + AbortedBytes(cfg, s.aborted)
  }

  lemma RequestsAppend(cfg: Limits, requests: seq<Message>, m: Message)
    ensures RequestBytes(cfg, requests + [m]) == RequestBytes(cfg, requests) + cfg.rules.messageBytes(m)
  {
    assert (requests + [m])[..|requests|] == requests;
  }

  lemma AbortedAppend(cfg: Limits, aborted: seq<Aborted>, a: Aborted)
    ensures AbortedBytes(cfg, aborted + [a]) == AbortedBytes(cfg, aborted) + RequestBytes(cfg, a.requests)
  {
    assert (aborted + [a])[..|aborted|] == aborted;
  }

  lemma AcquiredAccounted(cfg: Limits, s: Shelf, m: Message)
    requires m.body.ChunkBody? && Accounted(cfg, s)
    ensures Accounted(cfg, Acquired(cfg, s, m))
  {
    var sha := m.body.chunk.sha;
    var after := Acquired(cfg, s, m);
    TotalPut(s.active.keys, sha, UploadBytes(cfg, s.active), UploadBytes(cfg, after.active));
    RequestsAppend(cfg, if sha in s.active.vals then s.active.vals[sha].requests else [], m);
  }

  /** Changing an upload without touching its requests. */
  lemma RewrittenAccounted(cfg: Limits, s: Shelf, sha: nat, u: Upload)
    requires Accounted(cfg, s) && sha in s.active.vals && u.requests == s.active.vals[sha].requests
    ensures Accounted(cfg, s.(active := s.active.Put(sha, u)))
    ensures RequestBytes(cfg, u.requests) <= s.evidence
  {
    TotalSame(s.active.keys, UploadBytes(cfg, s.active), UploadBytes(cfg, s.active.Put(sha, u)));
    TotalMember(s.active.keys, sha, UploadBytes(cfg, s.active));
  }

  lemma DroppedAccounted(cfg: Limits, s: Shelf, sha: nat, error: Code)
    requires Accounted(cfg, s) && sha in s.active.vals
    ensures Accounted(cfg, Dropped(s, sha, error))
  {
    var u := s.active.vals[sha];
    TotalWithout(s.active.keys, sha, UploadBytes(cfg, s.active));
    var rest := s.active.Delete(sha);
    TotalSame(rest.keys, UploadBytes(cfg, s.active), UploadBytes(cfg, rest));
    AbortedAppend(cfg, s.aborted, Aborted(u.session, sha, u.offset, error, u.requests));
  }

  lemma PublishedAccounted(cfg: Limits, s: Shelf, sha: nat, status: Status)
    requires Accounted(cfg, s) && sha in s.active.vals
    ensures RequestBytes(cfg, s.active.vals[sha].requests) <= s.evidence
    ensures Accounted(cfg, Published(cfg, s, sha, status))
  {
    TotalWithout(s.active.keys, sha, UploadBytes(cfg, s.active));
    var rest := s.active.Delete(sha);
    TotalSame(rest.keys, UploadBytes(cfg, s.active), UploadBytes(cfg, rest));
  }

  /** What the store says about a request's resource afterwards. */
  function ProgressFor(s: Shelf, m: Message): Receipt
    requires m.body.ChunkBody?
  {
    var c := m.body.chunk;
    if c.sha in s.active.vals
       && (s.active.vals[c.sha].session, s.active.vals[c.sha].kind, s.active.vals[c.sha].size)
            == (m.header.sessionId, c.kind, c.size) then
      Receipt(c.sha, s.active.vals[c.sha].offset, false, s.active.vals[c.sha].offset)
    else if c.sha in s.completed.vals && (s.completed.vals[c.sha].kind, s.completed.vals[c.sha].size) == (c.kind, c.size) then
      Receipt(c.sha, c.size, true, c.size)
    else Receipt(c.sha, 0, false, 0)
  }

  // ---------------------------------------------------------------- what every reachable store satisfies

  /** The parts cover the data exactly, from its first byte to its last, each with its own digest. */
  ghost predicate Tiles(cfg: Limits, parts: seq<Part>, data: seq<byte>)
    decreases |parts|
  {
    if parts == [] then data == []
    else
      var p := parts[|parts| - 1];
      && p.offset + p.length == |data|
      && 1 <= p.length <= 32768
      && cfg.hash(data[p.offset..]) == p.sha
      && Tiles(cfg, parts[..|parts| - 1], data[..p.offset])
  }

  /** The bytes of the accepted requests, in order. */
  function RequestData(requests: seq<Message>): seq<byte>
  {
    if requests == [] then []
    else
      var m := requests[|requests| - 1];
      RequestData(requests[..|requests| - 1])
      + (if m.body.ChunkBody? && m.body.chunk.data.Some? then m.body.chunk.data.value else [])
  }

  ghost predicate UploadInv(cfg: Limits, u: Upload)
  {
    && 0 < u.offset < u.size <= cfg.maxResource
    && |u.data| == u.offset
    && 1 <= |u.chunks| <= cfg.maxChunks
    && (forall i :: 0 <= i < |u.chunks| ==> !u.chunks[i].final)
    && Tiles(cfg, u.chunks, u.data)
    && u.data == RequestData(u.requests)
    && |u.requests| == |u.chunks|
  }

  ghost predicate Counted(cfg: Limits, s: Shelf)
  {
    && |s.active.keys| <= cfg.maxUploads
    && |s.active.keys| + |s.completed.keys| <= cfg.maxObjects
    && |s.active.keys| + |s.aborted| <= cfg.maxAborted
    && ReservedBytes(s) <= cfg.maxTotal
    && s.evidence <= cfg.maxEvidence
  }

  ghost predicate ShelfInv(cfg: Limits, s: Shelf)
  {
    && Accounted(cfg, s)
    && Counted(cfg, s)
    && s.completed.Valid()
    && (forall sha :: sha in s.active.vals ==> sha !in s.completed.vals && UploadInv(cfg, s.active.vals[sha]))
    && (forall sha :: sha in s.completed.vals ==>
          sha in s.objects && Inspect(cfg, sha, s.objects[sha], s.completed.vals[sha]).Ok?)
  }

  lemma TilesAppend(cfg: Limits, parts: seq<Part>, data: seq<byte>, p: Part, more: seq<byte>)
    requires Tiles(cfg, parts, data) && p.offset == |data| && p.length == |more| && 1 <= |more| <= 32768
    requires cfg.hash(more) == p.sha
    ensures Tiles(cfg, parts + [p], data + more)
  {
    assert (parts + [p])[..|parts|] == parts;
    assert (data + more)[..|data|] == data && (data + more)[|data|..] == more;
  }

  lemma {:induction false} TilesBound(cfg: Limits, parts: seq<Part>, data: seq<byte>, i: nat)
    requires Tiles(cfg, parts, data) && i < |parts|
    ensures parts[i].offset + parts[i].length <= |data|
    decreases |parts|
  {
    var last := |parts| - 1;
    if i < last {
      TilesBound(cfg, parts[..last], data[..parts[last].offset], i);
    }
  }

  /** The inspection's forward pass over tiling parts reaches exactly their end. */
  lemma {:induction false} TilesChecked(cfg: Limits, parts: seq<Part>, data: seq<byte>, rest: seq<Part>, tail: seq<byte>)
    requires Tiles(cfg, parts, data) && rest != [] && forall i :: 0 <= i < |parts| ==> !parts[i].final
    ensures PartsCheck(cfg, parts + rest, data + tail, 0) == PartsCheck(cfg, rest, data + tail, |data|)
    decreases |parts|
  {
    if parts == [] {
      assert parts + rest == rest && data + tail == tail;
    } else {
      var last := |parts| - 1;
      var p := parts[last];
      var front, back := data[..p.offset], data[p.offset..];
      TilesChecked(cfg, parts[..last], front, [p] + rest, back + tail);
      assert parts[..last] + ([p] + rest) == parts + rest;
      assert front + (back + tail) == data + tail;
      assert (data + tail)[p.offset..p.offset + p.length] == back;
      assert ([p] + rest)[1..] == rest;
    }
  }

  lemma {:induction false} PartsShort(parts: seq<Part>)
    requires forall i :: 0 <= i < |parts| ==> parts[i].offset <= U32_MAX && parts[i].length <= U32_MAX
    ensures PartsBytes(parts) <= 97 * |parts|
  {
    if parts != [] {
      PartsShort(parts[..|parts| - 1]);
      DecimalShort(parts[|parts| - 1].offset);
      DecimalShort(parts[|parts| - 1].length);
    }
  }

  /** A manifest of admitted parts always fits the metadata bound the inspection enforces. */
  lemma ManifestFits(cfg: Limits, m: Manifest)
    requires cfg.Valid() && |m.chunks| <= cfg.maxChunks && m.size <= cfg.maxResource
    requires forall i :: 0 <= i < |m.chunks| ==> m.chunks[i].offset + m.chunks[i].length <= m.size
    ensures ManifestBytes(m) <= MAX_MANIFEST
  {
    PartsShort(m.chunks);
    DecimalShort(m.size);
  }

  /** What is published passes the inspection that reopening or resolving it performs. */
  lemma PublishedInspects(cfg: Limits, sha: nat, u: Upload, c: Chunk, status: Status)
    requires cfg.Valid() && c.data.Some? && c.final && c.offset + c.length == c.size == u.size
    requires |c.data.value| == c.length && 1 <= c.length <= 32768 && cfg.hash(c.data.value) == c.chunkSha
    requires u.size <= cfg.maxResource && c.offset == |u.data| && |u.chunks| < cfg.maxChunks
    requires Tiles(cfg, u.chunks, u.data) && forall i :: 0 <= i < |u.chunks| ==> !u.chunks[i].final
    requires cfg.hash(u.data + c.data.value) == sha && cfg.content(u.kind, u.data + c.data.value) == Ok(status)
    ensures Inspect(cfg, sha, Extended(u, c).data, ManifestOf(sha, Extended(u, c), status)).Ok?
  {
    var x := Extended(u, c);
    TilesAppend(cfg, u.chunks, u.data, PartOf(c), c.data.value);
    forall i | 0 <= i < |x.chunks| ensures x.chunks[i].offset + x.chunks[i].length <= |x.data| {
      TilesBound(cfg, x.chunks, x.data, i);
    }
    hide Tiles, ManifestBytes, Limits.Valid;
    ManifestFits(cfg, ManifestOf(sha, x, status));
    TilesChecked(cfg, u.chunks, u.data, [PartOf(c)], c.data.value);
    assert x.data[|u.data|..|u.data| + c.length] == c.data.value;
    assert PartsCheck(cfg, [PartOf(c)], x.data, |u.data|) == Ok(|x.data|) by {
      assert [PartOf(c)][1..] == [];
      assert PartsCheck(cfg, [], x.data, |x.data|) == Ok(|x.data|);
    }
  }

  // ---------------------------------------------------------------- invariant of one chunk

  lemma ReservedJoin(cfg: Limits, s: Shelf, m: Message)
    requires m.body.ChunkBody? && s.active.Valid()
    requires m.body.chunk.sha in s.active.vals ==> s.active.vals[m.body.chunk.sha].size == m.body.chunk.size
    ensures ReservedBytes(Acquired(cfg, s, m)) ==
      ReservedBytes(s) + (if m.body.chunk.sha in s.active.vals then 0 else m.body.chunk.size)
  {
    var after := Acquired(cfg, s, m);
    TotalPut(s.active.keys, m.body.chunk.sha, UploadSize(s.active), UploadSize(after.active));
  }

  lemma ReservedRewrite(s: Shelf, sha: nat, u: Upload)
    requires s.active.Valid() && sha in s.active.vals && u.size == s.active.vals[sha].size
    ensures ReservedBytes(s.(active := s.active.Put(sha, u))) == ReservedBytes(s)
  {
    TotalSame(s.active.keys, UploadSize(s.active), UploadSize(s.active.Put(sha, u)));
  }

  lemma ReservedDrop(s: Shelf, sha: nat, error: Code)
    requires s.active.Valid() && sha in s.active.vals
    ensures ReservedBytes(Dropped(s, sha, error)) + s.active.vals[sha].size == ReservedBytes(s)
  {
    TotalWithout(s.active.keys, sha, UploadSize(s.active));
    TotalSame(Without(s.active.keys, sha), UploadSize(s.active), UploadSize(s.active.Delete(sha)));
  }

  lemma ReservedPublish(cfg: Limits, s: Shelf, sha: nat, status: Status)
    requires Accounted(cfg, s) && s.completed.Valid() && sha in s.active.vals && sha !in s.completed.vals
    requires RequestBytes(cfg, s.active.vals[sha].requests) <= s.evidence
    ensures ReservedBytes(Published(cfg, s, sha, status)) == ReservedBytes(s)
  {
    var r := Published(cfg, s, sha, status);
    TotalWithout(s.active.keys, sha, UploadSize(s.active));
    TotalSame(Without(s.active.keys, sha), UploadSize(s.active), UploadSize(r.active));
    TotalPut(s.completed.keys, sha, ObjectSize(s.completed), ObjectSize(r.completed));
  }

  /** What the decision to take a chunk rests on. */
  lemma TakeFacts(cfg: Limits, s: Shelf, m: Message, disk: Disk)
    requires m.body.ChunkBody? && ChunkCheck(cfg, m.body.chunk).None? && Judge(cfg, s, m, disk).Take?
    ensures var c := m.body.chunk;
      && c.sha !in s.completed.vals
      && c.offset == NextOffset(s, c.sha)
      && s.evidence + cfg.rules.messageBytes(m) <= cfg.maxEvidence
      && (c.sha in s.active.vals ==>
            && s.active.vals[c.sha].session == m.header.sessionId
            && s.active.vals[c.sha].kind == c.kind && s.active.vals[c.sha].size == c.size
            && |s.active.vals[c.sha].chunks| < cfg.maxChunks
            && disk.stageOk)
      && (c.sha !in s.active.vals ==>
            && c.size <= cfg.maxResource && ReservedBytes(s) + c.size <= cfg.maxTotal
            && |s.active.keys| < cfg.maxUploads
            && |s.active.keys| + |s.completed.keys| < cfg.maxObjects
            && |s.active.keys| + |s.aborted| < cfg.maxAborted)
  {
  }

  lemma ShelfParts(cfg: Limits, s: Shelf)
    ensures ShelfInv(cfg, s) <==>
      Accounted(cfg, s) && Counted(cfg, s) && s.completed.Valid() && UploadsInv(cfg, s) && ObjectsInv(cfg, s)
  {
    hide Accounted, Counted, UploadInv, Inspect;
  }

  ghost predicate UploadsInv(cfg: Limits, s: Shelf)
  {
    forall sha :: sha in s.active.vals ==> sha !in s.completed.vals && UploadInv(cfg, s.active.vals[sha])
  }

  ghost predicate ObjectsInv(cfg: Limits, s: Shelf)
  {
    forall sha :: sha in s.completed.vals ==>
      sha in s.objects && Inspect(cfg, sha, s.objects[sha], s.completed.vals[sha]).Ok?
  }

  /** The upload a taken chunk extends meets everything but the final bound. */
  lemma ExtendedFacts(cfg: Limits, s: Shelf, m: Message, disk: Disk)
    requires cfg.Valid() && m.body.ChunkBody? && ChunkCheck(cfg, m.body.chunk).None? && Judge(cfg, s, m, disk).Take?
    requires 1 <= m.body.chunk.length <= 32768 && UploadsInv(cfg, s)
    ensures var c := m.body.chunk;
      var u := Joined(s, m);
      var x := Extended(u, c);
      && c.data.Some? && c.offset == |u.data| && |u.chunks| < cfg.maxChunks && u.size == c.size <= cfg.maxResource
      && Tiles(cfg, u.chunks, u.data) && (forall i :: 0 <= i < |u.chunks| ==> !u.chunks[i].final)
      && x.data == RequestData(x.requests) && |x.requests| == |x.chunks|
      && Tiles(cfg, x.chunks, x.data)
      && (!c.final ==> UploadInv(cfg, x))
      && (c.final ==> c.offset + c.length == c.size)
  {
    JoinedFacts(cfg, s, m, disk);
    var c := m.body.chunk;
    var u := Joined(s, m);
    hide Judge, UploadsInv, Tiles, RequestData, Joined, Limits.Valid;
    TilesAppend(cfg, u.chunks, u.data, PartOf(c), c.data.value);
  }

  /** What the upload a chunk joins holds before its bytes are written. */
  lemma JoinedFacts(cfg: Limits, s: Shelf, m: Message, disk: Disk)
    requires cfg.Valid() && m.body.ChunkBody? && ChunkCheck(cfg, m.body.chunk).None? && Judge(cfg, s, m, disk).Take?
    requires UploadsInv(cfg, s)
    ensures var c := m.body.chunk;
      var u := Joined(s, m);
      && c.offset == |u.data| && |u.chunks| < cfg.maxChunks && u.size == c.size <= cfg.maxResource
      && Tiles(cfg, u.chunks, u.data) && (forall i :: 0 <= i < |u.chunks| ==> !u.chunks[i].final)
      && RequestData(u.requests) == u.data + c.data.value && |u.requests| == |u.chunks| + 1
  {
    TakeFacts(cfg, s, m, disk);
    hide Judge, Tiles;
    var c, u := m.body.chunk, Joined(s, m);
    var before := if c.sha in s.active.vals then s.active.vals[c.sha].requests else [];
    assert u.requests == before + [m];
    RequestDataMore(before, m);
    if c.sha in s.active.vals {
      assert UploadInv(cfg, s.active.vals[c.sha]);
    } else {
      NoTiles(cfg);
    }
  }

  lemma RequestDataMore(before: seq<Message>, m: Message)
    requires m.body.ChunkBody? && m.body.chunk.data.Some?
    ensures RequestData(before + [m]) == RequestData(before) + m.body.chunk.data.value && RequestData([]) == []
  {
    assert (before + [m])[..|before|] == before;
  }

  lemma NoTiles(cfg: Limits)
    ensures Tiles(cfg, [], [])
  {
  }

  lemma UploadsPut(cfg: Limits, s: Shelf, s': Shelf, sha: nat, u: Upload)
    requires UploadsInv(cfg, s) && UploadInv(cfg, u) && sha !in s.completed.vals
    requires s'.active.vals == s.active.vals[sha := u] && s'.completed == s.completed
    ensures UploadsInv(cfg, s')
  {
    hide UploadInv;
  }

  lemma UploadsLess(cfg: Limits, s: Shelf, s': Shelf, sha: nat)
    requires UploadsInv(cfg, s)
    requires forall x :: x in s'.active.vals ==> x in s.active.vals && (x != sha || s'.completed == s.completed)
    requires forall x :: x in s'.active.vals ==> s'.active.vals[x] == s.active.vals[x]
    requires forall x :: x in s'.completed.vals ==> x in s.completed.vals || x == sha
    ensures UploadsInv(cfg, s')
  {
    hide UploadInv;
  }

  lemma DropParts(s: Shelf, sha: nat, error: Code)
    requires s.active.Valid() && sha in s.active.vals
    ensures var r := Dropped(s, sha, error);
      && r.completed == s.completed && r.objects == s.objects && r.evidence == s.evidence
      && r.active.vals == s.active.vals - {sha}
      && |r.active.keys| == |s.active.keys| - 1 && |r.aborted| == |s.aborted| + 1
  {
  }

  lemma AcquiredParts(cfg: Limits, s: Shelf, m: Message)
    requires m.body.ChunkBody?
    ensures var sha := m.body.chunk.sha;
      var r := Acquired(cfg, s, m);
      && r.completed == s.completed && r.objects == s.objects && r.aborted == s.aborted
      && r.evidence == s.evidence + cfg.rules.messageBytes(m)
      && r.active.vals == s.active.vals[sha := Joined(s, m)]
      && |r.active.keys| == |s.active.keys| + (if sha in s.active.vals then 0 else 1)
      && Joined(s, m).size == (if sha in s.active.vals then s.active.vals[sha].size else m.body.chunk.size)
  {
  }

  /** An acquired chunk whose upload is dropped again leaves a consistent store. */
  lemma DropTaken(cfg: Limits, s: Shelf, m: Message, disk: Disk, u: Upload, error: Code)
    requires cfg.Valid() && m.body.ChunkBody? && ChunkCheck(cfg, m.body.chunk).None? && Judge(cfg, s, m, disk).Take?
    requires ShelfInv(cfg, s) && u.requests == Joined(s, m).requests && u.size == Joined(s, m).size
    ensures var sha := m.body.chunk.sha;
      var acquired := Acquired(cfg, s, m);
      sha in acquired.active.vals
      && ShelfInv(cfg, Dropped(acquired.(active := acquired.active.Put(sha, u)), sha, error))
  {
    hide *;
    TakeFacts(cfg, s, m, disk);
    ShelfParts(cfg, s);
    CountedParts(cfg, s);
    AccountedValid(cfg, s);
    var sha := m.body.chunk.sha;
    var acquired := Acquired(cfg, s, m);
    AcquiredParts(cfg, s, m);
    AcquiredAccounted(cfg, s, m);
    AccountedValid(cfg, acquired);
    ReservedJoin(cfg, s, m);
    var written := acquired.(active := acquired.active.Put(sha, u));
    RewrittenAccounted(cfg, acquired, sha, u);
    ReservedRewrite(acquired, sha, u);
    PutParts(acquired.active, sha, u);
    AccountedValid(cfg, written);
    DropParts(written, sha, error);
    DroppedAccounted(cfg, written, sha, error);
    ReservedDrop(written, sha, error);
    var r := Dropped(written, sha, error);
    UploadsLess(cfg, s, r, sha);
    ObjectsSame(cfg, s, r);
    CountedParts(cfg, r);
    ShelfParts(cfg, r);
  }

  lemma CountedParts(cfg: Limits, s: Shelf)
    ensures Counted(cfg, s) <==>
      && |s.active.keys| <= cfg.maxUploads
      && |s.active.keys| + |s.completed.keys| <= cfg.maxObjects
      && |s.active.keys| + |s.aborted| <= cfg.maxAborted
      && ReservedBytes(s) <= cfg.maxTotal
      && s.evidence <= cfg.maxEvidence
  {
    hide ReservedBytes;
  }

  lemma AccountedValid(cfg: Limits, s: Shelf)
    requires Accounted(cfg, s)
    ensures s.active.Valid()
  {
  }

  lemma ObjectsSame(cfg: Limits, s: Shelf, s': Shelf)
    requires ObjectsInv(cfg, s) && s'.completed == s.completed && s'.objects == s.objects
    ensures ObjectsInv(cfg, s')
  {
    hide Inspect;
  }

  /** A taken chunk that is not the last leaves a consistent store with a longer upload. */
  lemma WriteTaken(cfg: Limits, s: Shelf, m: Message, disk: Disk)
    requires cfg.Valid() && m.body.ChunkBody? && ChunkCheck(cfg, m.body.chunk).None? && Judge(cfg, s, m, disk).Take?
    requires ShelfInv(cfg, s) && 1 <= m.body.chunk.length <= 32768 && !m.body.chunk.final
    ensures var sha := m.body.chunk.sha;
      var u := Extended(Joined(s, m), m.body.chunk);
      var acquired := Acquired(cfg, s, m);
      ShelfInv(cfg, acquired.(active := acquired.active.Put(sha, u)))
  {
    hide *;
    DataPresent(cfg, m.body.chunk);
    TakeFacts(cfg, s, m, disk);
    ShelfParts(cfg, s);
    CountedParts(cfg, s);
    AccountedValid(cfg, s);
    ExtendedFacts(cfg, s, m, disk);
    var sha := m.body.chunk.sha;
    var u := Extended(Joined(s, m), m.body.chunk);
    ExtendedParts(Joined(s, m), m.body.chunk);
    var acquired := Acquired(cfg, s, m);
    AcquiredParts(cfg, s, m);
    AcquiredAccounted(cfg, s, m);
    AccountedValid(cfg, acquired);
    ReservedJoin(cfg, s, m);
    var r := acquired.(active := acquired.active.Put(sha, u));
    RewrittenAccounted(cfg, acquired, sha, u);
    ReservedRewrite(acquired, sha, u);
    PutParts(acquired.active, sha, u);
    UploadsPut(cfg, s, r, sha, u);
    ObjectsSame(cfg, s, r);
    CountedParts(cfg, r);
    ShelfParts(cfg, r);
  }

  lemma PutParts(d: OrderedDict<nat, Upload>, sha: nat, u: Upload)
    requires d.Valid() && sha in d.vals
    ensures d.Put(sha, u).keys == d.keys && d.Put(sha, u).vals == d.vals[sha := u]
  {
  }

  lemma DataPresent(cfg: Limits, c: Chunk)
    requires ChunkCheck(cfg, c).None?
    ensures c.data.Some? && |c.data.value| == c.length && cfg.hash(c.data.value) == c.chunkSha
    ensures c.offset + c.length <= c.size && (c.final <==> c.offset + c.length == c.size)
  {
  }

  lemma ExtendedParts(u: Upload, c: Chunk)
    requires c.data.Some?
    ensures var x := Extended(u, c);
      x.requests == u.requests && x.size == u.size && x.kind == u.kind && x.data == u.data + c.data.value
  {
  }

  /** Publishing the last chunk leaves a consistent store whose new object passes inspection. */
  lemma PublishTaken(cfg: Limits, s: Shelf, m: Message, disk: Disk, status: Status)
    requires cfg.Valid() && m.body.ChunkBody? && ChunkCheck(cfg, m.body.chunk).None? && Judge(cfg, s, m, disk).Take?
    requires ShelfInv(cfg, s) && 1 <= m.body.chunk.length <= 32768 && m.body.chunk.final
    requires var u := Extended(Joined(s, m), m.body.chunk);
      cfg.hash(u.data) == m.body.chunk.sha && cfg.content(u.kind, u.data) == Ok(status)
    ensures var sha := m.body.chunk.sha;
      var u := Extended(Joined(s, m), m.body.chunk);
      var acquired := Acquired(cfg, s, m);
      var written := acquired.(active := acquired.active.Put(sha, u));
      && sha in written.active.vals && RequestBytes(cfg, u.requests) <= written.evidence
      && ShelfInv(cfg, Published(cfg, written, sha, status))
  {
    hide *;
    DataPresent(cfg, m.body.chunk);
    TakeFacts(cfg, s, m, disk);
    ShelfParts(cfg, s);
    CountedParts(cfg, s);
    AccountedValid(cfg, s);
    ExtendedFacts(cfg, s, m, disk);
    var sha := m.body.chunk.sha;
    var joined := Joined(s, m);
    var u := Extended(joined, m.body.chunk);
    ExtendedParts(joined, m.body.chunk);
    var acquired := Acquired(cfg, s, m);
    AcquiredParts(cfg, s, m);
    AcquiredAccounted(cfg, s, m);
    AccountedValid(cfg, acquired);
    ReservedJoin(cfg, s, m);
    var written := acquired.(active := acquired.active.Put(sha, u));
    RewrittenAccounted(cfg, acquired, sha, u);
    AccountedValid(cfg, written);
    ReservedRewrite(acquired, sha, u);
    PutParts(acquired.active, sha, u);
    PublishedAccounted(cfg, written, sha, status);
    ReservedPublish(cfg, written, sha, status);
    PublishedInspects(cfg, sha, joined, m.body.chunk, status);
    PublishedParts(cfg, written, sha, status);
    var r := Published(cfg, written, sha, status);
    UploadsLess(cfg, s, r, sha);
    ObjectsPut(cfg, s, r, sha, ManifestOf(sha, u, status), u.data);
    CountedParts(cfg, r);
    ShelfParts(cfg, r);
  }

  lemma PublishedParts(cfg: Limits, s: Shelf, sha: nat, status: Status)
    requires s.active.Valid() && s.completed.Valid() && sha in s.active.vals && sha !in s.completed.vals
    requires RequestBytes(cfg, s.active.vals[sha].requests) <= s.evidence
    ensures var u := s.active.vals[sha];
      var r := Published(cfg, s, sha, status);
      && r.active.vals == s.active.vals - {sha} && |r.active.keys| == |s.active.keys| - 1
      && r.completed.Valid() && |r.completed.keys| == |s.completed.keys| + 1
      && r.completed.vals == s.completed.vals[sha := ManifestOf(sha, u, status)]
      && r.objects == s.objects[sha := u.data]
      && r.aborted == s.aborted && r.evidence <= s.evidence
  {
    hide ManifestOf;
  }

  lemma ObjectsPut(cfg: Limits, s: Shelf, s': Shelf, sha: nat, m: Manifest, data: seq<byte>)
    requires ObjectsInv(cfg, s) && Inspect(cfg, sha, data, m).Ok?
    requires s'.completed.vals == s.completed.vals[sha := m] && s'.objects == s.objects[sha := data]
    ensures ObjectsInv(cfg, s')
  {
    hide Inspect;
  }

  /** Every chunk, whatever becomes of it, leaves a consistent store. */
  lemma AcceptedInv(cfg: Limits, s: Shelf, m: Message, disk: Disk)
    requires cfg.Valid() && m.body.ChunkBody? && ChunkCheck(cfg, m.body.chunk).None?
    requires ShelfInv(cfg, s) && 1 <= m.body.chunk.length <= 32768
    ensures Accounted(cfg, s)
    ensures ShelfInv(cfg, Accepted(cfg, s, m, disk).0)
  {
    ShelfParts(cfg, s);
    hide Judge, ShelfInv, Accounted, Counted, UploadsInv, ObjectsInv, Joined, Acquired, Dropped, Extended, Published,
      ChunkCheck, Limits.Valid;
    if Judge(cfg, s, m, disk).Take? {
      var c := m.body.chunk;
      DataPresent(cfg, c);
      var joined := Joined(s, m);
      var u := Extended(joined, c);
      AcquiredParts(cfg, s, m);
      PutSame(Acquired(cfg, s, m).active, c.sha);
      DropTaken(cfg, s, m, disk, joined, Resource);
      ExtendedParts(joined, c);
      if disk.stageOk && disk.writeOk {
        if !c.final {
          WriteTaken(cfg, s, m, disk);
        } else {
          var refusal := PublishRefusal(cfg, c.sha, u, disk);
          if refusal.Some? {
            DropTaken(cfg, s, m, disk, u, refusal.value);
          } else {
            PublishTaken(cfg, s, m, disk, cfg.content(u.kind, u.data).value);
          }
        }
      }
    }
  }

  lemma PutSame(d: OrderedDict<nat, Upload>, sha: nat)
    requires sha in d.vals
    ensures d.Put(sha, d.vals[sha]) == d
  {
  }

  // ---------------------------------------------------------------- what the worker reports

  /** The progress payload the worker builds: never complete when something went wrong. */
  function Payload(receipt: Receipt, error: Option<Code>): ReplyBody
  {
    Progress(receipt.sha, receipt.nextOffset, receipt.complete && error.None?, receipt.storedBytes, error)
  }

  lemma PartInside(cfg: Limits, u: Upload, p: Part)
    requires UploadInv(cfg, u) && p in u.chunks
    ensures p.offset + p.length <= u.offset
  {
    var i :| 0 <= i < |u.chunks| && u.chunks[i] == p;
    TilesBound(cfg, u.chunks, u.data, i);
  }

  /** A failed request's progress is consistent whatever the store holds. */
  lemma FailureConsistent(cfg: Limits, s: Shelf, m: Message, error: Code)
    requires m.body.ChunkBody? && ShelfInv(cfg, s)
    ensures ProgressConsistent(m.body.chunk, Payload(ProgressFor(s, m), Some(error)))
  {
    hide Accounted, Counted, Inspect, Tiles, RequestData;
    var c := m.body.chunk;
    if c.sha in s.active.vals {
      assert UploadInv(cfg, s.active.vals[c.sha]);
    }
  }

  /** After a chunk is accepted, the progress reported for it covers it and is complete exactly when the file is. */
  lemma SuccessConsistent(cfg: Limits, s: Shelf, m: Message, disk: Disk)
    requires cfg.Valid() && m.body.ChunkBody? && ChunkCheck(cfg, m.body.chunk).None?
    requires ShelfInv(cfg, s) && Accepted(cfg, s, m, disk).1.Ok?
    ensures var r := Accepted(cfg, s, m, disk);
      && ProgressConsistent(m.body.chunk, Payload(ProgressFor(r.0, m), None))
      && r.1.value == ProgressFor(r.0, m)
  {
    ShelfParts(cfg, s);
    AcceptedCases(cfg, s, m, disk);
    hide *;
    match Judge(cfg, s, m, disk)
    case Refuse(code) =>
    case Retry(receipt) => RetryConsistent(cfg, s, m, disk);
    case Take => TakenConsistent(cfg, s, m, disk);
  }

  lemma AcceptedCases(cfg: Limits, s: Shelf, m: Message, disk: Disk)
    requires m.body.ChunkBody? && ChunkCheck(cfg, m.body.chunk).None? && Accounted(cfg, s)
    ensures Accepted(cfg, s, m, disk) ==
      match Judge(cfg, s, m, disk)
      case Refuse(code) => (s, Err(code))
      case Retry(receipt) => (s, Ok(receipt))
      case Take => Taken(cfg, s, m, disk)
  {
    hide Judge, Taken, Accounted;
  }

  lemma TakenConsistent(cfg: Limits, s: Shelf, m: Message, disk: Disk)
    requires m.body.ChunkBody? && ChunkCheck(cfg, m.body.chunk).None? && Judge(cfg, s, m, disk).Take?
    requires Accounted(cfg, s) && Taken(cfg, s, m, disk).1.Ok?
    ensures var r := Taken(cfg, s, m, disk);
      && r.1.value == ProgressFor(r.0, m)
      && ProgressConsistent(m.body.chunk, Payload(ProgressFor(r.0, m), None))
  {
    DataPresent(cfg, m.body.chunk);
    TakeFacts(cfg, s, m, disk);
    TakenTables(cfg, s, m, disk);
    hide Judge, Accounted, ChunkCheck, Taken, Limits.Valid;
  }

  /** Where an accepted chunk's file is afterwards. */
  lemma TakenTables(cfg: Limits, s: Shelf, m: Message, disk: Disk)
    requires m.body.ChunkBody? && ChunkCheck(cfg, m.body.chunk).None? && Judge(cfg, s, m, disk).Take?
    requires Accounted(cfg, s) && Taken(cfg, s, m, disk).1.Ok?
    ensures var c := m.body.chunk;
      var r := Taken(cfg, s, m, disk);
      && (!c.final ==>
            && r.1.value == Receipt(c.sha, c.offset + c.length, false, c.offset + c.length)
            && c.sha in r.0.active.vals
            && var u := r.0.active.vals[c.sha];
            && u.offset == c.offset + c.length
            && u.session == (if c.sha in s.active.vals then s.active.vals[c.sha].session else m.header.sessionId)
            && u.kind == (if c.sha in s.active.vals then s.active.vals[c.sha].kind else c.kind)
            && u.size == (if c.sha in s.active.vals then s.active.vals[c.sha].size else c.size))
      && (c.final ==>
            && r.1.value == Receipt(c.sha, c.size, true, c.size)
            && c.sha !in r.0.active.vals && c.sha in r.0.completed.vals
            && var done := r.0.completed.vals[c.sha];
            && done.kind == (if c.sha in s.active.vals then s.active.vals[c.sha].kind else c.kind)
            && done.size == (if c.sha in s.active.vals then s.active.vals[c.sha].size else c.size))
  {
    DataPresent(cfg, m.body.chunk);
    hide Judge, Accounted, ChunkCheck, RequestBytes, Dropped, PublishRefusal, PartOf, OrderedDict.Valid, Limits.Valid;
  }

  lemma RetryConsistent(cfg: Limits, s: Shelf, m: Message, disk: Disk)
    requires m.body.ChunkBody? && ChunkCheck(cfg, m.body.chunk).None?
    requires UploadsInv(cfg, s) && Judge(cfg, s, m, disk).Retry?
    ensures Judge(cfg, s, m, disk).receipt == ProgressFor(s, m)
    ensures ProgressConsistent(m.body.chunk, Payload(ProgressFor(s, m), None))
  {
    DataPresent(cfg, m.body.chunk);
    var c := m.body.chunk;
    if c.sha in s.active.vals && c.sha !in s.completed.vals {
      assert UploadInv(cfg, s.active.vals[c.sha]);
      if PartOf(c) in s.active.vals[c.sha].chunks {
        PartInside(cfg, s.active.vals[c.sha], PartOf(c));
      }
    }
    hide UploadsInv, UploadInv, ChunkCheck, ReservedBytes;
  }

  // ---------------------------------------------------------------- aborting and draining

  /** Dropping an active upload keeps the store consistent. */
  lemma DroppedInv(cfg: Limits, s: Shelf, sha: nat, error: Code)
    requires ShelfInv(cfg, s) && sha in s.active.vals
    ensures ShelfInv(cfg, Dropped(s, sha, error))
  {
    hide *;
    ShelfParts(cfg, s);
    CountedParts(cfg, s);
    AccountedValid(cfg, s);
    DropParts(s, sha, error);
    DroppedAccounted(cfg, s, sha, error);
    ReservedDrop(s, sha, error);
    var r := Dropped(s, sha, error);
    UploadsLess(cfg, s, r, sha);
    ObjectsSame(cfg, s, r);
    CountedParts(cfg, r);
    ShelfParts(cfg, r);
  }

  function OwnedBy(session: nat): Upload -> bool { (u: Upload) => u.session == session }

  function Not(test: Upload -> bool): Upload -> bool { (u: Upload) => !test(u) }

  function Anyone(): Upload -> bool { (u: Upload) => true }

  /** The records of the uploads that pass a test, in order. */
  function AbortsOf(keys: seq<nat>, vals: map<nat, Upload>, test: Upload -> bool, error: Code): seq<Aborted>
  {
    if keys == [] then []
    else
      AbortsOf(keys[..|keys| - 1], vals, test, error)
      + (if keys[|keys| - 1] in vals && test(vals[keys[|keys| - 1]]) then
           var u := vals[keys[|keys| - 1]];
           [Aborted(u.session, keys[|keys| - 1], u.offset, error, u.requests)]
         else [])
  }

  /** Handing the aborted records over frees exactly their evidence. */
  function Drained(cfg: Limits, s: Shelf): Shelf
    requires AbortedBytes(cfg, s.aborted) <= s.evidence
  {
    s.(aborted := [], evidence := s.evidence - AbortedBytes(cfg, s.aborted))
  }

  lemma DrainedInv(cfg: Limits, s: Shelf)
    requires ShelfInv(cfg, s)
    ensures AbortedBytes(cfg, s.aborted) <= s.evidence
    ensures ShelfInv(cfg, Drained(cfg, s))
  {
    hide *;
    ShelfParts(cfg, s);
    CountedParts(cfg, s);
    DrainedAccounted(cfg, s);
    var r := Drained(cfg, s);
    UploadsLess(cfg, s, r, 0);
    ObjectsSame(cfg, s, r);
    CountedParts(cfg, r);
    ShelfParts(cfg, r);
  }

  lemma DrainedAccounted(cfg: Limits, s: Shelf)
    requires Accounted(cfg, s)
    ensures AbortedBytes(cfg, s.aborted) <= s.evidence
    ensures var r := Drained(cfg, s);
      && Accounted(cfg, r)
      && r.active == s.active && r.completed == s.completed && r.objects == s.objects && r.aborted == []
      && ReservedBytes(r) == ReservedBytes(s) && r.evidence <= s.evidence
  {
    var r := Drained(cfg, s);
    assert r.active == s.active && r.completed == s.completed;
  }
}
