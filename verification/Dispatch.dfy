/** The cooperative sender's books: what one exchange may record, and why its reservation is enough. */
module Dispatch {
  import opened Common
  import opened Catalogue
  import opened Ordered
  import opened Wire

  datatype Kind = SubmittedNote | TxNote | RxNote | CompleteNote | FailedNote | TimeoutNote | CancelNote
  {
    predicate Terminal() { CompleteNote? || FailedNote? || TimeoutNote? || CancelNote? }
  }

  /** One record; requests and replies are represented by their canonical lengths. */
  datatype Note = Note(
    kind: Kind,
    header: Header,
    at: Option<nat>,
    attempt: nat,
    fragment: Option<nat>,
    request: nat,
    reply: nat,
    wire: seq<byte>,
    error: Option<Code>)
  {
    function Size(): nat { 512 + request + reply + |wire| }
  }

  datatype Pending = Pending(
    header: Header,
    id: nat,
    final: bool,
    topic: nat,
    packets: seq<seq<byte>>,
    submitted: nat,
    maxAttempts: nat,
    reservedCount: nat,
    reservedBytes: nat,
    heartbeatDue: Option<nat>,
    attempt: nat,
    index: nat,
    firstPerf: Option<nat>,
    started: Option<nat>,
    deadline: Option<nat>,
    sentOnce: bool,
    feedback: nat,
    heartbeatClaimed: bool,
    firstClaimed: bool)

  /** One feedback reply: its length, message, whether its stage is a last one, and the error it carries. */
  datatype Reply = Reply(length: nat, messageId: nat, lastStage: bool, error: Option<Code>)
  {
    predicate Terminal() { messageId != 130 || lastStage }
  }

  /** Symbolic policy; `maxReply` bounds one stored reply, `maxCounter` every header counter. */
  datatype Policy = Policy(
    contract: Contract,
    maxCounter: nat,
    maxReply: nat,
    capacity: nat,
    maxRecords: nat,
    maxBytes: nat,
    ackTimeoutNs: nat,
    jitterNs: nat,
    heartbeatPeriodNs: nat,
    commitTimeoutNs: nat,
    groupNs: nat,
    leaseNs: nat,
    periodic: set<nat>)
  {
    predicate Valid() { contract.Valid() && maxCounter <= U32_MAX }
  }

  /** Records and bytes in use and on reservation. */
  datatype Board = Board(
    pending: OrderedDict<nat, Pending>,
    notes: seq<Note>,
    usedCount: nat,
    usedBytes: nat,
    reservedCount: nat,
    reservedBytes: nat)

  const MAX_FEEDBACK: nat := 8

  /** An exchange apart from what it has left on reservation. */
  function Course(p: Pending): Pending
  {
    p.(reservedCount := 0, reservedBytes := 0)
  }

  /** When the validity of an exchange under way runs out. */
  function Validity(p: Pending): nat
    requires p.started.Some?
  {
    p.started.value + p.header.validForMs * NS_PER_MS
  }

  /** The time before which a reply must have come. */
  function ReplyDeadline(pol: Policy, p: Pending): int
    requires p.started.Some?
  {
    if p.final then p.submitted + pol.commitTimeoutNs
    else Min(if p.deadline.Some? then p.deadline.value else Validity(p), Validity(p))
  }

  /** The record of the fragment about to go out, and of a reply. */
  function SentNote(p: Pending, attempt: nat, at: Option<nat>, error: Option<Code>): Note
    requires p.index < |p.packets|
  {
    Note(TxNote, p.header, at, attempt, Some(p.index), 0, 0, p.packets[p.index], error)
  }

  function ReplyNote(p: Pending, at: Option<nat>, length: nat, error: Option<Code>): Note
  {
    Note(RxNote, p.header, at, p.attempt, None, 0, length, [], error)
  }

  // ---------------------------------------------------------------- what is left to record

  function SumSizes(packets: seq<seq<byte>>): nat
  {
    if packets == [] then 0 else |packets[0]| + SumSizes(packets[1..])
  }

  /** Transmissions still possible: whole attempts not begun, and the rest of the one under way. */
  function RestTx(p: Pending): int
  {
    (p.maxAttempts - p.attempt) * |p.packets| + (if 0 < p.index <= |p.packets| then |p.packets| - p.index else 0)
  }

  function RestWire(p: Pending): int
  {
    (p.maxAttempts - p.attempt) * SumSizes(p.packets)
    + (if 0 < p.index <= |p.packets| then SumSizes(p.packets[p.index..]) else 0)
  }

  /** What an exchange under way satisfies; its reservation covers whatever can still be recorded for it. */
  ghost predicate PendingInv(pol: Policy, k: nat, p: Pending)
  {
    && p.header.sequence == k
    && 0 < |p.packets| && p.index <= |p.packets| && p.attempt <= p.maxAttempts
    && (0 < p.index ==> 0 < p.attempt)
    && (p.deadline.Some? <==> p.index == |p.packets|)
    && (p.index == 0 ==> p.attempt < p.maxAttempts)
    && (p.started.Some? <==> 0 < p.attempt)
    && (p.sentOnce ==> 0 < p.attempt) && (p.deadline.Some? ==> p.sentOnce)
    && p.feedback < MAX_FEEDBACK
    && Covered(pol, p, 1)
  }

  /** The reservation holds `more` plain records beside every transmission and reply still possible. */
  ghost predicate Covered(pol: Policy, p: Pending, more: nat)
  {
    && p.feedback <= MAX_FEEDBACK
    && p.reservedCount == more + RestTx(p) + (MAX_FEEDBACK - p.feedback)
    && p.reservedBytes >= 512 * p.reservedCount + RestWire(p) + (MAX_FEEDBACK - p.feedback) * pol.maxReply
  }

  function CountOf(pending: OrderedDict<nat, Pending>): nat -> nat
  {
    k => if k in pending.vals then pending.vals[k].reservedCount else 0
  }

  function BytesOf(pending: OrderedDict<nat, Pending>): nat -> nat
  {
    k => if k in pending.vals then pending.vals[k].reservedBytes else 0
  }

  function NotesSize(notes: seq<Note>): nat
  {
    if notes == [] then 0 else NotesSize(notes[..|notes| - 1]) + notes[|notes| - 1].Size()
  }

  /** The books balance: used is what is kept, reserved is what the exchanges hold, and both fit the limits. */
  ghost predicate Balanced(pol: Policy, b: Board)
  {
    && b.pending.Valid()
    && b.usedCount == |b.notes| && b.usedBytes == NotesSize(b.notes)
    && b.reservedCount == Total(b.pending.keys, CountOf(b.pending))
    && b.reservedBytes == Total(b.pending.keys, BytesOf(b.pending))
    && b.usedCount + b.reservedCount <= pol.maxRecords
    && b.usedBytes + b.reservedBytes <= pol.maxBytes
    && |b.pending.keys| <= pol.capacity
  }

  ghost predicate BoardInv(pol: Policy, b: Board)
  {
    Balanced(pol, b) && forall k :: k in b.pending.vals ==> PendingInv(pol, k, b.pending.vals[k])
  }

  // ---------------------------------------------------------------- steps on the books

  /** Records a note for exchange k out of its reservation, leaving the exchange as p. */
  function Noted(b: Board, k: nat, p: Pending, note: Note): Board
    requires 1 <= p.reservedCount && note.Size() <= p.reservedBytes
    requires 1 <= b.reservedCount && note.Size() <= b.reservedBytes
  {
    b.(pending := b.pending.Put(k, p.(reservedCount := p.reservedCount - 1, reservedBytes := p.reservedBytes - note.Size())),
       notes := b.notes + [note],
       usedCount := b.usedCount + 1,
       usedBytes := b.usedBytes + note.Size(),
       reservedCount := b.reservedCount - 1,
       reservedBytes := b.reservedBytes - note.Size())
  }

  /** An exchange leaves and its unused reservation is free again. */
  function Gone(b: Board, k: nat): Board
    requires k in b.pending.vals
    requires b.pending.vals[k].reservedCount <= b.reservedCount && b.pending.vals[k].reservedBytes <= b.reservedBytes
  {
    b.(pending := b.pending.Delete(k),
       reservedCount := b.reservedCount - b.pending.vals[k].reservedCount,
       reservedBytes := b.reservedBytes - b.pending.vals[k].reservedBytes)
  }

  function Entered(b: Board, k: nat, p: Pending): Board
  {
    b.(pending := b.pending.Put(k, p),
       reservedCount := b.reservedCount + p.reservedCount,
       reservedBytes := b.reservedBytes + p.reservedBytes)
  }

  lemma NotesAppend(notes: seq<Note>, note: Note)
    ensures NotesSize(notes + [note]) == NotesSize(notes) + note.Size()
  {
    assert (notes + [note])[..|notes|] == notes;
  }

  lemma HeldWithin(pol: Policy, b: Board, k: nat)
    requires Balanced(pol, b) && k in b.pending.vals
    ensures b.pending.vals[k].reservedCount <= b.reservedCount && b.pending.vals[k].reservedBytes <= b.reservedBytes
  {
    TotalMember(b.pending.keys, k, CountOf(b.pending));
    TotalMember(b.pending.keys, k, BytesOf(b.pending));
  }

  /** What the reservations amount to once an exchange is entered or replaced. */
  lemma HeldPut(pending: OrderedDict<nat, Pending>, k: nat, p: Pending)
    requires pending.Valid()
    ensures var after := pending.Put(k, p);
      && after.Valid()
      && |after.keys| == |pending.keys| + (if k in pending.vals then 0 else 1)
      && Total(after.keys, CountOf(after)) + (if k in pending.vals then pending.vals[k].reservedCount else 0)
           == Total(pending.keys, CountOf(pending)) + p.reservedCount
      && Total(after.keys, BytesOf(after)) + (if k in pending.vals then pending.vals[k].reservedBytes else 0)
           == Total(pending.keys, BytesOf(pending)) + p.reservedBytes
  {
    var after := pending.Put(k, p);
    TotalPut(pending.keys, k, CountOf(pending), CountOf(after));
    TotalPut(pending.keys, k, BytesOf(pending), BytesOf(after));
  }

  /** Changing an exchange without touching its reservation keeps the balance. */
  lemma RewrittenBalanced(pol: Policy, b: Board, k: nat, p: Pending)
    requires Balanced(pol, b) && k in b.pending.vals
    requires p.reservedCount == b.pending.vals[k].reservedCount && p.reservedBytes == b.pending.vals[k].reservedBytes
    ensures Balanced(pol, b.(pending := b.pending.Put(k, p)))
  {
    hide OrderedDict.Put, OrderedDict.Valid, Total, NotesSize;
    HeldPut(b.pending, k, p);
  }

  lemma NotedBalanced(pol: Policy, b: Board, k: nat, p: Pending, note: Note)
    requires Balanced(pol, b) && k in b.pending.vals
    requires p.reservedCount == b.pending.vals[k].reservedCount && p.reservedBytes == b.pending.vals[k].reservedBytes
    requires 1 <= p.reservedCount && note.Size() <= p.reservedBytes
    ensures 1 <= b.reservedCount && note.Size() <= b.reservedBytes
    ensures Balanced(pol, Noted(b, k, p, note))
  {
    hide OrderedDict.Put, OrderedDict.Valid, Total, NotesSize, Note.Size;
    HeldWithin(pol, b, k);
    HeldPut(b.pending, k, p.(reservedCount := p.reservedCount - 1, reservedBytes := p.reservedBytes - note.Size()));
    NotesAppend(b.notes, note);
  }

  lemma GoneBalanced(pol: Policy, b: Board, k: nat)
    requires Balanced(pol, b) && k in b.pending.vals
    ensures b.pending.vals[k].reservedCount <= b.reservedCount && b.pending.vals[k].reservedBytes <= b.reservedBytes
    ensures Balanced(pol, Gone(b, k))
  {
    HeldWithin(pol, b, k);
    TotalWithout(b.pending.keys, k, CountOf(b.pending));
    TotalWithout(b.pending.keys, k, BytesOf(b.pending));
    var rest := b.pending.Delete(k);
    TotalSame(rest.keys, CountOf(b.pending), CountOf(rest));
    TotalSame(rest.keys, BytesOf(b.pending), BytesOf(rest));
  }

  lemma EnteredBalanced(pol: Policy, b: Board, k: nat, p: Pending)
    requires Balanced(pol, b) && k !in b.pending.vals && |b.pending.keys| < pol.capacity
    requires b.usedCount + b.reservedCount + p.reservedCount <= pol.maxRecords
    requires b.usedBytes + b.reservedBytes + p.reservedBytes <= pol.maxBytes
    ensures Balanced(pol, Entered(b, k, p))
  {
    hide OrderedDict.Put, OrderedDict.Valid, Total, NotesSize;
    HeldPut(b.pending, k, p);
  }

  // ---------------------------------------------------------------- the reservation is enough

  lemma {:induction false} SumSplit(packets: seq<seq<byte>>, i: nat)
    requires i < |packets|
    ensures SumSizes(packets[i..]) == |packets[i]| + SumSizes(packets[i + 1..])
  {
    assert packets[i..][0] == packets[i] && packets[i..][1..] == packets[i + 1..];
  }

  /** A transmission under way, or a fresh attempt, costs exactly one of the transmissions still covered. */
  function Sent(p: Pending): Pending
    requires p.index < |p.packets|
  {
    p.(attempt := if p.index == 0 then p.attempt + 1 else p.attempt, index := p.index + 1)
  }

  lemma SentCovered(pol: Policy, p: Pending)
    requires Covered(pol, p, 1) && p.index < |p.packets| && p.attempt <= p.maxAttempts
    requires 0 < p.index ==> 0 < p.attempt
    requires p.index == 0 ==> p.attempt < p.maxAttempts
    ensures RestTx(Sent(p)) == RestTx(p) - 1 >= 0
    ensures RestWire(Sent(p)) == RestWire(p) - |p.packets[p.index]| >= 0
    ensures Covered(pol, Sent(p), 2)
    ensures p.reservedCount >= 2 && p.reservedBytes >= 512 * 2 + |p.packets[p.index]|
  {
    SentRest(p);
    hide RestTx, RestWire;
    assert (MAX_FEEDBACK - p.feedback) * pol.maxReply >= 0;
  }

  lemma OneFewer(left: nat, n: nat)
    ensures 0 < left ==> (left - 1) * n == left * n - n >= 0
    ensures left * n >= 0
  {
    if 0 < left {
      assert left * n == (left - 1) * n + n;
    }
  }

  lemma SentRest(p: Pending)
    requires p.index < |p.packets| && p.attempt <= p.maxAttempts
    requires 0 < p.index ==> 0 < p.attempt
    requires p.index == 0 ==> p.attempt < p.maxAttempts
    ensures RestTx(Sent(p)) == RestTx(p) - 1 >= 0
    ensures RestWire(Sent(p)) == RestWire(p) - |p.packets[p.index]| >= 0
  {
    SumSplit(p.packets, p.index);
    assert p.packets[0..] == p.packets;
    OneFewer(p.maxAttempts - p.attempt, |p.packets|);
    OneFewer(p.maxAttempts - p.attempt, SumSizes(p.packets));
    hide SumSizes;
  }

  /** Recording one transmission out of a covered reservation leaves the rest covered. */
  lemma TxCovered(pol: Policy, p: Pending, size: nat)
    requires Covered(pol, p, 1) && p.index < |p.packets| && p.attempt <= p.maxAttempts
    requires 0 < p.index ==> 0 < p.attempt
    requires p.index == 0 ==> p.attempt < p.maxAttempts
    requires size == 512 + |p.packets[p.index]|
    ensures 1 <= p.reservedCount && size <= p.reservedBytes
    ensures Covered(pol, Sent(p).(reservedCount := p.reservedCount - 1, reservedBytes := p.reservedBytes - size), 1)
  {
    SentCovered(pol, p);
  }

  lemma RestNonNegative(p: Pending)
    requires p.attempt <= p.maxAttempts
    ensures RestTx(p) >= 0 && RestWire(p) >= 0
  {
    assert (p.maxAttempts - p.attempt) * |p.packets| >= 0;
    assert (p.maxAttempts - p.attempt) * SumSizes(p.packets) >= 0;
  }

  /** Recording one reply of bounded length leaves the rest covered. */
  lemma RxCovered(pol: Policy, p: Pending, size: nat)
    requires Covered(pol, p, 1) && p.feedback < MAX_FEEDBACK && p.attempt <= p.maxAttempts
    requires 512 <= size <= 512 + pol.maxReply
    ensures 1 <= p.reservedCount && size <= p.reservedBytes
    ensures Covered(pol, p.(feedback := p.feedback + 1, reservedCount := p.reservedCount - 1,
                            reservedBytes := p.reservedBytes - size), 1)
  {
    RestNonNegative(p);
    var left := MAX_FEEDBACK - p.feedback;
    assert (left - 1) * pol.maxReply == left * pol.maxReply - pol.maxReply;
    assert (left - 1) * pol.maxReply >= 0;
  }

  /** There is always room for the terminal record. */
  lemma LastCovered(pol: Policy, p: Pending)
    requires Covered(pol, p, 1) && p.attempt <= p.maxAttempts
    ensures 1 <= p.reservedCount && 512 <= p.reservedBytes
  {
    RestNonNegative(p);
    assert (MAX_FEEDBACK - p.feedback) * pol.maxReply >= 0;
  }

  // ---------------------------------------------------------------- the reservation made at submission

  /** Canonical length of a request: its keys and punctuation, five header counters, the identifier, the payload. */
  function RequestLength(id: nat, h: Header, payload: nat): nat
  {
    112 + DecimalLength(h.sequence) + DecimalLength(h.sessionId) + DecimalLength(h.targetStep)
    + DecimalLength(h.transactionId) + DecimalLength(h.validForMs) + DecimalLength(id) + payload
  }

  /** The header used to size a request before its real counters are known. */
  function PreviewHeader(pol: Policy, validForMs: nat): Header
  {
    Header(pol.maxCounter, pol.maxCounter, pol.maxCounter, pol.maxCounter, validForMs)
  }

  /** No real request is longer than its preview. */
  lemma PreviewLongest(pol: Policy, id: nat, h: Header, payload: nat)
    requires h.sessionId <= pol.maxCounter && h.sequence <= pol.maxCounter
    requires h.targetStep <= pol.maxCounter && h.transactionId <= pol.maxCounter
    ensures RequestLength(id, h, payload) <= RequestLength(id, PreviewHeader(pol, h.validForMs), payload)
  {
    DecimalMonotone(h.sessionId, pol.maxCounter);
    DecimalMonotone(h.sequence, pol.maxCounter);
    DecimalMonotone(h.targetStep, pol.maxCounter);
    DecimalMonotone(h.transactionId, pol.maxCounter);
  }

  function ReserveCount(fragments: nat, attempts: nat): nat { 2 + fragments * attempts + MAX_FEEDBACK }

  function ReserveBytes(pol: Policy, fragments: nat, attempts: nat, request: nat, wire: nat): nat
  {
    ReserveCount(fragments, attempts) * 512 + request + wire * attempts + MAX_FEEDBACK * pol.maxReply
  }

  /** A fresh exchange's reservation, less its submission record, covers everything that can follow. */
  lemma SubmissionCovered(pol: Policy, p: Pending, preview: nat, request: nat, size: nat)
    requires 0 < |p.packets| && p.attempt == 0 && p.index == 0 && p.feedback == 0
    requires p.reservedCount == ReserveCount(|p.packets|, p.maxAttempts)
    requires p.reservedBytes == ReserveBytes(pol, |p.packets|, p.maxAttempts, preview, SumSizes(p.packets))
    requires request <= preview && size == 512 + request
    ensures 1 <= p.reservedCount && size <= p.reservedBytes
    ensures Covered(pol, p.(reservedCount := p.reservedCount - 1, reservedBytes := p.reservedBytes - size), 1)
  {
    assert SumSizes(p.packets) * p.maxAttempts == p.maxAttempts * SumSizes(p.packets);
    assert |p.packets| * p.maxAttempts == p.maxAttempts * |p.packets|;
    RestNonNegative(p);
  }

  /** The datagrams of an encoded request. */
  function Datagrams(frames: seq<Frame>): seq<seq<byte>>
  {
    seq(|frames|, i requires 0 <= i < |frames| => if frames[i].Datagram? then frames[i].bytes else [])
  }

  lemma {:induction false} SameSum(a: seq<seq<byte>>, b: seq<seq<byte>>)
    requires |a| == |b| && forall i :: 0 <= i < |a| ==> |a[i]| == |b[i]|
    ensures SumSizes(a) == SumSizes(b)
  {
    if a != [] {
      SameSum(a[1..], b[1..]);
    }
  }

  /** Re-encoding a payload under another header keeps the number and the sizes of its datagrams. */
  lemma SameSizes(c: Contract, id: nat, h: Header, h': Header, raw: seq<byte>)
    requires c.Valid() && Encoded(c, id, h, raw, Udp).Ok? && Encoded(c, id, h', raw, Udp).Ok?
    ensures var a, b := Datagrams(Encoded(c, id, h, raw, Udp).value), Datagrams(Encoded(c, id, h', raw, Udp).value);
      |a| == |b| && SumSizes(a) == SumSizes(b)
  {
    var a, b := Datagrams(Encoded(c, id, h, raw, Udp).value), Datagrams(Encoded(c, id, h', raw, Udp).value);
    ChunksShape(raw, ChunkBytes(Udp));
    hide UdpBytes, Chunks, Contract.CheckHeader;
    forall i | 0 <= i < |a| ensures |a[i]| == |b[i]| {
    }
    SameSum(a, b);
  }

  // ---------------------------------------------------------------- the story of every exchange

  /** How many transmissions and replies an exchange has on record, and how it ended. */
  datatype Story = Story(tx: nat, rx: nat, end: Option<Kind>)

  function Told(story: map<nat, Story>, k: nat, kind: Kind): map<nat, Story>
  {
    var s := if k in story then story[k] else Story(0, 0, None);
    story[k := if kind.TxNote? then s.(tx := s.tx + 1)
               else if kind.RxNote? then s.(rx := s.rx + 1)
               else if kind.Terminal() then s.(end := Some(kind))
               else s]
  }

  /** A pending exchange's records so far are its transmissions and replies; every other one ended exactly once. */
  ghost predicate StoryInv(pending: map<nat, Pending>, story: map<nat, Story>, next: nat)
  {
    && (forall k :: k in story ==> k < next)
    && (forall k :: k in pending ==> k in story && StoryOf(pending[k], story[k]))
    && (forall k :: k in story && k !in pending ==> story[k].end.Some? && story[k].end.value.Terminal())
  }

  ghost predicate StoryOf(p: Pending, s: Story)
  {
    && s.end.None?
    && s.tx + RestTx(p) == p.maxAttempts * |p.packets|
    && s.rx == p.feedback
  }

  /** An exchange never records more transmissions than its attempts allow, nor more replies than its bound. */
  lemma StoryBounded(pol: Policy, k: nat, p: Pending, s: Story)
    requires PendingInv(pol, k, p) && StoryOf(p, s)
    ensures s.tx <= p.maxAttempts * |p.packets| && s.rx < MAX_FEEDBACK
    ensures s.tx == (if p.index == 0 then p.attempt else p.attempt - 1) * |p.packets| + p.index
  {
    PendingCovered(pol, k, p);
    AttemptsSplit(p.maxAttempts, p.attempt, |p.packets|);
    hide PendingInv, Covered, RestWire;
  }

  lemma AttemptsSplit(most: nat, attempt: nat, n: nat)
    requires attempt <= most
    ensures (most - attempt) * n == most * n - attempt * n >= 0
    ensures (attempt - 1) * n == attempt * n - n
  {
    assert (most - attempt) * n + attempt * n == most * n;
    assert (attempt - 1) * n + n == attempt * n;
  }

  // ---------------------------------------------------------------- invariants of the steps

  /** The books are in order except that exchange k may only be ended. */
  ghost predicate Ending(pol: Policy, b: Board, k: nat)
  {
    && Balanced(pol, b)
    && (forall x :: x in b.pending.vals && x != k ==> PendingInv(pol, x, b.pending.vals[x]))
    && k in b.pending.vals && b.pending.vals[k].header.sequence == k
    && Covered(pol, b.pending.vals[k], 1) && b.pending.vals[k].attempt <= b.pending.vals[k].maxAttempts
  }

  lemma EndingAny(pol: Policy, b: Board, k: nat)
    requires BoardInv(pol, b) && k in b.pending.vals
    ensures Ending(pol, b, k)
  {
    hide Balanced;
    PendingCovered(pol, k, b.pending.vals[k]);
  }

  /** Recording for one exchange leaves it at least fit to be ended. */
  lemma NotedEnding(pol: Policy, b: Board, k: nat, p: Pending, note: Note)
    requires BoardInv(pol, b) && k in b.pending.vals && p.header.sequence == k
    requires p.reservedCount == b.pending.vals[k].reservedCount && p.reservedBytes == b.pending.vals[k].reservedBytes
    requires 1 <= p.reservedCount && note.Size() <= p.reservedBytes && p.attempt <= p.maxAttempts
    requires Covered(pol, p.(reservedCount := p.reservedCount - 1, reservedBytes := p.reservedBytes - note.Size()), 1)
    ensures 1 <= b.reservedCount && note.Size() <= b.reservedBytes
    ensures Ending(pol, Noted(b, k, p, note), k)
  {
    hide Balanced, PendingInv, Covered, Noted, Note.Size, OrderedDict.Put;
    NotedBalanced(pol, b, k, p, note);
    NotedParts(b, k, p, note);
  }

  lemma BoardOthers(pol: Policy, b: Board, b': Board, k: nat)
    requires Balanced(pol, b') && forall x :: x in b.pending.vals && x != k ==> PendingInv(pol, x, b.pending.vals[x])
    requires forall x :: x in b'.pending.vals && x != k ==> x in b.pending.vals && b'.pending.vals[x] == b.pending.vals[x]
    requires k in b'.pending.vals ==> PendingInv(pol, k, b'.pending.vals[k])
    ensures BoardInv(pol, b')
  {
    hide Balanced, PendingInv;
  }

  lemma NotedParts(b: Board, k: nat, p: Pending, note: Note)
    requires 1 <= p.reservedCount && note.Size() <= p.reservedBytes
    requires 1 <= b.reservedCount && note.Size() <= b.reservedBytes
    ensures var q := p.(reservedCount := p.reservedCount - 1, reservedBytes := p.reservedBytes - note.Size());
      Noted(b, k, p, note) == Board(b.pending.Put(k, q), b.notes + [note], b.usedCount + 1, b.usedBytes + note.Size(),
                                    b.reservedCount - 1, b.reservedBytes - note.Size())
    ensures b.pending.Put(k, p.(reservedCount := p.reservedCount - 1, reservedBytes := p.reservedBytes - note.Size())).vals
      == b.pending.vals[k := p.(reservedCount := p.reservedCount - 1, reservedBytes := p.reservedBytes - note.Size())]
  {
  }

  /** Recording for one exchange keeps the books, provided what remains of it is covered again. */
  lemma NotedInv(pol: Policy, b: Board, k: nat, p: Pending, note: Note)
    requires BoardInv(pol, b) && k in b.pending.vals
    requires p.reservedCount == b.pending.vals[k].reservedCount && p.reservedBytes == b.pending.vals[k].reservedBytes
    requires 1 <= p.reservedCount && note.Size() <= p.reservedBytes
    requires PendingInv(pol, k, p.(reservedCount := p.reservedCount - 1, reservedBytes := p.reservedBytes - note.Size()))
    ensures 1 <= b.reservedCount && note.Size() <= b.reservedBytes
    ensures BoardInv(pol, Noted(b, k, p, note))
  {
    hide *;
    BoardParts(pol, b);
    NotedBalanced(pol, b, k, p, note);
    NotedParts(b, k, p, note);
    BoardOthers(pol, b, Noted(b, k, p, note), k);
  }

  lemma BoardParts(pol: Policy, b: Board)
    requires BoardInv(pol, b)
    ensures Balanced(pol, b) && forall k :: k in b.pending.vals ==> PendingInv(pol, k, b.pending.vals[k])
  {
    hide Balanced, PendingInv;
  }

  /** Ending an exchange keeps the books. */
  lemma EndedInv(pol: Policy, b: Board, k: nat, note: Note)
    requires Ending(pol, b, k) && note.Size() == 512
    ensures k in b.pending.vals
    ensures var p := b.pending.vals[k];
      && 1 <= p.reservedCount && note.Size() <= p.reservedBytes
      && 1 <= b.reservedCount && note.Size() <= b.reservedBytes
    ensures var noted := Noted(b, k, b.pending.vals[k], note);
      && k in noted.pending.vals
      && noted.pending.vals[k].reservedCount <= noted.reservedCount
      && noted.pending.vals[k].reservedBytes <= noted.reservedBytes
      && BoardInv(pol, Gone(noted, k))
      && Gone(noted, k).pending == b.pending.Delete(k)
  {
    hide *;
    EndingParts(pol, b, k);
    var p := b.pending.vals[k];
    LastCovered(pol, p);
    NotedBalanced(pol, b, k, p, note);
    NotedParts(b, k, p, note);
    var noted := Noted(b, k, p, note);
    GoneBalanced(pol, noted, k);
    GoneParts(b, noted, k, noted.pending.vals[k]);
    BoardOthers(pol, b, Gone(noted, k), k);
  }

  lemma EndingParts(pol: Policy, b: Board, k: nat)
    requires Ending(pol, b, k)
    ensures Balanced(pol, b) && k in b.pending.vals && b.pending.vals[k].header.sequence == k
    ensures forall x :: x in b.pending.vals && x != k ==> PendingInv(pol, x, b.pending.vals[x])
    ensures Covered(pol, b.pending.vals[k], 1) && b.pending.vals[k].attempt <= b.pending.vals[k].maxAttempts
  {
    hide Balanced, PendingInv, Covered;
  }

  /** An exchange that can at least record its end. */
  ghost predicate Owed(pol: Policy, k: nat, p: Pending)
  {
    p.header.sequence == k && p.attempt <= p.maxAttempts && Covered(pol, p, 1)
  }

  /** The books are in order, though some exchanges may have nothing left to do but end. */
  ghost predicate Closing(pol: Policy, b: Board)
  {
    Balanced(pol, b) && forall k :: k in b.pending.vals ==> Owed(pol, k, b.pending.vals[k])
  }

  lemma BoardCloses(pol: Policy, b: Board)
    requires BoardInv(pol, b)
    ensures Closing(pol, b)
  {
    hide Balanced, Covered;
  }

  lemma EndingCloses(pol: Policy, b: Board, k: nat)
    requires Ending(pol, b, k)
    ensures Closing(pol, b)
  {
    hide Balanced, Covered;
  }

  lemma NothingOpen(pol: Policy, b: Board)
    requires Closing(pol, b) && b.pending.vals == map[]
    ensures BoardInv(pol, b)
  {
    hide Balanced;
  }

  lemma ClosingParts(pol: Policy, b: Board)
    requires Closing(pol, b)
    ensures Balanced(pol, b) && forall k :: k in b.pending.vals ==> Owed(pol, k, b.pending.vals[k])
  {
    hide Balanced, Owed;
  }

  lemma ClosingOthers(pol: Policy, b: Board, b': Board)
    requires Closing(pol, b) && Balanced(pol, b')
    requires forall x :: x in b'.pending.vals ==> x in b.pending.vals && b'.pending.vals[x] == b.pending.vals[x]
    ensures Closing(pol, b')
  {
    hide Balanced, Owed;
  }

  lemma OwedParts(pol: Policy, k: nat, p: Pending)
    requires Owed(pol, k, p)
    ensures p.header.sequence == k && p.attempt <= p.maxAttempts && Covered(pol, p, 1)
  {
    hide Covered;
  }

  /** Ending any exchange leaves every other one able to end. */
  lemma EndedCloses(pol: Policy, b: Board, k: nat, note: Note)
    requires Closing(pol, b) && k in b.pending.vals && note.Size() == 512
    ensures var p := b.pending.vals[k];
      && 1 <= p.reservedCount && note.Size() <= p.reservedBytes && p.header.sequence == k
      && 1 <= b.reservedCount && note.Size() <= b.reservedBytes
    ensures var noted := Noted(b, k, b.pending.vals[k], note);
      && k in noted.pending.vals
      && noted.pending.vals[k].reservedCount <= noted.reservedCount
      && noted.pending.vals[k].reservedBytes <= noted.reservedBytes
      && Closing(pol, Gone(noted, k))
      && Gone(noted, k).pending == b.pending.Delete(k)
  {
    hide *;
    ClosingParts(pol, b);
    var p := b.pending.vals[k];
    OwedParts(pol, k, p);
    LastCovered(pol, p);
    NotedBalanced(pol, b, k, p, note);
    NotedParts(b, k, p, note);
    var noted := Noted(b, k, p, note);
    GoneBalanced(pol, noted, k);
    GoneParts(b, noted, k, noted.pending.vals[k]);
    ClosingOthers(pol, b, Gone(noted, k));
  }

  // ---------------------------------------------------------------- the order of first transmissions

  /** No exchange begins to transmit before every earlier pending one has been sent in full. */
  ghost predicate Sequential(pending: map<nat, Pending>)
  {
    forall q, k :: q in pending && k in pending && q < k && 0 < pending[k].attempt ==> pending[q].sentOnce
  }

  ghost predicate InTurn(pending: map<nat, Pending>, k: nat)
  {
    k in pending && (pending[k].sentOnce || forall q :: q in pending && q < k ==> pending[q].sentOnce)
  }

  /** Whether the next fragment of an exchange may go out now. */
  ghost predicate MaySend(pol: Policy, pending: map<nat, Pending>, k: nat, now: nat, perf: nat)
  {
    InTurn(pending, k) &&
    var p := pending[k];
    && (p.final ==> now < p.submitted + pol.commitTimeoutNs)
    && (p.deadline.Some? ==> p.deadline.value <= now && p.attempt < p.maxAttempts)
    && (p.started.Some? ==> now < Validity(p))
    && (p.deadline.None? && p.firstPerf.Some? ==> perf - p.firstPerf.value < pol.groupNs)
  }

  /** Whether an exchange whose turn it is has run out of time or of attempts. */
  ghost predicate TimesOut(pol: Policy, pending: map<nat, Pending>, k: nat, now: nat, perf: nat)
  {
    InTurn(pending, k) &&
    var p := pending[k];
    if p.final && now >= p.submitted + pol.commitTimeoutNs then true
    else if p.deadline.Some? && now < p.deadline.value then false
    else if p.deadline.Some? && p.attempt >= p.maxAttempts then !p.final
    else || (p.started.Some? && now >= Validity(p))
         || (p.deadline.None? && p.firstPerf.Some? && perf - p.firstPerf.value >= pol.groupNs)
  }

  /** Whether a heartbeat that never went out in full is late. */
  predicate HeartbeatLate(pol: Policy, p: Pending, now: nat)
  {
    p.heartbeatDue.Some? && now - p.heartbeatDue.value > pol.jitterNs
  }

  /** What became of a reply at `now`: accepted, it either ends the exchange or counts against the bound. */
  predicate Accepted(pol: Policy, p: Pending, leaseEnd: nat, reply: Reply, now: nat)
    requires p.started.Some?
  {
    reply.length <= pol.maxReply && now < leaseEnd && now < ReplyDeadline(pol, p)
  }

  lemma AdvancedKeeps(p: Pending, now: nat, perf: nat, ackTimeoutNs: nat)
    requires p.index < |p.packets|
    ensures p.sentOnce ==> Advanced(p, now, perf, ackTimeoutNs).sentOnce
    ensures Advanced(p, now, perf, ackTimeoutNs).header == p.header
  {
  }

  lemma SequentialPut(pending: map<nat, Pending>, k: nat, p: Pending)
    requires Sequential(pending) && k in pending
    requires p.attempt == pending[k].attempt && p.sentOnce == pending[k].sentOnce
    ensures Sequential(pending[k := p])
  {
  }

  lemma InTurnSame(pending: map<nat, Pending>, k: nat, p: Pending)
    requires k in pending && InTurn(pending, k) && p.sentOnce == pending[k].sentOnce
    ensures InTurn(pending[k := p], k)
  {
  }

  /** The exchange after one fragment, whatever its bookkeeping flags. */
  ghost predicate Advances(pol: Policy, p: Pending, q: Pending, now: nat, perf: nat)
    requires p.index < |p.packets|
  {
    Course(q) == Course(Advanced(p, now, perf, pol.ackTimeoutNs)
                          .(heartbeatClaimed := p.heartbeatClaimed || p.id == 2, firstClaimed := true))
  }

  lemma AdvancedFlags(p: Pending, claimed: bool, now: nat, perf: nat, ackTimeoutNs: nat)
    requires p.index < |p.packets|
    ensures Course(Advanced(p.(heartbeatClaimed := claimed, firstClaimed := true), now, perf, ackTimeoutNs))
      == Course(Advanced(p, now, perf, ackTimeoutNs).(heartbeatClaimed := claimed, firstClaimed := true))
  {
  }

  /** Transmissions on record. */
  function CountTx(notes: seq<Note>): nat
  {
    if notes == [] then 0 else CountTx(notes[..|notes| - 1]) + (if notes[|notes| - 1].kind.TxNote? then 1 else 0)
  }

  lemma CountTxOne(before: seq<Note>, notes: seq<Note>)
    requires |notes| == |before| + 1 && before <= notes
    ensures CountTx(notes) == CountTx(before) + (if notes[|before|].kind.TxNote? then 1 else 0)
  {
    assert notes[..|before|] == before;
  }

  lemma SequentialSent(pending: map<nat, Pending>, k: nat, p: Pending)
    requires Sequential(pending) && InTurn(pending, k)
    requires pending[k].sentOnce ==> p.sentOnce && 0 < pending[k].attempt
    ensures Sequential(pending[k := p])
  {
  }

  lemma SequentialGone(pending: map<nat, Pending>, k: nat)
    requires Sequential(pending)
    ensures Sequential(pending - {k})
  {
  }

  lemma SequentialEntered(pending: map<nat, Pending>, k: nat, p: Pending)
    requires Sequential(pending) && p.attempt == 0 && forall q :: q in pending ==> q < k
    ensures Sequential(pending[k := p])
  {
  }

  lemma StoryOpen(pending: map<nat, Pending>, story: map<nat, Story>, next: nat, k: nat)
    requires StoryInv(pending, story, next) && k in pending
    ensures k in story && story[k].end.None?
  {
    hide RestTx;
  }

  lemma StoryBefore(pending: map<nat, Pending>, story: map<nat, Story>, next: nat)
    requires StoryInv(pending, story, next)
    ensures forall q :: q in pending ==> q < next
  {
    hide StoryOf;
  }

  lemma PendingCovered(pol: Policy, k: nat, p: Pending)
    requires PendingInv(pol, k, p)
    ensures Covered(pol, p, 1) && p.attempt <= p.maxAttempts && p.header.sequence == k
    ensures 0 < p.index ==> 0 < p.attempt
    ensures p.index == 0 ==> p.attempt < p.maxAttempts
    ensures p.index <= |p.packets| && 0 < |p.packets|
    ensures p.deadline.Some? <==> p.index == |p.packets|
    ensures p.started.Some? <==> 0 < p.attempt
    ensures p.sentOnce ==> 0 < p.attempt
    ensures p.feedback < MAX_FEEDBACK
  {
    hide Covered;
  }

  lemma GoneParts(b: Board, noted: Board, k: nat, p: Pending)
    requires k in b.pending.vals && noted.pending == b.pending.Put(k, p)
    requires p.reservedCount <= noted.reservedCount && p.reservedBytes <= noted.reservedBytes
    ensures Gone(noted, k).pending == b.pending.Delete(k)
    ensures Gone(noted, k).pending.vals == b.pending.vals - {k}
  {
  }

  lemma StoryEnded(pending: map<nat, Pending>, story: map<nat, Story>, next: nat, k: nat, kind: Kind)
    requires StoryInv(pending, story, next) && k in pending && kind.Terminal()
    ensures StoryInv(pending - {k}, Told(story, k, kind), next)
    ensures k in Told(story, k, kind) && Told(story, k, kind)[k].end == Some(kind)
    ensures forall x :: x in Told(story, k, kind) && x != k ==> x in story && Told(story, k, kind)[x] == story[x]
    ensures forall x :: x in story ==> x in Told(story, k, kind)
    ensures StoryGrows(story, Told(story, k, kind))
  {
    hide RestTx;
  }

  /** What has ended stays as it ended. */
  ghost predicate StoryGrows(before: map<nat, Story>, after: map<nat, Story>)
  {
    forall k :: k in before ==> k in after && (before[k].end.Some? ==> after[k] == before[k])
  }

  lemma StoryNoted(pending: map<nat, Pending>, story: map<nat, Story>, next: nat, k: nat, p: Pending, kind: Kind)
    requires StoryInv(pending, story, next) && k in pending && !kind.Terminal()
    requires p.packets == pending[k].packets && p.maxAttempts == pending[k].maxAttempts
    requires kind.TxNote? ==> RestTx(p) == RestTx(pending[k]) - 1 && p.feedback == pending[k].feedback
    requires kind.RxNote? ==> RestTx(p) == RestTx(pending[k]) && p.feedback == pending[k].feedback + 1
    requires kind.SubmittedNote? ==> RestTx(p) == RestTx(pending[k]) && p.feedback == pending[k].feedback
    ensures StoryInv(pending[k := p], Told(story, k, kind), next)
    ensures StoryGrows(story, Told(story, k, kind))
  {
    hide RestTx;
  }

  lemma StoryGrowsOn(a: map<nat, Story>, b: map<nat, Story>, c: map<nat, Story>)
    requires StoryGrows(a, b) && StoryGrows(b, c)
    ensures StoryGrows(a, c)
  {
  }

  lemma StoryKept(story: map<nat, Story>)
    ensures StoryGrows(story, story)
  {
  }

  /** The exchange after one fragment went out at `now`: an attempt opens with its first, closes with its last. */
  function Advanced(p: Pending, now: nat, perf: nat, ackTimeoutNs: nat): Pending
    requires p.index < |p.packets|
  {
    var q := Sent(p).(firstPerf := if p.index == 0 then Some(perf) else p.firstPerf,
                      started := if p.started.None? then Some(now) else p.started);
    if q.index == |q.packets| then q.(sentOnce := true, firstPerf := None, deadline := Some(now + ackTimeoutNs)) else q
  }

  /** One fragment out and on record: the exchange is in order and still covered. */
  lemma AdvancedInv(pol: Policy, k: nat, p: Pending, now: nat, perf: nat, size: nat)
    requires PendingInv(pol, k, p) && p.deadline.None? && size == 512 + |p.packets[p.index]|
    ensures 1 <= p.reservedCount && size <= p.reservedBytes
    ensures var q := Advanced(p, now, perf, pol.ackTimeoutNs);
      && q.reservedCount == p.reservedCount && q.reservedBytes == p.reservedBytes
      && q.packets == p.packets && q.maxAttempts == p.maxAttempts && q.feedback == p.feedback
      && RestTx(q) == RestTx(p) - 1
      && PendingInv(pol, k, q.(reservedCount := p.reservedCount - 1, reservedBytes := p.reservedBytes - size))
  {
    hide *;
    PendingCovered(pol, k, p);
    TxCovered(pol, p, size);
    SentRest(p);
    var q := Advanced(p, now, perf, pol.ackTimeoutNs);
    AdvancedShape(pol, k, p, now, perf, p.reservedCount - 1, p.reservedBytes - size);
    SentShape(p);
    SameRest(Sent(p), q);
    CoveredSame(pol, Sent(p).(reservedCount := p.reservedCount - 1, reservedBytes := p.reservedBytes - size),
                q.(reservedCount := p.reservedCount - 1, reservedBytes := p.reservedBytes - size));
  }

  lemma SentShape(p: Pending)
    requires p.index < |p.packets|
    ensures Sent(p).packets == p.packets && Sent(p).maxAttempts == p.maxAttempts && Sent(p).feedback == p.feedback
  {
  }

  /** Apart from its reservation the exchange stays in order. */
  lemma AdvancedShape(pol: Policy, k: nat, p: Pending, now: nat, perf: nat, count: nat, bytes: nat)
    requires PendingInv(pol, k, p) && p.deadline.None? && p.index < |p.packets|
    ensures var q := Advanced(p, now, perf, pol.ackTimeoutNs);
      && q.packets == p.packets && q.maxAttempts == p.maxAttempts && q.feedback == p.feedback
      && q.reservedCount == p.reservedCount && q.reservedBytes == p.reservedBytes
      && q.attempt == Sent(p).attempt && q.index == Sent(p).index
      && (Covered(pol, q.(reservedCount := count, reservedBytes := bytes), 1) ==>
            PendingInv(pol, k, q.(reservedCount := count, reservedBytes := bytes)))
  {
    hide Covered;
  }

  lemma SameRest(p: Pending, q: Pending)
    requires q.packets == p.packets && q.maxAttempts == p.maxAttempts && q.attempt == p.attempt && q.index == p.index
    ensures RestTx(q) == RestTx(p) && RestWire(q) == RestWire(p)
  {
  }

  lemma CoveredSame(pol: Policy, p: Pending, q: Pending)
    requires Covered(pol, p, 1)
    requires q.packets == p.packets && q.maxAttempts == p.maxAttempts && q.attempt == p.attempt && q.index == p.index
    requires q.feedback == p.feedback && q.reservedCount == p.reservedCount && q.reservedBytes == p.reservedBytes
    ensures Covered(pol, q, 1)
  {
    SameRest(p, q);
    hide RestTx, RestWire;
  }

  /** A retry starts over at the first fragment; nothing of the reservation is spent. */
  function Restarted(p: Pending): Pending
  {
    p.(deadline := None, index := 0, firstPerf := None)
  }

  lemma RestartedParts(p: Pending)
    ensures var q := Restarted(p);
      && q.reservedCount == p.reservedCount && q.reservedBytes == p.reservedBytes && q.packets == p.packets
      && q.maxAttempts == p.maxAttempts && q.attempt == p.attempt && q.sentOnce == p.sentOnce && q.feedback == p.feedback
      && q.deadline.None? && q.firstPerf.None? && q.started == p.started && q.header == p.header
  {
  }

  lemma RestartedInv(pol: Policy, k: nat, p: Pending)
    requires PendingInv(pol, k, p) && p.deadline.Some? && p.attempt < p.maxAttempts
    ensures PendingInv(pol, k, Restarted(p)) && RestTx(Restarted(p)) == RestTx(p)
  {
    assert p.packets[|p.packets|..] == [];
    hide SumSizes;
    assert SumSizes([]) == 0 by { NoSize(); }
  }

  lemma NoSize()
    ensures SumSizes([]) == 0
  {
  }

  /** The bookkeeping flags of an exchange do not concern its reservation. */
  lemma FlaggedInv(pol: Policy, k: nat, p: Pending, heartbeatClaimed: bool, firstClaimed: bool, due: Option<nat>)
    requires PendingInv(pol, k, p)
    ensures var q := p.(heartbeatClaimed := heartbeatClaimed, firstClaimed := firstClaimed, heartbeatDue := due);
      PendingInv(pol, k, q) && RestTx(q) == RestTx(p)
  {
    var q := p.(heartbeatClaimed := heartbeatClaimed, firstClaimed := firstClaimed, heartbeatDue := due);
    SameRest(p, q);
    CoveredSame(pol, p, q);
    hide RestTx, RestWire, Covered;
  }

  /** One bounded reply on record, below the last: the exchange is in order and still covered. */
  lemma RepliedInv(pol: Policy, k: nat, p: Pending, size: nat)
    requires PendingInv(pol, k, p) && 512 <= size <= 512 + pol.maxReply
    ensures 1 <= p.reservedCount && size <= p.reservedBytes
    ensures var q := p.(feedback := p.feedback + 1, reservedCount := p.reservedCount - 1, reservedBytes := p.reservedBytes - size);
      && Covered(pol, q, 1) && RestTx(q) == RestTx(p)
      && (p.feedback + 1 < MAX_FEEDBACK ==> PendingInv(pol, k, q))
  {
    PendingCovered(pol, k, p);
    RxCovered(pol, p, size);
    SameRest(p, p.(feedback := p.feedback + 1, reservedCount := p.reservedCount - 1, reservedBytes := p.reservedBytes - size));
    hide RestTx, RestWire, Covered;
  }

  lemma RewrittenInv(pol: Policy, b: Board, k: nat, p: Pending)
    requires BoardInv(pol, b) && k in b.pending.vals && PendingInv(pol, k, p)
    requires p.reservedCount == b.pending.vals[k].reservedCount && p.reservedBytes == b.pending.vals[k].reservedBytes
    ensures BoardInv(pol, b.(pending := b.pending.Put(k, p)))
    ensures b.pending.Put(k, p).vals == b.pending.vals[k := p]
  {
    hide *;
    BoardParts(pol, b);
    RewrittenBalanced(pol, b, k, p);
    PutVals(b.pending, k, p);
    BoardOthers(pol, b, b.(pending := b.pending.Put(k, p)), k);
  }

  lemma PutVals(pending: OrderedDict<nat, Pending>, k: nat, p: Pending)
    ensures pending.Put(k, p).vals == pending.vals[k := p]
  {
  }

  lemma StoryRewritten(pending: map<nat, Pending>, story: map<nat, Story>, next: nat, k: nat, p: Pending)
    requires StoryInv(pending, story, next) && k in pending
    requires p.packets == pending[k].packets && p.maxAttempts == pending[k].maxAttempts
    requires RestTx(p) == RestTx(pending[k]) && p.feedback == pending[k].feedback
    ensures StoryInv(pending[k := p], story, next)
  {
    hide RestTx;
  }

  /** A new exchange under a sequence never used before. */
  lemma EnteredInv(pol: Policy, b: Board, story: map<nat, Story>, next: nat, k: nat, p: Pending)
    requires BoardInv(pol, b) && StoryInv(b.pending.vals, story, next) && k == next
    requires |b.pending.keys| < pol.capacity
    requires b.usedCount + b.reservedCount + p.reservedCount <= pol.maxRecords
    requires b.usedBytes + b.reservedBytes + p.reservedBytes <= pol.maxBytes
    ensures k !in b.pending.vals && k !in story
    ensures Balanced(pol, Entered(b, k, p)) && Entered(b, k, p).pending == b.pending.Put(k, p)
  {
    hide *;
    BoardParts(pol, b);
    StoryFresh(b.pending.vals, story, next, k);
    EnteredBalanced(pol, b, k, p);
    EnteredParts(b, k, p);
  }

  lemma EnteredParts(b: Board, k: nat, p: Pending)
    ensures Entered(b, k, p) == Board(b.pending.Put(k, p), b.notes, b.usedCount, b.usedBytes,
                                      b.reservedCount + p.reservedCount, b.reservedBytes + p.reservedBytes)
  {
  }

  lemma StoryFresh(pending: map<nat, Pending>, story: map<nat, Story>, next: nat, k: nat)
    requires StoryInv(pending, story, next) && k == next
    ensures k !in story && k !in pending
  {
    hide StoryOf;
  }

  /** A submission entered and recorded leaves the books in order. */
  lemma SubmittedBoard(pol: Policy, b: Board, k: nat, p: Pending, note: Note)
    requires BoardInv(pol, b) && k !in b.pending.vals && Balanced(pol, Entered(b, k, p)) && p.header.sequence == k
    requires 0 < |p.packets| && p.attempt == 0 && p.index == 0 && p.feedback == 0 && p.maxAttempts > 0
    requires p.deadline.None? && p.started.None? && !p.sentOnce
    requires 1 <= p.reservedCount && note.Size() <= p.reservedBytes
    requires Covered(pol, p.(reservedCount := p.reservedCount - 1, reservedBytes := p.reservedBytes - note.Size()), 1)
    ensures var e := Entered(b, k, p);
      && 1 <= e.reservedCount && note.Size() <= e.reservedBytes
      && BoardInv(pol, Noted(e, k, p, note))
  {
    hide *;
    var e := Entered(b, k, p);
    var spent := p.(reservedCount := p.reservedCount - 1, reservedBytes := p.reservedBytes - note.Size());
    SubmittedPending(pol, k, spent);
    EnteredParts(b, k, p);
    PutVals(b.pending, k, p);
    NotedBalanced(pol, e, k, p, note);
    NotedParts(e, k, p, note);
    BoardParts(pol, b);
    BoardOthers(pol, b, Noted(e, k, p, note), k);
  }

  lemma SubmittedPending(pol: Policy, k: nat, p: Pending)
    requires p.header.sequence == k && 0 < |p.packets| && p.attempt == 0 && p.index == 0 && p.feedback == 0 && p.maxAttempts > 0
    requires p.deadline.None? && p.started.None? && !p.sentOnce && Covered(pol, p, 1)
    ensures PendingInv(pol, k, p)
  {
    hide Covered;
  }

  lemma StorySubmitted(pending: map<nat, Pending>, story: map<nat, Story>, k: nat, p: Pending)
    requires StoryInv(pending, story, k) && p.attempt == 0 && p.index == 0 && p.feedback == 0
    ensures StoryInv(pending[k := p], Told(story, k, SubmittedNote), k + 1)
    ensures StoryGrows(story, Told(story, k, SubmittedNote))
  {
  }
}
