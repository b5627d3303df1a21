/** The cooperative sender object; the session, the transport and the clocks may answer anything. */
module Dispatcher {
  import opened Common
  import opened Catalogue
  import opened Ordered
  import opened Wire
  import opened Dispatch

  /** Any answer of the session clock or counters. */
  method Reading() returns (r: Result<nat>)
  {
    r := *;
  }

  /** Any verdict of the session, the transport or validation. */
  method Verdict() returns (r: Result<()>)
  {
    r := *;
  }

  /** How a call ends; `Breaks` is an exception outside the interface's error codes. */
  datatype Call<T> = Returns(value: T) | Raises(code: Code) | Breaks

  class UDPDispatcher {
    const pol: Policy
    var pending: OrderedDict<nat, Pending>
    var notes: seq<Note>
    var usedCount: nat
    var usedBytes: nat
    var reservedCount: nat
    var reservedBytes: nat
    var nextSequence: nat
    var leaseEnd: nat
    var provider: bool
    /** When the next heartbeat is due, once a clock reading has said so. */
    var nextHeartbeat: Option<nat>
    var closed: bool
    ghost var story: map<nat, Story>

    function View(): Board
      reads this
    {
      Board(pending, notes, usedCount, usedBytes, reservedCount, reservedBytes)
    }

    ghost predicate Valid()
      reads this
    {
      && pol.Valid() && BoardInv(pol, View()) && StoryInv(pending.vals, story, nextSequence)
      && Sequential(pending.vals) && (closed ==> pending.vals == map[])
    }

    /** Everything is in order, except that some exchanges may have nothing left to do but end. */
    ghost predicate Sound()
      reads this
    {
      && pol.Valid() && Closing(pol, View()) && StoryInv(pending.vals, story, nextSequence) && Sequential(pending.vals)
      && !closed
    }

    /** Whatever is recorded, the limits hold and nothing recorded earlier is lost. */
    twostate predicate Continues()
      reads this
    {
      && old(notes) <= notes && old(nextSequence) <= nextSequence && closed == old(closed)
      && StoryGrows(old(story), story)
    }

    constructor (pol: Policy, firstSequence: nat, leaseEnd: nat)
      requires pol.Valid()
      ensures Valid() && this.pol == pol && notes == [] && story == map[] && !closed && !provider && nextHeartbeat.None?
    {
      this.pol, nextSequence, this.leaseEnd := pol, firstSequence, leaseEnd;
      pending, notes, usedCount, usedBytes, reservedCount, reservedBytes := Empty(), [], 0, 0, 0, 0;
      provider, nextHeartbeat, closed, story := false, None, false, map[];
    }

    lemma Parts()
      requires Valid()
      ensures pol.Valid() && pending.Valid() && |pending.keys| == pending.Size()
      ensures StoryInv(pending.vals, story, nextSequence)
    {
      hide StoryInv, PendingInv, Total;
    }

    /** Appends one record for exchange k, now `p`, if its reservation still holds it. */
    method Record(k: nat, p: Pending, note: Note) returns (ok: bool)
      requires Balanced(pol, View()) && k in pending.vals
      requires p.reservedCount == pending.vals[k].reservedCount && p.reservedBytes == pending.vals[k].reservedBytes
      modifies this
      ensures ok <==> p.reservedCount >= 1 && p.reservedBytes >= note.Size()
      ensures !ok ==> View() == old(View()) && story == old(story)
      ensures ok ==>
        && 1 <= old(reservedCount) && note.Size() <= old(reservedBytes)
        && View() == Noted(old(View()), k, p, note) && Balanced(pol, View())
        && story == Told(old(story), k, note.kind)
      ensures nextSequence == old(nextSequence) && leaseEnd == old(leaseEnd) && closed == old(closed)
      ensures provider == old(provider) && nextHeartbeat == old(nextHeartbeat)
    {
      hide Balanced, Note.Size, Noted, Told, OrderedDict.Put, OrderedDict.Valid;
      if p.reservedCount < 1 || p.reservedBytes < note.Size() {
        return false;
      }
      NotedBalanced(pol, View(), k, p, note);
      NotedParts(View(), k, p, note);
      pending := pending.Put(k, p.(reservedCount := p.reservedCount - 1, reservedBytes := p.reservedBytes - note.Size()));
      reservedCount := reservedCount - 1;
      reservedBytes := reservedBytes - note.Size();
      usedCount := usedCount + 1;
      usedBytes := usedBytes + note.Size();
      notes := notes + [note];
      story := Told(story, k, note.kind);
      return true;
    }

    /** Everything is in order, except that exchange k may have nothing left to do but end. */
    ghost predicate Ready(k: nat)
      reads this
    {
      Sound() && Ending(pol, View(), k)
    }

    lemma ReadyAny(k: nat)
      requires Valid() && k in pending.vals
      ensures Ready(k)
    {
      hide BoardInv, StoryInv, Ending, Sequential, Closing;
      EndingAny(pol, View(), k);
      EndingCloses(pol, View(), k);
    }

    lemma SoundAny()
      requires Valid() && !closed
      ensures Sound()
    {
      hide BoardInv, StoryInv, Sequential, Closing;
      BoardCloses(pol, View());
    }

    lemma SoundEmpty()
      requires Sound() && pending.vals == map[]
      ensures Valid()
    {
      hide BoardInv, StoryInv, Sequential, Closing;
      NothingOpen(pol, View());
    }

    /** Ends an exchange: its terminal record always fits, and what it had left on reservation is free again. */
    method Finish(k: nat, kind: Kind, at: Option<nat>, error: Option<Code>)
      requires Sound() && k in pending.vals && kind.Terminal()
      modifies this
      ensures Sound() && Continues() && (old(Ready(k)) ==> Valid())
      ensures pending == old(pending).Delete(k) && pending.vals == old(pending).vals - {k}
      ensures notes == old(notes) + [Note(kind, old(pending).vals[k].header, at, old(pending).vals[k].attempt, None, 0, 0, [], error)]
      ensures k in story && story[k].end == Some(kind)
      ensures forall x :: x in story && x != k ==> x in old(story) && story[x] == old(story)[x]
      ensures forall x :: x in old(story) ==> x in story
      ensures leaseEnd == old(leaseEnd) && nextSequence == old(nextSequence)
      ensures provider == old(provider) && nextHeartbeat == old(nextHeartbeat)
    {
      hide BoardInv, Balanced, StoryInv, Ending, Closing, Sequential, Noted, Told, StoryGrows, OrderedDict.Put, OrderedDict.Delete,
        OrderedDict.Valid, Policy.Valid;
      var p := pending.vals[k];
      var note := Note(kind, p.header, at, p.attempt, None, 0, 0, [], error);
      ClosingParts(pol, View());
      EndedCloses(pol, View(), k, note);
      if Ending(pol, View(), k) {
        EndedInv(pol, View(), k, note);
      }
      StoryEnded(pending.vals, story, nextSequence, k, kind);
      SequentialGone(pending.vals, k);
      DeletedVals(pending, k);
      NotedParts(View(), k, p, note);
      var ok := Record(k, p, note);
      assert ok;
      reservedCount := reservedCount - pending.vals[k].reservedCount;
      reservedBytes := reservedBytes - pending.vals[k].reservedBytes;
      pending := pending.Delete(k);
    }

    /** Changes an exchange in place; its reservation and its place in the story stay. */
    method Rewrite(k: nat, p: Pending)
      requires Valid() && k in pending.vals && PendingInv(pol, k, p)
      requires p.reservedCount == pending.vals[k].reservedCount && p.reservedBytes == pending.vals[k].reservedBytes
      requires p.packets == pending.vals[k].packets && p.maxAttempts == pending.vals[k].maxAttempts
      requires p.attempt == pending.vals[k].attempt && p.sentOnce == pending.vals[k].sentOnce
      requires RestTx(p) == RestTx(pending.vals[k]) && p.feedback == pending.vals[k].feedback
      modifies this`pending
      ensures Valid() && pending == old(pending).Put(k, p) && pending.vals == old(pending).vals[k := p]
    {
      hide BoardInv, StoryInv, PendingInv, Sequential, RestTx, OrderedDict.Put;
      RewrittenInv(pol, View(), k, p);
      StoryRewritten(pending.vals, story, nextSequence, k, p);
      SequentialPut(pending.vals, k, p);
      pending := pending.Put(k, p);
    }

    /** One fragment went out: the exchange advances and its record fits the reservation. */
    method NoteSent(k: nat, now: nat, perf: nat, at: Option<nat>, error: Option<Code>)
      requires Valid() && k in pending.vals && InTurn(pending.vals, k) && pending.vals[k].deadline.None?
      modifies this
      ensures Valid() && Continues() && k in pending.vals
      ensures pending.vals - {k} == old(pending).vals - {k} && old(pending).vals[k].index < |old(pending).vals[k].packets|
      ensures Course(pending.vals[k]) == Course(Advanced(old(pending).vals[k], now, perf, pol.ackTimeoutNs))
      ensures notes == old(notes) + [SentNote(old(pending).vals[k], pending.vals[k].attempt, at, error)]
      ensures leaseEnd == old(leaseEnd) && nextSequence == old(nextSequence)
      ensures provider == old(provider) && nextHeartbeat == old(nextHeartbeat)
    {
      hide BoardInv, Balanced, StoryInv, PendingInv, Sequential, InTurn, RestTx, OrderedDict.Put, Noted, Told, StoryGrows, Advanced,
        Covered, Policy.Valid;
      var p := pending.vals[k];
      BoardParts(pol, View());
      PendingCovered(pol, k, p);
      var q := Advanced(p, now, perf, pol.ackTimeoutNs);
      var note := SentNote(p, q.attempt, at, error);
      AdvancedInv(pol, k, p, now, perf, note.Size());
      NotedInv(pol, View(), k, q, note);
      NotedParts(View(), k, q, note);
      ghost var spent := q.(reservedCount := q.reservedCount - 1, reservedBytes := q.reservedBytes - note.Size());
      SameRest(q, spent);
      StoryNoted(pending.vals, story, nextSequence, k, spent, TxNote);
      AdvancedKeeps(p, now, perf, pol.ackTimeoutNs);
      SequentialSent(pending.vals, k, spent);
      var ok := Record(k, q, note);
      assert ok;
    }

    /** A bounded reply is on record; unless it was the last one allowed, the exchange goes on. */
    method NoteReply(k: nat, at: Option<nat>, length: nat, error: Option<Code>)
      requires Valid() && k in pending.vals && length <= pol.maxReply
      modifies this
      ensures Ready(k) && Continues() && k in pending.vals
      ensures pending.vals - {k} == old(pending).vals - {k}
      ensures Course(pending.vals[k]) == Course(old(pending).vals[k].(feedback := old(pending).vals[k].feedback + 1))
      ensures pending.vals[k].feedback <= MAX_FEEDBACK && (pending.vals[k].feedback < MAX_FEEDBACK ==> Valid())
      ensures notes == old(notes) + [ReplyNote(old(pending).vals[k], at, length, error)]
      ensures leaseEnd == old(leaseEnd) && nextSequence == old(nextSequence)
      ensures provider == old(provider) && nextHeartbeat == old(nextHeartbeat)
    {
      hide BoardInv, Balanced, StoryInv, PendingInv, Sequential, RestTx, OrderedDict.Put, Noted, Told, StoryGrows, Covered, Ending,
        Closing, Policy.Valid;
      var p := pending.vals[k];
      BoardParts(pol, View());
      PendingCovered(pol, k, p);
      var note := ReplyNote(p, at, length, error);
      RepliedInv(pol, k, p, note.Size());
      var q := p.(feedback := p.feedback + 1);
      ghost var spent := q.(reservedCount := q.reservedCount - 1, reservedBytes := q.reservedBytes - note.Size());
      NotedEnding(pol, View(), k, q, note);
      if q.feedback < MAX_FEEDBACK {
        NotedInv(pol, View(), k, q, note);
      }
      NotedParts(View(), k, q, note);
      StoryNoted(pending.vals, story, nextSequence, k, spent, RxNote);
      SequentialPut(pending.vals, k, spent);
      var ok := Record(k, q, note);
      assert ok;
      EndingCloses(pol, View(), k);
    }

    /** Once the lease has ended every exchange is cancelled locally. */
    method CheckLease(now: nat) returns (r: Result<()>)
      requires Sound()
      modifies this
      ensures now < leaseEnd ==> r == Ok(()) && unchanged(this)
      ensures now >= leaseEnd ==> r == Err(StaleSession) && Valid() && pending.vals == map[]
      ensures leaseEnd == old(leaseEnd) && nextSequence == old(nextSequence) && Continues()
      ensures provider == old(provider) && nextHeartbeat == old(nextHeartbeat)
      ensures now >= leaseEnd ==> forall x :: x in old(pending).vals ==> x in story && story[x].end == Some(FailedNote)
    {
      hide StoryGrows, Sound, Valid;
      StoryKept(story);
      if now < leaseEnd {
        return Ok(());
      }
      FinishAll(FailedNote, Some(now), Some(StaleSession));
      return Err(StaleSession);
    }

    method FinishAll(kind: Kind, at: Option<nat>, error: Option<Code>)
      requires Sound() && kind.Terminal()
      modifies this
      ensures Valid() && Continues() && leaseEnd == old(leaseEnd) && pending.vals == map[] && closed == old(closed)
      ensures nextSequence == old(nextSequence) && provider == old(provider) && nextHeartbeat == old(nextHeartbeat)
      ensures forall x :: x in old(pending).vals ==> x in story && story[x].end == Some(kind)
    {
      hide Valid, Sound, Ready, StoryGrows, OrderedDict.Valid, OrderedDict.Delete;
      StoryKept(story);
      PendingListed();
      var keys := pending.keys;
      for i := 0 to |keys|
        invariant Sound() && leaseEnd == old(leaseEnd) && nextSequence == old(nextSequence) && closed == old(closed)
        invariant provider == old(provider) && nextHeartbeat == old(nextHeartbeat)
        invariant old(notes) <= notes && StoryGrows(old(story), story)
        invariant forall k :: k in pending.vals ==> k in keys[i..]
        invariant forall k :: k in old(pending).vals ==> k in pending.vals || (k in story && story[k].end == Some(kind))
      {
        var k := keys[i];
        assert keys[i..] == [k] + keys[i + 1..];
        if k in pending.vals {
          ghost var mid := story;
          Finish(k, kind, at, error);
          StoryGrowsOn(old(story), mid, story);
        }
      }
      assert keys[|keys|..] == [];
      assert pending.vals == map[];
      SoundEmpty();
    }

    lemma PendingListed()
      requires Sound()
      ensures pending.Valid() && forall k :: k in pending.vals ==> k in pending.keys
    {
      hide Owed, Total, StoryInv, Sequential;
    }

    /** Cancels one exchange locally. */
    method Cancel(k: nat) returns (r: Result<()>)
      requires Valid()
      modifies this
      ensures Valid() && Continues()
      ensures k !in old(pending).vals ==> r == Err(State) && View() == old(View())
      ensures k in old(pending).vals ==>
        r == Ok(()) && pending == old(pending).Delete(k) && k in story && story[k].end == Some(CancelNote)
    {
      hide BoardInv, StoryInv, Sequential, Closing, Ending, Policy.Valid, StoryGrows, OrderedDict.Delete;
      StoryKept(story);
      if k !in pending.vals {
        return Err(State);
      }
      var clock := Reading();
      ReadyAny(k);
      Finish(k, CancelNote, if clock.Ok? then Some(clock.value) else None, Some(if clock.Ok? then State else Schema));
      return Ok(());
    }

    method Close()
      requires Valid()
      modifies this
      ensures Valid() && closed && pending.vals == map[]
      ensures old(notes) <= notes && StoryGrows(old(story), story)
    {
      hide BoardInv, StoryInv, Sequential, Closing, Policy.Valid, StoryGrows;
      StoryKept(story);
      if closed {
        return;
      }
      SoundAny();
      var clock := Reading();
      FinishAll(CancelNote, if clock.Ok? then Some(clock.value) else None, Some(if clock.Ok? then State else Schema));
      provider := false;
      closed := true;
    }

    /** Hands over every record and frees what they used. */
    method DrainRecords() returns (out: seq<Note>)
      requires Valid()
      modifies this`notes, this`usedCount, this`usedBytes
      ensures Valid() && out == old(notes) && notes == [] && usedCount == 0 && usedBytes == 0
    {
      hide PendingInv, StoryInv, Sequential, Policy.Valid, Total;
      out := notes;
      notes, usedCount, usedBytes := [], 0, 0;
    }

    /** Reserves an exchange's whole record, then enters it; on refusal nothing is reserved. */
    method Submit(id: nat, payload: nat, raw: seq<byte>, final: bool, topic: nat, targetStep: nat, transaction: nat,
                  due: Option<nat>)
        returns (r: Result<Header>)
      requires Valid() && !closed && |raw| > 0
      modifies this
      ensures Valid() && Continues() && leaseEnd == old(leaseEnd)
      ensures provider == old(provider) && nextHeartbeat == old(nextHeartbeat)
      ensures r.Err? ==> View() == old(View()) && story == old(story)
      ensures r.Ok? ==>
        && r.value.sequence == old(nextSequence) && r.value.sequence !in old(story)
        && pending.vals.Keys == old(pending).vals.Keys + {r.value.sequence}
        && |notes| == |old(notes)| + 1 && notes[|old(notes)|].kind == SubmittedNote
      ensures r.Ok? ==> id in pol.contract.entries
      ensures r.Ok? ==>
        Fresh(pol, pending.vals[r.value.sequence], r.value, id, final, topic, raw, due)
        && r.value.targetStep == targetStep && r.value.transactionId == transaction
      ensures r.Ok? ==> forall k :: k in old(pending).vals ==> !Ambiguous(old(pending).vals[k], id, topic, transaction)
    {
      hide Ambiguous, BoardInv, Balanced, StoryInv, Sequential, Policy.Valid, StoryGrows, Encoded, PendingInv, RestTx, Noted, Told,
        Covered, OrderedDict.Put,
        ReserveBytes, ReserveCount, Valid, Datagrams, RequestLength, DecimalLength, Contract.Valid, SumSizes;
      StoryKept(story);
      var stimulus := Verdict();
      if stimulus.Err? {
        return Err(stimulus.code);
      }
      if id !in pol.contract.entries {
        return Err(Unsupported);
      }
      Parts();
      ContractValid(pol);
      var validFor := pol.contract.entries[id].validForMs;
      var preview := PreviewHeader(pol, validFor);
      var sized := Encoded(pol.contract, id, preview, raw, Udp);
      if sized.Err? {
        return Err(sized.code);
      }
      var fragments := Datagrams(sized.value);
      var attempts := if id in pol.periodic then 1 else 4;
      var count := ReserveCount(|fragments|, attempts);
      var size := ReserveBytes(pol, |fragments|, attempts, RequestLength(id, preview, payload), SumSizes(fragments));
      if pending.Size() >= pol.capacity || usedCount + reservedCount + count > pol.maxRecords
         || usedBytes + reservedBytes + size > pol.maxBytes {
        return Err(BufferFull);
      }
      if exists k :: k in pending.vals && Ambiguous(pending.vals[k], id, topic, transaction) {
        return Err(State);
      }
      if nextSequence > pol.maxCounter || targetStep > pol.maxCounter || transaction > pol.maxCounter {
        return Err(Capacity);
      }
      var session := Reading(); // the granted session, or why the header is refused
      if session.Err? || session.value > pol.maxCounter {
        return Err(if session.Err? then session.code else Capacity);
      }
      var header := Header(session.value, nextSequence, targetStep, transaction, validFor);
      var frames := Encoded(pol.contract, id, header, raw, Udp);
      var clock := Reading();
      var prepared := Verdict();
      if frames.Err? || clock.Err? || prepared.Err? {
        SpendSequence();
        return Err(if frames.Err? then frames.code else if clock.Err? then clock.code else prepared.code);
      }
      var packets := Datagrams(frames.value);
      Sizing(pol, id, header, raw, payload, attempts);
      var p := Pending(header, id, final, topic, packets, clock.value, attempts, count, size, due, 0, 0, None, None, None, false, 0,
                       false, false);
      Enter(p, RequestLength(id, header, payload), RequestLength(id, preview, payload));
      return Ok(header);
    }

    /** A header was committed but its exchange never began. */
    method SpendSequence()
      requires Valid() && !closed
      modifies this`nextSequence
      ensures Valid() && nextSequence == old(nextSequence) + 1 && View() == old(View())
    {
      hide BoardInv, Policy.Valid, Sequential, StoryOf;
      nextSequence := nextSequence + 1;
    }

    /** Puts a sized exchange on the books and records its submission. */
    method Enter(p: Pending, request: nat, preview: nat)
      requires Valid() && !closed && p.header.sequence == nextSequence && 0 < |p.packets|
      requires p.attempt == 0 && p.index == 0 && p.feedback == 0 && p.maxAttempts > 0
      requires p.deadline.None? && p.started.None? && !p.sentOnce
      requires p.reservedCount == ReserveCount(|p.packets|, p.maxAttempts)
      requires p.reservedBytes == ReserveBytes(pol, |p.packets|, p.maxAttempts, preview, SumSizes(p.packets))
      requires request <= preview && |pending.keys| < pol.capacity
      requires usedCount + reservedCount + p.reservedCount <= pol.maxRecords
      requires usedBytes + reservedBytes + p.reservedBytes <= pol.maxBytes
      modifies this
      ensures Valid() && Continues() && leaseEnd == old(leaseEnd) && nextSequence == old(nextSequence) + 1
      ensures provider == old(provider) && nextHeartbeat == old(nextHeartbeat)
      ensures p.header.sequence !in old(story) && pending.vals.Keys == old(pending).vals.Keys + {p.header.sequence}
      ensures Course(pending.vals[p.header.sequence]) == Course(p)
      ensures |notes| == |old(notes)| + 1 && notes[|old(notes)|].kind == SubmittedNote
    {
      hide BoardInv, Balanced, StoryInv, Policy.Valid, StoryGrows, PendingInv, RestTx, Noted, Told, Covered, OrderedDict.Put,
        ReserveBytes, ReserveCount, OrderedDict.Valid, Sequential;
      var k := nextSequence;
      ghost var before := View();
      var note := Note(SubmittedNote, p.header, Some(p.submitted), 0, None, request, 0, [], None);
      EnteredInv(pol, before, story, k, k, p);
      EnteredParts(before, k, p);
      PutVals(pending, k, p);
      SubmissionCovered(pol, p, preview, request, note.Size());
      SubmittedBoard(pol, before, k, p, note);
      ghost var spent := p.(reservedCount := p.reservedCount - 1, reservedBytes := p.reservedBytes - note.Size());
      StorySubmitted(pending.vals, story, k, spent);
      StoryBefore(pending.vals, story, k);
      SequentialEntered(pending.vals, k, spent);
      nextSequence := nextSequence + 1;
      pending := pending.Put(k, p);
      reservedCount := reservedCount + p.reservedCount;
      reservedBytes := reservedBytes + p.reservedBytes;
      NotedParts(View(), k, p, note);
      assert View() == Entered(before, k, p);
      var ok := Record(k, p, note);
      assert ok;
      assert pending.vals == before.pending.vals[k := spent];
      assert BoardInv(pol, View());
      assert StoryInv(pending.vals, story, nextSequence);
    }

    // -------------------------------------------------------------- replies

    /** One reply to exchange k, whose turn the clock and the session's check decide. */
    method TakeReply(k: nat, reply: Reply, before: nat, clock: Result<nat>, check: Result<()>) returns (r: Result<nat>)
      requires Valid() && !closed && k in pending.vals && pending.vals[k].started.Some?
      modifies this
      ensures Valid() && Continues() && nextSequence == old(nextSequence)
      ensures provider == old(provider) && nextHeartbeat == old(nextHeartbeat)
      ensures pending.vals.Keys <= old(pending).vals.Keys && k in story
      ensures r.Ok? ==> pending.vals - {k} == old(pending).vals - {k}
      ensures var p := old(pending).vals[k];
        var ok := clock.Ok? && check.Ok? && Accepted(pol, p, old(leaseEnd), reply, clock.value);
        && (k in pending.vals <==> ok && !reply.Terminal() && p.feedback + 1 < MAX_FEEDBACK)
        && (story[k].end == Some(CompleteNote) <==> ok && reply.Terminal() && reply.error.None?)
        && (story[k].end == Some(TimeoutNote) <==>
              clock.Ok? && check.Ok? && reply.length <= pol.maxReply && ReplyDeadline(pol, p) <= clock.value < old(leaseEnd))
        && leaseEnd == (if ok && reply.messageId == 131 then Max(old(leaseEnd), p.started.value + pol.leaseNs) else old(leaseEnd))
        && (r.Err? <==> reply.length <= pol.maxReply && (clock.Err? || check.Err? || clock.value >= old(leaseEnd)))
    {
      hide BoardInv, StoryInv, StoryOf, Sequential, Closing, Ending, Policy.Valid, StoryGrows, OrderedDict.Delete, PendingInv;
      var p := pending.vals[k];
      ReadyAny(k);
      if reply.length > pol.maxReply {
        Finish(k, FailedNote, Some(before), Some(Capacity));
        return Ok(before);
      }
      if clock.Err? || check.Err? {
        var code := if clock.Err? then clock.code else check.code;
        var at := if code == Schema then None else Some(if clock.Ok? then clock.value else before);
        NoteReply(k, at, reply.length, Some(code));
        ghost var mid := story;
        Finish(k, FailedNote, at, Some(code));
        StoryGrowsOn(old(story), mid, story);
        return Err(code);
      }
      var now := clock.value;
      if now >= leaseEnd {
        NoteReply(k, Some(now), reply.length, Some(StaleSession));
        ghost var mid := story;
        var live := CheckLease(now);
        StoryGrowsOn(old(story), mid, story);
        return Err(StaleSession);
      }
      if now >= ReplyDeadline(pol, p) {
        NoteReply(k, Some(now), reply.length, Some(Timeout));
        ghost var mid := story;
        Finish(k, TimeoutNote, Some(now), Some(Timeout));
        StoryGrowsOn(old(story), mid, story);
        return Ok(now);
      }
      NoteReply(k, Some(now), reply.length, reply.error);
      ghost var mid := story;
      ghost var others := pending.vals - {k};
      if reply.messageId == 131 {
        Extend(Max(leaseEnd, p.started.value + pol.leaseNs), k);
      }
      if reply.Terminal() {
        Finish(k, if reply.error.None? then CompleteNote else FailedNote, Some(now), reply.error);
      } else if pending.vals[k].feedback == MAX_FEEDBACK {
        Finish(k, FailedNote, Some(now), Some(BufferFull));
      }
      assert pending.vals - {k} == others;
      KeysKept(old(pending).vals, pending.vals, k);
      StoryGrowsOn(old(story), mid, story);
      if k in pending.vals {
        StoryOpen(pending.vals, story, nextSequence, k);
      }
      return Ok(now);
    }

    /** Up to 64 replies, each for an exchange whose whole request has been sent. */
    method Receive(started: nat) returns (r: Result<()>)
      requires Valid() && !closed
      modifies this
      ensures Valid() && Continues() && leaseEnd >= old(leaseEnd) && nextSequence == old(nextSequence)
      ensures provider == old(provider) && nextHeartbeat == old(nextHeartbeat)
      ensures pending.vals.Keys <= old(pending).vals.Keys
      ensures r.Ok? ==> Unsent(old(pending).vals, pending.vals)
    {
      hide Valid, StoryGrows, Accepted;
      StoryKept(story);
      var now := started;
      for i := 0 to 64
        invariant Valid() && !closed && leaseEnd >= old(leaseEnd) && nextSequence == old(nextSequence)
        invariant old(notes) <= notes && StoryGrows(old(story), story)
        invariant provider == old(provider) && nextHeartbeat == old(nextHeartbeat)
        invariant pending.vals.Keys <= old(pending).vals.Keys && Unsent(old(pending).vals, pending.vals)
      {
        if !exists k :: k in pending.vals && pending.vals[k].sentOnce {
          return Ok(());
        }
        var k :| k in pending.vals && pending.vals[k].sentOnce;
        var reply := Fetch();
        if reply.Err? {
          return if reply.code == Timeout then Ok(()) else Err(reply.code);
        }
        var clock := Reading();
        var check := Verdict();
        Begun(k);
        ghost var mid, was := story, pending.vals;
        var taken := TakeReply(k, reply.value, now, clock, check);
        StoryGrowsOn(old(story), mid, story);
        if taken.Err? {
          return Err(taken.code);
        }
        UnsentOn(old(pending).vals, was, pending.vals, k);
        now := taken.value;
      }
      return Ok(());
    }

    lemma Begun(k: nat)
      requires Valid() && k in pending.vals && pending.vals[k].sentOnce
      ensures pending.vals[k].started.Some?
    {
      BoardParts(pol, View());
      PendingCovered(pol, k, pending.vals[k]);
      hide *;
    }

    // -------------------------------------------------------------- transmissions

    /** Decides exchange k's turn: it may send, must wait, or has timed out. */
    method Await(k: nat, now: nat, perf: nat) returns (go: bool)
      requires Valid() && !closed && k in pending.vals
      modifies this
      ensures Valid() && Continues() && leaseEnd == old(leaseEnd) && nextSequence == old(nextSequence)
      ensures provider == old(provider) && nextHeartbeat == old(nextHeartbeat)
      ensures pending.vals - {k} == old(pending).vals - {k}
      ensures go <==> MaySend(pol, old(pending).vals, k, now, perf)
      ensures go ==> InTurn(pending.vals, k) && pending.vals[k].deadline.None? && notes == old(notes)
      ensures go ==> pending.vals[k].index < |pending.vals[k].packets|
      ensures go ==>
        pending.vals[k] == (if old(pending).vals[k].deadline.Some? then Restarted(old(pending).vals[k]) else old(pending).vals[k])
      ensures k !in pending.vals <==> TimesOut(pol, old(pending).vals, k, now, perf)
      ensures k !in pending.vals ==> k in story && story[k].end == Some(TimeoutNote)
      ensures if k in pending.vals then notes == old(notes)
              else |notes| == |old(notes)| + 1 && old(notes) <= notes && notes[|old(notes)|].kind == TimeoutNote
    {
      hide BoardInv, StoryInv, StoryOf, Sequential, Closing, Ending, Policy.Valid, StoryGrows, OrderedDict.Delete, OrderedDict.Put,
        PendingInv,
        Restarted;
      var p := pending.vals[k];
      StoryKept(story);
      ReadyAny(k);
      InBooks(k);
      RestartedParts(p);
      if !p.sentOnce && exists q :: q in pending.vals && q < k && !pending.vals[q].sentOnce {
        return false;
      }
      if p.final && now >= p.submitted + pol.commitTimeoutNs {
        Finish(k, TimeoutNote, Some(now), Some(Timeout));
        return false;
      }
      if p.deadline.Some? {
        if now < p.deadline.value {
          return false;
        }
        if p.attempt >= p.maxAttempts {
          if p.final {
            return false;
          }
          Finish(k, TimeoutNote, Some(now), Some(Timeout));
          return false;
        }
        RestartedInv(pol, k, p);
        Rewrite(k, Restarted(p));
        ReadyAny(k);
      }
      if p.started.Some? && now >= Validity(p) {
        Finish(k, TimeoutNote, Some(now), Some(Timeout));
        return false;
      }
      if pending.vals[k].firstPerf.Some? && perf - pending.vals[k].firstPerf.value >= pol.groupNs {
        Finish(k, TimeoutNote, Some(now), Some(Timeout));
        return false;
      }
      InBooks(k);
      return true;
    }

    /** Offers the next fragment of exchange k to the transport and records it if it went out. */
    method SendOne(k: nat, now: nat, a: Answers) returns (r: Result<bool>)
      requires Valid() && !closed && now < leaseEnd && k in pending.vals && InTurn(pending.vals, k)
      requires pending.vals[k].deadline.None? && pending.vals[k].index < |pending.vals[k].packets|
      modifies this
      ensures Valid() && Continues() && leaseEnd == old(leaseEnd) && nextSequence == old(nextSequence)
      ensures nextHeartbeat == old(nextHeartbeat) && (r.Ok? ==> provider == old(provider))
      ensures r.Ok? ==> pending.vals - {k} == old(pending).vals - {k}
      ensures pending.vals.Keys <= old(pending).vals.Keys
      ensures Offered(pol, old(pending).vals[k], k, pending.vals, old(notes), notes, now, a, r)
    {
      hide BoardInv, StoryInv, StoryOf, Sequential, Closing, Ending, Policy.Valid, StoryGrows, OrderedDict.Delete, OrderedDict.Put,
        PendingInv,
        InTurn, Advanced, RestTx;
      var p := pending.vals[k];
      StoryKept(story);
      ReadyAny(k);
      InBooks(k);
      if a.permit.Err? || a.sent.Err? {
        Finish(k, FailedNote, Some(now), Some(if a.permit.Err? then a.permit.code else a.sent.code));
        KeysKept(old(pending).vals, pending.vals, k);
        return Ok(false);
      }
      var q := p.(heartbeatClaimed := p.heartbeatClaimed || p.id == 2, firstClaimed := true);
      FlaggedInv(pol, k, p, q.heartbeatClaimed, q.firstClaimed, p.heartbeatDue);
      InTurnSame(pending.vals, k, q);
      Rewrite(k, q);
      KeysKept(old(pending).vals, pending.vals, k);
      if !a.sent.value {
        return Ok(false);
      }
      ghost var mid := pending.vals;
      NoteSent(k, now, a.perf, if a.after.Ok? then Some(a.after.value) else None,
               if a.after.Err? then Some(a.after.code) else if a.after.value >= leaseEnd then Some(StaleSession) else None);
      KeysKept(mid, pending.vals, k);
      AdvancedFlags(p, q.heartbeatClaimed, now, a.perf, pol.ackTimeoutNs);
      ghost var told, rest := story, pending.vals;
      var settled := AfterSent(k, a.after);
      StoryGrowsOn(old(story), told, story);
      return if settled.Err? then Err(settled.code) else Ok(true);
    }

    /** Reads the clock again after a fragment went out: the lease may have ended, or a heartbeat may be late. */
    method AfterSent(k: nat, after: Result<nat>) returns (r: Result<()>)
      requires Valid() && !closed && k in pending.vals
      modifies this
      ensures Valid() && Continues() && leaseEnd == old(leaseEnd) && nextSequence == old(nextSequence)
      ensures nextHeartbeat == old(nextHeartbeat) && pending.vals.Keys <= old(pending).vals.Keys
      ensures r.Ok? <==> after.Ok? && after.value < leaseEnd && !HeartbeatLate(pol, old(pending).vals[k], after.value)
      ensures r.Ok? ==> unchanged(this)
      ensures r.Err? ==> k !in pending.vals
    {
      hide BoardInv, StoryInv, Sequential, Closing, Ending, Policy.Valid, StoryGrows, OrderedDict.Delete, HeartbeatLate;
      StoryKept(story);
      ReadyAny(k);
      if after.Err? {
        Finish(k, FailedNote, None, Some(after.code));
        return Err(after.code);
      }
      var live := CheckLease(after.value);
      if live.Err? {
        return Err(live.code);
      }
      if HeartbeatLate(pol, pending.vals[k], after.value) {
        EndLate(k, after.value);
        return Err(Timeout);
      }
      return Ok(());
    }

    /** One exchange's turn. */
    method Turn(k: nat, a: Answers) returns (r: Result<bool>)
      requires Valid() && !closed
      modifies this
      ensures Valid() && Continues() && leaseEnd == old(leaseEnd) && nextSequence == old(nextSequence)
      ensures nextHeartbeat == old(nextHeartbeat) && pending.vals.Keys <= old(pending).vals.Keys
      ensures r.Ok? ==> a.clock.Ok? && a.clock.value < leaseEnd && pending.vals - {k} == old(pending).vals - {k}
      ensures r == Ok(true) ==> MaySend(pol, old(pending).vals, k, a.clock.value, a.perf) && a.Sends()
      ensures r.Ok? ==> CountTx(notes) == CountTx(old(notes)) + (if r.value then 1 else 0)
    {
      hide Valid, Sound, View, MaySend, TimesOut, StoryGrows, Advances, InTurn, HeartbeatLate, Restarted, CountTx, OrderedDict.Delete,
        Answers.Sends;
      StoryKept(story);
      if a.clock.Err? {
        return Err(a.clock.code);
      }
      var now := a.clock.value;
      SoundAny();
      var live := CheckLease(now);
      if live.Err? {
        return Err(live.code);
      }
      if k !in pending.vals {
        return Ok(false);
      }
      if HeartbeatLate(pol, pending.vals[k], now) && !pending.vals[k].sentOnce {
        EndLate(k, now);
        return Err(Timeout);
      }
      r := Serve(k, now, a);
    }

    method Serve(k: nat, now: nat, a: Answers) returns (r: Result<bool>)
      requires Valid() && !closed && now < leaseEnd && k in pending.vals
      modifies this
      ensures Valid() && Continues() && leaseEnd == old(leaseEnd) && nextSequence == old(nextSequence)
      ensures nextHeartbeat == old(nextHeartbeat) && pending.vals.Keys <= old(pending).vals.Keys
      ensures r.Ok? ==> pending.vals - {k} == old(pending).vals - {k}
      ensures r == Ok(true) ==> MaySend(pol, old(pending).vals, k, now, a.perf) && a.Sends()
      ensures r.Ok? ==> CountTx(notes) == CountTx(old(notes)) + (if r.value then 1 else 0)
    {
      hide Valid, Sound, MaySend, TimesOut, StoryGrows, Advances, InTurn, Restarted, CountTx;
      ghost var before := notes;
      var go := Await(k, now, a.perf);
      KeysKept(old(pending).vals, pending.vals, k);
      if !go {
        if k !in pending.vals {
          CountTxOne(before, notes);
        }
        return Ok(false);
      }
      ghost var waited := story;
      r := SendOne(k, now, a);
      StoryGrowsOn(old(story), waited, story);
      if r.Ok? && (r.value || k !in pending.vals) {
        CountTxOne(before, notes);
      }
    }

    /** Up to 64 fragments, exchange by exchange in the order of their sequence numbers. */
    method Transmit() returns (r: Result<nat>)
      requires Valid() && !closed
      modifies this
      ensures Valid() && Continues() && leaseEnd == old(leaseEnd) && nextSequence == old(nextSequence)
      ensures nextHeartbeat == old(nextHeartbeat) && pending.vals.Keys <= old(pending).vals.Keys
      ensures r.Ok? ==> r.value <= 64 && CountTx(notes) == CountTx(old(notes)) + r.value
    {
      hide Valid, StoryGrows, MaySend, CountTx, Ascending;
      StoryKept(story);
      var work := 0;
      for round := 0 to 64
        invariant Valid() && !closed && leaseEnd == old(leaseEnd) && nextSequence == old(nextSequence)
        invariant nextHeartbeat == old(nextHeartbeat) && pending.vals.Keys <= old(pending).vals.Keys
        invariant old(notes) <= notes && StoryGrows(old(story), story)
        invariant work < 64 && CountTx(notes) == CountTx(old(notes)) + work
      {
        var progressed := false;
        var ordered := Sort(pending.vals.Keys);
        for j := 0 to |ordered|
          invariant Valid() && !closed && leaseEnd == old(leaseEnd) && nextSequence == old(nextSequence)
          invariant nextHeartbeat == old(nextHeartbeat) && pending.vals.Keys <= old(pending).vals.Keys
          invariant old(notes) <= notes && StoryGrows(old(story), story)
          invariant work < 64 && CountTx(notes) == CountTx(old(notes)) + work
        {
          var answers := Ask();
          ghost var told := story;
          var sent := Turn(ordered[j], answers);
          StoryGrowsOn(old(story), told, story);
          if sent.Err? {
            return Err(sent.code);
          }
          if sent.value {
            work := work + 1;
            progressed := true;
            if work >= 64 {
              return Ok(work);
            }
          }
        }
        if !progressed {
          break;
        }
      }
      return Ok(work);
    }

    // -------------------------------------------------------------- the heartbeat and the poll

    /** A schedule is set but no heartbeat has a due time. */
    predicate Undated()
      reads this`provider, this`nextHeartbeat
    {
      provider && nextHeartbeat.None?
    }

    /** Enables the schedule; the provider is stored before the clock is read. */
    method EnableHeartbeat(supported: bool, clock: Result<nat>) returns (r: Result<()>)
      requires Valid() && !closed
      modifies this`provider, this`nextHeartbeat
      ensures Valid() && (r.Ok? <==> supported && !old(provider) && clock.Ok?)
      ensures provider <==> old(provider) || supported
      ensures nextHeartbeat == if r.Ok? then Some(clock.value) else old(nextHeartbeat)
      ensures Undated() <==> old(nextHeartbeat).None? && (old(provider) || (supported && clock.Err?))
      ensures old(provider) ==> r.Err?
    {
      hide BoardInv, StoryInv, Sequential, Policy.Valid;
      if !supported {
        return Err(TargetMissing);
      }
      if provider {
        return Err(State);
      }
      provider := true;
      if clock.Err? {
        return Err(clock.code);
      }
      nextHeartbeat := Some(clock.value);
      return Ok(());
    }

    /** Submits the heartbeat that is due; a late one ends the schedule and is never caught up. */
    method Heartbeat(now: nat, steps: Result<nat>, payload: nat, raw: seq<byte>, transaction: nat) returns (r: Call<()>)
      requires Valid() && !closed && |raw| > 0
      modifies this
      ensures Valid() && Continues() && leaseEnd == old(leaseEnd)
      ensures r.Breaks? <==> old(Undated())
      ensures !old(provider) ==> r.Returns?
      ensures !r.Returns? ==> View() == old(View())
      ensures nextHeartbeat.Some? <==> old(nextHeartbeat).Some?
      ensures old(Undated()) || !old(provider) ==> unchanged(this)
      ensures old(provider) && old(nextHeartbeat).Some? ==>
        var due := old(nextHeartbeat).value;
        && (now < due ==> r.Returns? && unchanged(this))
        && (now > due + pol.jitterNs ==> r.Raises? && !provider)
        && nextHeartbeat.value == (if r.Returns? && now >= due then due + pol.heartbeatPeriodNs else due)
        && (r.Returns? && now >= due ==> pending.vals.Keys == old(pending).vals.Keys + {old(nextSequence)})
    {
      hide BoardInv, StoryInv, Sequential, Policy.Valid, StoryGrows;
      StoryKept(story);
      if !provider {
        return Returns(());
      }
      if nextHeartbeat.None? {
        return Breaks; // no time to compare with
      }
      var due := nextHeartbeat.value;
      if now < due {
        return Returns(());
      }
      if now - due > pol.jitterNs {
        Disable();
        return Raises(Timeout);
      }
      if steps.Err? {
        return Raises(Schema);
      }
      var header := Submit(2, payload, raw, false, 0, steps.value, transaction, Some(due));
      if header.Err? {
        return Raises(header.code);
      }
      nextHeartbeat := Some(due + pol.heartbeatPeriodNs);
      return Returns(());
    }

    /**
     * One cooperative step: lease, replies, heartbeat, transmissions. A schedule without a due time stays so, and no
     * step completes again.
     */
    method Poll(payload: nat, raw: seq<byte>, transaction: nat) returns (r: Call<nat>)
      requires Valid() && !closed && |raw| > 0
      modifies this
      ensures Valid() && Continues() && leaseEnd >= old(leaseEnd)
      ensures r.Returns? ==> r.value <= 64
      ensures pending.vals.Keys <= old(pending).vals.Keys + {old(nextSequence)}
      ensures r.Breaks? ==> old(Undated())
      ensures old(Undated()) ==> Undated() && !r.Returns?
    {
      hide Valid, Sound, StoryGrows, CountTx;
      StoryKept(story);
      var clock := Reading();
      if clock.Err? {
        return Raises(clock.code);
      }
      SoundAny();
      var live := CheckLease(clock.value);
      if live.Err? {
        return Raises(live.code);
      }
      var received := Receive(clock.value);
      if received.Err? {
        return Raises(received.code);
      }
      var again := Reading();
      if again.Err? {
        return Raises(again.code);
      }
      var steps := Reading();
      ghost var told := story;
      var beat := Heartbeat(again.value, steps, payload, raw, transaction);
      StoryGrowsOn(old(story), told, story);
      if !beat.Returns? {
        return if beat.Raises? then Raises(beat.code) else Breaks;
      }
      ghost var beaten := story;
      var sent := Transmit();
      StoryGrowsOn(old(story), beaten, story);
      return if sent.Ok? then Returns(sent.value) else Raises(sent.code);
    }

    /** A heartbeat missed its time: it ends and so does the schedule. */
    method EndLate(k: nat, now: nat)
      requires Valid() && !closed && k in pending.vals
      modifies this
      ensures Valid() && Continues() && leaseEnd == old(leaseEnd) && nextSequence == old(nextSequence)
      ensures nextHeartbeat == old(nextHeartbeat) && pending.vals.Keys <= old(pending).vals.Keys
      ensures !provider && k !in pending.vals && k in story && story[k].end == Some(TimeoutNote)
    {
      hide BoardInv, StoryInv, Sequential, Closing, Ending, Policy.Valid, StoryGrows, OrderedDict.Delete;
      ReadyAny(k);
      Finish(k, TimeoutNote, Some(now), Some(Timeout));
      Disable();
    }

    /** The heartbeat schedule ends; nothing on the books changes. */
    method Disable()
      requires Valid()
      modifies this`provider
      ensures Valid() && !provider && View() == old(View())
    {
      hide BoardInv, StoryInv, Sequential, Policy.Valid;
      provider := false;
    }

    lemma InBooks(k: nat)
      requires Valid() && k in pending.vals
      ensures PendingInv(pol, k, pending.vals[k]) && pending.vals[k].header.sequence == k
      ensures pending.vals[k].index <= |pending.vals[k].packets|
      ensures pending.vals[k].deadline.Some? <==> pending.vals[k].index == |pending.vals[k].packets|
      ensures pending.vals[k].deadline.Some? ==> pending.vals[k].started.Some?
    {
      BoardParts(pol, View());
      PendingCovered(pol, k, pending.vals[k]);
      hide *;
    }

    /** The session's lease moves; nothing on the books does. */
    method Extend(end: nat, k: nat)
      requires Ready(k)
      modifies this`leaseEnd
      ensures Ready(k) && leaseEnd == end && (old(Valid()) ==> Valid())
    {
      hide BoardInv, StoryInv, Sequential, Closing, Ending, Policy.Valid;
      leaseEnd := end;
    }
  }

  /** What the session, the transport and the clocks answer while one exchange has its turn. */
  datatype Answers = Answers(clock: Result<nat>, perf: nat, permit: Result<()>, sent: Result<bool>, after: Result<nat>)
  {
    predicate Sends() { permit.Ok? && sent == Ok(true) }
  }

  /** What one transmission attempt for exchange k, then `p`, did to the books. */
  ghost predicate Offered(pol: Policy, p: Pending, k: nat, pending: map<nat, Pending>, before: seq<Note>, notes: seq<Note>,
                          now: nat, a: Answers, r: Result<bool>)
    requires p.index < |p.packets|
  {
    && (r == Ok(true) ==>
          && a.Sends() && a.after.Ok? && k in pending && Advances(pol, p, pending[k], now, a.perf)
          && notes == before + [SentNote(p, pending[k].attempt, Some(a.after.value), None)])
    && (r == Ok(false) ==> !a.Sends() && (k in pending <==> a.permit.Ok? && a.sent.Ok?))
    && (r == Ok(false) && k in pending ==> notes == before)
    && (r == Ok(false) && k !in pending ==> |notes| == |before| + 1 && before <= notes && notes[|before|].kind == FailedNote)
    && (a.Sends() ==> |notes| > |before| && notes[|before|].kind == TxNote && notes[|before|].fragment == Some(p.index))
  }

  method Ask() returns (a: Answers)
  {
    a := *;
  }

  method Fetch() returns (r: Result<Reply>)
  {
    r := *;
  }

  /** Typed replies could not tell two such exchanges apart. */
  predicate Ambiguous(other: Pending, id: nat, topic: nat, transaction: nat)
  {
    && other.header.transactionId == transaction && other.id == id
    && (id == 2 || ((id == 33 || id == 34) && other.topic == topic))
  }

  /** The exchanges not yet sent in full are exactly as they were. */
  ghost predicate Unsent(before: map<nat, Pending>, after: map<nat, Pending>)
  {
    forall k :: k in before && !before[k].sentOnce ==> k in after && after[k] == before[k]
  }

  lemma KeysKept(before: map<nat, Pending>, after: map<nat, Pending>, k: nat)
    requires after - {k} == before - {k} && k in before
    ensures after.Keys <= before.Keys
  {
    forall x | x in after ensures x in before {
      if x != k {
        assert x in after - {k};
        assert x in before - {k};
      }
    }
  }

  lemma UnsentOn(first: map<nat, Pending>, before: map<nat, Pending>, after: map<nat, Pending>, k: nat)
    requires Unsent(first, before) && after - {k} == before - {k} && k in before && before[k].sentOnce
    ensures Unsent(first, after)
  {
    forall x | x in first && !first[x].sentOnce ensures x in after && after[x] == first[x] {
      assert x in before - {k};
      assert (after - {k})[x] == (before - {k})[x];
    }
  }

  /** A submitted request: not yet attempted, four attempts unless it is periodic, its datagrams those of its encoding. */
  ghost predicate Fresh(pol: Policy, p: Pending, h: Header, id: nat, final: bool, topic: nat, raw: seq<byte>, due: Option<nat>)
    requires pol.Valid() && id in pol.contract.entries
  {
    && p.header == h && p.id == id && p.final == final && p.topic == topic && p.heartbeatDue == due
    && h.validForMs == pol.contract.entries[id].validForMs
    && p.attempt == 0 && p.maxAttempts == (if id in pol.periodic then 1 else 4) && !p.sentOnce && p.deadline.None?
    && var frames := Encoded(pol.contract, id, h, raw, Udp); frames.Ok? && p.packets == Datagrams(frames.value)
  }

  lemma ContractValid(pol: Policy)
    requires pol.Valid()
    ensures pol.contract.Valid()
  {
  }

  lemma SomeFrames(c: Contract, id: nat, h: Header, raw: seq<byte>)
    requires c.Valid() && |raw| > 0 && Encoded(c, id, h, raw, Udp).Ok?
    ensures |Datagrams(Encoded(c, id, h, raw, Udp).value)| > 0
  {
    ChunksShape(raw, ChunkBytes(Udp));
    hide Chunks, FrameOf, Contract.CheckHeader;
  }

  /** The sizes reserved from the preview are those of the real request. */
  lemma Sizing(pol: Policy, id: nat, h: Header, raw: seq<byte>, payload: nat, attempts: nat)
    requires pol.Valid() && |raw| > 0
    requires Encoded(pol.contract, id, PreviewHeader(pol, h.validForMs), raw, Udp).Ok?
    requires Encoded(pol.contract, id, h, raw, Udp).Ok?
    requires h.sessionId <= pol.maxCounter && h.sequence <= pol.maxCounter
    requires h.targetStep <= pol.maxCounter && h.transactionId <= pol.maxCounter
    ensures var preview := PreviewHeader(pol, h.validForMs);
      var sized := Datagrams(Encoded(pol.contract, id, preview, raw, Udp).value);
      var packets := Datagrams(Encoded(pol.contract, id, h, raw, Udp).value);
      && 0 < |packets| == |sized| && SumSizes(packets) == SumSizes(sized)
      && RequestLength(id, h, payload) <= RequestLength(id, preview, payload)
  {
    hide *;
    ContractValid(pol);
    SameSizes(pol.contract, id, PreviewHeader(pol, h.validForMs), h, raw);
    SomeFrames(pol.contract, id, h, raw);
    PreviewLongest(pol, id, h, payload);
  }

  lemma DeletedVals(pending: OrderedDict<nat, Pending>, k: nat)
    ensures pending.Delete(k).vals == pending.vals - {k}
  {
  }
}
