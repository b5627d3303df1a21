/** One received packet from its bytes to its feedback, and whole runs of everything the gateway does. */
module Gateway {
  import opened Common
  import opened Catalogue
  import opened Messages
  import opened Ordered
  import opened Registry
  import opened SessionRegistry
  import opened Queue
  import opened ModelQueue
  import opened Receiver
  import opened Lifecycle
  import X = Wire
  import G = Guards
  import R = Reassembly
  import A = Reassembler
  import W = ResourceWorker
  import D = WorkDesk
  import T = Storage

  /** Anything that may happen to the gateway. */
  datatype Event =
    | Packet(frame: X.Frame, binding: PeerBinding, now: nat, parse: (X.Fragment, seq<byte>) -> Body, script: Script,
             answer: Service)
    | Maintain(now: nat)
    | Enqueue(m: Message, running: bool, now: nat, source: Option<Source>, lane: Option<Lane>)
    | Open(model: nat, step: nat, running: bool, now: nat)
    | Feed(now: nat)
    | Store(now: nat, disk: T.Disk, failure: Option<Code>)
    | Drain
    | End(sid: nat)
    | Revoke(sid: nat)
    | Retire(origin: nat, now: nat)
    | Act(m: Message, received: Reply, now: nat, script: Script)
    | Submit(m: Message, binding: PeerBinding, now: nat, reply: Option<Reply>)
    | Answer(m: Message, now: nat, answer: Service)
    | Shut

  /** What a service other than lifecycle and storage answers to an admitted request. */
  datatype Service =
    | SessionLayer(replies: seq<Reply>, laterNs: nat)
    | Consumer(owned: bool, serves: bool, pair: seq<Reply>, completedNs: nat)

  /** Whether a packet reached the lifecycle service, and over which scope. */
  datatype Handling = Elsewhere | Acted(request: Message, scope: Scope)

  /** Every pending input belongs to a registered session. */
  predicate NoOrphans(pending: map<Key, Pending>, sessions: set<nat>)
  {
    forall k :: k in pending ==> k.0 in sessions
  }

  /** What an applied action leaves: the queue at the step it was applied at and, but for START, nothing of its model queued. */
  ghost predicate Settled(l: Local, m: Message, scope: Scope, applied: Reply)
  {
    && m.body.LifecycleBody? && applied.body.Ack?
    && scope.model in l.steps && l.steps[scope.model] == applied.body.appliedStep
    && (!m.body.action.Start? ==> forall k :: k in l.pending.vals ==> l.pending.vals[k].model != scope.model)
  }

  function Latest(a: nat, b: nat): nat { if a <= b then b else a }

  predicate Completed(r: Result<seq<Reply>>)
  {
    r.Ok? && |r.value| == 2 && r.value[1].body.Ack? && r.value[1].body.stage.Applied?
  }

  datatype Past = Passed(ledger: Ledger, entered: seq<Key>, left: seq<Key>, trail: D.Trail)

  ghost predicate Extends(before: Past, after: Past)
  {
    && Grows(before.ledger, after.ledger)
    && before.entered <= after.entered && before.left <= after.left
    && before.trail.submitted <= after.trail.submitted && before.trail.answered <= after.trail.answered
  }

  /** A batch refuses inputs for their session or their age only. */
  predicate NeverLate(b: StepBatch)
  {
    forall x :: x in b.rejected ==> x.code == StaleSession || x.code == Expired
  }

  lemma NotLate(b: StepBatch)
    requires forall x :: x in b.rejected ==> x.code == StaleSession || x.code == Expired
    ensures NeverLate(b)
  {
  }

  /** Every key goes at most once through each of the gateway's doors, and in order. */
  ghost predicate OnceEach(p: Past)
  {
    && NoDup(p.ledger.admissions) && NoDup(p.ledger.claims)
    && NoDup(p.entered) && NoDup(p.left) && NoDup(p.trail.submitted) && NoDup(p.trail.answered)
    && (forall k :: k in p.ledger.claims ==> k in p.ledger.admissions)
    && (forall k :: k in p.entered || k in p.trail.submitted ==> k in p.ledger.claims)
    && (forall k :: k in p.left ==> k in p.entered)
    && (forall k :: k in p.trail.answered ==> k in p.trail.submitted)
  }

  lemma LedgerOnce(rc: Config, t: Tables, nextId: nat, ledger: Ledger)
    requires Inv(rc, t, nextId, ledger)
    ensures NoDup(ledger.admissions) && NoDup(ledger.claims) && forall k :: k in ledger.claims ==> k in ledger.admissions
  {
    hide SessionsInv, RecordsInv, NoDup;
  }

  lemma Once(p: Past, pending: OrderedDict<Key, Pending>)
    requires NoDup(p.ledger.admissions) && NoDup(p.ledger.claims)
    requires forall k :: k in p.ledger.claims ==> k in p.ledger.admissions
    requires History(pending, p.entered, p.left)
    requires NoDup(p.trail.submitted) && NoDup(p.trail.answered)
    requires forall k :: k in p.trail.answered ==> k in p.trail.submitted
    requires forall k :: k in p.entered || k in p.trail.submitted ==> k in p.ledger.claims
    ensures OnceEach(p)
  {
    hide NoDup;
  }

  lemma Unfinished(r: Result<seq<Reply>>)
    requires r.Ok? ==> |r.value| == 2 && r.value[1].body.Ack? && r.value[1].body.stage.Failed?
    ensures !Completed(r)
  {
  }

  lemma Grew(before: Past, after: Past)
    requires Grows(before.ledger, after.ledger)
    requires before.entered <= after.entered && before.left <= after.left
    requires before.trail.submitted <= after.trail.submitted && before.trail.answered <= after.trail.answered
    ensures Extends(before, after)
  {
  }

  lemma GrewTwice(a: Past, b: Past, c: Past)
    requires Extends(a, b) && Extends(b, c)
    ensures Extends(a, c)
  {
    W.GrowsTwice(a.ledger, b.ledger, c.ledger);
    hide Grows;
  }

  class Gateway {
    const receiver: Receiver
    const service: ModelLifecycleService
    var zeroSequence: nat

    ghost predicate Valid()
      reads this, service, receiver, receiver.registry, receiver.queue, receiver.assembler, receiver.worker,
        receiver.worker.store, receiver.worker.budget
    {
      service.receiver == receiver && service.Valid()
    }

    constructor (service: ModelLifecycleService)
      requires service.Valid()
      ensures Valid() && this.service == service && receiver == service.receiver
    {
      hide ModelLifecycleService.Valid;
      this.service, receiver, zeroSequence := service, service.receiver, 0;
    }

    lemma ValidIff()
      ensures Valid() <==>
        && service.receiver == receiver && receiver.Valid() && |service.records| <= service.maxRecords
        && service.bytes == EvidenceBytes(receiver.registry.cfg.rules, service.records)
      ensures Valid() <==> service.receiver == receiver && service.Valid()
    {
      hide Receiver.Valid, EvidenceBytes;
    }

    lemma QueuedUnderKey()
      requires Valid()
      ensures forall k :: k in receiver.queue.pending.vals ==> receiver.queue.pending.vals[k].key == k
    {
      receiver.ValidParts();
      hide ModelLifecycleService.Valid;
      receiver.PendingKeys();
    }

    /** A lifecycle request on a queue without orphans: an applied action clears its model, and leaves no orphans. */
    method Operate(m: Message, received: Reply, now: nat, script: Script) returns (r: Result<seq<Reply>>, scope: Scope)
      requires Valid() && NoOrphans(receiver.queue.pending.vals, receiver.registry.sessions.vals.Keys)
      modifies service, receiver, receiver.registry, receiver.queue, receiver.assembler, receiver.worker
      ensures Valid() && NoOrphans(receiver.queue.pending.vals, receiver.registry.sessions.vals.Keys)
      ensures receiver.queue.entered == old(receiver.queue.entered) && old(receiver.queue.left) <= receiver.queue.left
      ensures receiver.worker.trail == old(receiver.worker.trail)
      ensures Grows(old(receiver.registry.ledger), receiver.registry.ledger)
      ensures Completed(r) ==> Settled(service.Locals(), m, scope, r.value[1])
    {
      hide ModelLifecycleService.Valid, TookEffect, G.Decide, Settled, A.Reassembler.Abstract;
      ghost var before := service.Locals();
      QueuedUnderKey();
      r, scope := service.Respond(m, received, now, script);
      ghost var after := service.Locals();
      if after != before {
        var last := service.records[|service.records| - 1];
        Followed(before, after, service.maxAhead, m, scope, script, last.decision);
      }
      if Completed(r) {
        ClearedWhole(before, after, service.maxAhead, m, scope, script, service.records[|service.records| - 1]);
      }
    }

    /** The number of the next feedback: the session's own, or the gateway's for requests that never got a session. */
    method NextNumber(sid: nat) returns (r: Result<nat>)
      requires Valid()
      modifies this`zeroSequence, receiver.registry`sessions
      ensures Valid() && receiver.registry.sessions.vals.Keys == old(receiver.registry.sessions).vals.Keys
    {
      hide *;
      ValidIff();
      if sid == 0 {
        if zeroSequence >= U32_MAX {
          return Err(Capacity);
        }
        zeroSequence := zeroSequence + 1;
        ValidIff();
        return Ok(zeroSequence);
      }
      r := receiver.NextSequence(sid);
      ValidIff();
    }

    /** An acknowledgement of a request, refused when it would not be valid itself. */
    method Acknowledge(id: nat, h: Header, stage: Stage, error: Option<Code>) returns (r: Result<Reply>)
      requires Valid()
      modifies this`zeroSequence, receiver.registry`sessions
      ensures Valid() && receiver.registry.sessions.vals.Keys == old(receiver.registry.sessions).vals.Keys
      ensures r.Ok? ==>
        && r.value.id == ACK && r.value.body.Ack? && r.value.body.stage == stage && r.value.body.error == error
        && r.value.body.requestSequence == h.sequence && r.value.body.requestId == id
        && receiver.registry.cfg.rules.acceptsReply(r.value).Ok?
    {
      hide *;
      var number := NextNumber(h.sessionId);
      if number.Err? {
        return Err(number.code);
      }
      var rules := receiver.registry.cfg.rules;
      var reply := Reply(ACK, HeaderFor(rules, ACK, h.sessionId, h.transactionId, number.value),
                         Ack(h.sequence, id, stage, error, 0, 0, 0));
      var valid := rules.acceptsReply(reply);
      return if valid.Err? then Err(valid.code) else Ok(reply);
    }

    /** Everything the gateway's owners keep of the past; it only ever grows. */
    ghost function Past(): Past
      reads receiver.registry`ledger, receiver.queue`entered, receiver.queue`left, receiver.worker`trail
    {
      Passed(receiver.registry.ledger, receiver.queue.entered, receiver.queue.left, receiver.worker.trail)
    }

    lemma PastParts()
      ensures Past() == Passed(receiver.registry.ledger, receiver.queue.entered, receiver.queue.left, receiver.worker.trail)
    {
    }

    /** A packet up to its message: maintenance, the peer, the frame, the kind of message, and its reassembly. */
    method Arrive(frame: X.Frame, binding: PeerBinding, now: nat) returns (r: Result<(X.Fragment, R.Outcome)>)
      requires Valid()
      modifies receiver, receiver.registry, receiver.queue, receiver.assembler, receiver.worker
      ensures Valid() && Extends(old(Past()), Past())
      ensures r.Ok? ==>
        && receiver.NoneOverdue(now) && NoOrphans(receiver.queue.pending.vals, receiver.registry.sessions.vals.Keys)
        && X.Decode(receiver.registry.cfg.rules.contract, frame, binding.transport, Some(To36)) == Ok(r.value.0)
        && binding in receiver.registry.cfg.links
    {
      hide *;
      ValidIff();
      PastParts();
      ghost var before := Past();
      GrowsSelf(receiver.registry.ledger);
      var ticked := receiver.Tick(now);
      ValidIff();
      PastParts();
      Grew(before, Past());
      if ticked.Err? {
        return Err(ticked.code);
      }
      var registry := receiver.registry;
      if binding !in registry.cfg.links {
        return Err(Authorization);
      }
      var decoded := X.Decode(registry.cfg.rules.contract, frame, binding.transport, Some(To36));
      if decoded.Err? {
        return Err(decoded.code);
      }
      var f := decoded.value;
      OrphanFree();
      var allowed := receiver.Preauthorize(f.messageId, f.header.sessionId, binding, now);
      ValidIff();
      PastParts();
      Grew(before, Past());
      if allowed.Err? {
        return Err(allowed.code);
      }
      var outcome := receiver.Push(f, binding, now, if f.messageId == OPEN then Some(registry.cfg.links[binding]) else None);
      ValidIff();
      OrphanFree();
      return Ok((f, outcome));
    }

    lemma OrphanFree()
      ensures NoOrphans(receiver.queue.pending.vals, receiver.registry.sessions.vals.Keys)
        <==> forall k :: k in receiver.queue.pending.vals ==> k.0 in receiver.registry.sessions.vals
    {
    }

    /** Answers a request that a service refused: its feedback so far and the failure are stored and sent. */
    method Refuse(m: Message, received: Reply, code: Code, now: nat) returns (r: Result<seq<Reply>>)
      requires Valid()
      modifies this`zeroSequence, receiver.registry, receiver.worker`live
      ensures Valid() && Extends(old(Past()), Past())
      ensures r.Ok? ==> |r.value| == 2 && r.value[1].body.Ack? && r.value[1].body.stage.Failed?
    {
      hide *;
      PastParts();
      ghost var before := Past();
      GrowsSelf(receiver.registry.ledger);
      var failed := Acknowledge(m.id, m.header, Failed, Some(code));
      PastParts();
      Grew(before, Past());
      if failed.Err? {
        return Err(failed.code);
      }
      ValidIff();
      ghost var picture := receiver.registry.Picture();
      receiver.registry.PictureParts();
      var stored := receiver.RecordReplies(m, [received, failed.value], now);
      receiver.registry.PictureParts();
      TrimmedParts(picture, receiver.registry.Picture(), now);
      ValidIff();
      PastParts();
      Grew(before, Past());
      return if stored.Err? then Err(stored.code) else Ok([received, failed.value]);
    }

    /** A lifecycle request: received, then carried out once or refused. */
    method ServeLifecycle(m: Message, now: nat, script: Script) returns (r: Result<seq<Reply>>, scope: Scope)
      requires Valid() && NoOrphans(receiver.queue.pending.vals, receiver.registry.sessions.vals.Keys)
      modifies this`zeroSequence, service, receiver, receiver.registry, receiver.queue, receiver.assembler, receiver.worker
      ensures Valid() && Extends(old(Past()), Past())
      ensures Completed(r) ==> Settled(service.Locals(), m, scope, r.value[1])
    {
      hide *;
      PastParts();
      ghost var before := Past();
      GrowsSelf(receiver.registry.ledger);
      scope := Scope([], 0, 0, [], []);
      var received := Acknowledge(LIFECYCLE, m.header, Received, None);
      PastParts();
      Grew(before, Past());
      if received.Err? {
        r := Err(received.code);
        Unfinished(r);
        return;
      }
      r, scope := Operate(m, received.value, now, script);
      PastParts();
      Grew(before, Past());
      if r.Err? {
        ghost var middle := Past();
        r := Refuse(m, received.value, r.code, if service.lastObserved.None? then now else Latest(now, service.lastObserved.value));
        GrewTwice(before, middle, Past());
        Unfinished(r);
      }
    }

    /** A storage request: received, then queued for the storage thread or refused. */
    method ServeChunk(m: Message, binding: PeerBinding, now: nat) returns (r: Result<seq<Reply>>)
      requires Valid()
      modifies this`zeroSequence, receiver.registry, receiver.worker, receiver.worker.budget
      ensures Valid() && Extends(old(Past()), Past())
    {
      hide *;
      PastParts();
      ghost var before := Past();
      GrowsSelf(receiver.registry.ledger);
      var received := Acknowledge(CHUNK, m.header, Received, None);
      PastParts();
      Grew(before, Past());
      if received.Err? {
        return Err(received.code);
      }
      ValidIff();
      ghost var picture := receiver.registry.Picture();
      receiver.registry.PictureParts();
      var submitted := receiver.SubmitChunk(m, binding, now, Some(received.value));
      receiver.registry.PictureParts();
      TrimmedParts(picture, receiver.registry.Picture(), now);
      ValidIff();
      PastParts();
      Grew(before, Past());
      if submitted.Ok? {
        return Ok([received.value]);
      }
      ghost var middle := Past();
      r := Refuse(m, received.value, submitted.code, now);
      GrewTwice(before, middle, Past());
    }

    /** Any other request: what its service answers is stored. */
    method ServeOther(m: Message, now: nat, answer: Service) returns (r: Result<seq<Reply>>)
      requires Valid()
      modifies receiver.registry, receiver.worker`live
      ensures Valid() && Extends(old(Past()), Past())
    {
      hide *;
      PastParts();
      ValidIff();
      ghost var before := Past();
      ghost var picture := receiver.registry.Picture();
      receiver.registry.PictureParts();
      var stored, replies;
      ghost var at := now;
      match answer {
        case SessionLayer(given, laterNs) =>
          replies, at := given, Latest(now, laterNs);
          stored := receiver.RecordReplies(m, given, Latest(now, laterNs));
        case Consumer(owned, serves, pair, completedNs) =>
          replies, at := pair, completedNs;
          stored := receiver.RecordCompletion(owned, serves, m, pair, completedNs);
      }
      receiver.registry.PictureParts();
      TrimmedParts(picture, receiver.registry.Picture(), at);
      ValidIff();
      PastParts();
      Grew(before, Past());
      return if stored.Err? then Err(stored.code) else Ok(replies);
    }

    /**
     * One packet from its bytes to its feedback. Because maintenance comes first and everything up to the lifecycle
     * service happens at one time, an applied action other than START leaves nothing of its model queued.
     */
    method Receive(frame: X.Frame, binding: PeerBinding, now: nat, parse: (X.Fragment, seq<byte>) -> Body, script: Script,
                   answer: Service) returns (r: Result<seq<Reply>>, handling: Handling)
      requires Valid()
      modifies this`zeroSequence, service, receiver, receiver.registry, receiver.queue, receiver.assembler, receiver.worker,
        receiver.worker.budget
      ensures Valid() && Extends(old(Past()), Past())
      ensures handling.Acted? && Completed(r) ==> Settled(service.Locals(), handling.request, handling.scope, r.value[1])
    {
      hide *;
      handling := Elsewhere;
      ghost var before := Past();
      var arrived := Arrive(frame, binding, now);
      if arrived.Err? {
        return Err(arrived.code), handling;
      }
      var (f, outcome) := arrived.value;
      ghost var middle := Past();
      match outcome {
        case Pending =>
          return Ok([]), handling;
        case Rejected(code) =>
          r := Decline(f, code);
          GrewTwice(before, middle, Past());
        case Delivered(data) =>
          var m := Message(f.messageId, f.header, parse(f, data));
          r, handling := Handle(f, m, binding, now, script, answer);
          GrewTwice(before, middle, Past());
      }
    }

    /** The failure of a fragment or of a message that was not admitted. */
    method Decline(f: X.Fragment, code: Code) returns (r: Result<seq<Reply>>)
      requires Valid()
      modifies this`zeroSequence, receiver.registry`sessions
      ensures Valid() && Extends(old(Past()), Past())
    {
      hide *;
      PastParts();
      ghost var before := Past();
      GrowsSelf(receiver.registry.ledger);
      var failed := Acknowledge(f.messageId, f.header, Failed, Some(code));
      PastParts();
      Grew(before, Past());
      return if failed.Err? then Err(failed.code) else Ok([failed.value]);
    }

    /** A whole message: replayed, refused, or admitted and served. */
    method Handle(f: X.Fragment, m: Message, binding: PeerBinding, now: nat, script: Script, answer: Service)
        returns (r: Result<seq<Reply>>, handling: Handling)
      requires Valid()
      requires receiver.NoneOverdue(now) && NoOrphans(receiver.queue.pending.vals, receiver.registry.sessions.vals.Keys)
      modifies this`zeroSequence, service, receiver, receiver.registry, receiver.queue, receiver.assembler, receiver.worker,
        receiver.worker.budget
      ensures Valid() && Extends(old(Past()), Past())
      ensures handling.Acted? && Completed(r) ==> Settled(service.Locals(), handling.request, handling.scope, r.value[1])
    {
      hide *;
      handling := Elsewhere;
      PastParts();
      ValidIff();
      OrphanFree();
      ghost var before := Past();
      var admitted := receiver.Admit(m, binding, now);
      PastParts();
      ValidIff();
      OrphanFree();
      Grew(before, Past());
      ghost var middle := Past();
      if admitted.Err? {
        r := Decline(f, admitted.code);
        GrewTwice(before, middle, Past());
        return;
      }
      if admitted.value.replay.Some? {
        return Ok(admitted.value.replay.value), handling;
      }
      if m.id == LIFECYCLE {
        var scope;
        r, scope := ServeLifecycle(m, now, script);
        handling := Acted(m, scope);
      } else if m.id == CHUNK {
        r := ServeChunk(m, binding, now);
      } else {
        r := ServeOther(m, now, answer);
      }
      GrewTwice(before, middle, Past());
    }

    /** The lifecycle service on its own leaves every input alone whose session is not registered. */
    method ActAlone(m: Message, received: Reply, now: nat, script: Script) returns (r: Result<seq<Reply>>)
      requires Valid()
      modifies service, receiver, receiver.registry, receiver.queue, receiver.assembler, receiver.worker
      ensures Valid()
      ensures receiver.registry.sessions.vals.Keys <= old(receiver.registry.sessions).vals.Keys
      ensures forall k :: k in old(receiver.queue.pending).vals && k.0 !in old(receiver.registry.sessions).vals ==>
        k in receiver.queue.pending.vals
    {
      hide ModelLifecycleService.Valid, TookEffect, G.Decide, A.Reassembler.Abstract;
      ghost var before := service.Locals();
      QueuedUnderKey();
      var scope;
      r, scope := service.Respond(m, received, now, script);
      ghost var after := service.Locals();
      if after != before {
        LeftAlone(before, after, service.maxAhead, m, scope, script, service.records[|service.records| - 1].decision);
      }
    }

    /**
     * Without the maintenance that precedes it in `Receive`, an input whose session was revoked in the registry alone
     * stays queued, whatever the action does.
     */
    method ActBehindRevocation(input: Message, queuedNs: nat, source: Option<Source>, lane: Option<Lane>,
                               m: Message, received: Reply, now: nat, script: Script)
        returns (orphaned: bool, r: Result<seq<Reply>>)
      requires Valid()
      modifies service, receiver, receiver.registry, receiver.queue, receiver.assembler, receiver.worker
      ensures Valid()
      ensures orphaned ==>
        && input.Key() in receiver.queue.pending.vals && input.header.sessionId !in receiver.registry.sessions.vals
    {
      hide ModelLifecycleService.Valid, Receiver.Valid, OrderedDict.Valid;
      ValidIff();
      var queued := receiver.EnqueueInput(input, true, queuedNs, source, lane);
      var revoked := receiver.RevokeAlone(input.header.sessionId);
      orphaned := queued.Ok? && revoked.Ok?;
      ValidIff();
      r := ActAlone(m, received, now, script);
    }

    // -------------------------------------------------------------- whole runs

    /** Whatever happens next, in whatever order: every owner stays valid, and the past only grows. */
    method Apply(e: Event) returns (batch: Option<StepBatch>)
      requires Valid()
      modifies this`zeroSequence, service, receiver, receiver.registry, receiver.queue, receiver.assembler, receiver.worker,
        receiver.worker.store, receiver.worker.budget
      ensures Valid() && Extends(old(Past()), Past())
      ensures batch.Some? ==> NeverLate(batch.value)
    {
      hide *;
      ValidIff();
      PastParts();
      GrowsSelf(receiver.registry.ledger);
      ghost var before := Past();
      ghost var picture := receiver.registry.Picture();
      receiver.registry.PictureParts();
      batch := None;
      match e {
        case Packet(frame, binding, now, parse, script, answer) =>
          var r, handling := Receive(frame, binding, now, parse, script, answer);
          return;
        case Maintain(now) =>
          var r := receiver.Tick(now);
        case Enqueue(m, running, now, source, lane) =>
          var r := receiver.EnqueueInput(m, running, now, source, lane);
          TrimmedParts(picture, receiver.registry.Picture(), now);
        case Open(model, step, running, now) =>
          var r := receiver.BeginStep(model, step, running, now);
          TrimmedParts(picture, receiver.registry.Picture(), now);
          if r.Ok? {
            batch := Some(r.value);
            NotLate(r.value);
          }
        case Feed(now) =>
          var r := receiver.ResourceFeedback(now);
        case Store(now, disk, failure) =>
          receiver.StorageStep(now, disk, failure);
        case Drain =>
          var r := receiver.DrainStorage();
        case End(sid) =>
          var r := receiver.EndSession(sid);
        case Revoke(sid) =>
          var r := receiver.RevokeAlone(sid);
        case Retire(origin, now) =>
          var r := receiver.RetireRun(origin, now);
        case Act(m, received, now, script) =>
          var r, scope := service.Respond(m, received, now, script);
        case Submit(m, binding, now, reply) =>
          var r := receiver.SubmitChunk(m, binding, now, reply);
          TrimmedParts(picture, receiver.registry.Picture(), now);
        case Answer(m, now, answer) =>
          var r := ServeOther(m, now, answer);
          return;
        case Shut =>
          var r := receiver.Close();
      }
      ValidIff();
      PastParts();
      receiver.registry.PictureParts();
      Grew(before, Past());
    }

    /**
     * Any run at all: each key is admitted, claimed, queued, taken out, submitted and answered at most once, what is
     * queued or submitted was claimed, and no input is ever refused as late.
     */
    method Run(events: seq<Event>) returns (batches: seq<StepBatch>)
      requires Valid()
      modifies this`zeroSequence, service, receiver, receiver.registry, receiver.queue, receiver.assembler, receiver.worker,
        receiver.worker.store, receiver.worker.budget
      ensures Valid() && Extends(old(Past()), Past())
      ensures OnceEach(Past())
      ensures forall b :: b in batches ==> NeverLate(b)
    {
      hide *;
      batches := [];
      PastParts();
      GrowsSelf(receiver.registry.ledger);
      Grew(Past(), Past());
      for i := 0 to |events|
        invariant Valid() && Extends(old(Past()), Past())
        invariant forall b :: b in batches ==> NeverLate(b)
      {
        ghost var middle := Past();
        var batch := Apply(events[i]);
        GrewTwice(old(Past()), middle, Past());
        if batch.Some? {
          batches := batches + [batch.value];
        }
      }
      PastOnce();
    }

    lemma PastOnce()
      requires Valid()
      ensures OnceEach(Past())
    {
      hide *;
      ValidIff();
      PastParts();
      receiver.ValidIff();
      receiver.queue.ValidParts();
      receiver.worker.ValidParts();
      receiver.registry.ValidParts();
      receiver.queue.Histories();
      receiver.worker.Trails();
      LedgerOnce(receiver.registry.cfg, receiver.registry.View(), receiver.registry.nextId, receiver.registry.ledger);
      Once(Past(), receiver.queue.pending);
    }
  }

  /** Whatever a lifecycle action does, the inputs left belong to the sessions left. */
  lemma Followed(before: Local, after: Local, maxAhead: nat, m: Message, scope: Scope, script: Script,
                 decision: Option<G.LifecycleDecision>)
    requires Effect(before, after, maxAhead, m, scope, script, decision) && NoOrphans(before.pending.vals, before.sessions)
    requires forall k :: k in before.pending.vals ==> before.pending.vals[k].key == k
    ensures NoOrphans(after.pending.vals, after.sessions)
  {
    StartStays(maxAhead, m, script.context.value.view);
  }

  lemma LeftAlone(before: Local, after: Local, maxAhead: nat, m: Message, scope: Scope, script: Script,
                  decision: Option<G.LifecycleDecision>)
    requires Effect(before, after, maxAhead, m, scope, script, decision)
    requires forall k :: k in before.pending.vals ==> before.pending.vals[k].key == k
    ensures after.sessions <= before.sessions
    ensures forall k :: k in before.pending.vals && k.0 !in before.sessions ==> k in after.pending.vals
  {
    hide G.Decide;
  }

  /** Without orphans an applied action other than START leaves nothing of its model behind. */
  lemma ClearedWhole(before: Local, after: Local, maxAhead: nat, m: Message, scope: Scope, script: Script, last: Record)
    requires Effect(before, after, maxAhead, m, scope, script, last.decision) && NoOrphans(before.pending.vals, before.sessions)
    requires last.reply.body.Ack? && scope.model in after.steps && last.reply.body.appliedStep == after.steps[scope.model]
    ensures Settled(after, m, scope, last.reply)
  {
    ClearsUnlessStart(maxAhead, m, script.context.value.view);
    hide G.Decide;
  }

  lemma ClearsUnlessStart(maxAhead: nat, m: Message, view: G.ModelView)
    requires m.body.LifecycleBody? && G.Decide(maxAhead, m, view).Ok?
    ensures G.Decide(maxAhead, m, view).value.clearQueues <==> !m.body.action.Start?
  {
  }
}
