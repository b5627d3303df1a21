/** The storage thread and its callers, one method per atomic step. */
module ResourceWorker {
  import opened Common
  import opened Messages
  import opened Ordered
  import opened Registry
  import opened SessionRegistry
  import opened Storage
  import opened ResourceStore
  import opened Budget
  import opened WorkDesk

  /** Why a submission is refused before anything is claimed, in the order of the checks. */
  function ScreenRefusal(rc: Config, t: Tables, room: bool, due: Result<nat>, m: Message, binding: PeerBinding, now: nat,
                         reply: Option<Reply>): Option<Code>
    requires m.body.ChunkBody?
  {
    var allowed := PreAuthorized(rc, t, CHUNK, m.header.sessionId, binding);
    var a := AdmittedRecord(t, m);
    if allowed.Err? then Some(allowed.code)
    else if a.Err? then Some(a.code)
    else if m.body.chunk.kind.ModelFile? || m.body.chunk.kind.TerrainFile? then Some(TargetMissing)
    else if !room then Some(BufferFull)
    else if due.Err? then Some(due.code)
    else if due.value >= a.value.received + m.header.validForMs * NS_PER_MS then Some(Capacity)
    else if reply.Some? && Deferrable(rc, t, m, reply.value, now).Err? then Some(Deferrable(rc, t, m, reply.value, now).code)
    else None
  }

  class ResourceWorker {
    const registry: SessionRegistry
    const store: ResourceStore
    const budget: ResourceBudget
    const packets: Message -> seq<seq<byte>>
    const capacity: nat
    const maxPending: nat
    var queue: seq<Job>
    var jobs: OrderedDict<Key, Job>
    var results: OrderedDict<Key, Outcome>
    var phase: Phase
    var pendingBytes: nat
    var live: set<nat>
    var uploadSessions: set<nat>
    var lastNow: int
    var closing: bool
    var fatal: Option<Code>
    var drain: Drain
    ghost var trail: Trail

    function View(): Desk
      reads this
    {
      Desk(queue, jobs, results, phase)
    }

    /** The tables, and every promise about what was submitted and answered. */
    ghost predicate Sound()
      reads this
    {
      && DeskInv(View()) && TrailInv(View(), trail)
      && |jobs.keys| <= capacity
      && pendingBytes <= maxPending
      && pendingBytes == Total(jobs.keys, BytesOf(registry.cfg.rules, jobs))
      && (fatal.Some? ==> phase.Stopped?)
    }

    /** Store and budget agree with the tables, and a stored chunk's success still shows in the store. */
    ghost predicate Backed()
      reads this, store, budget
    {
      && store.Valid() && budget.Valid()
      && QueueInv(queue, budget.nextNs)
      && (!phase.Stopped? ==> !store.closed)
      && (phase.Stored? && phase.error.None? ==>
            && phase.job.request.body.ChunkBody?
            && ProgressConsistent(phase.job.request.body.chunk, Payload(ProgressFor(store.View(), phase.job.request), None)))
    }

    ghost predicate Valid()
      reads this, registry, store, budget
    {
      && registry.Valid()
      && registry.cfg.rules == store.cfg.rules
      && Sound() && Backed()
      && (forall k :: k in trail.submitted ==> k in registry.ledger.claims)
    }

    lemma ValidParts()
      ensures Valid() <==>
        && registry.Valid()
        && registry.cfg.rules == store.cfg.rules
        && Sound() && Backed()
        && (forall k :: k in trail.submitted ==> k in registry.ledger.claims)
    {
    }

    lemma AvailableParts()
      ensures Available() <==> !phase.Stopped? && !closing && fatal.None?
    {
    }

    lemma Trails()
      requires Sound()
      ensures NoDup(trail.submitted) && NoDup(trail.answered) && forall k :: k in trail.answered ==> k in trail.submitted
    {
      hide DeskInv, NoDup, Total, BytesOf;
    }

    lemma DeskParts()
      ensures View() == Desk(queue, jobs, results, phase)
    {
    }

    function Available(): bool
      reads this
    {
      !phase.Stopped? && !closing && fatal.None?
    }

    function Clock(now: nat): Result<()>
      reads this
    {
      if now < lastNow then Err(Schema) else if !Available() then Err(State) else Ok(())
    }

    twostate predicate DeskSame()
      reads this
    {
      && View() == old(View()) && pendingBytes == old(pendingBytes) && trail == old(trail) && lastNow == old(lastNow)
      && live == old(live) && uploadSessions == old(uploadSessions) && closing == old(closing) && fatal == old(fatal)
      && drain == old(drain)
    }

    constructor (registry: SessionRegistry, store: ResourceStore, budget: ResourceBudget,
                 packets: Message -> seq<seq<byte>>, capacity: nat, maxPending: nat)
      requires registry.Valid() && store.Valid() && !store.closed && budget.Valid()
      requires registry.cfg.rules == store.cfg.rules
      ensures Valid() && Available() && trail == Trail([], [])
      ensures this.registry == registry && this.store == store && this.budget == budget
    {
      hide Inv, Config.Valid, ShelfInv, Limits.Valid, Paced;
      this.registry, this.store, this.budget, this.packets := registry, store, budget, packets;
      this.capacity, this.maxPending := capacity, maxPending;
      queue, jobs, results, phase := [], Empty(), Empty(), Idle;
      pendingBytes, live, uploadSessions, lastNow := 0, registry.sessions.vals.Keys, {}, -1;
      closing, fatal, drain, trail := false, None, NoDrain, Trail([], []);
    }

    /** The answer to a submission, refused or not, as the checks decide it on the state before. */
    twostate predicate Answer(r: Result<Job>, m: Message, binding: PeerBinding, now: nat, reply: Option<Reply>)
      reads this, registry, budget
    {
      if old(Clock(now)).Err? then r == Err(old(Clock(now)).code)
      else if registry.cfg.rules.accepts(m).Err? then r == Err(registry.cfg.rules.accepts(m).code)
      else if m.id != CHUNK || !m.body.ChunkBody? then r == Err(Unsupported)
      else if old(registry.Clock(now)).Err? then r == Err(old(registry.Clock(now)).code)
      else
        var refusal := ScreenRefusal(registry.cfg, Current(old(registry.View()), now), old(Room(m)),
                                     old(budget.Preview(packets(m), now)), m, binding, now, reply);
        refusal == if r.Ok? then None else Some(r.code)
    }

    /** Accepts a chunk for storage: claimed in the registry, paced by the budget, queued once. */
    method Submit(m: Message, binding: PeerBinding, now: nat, reply: Option<Reply>) returns (r: Result<Job>)
      requires Valid()
      modifies this, registry, budget
      ensures Valid() && Trimmed(old(registry.Picture()), registry.Picture(), now)
      ensures r.Err? ==> DeskSame() && budget.nextNs == old(budget.nextNs)
      ensures r.Ok? ==> Enqueued(r.value, m, now)
      ensures r.Err? ==> jobs == old(jobs) && results == old(results) && trail == old(trail) && live == old(live)
      ensures r.Ok? ==>
        && m.Key() !in old(trail).submitted && m.Key() !in old(jobs).vals && m.Key() in jobs.vals
        && trail == old(trail).(submitted := old(trail).submitted + [m.Key()])
        && live == registry.sessions.vals.Keys
      ensures Answer(r, m, binding, now, reply)
    {
      hide Inv, Current, Grows, ExpiredSessions, Config.Valid, ShelfInv, Limits.Valid, DeskInv, TrailInv, QueueInv, Paced,
        ScreenRefusal, Total, Submitted, ProgressConsistent, ProgressFor, Payload, Deferrable, AdmittedRecord, WireBits,
        BytesOf, CeilDiv, Rules.Sound, Claiming, ResourceBudget.Preview;
      GrowsSame(registry.ledger);
      var clock := Clock(now);
      if clock.Err? {
        return Err(clock.code);
      }
      var accepted := registry.cfg.rules.accepts(m);
      if accepted.Err? {
        return Err(accepted.code);
      }
      if m.id != CHUNK {
        return Err(Unsupported);
      }
      SoundMessage(registry.cfg, m);
      RolledTables(registry.cfg, registry.View(), registry.nextId, registry.ledger, now);
      var screened := Screen(m, binding, now, reply);
      if screened.Err? {
        return Err(screened.code);
      }
      var job := screened.value;
      var claimed := Claim(job, reply, now);
      assert claimed.Ok?;
      SubmittedJobs(View(), job);
      Commit(job, now);
      return Ok(job);
    }

    /** Reserves the job's transmission time and queues it. */
    method Commit(job: Job, now: nat)
      requires Sound() && budget.Valid() && QueueInv(queue, budget.nextNs)
      requires !phase.Stopped? && job.key !in trail.submitted && job.request.body.ChunkBody? && Room(job.request)
      requires job.key == job.request.Key()
      requires budget.Preview(packets(job.request), now) == Ok(job.due) && job.due > budget.nextNs
      requires job.due < job.received + job.request.header.validForMs * NS_PER_MS
      modifies this, budget
      ensures Sound() && budget.Valid() && QueueInv(queue, budget.nextNs)
      ensures Enqueued(job, job.request, now) && phase == old(phase)
    {
      hide DeskInv, TrailInv, QueueInv, Paced, Total, Submitted, BytesOf, CeilDiv, WireBits;
      SubmittedOrder(queue, budget.nextNs, job);
      var reserved := budget.Reserve(packets(job.request), now);
      Append(job);
      lastNow := now;
      live := registry.sessions.vals.Keys;
    }

    /** Every check of a submission that precedes its claim. */
    method Screen(m: Message, binding: PeerBinding, now: nat, reply: Option<Reply>) returns (r: Result<Job>)
      requires registry.Valid() && m.id == CHUNK && m.body.ChunkBody? && registry.cfg.rules.accepts(m).Ok?
      modifies registry
      ensures registry.Valid() && registry.ledger == old(registry.ledger)
      ensures old(registry.Clock(now)).Err? ==> r == Err(old(registry.Clock(now)).code) && registry.Same()
      ensures old(registry.Clock(now)).Ok? ==>
        var t := Current(old(registry.View()), now);
        && registry.Rolled(now) && registry.Clock(now).Ok?
        && ScreenRefusal(registry.cfg, t, Room(m), budget.Preview(packets(m), now), m, binding, now, reply)
             == (if r.Ok? then None else Some(r.code))
        && (r.Ok? ==>
              && r.value.key == m.Key() && r.value.request == m && Room(m)
              && budget.Preview(packets(m), now) == Ok(r.value.due) && r.value.due > budget.nextNs
              && r.value.due < r.value.received + m.header.validForMs * NS_PER_MS
              && AdmittedRecord(t, m).Ok?
              && (reply.Some? ==> Deferrable(registry.cfg, t, m, reply.value, now).Ok?))
    {
      hide Inv, Current, AdmittedRecord, ExpiredSessions, Config.Valid, Deferrable, PreAuthorized, WireBits;
      RolledTables(registry.cfg, registry.View(), registry.nextId, registry.ledger, now);
      var expired := registry.Expire(now);
      if expired.Err? {
        return Err(expired.code);
      }
      var allowed := PreAuthorized(registry.cfg, registry.View(), CHUNK, m.header.sessionId, binding);
      if allowed.Err? {
        return Err(allowed.code);
      }
      var received := registry.RequireAdmitted(m, now);
      if received.Err? {
        return Err(received.code);
      }
      if m.body.chunk.kind.ModelFile? || m.body.chunk.kind.TerrainFile? {
        return Err(TargetMissing);
      }
      if !Room(m) {
        return Err(BufferFull);
      }
      var due := budget.Preview(packets(m), now);
      if due.Err? {
        return Err(due.code);
      }
      if due.value >= received.value + m.header.validForMs * NS_PER_MS {
        return Err(Capacity);
      }
      if reply.Some? {
        var deferral := registry.CheckResourceDeferral(m, reply.value, now);
        if deferral.Err? {
          return Err(deferral.code);
        }
      }
      DueLater(budget.nextNs, packets(m), budget.bitsPerSecond, now, budget.lastNs);
      return Ok(Job(m.Key(), m, binding, received.value, due.value));
    }

    /** Takes the admission and, when a first reply is given, pins it; after the screening neither can be refused. */
    method Claim(job: Job, reply: Option<Reply>, now: nat) returns (r: Result<()>)
      requires registry.Valid() && job.request.id == CHUNK && job.request.body.ChunkBody?
      requires registry.cfg.rules.accepts(job.request).Ok? && registry.Clock(now).Ok?
      requires registry.View() == Current(registry.View(), now) && AdmittedRecord(registry.View(), job.request).Ok?
      requires reply.Some? ==> Deferrable(registry.cfg, registry.View(), job.request, reply.value, now).Ok?
      modifies registry
      ensures registry.Valid() && Grows(old(registry.ledger), registry.ledger)
      ensures registry.sessions == old(registry.sessions) && registry.cancels == old(registry.cancels)
      ensures registry.nextId == old(registry.nextId) && registry.closed == old(registry.closed)
      ensures job.request.Key() !in old(registry.ledger).claims
      ensures registry.ledger.claims == old(registry.ledger).claims + [job.request.Key()]
      ensures r == Ok(())
    {
      hide Inv, Current, AdmittedRecord, ExpiredSessions, Config.Valid, Deferrable, Pinnable, Grows, WithResponses, Claimed,
        StorageDeadline;
      var m := job.request;
      ghost var t := registry.View();
      ghost var before := registry.ledger;
      ghost var next := registry.nextId;
      GrowsSame(before);
      r := Ok(());
      CurrentIdempotent(registry.cfg, t, next, before, now);
      if reply.Some? {
        RecordsValid(registry.cfg, t, next, before);
        DeferralPromise(registry.cfg, t, m, reply.value, now);
      }
      var claimed := registry.ClaimAdmitted(m, now);
      ClaimedLedger(before, m.Key());
      if reply.Some? {
        ClaimedCurrent(registry.cfg, t, next, before, m, now);
        ghost var mid := registry.ledger;
        r := registry.DeferResourceResponse(m, [reply.value], now);
        PublishedClaims(mid, m.Key(), [reply.value]);
        GrowsTwice(before, mid, registry.ledger);
      }
    }

    function Room(m: Message): bool
      reads this
    {
      jobs.Size() < capacity && pendingBytes + Size(registry.cfg.rules, m) <= maxPending
    }

    /** The job joined the queue behind every earlier one, under a key never submitted before. */
    twostate predicate Enqueued(job: Job, m: Message, now: nat)
      reads this, registry, budget
    {
      && job.key == m.Key() && job.request == m
      && job.key !in old(jobs).vals && job.key !in old(trail).submitted
      && View() == Submitted(old(View()), job)
      && trail == old(trail).(submitted := old(trail).submitted + [job.key])
      && pendingBytes == old(pendingBytes) + Size(registry.cfg.rules, m)
      && old(budget.Preview(packets(m), now)) == Ok(job.due) && budget.nextNs == job.due
      && (forall i :: 0 <= i < |old(queue)| ==> old(queue)[i].due < job.due)
      && job.due < job.received + m.header.validForMs * NS_PER_MS
      && lastNow == now && live == registry.sessions.vals.Keys
      && uploadSessions == old(uploadSessions) && closing == old(closing) && fatal == old(fatal) && drain == old(drain)
    }

    method Append(job: Job)
      requires Sound() && !phase.Stopped? && job.key !in trail.submitted && job.request.body.ChunkBody?
      requires job.request.Key() == job.key
      requires Room(job.request)
      modifies this`jobs, this`queue, this`pendingBytes, this`trail
      ensures Sound() && job.key !in old(jobs).vals
      ensures View() == Submitted(old(View()), job) && queue == old(queue) + [job] && phase == old(phase)
      ensures trail == old(trail).(submitted := old(trail).submitted + [job.key])
      ensures pendingBytes == old(pendingBytes) + Size(registry.cfg.rules, job.request)
    {
      hide DeskInv, TrailInv, Total, OrderedDict.Valid;
      SubmittedInv(View(), trail, job);
      JobsValid(View());
      JobBytes(registry.cfg.rules, jobs, job);
      jobs := jobs.Put(job.key, job);
      queue := queue + [job];
      pendingBytes := pendingBytes + Size(registry.cfg.rules, job.request);
      trail := trail.(submitted := trail.submitted + [job.key]);
    }

    // -------------------------------------------------------------- callers

    method Synchronize(sessions: set<nat>, now: nat) returns (r: Result<()>)
      requires Valid()
      modifies this`live, this`lastNow
      ensures Valid()
      ensures old(Clock(now)).Err? ==> r == Err(old(Clock(now)).code) && live == old(live) && lastNow == old(lastNow)
      ensures old(Clock(now)).Ok? ==> r == Ok(()) && live == sessions && lastNow == now
    {
      hide Inv, Config.Valid, ShelfInv, Limits.Valid, DeskInv, TrailInv, QueueInv, Paced, Total, ProgressConsistent;
      r := Clock(now);
      if r.Ok? {
        live, lastNow := sessions, now;
      }
    }

    method CancelSession(session: nat)
      requires Valid()
      modifies this`live
      ensures Valid() && live == old(live) - {session}
    {
      hide Inv, Config.Valid, ShelfInv, Limits.Valid, DeskInv, TrailInv, QueueInv, Paced, Total, ProgressConsistent;
      live := live - {session};
    }

    /** The cancellations the registry issues while it ends sessions. */
    method CancelSessions(sessions: seq<nat>)
      requires Valid()
      modifies this`live
      ensures Valid() && live == old(live) - (set sid | sid in sessions)
    {
      hide Inv, Config.Valid, ShelfInv, Limits.Valid, DeskInv, TrailInv, QueueInv, Paced, Total, ProgressConsistent;
      for i := 0 to |sessions|
        invariant Valid() && live == old(live) - (set sid | sid in sessions[..i])
      {
        assert sessions[..i + 1] == sessions[..i] + [sessions[i]];
        CancelSession(sessions[i]);
      }
      assert sessions[..|sessions|] == sessions;
    }

    /** Gives a finished job's space back; its answer was recorded before and stays recorded. */
    method ReleaseResult(k: Key) returns (r: Result<()>)
      requires Valid()
      modifies this`results, this`jobs, this`pendingBytes
      ensures Valid()
      ensures k !in old(results).vals ==> r == Err(State) && View() == old(View()) && pendingBytes == old(pendingBytes)
      ensures k in old(results).vals ==>
        && r == Ok(()) && View() == Released(old(View()), k) && k in old(jobs).vals
        && pendingBytes + Size(registry.cfg.rules, old(jobs).vals[k].request) == old(pendingBytes)
    {
      hide Inv, Config.Valid, ShelfInv, Limits.Valid, DeskInv, TrailInv, QueueInv, Paced, Total, ProgressConsistent, BytesOf,
        OrderedDict.Valid;
      if k !in results.vals {
        return Err(State);
      }
      ReleasedInv(View(), trail, k);
      ReleasedBytes(registry.cfg.rules, View(), k);
      results := results.Delete(k);
      pendingBytes := pendingBytes - Size(registry.cfg.rules, jobs.vals[k].request);
      jobs := jobs.Delete(k);
      return Ok(());
    }

    method RequestDrain() returns (r: Result<()>)
      requires Valid()
      modifies this`drain
      ensures Valid()
      ensures drain == if r.Ok? && old(drain).NoDrain? then Requested else old(drain)
      ensures r.Err? <==> old(drain).NoDrain? && !Available()
      ensures r.Err? ==> r == Err(State)
    {
      hide Inv, Config.Valid, ShelfInv, Limits.Valid, DeskInv, TrailInv, QueueInv, Paced, Total, ProgressConsistent;
      if drain.NoDrain? {
        if !Available() {
          return Err(State);
        }
        drain := Requested;
      }
      return Ok(());
    }

    method TakeDrained() returns (records: seq<Aborted>)
      requires Valid() && drain.Done?
      modifies this`drain
      ensures Valid() && drain == NoDrain && records == old(drain).records
    {
      hide Inv, Config.Valid, ShelfInv, Limits.Valid, DeskInv, TrailInv, QueueInv, Paced, Total, ProgressConsistent;
      records := drain.records;
      drain := NoDrain;
    }

    method BeginClose()
      requires Valid()
      modifies this`closing, this`live
      ensures Valid() && closing && live == {}
    {
      hide Inv, Config.Valid, ShelfInv, Limits.Valid, DeskInv, TrailInv, QueueInv, Paced, Total, ProgressConsistent;
      closing, live := true, {};
    }

    // -------------------------------------------------------------- the storage thread

    /** Under the lock the thread decides what to do next: clean up, drain, take the due head, end, or wait. */
    method Pick(now: nat)
      requires Valid() && phase.Idle?
      modifies this`phase, this`queue
      ensures Valid()
      ensures jobs == old(jobs) && results == old(results)
      ensures uploadSessions - live != {} ==> queue == old(queue) && phase.Aborting? && phase.session in uploadSessions - live
      ensures uploadSessions - live == {} && drain.Requested? ==> queue == old(queue) && phase == Draining
      ensures uploadSessions - live == {} && !drain.Requested? && old(queue) != [] ==>
        var head := old(queue)[0];
        if now < head.due && !closing && head.key.0 in live then queue == old(queue) && phase == Idle
        else queue == old(queue)[1..] && phase == Starting(head)
      ensures uploadSessions - live == {} && !drain.Requested? && old(queue) == [] ==>
        queue == [] && phase == (if closing then Stopped else Idle)
    {
      hide Inv, Config.Valid, ShelfInv, Limits.Valid, DeskInv, TrailInv, Paced, Total, ProgressConsistent, Waiting;
      forall p: Phase | !p.Starting? && !p.Stored? && (p.Stopped? ==> queue == [])
        ensures DeskInv(View().(phase := p)) && TrailInv(View().(phase := p), trail)
      {
        PhaseInv(View(), trail, p);
      }
      if uploadSessions - live != {} {
        var session :| session in uploadSessions - live;
        phase := Aborting(session);
      } else if drain.Requested? {
        phase := Draining;
      } else if queue != [] {
        var head := queue[0];
        if now < head.due && !closing && head.key.0 in live {
          return;
        }
        TakenInv(View(), trail);
        phase := Starting(head);
        queue := queue[1..];
      } else if closing {
        phase := Stopped;
      }
    }

    method FinishAbort()
      requires Valid() && phase.Aborting?
      modifies this`phase, this`uploadSessions, store
      ensures Valid() && phase == Idle && uploadSessions == old(uploadSessions) - {old(phase).session}
      ensures store.active == old(store.active).Select(Not(OwnedBy(old(phase).session)))
    {
      hide Inv, Config.Valid, ShelfInv, Limits.Valid, DeskInv, TrailInv, QueueInv, Paced, Total, ProgressConsistent, AbortsOf,
        OrderedDict.Select;
      PhaseInv(View(), trail, Idle);
      var aborted := store.AbortSession(phase.session);
      uploadSessions := uploadSessions - {phase.session};
      phase := Idle;
    }

    method FinishDrain()
      requires Valid() && phase.Draining?
      modifies this`phase, this`drain, store
      ensures Valid() && phase == Idle && drain == Done(old(store.aborted)) && store.aborted == []
    {
      hide Inv, Config.Valid, ShelfInv, Limits.Valid, DeskInv, TrailInv, QueueInv, Paced, Total, ProgressConsistent, AbortedBytes;
      PhaseInv(View(), trail, Idle);
      var records := store.DrainAborted();
      drain := Done(records);
      phase := Idle;
    }

    /** Stores the job's chunk unless its session has gone, the worker is closing, or its validity is over. */
    method StoreJob(now: nat, disk: Disk)
      requires Valid() && phase.Starting?
      modifies this`phase, store
      ensures Valid() && phase.Stored? && phase.job == old(phase).job
      ensures closing ==> phase.error == Some(State) && store.View() == old(store.View())
      ensures !closing && phase.job.key.0 !in live ==> phase.error == Some(StaleSession) && store.View() == old(store.View())
      ensures !closing && phase.job.key.0 in live && now >= phase.job.received + phase.job.request.header.validForMs * NS_PER_MS ==>
        phase.error == Some(Expired) && store.View() == old(store.View())
    {
      hide Inv, Config.Valid, ShelfInv, Limits.Valid, DeskInv, TrailInv, QueueInv, Paced, Total, ProgressConsistent,
        ProgressFor, ChunkCheck, Accepted, Accounted;
      var job := phase.job;
      JobChunk(View());
      var error: Option<Code> := None;
      if closing || job.key.0 !in live {
        error := Some(if closing then State else StaleSession);
      } else if now >= job.received + job.request.header.validForMs * NS_PER_MS {
        error := Some(Expired);
      } else {
        var receipt := store.Accept(job.request, now, disk);
        if receipt.Err? {
          error := Some(receipt.code);
        }
      }
      StoredInv(View(), trail, error);
      phase := Stored(job, error);
    }

    /** Records the job's one answer; time run out since, or a session gone, overrides success. */
    method AnswerJob(completed: nat)
      requires Valid() && phase.Stored?
      modifies this`phase, this`results, this`uploadSessions, this`trail, store
      ensures Valid() && phase == Idle
      ensures var job := old(phase).job;
        && job.key !in old(results).vals && job.key !in old(trail).answered
        && trail == old(trail).(answered := old(trail).answered + [job.key])
        && job.key in results.vals && results == old(results).Put(job.key, results.vals[job.key])
        && ResultFor(job, results.vals[job.key])
        && results.vals[job.key].payload.error == FinalError(job, old(phase).error, completed)
    {
      hide Inv, Config.Valid, ShelfInv, Limits.Valid, DeskInv, TrailInv, QueueInv, Paced, Total, ProgressConsistent,
        ProgressFor, Dropped;
      var job := phase.job;
      JobChunk(View());
      NotAnswered(View(), trail);
      var error := FinalError(job, phase.error, completed);
      var payload := Report(job, error);
      var outcome := Outcome(job.key, job.request, job.binding, payload, completed);
      AnsweredInv(View(), trail, outcome);
      uploadSessions := set sha | sha in store.active.vals :: store.active.vals[sha].session;
      results := results.Put(job.key, outcome);
      phase := Idle;
      trail := trail.(answered := trail.answered + [job.key]);
    }

    /** Ends an overdue upload and says where the resource stands. */
    method Report(job: Job, error: Option<Code>) returns (payload: ReplyBody)
      requires store.Valid() && job.request.body.ChunkBody?
      requires error.None? ==> ProgressConsistent(job.request.body.chunk, Payload(ProgressFor(store.View(), job.request), None))
      modifies store
      ensures store.Valid() && store.closed == old(store.closed)
      ensures payload.Progress? && payload.error == error && ProgressConsistent(job.request.body.chunk, payload)
    {
      hide ShelfInv, Limits.Valid, ProgressConsistent, ProgressFor, Dropped;
      if error == Some(Expired) || error == Some(Timeout) {
        var dropped := store.AbortResource(job.key.0, job.request.body.chunk.sha, error.value);
      }
      if error.Some? {
        FailureConsistent(store.cfg, store.View(), job.request, error.value);
      }
      return Payload(ProgressFor(store.View(), job.request), error);
    }

    /** The error an answer carries: a session gone or a deadline passed comes before what storage said. */
    function FinalError(job: Job, error: Option<Code>, completed: nat): Option<Code>
      requires job.request.body.ChunkBody?
      reads this, registry
    {
      var limitMs := if job.request.body.chunk.final then registry.cfg.rules.commitTimeoutMs else job.request.header.validForMs;
      if closing then Some(State)
      else if job.key.0 !in live then Some(StaleSession)
      else if completed >= job.received + limitMs * NS_PER_MS then Some(Timeout)
      else error
    }

    /** The thread fails: everything unanswered is answered with the failure and the thread ends. */
    method Fail(code: Code, now: nat)
      requires Valid() && !phase.Stopped?
      modifies this`phase, this`results, this`queue, this`fatal, this`trail
      ensures Valid() && fatal == Some(code)
      ensures FailedTo(old(View()), View(), code, now)
      ensures trail == old(trail).(answered := old(trail).answered + Unanswered(old(jobs).keys, old(results).vals))
    {
      hide Inv, Config.Valid, ShelfInv, Limits.Valid, DeskInv, TrailInv, QueueInv, Paced, Total, ProgressConsistent, FailedTo,
        Failure, Unanswered, OrderedDict.Valid;
      EmptyQueue(budget.nextNs);
      ghost var before := View();
      var answers := FailAll(code, now);
      FailedInv(before, Desk([], jobs, answers, Stopped), trail, code, now);
      trail := trail.(answered := trail.answered + Unanswered(jobs.keys, results.vals));
      results := answers;
      queue := [];
      fatal := Some(code);
      phase := Stopped;
    }

    /** One step of the storage thread, from wherever it stands; a failure there ends it. Answers are only ever added. */
    method Advance(now: nat, disk: Disk, failure: Option<Code>)
      requires Valid()
      modifies this`phase, this`queue, this`results, this`uploadSessions, this`drain, this`fatal, this`trail, store
      ensures Valid() && trail.submitted == old(trail).submitted && old(trail).answered <= trail.answered
      ensures forall k :: k in old(results).vals ==> k in results.vals && results.vals[k] == old(results).vals[k]
    {
      hide Valid, Unanswered, ResultFor, Failure, OrderedDict.Valid;
      if phase.Stopped? {
        return;
      }
      if failure.Some? {
        Fail(failure.value, now);
        return;
      }
      match phase
      case Idle => Pick(now);
      case Aborting(_) => FinishAbort();
      case Draining => FinishDrain();
      case Starting(_) => StoreJob(now, disk);
      case Stored(_, _) => AnswerJob(now);
    }

    method FailAll(code: Code, now: nat) returns (answers: OrderedDict<Key, Outcome>)
      requires DeskInv(View())
      ensures FailedTo(View(), Desk([], jobs, answers, Stopped), code, now)
    {
      hide PlacesInv, WaitingInv, ResultFor, Failure;
      answers := results;
      var keys := jobs.keys;
      for i := 0 to |keys|
        invariant answers.Valid()
        invariant forall k :: k in answers.vals <==> k in results.vals || k in keys[..i]
        invariant forall k :: k in results.vals ==> answers.vals[k] == results.vals[k]
        invariant forall k :: k in keys[..i] && k !in results.vals ==> answers.vals[k] == Failure(jobs.vals[k], code, now)
      {
        var k := keys[i];
        assert keys[..i + 1] == keys[..i] + [k];
        if k !in results.vals {
          answers := answers.Put(k, Failure(jobs.vals[k], code, now));
        }
      }
      assert keys[..|keys|] == keys;
    }

    /** After the thread's last step its store is closed; by then every submission has been answered once. */
    method Finalize() returns (aborted: seq<Aborted>)
      requires Valid() && phase.Stopped?
      modifies this`drain, store
      ensures Valid() && store.closed && store.aborted == [] && !drain.Done?
      ensures old(drain).Done? ==> old(drain).records <= aborted
      ensures NoDup(trail.submitted) && NoDup(trail.answered)
      ensures forall k :: k in trail.submitted <==> k in trail.answered
      ensures forall k :: k in jobs.vals <==> k in results.vals
    {
      hide Inv, Config.Valid, ShelfInv, Limits.Valid, DeskInv, TrailInv, QueueInv, Paced, Total, ProgressConsistent, AbortsOf,
        AbortedBytes;
      AllAnswered(View(), trail);
      var closedUploads := store.Close();
      aborted := store.DrainAborted();
      if drain.Done? {
        aborted := drain.records + aborted;
        drain := NoDrain;
      }
    }
  }

  lemma SubmittedJobs(d: Desk, job: Job)
    ensures job.key in Submitted(d, job).jobs.vals
  {
  }

  lemma EmptyQueue(horizon: nat)
    ensures QueueInv([], horizon)
  {
  }

  lemma JobChunk(d: Desk)
    requires DeskInv(d) && (d.phase.Starting? || d.phase.Stored?)
    ensures d.phase.job.request.body.ChunkBody? && d.phase.job.key in d.jobs.vals
  {
    hide ResultFor, PlacesInv;
  }

  lemma NotAnswered(d: Desk, t: Trail)
    requires DeskInv(d) && TrailInv(d, t) && d.phase.Stored?
    ensures d.phase.job.key !in d.results.vals && d.phase.job.key !in t.answered
  {
    assert d.phase.job.key in Busy(d.phase);
    hide ResultFor, NoDup;
  }

  lemma ReleasedBytes(rules: Rules, d: Desk, k: Key)
    requires DeskInv(d) && k in d.results.vals
    ensures k in d.jobs.vals
    ensures |Released(d, k).jobs.keys| <= |d.jobs.keys|
    ensures Total(Released(d, k).jobs.keys, BytesOf(rules, Released(d, k).jobs)) + Size(rules, d.jobs.vals[k].request)
      == Total(d.jobs.keys, BytesOf(rules, d.jobs))
  {
    JobsValid(d);
    hide WaitingInv, PlacesInv, ResultFor;
    TotalWithout(d.jobs.keys, k, BytesOf(rules, d.jobs));
    TotalSame(Without(d.jobs.keys, k), BytesOf(rules, d.jobs), BytesOf(rules, d.jobs.Delete(k)));
  }

  lemma JobsValid(d: Desk)
    requires DeskInv(d)
    ensures d.jobs.Valid() && d.results.Valid()
    ensures forall k :: k in d.jobs.vals ==> d.jobs.vals[k].key == k
  {
    hide ResultFor, WaitingInv, PlacesInv;
  }

  lemma JobBytes(rules: Rules, jobs: OrderedDict<Key, Job>, job: Job)
    requires jobs.Valid() && job.key !in jobs.vals
    ensures |jobs.Put(job.key, job).keys| == |jobs.keys| + 1
    ensures Total(jobs.Put(job.key, job).keys, BytesOf(rules, jobs.Put(job.key, job)))
      == Total(jobs.keys, BytesOf(rules, jobs)) + Size(rules, job.request)
  {
    TotalPut(jobs.keys, job.key, BytesOf(rules, jobs), BytesOf(rules, jobs.Put(job.key, job)));
  }

  lemma RecordsValid(cfg: Config, t: Tables, nextId: nat, ledger: Ledger)
    requires Inv(cfg, t, nextId, ledger)
    ensures t.records.Valid()
  {
    hide SessionsInv, LedgerInv, RecordInv;
  }

  lemma ClaimedLedger(ledger: Ledger, k: Key)
    ensures Claiming(ledger, k).claims == ledger.claims + [k]
  {
  }

  lemma PublishedClaims(ledger: Ledger, k: Key, replies: seq<Reply>)
    ensures Publishing(ledger, k, replies).claims == ledger.claims
  {
  }

  lemma GrowsTwice(a: Ledger, b: Ledger, c: Ledger)
    requires Grows(a, b) && Grows(b, c)
    ensures Grows(a, c)
  {
  }

  /** Claiming an up-to-date record leaves the tables up to date. */
  lemma ClaimedCurrent(cfg: Config, t: Tables, nextId: nat, ledger: Ledger, m: Message, now: nat)
    requires Inv(cfg, t, nextId, ledger) && t == Current(t, now) && m.Key() in t.records.vals
    ensures Current(Claimed(t, m), now) == Claimed(t, m) && ExpiredSessions(Claimed(t, m), now) == []
  {
    CurrentIdempotent(cfg, t, nextId, ledger, now);
    var c := Claimed(t, m);
    assert c.records.vals[m.Key()].Until() == t.records.vals[m.Key()].Until();
    forall k | k in c.records.vals ensures LiveAdmission(now)(c.records.vals[k]) {
      assert k in Current(t, now).records.vals;
    }
    RecordsValid(cfg, t, nextId, ledger);
    PutValid(t.records, m.Key(), c.records.vals[m.Key()]);
    hide Inv;
    SelectAll(c.records, LiveAdmission(now));
  }

  lemma PutValid(d: OrderedDict<Key, Admission>, k: Key, a: Admission)
    requires d.Valid()
    ensures d.Put(k, a).Valid()
  {
  }

  /** A reservation is due strictly after everything reserved before it. */
  lemma DueLater(nextNs: nat, packets: seq<seq<byte>>, rate: pos, now: nat, lastNs: int)
    requires now >= lastNs && WireBits(packets).Ok?
    ensures Later(nextNs, now) + CeilDiv(WireBits(packets).value * NS_PER_SECOND, rate) > nextNs
  {
    WireBitsPositive(packets);
    CeilCovers(WireBits(packets).value * NS_PER_SECOND, rate);
  }
}
