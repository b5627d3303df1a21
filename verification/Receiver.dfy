/** The receiver's maintenance and retirement over its registry, queue, reassembler and storage worker. */
module Receiver {
  import opened Common
  import opened Catalogue
  import opened Messages
  import opened Ordered
  import opened Registry
  import opened SessionRegistry
  import opened Queue
  import opened ModelQueue
  import opened Maintenance
  import R = Reassembly
  import A = Reassembler
  import T = Storage
  import opened Wire
  import W = ResourceWorker
  import D = WorkDesk

  datatype Records = Records(expired: seq<nat>, rejected: seq<Rejected>)

  /** A reassembly group kept as evidence of what was dropped. */
  datatype Retired = Retired(key: R.Key, group: R.Group)

  datatype RunRetirement = RunRetirement(
    origin: nat,
    identity: nat,
    observed: nat,
    selected: seq<nat>,
    retired: seq<nat>,
    captured: seq<Pending>,
    discarded: seq<Pending>,
    groups: seq<Retired>,
    dropped: seq<Retired>,
    error: Option<Code>)

  /** A storage outcome handed on: with the reply stored for its request, or the reason there is none. */
  datatype FeedbackRecord = FeedbackRecord(outcome: D.Outcome, reply: Option<Reply>, error: Option<Code>)

  /** The header of a reply to a request of this session and transaction. */
  function HeaderFor(rules: Rules, id: nat, sid: nat, transaction: nat, sequence: nat): Header
  {
    Header(sid, sequence, 0, transaction, if id in rules.contract.entries then rules.contract.entries[id].validForMs else 0)
  }

  function ReplyFor(rules: Rules, o: D.Outcome, sequence: nat): Reply
  {
    Reply(PROGRESS, HeaderFor(rules, PROGRESS, o.request.header.sessionId, o.request.header.transactionId, sequence), o.payload)
  }

  function SameRun(rc: Config, run: nat): Session -> bool
  {
    (s: Session) => s.grant < |rc.grants| && rc.grants[s.grant].run == run
  }

  /** The registered sessions of the origin's run, in registration order. */
  function RunSessions(rc: Config, t: Tables, origin: nat): seq<nat>
    requires origin in t.sessions.vals && t.sessions.vals[origin].grant < |rc.grants|
  {
    Passing(t.sessions.keys, t.sessions.vals, SameRun(rc, rc.grants[t.sessions.vals[origin].grant].run))
  }

  function GroupsOf(keys: seq<R.Key>, groups: map<R.Key, R.Group>, sids: seq<nat>): seq<Retired>
  {
    if keys == [] then []
    else
      (if keys[0] in groups && keys[0].session in sids then [Retired(keys[0], groups[keys[0]])] else [])
      + GroupsOf(keys[1..], groups, sids)
  }

  function PieceBytes(pieces: map<nat, seq<byte>>, n: nat): nat
  {
    if n == 0 then 0 else PieceBytes(pieces, n - 1) + (if n - 1 in pieces then 128 + |pieces[n - 1]| else 0)
  }

  function GroupBytes(groups: seq<Retired>): nat
  {
    if groups == [] then 0
    else
      var g := groups[0].group;
      1024 + |g.first.Bytes()| + PieceBytes(g.pieces, g.first.Count()) + GroupBytes(groups[1..])
  }

  function InputBytes(inputs: seq<Pending>): nat
  {
    if inputs == [] then 0 else inputs[0].bytes + 128 + InputBytes(inputs[1..])
  }

  class Receiver {
    const registry: SessionRegistry
    const queue: ModelQueue
    const assembler: A.Reassembler
    const worker: W.ResourceWorker
    const inputCapacity: nat
    const sessionCapacity: nat
    const identityBytes: nat -> nat
    const runCapacity: nat
    const runByteCapacity: nat
    var runRecords: seq<RunRetirement>
    var runByOrigin: map<nat, RunRetirement>
    var runBytes: nat
    var runInputs: nat
    var maintenance: Records
    const resourceCapacity: nat
    var resourceRecords: seq<FeedbackRecord>
    var closed: bool
    var busy: bool

    ghost predicate Owned()
    {
      queue.registry == registry && worker.registry == registry
    }

    ghost predicate Valid()
      reads this, registry, queue, assembler, worker, worker.store, worker.budget
    {
      && Owned()
      && queue.Valid() && assembler.Valid() && worker.Valid()
      && |maintenance.rejected| <= inputCapacity && |maintenance.expired| <= sessionCapacity
      && RetiredGone() && OnlyLive()
    }

    /** The storage worker takes no session for live that the registry has dropped. */
    ghost predicate OnlyLive()
      reads registry`sessions, worker`live
    {
      worker.live <= registry.sessions.vals.Keys
    }

    /** A retired origin is never registered again. */
    ghost predicate RetiredGone()
      reads this`runByOrigin, registry`sessions, registry`nextId
    {
      forall origin :: origin in runByOrigin ==> origin !in registry.sessions.vals && origin < registry.nextId
    }

    lemma ValidIff()
      ensures Valid() <==>
        && Owned() && queue.Valid() && assembler.Valid() && worker.Valid()
        && |maintenance.rejected| <= inputCapacity && |maintenance.expired| <= sessionCapacity
        && Gone(runByOrigin.Keys, registry.sessions.vals.Keys, registry.nextId)
        && worker.live <= registry.sessions.vals.Keys
      ensures Owned() ==> queue.registry == registry && worker.registry == registry
    {
      hide ModelQueue.Valid, A.Reassembler.Valid, W.ResourceWorker.Valid;
    }

    /** The registry cancels a session's storage work whenever it drops one, so an attached worker lives on its sessions. */
    constructor (queue: ModelQueue, assembler: A.Reassembler, worker: W.ResourceWorker, inputCapacity: nat,
                 identityBytes: nat -> nat, runCapacity: nat, runByteCapacity: nat, resourceCapacity: nat)
      requires queue.Valid() && assembler.Valid() && worker.Valid() && worker.registry == queue.registry
      requires worker.live <= queue.registry.sessions.vals.Keys
      ensures Valid() && !closed && !busy && maintenance == Records([], []) && resourceRecords == []
      ensures this.queue == queue && this.assembler == assembler && this.worker == worker
    {
      hide ModelQueue.Valid, A.Reassembler.Valid, W.ResourceWorker.Valid;
      registry, this.queue, this.assembler, this.worker := queue.registry, queue, assembler, worker;
      this.inputCapacity, sessionCapacity := inputCapacity, queue.registry.cfg.rules.cacheMessages;
      this.identityBytes, this.runCapacity, this.runByteCapacity := identityBytes, runCapacity, runByteCapacity;
      runRecords, runByOrigin, runBytes, runInputs := [], map[], 0, 0;
      maintenance, closed, busy := Records([], []), false, false;
      this.resourceCapacity, resourceRecords := resourceCapacity, [];
    }

    /** Nothing any owner holds has changed. */
    twostate predicate Untouched()
      reads this, registry, queue, assembler, worker
    {
      && registry.Same()
      && queue.Untouched() && queue.steps == old(queue.steps) && queue.lastNow == old(queue.lastNow) && queue.closed == old(queue.closed)
      && assembler.Abstract() == old(assembler.Abstract())
      && worker.DeskSame()
      && maintenance == old(maintenance) && closed == old(closed) && busy == old(busy)
      && resourceRecords == old(resourceRecords)
    }

    /** The sessions and inputs the next deletion would remove. */
    function Preview(now: nat): Result<(seq<nat>, seq<Rejected>)>
      reads this, registry, queue
    {
      var _ :- registry.Clock(now);
      var expired := ExpiredSessions(registry.View(), now);
      var rejected :- queue.PreviewExpiry(Remaining(registry.View(), now), now);
      Ok((expired, rejected))
    }

    /** Why maintenance is refused, before anything is deleted. */
    function TickRefusal(now: nat): Option<Code>
      reads this, registry, queue, assembler, worker
    {
      var preview := Preview(now);
      if closed || busy then Some(State)
      else if preview.Err? then Some(preview.code)
      else if now < assembler.lastNow then Some(Schema)
      else if worker.Available() && worker.Clock(now).Err? then Some(worker.Clock(now).code)
      else if |maintenance.rejected| + |preview.value.1| > inputCapacity
              || |maintenance.expired| + |preview.value.0| > sessionCapacity then Some(BufferFull)
      else None
    }

    /** Maintenance took effect: exactly what the preview listed is gone and on record. */
    twostate predicate Ticked(now: nat)
      reads this, registry, queue, assembler, worker
    {
      && old(Preview(now)).Ok?
      && var preview := old(Preview(now)).value;
      && old(maintenance).expired <= maintenance.expired && old(maintenance).rejected <= maintenance.rejected
      && maintenance.expired == old(maintenance).expired + preview.0
      && multiset(maintenance.rejected) == multiset(old(maintenance).rejected) + multiset(preview.1)
      && registry.View() == Current(old(registry.View()), now) && registry.ledger == old(registry.ledger)
      && queue.pending == old(queue.pending).Select(Registered(registry.View())) && queue.steps == old(queue.steps)
      && queue.left == old(queue.left) + RejectedKeys(maintenance.rejected[|old(maintenance).rejected|..])
      && (forall k :: k in assembler.groups.vals <==>
            && k in old(assembler.groups).vals && now < old(assembler.groups).vals[k].deadline
            && A.Live(k, registry.sessions.vals.Keys))
      && (old(worker.Available()) ==> worker.live == registry.sessions.vals.Keys)
      && worker.View() == old(worker.View()) && worker.trail == old(worker.trail) && resourceRecords == old(resourceRecords)
    }

    /** All or nothing: either a check refuses and nothing has changed, or every deletion goes through. */
    method Tick(now: nat) returns (r: Result<Records>)
      requires Valid()
      modifies this, registry, queue, assembler, worker
      ensures Valid()
      ensures queue.entered == old(queue.entered) && old(queue.left) <= queue.left
      ensures registry.ledger == old(registry.ledger) && worker.trail == old(worker.trail)
      ensures old(TickRefusal(now)).Some? ==> r == Err(old(TickRefusal(now)).value) && Untouched()
      ensures old(TickRefusal(now)).None? ==> r == Ok(maintenance) && Ticked(now)
      ensures old(TickRefusal(now)).None? ==>
        NoneOverdue(now) && forall k :: k in queue.pending.vals ==> k.0 in registry.sessions.vals
    {
      hide ModelQueue.Valid, A.Reassembler.Valid, W.ResourceWorker.Valid, TickRefusal, Ticked;
      var refusal := TickRefusal(now);
      if refusal.Some? {
        return Err(refusal.value);
      }
      Commit(now);
      return Ok(maintenance);
    }

    method Commit(now: nat)
      requires Valid() && TickRefusal(now).None?
      modifies this, registry, queue, assembler, worker
      ensures Valid() && Ticked(now) && NoneOverdue(now)
      ensures queue.entered == old(queue.entered) && old(queue.left) <= queue.left
      ensures registry.ledger == old(registry.ledger) && worker.trail == old(worker.trail)
      ensures forall k :: k in queue.pending.vals ==> k.0 in registry.sessions.vals
    {
      hide ModelQueue.Valid, A.Reassembler.Valid, W.ResourceWorker.Valid, SessionRegistry.Valid, Current, ExpiredSessions, Picked,
        Stale, RejectedKeys, OrderedDict.Select, TickRefusal, Preview, W.ResourceWorker.View, SessionRegistry.View,
        W.ResourceWorker.Available;
      TickChecked(now);
      var expired, rejected := Purge(now);
      assert (maintenance.rejected + rejected)[|maintenance.rejected|..] == rejected;
      maintenance := Records(maintenance.expired + expired, maintenance.rejected + rejected);
      Refresh(now);
      CurrentLive(old(registry.View()), now);
      registry.PictureParts();
    }

    /** Drops what the remaining sessions no longer cover: their fragments, and their storage work. */
    method Refresh(now: nat)
      requires Owned() && queue.Valid() && assembler.Valid() && worker.Valid() && now >= assembler.lastNow
      requires worker.Available() ==> worker.Clock(now).Ok?
      requires worker.live <= registry.sessions.vals.Keys
      modifies assembler, worker`live, worker`lastNow
      ensures queue.Valid() && assembler.Valid() && worker.Valid()
      ensures worker.live <= registry.sessions.vals.Keys
      ensures worker.Available() == old(worker.Available())
      ensures worker.Available() ==> worker.live == registry.sessions.vals.Keys
      ensures worker.View() == old(worker.View())
      ensures forall k :: k in assembler.groups.vals <==>
        k in old(assembler.groups).vals && now < old(assembler.groups).vals[k].deadline
        && A.Live(k, registry.sessions.vals.Keys)
    {
      hide *;
      OwnedParts();
      queue.ValidParts();
      worker.DeskParts();
      worker.AvailableParts();
      SessionsInRange();
      SweepGroups(registry.sessions.vals.Keys, now);
      if worker.Available() {
        var synced := worker.Synchronize(registry.sessions.vals.Keys, now);
      }
      worker.DeskParts();
      worker.AvailableParts();
    }

    lemma TickChecked(now: nat)
      requires TickRefusal(now).None?
      ensures Preview(now).Ok? && !closed && !busy
      ensures |maintenance.rejected| + |Preview(now).value.1| <= inputCapacity
      ensures |maintenance.expired| + |Preview(now).value.0| <= sessionCapacity
      ensures now >= assembler.lastNow && (worker.Available() ==> worker.Clock(now).Ok?)
    {
      hide Preview;
    }

    /** Deletes the overdue sessions and their inputs; neither step can fail after the preview. */
    method Purge(now: nat) returns (expired: seq<nat>, rejected: seq<Rejected>)
      requires Owned() && queue.Valid() && worker.Valid() && Preview(now).Ok?
      modifies registry, queue, worker
      ensures queue.Valid() && worker.Valid()
      ensures queue.entered == old(queue.entered)
      ensures old(Preview(now)).Ok?
      ensures expired == old(Preview(now)).value.0
      ensures multiset(rejected) == multiset(old(Preview(now)).value.1) && |rejected| == |old(Preview(now)).value.1|
      ensures registry.View() == Current(old(registry.View()), now) && registry.ledger == old(registry.ledger)
      ensures registry.nextId == old(registry.nextId)
      ensures registry.sessions.vals.Keys <= old(registry.sessions).vals.Keys
      ensures old(worker.live) <= old(registry.sessions).vals.Keys ==> worker.live <= registry.sessions.vals.Keys
      ensures queue.pending == old(queue.pending).Select(Registered(registry.View())) && queue.steps == old(queue.steps)
      ensures queue.left == old(queue.left) + RejectedKeys(rejected)
      ensures forall k :: k in queue.pending.vals ==> k.0 in registry.sessions.vals
      ensures worker.View() == old(worker.View()) && worker.Available() == old(worker.Available())
      ensures worker.lastNow == old(worker.lastNow) && worker.trail == old(worker.trail)
    {
      hide ModelQueue.Valid, W.ResourceWorker.Valid, SessionRegistry.Valid, ModelQueue.Sound, W.ResourceWorker.Sound,
        W.ResourceWorker.Backed, Linked, Current, ExpiredSessions, StaleInputs, Ascending, StaleSessions, Picked, Stale, RejectedKeys,
        OrderedDict.Select, OrderedDict.Valid, LiveWriters, StoreInv, Remaining;
      queue.ValidParts();
      worker.ValidParts();
      RegistryFacts(now);
      queue.SoundPending();
      ghost var t := Current(registry.View(), now);
      RemovedAsPreviewed(queue.View(), t);
      assert Preview(now).value.1 == Stale(Picked(queue.pending.keys, queue.pending.vals, Unlisted(t.sessions.vals.Keys)));
      LinkedCurrent(registry.cfg, queue.View(), registry.View(), now);
      CurrentFewer(registry.View(), now);
      SessionsValid();
      ExpiredGone(registry.View(), now);
      var purged := registry.Expire(now);
      expired := purged.value;
      queue.ValidParts();
      worker.ValidParts();
      worker.CancelSessions(expired);
      worker.ValidParts();
      label cancelled:
      var removed := queue.Expire(now);
      rejected := removed.value;
      assert worker.Sound() == old@cancelled(worker.Sound());
      assert worker.Backed() == old@cancelled(worker.Backed());
      queue.ValidParts();
      worker.ValidParts();
      queue.SoundPending();
      OnlyRegistered(old(queue.pending), queue.pending, t);
    }

    lemma RegistryFacts(now: nat)
      requires registry.Valid()
      ensures Current(Current(registry.View(), now), now) == Current(registry.View(), now)
      ensures Remaining(registry.View(), now) == Current(registry.View(), now).sessions.vals.Keys
    {
      SessionsValid();
      RolledTables(registry.cfg, registry.View(), registry.nextId, registry.ledger, now);
      hide Inv, Config.Valid;
      PreviewedSessions(registry.View(), now);
    }

    lemma OnlyRegistered(before: OrderedDict<Key, Pending>, after: OrderedDict<Key, Pending>, t: Tables)
      requires after == before.Select(Registered(t)) && forall k :: k in after.vals ==> after.vals[k].key == k
      ensures forall k :: k in after.vals ==> k.0 in t.sessions.vals
    {
    }

    lemma SessionsInRange()
      requires registry.Valid()
      ensures forall sid :: sid in registry.sessions.vals ==> 1 <= sid <= U32_MAX
    {
      hide RecordsInv, LedgerInv;
    }

    lemma SessionsValid()
      requires registry.Valid()
      ensures registry.sessions.Valid()
    {
    }

    /** Forgets the fragments of sessions that are gone and of transfers whose time is up. */
    method SweepGroups(live: set<nat>, now: nat)
      requires assembler.Valid() && now >= assembler.lastNow && forall sid :: sid in live ==> 1 <= sid <= U32_MAX
      modifies assembler
      ensures assembler.Valid()
      ensures forall k :: k in assembler.groups.vals <==>
        k in old(assembler.groups).vals && now < old(assembler.groups).vals[k].deadline && A.Live(k, live)
    {
      hide R.Inv, R.Swept;
      var stale := assembler.DiscardInactive(live);
      ghost var mid := assembler.Abstract();
      R.SweptEffect(assembler.pol, mid, now);
      var expired := assembler.Expire(now);
    }

    // -------------------------------------------------------------- requests

    /** Whether a message of this kind may come from this peer now. */
    method Preauthorize(id: nat, sid: nat, binding: PeerBinding, now: nat) returns (r: Result<()>)
      requires Valid()
      modifies registry, worker`live
      ensures Valid() && registry.ledger == old(registry.ledger)
      ensures r.Ok? ==>
        registry.View() == Current(old(registry.View()), now) && PreAuthorized(registry.cfg, registry.View(), id, sid, binding).Ok?
      ensures old(NoneOverdue(now)) ==> NoneOverdue(now) && registry.sessions.vals == old(registry.sessions).vals
    {
      hide *;
      ValidIff();
      ghost var t, s, live := registry.View(), queue.View(), worker.live;
      ghost var sessions, next, before := registry.sessions.vals.Keys, registry.nextId, registry.Picture();
      var n := |registry.cancels|;
      queue.ValidParts();
      worker.ValidParts();
      SessionsValid();
      LiveKept(now);
      NoneOverdueIff(now);
      registry.PictureParts();
      r := registry.Preauthorize(id, sid, binding, now);
      registry.PictureParts();
      TrimmedParts(before, registry.Picture(), now);
      TrimmedKeeps(registry.cfg, s, t, registry.View(), registry.cancels[n..], live, now);
      StillGone(runByOrigin.Keys, sessions, next, registry.sessions.vals.Keys, registry.nextId);
      NoneOverdueIff(now);
      queue.ValidParts();
      worker.ValidParts();
      worker.CancelSessions(registry.cancels[n..]);
      ValidIff();
    }

    lemma NoneOverdueIff(now: nat)
      ensures NoneOverdue(now) <==> forall sid :: sid in registry.sessions.vals ==> now < registry.sessions.vals[sid].deadline
    {
    }

    /** Takes one fragment towards its message; sessions, inputs and storage notice nothing. */
    method Push(f: Fragment, binding: PeerBinding, now: nat, grant: Option<nat>) returns (r: R.Outcome)
      requires Valid()
      modifies assembler
      ensures Valid()
      ensures var admitted := R.Admitted(assembler.pol, R.Business(f), binding.channel, To36, true, grant);
        && (admitted.Err? ==> r == R.Rejected(admitted.code) && assembler.Abstract() == old(assembler.Abstract()))
        && (admitted.Ok? ==>
              && R.PieceOk(R.Business(f), admitted.value.1)
              && (assembler.Abstract(), r)
                   == R.PushAt(assembler.pol, old(assembler.Abstract()), R.Business(f), admitted.value.0, admitted.value.1, now))
    {
      hide *;
      ValidIff();
      r := assembler.Push(R.Business(f), binding.channel, To36, true, now, grant);
      ValidIff();
    }

    /** Stores session-layer feedback for an admitted request. */
    method RecordReplies(m: Message, replies: seq<Reply>, now: nat) returns (r: Result<()>)
      requires Valid()
      modifies registry, worker`live
      ensures Valid() && Trimmed(old(registry.Picture()), registry.Picture(), now)
    {
      hide ModelQueue.Valid, A.Reassembler.Valid, W.ResourceWorker.Valid, SessionRegistry.Valid, Linked, W.ResourceWorker.Sound,
        ModelQueue.Sound, W.ResourceWorker.Backed, Current, ExpiredSessions, Grows, OrderedDict.Valid;
      ghost var t, ledger := registry.View(), registry.ledger;
      var n := |registry.cancels|;
      queue.ValidParts();
      worker.ValidParts();
      SessionsValid();
      r := registry.RecordResponse(m, replies, now);
      TrimmedKeeps(registry.cfg, queue.View(), t, registry.View(), registry.cancels[n..], worker.live, now);
      ClaimsGrow(ledger, registry.ledger);
      queue.ValidParts();
      worker.ValidParts();
      worker.CancelSessions(registry.cancels[n..]);
    }

    /** Stores a model consumer's completion pair. */
    method RecordCompletion(owned: bool, serves: bool, m: Message, replies: seq<Reply>, now: nat) returns (r: Result<()>)
      requires Valid()
      modifies registry, worker`live
      ensures Valid() && Trimmed(old(registry.Picture()), registry.Picture(), now)
    {
      hide ModelQueue.Valid, A.Reassembler.Valid, W.ResourceWorker.Valid, SessionRegistry.Valid, Linked, W.ResourceWorker.Sound,
        ModelQueue.Sound, W.ResourceWorker.Backed, Current, ExpiredSessions, Grows, OrderedDict.Valid;
      ghost var t, ledger := registry.View(), registry.ledger;
      var n := |registry.cancels|;
      queue.ValidParts();
      worker.ValidParts();
      SessionsValid();
      r := registry.RecordCompletion(owned, serves, m, replies, now);
      TrimmedKeeps(registry.cfg, queue.View(), t, registry.View(), registry.cancels[n..], worker.live, now);
      ClaimsGrow(ledger, registry.ledger);
      queue.ValidParts();
      worker.ValidParts();
      worker.CancelSessions(registry.cancels[n..]);
    }

    /** Admits a request, replays its feedback or refuses it; a key admitted fresh is new to the whole run. */
    method Admit(m: Message, binding: PeerBinding, now: nat) returns (r: Result<Decision>)
      requires Valid()
      modifies registry, worker`live
      ensures Valid() && Grows(old(registry.ledger), registry.ledger)
      ensures registry.closed == old(registry.closed) && registry.nextId >= old(registry.nextId)
      ensures old(NoneOverdue(now)) ==> old(registry.sessions).vals.Keys <= registry.sessions.vals.Keys
      ensures r.Ok? && r.value.replay.None? ==>
        && FreshKey(m, r.value) !in old(registry.ledger).admissions
        && registry.ledger == Admitting(old(registry.ledger), FreshKey(m, r.value))
        && (m.id != OPEN ==> Admissible(registry.View(), m))
      ensures r.Err? || r.value.replay.Some? ==> registry.ledger == old(registry.ledger)
    {
      hide *;
      ValidIff();
      ghost var t, ledger, s := registry.View(), registry.ledger, queue.View();
      ghost var sessions, next, live := registry.sessions.vals.Keys, registry.nextId, worker.live;
      ghost var before := registry.Picture();
      var n := |registry.cancels|;
      queue.ValidParts();
      worker.ValidParts();
      SessionsValid();
      queue.PendingClaimed();
      QueueKeys();
      LiveKept(now);
      registry.ValidParts();
      registry.PictureParts();
      r := registry.Accept(m, binding, now);
      registry.PictureParts();
      if r.Ok? && r.value.replay.None? {
        AdmittedTrim(registry.cfg, s, t, next, ledger, m, binding, r.value, now, live);
      } else {
        TrimmedParts(before, registry.Picture(), now);
        TrimmedKeeps(registry.cfg, s, t, registry.View(), registry.cancels[n..], live, now);
      }
      StillGone(runByOrigin.Keys, sessions, next, registry.sessions.vals.Keys, registry.nextId);
      ClaimsGrow(ledger, registry.ledger);
      queue.ValidParts();
      worker.ValidParts();
      worker.CancelSessions(registry.cancels[n..]);
      ValidIff();
    }

    lemma QueueKeys()
      ensures queue.View().pending == queue.pending
    {
    }

    /** While no session is overdue, expiry takes none. */
    lemma LiveKept(now: nat)
      ensures NoneOverdue(now) ==> Current(registry.View(), now).sessions.vals == registry.sessions.vals
    {
      if NoneOverdue(now) {
        NothingExpires(registry.View(), now);
      }
    }

    /** Accepts a chunk for storage: its key was never submitted before. */
    method SubmitChunk(m: Message, binding: PeerBinding, now: nat, reply: Option<Reply>) returns (r: Result<D.Job>)
      requires Valid()
      modifies registry, worker, worker.budget
      ensures Valid() && Trimmed(old(registry.Picture()), registry.Picture(), now)
      ensures r.Ok? ==>
        && m.Key() !in old(worker.trail).submitted && m.Key() !in old(worker.jobs).vals && m.Key() in worker.jobs.vals
        && worker.trail == old(worker.trail).(submitted := old(worker.trail).submitted + [m.Key()])
      ensures r.Err? ==> worker.jobs == old(worker.jobs) && worker.trail == old(worker.trail)
    {
      hide *;
      ValidIff();
      ghost var t, ledger, s, live := registry.View(), registry.ledger, queue.View(), worker.live;
      ghost var sessions, next, before := registry.sessions.vals.Keys, registry.nextId, registry.Picture();
      var n := |registry.cancels|;
      queue.ValidParts();
      worker.ValidParts();
      SessionsValid();
      registry.PictureParts();
      r := worker.Submit(m, binding, now, reply);
      registry.PictureParts();
      TrimmedParts(before, registry.Picture(), now);
      TrimmedKeeps(registry.cfg, s, t, registry.View(), registry.cancels[n..], live, now);
      StillGone(runByOrigin.Keys, sessions, next, registry.sessions.vals.Keys, registry.nextId);
      ClaimsGrow(ledger, registry.ledger);
      queue.ValidParts();
      worker.ValidParts();
      worker.CancelSessions(registry.cancels[n..]);
      ValidIff();
    }

    /** Queues one input: its key was never queued before. */
    method EnqueueInput(m: Message, running: bool, now: nat, source: Option<Source>, lane: Option<Lane>)
        returns (r: Result<Pending>)
      requires Valid()
      modifies registry, queue, worker`live
      ensures Valid() && Trimmed(old(registry.Picture()), registry.Picture(), now)
      ensures queue.left == old(queue.left)
      ensures r.Ok? ==>
        && m.Key() !in old(queue.entered) && queue.entered == old(queue.entered) + [m.Key()]
        && queue.pending == old(queue.pending).Put(m.Key(), r.value)
      ensures r.Err? ==>
        queue.pending == old(queue.pending) && queue.entered == old(queue.entered) && queue.left == old(queue.left)
    {
      hide ModelQueue.Valid, A.Reassembler.Valid, W.ResourceWorker.Valid, SessionRegistry.Valid, Linked, W.ResourceWorker.Sound,
        ModelQueue.Sound, W.ResourceWorker.Backed, Current, ExpiredSessions, Grows, OrderedDict.Valid, Judge, Claimed,
        Claiming, AdmittedRecord;
      ghost var t, ledger, s := registry.View(), registry.ledger, queue.View();
      var n := |registry.cancels|;
      queue.ValidParts();
      worker.ValidParts();
      SessionsValid();
      r := queue.Enqueue(m, running, now, source, lane);
      TrimmedKeeps(registry.cfg, s, t, registry.View(), registry.cancels[n..], worker.live, now);
      ClaimsGrow(ledger, registry.ledger);
      queue.ValidParts();
      worker.ValidParts();
      worker.CancelSessions(registry.cancels[n..]);
    }

    /** Opens one model step: every input that leaves is returned once, ready or refused, and none as late. */
    method BeginStep(model: nat, step: nat, running: bool, now: nat) returns (r: Result<StepBatch>)
      requires Valid()
      modifies registry, queue, worker`live
      ensures Valid() && Trimmed(old(registry.Picture()), registry.Picture(), now) && queue.entered == old(queue.entered)
      ensures old(queue.left) <= queue.left
      ensures r.Ok? ==>
        && (forall p :: p in r.value.ready ==> p.model == model && p.targetStep == step)
        && (forall x :: x in r.value.rejected ==> x.code == StaleSession || x.code == Expired)
        && multiset(queue.left)
             == multiset(old(queue.left)) + multiset(KeysOf(r.value.ready)) + multiset(RejectedKeys(r.value.rejected))
      ensures r.Err? ==>
        queue.pending == old(queue.pending) && queue.entered == old(queue.entered) && queue.left == old(queue.left)
    {
      hide *;
      ValidIff();
      ghost var t, ledger, s := registry.View(), registry.ledger, queue.View();
      ghost var sessions, next, before := registry.sessions.vals.Keys, registry.nextId, registry.Picture();
      var n := |registry.cancels|;
      queue.ValidParts();
      worker.ValidParts();
      SessionsValid();
      registry.PictureParts();
      r := queue.BeginStep(model, step, running, now);
      registry.PictureParts();
      TrimmedParts(before, registry.Picture(), now);
      TrimmedKeeps(registry.cfg, s, t, registry.View(), registry.cancels[n..], worker.live, now);
      StillGone(runByOrigin.Keys, sessions, next, registry.sessions.vals.Keys, registry.nextId);
      ClaimsGrow(ledger, registry.ledger);
      queue.ValidParts();
      worker.ValidParts();
      worker.CancelSessions(registry.cancels[n..]);
      ValidIff();
    }

    // -------------------------------------------------------------- storage feedback

    /** No registered session is overdue. */
    ghost predicate NoneOverdue(now: nat)
      reads registry`sessions
    {
      forall sid :: sid in registry.sessions.vals ==> now < registry.sessions.vals[sid].deadline
    }

    /** Appends a storage result to its request's feedback; the owners of inputs and storage notice nothing. */
    method FinishReply(m: Message, reply: Reply, now: nat) returns (r: Result<()>)
      requires Valid() && NoneOverdue(now)
      modifies registry
      ensures Valid() && NoneOverdue(now) && Grows(old(registry.ledger), registry.ledger)
      ensures registry.sessions.vals == old(registry.sessions).vals
      ensures r.Err? ==> registry.ledger == old(registry.ledger)
      ensures r.Ok? ==> FeedbackConsistent(m, reply) && Published(old(registry.ledger), registry.ledger, m.Key(), reply)
    {
      hide ModelQueue.Valid, A.Reassembler.Valid, W.ResourceWorker.Valid, Linked, W.ResourceWorker.Sound, ModelQueue.Sound,
        W.ResourceWorker.Backed, Grows, Inv, Config.Valid, Publishing, Current, Finishable, WithResponses, ExpiredSessions,
        FeedbackConsistent;
      queue.ValidParts();
      worker.ValidParts();
      ghost var t := registry.View();
      ghost var before := registry.ledger;
      NothingExpires(t, now);
      r := registry.FinishResourceResponse(m, reply, now);
      if r.Ok? {
        FinishedParts(registry.cfg, t, m, reply, now, before, registry.View(), registry.ledger);
      }
      ClaimsGrow(before, registry.ledger);
      LinkedFewer(registry.cfg, queue.View(), t, queue.View(), registry.View());
      queue.ValidParts();
      worker.ValidParts();
    }

    /** Hands on one finished storage job: its reply is stored with its request or refused, and the job is released. */
    method FeedbackOne(k: Key, now: nat) returns (record: FeedbackRecord)
      requires Valid() && NoneOverdue(now) && k in worker.results.vals
      modifies registry, worker`results, worker`jobs, worker`pendingBytes, this`resourceRecords
      ensures Valid() && NoneOverdue(now) && Grows(old(registry.ledger), registry.ledger)
      ensures registry.sessions.vals.Keys == old(registry.sessions).vals.Keys
      ensures worker.View() == D.Released(old(worker.View()), k)
      ensures resourceRecords == old(resourceRecords) + [record] && record.outcome == old(worker.results).vals[k]
      ensures Handed(registry.cfg.rules, record, k, old(registry.ledger), registry.ledger)
      ensures record.reply.Some? ==>
        k.0 in old(registry.sessions).vals && record.reply.value.header.sequence == old(registry.sessions).vals[k.0].lastTx + 1
      ensures k.0 !in old(registry.sessions).vals ==> record.error == Some(StaleSession)
    {
      hide ModelQueue.Valid, A.Reassembler.Valid, W.ResourceWorker.Valid, SessionRegistry.Valid, Linked, W.ResourceWorker.Sound,
        ModelQueue.Sound, W.ResourceWorker.Backed, Grows, D.Released, FeedbackConsistent;
      OutcomeKey(k);
      var outcome := worker.results.vals[k];
      var m := outcome.request;
      GrowsSelf(registry.ledger);
      record := FeedbackRecord(outcome, None, Some(StaleSession));
      if m.header.sessionId in registry.sessions.vals {
        var sequence := NextSequence(m.header.sessionId);
        if sequence.Err? {
          record := FeedbackRecord(outcome, None, Some(sequence.code));
        } else {
          var reply := ReplyFor(registry.cfg.rules, outcome, sequence.value);
          var finished := FinishReply(m, reply, now);
          record := if finished.Ok? then FeedbackRecord(outcome, Some(reply), None)
                    else FeedbackRecord(outcome, None, Some(finished.code));
        }
      }
      resourceRecords := resourceRecords + [record];
      var released := ReleaseOutcome(k);
    }

    method ReleaseOutcome(k: Key) returns (r: Result<()>)
      requires Valid() && k in worker.results.vals
      modifies worker`results, worker`jobs, worker`pendingBytes
      ensures Valid() && r.Ok? && worker.View() == D.Released(old(worker.View()), k)
    {
      hide ModelQueue.Valid, A.Reassembler.Valid, W.ResourceWorker.Valid, SessionRegistry.Valid, D.Released;
      r := worker.ReleaseResult(k);
    }

    /** Maintenance, then every finished storage job in order while there is room for its record. */
    method ResourceFeedback(now: nat) returns (r: Result<seq<Reply>>)
      requires Valid()
      modifies this, registry, queue, assembler, worker
      ensures Valid()
      ensures queue.entered == old(queue.entered) && old(queue.left) <= queue.left && worker.trail == old(worker.trail)
      ensures Grows(old(registry.ledger), registry.ledger)
      ensures old(TickRefusal(now)).Some? ==> r == Err(old(TickRefusal(now)).value) && Untouched()
      ensures old(TickRefusal(now)).None? ==> r.Ok? && worker.trail == old(worker.trail)
      ensures r.Ok? ==> Served(old(resourceRecords), resourceRecords, old(worker.results), worker.results.vals, resourceCapacity)
      ensures r.Ok? ==> r.value == RepliesOf(resourceRecords[|old(resourceRecords)|..])
    {
      hide ModelQueue.Valid, A.Reassembler.Valid, W.ResourceWorker.Valid, SessionRegistry.Valid, TickRefusal, Linked, Current, Preview,
        RejectedKeys, OrderedDict.Select, Served, RepliesOf;
      var ticked := Tick(now);
      if ticked.Err? {
        return Err(ticked.code);
      }
      var replies := HandOn(now);
      return Ok(replies);
    }

    /** Hands on the finished storage jobs in order while there is room for their records. */
    method HandOn(now: nat) returns (replies: seq<Reply>)
      requires Valid() && NoneOverdue(now)
      modifies registry, worker`results, worker`jobs, worker`pendingBytes, this`resourceRecords
      ensures Valid()
      ensures Grows(old(registry.ledger), registry.ledger)
      ensures Served(old(resourceRecords), resourceRecords, old(worker.results), worker.results.vals, resourceCapacity)
      ensures old(resourceRecords) <= resourceRecords && replies == RepliesOf(resourceRecords[|old(resourceRecords)|..])
    {
      hide ModelQueue.Valid, A.Reassembler.Valid, W.ResourceWorker.Valid, SessionRegistry.Valid, Grows, D.Released, Handed, Valid,
        NoneOverdue, RepliesOf, Taken, OrderedDict.Valid, W.ResourceWorker.View, SessionRegistry.View;
      ghost var base, start := resourceRecords, worker.results;
      ResultsListed();
      GrowsSelf(registry.ledger);
      var keys := worker.results.keys;
      replies := [];
      NothingTaken(start, base);
      var i := 0;
      while i < |keys| && |resourceRecords| < resourceCapacity
        invariant i <= |keys| && Valid() && NoneOverdue(now)
        invariant HandedOn(base, resourceRecords, start, i)
        invariant worker.results.vals == start.vals - Taken(keys, i)
        invariant replies == RepliesOf(resourceRecords[|base|..])
        invariant Grows(old(registry.ledger), registry.ledger)
      {
        StillThere(start, i);
        ghost var grown := registry.ledger;
        ghost var before, desk := resourceRecords, worker.View();
        DeskResults();
        var record := FeedbackOne(keys[i], now);
        DeskResults();
        ReleasedResults(desk, keys[i]);
        assert resourceRecords[|base|..] == before[|base|..] + [record];
        RepliesMore(before[|base|..], record);
        replies := if record.reply.Some? then replies + [record.reply.value] else replies;
        TakenMore(keys, i);
        W.GrowsTwice(old(registry.ledger), grown, registry.ledger);
        i := i + 1;
      }
      LeftOver(start, i);
    }

    lemma DeskResults()
      ensures worker.View().results == worker.results
    {
    }

    lemma ResultsListed()
      requires Valid()
      ensures worker.results.Valid()
    {
      hide *;
      WorkerSound();
      ResultsValid(worker.View());
    }

    lemma OutcomeKey(k: Key)
      requires Valid() && k in worker.results.vals
      ensures worker.results.vals[k].request.Key() == k && worker.results.vals[k].payload.Progress?
      ensures forall sequence: nat ::
        FeedbackConsistent(worker.results.vals[k].request, ReplyFor(registry.cfg.rules, worker.results.vals[k], sequence))
    {
      hide *;
      WorkerSound();
      OutcomeFacts(registry.cfg.rules, worker.View(), k);
    }

    lemma WorkerSound()
      requires Valid()
      ensures D.DeskInv(worker.View()) && worker.View().results == worker.results
    {
      hide ModelQueue.Valid, A.Reassembler.Valid, D.DeskInv, D.TrailInv, W.ResourceWorker.Backed, Total;
      worker.ValidParts();
    }

    // -------------------------------------------------------------- the storage thread

    /** One step of the storage thread: the owners of sessions, inputs and fragments notice nothing. */
    method StorageStep(now: nat, disk: T.Disk, failure: Option<Code>)
      requires Valid()
      modifies worker`phase, worker`queue, worker`results, worker`uploadSessions, worker`drain, worker`fatal, worker`trail,
        worker.store
      ensures Valid()
      ensures worker.trail.submitted == old(worker.trail).submitted && old(worker.trail).answered <= worker.trail.answered
    {
      hide *;
      ValidIff();
      worker.Advance(now, disk, failure);
      ValidIff();
    }

    /** A caller asks for the records of aborted uploads, or takes them once the storage thread has handed them over. */
    method DrainStorage() returns (r: Result<seq<T.Aborted>>)
      requires Valid()
      modifies worker`drain
      ensures Valid()
      ensures r.Ok? && r.value != [] ==> old(worker.drain).Done? && r.value == old(worker.drain).records && worker.drain == D.NoDrain
      ensures r.Err? ==> r == Err(State) && worker.drain == old(worker.drain)
    {
      hide *;
      ValidIff();
      if worker.drain.Done? {
        var records := worker.TakeDrained();
        ValidIff();
        return Ok(records);
      }
      var requested := worker.RequestDrain();
      ValidIff();
      return if requested.Err? then Err(State) else Ok([]);
    }

    // -------------------------------------------------------------- retirement

    /** Ends one session everywhere: registration, queued inputs, fragments, storage work. */
    method RetireSession(sid: nat) returns (removed: seq<Pending>)
      requires Owned() && queue.Valid() && assembler.Valid() && worker.Valid() && !registry.closed
      modifies registry, queue, assembler, worker
      ensures queue.Valid() && assembler.Valid() && worker.Valid() && !registry.closed
      ensures queue.entered == old(queue.entered) && worker.trail == old(worker.trail)
      ensures removed == Picked(old(queue.pending).keys, old(queue.pending).vals, OfSession(sid))
      ensures registry.sessions == old(registry.sessions).Delete(sid)
      ensures registry.opens == old(registry.opens) && registry.records == old(registry.records)
      ensures registry.ledger == old(registry.ledger) && registry.lastNow == old(registry.lastNow)
      ensures registry.nextId == old(registry.nextId)
      ensures queue.pending == old(queue.pending).Select(Except(OfSession(sid))) && queue.steps == old(queue.steps)
      ensures queue.left == old(queue.left) + KeysOf(removed)
      ensures A.Remaining(old(assembler.Abstract()), assembler.Abstract(), {sid})
      ensures assembler.lastNow == old(assembler.lastNow)
      ensures worker.View() == old(worker.View()) && worker.lastNow == old(worker.lastNow)
      ensures old(worker.live) <= old(registry.sessions).vals.Keys ==> worker.live <= registry.sessions.vals.Keys
    {
      hide *;
      OwnedParts();
      worker.DeskParts();
      queue.ValidParts();
      worker.ValidParts();
      SessionsInRange();
      DeletedSession(registry.sessions, sid);
      registry.PictureParts();
      queue.ViewParts();
      ghost var before, t := queue.View(), registry.View();
      var revoked := registry.Revoke(sid);
      registry.PictureParts();
      LinkedRevoked(registry.cfg, before, t, registry.View(), sid);
      queue.ValidParts();
      worker.ValidParts();
      if 1 <= sid <= U32_MAX {
        worker.CancelSession(sid);
      }
      worker.ValidParts();
      label revoked:
      removed := queue.DiscardSession(sid);
      queue.ViewParts();
      LinkedDiscarded(registry.cfg, before, registry.View(), queue.View(), sid);
      queue.ValidParts();
      assert worker.Sound() == old@revoked(worker.Sound()) && worker.Backed() == old@revoked(worker.Backed());
      worker.ValidParts();
      assembler.DiscardSession(sid);
      OwnedParts();
      worker.DeskParts();
    }

    lemma OwnedParts()
      ensures Owned() <==> queue.registry == registry && worker.registry == registry
    {
    }

    /** Ends one session on request. */
    method EndSession(sid: nat) returns (r: Result<seq<Pending>>)
      requires Valid()
      modifies registry, queue, assembler, worker
      ensures Valid()
      ensures queue.entered == old(queue.entered) && old(queue.left) <= queue.left
      ensures registry.ledger == old(registry.ledger) && worker.trail == old(worker.trail)
      ensures r.Err? <==> closed || busy || old(registry.closed) || !(1 <= sid <= U32_MAX)
      ensures r.Err? ==> Untouched()
      ensures r.Ok? ==>
        && r.value == Picked(old(queue.pending).keys, old(queue.pending).vals, OfSession(sid))
        && queue.left == old(queue.left) + KeysOf(r.value)
        && sid !in registry.sessions.vals && registry.ledger == old(registry.ledger)
    {
      hide ModelQueue.Valid, A.Reassembler.Valid, W.ResourceWorker.Valid, SessionRegistry.Valid, Picked, KeysOf,
        OrderedDict.Select, A.Remaining, A.Reassembler.Abstract;
      if closed || busy || registry.closed {
        return Err(State);
      }
      if !(1 <= sid <= U32_MAX) {
        return Err(Schema);
      }
      var removed := RetireSession(sid);
      return Ok(removed);
    }

    /** Revokes a session in the registry alone: its queued inputs and fragments stay behind. */
    method RevokeAlone(sid: nat) returns (r: Result<()>)
      requires Valid()
      modifies registry, worker`live
      ensures Valid()
      ensures r.Ok? <==> !old(registry.closed)
      ensures registry.sessions == if r.Ok? then old(registry.sessions).Delete(sid) else old(registry.sessions)
      ensures registry.ledger == old(registry.ledger)
    {
      hide *;
      ValidIff();
      queue.ValidParts();
      worker.ValidParts();
      SessionsInRange();
      DeletedSession(registry.sessions, sid);
      registry.PictureParts();
      ghost var t, sessions, next := registry.View(), registry.sessions.vals.Keys, registry.nextId;
      r := registry.Revoke(sid);
      registry.PictureParts();
      if r.Ok? {
        LinkedRevoked(registry.cfg, queue.View(), t, registry.View(), sid);
      }
      StillGone(runByOrigin.Keys, sessions, next, registry.sessions.vals.Keys, registry.nextId);
      queue.ValidParts();
      worker.ValidParts();
      if r.Ok? && 1 <= sid <= U32_MAX {
        worker.CancelSession(sid);
      }
      ValidIff();
    }

    /** Closes every owner: each input still queued is returned once, and no session or fragment is left. */
    method Close() returns (removed: seq<Pending>)
      requires Valid()
      modifies this`closed, registry, queue, assembler, worker`closing, worker`live
      ensures Valid() && closed
      ensures old(closed) ==> removed == [] && queue.pending == old(queue.pending) && queue.left == old(queue.left)
      ensures !old(closed) ==>
        && removed == Picked(old(queue.pending).keys, old(queue.pending).vals, Everything())
        && queue.left == old(queue.left) + KeysOf(removed)
        && queue.pending == Empty() && queue.closed && registry.closed && worker.closing
        && assembler.groups == Empty()
      ensures registry.ledger == old(registry.ledger) && queue.entered == old(queue.entered)
    {
      hide *;
      if closed {
        return [];
      }
      ValidIff();
      ghost var sessions, next, live := registry.sessions.vals.Keys, registry.nextId, worker.live;
      removed := queue.Close();
      queue.ValidParts();
      worker.ValidParts();
      registry.PictureParts();
      ghost var t := registry.View();
      registry.Close();
      registry.PictureParts();
      ClosedTables(registry.cfg, queue.View(), t, registry.View());
      StillGone(runByOrigin.Keys, sessions, next, registry.sessions.vals.Keys, registry.nextId);
      queue.ValidParts();
      worker.ValidParts();
      worker.BeginClose();
      assembler.Clear();
      AbstractGroups();
      closed := true;
      ValidIff();
    }

    /** Why a run is not retired, in the order of the checks; nothing is deleted before all of them pass. */
    function RunRefusal(origin: nat, now: nat): Option<Code>
      reads this, registry, queue, assembler, worker
    {
      if closed || busy then Some(State)
      else if !(1 <= origin <= U32_MAX) || now > U64_MAX then Some(Schema)
      else if registry.Clock(now).Err? then Some(registry.Clock(now).code)
      else if now < assembler.lastNow then Some(Schema)
      else if queue.Clock(now).Err? then Some(queue.Clock(now).code)
      else if worker.Clock(now).Err? then Some(worker.Clock(now).code)
      else if origin in runByOrigin then None
      else if origin !in registry.sessions.vals || now >= registry.sessions.vals[origin].deadline
              || registry.sessions.vals[origin].grant >= |registry.cfg.grants| then Some(StaleSession)
      else
        var captured := Capture(origin, now);
        if Overfull(captured) then Some(BufferFull) else None
    }

    /** A run's evidence does not fit beside what is already kept. */
    predicate Overfull(captured: RunRetirement)
      reads this`runRecords, this`runBytes, this`runInputs
    {
      || |runRecords| >= runCapacity
      || runBytes + RecordBytes(captured) > runByteCapacity
      || runInputs + |captured.captured| > inputCapacity
    }

    /** The evidence of a run, taken before anything is deleted. */
    function Capture(origin: nat, now: nat): RunRetirement
      requires origin in registry.sessions.vals && registry.sessions.vals[origin].grant < |registry.cfg.grants|
      reads registry`sessions, registry`opens, registry`records, queue`pending, assembler`groups
    {
      var selected := RunSessions(registry.cfg, registry.View(), origin);
      RunRetirement(origin, registry.cfg.grants[registry.sessions.vals[origin].grant].identity, now, selected, [],
                    Picked(queue.pending.keys, queue.pending.vals, Inside(selected)), [],
                    GroupsOf(assembler.groups.keys, assembler.groups.vals, selected), [], None)
    }

    function RecordBytes(record: RunRetirement): nat
    {
      512 + identityBytes(record.identity) + 64 * |record.selected| + InputBytes(record.captured) + GroupBytes(record.groups)
    }

    /** A run's sessions, inputs and fragments are gone, all of them captured, and nothing else is. */
    twostate predicate RunGone(origin: nat, now: nat, record: RunRetirement)
      reads this, registry, queue, assembler, worker
    {
      && origin in old(registry.sessions).vals && old(registry.sessions).vals[origin].grant < |registry.cfg.grants|
      && var captured := old(Capture(origin, now));
      && record == captured.(retired := captured.selected, discarded := captured.captured, dropped := captured.groups)
      && runRecords == old(runRecords) + [record]
      && runByOrigin == old(runByOrigin)[origin := record]
      && registry.sessions.vals == old(registry.sessions).vals - Elements(captured.selected)
      && registry.records == old(registry.records) && registry.ledger == old(registry.ledger)
      && queue.pending == old(queue.pending).Select(Outside(captured.selected)) && queue.steps == old(queue.steps)
      && A.Remaining(old(assembler.Abstract()), assembler.Abstract(), Elements(captured.selected))
      && registry.lastNow == now && !busy
    }

    /** Retires a whole run: once its checks pass, the cleanup always completes. */
    method RetireRun(origin: nat, now: nat) returns (r: Result<RunRetirement>)
      requires Valid()
      modifies this`busy, this`runRecords, this`runByOrigin, this`runBytes, this`runInputs, registry, queue, assembler, worker
      ensures Valid() && closed == old(closed)
      ensures queue.entered == old(queue.entered) && old(queue.left) <= queue.left && worker.trail == old(worker.trail)
      ensures registry.ledger == old(registry.ledger)
      ensures old(RunRefusal(origin, now)).Some? ==> r == Err(old(RunRefusal(origin, now)).value) && Untouched()
      ensures old(RunRefusal(origin, now)).None? && origin in old(runByOrigin) ==>
        r == Ok(old(runByOrigin)[origin]) && registry.View() == old(registry.View()) && queue.View() == old(queue.View())
      ensures old(RunRefusal(origin, now)).None? && origin !in old(runByOrigin) ==> r.Ok? && RunGone(origin, now, r.value)
    {
      hide ModelQueue.Valid, A.Reassembler.Valid, W.ResourceWorker.Valid, SessionRegistry.Valid, RunRefusal, Capture, Inside,
        RecordBytes, Picked, GroupsOf, OrderedDict.Select, A.Remaining;
      var refusal := RunRefusal(origin, now);
      if refusal.Some? {
        return Err(refusal.value);
      }
      RunChecked(origin, now);
      AdvanceClock(now);
      if origin in runByOrigin {
        return Ok(runByOrigin[origin]);
      }
      var record := Retire(origin, now);
      return Ok(record);
    }

    /** The cleanup of a run whose checks have passed. */
    method Retire(origin: nat, now: nat) returns (record: RunRetirement)
      requires Valid() && !registry.closed && registry.lastNow == now && !busy
      requires origin in registry.sessions.vals && registry.sessions.vals[origin].grant < |registry.cfg.grants|
      modifies this`busy, this`runRecords, this`runByOrigin, this`runBytes, this`runInputs, registry, queue, assembler, worker
      ensures Valid() && closed == old(closed)
      ensures queue.entered == old(queue.entered) && old(queue.left) <= queue.left && worker.trail == old(worker.trail)
      ensures RunGone(origin, now, record)
    {
      hide ModelQueue.Valid, A.Reassembler.Valid, W.ResourceWorker.Valid, SessionRegistry.Valid, Capture, Inside, RecordBytes, Picked,
        GroupsOf, OrderedDict.Select, A.Remaining, Elements, NoDup, A.Reassembler.Abstract, GoneSessions, GoneInputs, GoneGroups,
        RunSessions;
      var captured := Capture(origin, now);
      CaptureParts(origin, now);
      PendingKeys();
      AbstractGroups();
      busy := true;
      OriginSelected(origin);
      ClearRun(captured.selected);
      GoneElements(captured.selected, old(registry.sessions).vals);
      AllGone(captured, registry.sessions, queue.pending, assembler.Abstract(), old(queue.pending), old(assembler.Abstract()));
      AbstractGroups();
      record := captured.(retired := GoneSessions(captured.selected, registry.sessions.vals),
                          discarded := GoneInputs(captured.captured, queue.pending.vals),
                          dropped := GoneGroups(captured.groups, assembler.groups.vals));
      runRecords := runRecords + [record];
      runByOrigin := runByOrigin[origin := record];
      runBytes := runBytes + RecordBytes(captured);
      runInputs := runInputs + |captured.captured|;
      busy := false;
    }

    lemma OriginSelected(origin: nat)
      requires Valid() && origin in registry.sessions.vals && registry.sessions.vals[origin].grant < |registry.cfg.grants|
      ensures origin in Elements(RunSessions(registry.cfg, registry.View(), origin)) && origin < registry.nextId
    {
      hide ModelQueue.Valid, A.Reassembler.Valid, W.ResourceWorker.Valid;
      queue.ValidParts();
      SessionsValid();
    }

    lemma AbstractGroups()
      ensures assembler.Abstract().groups == assembler.groups
    {
    }

    /** Raises the registry's clock floor; no other owner notices. */
    method AdvanceClock(now: nat)
      requires Valid() && registry.Clock(now).Ok?
      modifies registry`lastNow
      ensures Valid() && registry.lastNow == now
    {
      hide ModelQueue.Valid, A.Reassembler.Valid, W.ResourceWorker.Valid, SessionRegistry.Valid, Linked, W.ResourceWorker.Sound,
        ModelQueue.Sound, W.ResourceWorker.Backed;
      queue.ValidParts();
      worker.ValidParts();
      registry.Advance(now);
      queue.ValidParts();
      worker.ValidParts();
    }

    /** Observes an admitted request live; only the registry's clock floor moves. */
    method ObserveAdmitted(m: Message, now: nat) returns (r: Result<nat>)
      requires Valid()
      modifies registry`lastNow
      ensures Valid()
      ensures r.Ok? ==> registry.lastNow == now && Observed(registry.View(), m, now).Ok? && !registry.closed
      ensures r.Ok? ==> r.value == Observed(registry.View(), m, now).value.received
    {
      hide ModelQueue.Valid, A.Reassembler.Valid, W.ResourceWorker.Valid, SessionRegistry.Valid, Linked, W.ResourceWorker.Sound,
        ModelQueue.Sound, W.ResourceWorker.Backed, Observed;
      queue.ValidParts();
      worker.ValidParts();
      r := registry.ObserveAdmitted(m, now);
      queue.ValidParts();
      worker.ValidParts();
    }

    /** Takes the next feedback sequence of a session; nothing else about the session changes. */
    method NextSequence(sid: nat) returns (r: Result<nat>)
      requires Valid()
      modifies registry`sessions
      ensures Valid()
      ensures r.Ok? ==>
        sid in old(registry.sessions).vals && r.value == old(registry.sessions).vals[sid].lastTx + 1 <= U32_MAX
      ensures registry.sessions.keys == old(registry.sessions).keys && registry.sessions.vals.Keys == old(registry.sessions).vals.Keys
      ensures forall x :: x in registry.sessions.vals ==>
        registry.sessions.vals[x] == old(registry.sessions).vals[x].(lastTx := registry.sessions.vals[x].lastTx)
    {
      hide ModelQueue.Valid, A.Reassembler.Valid, W.ResourceWorker.Valid, SessionRegistry.Valid, Linked, W.ResourceWorker.Sound,
        ModelQueue.Sound, W.ResourceWorker.Backed;
      queue.ValidParts();
      worker.ValidParts();
      ghost var t := registry.View();
      r := registry.NextFeedbackSequence(sid);
      LinkedFewer(registry.cfg, queue.View(), t, queue.View(), registry.View());
      queue.ValidParts();
      worker.ValidParts();
    }

    /** Stores a lifecycle operation's pair for its retained request; the sessions stay as they are. */
    method RecordLifecycle(owned: bool, m: Message, replies: seq<Reply>, now: nat) returns (r: Result<()>)
      requires Valid()
      modifies registry
      ensures Valid() && Grows(old(registry.ledger), registry.ledger)
      ensures registry.sessions == old(registry.sessions)
      ensures r.Err? ==> registry.ledger == old(registry.ledger)
      ensures r.Ok? ==> registry.ledger == Publishing(old(registry.ledger), m.Key(), replies)
      ensures r.Ok? <==>
        (owned && old(registry.Clock(now)).Ok? && LifecycleCompletable(registry.cfg, old(registry.View()), m, replies).Ok?)
    {
      hide ModelQueue.Valid, A.Reassembler.Valid, W.ResourceWorker.Valid, SessionRegistry.Valid, Linked, W.ResourceWorker.Sound,
        ModelQueue.Sound, W.ResourceWorker.Backed, Grows, Inv, Config.Valid, Publishing, LifecycleCompletable, WithResponses;
      ghost var t, ledger := registry.View(), registry.ledger;
      queue.ValidParts();
      worker.ValidParts();
      r := registry.RecordLifecycle(owned, m, replies, now);
      LinkedFewer(registry.cfg, queue.View(), t, queue.View(), registry.View());
      ClaimsGrow(ledger, registry.ledger);
      queue.ValidParts();
      worker.ValidParts();
    }

    /** Discards the selected sessions' inputs and fragments; the sessions stay. */
    method ClearInputs(selected: seq<nat>)
      requires Valid() && NoDup(selected)
      modifies queue, assembler
      ensures Valid()
      ensures queue.entered == old(queue.entered) && old(queue.left) <= queue.left
      ensures queue.pending == old(queue.pending).Select(Outside(selected)) && queue.steps == old(queue.steps)
      ensures A.Remaining(old(assembler.Abstract()), assembler.Abstract(), Elements(selected))
    {
      hide *;
      ValidParts();
      queue.ValidParts();
      queue.SoundPending();
      NothingRetired(old(queue.pending), old(assembler.Abstract()));
      NoElements(old(registry.sessions).vals);
      for i := 0 to |selected|
        invariant Valid()
        invariant queue.pending == old(queue.pending).Select(Outside(selected[..i])) && queue.steps == old(queue.steps)
        invariant A.Remaining(old(assembler.Abstract()), assembler.Abstract(), Elements(selected[..i]))
        invariant queue.entered == old(queue.entered) && old(queue.left) <= queue.left
      {
        var sid := selected[i];
        DistinctPrefix(selected, i);
        ghost var mid := assembler.Abstract();
        StaleNext(old(queue.pending), map[], selected[..i], sid);
        DiscardInputs(sid);
        A.RemainingMore(old(assembler.Abstract()), mid, assembler.Abstract(), Elements(selected[..i]), sid);
        ElementsNext(selected, i);
      }
      assert selected[..|selected|] == selected;
    }

    lemma ValidParts()
      ensures Valid() ==> Owned() && queue.Valid() && assembler.Valid() && worker.Valid() && registry.Valid()
    {
    }

    method DiscardInputs(sid: nat)
      requires Valid()
      modifies queue, assembler
      ensures Valid()
      ensures queue.entered == old(queue.entered) && old(queue.left) <= queue.left
      ensures queue.pending == old(queue.pending).Select(Except(OfSession(sid))) && queue.steps == old(queue.steps)
      ensures A.Remaining(old(assembler.Abstract()), assembler.Abstract(), {sid})
    {
      hide ModelQueue.Valid, A.Reassembler.Valid, W.ResourceWorker.Valid, SessionRegistry.Valid, ModelQueue.Sound,
        W.ResourceWorker.Sound, W.ResourceWorker.Backed, Linked, Picked, OrderedDict.Select, OtherWriters, R.Discarded, A.Remaining,
        KeysOf;
      queue.ValidParts();
      worker.ValidParts();
      ghost var before := queue.View();
      label start:
      var removed := queue.DiscardSession(sid);
      LinkedDiscarded(registry.cfg, before, registry.View(), queue.View(), sid);
      queue.ValidParts();
      assert worker.Sound() == old@start(worker.Sound()) && worker.Backed() == old@start(worker.Backed());
      worker.ValidParts();
      assembler.DiscardSession(sid);
    }

    /** Moves a model's step past which no registered session's input lies. */
    method MoveStep(model: nat, step: nat)
      requires Valid() && model in queue.steps
      requires forall k :: k in queue.pending.vals && k.0 in registry.sessions.vals && queue.pending.vals[k].model == model ==>
        queue.pending.vals[k].targetStep > step
      modifies queue`steps
      ensures Valid() && queue.steps == old(queue.steps)[model := step]
    {
      hide ModelQueue.Valid, A.Reassembler.Valid, W.ResourceWorker.Valid;
      queue.MoveStep(model, step);
    }

    /** Ends the selected sessions one after another. */
    method ClearRun(selected: seq<nat>)
      requires Owned() && queue.Valid() && assembler.Valid() && worker.Valid() && !registry.closed && NoDup(selected)
      modifies registry, queue, assembler, worker
      ensures queue.Valid() && assembler.Valid() && worker.Valid()
      ensures queue.entered == old(queue.entered) && old(queue.left) <= queue.left && worker.trail == old(worker.trail)
      ensures registry.sessions.vals == old(registry.sessions).vals - Elements(selected)
      ensures registry.opens == old(registry.opens) && registry.records == old(registry.records)
      ensures registry.ledger == old(registry.ledger) && registry.lastNow == old(registry.lastNow)
      ensures registry.nextId == old(registry.nextId)
      ensures queue.pending == old(queue.pending).Select(Outside(selected)) && queue.steps == old(queue.steps)
      ensures A.Remaining(old(assembler.Abstract()), assembler.Abstract(), Elements(selected))
      ensures assembler.lastNow == old(assembler.lastNow)
      ensures old(worker.live) <= old(registry.sessions).vals.Keys ==> worker.live <= registry.sessions.vals.Keys
    {
      hide *;
      queue.ValidParts();
      queue.SoundPending();
      NothingRetired(old(queue.pending), old(assembler.Abstract()));
      NoElements(old(registry.sessions).vals);
      for i := 0 to |selected|
        invariant queue.Valid() && assembler.Valid() && worker.Valid() && !registry.closed
        invariant registry.sessions.vals == old(registry.sessions).vals - Elements(selected[..i])
        invariant registry.opens == old(registry.opens) && registry.records == old(registry.records)
        invariant registry.ledger == old(registry.ledger) && registry.lastNow == old(registry.lastNow)
        invariant registry.nextId == old(registry.nextId)
        invariant queue.pending == old(queue.pending).Select(Outside(selected[..i])) && queue.steps == old(queue.steps)
        invariant A.Remaining(old(assembler.Abstract()), assembler.Abstract(), Elements(selected[..i]))
        invariant assembler.lastNow == old(assembler.lastNow)
        invariant old(worker.live) <= old(registry.sessions).vals.Keys ==> worker.live <= registry.sessions.vals.Keys
        invariant queue.entered == old(queue.entered) && old(queue.left) <= queue.left && worker.trail == old(worker.trail)
      {
        var sid := selected[i];
        DistinctPrefix(selected, i);
        ghost var mid := assembler.Abstract();
        ghost var sessions := registry.sessions;
        StaleNext(old(queue.pending), map[], selected[..i], sid);
        var removed := RetireSession(sid);
        DeletedSession(sessions, sid);
        A.RemainingMore(old(assembler.Abstract()), mid, assembler.Abstract(), Elements(selected[..i]), sid);
        ElementsNext(selected, i);
      }
      assert selected[..|selected|] == selected;
    }

    lemma PendingKeys()
      requires queue.Valid()
      ensures forall k :: k in queue.pending.vals ==> queue.pending.vals[k].key == k
    {
      queue.ValidParts();
      queue.SoundPending();
    }

    lemma NothingRetired(pending: OrderedDict<Key, Pending>, s: R.Assembly)
      requires pending.Valid()
      ensures pending.Select(Outside([])) == pending && A.Remaining(s, s, {})
    {
      SelectAll(pending, Outside([]));
    }

    lemma RunChecked(origin: nat, now: nat)
      requires Valid() && RunRefusal(origin, now).None?
      ensures registry.Clock(now).Ok? && !busy
      ensures origin !in runByOrigin ==>
        origin in registry.sessions.vals && registry.sessions.vals[origin].grant < |registry.cfg.grants|
    {
      hide ModelQueue.Valid, A.Reassembler.Valid, W.ResourceWorker.Valid, Capture, RecordBytes;
    }

    lemma CaptureParts(origin: nat, now: nat)
      requires Valid()
      requires origin in registry.sessions.vals && registry.sessions.vals[origin].grant < |registry.cfg.grants|
      ensures var c := Capture(origin, now);
        && c.selected == RunSessions(registry.cfg, registry.View(), origin) && NoDup(c.selected)
        && c.captured == Picked(queue.pending.keys, queue.pending.vals, Inside(c.selected))
        && c.groups == GroupsOf(assembler.groups.keys, assembler.groups.vals, c.selected)
    {
      hide A.Reassembler.Valid, W.ResourceWorker.Valid, Picked, GroupsOf;
      queue.ValidParts();
      SessionsValid();
    }
  }

  lemma GoneElements(sids: seq<nat>, sessions: map<nat, Session>)
    ensures forall sid :: sid in sids ==> sid !in sessions - Elements(sids)
  {
  }

  /** The sessions that expire are exactly those that expiry reports. */
  lemma ExpiredGone(t: Tables, now: nat)
    requires t.sessions.Valid()
    ensures Current(t, now).sessions.vals.Keys == t.sessions.vals.Keys - (set sid | sid in ExpiredSessions(t, now))
  {
  }

  /** Sessions once registered and registered no more. */
  predicate Gone(origins: set<nat>, sessions: set<nat>, nextId: nat)
  {
    forall origin :: origin in origins ==> origin !in sessions && origin < nextId
  }

  lemma StillGone(origins: set<nat>, before: set<nat>, next: nat, after: set<nat>, next': nat)
    requires Gone(origins, before, next) && next <= next' && forall sid :: sid in after && sid < next ==> sid in before
    ensures Gone(origins, after, next')
  {
  }

  /** A fresh admission keeps the queue linked and the worker to live sessions. */
  lemma AdmittedTrim(rc: Config, s: Store, t: Tables, nextId: nat, ledger: Ledger, m: Message, binding: PeerBinding, d: Decision,
                     now: nat, live: set<nat>)
    requires rc.Valid() && Linked(rc, s, t) && Inv(rc, t, nextId, ledger) && t.sessions.Valid() && 0 < nextId
    requires live <= t.sessions.vals.Keys && forall k :: k in s.pending.vals ==> k in ledger.claims
    requires m.id == OPEN ==> m.body.OpenBody?
    requires Decide(rc, Current(t, now), nextId, m, binding) == Ok(d) && d.replay.None?
    requires Roomy(rc, Current(t, now).records).Ok? && (m.id == OPEN ==> binding in rc.links && d.sid == nextId)
    requires m.id != OPEN ==> m.header.sessionId in Current(t, now).sessions.vals
    ensures var after := Admit(rc, Current(t, now), m, binding, d, now);
      && Linked(rc, s, after)
      && live - (set sid | sid in ExpiredSessions(t, now)) <= after.sessions.vals.Keys
      && Current(t, now).sessions.vals.Keys <= after.sessions.vals.Keys
      && (forall sid :: sid in after.sessions.vals && sid < nextId ==> sid in t.sessions.vals)
      && (m.id != OPEN ==> Admissible(after, m))
  {
    hide *;
    TrimmedKeeps(rc, s, t, Current(t, now), ExpiredSessions(t, now), live, now);
    RolledTables(rc, t, nextId, ledger, now);
    AdmitKeepsLink(rc, s, Current(t, now), nextId, ledger, m, binding, now);
    AdmittedSessions(rc, Current(t, now), m, binding, d, now);
  }

  /** A request just admitted is retained, unclaimed and unanswered, for a registered session. */
  predicate Admissible(t: Tables, m: Message)
  {
    m.header.sessionId in t.sessions.vals && m.Key() in t.records.vals && t.records.vals[m.Key()].request == m
    && !t.records.vals[m.Key()].queued && t.records.vals[m.Key()].responses.None?
  }

  /** An admission adds at most one session, under the next number, and renews at most the request's own. */
  lemma AdmittedSessions(rc: Config, t: Tables, m: Message, binding: PeerBinding, d: Decision, now: nat)
    requires Roomy(rc, t.records).Ok? && (m.id == OPEN ==> m.body.OpenBody? && binding in rc.links)
    requires m.id != OPEN ==> m.header.sessionId in t.sessions.vals
    ensures var after := Admit(rc, t, m, binding, d, now);
      && after.sessions.vals.Keys == t.sessions.vals.Keys + (if m.id == OPEN then {d.sid} else {})
      && (m.id != OPEN ==> Admissible(after, m))
  {
    hide Roomy;
  }

  lemma AdmittingClaims(ledger: Ledger, k: Key)
    ensures Admitting(ledger, k).claims == ledger.claims
  {
  }

  /** Trimming the sessions keeps the queue linked and, once its cancellations are taken over, the worker to live sessions. */
  lemma TrimmedKeeps(rc: Config, s: Store, t: Tables, t': Tables, dropped: seq<nat>, live: set<nat>, now: nat)
    requires Linked(rc, s, t) && t.sessions.Valid() && live <= t.sessions.vals.Keys
    requires (t'.sessions == t.sessions && dropped == [])
      || (t'.sessions == Current(t, now).sessions && dropped == ExpiredSessions(t, now))
    ensures Linked(rc, s, t') && t'.sessions.vals.Keys <= t.sessions.vals.Keys
    ensures live - (set sid | sid in dropped) <= t'.sessions.vals.Keys
  {
    ExpiredGone(t, now);
    CurrentFewer(t, now);
    hide ExpiredSessions;
    LinkedFewer(rc, s, t, s, t');
  }

  lemma CurrentFewer(t: Tables, now: nat)
    ensures Current(t, now).sessions.vals.Keys <= t.sessions.vals.Keys
  {
  }

  lemma NoElements(sessions: map<nat, Session>)
    ensures Elements([]) == {} && sessions - Elements([]) == sessions
  {
  }

  lemma ClosedTables(rc: Config, s: Store, t: Tables, t': Tables)
    requires Linked(rc, s, t) && (t' == t || t' == Tables(Empty(), Empty(), Empty()))
    ensures Linked(rc, s, t') && t'.sessions.vals.Keys <= t.sessions.vals.Keys
  {
    LinkedFewer(rc, s, t, s, t');
  }

  lemma DeletedSession(sessions: OrderedDict<nat, Session>, sid: nat)
    ensures sessions.Delete(sid).vals == sessions.vals - {sid}
  {
  }

  function GoneSessions(sids: seq<nat>, sessions: map<nat, Session>): seq<nat>
  {
    if sids == [] then []
    else (if sids[0] in sessions then [] else [sids[0]]) + GoneSessions(sids[1..], sessions)
  }

  function GoneInputs(items: seq<Pending>, pending: map<Key, Pending>): seq<Pending>
  {
    if items == [] then []
    else (if items[0].key in pending then [] else [items[0]]) + GoneInputs(items[1..], pending)
  }

  function GoneGroups(items: seq<Retired>, groups: map<R.Key, R.Group>): seq<Retired>
  {
    if items == [] then []
    else (if items[0].key in groups then [] else [items[0]]) + GoneGroups(items[1..], groups)
  }

  lemma {:induction false} SessionsGone(sids: seq<nat>, sessions: map<nat, Session>)
    requires forall sid :: sid in sids ==> sid !in sessions
    ensures GoneSessions(sids, sessions) == sids
  {
    if sids != [] {
      assert sids[0] in sids && forall sid :: sid in sids[1..] ==> sid in sids;
      SessionsGone(sids[1..], sessions);
    }
  }

  lemma {:induction false} InputsGone(keys: seq<Key>, vals: map<Key, Pending>, sids: seq<nat>, pending: map<Key, Pending>)
    requires forall k :: k in pending ==> k.0 !in sids
    ensures var items := Picked(keys, vals, Inside(sids)); GoneInputs(items, pending) == items
  {
    if keys != [] {
      InputsGone(keys[1..], vals, sids, pending);
      PickedFirst(keys, vals, Inside(sids));
      if keys[0] in vals && Inside(sids)(vals[keys[0]]) {
        var rest := Picked(keys[1..], vals, Inside(sids));
        assert ([vals[keys[0]]] + rest)[1..] == rest;
      }
    }
  }

  lemma {:induction false} GroupsGone(keys: seq<R.Key>, groups: map<R.Key, R.Group>, sids: seq<nat>, left: map<R.Key, R.Group>)
    requires forall k :: k in left ==> k.session !in sids
    ensures var items := GroupsOf(keys, groups, sids); GoneGroups(items, left) == items
  {
    if keys != [] {
      GroupsGone(keys[1..], groups, sids, left);
      var rest := GroupsOf(keys[1..], groups, sids);
      if keys[0] in groups && keys[0].session in sids {
        assert ([Retired(keys[0], groups[keys[0]])] + rest)[1..] == rest;
      } else {
        assert GroupsOf(keys, groups, sids) == rest;
      }
    }
  }

  /** After the cleanup everything captured is gone. */
  lemma AllGone(c: RunRetirement, sessions: OrderedDict<nat, Session>, pending: OrderedDict<Key, Pending>, after: R.Assembly,
                before: OrderedDict<Key, Pending>, groups: R.Assembly)
    requires forall sid :: sid in c.selected ==> sid !in sessions.vals
    requires pending == before.Select(Outside(c.selected)) && forall k :: k in before.vals ==> before.vals[k].key == k
    requires A.Remaining(groups, after, Elements(c.selected))
    requires c.captured == Picked(before.keys, before.vals, Inside(c.selected))
    requires c.groups == GroupsOf(groups.groups.keys, groups.groups.vals, c.selected)
    ensures GoneSessions(c.selected, sessions.vals) == c.selected
    ensures GoneInputs(c.captured, pending.vals) == c.captured
    ensures GoneGroups(c.groups, after.groups.vals) == c.groups
  {
    hide Picked, GroupsOf, GoneSessions, GoneInputs, GoneGroups;
    SessionsGone(c.selected, sessions.vals);
    InputsGone(before.keys, before.vals, c.selected, pending.vals);
    GroupsGone(groups.groups.keys, groups.groups.vals, c.selected, after.groups.vals);
  }

  lemma LinkedRevoked(rc: Config, s: Store, t: Tables, t': Tables, sid: nat)
    requires Linked(rc, s, t) && t'.sessions == t.sessions.Delete(sid)
    ensures Linked(rc, s, t')
  {
    LinkedFewer(rc, s, t, s, t');
  }

  lemma LinkedDiscarded(rc: Config, s: Store, t: Tables, s': Store, sid: nat)
    requires Linked(rc, s, t) && s'.steps == s.steps && s'.pending == s.pending.Select(Except(OfSession(sid)))
    ensures Linked(rc, s', t)
  {
    LinkedFewer(rc, s, t, s', t);
  }

  /** One reply more for a request, after whatever was stored for it before. */
  ghost predicate Published(before: Ledger, after: Ledger, k: Key, reply: Reply)
  {
    k in after.published && 0 < |after.published[k]| && after.published[k][|after.published[k]| - 1] == reply
    && after == Publishing(before, k, after.published[k])
  }

  /** An outcome was handed on: with its own consistent reply, now the last one stored, or with a reason and nothing stored. */
  ghost predicate Handed(rules: Rules, record: FeedbackRecord, k: Key, before: Ledger, after: Ledger)
  {
    && (record.reply.Some? <==> record.error.None?)
    && (record.reply.Some? ==> record.reply.value == ReplyFor(rules, record.outcome, record.reply.value.header.sequence))
    && (record.reply.Some? ==> FeedbackConsistent(record.outcome.request, record.reply.value))
    && (record.reply.Some? ==> Published(before, after, k, record.reply.value))
    && (record.error.Some? ==> after == before)
  }

  lemma OutcomeFacts(rules: Rules, d: D.Desk, k: Key)
    requires D.DeskInv(d) && k in d.results.vals
    ensures d.results.vals[k].request.Key() == k && d.results.vals[k].payload.Progress?
    ensures forall sequence: nat ::
      FeedbackConsistent(d.results.vals[k].request, ReplyFor(rules, d.results.vals[k], sequence))
  {
    hide D.WaitingInv, D.PlacesInv;
  }

  /** The first n outcomes, in order, each on record. */
  ghost predicate HandedOn(base: seq<FeedbackRecord>, records: seq<FeedbackRecord>, start: OrderedDict<Key, D.Outcome>, n: int)
  {
    && 0 <= n <= |start.keys| && |records| == |base| + n && base <= records
    && forall j :: 0 <= j < n ==>
         start.keys[j] in start.vals && records[|base| + j].outcome == start.vals[start.keys[j]]
  }

  /** The outcomes are handed on in order until none is left or there is no more room; exactly those are released. */
  ghost predicate Served(base: seq<FeedbackRecord>, records: seq<FeedbackRecord>, start: OrderedDict<Key, D.Outcome>,
                         left: map<Key, D.Outcome>, capacity: nat)
  {
    HandedOn(base, records, start, |records| - |base|)
    && (|records| - |base| == |start.keys| || |records| >= capacity)
    && forall k :: k in left <==> k in start.keys[|records| - |base|..]
  }

  function RepliesOf(records: seq<FeedbackRecord>): seq<Reply>
  {
    if records == [] then []
    else
      var last := records[|records| - 1];
      RepliesOf(records[..|records| - 1]) + (if last.reply.Some? then [last.reply.value] else [])
  }

  lemma RepliesMore(records: seq<FeedbackRecord>, last: FeedbackRecord)
    ensures RepliesOf(records + [last]) == RepliesOf(records) + (if last.reply.Some? then [last.reply.value] else [])
  {
    assert (records + [last])[..|records|] == records;
  }

  ghost function Taken(keys: seq<Key>, i: nat): set<Key>
    requires i <= |keys|
  {
    set k | k in keys[..i]
  }

  lemma TakenMore(keys: seq<Key>, i: nat)
    requires i < |keys|
    ensures Taken(keys, i + 1) == Taken(keys, i) + {keys[i]}
  {
    assert keys[..i + 1] == keys[..i] + [keys[i]];
  }

  lemma StillThere(start: OrderedDict<Key, D.Outcome>, i: nat)
    requires start.Valid() && i < |start.keys|
    ensures start.keys[i] in start.vals && start.keys[i] !in Taken(start.keys, i)
  {
  }

  lemma NothingTaken(start: OrderedDict<Key, D.Outcome>, base: seq<FeedbackRecord>)
    ensures start.vals - Taken(start.keys, 0) == start.vals && RepliesOf(base[|base|..]) == []
  {
  }

  lemma LeftOver(start: OrderedDict<Key, D.Outcome>, i: nat)
    requires start.Valid() && i <= |start.keys|
    ensures forall k :: k in start.vals - Taken(start.keys, i) <==> k in start.keys[i..]
  {
    assert start.keys == start.keys[..i] + start.keys[i..];
    forall k | k in start.keys[i..] ensures k !in Taken(start.keys, i) {
      var j :| i <= j < |start.keys| && start.keys[j] == k;
    }
  }

  lemma ResultsValid(d: D.Desk)
    requires D.DeskInv(d)
    ensures d.results.Valid()
  {
    hide D.WaitingInv, D.PlacesInv;
  }

  lemma ReleasedResults(d: D.Desk, k: Key)
    ensures D.Released(d, k).results.vals == d.results.vals - {k}
  {
  }

  lemma CurrentLive(t: Tables, now: nat)
    ensures forall sid :: sid in Current(t, now).sessions.vals ==> now < Current(t, now).sessions.vals[sid].deadline
  {
  }

  lemma NothingExpires(t: Tables, now: nat)
    requires forall sid :: sid in t.sessions.vals ==> now < t.sessions.vals[sid].deadline
    ensures Current(t, now).sessions.vals == t.sessions.vals
  {
  }

  lemma FinishedParts(cfg: Config, t: Tables, m: Message, reply: Reply, now: nat, before: Ledger, after: Tables, ledger: Ledger)
    requires Finishable(cfg, Current(t, now), m, reply, now).Ok?
    requires var a := Finishable(cfg, Current(t, now), m, reply, now).value;
      && m.Key() in Current(t, now).records.vals && a.responses.Some?
      && after == WithResponses(Current(t, now), m.Key(), a.responses.value + [reply], None, now + cfg.rules.retentionNs)
      && ledger == Publishing(before, m.Key(), a.responses.value + [reply])
    ensures after.sessions == Current(t, now).sessions
    ensures FeedbackConsistent(m, reply) && Published(before, ledger, m.Key(), reply)
  {
    hide Current, FeedbackConsistent, ResourceRecord;
  }

  lemma ClaimsGrow(before: Ledger, after: Ledger)
    requires Grows(before, after)
    ensures forall k :: k in before.claims ==> k in after.claims
  {
  }

  lemma GrowsSelf(ledger: Ledger)
    ensures Grows(ledger, ledger)
  {
  }
}
