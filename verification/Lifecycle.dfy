/** Lifecycle requests: one attempt against the model, then the queue, sessions and fragments follow what it did. */
module Lifecycle {
  import opened Common
  import opened Catalogue
  import opened Messages
  import opened Ordered
  import opened Registry
  import opened SessionRegistry
  import opened Queue
  import opened ModelQueue
  import opened Maintenance
  import opened Receiver
  import G = Guards
  import R = Reassembly
  import A = Reassembler
  import W = ResourceWorker

  const SNAPSHOT_NS: nat := 240_000_000

  /** A configuration: its run length, and the state and inputs a reset must restore. */
  datatype RunConfig = RunConfig(model: nat, maxSteps: nat, initialState: nat, initialInputs: nat)

  /** A solver state: the step it stands at, and everything else it projects. */
  datatype Solver = Solver(step: u32, projection: nat)

  /** Encoded sizes: identity, request, configuration, state and inputs of a snapshot; state and outputs of a sample. */
  type SnapshotBytes = n: nat | n <= 208_896

  type SampleBytes = n: nat | n <= 5_120

  type OutputBytes = n: nat | n <= 1_024

  datatype Snapshot = Snapshot(
    identity: nat,
    request: Message,
    config: RunConfig,
    state: Solver,
    inputs: nat,
    view: G.ModelView,
    sampled: nat,
    deadline: nat,
    bytes: SnapshotBytes)

  datatype Sample = Sample(state: Solver, safe: bool, sampled: nat, stepUs: nat, bytes: SampleBytes)

  datatype Receipt = Receipt(
    snapshot: Snapshot,
    safe: bool,
    owner: nat,
    queueDepth: nat,
    samples: seq<Sample>,
    revision: u32,
    outputs: OutputBytes)

  /** What a call into the model's backend comes to. */
  datatype Answer<T> = Returned(value: T) | Malformed | Raised(code: Code)
  {
    function Kept(): Option<T>
    {
      if Returned? then Some(value) else None
    }
  }

  /** Everything the outside world answers during one operation: the model's reads, its effect, and the clock. */
  datatype Script = Script(
    context: Answer<Snapshot>,
    readNs: nat,
    receipt: Answer<Receipt>,
    appliedNs: nat,
    finishedNs: nat)

  // ---------------------------------------------------------------- checks on what the model reports

  function SnapshotRefusal(s: Snapshot, identity: nat, model: nat, m: Message, now: nat, earliest: nat): Option<Code>
  {
    if s.identity != identity || s.view.model != model then Some(Model)
    else if s.request != m then Some(Duplicate)
    else if !(earliest <= s.sampled <= now && now < s.deadline && now < s.sampled + SNAPSHOT_NS) then Some(Expired)
    else if s.config.model != model || s.view.maxSteps != s.config.maxSteps || s.state.step != s.view.step then Some(Model)
    else None
  }

  function SamplesRefusal(steps: seq<nat>, samples: seq<Sample>, previous: nat, until: nat): Option<Code>
    requires |steps| == |samples|
  {
    if steps == [] then None
    else
      var sample := samples[0];
      if sample.state.step != steps[0] || sample.stepUs != 1000 then Some(State)
      else if !(previous < sample.sampled <= until) then Some(ClockUnsync)
      else if !sample.safe then Some(Safety)
      else SamplesRefusal(steps[1..], samples[1..], sample.sampled, until)
  }

  function ReceiptRefusal(r: Receipt, c: Snapshot, d: G.LifecycleDecision, identity: nat, model: nat, m: Message,
                          started: nat, now: nat): Option<Code>
    requires m.body.LifecycleBody?
  {
    var s := r.snapshot;
    var snapshot := SnapshotRefusal(s, identity, model, m, now, started);
    if snapshot.Some? then snapshot
    else if s.view.state != d.next || s.view.step != d.Boundary() || !s.view.configured
            || s.view.physical != c.view.physical || s.config != c.config then Some(State)
    else if d.safeOutputs && !r.safe then Some(Safety)
    else if d.safeOutputs && (s.view.source.Some? || r.owner != 0) then Some(ControlOwner)
    else if d.clearQueues && r.queueDepth != 0 then Some(State)
    else if d.restoreInitial && (s.state.projection != s.config.initialState || s.inputs != s.config.initialInputs) then
      Some(BusinessFailed)
    else if !d.restoreInitial && m.body.action.Resume? && (s.state != c.state || s.inputs != c.inputs) then Some(BusinessFailed)
    else if |r.samples| != |d.steps| then Some(State)
    else
      var samples := SamplesRefusal(d.steps, r.samples, started, s.sampled);
      if samples.Some? then samples
      else if r.samples != [] && r.samples[|r.samples| - 1].state != s.state then Some(State)
      else None
  }

  /** An accepted STEP was observed at every one of its steps, in order and at strictly increasing times. */
  lemma {:induction false} SamplesInOrder(steps: seq<nat>, samples: seq<Sample>, previous: nat, until: nat, i: nat)
    requires |steps| == |samples| && SamplesRefusal(steps, samples, previous, until).None? && i < |samples|
    ensures samples[i].state.step == steps[i] && samples[i].stepUs == 1000 && samples[i].safe
    ensures previous < samples[i].sampled <= until
    ensures i > 0 ==> samples[i - 1].sampled < samples[i].sampled
  {
    if i > 0 {
      SamplesInOrder(steps[1..], samples[1..], samples[0].sampled, until, i - 1);
      assert samples[1..][i - 1] == samples[i] && steps[1..][i - 1] == steps[i];
      if i > 1 {
        assert samples[1..][i - 2] == samples[i - 1];
      }
    }
  }

  // ---------------------------------------------------------------- what clearing a run's sessions leaves

  /** The sessions selected for an action are all the registered sessions of its model. */
  predicate Covers(rc: Config, t: Tables, selected: seq<nat>, model: nat)
  {
    forall sid :: sid in t.sessions.vals ==>
      (t.sessions.vals[sid].grant < |rc.grants| && rc.grants[t.sessions.vals[sid].grant].model == model) ==> sid in selected
  }

  /** What remains of a model's inputs once its sessions' inputs are discarded: those whose session was already gone. */
  lemma OrphansRemain(rc: Config, s: Store, t: Tables, after: OrderedDict<Key, Pending>, selected: seq<nat>, model: nat)
    requires Linked(rc, s, t) && Covers(rc, t, selected, model)
    requires after == s.pending.Select(Outside(selected)) && forall k :: k in s.pending.vals ==> s.pending.vals[k].key == k
    requires forall sid :: sid in selected ==> sid in t.sessions.vals
    ensures forall k :: k in after.vals && after.vals[k].model == model <==>
      k in s.pending.vals && s.pending.vals[k].model == model && k.0 !in t.sessions.vals
  {
  }

  /** Right after maintenance there are no such orphans, so nothing of the model remains queued. */
  lemma NothingRemains(rc: Config, s: Store, t: Tables, after: OrderedDict<Key, Pending>, selected: seq<nat>, model: nat)
    requires Linked(rc, s, t) && Covers(rc, t, selected, model)
    requires after == s.pending.Select(Outside(selected)) && forall k :: k in s.pending.vals ==> s.pending.vals[k].key == k
    requires forall sid :: sid in selected ==> sid in t.sessions.vals
    ensures (forall k :: k in after.vals ==> after.vals[k].model != model)
      <==> (forall k :: k in s.pending.vals && s.pending.vals[k].model == model ==> k.0 in t.sessions.vals)
  {
    OrphansRemain(rc, s, t, after, selected, model);
  }

  /** Once a scope's inputs are discarded, or nothing moves, every remaining registered input lies ahead of the boundary. */
  lemma AheadAfter(rc: Config, s: Store, t: Tables, after: OrderedDict<Key, Pending>, sessions: set<nat>,
                   d: G.LifecycleDecision, scope: Scope)
    requires Linked(rc, s, t) && Covers(rc, t, scope.selected, scope.model) && scope.model in s.steps
    requires forall k :: k in s.pending.vals ==> s.pending.vals[k].key == k
    requires forall sid :: sid in scope.selected ==> sid in t.sessions.vals
    requires sessions <= t.sessions.vals.Keys
    requires after == if d.clearQueues then s.pending.Select(Outside(scope.selected)) else s.pending
    requires !d.clearQueues ==> d.Boundary() == s.steps[scope.model]
    ensures forall k :: k in after.vals && k.0 in sessions && after.vals[k].model == scope.model ==>
      after.vals[k].targetStep > d.Boundary()
    ensures d.clearQueues ==> forall k :: k in after.vals && after.vals[k].model == scope.model <==>
      k in s.pending.vals && s.pending.vals[k].model == scope.model && k.0 !in t.sessions.vals
  {
    hide G.LifecycleDecision.Boundary;
    if d.clearQueues {
      OrphansRemain(rc, s, t, after, scope.selected, scope.model);
    }
  }

  // ---------------------------------------------------------------- the service

  /** The local state a lifecycle operation may change. */
  datatype Local = Local(
    steps: map<nat, nat>,
    pending: OrderedDict<Key, Pending>,
    assembly: R.Assembly,
    sessions: set<nat>)

  /** A decision took effect: step, inputs, fragments and sessions are where it puts them. */
  ghost predicate TookEffect(before: Local, after: Local, d: G.LifecycleDecision, scope: Scope)
  {
    && (forall sid :: sid in scope.selected ==> sid in before.sessions)
    && after.steps == before.steps[scope.model := d.Boundary()]
    && (!d.clearQueues ==> after.pending == before.pending && after.assembly == before.assembly)
    && (d.clearQueues ==>
          && after.pending == before.pending.Select(Outside(scope.selected))
          && A.Remaining(before.assembly, after.assembly, Elements(scope.selected))
          && (forall k :: k in after.pending.vals && after.pending.vals[k].model == scope.model <==>
                k in before.pending.vals && before.pending.vals[k].model == scope.model && k.0 !in before.sessions))
    && after.sessions == before.sessions - (if d.newSession then Elements(scope.selected) else {})
  }

  /** What the guard decided for the model as read has taken effect in full. */
  ghost predicate Effect(before: Local, after: Local, maxAhead: nat, m: Message, scope: Scope, script: Script,
                         decision: Option<G.LifecycleDecision>)
  {
    && m.body.LifecycleBody? && script.context.Returned? && decision.Some?
    && G.Decide(maxAhead, m, script.context.value.view) == Ok(decision.value)
    && TookEffect(before, after, decision.value, scope)
  }

  datatype Record = Record(
    request: Message,
    completed: nat,
    context: Option<Snapshot>,
    receipt: Option<Receipt>,
    decision: Option<G.LifecycleDecision>,
    attempted: bool,
    captured: seq<Pending>,
    discarded: seq<Pending>,
    groups: seq<Retired>,
    dropped: seq<Retired>,
    reply: Reply,
    error: Option<Code>)

  /** What an operation covers: sessions, and the inputs and fragments they hold as it begins. */
  datatype Scope = Scope(selected: seq<nat>, identity: nat, model: nat, inputs: seq<Pending>, groups: seq<Retired>)

  // ---------------------------------------------------------------- evidence

  function SamplesBytes(samples: seq<Sample>): nat
  {
    if samples == [] then 0 else 128 + samples[0].bytes + SamplesBytes(samples[1..])
  }

  function StoredBytes(rules: Rules, r: Record): nat
  {
    1024 + rules.messageBytes(r.request) + rules.replyBytes(r.reply)
    + (if r.context.Some? then 512 + r.context.value.bytes else 0)
    + (if r.receipt.Some? then 640 + r.receipt.value.snapshot.bytes + r.receipt.value.outputs
         + SamplesBytes(r.receipt.value.samples) else 0)
    + (if r.decision.Some? then 128 + 40 * |r.decision.value.steps| else 0)
    + InputBytes(r.captured) + GroupBytes(r.groups)
  }

  function EvidenceBytes(rules: Rules, records: seq<Record>): nat
  {
    if records == [] then 0 else EvidenceBytes(rules, records[..|records| - 1]) + StoredBytes(rules, records[|records| - 1])
  }

  /** What is set aside for the evidence of an operation before the model is touched. */
  function Reservation(rules: Rules, m: Message, scope: Scope): nat
    requires m.body.LifecycleBody?
  {
    32768 + rules.messageBytes(m) + 4 * 65536 + 2 * (65536 + 4096) + m.body.stepCount * (5248 + 40)
    + InputBytes(scope.inputs) + GroupBytes(scope.groups)
  }

  /** The evidence of one operation on a scope. */
  ghost predicate Evidence(maxAhead: nat, m: Message, scope: Scope, r: Record)
  {
    && m.body.LifecycleBody? && r.request == m && r.captured == scope.inputs && r.groups == scope.groups
    && r.reply.id == ACK && r.reply.body.Ack? && r.reply.header.Short() && AckInRange(r.reply.body)
    && (r.decision.Some? ==> r.context.Some? && G.Decide(maxAhead, m, r.context.value.view) == Ok(r.decision.value))
    && (r.receipt.Some? ==> r.decision.Some?)
  }

  /** The reservation holds the evidence of any model that reports at most two samples more than were asked for. */
  lemma EvidenceFits(rules: Rules, maxAhead: nat, m: Message, scope: Scope, r: Record)
    requires rules.Valid() && Evidence(maxAhead, m, scope, r)
    requires r.receipt.Some? ==> |r.receipt.value.samples| <= m.body.stepCount + 2
    ensures StoredBytes(rules, r) <= Reservation(rules, m, scope)
  {
    AckShort(rules, r.reply);
    if r.receipt.Some? {
      SamplesAtMost(r.receipt.value.samples);
    }
    hide Rules.Valid, InputBytes, GroupBytes, SamplesBytes, G.Transition, G.Target;
  }

  lemma {:induction false} SamplesAtMost(samples: seq<Sample>)
    ensures SamplesBytes(samples) <= 5248 * |samples|
  {
    if samples != [] {
      SamplesAtMost(samples[1..]);
    }
  }

  lemma {:induction false} SamplesExactly(samples: seq<Sample>)
    requires forall s :: s in samples ==> s.bytes == 5_120
    ensures SamplesBytes(samples) == 5248 * |samples|
  {
    if samples != [] {
      assert forall s :: s in samples[1..] ==> s in samples;
      assert samples[0] in samples;
      SamplesExactly(samples[1..]);
    }
  }

  /** With three samples more than were asked for, a receipt of full size does not fit, though it is refused and kept. */
  lemma EvidenceOverruns(rules: Rules, maxAhead: nat, m: Message, scope: Scope, r: Record)
    requires rules.Valid() && Evidence(maxAhead, m, scope, r)
    requires r.receipt.Some? && |r.receipt.value.samples| >= m.body.stepCount + 3
    requires r.context.Some? && r.context.value.bytes == 208_896 && r.receipt.value.snapshot.bytes == 208_896
    requires r.receipt.value.outputs == 1_024 && forall s :: s in r.receipt.value.samples ==> s.bytes == 5_120
    requires m.body.action.Step? || m.body.stepCount == 0
    ensures StoredBytes(rules, r) > Reservation(rules, m, scope)
  {
    SamplesExactly(r.receipt.value.samples);
    hide Rules.Valid, InputBytes, GroupBytes, SamplesBytes, G.Transition, G.Target;
  }

  predicate CorrelatedReceived(m: Message, r: Reply)
  {
    Correlated(m, r) && r.body.stage.Received? && r.body.error.None? && r.body.probeId == 0
  }

  class ModelLifecycleService {
    const receiver: Receiver
    const models: set<nat>
    const maxAhead: nat
    const maxRecords: nat
    const maxBytes: nat
    var attempted: set<Key>
    var records: seq<Record>
    var bytes: nat
    var lastObserved: Option<nat>
    var closed: bool

    ghost predicate Valid()
      reads this, receiver, receiver.registry, receiver.queue, receiver.assembler, receiver.worker,
        receiver.worker.store, receiver.worker.budget
    {
      receiver.Valid() && |records| <= maxRecords && bytes == EvidenceBytes(receiver.registry.cfg.rules, records)
    }

    constructor (receiver: Receiver, models: set<nat>, maxAhead: nat, maxRecords: nat, maxBytes: nat)
      requires receiver.Valid()
      ensures Valid() && this.receiver == receiver && attempted == {} && records == [] && bytes == 0
    {
      hide Receiver.Valid;
      this.receiver, this.models, this.maxAhead, this.maxRecords, this.maxBytes := receiver, models, maxAhead, maxRecords, maxBytes;
      attempted, records, bytes, lastObserved, closed := {}, [], 0, None, false;
    }

    lemma ValidParts()
      ensures Valid() <==>
        receiver.Valid() && |records| <= maxRecords && bytes == EvidenceBytes(receiver.registry.cfg.rules, records)
    {
      hide Receiver.Valid, EvidenceBytes;
    }

    /** The sessions of the origin's run, when they are the only registered sessions of its model. */
    function ScopeOf(origin: nat, now: nat): Result<Scope>
      reads receiver, receiver.registry, receiver.queue, receiver.worker, receiver.assembler
    {
      var registry := receiver.registry;
      var _ :- registry.Clock(now);
      if origin !in registry.sessions.vals || now >= registry.sessions.vals[origin].deadline
         || registry.sessions.vals[origin].grant >= |registry.cfg.grants| then Err(StaleSession)
      else
        var grant := registry.cfg.grants[registry.sessions.vals[origin].grant];
        var selected := RunSessions(registry.cfg, registry.View(), origin);
        if !Covers(registry.cfg, registry.View(), selected, grant.model) then Err(ControlOwner)
        else
          var _ :- receiver.queue.Clock(now);
          if grant.model !in receiver.queue.steps then Err(TargetMissing)
          else
            var _ :- receiver.worker.Clock(now);
            Ok(Scope(selected, grant.identity, grant.model,
                     Picked(receiver.queue.pending.keys, receiver.queue.pending.vals, Inside(selected)),
                     GroupsOf(receiver.assembler.groups.keys, receiver.assembler.groups.vals, selected)))
    }

    /** What the queue, the registry and the reassembler hold that an operation may touch. */
    function Locals(): Local
      reads receiver.registry`sessions, receiver.queue`steps, receiver.queue`pending, receiver.assembler
    {
      Local(receiver.queue.steps, receiver.queue.pending, receiver.assembler.Abstract(), receiver.registry.sessions.vals.Keys)
    }

    /** Reads the receiving clock, which may not run backwards. */
    method Observe(reading: nat, floor: nat) returns (r: Result<nat>)
      modifies this`lastObserved
      ensures r.Ok? <==> floor <= reading <= U64_MAX && (old(lastObserved).None? || old(lastObserved).value <= reading)
      ensures r == if r.Ok? then Ok(reading) else Err(ClockUnsync)
      ensures lastObserved == if r.Ok? then Some(reading) else old(lastObserved)
    {
      if !(floor <= reading <= U64_MAX) || (lastObserved.Some? && reading < lastObserved.value) {
        return Err(ClockUnsync);
      }
      lastObserved := Some(reading);
      return Ok(reading);
    }

    /** The request is still admitted and inside its validity. */
    method Admitted(m: Message, now: nat) returns (r: Result<nat>)
      requires Valid()
      modifies receiver.registry`lastNow
      ensures Valid()
      ensures r.Ok? ==> receiver.registry.lastNow == now && !receiver.registry.closed
      ensures r.Ok? ==> Observed(receiver.registry.View(), m, now).Ok?
    {
      hide Receiver.Valid, Observed;
      r := receiver.ObserveAdmitted(m, now);
      if r.Ok? && now >= r.value + m.header.validForMs * NS_PER_MS {
        return Err(Expired);
      }
    }

    /** A scope still describes the registered sessions. */
    ghost predicate InScope(origin: nat, scope: Scope)
      reads receiver.registry, receiver.queue, receiver.assembler
    {
      var registry := receiver.registry;
      && origin in registry.sessions.vals && registry.sessions.vals[origin].grant < |registry.cfg.grants|
      && scope.selected == RunSessions(registry.cfg, registry.View(), origin)
      && Covers(registry.cfg, registry.View(), scope.selected, scope.model)
      && scope.model in receiver.queue.steps
      && scope.inputs == Picked(receiver.queue.pending.keys, receiver.queue.pending.vals, Inside(scope.selected))
      && scope.groups == GroupsOf(receiver.assembler.groups.keys, receiver.assembler.groups.vals, scope.selected)
    }

    lemma ScopeFacts(origin: nat, now: nat)
      requires Valid() && ScopeOf(origin, now).Ok?
      ensures InScope(origin, ScopeOf(origin, now).value) && !receiver.registry.closed
    {
      hide Receiver.Valid, RunSessions, Covers;
    }

    lemma SelectedFacts(origin: nat, scope: Scope)
      requires Valid() && InScope(origin, scope)
      ensures NoDup(scope.selected) && origin in scope.selected
      ensures forall sid :: sid in scope.selected ==> sid in receiver.registry.sessions.vals
      ensures receiver.queue.Valid()
      ensures Linked(receiver.registry.cfg, receiver.queue.View(), receiver.registry.View())
      ensures forall k :: k in receiver.queue.pending.vals ==> receiver.queue.pending.vals[k].key == k
    {
      receiver.ValidParts();
      hide Receiver.Valid, Covers, Linked, ModelQueue.Valid;
      receiver.PendingKeys();
      receiver.queue.ValidParts();
      receiver.SessionsValid();
    }

    lemma ScopeCovers(origin: nat, scope: Scope)
      requires InScope(origin, scope)
      ensures Covers(receiver.registry.cfg, receiver.registry.View(), scope.selected, scope.model)
      ensures scope.model in receiver.queue.steps && origin in receiver.registry.sessions.vals
    {
    }

    lemma RetireReady(origin: nat, scope: Scope, now: nat)
      requires Valid() && InScope(origin, scope)
      ensures origin in receiver.registry.sessions.vals && origin !in receiver.runByOrigin
      ensures receiver.registry.sessions.vals[origin].grant < |receiver.registry.cfg.grants|
      ensures receiver.Capture(origin, now).selected == scope.selected
    {
      receiver.CaptureParts(origin, now);
      hide ModelQueue.Valid, A.Reassembler.Valid, W.ResourceWorker.Valid, Covers, RunSessions;
    }

    /** Local effects of an applied action: sessions, inputs and fragments first, the model's step last. */
    method Cleanup(origin: nat, d: G.LifecycleDecision, scope: Scope, now: nat) returns (r: Result<()>)
      requires Valid() && InScope(origin, scope) && !receiver.registry.closed
      requires d.newSession ==> d.clearQueues
      requires !d.clearQueues ==> d.Boundary() == receiver.queue.steps[scope.model]
      modifies receiver, receiver.registry, receiver.queue, receiver.assembler, receiver.worker
      ensures Valid()
      ensures receiver.queue.entered == old(receiver.queue.entered) && old(receiver.queue.left) <= receiver.queue.left
      ensures receiver.worker.trail == old(receiver.worker.trail)
      ensures receiver.registry.ledger == old(receiver.registry.ledger)
      ensures r.Ok? ==> TookEffect(old(Locals()), Locals(), d, scope)
      ensures r.Err? ==> d.newSession && Locals() == old(Locals())
    {
      hide Receiver.Valid, RunSessions, Covers, Elements, A.Remaining, OrderedDict.Select, G.LifecycleDecision.Boundary, NoDup,
        Linked, InScope, A.Reassembler.Abstract, ModelQueue.Valid, Inside, Receiver.RunRefusal, Receiver.Capture;
      SelectedFacts(origin, scope);
      ScopeCovers(origin, scope);
      if d.newSession {
        RetireReady(origin, scope, now);
        var retired := receiver.RetireRun(origin, now);
        if retired.Err? {
          return Err(retired.code);
        }
      } else if d.clearQueues {
        receiver.ClearInputs(scope.selected);
      }
      AheadAfter(receiver.registry.cfg, old(receiver.queue.View()), old(receiver.registry.View()), receiver.queue.pending,
                 receiver.registry.sessions.vals.Keys, d, scope);
      receiver.MoveStep(scope.model, d.Boundary());
      return Ok(());
    }

    /** Sessions, inputs and fragments of the operation are still the same, and the queue stands where the model was read. */
    method CheckScope(origin: nat, scope: Scope, step: nat, now: nat) returns (r: Result<()>)
      requires Valid()
      ensures r.Ok? ==>
        && InScope(origin, scope) && !receiver.registry.closed
        && receiver.queue.steps[scope.model] == step
    {
      hide Receiver.Valid, InScope, RunSessions, Covers;
      var current := ScopeOf(origin, now);
      if current.Err? {
        return Err(current.code);
      }
      ScopeFacts(origin, now);
      if current.value != scope {
        return Err(State);
      }
      ScopeCovers(origin, scope);
      if receiver.queue.steps[scope.model] != step {
        return Err(State);
      }
      return Ok(());
    }

    /** Reads the model and decides; nothing is changed yet. */
    method Prepare(m: Message, scope: Scope, now: nat, script: Script)
        returns (r: Result<()>, decision: Option<G.LifecycleDecision>, completed: nat)
      requires Valid() && m.body.LifecycleBody?
      modifies this`lastObserved, receiver.registry`lastNow
      ensures Valid() && completed >= now
      ensures decision.Some? ==>
        script.context.Returned? && G.Decide(maxAhead, m, script.context.value.view) == Ok(decision.value)
      ensures r.Ok? ==>
        && decision.Some? && completed == script.readNs
        && InScope(m.header.sessionId, scope) && !receiver.registry.closed
        && receiver.queue.steps[scope.model] == script.context.value.view.step
        && (decision.value.newSession ==> !receiver.Overfull(receiver.Capture(m.header.sessionId, completed)))
    {
      hide Receiver.Valid, InScope, RunSessions, Covers, Observed, G.Decide, Receiver.Capture;
      completed, decision := now, None;
      var observed := Observe(script.readNs, now);
      if observed.Err? {
        return Err(observed.code), decision, completed;
      }
      completed := observed.value;
      if script.context.Raised? {
        return Err(script.context.code), decision, completed;
      }
      var admitted := Admitted(m, completed);
      if admitted.Err? {
        return Err(admitted.code), decision, completed;
      }
      if script.context.Malformed? {
        return Err(State), decision, completed;
      }
      var context := script.context.value;
      var refusal := SnapshotRefusal(context, scope.identity, scope.model, m, completed, 0);
      if refusal.Some? {
        return Err(refusal.value), decision, completed;
      }
      var decided := G.Decide(maxAhead, m, context.view);
      if decided.Err? {
        return Err(decided.code), decision, completed;
      }
      decision := Some(decided.value);
      var checked := CheckScope(m.header.sessionId, scope, context.view.step, completed);
      if checked.Err? {
        return Err(checked.code), decision, completed;
      }
      OriginRegistered(m.header.sessionId, scope);
      if decided.value.newSession && receiver.Overfull(receiver.Capture(m.header.sessionId, completed)) {
        return Err(BufferFull), decision, completed;
      }
      return Ok(()), decision, completed;
    }

    lemma OriginRegistered(origin: nat, scope: Scope)
      requires InScope(origin, scope)
      ensures origin in receiver.registry.sessions.vals
      ensures receiver.registry.sessions.vals[origin].grant < |receiver.registry.cfg.grants|
    {
    }

    /** Checks what the model reports after its one attempt. */
    method Confirm(m: Message, d: G.LifecycleDecision, scope: Scope, started: nat, script: Script)
        returns (r: Result<()>, completed: nat)
      requires Valid() && m.body.LifecycleBody? && script.context.Returned?
      modifies this`lastObserved, receiver.registry`lastNow
      ensures Valid()
      ensures r.Ok? ==>
        && completed == script.appliedNs >= started
        && script.receipt.Returned?
        && ReceiptRefusal(script.receipt.value, script.context.value, d, scope.identity, scope.model, m, started, completed).None?
        && InScope(m.header.sessionId, scope) && !receiver.registry.closed
        && receiver.queue.steps[scope.model] == script.context.value.view.step
    {
      hide Receiver.Valid, InScope, RunSessions, Covers, Observed, ReceiptRefusal;
      completed := started;
      var observed := Observe(script.appliedNs, started);
      if observed.Err? {
        return Err(observed.code), completed;
      }
      completed := observed.value;
      if script.receipt.Raised? {
        return Err(script.receipt.code), completed;
      }
      var admitted := Admitted(m, completed);
      if admitted.Err? {
        return Err(admitted.code), completed;
      }
      if script.receipt.Malformed? {
        return Err(State), completed;
      }
      var refusal := ReceiptRefusal(script.receipt.value, script.context.value, d, scope.identity, scope.model, m, started, completed);
      if refusal.Some? {
        return Err(refusal.value), completed;
      }
      r := CheckScope(m.header.sessionId, scope, script.context.value.view.step, completed);
    }

    /**
     * One operation from reading the model to its local effects. Either nothing local has changed, or the decision took
     * effect in full; an APPLIED answer means the latter.
     */
    method Attempt(m: Message, scope: Scope, deadline: nat, received: nat, now: nat, script: Script)
        returns (error: Option<Code>, decision: Option<G.LifecycleDecision>, attempted: bool, applied: bool, completed: nat)
      requires Valid() && m.body.LifecycleBody?
      modifies this`lastObserved, receiver, receiver.registry, receiver.queue, receiver.assembler, receiver.worker
      ensures receiver.queue.entered == old(receiver.queue.entered) && old(receiver.queue.left) <= receiver.queue.left
      ensures receiver.worker.trail == old(receiver.worker.trail)
      ensures receiver.registry.ledger == old(receiver.registry.ledger)
      ensures error.None? ==> applied && completed < deadline && script.receipt.Returned?
      ensures error.None? ==>
        var view := script.receipt.value.snapshot.view;
        view.step <= U32_MAX && scope.model in receiver.queue.steps && receiver.queue.steps[scope.model] == view.step
      ensures applied ==> attempted
      ensures attempted ==> decision.Some?
      ensures decision.Some? ==>
        script.context.Returned? && G.Decide(maxAhead, m, script.context.value.view) == Ok(decision.value)
      ensures !applied ==> Locals() == old(Locals())
      ensures applied ==> Effect(old(Locals()), Locals(), maxAhead, m, scope, script, decision)
      ensures Valid()
    {
      hide Receiver.Valid, InScope, RunSessions, Covers, G.Decide, Receiver.Capture, ReceiptRefusal, G.LifecycleDecision.Boundary,
        Elements, A.Remaining, OrderedDict.Select, A.Reassembler.Abstract;
      decision, attempted, applied := None, false, false;
      var prepared;
      prepared, decision, completed := Prepare(m, scope, now, script);
      if prepared.Err? {
        return Some(prepared.code), decision, attempted, applied, completed;
      }
      var d := decision.value;
      attempted := true;
      var confirmed;
      var started := completed;
      confirmed, completed := Confirm(m, d, scope, started, script);
      if confirmed.Err? {
        return Some(confirmed.code), decision, attempted, applied, completed;
      }
      StartStays(maxAhead, m, script.context.value.view);
      ConfirmedStep(script.receipt.value, script.context.value, d, scope, m, started, completed);
      var cleaned := Cleanup(m.header.sessionId, d, scope, completed);
      var observed := Observe(script.finishedNs, completed);
      applied := cleaned.Ok?;
      if observed.Err? {
        return Some(observed.code), decision, attempted, applied, completed;
      }
      completed := observed.value;
      if cleaned.Err? {
        return Some(cleaned.code), decision, attempted, applied, completed;
      }
      var snapshot := script.receipt.value.snapshot;
      if completed >= deadline || completed >= received + m.header.validForMs * NS_PER_MS
         || completed >= snapshot.deadline || completed >= snapshot.sampled + SNAPSHOT_NS {
        return Some(Expired), decision, attempted, applied, completed;
      }
      return None, decision, attempted, applied, completed;
    }

    /** Everything checked before the one attempt: the request, its admission, its scope and room for its evidence. */
    method Screen(m: Message, received: Reply, now: nat) returns (r: Result<Admittance>)
      requires Valid()
      modifies receiver.registry`lastNow, receiver.registry`sessions
      ensures Valid() && Locals() == old(Locals())
      ensures r.Ok? ==> m.body.LifecycleBody? && m.Key() !in attempted && !closed
      ensures r.Ok? ==> receiver.registry.lastNow == now && receiver.registry.closed == old(receiver.registry.closed)
      ensures r.Ok? ==>
        && |records| < maxRecords && bytes + Reservation(receiver.registry.cfg.rules, m, r.value.scope) <= maxBytes
        && r.value.header.Short() && m.header.InRange()
    {
      hide Receiver.Valid, RunSessions, Covers, Observed, ModelQueue.Valid, A.Reassembler.Abstract, Picked, GroupsOf, InputBytes,
        GroupBytes;
      if closed || receiver.closed {
        return Err(State);
      }
      var accepted := receiver.registry.cfg.rules.accepts(m);
      if accepted.Err? {
        return Err(accepted.code);
      }
      if m.id != LIFECYCLE {
        return Err(Unsupported);
      }
      SoundLifecycle(m);
      var valid := receiver.registry.cfg.rules.acceptsReply(received);
      if valid.Err? {
        return Err(valid.code);
      }
      if !CorrelatedReceived(m, received) {
        return Err(State);
      }
      var admitted := Admitted(m, now);
      if admitted.Err? {
        return Err(admitted.code);
      }
      var sid := m.header.sessionId;
      SessionGrant(m, now);
      var grant := receiver.registry.cfg.grants[receiver.registry.sessions.vals[sid].grant];
      if grant.model !in models {
        return Err(TargetMissing);
      }
      if m.Key() in attempted {
        return Err(State);
      }
      var scope := ScopeOf(sid, now);
      if scope.Err? {
        return Err(scope.code);
      }
      var rules := receiver.registry.cfg.rules;
      if |records| >= maxRecords || bytes + Reservation(rules, m, scope.value) > maxBytes {
        return Err(BufferFull);
      }
      ScopeFacts(sid, now);
      var deadline := receiver.registry.sessions.vals[sid].deadline;
      var sequence := receiver.NextSequence(sid);
      if sequence.Err? {
        return Err(sequence.code);
      }
      HeaderShort(m, sequence.value);
      return Ok(Admittance(scope.value, deadline, admitted.value,
                           HeaderFor(rules, ACK, sid, m.header.transactionId, sequence.value)));
    }

    lemma SoundLifecycle(m: Message)
      requires Valid() && receiver.registry.cfg.rules.accepts(m).Ok? && m.id == LIFECYCLE
      ensures m.body.LifecycleBody? && m.header.InRange()
    {
      receiver.ValidParts();
    }

    lemma SessionGrant(m: Message, now: nat)
      requires Valid() && Observed(receiver.registry.View(), m, now).Ok?
      ensures m.header.sessionId in receiver.registry.sessions.vals
      ensures receiver.registry.sessions.vals[m.header.sessionId].grant < |receiver.registry.cfg.grants|
    {
      receiver.ValidParts();
    }

    lemma HeaderShort(m: Message, sequence: nat)
      requires Valid() && m.header.InRange() && sequence <= U32_MAX
      ensures HeaderFor(receiver.registry.cfg.rules, ACK, m.header.sessionId, m.header.transactionId, sequence).Short()
    {
      receiver.ValidParts();
    }

    /** The one attempt and its evidence. */
    method Conduct(m: Message, a: Admittance, now: nat, script: Script) returns (record: Record)
      requires Valid() && m.body.LifecycleBody? && a.header.Short() && m.header.InRange()
      modifies this`lastObserved, receiver, receiver.registry, receiver.queue, receiver.assembler, receiver.worker
      ensures Valid()
      ensures receiver.queue.entered == old(receiver.queue.entered) && old(receiver.queue.left) <= receiver.queue.left
      ensures receiver.worker.trail == old(receiver.worker.trail)
      ensures receiver.registry.ledger == old(receiver.registry.ledger)
      ensures Evidence(maxAhead, m, a.scope, record)
      ensures Locals() == old(Locals()) || Effect(old(Locals()), Locals(), maxAhead, m, a.scope, script, record.decision)
      ensures record.error.None? ==>
        && Effect(old(Locals()), Locals(), maxAhead, m, a.scope, script, record.decision)
        && script.receipt.Returned? && record.reply.body.stage.Applied?
        && a.scope.model in receiver.queue.steps
        && record.reply.body.appliedStep == receiver.queue.steps[a.scope.model]
      ensures record.error.Some? ==> record.reply.body.stage.Failed?
    {
      hide Receiver.Valid, RunSessions, Covers, Observed, ModelQueue.Valid, A.Reassembler.Abstract, G.Decide, TookEffect, Picked,
        SessionRegistry.Valid, W.ResourceWorker.Valid, A.Reassembler.Valid, Effect, GroupsOf, GoneInputs, GoneGroups,
        EvidenceBytes, InScope;
      var error, decision, effective, applied, completed := Attempt(m, a.scope, a.deadline, a.received, now, script);
      var last := if error.None? then script.receipt.value.snapshot.view.step else 0;
      var revision := if error.None? then script.receipt.value.revision else 0;
      var terminal := Reply(ACK, a.header,
                            Ack(m.header.sequence, LIFECYCLE, if error.None? then Applied else Failed, error, last, revision,
                                if error.None? then 1000 + LIFECYCLE else 0));
      return Record(m, completed, script.context.Kept(), if effective then script.receipt.Kept() else None, decision,
                    effective, a.scope.inputs, GoneInputs(a.scope.inputs, receiver.queue.pending.vals),
                    a.scope.groups, GoneGroups(a.scope.groups, receiver.assembler.groups.vals), terminal, error);
    }

    /**
     * Handles one lifecycle request: at most one attempt per request, and the queue, sessions and fragments either
     * untouched or moved exactly as the guard decided; an answer without error means the latter.
     */
    method Respond(m: Message, received: Reply, now: nat, script: Script) returns (r: Result<seq<Reply>>, scope: Scope)
      requires Valid()
      modifies this, receiver, receiver.registry, receiver.queue, receiver.assembler, receiver.worker
      ensures receiver.queue.entered == old(receiver.queue.entered) && old(receiver.queue.left) <= receiver.queue.left
      ensures receiver.worker.trail == old(receiver.worker.trail)
      ensures Grows(old(receiver.registry.ledger), receiver.registry.ledger)
      ensures Answered(m, received, r, scope, script)
      ensures attempted != old(attempted) ==> Recorded(old(records), old(bytes), m, scope)
      ensures Valid()
    {
      hide Receiver.Valid, RunSessions, Covers, Observed, ModelQueue.Valid, A.Reassembler.Abstract, G.Decide, TookEffect, Picked,
        SessionRegistry.Valid, W.ResourceWorker.Valid, A.Reassembler.Valid, Effect, Publishing, Grows, GroupsOf, InputBytes,
        GroupBytes, StoredBytes, EvidenceBytes, Reservation, LifecycleCompletable, InScope, HeaderFor;
      scope := Scope([], 0, 0, [], []);
      GrowsSelf(receiver.registry.ledger);
      var screened := Screen(m, received, now);
      if screened.Err? {
        return Err(screened.code), scope;
      }
      scope := screened.value.scope;
      attempted := attempted + {m.Key()};
      var record := Conduct(m, screened.value, now, script);
      EvidenceMore(receiver.registry.cfg.rules, records, record);
      EvidenceWithin(m, scope, record);
      records := records + [record];
      bytes := bytes + StoredBytes(receiver.registry.cfg.rules, record);
      var stored := receiver.RecordLifecycle(true, m, [received, record.reply], record.completed);
      if stored.Err? {
        return Err(stored.code), scope;
      }
      return Ok([received, record.reply]), scope;
    }

    lemma EvidenceWithin(m: Message, scope: Scope, r: Record)
      requires Valid() && Evidence(maxAhead, m, scope, r)
      ensures r.receipt.None? || |r.receipt.value.samples| <= m.body.stepCount + 2 ==>
        StoredBytes(receiver.registry.cfg.rules, r) <= Reservation(receiver.registry.cfg.rules, m, scope)
    {
      receiver.ValidParts();
      hide Receiver.Valid, StoredBytes, Reservation, Evidence;
      if r.receipt.None? || |r.receipt.value.samples| <= m.body.stepCount + 2 {
        EvidenceFits(receiver.registry.cfg.rules, maxAhead, m, scope, r);
      }
    }

    /** Nothing of it is attempted twice, and every recorded attempt left its effect in full or none. */
    twostate predicate Answered(m: Message, received: Reply, new r: Result<seq<Reply>>, new scope: Scope, script: Script)
      reads this, receiver, receiver.registry, receiver.queue, receiver.assembler
    {
      if attempted == old(attempted) then r.Err? && records == old(records) && bytes == old(bytes) && Locals() == old(Locals())
      else
        && m.Key() !in old(attempted) && attempted == old(attempted) + {m.Key()}
        && |records| == |old(records)| + 1 && records[..|old(records)|] == old(records)
        && var last := records[|old(records)|];
        && last.request == m
        && (Locals() == old(Locals()) || Effect(old(Locals()), Locals(), maxAhead, m, scope, script, last.decision))
        && (last.error.None? ==>
              && Effect(old(Locals()), Locals(), maxAhead, m, scope, script, last.decision)
              && script.receipt.Returned? && last.reply.body.Ack? && last.reply.body.stage.Applied?
              && scope.model in receiver.queue.steps
              && last.reply.body.appliedStep == receiver.queue.steps[scope.model])
        && (last.error.Some? ==> last.reply.body.Ack? && last.reply.body.stage.Failed?)
        && (r.Ok? ==> r.value == [received, last.reply])
    }

    /** The evidence of the attempt: reserved before it began, complete, and within its reservation but for excess samples. */
    ghost predicate Recorded(before: seq<Record>, bytesBefore: nat, m: Message, scope: Scope)
      reads this
    {
      && |records| == |before| + 1
      && var last, rules := records[|before|], receiver.registry.cfg.rules;
      && Evidence(maxAhead, m, scope, last)
      && bytes == bytesBefore + StoredBytes(rules, last)
      && bytesBefore + Reservation(rules, m, scope) <= maxBytes
      && (last.receipt.None? || |last.receipt.value.samples| <= m.body.stepCount + 2 ==> bytes <= maxBytes)
    }
  }

  /** What the screening of a request establishes: its scope, its session's deadline, its reception and its reply's header. */
  datatype Admittance = Admittance(scope: Scope, deadline: nat, received: nat, header: Header)

  lemma EvidenceMore(rules: Rules, records: seq<Record>, last: Record)
    ensures EvidenceBytes(rules, records + [last]) == EvidenceBytes(rules, records) + StoredBytes(rules, last)
  {
    assert (records + [last])[..|records|] == records;
  }

  /** A confirmed receipt stands where the decision puts the model. */
  lemma ConfirmedStep(r: Receipt, c: Snapshot, d: G.LifecycleDecision, scope: Scope, m: Message, started: nat, now: nat)
    requires m.body.LifecycleBody? && ReceiptRefusal(r, c, d, scope.identity, scope.model, m, started, now).None?
    ensures r.snapshot.view.step == d.Boundary() && r.snapshot.view.step <= U32_MAX
  {
    hide SamplesRefusal;
  }

  lemma StartStays(maxAhead: nat, m: Message, view: G.ModelView)
    requires m.body.LifecycleBody? && G.Decide(maxAhead, m, view).Ok?
    ensures var d := G.Decide(maxAhead, m, view).value;
      (d.newSession ==> d.clearQueues) && (!d.clearQueues ==> d.Boundary() == view.step)
  {
  }
}
