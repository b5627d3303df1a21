/** Inputs waiting for their model step: what the queue's tables mean. */
module Queue {
  import opened Common
  import opened Catalogue
  import opened Messages
  import opened Ordered
  import opened Registry

  /** One value a message writes to a model path. */
  datatype Value = Value(path: nat, content: nat, size: nat)

  datatype Source = DemoMission | Px4Sitl | PhysicalUut

  datatype Lane = FlightControl | Actuator

  datatype Writer = Writer(session: nat, role: Role, source: Option<Source>, lane: Option<Lane>)

  datatype Pending = Pending(
    key: Key,
    model: nat,
    message: Message,
    targetStep: nat,
    received: nat,
    values: seq<Value>,
    writer: Writer,
    bytes: nat)

  datatype Rejected = Rejected(pending: Pending, code: Code)

  /** Bounds, and the mapping of messages to model values. */
  datatype Settings = Settings(
    mappings: map<nat, Message -> Result<seq<Value>>>,
    encodable: Message -> Result<()>,
    demoModel: nat,
    maxRunSteps: nat,
    maxAheadSteps: nat,
    controlTimeoutNs: nat,
    capacity: nat)
  {
    /** A mapped message names each path once. */
    ghost predicate Valid()
    {
      forall model, m :: model in mappings && mappings[model](m).Ok? ==> DistinctPaths(mappings[model](m).value)
    }
  }

  ghost predicate DistinctPaths(values: seq<Value>)
  {
    forall i, j :: 0 <= i < j < |values| ==> values[i].path != values[j].path
  }

  type Slot = (nat, nat, nat) // model, step, path

  datatype Store = Store(
    steps: map<nat, nat>,
    pending: OrderedDict<Key, Pending>,
    writers: map<(nat, nat), Writer>,
    reservations: map<Slot, Key>,
    storedBytes: nat)

  function Paths(values: seq<Value>): (r: set<nat>)
    ensures forall i :: 0 <= i < |values| ==> values[i].path in r
  {
    set i | 0 <= i < |values| :: values[i].path
  }

  predicate Writes(p: Pending, path: nat)
  {
    path in Paths(p.values)
  }

  /** A pending input's claim on a slot. */
  predicate Claims(p: Pending, slot: Slot)
  {
    p.model == slot.0 && p.targetStep == slot.1 && Writes(p, slot.2)
  }

  function BytesOf(pending: OrderedDict<Key, Pending>): Key -> nat
  {
    k => if k in pending.vals then pending.vals[k].bytes else 0
  }

  ghost predicate PendingInv(cfg: Settings, k: Key, p: Pending, steps: map<nat, nat>)
  {
    && p.key == k
    && DistinctPaths(p.values)
    && p.model in steps && p.targetStep <= cfg.maxRunSteps
    && p.writer.session == k.0
  }

  /** Reservations are exactly the slots of the pending inputs, each held by one of them. */
  ghost predicate Reserved(s: Store)
  {
    && (forall slot :: slot in s.reservations ==>
          && s.reservations[slot] in s.pending.vals
          && Claims(s.pending.vals[s.reservations[slot]], slot))
    && (forall k, slot: Slot :: k in s.pending.vals && Claims(s.pending.vals[k], slot) ==>
          slot in s.reservations && s.reservations[slot] == k)
  }

  /** The writer on record for every path a pending input writes is that input's. */
  ghost predicate Owned(s: Store)
  {
    forall k, path: nat :: k in s.pending.vals && Writes(s.pending.vals[k], path) ==>
      (s.pending.vals[k].model, path) in s.writers && s.writers[(s.pending.vals[k].model, path)] == s.pending.vals[k].writer
  }

  ghost predicate StoreInv(cfg: Settings, s: Store)
  {
    && s.pending.Valid()
    && |s.pending.keys| <= cfg.capacity
    && (forall k :: k in s.pending.vals ==> PendingInv(cfg, k, s.pending.vals[k], s.steps))
    && Reserved(s)
    && Owned(s)
    && s.storedBytes == Total(s.pending.keys, BytesOf(s.pending))
  }

  /** Every input of a registered session still lies ahead of its model's current step. */
  ghost predicate Ahead(s: Store, t: Tables)
  {
    forall k :: k in s.pending.vals && k.0 in t.sessions.vals ==>
      s.pending.vals[k].model in s.steps && s.steps[s.pending.vals[k].model] < s.pending.vals[k].targetStep
  }

  /** An input of a registered session is for that session's model. */
  ghost predicate Matched(rc: Config, s: Store, t: Tables)
  {
    forall k :: k in s.pending.vals && k.0 in t.sessions.vals ==>
      && t.sessions.vals[k.0].grant < |rc.grants|
      && s.pending.vals[k].model == rc.grants[t.sessions.vals[k.0].grant].model
  }

  /** What the queue and the registry keep between them. */
  ghost predicate Linked(rc: Config, s: Store, t: Tables)
  {
    Ahead(s, t) && Matched(rc, s, t)
  }

  /** Fewer inputs and fewer sessions, with the same grants, keep the link. */
  lemma LinkedFewer(rc: Config, s: Store, t: Tables, s': Store, t': Tables)
    requires Linked(rc, s, t) && s'.steps == s.steps
    requires forall k :: k in s'.pending.vals ==> k in s.pending.vals && s'.pending.vals[k] == s.pending.vals[k]
    requires forall sid :: sid in t'.sessions.vals ==>
      sid in t.sessions.vals && t'.sessions.vals[sid].grant == t.sessions.vals[sid].grant
    ensures Linked(rc, s', t')
  {
  }

  /** A session opened under a number no pending input carries keeps the link. */
  lemma LinkedOpened(rc: Config, s: Store, t: Tables, t': Tables, sid: nat)
    requires Linked(rc, s, t) && forall k :: k in s.pending.vals ==> k.0 != sid
    requires forall x :: x in t'.sessions.vals && x != sid ==>
      x in t.sessions.vals && t'.sessions.vals[x].grant == t.sessions.vals[x].grant
    ensures Linked(rc, s, t')
  {
  }

  // ---------------------------------------------------------------- admission of one input

  /** The first refusal among a message's values, if any. */
  function ValueConflict(s: Store, model: nat, step: nat, writer: Writer, values: seq<Value>): Option<Code>
  {
    if values == [] then None
    else if (model, values[0].path) in s.writers && s.writers[(model, values[0].path)] != writer then Some(ControlOwner)
    else if (model, step, values[0].path) in s.reservations then Some(ControlOwner)
    else ValueConflict(s, model, step, writer, values[1..])
  }

  lemma {:induction false} NoConflict(s: Store, model: nat, step: nat, writer: Writer, values: seq<Value>)
    ensures ValueConflict(s, model, step, writer, values).None? <==>
      forall i :: 0 <= i < |values| ==>
        && ((model, values[i].path) in s.writers ==> s.writers[(model, values[i].path)] == writer)
        && (model, step, values[i].path) !in s.reservations
  {
    if values != [] {
      NoConflict(s, model, step, writer, values[1..]);
      assert forall i :: 0 < i < |values| ==> values[i] == values[1..][i - 1];
    }
  }

  function StepCheck(cfg: Settings, s: Store, model: nat, step: nat): Option<Code>
    requires model in s.steps
  {
    if step > cfg.maxRunSteps then Some(Range)
    else if step <= s.steps[model] then Some(Late)
    else if step - s.steps[model] > cfg.maxAheadSteps then Some(Range)
    else None
  }

  function ControlCheck(cfg: Settings, id: nat, model: nat, role: Role, source: Option<Source>, lane: Option<Lane>,
                        received: nat, now: nat): Option<Code>
  {
    if role == Controller then
      var expected := if id == 7 || id == 8 || id == 9 then FlightControl else Actuator;
      if source.None? || lane != Some(expected) || (source.value.DemoMission? && model != cfg.demoModel) then
        Some(ControlOwner)
      else if now >= received + cfg.controlTimeoutNs then Some(Expired)
      else None
    else if source.Some? || lane.Some? then Some(ControlOwner)
    else None
  }

  /** The writer table once a writer owns these paths of a model. */
  function PutWriters(writers: map<(nat, nat), Writer>, model: nat, writer: Writer, paths: set<nat>): map<(nat, nat), Writer>
  {
    map x | x in writers.Keys + (set path | path in paths :: (model, path)) ::
      if x.0 == model && x.1 in paths then writer else writers[x]
  }

  /** The reservation table once a key holds these paths of a model's step. */
  function PutSlots(slots: map<Slot, Key>, model: nat, step: nat, k: Key, paths: set<nat>): map<Slot, Key>
  {
    map x | x in slots.Keys + (set path | path in paths :: (model, step, path)) ::
      if x.0 == model && x.1 == step && x.2 in paths then k else slots[x]
  }

  /** The queue with one more input. */
  function Entered(s: Store, p: Pending): Store
  {
    s.(pending := s.pending.Put(p.key, p),
       writers := PutWriters(s.writers, p.model, p.writer, Paths(p.values)),
       reservations := PutSlots(s.reservations, p.model, p.targetStep, p.key, Paths(p.values)),
       storedBytes := s.storedBytes + p.bytes)
  }

  /** The reservation table without the slots of some paths. */
  function FreeSlots(slots: map<Slot, Key>, model: nat, step: nat, paths: set<nat>): map<Slot, Key>
  {
    map x | x in slots && !(x.0 == model && x.1 == step && x.2 in paths) :: slots[x]
  }

  /** The queue with one input fewer; its paths keep their writer. */
  function Left(s: Store, p: Pending): Store
    requires p.bytes <= s.storedBytes
  {
    s.(pending := s.pending.Delete(p.key),
       reservations := FreeSlots(s.reservations, p.model, p.targetStep, Paths(p.values)),
       storedBytes := s.storedBytes - p.bytes)
  }

  lemma PathsOf(values: seq<Value>, path: nat)
    ensures path in Paths(values) <==> exists i :: 0 <= i < |values| && values[i].path == path
  {
  }

  /** A checked input collides with nothing: every table gains it and loses nothing. */
  lemma EnteredInv(cfg: Settings, s: Store, p: Pending)
    requires StoreInv(cfg, s) && PendingInv(cfg, p.key, p, s.steps)
    requires p.key !in s.pending.vals && |s.pending.keys| < cfg.capacity
    requires ValueConflict(s, p.model, p.targetStep, p.writer, p.values).None?
    ensures StoreInv(cfg, Entered(s, p))
  {
    hide Reserved, Owned, Total, PutWriters, PutSlots, ValueConflict, Paths, NoDup, PendingInv;
    NoConflict(s, p.model, p.targetStep, p.writer, p.values);
    EnteredReserved(s, p);
    EnteredOwned(s, p);
    TotalPut(s.pending.keys, p.key, BytesOf(s.pending), BytesOf(s.pending.Put(p.key, p)));
  }

  lemma SlotHolder(s: Store, k: Key, slot: Slot)
    requires Reserved(s) && k in s.pending.vals && Claims(s.pending.vals[k], slot)
    ensures slot in s.reservations && s.reservations[slot] == k
  {
  }

  lemma SlotClaim(s: Store, slot: Slot)
    requires Reserved(s) && slot in s.reservations
    ensures s.reservations[slot] in s.pending.vals && Claims(s.pending.vals[s.reservations[slot]], slot)
  {
  }

  lemma EnteredSlots(s: Store, p: Pending, slot: Slot)
    ensures var r := Entered(s, p);
      && (slot in r.reservations <==> slot in s.reservations || Claims(p, slot))
      && (slot in r.reservations ==> r.reservations[slot] == if Claims(p, slot) then p.key else s.reservations[slot])
      && r.pending.vals == s.pending.vals[p.key := p]
  {
    hide Paths;
    assert Claims(p, slot) ==> slot == (p.model, p.targetStep, slot.2);
  }

  lemma ClaimedFree(s: Store, p: Pending, slot: Slot)
    requires forall i :: 0 <= i < |p.values| ==> (p.model, p.targetStep, p.values[i].path) !in s.reservations
    ensures Claims(p, slot) ==> slot !in s.reservations
  {
    if Claims(p, slot) {
      PathsOf(p.values, slot.2);
      assert slot == (p.model, p.targetStep, slot.2);
    }
  }

  lemma EnteredReserved(s: Store, p: Pending)
    requires Reserved(s) && p.key !in s.pending.vals
    requires forall i :: 0 <= i < |p.values| ==> (p.model, p.targetStep, p.values[i].path) !in s.reservations
    ensures Reserved(Entered(s, p))
  {
    hide Claims, Entered;
    var r := Entered(s, p);
    forall slot | slot in r.reservations
      ensures r.reservations[slot] in r.pending.vals && Claims(r.pending.vals[r.reservations[slot]], slot)
    {
      EnteredSlots(s, p, slot);
      if !Claims(p, slot) {
        SlotClaim(s, slot);
      }
    }
    forall k, slot: Slot | k in r.pending.vals && Claims(r.pending.vals[k], slot)
      ensures slot in r.reservations && r.reservations[slot] == k
    {
      EnteredSlots(s, p, slot);
      ClaimedFree(s, p, slot);
      if k != p.key {
        SlotHolder(s, k, slot);
      }
    }
  }

  lemma EnteredOwned(s: Store, p: Pending)
    requires Owned(s) && p.key !in s.pending.vals
    requires forall i :: 0 <= i < |p.values| && (p.model, p.values[i].path) in s.writers ==>
      s.writers[(p.model, p.values[i].path)] == p.writer
    ensures Owned(Entered(s, p))
  {
    var r := Entered(s, p);
    forall k, path: nat | k in r.pending.vals && Writes(r.pending.vals[k], path)
      ensures var q := r.pending.vals[k];
        (q.model, path) in r.writers && r.writers[(q.model, path)] == q.writer
    {
      var q := r.pending.vals[k];
      if k == p.key {
        assert (q.model, path) in r.writers;
      } else {
        assert (q.model, path) in s.writers && s.writers[(q.model, path)] == q.writer;
        PathsOf(p.values, path);
      }
    }
  }

  lemma LeftInv(cfg: Settings, s: Store, p: Pending)
    requires StoreInv(cfg, s) && p.key in s.pending.vals && s.pending.vals[p.key] == p
    ensures p.bytes <= s.storedBytes
    ensures StoreInv(cfg, Left(s, p))
    ensures forall path :: path in Paths(p.values) ==> (p.model, p.targetStep, path) in s.reservations
  {
    TotalWithout(s.pending.keys, p.key, BytesOf(s.pending));
    TotalSame(Without(s.pending.keys, p.key), BytesOf(s.pending), BytesOf(s.pending.Delete(p.key)));
    LeftReserved(s, p);
    LeftOwned(s, p);
    hide Owned, Total, Paths, NoDup;
    forall path | path in Paths(p.values) ensures (p.model, p.targetStep, path) in s.reservations {
      assert Claims(p, (p.model, p.targetStep, path));
    }
  }

  lemma LeftReserved(s: Store, p: Pending)
    requires Reserved(s) && p.key in s.pending.vals && s.pending.vals[p.key] == p && p.bytes <= s.storedBytes
    ensures Reserved(Left(s, p))
  {
    var r := Left(s, p);
    forall slot | slot in r.reservations
      ensures r.reservations[slot] in r.pending.vals && Claims(r.pending.vals[r.reservations[slot]], slot)
    {
      SlotClaim(s, slot);
    }
    forall k, slot: Slot | k in r.pending.vals && Claims(r.pending.vals[k], slot)
      ensures slot in r.reservations && r.reservations[slot] == k
    {
      SlotHolder(s, k, slot);
      if Claims(p, slot) {
        SlotHolder(s, p.key, slot);
      }
    }
  }

  lemma LeftOwned(s: Store, p: Pending)
    requires Owned(s) && p.key in s.pending.vals && p.bytes <= s.storedBytes
    ensures Owned(Left(s, p))
  {
    var r := Left(s, p);
    forall k, path: nat | k in r.pending.vals && Writes(r.pending.vals[k], path)
      ensures var q := r.pending.vals[k];
        (q.model, path) in r.writers && r.writers[(q.model, path)] == q.writer
    {
      assert k in s.pending.vals && Writes(s.pending.vals[k], path);
    }
  }

  /** Two different pending inputs never write the same path at the same step of a model. */
  lemma DisjointSlots(cfg: Settings, s: Store, j: Key, k: Key, path: nat)
    requires StoreInv(cfg, s) && j in s.pending.vals && k in s.pending.vals
    requires s.pending.vals[j].model == s.pending.vals[k].model
    requires s.pending.vals[j].targetStep == s.pending.vals[k].targetStep
    requires Writes(s.pending.vals[j], path) && Writes(s.pending.vals[k], path)
    ensures j == k
  {
    var slot := (s.pending.vals[j].model, s.pending.vals[j].targetStep, path);
    assert Reserved(s);
    hide StoreInv;
    SlotHolder(s, j, slot);
    SlotHolder(s, k, slot);
  }

  // ---------------------------------------------------------------- the whole admission decision

  /** The queue's verdict on a validated message against current session tables. */
  function Judge(cfg: Settings, rc: Config, t: Tables, s: Store, m: Message, source: Option<Source>, lane: Option<Lane>,
                 now: nat): Result<Pending>
  {
    var sid := m.header.sessionId;
    if sid !in t.sessions.vals || t.sessions.vals[sid].grant >= |rc.grants| then Err(StaleSession)
    else
      var model := rc.grants[t.sessions.vals[sid].grant].model;
      if model !in cfg.mappings || model !in s.steps then Err(TargetMissing)
      else
        var values :- cfg.mappings[model](m);
        if m.id !in rc.rules.roles then Err(Unsupported)
        else if rc.rules.roles[m.id].AnySessionRole? || rc.rules.roles[m.id].role !in t.sessions.vals[sid].roles then
          Err(Authorization)
        else
          var role := rc.rules.roles[m.id].role;
          var admitted :- AdmittedRecord(t, m);
          var _ :- cfg.encodable(m);
          var step := m.header.targetStep;
          var late := StepCheck(cfg, s, model, step);
          if late.Some? then Err(late.value)
          else
            var control := ControlCheck(cfg, m.id, model, role, source, lane, admitted.received, now);
            if control.Some? then Err(control.value)
            else
              var writer := Writer(sid, role, source, lane);
              var conflict := ValueConflict(s, model, step, writer, values);
              if conflict.Some? then Err(conflict.value)
              else if s.pending.Size() >= cfg.capacity then Err(BufferFull)
              else
                Ok(Pending(m.Key(), model, m, step, admitted.received, values, writer,
                           rc.rules.messageBytes(m) + TotalSize(values)))
  }

  function TotalSize(values: seq<Value>): nat
  {
    if values == [] then 0 else values[0].size + TotalSize(values[1..])
  }

  /** A judged input fits the queue, and its admission is claimable. */
  lemma JudgedFits(cfg: Settings, rc: Config, t: Tables, s: Store, m: Message, source: Option<Source>, lane: Option<Lane>,
                   now: nat)
    requires cfg.Valid() && Judge(cfg, rc, t, s, m, source, lane, now).Ok?
    ensures var p := Judge(cfg, rc, t, s, m, source, lane, now).value;
      && p.key == m.Key()
      && PendingInv(cfg, p.key, p, s.steps)
      && |s.pending.keys| < cfg.capacity
      && ValueConflict(s, p.model, p.targetStep, p.writer, p.values).None?
      && AdmittedRecord(t, m).Ok?
      && p.key.0 in t.sessions.vals && t.sessions.vals[p.key.0].grant < |rc.grants|
      && p.model == rc.grants[t.sessions.vals[p.key.0].grant].model
      && s.steps[p.model] < p.targetStep
      && (p.writer.role == Controller ==> now < p.received + cfg.controlTimeoutNs)
  {
    hide ValueConflict, AdmittedRecord, TotalSize;
  }

  // ---------------------------------------------------------------- leaving the queue

  function Except(test: Pending -> bool): Pending -> bool
  {
    (p: Pending) => !test(p)
  }

  function KeysOf(items: seq<Pending>): (r: seq<Key>)
    ensures |r| == |items|
  {
    if items == [] then [] else [items[0].key] + KeysOf(items[1..])
  }

  lemma {:induction false} KeysOfAppend(a: seq<Pending>, b: seq<Pending>)
    ensures KeysOf(a + b) == KeysOf(a) + KeysOf(b)
  {
    if a == [] {
      assert a + b == b;
    } else {
      KeysOfAppend(a[1..], b);
      assert (a + b)[1..] == a[1..] + b;
    }
  }

  /** Everything ever queued is pending or has left, never both, and left once. */
  ghost predicate History(pending: OrderedDict<Key, Pending>, entered: seq<Key>, left: seq<Key>)
  {
    && NoDup(entered) && NoDup(left)
    && (forall k :: k in entered <==> k in pending.vals || k in left)
    && (forall k :: k in pending.vals ==> k !in left)
  }

  lemma HistoryEnter(pending: OrderedDict<Key, Pending>, entered: seq<Key>, left: seq<Key>, p: Pending)
    requires History(pending, entered, left) && p.key !in entered
    ensures History(pending.Put(p.key, p), entered + [p.key], left)
    ensures p.key !in pending.vals
  {
  }

  lemma HistoryLeave(pending: OrderedDict<Key, Pending>, entered: seq<Key>, left: seq<Key>, k: Key)
    requires History(pending, entered, left) && k in pending.vals
    ensures History(pending.Delete(k), entered, left + [k])
  {
  }

  lemma LinkedEntered(rc: Config, s: Store, t: Tables, t': Tables, p: Pending)
    requires Linked(rc, s, t) && t'.sessions == t.sessions && p.model in s.steps && s.steps[p.model] < p.targetStep
    requires p.key.0 in t.sessions.vals ==>
      && t.sessions.vals[p.key.0].grant < |rc.grants|
      && p.model == rc.grants[t.sessions.vals[p.key.0].grant].model
    ensures Linked(rc, Entered(s, p), t')
  {
  }

  lemma StepsFree(cfg: Settings, s: Store, model: nat, step: nat)
    requires StoreInv(cfg, s) && model in s.steps
    ensures StoreInv(cfg, s.(steps := s.steps[model := step]))
  {
    hide Total, NoDup;
    var r := s.(steps := s.steps[model := step]);
    assert Reserved(r) by { assert Reserved(s); }
    assert Owned(r) by { assert Owned(s); }
    forall k | k in r.pending.vals ensures PendingInv(cfg, k, r.pending.vals[k], r.steps) {
      assert PendingInv(cfg, k, s.pending.vals[k], s.steps);
    }
  }

  /** A model's step may move to any place once no registered session has an input due by then. */
  lemma LinkedMoved(rc: Config, s: Store, t: Tables, model: nat, step: nat)
    requires Linked(rc, s, t) && model in s.steps
    requires forall k :: k in s.pending.vals && k.0 in t.sessions.vals && s.pending.vals[k].model == model ==>
      s.pending.vals[k].targetStep > step
    ensures Linked(rc, s.(steps := s.steps[model := step]), t)
  {
  }

  /** Writers of sessions nobody pends for may be forgotten. */
  lemma WritersKept(cfg: Settings, s: Store, writers: map<(nat, nat), Writer>)
    requires StoreInv(cfg, s)
    requires forall x :: x in s.writers && (exists k :: k in s.pending.vals && s.writers[x].session == k.0) ==>
      x in writers && writers[x] == s.writers[x]
    ensures StoreInv(cfg, s.(writers := writers))
  {
    var r := s.(writers := writers);
    assert Reserved(r) by { assert Reserved(s); }
    forall k, path: nat | k in r.pending.vals && Writes(r.pending.vals[k], path)
      ensures var q := r.pending.vals[k];
        (q.model, path) in r.writers && r.writers[(q.model, path)] == q.writer
    {
      assert Writes(s.pending.vals[k], path);
      assert PendingInv(cfg, k, s.pending.vals[k], s.steps);
    }
    hide Total, NoDup, Reserved;
  }
}
