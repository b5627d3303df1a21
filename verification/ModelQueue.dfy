/** The model-input queue object, over the session registry that admits its inputs. */
module ModelQueue {
  import opened Common
  import opened Catalogue
  import opened Messages
  import opened Ordered
  import opened Registry
  import opened Queue
  import opened SessionRegistry
  import opened Batch

  datatype StepBatch = StepBatch(ready: seq<Pending>, rejected: seq<Rejected>)

  function Everything(): Pending -> bool { (p: Pending) => true }

  function OfSession(sid: nat): Pending -> bool { (p: Pending) => p.key.0 == sid }

  function Due(model: nat, step: nat): Pending -> bool
  {
    (p: Pending) => p.model == model && p.targetStep <= step
  }

  /** The writer table without a session's entries. */
  function OtherWriters(writers: map<(nat, nat), Writer>, sid: nat): map<(nat, nat), Writer>
  {
    map x | x in writers && writers[x].session != sid :: writers[x]
  }

  function Registered(t: Tables): Pending -> bool { (p: Pending) => p.key.0 in t.sessions.vals }

  function Outside(sids: seq<nat>): Pending -> bool { (p: Pending) => p.key.0 !in sids }

  function Stale(items: seq<Pending>): (r: seq<Rejected>)
    ensures |r| == |items|
  {
    if items == [] then [] else [Rejected(items[0], StaleSession)] + Stale(items[1..])
  }

  /** The inputs of these sessions, session by session, each in queue order. */
  function StaleInputs(sids: seq<nat>, pending: OrderedDict<Key, Pending>): seq<Rejected>
    decreases |sids|
  {
    if sids == [] then []
    else
      StaleInputs(sids[..|sids| - 1], pending) + Stale(Picked(pending.keys, pending.vals, OfSession(sids[|sids| - 1])))
  }

  function RejectedKeys(items: seq<Rejected>): seq<Key>
  {
    if items == [] then [] else [items[0].pending.key] + RejectedKeys(items[1..])
  }

  /** Sessions that pend or write but are not registered. */
  function StaleSessions(s: Store, t: Tables): set<nat>
  {
    (set k | k in s.pending.vals && k.0 !in t.sessions.vals :: k.0)
    + (set x | x in s.writers && s.writers[x].session !in t.sessions.vals :: s.writers[x].session)
  }

  function LiveWriters(writers: map<(nat, nat), Writer>, t: Tables): map<(nat, nat), Writer>
  {
    map x | x in writers && writers[x].session in t.sessions.vals :: writers[x]
  }

  function WritersOutside(writers: map<(nat, nat), Writer>, sids: seq<nat>): map<(nat, nat), Writer>
  {
    map x | x in writers && writers[x].session !in sids :: writers[x]
  }

  function Unlisted(live: set<nat>): Pending -> bool { (p: Pending) => p.key.0 !in live }

  /** A controller input too old to apply. */
  function Overtaken(timeoutNs: nat, now: nat): Pending -> bool
  {
    (p: Pending) => p.writer.role == Controller && now >= p.received + timeoutNs
  }

  function Fit(items: seq<Pending>, timeoutNs: nat, now: nat): seq<Pending>
  {
    if items == [] then []
    else (if Overtaken(timeoutNs, now)(items[0]) then [] else [items[0]]) + Fit(items[1..], timeoutNs, now)
  }

  function Overtime(items: seq<Pending>, timeoutNs: nat, now: nat): seq<Rejected>
  {
    if items == [] then []
    else
      (if Overtaken(timeoutNs, now)(items[0]) then [Rejected(items[0], Expired)] else [])
      + Overtime(items[1..], timeoutNs, now)
  }

  function StepRefusal(cfg: Settings, s: Store, model: nat, step: nat, running: bool): Option<Code>
  {
    if !running then Some(State)
    else if model !in s.steps then Some(Model)
    else if step == 0 then Some(OutOfOrder)
    else if step > cfg.maxRunSteps then Some(Range)
    else if step != s.steps[model] + 1 then Some(OutOfOrder)
    else None
  }

  class ModelQueue {
    const cfg: Settings
    const registry: SessionRegistry
    var steps: map<nat, nat>
    var pending: OrderedDict<Key, Pending>
    var writers: map<(nat, nat), Writer>
    var reservations: map<Slot, Key>
    var storedBytes: nat
    var lastNow: int
    var closed: bool
    ghost var entered: seq<Key>
    ghost var left: seq<Key>

    function View(): Store
      reads this
    {
      Store(steps, pending, writers, reservations, storedBytes)
    }

    /** The queue's own tables and history are consistent. */
    ghost predicate Sound()
      reads this
    {
      cfg.Valid() && StoreInv(cfg, View()) && History(pending, entered, left)
    }

    /** Every input ever queued was claimed from the registry. */
    ghost predicate Valid()
      reads this, registry
    {
      && registry.Valid() && Sound()
      && (forall k :: k in entered ==> k in registry.ledger.claims)
      && Linked(registry.cfg, View(), registry.View())
    }

    function Clock(now: nat): Result<()>
      reads this
    {
      if closed then Err(State) else if now < lastNow then Err(Schema) else Ok(())
    }

    constructor (cfg: Settings, registry: SessionRegistry)
      requires cfg.Valid() && registry.Valid()
      ensures Valid() && this.cfg == cfg && this.registry == registry
      ensures steps.Keys == cfg.mappings.Keys && (forall model :: model in steps ==> steps[model] == 0)
      ensures pending == Empty() && entered == [] && left == [] && lastNow == -1 && !closed
    {
      hide StoreInv, History, Inv, Config.Valid, Settings.Valid, Linked;
      EmptyStore(cfg, map model | model in cfg.mappings :: 0);
      NothingYet(registry.cfg, map model | model in cfg.mappings :: 0, registry.View());
      this.cfg, this.registry := cfg, registry;
      steps := map model | model in cfg.mappings :: 0;
      pending, writers, reservations, storedBytes := Empty(), map[], map[], 0;
      lastNow, closed, entered, left := -1, false, [], [];
    }

    /** Queues one input, claiming its admission; on refusal nothing but the clock has changed. */
    method Enqueue(m: Message, running: bool, now: nat, source: Option<Source>, lane: Option<Lane>)
        returns (r: Result<Pending>)
      requires Valid()
      modifies this, registry
      ensures Valid() && Trimmed(old(registry.Picture()), registry.Picture(), now)
      ensures old(Clock(now)).Err? ==>
        r == Err(old(Clock(now)).code) && Untouched() && lastNow == old(lastNow) && registry.View() == old(registry.View())
      ensures old(Clock(now)).Ok? ==> lastNow == now && closed == old(closed)
      ensures old(Clock(now)).Ok? && !running ==> r == Err(State) && Untouched()
      ensures old(Clock(now)).Ok? && running && registry.cfg.rules.accepts(m).Err? ==>
        r == Err(registry.cfg.rules.accepts(m).code) && Untouched()
      ensures old(Clock(now)).Ok? && running && registry.cfg.rules.accepts(m).Ok? && old(registry.Clock(now)).Err? ==>
        r == Err(old(registry.Clock(now)).code) && Untouched()
      ensures old(Clock(now)).Ok? && running && registry.cfg.rules.accepts(m).Ok? && old(registry.Clock(now)).Ok? ==>
        var t := Current(old(registry.View()), now);
        && r == Judge(cfg, registry.cfg, t, old(View()), m, source, lane, now)
        && registry.lastNow == now
        && (r.Err? ==> Untouched() && registry.View() == t && registry.ledger == old(registry.ledger))
        && (r.Ok? ==>
              && r.value.key == m.Key()
              && m.Key() !in old(pending).vals && m.Key() !in old(registry.ledger).claims
              && View() == Entered(old(View()), r.value)
              && entered == old(entered) + [m.Key()] && left == old(left)
              && m.Key() in t.records.vals
              && registry.View() == Claimed(t, m)
              && registry.ledger == Claiming(old(registry.ledger), m.Key()))
    {
      hide StoreInv, History, Inv, Current, Judge, Grows, AdmittedRecord, Claimed, ExpiredSessions, Entered, Settings.Valid,
        Config.Valid, Linked, OrderedDict.Valid;
      GrowsSame(registry.ledger);
      var clock := Clock(now);
      if clock.Err? {
        return Err(clock.code);
      }
      lastNow := now;
      if !running {
        return Err(State);
      }
      var accepted := registry.cfg.rules.accepts(m);
      if accepted.Err? {
        return Err(accepted.code);
      }
      RolledTables(registry.cfg, registry.View(), registry.nextId, registry.ledger, now);
      LinkedCurrent(registry.cfg, View(), registry.View(), now);
      var expired := registry.Expire(now);
      if expired.Err? {
        return Err(expired.code);
      }
      r := Judge(cfg, registry.cfg, registry.View(), View(), m, source, lane, now);
      if r.Err? {
        return;
      }
      var p := r.value;
      JudgedFits(cfg, registry.cfg, registry.View(), View(), m, source, lane, now);
      // Commit only after every check has passed; the claim cannot be refused.
      var claimed := registry.ClaimAdmitted(m, now);
      assert claimed.Ok?;
      LinkedClaimed(registry.cfg, View(), Current(old(registry.View()), now), m, p);
      EnteredParts(View(), p);
      HistoryEnter(pending, entered, left, p);
      EnteredInv(cfg, View(), p);
      Insert(p);
      entered := entered + [p.key];
    }

    /** Nothing in the queue's tables or history changed. */
    twostate predicate Untouched()
      reads this
    {
      View() == old(View()) && entered == old(entered) && left == old(left)
    }

    method Insert(p: Pending)
      modifies this`pending, this`storedBytes, this`writers, this`reservations
      ensures View() == Entered(old(View()), p)
    {
      hide Paths;
      pending := pending.Put(p.key, p);
      storedBytes := storedBytes + p.bytes;
      writers := SetWriters(writers, p);
      reservations := SetSlots(reservations, p);
    }

    /** Takes one input out: its slots are free again, its paths keep their writer. */
    method Remove(p: Pending)
      requires Sound() && p.key in pending.vals && pending.vals[p.key] == p
      modifies this`pending, this`storedBytes, this`reservations, this`left
      ensures Sound()
      ensures pending == old(pending).Delete(p.key) && left == old(left) + [p.key]
    {
      hide StoreInv, History, Paths, Settings.Valid;
      LeftInv(cfg, View(), p);
      HistoryLeave(pending, entered, left, p.key);
      LeftParts(View(), p);
      pending := pending.Delete(p.key);
      storedBytes := storedBytes - p.bytes;
      reservations := ClearSlots(reservations, p);
      left := left + [p.key];
    }

    /** Takes out every pending input that passes a test, in queue order. */
    method TakeOut(test: Pending -> bool) returns (out: seq<Pending>)
      requires Sound()
      modifies this`pending, this`storedBytes, this`reservations, this`left
      ensures Sound()
      ensures out == Picked(old(pending).keys, old(pending).vals, test)
      ensures pending == old(pending).Select(Except(test))
      ensures left == old(left) + KeysOf(out)
    {
      hide StoreInv, History, Settings.Valid, Picked, Passing, OrderedDict.Select, SweptTo, KeysOf, OrderedDict.Valid, NoDup,
        OrderedDict.Delete;
      StorePending(cfg, View());
      ghost var start := pending;
      SweptAll(start, Except(test));
      var keys := pending.keys;
      out := [];
      PickedNone(pending.vals, test);
      for i := 0 to |keys|
        invariant Sound()
        invariant pending == SweptTo(start, Except(test), i)
        invariant out == Picked(keys[..i], start.vals, test)
        invariant left == old(left) + KeysOf(out)
      {
        SweptNext(start, Except(test), i);
        PickedNext(start, test, i);
        var p := pending.vals[keys[i]];
        if test(p) {
          KeyOfPending(cfg, View(), keys[i]);
          Remove(p);
          KeysOfAppend(out, [p]);
          KeysOfOne(p);
          out := out + [p];
        }
      }
      assert keys[..|keys|] == keys;
    }

    /** Ends a session's inputs and frees the paths it was writing. */
    method DiscardSession(sid: nat) returns (removed: seq<Pending>)
      requires Sound()
      modifies this`pending, this`storedBytes, this`reservations, this`left, this`writers
      ensures Sound()
      ensures removed == Picked(old(pending).keys, old(pending).vals, OfSession(sid))
      ensures pending == old(pending).Select(Except(OfSession(sid)))
      ensures writers == OtherWriters(old(writers), sid)
      ensures left == old(left) + KeysOf(removed)
    {
      hide StoreInv, History, Settings.Valid, Picked, KeysOf;
      removed := TakeOut(OfSession(sid));
      DiscardWriters(cfg, View(), sid);
      writers := OtherWriters(writers, sid);
    }

    method Clear() returns (removed: seq<Pending>)
      requires Sound()
      modifies this`pending, this`storedBytes, this`reservations, this`left, this`writers
      ensures Sound()
      ensures removed == Picked(old(pending).keys, old(pending).vals, Everything())
      ensures pending == Empty() && writers == map[] && reservations == map[] && storedBytes == 0
      ensures left == old(left) + KeysOf(removed)
    {
      hide StoreInv, History, Settings.Valid, Picked, KeysOf;
      removed := Picked(pending.keys, pending.vals, Everything());
      ClearedSound(cfg, View(), entered, left);
      pending, writers, reservations, storedBytes := Empty(), map[], map[], 0;
      left := left + KeysOf(removed);
    }

    method Close() returns (removed: seq<Pending>)
      requires Valid()
      modifies this
      ensures Valid() && closed
      ensures removed == Picked(old(pending).keys, old(pending).vals, Everything())
      ensures pending == Empty() && left == old(left) + KeysOf(removed) && entered == old(entered)
    {
      hide StoreInv, History, Settings.Valid, Picked, KeysOf, Inv;
      removed := Clear();
      closed := true;
    }

    /** Discards, session by session in ascending order, everything of sessions that are no longer registered. */
    method Expire(now: nat) returns (r: Result<seq<Rejected>>)
      requires Valid()
      modifies this, registry
      ensures Valid() && Trimmed(old(registry.Picture()), registry.Picture(), now)
      ensures registry.ledger == old(registry.ledger) && entered == old(entered)
      ensures old(Clock(now)).Err? ==>
        r == Err(old(Clock(now)).code) && Untouched() && lastNow == old(lastNow) && registry.View() == old(registry.View())
      ensures old(Clock(now)).Ok? ==> lastNow == now && closed == old(closed) && steps == old(steps)
      ensures old(Clock(now)).Ok? && old(registry.Clock(now)).Err? ==> r == Err(old(registry.Clock(now)).code) && Untouched()
      ensures old(Clock(now)).Ok? && old(registry.Clock(now)).Ok? ==>
        var t := Current(old(registry.View()), now);
        && registry.View() == t && registry.lastNow == now
        && registry.cancels == old(registry.cancels) + ExpiredSessions(old(registry.View()), now)
        && registry.nextId == old(registry.nextId) && registry.closed == old(registry.closed)
        && r == Ok(StaleInputs(Ascending(StaleSessions(old(View()), t)), old(pending)))
        && pending == old(pending).Select(Registered(t))
        && writers == LiveWriters(old(writers), t)
        && left == old(left) + RejectedKeys(r.value)
    {
      hide StoreInv, History, Settings.Valid, Inv, Current, ExpiredSessions, KeysOf, Picked, StaleInputs, Ascending,
        RejectedKeys, OrderedDict.Select, StaleSessions, Config.Valid, LiveWriters, Linked, OrderedDict.Valid;
      var clock := Clock(now);
      if clock.Err? {
        return Err(clock.code);
      }
      lastNow := now;
      LinkedCurrent(registry.cfg, View(), registry.View(), now);
      var expired := registry.Expire(now);
      if expired.Err? {
        return Err(expired.code);
      }
      ghost var before := View();
      var rejected := DropStale(StaleSessions(View(), registry.View()), registry.View());
      LinkedDropped(registry.cfg, before, registry.View(), View());
      return Ok(rejected);
    }

    /** Discards the stale sessions in ascending order. */
    method DropStale(stale: set<nat>, ghost t: Tables) returns (rejected: seq<Rejected>)
      requires Sound() && stale == StaleSessions(View(), t)
      modifies this`pending, this`storedBytes, this`reservations, this`left, this`writers
      ensures Sound()
      ensures rejected == StaleInputs(Ascending(stale), old(pending))
      ensures pending == old(pending).Select(Registered(t)) && writers == LiveWriters(old(writers), t)
      ensures left == old(left) + RejectedKeys(rejected)
    {
      hide *;
      var order := Sort(stale);
      AscendingFacts(stale);
      rejected := [];
      SoundPending();
      ViewParts();
      StaleNone(View());
      for i := 0 to |order|
        invariant Sound()
        invariant pending == old(pending).Select(Outside(order[..i])) && writers == WritersOutside(old(writers), order[..i])
        invariant rejected == StaleInputs(order[..i], old(pending))
        invariant left == old(left) + RejectedKeys(rejected)
      {
        var sid := order[i];
        DistinctPrefix(order, i);
        StaleNext(old(pending), old(writers), order[..i], sid);
        var removed := DiscardSession(sid);
        StaleKeys(rejected, removed);
        rejected := rejected + Stale(removed);
      }
      assert order[..|order|] == order;
      StaleDone(old(View()), t, order);
    }

    /** Opens one model step: everything due leaves the queue, ready or refused. */
    method BeginStep(model: nat, step: nat, running: bool, now: nat) returns (r: Result<StepBatch>)
      requires Valid()
      modifies this, registry
      ensures Valid() && Trimmed(old(registry.Picture()), registry.Picture(), now)
      ensures registry.ledger == old(registry.ledger) && entered == old(entered)
      ensures r.Err? ==> pending == old(pending) && left == old(left)
      ensures old(Clock(now)).Err? ==> r == Err(old(Clock(now)).code) && Untouched() && lastNow == old(lastNow)
      ensures old(Clock(now)).Ok? ==> lastNow == now && closed == old(closed)
      ensures old(Clock(now)).Ok? && StepRefusal(cfg, old(View()), model, step, running).Some? ==>
        r == Err(StepRefusal(cfg, old(View()), model, step, running).value) && Untouched()
      ensures old(Clock(now)).Ok? && StepRefusal(cfg, old(View()), model, step, running).None? && old(registry.Clock(now)).Err? ==>
        r == Err(old(registry.Clock(now)).code) && Untouched()
      ensures old(Clock(now)).Ok? && StepRefusal(cfg, old(View()), model, step, running).None? && old(registry.Clock(now)).Ok? ==>
        var t := Current(old(registry.View()), now);
        var live := old(pending).Select(Registered(t));
        var stale := StaleInputs(Ascending(StaleSessions(old(View()), t)), old(pending));
        var due := Picked(live.keys, live.vals, Due(model, step));
        && r.Ok?
        && r.value == StepBatch(Fit(due, cfg.controlTimeoutNs, now), stale + Overtime(due, cfg.controlTimeoutNs, now))
        && (forall p :: p in r.value.ready ==> p.model == model && p.targetStep == step)
        && (forall x :: x in r.value.rejected ==> x.code == StaleSession || x.code == Expired)
        && multiset(left) == multiset(old(left)) + multiset(KeysOf(r.value.ready)) + multiset(RejectedKeys(r.value.rejected))
        && steps == old(steps)[model := step]
        && pending == live.Select(Except(Due(model, step)))
        && writers == LiveWriters(old(writers), t)
        && left == old(left) + RejectedKeys(stale) + KeysOf(due)
    {
      hide StoreInv, History, Settings.Valid, Inv, Current, ExpiredSessions, KeysOf, Picked, StaleInputs, Ascending,
        RejectedKeys, OrderedDict.Select, StaleSessions, Config.Valid, LiveWriters, Fit, Overtime, OrderedDict.Valid, Linked;
      var clock := Clock(now);
      if clock.Err? {
        return Err(clock.code);
      }
      lastNow := now;
      if !running {
        return Err(State);
      }
      if model !in steps {
        return Err(Model);
      }
      if !(1 <= step <= cfg.maxRunSteps) {
        return Err(if step == 0 then OutOfOrder else Range);
      }
      if step != steps[model] + 1 {
        return Err(OutOfOrder);
      }
      var expired := Expire(now);
      if expired.Err? {
        return Err(expired.code);
      }
      RegisteredOnly(cfg, View(), old(pending), registry.View());
      ghost var s, t := old(View()), registry.View();
      var ready, late := OpenStep(model, step, now);
      BatchFacts(s, t, model, step, cfg.controlTimeoutNs, now, StepBatch(ready, expired.value + late), old(left), left);
      return Ok(StepBatch(ready, expired.value + late));
    }

    /** The step itself, once only registered sessions' inputs pend. */
    method OpenStep(model: nat, step: nat, now: nat) returns (ready: seq<Pending>, late: seq<Rejected>)
      requires Valid() && model in steps && step == steps[model] + 1
      requires forall k :: k in pending.vals ==> k.0 in registry.sessions.vals
      modifies this`steps, this`pending, this`storedBytes, this`reservations, this`left
      ensures Valid() && steps == old(steps)[model := step]
      ensures var due := Picked(old(pending).keys, old(pending).vals, Due(model, step));
        && ready == Fit(due, cfg.controlTimeoutNs, now) && late == Overtime(due, cfg.controlTimeoutNs, now)
        && (forall p :: p in ready ==> p.model == model && p.targetStep == step)
        && pending == old(pending).Select(Except(Due(model, step)))
        && left == old(left) + KeysOf(due)
    {
      hide StoreInv, History, Settings.Valid, Inv, KeysOf, Picked, OrderedDict.Select, Config.Valid,
        Fit, Overtime, OrderedDict.Valid, Linked;
      DueExactly(cfg, registry.cfg, View(), registry.View(), model, step);
      ghost var before := View();
      var due := TakeOut(Due(model, step));
      StepOpened(cfg, registry.cfg, before, View(), registry.View(), model, step);
      steps := steps[model := step];
      ready, late := Triage(due, step, now);
    }

    /** Splits the inputs of a step into those still usable and those overtaken by time. */
    method Triage(due: seq<Pending>, step: nat, now: nat) returns (ready: seq<Pending>, rejected: seq<Rejected>)
      requires forall i :: 0 <= i < |due| ==> due[i].targetStep == step
      ensures ready == Fit(due, cfg.controlTimeoutNs, now) && rejected == Overtime(due, cfg.controlTimeoutNs, now)
      ensures forall p :: p in ready ==> p in due
      ensures forall x :: x in rejected ==> x.code == Expired
    {
      hide Fit, Overtime;
      ready, rejected := [], [];
      assert due[0..] == due;
      for i := 0 to |due|
        invariant ready + Fit(due[i..], cfg.controlTimeoutNs, now) == Fit(due, cfg.controlTimeoutNs, now)
        invariant rejected + Overtime(due[i..], cfg.controlTimeoutNs, now) == Overtime(due, cfg.controlTimeoutNs, now)
        invariant forall p :: p in ready ==> p in due
        invariant forall x :: x in rejected ==> x.code == Expired
      {
        var p := due[i];
        TriageNext(due, i, cfg.controlTimeoutNs, now);
        if p.targetStep < step {
          rejected := rejected + [Rejected(p, Late)]; // never reached: every due input targets this very step
        } else if Overtaken(cfg.controlTimeoutNs, now)(p) {
          rejected := rejected + [Rejected(p, Expired)];
        } else {
          ready := ready + [p];
        }
      }
      assert due[|due|..] == [];
      TriageNone(cfg.controlTimeoutNs, now);
    }

    /** The inputs whose session is not among the given ones. */
    function PreviewExpiry(live: set<nat>, now: nat): Result<seq<Rejected>>
      reads this
    {
      var _ :- Clock(now);
      Ok(Stale(Picked(pending.keys, pending.vals, Unlisted(live))))
    }

    /** Moves a model's step, as a completed lifecycle action does, past which no registered session's input may lie. */
    method MoveStep(model: nat, step: nat)
      requires Valid() && model in steps
      requires forall k :: k in pending.vals && k.0 in registry.sessions.vals && pending.vals[k].model == model ==>
        pending.vals[k].targetStep > step
      modifies this`steps
      ensures Valid() && steps == old(steps)[model := step]
    {
      hide Inv, Config.Valid, StoreInv, History, Linked, Settings.Valid;
      StepsFree(cfg, View(), model, step);
      LinkedMoved(registry.cfg, View(), registry.View(), model, step);
      steps := steps[model := step];
    }

    lemma ValidParts()
      ensures Valid() <==>
        && registry.Valid() && Sound()
        && (forall k :: k in entered ==> k in registry.ledger.claims)
        && Linked(registry.cfg, View(), registry.View())
    {
      hide Inv, Config.Valid, StoreInv, History, Linked, Settings.Valid;
    }

    /** Every pending input was claimed. */
    lemma PendingClaimed()
      requires Valid()
      ensures forall k :: k in pending.vals ==> k in registry.ledger.claims
    {
      hide Inv, Config.Valid, StoreInv, Linked, Settings.Valid;
    }

    lemma Histories()
      requires Sound()
      ensures History(pending, entered, left)
    {
      hide History, StoreInv, Settings.Valid;
    }

    lemma ViewParts()
      ensures View() == Store(steps, pending, writers, reservations, storedBytes)
    {
    }

    lemma SoundPending()
      requires Sound()
      ensures pending.Valid() && forall k :: k in pending.vals ==> pending.vals[k].key == k
    {
      forall k | k in pending.vals ensures pending.vals[k].key == k {
        KeyOfPending(cfg, View(), k);
      }
    }
  }

  lemma StaleNone(s: Store)
    requires s.pending.Valid()
    ensures s.pending.Select(Outside([])) == s.pending && WritersOutside(s.writers, []) == s.writers
    ensures StaleInputs([], s.pending) == [] && RejectedKeys([]) == []
  {
    SelectAll(s.pending, Outside([]));
  }

  lemma DistinctPrefix(order: seq<nat>, i: nat)
    requires NoDup(order) && i < |order|
    ensures order[..i + 1] == order[..i] + [order[i]] && order[i] !in order[..i]
  {
  }

  /** Discarding one more session. */
  lemma StaleNext(pending: OrderedDict<Key, Pending>, writers: map<(nat, nat), Writer>, sids: seq<nat>, sid: nat)
    requires pending.Valid() && sid !in sids
    ensures var d := pending.Select(Outside(sids));
      && d.Select(Except(OfSession(sid))) == pending.Select(Outside(sids + [sid]))
      && Picked(d.keys, d.vals, OfSession(sid)) == Picked(pending.keys, pending.vals, OfSession(sid))
      && OtherWriters(WritersOutside(writers, sids), sid) == WritersOutside(writers, sids + [sid])
      && StaleInputs(sids + [sid], pending) ==
           StaleInputs(sids, pending) + Stale(Picked(pending.keys, pending.vals, OfSession(sid)))
  {
    hide *;
    OutsideMore(pending.vals, sids, sid);
    SelectTwice(pending, Outside(sids), Except(OfSession(sid)), Outside(sids + [sid]));
    SelectPicked(pending, Outside(sids), OfSession(sid));
    WritersMore(writers, sids, sid);
    StaleMore(sids, sid, pending);
  }

  lemma OutsideMore(vals: map<Key, Pending>, sids: seq<nat>, sid: nat)
    requires sid !in sids
    ensures forall k :: k in vals ==>
      (Outside(sids + [sid])(vals[k]) <==> Outside(sids)(vals[k]) && Except(OfSession(sid))(vals[k]))
    ensures forall k :: k in vals && OfSession(sid)(vals[k]) ==> Outside(sids)(vals[k])
  {
  }

  lemma StaleMore(sids: seq<nat>, sid: nat, pending: OrderedDict<Key, Pending>)
    ensures StaleInputs(sids + [sid], pending) ==
      StaleInputs(sids, pending) + Stale(Picked(pending.keys, pending.vals, OfSession(sid)))
  {
    hide Picked, Stale;
    assert (sids + [sid])[..|sids|] == sids;
  }

  lemma WritersMore(writers: map<(nat, nat), Writer>, sids: seq<nat>, sid: nat)
    ensures OtherWriters(WritersOutside(writers, sids), sid) == WritersOutside(writers, sids + [sid])
  {
  }

  lemma SelectTwice(d: OrderedDict<Key, Pending>, p: Pending -> bool, q: Pending -> bool, both: Pending -> bool)
    requires forall k :: k in d.vals ==> (both(d.vals[k]) <==> p(d.vals[k]) && q(d.vals[k]))
    ensures d.Select(p).Select(q) == d.Select(both)
  {
    PassingTwice(d.keys, d.vals, d.Select(p).vals, p, q, both);
    hide Passing;
  }

  lemma SelectPicked(d: OrderedDict<Key, Pending>, p: Pending -> bool, q: Pending -> bool)
    requires forall k :: k in d.vals && q(d.vals[k]) ==> p(d.vals[k])
    ensures Picked(d.Select(p).keys, d.Select(p).vals, q) == Picked(d.keys, d.vals, q)
  {
    PickedTwice(d.keys, d.vals, d.Select(p).vals, p, q);
    hide Passing, Picked;
  }

  lemma {:induction false} PassingTwice(keys: seq<Key>, vals: map<Key, Pending>, fewer: map<Key, Pending>,
                                        p: Pending -> bool, q: Pending -> bool, both: Pending -> bool)
    requires forall k :: k in fewer <==> k in vals && p(vals[k])
    requires forall k :: k in fewer ==> fewer[k] == vals[k]
    requires forall k :: k in vals ==> (both(vals[k]) <==> p(vals[k]) && q(vals[k]))
    ensures Passing(Passing(keys, vals, p), fewer, q) == Passing(keys, vals, both)
  {
    if keys != [] {
      PassingTwice(keys[1..], vals, fewer, p, q, both);
      PassingFirst(keys, vals, p);
      PassingFirst(keys, vals, both);
      var rest := Passing(keys[1..], vals, p);
      if keys[0] in vals && p(vals[keys[0]]) {
        PassingFirst([keys[0]] + rest, fewer, q);
        assert ([keys[0]] + rest)[1..] == rest;
      }
    }
  }

  lemma PassingFirst(keys: seq<Key>, vals: map<Key, Pending>, p: Pending -> bool)
    requires keys != []
    ensures Passing(keys, vals, p) ==
      if keys[0] in vals && p(vals[keys[0]]) then [keys[0]] + Passing(keys[1..], vals, p) else Passing(keys[1..], vals, p)
  {
  }

  lemma PickedFirst(keys: seq<Key>, vals: map<Key, Pending>, p: Pending -> bool)
    requires keys != []
    ensures Picked(keys, vals, p) ==
      if keys[0] in vals && p(vals[keys[0]]) then [vals[keys[0]]] + Picked(keys[1..], vals, p) else Picked(keys[1..], vals, p)
  {
  }

  lemma {:induction false} PickedTwice(keys: seq<Key>, vals: map<Key, Pending>, fewer: map<Key, Pending>,
                                       p: Pending -> bool, q: Pending -> bool)
    requires forall k :: k in fewer <==> k in vals && p(vals[k])
    requires forall k :: k in fewer ==> fewer[k] == vals[k]
    requires forall k :: k in vals && q(vals[k]) ==> p(vals[k])
    ensures Picked(Passing(keys, vals, p), fewer, q) == Picked(keys, vals, q)
  {
    if keys != [] {
      PickedTwice(keys[1..], vals, fewer, p, q);
      PassingFirst(keys, vals, p);
      PickedFirst(keys, vals, q);
      var rest := Passing(keys[1..], vals, p);
      if keys[0] in vals && p(vals[keys[0]]) {
        PickedFirst([keys[0]] + rest, fewer, q);
        assert ([keys[0]] + rest)[1..] == rest;
      }
    }
  }

  lemma {:induction false} StaleKeys(rejected: seq<Rejected>, removed: seq<Pending>)
    ensures RejectedKeys(rejected + Stale(removed)) == RejectedKeys(rejected) + KeysOf(removed)
  {
    hide *;
    RejectedAppend(rejected, Stale(removed));
    StaleNames(removed);
  }

  lemma {:induction false} StaleNames(removed: seq<Pending>)
    ensures RejectedKeys(Stale(removed)) == KeysOf(removed)
  {
    if removed != [] {
      StaleNames(removed[1..]);
      assert Stale(removed)[1..] == Stale(removed[1..]);
    }
  }

  lemma StaleDone(s: Store, t: Tables, order: seq<nat>)
    requires s.pending.Valid() && forall sid :: sid in order <==> sid in StaleSessions(s, t)
    requires forall k :: k in s.pending.vals ==> s.pending.vals[k].key == k
    ensures s.pending.Select(Outside(order)) == s.pending.Select(Registered(t))
    ensures WritersOutside(s.writers, order) == LiveWriters(s.writers, t)
  {
    forall k | k in s.pending.vals ensures Outside(order)(s.pending.vals[k]) <==> Registered(t)(s.pending.vals[k]) {
    }
    SelectSame(s.pending, Outside(order), Registered(t));
  }

  lemma NothingYet(rc: Config, steps: map<nat, nat>, t: Tables)
    ensures Linked(rc, Store(steps, Empty(), map[], map[], 0), t)
    ensures History(Empty(), [], [])
  {
  }

  /** A session admitted while inputs are pending has a number none of them carries. */
  lemma AdmitKeepsLink(rc: Config, s: Store, t: Tables, nextId: nat, ledger: Ledger, m: Message, binding: PeerBinding,
                       now: nat)
    requires rc.Valid() && Inv(rc, t, nextId, ledger) && Linked(rc, s, t) && 0 < nextId
    requires m.id == OPEN ==> m.body.OpenBody?
    requires forall k :: k in s.pending.vals ==> k in ledger.claims
    requires var d := Decide(rc, t, nextId, m, binding); d.Ok? && d.value.replay.None?
    ensures var d := Decide(rc, t, nextId, m, binding).value;
      && Roomy(rc, t.records).Ok? && binding in rc.links && (m.id != OPEN ==> m.header.sessionId in t.sessions.vals)
      && Linked(rc, s, Admit(rc, t, m, binding, d, now))
  {
    var d := Decide(rc, t, nextId, m, binding).value;
    hide Decide, Inv, Roomy, Linked, Config.Valid;
    AdmitInv(rc, t, nextId, ledger, m, binding, now);
    ClaimsBelow(rc, t, nextId, ledger);
    var t' := Admit(rc, t, m, binding, d, now);
    if m.id == OPEN {
      LinkedOpened(rc, s, t, t', d.sid);
    } else {
      LinkedFewer(rc, s, t, s, t');
    }
  }

  lemma ClaimsBelow(rc: Config, t: Tables, nextId: nat, ledger: Ledger)
    requires Inv(rc, t, nextId, ledger)
    ensures forall k :: k in ledger.claims ==> k.0 < nextId
  {
    hide SessionsInv, RecordsInv;
  }

  lemma LinkedCurrent(rc: Config, s: Store, t: Tables, now: nat)
    requires Linked(rc, s, t)
    ensures Linked(rc, s, Current(t, now))
  {
    LinkedFewer(rc, s, t, s, Current(t, now));
  }

  lemma LinkedClaimed(rc: Config, s: Store, t: Tables, m: Message, p: Pending)
    requires Linked(rc, s, t) && p.model in s.steps && s.steps[p.model] < p.targetStep && m.Key() in t.records.vals
    requires p.key.0 in t.sessions.vals && t.sessions.vals[p.key.0].grant < |rc.grants|
    requires p.model == rc.grants[t.sessions.vals[p.key.0].grant].model
    ensures Linked(rc, Entered(s, p), Claimed(t, m))
  {
    LinkedEntered(rc, s, t, Claimed(t, m), p);
  }

  lemma LinkedDropped(rc: Config, s: Store, t: Tables, s': Store)
    requires Linked(rc, s, t) && s'.steps == s.steps && s'.pending == s.pending.Select(Registered(t))
    ensures Linked(rc, s', t)
  {
    LinkedFewer(rc, s, t, s', t);
  }

  lemma RegisteredOnly(cfg: Settings, s: Store, before: OrderedDict<Key, Pending>, t: Tables)
    requires StoreInv(cfg, s) && s.pending == before.Select(Registered(t))
    ensures forall k :: k in s.pending.vals ==> k.0 in t.sessions.vals
  {
    forall k | k in s.pending.vals ensures k.0 in t.sessions.vals {
      KeyOfPending(cfg, s, k);
    }
  }

  /** Once only registered sessions pend, what is due by the next step is due exactly then: nothing is ever late. */
  lemma DueExactly(cfg: Settings, rc: Config, s: Store, t: Tables, model: nat, step: nat)
    requires StoreInv(cfg, s) && Linked(rc, s, t) && model in s.steps && step == s.steps[model] + 1
    requires forall k :: k in s.pending.vals ==> k.0 in t.sessions.vals
    ensures var due := Picked(s.pending.keys, s.pending.vals, Due(model, step));
      forall i :: 0 <= i < |due| ==> due[i].model == model && due[i].targetStep == step
  {
    PickedAt(s.pending.keys, s.pending.vals, Due(model, step));
    var keys := Passing(s.pending.keys, s.pending.vals, Due(model, step));
    var due := Picked(s.pending.keys, s.pending.vals, Due(model, step));
    hide Passing, Picked;
    forall i | 0 <= i < |due| ensures due[i].model == model && due[i].targetStep == step {
      assert keys[i] in keys;
    }
  }

  lemma StepOpened(cfg: Settings, rc: Config, before: Store, s: Store, t: Tables, model: nat, step: nat)
    requires Linked(rc, before, t) && StoreInv(cfg, s) && model in s.steps && s.steps == before.steps
    requires s.pending == before.pending.Select(Except(Due(model, step)))
    ensures StoreInv(cfg, s.(steps := s.steps[model := step]))
    ensures Linked(rc, s.(steps := s.steps[model := step]), t)
  {
    LinkedFewer(rc, before, t, s, t);
    hide StoreInv;
    StepsFree(cfg, s, model, step);
    LinkedMoved(rc, s, t, model, step);
  }

  lemma TriageNext(due: seq<Pending>, i: nat, timeoutNs: nat, now: nat)
    requires i < |due|
    ensures var late := Overtaken(timeoutNs, now)(due[i]);
      && Fit(due[i..], timeoutNs, now) == (if late then [] else [due[i]]) + Fit(due[i + 1..], timeoutNs, now)
      && Overtime(due[i..], timeoutNs, now) ==
           (if late then [Rejected(due[i], Expired)] else []) + Overtime(due[i + 1..], timeoutNs, now)
  {
    assert due[i..][0] == due[i] && due[i..][1..] == due[i + 1..];
  }

  lemma TriageNone(timeoutNs: nat, now: nat)
    ensures Fit([], timeoutNs, now) == [] && Overtime([], timeoutNs, now) == []
  {
  }

  lemma {:induction false} FitFacts(items: seq<Pending>, timeoutNs: nat, now: nat)
    requires DisjointWrites(items)
    ensures DisjointWrites(Fit(items, timeoutNs, now))
    ensures forall p :: p in Fit(items, timeoutNs, now) <==> p in items && !Overtaken(timeoutNs, now)(p)
  {
    if items != [] {
      var rest := items[1..];
      assert forall i :: 0 <= i < |rest| ==> rest[i] == items[i + 1];
      FitFacts(rest, timeoutNs, now);
      var fit := Fit(rest, timeoutNs, now);
      forall j, path | 0 <= j < |fit| && Writes(items[0], path) ensures !Writes(fit[j], path) {
        assert fit[j] in rest;
        var i :| 0 <= i < |rest| && rest[i] == fit[j];
        assert !Writes(items[i + 1], path);
      }
    }
  }

  /** The ready inputs of a step write disjoint paths: in whatever order they are applied, the ports end the same. */
  lemma ReadyCommutes(cfg: Settings, rc: Config, s: Store, t: Tables, model: nat, step: nat, now: nat, ports: Ports,
                      b: seq<Pending>)
    requires StoreInv(cfg, s) && Linked(rc, s, t) && model in s.steps && step == s.steps[model] + 1
    requires forall k :: k in s.pending.vals ==> k.0 in t.sessions.vals
    requires var ready := Fit(Picked(s.pending.keys, s.pending.vals, Due(model, step)), cfg.controlTimeoutNs, now);
      multiset(b) == multiset(ready)
    ensures var ready := Fit(Picked(s.pending.keys, s.pending.vals, Due(model, step)), cfg.controlTimeoutNs, now);
      ApplyAll(ports, b) == ApplyAll(ports, ready)
  {
    var due := Picked(s.pending.keys, s.pending.vals, Due(model, step));
    var ready := Fit(due, cfg.controlTimeoutNs, now);
    DueExactly(cfg, rc, s, t, model, step);
    DueKeys(cfg, s, model, step);
    hide StoreInv, Picked, Fit, DisjointWrites, ApplyAll;
    PendingDisjoint(cfg, s, due, model, step);
    FitFacts(due, cfg.controlTimeoutNs, now);
    PermutedDisjoint(ready, b);
    forall p ensures p in b <==> p in ready {
      assert p in multiset(b) <==> p in multiset(ready);
    }
    OrderIrrelevant(ports, b, ready);
  }

  lemma DueKeys(cfg: Settings, s: Store, model: nat, step: nat)
    requires StoreInv(cfg, s)
    ensures var due := Picked(s.pending.keys, s.pending.vals, Due(model, step));
      && (forall i :: 0 <= i < |due| ==> due[i].key in s.pending.vals && s.pending.vals[due[i].key] == due[i])
      && (forall i, j :: 0 <= i < j < |due| ==> due[i].key != due[j].key)
  {
    PickedAt(s.pending.keys, s.pending.vals, Due(model, step));
    var keys := Passing(s.pending.keys, s.pending.vals, Due(model, step));
    var due := Picked(s.pending.keys, s.pending.vals, Due(model, step));
    assert NoDup(keys);
    hide Passing, Picked;
    forall i | 0 <= i < |due| ensures due[i].key == keys[i] && keys[i] in s.pending.vals && s.pending.vals[keys[i]] == due[i] {
      assert keys[i] in keys;
      KeyOfPending(cfg, s, keys[i]);
    }
  }

  lemma PermutedDisjoint(a: seq<Pending>, b: seq<Pending>)
    requires DisjointWrites(a) && multiset(a) == multiset(b)
    ensures DisjointWrites(b)
  {
    forall i | 0 <= i < |b| ensures DistinctPaths(b[i].values) {
      assert b[i] in multiset(b);
      assert b[i] in a;
    }
    forall i, j, path | 0 <= i < j < |b| && Writes(b[i], path) ensures !Writes(b[j], path) {
      TwoOccurrences(b, i, j);
      assert b[i] in multiset(b) && b[j] in multiset(b);
      assert b[i] in a && b[j] in a;
      if b[i] == b[j] {
        var x, y := FindTwo(a, b[i]);
      }
    }
  }

  lemma TwoOccurrences(b: seq<Pending>, i: nat, j: nat)
    requires i < j < |b|
    ensures b[i] == b[j] ==> multiset(b)[b[i]] >= 2
  {
    assert b == b[..j] + [b[j]] + b[j + 1..];
    assert b[i] in b[..j];
  }

  lemma {:induction false} FindTwo(a: seq<Pending>, p: Pending) returns (x: nat, y: nat)
    requires multiset(a)[p] >= 2
    ensures x < y < |a| && a[x] == p && a[y] == p
  {
    assert a == [a[0]] + a[1..];
    if a[0] == p {
      x := 0;
      assert p in multiset(a[1..]);
      assert p in a[1..];
      var k :| 0 <= k < |a[1..]| && a[1..][k] == p;
      y := k + 1;
    } else {
      x, y := FindTwo(a[1..], p);
      x, y := x + 1, y + 1;
    }
  }

  /** What leaves the queue when a step opens is returned, each input once, under its reason. */
  lemma BatchFacts(s: Store, t: Tables, model: nat, step: nat, timeoutNs: nat, now: nat, b: StepBatch, before: seq<Key>,
                   after: seq<Key>)
    requires var live := s.pending.Select(Registered(t));
      var stale := StaleInputs(Ascending(StaleSessions(s, t)), s.pending);
      var due := Picked(live.keys, live.vals, Due(model, step));
      && b == StepBatch(Fit(due, timeoutNs, now), stale + Overtime(due, timeoutNs, now))
      && after == before + RejectedKeys(stale) + KeysOf(due)
    ensures forall x :: x in b.rejected ==> x.code == StaleSession || x.code == Expired
    ensures multiset(after) == multiset(before) + multiset(KeysOf(b.ready)) + multiset(RejectedKeys(b.rejected))
  {
    hide *;
    var live := s.pending.Select(Registered(t));
    var stale := StaleInputs(Ascending(StaleSessions(s, t)), s.pending);
    var due := Picked(live.keys, live.vals, Due(model, step));
    StaleCodes(Ascending(StaleSessions(s, t)), s.pending);
    SplitKeys(due, timeoutNs, now);
    RejectedAppend(stale, Overtime(due, timeoutNs, now));
  }

  lemma {:induction false} StaleCodes(sids: seq<nat>, pending: OrderedDict<Key, Pending>)
    ensures forall x :: x in StaleInputs(sids, pending) ==> x.code == StaleSession
  {
    if sids != [] {
      StaleCodes(sids[..|sids| - 1], pending);
      StaleOnly(Picked(pending.keys, pending.vals, OfSession(sids[|sids| - 1])));
    }
  }

  lemma {:induction false} StaleOnly(items: seq<Pending>)
    ensures forall x :: x in Stale(items) ==> x.code == StaleSession
  {
    if items != [] {
      StaleOnly(items[1..]);
    }
  }

  /** The inputs of a step are either ready or overtaken by time. */
  lemma {:induction false} SplitKeys(items: seq<Pending>, timeoutNs: nat, now: nat)
    ensures multiset(KeysOf(items))
      == multiset(KeysOf(Fit(items, timeoutNs, now))) + multiset(RejectedKeys(Overtime(items, timeoutNs, now)))
    ensures forall x :: x in Overtime(items, timeoutNs, now) ==> x.code == Expired
  {
    hide *;
    if items == [] {
      SplitNone(timeoutNs, now);
    } else {
      SplitKeys(items[1..], timeoutNs, now);
      SplitFirst(items, timeoutNs, now);
    }
  }

  lemma SplitNone(timeoutNs: nat, now: nat)
    ensures KeysOf([]) == [] && KeysOf(Fit([], timeoutNs, now)) == [] && Overtime([], timeoutNs, now) == []
    ensures RejectedKeys([]) == []
  {
  }

  lemma SplitFirst(items: seq<Pending>, timeoutNs: nat, now: nat)
    requires items != []
    ensures KeysOf(items) == [items[0].key] + KeysOf(items[1..])
    ensures var late := Overtaken(timeoutNs, now)(items[0]);
      var fit, over := Fit(items[1..], timeoutNs, now), Overtime(items[1..], timeoutNs, now);
      && KeysOf(Fit(items, timeoutNs, now)) == (if late then [] else [items[0].key]) + KeysOf(fit)
      && Overtime(items, timeoutNs, now) == (if late then [Rejected(items[0], Expired)] else []) + over
      && RejectedKeys(Overtime(items, timeoutNs, now)) == (if late then [items[0].key] else []) + RejectedKeys(over)
  {
    var late := Overtaken(timeoutNs, now)(items[0]);
    var fit, over := Fit(items[1..], timeoutNs, now), Overtime(items[1..], timeoutNs, now);
    assert late ==> ([Rejected(items[0], Expired)] + over)[1..] == over;
    assert !late ==> ([items[0]] + fit)[1..] == fit;
    assert [] + fit == fit && [] + over == over;
  }

  lemma {:induction false} RejectedAppend(a: seq<Rejected>, b: seq<Rejected>)
    ensures RejectedKeys(a + b) == RejectedKeys(a) + RejectedKeys(b)
  {
    if a == [] {
      assert a + b == b;
    } else {
      RejectedAppend(a[1..], b);
      assert (a + b)[1..] == a[1..] + b;
    }
  }

  lemma EnteredParts(s: Store, p: Pending)
    ensures Entered(s, p).pending == s.pending.Put(p.key, p)
  {
  }

  lemma PathsNext(values: seq<Value>, i: nat)
    requires i < |values|
    ensures Paths(values[..i + 1]) == Paths(values[..i]) + {values[i].path}
    ensures values[..|values|] == values && Paths(values[..0]) == {}
  {
    var next := values[..i + 1];
    forall path ensures path in Paths(next) <==> path in Paths(values[..i]) + {values[i].path} {
      PathsOf(next, path);
      PathsOf(values[..i], path);
      if path in Paths(values[..i]) {
        var j :| 0 <= j < i && values[..i][j].path == path;
        assert next[j].path == path;
      }
      if path == values[i].path {
        assert next[i].path == path;
      }
    }
  }

  method SetWriters(writers: map<(nat, nat), Writer>, p: Pending) returns (r: map<(nat, nat), Writer>)
    ensures r == PutWriters(writers, p.model, p.writer, Paths(p.values))
  {
    hide Paths;
    r := writers;
    NoPaths(p.values);
    for i := 0 to |p.values|
      invariant r == PutWriters(writers, p.model, p.writer, Paths(p.values[..i]))
    {
      PathsNext(p.values, i);
      r := r[(p.model, p.values[i].path) := p.writer];
    }
    assert p.values[..|p.values|] == p.values;
  }

  lemma NoPaths(values: seq<Value>)
    ensures Paths(values[..0]) == {}
  {
  }

  method SetSlots(slots: map<Slot, Key>, p: Pending) returns (r: map<Slot, Key>)
    ensures r == PutSlots(slots, p.model, p.targetStep, p.key, Paths(p.values))
  {
    hide Paths;
    r := slots;
    NoPaths(p.values);
    for i := 0 to |p.values|
      invariant r == PutSlots(slots, p.model, p.targetStep, p.key, Paths(p.values[..i]))
    {
      PathsNext(p.values, i);
      r := r[(p.model, p.targetStep, p.values[i].path) := p.key];
    }
    assert p.values[..|p.values|] == p.values;
  }

  method ClearSlots(slots: map<Slot, Key>, p: Pending) returns (r: map<Slot, Key>)
    requires forall path :: path in Paths(p.values) ==> (p.model, p.targetStep, path) in slots
    ensures r == FreeSlots(slots, p.model, p.targetStep, Paths(p.values))
  {
    hide Paths;
    r := slots;
    NoPaths(p.values);
    for i := 0 to |p.values|
      invariant r == FreeSlots(slots, p.model, p.targetStep, Paths(p.values[..i]))
    {
      PathsNext(p.values, i);
      r := r - {(p.model, p.targetStep, p.values[i].path)};
    }
    assert p.values[..|p.values|] == p.values;
  }

  lemma LeftParts(s: Store, p: Pending)
    requires p.bytes <= s.storedBytes
    ensures Left(s, p) == s.(pending := s.pending.Delete(p.key),
                             reservations := FreeSlots(s.reservations, p.model, p.targetStep, Paths(p.values)),
                             storedBytes := s.storedBytes - p.bytes)
  {
  }

  lemma StorePending(cfg: Settings, s: Store)
    requires StoreInv(cfg, s)
    ensures s.pending.Valid()
  {
  }

  lemma KeyOfPending(cfg: Settings, s: Store, k: Key)
    requires StoreInv(cfg, s) && k in s.pending.vals
    ensures s.pending.vals[k].key == k
  {
    assert PendingInv(cfg, k, s.pending.vals[k], s.steps);
  }

  lemma PickedNone(vals: map<Key, Pending>, test: Pending -> bool)
    ensures Picked([], vals, test) == [] && KeysOf([]) == []
  {
  }

  lemma PickedNext(d: OrderedDict<Key, Pending>, test: Pending -> bool, i: nat)
    requires d.Valid() && i < |d.keys|
    ensures d.keys[i] in d.vals
    ensures var p := d.vals[d.keys[i]];
      Picked(d.keys[..i + 1], d.vals, test) == Picked(d.keys[..i], d.vals, test) + (if test(p) then [p] else [])
  {
    assert d.keys[..i + 1] == d.keys[..i] + [d.keys[i]];
    PickedAppend(d.keys[..i], d.keys[i], d.vals, test);
  }

  lemma {:induction false} PickedAppend(keys: seq<Key>, k: Key, vals: map<Key, Pending>, test: Pending -> bool)
    requires k in vals
    ensures Picked(keys + [k], vals, test) == Picked(keys, vals, test) + (if test(vals[k]) then [vals[k]] else [])
  {
    hide *;
    PickedFront(keys + [k], vals, test);
    if keys == [] {
      assert (keys + [k])[1..] == keys;
      PickedEmpty(vals, test);
    } else {
      assert (keys + [k])[1..] == keys[1..] + [k];
      PickedAppend(keys[1..], k, vals, test);
      PickedFront(keys, vals, test);
    }
  }

  lemma PickedEmpty(vals: map<Key, Pending>, test: Pending -> bool)
    ensures Picked([], vals, test) == []
  {
  }

  lemma PickedFront(keys: seq<Key>, vals: map<Key, Pending>, test: Pending -> bool)
    requires keys != []
    ensures Picked(keys, vals, test)
      == (if keys[0] in vals && test(vals[keys[0]]) then [vals[keys[0]]] else []) + Picked(keys[1..], vals, test)
  {
  }

  lemma KeysOfOne(p: Pending)
    ensures KeysOf([p]) == [p.key]
  {
  }

  lemma DiscardWriters(cfg: Settings, s: Store, sid: nat)
    requires StoreInv(cfg, s) && forall k :: k in s.pending.vals ==> !OfSession(sid)(s.pending.vals[k])
    ensures StoreInv(cfg, s.(writers := OtherWriters(s.writers, sid)))
  {
    forall k | k in s.pending.vals ensures k.0 != sid {
      KeyOfPending(cfg, s, k);
    }
    WritersKept(cfg, s, OtherWriters(s.writers, sid));
  }

  lemma {:induction false} KeysOfPicked(keys: seq<Key>, vals: map<Key, Pending>, test: Pending -> bool)
    requires forall k :: k in keys ==> k in vals && vals[k].key == k
    ensures KeysOf(Picked(keys, vals, test)) == Passing(keys, vals, test)
  {
    if keys != [] {
      assert keys[0] in keys && forall k :: k in keys[1..] ==> k in keys;
      KeysOfPicked(keys[1..], vals, test);
      var v, rest := vals[keys[0]], Picked(keys[1..], vals, test);
      assert ([v] + rest)[1..] == rest;
      assert [] + rest == rest && [] + Passing(keys[1..], vals, test) == Passing(keys[1..], vals, test);
    }
  }

  lemma ClearedSound(cfg: Settings, s: Store, entered: seq<Key>, left: seq<Key>)
    requires StoreInv(cfg, s) && History(s.pending, entered, left)
    ensures StoreInv(cfg, Store(s.steps, Empty(), map[], map[], 0))
    ensures History(Empty(), entered, left + KeysOf(Picked(s.pending.keys, s.pending.vals, Everything())))
  {
    StorePending(cfg, s);
    forall k | k in s.pending.keys ensures k in s.pending.vals && s.pending.vals[k].key == k {
      hide StoreInv;
      KeyOfPending(cfg, s, k);
    }
    hide StoreInv, KeysOf, Picked, Passing, NoDup;
    KeysOfPicked(s.pending.keys, s.pending.vals, Everything());
    PassingAll(s.pending.keys, s.pending.vals, Everything());
    HistoryCleared(s.pending, entered, left);
    EmptyStore(cfg, s.steps);
  }

  lemma EmptyStore(cfg: Settings, steps: map<nat, nat>)
    ensures StoreInv(cfg, Store(steps, Empty(), map[], map[], 0))
  {
  }

  lemma HistoryCleared(pending: OrderedDict<Key, Pending>, entered: seq<Key>, left: seq<Key>)
    requires History(pending, entered, left) && pending.Valid()
    ensures History(Empty(), entered, left + pending.keys)
  {
    forall i, j | 0 <= i < |left| && 0 <= j < |pending.keys| ensures left[i] != pending.keys[j] {
      assert left[i] in left && pending.keys[j] in pending.keys;
    }
  }
}
