/** The session registry object. */
module SessionRegistry {
  import opened Common
  import opened Catalogue
  import opened Messages
  import opened Ordered
  import opened Registry

  datatype Picture = Pictured(tables: Tables, nextId: nat, closed: bool, cancels: seq<nat>, ledger: Ledger)

  /** Of the sessions only the overdue ones may have gone, their storage work cancelled; history only grew. */
  ghost predicate Trimmed(before: Picture, after: Picture, now: nat)
  {
    && Grows(before.ledger, after.ledger)
    && after.nextId == before.nextId && after.closed == before.closed
    && ((after.tables.sessions == before.tables.sessions && after.cancels == before.cancels)
        || (after.tables.sessions == Current(before.tables, now).sessions
            && after.cancels == before.cancels + ExpiredSessions(before.tables, now)))
  }

  lemma TrimmedParts(before: Picture, after: Picture, now: nat)
    requires Trimmed(before, after, now)
    ensures Grows(before.ledger, after.ledger)
    ensures after.nextId == before.nextId && after.closed == before.closed && before.cancels <= after.cancels
    ensures var dropped := after.cancels[|before.cancels|..];
      (after.tables.sessions == before.tables.sessions && dropped == [])
      || (after.tables.sessions == Current(before.tables, now).sessions && dropped == ExpiredSessions(before.tables, now))
  {
  }

  class SessionRegistry {
    const cfg: Config
    var sessions: OrderedDict<nat, Session>
    var opens: OrderedDict<OpenKey, Opening>
    var records: OrderedDict<Key, Admission>
    var nextId: nat
    var lastNow: int
    var closed: bool
    /** Sessions whose storage work was cancelled, in order. */
    var cancels: seq<nat>
    ghost var ledger: Ledger

    function View(): Tables
      reads this`sessions, this`opens, this`records
    {
      Tables(sessions, opens, records)
    }

    ghost predicate Valid()
      reads this
    {
      cfg.Valid() && 0 < nextId <= U32_MAX + 1 && Inv(cfg, View(), nextId, ledger)
    }

    /** Nothing changed. */
    twostate predicate Same()
      reads this
    {
      && View() == old(View()) && nextId == old(nextId) && lastNow == old(lastNow) && closed == old(closed)
      && cancels == old(cancels) && ledger == old(ledger)
    }

    /** Only maintenance happened: what is overdue is gone and its storage work cancelled. */
    twostate predicate Rolled(now: nat)
      reads this
    {
      && View() == Current(old(View()), now) && lastNow == now
      && cancels == old(cancels) + ExpiredSessions(old(View()), now)
      && nextId == old(nextId) && closed == old(closed) && ledger == old(ledger)
    }

    /** Everything a maintenance step may move. */
    ghost function Picture(): Picture
      reads this
    {
      Pictured(View(), nextId, closed, cancels, ledger)
    }

    lemma PictureParts()
      ensures Picture() == Pictured(Tables(sessions, opens, records), nextId, closed, cancels, ledger)
      ensures View() == Tables(sessions, opens, records)
    {
    }

    lemma ValidParts()
      ensures Valid() <==> cfg.Valid() && 0 < nextId <= U32_MAX + 1 && Inv(cfg, View(), nextId, ledger)
    {
      hide Config.Valid, Inv;
    }

    function Clock(now: nat): Result<()>
      reads this
    {
      if closed then Err(State) else if now < lastNow then Err(Schema) else Ok(())
    }

    constructor (cfg: Config, firstId: nat)
      requires cfg.Valid() && 1 <= firstId <= 0x8000_0000
      ensures Valid() && this.cfg == cfg && !closed && lastNow == -1 && nextId == firstId && cancels == []
      ensures View() == Tables(Empty(), Empty(), Empty()) && ledger == Ledger([], [], map[])
    {
      this.cfg := cfg;
      sessions, opens, records := Empty(), Empty(), Empty();
      nextId, lastNow, closed, cancels := firstId, -1, false, [];
      ledger := Ledger([], [], map[]);
    }

    method Expire(now: nat) returns (r: Result<seq<nat>>)
      requires Valid()
      modifies this
      ensures Valid()
      ensures old(Clock(now)).Err? ==> r == Err(old(Clock(now)).code) && Same()
      ensures old(Clock(now)).Ok? ==> r == Ok(ExpiredSessions(old(View()), now)) && Rolled(now)
    {
      hide Inv, Current, Passing, OrderedDict.Select, OrderedDict.Valid, ExpiredSessions, Config.Valid;
      var clock := Clock(now);
      if clock.Err? {
        return Err(clock.code);
      }
      TablesValid(cfg, View(), nextId, ledger);
      CurrentInv(cfg, View(), nextId, ledger, now);
      CurrentParts(View(), now);
      lastNow := now;
      var expired := ExpiredSessions(View(), now);
      sessions := Sweep(sessions, LiveSession(now));
      cancels := cancels + expired;
      records := Sweep(records, LiveAdmission(now));
      opens := Sweep(opens, LiveOpening(now));
      return Ok(expired);
    }

    /** Whether a message of this kind may come from this peer, before it is reassembled. */
    method Preauthorize(id: nat, sid: nat, binding: PeerBinding, now: nat) returns (r: Result<()>)
      requires Valid()
      modifies this
      ensures Valid() && Trimmed(old(Picture()), Picture(), now) && ledger == old(ledger)
      ensures old(Clock(now)).Err? ==> r == Err(old(Clock(now)).code) && Same()
      ensures old(Clock(now)).Ok? ==> View() == Current(old(View()), now)
      ensures old(Clock(now)).Ok? ==> Rolled(now) && r == PreAuthorized(cfg, Current(old(View()), now), id, sid, binding)
    {
      hide Inv, Current, ExpiredSessions, PreAuthorized, Grows;
      GrowsSame(ledger);
      RolledTables(cfg, View(), nextId, ledger, now);
      var expired := Expire(now);
      if expired.Err? {
        return Err(expired.code);
      }
      return PreAuthorized(cfg, View(), id, sid, binding);
    }

    /** Admits a request, replays its stored feedback, or refuses it. */
    method Accept(m: Message, binding: PeerBinding, now: nat) returns (r: Result<Decision>)
      requires Valid()
      modifies this
      ensures Valid() && Grows(old(ledger), ledger)
      ensures cfg.rules.accepts(m).Err? ==> r == Err(cfg.rules.accepts(m).code) && Same()
      ensures cfg.rules.accepts(m).Ok? && old(Clock(now)).Err? ==> r == Err(old(Clock(now)).code) && Same()
      ensures cfg.rules.accepts(m).Ok? && old(Clock(now)).Ok? ==>
        && m.header.InRange() && (m.id == OPEN ==> m.body.OpenBody?)
        && r == Decide(cfg, Current(old(View()), now), old(nextId), m, binding)
        && (r.Err? || r.value.replay.Some? ==> Rolled(now))
        && (r.Ok? && r.value.replay.Some? ==>
              FreshKey(m, r.value) in ledger.published && r.value.replay.value == ledger.published[FreshKey(m, r.value)])
      ensures r.Err? || r.value.replay.Some? ==> Trimmed(old(Picture()), Picture(), now) && ledger == old(ledger)
      ensures r.Ok? && r.value.replay.None? ==>
        var t := Current(old(View()), now);
        && Inv(cfg, t, old(nextId), old(ledger)) && Roomy(cfg, t.records).Ok?
        && (m.id == OPEN ==> m.body.OpenBody? && binding in cfg.links && r.value.sid == old(nextId))
        && (m.id != OPEN ==> m.header.sessionId in t.sessions.vals)
        && Decide(cfg, t, old(nextId), m, binding) == r
        && View() == Admit(cfg, t, m, binding, r.value, now)
        && FreshKey(m, r.value) !in old(ledger).admissions
        && ledger == Admitting(old(ledger), FreshKey(m, r.value)) && ledger.claims == old(ledger).claims
        && nextId == old(nextId) + (if m.id == OPEN then 1 else 0)
        && lastNow == now && closed == old(closed)
        && cancels == old(cancels) + ExpiredSessions(old(View()), now)
    {
      hide Inv, Current, Decide, Admit, ExpiredSessions, Grows, FreshKey, Rules.Sound, OpenDecision, InputDecision;
      var valid := cfg.rules.accepts(m);
      GrowsSame(ledger);
      if valid.Err? {
        return Err(valid.code);
      }
      SoundMessage(cfg, m);
      RolledTables(cfg, View(), nextId, ledger, now);
      var expired := Expire(now);
      if expired.Err? {
        return Err(expired.code);
      }
      ghost var t := View();
      var allowed := PreAuthorized(cfg, View(), m.id, m.header.sessionId, binding);
      DecideParts(cfg, t, nextId, m, binding);
      if allowed.Err? {
        return Err(allowed.code);
      }
      r := if m.id == OPEN then OpenDecision(cfg, View(), nextId, m, binding) else InputDecision(cfg, View(), m);
      if r.Err? {
        return;
      }
      if r.value.replay.Some? {
        ReplayStored(cfg, t, nextId, ledger, m, binding);
        return;
      }
      AdmitInv(cfg, t, nextId, ledger, m, binding, now);
      Allocate(m, binding, r.value, now);
    }

    /** The table changes of a fresh decision. */
    method Allocate(m: Message, binding: PeerBinding, d: Decision, now: nat)
      requires m.id == OPEN ==> m.body.OpenBody? && binding in cfg.links && d.sid == nextId
      requires m.id != OPEN ==> m.header.sessionId in sessions.vals
      requires Roomy(cfg, records).Ok?
      modifies this
      ensures View() == Admit(cfg, old(View()), m, binding, d, now)
      ensures nextId == old(nextId) + (if m.id == OPEN then 1 else 0)
      ensures ledger == Admitting(old(ledger), FreshKey(m, d))
      ensures lastNow == old(lastNow) && closed == old(closed) && cancels == old(cancels)
    {
      hide Roomy;
      if m.id == OPEN {
        var sid := nextId;
        nextId := nextId + 1;
        var g := cfg.links[binding];
        sessions := sessions.Put(sid, Session(g, m.body.roles, m.body.nonce, now + cfg.rules.leaseNs, 1, 0));
        opens := opens.Put((g, m.body.nonce), Opening(m, sid, now + cfg.rules.retentionNs)).Trim(cfg.rules.cacheMessages);
        Remember((sid, 1), m, now);
      } else {
        Remember(m.Key(), m, now);
        var s := sessions.vals[m.header.sessionId].(lastRx := m.header.sequence);
        if m.id == RENEW {
          s := s.(deadline := now + cfg.rules.leaseNs);
        }
        sessions := sessions.Put(m.header.sessionId, s);
      }
      ledger := Admitting(ledger, FreshKey(m, d));
    }

    method Remember(k: Key, m: Message, now: nat)
      requires Roomy(cfg, records).Ok?
      modifies this`records
      ensures records == Roomy(cfg, old(records)).value.Put(k, NewAdmission(cfg, m, now))
    {
      if records.Size() >= cfg.rules.cacheMessages {
        var oldest := Passing(records.keys, records.vals, IsFree())[0];
        records := records.Delete(oldest);
      }
      records := records.Put(k, NewAdmission(cfg, m, now));
    }

    /** Whether an opening would allocate, without allocating. */
    method PreviewOpen(m: Message, binding: PeerBinding, now: nat) returns (r: Result<Decision>)
      requires Valid()
      modifies this
      ensures Valid()
      ensures cfg.rules.accepts(m).Err? ==> r == Err(cfg.rules.accepts(m).code) && Same()
      ensures cfg.rules.accepts(m).Ok? && m.id != OPEN ==> r == Err(Unsupported) && Same()
      ensures cfg.rules.accepts(m).Ok? && m.id == OPEN && old(Clock(now)).Err? ==> r == Err(old(Clock(now)).code) && Same()
      ensures cfg.rules.accepts(m).Ok? && m.id == OPEN && old(Clock(now)).Ok? ==>
        && Rolled(now) && m.body.OpenBody?
        && var d := Decide(cfg, Current(old(View()), now), old(nextId), m, binding);
           r == if d.Ok? && d.value.replay.None? then Ok(Decision(0, None)) else d
    {
      hide Inv, Current, Decide, ExpiredSessions, Rules.Sound, OpenDecision, InputDecision;
      var valid := cfg.rules.accepts(m);
      if valid.Err? {
        return Err(valid.code);
      }
      SoundMessage(cfg, m);
      if m.id != OPEN {
        return Err(Unsupported);
      }
      RolledTables(cfg, View(), nextId, ledger, now);
      var expired := Expire(now);
      if expired.Err? {
        return Err(expired.code);
      }
      DecideParts(cfg, View(), nextId, m, binding);
      var allowed := PreAuthorized(cfg, View(), m.id, m.header.sessionId, binding);
      if allowed.Err? {
        return Err(allowed.code);
      }
      var d := OpenDecision(cfg, View(), nextId, m, binding);
      return if d.Ok? && d.value.replay.None? then Ok(Decision(0, None)) else d;
    }

    /** Takes an admitted request for one queue or worker; it can be taken only once in a run. */
    method ClaimAdmitted(m: Message, now: nat) returns (r: Result<nat>)
      requires Valid()
      modifies this
      ensures Valid() && Trimmed(old(Picture()), Picture(), now)
      ensures cfg.rules.accepts(m).Err? ==> r == Err(cfg.rules.accepts(m).code) && Same()
      ensures cfg.rules.accepts(m).Ok? && old(Clock(now)).Err? ==> r == Err(old(Clock(now)).code) && Same()
      ensures cfg.rules.accepts(m).Ok? && old(Clock(now)).Ok? ==>
        var t := Current(old(View()), now);
        var a := AdmittedRecord(t, m);
        && (a.Err? ==> r == Err(a.code) && Rolled(now))
        && (a.Ok? ==>
              && r == Ok(a.value.received)
              && m.Key() in t.records.vals
              && View() == Claimed(t, m) && lastNow == now && nextId == old(nextId) && closed == old(closed)
              && cancels == old(cancels) + ExpiredSessions(old(View()), now)
              && m.Key() !in old(ledger).claims
              && ledger == Claiming(old(ledger), m.Key()))
    {
      hide Inv, Current, ExpiredSessions, Grows, AdmittedRecord, Claimed;
      GrowsSame(ledger);
      r := RequireAdmitted(m, now);
      if r.Ok? {
        AdmittedFacts(View(), m);
        ClaimInv(cfg, View(), nextId, ledger, m);
        ClaimedParts(View(), m);
        records := records.Put(m.Key(), records.vals[m.Key()].(queued := true));
        ledger := Claiming(ledger, m.Key());
      }
    }

    method RequireAdmitted(m: Message, now: nat) returns (r: Result<nat>)
      requires Valid()
      modifies this
      ensures Valid()
      ensures cfg.rules.accepts(m).Err? ==> r == Err(cfg.rules.accepts(m).code) && Same()
      ensures cfg.rules.accepts(m).Ok? && old(Clock(now)).Err? ==> r == Err(old(Clock(now)).code) && Same()
      ensures cfg.rules.accepts(m).Ok? && old(Clock(now)).Ok? ==>
        && Rolled(now)
        && var a := AdmittedRecord(Current(old(View()), now), m);
           r == if a.Err? then Err(a.code) else Ok(a.value.received)
    {
      hide Inv, Current, ExpiredSessions, AdmittedRecord;
      var valid := cfg.rules.accepts(m);
      if valid.Err? {
        return Err(valid.code);
      }
      RolledTables(cfg, View(), nextId, ledger, now);
      var expired := Expire(now);
      if expired.Err? {
        return Err(expired.code);
      }
      var a := AdmittedRecord(View(), m);
      return if a.Err? then Err(a.code) else Ok(a.value.received);
    }

    /** Checks an original live admission without maintenance. */
    method ObserveAdmitted(m: Message, now: nat) returns (r: Result<nat>)
      requires Valid()
      modifies this`lastNow
      ensures Valid()
      ensures cfg.rules.accepts(m).Err? ==> r == Err(cfg.rules.accepts(m).code) && lastNow == old(lastNow)
      ensures cfg.rules.accepts(m).Ok? && old(Clock(now)).Err? ==> r == Err(old(Clock(now)).code) && lastNow == old(lastNow)
      ensures cfg.rules.accepts(m).Ok? && old(Clock(now)).Ok? ==>
        && lastNow == now
        && var a := Observed(View(), m, now);
           r == if a.Err? then Err(a.code) else Ok(a.value.received)
    {
      hide Inv, Observed;
      var valid := cfg.rules.accepts(m);
      if valid.Err? {
        return Err(valid.code);
      }
      var clock := Clock(now);
      if clock.Err? {
        return Err(clock.code);
      }
      lastNow := now;
      var a := Observed(View(), m, now);
      return if a.Err? then Err(a.code) else Ok(a.value.received);
    }

    /** Moves the clock floor without maintenance. */
    method Advance(now: nat)
      requires Valid() && Clock(now).Ok?
      modifies this`lastNow
      ensures Valid() && lastNow == now
    {
      hide Inv, Config.Valid;
      lastNow := now;
    }

    /** Stores feedback in a record, and in the run's history. */
    method Store(k: Key, replies: seq<Reply>, pinned: Option<nat>, deadline: nat)
      requires Valid() && k in records.vals
      requires records.vals[k].responses.Some? ==> records.vals[k].responses.value <= replies
      requires pinned.Some? ==> records.vals[k].queued
      requires pinned.Some? && records.vals[k].pinned.None? ==> PinnedCount(records) < MAX_PINNED
      modifies this`records, this`ledger
      ensures Valid() && Grows(old(ledger), ledger)
      ensures View() == WithResponses(old(View()), k, replies, pinned, deadline)
      ensures ledger == Publishing(old(ledger), k, replies)
    {
      hide Inv, Grows, PinnedCount, WithResponses, Publishing;
      RespondInv(cfg, View(), nextId, ledger, k, replies, pinned, deadline);
      RespondedParts(View(), k, replies, pinned, deadline);
      records := records.Put(k, records.vals[k].(responses := Some(replies), pinned := pinned, deadline := deadline));
      ledger := Publishing(ledger, k, replies);
    }

    /** Stores a request's session-layer feedback, once. */
    method RecordResponse(m: Message, replies: seq<Reply>, now: nat) returns (r: Result<()>)
      requires Valid()
      modifies this
      ensures Valid() && Trimmed(old(Picture()), Picture(), now)
      ensures old(Clock(now)).Err? ==> r == Err(old(Clock(now)).code) && Same()
      ensures old(Clock(now)).Ok? ==>
        var t := Current(old(View()), now);
        var k := Recordable(cfg, t, m, replies);
        && (k.Err? ==> r == Err(k.code) && Rolled(now))
        && (k.Ok? ==>
              && r == Ok(())
              && k.value in t.records.vals
              && Stored(t, k.value, replies, t.records.vals[k.value].pinned, t.records.vals[k.value].deadline, now))
    {
      hide Inv, Current, ExpiredSessions, Grows, Recordable, WithResponses, Publishing, PinnedCount;
      GrowsSame(ledger);
      RolledTables(cfg, View(), nextId, ledger, now);
      var expired := Expire(now);
      if expired.Err? {
        return Err(expired.code);
      }
      var k := Recordable(cfg, View(), m, replies);
      if k.Err? {
        return Err(k.code);
      }
      RecordableFacts(cfg, View(), m, replies);
      PinnedQueued(cfg, View(), nextId, ledger, k.value);
      Store(k.value, replies, records.vals[k.value].pinned, records.vals[k.value].deadline);
      return Ok(());
    }

    /** Feedback was stored at `now` on tables brought up to date. */
    twostate predicate Stored(t: Tables, k: Key, replies: seq<Reply>, pinned: Option<nat>, deadline: nat, now: nat)
      requires k in t.records.vals
      reads this
    {
      && View() == WithResponses(t, k, replies, pinned, deadline)
      && ledger == Publishing(old(ledger), k, replies)
      && lastNow == now && nextId == old(nextId) && closed == old(closed)
      && cancels == old(cancels) + ExpiredSessions(old(View()), now)
    }

    /** One reply was appended to the record's feedback, which no longer waits for storage. */
    twostate predicate Appended(t: Tables, k: Key, a: Admission, reply: Reply, now: nat)
      reads this
    {
      && k in t.records.vals && t.records.vals[k] == a && a.responses.Some?
      && Stored(t, k, a.responses.value + [reply], None, now + cfg.rules.retentionNs, now)
    }

    /** Stores a consumer's completion pair, once; `owned` says that the consumer holds this very operation. */
    method RecordCompletion(owned: bool, serves: bool, m: Message, replies: seq<Reply>, now: nat) returns (r: Result<()>)
      requires Valid()
      modifies this
      ensures Valid() && Trimmed(old(Picture()), Picture(), now)
      ensures !owned ==> r == Err(State) && Same()
      ensures owned && cfg.rules.accepts(m).Err? ==> r == Err(cfg.rules.accepts(m).code) && Same()
      ensures owned && cfg.rules.accepts(m).Ok? && old(Clock(now)).Err? ==> r == Err(old(Clock(now)).code) && Same()
      ensures owned && cfg.rules.accepts(m).Ok? && old(Clock(now)).Ok? ==>
        var done := Completable(cfg, old(View()), serves, m, replies, now);
        && lastNow == now && nextId == old(nextId) && closed == old(closed) && cancels == old(cancels)
        && (done.Err? ==> r == Err(done.code) && View() == old(View()) && ledger == old(ledger))
        && (done.Ok? ==>
              && r == Ok(())
              && m.Key() in old(records).vals
              && View() == WithResponses(old(View()), m.Key(), replies, done.value.pinned, now + cfg.rules.retentionNs)
              && ledger == Publishing(old(ledger), m.Key(), replies))
    {
      hide Inv, Grows, Completable, WithResponses, Publishing, PinnedCount;
      GrowsSame(ledger);
      if !owned {
        return Err(State);
      }
      var valid := cfg.rules.accepts(m);
      if valid.Err? {
        return Err(valid.code);
      }
      var clock := Clock(now);
      if clock.Err? {
        return Err(clock.code);
      }
      lastNow := now;
      var done := Completable(cfg, View(), serves, m, replies, now);
      if done.Err? {
        return Err(done.code);
      }
      CompletableFacts(cfg, View(), serves, m, replies, now);
      PinnedQueued(cfg, View(), nextId, ledger, m.Key());
      Store(m.Key(), replies, done.value.pinned, now + cfg.rules.retentionNs);
      return Ok(());
    }

    /** Stores a lifecycle operation's pair, once; its session may have gone meanwhile. */
    method RecordLifecycle(owned: bool, m: Message, replies: seq<Reply>, now: nat) returns (r: Result<()>)
      requires Valid()
      modifies this
      ensures Valid() && Trimmed(old(Picture()), Picture(), now)
      ensures !owned ==> r == Err(State) && Same()
      ensures sessions == old(sessions)
      ensures owned && old(Clock(now)).Err? ==> r == Err(old(Clock(now)).code) && Same()
      ensures owned && old(Clock(now)).Ok? ==>
        var done := LifecycleCompletable(cfg, old(View()), m, replies);
        && (done.Err? ==> r == Err(done.code) && Same())
        && (done.Ok? ==>
              && r == Ok(()) && lastNow == now && nextId == old(nextId) && closed == old(closed) && cancels == old(cancels)
              && m.Key() in old(records).vals
              && View() == WithResponses(old(View()), m.Key(), replies, done.value.pinned, now + cfg.rules.retentionNs)
              && ledger == Publishing(old(ledger), m.Key(), replies))
    {
      hide Inv, Grows, LifecycleCompletable, WithResponses, Publishing, PinnedCount;
      GrowsSame(ledger);
      if !owned {
        return Err(State);
      }
      var clock := Clock(now);
      if clock.Err? {
        return Err(clock.code);
      }
      var done := LifecycleCompletable(cfg, View(), m, replies);
      if done.Err? {
        return Err(done.code);
      }
      LifecycleFacts(cfg, View(), m, replies);
      PinnedQueued(cfg, View(), nextId, ledger, m.Key());
      lastNow := now;
      Store(m.Key(), replies, done.value.pinned, now + cfg.rules.retentionNs);
      return Ok(());
    }

    /** Whether a chunk's claim and deferral would succeed now. */
    method CheckResourceDeferral(m: Message, reply: Reply, now: nat) returns (r: Result<()>)
      requires Valid()
      modifies this
      ensures Valid()
      ensures cfg.rules.accepts(m).Err? ==> r == Err(cfg.rules.accepts(m).code) && Same()
      ensures cfg.rules.accepts(m).Ok? && m.id != CHUNK ==> r == Err(State) && Same()
      ensures cfg.rules.accepts(m).Ok? && m.id == CHUNK && old(Clock(now)).Err? ==> r == Err(old(Clock(now)).code) && Same()
      ensures cfg.rules.accepts(m).Ok? && m.id == CHUNK && old(Clock(now)).Ok? ==>
        Rolled(now) && m.body.ChunkBody? && r == Deferrable(cfg, Current(old(View()), now), m, reply, now)
    {
      hide Inv, Current, ExpiredSessions, Deferrable, Rules.Sound;
      var valid := cfg.rules.accepts(m);
      if valid.Err? {
        return Err(valid.code);
      }
      if m.id != CHUNK {
        return Err(State);
      }
      SoundMessage(cfg, m);
      RolledTables(cfg, View(), nextId, ledger, now);
      var expired := Expire(now);
      if expired.Err? {
        return Err(expired.code);
      }
      return Deferrable(cfg, View(), m, reply, now);
    }

    /** Pins a claimed chunk with its first reply until storage finishes or its deadline passes. */
    method DeferResourceResponse(m: Message, replies: seq<Reply>, now: nat) returns (r: Result<()>)
      requires Valid()
      modifies this
      ensures Valid() && Trimmed(old(Picture()), Picture(), now)
      ensures cfg.rules.accepts(m).Err? ==> r == Err(cfg.rules.accepts(m).code) && Same()
      ensures cfg.rules.accepts(m).Ok? && m.id != CHUNK ==> r == Err(State) && Same()
      ensures cfg.rules.accepts(m).Ok? && m.id == CHUNK && old(Clock(now)).Err? ==> r == Err(old(Clock(now)).code) && Same()
      ensures cfg.rules.accepts(m).Ok? && m.id == CHUNK && old(Clock(now)).Ok? ==>
        && m.body.ChunkBody?
        && var t := Current(old(View()), now);
        var a := Pinnable(cfg, t, m, replies, now);
        && (a.Err? ==> r == Err(a.code) && Rolled(now))
        && (a.Ok? ==>
              && r == Ok(())
              && m.Key() in t.records.vals
              && Stored(t, m.Key(), replies, Some(StorageDeadline(cfg, m, a.value)), a.value.deadline, now))
    {
      hide Inv, Current, ExpiredSessions, Grows, Pinnable, WithResponses, Publishing, PinnedCount, Rules.Sound, StorageDeadline;
      GrowsSame(ledger);
      var valid := cfg.rules.accepts(m);
      if valid.Err? {
        return Err(valid.code);
      }
      if m.id != CHUNK {
        return Err(State);
      }
      SoundMessage(cfg, m);
      RolledTables(cfg, View(), nextId, ledger, now);
      var expired := Expire(now);
      if expired.Err? {
        return Err(expired.code);
      }
      var a := Pinnable(cfg, View(), m, replies, now);
      if a.Err? {
        return Err(a.code);
      }
      PinnableFacts(cfg, View(), m, replies, now);
      Store(m.Key(), replies, Some(StorageDeadline(cfg, m, a.value)), a.value.deadline);
      return Ok(());
    }

    /** Appends the storage result to a pinned chunk's feedback and unpins it. */
    method FinishResourceResponse(m: Message, reply: Reply, now: nat) returns (r: Result<()>)
      requires Valid()
      modifies this
      ensures Valid() && Trimmed(old(Picture()), Picture(), now)
      ensures cfg.rules.accepts(m).Err? ==> r == Err(cfg.rules.accepts(m).code) && Same()
      ensures cfg.rules.accepts(m).Ok? && m.id != CHUNK ==> r == Err(State) && Same()
      ensures cfg.rules.accepts(m).Ok? && m.id == CHUNK && old(Clock(now)).Err? ==> r == Err(old(Clock(now)).code) && Same()
      ensures cfg.rules.accepts(m).Ok? && m.id == CHUNK && old(Clock(now)).Ok? ==>
        var t := Current(old(View()), now);
        var a := Finishable(cfg, t, m, reply, now);
        && (a.Err? ==> r == Err(a.code) && Rolled(now))
        && (a.Ok? ==>
              && r == Ok(())
              && Appended(t, m.Key(), a.value, reply, now))
    {
      hide Inv, Current, ExpiredSessions, Grows, Finishable, WithResponses, Publishing, PinnedCount, Rules.Sound;
      GrowsSame(ledger);
      var valid := cfg.rules.accepts(m);
      if valid.Err? {
        return Err(valid.code);
      }
      if m.id != CHUNK {
        return Err(State);
      }
      RolledTables(cfg, View(), nextId, ledger, now);
      var expired := Expire(now);
      if expired.Err? {
        return Err(expired.code);
      }
      var a := Finishable(cfg, View(), m, reply, now);
      if a.Err? {
        return Err(a.code);
      }
      FinishableFacts(cfg, View(), nextId, ledger, m, reply, now);
      Store(m.Key(), a.value.responses.value + [reply], None, now + cfg.rules.retentionNs);
      return Ok(());
    }

    method NextFeedbackSequence(sid: nat) returns (r: Result<nat>)
      requires Valid()
      modifies this`sessions
      ensures Valid()
      ensures closed ==> r == Err(State) && sessions == old(sessions)
      ensures !closed && sid !in old(sessions).vals ==> r == Err(StaleSession) && sessions == old(sessions)
      ensures !closed && sid in old(sessions).vals ==>
        var s := old(sessions).vals[sid];
        if s.lastTx == U32_MAX then r == Err(Capacity) && sessions == old(sessions)
        else r == Ok(s.lastTx + 1) && s.lastTx < U32_MAX && sessions == old(sessions).Put(sid, s.(lastTx := s.lastTx + 1))
    {
      hide Inv, Config.Valid;
      if closed {
        return Err(State);
      }
      if sid !in sessions.vals {
        return Err(StaleSession);
      }
      var s := sessions.vals[sid];
      if s.lastTx == U32_MAX {
        return Err(Capacity);
      }
      TransmitInv(cfg, View(), nextId, ledger, sid);
      sessions := sessions.Put(sid, s.(lastTx := s.lastTx + 1));
      return Ok(s.lastTx + 1);
    }

    /** Ends a session; its history, and so the freshness of its sequences, is kept. */
    method Revoke(sid: nat) returns (r: Result<()>)
      requires Valid()
      modifies this`sessions, this`cancels
      ensures Valid()
      ensures closed ==> r == Err(State) && sessions == old(sessions) && cancels == old(cancels)
      ensures !closed ==>
        && r == Ok(()) && sessions == old(sessions).Delete(sid)
        && cancels == old(cancels) + (if 1 <= sid <= U32_MAX then [sid] else [])
    {
      if closed {
        return Err(State);
      }
      RevokeInv(cfg, View(), nextId, ledger, sid);
      hide Inv;
      sessions := sessions.Delete(sid);
      if 1 <= sid <= U32_MAX {
        cancels := cancels + [sid];
      }
      return Ok(());
    }

    /** Ends every session and forgets what was retained; the history, and so every used sequence, stays. */
    method Close()
      requires Valid()
      modifies this`sessions, this`opens, this`records, this`closed
      ensures Valid() && closed
      ensures View() == if old(closed) then old(View()) else Tables(Empty(), Empty(), Empty())
    {
      if !closed {
        ClosedInv(cfg, View(), nextId, ledger);
        hide Inv, Config.Valid;
        sessions, opens, records, closed := Empty(), Empty(), Empty(), true;
      }
    }
  }

  lemma ClosedInv(cfg: Config, t: Tables, nextId: nat, ledger: Ledger)
    requires Inv(cfg, t, nextId, ledger)
    ensures Inv(cfg, Tables(Empty(), Empty(), Empty()), nextId, ledger)
  {
  }

  lemma RolledTables(cfg: Config, t: Tables, nextId: nat, ledger: Ledger, now: nat)
    requires Inv(cfg, t, nextId, ledger)
    ensures Inv(cfg, Current(t, now), nextId, ledger) && Current(Current(t, now), now) == Current(t, now)
    ensures ExpiredSessions(Current(t, now), now) == []
  {
    CurrentInv(cfg, t, nextId, ledger, now);
    CurrentIdempotent(cfg, t, nextId, ledger, now);
  }

  lemma SoundMessage(cfg: Config, m: Message)
    requires cfg.Valid() && cfg.rules.accepts(m).Ok?
    ensures m.header.InRange() && (m.id == OPEN <==> m.body.OpenBody?) && (m.id == CHUNK <==> m.body.ChunkBody?)
    ensures m.id != OPEN ==> m.header.sessionId != 0
  {
  }

  lemma GrowsSame(ledger: Ledger)
    ensures Grows(ledger, ledger)
  {
  }

  lemma DecideParts(cfg: Config, t: Tables, nextId: nat, m: Message, binding: PeerBinding)
    requires cfg.Valid() && (m.id == OPEN ==> m.body.OpenBody?)
    ensures var allowed := PreAuthorized(cfg, t, m.id, m.header.sessionId, binding);
      && (allowed.Err? ==> Decide(cfg, t, nextId, m, binding) == Err(allowed.code))
      && (allowed.Ok? ==>
            && binding in cfg.links && cfg.links[binding] < |cfg.grants|
            && Decide(cfg, t, nextId, m, binding) ==
                 if m.id == OPEN then OpenDecision(cfg, t, nextId, m, binding) else InputDecision(cfg, t, m))
  {
    hide OpenDecision, InputDecision;
  }

  /** A replay returns exactly the feedback the run has published for its key. */
  lemma ReplayStored(cfg: Config, t: Tables, nextId: nat, ledger: Ledger, m: Message, binding: PeerBinding)
    requires cfg.Valid() && Inv(cfg, t, nextId, ledger) && (m.id == OPEN ==> m.body.OpenBody?)
    requires var d := Decide(cfg, t, nextId, m, binding); d.Ok? && d.value.replay.Some?
    ensures var d := Decide(cfg, t, nextId, m, binding).value;
      FreshKey(m, d) in ledger.published && d.replay.value == ledger.published[FreshKey(m, d)]
  {
    hide Roomy;
    var d := Decide(cfg, t, nextId, m, binding).value;
    assert RecordInv(FreshKey(m, d), t.records.vals[FreshKey(m, d)], ledger);
  }

  lemma RecordableFacts(cfg: Config, t: Tables, m: Message, replies: seq<Reply>)
    requires Recordable(cfg, t, m, replies).Ok?
    ensures var k := Recordable(cfg, t, m, replies).value;
      k in t.records.vals && t.records.vals[k].responses.None? && t.records.vals[k].request == m
  {
    hide ReplySession, RepliesStorable;
  }

  lemma PinnedQueued(cfg: Config, t: Tables, nextId: nat, ledger: Ledger, k: Key)
    requires Inv(cfg, t, nextId, ledger) && k in t.records.vals
    ensures t.records.vals[k].pinned.Some? ==> t.records.vals[k].queued && t.records.vals[k].responses.Some?
  {
    assert RecordInv(k, t.records.vals[k], ledger);
  }

  lemma CompletableFacts(cfg: Config, t: Tables, serves: bool, m: Message, replies: seq<Reply>, now: nat)
    requires Completable(cfg, t, serves, m, replies, now).Ok?
    ensures m.Key() in t.records.vals && t.records.vals[m.Key()] == Completable(cfg, t, serves, m, replies, now).value
    ensures t.records.vals[m.Key()].responses.None?
  {
    hide AllCorrelated, Rules.TotalReplyBytes;
  }

  lemma LifecycleFacts(cfg: Config, t: Tables, m: Message, replies: seq<Reply>)
    requires LifecycleCompletable(cfg, t, m, replies).Ok?
    ensures m.Key() in t.records.vals && t.records.vals[m.Key()] == LifecycleCompletable(cfg, t, m, replies).value
    ensures t.records.vals[m.Key()].responses.None?
  {
    hide AllCorrelated, Rules.TotalReplyBytes;
  }

  lemma PinnableFacts(cfg: Config, t: Tables, m: Message, replies: seq<Reply>, now: nat)
    requires m.body.ChunkBody? && Pinnable(cfg, t, m, replies, now).Ok?
    ensures m.Key() in t.records.vals && t.records.vals[m.Key()] == Pinnable(cfg, t, m, replies, now).value
    ensures t.records.vals[m.Key()].responses.None? && t.records.vals[m.Key()].queued
    ensures PinnedCount(t.records) < MAX_PINNED
  {
    hide AllAccepted, Recordable, PinnedCount;
  }

  lemma FinishableFacts(cfg: Config, t: Tables, nextId: nat, ledger: Ledger, m: Message, reply: Reply, now: nat)
    requires Inv(cfg, t, nextId, ledger) && Finishable(cfg, t, m, reply, now).Ok?
    ensures m.Key() in t.records.vals && t.records.vals[m.Key()] == Finishable(cfg, t, m, reply, now).value
    ensures t.records.vals[m.Key()].responses.Some?
  {
    hide FeedbackConsistent;
    assert RecordInv(m.Key(), t.records.vals[m.Key()], ledger);
  }

  lemma RevokeInv(cfg: Config, t: Tables, nextId: nat, ledger: Ledger, sid: nat)
    requires Inv(cfg, t, nextId, ledger)
    ensures Inv(cfg, t.(sessions := t.sessions.Delete(sid)), nextId, ledger)
  {
    RecordsOnly(cfg, t, t.(sessions := t.sessions.Delete(sid)), ledger);
    hide RecordsInv, LedgerInv;
  }

  lemma TransmitInv(cfg: Config, t: Tables, nextId: nat, ledger: Ledger, sid: nat)
    requires Inv(cfg, t, nextId, ledger) && sid in t.sessions.vals && t.sessions.vals[sid].lastTx != U32_MAX
    ensures t.sessions.vals[sid].lastTx < U32_MAX
    ensures var s := t.sessions.vals[sid];
      Inv(cfg, t.(sessions := t.sessions.Put(sid, s.(lastTx := s.lastTx + 1))), nextId, ledger)
  {
    var s := t.sessions.vals[sid];
    RecordsOnly(cfg, t, t.(sessions := t.sessions.Put(sid, s.(lastTx := s.lastTx + 1))), ledger);
    hide RecordsInv, LedgerInv;
  }

  lemma TablesValid(cfg: Config, t: Tables, nextId: nat, ledger: Ledger)
    requires Inv(cfg, t, nextId, ledger)
    ensures t.sessions.Valid() && t.opens.Valid() && t.records.Valid()
  {
  }

  lemma CurrentParts(t: Tables, now: nat)
    ensures Current(t, now) == Tables(
      t.sessions.Select(LiveSession(now)), t.opens.Select(LiveOpening(now)), t.records.Select(LiveAdmission(now)))
  {
  }
}
