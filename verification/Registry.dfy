/** Receiver-side sessions: what the registry's tables mean and what every step of a run keeps. */
module Registry {
  import opened Common
  import opened Catalogue
  import opened Messages
  import opened Ordered

  type Key = (nat, nat) // session, sequence

  type OpenKey = (nat, nat) // grant, nonce

  /** A deployment grant; `run` stands for the identity fields that select a run. */
  datatype Grant = Grant(identity: nat, run: nat, model: nat, roles: set<Role>)

  datatype Config = Config(rules: Rules, grants: seq<Grant>, links: map<PeerBinding, nat>, maxSessions: nat)
  {
    ghost predicate Valid()
    {
      && rules.Valid()
      && 1 <= maxSessions <= 64
      && 1 <= |grants| <= 64
      && (forall b :: b in links ==> links[b] < |grants|)
      && forall g, h :: 0 <= g < |grants| && 0 <= h < |grants| && grants[g].run == grants[h].run ==>
           grants[g].model == grants[h].model
    }
  }

  datatype Session = Session(grant: nat, roles: seq<Role>, nonce: nat, deadline: nat, lastRx: nat, lastTx: nat)

  datatype Opening = Opening(request: Message, sid: nat, deadline: nat)

  /** A retained admission. `pinned` is the deadline of an unfinished storage request. */
  datatype Admission = Admission(
    request: Message,
    deadline: nat,
    received: nat,
    responses: Option<seq<Reply>>,
    queued: bool,
    pinned: Option<nat>)
  {
    function Until(): nat
    {
      if pinned.Some? && pinned.value > deadline then pinned.value else deadline
    }
  }

  datatype Tables = Tables(
    sessions: OrderedDict<nat, Session>,
    opens: OrderedDict<OpenKey, Opening>,
    records: OrderedDict<Key, Admission>)

  /** What has happened over the whole run, including what the tables have forgotten. */
  datatype Ledger = Ledger(admissions: seq<Key>, claims: seq<Key>, published: map<Key, seq<Reply>>)

  datatype Decision = Decision(sid: nat, replay: Option<seq<Reply>>)

  const MAX_PINNED: nat := 64

  // ---------------------------------------------------------------- decisions

  function LiveSession(now: nat): Session -> bool { (s: Session) => now < s.deadline }

  function LiveOpening(now: nat): Opening -> bool { (o: Opening) => now < o.deadline }

  function LiveAdmission(now: nat): Admission -> bool { (a: Admission) => now < a.Until() }

  function IsFree(): Admission -> bool { (a: Admission) => a.pinned.None? }

  /** The tables once everything overdue is gone. */
  function Current(t: Tables, now: nat): Tables
  {
    Tables(t.sessions.Select(LiveSession(now)), t.opens.Select(LiveOpening(now)), t.records.Select(LiveAdmission(now)))
  }

  function Overdue(now: nat): Session -> bool { (s: Session) => now >= s.deadline }

  function ExpiredSessions(t: Tables, now: nat): seq<nat>
  {
    Passing(t.sessions.keys, t.sessions.vals, Overdue(now))
  }

  function PreAuthorized(cfg: Config, t: Tables, id: nat, sid: nat, binding: PeerBinding): Result<()>
  {
    var c := cfg.rules.contract;
    if binding !in cfg.links then Err(Authorization)
    else if id !in c.entries then Err(Unsupported)
    else if c.entries[id].direction != To36 || binding.transport !in c.entries[id].transports then Err(Authorization)
    else if id == OPEN then (if sid != 0 then Err(StaleSession) else Ok(()))
    else if sid !in t.sessions.vals then Err(StaleSession)
    else if t.sessions.vals[sid].grant != cfg.links[binding] then Err(Authorization)
    else if id !in cfg.rules.roles || id !in cfg.rules.models then Err(Unsupported)
    else if cfg.rules.roles[id].Needs? && cfg.rules.roles[id].role !in t.sessions.vals[sid].roles then Err(Authorization)
    else if t.sessions.vals[sid].grant >= |cfg.grants|
            || cfg.grants[t.sessions.vals[sid].grant].model !in cfg.rules.models[id] then Err(Model)
    else Ok(())
  }

  /** The record table with room for one more: the oldest record that holds no unfinished storage request makes way. */
  function Roomy(cfg: Config, records: OrderedDict<Key, Admission>): Result<OrderedDict<Key, Admission>>
  {
    if records.Size() < cfg.rules.cacheMessages then Ok(records)
    else
      var free := Passing(records.keys, records.vals, IsFree());
      if free == [] then Err(BufferFull) else Ok(records.Delete(free[0]))
  }

  function NewAdmission(cfg: Config, m: Message, now: nat): Admission
  {
    Admission(m, now + cfg.rules.retentionNs, now, None, false, None)
  }

  function ReplayOf(a: Admission): Result<seq<Reply>>
  {
    if a.responses.None? then Err(State) else Ok(a.responses.value)
  }

  predicate SessionUses(t: Tables, grant: nat, nonce: nat)
  {
    exists sid :: sid in t.sessions.vals && t.sessions.vals[sid].grant == grant && t.sessions.vals[sid].nonce == nonce
  }

  /** An opening request against current tables: a replay, a refusal, or permission to allocate. */
  function OpenDecision(cfg: Config, t: Tables, nextId: nat, m: Message, binding: PeerBinding): Result<Decision>
    requires m.body.OpenBody? && binding in cfg.links && cfg.links[binding] < |cfg.grants|
  {
    var g := cfg.links[binding];
    var grant := cfg.grants[g];
    var key := (g, m.body.nonce);
    if m.body.identity != grant.identity || exists role :: role in m.body.roles && role !in grant.roles then
      Err(Authorization)
    else if key in t.opens.vals then
      var previous := t.opens.vals[key];
      if previous.request != m then Err(Duplicate)
      else if previous.sid !in t.sessions.vals then Err(StaleSession)
      else if (previous.sid, 1) !in t.records.vals then Err(OutOfOrder)
      else
        var replies :- ReplayOf(t.records.vals[(previous.sid, 1)]);
        Ok(Decision(previous.sid, Some(replies)))
    else if SessionUses(t, g, m.body.nonce) then Err(Duplicate)
    else if t.sessions.Size() >= cfg.maxSessions then Err(BufferFull)
    else if nextId > U32_MAX then Err(Capacity)
    else if Roomy(cfg, t.records).Err? then Err(BufferFull)
    else Ok(Decision(nextId, None))
  }

  /** Any other request against current tables. */
  function InputDecision(cfg: Config, t: Tables, m: Message): Result<Decision>
  {
    var (sid, sequence) := m.Key();
    if sid !in t.sessions.vals then Err(StaleSession)
    else if m.Key() in t.records.vals then
      if t.records.vals[m.Key()].request != m then Err(Duplicate)
      else
        var replies :- ReplayOf(t.records.vals[m.Key()]);
        Ok(Decision(sid, Some(replies)))
    else if sequence <= t.sessions.vals[sid].lastRx then Err(OutOfOrder)
    else if Roomy(cfg, t.records).Err? then Err(BufferFull)
    else Ok(Decision(sid, None))
  }

  function Decide(cfg: Config, t: Tables, nextId: nat, m: Message, binding: PeerBinding): Result<Decision>
    requires m.id == OPEN ==> m.body.OpenBody?
    requires forall b :: b in cfg.links ==> cfg.links[b] < |cfg.grants|
  {
    var _ :- PreAuthorized(cfg, t, m.id, m.header.sessionId, binding);
    if m.id == OPEN then OpenDecision(cfg, t, nextId, m, binding) else InputDecision(cfg, t, m)
  }

  /** The key a fresh decision admits. */
  function FreshKey(m: Message, d: Decision): Key
  {
    if m.id == OPEN then (d.sid, 1) else m.Key()
  }

  /** The tables after a fresh decision: the whole change, in every table, or none. */
  function Admit(cfg: Config, t: Tables, m: Message, binding: PeerBinding, d: Decision, now: nat): Tables
    requires Roomy(cfg, t.records).Ok?
    requires m.id == OPEN ==> m.body.OpenBody? && binding in cfg.links
    requires m.id != OPEN ==> m.header.sessionId in t.sessions.vals
  {
    var records := Roomy(cfg, t.records).value.Put(FreshKey(m, d), NewAdmission(cfg, m, now));
    if m.id == OPEN then
      var g := cfg.links[binding];
      var session := Session(g, m.body.roles, m.body.nonce, now + cfg.rules.leaseNs, 1, 0);
      var opening := Opening(m, d.sid, now + cfg.rules.retentionNs);
      Tables(t.sessions.Put(d.sid, session),
             t.opens.Put((g, m.body.nonce), opening).Trim(cfg.rules.cacheMessages),
             records)
    else
      var s := t.sessions.vals[m.header.sessionId];
      var deadline := if m.id == RENEW then now + cfg.rules.leaseNs else s.deadline;
      t.(sessions := t.sessions.Put(m.header.sessionId, s.(lastRx := m.header.sequence, deadline := deadline)),
         records := records)
  }

  function TerminalReply(r: Reply): bool
  {
    r.id == ACK && r.body.Ack? && (r.body.stage.Failed? || r.body.stage.Applied? || r.body.stage.Consumed?)
  }

  /** The retained admission a queue or worker may still claim. */
  function AdmittedRecord(t: Tables, m: Message): Result<Admission>
  {
    if m.header.sessionId !in t.sessions.vals then Err(StaleSession)
    else if m.Key() !in t.records.vals then Err(OutOfOrder)
    else
      var a := t.records.vals[m.Key()];
      if a.request != m then Err(Duplicate)
      else if a.queued then Err(Duplicate)
      else if a.responses.Some? && exists r :: r in a.responses.value && TerminalReply(r) then Err(State)
      else Ok(a)
  }

  function Claimed(t: Tables, m: Message): Tables
    requires m.Key() in t.records.vals
  {
    t.(records := t.records.Put(m.Key(), t.records.vals[m.Key()].(queued := true)))
  }

  // ---------------------------------------------------------------- feedback

  /** One reply a session-layer component may store for a request. */
  function ReplyStorable(cfg: Config, m: Message, sid: nat, r: Reply): Result<()>
  {
    var _ :- cfg.rules.acceptsReply(r);
    if r.header.sessionId != sid || r.header.transactionId != m.header.transactionId then Err(State)
    else if r.id == ACK then
      if !r.body.Ack? || r.body.stage.Applied? || r.body.stage.Consumed? || r.body.probeId != 0
         || r.body.requestSequence != m.header.sequence || r.body.requestId != m.id then Err(State)
      else Ok(())
    else if r.id == PROGRESS then
      if FeedbackConsistent(m, r) then Ok(()) else Err(State)
    else Ok(())
  }

  function RepliesStorable(cfg: Config, m: Message, sid: nat, replies: seq<Reply>): Result<()>
  {
    if replies == [] then Ok(())
    else
      var _ :- ReplyStorable(cfg, m, sid, replies[0]);
      RepliesStorable(cfg, m, sid, replies[1..])
  }

  function Asks(m: Message): Opening -> bool { (o: Opening) => o.request == m }

  /** The session a stored reply belongs to: for an opening, the one the earliest matching entry allocated. */
  function ReplySession(t: Tables, m: Message): Result<nat>
  {
    if m.id != OPEN then Ok(m.header.sessionId)
    else
      var matches := Passing(t.opens.keys, t.opens.vals, Asks(m));
      if matches == [] then Err(State) else Ok(t.opens.vals[matches[0]].sid)
  }

  function Recordable(cfg: Config, t: Tables, m: Message, replies: seq<Reply>): Result<Key>
  {
    var sid :- ReplySession(t, m);
    var key := (sid, m.header.sequence);
    if key !in t.records.vals || t.records.vals[key].request != m then Err(State)
    else if !(1 <= |replies| <= 3) || cfg.rules.TotalReplyBytes(replies) > 4096 then Err(Capacity)
    else
      var _ :- RepliesStorable(cfg, m, sid, replies);
      if t.records.vals[key].responses.Some? then Err(State) else Ok(key)
  }

  function PinnedIn(records: OrderedDict<Key, Admission>): Key -> nat
  {
    k => if k in records.vals && records.vals[k].pinned.Some? then 1 else 0
  }

  function PinnedCount(records: OrderedDict<Key, Admission>): nat
  {
    Total(records.keys, PinnedIn(records))
  }

  function ResourceRecord(cfg: Config, t: Tables, m: Message): Result<Admission>
  {
    if m.header.sessionId !in t.sessions.vals then Err(StaleSession)
    else if m.Key() !in t.records.vals || t.records.vals[m.Key()].request != m then Err(State)
    else Ok(t.records.vals[m.Key()])
  }

  function StorageDeadline(cfg: Config, m: Message, a: Admission): nat
    requires m.body.ChunkBody?
  {
    a.received + (if m.body.chunk.final then cfg.rules.commitTimeoutMs else m.header.validForMs) * NS_PER_MS
  }

  /** Whether an admitted chunk's first reply may be deferred until storage finishes. */
  function Deferrable(cfg: Config, t: Tables, m: Message, r: Reply, now: nat): Result<()>
    requires m.body.ChunkBody?
  {
    var a :- ResourceRecord(cfg, t, m);
    var _ :- AdmittedRecord(t, m);
    var _ :- cfg.rules.acceptsReply(r);
    if r.id != ACK || !r.body.Ack? || !r.body.stage.Received? || r.body.error.Some? || r.body.probeId != 0
       || r.body.requestId != CHUNK || r.body.requestSequence != m.header.sequence
       || r.header.sessionId != m.header.sessionId || r.header.transactionId != m.header.transactionId || a.responses.Some?
    then Err(State)
    else if PinnedCount(t.records) >= MAX_PINNED then Err(BufferFull)
    else if now >= StorageDeadline(cfg, m, a) then Err(Expired)
    else Ok(())
  }

  function AllAccepted(cfg: Config, replies: seq<Reply>): Result<()>
  {
    if replies == [] then Ok(())
    else
      var _ :- cfg.rules.acceptsReply(replies[0]);
      AllAccepted(cfg, replies[1..])
  }

  /** Whether a claimed chunk may be pinned with these replies. */
  function Pinnable(cfg: Config, t: Tables, m: Message, replies: seq<Reply>, now: nat): Result<Admission>
    requires m.body.ChunkBody?
  {
    var a :- ResourceRecord(cfg, t, m);
    var _ :- AllAccepted(cfg, replies);
    if !a.queued || a.responses.Some? || |replies| != 1
            || replies[0].id != ACK || !replies[0].body.Ack? || !replies[0].body.stage.Received?
            || replies[0].body.error.Some? then Err(State)
    else if PinnedCount(t.records) >= MAX_PINNED then Err(BufferFull)
    else if now >= StorageDeadline(cfg, m, a) then Err(Expired)
    else
      var _ :- Recordable(cfg, t, m, replies);
      Ok(a)
  }

  function WithResponses(t: Tables, key: Key, replies: seq<Reply>, pinned: Option<nat>, deadline: nat): Tables
    requires key in t.records.vals
  {
    t.(records := t.records.Put(key, t.records.vals[key].(responses := Some(replies), pinned := pinned, deadline := deadline)))
  }

  function Finishable(cfg: Config, t: Tables, m: Message, r: Reply, now: nat): Result<Admission>
  {
    var a :- ResourceRecord(cfg, t, m);
    if a.pinned.None? then Err(State)
    else
      var _ :- cfg.rules.acceptsReply(r);
      if !FeedbackConsistent(m, r) then Err(State)
      else if now >= a.pinned.value && r.body.error.None? then Err(Timeout)
      else Ok(a)
  }

  // ---------------------------------------------------------------- invariant

  ghost predicate Inv(cfg: Config, t: Tables, nextId: nat, ledger: Ledger)
  {
    && SessionsInv(cfg, t, nextId, ledger)
    && RecordsInv(cfg, t, ledger)
    && LedgerInv(nextId, ledger)
  }

  ghost predicate SessionsInv(cfg: Config, t: Tables, nextId: nat, ledger: Ledger)
  {
    && t.sessions.Valid() && t.opens.Valid()
    && |t.sessions.keys| <= cfg.maxSessions
    && |t.opens.keys| <= cfg.rules.cacheMessages
    && (forall sid :: sid in t.sessions.vals ==>
          0 < sid < nextId && t.sessions.vals[sid].grant < |cfg.grants| && t.sessions.vals[sid].lastTx <= U32_MAX)
    && (forall k :: k in t.opens.vals ==> t.opens.vals[k].sid < nextId)
    && (forall k :: k in ledger.admissions && k.0 in t.sessions.vals ==> k.1 <= t.sessions.vals[k.0].lastRx)
  }

  ghost predicate RecordsInv(cfg: Config, t: Tables, ledger: Ledger)
  {
    && t.records.Valid()
    && |t.records.keys| <= cfg.rules.cacheMessages
    && PinnedCount(t.records) <= MAX_PINNED
    && (forall k :: k in t.records.vals ==> RecordInv(k, t.records.vals[k], ledger))
  }

  ghost predicate RecordInv(k: Key, a: Admission, ledger: Ledger)
  {
    && k in ledger.admissions
    && (a.queued <==> k in ledger.claims)
    && (a.responses.Some? <==> k in ledger.published)
    && (a.responses.Some? ==> ledger.published[k] == a.responses.value)
    && (a.pinned.Some? ==> a.queued && a.responses.Some?)
    && (a.request.id != OPEN ==> a.request.Key() == k)
  }

  ghost predicate LedgerInv(nextId: nat, ledger: Ledger)
  {
    && NoDup(ledger.admissions)
    && NoDup(ledger.claims)
    && (forall k :: k in ledger.admissions ==> k.0 < nextId)
    && (forall k :: k in ledger.claims ==> k in ledger.admissions)
    && (forall k :: k in ledger.published ==> k in ledger.admissions)
  }

  /** A run only adds: admissions and claims are appended, and stored feedback only grows at its end. */
  ghost predicate Grows(before: Ledger, after: Ledger)
  {
    && before.admissions <= after.admissions
    && before.claims <= after.claims
    && forall k :: k in before.published ==> k in after.published && before.published[k] <= after.published[k]
  }

  // ---------------------------------------------------------------- expiry keeps the invariant

  lemma SelectPinned(records: OrderedDict<Key, Admission>, test: Admission -> bool)
    requires records.Valid()
    ensures PinnedCount(records.Select(test)) <= PinnedCount(records)
  {
    TotalPassing(records.keys, records.vals, test, PinnedIn(records), PinnedIn(records.Select(test)));
  }

  lemma CurrentInv(cfg: Config, t: Tables, nextId: nat, ledger: Ledger, now: nat)
    requires Inv(cfg, t, nextId, ledger)
    ensures Inv(cfg, Current(t, now), nextId, ledger)
  {
    SelectPinned(t.records, LiveAdmission(now));
    hide NoDup, RecordInv, Passing, PinnedCount;
  }

  /** Nothing in current tables is overdue, so expiring again at the same time changes nothing. */
  lemma CurrentIdempotent(cfg: Config, t: Tables, nextId: nat, ledger: Ledger, now: nat)
    requires Inv(cfg, t, nextId, ledger)
    ensures Current(Current(t, now), now) == Current(t, now)
    ensures ExpiredSessions(Current(t, now), now) == []
  {
    CurrentInv(cfg, t, nextId, ledger, now);
    var c := Current(t, now);
    SelectAll(c.sessions, LiveSession(now));
    SelectAll(c.opens, LiveOpening(now));
    SelectAll(c.records, LiveAdmission(now));
    PassingNone(c.sessions.keys, c.sessions.vals, Overdue(now));
  }

  // ---------------------------------------------------------------- fresh admissions

  /** Room for one more record never costs an unfinished storage request its place. */
  lemma RoomyKeeps(cfg: Config, records: OrderedDict<Key, Admission>)
    requires records.Valid() && |records.keys| <= cfg.rules.cacheMessages && cfg.rules.cacheMessages > 0
    requires Roomy(cfg, records).Ok?
    ensures var r := Roomy(cfg, records).value;
      && r.Valid() && |r.keys| < cfg.rules.cacheMessages
      && PinnedCount(r) == PinnedCount(records)
      && (forall k :: k in r.vals ==> k in records.vals && r.vals[k] == records.vals[k])
      && (forall k :: k in records.vals && records.vals[k].pinned.Some? ==> k in r.vals)
  {
    if records.Size() >= cfg.rules.cacheMessages {
      var free := Passing(records.keys, records.vals, IsFree());
      var k := free[0];
      assert k in free;
      TotalWithout(records.keys, k, PinnedIn(records));
      TotalSame(Without(records.keys, k), PinnedIn(records), PinnedIn(records.Delete(k)));
    }
  }

  /** With a cache above the pinning bound there is always room: the refusal for want of it cannot happen. */
  lemma AlwaysRoom(cfg: Config, t: Tables, ledger: Ledger)
    requires RecordsInv(cfg, t, ledger) && cfg.rules.cacheMessages > MAX_PINNED
    ensures Roomy(cfg, t.records).Ok?
  {
    var records := t.records;
    var free := Passing(records.keys, records.vals, IsFree());
    if free == [] {
      forall k | k in records.keys ensures PinnedIn(records)(k) == 1 {
        assert k !in free;
      }
      TotalAll(records.keys, PinnedIn(records));
    }
  }

  lemma PutPinned(records: OrderedDict<Key, Admission>, k: Key, a: Admission)
    requires records.Valid()
    ensures PinnedCount(records.Put(k, a)) + (if k in records.vals && records.vals[k].pinned.Some? then 1 else 0)
      == PinnedCount(records) + (if a.pinned.Some? then 1 else 0)
  {
    TotalPut(records.keys, k, PinnedIn(records), PinnedIn(records.Put(k, a)));
  }

  /** Freshness survives eviction, expiry and revocation: a key once admitted is never admitted again. */
  lemma FreshOnce(cfg: Config, t: Tables, nextId: nat, ledger: Ledger, m: Message, binding: PeerBinding)
    requires cfg.Valid() && Inv(cfg, t, nextId, ledger) && (m.id == OPEN ==> m.body.OpenBody?)
    requires var d := Decide(cfg, t, nextId, m, binding); d.Ok? && d.value.replay.None?
    ensures FreshKey(m, Decide(cfg, t, nextId, m, binding).value) !in ledger.admissions
    ensures m.id == OPEN ==> Decide(cfg, t, nextId, m, binding).value.sid == nextId <= U32_MAX
    ensures m.id != OPEN ==> m.header.sessionId in t.sessions.vals && m.Key() !in t.records.vals
    ensures Roomy(cfg, t.records).Ok?
    ensures binding in cfg.links
  {
    hide Roomy, RecordsInv;
  }

  /** The ledger once a key is admitted. */
  function Admitting(ledger: Ledger, k: Key): Ledger
  {
    ledger.(admissions := ledger.admissions + [k])
  }

  lemma AdmitRecords(cfg: Config, t: Tables, ledger: Ledger, k: Key, a: Admission)
    requires cfg.Valid() && RecordsInv(cfg, t, ledger) && Roomy(cfg, t.records).Ok?
    requires k !in t.records.vals && k !in ledger.claims && k !in ledger.published
    requires !a.queued && a.responses.None? && a.pinned.None? && (a.request.id != OPEN ==> a.request.Key() == k)
    ensures RecordsInv(cfg, t.(records := Roomy(cfg, t.records).value.Put(k, a)), Admitting(ledger, k))
  {
    RoomyKeeps(cfg, t.records);
    var roomy := Roomy(cfg, t.records).value;
    PutPinned(roomy, k, a);
    var put := roomy.Put(k, a);
    assert AgreeBut(ledger, Admitting(ledger, k), k);
    assert RecordInv(k, a, Admitting(ledger, k));
    hide Roomy, PinnedCount, RecordInv, AgreeBut, NoDup, Admitting, Message.Key;
    forall x | x in put.vals ensures RecordInv(x, put.vals[x], Admitting(ledger, k)) {
      if x != k {
        RecordAgrees(x, t.records.vals[x], ledger, Admitting(ledger, k), k);
      }
    }
  }

  lemma AdmitLedger(nextId: nat, nextId': nat, ledger: Ledger, k: Key)
    requires LedgerInv(nextId, ledger) && nextId <= nextId' && k.0 < nextId' && k !in ledger.admissions
    ensures LedgerInv(nextId', Admitting(ledger, k))
    ensures Grows(ledger, Admitting(ledger, k))
    ensures k !in ledger.claims && k !in ledger.published
  {
  }

  lemma OpenSessions(cfg: Config, t: Tables, nextId: nat, ledger: Ledger, m: Message, binding: PeerBinding, now: nat)
    requires cfg.Valid() && SessionsInv(cfg, t, nextId, ledger) && LedgerInv(nextId, ledger)
    requires m.id == OPEN && m.body.OpenBody? && binding in cfg.links && 0 < nextId
    requires Roomy(cfg, t.records).Ok? && t.sessions.Size() < cfg.maxSessions
    ensures SessionsInv(cfg, Admit(cfg, t, m, binding, Decision(nextId, None), now), nextId + 1,
                        Admitting(ledger, (nextId, 1)))
  {
    hide Roomy, NoDup;
  }

  lemma InputSessions(cfg: Config, t: Tables, nextId: nat, ledger: Ledger, m: Message, binding: PeerBinding, now: nat)
    requires cfg.Valid() && SessionsInv(cfg, t, nextId, ledger)
    requires m.id != OPEN && m.header.sessionId in t.sessions.vals && Roomy(cfg, t.records).Ok?
    requires m.header.sequence > t.sessions.vals[m.header.sessionId].lastRx
    ensures SessionsInv(cfg, Admit(cfg, t, m, binding, Decision(m.header.sessionId, None), now), nextId,
                        Admitting(ledger, m.Key()))
  {
    hide Roomy, NoDup;
  }

  /** A fresh admission changes every table consistently and is recorded once in the run's history. */
  lemma AdmitInv(cfg: Config, t: Tables, nextId: nat, ledger: Ledger, m: Message, binding: PeerBinding, now: nat)
    requires cfg.Valid() && Inv(cfg, t, nextId, ledger) && 0 < nextId
    requires m.id == OPEN ==> m.body.OpenBody?
    requires var d := Decide(cfg, t, nextId, m, binding); d.Ok? && d.value.replay.None?
    ensures var d := Decide(cfg, t, nextId, m, binding).value;
      var k := FreshKey(m, d);
      && k !in ledger.admissions
      && (m.id == OPEN ==> d.sid == nextId <= U32_MAX)
      && binding in cfg.links
      && (m.id != OPEN ==> m.header.sessionId in t.sessions.vals)
      && Roomy(cfg, t.records).Ok?
      && Inv(cfg, Admit(cfg, t, m, binding, d, now), if m.id == OPEN then nextId + 1 else nextId, Admitting(ledger, k))
      && Grows(ledger, Admitting(ledger, k))
  {
    FreshOnce(cfg, t, nextId, ledger, m, binding);
    FreshGuards(cfg, t, nextId, m, binding);
    var d := Decide(cfg, t, nextId, m, binding).value;
    var k := FreshKey(m, d);
    hide Roomy, Decide, SessionsInv, RecordsInv, Admitting, RecordInv, NoDup;
    AdmitLedger(nextId, if m.id == OPEN then nextId + 1 else nextId, ledger, k);
    assert k !in t.records.vals by { NotRecorded(cfg, t, ledger, k); }
    AdmitRecords(cfg, t, ledger, k, NewAdmission(cfg, m, now));
    RecordsOnly(cfg, t.(records := Roomy(cfg, t.records).value.Put(k, NewAdmission(cfg, m, now))),
                Admit(cfg, t, m, binding, d, now), Admitting(ledger, k));
    if m.id == OPEN {
      OpenSessions(cfg, t, nextId, ledger, m, binding, now);
    } else {
      InputSessions(cfg, t, nextId, ledger, m, binding, now);
    }
  }

  lemma NotRecorded(cfg: Config, t: Tables, ledger: Ledger, k: Key)
    requires RecordsInv(cfg, t, ledger) && k !in ledger.admissions
    ensures k !in t.records.vals
  {
    forall x | x in t.records.vals ensures x in ledger.admissions {
      assert RecordInv(x, t.records.vals[x], ledger);
    }
  }

  lemma RecordsOnly(cfg: Config, a: Tables, b: Tables, ledger: Ledger)
    requires RecordsInv(cfg, a, ledger) && a.records == b.records
    ensures RecordsInv(cfg, b, ledger)
  {
  }

  lemma FreshGuards(cfg: Config, t: Tables, nextId: nat, m: Message, binding: PeerBinding)
    requires cfg.Valid() && (m.id == OPEN ==> m.body.OpenBody?)
    requires var d := Decide(cfg, t, nextId, m, binding); d.Ok? && d.value.replay.None?
    ensures m.id == OPEN ==> t.sessions.Size() < cfg.maxSessions
    ensures m.id != OPEN ==>
      && m.header.sessionId in t.sessions.vals
      && m.header.sequence > t.sessions.vals[m.header.sessionId].lastRx
      && Decide(cfg, t, nextId, m, binding).value.sid == m.header.sessionId
  {
    hide Roomy, Rules.Valid;
  }

  // ---------------------------------------------------------------- claims and feedback

  /** Two ledgers say the same of every key but one. */
  ghost predicate AgreeBut(before: Ledger, after: Ledger, k: Key)
  {
    forall x: Key :: x != k ==>
      && (x in before.admissions ==> x in after.admissions)
      && (x in before.claims <==> x in after.claims)
      && (x in before.published <==> x in after.published)
      && (x in before.published ==> before.published[x] == after.published[x])
  }

  lemma RecordAgrees(x: Key, a: Admission, before: Ledger, after: Ledger, k: Key)
    requires AgreeBut(before, after, k) && x != k && RecordInv(x, a, before)
    ensures RecordInv(x, a, after)
  {
  }

  lemma RecordsPut(cfg: Config, t: Tables, before: Ledger, after: Ledger, k: Key, a: Admission)
    requires RecordsInv(cfg, t, before) && k in t.records.vals
    requires AgreeBut(before, after, k) && RecordInv(k, a, after)
    requires a.pinned.Some? && t.records.vals[k].pinned.None? ==> PinnedCount(t.records) < MAX_PINNED
    ensures RecordsInv(cfg, t.(records := t.records.Put(k, a)), after)
  {
    PutPinned(t.records, k, a);
    var put := t.records.Put(k, a);
    hide PinnedCount, RecordInv, AgreeBut, NoDup;
    forall x | x in put.vals ensures RecordInv(x, put.vals[x], after) {
      if x != k {
        RecordAgrees(x, t.records.vals[x], before, after, k);
      }
    }
  }

  function Claiming(ledger: Ledger, k: Key): Ledger
  {
    ledger.(claims := ledger.claims + [k])
  }

  /** A claim takes an admission that was never claimed before. */
  lemma ClaimInv(cfg: Config, t: Tables, nextId: nat, ledger: Ledger, m: Message)
    requires Inv(cfg, t, nextId, ledger) && AdmittedRecord(t, m).Ok?
    ensures m.Key() in t.records.vals && m.Key() !in ledger.claims
    ensures Inv(cfg, Claimed(t, m), nextId, Claiming(ledger, m.Key()))
    ensures Grows(ledger, Claiming(ledger, m.Key()))
  {
    AdmittedFacts(t, m);
    hide *;
    var k := m.Key();
    InvParts(cfg, t, nextId, ledger);
    RecordOf(cfg, t, ledger, k);
    ClaimLedger(nextId, ledger, k, t.records.vals[k]);
    RecordsPut(cfg, t, ledger, Claiming(ledger, k), k, t.records.vals[k].(queued := true));
    ClaimedParts(t, m);
    SessionsOnly(cfg, t, Claimed(t, m), nextId, ledger, Claiming(ledger, k));
    InvParts(cfg, Claimed(t, m), nextId, Claiming(ledger, k));
  }

  lemma InvParts(cfg: Config, t: Tables, nextId: nat, ledger: Ledger)
    ensures Inv(cfg, t, nextId, ledger) <==>
      SessionsInv(cfg, t, nextId, ledger) && RecordsInv(cfg, t, ledger) && LedgerInv(nextId, ledger)
  {
    hide SessionsInv, RecordsInv, LedgerInv;
  }

  lemma AdmittedFacts(t: Tables, m: Message)
    requires AdmittedRecord(t, m).Ok?
    ensures m.Key() in t.records.vals && !t.records.vals[m.Key()].queued
    ensures AdmittedRecord(t, m).value == t.records.vals[m.Key()]
    ensures t.records.vals[m.Key()].request == m && m.header.sessionId in t.sessions.vals
  {
  }

  lemma RecordOf(cfg: Config, t: Tables, ledger: Ledger, k: Key)
    requires RecordsInv(cfg, t, ledger) && k in t.records.vals
    ensures RecordInv(k, t.records.vals[k], ledger)
  {
    hide RecordInv;
  }

  lemma ClaimedParts(t: Tables, m: Message)
    requires m.Key() in t.records.vals
    ensures Claimed(t, m) == t.(records := t.records.Put(m.Key(), t.records.vals[m.Key()].(queued := true)))
  {
  }

  lemma ClaimLedger(nextId: nat, ledger: Ledger, k: Key, a: Admission)
    requires LedgerInv(nextId, ledger) && RecordInv(k, a, ledger) && !a.queued
    ensures k !in ledger.claims
    ensures RecordInv(k, a.(queued := true), Claiming(ledger, k))
    ensures AgreeBut(ledger, Claiming(ledger, k), k) && Grows(ledger, Claiming(ledger, k))
    ensures LedgerInv(nextId, Claiming(ledger, k)) && Claiming(ledger, k).admissions == ledger.admissions
  {
  }

  lemma SessionsOnly(cfg: Config, a: Tables, b: Tables, nextId: nat, before: Ledger, after: Ledger)
    requires SessionsInv(cfg, a, nextId, before) && after.admissions == before.admissions
    requires a.sessions == b.sessions && a.opens == b.opens
    ensures SessionsInv(cfg, b, nextId, after)
  {
  }

  function Publishing(ledger: Ledger, k: Key, replies: seq<Reply>): Ledger
  {
    ledger.(published := ledger.published[k := replies])
  }

  /** Storing feedback keeps the invariant as long as what was stored before is a prefix of it. */
  lemma RespondInv(cfg: Config, t: Tables, nextId: nat, ledger: Ledger, k: Key, replies: seq<Reply>, pinned: Option<nat>,
                   deadline: nat)
    requires Inv(cfg, t, nextId, ledger) && k in t.records.vals
    requires t.records.vals[k].responses.Some? ==> t.records.vals[k].responses.value <= replies
    requires pinned.Some? ==> t.records.vals[k].queued
    requires pinned.Some? && t.records.vals[k].pinned.None? ==> PinnedCount(t.records) < MAX_PINNED
    ensures Inv(cfg, WithResponses(t, k, replies, pinned, deadline), nextId, Publishing(ledger, k, replies))
    ensures Grows(ledger, Publishing(ledger, k, replies))
  {
    hide *;
    var a := t.records.vals[k].(responses := Some(replies), pinned := pinned, deadline := deadline);
    InvParts(cfg, t, nextId, ledger);
    RecordOf(cfg, t, ledger, k);
    PublishLedger(nextId, ledger, k, t.records.vals[k], replies, pinned, deadline);
    RecordsPut(cfg, t, ledger, Publishing(ledger, k, replies), k, a);
    RespondedParts(t, k, replies, pinned, deadline);
    SessionsOnly(cfg, t, WithResponses(t, k, replies, pinned, deadline), nextId, ledger, Publishing(ledger, k, replies));
    InvParts(cfg, WithResponses(t, k, replies, pinned, deadline), nextId, Publishing(ledger, k, replies));
  }

  lemma RespondedParts(t: Tables, k: Key, replies: seq<Reply>, pinned: Option<nat>,
                   deadline: nat)
    requires k in t.records.vals
    ensures WithResponses(t, k, replies, pinned, deadline)
      == t.(records := t.records.Put(k, t.records.vals[k].(responses := Some(replies), pinned := pinned, deadline := deadline)))
  {
  }

  lemma PublishLedger(nextId: nat, ledger: Ledger, k: Key, a: Admission, replies: seq<Reply>, pinned: Option<nat>,
                   deadline: nat)
    requires LedgerInv(nextId, ledger) && RecordInv(k, a, ledger)
    requires a.responses.Some? ==> a.responses.value <= replies
    requires pinned.Some? ==> a.queued
    ensures RecordInv(k, a.(responses := Some(replies), pinned := pinned, deadline := deadline), Publishing(ledger, k, replies))
    ensures AgreeBut(ledger, Publishing(ledger, k, replies), k) && Grows(ledger, Publishing(ledger, k, replies))
    ensures LedgerInv(nextId, Publishing(ledger, k, replies))
    ensures Publishing(ledger, k, replies).admissions == ledger.admissions
  {
  }

  /** One reply of a consumer's completion pair. */
  predicate Correlated(m: Message, r: Reply)
  {
    && r.id == ACK && r.body.Ack?
    && r.header.sessionId == m.header.sessionId
    && r.header.transactionId == m.header.transactionId
    && r.body.requestSequence == m.header.sequence
    && r.body.requestId == m.id
  }

  /** A request observed live, without maintenance. */
  function Observed(t: Tables, m: Message, now: nat): Result<Admission>
  {
    if m.header.sessionId !in t.sessions.vals then Err(StaleSession)
    else if now >= t.sessions.vals[m.header.sessionId].deadline then Err(StaleSession)
    else
      var a :- AdmittedRecord(t, m);
      if now >= a.Until() then Err(OutOfOrder) else Ok(a)
  }

  /** Every reply is valid and answers this very request, checked one after the other. */
  function AllCorrelated(cfg: Config, m: Message, replies: seq<Reply>): Result<()>
  {
    if replies == [] then Ok(())
    else
      var _ :- cfg.rules.acceptsReply(replies[0]);
      if !Correlated(m, replies[0]) then Err(State) else AllCorrelated(cfg, m, replies[1..])
  }

  /**
   * Whether a model consumer's RECEIVED and APPLIED pair may complete an admitted, unapplied request of a kind it
   * serves. Only a configuration may be applied at another step than the request's target.
   */
  function Completable(cfg: Config, t: Tables, serves: bool, m: Message, replies: seq<Reply>, now: nat): Result<Admission>
  {
    var a :- Observed(t, m, now);
    if !serves || a.responses.Some? || |replies| != 2 then Err(State)
    else
      var _ :- AllCorrelated(cfg, m, replies);
      var first, last := replies[0].body, replies[1].body;
      if !first.Ack? || !first.stage.Received? || first.error.Some? || first.probeId != 0
         || !last.Ack? || !last.stage.Applied? || last.error.Some? || last.probeId != 1000 + m.id
         || (m.id != CONFIGURE && (last.appliedStep != m.header.targetStep || last.modelRevision < 1))
         || cfg.rules.TotalReplyBytes(replies) > 4096 then Err(State)
      else Ok(a)
  }

  /** Whether a lifecycle operation's RECEIVED and APPLIED or FAILED pair may complete its retained request. */
  function LifecycleCompletable(cfg: Config, t: Tables, m: Message, replies: seq<Reply>): Result<Admission>
  {
    if m.id != LIFECYCLE || m.Key() !in t.records.vals || t.records.vals[m.Key()].request != m
       || t.records.vals[m.Key()].responses.Some? || |replies| != 2 then Err(State)
    else
      var _ :- AllCorrelated(cfg, m, replies);
      var first, last := replies[0].body, replies[1].body;
      if !first.Ack? || !first.stage.Received? || first.error.Some? || first.probeId != 0 || !last.Ack?
         || !(last.stage.Applied? || last.stage.Failed?)
         || (last.stage.Applied? && (last.error.Some? || last.probeId != 1000 + LIFECYCLE))
         || (last.stage.Failed? && (last.error.None? || last.probeId != 0))
         || cfg.rules.TotalReplyBytes(replies) > 4096 then Err(State)
      else Ok(t.records.vals[m.Key()])
  }

  lemma AcceptedAck(cfg: Config, r: Reply)
    requires cfg.Valid() && cfg.rules.acceptsReply(r).Ok? && r.id == ACK
    ensures cfg.rules.replyBytes(r) <= 350
  {
    AckShort(cfg.rules, r);
  }

  /** A valid pair of acknowledgements is never too long to store. */
  lemma PairFits(cfg: Config, m: Message, replies: seq<Reply>)
    requires cfg.Valid() && |replies| == 2 && AllCorrelated(cfg, m, replies).Ok?
    ensures cfg.rules.TotalReplyBytes(replies) <= 4096
  {
    AcceptedAck(cfg, replies[0]);
    AcceptedAck(cfg, replies[1]);
    hide Rules.Valid, Rules.SoundReply;
    assert cfg.rules.TotalReplyBytes(replies[1..]) == cfg.rules.replyBytes(replies[1]) by {
      assert replies[1..][0] == replies[1] && replies[1..][1..] == [];
    }
  }

  /** A completion is refused for nothing but who sends it, what it answers and what it says. */
  lemma CompletableExactly(cfg: Config, t: Tables, serves: bool, m: Message, replies: seq<Reply>, now: nat)
    requires cfg.Valid()
    ensures Completable(cfg, t, serves, m, replies, now).Ok? <==>
      && Observed(t, m, now).Ok? && serves && Observed(t, m, now).value.responses.None?
      && |replies| == 2 && AllCorrelated(cfg, m, replies).Ok?
      && replies[0].body.Ack? && replies[0].body.stage.Received? && replies[0].body.error.None? && replies[0].body.probeId == 0
      && replies[1].body.Ack? && replies[1].body.stage.Applied? && replies[1].body.error.None?
      && replies[1].body.probeId == 1000 + m.id
      && (m.id != CONFIGURE ==> replies[1].body.appliedStep == m.header.targetStep && replies[1].body.modelRevision >= 1)
  {
    hide AllCorrelated, Observed, Config.Valid, Rules.TotalReplyBytes;
    if |replies| == 2 && AllCorrelated(cfg, m, replies).Ok? {
      PairFits(cfg, m, replies);
    }
  }

  // ---------------------------------------------------------------- deferral

  /** Once a chunk's deferral is checked, claiming it and pinning it at the same time succeeds. */
  lemma DeferralPromise(cfg: Config, t: Tables, m: Message, r: Reply, now: nat)
    requires cfg.Valid() && m.body.ChunkBody? && m.id == CHUNK
    requires Deferrable(cfg, t, m, r, now).Ok? && t.records.Valid()
    ensures AdmittedRecord(t, m).Ok? && m.Key() in t.records.vals
    ensures Pinnable(cfg, Claimed(t, m), m, [r], now).Ok?
  {
    AcceptedAck(cfg, r);
    var a := t.records.vals[m.Key()];
    PutPinned(t.records, m.Key(), a.(queued := true));
    assert [r][1..] == [];
    assert RepliesStorable(cfg, m, m.header.sessionId, [r]) == Ok(()) by {
      assert ReplyStorable(cfg, m, m.header.sessionId, r) == Ok(());
      assert RepliesStorable(cfg, m, m.header.sessionId, [r][1..]) == Ok(());
    }
    assert cfg.rules.TotalReplyBytes([r]) == cfg.rules.replyBytes(r) + cfg.rules.TotalReplyBytes([r][1..]);
    assert AllAccepted(cfg, [r]) == Ok(()) by {
      assert AllAccepted(cfg, [r][1..]) == Ok(());
    }
    hide PinnedCount, RepliesStorable, Rules.TotalReplyBytes, AllAccepted;
  }
}
