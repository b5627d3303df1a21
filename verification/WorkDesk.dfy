/** The storage thread's shared tables: what every atomic step keeps. */
module WorkDesk {
  import opened Common
  import opened Messages
  import opened Ordered
  import opened Registry
  import opened Storage

  datatype Job = Job(key: Key, request: Message, binding: PeerBinding, received: nat, due: nat)

  datatype Outcome = Outcome(key: Key, request: Message, binding: PeerBinding, payload: ReplyBody, completed: nat)

  /** Where the storage thread stands between two lock acquisitions. */
  datatype Phase =
    | Idle
    | Aborting(session: nat)
    | Draining
    | Starting(job: Job)
    | Stored(job: Job, error: Option<Code>)
    | Stopped

  datatype Drain = NoDrain | Requested | Done(records: seq<Aborted>)

  /** The tables the lock protects. */
  datatype Desk = Desk(
    queue: seq<Job>,
    jobs: OrderedDict<Key, Job>,
    results: OrderedDict<Key, Outcome>,
    phase: Phase)

  /** Who was ever submitted and who was ever answered. */
  datatype Trail = Trail(submitted: seq<Key>, answered: seq<Key>)

  function Size(rules: Rules, m: Message): nat { rules.messageBytes(m) }

  function BytesOf(rules: Rules, jobs: OrderedDict<Key, Job>): Key -> nat
  {
    k => if k in jobs.vals then Size(rules, jobs.vals[k].request) else 0
  }

  /** The keys of waiting jobs. */
  function Waiting(queue: seq<Job>): set<Key>
  {
    set i | 0 <= i < |queue| :: queue[i].key
  }

  /** The key of the job being stored, if any. */
  function Busy(phase: Phase): set<Key>
  {
    if phase.Starting? || phase.Stored? then {phase.job.key} else {}
  }

  ghost predicate TablesInv(d: Desk)
  {
    && d.jobs.Valid() && d.results.Valid()
    && (forall k :: k in d.jobs.vals ==> d.jobs.vals[k].key == k && d.jobs.vals[k].request.body.ChunkBody?)
    && (forall k :: k in d.jobs.vals ==> d.jobs.vals[k].request.Key() == k)
    && (forall k :: k in d.results.vals ==> k in d.jobs.vals && ResultFor(d.jobs.vals[k], d.results.vals[k]))
  }

  ghost predicate WaitingInv(d: Desk)
  {
    && (forall i, j :: 0 <= i < j < |d.queue| ==> d.queue[i].key != d.queue[j].key)
    && (forall i :: 0 <= i < |d.queue| ==>
          d.queue[i].key in d.jobs.vals && d.jobs.vals[d.queue[i].key] == d.queue[i])
    && (d.phase.Starting? || d.phase.Stored? ==>
          d.phase.job.key in d.jobs.vals && d.jobs.vals[d.phase.job.key] == d.phase.job)
    && (d.phase.Stopped? ==> d.queue == [])
  }

  /** Every job waits, is being stored, or has its result: exactly one of the three. */
  ghost predicate PlacesInv(d: Desk)
  {
    && d.jobs.vals.Keys == Waiting(d.queue) + Busy(d.phase) + d.results.vals.Keys
    && Waiting(d.queue) !! Busy(d.phase)
    && Waiting(d.queue) !! d.results.vals.Keys
    && Busy(d.phase) !! d.results.vals.Keys
  }

  ghost predicate DeskInv(d: Desk)
  {
    TablesInv(d) && WaitingInv(d) && PlacesInv(d)
  }

  /** A result answers its own job with a payload the feedback validator accepts. */
  predicate ResultFor(job: Job, o: Outcome)
  {
    && o.key == job.key && o.request == job.request && o.binding == job.binding
    && job.request.body.ChunkBody? && o.payload.Progress?
    && ProgressConsistent(job.request.body.chunk, o.payload)
  }

  /** Submitted once, answered at most once, and answered as soon as neither waiting nor being stored. */
  ghost predicate TrailInv(d: Desk, t: Trail)
  {
    && NoDup(t.submitted) && NoDup(t.answered)
    && (forall k :: k in t.answered ==> k in t.submitted)
    && (forall k :: k in t.submitted ==> (k !in t.answered <==> k in Waiting(d.queue) + Busy(d.phase)))
    && (forall k :: k in d.jobs.vals ==> k in t.submitted)
  }

  /** Waiting jobs are in due order, inside the budget's horizon, and due before their validity ends. */
  ghost predicate QueueInv(queue: seq<Job>, horizon: nat)
  {
    && (forall i, j :: 0 <= i < j < |queue| ==> queue[i].due < queue[j].due)
    && (forall i :: 0 <= i < |queue| ==>
          queue[i].due <= horizon && queue[i].due < queue[i].received + queue[i].request.header.validForMs * NS_PER_MS)
  }

  // ---------------------------------------------------------------- steps on the tables

  function Submitted(d: Desk, job: Job): Desk
  {
    d.(queue := d.queue + [job], jobs := d.jobs.Put(job.key, job))
  }

  lemma WaitingAppend(queue: seq<Job>, job: Job)
    ensures Waiting(queue + [job]) == Waiting(queue) + {job.key}
  {
    forall k ensures k in Waiting(queue + [job]) <==> k in Waiting(queue) + {job.key} {
      if k in Waiting(queue) {
        var i :| 0 <= i < |queue| && queue[i].key == k;
        assert (queue + [job])[i].key == k;
      }
      assert (queue + [job])[|queue|] == job;
    }
  }

  lemma WaitingHead(queue: seq<Job>)
    requires queue != [] && forall i, j :: 0 <= i < j < |queue| ==> queue[i].key != queue[j].key
    ensures Waiting(queue) == {queue[0].key} + Waiting(queue[1..]) && queue[0].key !in Waiting(queue[1..])
  {
    forall k ensures k in Waiting(queue) <==> k in {queue[0].key} + Waiting(queue[1..]) {
      if k in Waiting(queue[1..]) {
        var i :| 0 <= i < |queue[1..]| && queue[1..][i].key == k;
        assert queue[i + 1].key == k;
      }
      if k in Waiting(queue) {
        var i :| 0 <= i < |queue| && queue[i].key == k;
        if i > 0 {
          assert queue[1..][i - 1].key == k;
        }
      }
    }
  }

  lemma NoDupAppend(s: seq<Key>, k: Key)
    requires NoDup(s) && k !in s
    ensures NoDup(s + [k])
  {
  }

  lemma SubmittedInv(d: Desk, t: Trail, job: Job)
    requires DeskInv(d) && TrailInv(d, t) && job.key !in t.submitted && job.request.body.ChunkBody? && !d.phase.Stopped?
    requires job.request.Key() == job.key
    ensures job.key !in d.jobs.vals
    ensures DeskInv(Submitted(d, job))
    ensures TrailInv(Submitted(d, job), t.(submitted := t.submitted + [job.key]))
  {
    hide NoDup, ResultFor, Waiting, Busy;
    WaitingAppend(d.queue, job);
    NoDupAppend(t.submitted, job.key);
    SubmittedWaiting(d, job);
    hide WaitingInv;
  }

  lemma SubmittedWaiting(d: Desk, job: Job)
    requires WaitingInv(d) && job.key !in d.jobs.vals && !d.phase.Stopped?
    ensures WaitingInv(Submitted(d, job))
  {
  }

  lemma SubmittedOrder(queue: seq<Job>, horizon: nat, job: Job)
    requires QueueInv(queue, horizon) && job.due > horizon
    requires job.due < job.received + job.request.header.validForMs * NS_PER_MS
    ensures QueueInv(queue + [job], job.due)
    ensures forall i :: 0 <= i < |queue| ==> queue[i].due < job.due
  {
  }

  /** The thread takes the job at the head of the queue. */
  function Taken(d: Desk): Desk
    requires d.queue != []
  {
    d.(queue := d.queue[1..], phase := Starting(d.queue[0]))
  }

  lemma TakenInv(d: Desk, t: Trail)
    requires DeskInv(d) && TrailInv(d, t) && d.phase.Idle? && d.queue != []
    ensures DeskInv(Taken(d)) && TrailInv(Taken(d), t)
  {
    hide NoDup, ResultFor, Waiting;
    WaitingHead(d.queue);
    TakenWaiting(d);
    assert Busy(d.phase) == {} && Busy(Taken(d).phase) == {d.queue[0].key};
    assert Waiting(Taken(d).queue) + Busy(Taken(d).phase) == Waiting(d.queue) + Busy(d.phase);
    hide WaitingInv, Busy;
  }

  lemma TakenWaiting(d: Desk)
    requires WaitingInv(d) && d.queue != []
    ensures WaitingInv(Taken(d))
  {
  }

  function Answered(d: Desk, o: Outcome): Desk
  {
    d.(results := d.results.Put(o.key, o), phase := Idle)
  }

  lemma AnsweredInv(d: Desk, t: Trail, o: Outcome)
    requires DeskInv(d) && TrailInv(d, t) && d.phase.Stored? && d.phase.job.key == o.key && ResultFor(d.phase.job, o)
    ensures DeskInv(Answered(d, o))
    ensures TrailInv(Answered(d, o), t.(answered := t.answered + [o.key]))
  {
    hide NoDup, ResultFor, Waiting;
    assert Busy(d.phase) == {o.key} && Busy(Answered(d, o).phase) == {};
    assert o.key in t.submitted && o.key !in t.answered;
    NoDupAppend(t.answered, o.key);
    hide Busy;
    assert PlacesInv(Answered(d, o));
  }

  function Released(d: Desk, k: Key): Desk
  {
    d.(results := d.results.Delete(k), jobs := d.jobs.Delete(k))
  }

  lemma ReleasedInv(d: Desk, t: Trail, k: Key)
    requires DeskInv(d) && TrailInv(d, t) && k in d.results.vals
    ensures DeskInv(Released(d, k)) && TrailInv(Released(d, k), t)
  {
    hide NoDup, ResultFor, TablesInv, WaitingInv, PlacesInv, Waiting, Busy;
    ReleasedTables(d, k);
    ReleasedWaiting(d, k);
    ReleasedPlaces(d, k);
  }

  lemma ReleasedTables(d: Desk, k: Key)
    requires TablesInv(d)
    ensures TablesInv(Released(d, k))
    ensures Released(d, k).jobs.vals == d.jobs.vals - {k} && Released(d, k).results.vals == d.results.vals - {k}
  {
    hide ResultFor, NoDup;
  }

  lemma ReleasedPlaces(d: Desk, k: Key)
    requires PlacesInv(d) && k in d.results.vals
    ensures PlacesInv(Released(d, k))
  {
    hide Waiting, Busy;
    var r := Released(d, k);
    assert r.jobs.vals.Keys == d.jobs.vals.Keys - {k} && r.results.vals.Keys == d.results.vals.Keys - {k};
  }

  lemma ReleasedWaiting(d: Desk, k: Key)
    requires WaitingInv(d) && PlacesInv(d) && k in d.results.vals
    ensures WaitingInv(Released(d, k))
  {
    forall i | 0 <= i < |d.queue| ensures d.queue[i].key != k {
      assert d.queue[i].key in Waiting(d.queue);
    }
    assert d.phase.Starting? || d.phase.Stored? ==> d.phase.job.key in Busy(d.phase);
    hide PlacesInv;
  }

  /** The phases in which no job is being stored are interchangeable. */
  lemma PhaseInv(d: Desk, t: Trail, phase: Phase)
    requires DeskInv(d) && TrailInv(d, t)
    requires !d.phase.Starting? && !d.phase.Stored? && !phase.Starting? && !phase.Stored?
    requires phase.Stopped? ==> d.queue == []
    ensures DeskInv(d.(phase := phase)) && TrailInv(d.(phase := phase), t)
  {
    hide ResultFor, NoDup, Waiting;
    assert Busy(d.phase) == Busy(phase) == {};
  }

  lemma StoredInv(d: Desk, t: Trail, error: Option<Code>)
    requires DeskInv(d) && TrailInv(d, t) && d.phase.Starting?
    ensures DeskInv(d.(phase := Stored(d.phase.job, error))) && TrailInv(d.(phase := Stored(d.phase.job, error)), t)
  {
    hide ResultFor, NoDup, Waiting;
    assert Busy(d.phase) == Busy(Stored(d.phase.job, error));
  }

  /** Once the thread has ended, everything submitted has been answered, exactly once. */
  lemma AllAnswered(d: Desk, t: Trail)
    requires DeskInv(d) && TrailInv(d, t) && d.phase.Stopped?
    ensures NoDup(t.submitted) && NoDup(t.answered)
    ensures forall k :: k in t.submitted <==> k in t.answered
    ensures forall k :: k in d.jobs.vals <==> k in d.results.vals
  {
    assert Waiting(d.queue) == {} && Busy(d.phase) == {};
  }

  // ---------------------------------------------------------------- failure of the thread

  /** The answer an unanswered job gets when the thread fails. */
  function Failure(job: Job, code: Code, now: nat): Outcome
    requires job.request.body.ChunkBody?
  {
    Outcome(job.key, job.request, job.binding, Progress(job.request.body.chunk.sha, 0, false, 0, Some(code)), now)
  }

  /** The jobs among the listed keys that have no result yet, in order. */
  function Unanswered(keys: seq<Key>, results: map<Key, Outcome>): (r: seq<Key>)
    ensures forall k :: k in r <==> k in keys && k !in results
    ensures NoDup(keys) ==> NoDup(r)
  {
    if keys == [] then []
    else
      assert NoDup(keys) ==> NoDup(keys[1..]) && keys[0] !in keys[1..];
      (if keys[0] in results then [] else [keys[0]]) + Unanswered(keys[1..], results)
  }

  ghost predicate FailedTo(d: Desk, d': Desk, code: Code, now: nat)
  {
    && d'.queue == [] && d'.phase == Stopped && d'.jobs == d.jobs
    && d'.results.Valid() && d'.results.vals.Keys == d.jobs.vals.Keys
    && (forall k :: k in d.results.vals ==> k in d'.results.vals && d'.results.vals[k] == d.results.vals[k])
    && (forall k :: k in d.jobs.vals && k !in d.results.vals ==>
          k in d'.results.vals && d.jobs.vals[k].request.body.ChunkBody?
          && d'.results.vals[k] == Failure(d.jobs.vals[k], code, now))
  }

  lemma FailureFits(job: Job, code: Code, now: nat)
    requires job.request.body.ChunkBody?
    ensures ResultFor(job, Failure(job, code, now))
  {
  }

  /** When the thread fails, every job still unanswered gets its one answer. */
  lemma FailedInv(d: Desk, d': Desk, t: Trail, code: Code, now: nat)
    requires DeskInv(d) && TrailInv(d, t) && FailedTo(d, d', code, now)
    ensures DeskInv(d')
    ensures TrailInv(d', t.(answered := t.answered + Unanswered(d.jobs.keys, d.results.vals)))
  {
    hide *;
    DeskParts(d);
    FailedResults(d, d', code, now);
    FailedPlaces(d, d', code, now);
    FailedTrail(d, d', t, code, now);
    DeskParts(d');
  }

  lemma DeskParts(d: Desk)
    ensures DeskInv(d) <==> TablesInv(d) && WaitingInv(d) && PlacesInv(d)
  {
    hide TablesInv, WaitingInv, PlacesInv;
  }

  lemma FailedPlaces(d: Desk, d': Desk, code: Code, now: nat)
    requires WaitingInv(d) && PlacesInv(d) && FailedTo(d, d', code, now)
    ensures WaitingInv(d') && PlacesInv(d')
  {
    assert Waiting(d'.queue) == {} && Busy(d'.phase) == {};
    hide NoDup;
  }

  lemma FailedTrail(d: Desk, d': Desk, t: Trail, code: Code, now: nat)
    requires DeskInv(d) && TrailInv(d, t) && FailedTo(d, d', code, now)
    ensures TrailInv(d', t.(answered := t.answered + Unanswered(d.jobs.keys, d.results.vals)))
  {
    var more := Unanswered(d.jobs.keys, d.results.vals);
    var pend := Waiting(d.queue) + Busy(d.phase);
    assert d.jobs.vals.Keys == pend + d.results.vals.Keys && pend !! d.results.vals.Keys;
    assert forall k :: k in more <==> k in pend;
    assert Waiting(d'.queue) + Busy(d'.phase) == {};
    hide TablesInv, WaitingInv, PlacesInv, Waiting, Busy, Unanswered;
    assert forall k :: k in more ==> k !in t.answered && k in t.submitted;
    NoDupJoin(t.answered, more);
    hide NoDup, FailedTo;
  }

  lemma FailedResults(d: Desk, d': Desk, code: Code, now: nat)
    requires TablesInv(d) && FailedTo(d, d', code, now)
    ensures TablesInv(d')
  {
    forall k | k in d'.results.vals ensures ResultFor(d'.jobs.vals[k], d'.results.vals[k]) {
      if k !in d.results.vals {
        FailureFits(d.jobs.vals[k], code, now);
      }
    }
    hide ResultFor;
  }

  lemma NoDupJoin(a: seq<Key>, b: seq<Key>)
    requires NoDup(a) && NoDup(b) && forall k :: k in b ==> k !in a
    ensures NoDup(a + b)
  {
    forall i, j | 0 <= i < j < |a + b| ensures (a + b)[i] != (a + b)[j] {
      if i < |a| <= j {
        assert a[i] in a && b[j - |a|] in b;
      }
    }
  }
}
