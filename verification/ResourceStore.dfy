/** The serialized file store behind the storage thread. */
module ResourceStore {
  import opened Common
  import opened Messages
  import opened Ordered
  import opened Storage
  import opened Opening

  class ResourceStore {
    const cfg: Limits
    var active: OrderedDict<nat, Upload>
    var completed: OrderedDict<nat, Manifest>
    var aborted: seq<Aborted>
    var evidence: nat
    var objects: map<nat, seq<byte>>
    var lastNow: int
    var closed: bool

    function View(): Shelf
      reads this
    {
      Shelf(active, completed, aborted, evidence, objects)
    }

    ghost predicate Valid()
      reads this
    {
      cfg.Valid() && ShelfInv(cfg, View()) && (closed ==> active == Empty())
    }

    function Clock(now: nat): Result<()>
      reads this
    {
      if closed then Err(State) else if now < lastNow then Err(Schema) else Ok(())
    }

    /**
     * Opens a root: abandoned staging is refused, every directory is inspected in the order it is found, and the bounds
     * hold at every step.
     */
    static method Open(cfg: Limits, abandoned: bool, found: seq<Directory>) returns (r: Result<ResourceStore>)
      requires cfg.Valid() && Distinct(found)
      ensures abandoned ==> r == Err(Resource)
      ensures !abandoned ==>
        match Opened(cfg, Bare(), found)
        case Err(code) => r == Err(code)
        case Ok(shelf) =>
          && r.Ok? && fresh(r.value) && r.value.Valid() && !r.value.closed && r.value.cfg == cfg
          && r.value.View() == shelf && r.value.lastNow == -1
    {
      hide Listed, ShelfInv, Limits.Valid, Opened, Quiet;
      if abandoned {
        return Err(Resource);
      }
      var shelf := Bare();
      BareInv(cfg);
      BareQuiet();
      assert found[0..] == found;
      for i := 0 to |found|
        invariant ShelfInv(cfg, shelf) && Quiet(shelf)
        invariant forall sha :: sha in shelf.completed.vals <==> exists j :: 0 <= j < i && found[j].sha == sha
        invariant Opened(cfg, Bare(), found) == Opened(cfg, shelf, found[i..])
      {
        OpenedNext(cfg, shelf, found, i);
        NotYet(found, shelf, i);
        var next := Listed(cfg, shelf, found[i]);
        if next.Err? {
          return Err(next.code);
        }
        ListedInv(cfg, shelf, found[i]);
        ListedNames(found, i, shelf.completed.vals.Keys, next.value.completed.vals.Keys);
        shelf := next.value;
      }
      assert found[|found|..] == [];
      OpenedNone(cfg, shelf);
      QuietParts(shelf);
      var store := new ResourceStore.Loaded(cfg, shelf.completed, shelf.objects);
      return Ok(store);
    }

    /** A store over objects that have passed inspection. */
    constructor Loaded(cfg: Limits, completed: OrderedDict<nat, Manifest>, objects: map<nat, seq<byte>>)
      requires cfg.Valid() && ShelfInv(cfg, Shelf(Empty(), completed, [], 0, objects))
      ensures Valid() && this.cfg == cfg && !closed && lastNow == -1
      ensures View() == Shelf(Empty(), completed, [], 0, objects)
    {
      this.cfg, this.completed, this.objects := cfg, completed, objects;
      active, aborted, evidence, lastNow, closed := Empty(), [], 0, -1, false;
    }

    /** The checks before a chunk touches the store. */
    function Screened(m: Message, now: nat): Result<()>
      reads this
    {
      var _ :- Clock(now);
      var _ :- cfg.rules.accepts(m);
      if m.id != CHUNK || !m.body.ChunkBody? then Err(Unsupported)
      else
        match ChunkCheck(cfg, m.body.chunk)
        case Some(code) => Err(code)
        case None => Ok(())
    }

    /** Stores one chunk, answers a retry, or refuses it; a failure after recording it ends its upload. */
    method Accept(m: Message, now: nat, disk: Disk) returns (r: Result<Receipt>)
      requires Valid()
      modifies this
      ensures Valid() && closed == old(closed)
      ensures old(Screened(m, now)).Err? ==> r == Err(old(Screened(m, now)).code) && View() == old(View()) && lastNow == old(lastNow)
      ensures old(Screened(m, now)).Ok? ==>
        && m.body.ChunkBody? && ChunkCheck(cfg, m.body.chunk).None?
        && Accounted(cfg, old(View()))
        && (View(), r) == Accepted(cfg, old(View()), m, disk)
        && (r.Ok? ==> lastNow == now && r.value == ProgressFor(View(), m)
                      && ProgressConsistent(m.body.chunk, Payload(r.value, None)))
    {
      hide ShelfInv, Limits.Valid, ChunkCheck, Accounted, Judge, Acquired, Dropped, Published, Extended, Joined, ProgressFor,
        PublishRefusal, ProgressConsistent, RequestBytes;
      var screened := Screened(m, now);
      if screened.Err? {
        return Err(screened.code);
      }
      ChunkBounds(cfg, m);
      ShelfParts(cfg, View());
      AcceptedInv(cfg, View(), m, disk);
      if Accepted(cfg, View(), m, disk).1.Ok? {
        SuccessConsistent(cfg, View(), m, disk);
      }
      var c := m.body.chunk;
      var verdict := Judge(cfg, View(), m, disk);
      if verdict.Refuse? {
        return Err(verdict.code);
      }
      if verdict.Retry? {
        lastNow := now;
        return Ok(verdict.receipt);
      }
      r := Write(m, now, disk);
    }

    /** Records a chunk's request, then writes it, publishing the file when it is the last. */
    method Write(m: Message, now: nat, disk: Disk) returns (r: Result<Receipt>)
      requires cfg.Valid() && ShelfInv(cfg, View())
      requires m.body.ChunkBody? && ChunkCheck(cfg, m.body.chunk).None? && Judge(cfg, View(), m, disk).Take?
      requires Accounted(cfg, View())
      modifies this
      ensures (View(), r) == Taken(cfg, old(View()), m, disk)
      ensures r.Ok? ==> lastNow == now
      ensures closed == old(closed)
    {
      hide ShelfInv, Limits.Valid, ChunkCheck, Accounted, Judge, RequestBytes, PublishRefusal, ReservedBytes, OrderedDict.Valid;
      var c := m.body.chunk;
      AcquiredParts(cfg, View(), m);
      AcquiredAccounted(cfg, View(), m);
      DataPresent(cfg, c);
      var u := Joined(View(), m);
      ExtendedParts(u, c);
      RewrittenAccounted(cfg, Acquired(cfg, View(), m), c.sha, Extended(u, c));
      active := active.Put(c.sha, u);
      evidence := evidence + cfg.rules.messageBytes(m);
      if !disk.stageOk || !disk.writeOk {
        Abort(c.sha, Resource);
        return Err(Resource);
      }
      u := Extended(u, c);
      active := active.Put(c.sha, u);
      lastNow := now;
      if !c.final {
        return Ok(Receipt(c.sha, u.offset, false, u.offset));
      }
      var refusal := PublishRefusal(cfg, c.sha, u, disk);
      if refusal.Some? {
        Abort(c.sha, refusal.value);
        return Err(refusal.value);
      }
      Publish(c.sha, PublishStatus(cfg, c.sha, u, disk));
      return Ok(Receipt(c.sha, c.size, true, c.size));
    }

    method Abort(sha: nat, error: Code)
      requires sha in active.vals
      modifies this`active, this`aborted
      ensures View() == Dropped(old(View()), sha, error)
    {
      var u := active.vals[sha];
      active := active.Delete(sha);
      aborted := aborted + [Aborted(u.session, sha, u.offset, error, u.requests)];
    }

    method Publish(sha: nat, status: Status)
      requires sha in active.vals && RequestBytes(cfg, active.vals[sha].requests) <= evidence
      modifies this`active, this`completed, this`evidence, this`objects
      ensures View() == Published(cfg, old(View()), sha, status)
    {
      hide RequestBytes;
      var u := active.vals[sha];
      objects := objects[sha := u.data];
      completed := completed.Put(sha, ManifestOf(sha, u, status));
      evidence := evidence - RequestBytes(cfg, u.requests);
      active := active.Delete(sha);
    }

    /** Ends every upload of a session. */
    method AbortSession(session: nat) returns (r: Result<seq<Aborted>>)
      requires Valid()
      modifies this`active, this`aborted
      ensures Valid()
      ensures closed ==> r == Err(State) && View() == old(View())
      ensures !closed ==>
        && r == Ok(AbortsOf(old(active).keys, old(active).vals, OwnedBy(session), StaleSession))
        && active == old(active).Select(Not(OwnedBy(session))) && aborted == old(aborted) + r.value
    {
      hide ShelfInv, Limits.Valid, AbortsOf, OrderedDict.Select;
      if closed {
        return Err(State);
      }
      var out := AbortMatching(OwnedBy(session), StaleSession);
      return Ok(out);
    }

    method AbortMatching(test: Upload -> bool, error: Code) returns (out: seq<Aborted>)
      requires cfg.Valid() && ShelfInv(cfg, View())
      modifies this`active, this`aborted
      ensures ShelfInv(cfg, View())
      ensures out == AbortsOf(old(active).keys, old(active).vals, test, error)
      ensures active == old(active).Select(Not(test)) && aborted == old(aborted) + out
    {
      hide ShelfInv, Limits.Valid, AbortsOf, OrderedDict.Select, SweptTo, Passing, OrderedDict.Valid, NoDup, OrderedDict.Delete;
      ShelfActive(cfg, View());
      ghost var start := active;
      SweptAll(start, Not(test));
      var keys := active.keys;
      out := [];
      AbortsNone(start.vals, test, error);
      for i := 0 to |keys|
        invariant ShelfInv(cfg, View())
        invariant active == SweptTo(start, Not(test), i)
        invariant out == AbortsOf(keys[..i], start.vals, test, error)
        invariant aborted == old(aborted) + out
      {
        SweptNext(start, Not(test), i);
        AbortsNext(keys, start.vals, test, error, i);
        if test(active.vals[keys[i]]) {
          DroppedInv(cfg, View(), keys[i], error);
          var u := active.vals[keys[i]];
          Abort(keys[i], error);
          out := out + [Aborted(u.session, keys[i], u.offset, error, u.requests)];
        }
      }
      assert keys[..|keys|] == keys;
    }

    /** Ends one upload whose time ran out, if its own session asks. */
    method AbortResource(session: nat, sha: nat, error: Code) returns (r: Result<seq<Aborted>>)
      requires Valid() && (error == Expired || error == Timeout)
      modifies this`active, this`aborted
      ensures Valid()
      ensures closed ==> r == Err(State) && View() == old(View())
      ensures !closed && sha !in old(active).vals ==> r == Ok([]) && View() == old(View())
      ensures !closed && sha in old(active).vals ==>
        if old(active).vals[sha].session != session then r == Err(Authorization) && View() == old(View())
        else r.Ok? && View() == Dropped(old(View()), sha, error)
    {
      hide ShelfInv, Limits.Valid;
      if closed {
        return Err(State);
      }
      if sha !in active.vals {
        return Ok([]);
      }
      var u := active.vals[sha];
      if u.session != session {
        return Err(Authorization);
      }
      DroppedInv(cfg, View(), sha, error);
      Abort(sha, error);
      return Ok([Aborted(u.session, sha, u.offset, error, u.requests)]);
    }

    /** Hands over the aborted records and frees their evidence. */
    method DrainAborted() returns (out: seq<Aborted>)
      requires Valid()
      modifies this`aborted, this`evidence
      ensures Valid()
      ensures out == old(aborted)
      ensures AbortedBytes(cfg, out) <= old(evidence) && View() == Drained(cfg, old(View()))
    {
      hide ShelfInv, Limits.Valid, AbortedBytes;
      DrainedInv(cfg, View());
      out := aborted;
      evidence := evidence - AbortedBytes(cfg, aborted);
      aborted := [];
    }

    method Close() returns (out: seq<Aborted>)
      requires Valid()
      modifies this`active, this`aborted, this`closed
      ensures Valid() && closed
      ensures old(closed) ==> out == [] && View() == old(View())
      ensures !old(closed) ==>
        && out == AbortsOf(old(active).keys, old(active).vals, Anyone(), State)
        && active == Empty() && aborted == old(aborted) + out
    {
      hide ShelfInv, Limits.Valid, AbortsOf, OrderedDict.Select;
      if closed {
        return [];
      }
      out := AbortMatching(Anyone(), State);
      SelectNothing(old(active));
      closed := true;
    }
  }

  lemma SelectNothing(d: OrderedDict<nat, Upload>)
    ensures d.Select(Not(Anyone())) == Empty()
  {
    PassingNone(d.keys, d.vals, Not(Anyone()));
  }

  lemma ChunkBounds(cfg: Limits, m: Message)
    requires cfg.Valid() && cfg.rules.accepts(m).Ok? && m.id == CHUNK
    ensures m.body.ChunkBody? && 1 <= m.body.chunk.length <= 32768
  {
  }

  lemma ShelfActive(cfg: Limits, s: Shelf)
    requires ShelfInv(cfg, s)
    ensures s.active.Valid()
  {
  }

  lemma AbortsNone(vals: map<nat, Upload>, test: Upload -> bool, error: Code)
    ensures AbortsOf([], vals, test, error) == []
  {
  }

  lemma AbortsNext(keys: seq<nat>, vals: map<nat, Upload>, test: Upload -> bool, error: Code, i: nat)
    requires i < |keys| && keys[i] in vals
    ensures AbortsOf(keys[..i + 1], vals, test, error) ==
      var u := vals[keys[i]];
      AbortsOf(keys[..i], vals, test, error)
      + (if test(u) then [Aborted(u.session, keys[i], u.offset, error, u.requests)] else [])
  {
    assert keys[..i + 1][..i] == keys[..i];
  }

  function PublishStatus(cfg: Limits, sha: nat, u: Upload, disk: Disk): Status
    requires PublishRefusal(cfg, sha, u, disk).None?
  {
    cfg.content(u.kind, u.data).value
  }
}
