/** What a maintenance preview promises about the deletions that follow it. */
module Maintenance {
  import opened Common
  import opened Messages
  import opened Ordered
  import opened Registry
  import opened Queue
  import opened ModelQueue

  function Inside(sids: seq<nat>): Pending -> bool { (p: Pending) => p.key.0 in sids }

  lemma {:induction false} StaleSplit(keys: seq<Key>, vals: map<Key, Pending>, p: Pending -> bool, q: Pending -> bool,
                                      both: Pending -> bool)
    requires forall k :: k in vals ==> (both(vals[k]) <==> p(vals[k]) || q(vals[k])) && !(p(vals[k]) && q(vals[k]))
    ensures multiset(Stale(Picked(keys, vals, both)))
      == multiset(Stale(Picked(keys, vals, p))) + multiset(Stale(Picked(keys, vals, q)))
  {
    if keys != [] {
      StaleSplit(keys[1..], vals, p, q, both);
      StaleFirst(keys, vals, p);
      StaleFirst(keys, vals, q);
      StaleFirst(keys, vals, both);
    }
  }

  lemma StaleFirst(keys: seq<Key>, vals: map<Key, Pending>, p: Pending -> bool)
    requires keys != []
    ensures multiset(Stale(Picked(keys, vals, p))) ==
      multiset(Stale(Picked(keys[1..], vals, p)))
      + (if keys[0] in vals && p(vals[keys[0]]) then multiset{Rejected(vals[keys[0]], StaleSession)} else multiset{})
  {
    PickedFirst(keys, vals, p);
    if keys[0] in vals && p(vals[keys[0]]) {
      var rest := Picked(keys[1..], vals, p);
      assert ([vals[keys[0]]] + rest)[1..] == rest;
      assert Stale([vals[keys[0]]] + rest) == [Rejected(vals[keys[0]], StaleSession)] + Stale(rest);
    }
  }

  lemma {:induction false} PickedSame(keys: seq<Key>, vals: map<Key, Pending>, p: Pending -> bool, q: Pending -> bool)
    requires forall k :: k in vals ==> (p(vals[k]) <==> q(vals[k]))
    ensures Picked(keys, vals, p) == Picked(keys, vals, q)
  {
    if keys != [] {
      PickedSame(keys[1..], vals, p, q);
    }
  }

  lemma {:induction false} PickedNever(keys: seq<Key>, vals: map<Key, Pending>, p: Pending -> bool)
    requires forall k :: k in vals ==> !p(vals[k])
    ensures Picked(keys, vals, p) == []
  {
    if keys != [] {
      PickedNever(keys[1..], vals, p);
    }
  }

  /** Discarding session by session removes the same inputs as one pass over the queue. */
  lemma {:induction false} SessionBySession(sids: seq<nat>, pending: OrderedDict<Key, Pending>)
    requires NoDup(sids)
    ensures multiset(StaleInputs(sids, pending)) == multiset(Stale(Picked(pending.keys, pending.vals, Inside(sids))))
    decreases |sids|
  {
    if sids == [] {
      PickedNever(pending.keys, pending.vals, Inside(sids));
    } else {
      var front, last := sids[..|sids| - 1], sids[|sids| - 1];
      assert sids == front + [last] && last !in front;
      SessionBySession(front, pending);
      StaleSplit(pending.keys, pending.vals, Inside(front), OfSession(last), Inside(sids));
    }
  }

  /** The inputs removed are exactly those previewed, whatever the order. */
  lemma RemovedAsPreviewed(s: Store, t: Tables)
    requires s.pending.Valid() && forall k :: k in s.pending.vals ==> s.pending.vals[k].key == k
    ensures multiset(StaleInputs(Ascending(StaleSessions(s, t)), s.pending))
      == multiset(Stale(Picked(s.pending.keys, s.pending.vals, Unlisted(t.sessions.vals.Keys))))
    ensures |StaleInputs(Ascending(StaleSessions(s, t)), s.pending)|
      == |Stale(Picked(s.pending.keys, s.pending.vals, Unlisted(t.sessions.vals.Keys)))|
  {
    var order := Ascending(StaleSessions(s, t));
    AscendingFacts(StaleSessions(s, t));
    SessionBySession(order, s.pending);
    forall k | k in s.pending.vals
      ensures Inside(order)(s.pending.vals[k]) <==> Unlisted(t.sessions.vals.Keys)(s.pending.vals[k])
    {
      if k.0 !in t.sessions.vals {
        assert k.0 in StaleSessions(s, t);
      }
    }
    hide Ascending, StaleSessions, StaleInputs, Picked, Stale;
    PickedSame(s.pending.keys, s.pending.vals, Inside(order), Unlisted(t.sessions.vals.Keys));
    var a, b := StaleInputs(order, s.pending), Stale(Picked(s.pending.keys, s.pending.vals, Inside(order)));
    assert |a| == |multiset(a)| && |b| == |multiset(b)|;
  }

  /** The sessions that would remain. */
  function Remaining(t: Tables, now: nat): set<nat>
  {
    set sid | sid in t.sessions.vals && sid !in ExpiredSessions(t, now)
  }

  /** The sessions a preview leaves are the sessions maintenance leaves. */
  lemma PreviewedSessions(t: Tables, now: nat)
    requires t.sessions.Valid()
    ensures Remaining(t, now) == Current(t, now).sessions.vals.Keys
    ensures NoDup(ExpiredSessions(t, now))
  {
    hide NoDup;
  }
}
