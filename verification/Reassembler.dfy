/** The reassembler as the receiver owns it: one mutable object, serial callers. */
module Reassembler {
  import opened Common
  import opened Catalogue
  import opened Ordered
  import opened Reassembly

  /** The groups among the listed keys that a sweep at `now` times out, in order. */
  function TimedOut(groups: map<Key, Group>, keys: seq<Key>, now: nat): seq<Key>
  {
    if keys == [] then []
    else (if keys[0] in groups && now >= groups[keys[0]].deadline then [keys[0]] else [])
         + TimedOut(groups, keys[1..], now)
  }

  lemma TimeoutStep(pol: Policy, s: Assembly, keys: seq<Key>, i: nat, now: nat)
    requires Accounted(s) && i < |keys|
    requires keys[i] in s.groups.vals
    ensures var key := keys[i];
      var due := now >= s.groups.vals[key].deadline;
      && (due ==> s.groups.vals[key].reserved <= s.reserved && Accounted(Dropped(s, key)))
      && GroupsExpired(pol, s, keys[i..], now) == GroupsExpired(pol,
           if due then Remembered(pol, Dropped(s, key), key, Timeout, s.groups.vals[key].deadline) else s,
           keys[i + 1..], now)
  {
    DropAccounted(s, keys[i]);
    assert keys[i..][0] == keys[i] && keys[i..][1..] == keys[i + 1..];
  }

  lemma NothingLeft(pol: Policy, s: Assembly, groups: map<Key, Group>, session: nat, now: nat)
    requires Accounted(s)
    ensures GroupsExpired(pol, s, [], now) == s && TimedOut(groups, [], now) == []
    ensures GroupsDiscarded(s, [], session) == s
  {
  }

  lemma TimedOutStep(groups: map<Key, Group>, keys: seq<Key>, i: nat, now: nat)
    requires i < |keys| && keys[i] in groups
    ensures TimedOut(groups, keys[i..], now) ==
      (if now >= groups[keys[i]].deadline then [keys[i]] else []) + TimedOut(groups, keys[i + 1..], now)
  {
    assert keys[i..][0] == keys[i] && keys[i..][1..] == keys[i + 1..];
  }

  lemma OpenedVals(pol: Policy, s: Assembly, p: Piece, key: Key, reservation: nat, now: nat)
    ensures Opened(pol, s, p, key, reservation, now).groups.vals
      == s.groups.vals[key := Group(p, now + pol.Timeout(p), reservation, map[])]
  {
  }

  lemma GroupFacts(pol: Policy, s: Assembly, key: Key)
    requires Inv(pol, s)
    ensures Accounted(s)
    ensures key in s.groups.vals ==> forall i :: i in s.groups.vals[key].pieces ==> i < s.groups.vals[key].first.Count()
  {
    hide Accounted, Total;
    if key in s.groups.vals {
      assert GroupOk(key, s.groups.vals[key]);
    }
  }

  /** What storing a fragment needs of the group it goes to, found or just opened. */
  lemma Ready(pol: Policy, s: Assembly, p: Piece, key: Key, reservation: nat, now: nat)
    requires Inv(pol, s)
    ensures Accounted(s)
    ensures key in s.groups.vals ==>
      && s.groups.vals[key].reserved <= s.reserved
      && forall i :: i in s.groups.vals[key].pieces ==> i < s.groups.vals[key].first.Count()
    ensures key !in s.groups.vals ==>
      var r := Opened(pol, s, p, key, reservation, now);
      Accounted(r) && r.groups.vals == s.groups.vals[key := Group(p, now + pol.Timeout(p), reservation, map[])]
  {
    GroupFacts(pol, s, key);
    hide *;
    if key in s.groups.vals {
      DropAccounted(s, key);
    } else {
      OpenedAccounted(pol, s, p, key, reservation, now);
      OpenedVals(pol, s, p, key, reservation, now);
    }
  }

  lemma KeysDistinct(s: Assembly)
    requires Accounted(s)
    ensures NoDup(s.groups.keys) && forall k :: k in s.groups.keys <==> k in s.groups.vals
  {
  }

  lemma DiscardStep(s: Assembly, keys: seq<Key>, i: nat, session: nat)
    requires Accounted(s) && i < |keys|
    ensures var key := keys[i];
      var stale := key in s.groups.vals && key.session == session;
      && (stale ==> s.groups.vals[key].reserved <= s.reserved && Accounted(Dropped(s, key)))
      && GroupsDiscarded(s, keys[i..], session) ==
           GroupsDiscarded(if stale then Dropped(s, key) else s, keys[i + 1..], session)
  {
    if keys[i] in s.groups.vals {
      DropAccounted(s, keys[i]);
    }
    assert keys[i..][0] == keys[i] && keys[i..][1..] == keys[i + 1..];
  }

  predicate Live(k: Key, active: set<nat>)
  {
    k.session == 0 || k.session in active
  }

  /** What is left of a state after discarding some sessions. */
  ghost predicate Remaining(before: Assembly, after: Assembly, stale: set<nat>)
  {
    && (forall k :: k in after.groups.vals <==> k in before.groups.vals && k.session !in stale)
    && (forall k :: k in after.groups.vals ==> after.groups.vals[k] == before.groups.vals[k])
    && (forall k :: k in after.terminal.vals <==> k in before.terminal.vals && k.session !in stale)
    && (forall k :: k in after.terminal.vals ==> after.terminal.vals[k] == before.terminal.vals[k])
  }

  lemma RemainingNone(s: Assembly)
    ensures Remaining(s, s, {})
  {
  }

  lemma RemainingMore(before: Assembly, mid: Assembly, after: Assembly, stale: set<nat>, session: nat)
    requires Remaining(before, mid, stale) && Remaining(mid, after, {session})
    ensures Remaining(before, after, stale + {session})
  {
  }

  lemma KeysCover(pol: Policy, s: Assembly)
    requires Inv(pol, s)
    ensures forall k :: k in s.groups.vals || k in s.terminal.vals ==> k in s.groups.keys + s.terminal.keys
  {
  }

  /** Every listed key's session is discarded or live, and only dead sessions are discarded. */
  ghost predicate Judged(keys: seq<Key>, stale: set<nat>, active: set<nat>)
  {
    && (forall k :: k in keys ==> k.session in stale || Live(k, active))
    && (forall session :: session in stale ==> session != 0 && session !in active)
  }

  lemma JudgedNone(active: set<nat>)
    ensures Judged([], {}, active)
  {
  }

  lemma JudgedMore(keys: seq<Key>, i: nat, stale: set<nat>, stale': set<nat>, active: set<nat>)
    requires i < |keys| && Judged(keys[..i], stale, active)
    requires var session := keys[i].session;
      stale' == if session != 0 && session !in active && session !in stale then stale + {session} else stale
    ensures Judged(keys[..i + 1], stale', active)
  {
    assert keys[..i + 1] == keys[..i] + [keys[i]];
  }

  lemma StaleAll(s: Assembly, keys: seq<Key>, stale: set<nat>, active: set<nat>)
    requires forall k :: k in s.groups.vals || k in s.terminal.vals ==> k in keys
    requires Judged(keys, stale, active)
    ensures forall k :: k in s.groups.vals || k in s.terminal.vals ==> (k.session in stale <==> !Live(k, active))
  {
  }

  class Reassembler {
    const pol: Policy
    var groups: OrderedDict<Key, Group>
    var terminal: OrderedDict<Key, Grave>
    var reserved: nat
    var lastNow: int

    function Abstract(): Assembly
      reads this
    {
      Assembly(groups, terminal, reserved, lastNow)
    }

    ghost predicate Valid()
      reads this
    {
      pol.Valid() && Inv(pol, Abstract())
    }

    constructor (pol: Policy)
      requires pol.Valid()
      ensures Valid() && this.pol == pol
      ensures Abstract() == Assembly(Empty(), Empty(), 0, -1)
    {
      this.pol := pol;
      groups, terminal, reserved, lastNow := Empty(), Empty(), 0, -1;
    }

    method Remember(key: Key, code: Code, now: nat)
      modifies this
      ensures Abstract() == Remembered(pol, old(Abstract()), key, code, now)
      ensures Accounted(old(Abstract())) ==> Accounted(Abstract())
    {
      terminal := terminal.PutLast(key, Grave(now + pol.retentionNs, code));
      ghost var full := terminal;
      while |terminal.keys| > pol.cacheMessages
        invariant terminal.Trim(pol.cacheMessages) == full.Trim(pol.cacheMessages)
        invariant Abstract() == old(Abstract()).(terminal := terminal)
        decreases |terminal.keys|
      {
        terminal := OrderedDict(terminal.keys[1..], terminal.vals - {terminal.keys[0]});
      }
    }

    method Drop(key: Key)
      requires Accounted(Abstract()) && key in groups.vals
      modifies this
      ensures old(groups).vals[key].reserved <= old(reserved)
      ensures Abstract() == Dropped(old(Abstract()), key)
      ensures Accounted(Abstract())
    {
      hide Total, ReservedBy;
      DropAccounted(Abstract(), key);
      reserved := reserved - groups.vals[key].reserved;
      groups := groups.Delete(key);
    }

    /** Drops every group whose deadline has come and forgets terminal entries past their retention. */
    method Expire(now: nat) returns (r: Result<seq<Key>>)
      requires Valid()
      modifies this
      ensures Valid()
      ensures now < old(lastNow) ==> r == Err(Schema) && Abstract() == old(Abstract())
      ensures now >= old(lastNow) ==>
        && r == Ok(TimedOut(old(groups).vals, old(groups).keys, now))
        && Abstract() == Swept(pol, old(Abstract()), now)
    {
      if now < lastNow {
        return Err(Schema);
      }
      SweptInv(pol, Abstract(), now);
      lastNow := now;
      var expired := ExpireGroups(now);
      ExpireTerminal(now);
      return Ok(expired);
    }

    method ExpireGroups(now: nat) returns (expired: seq<Key>)
      requires Accounted(Abstract())
      modifies this
      ensures Abstract() == GroupsExpired(pol, old(Abstract()), old(groups).keys, now)
      ensures expired == TimedOut(old(groups).vals, old(groups).keys, now)
    {
      hide Accounted, GroupsExpired, TimedOut;
      var keys := groups.keys;
      ghost var start := Abstract();
      KeysDistinct(start);
      assert keys[0..] == keys;
      expired := [];
      for i := 0 to |keys|
        invariant Accounted(Abstract())
        invariant GroupsExpired(pol, Abstract(), keys[i..], now) == GroupsExpired(pol, start, keys, now)
        invariant forall j :: i <= j < |keys| ==>
          keys[j] in groups.vals && groups.vals[keys[j]] == start.groups.vals[keys[j]]
        invariant expired + TimedOut(start.groups.vals, keys[i..], now) == TimedOut(start.groups.vals, keys, now)
      {
        var key := keys[i];
        TimeoutStep(pol, Abstract(), keys, i, now);
        TimedOutStep(start.groups.vals, keys, i, now);
        var deadline := groups.vals[key].deadline;
        if now >= deadline {
          Drop(key);
          Remember(key, Timeout, deadline);
          expired := expired + [key];
        }
      }
      assert keys[|keys|..] == [];
      NothingLeft(pol, Abstract(), start.groups.vals, 0, now);
    }

    method ExpireTerminal(now: nat)
      modifies this
      ensures Abstract() == old(Abstract()).(terminal := GravesExpired(old(terminal), old(terminal).keys, now))
    {
      var keys := terminal.keys;
      ghost var start := terminal;
      for i := 0 to |keys|
        invariant Abstract() == old(Abstract()).(terminal := terminal)
        invariant GravesExpired(terminal, keys[i..], now) == GravesExpired(start, keys, now)
      {
        assert keys[i..][0] == keys[i] && keys[i..][1..] == keys[i + 1..];
        if keys[i] in terminal.vals && now >= terminal.vals[keys[i]].deadline {
          terminal := terminal.Delete(keys[i]);
        }
      }
    }

    /** Accepts one fragment and returns the rejoined bytes when it completes its group. */
    method Push(p: Piece, channel: string, direction: Direction, authorized: bool, now: nat, grant: Option<nat>)
        returns (r: Outcome)
      requires Valid()
      modifies this
      ensures Valid()
      ensures var admitted := Admitted(pol, p, channel, direction, authorized, grant);
        && (admitted.Err? ==> r == Rejected(admitted.code) && Abstract() == old(Abstract()))
        && (admitted.Ok? ==>
              && PieceOk(p, admitted.value.1)
              && (Abstract(), r) == PushAt(pol, old(Abstract()), p, admitted.value.0, admitted.value.1, now))
    {
      hide Inv, Routed, Swept;
      var admitted := Admitted(pol, p, channel, direction, authorized, grant);
      if admitted.Err? {
        return Rejected(admitted.code);
      }
      AdmittedPiece(pol, p, channel, direction, authorized, grant);
      var (key, reservation) := admitted.value;
      hide Admitted;
      if now >= lastNow {
        SweptInv(pol, Abstract(), now);
      }
      PushInv(pol, Abstract(), p, key, reservation, now);
      var swept := Expire(now);
      if swept.Err? {
        return Rejected(Schema);
      }
      r := Route(p, key, reservation, now);
    }

    method Route(p: Piece, key: Key, reservation: nat, now: nat) returns (r: Outcome)
      requires Valid() && PieceOk(p, reservation)
      modifies this
      ensures (Abstract(), r) == Routed(pol, old(Abstract()), p, key, reservation, now)
    {
      Ready(pol, Abstract(), p, key, reservation, now);
      hide Inv, Accounted, Stored, QuotaOk, Opened, Total;
      if key in terminal.vals {
        return Rejected(terminal.vals[key].code);
      }
      if key !in groups.vals {
        if !QuotaOk(pol, Abstract(), key, reservation) {
          return Rejected(BufferFull);
        }
        Open(p, key, reservation, now);
      }
      r := Store(p, key, reservation, now);
    }

    method Open(p: Piece, key: Key, reservation: nat, now: nat)
      requires Accounted(Abstract()) && key !in groups.vals
      modifies this
      ensures Abstract() == Opened(pol, old(Abstract()), p, key, reservation, now)
    {
      groups := groups.Put(key, Group(p, now + pol.Timeout(p), reservation, map[]));
      reserved := reserved + reservation;
    }

    method Store(p: Piece, key: Key, reservation: nat, now: nat) returns (r: Outcome)
      requires Accounted(Abstract()) && key in groups.vals && p.Index() < p.Count()
      requires forall i :: i in groups.vals[key].pieces ==> i < groups.vals[key].first.Count()
      modifies this
      ensures old(groups).vals[key].reserved <= old(reserved)
      ensures (Abstract(), r) == Stored(pol, old(Abstract()), p, key, reservation, now)
    {
      DropAccounted(Abstract(), key);
      hide Inv, Remembered, Dropped, Policy.Verdict, Accounted, Refused, Finished;
      var group := groups.vals[key];
      if !group.first.SameHeader(p) || group.first.Count() != p.Count() || group.reserved != reservation {
        Refuse(key, now);
        return Rejected(Fragmentation);
      }
      if p.Index() in group.pieces {
        if group.pieces[p.Index()] != p.Bytes() {
          Refuse(key, now);
          return Rejected(Fragmentation);
        }
        return Pending;
      }
      var pieces := group.pieces[p.Index() := p.Bytes()];
      if |pieces| != p.Count() {
        groups := groups.Put(key, group.(pieces := pieces));
        return Pending;
      }
      FullMap(pieces, p.Count());
      var data := Assembled(pieces, p.Count());
      r := Finish(p, key, data, now);
    }

    /** A conflicting fragment invalidates its whole group. */
    method Refuse(key: Key, now: nat)
      requires Accounted(Abstract()) && key in groups.vals
      modifies this
      ensures old(groups).vals[key].reserved <= old(reserved)
      ensures Abstract() == Refused(pol, old(Abstract()), key, now)
    {
      Drop(key);
      Remember(key, Fragmentation, now);
    }

    method Finish(p: Piece, key: Key, data: seq<byte>, now: nat) returns (r: Outcome)
      requires Accounted(Abstract()) && key in groups.vals
      modifies this
      ensures old(groups).vals[key].reserved <= old(reserved)
      ensures (Abstract(), r) == Finished(pol, old(Abstract()), p, key, data, now)
    {
      hide Policy.Verdict, Remembered, Accounted;
      Drop(key);
      var verdict := pol.Verdict(p, data);
      if verdict.Err? {
        Remember(key, verdict.code, now);
        return Rejected(verdict.code);
      }
      if pol.retainCompleted {
        Remember(key, Duplicate, now);
      }
      return Delivered(data);
    }

    method DiscardSession(session: nat)
      requires Valid()
      modifies this
      ensures Valid()
      ensures Abstract() == Discarded(old(Abstract()), session)
      ensures Remaining(old(Abstract()), Abstract(), {session}) && lastNow == old(lastNow)
    {
      DiscardedEffect(pol, Abstract(), session);
      DiscardGroups(session);
      var keys := terminal.keys;
      ghost var start := terminal;
      ghost var swept := Abstract();
      for i := 0 to |keys|
        invariant Abstract() == swept.(terminal := terminal)
        invariant GravesDiscarded(terminal, keys[i..], session) == GravesDiscarded(start, keys, session)
      {
        assert keys[i..][0] == keys[i] && keys[i..][1..] == keys[i + 1..];
        if keys[i].session == session {
          terminal := terminal.Delete(keys[i]);
        }
      }
    }

    method DiscardGroups(session: nat)
      requires Accounted(Abstract())
      modifies this
      ensures Abstract() == GroupsDiscarded(old(Abstract()), old(groups).keys, session)
    {
      hide Accounted, GroupsDiscarded;
      var keys := groups.keys;
      assert keys[0..] == keys;
      ghost var start := Abstract();
      for i := 0 to |keys|
        invariant Accounted(Abstract())
        invariant GroupsDiscarded(Abstract(), keys[i..], session) == GroupsDiscarded(start, keys, session)
      {
        DiscardStep(Abstract(), keys, i, session);
        if keys[i] in groups.vals && keys[i].session == session {
          Drop(keys[i]);
        }
      }
      assert keys[|keys|..] == [];
      NothingLeft(pol, Abstract(), map[], session, 0);
    }

    /** Discards every session that is neither active nor the session-less zero. */
    method DiscardInactive(active: set<nat>) returns (r: Result<set<nat>>)
      requires Valid()
      modifies this
      ensures Valid() && lastNow == old(lastNow)
      ensures r.Err? <==> exists sid :: sid in active && !(1 <= sid <= U32_MAX)
      ensures r.Err? ==> r == Err(Schema) && Abstract() == old(Abstract())
      ensures r.Ok? ==>
        && Remaining(old(Abstract()), Abstract(), r.value)
        && forall k :: k in old(groups).vals || k in old(terminal).vals ==> (k.session in r.value <==> !Live(k, active))
    {
      KeysCover(pol, Abstract());
      hide *;
      if exists sid :: sid in active && !(1 <= sid <= U32_MAX) {
        return Err(Schema);
      }
      var stale: set<nat> := {};
      var keys := groups.keys + terminal.keys;
      ghost var before := Abstract();
      RemainingNone(before);
      JudgedNone(active);
      for i := 0 to |keys|
        invariant Valid() && lastNow == old(lastNow)
        invariant Remaining(before, Abstract(), stale)
        invariant Judged(keys[..i], stale, active)
      {
        var session := keys[i].session;
        ghost var known := stale;
        if session != 0 && session !in active && session !in stale {
          ghost var mid := Abstract();
          DiscardSession(session);
          RemainingMore(before, mid, Abstract(), stale, session);
          stale := stale + {session};
        }
        JudgedMore(keys, i, known, stale, active);
      }
      assert keys[..|keys|] == keys;
      StaleAll(before, keys, stale, active);
      return Ok(stale);
    }

    method Clear()
      requires Valid()
      modifies this
      ensures Valid()
      ensures Abstract() == Assembly(Empty(), Empty(), 0, old(lastNow))
    {
      groups, terminal, reserved := Empty(), Empty(), 0;
    }
  }
}
