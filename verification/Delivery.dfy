/** What whole runs of the reassembler promise about one transfer among arbitrary other traffic. */
module Delivery {
  import opened Common
  import opened Ordered
  import opened Reassembly

  /** One call on the reassembler: an admitted fragment, a maintenance sweep, or a session discard. */
  datatype Event =
    | Arrive(piece: Piece, key: Key, reservation: nat, now: nat)
    | Sweep(now: nat)
    | Discard(session: nat)
  {
    predicate Ok()
    {
      Arrive? ==> KeyOf(key, piece) && PieceOk(piece, reservation)
    }

    predicate Own(k: Key) { Arrive? && key == k }
  }

  ghost function Step(pol: Policy, s: Assembly, e: Event): (r: (Assembly, Outcome))
    requires Inv(pol, s) && pol.Valid() && e.Ok()
    ensures Inv(pol, r.0)
  {
    match e
    case Arrive(p, key, reservation, now) =>
      PushInv(pol, s, p, key, reservation, now);
      PushAt(pol, s, p, key, reservation, now)
    case Sweep(now) =>
      if now < s.lastNow then (s, Rejected(Schema))
      else
        SweptInv(pol, s, now);
        (Swept(pol, s, now), Pending)
    case Discard(session) =>
      DiscardedEffect(pol, s, session);
      (Discarded(s, session), Pending)
  }

  /** The state after a run of events. */
  ghost function After(pol: Policy, s: Assembly, events: seq<Event>): (r: Assembly)
    requires Inv(pol, s) && pol.Valid() && forall e :: e in events ==> e.Ok()
    ensures Inv(pol, r)
    decreases |events|
  {
    if events == [] then s
    else
      assert events[0] in events;
      After(pol, Step(pol, s, events[0]).0, events[1..])
  }

  /** The outcome of event j of a run. */
  ghost function OutcomeAt(pol: Policy, s: Assembly, events: seq<Event>, j: nat): Outcome
    requires Inv(pol, s) && pol.Valid() && (forall e :: e in events ==> e.Ok()) && j < |events|
  {
    Step(pol, After(pol, s, events[..j]), events[j]).1
  }

  /** Clock readings never run backwards and all stay below the deadline. */
  predicate Timely(last: int, events: seq<Event>, deadline: nat)
    decreases |events|
  {
    events == [] ||
    match events[0]
    case Arrive(_, _, _, now) => last <= now < deadline && Timely(now, events[1..], deadline)
    case Sweep(now) => last <= now < deadline && Timely(now, events[1..], deadline)
    case Discard(_) => Timely(last, events[1..], deadline)
  }

  /** The pieces of one transfer, in index order. */
  ghost predicate Transfer(key: Key, msg: seq<Piece>, reservation: nat)
  {
    && |msg| > 0
    && forall i :: 0 <= i < |msg| ==>
      && msg[i].Index() == i && msg[i].Count() == |msg|
      && KeyOf(key, msg[i]) && PieceOk(msg[i], reservation)
      && forall k :: 0 <= k < |msg| ==> msg[i].SameHeader(msg[k])
  }

  function Contents(msg: seq<Piece>): (r: seq<seq<byte>>)
    ensures |r| == |msg|
  {
    seq(|msg|, i requires 0 <= i < |msg| => msg[i].Bytes())
  }

  /** Every arrival under the key is one of the transfer's pieces; its session is not discarded meanwhile. */
  ghost predicate Traffic(events: seq<Event>, key: Key, msg: seq<Piece>, reservation: nat)
  {
    forall e :: e in events ==>
      && e.Ok()
      && (e.Own(key) ==> e.piece in msg && e.reservation == reservation)
      && (e.Discard? ==> e.session != key.session)
  }

  /** The indices of the transfer that have arrived. */
  function Seen(events: seq<Event>, key: Key): (r: set<nat>)
  {
    if events == [] then {}
    else Seen(events[1..], key) + (if events[0].Own(key) then {events[0].piece.Index()} else {})
  }

  /** The group is open, unexpired and holds exactly the pieces seen so far. */
  ghost predicate Receiving(s: Assembly, key: Key, msg: seq<Piece>, reservation: nat, seen: set<nat>, deadline: nat)
  {
    && key in s.groups.vals && key !in s.terminal.vals
    && var g := s.groups.vals[key];
    && g.first in msg && g.reserved == reservation && g.deadline == deadline
    && g.pieces.Keys == seen
    && forall i :: i in seen ==> i < |msg| && g.pieces[i] == msg[i].Bytes()
  }

  // ---------------------------------------------------------------- frames

  lemma StoredFrame(pol: Policy, s: Assembly, p: Piece, key: Key, reservation: nat, now: nat, k: Key)
    requires s.groups.Valid() && s.terminal.Valid() && k != key
    requires key in s.groups.vals && s.groups.vals[key].reserved <= s.reserved
    requires forall i :: i in s.groups.vals[key].pieces ==> i < s.groups.vals[key].first.Count()
    requires p.Index() < p.Count()
    ensures var r := Stored(pol, s, p, key, reservation, now).0;
      && (k in r.groups.vals <==> k in s.groups.vals)
      && (k in s.groups.vals ==> r.groups.vals[k] == s.groups.vals[k])
      && (k in r.terminal.vals ==> k in s.terminal.vals)
      && r.lastNow == s.lastNow
  {
    hide Policy.Verdict, Piece.SameHeader, Assembled;
  }

  lemma RoutedFrame(pol: Policy, s: Assembly, p: Piece, key: Key, reservation: nat, now: nat, k: Key)
    requires Inv(pol, s) && PieceOk(p, reservation) && k != key
    ensures var r := Routed(pol, s, p, key, reservation, now).0;
      && (k in r.groups.vals <==> k in s.groups.vals)
      && (k in s.groups.vals ==> r.groups.vals[k] == s.groups.vals[k])
      && (k in r.terminal.vals ==> k in s.terminal.vals)
      && r.lastNow == s.lastNow
  {
    hide Stored, Total, QuotaOk;
    if key in s.terminal.vals {
    } else if key in s.groups.vals {
      TotalMember(s.groups.keys, key, ReservedBy(s.groups));
      StoredFrame(pol, s, p, key, reservation, now, k);
    } else if QuotaOk(pol, s, key, reservation) {
      StoredFrame(pol, Opened(pol, s, p, key, reservation, now), p, key, reservation, now, k);
    }
  }

  lemma SweptReceiving(pol: Policy, s: Assembly, key: Key, msg: seq<Piece>, reservation: nat,
                       seen: set<nat>, deadline: nat, now: nat)
    requires Inv(pol, s) && s.lastNow <= now < deadline
    requires Receiving(s, key, msg, reservation, seen, deadline)
    ensures Accounted(s) && Inv(pol, Swept(pol, s, now))
    ensures Receiving(Swept(pol, s, now), key, msg, reservation, seen, deadline)
  {
    SweptEffect(pol, s, now);
    SweptInv(pol, s, now);
    hide Inv, Swept, Total, ReservedBy;
  }

  lemma RoutedReceiving(pol: Policy, s: Assembly, p: Piece, other: Key, r: nat, now: nat,
                        key: Key, msg: seq<Piece>, reservation: nat, seen: set<nat>, deadline: nat)
    requires Inv(pol, s) && PieceOk(p, r) && other != key
    requires Receiving(s, key, msg, reservation, seen, deadline)
    ensures Receiving(Routed(pol, s, p, other, r, now).0, key, msg, reservation, seen, deadline)
    ensures Routed(pol, s, p, other, r, now).0.lastNow == s.lastNow
  {
    RoutedFrame(pol, s, p, other, r, now, key);
    hide Inv, Routed;
  }

  /** Time and other transfers leave an unexpired group alone. */
  lemma OtherStep(pol: Policy, s: Assembly, e: Event, key: Key, msg: seq<Piece>, reservation: nat,
                  seen: set<nat>, deadline: nat)
    requires Inv(pol, s) && pol.Valid() && e.Ok() && !e.Own(key)
    requires Receiving(s, key, msg, reservation, seen, deadline)
    requires e.Discard? ==> e.session != key.session
    requires !e.Discard? ==> s.lastNow <= e.now < deadline
    ensures Receiving(Step(pol, s, e).0, key, msg, reservation, seen, deadline)
    ensures Step(pol, s, e).0.lastNow == if e.Discard? then s.lastNow else e.now
  {
    hide *;
    OwnKey(e, key);
    match e
    case Arrive(p, other, r, now) =>
      StepArrive(pol, s, e);
      SweptClock(pol, s, now);
      SweptReceiving(pol, s, key, msg, reservation, seen, deadline, now);
      RoutedReceiving(pol, Swept(pol, s, now), p, other, r, now, key, msg, reservation, seen, deadline);
    case Sweep(now) =>
      StepSweep(pol, s, now);
      SweptClock(pol, s, now);
      SweptReceiving(pol, s, key, msg, reservation, seen, deadline, now);
    case Discard(session) =>
      StepDiscard(pol, s, session);
      DiscardedReceiving(pol, s, session, key, msg, reservation, seen, deadline);
  }

  lemma DiscardedReceiving(pol: Policy, s: Assembly, session: nat, key: Key, msg: seq<Piece>, reservation: nat,
                           seen: set<nat>, deadline: nat)
    requires Inv(pol, s) && Receiving(s, key, msg, reservation, seen, deadline) && key.session != session
    ensures Accounted(s) && Receiving(Discarded(s, session), key, msg, reservation, seen, deadline)
    ensures Discarded(s, session).lastNow == s.lastNow
  {
    SweptClock(pol, s, 0);
    DiscardedEffect(pol, s, session);
    hide Inv, Discarded, Accounted;
  }

  // ---------------------------------------------------------------- the transfer's own fragments

  lemma {:induction false} AssembledContents(pieces: map<nat, seq<byte>>, msg: seq<Piece>, n: nat)
    requires n <= |msg| && forall i :: 0 <= i < n ==> i in pieces && pieces[i] == msg[i].Bytes()
    ensures Assembled(pieces, n) == Join(Contents(msg)[..n])
  {
    if n > 0 {
      AssembledContents(pieces, msg, n - 1);
      var parts := Contents(msg);
      assert parts[..n] == parts[..n - 1] + [msg[n - 1].Bytes()];
      JoinAppend(parts[..n - 1], [msg[n - 1].Bytes()]);
      assert Join([msg[n - 1].Bytes()]) == msg[n - 1].Bytes() + Join([msg[n - 1].Bytes()][1..]);
    }
  }

  lemma AssembledAll(pieces: map<nat, seq<byte>>, msg: seq<Piece>)
    requires forall i :: 0 <= i < |msg| ==> i in pieces && pieces[i] == msg[i].Bytes()
    ensures Assembled(pieces, |msg|) == Join(Contents(msg))
  {
    AssembledContents(pieces, msg, |msg|);
    assert Contents(msg)[..|msg|] == Contents(msg);
  }

  /** The key's terminal entry is the latest one. */
  predicate Newest(t: OrderedDict<Key, Grave>, key: Key, grave: Grave)
  {
    key in t.vals && t.vals[key] == grave && 0 < |t.keys| && t.keys[|t.keys| - 1] == key
  }

  lemma NewestPut(t: OrderedDict<Key, Grave>, key: Key, grave: Grave, n: nat)
    requires t.Valid() && 0 < n
    ensures Newest(t.PutLast(key, grave).Trim(n), key, grave)
  {
    hide OrderedDict.PutLast, OrderedDict.Trim;
    TrimPutLast(t, key, grave, n);
  }

  /** What one of the transfer's fragments does, given the indices seen before it. */
  ghost predicate Progress(pol: Policy, r: (Assembly, Outcome), key: Key, msg: seq<Piece>, reservation: nat,
                           seen: set<nat>, index: nat, deadline: nat, now: nat)
  {
    if seen + {index} == Below(|msg|) then
      && r.1 == Delivered(Join(Contents(msg)))
      && key !in r.0.groups.vals
      && (pol.retainCompleted && pol.cacheMessages > 0 ==>
            Newest(r.0.terminal, key, Grave(now + pol.retentionNs, Duplicate)))
    else
      r.1 == Pending && Receiving(r.0, key, msg, reservation, seen + {index}, deadline)
  }

  lemma RememberedLast(pol: Policy, s: Assembly, key: Key, code: Code, now: nat)
    requires s.terminal.Valid()
    ensures var r := Remembered(pol, s, key, code, now);
      && r.groups == s.groups && r.lastNow == s.lastNow
      && (pol.cacheMessages > 0 ==> Newest(r.terminal, key, Grave(now + pol.retentionNs, code)))
  {
    hide *;
    if pol.cacheMessages > 0 {
      NewestPut(s.terminal, key, Grave(now + pol.retentionNs, code), pol.cacheMessages);
    }
    RememberedParts(pol, s, key, code, now);
  }

  lemma RememberedParts(pol: Policy, s: Assembly, key: Key, code: Code, now: nat)
    ensures var r := Remembered(pol, s, key, code, now);
      && r.groups == s.groups && r.lastNow == s.lastNow && r.reserved == s.reserved
      && r.terminal == s.terminal.PutLast(key, Grave(now + pol.retentionNs, code)).Trim(pol.cacheMessages)
  {
    hide OrderedDict.PutLast, OrderedDict.Trim;
  }

  lemma PieceFacts(key: Key, msg: seq<Piece>, reservation: nat, p: Piece, q: Piece)
    requires Transfer(key, msg, reservation) && p in msg && q in msg
    ensures p.Index() < |msg| && msg[p.Index()] == p
    ensures q.SameHeader(p) && q.Count() == p.Count() == |msg|
    ensures KeyOf(key, p) && PieceOk(p, reservation)
  {
    var i :| 0 <= i < |msg| && msg[i] == p;
    var j :| 0 <= j < |msg| && msg[j] == q;
    assert msg[j].SameHeader(msg[i]);
  }

  lemma GroupFacts(pol: Policy, s: Assembly, key: Key)
    requires Inv(pol, s) && key in s.groups.vals
    ensures s.groups.vals[key].reserved <= s.reserved && s.terminal.Valid() && s.groups.Valid()
    ensures forall i :: i in s.groups.vals[key].pieces ==> i < s.groups.vals[key].first.Count()
  {
    DropAccounted(s, key);
  }

  /** The group's last missing piece. */
  lemma FinishedOwn(pol: Policy, s: Assembly, p: Piece, key: Key, data: seq<byte>, now: nat)
    requires s.groups.Valid() && s.terminal.Valid()
    requires key in s.groups.vals && s.groups.vals[key].reserved <= s.reserved
    requires pol.Verdict(p, data).Ok?
    ensures var r := Finished(pol, s, p, key, data, now);
      && r.1 == Delivered(data)
      && key !in r.0.groups.vals
      && (pol.retainCompleted && pol.cacheMessages > 0 ==>
            Newest(r.0.terminal, key, Grave(now + pol.retentionNs, Duplicate)))
  {
    hide Policy.Verdict, Remembered;
    RememberedLast(pol, Dropped(s, key), key, Duplicate, now);
  }

  /** Storing a piece that fits its group, in its three cases. */
  lemma StoredCases(pol: Policy, s: Assembly, p: Piece, key: Key, reservation: nat, now: nat)
    requires key in s.groups.vals && s.groups.vals[key].reserved <= s.reserved && p.Index() < p.Count()
    requires forall i :: i in s.groups.vals[key].pieces ==> i < s.groups.vals[key].first.Count()
    requires var g := s.groups.vals[key];
      g.first.SameHeader(p) && g.first.Count() == p.Count() && g.reserved == reservation
    ensures var g := s.groups.vals[key];
      var pieces := g.pieces[p.Index() := p.Bytes()];
      var r := Stored(pol, s, p, key, reservation, now);
      && (p.Index() in g.pieces && g.pieces[p.Index()] == p.Bytes() ==> r == (s, Pending))
      && (p.Index() !in g.pieces && |pieces| != p.Count() ==>
            r == (s.(groups := s.groups.Put(key, g.(pieces := pieces))), Pending))
      && (p.Index() !in g.pieces && |pieces| == p.Count() ==>
            && (forall i :: 0 <= i < p.Count() ==> i in pieces)
            && r == Finished(pol, s, p, key, Assembled(pieces, p.Count()), now))
  {
    hide Finished, Refused, Assembled, Piece.Index, Piece.Count, Piece.Bytes, Piece.SameHeader;
    FullMap(s.groups.vals[key].pieces[p.Index() := p.Bytes()], p.Count());
  }

  lemma StoredOwn(pol: Policy, s: Assembly, p: Piece, key: Key, msg: seq<Piece>, reservation: nat,
                  seen: set<nat>, deadline: nat, now: nat)
    requires Inv(pol, s) && Transfer(key, msg, reservation) && p in msg
    requires Receiving(s, key, msg, reservation, seen, deadline) && seen < Below(|msg|)
    requires pol.Verdict(p, Join(Contents(msg))).Ok?
    ensures s.groups.vals[key].reserved <= s.reserved && p.Index() < p.Count()
    ensures forall i :: i in s.groups.vals[key].pieces ==> i < s.groups.vals[key].first.Count()
    ensures Progress(pol, Stored(pol, s, p, key, reservation, now), key, msg, reservation, seen, p.Index(), deadline, now)
  {
    hide *;
    PieceFacts(key, msg, reservation, p, p);
    var i := p.Index();
    HeldPieces(s, key, msg, reservation, seen, deadline, i);
    var g := s.groups.vals[key];
    GroupFacts(pol, s, key);
    PieceFacts(key, msg, reservation, p, g.first);
    StoredCases(pol, s, p, key, reservation, now);
    var r := Stored(pol, s, p, key, reservation, now);
    var pieces := g.pieces[i := p.Bytes()];
    if i in g.pieces {
      ProgressMore(pol, r, key, msg, reservation, seen, i, deadline, now);
    } else if |pieces| == |msg| {
      AssembledAll(pieces, msg);
      FinishedOwn(pol, s, p, key, Join(Contents(msg)), now);
      ProgressDone(pol, r, key, msg, reservation, seen, i, deadline, now);
    } else {
      MoreReceived(s, key, msg, reservation, seen, deadline, i);
      ProgressMore(pol, r, key, msg, reservation, seen, i, deadline, now);
    }
  }

  lemma HeldPieces(s: Assembly, key: Key, msg: seq<Piece>, reservation: nat, seen: set<nat>, deadline: nat, index: nat)
    requires Receiving(s, key, msg, reservation, seen, deadline) && seen < Below(|msg|) && index < |msg|
    ensures key in s.groups.vals
    ensures var g := s.groups.vals[key];
      var pieces := g.pieces[index := msg[index].Bytes()];
      && g.first in msg && g.reserved == reservation
      && (index in g.pieces ==> g.pieces[index] == msg[index].Bytes() && seen + {index} == seen != Below(|msg|))
      && (index !in g.pieces ==> (|pieces| == |msg| <==> seen + {index} == Below(|msg|)))
      && (|pieces| == |msg| ==> forall i :: 0 <= i < |msg| ==> i in pieces && pieces[i] == msg[i].Bytes())
  {
    var g := s.groups.vals[key];
    var pieces := g.pieces[index := msg[index].Bytes()];
    hide Piece.Bytes;
    assert pieces.Keys == seen + {index};
    SeenAll(pieces, seen, index, |msg|);
  }

  lemma ProgressMore(pol: Policy, r: (Assembly, Outcome), key: Key, msg: seq<Piece>, reservation: nat,
                     seen: set<nat>, index: nat, deadline: nat, now: nat)
    requires seen + {index} != Below(|msg|)
    requires r.1 == Pending && Receiving(r.0, key, msg, reservation, seen + {index}, deadline)
    ensures Progress(pol, r, key, msg, reservation, seen, index, deadline, now)
  {
  }

  lemma ProgressDone(pol: Policy, r: (Assembly, Outcome), key: Key, msg: seq<Piece>, reservation: nat,
                     seen: set<nat>, index: nat, deadline: nat, now: nat)
    requires seen + {index} == Below(|msg|)
    requires r.1 == Delivered(Join(Contents(msg))) && key !in r.0.groups.vals
    requires pol.retainCompleted && pol.cacheMessages > 0 ==> Newest(r.0.terminal, key, Grave(now + pol.retentionNs, Duplicate))
    ensures Progress(pol, r, key, msg, reservation, seen, index, deadline, now)
  {
    hide Newest, Receiving, Join, Contents, Below, Transfer, Policy.Valid, Policy.Timeout, Policy.Verdict;
    assert seen + {index} == Below(|msg|);
  }

  lemma SeenAll(pieces: map<nat, seq<byte>>, seen: set<nat>, index: nat, n: nat)
    requires pieces.Keys == seen + {index} && forall i :: i in pieces ==> i < n
    ensures |pieces| == n <==> seen + {index} == Below(n)
    ensures |pieces| == n ==> forall i: nat :: i < n ==> i in pieces
  {
    FullMap(pieces, n);
  }

  lemma MoreReceived(s: Assembly, key: Key, msg: seq<Piece>, reservation: nat, seen: set<nat>, deadline: nat, index: nat)
    requires Receiving(s, key, msg, reservation, seen, deadline) && index < |msg|
    ensures var g := s.groups.vals[key];
      var g' := g.(pieces := g.pieces[index := msg[index].Bytes()]);
      Receiving(s.(groups := s.groups.Put(key, g')), key, msg, reservation, seen + {index}, deadline)
  {
  }

  /** One of the transfer's fragments arrives while its group is open. */
  lemma OwnStep(pol: Policy, s: Assembly, e: Event, key: Key, msg: seq<Piece>, reservation: nat,
                seen: set<nat>, deadline: nat)
    requires Inv(pol, s) && pol.Valid() && e.Ok() && e.Own(key)
    requires Transfer(key, msg, reservation) && e.piece in msg && e.reservation == reservation
    requires Receiving(s, key, msg, reservation, seen, deadline) && seen < Below(|msg|)
    requires pol.Verdict(e.piece, Join(Contents(msg))).Ok?
    requires s.lastNow <= e.now < deadline
    ensures Progress(pol, Step(pol, s, e), key, msg, reservation, seen, e.piece.Index(), deadline, e.now)
    ensures Step(pol, s, e).0.lastNow == e.now
  {
    var live := Swept(pol, s, e.now);
    hide Inv, Swept, Progress, Stored, Transfer, Piece.Index, Policy.Verdict, Total, ReservedBy, Below, Contents, KeyOf, PieceOk;
    SweptReceiving(pol, s, key, msg, reservation, seen, deadline, e.now);
    StoredOwn(pol, live, e.piece, key, msg, reservation, seen, deadline, e.now);
    StoredClock(pol, live, e.piece, key, reservation, e.now);
  }

  lemma StoredClock(pol: Policy, s: Assembly, p: Piece, key: Key, reservation: nat, now: nat)
    requires key in s.groups.vals && s.groups.vals[key].reserved <= s.reserved && p.Index() < p.Count()
    requires forall i :: i in s.groups.vals[key].pieces ==> i < s.groups.vals[key].first.Count()
    ensures Stored(pol, s, p, key, reservation, now).0.lastNow == s.lastNow
  {
    hide Piece.Index, Piece.Count, Piece.Bytes, Piece.SameHeader, Policy.Verdict, Assembled;
  }

  /** A transfer's first fragment, admitted within the quotas, opens its group. */
  lemma FirstStep(pol: Policy, s: Assembly, e: Event, key: Key, msg: seq<Piece>, reservation: nat)
    requires Inv(pol, s) && pol.Valid() && e.Ok() && e.Own(key)
    requires Transfer(key, msg, reservation) && e.piece in msg && e.reservation == reservation
    requires s.lastNow <= e.now
    requires var live := Swept(pol, s, e.now);
      key !in live.groups.vals && key !in live.terminal.vals && QuotaOk(pol, live, key, reservation)
    requires pol.Verdict(e.piece, Join(Contents(msg))).Ok?
    ensures Progress(pol, Step(pol, s, e), key, msg, reservation, {}, e.piece.Index(), e.now + pol.Timeout(e.piece), e.now)
    ensures Step(pol, s, e).0.lastNow == e.now
  {
    hide *;
    OwnFacts(e, key);
    StepArrive(pol, s, e);
    var live := Swept(pol, s, e.now);
    var deadline := e.now + pol.Timeout(e.piece);
    SweptClock(pol, s, e.now);
    OpenedInv(pol, live, e.piece, key, reservation, e.now);
    var start := Opened(pol, live, e.piece, key, reservation, e.now);
    OpenedReceiving(pol, live, e.piece, key, msg, reservation, e.now);
    TransferLength(key, msg, reservation);
    StoredOwn(pol, start, e.piece, key, msg, reservation, {}, deadline, e.now);
    RoutedNew(pol, live, e.piece, key, reservation, e.now);
    StoredClock(pol, start, e.piece, key, reservation, e.now);
  }

  lemma OwnFacts(e: Event, key: Key)
    requires e.Own(key)
    ensures e.Arrive? && e.key == key
  {
  }

  lemma SweptClock(pol: Policy, s: Assembly, now: nat)
    requires Inv(pol, s)
    ensures Accounted(s) && Swept(pol, s, now).lastNow == now
  {
  }

  lemma StepArrive(pol: Policy, s: Assembly, e: Event)
    requires Inv(pol, s) && pol.Valid() && e.Ok() && e.Arrive? && s.lastNow <= e.now
    ensures Accounted(s) && Inv(pol, Swept(pol, s, e.now)) && KeyOf(e.key, e.piece) && PieceOk(e.piece, e.reservation)
    ensures Step(pol, s, e) == Routed(pol, Swept(pol, s, e.now), e.piece, e.key, e.reservation, e.now)
  {
    SweptInv(pol, s, e.now);
    hide Inv, Swept, Routed, KeyOf, PieceOk;
  }

  lemma OpenedReceiving(pol: Policy, s: Assembly, p: Piece, key: Key, msg: seq<Piece>, reservation: nat, now: nat)
    requires key !in s.groups.vals && key !in s.terminal.vals && p in msg
    ensures var r := Opened(pol, s, p, key, reservation, now);
      && r.lastNow == s.lastNow
      && Receiving(r, key, msg, reservation, {}, now + pol.Timeout(p))
  {
  }

  lemma RoutedNew(pol: Policy, s: Assembly, p: Piece, key: Key, reservation: nat, now: nat)
    requires Inv(pol, s) && PieceOk(p, reservation)
    requires key !in s.groups.vals && key !in s.terminal.vals && QuotaOk(pol, s, key, reservation)
    ensures var start := Opened(pol, s, p, key, reservation, now);
      && key in start.groups.vals && start.groups.vals[key].reserved <= start.reserved
      && start.groups.vals[key].pieces == map[]
      && p.Index() < p.Count()
      && Routed(pol, s, p, key, reservation, now) == Stored(pol, start, p, key, reservation, now)
  {
    hide Inv, Stored, Piece.Index, Piece.Count, QuotaOk;
    IndexBelowCount(p, reservation);
  }

  lemma IndexBelowCount(p: Piece, reservation: nat)
    requires PieceOk(p, reservation)
    ensures p.Index() < p.Count()
  {
  }

  lemma TransferLength(key: Key, msg: seq<Piece>, reservation: nat)
    requires Transfer(key, msg, reservation)
    ensures |msg| > 0 && {} < Below(|msg|)
  {
    assert 0 in Below(|msg|);
  }

  // ---------------------------------------------------------------- whole runs

  lemma SeenPrefix(events: seq<Event>, key: Key, j: nat)
    requires 0 < j <= |events|
    ensures events[..j] == [events[0]] + events[1..][..j - 1]
    ensures Seen(events[..j], key) ==
      Seen(events[1..][..j - 1], key) + (if events[0].Own(key) then {events[0].piece.Index()} else {})
  {
    assert events[..j][1..] == events[1..][..j - 1];
  }

  lemma OutcomeLater(pol: Policy, s: Assembly, events: seq<Event>, j: nat)
    requires Inv(pol, s) && pol.Valid() && (forall e :: e in events ==> e.Ok()) && 0 < j < |events|
    ensures events[0] in events && forall e :: e in events[1..] ==> e.Ok()
    ensures OutcomeAt(pol, s, events, j) == OutcomeAt(pol, Step(pol, s, events[0]).0, events[1..], j - 1)
  {
    assert events[..j][0] == events[0] && events[..j][1..] == events[1..][..j - 1];
    assert events[1..][j - 1] == events[j];
    hide Inv, Step, Event.Ok;
  }

  /** Who may still arrive after the first event. */
  lemma TrafficTail(last: int, events: seq<Event>, key: Key, msg: seq<Piece>, reservation: nat, deadline: nat)
    requires |events| > 0 && Traffic(events, key, msg, reservation) && Timely(last, events, deadline)
    ensures events[0] in events && events[0].Ok()
    ensures events[0].Own(key) ==> events[0].piece in msg && events[0].reservation == reservation
    ensures events[0].Discard? ==> events[0].session != key.session
    ensures !events[0].Discard? ==> last <= events[0].now < deadline
    ensures forall e :: e in events[1..] ==> e in events && e.Ok()
    ensures Traffic(events[1..], key, msg, reservation)
    ensures Timely(if events[0].Discard? then last else events[0].now, events[1..], deadline)
  {
    assert events[0] in events;
  }

  /**
   * Among any interleaved traffic, each fragment of an open transfer is pending until the one that
   * completes the index set, and that one delivers the sender's bytes.
   */
  lemma {:induction false} DeliveredAtLastMissing(
      pol: Policy, s: Assembly, events: seq<Event>, key: Key, msg: seq<Piece>, reservation: nat,
      seen: set<nat>, deadline: nat, j: nat)
    requires Inv(pol, s) && pol.Valid() && Transfer(key, msg, reservation)
    requires Receiving(s, key, msg, reservation, seen, deadline)
    requires Traffic(events, key, msg, reservation) && Timely(s.lastNow, events, deadline)
    requires forall p :: p in msg ==> pol.Verdict(p, Join(Contents(msg))).Ok?
    requires j < |events| && events[j].Own(key)
    requires !(Below(|msg|) <= seen + Seen(events[..j], key))
    ensures OutcomeAt(pol, s, events, j) ==
      if Below(|msg|) <= seen + Seen(events[..j + 1], key) then Delivered(Join(Contents(msg))) else Pending
    decreases |events|
  {
    hide *;
    TrafficTail(s.lastNow, events, key, msg, reservation, deadline);
    ReceivingBelow(s, key, msg, reservation, seen, deadline);
    var e := events[0];
    if j == 0 {
      OwnFacts(e, key);
      PieceFacts(key, msg, reservation, e.piece, e.piece);
      OwnStep(pol, s, e, key, msg, reservation, seen, deadline);
      OutcomeFirst(pol, s, events);
      SeenFirst(events, key);
      ProgressOutcome(pol, Step(pol, s, e), key, msg, reservation, seen, e.piece.Index(), deadline, e.now);
    } else {
      OutcomeLater(pol, s, events, j);
      SeenPrefix(events, key, j);
      SeenPrefix(events, key, j + 1);
      var seen' := seen;
      if e.Own(key) {
        OwnFacts(e, key);
        PieceFacts(key, msg, reservation, e.piece, e.piece);
        OwnStep(pol, s, e, key, msg, reservation, seen, deadline);
        ProgressOutcome(pol, Step(pol, s, e), key, msg, reservation, seen, e.piece.Index(), deadline, e.now);
        seen' := seen + {e.piece.Index()};
      } else {
        OtherStep(pol, s, e, key, msg, reservation, seen, deadline);
      }
      assert seen + Seen(events[..j], key) == seen' + Seen(events[1..][..j - 1], key);
      assert seen + Seen(events[..j + 1], key) == seen' + Seen(events[1..][..j], key);
      assert events[1..][j - 1] == events[j];
      DeliveredAtLastMissing(pol, Step(pol, s, e).0, events[1..], key, msg, reservation, seen', deadline, j - 1);
    }
  }

  lemma ReceivingBelow(s: Assembly, key: Key, msg: seq<Piece>, reservation: nat, seen: set<nat>, deadline: nat)
    requires Receiving(s, key, msg, reservation, seen, deadline)
    ensures seen <= Below(|msg|)
  {
  }

  lemma OutcomeFirst(pol: Policy, s: Assembly, events: seq<Event>)
    requires Inv(pol, s) && pol.Valid() && (forall e :: e in events ==> e.Ok()) && 0 < |events|
    ensures events[0] in events && OutcomeAt(pol, s, events, 0) == Step(pol, s, events[0]).1
  {
    assert events[..0] == [];
    hide Inv, Step, Event.Ok;
  }

  lemma SeenFirst(events: seq<Event>, key: Key)
    requires 0 < |events| && events[0].Own(key)
    ensures Seen(events[..0], key) == {} && Seen(events[..1], key) == {events[0].piece.Index()}
  {
    assert events[..1] == [events[0]];
  }

  lemma ProgressOutcome(pol: Policy, r: (Assembly, Outcome), key: Key, msg: seq<Piece>, reservation: nat,
                        seen: set<nat>, index: nat, deadline: nat, now: nat)
    requires Progress(pol, r, key, msg, reservation, seen, index, deadline, now) && seen <= Below(|msg|) && index < |msg|
    ensures Below(|msg|) <= seen + {index} ==> r.1 == Delivered(Join(Contents(msg)))
    ensures !(Below(|msg|) <= seen + {index}) ==>
      r.1 == Pending && Receiving(r.0, key, msg, reservation, seen + {index}, deadline)
  {
    assert Below(|msg|) <= seen + {index} ==> Below(|msg|) == seen + {index};
  }

  /**
   * From its first admitted fragment on: a transfer among any interleaved traffic is delivered exactly when
   * the last missing index arrives, and every earlier fragment of it, repeated or not, is pending.
   */
  lemma TransferDelivered(pol: Policy, s: Assembly, events: seq<Event>, key: Key, msg: seq<Piece>, reservation: nat,
                          deadline: nat, j: nat)
    requires Inv(pol, s) && pol.Valid() && Transfer(key, msg, reservation)
    requires 0 < |events| && events[0].Own(key) && s.lastNow <= events[0].now
    requires deadline == events[0].now + pol.Timeout(events[0].piece)
    requires var live := Swept(pol, s, events[0].now);
      key !in live.groups.vals && key !in live.terminal.vals && QuotaOk(pol, live, key, reservation)
    requires Traffic(events, key, msg, reservation) && Timely(s.lastNow, events, deadline)
    requires forall p :: p in msg ==> pol.Verdict(p, Join(Contents(msg))).Ok?
    requires j < |events| && events[j].Own(key)
    requires !(Below(|msg|) <= Seen(events[..j], key))
    ensures OutcomeAt(pol, s, events, j) ==
      if Below(|msg|) <= Seen(events[..j + 1], key) then Delivered(Join(Contents(msg))) else Pending
  {
    hide *;
    TrafficTail(s.lastNow, events, key, msg, reservation, deadline);
    var e := events[0];
    OwnFacts(e, key);
    PieceFacts(key, msg, reservation, e.piece, e.piece);
    FirstStep(pol, s, e, key, msg, reservation);
    ProgressOutcome(pol, Step(pol, s, e), key, msg, reservation, {}, e.piece.Index(), deadline, e.now);
    if j == 0 {
      OutcomeFirst(pol, s, events);
      SeenFirst(events, key);
      assert {} + {e.piece.Index()} == {e.piece.Index()};
    } else {
      OutcomeLater(pol, s, events, j);
      SeenPrefix(events, key, j);
      SeenPrefix(events, key, j + 1);
      var seen := {} + {e.piece.Index()};
      assert Seen(events[..j], key) == seen + Seen(events[1..][..j - 1], key);
      assert Seen(events[..j + 1], key) == seen + Seen(events[1..][..j], key);
      assert events[1..][j - 1] == events[j];
      DeliveredAtLastMissing(pol, Step(pol, s, e).0, events[1..], key, msg, reservation, seen, deadline, j - 1);
    }
  }

  // ---------------------------------------------------------------- no second delivery

  /** The number of keys behind k. */
  function Newer(keys: seq<Key>, k: Key): nat
  {
    if keys == [] then 0 else if keys[0] == k then |keys| - 1 else Newer(keys[1..], k)
  }

  lemma {:induction false} NewerBound(keys: seq<Key>, k: Key)
    ensures Newer(keys, k) <= |keys|
    ensures k in keys ==> Newer(keys, k) < |keys|
  {
    if keys != [] && keys[0] != k {
      NewerBound(keys[1..], k);
    }
  }

  lemma {:induction false} NewerWithout(keys: seq<Key>, k: Key, x: Key)
    requires NoDup(keys) && x != k && k in keys
    ensures k in Without(keys, x) && Newer(Without(keys, x), k) <= Newer(keys, k)
  {
    assert NoDup(keys[1..]);
    if keys[0] != k {
      NewerWithout(keys[1..], k, x);
      if keys[0] != x {
        assert ([keys[0]] + Without(keys[1..], x))[1..] == Without(keys[1..], x);
      }
    } else {
      assert Without(keys, x) == [k] + Without(keys[1..], x);
    }
  }

  lemma {:induction false} NewerAppend(keys: seq<Key>, k: Key, x: Key)
    requires k in keys
    ensures Newer(keys + [x], k) == Newer(keys, k) + 1
  {
    if keys[0] != k {
      assert (keys + [x])[1..] == keys[1..] + [x];
      NewerAppend(keys[1..], k, x);
    }
  }

  lemma {:induction false} NewerTrim(d: OrderedDict<Key, Grave>, n: nat, k: Key)
    requires d.Valid() && k in d.vals && Newer(d.keys, k) < n
    ensures var r := d.Trim(n); k in r.vals && r.vals[k] == d.vals[k] && Newer(r.keys, k) == Newer(d.keys, k)
    decreases |d.keys|
  {
    if |d.keys| > n {
      assert d.keys[0] != k;
      NewerTrim(OrderedDict(d.keys[1..], d.vals - {d.keys[0]}), n, k);
    }
  }

  /** The key's entry is kept, and keys newer than it plus live groups, its only rivals, number at most `rivals`. */
  ghost predicate Retained(s: Assembly, key: Key, grave: Grave, rivals: nat)
  {
    && s.groups.Valid() && s.terminal.Valid()
    && key !in s.groups.vals && key in s.terminal.vals && s.terminal.vals[key] == grave
    && Newer(s.terminal.keys, key) + |s.groups.keys| <= rivals
  }

  lemma NewerPutLast(t: OrderedDict<Key, Grave>, key: Key, x: Key, grave: Grave)
    requires t.Valid() && key in t.vals && x != key
    ensures var r := t.PutLast(x, grave);
      r.Valid() && key in r.vals && r.vals[key] == t.vals[key] && Newer(r.keys, key) <= Newer(t.keys, key) + 1
  {
    NewerWithout(t.keys, key, x);
    NewerAppend(Without(t.keys, x), key, x);
  }

  lemma DroppedParts(s: Assembly, x: Key)
    requires s.groups.Valid() && x in s.groups.vals && s.groups.vals[x].reserved <= s.reserved
    ensures var r := Dropped(s, x);
      && r.groups.Valid() && r.terminal == s.terminal && r.lastNow == s.lastNow
      && |r.groups.keys| == |s.groups.keys| - 1 && r.groups.vals == s.groups.vals - {x}
  {
  }

  lemma RetainedFacts(s: Assembly, key: Key, grave: Grave, rivals: nat)
    ensures Retained(s, key, grave, rivals) <==>
      && s.groups.Valid() && s.terminal.Valid()
      && key !in s.groups.vals && key in s.terminal.vals && s.terminal.vals[key] == grave
      && Newer(s.terminal.keys, key) + |s.groups.keys| <= rivals
  {
  }

  /** Moving a group to the terminal entries makes no new rival. */
  lemma BuriedRetained(pol: Policy, s: Assembly, key: Key, grave: Grave, rivals: nat, x: Key, code: Code, now: nat)
    requires Retained(s, key, grave, rivals) && rivals < pol.cacheMessages
    requires x in s.groups.vals && s.groups.vals[x].reserved <= s.reserved
    ensures Retained(Remembered(pol, Dropped(s, x), x, code, now), key, grave, rivals)
    ensures Retained(Dropped(s, x), key, grave, rivals)
  {
    hide *;
    var dropped := Dropped(s, x);
    var after := Remembered(pol, dropped, x, code, now);
    RetainedFacts(s, key, grave, rivals);
    DroppedParts(s, x);
    RetainedFacts(dropped, key, grave, rivals);
    RememberedParts(pol, dropped, x, code, now);
    var entry := Grave(now + pol.retentionNs, code);
    NewerPutLast(s.terminal, key, x, entry);
    NewerTrim(s.terminal.PutLast(x, entry), pol.cacheMessages, key);
    RetainedFacts(after, key, grave, rivals);
  }

  lemma AccountedRemembered(pol: Policy, s: Assembly, x: Key, code: Code, now: nat)
    requires Accounted(s)
    ensures Accounted(Remembered(pol, s, x, code, now))
  {
    assert Remembered(pol, s, x, code, now).groups == s.groups;
  }

  lemma {:induction false} GroupsExpiredRetained(pol: Policy, s: Assembly, keys: seq<Key>, now: nat,
                                                 key: Key, grave: Grave, rivals: nat)
    requires Accounted(s) && Retained(s, key, grave, rivals) && rivals < pol.cacheMessages
    ensures Retained(GroupsExpired(pol, s, keys, now), key, grave, rivals)
    decreases |keys|
  {
    hide Accounted, Retained, Remembered, Dropped;
    if keys != [] {
      var k0 := keys[0];
      if k0 in s.groups.vals && now >= s.groups.vals[k0].deadline {
        DropAccounted(s, k0);
        BuriedRetained(pol, s, key, grave, rivals, k0, Timeout, s.groups.vals[k0].deadline);
        AccountedRemembered(pol, Dropped(s, k0), k0, Timeout, s.groups.vals[k0].deadline);
        GroupsExpiredRetained(pol, Remembered(pol, Dropped(s, k0), k0, Timeout, s.groups.vals[k0].deadline),
                              keys[1..], now, key, grave, rivals);
      } else {
        GroupsExpiredRetained(pol, s, keys[1..], now, key, grave, rivals);
      }
    }
  }

  lemma {:induction false} GravesExpiredNewer(t: OrderedDict<Key, Grave>, keys: seq<Key>, now: nat, key: Key)
    requires t.Valid() && key in t.vals && now < t.vals[key].deadline
    ensures var r := GravesExpired(t, keys, now);
      key in r.vals && r.vals[key] == t.vals[key] && Newer(r.keys, key) <= Newer(t.keys, key)
    decreases |keys|
  {
    if keys != [] {
      if keys[0] in t.vals && now >= t.vals[keys[0]].deadline {
        NewerWithout(t.keys, key, keys[0]);
        GravesExpiredNewer(t.Delete(keys[0]), keys[1..], now, key);
      } else {
        GravesExpiredNewer(t, keys[1..], now, key);
      }
    }
  }

  lemma SweptRetained(pol: Policy, s: Assembly, now: nat, key: Key, grave: Grave, rivals: nat)
    requires Accounted(s) && Retained(s, key, grave, rivals) && rivals < pol.cacheMessages && now < grave.deadline
    ensures Retained(Swept(pol, s, now), key, grave, rivals)
  {
    var start := s.(lastNow := now);
    hide Accounted, GroupsExpired, GravesExpired, Retained;
    assert Accounted(start) by { AccountedClock(s, now); }
    RetainedFacts(s, key, grave, rivals);
    RetainedFacts(start, key, grave, rivals);
    GroupsExpiredRetained(pol, start, start.groups.keys, now, key, grave, rivals);
    var after := GroupsExpired(pol, start, start.groups.keys, now);
    RetainedFacts(after, key, grave, rivals);
    GravesExpiredNewer(after.terminal, after.terminal.keys, now, key);
    RetainedFacts(Swept(pol, s, now), key, grave, rivals);
  }

  lemma AccountedClock(s: Assembly, now: int)
    requires Accounted(s)
    ensures Accounted(s.(lastNow := now))
  {
    assert s.(lastNow := now).groups == s.groups;
  }

  lemma StoredRetained(pol: Policy, s: Assembly, p: Piece, x: Key, reservation: nat, now: nat,
                       key: Key, grave: Grave, rivals: nat)
    requires Retained(s, key, grave, rivals) && rivals < pol.cacheMessages
    requires x in s.groups.vals && s.groups.vals[x].reserved <= s.reserved && p.Index() < p.Count()
    requires forall i :: i in s.groups.vals[x].pieces ==> i < s.groups.vals[x].first.Count()
    ensures Retained(Stored(pol, s, p, x, reservation, now).0, key, grave, rivals)
  {
    hide Remembered, Dropped, Retained, Assembled, Policy.Verdict, Piece.Index, Piece.Count, Piece.Bytes, Piece.SameHeader,
      OrderedDict.Put, OrderedDict.Valid;
    forall code ensures Retained(Remembered(pol, Dropped(s, x), x, code, now), key, grave, rivals) {
      BuriedRetained(pol, s, key, grave, rivals, x, code, now);
    }
    BuriedRetained(pol, s, key, grave, rivals, x, Duplicate, now);
    forall g: Group ensures Retained(s.(groups := s.groups.Put(x, g)), key, grave, rivals) {
      PutRetained(s, x, g, key, grave, rivals);
    }
  }

  lemma PutRetained(s: Assembly, x: Key, g: Group, key: Key, grave: Grave, rivals: nat)
    requires Retained(s, key, grave, rivals) && x in s.groups.vals
    ensures Retained(s.(groups := s.groups.Put(x, g)), key, grave, rivals)
  {
  }

  lemma OpenedRetained(pol: Policy, s: Assembly, p: Piece, x: Key, reservation: nat, now: nat,
                       key: Key, grave: Grave, rivals: nat)
    requires Retained(s, key, grave, rivals) && x != key && x !in s.groups.vals
    ensures Retained(Opened(pol, s, p, x, reservation, now), key, grave, rivals + 1)
  {
  }

  /** A fragment of another transfer adds at most one rival; the key's own fragment is refused. */
  lemma RoutedRetained(pol: Policy, s: Assembly, p: Piece, x: Key, reservation: nat, now: nat,
                       key: Key, grave: Grave, rivals: nat)
    requires Inv(pol, s) && PieceOk(p, reservation)
    requires Retained(s, key, grave, rivals) && rivals + 1 < pol.cacheMessages
    ensures Retained(Routed(pol, s, p, x, reservation, now).0, key, grave, rivals + 1)
    ensures x == key ==> Routed(pol, s, p, x, reservation, now).1 == Rejected(grave.code)
  {
    RetainedFacts(s, key, grave, rivals);
    RetainedFacts(s, key, grave, rivals + 1);
    IndexBelowCount(p, reservation);
    hide Inv, Stored, QuotaOk, Retained, Piece.Index, Piece.Count, Opened, PieceOk, Total;
    if x in s.terminal.vals {
    } else if x in s.groups.vals {
      GroupFacts(pol, s, x);
      StoredRetained(pol, s, p, x, reservation, now, key, grave, rivals + 1);
    } else if QuotaOk(pol, s, x, reservation) {
      OpenedRetained(pol, s, p, x, reservation, now, key, grave, rivals);
      RoutedNew(pol, s, p, x, reservation, now);
      var start := Opened(pol, s, p, x, reservation, now);
      StoredRetained(pol, start, p, x, reservation, now, key, grave, rivals + 1);
    }
  }

  lemma {:induction false} GroupsDiscardedSize(s: Assembly, keys: seq<Key>, session: nat)
    requires Accounted(s)
    ensures |GroupsDiscarded(s, keys, session).groups.keys| <= |s.groups.keys|
    decreases |keys|
  {
    if keys != [] {
      if keys[0] in s.groups.vals && keys[0].session == session {
        DropAccounted(s, keys[0]);
        GroupsDiscardedSize(Dropped(s, keys[0]), keys[1..], session);
      } else {
        GroupsDiscardedSize(s, keys[1..], session);
      }
    }
  }

  lemma {:induction false} GravesDiscardedNewer(t: OrderedDict<Key, Grave>, keys: seq<Key>, session: nat, key: Key)
    requires t.Valid() && key in t.vals && key.session != session
    ensures var r := GravesDiscarded(t, keys, session);
      key in r.vals && r.vals[key] == t.vals[key] && Newer(r.keys, key) <= Newer(t.keys, key)
    decreases |keys|
  {
    if keys != [] {
      if keys[0].session == session {
        NewerWithout(t.keys, key, keys[0]);
        GravesDiscardedNewer(t.Delete(keys[0]), keys[1..], session, key);
      } else {
        GravesDiscardedNewer(t, keys[1..], session, key);
      }
    }
  }

  lemma DiscardedRetained(pol: Policy, s: Assembly, session: nat, key: Key, grave: Grave, rivals: nat)
    requires Inv(pol, s) && Retained(s, key, grave, rivals) && key.session != session
    ensures Retained(Discarded(s, session), key, grave, rivals)
    ensures Discarded(s, session).lastNow == s.lastNow
  {
    DiscardedEffect(pol, s, session);
    GroupsDiscardedEffect(pol, s, s.groups.keys, session);
    GroupsDiscardedSize(s, s.groups.keys, session);
    GravesDiscardedNewer(s.terminal, s.terminal.keys, session, key);
    DiscardedWellFormed(pol, s, session);
    hide Inv, GroupsDiscarded, GravesDiscarded, OrderedDict.Valid, Newer;
  }

  lemma DiscardedWellFormed(pol: Policy, s: Assembly, session: nat)
    requires Inv(pol, s)
    ensures Inv(pol, Discarded(s, session))
    ensures Discarded(s, session).groups.Valid() && Discarded(s, session).terminal.Valid()
  {
    DiscardedEffect(pol, s, session);
  }

  /** How many fragments a run brings. */
  function Arrivals(events: seq<Event>): nat
  {
    if events == [] then 0 else (if events[0].Arrive? then 1 else 0) + Arrivals(events[1..])
  }

  lemma StepRetained(pol: Policy, s: Assembly, e: Event, key: Key, grave: Grave, rivals: nat)
    requires Inv(pol, s) && pol.Valid() && e.Ok() && Retained(s, key, grave, rivals)
    requires rivals + Arrivals([e]) < pol.cacheMessages
    requires e.Discard? ==> e.session != key.session
    requires !e.Discard? ==> s.lastNow <= e.now < grave.deadline
    ensures Retained(Step(pol, s, e).0, key, grave, rivals + Arrivals([e]))
    ensures Step(pol, s, e).0.lastNow == if e.Discard? then s.lastNow else e.now
    ensures e.Own(key) ==> Step(pol, s, e).1 == Rejected(grave.code)
  {
    hide *;
    OneArrival(e);
    OwnKey(e, key);
    match e
    case Arrive(p, x, r, now) =>
      StepArrive(pol, s, e);
      SweptClock(pol, s, now);
      SweptRetained(pol, s, now, key, grave, rivals);
      RoutedRetained(pol, Swept(pol, s, now), p, x, r, now, key, grave, rivals);
      RoutedClock(pol, Swept(pol, s, now), p, x, r, now);
    case Sweep(now) =>
      StepSweep(pol, s, now);
      SweptClock(pol, s, now);
      SweptRetained(pol, s, now, key, grave, rivals);
    case Discard(session) =>
      StepDiscard(pol, s, session);
      DiscardedRetained(pol, s, session, key, grave, rivals);
  }

  lemma OneArrival(e: Event)
    ensures Arrivals([e]) == if e.Arrive? then 1 else 0
  {
    assert [e][1..] == [];
  }

  lemma StepSweep(pol: Policy, s: Assembly, now: nat)
    requires Inv(pol, s) && pol.Valid() && s.lastNow <= now && Sweep(now).Ok()
    ensures Accounted(s) && Step(pol, s, Sweep(now)).0 == Swept(pol, s, now)
  {
    SweptInv(pol, s, now);
    hide Inv, Swept;
    SweptClock(pol, s, now);
  }

  lemma StepDiscard(pol: Policy, s: Assembly, session: nat)
    requires Inv(pol, s) && pol.Valid() && Discard(session).Ok()
    ensures Accounted(s) && Step(pol, s, Discard(session)).0 == Discarded(s, session)
  {
    DiscardedEffect(pol, s, session);
    SweptClock(pol, s, 0);
    hide Inv, Discarded, Swept;
  }

  lemma OwnKey(e: Event, key: Key)
    ensures e.Own(key) <==> e.Arrive? && e.key == key
  {
  }

  lemma RoutedClock(pol: Policy, s: Assembly, p: Piece, key: Key, reservation: nat, now: nat)
    requires Inv(pol, s) && PieceOk(p, reservation)
    ensures Routed(pol, s, p, key, reservation, now).0.lastNow == s.lastNow
  {
    var other := key.(session := key.session + 1);
    RoutedFrame(pol, s, p, key, reservation, now, other);
  }

  lemma {:induction false} ArrivalsTail(events: seq<Event>)
    requires 0 < |events|
    ensures Arrivals(events) == Arrivals([events[0]]) + Arrivals(events[1..])
  {
    assert Arrivals([events[0]][1..]) == 0;
  }

  /**
   * While a terminal entry's retention lasts and fewer than the cache size other transfers could have pushed
   * it out, every further fragment of its transfer is refused with the recorded code: no second delivery.
   */
  lemma {:induction false} NotDeliveredAgain(pol: Policy, s: Assembly, events: seq<Event>, key: Key, grave: Grave,
                                             rivals: nat, j: nat)
    requires Inv(pol, s) && pol.Valid() && (forall e :: e in events ==> e.Ok())
    requires Retained(s, key, grave, rivals) && rivals + Arrivals(events) < pol.cacheMessages
    requires forall e :: e in events && e.Discard? ==> e.session != key.session
    requires Timely(s.lastNow, events, grave.deadline)
    requires j < |events| && events[j].Own(key)
    ensures OutcomeAt(pol, s, events, j) == Rejected(grave.code)
    decreases |events|
  {
    hide *;
    assert events[0] in events;
    TimelyHead(s.lastNow, events, grave.deadline);
    ArrivalsTail(events);
    StepRetained(pol, s, events[0], key, grave, rivals);
    if j == 0 {
      OutcomeFirst(pol, s, events);
    } else {
      OutcomeLater(pol, s, events, j);
      assert events[1..][j - 1] == events[j];
      NotDeliveredAgain(pol, Step(pol, s, events[0]).0, events[1..], key, grave, rivals + Arrivals([events[0]]), j - 1);
    }
  }

  // ---------------------------------------------------------------- the life of a transfer

  /** The last clock reading of a run. */
  function Clocked(last: int, events: seq<Event>): int
    decreases |events|
  {
    if events == [] then last else Clocked(if events[0].Discard? then last else events[0].now, events[1..])
  }

  /** As long as an index is missing, the transfer's group holds exactly what has arrived. */
  lemma {:induction false} ReceivingAfter(
      pol: Policy, s: Assembly, events: seq<Event>, key: Key, msg: seq<Piece>, reservation: nat,
      seen: set<nat>, deadline: nat)
    requires Inv(pol, s) && pol.Valid() && Transfer(key, msg, reservation)
    requires Receiving(s, key, msg, reservation, seen, deadline)
    requires Traffic(events, key, msg, reservation) && Timely(s.lastNow, events, deadline)
    requires forall p :: p in msg ==> pol.Verdict(p, Join(Contents(msg))).Ok?
    requires !(Below(|msg|) <= seen + Seen(events, key))
    ensures (forall e :: e in events ==> e.Ok()) && Inv(pol, After(pol, s, events))
    ensures Receiving(After(pol, s, events), key, msg, reservation, seen + Seen(events, key), deadline)
    ensures After(pol, s, events).lastNow == Clocked(s.lastNow, events)
    decreases |events|
  {
    hide *;
    TrafficOk(events, key, msg, reservation);
    if events == [] {
      NoEvents(pol, s, key);
      assert seen + {} == seen;
      return;
    }
    TrafficTail(s.lastNow, events, key, msg, reservation, deadline);
    ReceivingBelow(s, key, msg, reservation, seen, deadline);
    var e := events[0];
    FirstEvent(pol, s, events, key);
    var seen' := seen;
    if e.Own(key) {
      OwnFacts(e, key);
      PieceFacts(key, msg, reservation, e.piece, e.piece);
      OwnStep(pol, s, e, key, msg, reservation, seen, deadline);
      ProgressOutcome(pol, Step(pol, s, e), key, msg, reservation, seen, e.piece.Index(), deadline, e.now);
      seen' := seen + {e.piece.Index()};
    } else {
      OtherStep(pol, s, e, key, msg, reservation, seen, deadline);
    }
    assert seen + Seen(events, key) == seen' + Seen(events[1..], key);
    ReceivingAfter(pol, Step(pol, s, e).0, events[1..], key, msg, reservation, seen', deadline);
  }

  lemma TrafficOk(events: seq<Event>, key: Key, msg: seq<Piece>, reservation: nat)
    requires Traffic(events, key, msg, reservation)
    ensures forall e :: e in events ==> e.Ok()
  {
    hide Event.Ok;
  }

  lemma NoEvents(pol: Policy, s: Assembly, key: Key)
    requires Inv(pol, s) && pol.Valid()
    ensures After(pol, s, []) == s && Seen([], key) == {} && Clocked(s.lastNow, []) == s.lastNow
  {
    hide Inv;
  }

  lemma FirstEvent(pol: Policy, s: Assembly, events: seq<Event>, key: Key)
    requires Inv(pol, s) && pol.Valid() && (forall e :: e in events ==> e.Ok()) && 0 < |events|
    ensures events[0] in events && forall e :: e in events[1..] ==> e.Ok()
    ensures After(pol, s, events) == After(pol, Step(pol, s, events[0]).0, events[1..])
    ensures Seen(events, key) == Seen(events[1..], key) + (if events[0].Own(key) then {events[0].piece.Index()} else {})
    ensures Clocked(s.lastNow, events) == Clocked(if events[0].Discard? then s.lastNow else events[0].now, events[1..])
  {
    hide Inv, Step, Event.Ok;
  }

  /** A transfer's first fragment finds no trace of it and room for it. */
  ghost predicate Opens(pol: Policy, s: Assembly, e: Event, key: Key, reservation: nat, deadline: nat)
    requires Inv(pol, s)
  {
    && e.Own(key) && s.lastNow <= e.now && deadline == e.now + pol.Timeout(e.piece)
    && var live := Swept(pol, s, e.now);
    && key !in live.groups.vals && key !in live.terminal.vals && QuotaOk(pol, live, key, reservation)
  }

  /** The run up to the arrival that completes a transfer. */
  ghost predicate Completes(pol: Policy, s: Assembly, before: seq<Event>, last: Event, key: Key, msg: seq<Piece>,
                            reservation: nat, deadline: nat)
    requires Inv(pol, s)
  {
    && Transfer(key, msg, reservation)
    && Opens(pol, s, (before + [last])[0], key, reservation, deadline)
    && Traffic(before + [last], key, msg, reservation) && Timely(s.lastNow, before + [last], deadline)
    && last.Own(key)
    && !(Below(|msg|) <= Seen(before, key)) && Below(|msg|) <= Seen(before + [last], key)
    && forall p :: p in msg ==> pol.Verdict(p, Join(Contents(msg))).Ok?
  }

  lemma CompletesParts(pol: Policy, s: Assembly, before: seq<Event>, last: Event, key: Key, msg: seq<Piece>,
                       reservation: nat, deadline: nat)
    requires Inv(pol, s) && Completes(pol, s, before, last, key, msg, reservation, deadline)
    ensures var events := before + [last];
      && Transfer(key, msg, reservation)
      && events[0].Own(key) && s.lastNow <= events[0].now && deadline == events[0].now + pol.Timeout(events[0].piece)
      && (var live := Swept(pol, s, events[0].now);
          key !in live.groups.vals && key !in live.terminal.vals && QuotaOk(pol, live, key, reservation))
      && Traffic(events, key, msg, reservation) && Timely(s.lastNow, events, deadline)
      && last.Own(key) && last.Ok() && last.piece in msg && last.reservation == reservation
      && (forall e :: e in events ==> e.Ok()) && (forall e :: e in before ==> e.Ok())
      && !(Below(|msg|) <= Seen(before, key)) && Below(|msg|) <= Seen(events, key)
      && (forall p :: p in msg ==> pol.Verdict(p, Join(Contents(msg))).Ok?)
  {
    var events := before + [last];
    assert events[|before|] == last && last in events;
    assert forall e :: e in before ==> e in events;
    hide Inv, Transfer, Swept, QuotaOk, Event.Ok, Timely, Seen, Below, Join, Contents, Policy.Verdict;
  }

  lemma {:induction false} TimelySplit(last: int, events: seq<Event>, e: Event, deadline: nat)
    requires Timely(last, events + [e], deadline) && !e.Discard?
    ensures Timely(last, events, deadline) && Clocked(last, events) <= e.now < deadline
    decreases |events|
  {
    if events == [] {
      assert [] + [e] == [e] && [e][0] == e;
    } else {
      assert (events + [e])[0] == events[0] && (events + [e])[1..] == events[1..] + [e];
      TimelySplit(if events[0].Discard? then last else events[0].now, events[1..], e, deadline);
    }
  }

  lemma {:induction false} AfterAppend(pol: Policy, s: Assembly, a: seq<Event>, b: seq<Event>)
    requires Inv(pol, s) && pol.Valid() && (forall e :: e in a ==> e.Ok()) && forall e :: e in b ==> e.Ok()
    ensures (forall e :: e in a + b ==> e.Ok()) && Inv(pol, After(pol, s, a))
    ensures After(pol, s, a + b) == After(pol, After(pol, s, a), b)
    decreases |a|
  {
    hide Inv, Step, Event.Ok;
    if a == [] {
      assert a + b == b;
    } else {
      assert (a + b)[0] == a[0] && (a + b)[1..] == a[1..] + b && a[0] in a;
      AfterAppend(pol, Step(pol, s, a[0]).0, a[1..], b);
    }
  }

  lemma OutcomeEarly(pol: Policy, s: Assembly, a: seq<Event>, b: seq<Event>, j: nat)
    requires Inv(pol, s) && pol.Valid() && (forall e :: e in a ==> e.Ok()) && (forall e :: e in b ==> e.Ok()) && j < |a|
    ensures (forall e :: e in a + b ==> e.Ok()) && (a + b)[j] == a[j]
    ensures OutcomeAt(pol, s, a + b, j) == OutcomeAt(pol, s, a, j)
  {
    assert (a + b)[..j] == a[..j];
    hide Inv, Step, Event.Ok, After;
  }

  lemma OutcomeLate(pol: Policy, s: Assembly, a: seq<Event>, b: seq<Event>, j: nat)
    requires Inv(pol, s) && pol.Valid() && (forall e :: e in a ==> e.Ok()) && (forall e :: e in b ==> e.Ok())
    requires |a| <= j < |a| + |b|
    ensures (forall e :: e in a + b ==> e.Ok()) && (a + b)[j] == b[j - |a|] && Inv(pol, After(pol, s, a))
    ensures OutcomeAt(pol, s, a + b, j) == OutcomeAt(pol, After(pol, s, a), b, j - |a|)
  {
    assert (a + b)[..j] == a + b[..j - |a|];
    assert forall e :: e in b[..j - |a|] ==> e in b;
    AfterAppend(pol, s, a, b[..j - |a|]);
    hide Inv, Step, Event.Ok, After;
  }

  lemma {:induction false} SeenGrows(events: seq<Event>, key: Key, i: nat, j: nat)
    requires i <= j <= |events|
    ensures Seen(events[..i], key) <= Seen(events[..j], key)
  {
    if i > 0 {
      SeenPrefix(events, key, i);
      SeenPrefix(events, key, j);
      SeenGrows(events[1..], key, i - 1, j - 1);
    }
  }

  /** The completing arrival closes the transfer's group and leaves its entry as the latest. */
  lemma CompletedState(pol: Policy, s: Assembly, before: seq<Event>, last: Event, key: Key, msg: seq<Piece>,
                       reservation: nat, deadline: nat)
    requires Inv(pol, s) && pol.Valid() && Completes(pol, s, before, last, key, msg, reservation, deadline)
    requires pol.retainCompleted && pol.cacheMessages > 0
    ensures (forall e :: e in before + [last] ==> e.Ok()) && Inv(pol, After(pol, s, before + [last]))
    ensures var r := After(pol, s, before + [last]);
      key !in r.groups.vals && Newest(r.terminal, key, Grave(last.now + pol.retentionNs, Duplicate)) && r.lastNow == last.now
  {
    hide *;
    CompletesParts(pol, s, before, last, key, msg, reservation, deadline);
    var events := before + [last];
    var e := events[0];
    OwnFacts(e, key);
    OwnFacts(last, key);
    AfterAppend(pol, s, before, [last]);
    TrafficTail(s.lastNow, events, key, msg, reservation, deadline);
    PieceFacts(key, msg, reservation, e.piece, e.piece);
    PieceFacts(key, msg, reservation, last.piece, last.piece);
    FirstStep(pol, s, e, key, msg, reservation);
    SeenAppend(before, last, key);
    if before == [] {
      NoEvents(pol, s, key);
      assert events == [last];
      ProgressDoneParts(pol, Step(pol, s, e), key, msg, reservation, {}, e.piece.Index(), deadline, e.now);
      FirstEvent(pol, s, [last], key);
      NoEvents(pol, Step(pol, s, e).0, key);
      assert [last][1..] == [];
    } else {
      assert e == before[0];
      FirstEvent(pol, s, before, key);
      ProgressOutcome(pol, Step(pol, s, e), key, msg, reservation, {}, e.piece.Index(), deadline, e.now);
      var middle := Step(pol, s, e).0;
      var seen := {} + {e.piece.Index()};
      assert Seen(before, key) == seen + Seen(before[1..], key);
      assert events[1..] == before[1..] + [last];
      TimelySplit(e.now, before[1..], last, deadline);
      TrafficFront(before[1..], last, key, msg, reservation);
      ReceivingAfter(pol, middle, before[1..], key, msg, reservation, seen, deadline);
      var near := After(pol, s, before);
      ReceivingBelow(near, key, msg, reservation, Seen(before, key), deadline);
      OwnStep(pol, near, last, key, msg, reservation, Seen(before, key), deadline);
      ProgressDoneParts(pol, Step(pol, near, last), key, msg, reservation, Seen(before, key), last.piece.Index(), deadline, last.now);
      FirstEvent(pol, near, [last], key);
      NoEvents(pol, Step(pol, near, last).0, key);
      assert [last][1..] == [];
    }
  }

  lemma ProgressDoneParts(pol: Policy, r: (Assembly, Outcome), key: Key, msg: seq<Piece>, reservation: nat,
                          seen: set<nat>, index: nat, deadline: nat, now: nat)
    requires Progress(pol, r, key, msg, reservation, seen, index, deadline, now) && Below(|msg|) <= seen + {index}
    requires seen <= Below(|msg|) && index < |msg| && pol.retainCompleted && pol.cacheMessages > 0
    ensures key !in r.0.groups.vals && Newest(r.0.terminal, key, Grave(now + pol.retentionNs, Duplicate))
  {
    assert seen + {index} == Below(|msg|);
    hide Newest, Receiving, Join, Contents;
  }

  lemma {:induction false} SeenAppend(events: seq<Event>, last: Event, key: Key)
    requires last.Own(key)
    ensures Seen(events + [last], key) == Seen(events, key) + {last.piece.Index()}
  {
    if events == [] {
      assert events + [last] == [last] && [last][1..] == [];
    } else {
      assert (events + [last])[0] == events[0] && (events + [last])[1..] == events[1..] + [last];
      SeenAppend(events[1..], last, key);
    }
  }

  lemma TrafficFront(events: seq<Event>, last: Event, key: Key, msg: seq<Piece>, reservation: nat)
    requires Traffic(events + [last], key, msg, reservation)
    ensures Traffic(events, key, msg, reservation)
  {
    assert forall e :: e in events ==> e in events + [last];
  }

  lemma {:induction false} LastHasNoneNewer(keys: seq<Key>, key: Key)
    requires NoDup(keys) && 0 < |keys| && keys[|keys| - 1] == key
    ensures Newer(keys, key) == 0
  {
    if |keys| > 1 {
      assert keys[0] != key;
      LastHasNoneNewer(keys[1..], key);
    }
  }

  lemma NewestRetained(pol: Policy, s: Assembly, key: Key, grave: Grave)
    requires Inv(pol, s) && key !in s.groups.vals && Newest(s.terminal, key, grave)
    ensures Retained(s, key, grave, |s.groups.keys|)
  {
    InvTables(pol, s);
    hide Inv;
    LastHasNoneNewer(s.terminal.keys, key);
  }

  lemma InvTables(pol: Policy, s: Assembly)
    requires Inv(pol, s)
    ensures s.groups.Valid() && s.terminal.Valid()
  {
    assert Accounted(s);
  }

  /**
   * One whole life of a transfer among any interleaved traffic, when completed transfers are remembered: pending until
   * the arrival that completes the index set, delivered there with the sender's bytes, and refused ever after while
   * its entry is inside its retention and fewer rivals than the cache holds can push it out.
   */
  lemma DeliveredOnce(pol: Policy, s: Assembly, before: seq<Event>, last: Event, later: seq<Event>, key: Key,
                      msg: seq<Piece>, reservation: nat, deadline: nat, j: nat)
    requires Inv(pol, s) && pol.Valid() && Completes(pol, s, before, last, key, msg, reservation, deadline)
    requires pol.retainCompleted && Timely(last.now, later, last.now + pol.retentionNs)
    requires forall e :: e in later ==> e.Ok() && (e.Discard? ==> e.session != key.session)
    requires Rivals(pol, s, before + [last]) + Arrivals(later) < pol.cacheMessages
    requires j < |before| + 1 + |later| && (before + [last] + later)[j].Own(key)
    ensures forall e :: e in before + [last] + later ==> e.Ok()
    ensures OutcomeAt(pol, s, before + [last] + later, j) ==
      if j < |before| then Pending else if j == |before| then Delivered(Join(Contents(msg))) else Rejected(Duplicate)
  {
    hide *;
    CompletesParts(pol, s, before, last, key, msg, reservation, deadline);
    OwnFacts(last, key);
    var run := before + [last];
    assert forall e :: e in run + later ==> e in run || e in later;
    if j <= |before| {
      OutcomeEarly(pol, s, run, later, j);
      SeenGrows(run, key, j, |before|);
      assert run[..|before|] == before;
      if j < |before| {
        SeenGrows(run, key, j + 1, |before|);
      } else {
        assert run[..j + 1] == run;
      }
      TransferDelivered(pol, s, run, key, msg, reservation, deadline, j);
    } else {
      OutcomeLate(pol, s, run, later, j);
      CompletedState(pol, s, before, last, key, msg, reservation, deadline);
      var r := After(pol, s, run);
      var grave := Grave(last.now + pol.retentionNs, Duplicate);
      NewestRetained(pol, r, key, grave);
      RivalsAfter(pol, s, run);
      NotDeliveredAgain(pol, r, later, key, grave, |r.groups.keys|, j - |run|);
    }
  }

  /** The groups still open after a run: each may yet push out an entry. */
  ghost function Rivals(pol: Policy, s: Assembly, events: seq<Event>): nat
    requires Inv(pol, s) && pol.Valid()
  {
    if forall e :: e in events ==> e.Ok() then |After(pol, s, events).groups.keys| else 0
  }

  lemma RivalsAfter(pol: Policy, s: Assembly, events: seq<Event>)
    requires Inv(pol, s) && pol.Valid() && forall e :: e in events ==> e.Ok()
    ensures Rivals(pol, s, events) == |After(pol, s, events).groups.keys|
  {
    hide Inv, After, Event.Ok;
  }

  lemma TimelyHead(last: int, events: seq<Event>, deadline: nat)
    requires 0 < |events| && Timely(last, events, deadline)
    ensures !events[0].Discard? ==> last <= events[0].now < deadline
    ensures Timely(if events[0].Discard? then last else events[0].now, events[1..], deadline)
  {
  }
}
