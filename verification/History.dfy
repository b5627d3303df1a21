/** Decoding a whole capture into logical records: every packet belongs to exactly one of them. */
module History {
  import opened Common
  import opened Catalogue
  import opened Ordered
  import opened Wire
  import R = Reassembly
  import A = Reassembler

  /** What one captured packet was decoded to: a message fragment, or auxiliary traffic complete in itself. */
  datatype Seen = Part(fragment: Fragment) | Auxiliary(payload: seq<byte>, direction: Direction)

  /** A packet of the capture; `seen` may also be the reason its decoding or stream selection refuses it. */
  datatype Captured = Captured(domain: nat, at: nat, seen: Result<Seen>)

  /** The decoder's own key of a group under way. */
  datatype Local = Local(channel: string, direction: Direction, messageId: nat, session: nat, sequence: nat, transaction: nat)

  /** The packets of every group under way. */
  type Groups = OrderedDict<Local, seq<nat>>

  datatype HistoryRecord = HistoryRecord(indices: seq<nat>, whole: bool, data: seq<byte>)

  function LocalOf(channel: string, f: Fragment): Local
  {
    Local(channel, f.direction, f.messageId, f.header.sessionId, f.header.sequence, f.header.transactionId)
  }

  /** The reassembler's key for a local one: a channel carries one transport, and no grant is involved. */
  function Rekey(pol: R.Policy, l: Local): R.Key
  {
    var transport := if l.channel in pol.channels && pol.channels[l.channel].CanFdBus? then CanFd else Udp;
    R.Key(l.channel, l.direction, l.session, R.MessageIdentity(transport, l.messageId, l.sequence, l.transaction), None)
  }

  // ---------------------------------------------------------------- who owns a packet

  function Owners(records: seq<HistoryRecord>, i: nat): nat
  {
    if records == [] then 0
    else Owners(records[..|records| - 1], i) + (if i in records[|records| - 1].indices then 1 else 0)
  }

  function Holding(groups: map<Local, seq<nat>>, i: nat): Local -> nat
  {
    (l: Local) => if l in groups && i in groups[l] then 1 else 0
  }

  /** In how many records and groups under way a packet is. */
  ghost function Ledger(records: seq<HistoryRecord>, groups: Groups, i: nat): nat
  {
    Owners(records, i) + Total(groups.keys, Holding(groups.vals, i))
  }

  lemma OwnersMore(records: seq<HistoryRecord>, r: HistoryRecord, i: nat)
    ensures Owners(records + [r], i) == Owners(records, i) + (if i in r.indices then 1 else 0)
  {
    assert (records + [r])[..|records|] == records;
  }

  lemma LedgerGrows(records: seq<HistoryRecord>, groups: Groups, l: Local, x: nat, i: nat)
    requires groups.Valid() && (l in groups.vals ==> x !in groups.vals[l])
    ensures var list := (if l in groups.vals then groups.vals[l] else []) + [x];
      Ledger(records, groups.Put(l, list), i) == Ledger(records, groups, i) + (if i == x then 1 else 0)
  {
    var list := (if l in groups.vals then groups.vals[l] else []) + [x];
    TotalPut(groups.keys, l, Holding(groups.vals, i), Holding(groups.Put(l, list).vals, i));
  }

  /** A finished group's packets move to its record. */
  lemma LedgerMoves(records: seq<HistoryRecord>, groups: Groups, l: Local, r: HistoryRecord, i: nat)
    requires groups.Valid() && l in groups.vals && r.indices == groups.vals[l]
    ensures Ledger(records + [r], groups.Delete(l), i) == Ledger(records, groups, i)
  {
    OwnersMore(records, r, i);
    TotalWithout(groups.keys, l, Holding(groups.vals, i));
    TotalSame(Without(groups.keys, l), Holding(groups.vals, i), Holding(groups.Delete(l).vals, i));
  }

  ghost predicate Rising(s: seq<nat>)
  {
    forall i, j :: 0 <= i < j < |s| ==> s[i] < s[j]
  }

  // ---------------------------------------------------------------- what a record consists of

  predicate IsPart(packets: seq<Captured>, i: nat)
  {
    i < |packets| && packets[i].seen.Ok? && packets[i].seen.value.Part?
  }

  /** The pieces carried by a list of packets, by fragment index. */
  function PiecesOf(packets: seq<Captured>, indices: seq<nat>): map<nat, seq<byte>>
  {
    if indices == [] then map[]
    else
      var before, i := PiecesOf(packets, indices[..|indices| - 1]), indices[|indices| - 1];
      if !IsPart(packets, i) then before
      else before[packets[i].seen.value.fragment.index := packets[i].seen.value.fragment.payload]
  }

  /** The packets of one message, in capture order: same key, and together exactly its fragments. */
  ghost predicate MessageOf(channel: string, packets: seq<Captured>, indices: seq<nat>, data: seq<byte>)
  {
    && indices != [] && (forall k :: 0 <= k < |indices| ==> IsPart(packets, indices[k]))
    && (forall k :: 0 <= k < |indices| ==>
          LocalOf(channel, packets[indices[k]].seen.value.fragment) == LocalOf(channel, packets[indices[0]].seen.value.fragment))
    && var n := packets[indices[|indices| - 1]].seen.value.fragment.count;
    && R.Complete(PiecesOf(packets, indices), n) && data == R.Assembled(PiecesOf(packets, indices), n)
  }

  ghost predicate RecordOk(channels: nat -> string, packets: seq<Captured>, r: HistoryRecord)
  {
    && r.indices != [] && Rising(r.indices)
    && (forall k :: 0 <= k < |r.indices| ==> r.indices[k] < |packets|)
    && (forall k :: 0 <= k < |r.indices| ==> packets[r.indices[k]].domain == packets[r.indices[0]].domain)
    && if r.whole then MessageOf(channels(packets[r.indices[0]].domain), packets, r.indices, r.data) else |r.indices| == 1
  }

  // ---------------------------------------------------------------- one push, as the decoder sees it

  function Prior(s: R.Assembly, key: R.Key): map<nat, seq<byte>>
  {
    if key in s.groups.vals then s.groups.vals[key].pieces else map[]
  }

  lemma SweepIdle(pol: R.Policy, s: R.Assembly, now: nat)
    requires R.Inv(pol, s) && now >= s.lastNow && forall k :: k in s.groups.vals ==> now < s.groups.vals[k].deadline
    ensures R.Swept(pol, s, now).groups.vals == s.groups.vals && R.Inv(pol, R.Swept(pol, s, now))
  {
    R.SweptEffect(pol, s, now);
    R.SweptInv(pol, s, now);
  }

  lemma {:induction false} NoneDue(groups: map<R.Key, R.Group>, keys: seq<R.Key>, now: nat)
    requires A.TimedOut(groups, keys, now) == []
    ensures forall k :: k in keys && k in groups ==> now < groups[k].deadline
  {
    if keys != [] {
      NoneDue(groups, keys[1..], now);
      assert keys == [keys[0]] + keys[1..];
    }
  }

  /** A fragment that is not refused adds its piece, and completes its group exactly with the last missing one. */
  ghost predicate Effect(s: R.Assembly, after: R.Assembly, r: R.Outcome, p: R.Piece, key: R.Key)
  {
    var pieces := Prior(s, key)[p.Index() := p.Bytes()];
    && (r.Pending? ==> key in after.groups.vals && after.groups.vals[key].pieces == pieces)
    && (r.Pending? ==> after.groups.vals - {key} == s.groups.vals - {key})
    && (r.Delivered? ==> R.Complete(pieces, p.Count()) && r.data == R.Assembled(pieces, p.Count()))
    && (r.Delivered? ==> after.groups.vals == s.groups.vals - {key})
  }

  lemma RoutedEffect(pol: R.Policy, live: R.Assembly, p: R.Piece, key: R.Key, reservation: nat, now: nat)
    requires R.Inv(pol, live) && R.PieceOk(p, reservation)
    ensures Effect(live, R.Routed(pol, live, p, key, reservation, now).0, R.Routed(pol, live, p, key, reservation, now).1, p, key)
  {
    hide R.Inv, R.Accounted, R.Stored, R.QuotaOk, R.Opened, R.Complete, R.Assembled, Total, Effect;
    A.Ready(pol, live, p, key, reservation, now);
    if key in live.groups.vals {
      StoredEffect(pol, live, p, key, reservation, now);
    } else {
      var o := R.Opened(pol, live, p, key, reservation, now);
      OpenedReserve(pol, live, p, key, reservation, now);
      StoredEffect(pol, o, p, key, reservation, now);
      OpenedEffect(pol, live, p, key, reservation, now, R.Stored(pol, o, p, key, reservation, now).0,
                   R.Stored(pol, o, p, key, reservation, now).1);
    }
    Refusals(live, p, key);
  }

  lemma OpenedReserve(pol: R.Policy, live: R.Assembly, p: R.Piece, key: R.Key, reservation: nat, now: nat)
    ensures R.Opened(pol, live, p, key, reservation, now).reserved >= reservation
  {
  }

  lemma Refusals(live: R.Assembly, p: R.Piece, key: R.Key)
    ensures forall code :: Effect(live, live, R.Rejected(code), p, key)
  {
    hide R.Complete, R.Assembled;
  }

  lemma OpenedEffect(pol: R.Policy, live: R.Assembly, p: R.Piece, key: R.Key, reservation: nat, now: nat, after: R.Assembly, r: R.Outcome)
    requires key !in live.groups.vals && Effect(R.Opened(pol, live, p, key, reservation, now), after, r, p, key)
    ensures Effect(live, after, r, p, key)
  {
    hide R.Complete, R.Assembled;
    var o := R.Opened(pol, live, p, key, reservation, now);
    assert o.groups.vals - {key} == live.groups.vals - {key};
    assert Prior(o, key) == Prior(live, key);
  }

  lemma StoredEffect(pol: R.Policy, s: R.Assembly, p: R.Piece, key: R.Key, reservation: nat, now: nat)
    requires key in s.groups.vals && s.groups.vals[key].reserved <= s.reserved && p.Index() < p.Count()
    requires forall i :: i in s.groups.vals[key].pieces ==> i < s.groups.vals[key].first.Count()
    ensures Effect(s, R.Stored(pol, s, p, key, reservation, now).0, R.Stored(pol, s, p, key, reservation, now).1, p, key)
  {
    var g := s.groups.vals[key];
    var pieces := g.pieces[p.Index() := p.Bytes()];
    if g.first.SameHeader(p) && g.first.Count() == p.Count() {
      R.FullMap(pieces, p.Count());
      if p.Index() in g.pieces && g.pieces[p.Index()] == p.Bytes() {
        assert pieces == g.pieces;
      }
    }
  }

  // ---------------------------------------------------------------- one clock domain

  /** The decoder's groups and the reassembler's are the same groups, under corresponding keys, with the same pieces. */
  ghost predicate Tied(pol: R.Policy, channel: string, packets: seq<Captured>, groups: map<Local, seq<nat>>, live: map<R.Key, R.Group>)
  {
    && (forall l :: l in groups ==> l.channel == channel && Rekey(pol, l) in live)
    && (forall k :: k in live ==> exists l :: l in groups && k == Rekey(pol, l))
    && (forall l :: l in groups ==> GroupOk(channel, packets, l, groups[l]))
    && (forall l :: l in groups ==> live[Rekey(pol, l)].pieces == PiecesOf(packets, groups[l]))
  }

  ghost predicate GroupOk(channel: string, packets: seq<Captured>, l: Local, indices: seq<nat>)
  {
    && indices != [] && Rising(indices) && (forall k :: 0 <= k < |indices| ==> IsPart(packets, indices[k]))
    && forall k :: 0 <= k < |indices| ==> LocalOf(channel, packets[indices[k]].seen.value.fragment) == l
  }

  lemma RekeyInjective(pol: R.Policy, a: Local, b: Local)
    requires Rekey(pol, a) == Rekey(pol, b)
    ensures a == b
  {
  }

  /** An admitted fragment of this channel goes to the group its local key names. */
  lemma AdmittedKey(pol: R.Policy, channel: string, f: Fragment)
    requires R.Admitted(pol, R.Business(f), channel, f.direction, true, None).Ok?
    ensures R.Admitted(pol, R.Business(f), channel, f.direction, true, None).value.0 == Rekey(pol, LocalOf(channel, f))
  {
    hide EntryFor, CheckedFragment;
  }

  function Grown(groups: map<Local, seq<nat>>, l: Local, i: nat): seq<nat>
  {
    (if l in groups then groups[l] else []) + [i]
  }

  lemma GrownOk(channel: string, packets: seq<Captured>, groups: map<Local, seq<nat>>, i: nat)
    requires IsPart(packets, i)
    requires var l := LocalOf(channel, packets[i].seen.value.fragment);
      l in groups ==> GroupOk(channel, packets, l, groups[l]) && forall x :: x in groups[l] ==> x < i
    ensures var f := packets[i].seen.value.fragment;
      var l := LocalOf(channel, f);
      && GroupOk(channel, packets, l, Grown(groups, l, i))
      && PiecesOf(packets, Grown(groups, l, i))
           == (if l in groups then PiecesOf(packets, groups[l]) else map[])[f.index := f.payload]
  {
    var l := LocalOf(channel, packets[i].seen.value.fragment);
    var before := if l in groups then groups[l] else [];
    assert (before + [i])[..|before|] == before;
    if l in groups {
      assert forall k :: 0 <= k < |before| ==> before[k] in before;
    }
  }

  lemma TiedPending(pol: R.Policy, channel: string, packets: seq<Captured>, groups: map<Local, seq<nat>>, live: map<R.Key, R.Group>,
                    after: map<R.Key, R.Group>, i: nat)
    requires Tied(pol, channel, packets, groups, live) && IsPart(packets, i)
    requires var l := LocalOf(channel, packets[i].seen.value.fragment);
      var key := Rekey(pol, l);
      && GroupOk(channel, packets, l, Grown(groups, l, i))
      && key in after && after - {key} == live - {key} && after[key].pieces == PiecesOf(packets, Grown(groups, l, i))
    ensures var l := LocalOf(channel, packets[i].seen.value.fragment);
      Tied(pol, channel, packets, groups[l := Grown(groups, l, i)], after)
  {
    hide GroupOk, PiecesOf, Rekey, Grown;
    var l := LocalOf(channel, packets[i].seen.value.fragment);
    var key, groups' := Rekey(pol, l), groups[l := Grown(groups, l, i)];
    Others(live, after, key);
    forall x | x in groups' ensures x.channel == channel && Rekey(pol, x) in after && GroupOk(channel, packets, x, groups'[x])
      && after[Rekey(pol, x)].pieces == PiecesOf(packets, groups'[x])
    {
      if x != l && Rekey(pol, x) == key {
        RekeyInjective(pol, x, l);
      }
    }
    forall k | k in after ensures exists x :: x in groups' && k == Rekey(pol, x) {
      if k != key {
        var x :| x in groups && k == Rekey(pol, x);
        assert x in groups';
      } else {
        assert l in groups';
      }
    }
  }

  lemma Others(live: map<R.Key, R.Group>, after: map<R.Key, R.Group>, key: R.Key)
    requires after - {key} == live - {key}
    ensures forall k :: k != key ==> (k in after <==> k in live)
    ensures forall k :: k != key && k in live ==> after[k] == live[k]
  {
    forall k | k != key ensures k in after <==> k in live {
      assert k in after - {key} <==> k in live - {key};
    }
    forall k | k != key && k in live ensures after[k] == live[k] {
      assert (after - {key})[k] == (live - {key})[k];
    }
  }

  lemma TiedDelivered(pol: R.Policy, channel: string, packets: seq<Captured>, groups: map<Local, seq<nat>>, live: map<R.Key, R.Group>,
                      l: Local)
    requires Tied(pol, channel, packets, groups, live)
    ensures Tied(pol, channel, packets, groups - {l}, live - {Rekey(pol, l)})
  {
    hide GroupOk, PiecesOf, Rekey;
    var groups', after := groups - {l}, live - {Rekey(pol, l)};
    forall x | x in groups' ensures x.channel == channel && Rekey(pol, x) in after && GroupOk(channel, packets, x, groups'[x])
      && after[Rekey(pol, x)].pieces == PiecesOf(packets, groups'[x])
    {
      if Rekey(pol, x) == Rekey(pol, l) {
        RekeyInjective(pol, x, l);
      }
    }
    forall k | k in after ensures exists x :: x in groups' && k == Rekey(pol, x) {
      var x :| x in groups && k == Rekey(pol, x);
      assert x in groups';
    }
  }

  lemma EffectSame(s: R.Assembly, s': R.Assembly, after: R.Assembly, r: R.Outcome, p: R.Piece, key: R.Key)
    requires Effect(s', after, r, p, key) && s'.groups.vals == s.groups.vals
    ensures Effect(s, after, r, p, key)
  {
    hide R.Complete, R.Assembled;
  }

  /** A push at the time of the sweep before it meets nothing overdue. */
  lemma PushedEffect(pol: R.Policy, channel: string, s: R.Assembly, f: Fragment, now: nat)
    requires R.Inv(pol, s) && s.lastNow == now
    requires var admitted := R.Admitted(pol, R.Business(f), channel, f.direction, true, None);
      admitted.Ok? && R.PieceOk(R.Business(f), admitted.value.1)
    ensures var admitted := R.Admitted(pol, R.Business(f), channel, f.direction, true, None);
      var (after, r) := R.PushAt(pol, s, R.Business(f), admitted.value.0, admitted.value.1, now);
      Effect(s, after, r, R.Business(f), Rekey(pol, LocalOf(channel, f)))
  {
    hide R.Admitted, R.Routed, R.Swept, Effect, R.PieceOk, Rekey, LocalOf, R.Accounted, Total;
    var admitted := R.Admitted(pol, R.Business(f), channel, f.direction, true, None);
    AdmittedKey(pol, channel, f);
    SweepIdle(pol, s, now);
    var live := R.Swept(pol, s, now);
    RoutedEffect(pol, live, R.Business(f), admitted.value.0, admitted.value.1, now);
    EffectSame(s, live, R.Routed(pol, live, R.Business(f), admitted.value.0, admitted.value.1, now).0,
               R.Routed(pol, live, R.Business(f), admitted.value.0, admitted.value.1, now).1, R.Business(f),
               Rekey(pol, LocalOf(channel, f)));
  }

  /** After a push the two sets of groups are in step again, or the group is a whole message and gone from both. */
  ghost predicate Fed(pol: R.Policy, channel: string, packets: seq<Captured>, groups: map<Local, seq<nat>>, i: nat,
                      after: map<R.Key, R.Group>, r: R.Outcome)
    requires IsPart(packets, i)
  {
    var l := LocalOf(channel, packets[i].seen.value.fragment);
    && (!r.Rejected? ==> GroupOk(channel, packets, l, Grown(groups, l, i)))
    && (r.Pending? ==> Tied(pol, channel, packets, groups[l := Grown(groups, l, i)], after))
    && (r.Delivered? ==> Tied(pol, channel, packets, groups - {l}, after))
    && (r.Delivered? ==> MessageOf(channel, packets, Grown(groups, l, i), r.data))
  }

  lemma TiedMember(pol: R.Policy, channel: string, packets: seq<Captured>, groups: map<Local, seq<nat>>, s: R.Assembly, l: Local)
    requires Tied(pol, channel, packets, groups, s.groups.vals)
    ensures l in groups ==> GroupOk(channel, packets, l, groups[l])
    ensures Prior(s, Rekey(pol, l)) == if l in groups then PiecesOf(packets, groups[l]) else map[]
  {
    hide GroupOk, PiecesOf, Rekey;
    if l !in groups && Rekey(pol, l) in s.groups.vals {
      var x :| x in groups && Rekey(pol, l) == Rekey(pol, x);
      RekeyInjective(pol, x, l);
    }
  }

  lemma StillTied(pol: R.Policy, channel: string, packets: seq<Captured>, groups: map<Local, seq<nat>>, s: R.Assembly, after: R.Assembly,
                  i: nat, r: R.Outcome)
    requires IsPart(packets, i) && Tied(pol, channel, packets, groups, s.groups.vals)
    requires forall l :: l in groups ==> forall x :: x in groups[l] ==> x < i
    requires var f := packets[i].seen.value.fragment;
      Effect(s, after, r, R.Business(f), Rekey(pol, LocalOf(channel, f)))
    ensures Fed(pol, channel, packets, groups, i, after.groups.vals, r)
  {
    hide GroupOk, PiecesOf, Rekey, LocalOf, Tied, R.Complete, R.Assembled, Grown, MessageOf;
    var f := packets[i].seen.value.fragment;
    var l := LocalOf(channel, f);
    TiedMember(pol, channel, packets, groups, s, l);
    GrownOk(channel, packets, groups, i);
    if r.Pending? {
      TiedPending(pol, channel, packets, groups, s.groups.vals, after.groups.vals, i);
    } else if r.Delivered? {
      TiedDelivered(pol, channel, packets, groups, s.groups.vals, l);
      GrownMessage(channel, packets, groups, i, r.data);
    }
  }

  lemma GrownMessage(channel: string, packets: seq<Captured>, groups: map<Local, seq<nat>>, i: nat, data: seq<byte>)
    requires IsPart(packets, i)
    requires var f := packets[i].seen.value.fragment;
      var indices := Grown(groups, LocalOf(channel, f), i);
      && GroupOk(channel, packets, LocalOf(channel, f), indices)
      && R.Complete(PiecesOf(packets, indices), f.count) && data == R.Assembled(PiecesOf(packets, indices), f.count)
    ensures MessageOf(channel, packets, Grown(groups, LocalOf(channel, packets[i].seen.value.fragment), i), data)
  {
    hide PiecesOf, R.Complete, R.Assembled, LocalOf;
    var indices := Grown(groups, LocalOf(channel, packets[i].seen.value.fragment), i);
    assert indices[|indices| - 1] == i;
  }

  /** Pushes the fragment of packet i. */
  method Feed(assembler: A.Reassembler, channel: string, packets: seq<Captured>, ghost groups: map<Local, seq<nat>>, i: nat)
      returns (r: R.Outcome)
    requires assembler.Valid() && IsPart(packets, i) && assembler.lastNow == packets[i].at
    requires Tied(assembler.pol, channel, packets, groups, assembler.groups.vals)
    requires forall l :: l in groups ==> forall x :: x in groups[l] ==> x < i
    modifies assembler
    ensures assembler.Valid() && Fed(assembler.pol, channel, packets, groups, i, assembler.groups.vals, r)
  {
    hide R.Inv, R.Admitted, R.PieceOk, R.PushAt, Tied, Effect, Fed, Rekey, LocalOf;
    ghost var before := assembler.Abstract();
    var f := packets[i].seen.value.fragment;
    r := assembler.Push(R.Business(f), channel, f.direction, true, packets[i].at, None);
    if R.Admitted(assembler.pol, R.Business(f), channel, f.direction, true, None).Ok? {
      PushedEffect(assembler.pol, channel, before, f, packets[i].at);
      StillTied(assembler.pol, channel, packets, groups, before, assembler.Abstract(), i, r);
    } else {
      NotFed(assembler.pol, channel, packets, groups, i, assembler.groups.vals, r);
    }
  }

  lemma NotFed(pol: R.Policy, channel: string, packets: seq<Captured>, groups: map<Local, seq<nat>>, i: nat,
               after: map<R.Key, R.Group>, r: R.Outcome)
    requires IsPart(packets, i) && r.Rejected?
    ensures Fed(pol, channel, packets, groups, i, after, r)
  {
  }

  /** Every packet handled so far is in one record or one group under way; every earlier record is untouched. */
  ghost predicate Accounted(base: seq<HistoryRecord>, records: seq<HistoryRecord>, groups: Groups, done: seq<nat>)
  {
    && groups.Valid() && base <= records
    && (forall i: nat :: Ledger(records, groups, i) == Owners(base, i) + (if i in done then 1 else 0))
    && forall l :: l in groups.vals ==> forall x :: x in groups.vals[l] ==> x in done
  }

  lemma AccountedStart(base: seq<HistoryRecord>)
    ensures Accounted(base, base, Empty<Local, seq<nat>>(), [])
  {
  }

  lemma {:induction false} HoldingNone(keys: seq<Local>, i: nat)
    ensures Total(keys, Holding(map[], i)) == 0
  {
    if keys != [] {
      HoldingNone(keys[1..], i);
    }
  }

  lemma AccountedEnd(base: seq<HistoryRecord>, records: seq<HistoryRecord>, groups: Groups, done: seq<nat>)
    requires Accounted(base, records, groups, done) && groups.vals == map[]
    ensures base <= records && forall i: nat :: Owners(records, i) == Owners(base, i) + (if i in done then 1 else 0)
  {
    forall i: nat ensures Owners(records, i) == Owners(base, i) + (if i in done then 1 else 0) {
      HoldingNone(groups.keys, i);
      assert Ledger(records, groups, i) == Owners(records, i);
    }
  }

  lemma AccountedGrows(base: seq<HistoryRecord>, records: seq<HistoryRecord>, groups: Groups, done: seq<nat>,
                       l: Local, x: nat)
    requires Accounted(base, records, groups, done) && x !in done
    ensures Accounted(base, records, groups.Put(l, Grown(groups.vals, l, x)), done + [x])
  {
    hide Owners, Total, Ledger;
    var groups' := groups.Put(l, Grown(groups.vals, l, x));
    forall i: nat ensures Ledger(records, groups', i) == Owners(base, i) + (if i in done + [x] then 1 else 0) {
      LedgerGrows(records, groups, l, x, i);
    }
  }

  lemma AccountedMoves(base: seq<HistoryRecord>, records: seq<HistoryRecord>, groups: Groups, done: seq<nat>,
                       l: Local, r: HistoryRecord)
    requires Accounted(base, records, groups, done) && l in groups.vals && r.indices == groups.vals[l]
    ensures Accounted(base, records + [r], groups.Delete(l), done)
  {
    hide Owners, Total, Ledger;
    forall i: nat ensures Ledger(records + [r], groups.Delete(l), i) == Owners(base, i) + (if i in done then 1 else 0) {
      LedgerMoves(records, groups, l, r, i);
    }
  }

  lemma AccountedSingle(base: seq<HistoryRecord>, records: seq<HistoryRecord>, groups: Groups, done: seq<nat>,
                        r: HistoryRecord, x: nat)
    requires Accounted(base, records, groups, done) && x !in done && r.indices == [x]
    ensures Accounted(base, records + [r], groups, done + [x])
  {
    hide Owners, Total;
    forall i: nat ensures Ledger(records + [r], groups, i) == Owners(base, i) + (if i in done + [x] then 1 else 0) {
      OwnersMore(records, r, i);
      assert Ledger(records, groups, i) == Owners(base, i) + (if i in done then 1 else 0);
    }
  }

  /** Everything a domain's walk needs between two packets. */
  ghost predicate Walking(assembler: A.Reassembler, channel: string, packets: seq<Captured>, groups: Groups)
    reads assembler
  {
    assembler.Valid() && Tied(assembler.pol, channel, packets, groups.vals, assembler.groups.vals)
  }

  lemma StartWalking(assembler: A.Reassembler, channel: string, packets: seq<Captured>)
    requires assembler.Valid() && assembler.groups == Empty()
    ensures Walking(assembler, channel, packets, Empty())
  {
    hide R.Inv, GroupOk, PiecesOf;
  }

  /** The sweep before a packet: any group overdue by then refuses the whole capture. */
  method SweepBefore(assembler: A.Reassembler, channel: string, packets: seq<Captured>, ghost groups: Groups, now: nat)
      returns (ok: Result<()>)
    requires Walking(assembler, channel, packets, groups)
    modifies assembler
    ensures assembler.Valid()
    ensures ok.Ok? ==> Walking(assembler, channel, packets, groups) && assembler.lastNow == now
  {
    hide R.Inv, Tied, R.Swept, A.TimedOut;
    ghost var before := assembler.Abstract();
    var expired := assembler.Expire(now);
    if expired.Err? {
      return Err(expired.code);
    }
    if expired.value != [] {
      return Err(Timeout);
    }
    A.KeysDistinct(before) by { Sorted(assembler.pol, before); }
    NoneDue(before.groups.vals, before.groups.keys, now);
    SweepIdle(assembler.pol, before, now);
    return Ok(());
  }

  lemma Sorted(pol: R.Policy, s: R.Assembly)
    requires R.Inv(pol, s)
    ensures R.Accounted(s)
  {
  }

  lemma EarlierOnly(base: seq<HistoryRecord>, records: seq<HistoryRecord>, groups: Groups, indices: seq<nat>, j: nat)
    requires j < |indices| && Rising(indices) && Accounted(base, records, groups, indices[..j])
    ensures indices[j] !in indices[..j]
    ensures forall l :: l in groups.vals ==> forall x :: x in groups.vals[l] ==> x < indices[j]
  {
    hide Ledger, Owners;
  }

  lemma GroupWithin(base: seq<HistoryRecord>, records: seq<HistoryRecord>, groups: Groups, done: seq<nat>, l: Local)
    requires Accounted(base, records, groups, done) && l in groups.vals
    ensures forall x :: x in groups.vals[l] ==> x in done
  {
    hide Ledger, Owners;
  }

  lemma PutDelete(groups: Groups, l: Local, grown: seq<nat>)
    ensures groups.Put(l, grown).vals == groups.vals[l := grown]
    ensures groups.Put(l, grown).Delete(l).vals == groups.vals - {l}
  {
  }

  lemma FedParts(pol: R.Policy, channel: string, packets: seq<Captured>, groups: map<Local, seq<nat>>, i: nat,
                 after: map<R.Key, R.Group>, r: R.Outcome)
    requires IsPart(packets, i) && Fed(pol, channel, packets, groups, i, after, r)
    ensures var l := LocalOf(channel, packets[i].seen.value.fragment);
      && (!r.Rejected? ==> Grown(groups, l, i) != [] && Rising(Grown(groups, l, i)))
      && (r.Pending? ==> Tied(pol, channel, packets, groups[l := Grown(groups, l, i)], after))
      && (r.Delivered? ==> Tied(pol, channel, packets, groups - {l}, after))
      && (r.Delivered? ==> MessageOf(channel, packets, Grown(groups, l, i), r.data))
  {
    hide Tied, MessageOf, Grown, LocalOf, Rising;
  }

  lemma RecordFits(channels: nat -> string, domain: nat, packets: seq<Captured>, indices: seq<nat>, r: HistoryRecord)
    requires forall k :: 0 <= k < |indices| ==> indices[k] < |packets| && packets[indices[k]].domain == domain
    requires r.indices != [] && forall x :: x in r.indices ==> x in indices
    requires if r.whole then Rising(r.indices) && MessageOf(channels(domain), packets, r.indices, r.data) else |r.indices| == 1
    ensures RecordOk(channels, packets, r)
  {
    hide MessageOf;
    assert forall k :: 0 <= k < |r.indices| ==> r.indices[k] in r.indices;
  }

  lemma NoneLeft(base: seq<HistoryRecord>, records: seq<HistoryRecord>, groups: Groups, done: seq<nat>)
    requires Accounted(base, records, groups, done) && groups.Size() == 0
    ensures groups.vals == map[]
  {
    hide Ledger, Owners;
  }

  /** Decodes the packets of one clock domain, given in capture order; nothing may be left incomplete. */
  method DecodeDomain(pol: R.Policy, channels: nat -> string, domain: nat, packets: seq<Captured>, indices: seq<nat>,
                      base: seq<HistoryRecord>, maxRecords: nat, accept: (seq<nat>, seq<byte>) -> Result<()>)
      returns (r: Result<seq<HistoryRecord>>)
    requires pol.Valid() && !pol.retainCompleted && Rising(indices) && |base| <= maxRecords
    requires forall k :: 0 <= k < |indices| ==> indices[k] < |packets| && packets[indices[k]].domain == domain
    requires forall k :: 0 <= k < |base| ==> RecordOk(channels, packets, base[k])
    ensures r.Ok? ==> base <= r.value && |r.value| <= maxRecords
    ensures r.Ok? ==> forall i: nat :: Owners(r.value, i) == Owners(base, i) + (if i in indices then 1 else 0)
    ensures r.Ok? ==> forall k :: 0 <= k < |r.value| ==> RecordOk(channels, packets, r.value[k])
  {
    hide R.Inv, Tied, Fed, Accounted, MessageOf, Owners, R.Swept, Rekey, PiecesOf, Grown, OrderedDict.Put, OrderedDict.Delete;
    var channel := channels(domain);
    var assembler := new A.Reassembler(pol);
    var groups: Groups, records := Empty(), base;
    StartWalking(assembler, channel, packets);
    AccountedStart(base);
    for j := 0 to |indices|
      invariant Walking(assembler, channel, packets, groups) && fresh(assembler)
      invariant Accounted(base, records, groups, indices[..j]) && |records| <= maxRecords
      invariant forall k :: 0 <= k < |records| ==> RecordOk(channels, packets, records[k])
    {
      var i := indices[j];
      assert indices[..j + 1] == indices[..j] + [i];
      EarlierOnly(base, records, groups, indices, j);
      if packets[i].seen.Err? {
        return Err(packets[i].seen.code);
      }
      var swept := SweepBefore(assembler, channel, packets, groups, packets[i].at);
      if swept.Err? {
        return Err(swept.code);
      }
      var record;
      match packets[i].seen.value {
        case Auxiliary(payload, _) =>
          record := HistoryRecord([i], false, payload);
          AccountedSingle(base, records, groups, indices[..j], record, i);
        case Part(f) =>
          var l := LocalOf(channel, f);
          var grown := Grown(groups.vals, l, i);
          AccountedGrows(base, records, groups, indices[..j], l, i);
          PutDelete(groups, l, grown);
          var pushed := Feed(assembler, channel, packets, groups.vals, i);
          FedParts(assembler.pol, channel, packets, groups.vals, i, assembler.groups.vals, pushed);
          groups := groups.Put(l, grown);
          if pushed.Rejected? {
            return Err(pushed.code);
          }
          if pushed.Pending? {
            continue;
          }
          record := HistoryRecord(grown, true, pushed.data);
          GroupWithin(base, records, groups, indices[..j + 1], l);
          AccountedMoves(base, records, groups, indices[..j + 1], l, record);
          groups := groups.Delete(l);
      }
      var accepted := accept(record.indices, record.data);
      if accepted.Err? {
        return Err(accepted.code);
      }
      if |records| >= maxRecords {
        return Err(Capacity);
      }
      RecordFits(channels, domain, packets, indices, record);
      records := records + [record];
    }
    assert indices[..|indices|] == indices;
    if assembler.groups.Size() != 0 || groups.Size() != 0 {
      return Err(Fragmentation);
    }
    NoneLeft(base, records, groups, indices);
    AccountedEnd(base, records, groups, indices);
    return Ok(records);
  }

  // ---------------------------------------------------------------- the whole capture

  /** The packets of each domain, in capture order. */
  ghost predicate ByDomain(packets: seq<Captured>, n: nat, lists: OrderedDict<nat, seq<nat>>)
    requires n <= |packets|
  {
    && lists.Valid()
    && (forall d :: d in lists.vals ==> Rising(lists.vals[d]))
    && (forall d :: d in lists.vals ==> forall x :: x in lists.vals[d] ==> x < n && packets[x].domain == d)
    && forall x: nat :: x < n ==> packets[x].domain in lists.vals && x in lists.vals[packets[x].domain]
  }

  /** Capture time never precedes its epoch nor goes back within a domain. */
  ghost predicate InTime(packets: seq<Captured>, epoch: nat -> nat, n: nat)
    requires n <= |packets|
  {
    && (forall i :: 0 <= i < n ==> epoch(packets[i].domain) <= packets[i].at)
    && forall i, j :: 0 <= i < j < n && packets[i].domain == packets[j].domain ==> packets[i].at <= packets[j].at
  }

  /** The latest time seen in each domain. */
  ghost predicate Latest(packets: seq<Captured>, n: nat, previous: map<nat, nat>)
    requires n <= |packets|
  {
    && (forall d :: d in previous ==> exists j :: 0 <= j < n && packets[j].domain == d && packets[j].at == previous[d])
    && forall j :: 0 <= j < n ==> packets[j].domain in previous && packets[j].at <= previous[packets[j].domain]
  }

  lemma LatestGrows(packets: seq<Captured>, i: nat, previous: map<nat, nat>)
    requires i < |packets| && Latest(packets, i, previous)
    requires packets[i].domain in previous ==> packets[i].at >= previous[packets[i].domain]
    ensures Latest(packets, i + 1, previous[packets[i].domain := packets[i].at])
  {
    var d, at := packets[i].domain, packets[i].at;
    var after := previous[d := at];
    forall x | x in after ensures exists j :: 0 <= j < i + 1 && packets[j].domain == x && packets[j].at == after[x] {
      if x == d {
        assert packets[i].domain == x;
      } else {
        var j :| 0 <= j < i && packets[j].domain == x && packets[j].at == previous[x];
      }
    }
  }

  /** A packet is in time exactly when it is not before its epoch nor before the latest of its domain. */
  lemma TimeGrows(packets: seq<Captured>, epoch: nat -> nat, i: nat, previous: map<nat, nat>)
    requires i < |packets| && Latest(packets, i, previous) && InTime(packets, epoch, i)
    ensures var d, at := packets[i].domain, packets[i].at;
      InTime(packets, epoch, i + 1) <==> at >= epoch(d) && (d in previous ==> at >= previous[d])
  {
    var d, at := packets[i].domain, packets[i].at;
    if d in previous {
      var j :| 0 <= j < i && packets[j].domain == d && packets[j].at == previous[d];
    }
  }

  lemma TimeShorter(packets: seq<Captured>, epoch: nat -> nat, n: nat)
    requires n <= |packets|
    ensures InTime(packets, epoch, |packets|) ==> InTime(packets, epoch, n)
  {
  }

  lemma DomainsGrow(packets: seq<Captured>, i: nat, lists: OrderedDict<nat, seq<nat>>)
    requires i < |packets| && ByDomain(packets, i, lists)
    ensures var d := packets[i].domain;
      ByDomain(packets, i + 1, lists.Put(d, (if d in lists.vals then lists.vals[d] else []) + [i]))
  {
    var d := packets[i].domain;
    var list := (if d in lists.vals then lists.vals[d] else []) + [i];
    var after := lists.Put(d, list);
    assert after.Valid();
    hide OrderedDict.Valid;
    assert forall k :: 0 <= k < |list| - 1 ==> list[k] in lists.vals[d];
    forall x: nat | x < i + 1 ensures packets[x].domain in after.vals && x in after.vals[packets[x].domain] {
      if x == i {
        assert list[|list| - 1] == x;
      }
    }
  }

  method SplitDomains(packets: seq<Captured>, epoch: nat -> nat) returns (r: Result<OrderedDict<nat, seq<nat>>>)
    ensures r.Ok? <==> InTime(packets, epoch, |packets|)
    ensures r.Ok? ==> ByDomain(packets, |packets|, r.value)
  {
    var lists: OrderedDict<nat, seq<nat>>, previous: map<nat, nat> := Empty(), map[];
    for i := 0 to |packets|
      invariant ByDomain(packets, i, lists) && InTime(packets, epoch, i) && Latest(packets, i, previous)
    {
      hide ByDomain, InTime, Latest, OrderedDict.Put;
      var d, at := packets[i].domain, packets[i].at;
      TimeGrows(packets, epoch, i, previous);
      DomainsGrow(packets, i, lists);
      if at < epoch(d) || (d in previous && at < previous[d]) {
        TimeShorter(packets, epoch, i + 1);
        return Err(ClockUnsync);
      }
      LatestGrows(packets, i, previous);
      previous := previous[d := at];
      lists := lists.Put(d, (if d in lists.vals then lists.vals[d] else []) + [i]);
    }
    return Ok(lists);
  }

  lemma {:induction false} OwnersSplit(a: seq<HistoryRecord>, b: seq<HistoryRecord>, i: nat)
    ensures Owners(a + b, i) == Owners(a, i) + Owners(b, i)
  {
    if b == [] {
      assert a + b == a;
    } else {
      OwnersSplit(a, b[..|b| - 1], i);
      assert (a + b)[..|a + b| - 1] == a + b[..|b| - 1];
    }
  }

  lemma {:induction false} OwnersMember(records: seq<HistoryRecord>, k: nat, i: nat)
    requires k < |records| && i in records[k].indices
    ensures Owners(records, i) >= 1
  {
    if k < |records| - 1 {
      OwnersMember(records[..|records| - 1], k, i);
    }
  }

  /** A packet counted at most once is not in two records. */
  lemma OwnersApart(records: seq<HistoryRecord>, j: nat, k: nat, i: nat)
    requires j < k < |records| && i in records[j].indices && Owners(records, i) <= 1
    ensures i !in records[k].indices
  {
    var a, b := records[..k], records[k..];
    assert a + b == records;
    OwnersSplit(a, b, i);
    OwnersMember(a, j, i);
    if i in records[k].indices {
      OwnersMember(b, 0, i);
      assert false;
    }
  }

  ghost predicate ByFirst(records: seq<HistoryRecord>)
  {
    && (forall k :: 0 <= k < |records| ==> records[k].indices != [])
    && forall j, k :: 0 <= j < k < |records| ==> records[j].indices[0] <= records[k].indices[0]
  }

  /** Puts the records in the order of their first packets. */
  method SortRecords(records: seq<HistoryRecord>) returns (r: seq<HistoryRecord>)
    requires forall k :: 0 <= k < |records| ==> records[k].indices != []
    ensures |r| == |records| && ByFirst(r) && forall i: nat :: Owners(r, i) == Owners(records, i)
    ensures forall k :: 0 <= k < |r| ==> r[k] in records
  {
    hide Owners;
    r := [];
    NoOwners();
    for n := 0 to |records|
      invariant |r| == n && ByFirst(r) && forall i: nat :: Owners(r, i) == Owners(records[..n], i)
      invariant forall k :: 0 <= k < |r| ==> r[k] in records
    {
      var x, at := records[n], 0;
      while at < |r| && r[at].indices[0] <= x.indices[0]
        invariant at <= |r| && forall k :: 0 <= k < at ==> r[k].indices[0] <= x.indices[0]
      {
        at := at + 1;
      }
      ghost var was := r;
      r := r[..at] + [x] + r[at..];
      assert records[..n + 1] == records[..n] + [x];
      forall i: nat ensures Owners(r, i) == Owners(records[..n + 1], i) {
        OwnersInserted(was, at, x, i);
        OwnersMore(records[..n], x, i);
      }
    }
    assert records[..|records|] == records;
  }

  lemma NoOwners()
    ensures forall i: nat :: Owners([], i) == 0
  {
  }

  lemma OwnersInserted(r: seq<HistoryRecord>, at: nat, x: HistoryRecord, i: nat)
    requires at <= |r|
    ensures Owners(r[..at] + [x] + r[at..], i) == Owners(r, i) + (if i in x.indices then 1 else 0)
  {
    OwnersSplit(r[..at] + [x], r[at..], i);
    OwnersMore(r[..at], x, i);
    OwnersSplit(r[..at], r[at..], i);
    assert r[..at] + r[at..] == r;
  }

  /** Every packet is in exactly one record, and records come in the order of their first packets. */
  ghost predicate Decoded(channels: nat -> string, packets: seq<Captured>, records: seq<HistoryRecord>)
  {
    && (forall i: nat :: Owners(records, i) == if i < |packets| then 1 else 0)
    && (forall k :: 0 <= k < |records| ==> RecordOk(channels, packets, records[k]))
    && forall j, k :: 0 <= j < k < |records| ==> records[j].indices[0] < records[k].indices[0]
  }

  lemma DomainStep(packets: seq<Captured>, lists: OrderedDict<nat, seq<nat>>, d: nat)
    requires ByDomain(packets, |packets|, lists) && d in lists.vals
    ensures Rising(lists.vals[d]) && forall x: nat :: x in lists.vals[d] <==> x < |packets| && packets[x].domain == d
    ensures forall k :: 0 <= k < |lists.vals[d]| ==> lists.vals[d][k] < |packets| && packets[lists.vals[d][k]].domain == d
  {
    assert forall k :: 0 <= k < |lists.vals[d]| ==> lists.vals[d][k] in lists.vals[d];
  }

  /** Decodes a capture domain by domain. */
  method Decode(policy: R.Policy, channels: nat -> string, packets: seq<Captured>, epoch: nat -> nat, maxRecords: nat,
                accept: (seq<nat>, seq<byte>) -> Result<()>)
      returns (r: Result<seq<HistoryRecord>>)
    requires policy.Valid()
    ensures r.Ok? ==> Decoded(channels, packets, r.value) && 0 < |r.value| <= maxRecords && InTime(packets, epoch, |packets|)
  {
    hide R.Policy.Valid, RecordOk, Owners, Rising, InTime;
    var split := SplitDomains(packets, epoch);
    if split.Err? {
      return Err(split.code);
    }
    var lists := split.value;
    var pol := policy.(retainCompleted := false);
    SameValid(policy);
    var records: seq<HistoryRecord> := [];
    NoOwners();
    for j := 0 to |lists.keys|
      invariant |records| <= maxRecords
      invariant forall i: nat :: Owners(records, i) == if i < |packets| && packets[i].domain in lists.keys[..j] then 1 else 0
      invariant forall k :: 0 <= k < |records| ==> RecordOk(channels, packets, records[k])
    {
      var d := lists.keys[j];
      assert lists.keys[..j + 1] == lists.keys[..j] + [d] && d in lists.keys && d !in lists.keys[..j];
      DomainStep(packets, lists, d);
      var decoded := DecodeDomain(pol, channels, d, packets, lists.vals[d], records, maxRecords, accept);
      if decoded.Err? {
        return decoded;
      }
      records := decoded.value;
    }
    assert lists.keys[..|lists.keys|] == lists.keys;
    if records == [] {
      return Err(Resource);
    }
    RecordsBegin(channels, packets, records);
    var sorted := SortRecords(records);
    Strict(packets, sorted);
    return Ok(sorted);
  }

  lemma SameValid(pol: R.Policy)
    requires pol.Valid()
    ensures pol.(retainCompleted := false).Valid()
  {
  }

  lemma RecordsBegin(channels: nat -> string, packets: seq<Captured>, records: seq<HistoryRecord>)
    requires forall k :: 0 <= k < |records| ==> RecordOk(channels, packets, records[k])
    ensures forall k :: 0 <= k < |records| ==> records[k].indices != []
  {
  }

  lemma Strict(packets: seq<Captured>, records: seq<HistoryRecord>)
    requires ByFirst(records) && forall i: nat :: Owners(records, i) <= 1
    ensures forall j, k :: 0 <= j < k < |records| ==> records[j].indices[0] < records[k].indices[0]
  {
    hide Owners;
    forall j, k | 0 <= j < k < |records| ensures records[j].indices[0] < records[k].indices[0] {
      OwnersApart(records, j, k, records[j].indices[0]);
      assert records[k].indices[0] in records[k].indices;
    }
  }

  /** In a decoded capture no packet is left out, and none is in two records. */
  lemma Partitioned(channels: nat -> string, packets: seq<Captured>, records: seq<HistoryRecord>, i: nat)
    requires Decoded(channels, packets, records) && i < |packets|
    ensures exists k :: 0 <= k < |records| && i in records[k].indices
    ensures forall j, k :: 0 <= j < k < |records| && i in records[j].indices ==> i !in records[k].indices
  {
    hide RecordOk, Owners;
    OwnersSome(records, i);
    forall j, k | 0 <= j < k < |records| && i in records[j].indices ensures i !in records[k].indices {
      OwnersApart(records, j, k, i);
    }
  }

  lemma {:induction false} OwnersSome(records: seq<HistoryRecord>, i: nat)
    requires Owners(records, i) > 0
    ensures exists k :: 0 <= k < |records| && i in records[k].indices
  {
    if i !in records[|records| - 1].indices {
      OwnersSome(records[..|records| - 1], i);
    }
  }
}
