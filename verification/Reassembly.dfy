/** Bounded reassembly of business messages and video frames from verified fragments. */
module Reassembly {
  import opened Common
  import opened Catalogue
  import opened Ordered
  import opened Wire
  import V = Video

  datatype Medium = CanFdBus | Ethernet | OtherBus

  datatype Piece = Business(fragment: Fragment) | Streamed(video: V.VideoFragment)
  {
    function Index(): nat { if Business? then fragment.index else video.index }

    function Count(): nat { if Business? then fragment.count else video.count }

    function Bytes(): seq<byte> { if Business? then fragment.payload else video.payload }

    function ChunkSize(): nat { if Business? then ChunkBytes(fragment.transport) else V.VIDEO_CHUNK }

    function Medium(): Medium
    {
      if Business? && fragment.transport.CanFd? then CanFdBus else Ethernet
    }

    predicate SameHeader(other: Piece)
    {
      match this
      case Business(f) => other.Business? && other.fragment.header == f.header
      case Streamed(v) => other.Streamed? && other.video.header == v.header
    }
  }

  datatype Identity =
    | MessageIdentity(transport: Transport, messageId: nat, sequence: nat, transactionId: nat)
    | FrameIdentity(stream: nat, frameIndex: nat)

  /** A reassembly group: where it arrives, whose session it is, and which transfer. */
  datatype Key = Key(channel: string, direction: Direction, session: nat, identity: Identity, grant: Option<nat>)
  {
    predicate Video() { identity.FrameIdentity? }
  }

  datatype Policy = Policy(
    contract: Contract,
    channels: map<string, Medium>,
    slotsPerChannel: nat,
    videoSlots: nat,
    totalLimit: nat,
    cacheMessages: nat,
    retentionNs: nat,
    canTimeoutNs: nat,
    udpTimeoutNs: nat,
    videoTimeoutNs: nat,
    retainCompleted: bool,
    verdict: (Fragment, seq<byte>) -> Result<()>)
  {
    predicate Valid()
    {
      contract.Valid() && canTimeoutNs > 0 && udpTimeoutNs > 0 && videoTimeoutNs > 0
    }

    function Timeout(p: Piece): nat
    {
      if p.Streamed? then videoTimeoutNs else if p.fragment.transport.CanFd? then canTimeoutNs else udpTimeoutNs
    }

    /** Validation of the rejoined bytes. */
    function Verdict(p: Piece, data: seq<byte>): Result<()>
    {
      match p
      case Business(f) => verdict(f, data)
      case Streamed(v) =>
        if |data| != v.frameBytes then Err(Fragmentation) else V.CheckFrame(data, v.header)
    }
  }

  datatype Group = Group(first: Piece, deadline: nat, reserved: nat, pieces: map<nat, seq<byte>>)

  datatype Grave = Grave(deadline: nat, code: Code)

  datatype Assembly = Assembly(
    groups: OrderedDict<Key, Group>,
    terminal: OrderedDict<Key, Grave>,
    reserved: nat,
    lastNow: int)

  datatype Outcome = Pending | Delivered(data: seq<byte>) | Rejected(code: Code)

  // ---------------------------------------------------------------- admission of one fragment

  /** The fragment's own identity and reservation, re-derived rather than trusted. */
  function Checked(c: Contract, p: Piece, direction: Direction): Result<(nat, Identity, nat)>
  {
    match p
    case Business(f) =>
      if f.direction != direction then Err(Authorization)
      else
        var e :- EntryFor(c, f.messageId, f.transport, Some(direction));
        var g :- CheckedFragment(c, f.transport, e, f.header, f.index, f.count, f.payload);
        if g != f then Err(Fragmentation)
        else Ok((f.header.sessionId,
                 MessageIdentity(f.transport, f.messageId, f.header.sequence, f.header.transactionId), f.reservation))
    case Streamed(v) =>
      if direction != To36 then Err(Authorization)
      else if !v.header.Valid() then Err(Schema)
      else if !(1 <= v.frameBytes <= V.MAX_FRAME_BYTES) then Err(Capacity)
      else if !V.LayoutOk(v.index, v.count, v.frameBytes, |v.payload|) then Err(Fragmentation)
      else if v.header.codec.Raw? && v.frameBytes != V.RAW_FRAME_BYTES then Err(Schema)
      else Ok((v.header.sessionId, FrameIdentity(v.header.stream, v.header.frameIndex), v.frameBytes))
  }

  /** Everything decided before the clock is read: the group's key and its reservation. */
  function Admitted(pol: Policy, p: Piece, channel: string, direction: Direction, authorized: bool,
                    grant: Option<nat>): Result<(Key, nat)>
  {
    if !authorized then Err(Authorization)
    else if !(1 <= |channel| <= 128) then Err(Schema)
    else if channel !in pol.channels || pol.channels[channel] != p.Medium() then Err(Authorization)
    else
      var checked :- Checked(pol.contract, p, direction);
      if grant.Some? && !(grant.value < 64 && p.Business? && p.fragment.messageId == 1 && checked.0 == 0)
      then Err(Schema)
      else Ok((Key(channel, direction, checked.0, checked.1, grant), checked.2))
  }

  // ---------------------------------------------------------------- state transitions

  function Remembered(pol: Policy, s: Assembly, key: Key, code: Code, now: nat): Assembly
  {
    s.(terminal := s.terminal.PutLast(key, Grave(now + pol.retentionNs, code)).Trim(pol.cacheMessages))
  }

  function Dropped(s: Assembly, key: Key): Assembly
    requires key in s.groups.vals && s.groups.vals[key].reserved <= s.reserved
  {
    s.(groups := s.groups.Delete(key), reserved := s.reserved - s.groups.vals[key].reserved)
  }

  function ReservedBy(groups: OrderedDict<Key, Group>): Key -> nat
  {
    k => if k in groups.vals then groups.vals[k].reserved else 0
  }

  /** The reservation counter is the sum of the live groups' reservations. */
  ghost predicate Accounted(s: Assembly)
  {
    && s.groups.Valid()
    && s.reserved == Total(s.groups.keys, ReservedBy(s.groups))
  }

  lemma DropAccounted(s: Assembly, key: Key)
    requires Accounted(s) && key in s.groups.vals
    ensures s.groups.vals[key].reserved <= s.reserved
    ensures Accounted(Dropped(s, key))
  {
    TotalWithout(s.groups.keys, key, ReservedBy(s.groups));
    var after := s.groups.Delete(key);
    TotalSame(after.keys, ReservedBy(s.groups), ReservedBy(after));
  }

  /** Groups among the listed keys whose deadline has come are dropped and remembered as timed out. */
  ghost function GroupsExpired(pol: Policy, s: Assembly, keys: seq<Key>, now: nat): (r: Assembly)
    requires Accounted(s)
    ensures Accounted(r) && r.lastNow == s.lastNow
    decreases |keys|
  {
    if keys == [] then s
    else if keys[0] in s.groups.vals && now >= s.groups.vals[keys[0]].deadline then
      DropAccounted(s, keys[0]);
      GroupsExpired(pol, Remembered(pol, Dropped(s, keys[0]), keys[0], Timeout, s.groups.vals[keys[0]].deadline),
                    keys[1..], now)
    else GroupsExpired(pol, s, keys[1..], now)
  }

  /** Terminal entries whose retention is over are forgotten. */
  function GravesExpired(t: OrderedDict<Key, Grave>, keys: seq<Key>, now: nat): (r: OrderedDict<Key, Grave>)
    ensures t.Valid() ==> r.Valid() && |r.keys| <= |t.keys|
    decreases |keys|
  {
    if keys == [] then t
    else if keys[0] in t.vals && now >= t.vals[keys[0]].deadline then GravesExpired(t.Delete(keys[0]), keys[1..], now)
    else GravesExpired(t, keys[1..], now)
  }

  ghost function Swept(pol: Policy, s: Assembly, now: nat): (r: Assembly)
    requires Accounted(s)
    ensures Accounted(r) && r.lastNow == now
  {
    var after := GroupsExpired(pol, s.(lastNow := now), s.groups.keys, now);
    after.(terminal := GravesExpired(after.terminal, after.terminal.keys, now))
  }

  function InChannel(channel: string): Key -> nat
  {
    (k: Key) => if k.channel == channel && !k.Video() then 1 else 0
  }

  function IsVideo(): Key -> nat
  {
    (k: Key) => if k.Video() then 1 else 0
  }

  /** Whether a new group fits the byte and slot quotas. */
  function QuotaOk(pol: Policy, s: Assembly, key: Key, reservation: nat): bool
  {
    && s.reserved + reservation <= pol.totalLimit
    && (key.Video() || Total(s.groups.keys, InChannel(key.channel)) < pol.slotsPerChannel)
    && (!key.Video() || Total(s.groups.keys, IsVideo()) < pol.videoSlots)
  }

  /** The bytes of pieces 0..n-1, in index order. */
  function Assembled(pieces: map<nat, seq<byte>>, n: nat): seq<byte>
    requires forall i :: 0 <= i < n ==> i in pieces
  {
    if n == 0 then [] else Assembled(pieces, n - 1) + pieces[n - 1]
  }

  ghost predicate Complete(pieces: map<nat, seq<byte>>, n: nat)
  {
    forall i: nat :: i in pieces <==> i < n
  }

  /** A piece lies inside its reservation. */
  predicate PieceOk(p: Piece, reservation: nat)
  {
    && p.Index() < p.Count()
    && |p.Bytes()| <= p.ChunkSize()
    && p.Index() * p.ChunkSize() + |p.Bytes()| <= reservation
  }

  predicate KeyOf(key: Key, p: Piece)
  {
    match p
    case Business(f) =>
      && key.identity == MessageIdentity(f.transport, f.messageId, f.header.sequence, f.header.transactionId)
      && key.session == f.header.sessionId
      && key.direction == f.direction
    case Streamed(v) =>
      && key.identity == FrameIdentity(v.header.stream, v.header.frameIndex)
      && key.session == v.header.sessionId
  }

  ghost predicate GroupOk(key: Key, g: Group)
  {
    && KeyOf(key, g.first)
    && |g.pieces| < g.first.Count()
    && forall i :: i in g.pieces ==>
         && i < g.first.Count()
         && |g.pieces[i]| <= g.first.ChunkSize()
         && i * g.first.ChunkSize() + |g.pieces[i]| <= g.reserved
  }

  /** What every reachable state of the reassembler satisfies. */
  ghost predicate Inv(pol: Policy, s: Assembly)
  {
    && Accounted(s)
    && s.reserved <= pol.totalLimit
    && (forall channel :: Total(s.groups.keys, InChannel(channel)) <= pol.slotsPerChannel)
    && Total(s.groups.keys, IsVideo()) <= pol.videoSlots
    && s.terminal.Valid()
    && |s.terminal.keys| <= pol.cacheMessages
    && (forall k :: k in s.groups.vals ==> k !in s.terminal.vals)
    && (forall k :: k in s.groups.vals ==> GroupOk(k, s.groups.vals[k]))
    && (forall k :: k in s.groups.vals ==> s.groups.vals[k].deadline > s.lastNow)
  }

  function Below(n: nat): (r: set<nat>)
    ensures |r| == n
    ensures forall i: nat :: i in r <==> i < n
  {
    if n == 0 then {} else Below(n - 1) + {n - 1}
  }

  lemma FullMap(pieces: map<nat, seq<byte>>, n: nat)
    requires forall i :: i in pieces ==> i < n
    ensures |pieces| <= n
    ensures |pieces| == n <==> forall i: nat :: i < n ==> i in pieces
  {
    var all := Below(n);
    assert pieces.Keys <= all;
    assert all == pieces.Keys + (all - pieces.Keys);
    if forall i: nat :: i < n ==> i in pieces {
      assert pieces.Keys == all;
    }
  }

  function Opened(pol: Policy, s: Assembly, p: Piece, key: Key, reservation: nat, now: nat): Assembly
  {
    s.(groups := s.groups.Put(key, Group(p, now + pol.Timeout(p), reservation, map[])), reserved := s.reserved + reservation)
  }

  /** A group that is full, or about to conflict, is dropped together with its reservation. */
  function Refused(pol: Policy, s: Assembly, key: Key, now: nat): Assembly
    requires key in s.groups.vals && s.groups.vals[key].reserved <= s.reserved
  {
    Remembered(pol, Dropped(s, key), key, Fragmentation, now)
  }

  function Finished(pol: Policy, s: Assembly, p: Piece, key: Key, data: seq<byte>, now: nat): (Assembly, Outcome)
    requires key in s.groups.vals && s.groups.vals[key].reserved <= s.reserved
  {
    var verdict := pol.Verdict(p, data);
    if verdict.Err? then (Remembered(pol, Dropped(s, key), key, verdict.code, now), Rejected(verdict.code))
    else if pol.retainCompleted then (Remembered(pol, Dropped(s, key), key, Duplicate, now), Delivered(data))
    else (Dropped(s, key), Delivered(data))
  }

  function Stored(pol: Policy, s: Assembly, p: Piece, key: Key, reservation: nat, now: nat): (Assembly, Outcome)
    requires key in s.groups.vals && s.groups.vals[key].reserved <= s.reserved
    requires forall i :: i in s.groups.vals[key].pieces ==> i < s.groups.vals[key].first.Count()
    requires p.Index() < p.Count()
  {
    var g := s.groups.vals[key];
    if !g.first.SameHeader(p) || g.first.Count() != p.Count() || g.reserved != reservation then
      (Refused(pol, s, key, now), Rejected(Fragmentation))
    else if p.Index() in g.pieces then
      if g.pieces[p.Index()] != p.Bytes() then (Refused(pol, s, key, now), Rejected(Fragmentation))
      else (s, Pending)
    else
      var pieces := g.pieces[p.Index() := p.Bytes()];
      if |pieces| != p.Count() then
        (s.(groups := s.groups.Put(key, g.(pieces := pieces))), Pending)
      else
        FullMap(pieces, p.Count());
        Finished(pol, s, p, key, Assembled(pieces, p.Count()), now)
  }

  /** One admitted fragment against a state that holds nothing overdue. */
  ghost function Routed(pol: Policy, live: Assembly, p: Piece, key: Key, reservation: nat, now: nat): (Assembly, Outcome)
    requires Inv(pol, live) && PieceOk(p, reservation)
  {
    if key in live.terminal.vals then (live, Rejected(live.terminal.vals[key].code))
    else if key in live.groups.vals then
      TotalMember(live.groups.keys, key, ReservedBy(live.groups));
      Stored(pol, live, p, key, reservation, now)
    else if !QuotaOk(pol, live, key, reservation) then (live, Rejected(BufferFull))
    else Stored(pol, Opened(pol, live, p, key, reservation, now), p, key, reservation, now)
  }

  /** The effect of one admitted fragment. */
  ghost function PushAt(pol: Policy, s: Assembly, p: Piece, key: Key, reservation: nat, now: nat): (Assembly, Outcome)
    requires Inv(pol, s) && PieceOk(p, reservation)
  {
    if now < s.lastNow then (s, Rejected(Schema))
    else
      SweptInv(pol, s, now);
      Routed(pol, Swept(pol, s, now), p, key, reservation, now)
  }

  // ---------------------------------------------------------------- invariants of expiry

  lemma {:induction false} TotalDelete(keys: seq<Key>, k: Key, weight: Key -> nat)
    requires NoDup(keys)
    ensures Total(Without(keys, k), weight) <= Total(keys, weight)
  {
    TotalWithout(keys, k, weight);
  }

  lemma {:induction false} GroupsExpiredEffect(pol: Policy, s: Assembly, keys: seq<Key>, now: nat)
    requires Accounted(s) && s.terminal.Valid() && |s.terminal.keys| <= pol.cacheMessages
    requires NoDup(keys)
    requires forall k :: k in s.groups.vals ==> k !in s.terminal.vals
    ensures var r := GroupsExpired(pol, s, keys, now);
      && r.terminal.Valid() && |r.terminal.keys| <= pol.cacheMessages
      && (forall k :: k in r.groups.vals <==>
            k in s.groups.vals && !(k in keys && now >= s.groups.vals[k].deadline))
      && (forall k :: k in r.groups.vals ==> r.groups.vals[k] == s.groups.vals[k])
      && (forall k :: k in r.terminal.vals ==>
            || (k in s.terminal.vals && r.terminal.vals[k] == s.terminal.vals[k])
            || (k in keys && k in s.groups.vals && now >= s.groups.vals[k].deadline))
      && r.reserved <= s.reserved
    decreases |keys|
  {
    hide Total, ReservedBy, OrderedDict.Trim;
    if keys != [] {
      var k0 := keys[0];
      assert k0 !in keys[1..];
      if k0 in s.groups.vals && now >= s.groups.vals[k0].deadline {
        DropAccounted(s, k0);
        var next := Remembered(pol, Dropped(s, k0), k0, Timeout, s.groups.vals[k0].deadline);
        GroupsExpiredEffect(pol, next, keys[1..], now);
      } else {
        GroupsExpiredEffect(pol, s, keys[1..], now);
      }
    }
  }

  lemma {:induction false} GroupsExpiredTotal(pol: Policy, s: Assembly, keys: seq<Key>, now: nat, weight: Key -> nat)
    requires Accounted(s)
    ensures Total(GroupsExpired(pol, s, keys, now).groups.keys, weight) <= Total(s.groups.keys, weight)
    decreases |keys|
  {
    if keys != [] {
      var k0 := keys[0];
      if k0 in s.groups.vals && now >= s.groups.vals[k0].deadline {
        DropAccounted(s, k0);
        TotalDelete(s.groups.keys, k0, weight);
        GroupsExpiredTotal(pol, Remembered(pol, Dropped(s, k0), k0, Timeout, s.groups.vals[k0].deadline), keys[1..], now, weight);
      } else {
        GroupsExpiredTotal(pol, s, keys[1..], now, weight);
      }
    }
  }

  lemma {:induction false} GravesExpiredEffect(t: OrderedDict<Key, Grave>, keys: seq<Key>, now: nat)
    requires t.Valid() && NoDup(keys)
    ensures var r := GravesExpired(t, keys, now);
      && (forall k :: k in r.vals <==> k in t.vals && !(k in keys && now >= t.vals[k].deadline))
      && (forall k :: k in r.vals ==> r.vals[k] == t.vals[k])
    decreases |keys|
  {
    if keys != [] {
      assert keys[0] !in keys[1..];
      GravesExpiredEffect(
        if keys[0] in t.vals && now >= t.vals[keys[0]].deadline then t.Delete(keys[0]) else t, keys[1..], now);
    }
  }

  /** After expiry exactly the groups with time left remain, unchanged. */
  lemma SweptEffect(pol: Policy, s: Assembly, now: nat)
    requires Inv(pol, s) && now >= s.lastNow
    ensures var r := Swept(pol, s, now);
      && r.terminal.Valid() && |r.terminal.keys| <= pol.cacheMessages
      && (forall k :: k in r.groups.vals <==> k in s.groups.vals && now < s.groups.vals[k].deadline)
      && (forall k :: k in r.groups.vals ==> r.groups.vals[k] == s.groups.vals[k])
      && (forall k :: k in r.terminal.vals ==>
            && now < r.terminal.vals[k].deadline
            && ((k in s.terminal.vals && r.terminal.vals[k] == s.terminal.vals[k]) || k in s.groups.vals)
            && k !in r.groups.vals)
      && r.reserved <= s.reserved
  {
    var start := s.(lastNow := now);
    GroupsExpiredEffect(pol, start, start.groups.keys, now);
    var after := GroupsExpired(pol, start, start.groups.keys, now);
    GravesExpiredEffect(after.terminal, after.terminal.keys, now);
  }

  lemma SweptInv(pol: Policy, s: Assembly, now: nat)
    requires Inv(pol, s) && now >= s.lastNow
    ensures Inv(pol, Swept(pol, s, now))
  {
    SweptEffect(pol, s, now);
    var start := s.(lastNow := now);
    forall channel ensures Total(Swept(pol, s, now).groups.keys, InChannel(channel)) <= pol.slotsPerChannel {
      GroupsExpiredTotal(pol, start, start.groups.keys, now, InChannel(channel));
    }
    GroupsExpiredTotal(pol, start, start.groups.keys, now, IsVideo());
  }

  // ---------------------------------------------------------------- invariants of a push

  lemma AdmittedPiece(pol: Policy, p: Piece, channel: string, direction: Direction, authorized: bool, grant: Option<nat>)
    requires Admitted(pol, p, channel, direction, authorized, grant).Ok?
    ensures var (key, reservation) := Admitted(pol, p, channel, direction, authorized, grant).value;
      && PieceOk(p, reservation) && KeyOf(key, p)
      && key.channel == channel && key.direction == direction && key.grant == grant
  {
    hide Contract.CheckHeader, V.VideoHeader.Valid, EntryFor;
    match p
    case Business(f) =>
      var e := EntryFor(pol.contract, f.messageId, f.transport, Some(direction)).value;
      CheckedReservation(pol.contract, f.transport, e, f.header, f.index, f.count, f.payload);
    case Streamed(v) =>
  }

  lemma CheckedReservation(c: Contract, t: Transport, e: Entry, h: Header, index: nat, count: nat, payload: seq<byte>)
    requires CheckedFragment(c, t, e, h, index, count, payload).Ok?
    ensures var f := CheckedFragment(c, t, e, h, index, count, payload).value;
      f.index < f.count && |f.payload| <= ChunkBytes(t) && f.index * ChunkBytes(t) + |f.payload| <= f.reservation
  {
    hide Contract.CheckHeader;
  }

  lemma DroppedInv(pol: Policy, s: Assembly, key: Key)
    requires Inv(pol, s) && key in s.groups.vals
    ensures s.groups.vals[key].reserved <= s.reserved
    ensures Inv(pol, Dropped(s, key))
  {
    DropAccounted(s, key);
    forall channel ensures Total(Dropped(s, key).groups.keys, InChannel(channel)) <= pol.slotsPerChannel {
      TotalDelete(s.groups.keys, key, InChannel(channel));
    }
    TotalDelete(s.groups.keys, key, IsVideo());
  }

  lemma RememberedInv(pol: Policy, s: Assembly, key: Key, code: Code, now: nat)
    requires Inv(pol, s) && key !in s.groups.vals
    ensures Inv(pol, Remembered(pol, s, key, code, now))
  {
    hide Total;
  }

  lemma TotalPush(keys: seq<Key>, k: Key, weight: Key -> nat)
    ensures Total(keys + [k], weight) == Total(keys, weight) + weight(k)
  {
    TotalAppend(keys, [k], weight);
    assert Total([k], weight) == weight(k) + Total([k][1..], weight);
  }

  lemma OpenedAccounted(pol: Policy, s: Assembly, p: Piece, key: Key, reservation: nat, now: nat)
    requires Accounted(s) && key !in s.groups.vals
    ensures Accounted(Opened(pol, s, p, key, reservation, now))
  {
    var r := Opened(pol, s, p, key, reservation, now);
    TotalPush(s.groups.keys, key, ReservedBy(r.groups));
    TotalSame(s.groups.keys, ReservedBy(s.groups), ReservedBy(r.groups));
  }

  lemma OpenedInv(pol: Policy, s: Assembly, p: Piece, key: Key, reservation: nat, now: nat)
    requires Inv(pol, s) && pol.Valid() && s.lastNow == now
    requires KeyOf(key, p) && PieceOk(p, reservation)
    requires key !in s.groups.vals && key !in s.terminal.vals && QuotaOk(pol, s, key, reservation)
    ensures Inv(pol, Opened(pol, s, p, key, reservation, now))
  {
    hide Accounted, Total, KeyOf, Contract.Valid;
    var r := Opened(pol, s, p, key, reservation, now);
    OpenedAccounted(pol, s, p, key, reservation, now);
    forall channel ensures Total(r.groups.keys, InChannel(channel)) <= pol.slotsPerChannel {
      TotalPush(s.groups.keys, key, InChannel(channel));
    }
    TotalPush(s.groups.keys, key, IsVideo());
  }

  /** Replacing a group's pieces keeps every reservation and slot. */
  lemma UpdatedInv(pol: Policy, s: Assembly, key: Key, g: Group)
    requires Inv(pol, s) && key in s.groups.vals
    requires g == s.groups.vals[key].(pieces := g.pieces) && GroupOk(key, g)
    ensures Inv(pol, s.(groups := s.groups.Put(key, g)))
  {
    var r := s.(groups := s.groups.Put(key, g));
    TotalSame(s.groups.keys, ReservedBy(s.groups), ReservedBy(r.groups));
  }

  lemma FinishedInv(pol: Policy, s: Assembly, p: Piece, key: Key, data: seq<byte>, now: nat)
    requires Inv(pol, s) && key in s.groups.vals
    ensures s.groups.vals[key].reserved <= s.reserved
    ensures Inv(pol, Finished(pol, s, p, key, data, now).0)
  {
    hide Inv, Policy.Verdict;
    DroppedInv(pol, s, key);
    forall code {
      RememberedInv(pol, Dropped(s, key), key, code, now);
    }
  }

  lemma RefusedInv(pol: Policy, s: Assembly, key: Key, now: nat)
    requires Inv(pol, s) && key in s.groups.vals
    ensures s.groups.vals[key].reserved <= s.reserved
    ensures Inv(pol, Refused(pol, s, key, now))
  {
    hide Inv;
    DroppedInv(pol, s, key);
    RememberedInv(pol, Dropped(s, key), key, Fragmentation, now);
  }

  lemma StoredInv(pol: Policy, s: Assembly, p: Piece, key: Key, reservation: nat, now: nat)
    requires Inv(pol, s) && key in s.groups.vals && KeyOf(key, p) && PieceOk(p, reservation)
    ensures s.groups.vals[key].reserved <= s.reserved
    ensures Inv(pol, Stored(pol, s, p, key, reservation, now).0)
  {
    RefusedInv(pol, s, key, now);
    var g := s.groups.vals[key];
    if g.first.SameHeader(p) && g.first.Count() == p.Count() && g.reserved == reservation && p.Index() !in g.pieces {
      assert g.first.ChunkSize() == p.ChunkSize();
      var pieces := g.pieces[p.Index() := p.Bytes()];
      FullMap(pieces, p.Count());
      if |pieces| == p.Count() {
        FinishedInv(pol, s, p, key, Assembled(pieces, p.Count()), now);
      } else {
        UpdatedInv(pol, s, key, g.(pieces := pieces));
      }
    }
  }

  lemma RoutedInv(pol: Policy, s: Assembly, p: Piece, key: Key, reservation: nat, now: nat)
    requires Inv(pol, s) && pol.Valid() && s.lastNow == now && KeyOf(key, p) && PieceOk(p, reservation)
    ensures Inv(pol, Routed(pol, s, p, key, reservation, now).0)
  {
    hide Stored, Opened;
    if key !in s.terminal.vals {
      if key in s.groups.vals {
        StoredInv(pol, s, p, key, reservation, now);
      } else if QuotaOk(pol, s, key, reservation) {
        OpenedInv(pol, s, p, key, reservation, now);
        OpenedHas(pol, s, p, key, reservation, now);
        StoredInv(pol, Opened(pol, s, p, key, reservation, now), p, key, reservation, now);
      }
    }
  }

  lemma OpenedHas(pol: Policy, s: Assembly, p: Piece, key: Key, reservation: nat, now: nat)
    ensures var r := Opened(pol, s, p, key, reservation, now);
      key in r.groups.vals && r.groups.vals[key] == Group(p, now + pol.Timeout(p), reservation, map[])
  {
  }

  /** Every push of an admitted fragment keeps the invariant, whatever its outcome. */
  lemma PushInv(pol: Policy, s: Assembly, p: Piece, key: Key, reservation: nat, now: nat)
    requires Inv(pol, s) && pol.Valid() && KeyOf(key, p) && PieceOk(p, reservation)
    ensures Inv(pol, PushAt(pol, s, p, key, reservation, now).0)
  {
    hide Routed, GroupOk, Total;
    if now >= s.lastNow {
      SweptInv(pol, s, now);
      RoutedInv(pol, Swept(pol, s, now), p, key, reservation, now);
    }
  }

  function Held(pieces: map<nat, seq<byte>>, n: nat): nat
  {
    if n == 0 then 0 else Held(pieces, n - 1) + (if n - 1 in pieces then |pieces[n - 1]| else 0)
  }

  lemma {:induction false} HeldBounded(pieces: map<nat, seq<byte>>, n: nat, size: nat, reserved: nat)
    requires forall i :: i in pieces ==> |pieces[i]| <= size && i * size + |pieces[i]| <= reserved
    ensures Held(pieces, n) <= n * size && Held(pieces, n) <= reserved
  {
    if n > 0 {
      HeldBounded(pieces, n - 1, size, reserved);
      assert (n - 1) * size + size == n * size;
    }
  }

  /** The bytes a live group holds never exceed what it reserved, nor do all groups exceed the byte limit. */
  lemma GroupWithinReservation(pol: Policy, s: Assembly, key: Key)
    requires Inv(pol, s) && key in s.groups.vals
    ensures var g := s.groups.vals[key];
      Held(g.pieces, g.first.Count()) <= g.reserved <= s.reserved <= pol.totalLimit
  {
    var g := s.groups.vals[key];
    HeldBounded(g.pieces, g.first.Count(), g.first.ChunkSize(), g.reserved);
    TotalMember(s.groups.keys, key, ReservedBy(s.groups));
  }

  // ---------------------------------------------------------------- session cleanup

  ghost function GroupsDiscarded(s: Assembly, keys: seq<Key>, session: nat): (r: Assembly)
    requires Accounted(s)
    ensures Accounted(r)
    decreases |keys|
  {
    if keys == [] then s
    else if keys[0] in s.groups.vals && keys[0].session == session then
      DropAccounted(s, keys[0]);
      GroupsDiscarded(Dropped(s, keys[0]), keys[1..], session)
    else GroupsDiscarded(s, keys[1..], session)
  }

  function GravesDiscarded(t: OrderedDict<Key, Grave>, keys: seq<Key>, session: nat): (r: OrderedDict<Key, Grave>)
    ensures t.Valid() ==> r.Valid() && |r.keys| <= |t.keys|
    decreases |keys|
  {
    if keys == [] then t
    else GravesDiscarded(if keys[0].session == session then t.Delete(keys[0]) else t, keys[1..], session)
  }

  ghost function Discarded(s: Assembly, session: nat): (r: Assembly)
    requires Accounted(s)
    ensures Accounted(r)
  {
    var after := GroupsDiscarded(s, s.groups.keys, session);
    after.(terminal := GravesDiscarded(after.terminal, after.terminal.keys, session))
  }

  lemma {:induction false} GroupsDiscardedEffect(pol: Policy, s: Assembly, keys: seq<Key>, session: nat)
    requires Inv(pol, s)
    ensures var r := GroupsDiscarded(s, keys, session);
      && Inv(pol, r)
      && r.terminal == s.terminal && r.lastNow == s.lastNow
      && (forall k :: k in r.groups.vals <==> k in s.groups.vals && !(k in keys && k.session == session))
      && (forall k :: k in r.groups.vals ==> r.groups.vals[k] == s.groups.vals[k])
    decreases |keys|
  {
    hide Inv;
    if keys != [] {
      if keys[0] in s.groups.vals && keys[0].session == session {
        DroppedInv(pol, s, keys[0]);
        GroupsDiscardedEffect(pol, Dropped(s, keys[0]), keys[1..], session);
      } else {
        GroupsDiscardedEffect(pol, s, keys[1..], session);
      }
    }
  }

  lemma {:induction false} GravesDiscardedEffect(t: OrderedDict<Key, Grave>, keys: seq<Key>, session: nat)
    requires t.Valid()
    ensures var r := GravesDiscarded(t, keys, session);
      && (forall k :: k in r.vals <==> k in t.vals && !(k in keys && k.session == session))
      && (forall k :: k in r.vals ==> r.vals[k] == t.vals[k])
    decreases |keys|
  {
    if keys != [] {
      GravesDiscardedEffect(if keys[0].session == session then t.Delete(keys[0]) else t, keys[1..], session);
    }
  }

  /** Discarding a session removes exactly its groups and terminal entries. */
  lemma DiscardedEffect(pol: Policy, s: Assembly, session: nat)
    requires Inv(pol, s)
    ensures var r := Discarded(s, session);
      && Inv(pol, r) && r.lastNow == s.lastNow
      && (forall k :: k in r.groups.vals <==> k in s.groups.vals && k.session != session)
      && (forall k :: k in r.groups.vals ==> r.groups.vals[k] == s.groups.vals[k])
      && (forall k :: k in r.terminal.vals <==> k in s.terminal.vals && k.session != session)
      && (forall k :: k in r.terminal.vals ==> r.terminal.vals[k] == s.terminal.vals[k])
  {
    GroupsDiscardedEffect(pol, s, s.groups.keys, session);
    GravesDiscardedEffect(s.terminal, s.terminal.keys, session);
  }
}
