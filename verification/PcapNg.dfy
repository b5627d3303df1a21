/** The PCAPNG container: blocks, options, interfaces, loss counters and sections. */
module PcapNg {
  import opened Common
  import opened Struct
  import opened Endian
  import P = Pcap

  const MAX_SECTIONS: nat := 100
  const MAX_BLOCKS: nat := 200_000
  const MAX_OPTIONS: nat := 1024
  const MAX_OPTION_BYTES: nat := 65536
  const MAX_INTERFACES: nat := 100
  const SECTION_HEADER: nat := 0x0a0d_0d0a

  function Padding(n: nat): (r: nat)
    ensures r < 4 && (n + r) % 4 == 0
  {
    (4 - n % 4) % 4
  }

  // ---------------------------------------------------------------- options

  datatype Opt = Opt(code: nat, value: seq<byte>)

  /** The options a body ends with: codes allowed, none twice but comments, no more than the limit, nothing after the end. */
  function OptionList(raw: seq<byte>, big: bool, allowed: set<nat>, seen: set<nat>, room: nat): (r: Result<seq<Opt>>)
    decreases |raw|
  {
    if raw == [] then Ok([])
    else if |raw| < 4 then Err(Resource)
    else
      var code, size := Field(raw, 0, 2, big), Field(raw, 2, 2, big);
      var next := 4 + size + Padding(4 + size);
      if next > |raw| then Err(Resource)
      else if code == 0 then (if size != 0 || next != |raw| then Err(Resource) else Ok([]))
      else if room == 0 then Err(Capacity)
      else if code !in allowed then Err(Unsupported)
      else if code in seen && code != 1 then Err(Resource)
      else
        var others := OptionList(raw[next..], big, allowed, seen + {code}, room - 1);
        if others.Err? then others else Ok([Opt(code, raw[4..4 + size])] + others.value)
  }

  function Dictionary(opts: seq<Opt>): map<nat, seq<byte>>
  {
    if opts == [] then map[] else Dictionary(opts[..|opts| - 1])[opts[|opts| - 1].code := opts[|opts| - 1].value]
  }

  function Options(raw: seq<byte>, big: bool, allowed: set<nat>): Result<map<nat, seq<byte>>>
  {
    if |raw| > MAX_OPTION_BYTES then Err(Capacity)
    else
      var opts := OptionList(raw, big, allowed, {}, MAX_OPTIONS);
      if opts.Err? then Err(opts.code) else Ok(Dictionary(opts.value))
  }

  function Joined(done: seq<Opt>, others: Result<seq<Opt>>): Result<seq<Opt>>
  {
    if others.Err? then others else Ok(done + others.value)
  }

  /** Walks the options in place. */
  method ReadOptions(raw: seq<byte>, big: bool, allowed: set<nat>) returns (r: Result<map<nat, seq<byte>>>)
    ensures r == Options(raw, big, allowed)
  {
    hide *;
    NoOptions(raw, big, allowed);
    if |raw| > MAX_OPTION_BYTES {
      return Err(Capacity);
    }
    var offset, count, result, seen := 0, 0, map[], {};
    ghost var opts: seq<Opt> := [];
    ghost var whole := OptionList(raw, big, allowed, {}, MAX_OPTIONS);
    assert raw[0..] == raw;
    JoinedNone(opts, whole);
    while offset < |raw|
      invariant offset <= |raw| && count == |opts| <= MAX_OPTIONS
      invariant result == Dictionary(opts) && seen == result.Keys
      invariant whole == Joined(opts, OptionList(raw[offset..], big, allowed, seen, MAX_OPTIONS - count))
    {
      OptionNext(raw, offset, big, allowed, seen, MAX_OPTIONS - count);
      if |raw| - offset < 4 {
        JoinedErr(opts, whole);
        return Err(Resource);
      }
      var code, size := Field(raw, offset, 2, big), Field(raw, offset + 2, 2, big);
      var stop := offset + 4 + size;
      var padded := stop + Padding(4 + size);
      JoinedErr(opts, whole);
      if padded > |raw| {
        return Err(Resource);
      }
      if code == 0 {
        if size != 0 || padded != |raw| {
          return Err(Resource);
        }
        JoinedEnd(opts);
        return Ok(result);
      }
      if count >= MAX_OPTIONS {
        return Err(Capacity);
      }
      count := count + 1;
      if code !in allowed {
        return Err(Unsupported);
      }
      if code in result && code != 1 {
        return Err(Resource);
      }
      var value := raw[offset + 4..stop];
      JoinedMore(opts, Opt(code, value), OptionList(raw[padded..], big, allowed, seen + {code}, MAX_OPTIONS - count));
      DictionaryMore(opts, Opt(code, value));
      opts, result, seen := opts + [Opt(code, value)], result[code := value], seen + {code};
      offset := padded;
    }
    assert raw[offset..] == [];
    ListEnd(big, allowed, seen, MAX_OPTIONS - count);
    JoinedEnd(opts);
    return Ok(result);
  }

  lemma NoOptions(raw: seq<byte>, big: bool, allowed: set<nat>)
    ensures Dictionary([]) == map[]
    ensures |raw| > MAX_OPTION_BYTES ==> Options(raw, big, allowed) == Err(Capacity)
    ensures |raw| <= MAX_OPTION_BYTES ==>
      Options(raw, big, allowed) == (var opts := OptionList(raw, big, allowed, {}, MAX_OPTIONS);
                                     if opts.Err? then Err(opts.code) else Ok(Dictionary(opts.value)))
  {
  }

  lemma JoinedNone(done: seq<Opt>, whole: Result<seq<Opt>>)
    requires done == []
    ensures Joined(done, whole) == whole
  {
    assert whole.Ok? ==> [] + whole.value == whole.value;
  }

  lemma JoinedErr(done: seq<Opt>, whole: Result<seq<Opt>>)
    ensures forall code :: whole == Joined(done, Err(code)) ==> whole == Err(code)
  {
  }

  lemma JoinedEnd(done: seq<Opt>)
    ensures Joined(done, Ok([])) == Ok(done)
  {
    assert done + [] == done;
  }

  lemma JoinedMore(done: seq<Opt>, o: Opt, others: Result<seq<Opt>>)
    ensures Joined(done, if others.Err? then others else Ok([o] + others.value)) == Joined(done + [o], others)
  {
    assert others.Ok? ==> done + ([o] + others.value) == done + [o] + others.value;
  }

  lemma ListEnd(big: bool, allowed: set<nat>, seen: set<nat>, room: nat)
    ensures OptionList([], big, allowed, seen, room) == Ok([])
  {
  }

  lemma OptionFirst(rest: seq<byte>, big: bool, allowed: set<nat>, seen: set<nat>, room: nat)
    requires rest != []
    ensures |rest| < 4 ==> OptionList(rest, big, allowed, seen, room) == Err(Resource)
    ensures |rest| >= 4 ==>
      var code, size := Field(rest, 0, 2, big), Field(rest, 2, 2, big);
      var next := 4 + size + Padding(4 + size);
      OptionList(rest, big, allowed, seen, room) ==
        if next > |rest| then Err(Resource)
        else if code == 0 then (if size != 0 || next != |rest| then Err(Resource) else Ok([]))
        else if room == 0 then Err(Capacity)
        else if code !in allowed then Err(Unsupported)
        else if code in seen && code != 1 then Err(Resource)
        else
          var others := OptionList(rest[next..], big, allowed, seen + {code}, room - 1);
          if others.Err? then others else Ok([Opt(code, rest[4..4 + size])] + others.value)
  {
  }

  /** The option list from an offset, in terms of the buffer itself. */
  lemma OptionNext(raw: seq<byte>, offset: nat, big: bool, allowed: set<nat>, seen: set<nat>, room: nat)
    requires offset < |raw|
    ensures OptionList(raw[offset..], big, allowed, seen, room) ==
      if |raw| - offset < 4 then Err(Resource)
      else
        var code, size := Field(raw, offset, 2, big), Field(raw, offset + 2, 2, big);
        var stop := offset + 4 + size;
        var padded := stop + Padding(4 + size);
        if padded > |raw| then Err(Resource)
        else if code == 0 then (if size != 0 || padded != |raw| then Err(Resource) else Ok([]))
        else if room == 0 then Err(Capacity)
        else if code !in allowed then Err(Unsupported)
        else if code in seen && code != 1 then Err(Resource)
        else
          var others := OptionList(raw[padded..], big, allowed, seen + {code}, room - 1);
          if others.Err? then others else Ok([Opt(code, raw[offset + 4..stop])] + others.value)
  {
    hide Field, Padding, OptionList;
    var rest := raw[offset..];
    OptionFirst(rest, big, allowed, seen, room);
    if |rest| >= 4 {
      FieldFrom(raw, offset, 0, 2, big);
      FieldFrom(raw, offset, 2, 2, big);
      var size := Field(rest, 2, 2, big);
      var next := 4 + size + Padding(4 + size);
      if next <= |rest| {
        assert rest[4..4 + size] == raw[offset + 4..offset + 4 + size] && rest[next..] == raw[offset + next..];
      }
    }
  }

  lemma DictionaryMore(opts: seq<Opt>, o: Opt)
    ensures Dictionary(opts + [o]) == Dictionary(opts)[o.code := o.value]
  {
    assert (opts + [o])[..|opts|] == opts;
  }

  lemma FieldFrom(raw: seq<byte>, offset: nat, at: nat, n: nat, big: bool)
    requires offset + at + n <= |raw|
    ensures Field(raw[offset..], at, n, big) == Field(raw, offset + at, n, big)
  {
    assert raw[offset..][at..at + n] == raw[offset + at..offset + at + n];
  }

  /** How options are laid out, each padded to four bytes. */
  function OptionBytes(o: Opt, big: bool): (r: seq<byte>)
    ensures |r| == 4 + |o.value| + Padding(4 + |o.value|)
  {
    Write(o.code, 2, big) + Write(|o.value|, 2, big) + o.value + Zeros(Padding(4 + |o.value|))
  }

  function OptionLayout(opts: seq<Opt>, big: bool): seq<byte>
  {
    if opts == [] then [] else OptionBytes(opts[0], big) + OptionLayout(opts[1..], big)
  }

  ghost predicate Distinct(opts: seq<Opt>, seen: set<nat>)
  {
    && (forall i :: 0 <= i < |opts| && opts[i].code != 1 ==> opts[i].code !in seen)
    && forall i, j :: 0 <= i < j < |opts| && opts[i].code != 1 ==> opts[i].code != opts[j].code
  }

  lemma OptionHead(o: Opt, rest: seq<byte>, big: bool)
    requires 0 < o.code < 0x1_0000 && |o.value| < 0x1_0000
    ensures var raw := OptionBytes(o, big) + rest;
      && Field(raw, 0, 2, big) == o.code && Field(raw, 2, 2, big) == |o.value|
      && raw[4..4 + |o.value|] == o.value && raw[|OptionBytes(o, big)|..] == rest
  {
    hide Write, Read;
    var raw := OptionBytes(o, big) + rest;
    Widths();
    assert raw[0..2] == Write(o.code, 2, big) && raw[2..4] == Write(|o.value|, 2, big);
    ReadWrite(o.code, 2, big);
    ReadWrite(|o.value|, 2, big);
  }

  /** Options laid out one after the other are read back in order. */
  lemma {:induction false} OptionsRead(opts: seq<Opt>, big: bool, allowed: set<nat>, seen: set<nat>, room: nat)
    requires |opts| <= room && Distinct(opts, seen)
    requires forall i :: 0 <= i < |opts| ==> 0 < opts[i].code < 0x1_0000 && |opts[i].value| < 0x1_0000 && opts[i].code in allowed
    ensures OptionList(OptionLayout(opts, big), big, allowed, seen, room) == Ok(opts)
    decreases |opts|
  {
    hide *;
    LayoutFirst(opts, big);
    if opts == [] {
      NothingLaid(big, allowed, seen, room);
    } else {
      DistinctRest(opts, seen);
      OptionsRead(opts[1..], big, allowed, seen + {opts[0].code}, room - 1);
      OptionThen(opts[0], OptionLayout(opts[1..], big), big, allowed, seen, room);
      assert opts == [opts[0]] + opts[1..];
    }
  }

  lemma LayoutFirst(opts: seq<Opt>, big: bool)
    ensures OptionLayout(opts, big) == if opts == [] then [] else OptionBytes(opts[0], big) + OptionLayout(opts[1..], big)
  {
  }

  lemma NothingLaid(big: bool, allowed: set<nat>, seen: set<nat>, room: nat)
    ensures OptionList([], big, allowed, seen, room) == Ok([])
  {
  }

  lemma DistinctRest(opts: seq<Opt>, seen: set<nat>)
    requires opts != [] && Distinct(opts, seen)
    ensures (opts[0].code != 1 ==> opts[0].code !in seen) && Distinct(opts[1..], seen + {opts[0].code})
  {
  }

  /** One option and whatever follows it. */
  lemma OptionThen(o: Opt, rest: seq<byte>, big: bool, allowed: set<nat>, seen: set<nat>, room: nat)
    requires 0 < o.code < 0x1_0000 && |o.value| < 0x1_0000 && o.code in allowed && (o.code != 1 ==> o.code !in seen) && 0 < room
    ensures var others := OptionList(rest, big, allowed, seen + {o.code}, room - 1);
      OptionList(OptionBytes(o, big) + rest, big, allowed, seen, room) == if others.Err? then others else Ok([o] + others.value)
  {
    OptionHead(o, rest, big);
    hide Field, OptionBytes;
  }

  // ---------------------------------------------------------------- blocks

  datatype Block = Block(kind: nat, body: seq<byte>)

  function BlockBytes(b: Block, big: bool): (r: seq<byte>)
    ensures |r| == 12 + |b.body|
  {
    Write(b.kind, 4, big) + Write(12 + |b.body|, 4, big) + b.body + Write(12 + |b.body|, 4, big)
  }

  predicate BlockOk(b: Block) { b.kind <= U32_MAX && |b.body| % 4 == 0 && 12 + |b.body| <= U32_MAX }

  /** The block that begins a rest of at least twelve bytes. */
  function ParseBlock(rest: seq<byte>, big: bool): (r: Result<Block>)
    requires |rest| >= 12
    ensures r.Ok? ==> 12 + |r.value.body| <= |rest|
  {
    var kind, length := Field(rest, 0, 4, big), Field(rest, 4, 4, big);
    if length < 12 || length % 4 != 0 || length > |rest| then Err(Resource)
    else if Field(rest, length - 4, 4, big) != length then Err(Resource)
    else Ok(Block(kind, rest[8..length - 4]))
  }

  lemma BlockAccepted(rest: seq<byte>, big: bool)
    requires |rest| >= 12 && ParseBlock(rest, big).Ok?
    ensures var b := ParseBlock(rest, big).value;
      BlockOk(b) && 12 + |b.body| <= |rest| && rest[..12 + |b.body|] == BlockBytes(b, big)
  {
    hide Write, Read;
    Widths();
    var b := ParseBlock(rest, big).value;
    var n := 12 + |b.body|;
    WriteRead(rest[0..4], big);
    WriteRead(rest[4..8], big);
    WriteRead(rest[n - 4..n], big);
    assert rest[..n] == rest[0..4] + rest[4..8] + rest[8..n - 4] + rest[n - 4..n];
  }

  lemma BlockFields(b: Block, big: bool)
    ensures var own := BlockBytes(b, big);
      var n := 12 + |b.body|;
      && own[0..4] == Write(b.kind, 4, big) && own[4..8] == Write(n, 4, big)
      && own[n - 4..n] == Write(n, 4, big) && own[8..n - 4] == b.body
  {
    hide Write;
  }

  lemma BlockParsed(rest: seq<byte>, big: bool, b: Block)
    requires BlockOk(b) && 12 + |b.body| <= |rest| && rest[..12 + |b.body|] == BlockBytes(b, big)
    ensures ParseBlock(rest, big) == Ok(b)
  {
    hide Write, Read, BlockBytes;
    Widths();
    var n := 12 + |b.body|;
    BlockFields(b, big);
    var own := BlockBytes(b, big);
    assert rest[0..4] == own[0..4] && rest[4..8] == own[4..8] && rest[n - 4..n] == own[n - 4..n] && rest[8..n - 4] == own[8..n - 4];
    ReadWrite(b.kind, 4, big);
    ReadWrite(n, 4, big);
  }

  /** A block is accepted exactly where its own layout stands. */
  lemma BlockExactly(rest: seq<byte>, big: bool, b: Block)
    requires |rest| >= 12
    ensures ParseBlock(rest, big) == Ok(b) <==> BlockOk(b) && |BlockBytes(b, big)| <= |rest| && rest[..12 + |b.body|] == BlockBytes(b, big)
  {
    hide ParseBlock, BlockOk, BlockBytes;
    if ParseBlock(rest, big) == Ok(b) {
      BlockAccepted(rest, big);
    }
    if BlockOk(b) && 12 + |b.body| <= |rest| && rest[..12 + |b.body|] == BlockBytes(b, big) {
      BlockParsed(rest, big, b);
    }
  }

  function Layout(blocks: seq<Block>, big: bool): seq<byte>
  {
    if blocks == [] then [] else Layout(blocks[..|blocks| - 1], big) + BlockBytes(blocks[|blocks| - 1], big)
  }

  // ---------------------------------------------------------------- what the blocks of one section mean

  datatype Interface = Interface(linktype: nat, snaplen: nat, rate: pos, shift: int, name: seq<byte>)

  /** Losses of one interface: those packets report, and two cumulative counters. */
  datatype Losses = Losses(reported: nat, received: nat, filtered: nat)
  {
    function Total(): nat { Max(reported, received + filtered) }
  }

  datatype Envelope = Envelope(data: seq<byte>, ticks: nat, rate: pos, shift: int, section: nat, face: nat, linktype: nat,
                               wirelen: nat, flags: nat, drops: nat)

  datatype Inner = Inner(faces: seq<Interface>, losses: seq<Losses>, packets: seq<Envelope>)

  function Power(base: pos, n: nat): pos
  {
    if n == 0 then 1 else base * Power(base, n - 1)
  }

  function Signed(v: nat): int { if v <= U64_MAX / 2 then v else v - U64_MAX - 1 }

  predicate Sized(options: map<nat, seq<byte>>, code: nat, size: nat) { code in options ==> |options[code]| == size }

  /** Interface description; `named` says whether bytes decode to bounded printable text. */
  function InterfaceOf(body: seq<byte>, big: bool, count: nat, named: seq<byte> -> bool): Result<Interface>
  {
    if |body| < 8 then Err(Resource)
    else if !P.LinkType(Field(body, 0, 2, big)) then Err(Unsupported)
    else if Field(body, 2, 2, big) != 0 || !(1 <= Field(body, 4, 4, big) <= P.MAX_PACKET_BYTES) then Err(Resource)
    else if count >= MAX_INTERFACES then Err(Capacity)
    else
      var options := Options(body[8..], big, {1, 2, 9, 14});
      if options.Err? then Err(options.code)
      else if !Sized(options.value, 9, 1) || !Sized(options.value, 14, 8) then Err(Resource)
      else if 2 in options.value && !named(options.value[2]) then Err(Resource)
      else
        var exponent: nat := if 9 in options.value then options.value[9][0] else 6;
        var rate := if exponent >= 128 then Power(2, exponent - 128) else Power(10, exponent);
        Ok(Interface(Field(body, 0, 2, big), Field(body, 4, 4, big), rate,
                     if 14 in options.value then Signed(Read(options.value[14], big)) else 0,
                     if 2 in options.value then options.value[2] else []))
  }

  predicate StatisticsSized(options: map<nat, seq<byte>>) { forall code :: 2 <= code < 9 ==> Sized(options, code, 8) }

  /** Interface statistics: cumulative counters may only grow. */
  function StatisticsOf(body: seq<byte>, big: bool, old_: Losses): Result<Losses>
    requires |body| >= 12
  {
    var options := Options(body[12..], big, {1, 2, 3, 4, 5, 6, 7, 8});
    if options.Err? then Err(options.code)
    else if !StatisticsSized(options.value) then Err(Resource)
    else
      var received := if 5 in options.value then Read(options.value[5], big) else old_.received;
      var filtered := if 7 in options.value then Read(options.value[7], big) else old_.filtered;
      if received < old_.received || filtered < old_.filtered then Err(Resource)
      else Ok(old_.(received := received, filtered := filtered))
  }

  function PacketOf(body: seq<byte>, big: bool, section: nat, index: nat, face: Interface): Result<Envelope>
    requires |body| >= 20
  {
    var caplen, wirelen := Field(body, 12, 4, big), Field(body, 16, 4, big);
    if !P.Lengths(caplen, wirelen, face.snaplen) then Err(Resource)
    else if 20 + caplen + Padding(caplen) > |body| then Err(Resource)
    else
      var options := Options(body[20 + caplen + Padding(caplen)..], big, {1, 2, 4});
      if options.Err? then Err(options.code)
      else if !Sized(options.value, 2, 4) || !Sized(options.value, 4, 8) then Err(Resource)
      else
        var flags := if 2 in options.value then Read(options.value[2], big) else 0;
        if flags > 2 then Err(Unsupported)
        else
          Ok(Envelope(body[20..20 + caplen], Field(body, 4, 4, big) * 0x1_0000_0000 + Field(body, 8, 4, big), face.rate, face.shift,
                      section, index, face.linktype, wirelen, flags,
                      if 4 in options.value then Read(options.value[4], big) else 0))
  }

  /** What one block adds to its section. */
  function Step(section: nat, big: bool, s: Inner, b: Block, named: seq<byte> -> bool): Result<Inner>
    requires |s.losses| == |s.faces|
  {
    if b.kind == 1 then
      var face := InterfaceOf(b.body, big, |s.faces|, named);
      if face.Err? then Err(face.code)
      else Ok(s.(faces := s.faces + [face.value], losses := s.losses + [Losses(0, 0, 0)]))
    else if b.kind == 5 || b.kind == 6 then
      if |b.body| < (if b.kind == 6 then 20 else 12) then Err(Resource)
      else
        var k := Field(b.body, 0, 4, big);
        if k >= |s.faces| then Err(Resource)
        else if b.kind == 5 then
          var losses := StatisticsOf(b.body, big, s.losses[k]);
          if losses.Err? then Err(losses.code) else Ok(s.(losses := s.losses[k := losses.value]))
        else
          var packet := PacketOf(b.body, big, section, k, s.faces[k]);
          if packet.Err? then Err(packet.code)
          else
            Ok(s.(packets := s.packets + [packet.value],
                  losses := s.losses[k := s.losses[k].(reported := s.losses[k].reported + packet.value.drops)]))
    else Err(Unsupported)
  }

  const NOTHING: Inner := Inner([], [], [])

  /** What the blocks after a section header mean, taken by themselves. */
  function Meaning(section: nat, big: bool, blocks: seq<Block>, named: seq<byte> -> bool): (r: Result<Inner>)
    ensures r.Ok? ==> |r.value.losses| == |r.value.faces|
  {
    if blocks == [] then Ok(NOTHING)
    else
      var before := Meaning(section, big, blocks[..|blocks| - 1], named);
      if before.Err? then before else Step(section, big, before.value, blocks[|blocks| - 1], named)
  }

  function Lost(losses: seq<Losses>): nat
  {
    if losses == [] then 0 else Lost(losses[..|losses| - 1]) + losses[|losses| - 1].Total()
  }

  // ---------------------------------------------------------------- sections

  /** One section: its bytes and packets, with the blocks it consists of. */
  datatype Section = Section(raw: seq<byte>, packets: seq<Envelope>, big: bool, header: Block, blocks: seq<Block>)

  /** Version, declared length and options of a section header; the length is that of the blocks after it, or -1. */
  function HeaderOf(body: seq<byte>, big: bool): Result<int>
  {
    if |body| < 16 then Err(Resource)
    else if Field(body, 4, 2, big) != 1 || Field(body, 6, 2, big) != 0 || Signed(Field(body, 8, 8, big)) < -1 then Err(Resource)
    else
      var options := Options(body[16..], big, {1, 2, 3, 4});
      if options.Err? then Err(options.code) else Ok(Signed(Field(body, 8, 8, big)))
  }

  /** Every block is a legal one and the header names the byte order. */
  ghost predicate BlocksOk(header: Block, blocks: seq<Block>, big: bool)
  {
    && BlockOk(header) && |header.body| >= 4 && ByteOrder(header.body[..4]) == Some(big)
    && forall i :: 0 <= i < |blocks| ==> BlockOk(blocks[i])
  }

  /** A section stands on its own: its bytes are its blocks, its packets are what those blocks mean. */
  ghost predicate SectionOk(i: nat, s: Section, named: seq<byte> -> bool)
  {
    && s.raw == BlockBytes(s.header, s.big) + Layout(s.blocks, s.big)
    && BlocksOk(s.header, s.blocks, s.big)
    && s.header.kind == SECTION_HEADER && HeaderOf(s.header.body, s.big).Ok?
    && (HeaderOf(s.header.body, s.big).value == -1 || HeaderOf(s.header.body, s.big).value == |Layout(s.blocks, s.big)|)
    && Meaning(i, s.big, s.blocks, named).Ok? && s.packets == Meaning(i, s.big, s.blocks, named).value.packets
  }

  function Raws(sections: seq<Section>): seq<byte>
  {
    if sections == [] then [] else Raws(sections[..|sections| - 1]) + sections[|sections| - 1].raw
  }

  function PacketCount(sections: seq<Section>): nat
  {
    if sections == [] then 0 else PacketCount(sections[..|sections| - 1]) + |sections[|sections| - 1].packets|
  }

  function AllLost(sections: seq<Section>, named: seq<byte> -> bool): nat
  {
    if sections == [] then 0
    else
      var s := sections[|sections| - 1];
      var inner := Meaning(|sections| - 1, s.big, s.blocks, named);
      AllLost(sections[..|sections| - 1], named) + (if inner.Ok? then Lost(inner.value.losses) else 0)
  }

  function ByteOrder(magic: seq<byte>): Option<bool>
  {
    if magic == [0x4d, 0x3c, 0x2b, 0x1a] then Some(false) else if magic == [0x1a, 0x2b, 0x3c, 0x4d] then Some(true) else None
  }

  const MAGIC: seq<byte> := [0x0a, 0x0d, 0x0d, 0x0a]

  // ---------------------------------------------------------------- the parser

  lemma MagicKind(big: bool)
    ensures Read(MAGIC, big) == SECTION_HEADER
  {
    assert MAGIC[1..] == [0x0d, 0x0d, 0x0a] && MAGIC[1..][1..] == [0x0d, 0x0a] && MAGIC[1..][1..][1..] == [0x0a];
    assert Reversed([0x0a]) == [0x0a] && Reversed([0x0d, 0x0a]) == [0x0a, 0x0d] && Reversed([0x0d, 0x0d, 0x0a]) == [0x0a, 0x0d, 0x0d];
    assert Reversed(MAGIC) == MAGIC;
    assert UnpackLE([0x0a]) == 0x0a && UnpackLE([0x0d, 0x0a]) == 0x0a0d && UnpackLE([0x0d, 0x0d, 0x0a]) == 0x0a0d0d;
  }

  /** A section ends where the next begins; a declared length must be that of its blocks. */
  method CloseSection(sections: seq<Section>, lost: nat, raw: seq<byte>, big: bool, header: Block, blocks: seq<Block>, declared: int,
                      inner: Inner, named: seq<byte> -> bool)
      returns (r: Result<(seq<Section>, nat)>)
    requires raw == BlockBytes(header, big) + Layout(blocks, big) && header.kind == SECTION_HEADER
    requires HeaderOf(header.body, big) == Ok(declared) && Meaning(|sections|, big, blocks, named) == Ok(inner)
    requires lost == AllLost(sections, named) && BlocksOk(header, blocks, big)
    ensures r.Ok? <==> declared == -1 || declared == |raw| - |BlockBytes(header, big)|
    ensures r.Ok? ==>
      var s := Section(raw, inner.packets, big, header, blocks);
      && r.value.0 == sections + [s] && SectionOk(|sections|, s, named)
      && Raws(r.value.0) == Raws(sections) + raw && PacketCount(r.value.0) == PacketCount(sections) + |inner.packets|
      && r.value.1 == AllLost(r.value.0, named)
      && BlockCount(r.value.0) == BlockCount(sections) + 1 + |blocks|
  {
    hide Meaning, Lost, HeaderOf, BlockBytes, Layout, BlocksOk;
    if declared != -1 && |raw| - |BlockBytes(header, big)| != declared {
      return Err(Resource);
    }
    var after := sections + [Section(raw, inner.packets, big, header, blocks)];
    assert after[..|sections|] == sections;
    return Ok((after, lost + Lost(inner.losses)));
  }

  lemma LayoutMore(section: nat, big: bool, blocks: seq<Block>, b: Block, inner: Inner, named: seq<byte> -> bool)
    requires Meaning(section, big, blocks, named) == Ok(inner)
    ensures Layout(blocks + [b], big) == Layout(blocks, big) + BlockBytes(b, big)
    ensures Meaning(section, big, blocks + [b], named) == Step(section, big, inner, b, named)
  {
    hide Step, BlockBytes;
    assert (blocks + [b])[..|blocks|] == blocks;
  }

  lemma NoBlocks(section: nat, big: bool, named: seq<byte> -> bool)
    ensures Layout([], big) == [] && Meaning(section, big, [], named) == Ok(NOTHING)
  {
  }

  lemma StepPackets(section: nat, big: bool, s: Inner, b: Block, named: seq<byte> -> bool)
    requires |s.losses| == |s.faces| && Step(section, big, s, b, named).Ok?
    ensures var after := Step(section, big, s, b, named).value;
      && |after.losses| == |after.faces|
      && |after.packets| == |s.packets| + (if b.kind == 6 then 1 else 0)
  {
    hide InterfaceOf, PacketOf, StatisticsOf;
  }

  lemma BlocksMore(header: Block, blocks: seq<Block>, big: bool, b: Block)
    requires BlocksOk(header, blocks, big) && BlockOk(b)
    ensures BlocksOk(header, blocks + [b], big)
  {
    hide BlockOk, ByteOrder;
  }

  lemma HeaderLong(body: seq<byte>, big: bool)
    requires HeaderOf(body, big).Ok?
    ensures |body| >= 16
  {
  }

  lemma SubSlice(raw: seq<byte>, offset: nat, n: nat, i: nat, j: nat)
    requires offset + n <= |raw| && i <= j <= n
    ensures raw[offset..offset + n][i..j] == raw[offset + i..offset + j]
  {
    var whole := raw[offset..offset + n];
    assert forall k :: 0 <= k < n ==> whole[k] == raw[offset + k];
    forall k | 0 <= k < j - i ensures whole[i..j][k] == raw[offset + i..offset + j][k] {
    }
  }

  lemma BlocksFirst(raw: seq<byte>, offset: nat, big: bool, b: Block)
    requires offset + 12 + |b.body| <= |raw| && raw[offset..offset + |BlockBytes(b, big)|] == BlockBytes(b, big)
    requires BlockOk(b) && ByteOrder(raw[offset + 8..offset + 12]) == Some(big) && HeaderOf(b.body, big).Ok?
    ensures BlocksOk(b, [], big)
  {
    hide Write, ByteOrder, BlockOk;
    var own := BlockBytes(b, big);
    HeaderLong(b.body, big);
    assert own[8..8 + |b.body|] == b.body;
    assert own[8..12] == own[8..8 + |b.body|][..4];
    SubSlice(raw, offset, |own|, 8, 12);
  }

  /** Where a parsed block stands in the file. */
  lemma BlockAt(raw: seq<byte>, offset: nat, big: bool)
    requires offset + 12 <= |raw| && ParseBlock(raw[offset..], big).Ok?
    ensures var b := ParseBlock(raw[offset..], big).value;
      && offset + |BlockBytes(b, big)| <= |raw|
      && raw[offset..offset + |BlockBytes(b, big)|] == BlockBytes(b, big)
      && b.kind == Read(raw[offset..offset + 4], big) && BlockOk(b)
  {
    hide Write, Read;
    var rest := raw[offset..];
    var b := ParseBlock(rest, big).value;
    BlockExactly(rest, big, b);
    assert rest[..12 + |b.body|] == raw[offset..offset + 12 + |b.body|];
    assert rest[0..4] == raw[offset..offset + 4];
  }

  // ---------------------------------------------------------------- what can come next in a file

  function BlockCount(sections: seq<Section>): nat
  {
    if sections == [] then 0 else BlockCount(sections[..|sections| - 1]) + 1 + |sections[|sections| - 1].blocks|
  }

  /** These sections are a whole file's, within every bound. */
  ghost predicate Readable(raw: seq<byte>, maxPackets: nat, named: seq<byte> -> bool, ss: seq<Section>)
  {
    && Raws(ss) == raw && 1 <= |ss| <= MAX_SECTIONS && PacketCount(ss) <= maxPackets && BlockCount(ss) <= MAX_BLOCKS
    && forall i :: 0 <= i < |ss| ==> SectionOk(i, ss[i], named)
  }

  /** The parser is inside `ss`: whole sections read, and of the next one the header and some blocks. */
  ghost predicate On(ss: seq<Section>, sections: seq<Section>, started: bool, big: bool, header: Block, blocks: seq<Block>)
  {
    && sections <= ss
    && (started ==> |sections| < |ss| && ss[|sections|].big == big && ss[|sections|].header == header)
    && (started ==> blocks <= ss[|sections|].blocks)
    && (!started ==> blocks == [])
  }

  function Place(sections: seq<Section>, started: bool, big: bool, header: Block, blocks: seq<Block>): nat
  {
    |Raws(sections)| + (if started then |BlockBytes(header, big)| + |Layout(blocks, big)| else 0)
  }

  function Walked(sections: seq<Section>, started: bool, blocks: seq<Block>): nat
  {
    BlockCount(sections) + (if started then 1 + |blocks| else 0)
  }

  lemma {:induction false} RawsAt(ss: seq<Section>, n: nat)
    requires n < |ss|
    ensures var p := |Raws(ss[..n])|;
      && p + |ss[n].raw| <= |Raws(ss)| && Raws(ss)[p..p + |ss[n].raw|] == ss[n].raw
      && (n == |ss| - 1 ==> p + |ss[n].raw| == |Raws(ss)|)
    ensures n + 1 < |ss| ==> |Raws(ss[..n])| + |ss[n].raw| + |ss[n + 1].raw| <= |Raws(ss)|
    ensures |Raws(ss[..n + 1])| == |Raws(ss[..n])| + |ss[n].raw|
  {
    var last := |ss| - 1;
    assert ss[..n + 1][..n] == ss[..n];
    assert Raws(ss) == Raws(ss[..last]) + ss[last].raw;
    if n < last {
      RawsAt(ss[..last], n);
      assert ss[..last][..n] == ss[..n];
      FrontSlice(Raws(ss[..last]), ss[last].raw, |Raws(ss[..n])|, |Raws(ss[..n])| + |ss[n].raw|);
      if n + 1 == last {
        assert ss[..last] == ss[..n + 1];
      }
    } else {
      BackSlice(Raws(ss[..n]), ss[n].raw);
    }
  }

  lemma {:induction false} LayoutAt(blocks: seq<Block>, i: nat, big: bool)
    requires i < |blocks|
    ensures var p := |Layout(blocks[..i], big)|;
      && p + |BlockBytes(blocks[i], big)| <= |Layout(blocks, big)|
      && Layout(blocks, big)[p..p + |BlockBytes(blocks[i], big)|] == BlockBytes(blocks[i], big)
  {
    hide BlockBytes;
    var last := |blocks| - 1;
    var front, back := Layout(blocks[..last], big), BlockBytes(blocks[last], big);
    assert Layout(blocks, big) == front + back;
    if i < last {
      LayoutAt(blocks[..last], i, big);
      assert blocks[..last][..i] == blocks[..i];
      FrontSlice(front, back, |Layout(blocks[..i], big)|, |Layout(blocks[..i], big)| + |BlockBytes(blocks[i], big)|);
    } else {
      BackSlice(front, back);
    }
  }

  lemma FrontSlice(a: seq<byte>, b: seq<byte>, i: nat, j: nat)
    requires i <= j <= |a|
    ensures (a + b)[i..j] == a[i..j]
  {
  }

  lemma BackSlice(a: seq<byte>, b: seq<byte>)
    ensures (a + b)[|a|..|a| + |b|] == b
  {
  }

  lemma {:induction false} MeaningPrefix(section: nat, big: bool, blocks: seq<Block>, i: nat, named: seq<byte> -> bool)
    requires i <= |blocks| && Meaning(section, big, blocks, named).Ok?
    ensures Meaning(section, big, blocks[..i], named).Ok?
    ensures |Meaning(section, big, blocks[..i], named).value.packets| <= |Meaning(section, big, blocks, named).value.packets|
  {
    hide Step;
    if i < |blocks| {
      var last := |blocks| - 1;
      MeaningPrefix(section, big, blocks[..last], i, named);
      assert blocks[..last][..i] == blocks[..i];
      StepPackets(section, big, Meaning(section, big, blocks[..last], named).value, blocks[last], named);
    } else {
      assert blocks[..i] == blocks;
    }
  }

  lemma {:induction false} CountsPrefix(ss: seq<Section>, n: nat)
    requires n < |ss|
    ensures PacketCount(ss[..n]) + |ss[n].packets| <= PacketCount(ss)
    ensures BlockCount(ss[..n]) + 1 + |ss[n].blocks| <= BlockCount(ss)
    ensures n + 1 < |ss| ==> BlockCount(ss[..n]) + 2 + |ss[n].blocks| <= BlockCount(ss)
  {
    var last := |ss| - 1;
    if n < last {
      CountsPrefix(ss[..last], n);
      assert ss[..last][..n] == ss[..n];
    }
  }

  lemma SectionParts(i: nat, s: Section, named: seq<byte> -> bool)
    requires SectionOk(i, s, named)
    ensures s.raw == BlockBytes(s.header, s.big) + Layout(s.blocks, s.big)
    ensures BlocksOk(s.header, s.blocks, s.big) && s.header.kind == SECTION_HEADER && HeaderOf(s.header.body, s.big).Ok?
    ensures HeaderOf(s.header.body, s.big).value == -1 || HeaderOf(s.header.body, s.big).value == |Layout(s.blocks, s.big)|
    ensures Meaning(i, s.big, s.blocks, named).Ok? && s.packets == Meaning(i, s.big, s.blocks, named).value.packets
  {
    hide *;
    assert SectionOk(i, s, named);
    SectionUnfold(i, s, named);
  }

  lemma SectionUnfold(i: nat, s: Section, named: seq<byte> -> bool)
    ensures SectionOk(i, s, named) <==>
      && s.raw == BlockBytes(s.header, s.big) + Layout(s.blocks, s.big)
      && BlocksOk(s.header, s.blocks, s.big)
      && s.header.kind == SECTION_HEADER && HeaderOf(s.header.body, s.big).Ok?
      && (HeaderOf(s.header.body, s.big).value == -1 || HeaderOf(s.header.body, s.big).value == |Layout(s.blocks, s.big)|)
      && Meaning(i, s.big, s.blocks, named).Ok? && s.packets == Meaning(i, s.big, s.blocks, named).value.packets
  {
    hide BlockBytes, Layout, BlocksOk, HeaderOf, Meaning;
  }

  /** The next bytes are a block of the section under way. */
  ghost predicate NextIsBlock(raw: seq<byte>, maxPackets: nat, named: seq<byte> -> bool, ss: seq<Section>, sections: seq<Section>,
                              started: bool, big: bool, header: Block, blocks: seq<Block>, inner: Inner, offset: nat)
  {
    && started && |sections| < |ss| && |blocks| < |ss[|sections|].blocks| && offset + 12 <= |raw| && |inner.losses| == |inner.faces|
    && raw[offset..offset + 4] != MAGIC
    && var b := ss[|sections|].blocks[|blocks|];
    && ParseBlock(raw[offset..], big) == Ok(b) && Step(|sections|, big, inner, b, named).Ok?
    && (b.kind == 6 ==> PacketCount(sections) + |inner.packets| < maxPackets)
    && On(ss, sections, started, big, header, blocks + [b])
  }

  /** The next bytes are the header of the next section; the one under way is complete. */
  ghost predicate NextIsHeader(raw: seq<byte>, named: seq<byte> -> bool, ss: seq<Section>, sections: seq<Section>,
                               started: bool, big: bool, header: Block, blocks: seq<Block>, offset: nat)
  {
    var n := |sections| + (if started then 1 else 0);
    && n < |ss| && offset + 12 <= |raw| && raw[offset..offset + 4] == MAGIC
    && (started ==> blocks == ss[|sections|].blocks && SectionOk(|sections|, ss[|sections|], named))
    && (started ==> ss[|sections|].big == big && ss[|sections|].header == header)
    && ByteOrder(raw[offset + 8..offset + 12]) == Some(ss[n].big)
    && ParseBlock(raw[offset..], ss[n].big) == Ok(ss[n].header) && HeaderOf(ss[n].header.body, ss[n].big).Ok?
  }

  lemma BlockInFile(raw: seq<byte>, maxPackets: nat, named: seq<byte> -> bool, ss: seq<Section>, n: nat, i: nat)
    requires Readable(raw, maxPackets, named, ss) && n < |ss| && i < |ss[n].blocks|
    ensures var p := |Raws(ss[..n])| + |BlockBytes(ss[n].header, ss[n].big)| + |Layout(ss[n].blocks[..i], ss[n].big)|;
      var b := ss[n].blocks[i];
      && p + |BlockBytes(b, ss[n].big)| <= |raw|
      && raw[p..p + |BlockBytes(b, ss[n].big)|] == BlockBytes(b, ss[n].big)
  {
    hide BlockBytes, Layout, SectionOk, Raws, BlocksOk, Meaning, HeaderOf;
    var s := ss[n];
    SectionParts(n, s, named);
    RawsAt(ss, n);
    LayoutAt(s.blocks, i, s.big);
    var p, q := |Raws(ss[..n])|, |BlockBytes(s.header, s.big)|;
    var k, m := |Layout(s.blocks[..i], s.big)|, |BlockBytes(s.blocks[i], s.big)|;
    assert s.raw[q..] == Layout(s.blocks, s.big);
    SubSlice(raw, p, |s.raw|, q + k, q + k + m);
    SubSlice(s.raw, q, |s.raw| - q, k, k + m);
    assert s.raw[q..|s.raw|] == s.raw[q..];
  }

  lemma HeaderInFile(raw: seq<byte>, maxPackets: nat, named: seq<byte> -> bool, ss: seq<Section>, n: nat)
    requires Readable(raw, maxPackets, named, ss) && n < |ss|
    ensures var p := |Raws(ss[..n])|;
      var own := BlockBytes(ss[n].header, ss[n].big);
      p + |own| <= |raw| && raw[p..p + |own|] == own
  {
    hide BlockBytes, Layout, SectionOk, Raws, BlocksOk, Meaning, HeaderOf;
    SectionParts(n, ss[n], named);
    RawsAt(ss, n);
    var own := BlockBytes(ss[n].header, ss[n].big);
    SubSlice(raw, |Raws(ss[..n])|, |ss[n].raw|, 0, |own|);
    assert ss[n].raw[0..|own|] == own;
  }

  lemma ParsedAt(raw: seq<byte>, p: nat, b: Block, big: bool)
    requires BlockOk(b) && p + |BlockBytes(b, big)| <= |raw| && raw[p..p + |BlockBytes(b, big)|] == BlockBytes(b, big)
    ensures p + 12 <= |raw| && ParseBlock(raw[p..], big) == Ok(b)
    ensures raw[p..p + 4] == MAGIC <==> b.kind == SECTION_HEADER
    ensures |b.body| >= 4 ==> raw[p + 8..p + 12] == b.body[..4]
  {
    hide BlockOk, Write, Read, BlockBytes;
    var own := BlockBytes(b, big);
    SubSlice(raw, p, |own|, 0, |own|);
    assert raw[p..][..|own|] == raw[p..p + |own|];
    BlockParsed(raw[p..], big, b);
    BlockAt(raw, p, big);
    MagicKind(big);
    WriteRead(raw[p..p + 4], big);
    WriteRead(MAGIC, big);
    BlockFields(b, big);
    if |b.body| >= 4 {
      SubSlice(raw, p, |own|, 8, 12);
      SubSlice(own, 8, |b.body|, 0, 4);
    }
  }

  /** Inside a readable file, what comes next is a block of its section or the header of its next section. */
  lemma Upcoming(raw: seq<byte>, maxPackets: nat, named: seq<byte> -> bool, ss: seq<Section>, sections: seq<Section>,
                 started: bool, big: bool, header: Block, blocks: seq<Block>, inner: Inner, offset: nat)
    requires Readable(raw, maxPackets, named, ss) && On(ss, sections, started, big, header, blocks)
    requires offset == Place(sections, started, big, header, blocks) < |raw|
    requires started ==> Meaning(|sections|, big, blocks, named) == Ok(inner)
    ensures Walked(sections, started, blocks) < MAX_BLOCKS
    ensures NextIsBlock(raw, maxPackets, named, ss, sections, started, big, header, blocks, inner, offset)
         || NextIsHeader(raw, named, ss, sections, started, big, header, blocks, offset)
  {
    hide BlockBytes, Layout, SectionOk, Raws, BlocksOk, Meaning, HeaderOf, Step, ParseBlock, BlockOk, ByteOrder, BlockCount, PacketCount;
    var n := |sections|;
    assert ss[..n] == sections;
    if started && |blocks| < |ss[n].blocks| {
      UpcomingBlock(raw, maxPackets, named, ss, sections, big, header, blocks, inner, offset);
    } else {
      UpcomingHeader(raw, maxPackets, named, ss, sections, started, big, header, blocks, offset);
    }
  }

  lemma UpcomingBlock(raw: seq<byte>, maxPackets: nat, named: seq<byte> -> bool, ss: seq<Section>, sections: seq<Section>,
                      big: bool, header: Block, blocks: seq<Block>, inner: Inner, offset: nat)
    requires Readable(raw, maxPackets, named, ss) && On(ss, sections, true, big, header, blocks)
    requires offset == Place(sections, true, big, header, blocks) && |blocks| < |ss[|sections|].blocks|
    requires Meaning(|sections|, big, blocks, named) == Ok(inner)
    ensures Walked(sections, true, blocks) < MAX_BLOCKS
    ensures NextIsBlock(raw, maxPackets, named, ss, sections, true, big, header, blocks, inner, offset)
  {
    hide BlockBytes, Layout, SectionOk, Raws, BlocksOk, Meaning, HeaderOf, Step, ParseBlock, BlockCount, PacketCount;
    var n := |sections|;
    var all, i := ss[n].blocks, |blocks|;
    assert ss[..n] == sections && all[..i] == blocks && all[..i + 1] == blocks + [all[i]];
    SectionParts(n, ss[n], named);
    BlockLegal(ss[n].header, all, big, i);
    BlockInFile(raw, maxPackets, named, ss, n, i);
    ParsedAt(raw, offset, all[i], big);
    MeaningPrefix(n, big, all, i + 1, named);
    LayoutMore(n, big, blocks, all[i], inner, named);
    StepPackets(n, big, inner, all[i], named);
    StepKind(n, big, inner, all[i], named);
    CountsPrefix(ss, n);
  }

  lemma BlockLegal(header: Block, blocks: seq<Block>, big: bool, i: nat)
    requires BlocksOk(header, blocks, big) && i < |blocks|
    ensures BlockOk(blocks[i]) && BlockOk(header) && |header.body| >= 4 && ByteOrder(header.body[..4]) == Some(big)
  {
  }

  lemma StepKind(section: nat, big: bool, s: Inner, b: Block, named: seq<byte> -> bool)
    requires |s.losses| == |s.faces| && Step(section, big, s, b, named).Ok?
    ensures b.kind != SECTION_HEADER
  {
    hide InterfaceOf, PacketOf, StatisticsOf;
  }

  lemma HeaderLegal(header: Block, blocks: seq<Block>, big: bool)
    requires BlocksOk(header, blocks, big)
    ensures BlockOk(header) && |header.body| >= 4 && ByteOrder(header.body[..4]) == Some(big)
  {
  }

  lemma UpcomingHeader(raw: seq<byte>, maxPackets: nat, named: seq<byte> -> bool, ss: seq<Section>, sections: seq<Section>,
                       started: bool, big: bool, header: Block, blocks: seq<Block>, offset: nat)
    requires Readable(raw, maxPackets, named, ss) && On(ss, sections, started, big, header, blocks)
    requires offset == Place(sections, started, big, header, blocks) < |raw|
    requires started ==> |blocks| == |ss[|sections|].blocks|
    ensures Walked(sections, started, blocks) < MAX_BLOCKS
    ensures NextIsHeader(raw, named, ss, sections, started, big, header, blocks, offset)
  {
    hide BlockBytes, Layout, SectionOk, Raws, BlocksOk, Meaning, HeaderOf, ParseBlock, BlockCount, PacketCount, ByteOrder, BlockOk;
    var n := |sections| + (if started then 1 else 0);
    assert ss[..|sections|] == sections;
    if started {
      var all := ss[|sections|].blocks;
      assert blocks == all[..|blocks|] == all;
      SectionParts(|sections|, ss[|sections|], named);
      RawsAt(ss, |sections|);
      CountsPrefix(ss, |sections|);
    } else {
      assert |sections| == |ss| ==> sections == ss;
      if |sections| < |ss| {
        CountsPrefix(ss, |sections|);
      }
    }
    assert n < |ss| && offset == |Raws(ss[..n])|;
    SectionParts(n, ss[n], named);
    HeaderLegal(ss[n].header, ss[n].blocks, ss[n].big);
    HeaderInFile(raw, maxPackets, named, ss, n);
    ParsedAt(raw, offset, ss[n].header, ss[n].big);
  }

  /** At the end of a readable file the section under way is its last, complete. */
  lemma AtEnd(raw: seq<byte>, maxPackets: nat, named: seq<byte> -> bool, ss: seq<Section>, sections: seq<Section>,
              big: bool, header: Block, blocks: seq<Block>)
    requires Readable(raw, maxPackets, named, ss) && On(ss, sections, true, big, header, blocks)
    requires Place(sections, true, big, header, blocks) == |raw|
    ensures |ss| == |sections| + 1 && blocks == ss[|sections|].blocks && SectionOk(|sections|, ss[|sections|], named)
  {
    hide BlockBytes, Layout, SectionOk, Raws, BlocksOk, Meaning, HeaderOf, BlockCount, PacketCount;
    var n := |sections|;
    var all := ss[n].blocks;
    assert ss[..n] == sections && all[..|blocks|] == blocks;
    assert |blocks| == |all| ==> blocks == all;
    if |blocks| < |all| {
      BlockInFile(raw, maxPackets, named, ss, n, |blocks|);
    }
    SectionParts(n, ss[n], named);
    RawsAt(ss, n);
    if n + 1 < |ss| {
      SectionParts(n + 1, ss[n + 1], named);
    }
  }

  lemma Starts(raw: seq<byte>, maxPackets: nat, named: seq<byte> -> bool, ss: seq<Section>)
    requires Readable(raw, maxPackets, named, ss)
    ensures |raw| >= 4 && raw[..4] == MAGIC && On(ss, [], false, false, Block(0, []), [])
  {
    hide BlockBytes, Layout, SectionOk, Raws, BlocksOk, Meaning, HeaderOf, BlockCount, PacketCount, BlockOk, ByteOrder;
    SectionParts(0, ss[0], named);
    HeaderLegal(ss[0].header, ss[0].blocks, ss[0].big);
    HeaderInFile(raw, maxPackets, named, ss, 0);
    assert ss[..0] == [];
    NoSections(named);
    ParsedAt(raw, 0, ss[0].header, ss[0].big);
    assert raw[0..4] == raw[..4];
  }

  /** The sections of a file, each with its packets, and all losses reported; `ss` is any candidate reading. */
  method PcapngEnvelopes(raw: seq<byte>, maxPackets: nat, named: seq<byte> -> bool, ghost ss: seq<Section>)
      returns (r: Result<(seq<Section>, nat)>)
    ensures r.Ok? ==> Readable(raw, maxPackets, named, r.value.0) && r.value.1 == AllLost(r.value.0, named)
    ensures Readable(raw, maxPackets, named, ss) ==> r.Ok? && r.value.0 == ss
  {
    hide BlockBytes, Layout, SectionOk, Raws, BlocksOk, Meaning, HeaderOf, Step, ParseBlock, BlockOk, ByteOrder, BlockCount, PacketCount,
      AllLost, Under, Place, On;
    if Readable(raw, maxPackets, named, ss) {
      Starts(raw, maxPackets, named, ss);
    }
    if |raw| < 4 || raw[..4] != MAGIC {
      return Err(Resource);
    }
    var offset, start, declared, big := 0, 0, -1, false;
    var header, blocks, inner, started := Block(0, []), [], NOTHING, false;
    var sections: seq<Section>, lost, total, count := [], 0, 0, 0;
    NoSections(named);
    while offset < |raw|
      invariant start <= offset <= |raw| && Raws(sections) == raw[..start]
      invariant started <==> 0 < offset
      invariant !started ==> start == 0 && sections == [] && inner == NOTHING && blocks == []
      invariant started ==> Under(raw[start..offset], |sections|, big, header, blocks, declared, inner, named)
      invariant PacketCount(sections) + |inner.packets| == total <= maxPackets
      invariant lost == AllLost(sections, named)
      invariant count == Walked(sections, started, blocks) <= MAX_BLOCKS
      invariant |sections| + (if started then 1 else 0) <= MAX_SECTIONS
      invariant forall i :: 0 <= i < |sections| ==> SectionOk(i, sections[i], named)
      invariant Readable(raw, maxPackets, named, ss) ==> On(ss, sections, started, big, header, blocks)
    {
      UnderPlace(raw, start, offset, sections, started, big, header, blocks, declared, inner, named);
      if Readable(raw, maxPackets, named, ss) {
        Upcoming(raw, maxPackets, named, ss, sections, started, big, header, blocks, inner, offset);
        UpcomingParts(raw, maxPackets, named, ss, sections, started, big, header, blocks, inner, offset);
      }
      if count >= MAX_BLOCKS {
        return Err(Capacity);
      }
      count := count + 1;
      if |raw| - offset < 12 {
        return Err(Resource);
      }
      if raw[offset..offset + 4] == MAGIC {
        if |sections| + (if started then 1 else 0) >= MAX_SECTIONS {
          return Err(Capacity);
        }
        if started {
          UnderParts(raw[start..offset], |sections|, big, header, blocks, declared, inner, named);
          var closed := CloseSection(sections, lost, raw[start..offset], big, header, blocks, declared, inner, named);
          if Readable(raw, maxPackets, named, ss) {
            Closed(ss, sections, raw[start..offset], big, header, blocks, declared, inner, named);
          }
          if closed.Err? {
            return Err(closed.code);
          }
          assert raw[..start] + raw[start..offset] == raw[..offset];
          sections, lost := closed.value.0, closed.value.1;
        }
        var first := OpenSection(raw, offset);
        if first.Err? {
          return Err(first.code);
        }
        var (order, b, opening) := first.value;
        big, start, inner, blocks := order, offset, NOTHING, [];
        header, declared, started := b, opening, true;
        offset := offset + 12 + |b.body|;
        Opening(raw, start, |sections|, big, b, declared, named);
        OpeningOn(ss, sections, big, header);
        assert Walked(sections, true, []) == count;
      } else {
        assert raw[0..4] == raw[..4];
        UnderParts(raw[start..offset], |sections|, big, header, blocks, declared, inner, named);
        var b := ParseBlock(raw[offset..], big);
        if b.Err? {
          return Err(b.code);
        }
        var next := Step(|sections|, big, inner, b.value, named);
        if next.Err? {
          return Err(next.code);
        }
        if b.value.kind == 6 && total >= maxPackets {
          return Err(Capacity);
        }
        StepPackets(|sections|, big, inner, b.value, named);
        Continuing(raw, start, offset, |sections|, big, header, blocks, declared, inner, b.value, named);
        total := total + (if b.value.kind == 6 then 1 else 0);
        inner, blocks := next.value, blocks + [b.value];
        offset := offset + 12 + |b.value.body|;
      }
    }
    UnderPlace(raw, start, offset, sections, started, big, header, blocks, declared, inner, named);
    UnderParts(raw[start..offset], |sections|, big, header, blocks, declared, inner, named);
    var closed := CloseSection(sections, lost, raw[start..offset], big, header, blocks, declared, inner, named);
    if Readable(raw, maxPackets, named, ss) {
      AtEnd(raw, maxPackets, named, ss, sections, big, header, blocks);
      Closed(ss, sections, raw[start..offset], big, header, blocks, declared, inner, named);
    }
    if closed.Err? {
      return Err(closed.code);
    }
    assert raw[..start] + raw[start..offset] == raw;
    return closed;
  }

  /** A section header: its byte order, its block and the length it declares. */
  method OpenSection(raw: seq<byte>, offset: nat) returns (r: Result<(bool, Block, int)>)
    requires offset + 12 <= |raw|
    ensures var order := ByteOrder(raw[offset + 8..offset + 12]);
      if order.None? then r == Err(Resource)
      else
        var b := ParseBlock(raw[offset..], order.value);
        if b.Err? then r == Err(b.code)
        else
          var opening := HeaderOf(b.value.body, order.value);
          r == if opening.Err? then Err(opening.code) else Ok((order.value, b.value, opening.value))
  {
    hide ByteOrder, ParseBlock, HeaderOf;
    var order := ByteOrder(raw[offset + 8..offset + 12]);
    if order.None? {
      return Err(Resource);
    }
    var b := ParseBlock(raw[offset..], order.value);
    if b.Err? {
      return Err(b.code);
    }
    var opening := HeaderOf(b.value.body, order.value);
    return if opening.Err? then Err(opening.code) else Ok((order.value, b.value, opening.value));
  }

  /** The bytes of the section under way are its blocks so far, and they mean `inner`. */
  ghost predicate Under(raw: seq<byte>, i: nat, big: bool, header: Block, blocks: seq<Block>, declared: int, inner: Inner,
                        named: seq<byte> -> bool)
  {
    && raw == BlockBytes(header, big) + Layout(blocks, big)
    && header.kind == SECTION_HEADER && HeaderOf(header.body, big) == Ok(declared)
    && BlocksOk(header, blocks, big) && Meaning(i, big, blocks, named) == Ok(inner)
  }

  lemma UnderParts(raw: seq<byte>, i: nat, big: bool, header: Block, blocks: seq<Block>, declared: int, inner: Inner,
                   named: seq<byte> -> bool)
    requires Under(raw, i, big, header, blocks, declared, inner, named)
    ensures raw == BlockBytes(header, big) + Layout(blocks, big) && |inner.losses| == |inner.faces|
    ensures header.kind == SECTION_HEADER && HeaderOf(header.body, big) == Ok(declared)
    ensures BlocksOk(header, blocks, big) && Meaning(i, big, blocks, named) == Ok(inner)
  {
    hide BlockBytes, Layout, BlocksOk, HeaderOf, Meaning;
  }

  lemma UnderPlace(raw: seq<byte>, start: nat, offset: nat, sections: seq<Section>, started: bool, big: bool, header: Block,
                   blocks: seq<Block>, declared: int, inner: Inner, named: seq<byte> -> bool)
    requires start <= offset <= |raw| && Raws(sections) == raw[..start]
    requires started ==> Under(raw[start..offset], |sections|, big, header, blocks, declared, inner, named)
    requires !started ==> start == offset
    ensures offset == Place(sections, started, big, header, blocks)
    ensures started ==> Meaning(|sections|, big, blocks, named) == Ok(inner)
  {
    hide BlockBytes, Layout, BlocksOk, HeaderOf, Meaning, Raws;
  }

  lemma UpcomingParts(raw: seq<byte>, maxPackets: nat, named: seq<byte> -> bool, ss: seq<Section>, sections: seq<Section>,
                      started: bool, big: bool, header: Block, blocks: seq<Block>, inner: Inner, offset: nat)
    requires On(ss, sections, started, big, header, blocks) && |ss| <= MAX_SECTIONS
    requires NextIsBlock(raw, maxPackets, named, ss, sections, started, big, header, blocks, inner, offset)
          || NextIsHeader(raw, named, ss, sections, started, big, header, blocks, offset)
    ensures offset + 12 <= |raw|
    ensures raw[offset..offset + 4] == MAGIC ==> |sections| + (if started then 1 else 0) < MAX_SECTIONS
  {
    hide ParseBlock, Step, HeaderOf, ByteOrder, SectionOk;
  }

  /** Closing the section under way where a readable file closes it succeeds and gives that file's section. */
  lemma Closed(ss: seq<Section>, sections: seq<Section>, raw: seq<byte>, big: bool, header: Block, blocks: seq<Block>, declared: int,
               inner: Inner, named: seq<byte> -> bool)
    requires On(ss, sections, true, big, header, blocks) && Under(raw, |sections|, big, header, blocks, declared, inner, named)
    requires blocks == ss[|sections|].blocks && SectionOk(|sections|, ss[|sections|], named)
    ensures declared == -1 || declared == |raw| - |BlockBytes(header, big)|
    ensures sections + [Section(raw, inner.packets, big, header, blocks)] == ss[..|sections| + 1]
  {
    hide BlockBytes, Layout, BlocksOk, HeaderOf, Meaning;
    SectionParts(|sections|, ss[|sections|], named);
    assert ss[..|sections| + 1] == ss[..|sections|] + [ss[|sections|]];
  }

  lemma OpeningOn(ss: seq<Section>, sections: seq<Section>, big: bool, header: Block)
    ensures sections <= ss && |sections| < |ss| && ss[|sections|].big == big && ss[|sections|].header == header ==>
      On(ss, sections, true, big, header, [])
  {
  }

  lemma Opening(raw: seq<byte>, start: nat, i: nat, big: bool, b: Block, declared: int, named: seq<byte> -> bool)
    requires start + 12 <= |raw| && ParseBlock(raw[start..], big) == Ok(b) && raw[start..start + 4] == MAGIC
    requires ByteOrder(raw[start + 8..start + 12]) == Some(big) && HeaderOf(b.body, big) == Ok(declared)
    ensures start + 12 + |b.body| <= |raw|
    ensures Under(raw[start..start + 12 + |b.body|], i, big, b, [], declared, NOTHING, named)
  {
    hide ParseBlock, BlockBytes, ByteOrder, HeaderOf, BlocksOk, Layout, Meaning, Read;
    BlockAt(raw, start, big);
    MagicKind(big);
    NoBlocks(i, big, named);
    BlocksFirst(raw, start, big, b);
    assert BlockBytes(b, big) + [] == BlockBytes(b, big);
  }

  lemma Continuing(raw: seq<byte>, start: nat, offset: nat, i: nat, big: bool, header: Block, blocks: seq<Block>, declared: int,
                   inner: Inner, b: Block, named: seq<byte> -> bool)
    requires start <= offset && offset + 12 <= |raw| && Under(raw[start..offset], i, big, header, blocks, declared, inner, named)
    requires ParseBlock(raw[offset..], big) == Ok(b) && |inner.losses| == |inner.faces| && Step(i, big, inner, b, named).Ok?
    ensures offset + 12 + |b.body| <= |raw|
    ensures Under(raw[start..offset + 12 + |b.body|], i, big, header, blocks + [b], declared, Step(i, big, inner, b, named).value, named)
  {
    hide ParseBlock, BlockBytes, HeaderOf, BlocksOk, Layout, Meaning, Step, BlockOk, Read;
    BlockAt(raw, offset, big);
    BlocksMore(header, blocks, big, b);
    LayoutMore(i, big, blocks, b, inner, named);
    var end := offset + 12 + |b.body|;
    assert raw[start..end] == raw[start..offset] + raw[offset..end];
  }

  lemma NoSections(named: seq<byte> -> bool)
    ensures Raws([]) == [] && PacketCount([]) == 0 && AllLost([], named) == 0 && NOTHING.packets == [] && BlockCount([]) == 0
  {
  }

  /** A byte string has at most one reading as blocks. */
  lemma {:induction false} SameBlocks(a: seq<Block>, b: seq<Block>, big: bool)
    requires Layout(a, big) == Layout(b, big)
    requires forall i :: 0 <= i < |a| ==> BlockOk(a[i])
    requires forall i :: 0 <= i < |b| ==> BlockOk(b[i])
    ensures a == b
    decreases |a|
  {
    hide BlockBytes, BlockOk;
    if a == [] {
      assert b == [];
    } else if b == [] {
      assert false;
    } else {
      var x, y := a[|a| - 1], b[|b| - 1];
      SameLast(Layout(a[..|a| - 1], big), x, Layout(b[..|b| - 1], big), y, big);
      SameBlocks(a[..|a| - 1], b[..|b| - 1], big);
      assert a == a[..|a| - 1] + [x] && b == b[..|b| - 1] + [y];
    }
  }

  /** The trailing length makes the last block of a layout unique. */
  lemma SameLast(s: seq<byte>, x: Block, t: seq<byte>, y: Block, big: bool)
    requires BlockOk(x) && BlockOk(y) && s + BlockBytes(x, big) == t + BlockBytes(y, big)
    ensures s == t && x == y
  {
    hide Write, Read;
    Widths();
    var raw := s + BlockBytes(x, big);
    var m, n := 12 + |x.body|, 12 + |y.body|;
    assert raw[|raw| - 4..] == Write(m, 4, big) && raw[|raw| - 4..] == Write(n, 4, big);
    ReadWrite(m, 4, big);
    ReadWrite(n, 4, big);
    assert s == raw[..|raw| - m] == t;
    var own := raw[|raw| - m..];
    assert own == BlockBytes(x, big) && own == BlockBytes(y, big);
    assert own[0..4] == Write(x.kind, 4, big) && own[0..4] == Write(y.kind, 4, big);
    ReadWrite(x.kind, 4, big);
    ReadWrite(y.kind, 4, big);
    assert own[8..m - 4] == x.body && own[8..m - 4] == y.body;
  }

  lemma {:induction false} LayoutFront(header: Block, blocks: seq<Block>, big: bool)
    ensures Layout([header] + blocks, big) == BlockBytes(header, big) + Layout(blocks, big)
  {
    hide BlockBytes, Layout;
    var all, n := [header] + blocks, |blocks|;
    LayoutLast(all, big);
    if blocks == [] {
      assert all[..0] == [];
      LayoutNone(big);
    } else {
      LayoutFront(header, blocks[..n - 1], big);
      LayoutLast(blocks, big);
      assert all[..n] == [header] + blocks[..n - 1];
    }
  }

  lemma LayoutLast(blocks: seq<Block>, big: bool)
    requires blocks != []
    ensures Layout(blocks, big) == Layout(blocks[..|blocks| - 1], big) + BlockBytes(blocks[|blocks| - 1], big)
  {
    hide BlockBytes;
  }

  lemma LayoutNone(big: bool)
    ensures Layout([], big) == []
  {
  }

  lemma OwnOrder(s: Section, i: nat, named: seq<byte> -> bool)
    requires SectionOk(i, s, named)
    ensures |s.raw| >= 12 && ByteOrder(s.raw[8..12]) == Some(s.big)
  {
    hide Write, ByteOrder, Layout, Meaning, HeaderOf, BlockOk;
    var own := BlockBytes(s.header, s.big);
    assert own[8..12] == s.header.body[..4] && s.raw[8..12] == own[8..12];
  }

  /** The bytes of a returned slice alone determine its blocks and its packets. */
  lemma SliceDetermines(s: Section, t: Section, i: nat, named: seq<byte> -> bool)
    requires SectionOk(i, s, named) && SectionOk(i, t, named) && s.raw == t.raw
    ensures s == t
  {
    hide Write, ByteOrder, Layout, Meaning, HeaderOf, BlockOk, BlockBytes;
    OwnOrder(s, i, named);
    OwnOrder(t, i, named);
    LayoutFront(s.header, s.blocks, s.big);
    LayoutFront(t.header, t.blocks, t.big);
    SameBlocks([s.header] + s.blocks, [t.header] + t.blocks, s.big);
    assert ([s.header] + s.blocks)[1..] == s.blocks && ([t.header] + t.blocks)[1..] == t.blocks;
    assert s.header == ([s.header] + s.blocks)[0] == t.header;
  }
}
