/** The hash-linked chain of saved observation segments, and the reader that accepts it. */
module Chain {
  import opened Common

  /** One observation: what it is, where it was recorded, and the bytes its producer charged for keeping it. */
  datatype Row = Row(id: nat, origin: nat, size: nat)

  /** `observed` stands for the host and session facts a manifest repeats. */
  datatype Manifest = Manifest(
    format: nat,
    run: nat,
    baseline: nat,
    channel: nat,
    observed: nat,
    recordsDigest: nat,
    counts: seq<nat>,
    recordCount: nat,
    dropped: nat)

  datatype Archive = Archive(manifest: Manifest, rows: seq<seq<Row>>)

  datatype Link = Link(
    format: nat,
    index: nat,
    segment: nat,
    run: nat,
    baseline: nat,
    previous: nat,
    manifestDigest: nat,
    recordsDigest: nat,
    starts: seq<nat>,
    ends: seq<nat>,
    before: nat,
    after: nat)

  /** The canonical texts that are hashed; distinct values have distinct texts. */
  datatype Text = LinkText(link: Link) | ManifestText(manifest: Manifest) | RecordsText(rows: seq<seq<Row>>)

  datatype Codec = Codec(hash: Text -> nat, size: Text -> nat)

  datatype Segment = Segment(link: Link, archive: Archive)

  /** Where a chain has got to: what the next link must continue. */
  datatype Cursor = Cursor(index: nat, run: nat, previous: nat, counts: seq<nat>, dropped: nat)

  datatype Limits = Limits(maxSegments: nat, maxRecords: nat, maxBytes: nat)

  const GENESIS: nat := 0
  const MAX_COUNT: nat := 10_000_000_000
  const MAX_DROPPED: nat := 0x1f_ffff_ffff_ffff
  const MAX_RECORDS: nat := 100_000
  const MAX_BYTES: nat := 268_435_456
  const DESCRIPTOR_BYTES: nat := 16_384

  function RowCount(rows: seq<seq<Row>>): nat
  {
    if rows == [] then 0 else |rows[0]| + RowCount(rows[1..])
  }

  function Counts(rows: seq<seq<Row>>): seq<nat>
  {
    seq(|rows|, k requires 0 <= k < |rows| => |rows[k]|)
  }

  function ArchiveSize(c: Codec, a: Archive): nat
  {
    c.size(RecordsText(a.rows)) + c.size(ManifestText(a.manifest))
  }

  function SegmentSize(c: Codec, s: Segment): nat
  {
    ArchiveSize(c, s.archive) + c.size(LinkText(s.link))
  }

  /** What readback requires of one saved archive. */
  predicate ArchiveValid(c: Codec, baseline: nat, a: Archive, maxRecords: int, maxBytes: int)
  {
    && a.manifest.baseline == baseline && a.manifest.counts == Counts(a.rows)
    && a.manifest.recordCount == RowCount(a.rows) && 1 <= a.manifest.recordCount <= Min(maxRecords, MAX_RECORDS)
    && a.manifest.recordsDigest == c.hash(RecordsText(a.rows))
    && a.manifest.dropped <= U64_MAX
    && ArchiveSize(c, a) <= Min(maxBytes, MAX_BYTES)
  }

  function Ends(starts: seq<nat>, rows: seq<seq<Row>>): seq<nat>
    requires |starts| == |rows|
  {
    seq(|rows|, k requires 0 <= k < |rows| => starts[k] + |rows[k]|)
  }

  predicate Small(counts: seq<nat>) { forall k :: 0 <= k < |counts| ==> counts[k] <= MAX_COUNT }

  /** A link continues the chain at `at` with archive `a`. */
  predicate Follows(c: Codec, link: Link, a: Archive, at: Cursor)
  {
    && link.format == a.manifest.format && link.index == at.index && link.segment == at.index && link.run == at.run
    && link.baseline == a.manifest.baseline && link.previous == at.previous
    && link.manifestDigest == c.hash(ManifestText(a.manifest)) && link.recordsDigest == c.hash(RecordsText(a.rows))
    && |at.counts| == |a.rows| && link.starts == at.counts && link.ends == Ends(at.counts, a.rows)
    && Small(link.starts) && Small(link.ends)
    && link.before == at.dropped && link.before <= link.after == a.manifest.dropped && link.after <= MAX_DROPPED
  }

  function AfterLink(c: Codec, link: Link): Cursor
  {
    Cursor(link.index + 1, link.run, c.hash(LinkText(link)), link.ends, link.after)
  }

  function Start(s: Segment): Cursor
  {
    Cursor(0, s.link.run, GENESIS, seq(|s.archive.rows|, _ => 0), s.link.before)
  }

  function At(c: Codec, files: seq<Segment>, i: nat): Cursor
    requires 0 < |files| && i <= |files|
  {
    if i == 0 then Start(files[0]) else AfterLink(c, files[i - 1].link)
  }

  /** One segment is well-formed, of the same run, format and channel as the first, and continues the chain. */
  predicate Continues(c: Codec, baseline: nat, files: seq<Segment>, i: nat)
    requires i < |files|
  {
    && ArchiveValid(c, baseline, files[i].archive, MAX_RECORDS, MAX_BYTES)
    && files[i].archive.manifest.run == files[0].link.run
    && files[i].archive.manifest.channel == files[0].archive.manifest.channel
    && files[i].archive.manifest.format == files[0].archive.manifest.format
    && Follows(c, files[i].link, files[i].archive, At(c, files, i))
  }

  predicate Chained(c: Codec, baseline: nat, files: seq<Segment>)
  {
    |files| > 0 && forall i :: 0 <= i < |files| ==> Continues(c, baseline, files, i)
  }

  /** Everything saved for one stream, in order. */
  function Saved(files: seq<Segment>, k: nat): seq<Row>
  {
    if files == [] then []
    else Saved(files[..|files| - 1], k) + (var rows := files[|files| - 1].archive.rows; if k < |rows| then rows[k] else [])
  }

  function Bytes(c: Codec, files: seq<Segment>): nat
  {
    if files == [] then 0 else Bytes(c, files[..|files| - 1]) + SegmentSize(c, files[|files| - 1])
  }

  function Records(files: seq<Segment>): nat
  {
    if files == [] then 0 else Records(files[..|files| - 1]) + files[|files| - 1].archive.manifest.recordCount
  }

  // ---------------------------------------------------------------- the chain so far

  lemma ChainedPrefix(c: Codec, baseline: nat, files: seq<Segment>, n: nat)
    requires Chained(c, baseline, files) && 0 < n <= |files|
    ensures Chained(c, baseline, files[..n]) && At(c, files[..n], n) == At(c, files, n)
  {
    hide ArchiveValid, Follows;
    forall i | 0 <= i < n ensures Continues(c, baseline, files[..n], i) {
      assert Continues(c, baseline, files, i);
      assert At(c, files[..n], i) == At(c, files, i);
    }
  }

  /** A segment that continues a chain extends it; a first one begins it. */
  lemma ChainedExtend(c: Codec, baseline: nat, files: seq<Segment>, s: Segment)
    requires files == [] || Chained(c, baseline, files)
    requires ArchiveValid(c, baseline, s.archive, MAX_RECORDS, MAX_BYTES)
    requires var first := if files == [] then s else files[0];
      && s.archive.manifest.run == first.link.run && s.archive.manifest.channel == first.archive.manifest.channel
      && s.archive.manifest.format == first.archive.manifest.format
    requires Follows(c, s.link, s.archive, At(c, files + [s], |files|))
    ensures Chained(c, baseline, files + [s])
  {
    hide ArchiveValid, Follows;
    var after := files + [s];
    forall i | 0 <= i < |after| ensures Continues(c, baseline, after, i) {
      if i < |files| {
        assert Continues(c, baseline, files, i);
        assert At(c, after, i) == At(c, files, i);
      }
    }
  }

  /** The counts a link ends with are the lengths of what is saved up to it, stream by stream. */
  lemma {:induction false} CountsSaved(c: Codec, baseline: nat, files: seq<Segment>, n: nat, k: nat)
    requires Chained(c, baseline, files) && n <= |files| && k < |files[0].archive.rows|
    ensures k < |At(c, files, n).counts| == |files[0].archive.rows|
    ensures At(c, files, n).counts[k] == |Saved(files[..n], k)|
  {
    hide ArchiveValid;
    if n > 0 {
      CountsSaved(c, baseline, files, n - 1, k);
      assert Continues(c, baseline, files, n - 1);
      assert files[..n][..n - 1] == files[..n - 1];
    }
  }

  // ---------------------------------------------------------------- the tip determines the chain

  /** Two different texts with one digest. */
  ghost predicate Collision(c: Codec)
  {
    exists x: Text, y: Text :: x != y && c.hash(x) == c.hash(y)
  }

  lemma SameText(c: Codec, x: Text, y: Text)
    requires c.hash(x) == c.hash(y)
    ensures x == y || Collision(c)
  {
  }

  lemma SameSegment(c: Codec, a: Segment, b: Segment, at: Cursor, bt: Cursor)
    requires Follows(c, a.link, a.archive, at) && Follows(c, b.link, b.archive, bt)
    requires c.hash(LinkText(a.link)) == c.hash(LinkText(b.link))
    ensures Collision(c) || (a == b && at.previous == bt.previous && at.index == bt.index)
  {
    SameText(c, LinkText(a.link), LinkText(b.link));
    if a.link == b.link {
      SameText(c, ManifestText(a.archive.manifest), ManifestText(b.archive.manifest));
      SameText(c, RecordsText(a.archive.rows), RecordsText(b.archive.rows));
    }
  }

  lemma IndexAt(c: Codec, baseline: nat, files: seq<Segment>, i: nat)
    requires Chained(c, baseline, files) && i <= |files|
    ensures At(c, files, i).index == i
  {
    hide ArchiveValid;
    if i > 0 {
      assert Continues(c, baseline, files, i - 1);
      IndexAt(c, baseline, files, i - 1);
    }
  }

  /** Two accepted chains with one tip are the same chain, or the hash has collided. */
  lemma {:induction false} TipDetermines(c: Codec, baseline: nat, a: seq<Segment>, b: seq<Segment>)
    requires Chained(c, baseline, a) && Chained(c, baseline, b)
    requires At(c, a, |a|).previous == At(c, b, |b|).previous
    ensures a == b || Collision(c)
    decreases |a|
  {
    hide ArchiveValid, Follows, Collision;
    var m, n := |a| - 1, |b| - 1;
    assert Continues(c, baseline, a, m) && Continues(c, baseline, b, n);
    SameSegment(c, a[m], b[n], At(c, a, m), At(c, b, n));
    IndexAt(c, baseline, a, m);
    IndexAt(c, baseline, b, n);
    if !Collision(c) && m > 0 {
      ChainedPrefix(c, baseline, a, m);
      ChainedPrefix(c, baseline, b, m);
      TipDetermines(c, baseline, a[..m], b[..m]);
      assert a == a[..m] + [a[m]] && b == b[..m] + [b[m]];
    }
  }

  // ---------------------------------------------------------------- the reader

  /** The reader's running limits leave room for segment i. */
  predicate Fits(c: Codec, lim: Limits, files: seq<Segment>, i: nat)
    requires i < |files|
  {
    var text := c.size(LinkText(files[i].link));
    var bytes, records := Bytes(c, files[..i]), Records(files[..i]);
    && text <= Min(DESCRIPTOR_BYTES, lim.maxBytes - bytes)
    && records < lim.maxRecords && bytes + text < lim.maxBytes
    && files[i].archive.manifest.recordCount <= lim.maxRecords - records
    && ArchiveSize(c, files[i].archive) <= lim.maxBytes - bytes - text
  }

  /** What a reading accepts: a whole chain within its limits, and the trusted count and tip if they are given. */
  ghost predicate Readable(c: Codec, baseline: nat, lim: Limits, files: seq<Segment>, trusted: Option<(nat, nat)>)
  {
    && Chained(c, baseline, files) && |files| <= lim.maxSegments
    && (forall i :: 0 <= i < |files| ==> Fits(c, lim, files, i))
    && (trusted.Some? ==> trusted.value.0 == |files| && trusted.value.1 == At(c, files, |files|).previous)
  }

  /** Reads the committed segments in order, keeping running totals. */
  method ReadChain(c: Codec, baseline: nat, lim: Limits, files: seq<Segment>, trusted: Option<(nat, nat)>) returns (r: Result<Cursor>)
    ensures r.Ok? <==> Readable(c, baseline, lim, files, trusted)
    ensures r.Ok? ==> r.value == At(c, files, |files|)
  {
    hide Follows, RowCount, SegmentSize;
    if |files| == 0 || |files| > lim.maxSegments || (trusted.Some? && trusted.value.0 != |files|) {
      return Err(Resource);
    }
    var at := Start(files[0]);
    var bytes, records := 0, 0;
    for i := 0 to |files|
      invariant at == At(c, files, i) && bytes == Bytes(c, files[..i]) && records == Records(files[..i])
      invariant forall j :: 0 <= j < i ==> Continues(c, baseline, files, j) && Fits(c, lim, files, j)
    {
      var s := files[i];
      assert files[..i + 1][..i] == files[..i];
      var text := c.size(LinkText(s.link));
      if text > Min(DESCRIPTOR_BYTES, lim.maxBytes - bytes) {
        assert !Fits(c, lim, files, i);
        return Err(Capacity);
      }
      bytes := bytes + text;
      if records >= lim.maxRecords || bytes >= lim.maxBytes {
        assert !Fits(c, lim, files, i);
        return Err(Capacity);
      }
      if !ArchiveValid(c, baseline, s.archive, Min(MAX_RECORDS, lim.maxRecords - records), Min(MAX_BYTES, lim.maxBytes - bytes)) {
        assert !Continues(c, baseline, files, i) || !Fits(c, lim, files, i);
        return Err(Resource);
      }
      if s.archive.manifest.run != files[0].link.run || s.archive.manifest.channel != files[0].archive.manifest.channel
         || s.archive.manifest.format != files[0].archive.manifest.format || !Follows(c, s.link, s.archive, at) {
        assert !Continues(c, baseline, files, i);
        return Err(Resource);
      }
      SizeParts(c, s);
      bytes := bytes + ArchiveSize(c, s.archive);
      records := records + s.archive.manifest.recordCount;
      at := AfterLink(c, s.link);
    }
    assert files[..|files|] == files;
    if trusted.Some? && at.previous != trusted.value.1 {
      return Err(Resource);
    }
    return Ok(at);
  }

  lemma SizeParts(c: Codec, s: Segment)
    ensures SegmentSize(c, s) == ArchiveSize(c, s.archive) + c.size(LinkText(s.link))
  {
  }

  lemma {:induction false} TotalsGrow(c: Codec, files: seq<Segment>, i: nat, n: nat)
    requires i <= n <= |files|
    ensures Bytes(c, files[..i]) <= Bytes(c, files[..n]) && Records(files[..i]) <= Records(files[..n])
  {
    if i < n {
      TotalsGrow(c, files, i, n - 1);
      assert files[..n][..n - 1] == files[..n - 1];
    }
  }

  /** A chain is read back whole by any reader whose limits exceed its totals. */
  lemma ReadableWithin(c: Codec, baseline: nat, lim: Limits, files: seq<Segment>)
    requires Chained(c, baseline, files) && |files| <= lim.maxSegments
    requires Records(files) <= lim.maxRecords && Bytes(c, files) <= lim.maxBytes
    requires forall i :: 0 <= i < |files| ==> c.size(LinkText(files[i].link)) <= DESCRIPTOR_BYTES
    requires forall i :: 0 <= i < |files| ==> 0 < ArchiveSize(c, files[i].archive)
    ensures Readable(c, baseline, lim, files, Some((|files|, At(c, files, |files|).previous)))
  {
    hide *;
    forall i | 0 <= i < |files| ensures Fits(c, lim, files, i) {
      FitsWithin(c, baseline, lim, files, i);
    }
    ReadableParts(c, baseline, lim, files);
  }

  lemma FitsWithin(c: Codec, baseline: nat, lim: Limits, files: seq<Segment>, i: nat)
    requires Chained(c, baseline, files) && i < |files|
    requires Records(files) <= lim.maxRecords && Bytes(c, files) <= lim.maxBytes
    requires c.size(LinkText(files[i].link)) <= DESCRIPTOR_BYTES && 0 < ArchiveSize(c, files[i].archive)
    ensures Fits(c, lim, files, i)
  {
    assert Continues(c, baseline, files, i);
    hide Follows, RowCount, Counts, Chained;
    assert files[..i + 1][..i] == files[..i];
    TotalsGrow(c, files, i + 1, |files|);
    assert files[..|files|] == files;
  }

  lemma ReadableParts(c: Codec, baseline: nat, lim: Limits, files: seq<Segment>)
    requires Chained(c, baseline, files) && |files| <= lim.maxSegments
    requires forall i :: 0 <= i < |files| ==> Fits(c, lim, files, i)
    ensures Readable(c, baseline, lim, files, Some((|files|, At(c, files, |files|).previous)))
  {
    hide Chained, Fits, At;
  }
}
