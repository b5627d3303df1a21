/** The observation recorder: a snapshot is saved and read back before its rows are reclaimed. */
module Recorder {
  import opened Common
  import opened Chain
  import opened Streams

  function Charge(rows: seq<Row>): nat
  {
    if rows == [] then 0 else rows[0].size + Charge(rows[1..])
  }

  lemma {:induction false} ChargeSplit(a: seq<Row>, b: seq<Row>)
    ensures Charge(a + b) == Charge(a) + Charge(b)
  {
    if a == [] {
      assert a + b == b;
    } else {
      assert (a + b)[1..] == a[1..] + b;
      ChargeSplit(a[1..], b);
    }
  }

  /** Where the rows of one stream are kept: a bounded log that is reclaimed, or a history that only grows. */
  class Producer {
    const history: bool
    const origin: nat
    var rows: seq<Row>
    var anchor: nat
    var bytes: nat
    ghost var appended: seq<Row>

    ghost predicate Valid()
      reads this
    {
      anchor <= |rows| && (history || (anchor == 0 && bytes == Charge(rows))) && Tagged(rows, origin)
    }

    function Live(): seq<Row>
      requires Valid()
      reads this
    {
      rows[anchor..]
    }

    constructor (history: bool, origin: nat)
      ensures Valid() && Live() == [] && appended == []
    {
      this.history, this.origin, rows, anchor, bytes, appended := history, origin, [], 0, 0, [];
    }

    method Append(row: Row)
      requires Valid() && row.origin == origin
      modifies this
      ensures Valid() && Live() == old(Live()) + [row] && appended == old(appended) + [row]
      ensures !history ==> bytes == old(bytes) + row.size
    {
      ChargeSplit(rows, [row]);
      assert (rows + [row])[anchor..] == rows[anchor..] + [row];
      rows, appended, bytes := rows + [row], appended + [row], bytes + row.size;
    }

    /** Gives up the first n live rows; a log also gives back exactly what they were charged. */
    method Reclaim(n: nat)
      requires Valid() && n <= |Live()|
      modifies this`rows, this`anchor, this`bytes
      ensures Valid() && Live() == old(Live())[n..]
      ensures bytes == old(bytes) - (if history then 0 else Charge(old(Live())[..n]))
      ensures history ==> rows == old(rows)
    {
      if history {
        assert rows[anchor..][n..] == rows[anchor + n..];
        anchor := anchor + n;
      } else {
        assert rows[..n] + rows[n..] == rows;
        ChargeSplit(rows[..n], rows[n..]);
        bytes := bytes - Charge(rows[..n]);
        rows := rows[n..];
      }
    }
  }

  /** The one write job: what it saves, from which producer, whether the writer thread has ended, and how. */
  datatype Job = Job(segment: Segment, parts: seq<seq<Row>>, done: bool, error: Option<Code>)

  datatype Closeout = Closeout(committed: nat, unpersisted: seq<nat>, error: Option<Code>)

  datatype Bounds = Bounds(maxSegments: nat, maxRecords: nat, maxBytes: nat, maxTotalBytes: nat)

  datatype Identity = Identity(format: nat, run: nat, baseline: nat, channel: nat)

  /** Facts about the host and session that a manifest repeats, and the transport's count of dropped feedback. */
  datatype Observed = Observed(facts: nat, dropped: nat)

  class ObservationRecorder {
    const codec: Codec
    const bounds: Bounds
    const who: Identity
    const producers: seq<Producer>
    /** The stream each producer writes; the CAN senders share one. */
    const stream: seq<nat>
    const streams: nat
    var job: Option<Job>
    var commits: seq<Segment>
    var counts: seq<nat>
    var previous: nat
    var dropped: nat
    var usedBytes: nat
    var failed: Option<Code>
    var closeout: Option<Closeout>

    function Here(): Cursor
      reads this`commits, this`counts, this`previous, this`dropped
    {
      Cursor(|commits|, who.run, previous, counts, dropped)
    }

    /** The committed segments form a chain of this run and the recorder stands at its end. */
    ghost predicate Linked()
      reads this`commits, this`counts, this`previous, this`dropped, this`usedBytes
    {
      && |counts| == streams
      && (forall i :: 0 <= i < |commits| ==> OfRun(commits[i]))
      && (commits != [] ==> Chained(codec, who.baseline, commits) && Here() == At(codec, commits, |commits|))
      && (commits == [] ==> previous == GENESIS && counts == seq(streams, _ => 0))
      && usedBytes == Bytes(codec, commits) <= bounds.maxTotalBytes
      && |commits| <= bounds.maxSegments
    }

    predicate OfRun(s: Segment)
    {
      && s.link.run == who.run && s.archive.manifest.run == who.run && s.archive.manifest.channel == who.channel
      && s.archive.manifest.format == who.format && |s.archive.rows| == streams
      && codec.size(LinkText(s.link)) <= DESCRIPTOR_BYTES
    }

    /** The segment being written continues the chain and holds rows that are still live. */
    ghost predicate Pending(s: Segment, parts: seq<seq<Row>>)
      reads this`commits, this`counts, this`previous, this`dropped, this`usedBytes, producers
    {
      && Apart() && Next(s) && Parted(parts)
      && s.archive.rows == Merged(parts, stream, streams)
      && forall k :: 0 <= k < |producers| ==> parts[k] <= producers[k].Live()
    }

    /** Rows of every producer, each its own. */
    ghost predicate Parted(parts: seq<seq<Row>>)
    {
      && |parts| == |producers| == |stream|
      && forall k :: 0 <= k < |producers| ==> Tagged(parts[k], producers[k].origin)
    }

    ghost function Origins(): (r: seq<nat>)
      ensures |r| == |producers|
    {
      seq(|producers|, k requires 0 <= k < |producers| => producers[k].origin)
    }

    ghost predicate Apart()
      reads producers
    {
      && (forall i, j :: 0 <= i < j < |producers| ==> producers[i] != producers[j])
      && |stream| == |producers| && Told(stream, Origins()) && (forall k :: 0 <= k < |stream| ==> stream[k] < streams)
      && forall k :: 0 <= k < |producers| ==> producers[k].Valid()
    }

    /**
     * Nothing ever observed is lost or repeated: what is saved of a producer, then what is live, is what it appended;
     * a stream of one producer is saved as it was appended.
     */
    ghost predicate Complete()
      requires Apart()
      reads this`commits, producers
    {
      forall k :: 0 <= k < |producers| ==>
        && From(Saved(commits, stream[k]), producers[k].origin) + producers[k].Live() == producers[k].appended
        && (Alone(stream, k) ==> Saved(commits, stream[k]) + producers[k].Live() == producers[k].appended)
    }

    ghost predicate Valid()
      reads this, producers
    {
      && Apart() && Complete() && Linked()
      && (job.Some? ==> Pending(job.value.segment, job.value.parts))
    }

    constructor (codec: Codec, bounds: Bounds, who: Identity, producers: seq<Producer>, stream: seq<nat>, streams: nat,
                 dropped: nat)
      requires |stream| == |producers| && forall k :: 0 <= k < |stream| ==> stream[k] < streams
      requires forall i, j :: 0 <= i < j < |stream| && stream[i] == stream[j] ==> producers[i].origin != producers[j].origin
      requires forall i, j :: 0 <= i < j < |producers| ==> producers[i] != producers[j]
      requires forall k :: 0 <= k < |producers| ==> producers[k].Valid() && producers[k].anchor == 0
      modifies set k | 0 <= k < |producers| :: producers[k]`appended
      ensures Valid() && this.producers == producers && commits == [] && job.None? && failed.None? && closeout.None?
      ensures forall k :: 0 <= k < |producers| ==> producers[k].appended == producers[k].rows == old(producers[k].rows)
    {
      hide Charge, Complete, Linked, Valid;
      this.codec, this.bounds, this.who, this.producers, this.dropped := codec, bounds, who, producers, dropped;
      this.stream, this.streams := stream, streams;
      job, commits, counts, previous, usedBytes, failed, closeout :=
        None, [], seq(streams, _ => 0), GENESIS, 0, None, None;
      new;
      forall k | 0 <= k < |producers| {
        producers[k].appended := producers[k].rows;
      }
      assert forall k :: 0 <= k < |producers| ==> producers[k].Valid() && producers[k].Live() == producers[k].appended;
      NothingSaved();
    }

    lemma NothingSaved()
      requires Apart() && job.None? && commits == [] && previous == GENESIS && counts == seq(streams, _ => 0) && usedBytes == 0
      requires forall k :: 0 <= k < |producers| ==> producers[k].Live() == producers[k].appended
      ensures Valid()
    {
      hide Chained, ArchiveValid, Producer.Live, Producer.Valid;
    }

    /** A producer keeps appending, whatever the recorder is doing. */
    method Observe(k: nat, row: Row)
      requires Valid() && k < |producers| && row.origin == producers[k].origin
      modifies producers[k]
      ensures Valid() && producers[k].Live() == old(producers[k].Live()) + [row]
      ensures producers[k].appended == old(producers[k].appended) + [row]
    {
      hide Linked, Next, Chained, Merged, From, Saved, Told, Charge, Producer.Live, Producer.Valid, Tagged, Origins, Alone, Parted;
      producers[k].Append(row);
    }

    ghost predicate Snapped(parts: seq<seq<Row>>)
      requires Apart()
      reads producers
    {
      |parts| == |producers| && forall k :: 0 <= k < |producers| ==> parts[k] == producers[k].Live()
    }

    method Snapshot() returns (parts: seq<seq<Row>>)
      requires Apart()
      ensures Snapped(parts) && Parted(parts)
    {
      parts := [];
      for k := 0 to |producers|
        invariant |parts| == k && forall j :: 0 <= j < k ==>
          parts[j] == producers[j].Live() && Tagged(parts[j], producers[j].origin)
      {
        LiveTagged(k);
        parts := parts + [producers[k].Live()];
      }
    }

    lemma LiveTagged(k: nat)
      requires k < |producers| && producers[k].Valid()
      ensures Tagged(producers[k].Live(), producers[k].origin)
    {
    }

    /** Starts saving everything now live as the next segment; one job at a time. */
    method Flush(seen: Observed, started: bool) returns (r: Result<nat>)
      requires Valid()
      modifies this`job, this`failed
      ensures Valid()
      ensures r.Ok? ==> started && old(failed).None? && old(job).None? && r.value == |commits| && failed.None? && job.Some?
      ensures r.Ok? ==> !job.value.done && Snapped(job.value.parts)
      ensures r.Ok? ==> |stream| == |job.value.parts| && job.value.segment.archive.rows == Merged(job.value.parts, stream, streams)
      ensures r.Err? ==> (job == old(job) && failed == old(failed)) || (failed == Some(State) && old(job).None? && old(failed).None?)
      ensures old(failed).Some? || old(job).Some? || closeout.Some? ==> r.Err?
    {
      hide Chained, ArchiveValid, Follows, Complete, Bytes, Saved;
      if failed.Some? || closeout.Some? {
        return Err(State);
      }
      if job.Some? {
        return Err(BufferFull);
      }
      if |commits| >= bounds.maxSegments {
        return Err(Capacity);
      }
      var parts := Snapshot();
      var rows := Merged(parts, stream, streams);
      var archive := Archive(Manifest(who.format, who.run, who.baseline, who.channel, seen.facts, codec.hash(RecordsText(rows)),
                                      Counts(rows), RowCount(rows), seen.dropped), rows);
      if !ArchiveValid(codec, who.baseline, archive, bounds.maxRecords, bounds.maxBytes) {
        return Err(Capacity);
      }
      var link := Link(who.format, |commits|, |commits|, who.run, who.baseline, previous, codec.hash(ManifestText(archive.manifest)),
                       codec.hash(RecordsText(rows)), counts, Ends(counts, rows), dropped, seen.dropped);
      if !Follows(codec, link, archive, Here()) {
        return Err(Resource);
      }
      var s := Segment(link, archive);
      if codec.size(LinkText(link)) > DESCRIPTOR_BYTES || usedBytes + SegmentSize(codec, s) > bounds.maxTotalBytes {
        return Err(Capacity);
      }
      assert Pending(s, parts);
      job := Some(Job(s, parts, false, None));
      if !started {
        job, failed := Some(Job(s, parts, true, Some(State))), Some(State);
        return Err(State);
      }
      return Ok(|commits|);
    }

    /** The writer thread ends, with everything on disk or not. */
    method WriteEnds(written: bool)
      requires Valid() && job.Some? && !job.value.done
      modifies this`job
      ensures Valid() && job == Some(old(job).value.(done := true, error := if written then None else Some(Resource)))
    {
      hide Chained, Complete, Linked, Pending;
      job := Some(job.value.(done := true, error := if written then None else Some(Resource)));
    }

    /** Gives up, in every stream, the rows of a saved segment; what was appended since is untouched. */
    method ReclaimAll(parts: seq<seq<Row>>)
      requires Apart() && |parts| == |producers| && forall k :: 0 <= k < |producers| ==> parts[k] <= producers[k].Live()
      modifies producers
      ensures Apart()
      ensures forall k :: 0 <= k < |producers| ==>
        && producers[k].appended == old(producers[k].appended)
        && old(producers[k].Live()) == parts[k] + producers[k].Live()
        && producers[k].bytes == old(producers[k].bytes) - (if producers[k].history then 0 else Charge(parts[k]))
    {
      for i := 0 to |producers|
        invariant Apart()
        invariant forall k :: 0 <= k < |producers| ==> producers[k].appended == old(producers[k].appended)
        invariant forall k :: i <= k < |producers| ==>
          producers[k].Live() == old(producers[k].Live()) && producers[k].bytes == old(producers[k].bytes)
        invariant forall k :: 0 <= k < i ==>
          && old(producers[k].Live()) == parts[k] + producers[k].Live()
          && producers[k].bytes == old(producers[k].bytes) - (if producers[k].history then 0 else Charge(parts[k]))
      {
        assert producers[i].Live()[..|parts[i]|] == parts[i];
        producers[i].Reclaim(|parts[i]|);
      }
    }

    lemma Extended(s: Segment)
      requires Linked() && OfRun(s) && ArchiveValid(codec, who.baseline, s.archive, bounds.maxRecords, bounds.maxBytes)
      requires Follows(codec, s.link, s.archive, Here())
      ensures Chained(codec, who.baseline, commits + [s])
      ensures At(codec, commits + [s], |commits| + 1) == AfterLink(codec, s.link)
      ensures Bytes(codec, commits + [s]) == Bytes(codec, commits) + SegmentSize(codec, s)
      ensures forall k :: 0 <= k < |s.archive.rows| ==> Saved(commits + [s], k) == Saved(commits, k) + s.archive.rows[k]
    {
      hide Chained, Follows, RowCount, Small, Ends;
      assert (commits + [s])[..|commits|] == commits;
      FollowsParts(codec, s.link, s.archive, Here());
      assert At(codec, commits + [s], |commits|) == Here();
      ChainedExtend(codec, who.baseline, commits, s);
    }

    /** Commits a segment that was written and read back unchanged; only then are its rows reclaimed, all of them. */
    method PollJob(readback: Option<Segment>, hold: bool) returns (r: Result<bool>)
      requires Valid()
      modifies this`job, this`commits, this`counts, this`previous, this`dropped, this`usedBytes, this`failed, producers
      ensures Valid() && old(commits) <= commits
      ensures forall k :: 0 <= k < |producers| ==> producers[k].appended == old(producers[k].appended)
      ensures r == Ok(true) <==>
        old(failed).None? && old(job).Some? && old(job).value.done && old(job).value.error.None?
        && readback == Some(old(job).value.segment) && !hold
      ensures r == Ok(true) ==> commits == old(commits) + [old(job).value.segment] && job.None? && failed.None?
      ensures r == Ok(true) ==> forall k :: 0 <= k < |producers| ==>
        && k < |old(job).value.parts| && old(producers[k].Live()) == old(job).value.parts[k] + producers[k].Live()
        && producers[k].bytes
             == old(producers[k].bytes) - (if producers[k].history then 0 else Charge(old(job).value.parts[k]))
      ensures r != Ok(true) ==> commits == old(commits) && job == old(job) && usedBytes == old(usedBytes)
      ensures r != Ok(true) ==> forall k :: 0 <= k < |producers| ==> unchanged(producers[k])
      ensures r.Ok? ==> failed == old(failed)
      ensures r.Err? <==> failed.Some?
    {
      hide Chained, ArchiveValid, Follows, Bytes, Saved, Linked, Complete, Charge, Producer.Live, Producer.Valid;
      if failed.Some? {
        return Err(failed.value);
      }
      if job.None? || !job.value.done {
        return Ok(false);
      }
      if job.value.error.Some? {
        failed := job.value.error;
        return Err(failed.value);
      }
      var s := job.value.segment;
      if readback != Some(s) {
        failed := Some(Resource);
        return Err(Resource);
      }
      if hold {
        return Ok(false);
      }
      Commit(s, job.value.parts);
      return Ok(true);
    }

    method Poll(readback: Option<Segment>, hold: bool) returns (r: Result<bool>)
      requires Valid()
      modifies this`job, this`commits, this`counts, this`previous, this`dropped, this`usedBytes, this`failed, producers
      ensures Valid() && old(commits) <= commits
      ensures forall k :: 0 <= k < |producers| ==> producers[k].appended == old(producers[k].appended)
      ensures r == Ok(true) <==> closeout.None? && |commits| > |old(commits)|
      ensures r.Err? <==> closeout.Some? || failed.Some?
    {
      hide Valid;
      if closeout.Some? {
        return Err(State);
      }
      r := PollJob(readback, hold);
    }

    /** Gives each stream back as far as it was saved; whatever is not is counted as unpersisted, never dropped. */
    method Close(join: Option<bool>, readback: Option<Segment>, hold: bool, checkpoint: Result<()>) returns (r: Result<Closeout>)
      requires Valid()
      modifies this`job, this`commits, this`counts, this`previous, this`dropped, this`usedBytes, this`failed, this`closeout, producers
      ensures Valid() && old(commits) <= commits
      ensures forall k :: 0 <= k < |producers| ==> producers[k].appended == old(producers[k].appended)
      ensures old(closeout).Some? ==> r == Ok(old(closeout).value) && commits == old(commits)
      ensures if r.Ok? then closeout == Some(r.value) else closeout.None?
      ensures r.Ok? && old(closeout).None? ==>
        && r.value.committed == |commits| && Unpersisted(r.value.unpersisted)
        && r.value.error == failed && (failed.None? ==> job.None?)
    {
      hide Apart, Complete, Linked, Pending, Producer.Live, Producer.Valid, Unpersisted, Snapped, Merged, Counts, Charge,
        From, Saved, Told, Tagged, Origins, Parted, Next;
      if closeout.Some? {
        return Ok(closeout.value);
      }
      if job.Some? && !job.value.done {
        if join.None? {
          return Err(Timeout);
        }
        WriteEnds(join.value);
      }
      if failed.None? {
        var polled := PollJob(readback, hold);
      }
      if job.Some? && failed.None? {
        return Err(State);
      }
      var unpersisted := CountLive();
      if checkpoint.Err? {
        failed := Some(if checkpoint.code == Capacity then Capacity else Resource);
      }
      closeout := Some(Closeout(|commits|, unpersisted, failed));
      return Ok(closeout.value);
    }

    /** The live rows of every stream, counted. */
    ghost predicate Unpersisted(unpersisted: seq<nat>)
      requires Apart()
      reads producers
    {
      exists parts :: Snapped(parts) && unpersisted == Counts(Merged(parts, stream, streams))
    }

    method CountLive() returns (counts: seq<nat>)
      requires Apart()
      ensures Unpersisted(counts)
    {
      var parts := Snapshot();
      counts := Counts(Merged(parts, stream, streams));
    }

    /** Everything committed is read back by any reader whose limits exceed its totals; its counts are exact. */
    lemma ReadsBack(lim: Limits)
      requires Valid() && commits != [] && forall t: Text :: codec.size(t) > 0
      requires |commits| <= lim.maxSegments && usedBytes <= lim.maxBytes && Records(commits) <= lim.maxRecords
      ensures Readable(codec, who.baseline, lim, commits, Some((|commits|, previous)))
      ensures forall s :: 0 <= s < streams ==> counts[s] == |Saved(commits, s)|
    {
      hide Chained, Follows, ArchiveValid, RowCount, Saved, Complete, Pending;
      assert OfRun(commits[0]);
      ReadableWithin(codec, who.baseline, lim, commits);
      forall k | 0 <= k < streams ensures counts[k] == |Saved(commits, k)| {
        CountsSaved(codec, who.baseline, commits, |commits|, k);
        assert commits[..|commits|] == commits;
      }
    }

    method Commit(s: Segment, parts: seq<seq<Row>>)
      requires Apart() && Complete() && Linked() && Pending(s, parts)
      modifies this`job, this`commits, this`counts, this`previous, this`dropped, this`usedBytes, producers
      ensures Valid() && commits == old(commits) + [s] && job.None?
      ensures forall k :: 0 <= k < |producers| ==> producers[k].appended == old(producers[k].appended)
      ensures forall k :: 0 <= k < |producers| ==> old(producers[k].Live()) == parts[k] + producers[k].Live()
      ensures forall k :: 0 <= k < |producers| ==>
        producers[k].bytes == old(producers[k].bytes) - (if producers[k].history then 0 else Charge(parts[k]))
    {
      hide Chained, ArchiveValid, Follows, Bytes, Saved, Charge, SegmentSize, Producer.Live, Producer.Valid, Linked, Here, OfRun;
      ReclaimAll(parts);
      forall k | 0 <= k < |producers|
        ensures From(Saved(commits, stream[k]) + s.archive.rows[stream[k]], producers[k].origin) + producers[k].Live()
          == producers[k].appended
        ensures Alone(stream, k) ==>
          (Saved(commits, stream[k]) + s.archive.rows[stream[k]]) + producers[k].Live() == producers[k].appended
      {
        OwnRows(parts, k);
        SavedOn(Saved(commits, stream[k]), s.archive.rows[stream[k]], producers[k].origin, Alone(stream, k),
                old(producers[k].Live()), parts[k], producers[k].Live(), producers[k].appended);
      }
      Advance(s);
    }

    /** A producer's rows can be told from its stream's. */
    lemma OwnRows(parts: seq<seq<Row>>, k: nat)
      requires Apart() && Parted(parts) && k < |producers|
      ensures From(Merged(parts, stream, streams)[stream[k]], producers[k].origin) == parts[k]
      ensures Alone(stream, k) ==> Merged(parts, stream, streams)[stream[k]] == parts[k]
    {
      FromMerged(parts, stream, Origins(), k);
      if Alone(stream, k) {
        MergedAlone(parts, stream, k);
      }
    }

    /** The segment about to be committed continues the chain. */
    ghost predicate Next(s: Segment)
      reads this`commits, this`counts, this`previous, this`dropped, this`usedBytes
    {
      && OfRun(s) && |commits| < bounds.maxSegments
      && ArchiveValid(codec, who.baseline, s.archive, bounds.maxRecords, bounds.maxBytes)
      && Follows(codec, s.link, s.archive, Here())
      && usedBytes + SegmentSize(codec, s) <= bounds.maxTotalBytes
    }

    method Advance(s: Segment)
      requires Apart() && Linked() && Next(s)
      requires forall k :: 0 <= k < |producers| ==>
        && From(Saved(commits, stream[k]) + s.archive.rows[stream[k]], producers[k].origin) + producers[k].Live()
             == producers[k].appended
        && (Alone(stream, k) ==>
              (Saved(commits, stream[k]) + s.archive.rows[stream[k]]) + producers[k].Live() == producers[k].appended)
      modifies this`job, this`commits, this`counts, this`previous, this`dropped, this`usedBytes
      ensures Valid() && commits == old(commits) + [s] && job.None?
    {
      hide Chained, ArchiveValid, Follows, Bytes, Saved, SegmentSize, Producer.Live, Producer.Valid;
      Extended(s);
      FollowsParts(codec, s.link, s.archive, Here());
      counts, dropped, previous := s.link.ends, s.link.after, codec.hash(LinkText(s.link));
      usedBytes, commits, job := usedBytes + SegmentSize(codec, s), commits + [s], None;
    }
  }

  /** One more saved stretch of a stream, for one of its producers. */
  lemma SavedOn(saved: seq<Row>, more: seq<Row>, origin: nat, alone: bool, before: seq<Row>, part: seq<Row>, after: seq<Row>,
                appended: seq<Row>)
    requires From(saved, origin) + before == appended && (alone ==> saved + before == appended)
    requires before == part + after && From(more, origin) == part && (alone ==> more == part)
    ensures From(saved + more, origin) + after == appended && (alone ==> (saved + more) + after == appended)
  {
    FromAppend(saved, more, origin);
    hide From;
  }

  lemma FollowsParts(c: Codec, link: Link, a: Archive, at: Cursor)
    requires Follows(c, link, a, at)
    ensures link.run == at.run && link.index == at.index && link.before == at.dropped && link.previous == at.previous
    ensures link.starts == at.counts && |at.counts| == |a.rows| == |link.ends|
  {
  }
}
