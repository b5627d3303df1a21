/** Opening a root of published objects: every directory found there is inspected before any is trusted. */
module Opening {
  import opened Common
  import opened Ordered
  import opened Storage

  /** A directory under `objects`; `manifest` is absent when its file is not a readable manifest. */
  datatype Directory = Directory(sha: nat, manifest: Option<Manifest>, data: seq<byte>)

  function Bare(): Shelf { Shelf(Empty(), Empty(), [], 0, map[]) }

  /** One more directory: counted, inspected, listed, and charged. */
  function Listed(cfg: Limits, s: Shelf, d: Directory): Result<Shelf>
  {
    if s.completed.Size() >= cfg.maxObjects then Err(Capacity)
    else if d.manifest.None? then Err(Resource)
    else
      var _ :- Inspect(cfg, d.sha, d.data, d.manifest.value);
      if ReservedBytes(Added(s, d)) > cfg.maxTotal then Err(Capacity) else Ok(Added(s, d))
  }

  function Added(s: Shelf, d: Directory): Shelf
    requires d.manifest.Some?
  {
    s.(completed := s.completed.Put(d.sha, d.manifest.value), objects := s.objects[d.sha := d.data])
  }

  function Opened(cfg: Limits, s: Shelf, found: seq<Directory>): Result<Shelf>
    decreases |found|
  {
    if found == [] then Ok(s)
    else
      var r :- Listed(cfg, s, found[0]);
      Opened(cfg, r, found[1..])
  }

  /** The names under one directory are distinct. */
  predicate Distinct(found: seq<Directory>)
  {
    forall i, j :: 0 <= i < j < |found| ==> found[i].sha != found[j].sha
  }

  /** No upload is under way and nothing is kept of any. */
  predicate Quiet(s: Shelf)
  {
    s.active == Empty() && s.aborted == [] && s.evidence == 0
  }

  lemma BareInv(cfg: Limits)
    ensures ShelfInv(cfg, Bare()) && Quiet(Bare())
  {
  }

  lemma ListedInv(cfg: Limits, s: Shelf, d: Directory)
    requires ShelfInv(cfg, s) && Quiet(s) && d.sha !in s.completed.vals && Listed(cfg, s, d).Ok?
    ensures ShelfInv(cfg, Listed(cfg, s, d).value) && Quiet(Listed(cfg, s, d).value)
    ensures Listed(cfg, s, d).value.completed.vals.Keys == s.completed.vals.Keys + {d.sha}
  {
    hide *;
    ListedParts(cfg, s, d);
    ShelfParts(cfg, s);
    AddedParts(s, d);
    ObjectsPut(cfg, s, Added(s, d), d.sha, d.manifest.value, d.data);
    QuietCounted(cfg, s, d);
    ShelfParts(cfg, Added(s, d));
  }

  lemma ListedParts(cfg: Limits, s: Shelf, d: Directory)
    requires Listed(cfg, s, d).Ok?
    ensures d.manifest.Some? && Inspect(cfg, d.sha, d.data, d.manifest.value).Ok? && Listed(cfg, s, d).value == Added(s, d)
    ensures s.completed.Size() < cfg.maxObjects && ReservedBytes(Added(s, d)) <= cfg.maxTotal
  {
    hide Inspect, ReservedBytes;
  }

  lemma AddedParts(s: Shelf, d: Directory)
    requires d.manifest.Some?
    ensures var r := Added(s, d);
      && r.completed.vals == s.completed.vals[d.sha := d.manifest.value] && r.objects == s.objects[d.sha := d.data]
      && r.completed.vals.Keys == s.completed.vals.Keys + {d.sha}
      && (s.completed.Valid() ==> r.completed.Valid())
      && (s.completed.Valid() && d.sha !in s.completed.vals ==> |r.completed.keys| == s.completed.Size() + 1)
      && r.active == s.active && r.aborted == s.aborted && r.evidence == s.evidence
  {
  }

  /** With no upload under way, only the objects count. */
  lemma QuietCounted(cfg: Limits, s: Shelf, d: Directory)
    requires Quiet(s) && Accounted(cfg, s) && Counted(cfg, s) && s.completed.Valid()
    requires d.manifest.Some? && d.sha !in s.completed.vals
    requires s.completed.Size() < cfg.maxObjects && ReservedBytes(Added(s, d)) <= cfg.maxTotal
    ensures var r := Added(s, d); Quiet(r) && Accounted(cfg, r) && Counted(cfg, r) && UploadsInv(cfg, r)
  {
    AddedParts(s, d);
    hide Added, ReservedBytes, UploadInv, OrderedDict.Valid;
  }

  lemma OpenedNext(cfg: Limits, s: Shelf, found: seq<Directory>, i: nat)
    requires i < |found|
    ensures var r := Listed(cfg, s, found[i]);
      Opened(cfg, s, found[i..]) == if r.Err? then Err(r.code) else Opened(cfg, r.value, found[i + 1..])
  {
    assert found[i..][0] == found[i] && found[i..][1..] == found[i + 1..];
  }

  // ---------------------------------------------------------------- reopening a store's own objects

  /** The directories are a store's published objects, all of them, in any order. */
  predicate Shows(found: seq<Directory>, s: Shelf)
  {
    && Distinct(found)
    && (forall i :: 0 <= i < |found| ==> OwnObject(found[i], s))
    && (forall sha :: sha in s.completed.vals ==> exists i :: 0 <= i < |found| && found[i].sha == sha)
  }

  predicate OwnObject(d: Directory, s: Shelf)
  {
    && d.sha in s.completed.vals && d.sha in s.objects
    && d.manifest == Some(s.completed.vals[d.sha]) && d.data == s.objects[d.sha]
  }

  /** Part of a store's objects, listed so far. */
  ghost predicate Within(r: Shelf, s: Shelf)
  {
    && r.completed.Valid() && Quiet(r)
    && (forall sha :: sha in r.completed.vals ==> sha in s.completed.vals && r.completed.vals[sha] == s.completed.vals[sha])
    && (forall sha :: sha in r.objects ==> sha in s.objects && r.objects[sha] == s.objects[sha])
    && r.objects.Keys == r.completed.vals.Keys
  }

  lemma {:induction false} SubsetTotal(some: seq<nat>, all: seq<nat>, weight: nat -> nat)
    requires NoDup(some) && NoDup(all) && forall k :: k in some ==> k in all
    ensures |some| <= |all| && Total(some, weight) <= Total(all, weight)
  {
    if some != [] {
      var k := some[0];
      assert NoDup(some[1..]) && k !in some[1..];
      TotalWithout(all, k, weight);
      SubsetTotal(some[1..], Without(all, k), weight);
    }
  }

  /** A part of a store's objects weighs no more than the store. */
  lemma WithinCounts(cfg: Limits, r: Shelf, s: Shelf)
    requires ShelfInv(cfg, s) && Within(r, s)
    ensures |r.completed.keys| <= |s.completed.keys| <= cfg.maxObjects && ReservedBytes(r) <= cfg.maxTotal
  {
    hide Inspect, UploadInv;
    TotalSame(r.completed.keys, ObjectSize(r.completed), ObjectSize(s.completed));
    SubsetTotal(r.completed.keys, s.completed.keys, ObjectSize(s.completed));
  }

  lemma AddedWithin(r: Shelf, s: Shelf, d: Directory)
    requires Within(r, s) && OwnObject(d, s)
    ensures Within(Added(r, d), s) && Added(r, d).completed.vals.Keys == r.completed.vals.Keys + {d.sha}
  {
    AddedParts(r, d);
    hide Added, OrderedDict.Valid;
  }

  lemma AddedListed(cfg: Limits, r: Shelf, d: Directory)
    requires d.manifest.Some? && Inspect(cfg, d.sha, d.data, d.manifest.value).Ok?
    requires r.completed.Size() < cfg.maxObjects && ReservedBytes(Added(r, d)) <= cfg.maxTotal
    ensures Listed(cfg, r, d) == Ok(Added(r, d))
  {
    hide Inspect, ReservedBytes;
  }

  lemma OwnInspects(cfg: Limits, s: Shelf, d: Directory)
    requires ShelfInv(cfg, s) && OwnObject(d, s)
    ensures d.manifest.Some? && Inspect(cfg, d.sha, d.data, d.manifest.value).Ok?
  {
    hide Inspect, UploadInv, Accounted, Counted;
  }

  /** One more of a store's own objects is always taken. */
  lemma OwnListed(cfg: Limits, s: Shelf, r: Shelf, d: Directory)
    requires ShelfInv(cfg, s) && Within(r, s) && OwnObject(d, s) && d.sha !in r.completed.vals
    ensures Listed(cfg, r, d).Ok? && Within(Listed(cfg, r, d).value, s)
    ensures Listed(cfg, r, d).value.completed.vals.Keys == r.completed.vals.Keys + {d.sha}
  {
    assert r.completed.Valid();
    hide *;
    OwnInspects(cfg, s, d);
    AddedWithin(r, s, d);
    WithinCounts(cfg, Added(r, d), s);
    AddedParts(r, d);
    AddedListed(cfg, r, d);
  }

  /** Reopening a root that holds exactly a store's published objects succeeds and finds exactly those. */
  lemma {:induction false} Reopens(cfg: Limits, s: Shelf, r: Shelf, found: seq<Directory>, i: nat)
    requires ShelfInv(cfg, s) && Within(r, s) && i <= |found|
    requires Distinct(found) && forall j :: 0 <= j < |found| ==> OwnObject(found[j], s)
    requires forall sha :: sha in r.completed.vals <==> exists j :: 0 <= j < i && found[j].sha == sha
    ensures var t := Opened(cfg, r, found[i..]);
      && t.Ok? && Within(t.value, s)
      && (forall sha :: sha in t.value.completed.vals <==> exists j :: 0 <= j < |found| && found[j].sha == sha)
    decreases |found| - i
  {
    hide *;
    if i == |found| {
      assert found[i..] == [];
      OpenedNone(cfg, r);
    } else {
      OpenedNext(cfg, r, found, i);
      NotYet(found, r, i);
      OwnListed(cfg, s, r, found[i]);
      var next := Listed(cfg, r, found[i]).value;
      forall sha ensures sha in next.completed.vals <==> exists j :: 0 <= j < i + 1 && found[j].sha == sha {
        if sha == found[i].sha {
          assert found[i].sha == sha;
        }
      }
      Reopens(cfg, s, next, found, i + 1);
    }
  }

  lemma OpenedNone(cfg: Limits, r: Shelf)
    ensures Opened(cfg, r, []) == Ok(r)
  {
  }

  lemma ListedNames(found: seq<Directory>, i: nat, before: set<nat>, after: set<nat>)
    requires i < |found| && after == before + {found[i].sha}
    requires forall sha :: sha in before <==> exists j :: 0 <= j < i && found[j].sha == sha
    ensures forall sha :: sha in after <==> exists j :: 0 <= j < i + 1 && found[j].sha == sha
  {
  }

  lemma BareQuiet()
    ensures Quiet(Bare()) && Bare().completed.vals == map[]
  {
  }

  lemma QuietParts(s: Shelf)
    requires Quiet(s)
    ensures s == Shelf(Empty(), s.completed, [], 0, s.objects)
  {
  }

  lemma NotYet(found: seq<Directory>, r: Shelf, i: nat)
    requires Distinct(found) && i < |found|
    requires forall sha :: sha in r.completed.vals <==> exists j :: 0 <= j < i && found[j].sha == sha
    ensures found[i].sha !in r.completed.vals
  {
  }

  /** A closed store's root opens again, whatever the order its directories are found in, with the same manifests. */
  lemma ReopensWhole(cfg: Limits, s: Shelf, found: seq<Directory>)
    requires ShelfInv(cfg, s) && Shows(found, s)
    ensures var t := Opened(cfg, Bare(), found);
      t.Ok? && t.value.completed.vals == s.completed.vals
      && t.value.objects == map sha | sha in s.completed.vals && sha in s.objects :: s.objects[sha]
  {
    hide *;
    assert found[0..] == found;
    BareWithin(s);
    ShowsParts(found, s);
    Reopens(cfg, s, Bare(), found, 0);
    WholeWithin(Opened(cfg, Bare(), found).value, s, found);
  }

  lemma ShowsParts(found: seq<Directory>, s: Shelf)
    requires Shows(found, s)
    ensures Distinct(found) && forall j :: 0 <= j < |found| ==> OwnObject(found[j], s)
    ensures forall sha :: sha in s.completed.vals <==> exists i :: 0 <= i < |found| && found[i].sha == sha
  {
    hide Distinct;
  }

  lemma WholeWithin(r: Shelf, s: Shelf, found: seq<Directory>)
    requires Within(r, s)
    requires forall sha :: sha in s.completed.vals <==> exists i :: 0 <= i < |found| && found[i].sha == sha
    requires forall sha :: sha in r.completed.vals <==> exists i :: 0 <= i < |found| && found[i].sha == sha
    ensures r.completed.vals == s.completed.vals
    ensures r.objects == map sha | sha in s.completed.vals && sha in s.objects :: s.objects[sha]
  {
    SameKeys(r, s, found);
    WithinObjects(r, s);
  }

  lemma SameKeys(r: Shelf, s: Shelf, found: seq<Directory>)
    requires forall sha :: sha in s.completed.vals <==> exists i :: 0 <= i < |found| && found[i].sha == sha
    requires forall sha :: sha in r.completed.vals <==> exists i :: 0 <= i < |found| && found[i].sha == sha
    ensures r.completed.vals.Keys == s.completed.vals.Keys
  {
    forall sha ensures sha in r.completed.vals <==> sha in s.completed.vals {
    }
  }

  lemma WithinObjects(r: Shelf, s: Shelf)
    requires Within(r, s) && r.completed.vals.Keys == s.completed.vals.Keys
    ensures r.completed.vals == s.completed.vals
    ensures r.objects == map sha | sha in s.completed.vals && sha in s.objects :: s.objects[sha]
  {
  }

  lemma BareWithin(s: Shelf)
    ensures Within(Bare(), s) && Bare().completed.vals == map[]
  {
  }
}
