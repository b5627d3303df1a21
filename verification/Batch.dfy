/** The inputs of one model step may be applied in any order. */
module Batch {
  import opened Common
  import opened Ordered
  import opened Queue

  type Ports = map<nat, nat>

  function ApplyValues(ports: Ports, values: seq<Value>): Ports
    decreases |values|
  {
    if values == [] then ports else ApplyValues(ports[values[0].path := values[0].content], values[1..])
  }

  /** Writing the inputs one after another. */
  function ApplyAll(ports: Ports, items: seq<Pending>): Ports
    decreases |items|
  {
    if items == [] then ports else ApplyAll(ApplyValues(ports, items[0].values), items[1..])
  }

  /** No path is written twice, neither by one input nor by two. */
  ghost predicate DisjointWrites(items: seq<Pending>)
  {
    && (forall i :: 0 <= i < |items| ==> DistinctPaths(items[i].values))
    && forall i, j, path :: 0 <= i < j < |items| && Writes(items[i], path) ==> !Writes(items[j], path)
  }

  ghost predicate WrittenBy(items: seq<Pending>, path: nat)
  {
    exists p :: p in items && Writes(p, path)
  }

  lemma {:induction false} ApplyValuesEffect(ports: Ports, values: seq<Value>, path: nat)
    requires DistinctPaths(values)
    ensures path !in Paths(values) ==>
      (path in ApplyValues(ports, values) <==> path in ports) &&
      (path in ports ==> ApplyValues(ports, values)[path] == ports[path])
    ensures forall i :: 0 <= i < |values| && values[i].path == path ==>
      path in ApplyValues(ports, values) && ApplyValues(ports, values)[path] == values[i].content
    decreases |values|
  {
    if values != [] {
      assert forall i :: 0 < i < |values| ==> values[i] == values[1..][i - 1];
      ApplyValuesEffect(ports[values[0].path := values[0].content], values[1..], path);
      PathsOf(values, path);
      PathsOf(values[1..], path);
    }
  }

  /** Each written path ends with its own input's content, and no other path changes. */
  lemma {:induction false} ApplyAllEffect(ports: Ports, items: seq<Pending>, path: nat)
    requires DisjointWrites(items)
    ensures !WrittenBy(items, path) ==>
      (path in ApplyAll(ports, items) <==> path in ports) &&
      (path in ports ==> ApplyAll(ports, items)[path] == ports[path])
    ensures forall p, i :: p in items && 0 <= i < |p.values| && p.values[i].path == path ==>
      path in ApplyAll(ports, items) && ApplyAll(ports, items)[path] == p.values[i].content
    decreases |items|
  {
    if items != [] {
      var first, rest := items[0], items[1..];
      assert forall i :: 0 < i < |items| ==> items[i] == rest[i - 1];
      var after := ApplyValues(ports, first.values);
      ApplyValuesEffect(ports, first.values, path);
      ApplyAllEffect(after, rest, path);
      assert forall p :: p in items <==> p == first || p in rest;
      if Writes(first, path) {
        assert !WrittenBy(rest, path);
      } else {
        PathsOf(first.values, path);
      }
      forall p, i | p in items && 0 <= i < |p.values| && p.values[i].path == path
        ensures path in ApplyAll(ports, items) && ApplyAll(ports, items)[path] == p.values[i].content
      {
        assert Writes(p, path);
      }
    }
  }

  /** A batch of disjoint writes has the same effect in every order. */
  lemma OrderIrrelevant(ports: Ports, a: seq<Pending>, b: seq<Pending>)
    requires DisjointWrites(a) && DisjointWrites(b) && forall p :: p in a <==> p in b
    ensures ApplyAll(ports, a) == ApplyAll(ports, b)
  {
    forall path: nat
      ensures path in ApplyAll(ports, a) <==> path in ApplyAll(ports, b)
      ensures path in ApplyAll(ports, a) ==> ApplyAll(ports, a)[path] == ApplyAll(ports, b)[path]
    {
      ApplyAllEffect(ports, a, path);
      ApplyAllEffect(ports, b, path);
      if WrittenBy(a, path) {
        var p :| p in a && Writes(p, path);
        PathsOf(p.values, path);
        assert p in b;
      }
    }
  }

  /** Inputs pending for one step of one model write disjoint paths. */
  lemma PendingDisjoint(cfg: Settings, s: Store, items: seq<Pending>, model: nat, step: nat)
    requires StoreInv(cfg, s)
    requires forall i :: 0 <= i < |items| ==>
      && items[i].model == model && items[i].targetStep == step
      && items[i].key in s.pending.vals && s.pending.vals[items[i].key] == items[i]
    requires forall i, j :: 0 <= i < j < |items| ==> items[i].key != items[j].key
    ensures DisjointWrites(items)
  {
    forall i | 0 <= i < |items| ensures DistinctPaths(items[i].values) {
      assert PendingInv(cfg, items[i].key, s.pending.vals[items[i].key], s.steps);
    }
    forall i, j, path | 0 <= i < j < |items| && Writes(items[i], path) ensures !Writes(items[j], path) {
      if Writes(items[j], path) {
        DisjointSlots(cfg, s, items[i].key, items[j].key, path);
      }
    }
  }
}
